/** The compiler is correct: the emitted module, run from a call of any of its functions, does exactly what the
    dataflow semantics of the HUGR does. */
module Correctness {
  import opened Values
  import opened Machine
  import opened Hugr
  import opened Typing
  import opened SimBase
  import opened TypedEmission
  import EmitModule
  import Namer
  import opened Simulation

  /** A call of `f` from outside. */
  function Launch(w: World, code: map<NodeId, Code>, f: NodeId, args: seq<Val>): Config {
    Invoke(code, w.x, f, EncAll(args), Bottom)
  }

  /** The value that a result row is returned as. */
  function Answer(os: seq<Val>): Config {
    Halted(Aggregate(EncAll(os)))
  }

  /** The HUGR returns `os`, given fuel enough. */
  ghost predicate Returns(w: World, f: NodeId, args: seq<Val>, os: seq<Val>) {
    exists fuel: nat :: EvalCall(w, fuel, f, args) == Ok(os)
  }

  ghost predicate Diverges(w: World, f: NodeId, args: seq<Val>) {
    forall fuel: nat :: EvalCall(w, fuel, f, args) == NoFuel
  }

  /** The HUGR asks for no value that is not there. */
  ghost predicate NeverWrong(w: World, f: NodeId, args: seq<Val>) {
    forall fuel: nat :: EvalCall(w, fuel, f, args) != Wrong
  }

  /** The emitted code stops in `v` and nothing else. */
  ghost predicate Stops(w: World, code: map<NodeId, Code>, f: NodeId, args: seq<Val>, v: Config) {
    !v.Run? && exists k: nat :: Steps(code, w.x, k, Launch(w, code, f, args)) == v
  }

  /** Where a run that stops can be after `n` steps. */
  lemma StopsOnce(code: map<NodeId, Code>, x: Sem, c: Config, k: nat, n: nat)
    requires !Steps(code, x, k, c).Run? && k <= n
    ensures Steps(code, x, n, c) == Steps(code, x, k, c)
  {
    StepsAdd(code, x, k, n - k, c);
    StoppedStays(code, x, n - k, Steps(code, x, k, c));
  }

  /** A result of the HUGR is the result of the emitted code. */
  lemma ReturnsAreComputed(w: World, code: map<NodeId, Code>, f: NodeId, args: seq<Val>, os: seq<Val>)
    requires Compiled(w, code) && Returns(w, f, args, os)
    ensures Stops(w, code, f, args, Answer(os))
  {
    hide Compiled, EvalCall, EncAll, Aggregate, Steps;
    var fuel: nat :| EvalCall(w, fuel, f, args) == Ok(os);
    var k := SimFunc(w, code, fuel, f, args, Bottom);
    assert Steps(code, w.x, k, Launch(w, code, f, args)) == Answer(os);
  }

  /** What the emitted code can be doing after `n` steps. */
  lemma AfterSteps(w: World, code: map<NodeId, Code>, f: NodeId, args: seq<Val>, n: nat)
    requires Compiled(w, code) && NeverWrong(w, f, args)
    ensures EvalCall(w, n, f, args).NoFuel? ==> Steps(code, w.x, n, Launch(w, code, f, args)).Run?
    ensures EvalCall(w, n, f, args).Ok? ==>
              Steps(code, w.x, n, Launch(w, code, f, args)).Run?
              || Steps(code, w.x, n, Launch(w, code, f, args)) == Answer(EvalCall(w, n, f, args).value)
  {
    hide Compiled, EvalCall, EncAll, Aggregate, Steps;
    var c := Launch(w, code, f, args);
    var k := SimFunc(w, code, n, f, args, Bottom);
    if !Steps(code, w.x, n, c).Run? {
      if n <= k {
        StopsOnce(code, w.x, c, n, k);
      } else if EvalCall(w, n, f, args).Ok? {
        StopsOnce(code, w.x, c, k, n);
      }
    }
  }

  /** The emitted code never gets stuck: no mailbox is read before it is written, no register before it is
      defined, no branch is taken on poison, and every call finds its function. */
  lemma NeverStuck(w: World, code: map<NodeId, Code>, f: NodeId, args: seq<Val>, n: nat)
    requires Compiled(w, code) && NeverWrong(w, f, args)
    ensures Steps(code, w.x, n, Launch(w, code, f, args)) != Stuck
  {
    hide Compiled, EvalCall, EncAll, Aggregate, Steps;
    AfterSteps(w, code, f, args, n);
    assert EvalCall(w, n, f, args) != Wrong;
  }

  /** The emitted code stops exactly with the results of the HUGR. */
  lemma StopsIffReturns(w: World, code: map<NodeId, Code>, f: NodeId, args: seq<Val>, v: Config)
    requires Compiled(w, code) && NeverWrong(w, f, args)
    ensures Stops(w, code, f, args, v) <==> exists os :: Returns(w, f, args, os) && v == Answer(os)
  {
    hide Compiled, EvalCall, EncAll, Aggregate, Steps;
    if Stops(w, code, f, args, v) {
      var k: nat :| Steps(code, w.x, k, Launch(w, code, f, args)) == v;
      AfterSteps(w, code, f, args, k);
      assert EvalCall(w, k, f, args) != Wrong;
      assert Returns(w, f, args, EvalCall(w, k, f, args).value);
    }
    if os :| Returns(w, f, args, os) && v == Answer(os) {
      ReturnsAreComputed(w, code, f, args, os);
    }
  }

  /** The emitted code runs forever exactly when the HUGR does. */
  lemma RunsIffDiverges(w: World, code: map<NodeId, Code>, f: NodeId, args: seq<Val>)
    requires Compiled(w, code) && NeverWrong(w, f, args)
    ensures (forall n: nat :: Steps(code, w.x, n, Launch(w, code, f, args)).Run?) <==> Diverges(w, f, args)
  {
    hide Compiled, EvalCall, EncAll, Aggregate, Steps;
    var c := Launch(w, code, f, args);
    if Diverges(w, f, args) {
      forall n: nat ensures Steps(code, w.x, n, c).Run? {
        AfterSteps(w, code, f, args, n);
        assert EvalCall(w, n, f, args) == NoFuel;
      }
    } else {
      var fuel: nat :| EvalCall(w, fuel, f, args) != NoFuel;
      assert EvalCall(w, fuel, f, args) != Wrong;
      var os := EvalCall(w, fuel, f, args).value;
      assert Returns(w, f, args, os);
      ReturnsAreComputed(w, code, f, args, os);
      var k: nat :| Steps(code, w.x, k, Launch(w, code, f, args)) == Answer(os);
      assert !Steps(code, w.x, k, c).Run?;
    }
  }

  /** All of this for every well-typed, well-scoped program, on arguments of the function's input types; and
      results have the function's output types. */
  lemma CompiledCorrectly(w: World, code: map<NodeId, Code>, f: NodeId, args: seq<Val>)
    requires Compiled(w, code) && TypedWorld(w) && f in w.funcs && HasTys(w, args, w.funcs[f].ins)
    ensures forall v :: Stops(w, code, f, args, v) <==> exists os :: Returns(w, f, args, os) && v == Answer(os)
    ensures (forall n: nat :: Steps(code, w.x, n, Launch(w, code, f, args)).Run?) <==> Diverges(w, f, args)
    ensures forall n: nat :: Steps(code, w.x, n, Launch(w, code, f, args)) != Stuck
    ensures forall os :: Returns(w, f, args, os) ==> HasTys(w, os, w.funcs[f].outs)
  {
    hide Compiled, EvalCall, EncAll, Aggregate, Steps, TypedWorld, HasTys, Stops, Returns, Diverges;
    forall fuel: nat ensures Safe(w, EvalCall(w, fuel, f, args), w.funcs[f].outs) {
      CallSafe(w, fuel, f, args);
    }
    SafeNeverWrong(w, f, args, w.funcs[f].outs);
    forall v ensures Stops(w, code, f, args, v) <==> exists os :: Returns(w, f, args, os) && v == Answer(os) {
      StopsIffReturns(w, code, f, args, v);
    }
    RunsIffDiverges(w, code, f, args);
    forall n: nat ensures Steps(code, w.x, n, Launch(w, code, f, args)) != Stuck {
      NeverStuck(w, code, f, args, n);
    }
  }

  lemma SafeNeverWrong(w: World, f: NodeId, args: seq<Val>, outs: seq<Ty>)
    requires forall fuel: nat :: Safe(w, EvalCall(w, fuel, f, args), outs)
    ensures NeverWrong(w, f, args) && forall os :: Returns(w, f, args, os) ==> HasTys(w, os, outs)
  {
    hide EvalCall, HasTys;
    forall fuel: nat ensures EvalCall(w, fuel, f, args) != Wrong {
      assert Safe(w, EvalCall(w, fuel, f, args), outs);
    }
    forall os | Returns(w, f, args, os) ensures HasTys(w, os, outs) {
      var fuel: nat :| EvalCall(w, fuel, f, args) == Ok(os);
      assert Safe(w, EvalCall(w, fuel, f, args), outs);
    }
  }

  /** The module that a successful emission leaves behind, its functions looked up by symbol, behaves as the HUGR. */
  lemma EmittedModuleIsCorrect(namer: Namer.Namer, cg: Types.Codegen, p: EmitModule.Prog, funcs: EmitModule.Funcs,
                               emitted: set<NodeId>, x: Sem, f: NodeId, args: seq<Val>)
    requires EmitModule.ValidProg(p) && EmitModule.Consistent(namer, cg, p, funcs, emitted) && HandlersMatch(x)
    requires EmitModule.SymbolsApart(namer, p, emitted)
    requires f in emitted && TypedWorld(EmitModule.WorldOf(p, emitted, x)) && f in p.defs
    requires HasTys(EmitModule.WorldOf(p, emitted, x), args, p.defs[f].ins)
    ensures var w, code := EmitModule.WorldOf(p, emitted, x), EmitModule.CodeOf(namer, p, funcs);
      && (forall v :: Stops(w, code, f, args, v) <==> exists os :: Returns(w, f, args, os) && v == Answer(os))
      && ((forall n: nat :: Steps(code, x, n, Launch(w, code, f, args)).Run?) <==> Diverges(w, f, args))
      && forall n: nat :: Steps(code, x, n, Launch(w, code, f, args)) != Stuck
  {
    hide EmitModule.Consistent, EmitModule.ValidProg, TypedWorld, HasTys, Steps, EvalCall, Compiled, Stops, Returns,
      Diverges, Launch, EmitModule.CodeOf, EmitModule.SymbolsApart, HandlersMatch;
    EmitModule.ModuleIsCompiled(namer, cg, p, funcs, emitted, x);
    CompiledCorrectly(EmitModule.WorldOf(p, emitted, x), EmitModule.CodeOf(namer, p, funcs), f, args);
  }

  /** Every emitted function is in the module with the signature it has in the HUGR, and with well-typed code. */
  lemma EmittedModuleIsTyped(namer: Namer.Namer, cg: Types.Codegen, p: EmitModule.Prog, funcs: EmitModule.Funcs,
                             emitted: set<NodeId>, x: Sem, f: NodeId)
    requires EmitModule.ValidProg(p) && EmitModule.Consistent(namer, cg, p, funcs, emitted)
    requires f in emitted && TypedWorld(EmitModule.WorldOf(p, emitted, x))
    ensures EmitModule.Signed(namer, cg.types, p, funcs, f) && f in p.defs
    ensures var fun, w := funcs[Namer.NameFunc(namer, p.defs[f].name, f)], EmitModule.WorldOf(p, emitted, x);
      fun.body.Some? && WellTyped(w, p.defs[f].ins, p.defs[f].outs, fun.body.value.slots, fun.body.value.code)
  {
    hide TypedRegion, WellTyped, ValidFunc, Scopes.TypedEdges, Scopes.NamesIn, EmitModule.Signed, Emit.EmitFunc,
      Namer.NameFunc, Types.MapFunctionType, Types.AllMet;
    assert EmitModule.Defined(namer, cg, p, funcs, f);
    EmitModule.DeclaredSigned(namer, cg.types, p, funcs, f);
    FoundInWorld(p, emitted, x, f);
    assert f in EmitModule.WorldOf(p, emitted, x).funcs;
    EmittedCodeIsTyped(EmitModule.WorldOf(p, emitted, x), p.defs[f]);
  }

  /** What an emitted function returns inhabits the return type it has in the module. */
  lemma ReturnsInhabit(namer: Namer.Namer, cg: Types.Codegen, p: EmitModule.Prog, funcs: EmitModule.Funcs,
                       emitted: set<NodeId>, x: Sem, f: NodeId, args: seq<Val>, v: LVal)
    requires EmitModule.ValidProg(p) && EmitModule.Consistent(namer, cg, p, funcs, emitted) && HandlersMatch(x)
    requires EmitModule.SymbolsApart(namer, p, emitted)
    requires f in emitted && TypedWorld(EmitModule.WorldOf(p, emitted, x)) && f in p.defs
    requires var w := EmitModule.WorldOf(p, emitted, x);
      HasTys(w, args, p.defs[f].ins) && Stops(w, EmitModule.CodeOf(namer, p, funcs), f, args, Halted(v))
    requires forall i :: 0 <= i < |p.defs[f].outs| ==> Types.SmallTy(p.defs[f].outs[i])
    ensures EmitModule.Declared(namer, cg.types, p, funcs, f)
    ensures var ret := funcs[Namer.NameFunc(namer, p.defs[f].name, f)].ty.ret;
      && (ret.None? <==> p.defs[f].outs == [])
      && (ret.Some? ==> Types.HasLTy(EmitModule.WorldOf(p, emitted, x), cg.types, v, ret.value))
  {
    hide TypedWorld, HasTys, Steps, EvalCall, Compiled, Stops, Returns, Diverges, Launch, EmitModule.CodeOf,
      EmitModule.SymbolsApart, EmitModule.ValidProg, HandlersMatch, Emit.EmitFunc, Namer.NameFunc,
      Types.MapFunctionType, Types.HasLTy, Types.SmallTy, Scopes.NamesIn, Types.AllMet, EncAll;
    var w, code := EmitModule.WorldOf(p, emitted, x), EmitModule.CodeOf(namer, p, funcs);
    assert EmitModule.Defined(namer, cg, p, funcs, f);
    hide EmitModule.Consistent, EmitModule.WorldOf;
    EmitModule.ModuleIsCompiled(namer, cg, p, funcs, emitted, x);
    FoundInWorld(p, emitted, x, f);
    CompiledCorrectly(w, code, f, args);
    var os :| Returns(w, f, args, os) && Halted(v) == Answer(os);
    ResultsInhabit(w, cg.types, os, p.defs[f].ins, p.defs[f].outs);
  }

  lemma FoundInWorld(p: EmitModule.Prog, emitted: set<NodeId>, x: Sem, f: NodeId)
    requires f in emitted && f in p.defs
    ensures var w := EmitModule.WorldOf(p, emitted, x); f in w.funcs && w.funcs[f] == p.defs[f]
  {
  }

  lemma ResultsInhabit(w: World, hooks: Types.Hooks, os: seq<Val>, ins: seq<Ty>, outs: seq<Ty>)
    requires HasTys(w, os, outs) && Types.MapFunctionType(hooks, ins, outs).Some?
    requires forall i :: 0 <= i < |outs| ==> Types.SmallTy(outs[i])
    ensures var ret := Types.MapFunctionType(hooks, ins, outs).value.ret;
      (ret.None? <==> outs == []) && (ret.Some? ==> Types.HasLTy(w, hooks, Aggregate(EncAll(os)), ret.value))
  {
    hide HasTy, Types.MapFunctionType, Types.HasLTy, Types.SmallTy, Types.SmallSums;
    forall i | 0 <= i < |os| ensures Types.SmallSums(os[i]) {
      HasTysAt(w, os, outs, i);
      Types.SmallVal(w, os[i], outs[i]);
    }
    Types.ReturnTyped(w, hooks, os, ins, outs);
  }
}
