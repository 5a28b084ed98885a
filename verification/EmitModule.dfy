/** Emission of whole modules: functions are looked up or added by symbol, and a worklist follows the definitions
    scoped inside the functions already emitted. */
module EmitModule {
  import opened Values
  import opened Machine
  import opened Hugr
  import opened Emit
  import opened Emitters
  import opened Namer
  import opened Scopes
  import opened Types
  import SimBase

  /** The functions of a HUGR by node. */
  datatype Prog = Prog(defs: map<NodeId, FuncDefn>, decls: map<NodeId, FuncDecl>)

  /** A function of an LLVM module, declared or defined. */
  datatype Fun = Fun(ty: FnTy, body: Option<Emitted>)

  type Funcs = map<string, Fun>

  datatype ModuleChild = DefnChild(f: NodeId) | DeclChild(f: NodeId) | ConstChild | OtherChild

  function Scoped(p: Prog, f: NodeId): set<NodeId> {
    if f in p.defs then NamesIn(p.defs[f].nodes).scoped else {}
  }

  function Called(p: Prog, f: NodeId): set<NodeId> {
    if f in p.defs then NamesIn(p.defs[f].nodes).called else {}
  }

  /** Functions are valid, their edges are typed, and what is scoped in a body is a definition. */
  ghost predicate ValidProg(p: Prog) {
    && p.defs.Keys !! p.decls.Keys
    && forall f :: f in p.defs ==> ValidFunc(p.defs[f]) && TypedEdges(p.defs[f]) && Scoped(p, f) <= p.defs.Keys
  }

  // ----- symbols and types -----

  function IsFunc(p: Prog, f: NodeId): bool {
    f in p.defs || f in p.decls
  }

  function Symbol(namer: Namer, p: Prog, f: NodeId): string
    requires IsFunc(p, f)
  {
    NameFunc(namer, if f in p.defs then p.defs[f].name else p.decls[f].name, f)
  }

  function TypeOf(hooks: Hooks, p: Prog, f: NodeId): Option<FnTy>
    requires IsFunc(p, f)
  {
    if f in p.defs then MapFunctionType(hooks, p.defs[f].ins, p.defs[f].outs)
    else MapFunctionType(hooks, p.decls[f].ins, p.decls[f].outs)
  }

  /** `f` is in the module under its symbol, with its type. */
  ghost predicate Declared(namer: Namer, hooks: Hooks, p: Prog, funcs: Funcs, f: NodeId) {
    IsFunc(p, f) && Symbol(namer, p, f) in funcs && TypeOf(hooks, p, f) == Some(funcs[Symbol(namer, p, f)].ty)
  }

  /** `f` is in the module under its mangled name, with one parameter per input, of its type and in order, and its
      outputs as the result. */
  ghost predicate Signed(namer: Namer, hooks: Hooks, p: Prog, funcs: Funcs, f: NodeId) {
    && IsFunc(p, f)
    && (f in p.defs ==>
          && NameFunc(namer, p.defs[f].name, f) in funcs
          && SignedAs(hooks, funcs[NameFunc(namer, p.defs[f].name, f)].ty, p.defs[f].ins, p.defs[f].outs))
    && (f !in p.defs ==>
          && NameFunc(namer, p.decls[f].name, f) in funcs
          && SignedAs(hooks, funcs[NameFunc(namer, p.decls[f].name, f)].ty, p.decls[f].ins, p.decls[f].outs))
  }

  lemma DeclaredSigned(namer: Namer, hooks: Hooks, p: Prog, funcs: Funcs, f: NodeId)
    requires Declared(namer, hooks, p, funcs, f)
    ensures Signed(namer, hooks, p, funcs, f)
  {
    hide MapFunctionType, SignedAs, NameFunc;
    if f in p.defs {
      FunctionTypeSigned(hooks, p.defs[f].ins, p.defs[f].outs);
    } else {
      FunctionTypeSigned(hooks, p.decls[f].ins, p.decls[f].outs);
    }
  }

  ghost predicate Defined(namer: Namer, cg: Codegen, p: Prog, funcs: Funcs, f: NodeId) {
    && f in p.defs && Declared(namer, cg.types, p, funcs, f)
    && var s := EmitFunc(p.defs[f]);
       && !s.failed && AllMet(cg, s.needs)
       && funcs[Symbol(namer, p, f)].body == Some(Emitted(s.code, s.order, s.slots, s.todo, s.refs))
  }

  /** The definitions in the module are exactly the emitted functions, each under a symbol of its own; everything
      they call is there. */
  ghost predicate Consistent(namer: Namer, cg: Codegen, p: Prog, funcs: Funcs, emitted: set<NodeId>) {
    && (forall f :: f in emitted ==> Defined(namer, cg, p, funcs, f))
    && (forall f, g :: f in emitted && g in emitted && Symbol(namer, p, f) == Symbol(namer, p, g) ==> f == g)
    && (forall s :: s in funcs && funcs[s].body.Some? ==> exists f :: f in emitted && Symbol(namer, p, f) == s)
    && (forall f, g :: f in emitted && g in Called(p, f) ==> Declared(namer, cg.types, p, funcs, g))
  }

  /** Functions are added, never removed or given another type or body. */
  ghost predicate Extends(a: Funcs, b: Funcs) {
    forall s :: s in a ==> s in b && b[s].ty == a[s].ty && (a[s].body.Some? ==> b[s].body == a[s].body)
  }

  /** Only what had a body in `a` has one in `b`, and it is the same. */
  ghost predicate NoNewBodies(a: Funcs, b: Funcs) {
    forall s :: s in b && b[s].body.Some? ==> s in a && a[s] == b[s]
  }

  class EmitModuleContext {
    const namer: Namer
    const codegen: Codegen
    var funcs: Funcs

    constructor (namer: Namer, codegen: Codegen)
      ensures this.namer == namer && this.codegen == codegen && funcs == map[]
    {
      this.namer, this.codegen, funcs := namer, codegen, map[];
    }

    /** Adds or gets a function; an error if it is there with another type. */
    method GetFuncImpl(symbol: string, ty: FnTy) returns (ok: bool)
      modifies this
      ensures funcs == if symbol in old(funcs) then old(funcs) else old(funcs)[symbol := Fun(ty, None)]
      ensures ok <==> funcs[symbol].ty == ty
    {
      if symbol !in funcs {
        funcs := funcs[symbol := Fun(ty, None)];
      }
      ok := funcs[symbol].ty == ty;
    }

    method GetHugrFunc(p: Prog, f: NodeId) returns (ok: bool)
      modifies this
      ensures Extends(old(funcs), funcs) && NoNewBodies(old(funcs), funcs)
      ensures ok ==> Declared(namer, codegen.types, p, funcs, f) && Signed(namer, codegen.types, p, funcs, f)
      ensures ok <==> IsFunc(p, f) && TypeOf(codegen.types, p, f).Some?
                      && (Symbol(namer, p, f) in old(funcs) ==>
                        old(funcs)[Symbol(namer, p, f)].ty == TypeOf(codegen.types, p, f).value)
      ensures IsFunc(p, f) ==> forall s :: s in funcs && s !in old(funcs) ==>
                s == Symbol(namer, p, f) && TypeOf(codegen.types, p, f) == Some(funcs[s].ty)
      ensures !IsFunc(p, f) ==> funcs == old(funcs)
    {
      if f !in p.defs && f !in p.decls {
        return false;
      }
      var ty := TypeOf(codegen.types, p, f);
      if ty == None {
        return false;
      }
      ok := GetFuncImpl(Symbol(namer, p, f), ty.value);
      if ok { DeclaredSigned(namer, codegen.types, p, funcs, f); }
    }
  }

  // ----- what can be emitted -----

  /** `f` is one of the functions `e`, or called or loaded by one of them. */
  ghost predicate Referred(p: Prog, e: set<NodeId>, f: NodeId) {
    f in e || exists g :: g in e && f in Called(p, g)
  }

  /** The condition for the functions `e` to be emitted together: what they refer to are functions with LLVM types;
      everything their bodies need is there; each has a symbol of its own; and functions that share a symbol have the
      same type. */
  ghost predicate Emittable(namer: Namer, cg: Codegen, p: Prog, e: set<NodeId>) {
    && (forall f :: Referred(p, e, f) ==> IsFunc(p, f) && TypeOf(cg.types, p, f).Some?)
    && (forall f :: f in e ==> f in p.defs && AllMet(cg, FuncNeeds(p.defs[f])))
    && (forall f, g :: f in e && g in e && Symbol(namer, p, f) == Symbol(namer, p, g) ==> f == g)
    && (forall f, g :: Referred(p, e, f) && Referred(p, e, g) && Symbol(namer, p, f) == Symbol(namer, p, g) ==>
      TypeOf(cg.types, p, f) == TypeOf(cg.types, p, g))
  }

  /** Everything in the module is there for the sake of `e`. */
  ghost predicate OnlyFrom(namer: Namer, cg: Codegen, p: Prog, funcs: Funcs, e: set<NodeId>) {
    forall s :: s in funcs ==> exists f ::
      Referred(p, e, f) && IsFunc(p, f) && Symbol(namer, p, f) == s && TypeOf(cg.types, p, f) == Some(funcs[s].ty)
  }

  /** With node postfixes on, symbols never clash. */
  lemma PostfixesSeparate(namer: Namer, p: Prog, f: NodeId, g: NodeId)
    requires namer.postfixNode && IsFunc(p, f) && IsFunc(p, g) && Symbol(namer, p, f) == Symbol(namer, p, g)
    ensures f == g
  {
    SharedSymbol(namer, if f in p.defs then p.defs[f].name else p.decls[f].name, f,
                 if g in p.defs then p.defs[g].name else p.decls[g].name, g);
  }

  // ----- what is to be emitted -----

  ghost predicate IsPath(p: Prog, path: seq<NodeId>) {
    |path| > 0 && forall i :: 0 <= i < |path| - 1 ==> path[i + 1] in Scoped(p, path[i])
  }

  ghost predicate PathTo(p: Prog, root: NodeId, path: seq<NodeId>, f: NodeId) {
    IsPath(p, path) && path[0] == root && path[|path| - 1] == f
  }

  /** `f` is `root`, or defined somewhere inside it. */
  ghost predicate Inside(p: Prog, root: NodeId, f: NodeId) {
    exists path :: PathTo(p, root, path, f)
  }

  lemma InsideSelf(p: Prog, root: NodeId)
    ensures Inside(p, root, root)
  {
    assert PathTo(p, root, [root], root);
  }

  lemma InsideStep(p: Prog, root: NodeId, f: NodeId, g: NodeId)
    requires Inside(p, root, f) && g in Scoped(p, f)
    ensures Inside(p, root, g)
  {
    var path :| PathTo(p, root, path, f);
    assert PathTo(p, root, path + [g], g);
  }

  ghost predicate ClosedUnder(p: Prog, e: set<NodeId>) {
    forall f :: f in e ==> Scoped(p, f) <= e
  }

  /** A closed set that holds a root holds everything inside it. */
  lemma {:induction false} ClosedHolds(p: Prog, e: set<NodeId>, path: seq<NodeId>)
    requires ClosedUnder(p, e) && IsPath(p, path) && path[0] in e
    ensures path[|path| - 1] in e
    decreases path
  {
    if |path| > 1 {
      assert path[1] in Scoped(p, path[0]);
      ClosedHolds(p, e, path[1..]);
    }
  }

  // ----- adding a definition -----

  lemma AddDefinition(namer: Namer, cg: Codegen, p: Prog, funcs0: Funcs, funcs: Funcs, emitted: set<NodeId>, f: NodeId,
                      body: Emitted)
    requires Consistent(namer, cg, p, funcs0, emitted) && Extends(funcs0, funcs) && f in p.defs && f !in emitted
    requires NoNewBodies(funcs0, funcs)
    requires Declared(namer, cg.types, p, funcs, f) && funcs[Symbol(namer, p, f)].body.None?
    requires forall g :: g in Called(p, f) ==> Declared(namer, cg.types, p, funcs, g)
    requires var s := EmitFunc(p.defs[f]);
      !s.failed && AllMet(cg, s.needs) && body == Emitted(s.code, s.order, s.slots, s.todo, s.refs)
    ensures var sym := Symbol(namer, p, f); var funcs' := funcs[sym := funcs[sym].(body := Some(body))];
      Consistent(namer, cg, p, funcs', emitted + {f}) && Extends(funcs0, funcs')
  {
    hide EmitFunc, NamesIn, NameFunc, MapFunctionType, AllMet;
    var sym := Symbol(namer, p, f);
    var funcs' := funcs[sym := funcs[sym].(body := Some(body))];
    forall g | g in emitted ensures Symbol(namer, p, g) != sym {
      assert Defined(namer, cg, p, funcs0, g);
    }
    forall g | Declared(namer, cg.types, p, funcs0, g) || Declared(namer, cg.types, p, funcs, g)
      ensures Declared(namer, cg.types, p, funcs', g)
    {
    }
    forall g | g in emitted ensures Defined(namer, cg, p, funcs', g) {
      assert Defined(namer, cg, p, funcs0, g);
    }
    assert Defined(namer, cg, p, funcs', f);
    forall s | s in funcs' && funcs'[s].body.Some? ensures exists g :: g in emitted + {f} && Symbol(namer, p, g) == s {
      if s == sym {
        assert f in emitted + {f};
      } else {
        var g :| g in emitted && Symbol(namer, p, g) == s;
        assert g in emitted + {f};
      }
    }
  }

  ghost predicate InsideSome(p: Prog, children: seq<ModuleChild>, f: NodeId) {
    exists c :: c in children && c.DefnChild? && Inside(p, c.f, f)
  }

  lemma InsideMore(p: Prog, children: seq<ModuleChild>, c: ModuleChild)
    ensures forall f :: InsideSome(p, children + [c], f) <==>
      InsideSome(p, children, f) || (c.DefnChild? && Inside(p, c.f, f))
  {
    forall f ensures InsideSome(p, children + [c], f) <==>
      InsideSome(p, children, f) || (c.DefnChild? && Inside(p, c.f, f)) {
      if InsideSome(p, children, f) {
        var d :| d in children && d.DefnChild? && Inside(p, d.f, f);
        assert d in children + [c];
      }
      if c.DefnChild? && Inside(p, c.f, f) {
        assert c in children + [c];
      }
    }
  }

  class EmitHugr {
    const p: Prog
    const context: EmitModuleContext
    var emitted: set<NodeId>

    ghost predicate Valid()
      reads this, context
    {
      ValidProg(p) && emitted <= p.defs.Keys && Consistent(context.namer, context.codegen, p, context.funcs, emitted)
    }

    /** The functions `e` can be emitted, and nothing stands in their way. */
    ghost predicate Clean(e: set<NodeId>)
      reads this, context
    {
      && ClosedUnder(p, e) && emitted <= e && Emittable(context.namer, context.codegen, p, e)
      && OnlyFrom(context.namer, context.codegen, p, context.funcs, e)
    }

    constructor (p: Prog, namer: Namer, codegen: Codegen)
      requires ValidProg(p)
      ensures Valid() && this.p == p && context.namer == namer && context.codegen == codegen && emitted == {}
      ensures fresh(context)
      ensures context.funcs == map[]
    {
      this.p := p;
      context := new EmitModuleContext(namer, codegen);
      emitted := {};
    }

    /** Declares everything a function calls. */
    method DeclareCalled(f: NodeId, refs: set<NodeId>, ghost e: set<NodeId>) returns (ok: bool)
      requires f in p.defs && refs == Called(p, f)
      modifies context
      ensures Extends(old(context.funcs), context.funcs)
      ensures NoNewBodies(old(context.funcs), context.funcs)
      ensures ok ==> forall g :: g in refs ==> Declared(context.namer, context.codegen.types, p, context.funcs, g)
      ensures old(Clean(e)) && f in e ==> ok && Clean(e)
    {
      hide NamesIn, NameFunc, MapFunctionType, AllMet, FuncNeeds, ClosedUnder;
      var left := refs;
      while left != {}
        invariant left <= refs
        invariant Extends(old(context.funcs), context.funcs)
        invariant NoNewBodies(old(context.funcs), context.funcs)
        invariant forall g :: g in refs && g !in left ==>
          Declared(context.namer, context.codegen.types, p, context.funcs, g)
        invariant old(Clean(e)) && f in e ==> Clean(e)
        decreases |left|
      {
        var g :| g in left;
        left := left - {g};
        ghost var before := context.funcs;
        ok := context.GetHugrFunc(p, g);
        assert f in e ==> Referred(p, e, g);
        StaysClean(context.namer, context.codegen, p, before, context.funcs, e, g);
        if !ok {
          return;
        }
      }
      ok := true;
    }

    /** Emits one function unless that has been done; returns the definitions found in its body. */
    method EmitFuncImpl(f: NodeId, ghost e: set<NodeId>) returns (ok: bool, todo: set<NodeId>)
      requires Valid() && f in p.defs
      modifies this, context
      ensures ok ==> Valid() && emitted == old(emitted) + {f} && Extends(old(context.funcs), context.funcs)
      ensures ok ==> todo == if f in old(emitted) then {} else Scoped(p, f)
      ensures ok ==> Signed(context.namer, context.codegen.types, p, context.funcs, f)
      ensures old(Clean(e)) && f in e ==> ok && Clean(e)
    {
      hide EmitFunc, NamesIn, NameFunc, MapFunctionType, Consistent, OnlyFrom, ValidFunc, Symbol, TypeOf, AllMet,
        FuncNeeds, ClosedUnder, Emittable, TypedEdges;
      ok, todo := true, {};
      if f in emitted {
        EmittedSigned(context.namer, context.codegen, p, context.funcs, emitted, f);
        return;
      }
      ghost var clean := Clean(e) && f in e;
      emitted := emitted + {f};
      ghost var funcs0 := context.funcs;
      ok := context.GetHugrFunc(p, f);
      var sym := Symbol(context.namer, p, f);
      assert f in e ==> Referred(p, e, f);
      StaysClean(context.namer, context.codegen, p, funcs0, context.funcs, e, f);
      OthersDefined(context.namer, context.codegen, p, funcs0, old(emitted), e, f);
      if !ok || context.funcs[sym].body.Some? {
        return false, {};
      }
      assert clean ==> Clean(e);
      FunctionNames(p.defs[f]);
      ValidEmits(context.namer, context.codegen, p, e, f);
      var r := EmitFuncDefn(context.codegen, p.defs[f]);
      if r == None {
        return false, {};
      }
      ok := DeclareCalled(f, r.value.refs, e);
      if !ok {
        return false, {};
      }
      AddDefinition(context.namer, context.codegen, p, funcs0, context.funcs, old(emitted), f, r.value);
      BodyClean(context.namer, context.codegen, p, context.funcs, e, sym, r.value);
      context.funcs := context.funcs[sym := context.funcs[sym].(body := Some(r.value))];
      todo := r.value.todo;
    }

    /** Emits `root` and every definition inside it, each once. */
    method EmitFuncDefnTree(root: NodeId, ghost e: set<NodeId>) returns (ok: bool)
      requires Valid() && ClosedUnder(p, emitted) && root in p.defs
      modifies this, context
      ensures ok ==> Valid() && ClosedUnder(p, emitted) && Extends(old(context.funcs), context.funcs)
      ensures ok ==> forall f :: f in emitted <==> f in old(emitted) || Inside(p, root, f)
      ensures old(Clean(e)) && root in e ==> ok && Clean(e)
    {
      hide Consistent, NamesIn, Emittable, OnlyFrom, ValidFunc, TypedEdges;
      var worklist := {root};
      InsideSelf(p, root);
      while worklist != {}
        invariant Valid() && worklist <= p.defs.Keys && root in emitted + worklist
        invariant Extends(old(context.funcs), context.funcs)
        invariant forall f :: f in worklist ==> Inside(p, root, f)
        invariant old(emitted) <= emitted && forall f :: f in emitted ==> f in old(emitted) || Inside(p, root, f)
        invariant forall f :: f in emitted ==> Scoped(p, f) <= emitted + worklist
        invariant old(Clean(e)) && root in e ==> Clean(e) && worklist <= e
        decreases p.defs.Keys - emitted, |worklist|
      {
        var next :| next in worklist;
        worklist := worklist - {next};
        ghost var before := emitted;
        var tasks;
        ok, tasks := EmitFuncImpl(next, e);
        if !ok {
          return;
        }
        forall f | f in tasks ensures Inside(p, root, f) {
          InsideStep(p, root, next, f);
        }
        if next !in before {
          assert next in p.defs.Keys - before && next !in p.defs.Keys - emitted;
        } else {
          assert emitted == before;
        }
        worklist := worklist + tasks;
      }
      ok := true;
      forall f | Inside(p, root, f) ensures f in emitted {
        var path :| PathTo(p, root, path, f);
        ClosedHolds(p, emitted, path);
      }
    }

    /** The definitions there are once the children of a module have been emitted. */
    ghost function Goal(children: seq<ModuleChild>): set<NodeId>
      reads this
    {
      set f | f in p.defs.Keys && (f in emitted || InsideSome(p, children, f))
    }

    /** Emits the definitions among the children of a module; declarations and constants need no work.  If the module
        held nothing else before, this succeeds exactly when every child is of a kind that may be there and the
        definitions to be emitted can be emitted together. */
    method EmitModuleChildren(children: seq<ModuleChild>) returns (ok: bool)
      requires Valid() && ClosedUnder(p, emitted)
      requires forall c :: c in children && c.DefnChild? ==> c.f in p.defs
      modifies this, context
      ensures ok ==> Valid() && ClosedUnder(p, emitted)
      ensures ok ==> forall f :: f in emitted <==> f in old(emitted) || InsideSome(p, children, f)
      ensures old(OnlyFrom(context.namer, context.codegen, p, context.funcs, Goal(children))) ==>
        (ok <==> OtherChild !in children && old(Emittable(context.namer, context.codegen, p, Goal(children))))
      ensures ok ==> OtherChild !in children
      ensures ok ==> forall f :: Referred(p, emitted, f) ==>
                Signed(context.namer, context.codegen.types, p, context.funcs, f)
    {
      hide Consistent, NamesIn, Emittable, OnlyFrom, ValidFunc, TypedEdges;
      ghost var e := Goal(children);
      GoalClosed(p, emitted, children, e);
      ok := true;
      for i := 0 to |children|
        invariant ok && Valid() && ClosedUnder(p, emitted) && OtherChild !in children[..i]
        invariant forall f :: f in emitted <==> f in old(emitted) || InsideSome(p, children[..i], f)
        invariant old(Clean(e)) ==> Clean(e)
      {
        assert children[..i + 1] == children[..i] + [children[i]];
        InsideMore(p, children[..i], children[i]);
        match children[i] {
          case DefnChild(f) =>
            assert children[i] in children;
            InsideSelf(p, f);
            ok := EmitFuncDefnTree(f, e);
            if !ok {
              return;
            }
          case DeclChild(_) =>
          case ConstChild =>
          case OtherChild =>
            assert children[i] in children;
            return false;
        }
      }
      assert children[..|children|] == children;
      assert emitted == e;
      ConsistentEmittable(context.namer, context.codegen, p, context.funcs, e);
      ReferredSigned(context.namer, context.codegen, p, context.funcs, e);
    }
  }

  lemma EmittedSigned(namer: Namer, cg: Codegen, p: Prog, funcs: Funcs, e: set<NodeId>, f: NodeId)
    requires Consistent(namer, cg, p, funcs, e) && f in e
    ensures Signed(namer, cg.types, p, funcs, f)
  {
    hide Consistent, Signed, NamesIn;
    assert Referred(p, e, f);
    ReferredSigned(namer, cg, p, funcs, e);
  }

  lemma GoalClosed(p: Prog, emitted: set<NodeId>, children: seq<ModuleChild>, e: set<NodeId>)
    requires ValidProg(p) && ClosedUnder(p, emitted)
    requires e == set f | f in p.defs.Keys && (f in emitted || InsideSome(p, children, f))
    ensures ClosedUnder(p, e)
  {
    hide NamesIn, ValidFunc, TypedEdges;
    forall f, g | f in e && g in Scoped(p, f) ensures g in e {
      if f !in emitted {
        var c :| c in children && c.DefnChild? && Inside(p, c.f, f);
        InsideStep(p, c.f, f, g);
      }
    }
  }

  /** Everything the emitted functions refer to is there. */
  lemma ReferredDeclared(namer: Namer, cg: Codegen, p: Prog, funcs: Funcs, e: set<NodeId>)
    requires Consistent(namer, cg, p, funcs, e)
    ensures forall f :: Referred(p, e, f) ==> Declared(namer, cg.types, p, funcs, f)
  {
    hide EmitFunc, NamesIn, NameFunc, MapFunctionType, AllMet, Declared;
    forall f | Referred(p, e, f) ensures Declared(namer, cg.types, p, funcs, f) {
      if f in e { assert Defined(namer, cg, p, funcs, f); }
    }
  }

  /** And it has the signature it has in the HUGR. */
  lemma ReferredSigned(namer: Namer, cg: Codegen, p: Prog, funcs: Funcs, e: set<NodeId>)
    requires Consistent(namer, cg, p, funcs, e)
    ensures forall f :: Referred(p, e, f) ==> Signed(namer, cg.types, p, funcs, f)
  {
    hide Consistent, Referred, Declared, Signed;
    ReferredDeclared(namer, cg, p, funcs, e);
    forall f | Referred(p, e, f) ensures Signed(namer, cg.types, p, funcs, f) {
      DeclaredSigned(namer, cg.types, p, funcs, f);
    }
  }

  /** Functions that have been emitted together could be. */
  lemma ConsistentEmittable(namer: Namer, cg: Codegen, p: Prog, funcs: Funcs, e: set<NodeId>)
    requires ValidProg(p) && Consistent(namer, cg, p, funcs, e)
    ensures Emittable(namer, cg, p, e)
  {
    hide EmitFunc, NamesIn, NameFunc, MapFunctionType, AllMet, FuncNeeds, ValidFunc, TypedEdges;
    ReferredDeclared(namer, cg, p, funcs, e);
    forall f | f in e ensures f in p.defs && AllMet(cg, FuncNeeds(p.defs[f])) {
      assert Defined(namer, cg, p, funcs, f);
      FunctionNeeds(p.defs[f]);
    }
  }

  /** A function that can be emitted is emitted without error. */
  lemma ValidEmits(namer: Namer, cg: Codegen, p: Prog, e: set<NodeId>, f: NodeId)
    requires ValidProg(p) && f in p.defs
    ensures Emittable(namer, cg, p, e) && f in e ==>
              !EmitFunc(p.defs[f]).failed && AllMet(cg, EmitFunc(p.defs[f]).needs)
  {
    hide EmitFunc, EmitLaws.Closed, EmitLaws.JumpsOk, EmitLaws.LayoutOk, EmitLaws.EnvOk, ValidFunc, Symbol, TypeOf,
      NamesIn, FuncNeeds;
    EmitLaws.FunctionWellFormed(p.defs[f]);
    FunctionNeeds(p.defs[f]);
  }

  lemma BodyClean(namer: Namer, cg: Codegen, p: Prog, funcs: Funcs, e: set<NodeId>, sym: string, body: Emitted)
    requires sym in funcs
    ensures OnlyFrom(namer, cg, p, funcs, e) ==>
      OnlyFrom(namer, cg, p, funcs[sym := funcs[sym].(body := Some(body))], e)
  {
    hide Symbol, TypeOf, Referred;
  }

  /** When symbols are unique, a function not yet emitted has no definition in the module. */
  lemma OthersDefined(namer: Namer, cg: Codegen, p: Prog, funcs: Funcs, emitted: set<NodeId>, e: set<NodeId>, f: NodeId)
    requires Consistent(namer, cg, p, funcs, emitted) && f in p.defs && f !in emitted
    ensures Emittable(namer, cg, p, e) && emitted <= e && f in e && Symbol(namer, p, f) in funcs ==>
      funcs[Symbol(namer, p, f)].body.None?
  {
    hide EmitFunc, NamesIn, NameFunc, MapFunctionType, AllMet, FuncNeeds;
    forall g | g in emitted ensures IsFunc(p, g) {
      assert Defined(namer, cg, p, funcs, g);
    }
  }

  /** Declaring one of the functions that are referred to never fails when they can be emitted together. */
  lemma StaysClean(namer: Namer, cg: Codegen, p: Prog, a: Funcs, b: Funcs, e: set<NodeId>, f: NodeId)
    requires Extends(a, b)
    requires IsFunc(p, f) ==> forall s :: s in b && s !in a ==>
      s == Symbol(namer, p, f) && TypeOf(cg.types, p, f) == Some(b[s].ty)
    requires !IsFunc(p, f) ==> a == b
    ensures OnlyFrom(namer, cg, p, a, e) && Referred(p, e, f) ==> OnlyFrom(namer, cg, p, b, e)
    ensures Emittable(namer, cg, p, e) && Referred(p, e, f) ==> IsFunc(p, f) && TypeOf(cg.types, p, f).Some?
    ensures Emittable(namer, cg, p, e) && Referred(p, e, f) && OnlyFrom(namer, cg, p, a, e) ==>
              (Symbol(namer, p, f) in a ==> a[Symbol(namer, p, f)].ty == TypeOf(cg.types, p, f).value)
  {
    hide NamesIn, NameFunc, MapFunctionType, Symbol, Referred, AllMet, FuncNeeds;
    if OnlyFrom(namer, cg, p, a, e) && Referred(p, e, f) {
      forall s | s in b
        ensures exists g ::
          Referred(p, e, g) && IsFunc(p, g) && Symbol(namer, p, g) == s && TypeOf(cg.types, p, g) == Some(b[s].ty)
      {
        if s in a {
          var g :|
            Referred(p, e, g) && IsFunc(p, g) && Symbol(namer, p, g) == s && TypeOf(cg.types, p, g) == Some(a[s].ty);
        }
      }
    }
  }

  // ----- the emitted module is the compiled program -----

  /** The code that a call of each function finds in the module, by its symbol. */
  function CodeOf(namer: Namer, p: Prog, funcs: Funcs): map<NodeId, Code> {
    map f | f in p.defs.Keys + p.decls.Keys && Symbol(namer, p, f) in funcs && funcs[Symbol(namer, p, f)].body.Some?
      :: funcs[Symbol(namer, p, f)].body.value.code
  }

  function WorldOf(p: Prog, emitted: set<NodeId>, x: Sem): World {
    World(map f | f in emitted && f in p.defs :: p.defs[f], p.decls, x)
  }

  /** No function shares its symbol with another that has been emitted.  With node postfixes on this is always so. */
  ghost predicate SymbolsApart(namer: Namer, p: Prog, emitted: set<NodeId>) {
    forall f, g :: f in emitted && IsFunc(p, f) && IsFunc(p, g) && Symbol(namer, p, f) == Symbol(namer, p, g) ==> f == g
  }

  /** After a successful emission, looking functions up by symbol finds the compiled code of each that has been
      emitted, and no code for the others, exactly when no other function has the symbol of an emitted one: if it
      does, its calls run the wrong function, though emission succeeds when the types agree. */
  lemma ModuleIsCompiled(namer: Namer, cg: Codegen, p: Prog, funcs: Funcs, emitted: set<NodeId>, x: Sem)
    requires ValidProg(p) && Consistent(namer, cg, p, funcs, emitted) && HandlersMatch(x)
    ensures SimBase.Compiled(WorldOf(p, emitted, x), CodeOf(namer, p, funcs)) <==> SymbolsApart(namer, p, emitted)
    ensures WorldOf(p, emitted, x).funcs.Keys == emitted
  {
    hide EmitFunc, ValidFunc, HandlersMatch, Consistent, Symbol, NamesIn;
    var w, code := WorldOf(p, emitted, x), CodeOf(namer, p, funcs);
    forall f | f in emitted ensures f in p.defs && f in code && code[f] == EmitFunc(p.defs[f]).code {
      CodeFound(namer, cg, p, funcs, emitted, f);
    }
    assert w.funcs.Keys == emitted;
    if SymbolsApart(namer, p, emitted) {
      forall g | g in code ensures g in emitted {
        SymbolTaken(namer, cg, p, funcs, emitted, g);
      }
    } else {
      var f, g :| f in emitted && IsFunc(p, f) && IsFunc(p, g) && Symbol(namer, p, f) == Symbol(namer, p, g) && f != g;
      SymbolsDiffer(namer, cg, p, funcs, emitted, f, g);
      assert g in code && g !in emitted;
    }
  }

  lemma CodeFound(namer: Namer, cg: Codegen, p: Prog, funcs: Funcs, emitted: set<NodeId>, f: NodeId)
    requires Consistent(namer, cg, p, funcs, emitted) && f in emitted
    ensures f in p.defs && f in CodeOf(namer, p, funcs) && CodeOf(namer, p, funcs)[f] == EmitFunc(p.defs[f]).code
  {
    hide EmitFunc, NamesIn, Symbol, TypeOf, AllMet;
    assert Defined(namer, cg, p, funcs, f);
  }

  /** Code that is found belongs to an emitted function. */
  lemma SymbolTaken(namer: Namer, cg: Codegen, p: Prog, funcs: Funcs, emitted: set<NodeId>, g: NodeId)
    requires Consistent(namer, cg, p, funcs, emitted) && SymbolsApart(namer, p, emitted) && g in CodeOf(namer, p, funcs)
    ensures g in emitted
  {
    hide EmitFunc, NamesIn, Symbol, TypeOf, AllMet;
    var f :| f in emitted && Symbol(namer, p, f) == Symbol(namer, p, g);
    assert Defined(namer, cg, p, funcs, f);
  }

  lemma SymbolsDiffer(namer: Namer, cg: Codegen, p: Prog, funcs: Funcs, emitted: set<NodeId>, f: NodeId, g: NodeId)
    requires Consistent(namer, cg, p, funcs, emitted) && f in emitted && IsFunc(p, f) && IsFunc(p, g) && f != g
    requires Symbol(namer, p, f) == Symbol(namer, p, g)
    ensures g !in emitted && g in CodeOf(namer, p, funcs)
  {
    hide EmitFunc, NamesIn, Symbol, TypeOf, AllMet;
    assert Defined(namer, cg, p, funcs, f);
  }
}
