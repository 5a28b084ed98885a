/** Emitted code runs in step with the semantics of the HUGR, for every nesting of regions, conditionals,
    control-flow graphs and calls: the induction over all of them. */
module Simulation {
  import opened Values
  import opened Machine
  import opened Hugr
  import opened Types
  import opened Builder
  import opened Emit
  import opened EmitLaws
  import opened Exec
  import opened SimBase
  import opened SimLocate
  import opened EmitParts
  import opened SimStep
  import opened SimOps
  import opened SimArrays
  import opened SimCases
  import opened SimGraphs
  import opened SimFuncs

  // ----- lists of nodes -----

  lemma {:induction false} SimNodes(c: Ctx, fuel: nat, st: ES, nodes: seq<Node>, inputs: seq<Operand>,
                                    promise: seq<nat>, ws: seq<Wire>, fr: Frame, stk: Stack, env: Env,
                                    ivals: seq<Val>, out: Option<seq<Val>>)
    returns (k: nat, fr': Frame)
    requires ValidNodes(nodes, |inputs|, ws) && Later(EmitNodes(st, nodes, inputs, promise), c.fin)
    requires InStepBefore(c, st, IdsAll(nodes), inputs, promise, ws, fr, env, ivals, out)
    ensures InStep(c, fuel, EvalNodes(c.w, fuel, nodes, env, ivals, out), st, EmitNodes(st, nodes, inputs, promise),
                   IdsAll(nodes), promise, ws, fr, stk, k, fr')
    decreases fuel, nodes, 0
  {
    hide Later, InStepBefore, InStepAfter, Emits, IdsAll, Ids, ValidNode, EvalNode, EmitNode, InStep, Ready, CtxOk;
    if nodes == [] {
      k, fr' := 0, fr;
      NoNodes(c, fuel, st, inputs, promise, ws, fr, stk, env, ivals, out);
    } else {
      var n, rest := nodes[0], nodes[1..];
      var s := EmitNode(st, n, inputs, promise);
      IdsSplit(nodes);
      BeforeLen(c, st, IdsAll(nodes), inputs, promise, ws, fr, env, ivals, out);
      SplitEmission(c, st, n, rest, inputs, promise, ws);
      var k1, fr1 := SimNode(c, fuel, st, n, IdsAll(rest), inputs, promise, ws, fr, stk, env, ivals, out);
      match EvalNode(c.w, fuel, n, env, ivals, out) {
        case Ok((e, o)) =>
          NextNode(c, fuel, st, n, IdsAll(rest), inputs, promise, ws, fr, stk, k1, fr1, env, ivals, out);
          var k2, fr2 := SimNodes(c, fuel, s, rest, inputs, promise, ws, fr1, stk, e, ivals, o);
          JoinSteps(c, fuel, e, o, EvalNodes(c.w, fuel, rest, e, ivals, o), st, s,
                    EmitNodes(s, rest, inputs, promise), Ids(n), IdsAll(rest), promise, ws, fr, stk, k1, fr1, k2, fr2);
          k, fr' := k1 + k2, fr2;
        case NoFuel => StopHere(c, fuel, st, s, EmitNodes(s, rest, inputs, promise), Ids(n), IdsAll(rest), promise, ws,
                                fr, stk, k1, fr1);
          k, fr' := k1, fr1;
        case Wrong => k, fr' := k1, fr1;
          AnyStep(c, fuel, st, EmitNodes(s, rest, inputs, promise), IdsAll(nodes), promise, ws, fr, stk, k1, fr1);
      }
    }
  }

  // ----- one node -----

  lemma {:induction false} SimNode(c: Ctx, fuel: nat, st: ES, n: Node, rest: set<NodeId>, inputs: seq<Operand>,
                                   promise: seq<nat>, ws: seq<Wire>, fr: Frame, stk: Stack, env: Env,
                                   ivals: seq<Val>, out: Option<seq<Val>>)
    returns (k: nat, fr': Frame)
    requires ValidNode(n, |inputs|, ws) && Later(EmitNode(st, n, inputs, promise), c.fin)
    requires InStepBefore(c, st, Ids(n) + rest, inputs, promise, ws, fr, env, ivals, out)
    ensures InStep(c, fuel, EvalNode(c.w, fuel, n, env, ivals, out), st, EmitNode(st, n, inputs, promise),
                   Ids(n), promise, ws, fr, stk, k, fr')
    decreases fuel, n, 2
  {
    hide InStepBefore, Later, InStep, EmitAt, EvalAt, Ids, Reaches, ValidNode, OutRow, Within, OpsAre, Exec.Below,
      Computes, Emits;
    if Lookup(env, n.ins).None? {
      k, fr' := 0, fr;
      AnyStep(c, fuel, st, EmitNode(st, n, inputs, promise), Ids(n), promise, ws, fr, stk, k, fr');
    } else {
      var vs := Lookup(env, n.ins).value;
      var s, vals, outs := Prelude(st, n), Regs(st.regs, |n.ins|), NodeOuts(st, n);
      var fr1 := StartNode(c, st, n, rest, inputs, promise, ws, fr, stk, env, ivals, out);
      var k2, fr2 := SimAt(c, fuel, s, n, rest, vals, outs, inputs, promise, ws, fr1, stk, env, ivals, vs, out);
      Prepend(c, fuel, EvalAt(c.w, fuel, n, env, ivals, vs, out), st, s, EmitAt(s, n, vals, outs, inputs, promise),
              Ids(n), promise, ws, fr, stk, |n.ins|, fr1, k2, fr2);
      k, fr' := |n.ins| + k2, fr2;
    }
  }

  /** A node with its inputs in registers `vals` and its output mailboxes `outs`. */
  lemma {:induction false} SimAt(c: Ctx, fuel: nat, s: ES, n: Node, rest: set<NodeId>, vals: seq<Operand>,
                                 outs: seq<nat>, inputs: seq<Operand>, promise: seq<nat>, ws: seq<Wire>, fr: Frame,
                                 stk: Stack, env: Env, ivals: seq<Val>, vs: seq<Val>, out: Option<seq<Val>>)
    returns (k: nat, fr': Frame)
    requires ValidNode(n, |inputs|, ws) && Later(EmitAt(s, n, vals, outs, inputs, promise), c.fin)
    requires InStepBefore(c, s, Ids(n) + rest, inputs, promise, ws, fr, env, ivals, out)
    requires Lookup(env, n.ins) == Some(vs) && |vals| == |n.ins| && |outs| == |n.outs|
    requires OutRow(c, n.id, outs) && Within(outs, |s.slots|)
    requires OpsAre(fr.loc, vals, EncAll(vs)) && Exec.Below(vals, s.regs)
    ensures InStep(c, fuel, EvalAt(c.w, fuel, n, env, ivals, vs, out), s, EmitAt(s, n, vals, outs, inputs, promise),
                   Ids(n), promise, ws, fr, stk, k, fr')
    decreases fuel, n, 1
  {
    hide InStepBefore, Later, InStep, OutRow, Within, OpsAre, Exec.Below, Ids, EvalOp, EmitOp, WriteRow, BindResults,
      OpStep, Lookup;
    match n.op {
      case Input =>
        k, fr' := SimInput(c, fuel, s, n, rest, outs, inputs, promise, ws, fr, stk, env, ivals, out);
        OpDone(c, fuel, Ok(ivals), s, WriteRow(s, outs, inputs), n, rest, outs, inputs, promise, ws, fr, stk, k, fr',
               env, ivals, out);
      case Output =>
        k, fr' := SimOutput(c, fuel, s, n, rest, vals, inputs, promise, ws, fr, stk, env, ivals, vs, out);
      case _ =>
        k, fr' := SimOp(c, fuel, s, n, rest, vals, outs, inputs, promise, ws, fr, stk, env, ivals, vs, out);
        OpDone(c, fuel, EvalOp(c.w, fuel, n, env, vs), s, EmitOp(s, n, vals, outs), n, rest, outs, inputs, promise, ws,
               fr, stk, k, fr', env, ivals, out);
    }
  }

  // ----- ops -----

  /** Ops that contain no region and call nothing. */
  lemma SimLeaf(c: Ctx, fuel: nat, s: ES, n: Node, nIn: nat, ws: seq<Wire>, vals: seq<Operand>, outs: seq<nat>,
                fr: Frame, stk: Stack, env: Env, vs: seq<Val>)
    returns (k: nat, fr': Frame)
    requires ValidNode(n, nIn, ws) && IsLeaf(n.op) && Later(EmitOp(s, n, vals, outs), c.fin)
    requires CtxOk(c) && Ready(s) && Here(c, s, fr) && |vals| == |n.ins| && |vs| == |vals| && |outs| == |n.outs|
    requires OutRow(c, n.id, outs) && OpsAre(fr.loc, vals, EncAll(vs)) && Exec.Below(vals, s.regs)
    ensures OpStep(c, fuel, EvalOp(c.w, fuel, n, env, vs), s, EmitOp(s, n, vals, outs), n, outs, fr, stk, k, fr')
  {
    hide Later, OpStep, OutRow, OpsAre, Exec.Below, Ids, Finish, TagPiece, ConstPiece, EmitArray, EncAll, ValidConst,
      Ready, CtxOk, Here;
    match n.op {
      case Tag(tag, rows) => k, fr' := SimTag(c, fuel, s, n, vals, outs, fr, stk, vs);
      case Array(op, elem, size) => k, fr' := SimArray(c, fuel, s, n, vals, outs, fr, stk, vs);
      case Ext(op) => k, fr' := SimExt(c, fuel, s, n, vals, outs, fr, stk, vs);
      case LoadConst(v) =>
        ConstPieceOk(v, s.regs);
        k, fr' := SimLoadConst(c, fuel, s, n, outs, fr, stk);
      case LoadFunc(f) => k, fr' := SimLoadFunc(c, fuel, s, n, outs, fr, stk);
      case Static => k, fr' := 0, fr; NothingToDo(c, fuel, s, s, n, outs, fr, stk);
      case FuncDef(f) => k, fr' := 0, fr; NothingToDo(c, fuel, s, s.(todo := s.todo + {f}), n, outs, fr, stk);
    }
  }

  predicate IsLeaf(op: Op) {
    op.Tag? || op.Array? || op.Ext? || op.LoadConst? || op.LoadFunc? || op.Static? || op.FuncDef?
  }

  lemma {:induction false} SimOp(c: Ctx, fuel: nat, s: ES, n: Node, rest: set<NodeId>, vals: seq<Operand>,
                                 outs: seq<nat>, inputs: seq<Operand>, promise: seq<nat>, ws: seq<Wire>, fr: Frame,
                                 stk: Stack, env: Env, ivals: seq<Val>, vs: seq<Val>, out: Option<seq<Val>>)
    returns (k: nat, fr': Frame)
    requires ValidNode(n, |inputs|, ws) && !n.op.Input? && !n.op.Output? && Later(EmitOp(s, n, vals, outs), c.fin)
    requires InStepBefore(c, s, Ids(n) + rest, inputs, promise, ws, fr, env, ivals, out)
    requires |vals| == |n.ins| && |outs| == |n.outs| && OutRow(c, n.id, outs) && Within(outs, |s.slots|)
    requires OpsAre(fr.loc, vals, EncAll(vs)) && Exec.Below(vals, s.regs)
    ensures OpStep(c, fuel, EvalOp(c.w, fuel, n, env, vs), s, EmitOp(s, n, vals, outs), n, outs, fr, stk, k, fr')
    decreases fuel, n, 0
  {
    hide InStepBefore, Later, OpStep, OutRow, Within, OpsAre, Exec.Below, Ids, EvalOp, EmitOp, EncAll, Ready, CtxOk,
      Here, Rel, Unbound, IsLeaf, ValidNode;
    BeforeFacts(c, s, Ids(n), rest, inputs, promise, ws, fr, env, ivals, out);
    OpsLen(fr.loc, vals, vs);
    if IsLeaf(n.op) {
      k, fr' := SimLeaf(c, fuel, s, n, |inputs|, ws, vals, outs, fr, stk, env, vs);
    } else {
      k, fr' := SimNested(c, fuel, s, n, |inputs|, ws, vals, outs, fr, stk, env, vs);
    }
  }

  /** Calls, and ops that contain regions. */
  lemma {:induction false} SimNested(c: Ctx, fuel: nat, s: ES, n: Node, nIn: nat, ws: seq<Wire>, vals: seq<Operand>,
                                     outs: seq<nat>, fr: Frame, stk: Stack, env: Env, vs: seq<Val>)
    returns (k: nat, fr': Frame)
    requires ValidNode(n, nIn, ws) && !IsLeaf(n.op) && !n.op.Input? && !n.op.Output?
    requires Later(EmitOp(s, n, vals, outs), c.fin) && CtxOk(c) && Ready(s) && Here(c, s, fr)
    requires Rel(env, c.fin.env, fr.loc.mem) && Unbound(env, Ids(n)) && |vals| == |n.ins| && |vs| == |vals|
    requires |outs| == |n.outs| && OutRow(c, n.id, outs) && Within(outs, |s.slots|)
    requires OpsAre(fr.loc, vals, EncAll(vs)) && Exec.Below(vals, s.regs)
    ensures OpStep(c, fuel, EvalOp(c.w, fuel, n, env, vs), s, EmitOp(s, n, vals, outs), n, outs, fr, stk, k, fr')
    decreases fuel, n.op, 2
  {
    hide Later, OpStep, OutRow, Within, OpsAre, Exec.Below, Ids, Finish, TagPiece, ConstPiece, CallPiece,
      EmitNodes, EmitRegion, EmitCond, EmitCfg, EmitArray, EvalRegion, EvalCfg, EvalCall, EncAll, ValidRegion,
      ValidCases, ValidCfg, ValidConst, Ready, CtxOk, Here, Rel, Unbound, FuncStep, Invoke, Regs,
      Compiled;
    Handlers(c);
    match n.op {
      case CallFn(f) =>
        if fuel == 0 {
          k, fr' := 0, fr;
          OutOfFuel(c, s, EmitOp(s, n, vals, outs), n, outs, fr, stk);
        } else {
          var j := SimFunc(c.w, c.code, fuel - 1, f, vs, Push(fr.(pc := fr.pc + 1), s.regs, stk));
          RefsHere(c, s, f, fr);
          k, fr' := SimCall(c, fuel, s.(refs := s.refs + {f}), s, Const(LFn(f)), n, vals, outs, fr, stk, f, vs, j);
        }
      case CallIndirect =>
        if |vs| > 0 && vs[0].FunV? {
          if fuel == 0 {
            k, fr' := 0, fr;
            OutOfFuel(c, s, EmitOp(s, n, vals, outs), n, outs, fr, stk);
          } else {
            CalleeAndArgs(fr.loc, vals, vs, s.regs);
            var j := SimFunc(c.w, c.code, fuel - 1, vs[0].f, vs[1..], Push(fr.(pc := fr.pc + 1), s.regs, stk));
            k, fr' := SimCall(c, fuel, s, s, vals[0], n, vals[1..], outs, fr, stk, vs[0].f, vs[1..], j);
          }
        } else {
          k, fr' := 0, fr;
          AnyOp(c, fuel, s, EmitOp(s, n, vals, outs), n, outs, fr, stk, k, fr');
        }
      case Dfg(nodes) =>
        RegionOnce(s, nodes, vals, outs, |vals|, |outs|);
        k, fr' := SimDfg(c, fuel, s, n, vals, outs, fr, stk, env, vs);
      case Cond(rows, cases) =>
        var t := EmitCond(s, rows, cases, vals[0], vals[1..], n.outs, outs);
        LaterAsked(t, {NeedType(Sum(rows))}, c.fin);
        k, fr' := SimCond(c, fuel, s, n, vals, outs, fr, stk, env, vs);
        AskedStep(c, fuel, EvalOp(c.w, fuel, n, env, vs), s, t, {NeedType(Sum(rows))}, n, outs, fr, stk, k, fr');
      case Cfg(children) => k, fr' := SimCfg(c, fuel, s, n, vals, outs, fr, stk, env, vs);
    }
  }

  // ----- regions -----

  lemma {:induction false} SimRegion(c: Ctx, fuel: nat, st: ES, nodes: seq<Node>, inputs: seq<Operand>,
                                     promise: seq<nat>, fr: Frame, stk: Stack, env: Env, ivals: seq<Val>)
    returns (k: nat, fr': Frame)
    requires ValidNodes(nodes, |inputs|, RegionOuts(nodes)) && Later(EmitNodes(st, nodes, inputs, promise), c.fin)
    requires InStepBefore(c, st, IdsAll(nodes), inputs, promise, RegionOuts(nodes), fr, env, ivals, None)
    ensures RegionStep(c, fuel, EvalRegion(c.w, fuel, nodes, env, ivals), st, EmitNodes(st, nodes, inputs, promise),
                       IdsAll(nodes), promise, RegionOuts(nodes), fr, stk, k, fr')
    decreases fuel, nodes, 1
  {
    hide InStepBefore, Later, InStepAfter, Reaches, RunsOn, EvalNodes, EmitNodes, ValidNodes, IdsAll, RegionOuts;
    k, fr' := SimNodes(c, fuel, st, nodes, inputs, promise, RegionOuts(nodes), fr, stk, env, ivals, None);
  }

  lemma {:induction false} SimDfg(c: Ctx, fuel: nat, s: ES, n: Node, vals: seq<Operand>, outs: seq<nat>, fr: Frame,
                                  stk: Stack, env: Env, vs: seq<Val>)
    returns (k: nat, fr': Frame)
    requires n.op.Dfg? && n.id !in IdsAll(n.op.nodes) && ValidRegion(n.op.nodes, |vals|, |outs|)
    requires CtxOk(c) && Ready(s) && Here(c, s, fr) && Rel(env, c.fin.env, fr.loc.mem) && Unbound(env, Ids(n))
    requires OutRow(c, n.id, outs) && Within(outs, |s.slots|) && Later(EmitNodes(s, n.op.nodes, vals, outs), c.fin)
    requires OpsAre(fr.loc, vals, EncAll(vs)) && Exec.Below(vals, s.regs)
    ensures OpStep(c, fuel, Results(EvalRegion(c.w, fuel, n.op.nodes, env, vs)), s,
                   EmitNodes(s, n.op.nodes, vals, outs), n, outs, fr, stk, k, fr')
    decreases fuel, n.op, 1
  {
    hide Later, InStepAfter, Reaches, RunsOn, EvalRegion, EmitNodes, IdsAll, RegionOuts, CtxOk, Ready, Here, Rel,
      OutRow, Within, OpsAre, Exec.Below, Unbound, InStepBefore, OpAfter, ValidNodes, PromiseOk, Ids, CountOp, EncAll;
    var nodes := n.op.nodes;
    DfgPromise(c, s, n, outs, RegionOuts(nodes), env);
    MakeBefore(c, s, IdsAll(nodes), vals, outs, RegionOuts(nodes), fr, env, vs);
    k, fr' := SimRegion(c, fuel, s, nodes, vals, outs, fr, stk, env, vs);
    if EvalRegion(c.w, fuel, nodes, env, vs).Ok? {
      var (e, os) := EvalRegion(c.w, fuel, nodes, env, vs).value;
      DfgAfter(c, s, EmitNodes(s, nodes, vals, outs), n, outs, RegionOuts(nodes), fr, fr', e, os);
    }
  }

  // ----- conditionals -----

  /** A case, from the start of its block to the start of the exit block. */
  lemma {:induction false} SimCase(c: Ctx, fuel: nat, a: ES, d: Case, exitRow: seq<nat>, exit: nat, nIn: nat, n: nat,
                                   fr: Frame, stk: Stack, env: Env, ivals: seq<Val>)
    returns (k: nat, fr': Frame)
    requires CtxOk(c) && Inv(a) && 0 < exit < |a.code| && ValidRegion(d.nodes, nIn, |exitRow|)
    requires |RegionIns(d.nodes)| == nIn
    requires Later(EmitCase(a, d, exitRow, exit), c.fin) && AtBlock(c, |a.code|, fr)
    requires RowIs(fr.loc.mem, FreshRow(|a.slots|, nIn), EncAll(ivals))
    requires Rel(env, c.fin.env, fr.loc.mem) && Unbound(env, IdsAll(d.nodes)) && n <= a.regs
    requires FreshIn(exitRow, 0, |a.slots|, c.fin)
    ensures CaseStep(c, fuel, EvalRegion(c.w, fuel, d.nodes, env, ivals), IdsAll(d.nodes), |a.slots|,
                     |EmitCase(a, d, exitRow, exit).slots|, n, exitRow, exit, fr, stk, k, fr')
    decreases fuel, d, 0
  {
    hide Later, InStepAfter, Reaches, RunsOn, EvalRegion, EmitNodes, IdsAll, RegionOuts, CtxOk, Inv, Rel, RegionIns,
      OpsAre, Exec.Below, Unbound, InStepBefore, ValidNodes, PromiseOk, CountOp, EncAll, RowIs, FreshIn, AtBlock,
        CaseAfter, Here,
      CaseStart, EmitCase, Ready;
    CaseParts(a, d, exitRow, exit, nIn);
    var s := CaseStart(a, d, exit);
    var e := EmitNodes(s, d.nodes, Regs(a.regs, nIn), exitRow);
    CaseLater(a, d, exitRow, exit, nIn, c.fin);
    var fr1 := SimCaseStart(c, a, d, exit, nIn, fr, stk, ivals);
    CaseBefore(c, a, d, s, exitRow, nIn, fr, fr1, env, ivals);
    var k2, fr2 := SimRegion(c, fuel, s, d.nodes, Regs(a.regs, nIn), exitRow, fr1, stk, env, ivals);
    match EvalRegion(c.w, fuel, d.nodes, env, ivals) {
      case Ok((v, os)) =>
        fr' := JumpToExit(c, e, exit, fr2, stk, s, IdsAll(d.nodes), exitRow, RegionOuts(d.nodes), fr1, v, os);
        ReachTrans(c, fr, stk, nIn, fr1, k2, fr2);
        ReachTrans(c, fr, stk, nIn + k2, fr2, 1, fr');
        CaseDone(c, a, s, e, EmitCase(a, d, exitRow, exit), n, IdsAll(d.nodes), exitRow, exit, RegionOuts(d.nodes), fr,
                 fr1, fr2, fr', v, os);
        k := nIn + k2 + 1;
      case NoFuel =>
        RunsTrans(c, fr, stk, nIn, fr1, k2, fuel);
        k, fr' := nIn + k2, fr2;
      case Wrong => k, fr' := 0, fr;
    }
  }

  lemma {:induction false} SimCond(c: Ctx, fuel: nat, s: ES, n: Node, vals: seq<Operand>, outs: seq<nat>, fr: Frame,
                                   stk: Stack, env: Env, vs: seq<Val>)
    returns (k: nat, fr': Frame)
    requires n.op.Cond? && n.op.rows != [] && |vals| >= 1 && |outs| == |n.outs|
    requires ValidCases(n.op.cases, n.op.rows, |vals| - 1, |outs|)
    requires CtxOk(c) && Ready(s) && Here(c, s, fr) && Rel(env, c.fin.env, fr.loc.mem) && Unbound(env, Ids(n))
    requires OutRow(c, n.id, outs)
    requires Later(EmitCond(s, n.op.rows, n.op.cases, vals[0], vals[1..], n.outs, outs), c.fin)
    requires OpsAre(fr.loc, vals, EncAll(vs)) && Exec.Below(vals, s.regs)
    ensures OpStep(c, fuel, EvalOp(c.w, fuel, n, env, vs), s,
                   EmitCond(s, n.op.rows, n.op.cases, vals[0], vals[1..], n.outs, outs), n, outs, fr, stk, k, fr')
    decreases fuel, n.op, 1
  {
    hide Later, Reaches, RunsOn, EvalRegion, EmitCond, EmitCases, Ids, IdsAll, CtxOk, Ready, Here, Rel, OutRow,
      ValidCases, OpsAre, Exec.Below, Unbound, OpAfter, EncAll, Steps, EvalCfg, EvalCall, CaseAfter;
    if !Branches(n, vs) {
      k, fr' := 0, fr;
      NoBranch(c, fuel, n, env, vs);
    } else {
      var rows, cases, tag := n.op.rows, n.op.cases, vs[0].tag;
      var ivals := vs[0].vals + vs[1..];
      var t := EmitCond(s, rows, cases, vals[0], vals[1..], n.outs, outs);
      CasesLen(cases, rows, |vals| - 1, |outs|);
      var k1, a, fr1 := SimCondBranch(c, s, n, vals, outs, fr, stk, env, vs);
      CaseFoundFacts(c, s, n, vals, outs, tag, |ivals|, a);
      UnboundCase(env, n, tag, rows, |vals| - 1, |outs|);
      var exitRow, nIn := FreshRow(|s.slots|, |n.outs|), |ivals|;
      var k2, fr2 := SimCase(c, fuel, a, cases[tag], exitRow, |s.code|, nIn, s.regs, fr1, stk, env, ivals);
      BranchTaken(c, fuel, n, env, vs);
      match EvalRegion(c.w, fuel, cases[tag].nodes, env, ivals) {
        case Ok((e, os)) =>
          ReachTrans(c, fr, stk, k1, fr1, k2, fr2);
          var k3, fr3 := SimCondExit(c, s, a, n, tag, vals, outs, exitRow, fr, fr1, fr2, stk, os);
          ReachTrans(c, fr, stk, k1 + k2, fr2, k3, fr3);
          k, fr' := k1 + k2 + k3, fr3;
        case NoFuel =>
          RunsTrans(c, fr, stk, k1, fr1, k2, fuel);
          k, fr' := k1 + k2, fr2;
        case Wrong => k, fr' := 0, fr;
      }
    }
  }

  // ----- control-flow graphs -----

  /** A dataflow block up to its branch: arguments read, body run, results read back. */
  lemma {:induction false} SimBlockBody(c: Ctx, fuel: nat, a: ES, d: Child, all: seq<Child>, bbs: map<NodeId, Target>,
                                        exit: nat, nOut: nat, n: nat, fr: Frame, stk: Stack, env: Env, args: seq<Val>)
    returns (k: nat, fr': Frame)
    requires d.Block? && CtxOk(c) && BlockReady(c, a, d, all, bbs, exit, nOut) && n <= a.regs
    requires d.id in bbs && Later(BlockEnd(a, d.nodes, bbs[d.id]), c.fin)
    requires AtBlock(c, bbs[d.id].blk, fr) && RowIs(fr.loc.mem, bbs[d.id].row, EncAll(args))
    requires Rel(env, c.fin.env, fr.loc.mem) && Unbound(env, IdsAll(d.nodes))
    ensures BodyStep(c, fuel, EvalRegion(c.w, fuel, d.nodes, env, args), a, d, bbs[d.id], n, fr, stk, env, k, fr')
    decreases fuel, d, 0
  {
    hide Later, InStepAfter, Reaches, RunsOn, EvalRegion, EmitNodes, IdsAll, CtxOk, Rel, OpsAre, Exec.Below, Unbound,
      EncAll, Steps, AtBlock, Here, RowIs, BlockReady, BlockEnd, Ready, BodyAfter, RegionOuts, BlockStart,
        InStepBefore, BlockPromise, BlockResults, ValidNodes, Computes;
    var t, ws := bbs[d.id], RegionOuts(d.nodes);
    BlockFits(c, a, d, all, bbs, exit, nOut);
    var s, promise := BlockStart(a, d.nodes, t), BlockPromise(a, d.nodes, t);
    var e := EmitNodes(s, d.nodes, Regs(a.regs, |t.row|), promise);
    var fr1 := SimBlockStart(c, a, d.nodes, t, fr, stk, env, args);
    var k2, fr2 := SimRegion(c, fuel, s, d.nodes, Regs(a.regs, |t.row|), promise, fr1, stk, env, args);
    match EvalRegion(c.w, fuel, d.nodes, env, args) {
      case Ok((v, os)) =>
        var k3, fr3 := SimBlockEnd(c, a, d.nodes, t, fr1, fr2, stk, v, os);
        ReachTrans(c, fr, stk, |t.row|, fr1, k2, fr2);
        ReachTrans(c, fr, stk, |t.row| + k2, fr2, k3, fr3);
        BlockBody(c, fuel, a, d, t, n, fr, fr1, fr2, fr3, env, args, v, os);
        k, fr' := |t.row| + k2 + k3, fr3;
      case NoFuel =>
        RunsTrans(c, fr, stk, |t.row|, fr1, k2, fuel);
        k, fr' := |t.row| + k2, fr2;
      case Wrong => k, fr' := 0, fr;
    }
  }

  /** A dataflow block, from its start to the start of the successor its first result chooses. */
  lemma {:induction false} SimBlock(c: Ctx, fuel: nat, a: ES, d: Child, all: seq<Child>, bbs: map<NodeId, Target>,
                                    outs: seq<nat>, exit: nat, lo: nat, hi: nat, n: nat, fr: Frame, stk: Stack,
                                    env: Env, args: seq<Val>)
    returns (k: nat, fr': Frame)
    requires d.Block? && CtxOk(c) && BlockReady(c, a, d, all, bbs, exit, |outs|) && n <= a.regs
    requires Later(EmitChild(a, d, bbs, outs), c.fin) && d.id in bbs
    requires AtBlock(c, bbs[d.id].blk, fr) && RowIs(fr.loc.mem, bbs[d.id].row, EncAll(args))
    requires Rel(env, c.fin.env, fr.loc.mem) && Unbound(env, IdsAll(d.nodes))
    requires TargetRows(c, all, bbs, lo, hi, |outs|) && lo <= |a.slots| && |EmitChild(a, d, bbs, outs).slots| <= hi
    ensures BlockStep(c, fuel, EvalRegion(c.w, fuel, d.nodes, env, args), d, all, bbs, lo, hi, n, fr, stk, k, fr')
    decreases fuel, d, 1
  {
    hide Later, Reaches, RunsOn, EvalRegion, EmitChild, IdsAll, CtxOk, Rel, OpsAre, Exec.Below, Unbound, EncAll, Steps,
      AtBlock, RowIs, BlockReady, BlockEnd, Destructure, Ready, TargetRows, BodyAfter, AtChild, Targets, FindChild,
        IdsChildren, RegionOuts, BlockStart, EmitNodes, Chooses;
    BlockLater(c, a, d, all, bbs, exit, outs);
    var k1, fr1 := SimBlockBody(c, fuel, a, d, all, bbs, exit, |outs|, n, fr, stk, env, args);
    match EvalRegion(c.w, fuel, d.nodes, env, args) {
      case Ok((e, os)) =>
        if Chooses(d, os) {
          var k2, fr2 := SimChoice(c, a, d, all, bbs, exit, outs, lo, hi, n, fr, fr1, stk, e, os);
          ReachTrans(c, fr, stk, k1, fr1, k2, fr2);
          k, fr' := k1 + k2, fr2;
        } else {
          k, fr' := 0, fr;
        }
      case NoFuel => k, fr' := k1, fr1;
      case Wrong => k, fr' := 0, fr;
    }
  }

  /** Every transition of the HUGR is matched by the emitted blocks, for as long as the HUGR goes on. */
  lemma {:induction false} SimCfgFrom(c: Ctx, fuel: nat, s1: ES, children: seq<Child>, bbs: map<NodeId, Target>,
                                      outs: seq<nat>, exit: nat, x: Child, lo: nat, hi: nat, n: nat, d: Child,
                                      fr: Frame, stk: Stack, env: Env, args: seq<Val>)
    returns (k: nat, fr': Frame)
    requires CtxOk(c) && CfgLaid(c, s1, children, bbs, outs, exit, lo, hi) && n <= s1.regs
    requires x in children && x.Exit? && (forall y :: y in children && y.Exit? ==> y == x)
    requires d in children && IsBlock(d) && d.id in bbs && x.id in bbs && AtChild(c, d, bbs[d.id], fr, env, args)
    ensures CfgStep(c, fuel, EvalCfg(c.w, fuel, children, d.id, env, args, |outs|), children, bbs[x.id].row, exit, lo,
                    hi, n, fr, stk, k, fr')
    decreases fuel, children, 0
  {
    hide CtxOk, CfgLaid, Reaches, RunsOn, EvalRegion, EvalCfg, IdsAll, IdsChildren, AtChild, EmitChild, EmitChildren,
      Later, BlockReady, TargetRows, RowIs, Rel, EncAll, Keeps, Unbound, FindChild, Without, AtBlock, Chooses;
    CfgFound(c, s1, children, bbs, outs, exit, lo, hi, d);
    k, fr' := 0, fr;
    if d.Exit? {
      AtExit(c, fuel, children, bbs, s1, exit, |outs|, d, x, lo, hi, n, fr, stk, env, args);
    } else if fuel == 0 {
      CfgUnfold(c.w, fuel, children, d, env, args, |outs|);
      StillHere(c, fr, stk);
    } else {
      CfgUnfold(c.w, fuel, children, d, env, args, |outs|);
      var a := ChildReady(c, s1, children, bbs, outs, exit, lo, hi, d);
      AtBlockChild(c, d, bbs[d.id], fr, env, args);
      var k1, fr1 := SimBlock(c, fuel, a, d, children, bbs, outs, exit, lo, hi, n, fr, stk,
                              Without(env, IdsAll(d.nodes)), args);
      match EvalRegion(c.w, fuel, d.nodes, Without(env, IdsAll(d.nodes)), args) {
        case Ok((e, os)) =>
          if Chooses(d, os) {
            ChoiceIn(d, os);
            var u, args' := d.succs[os[0].tag], os[0].vals + os[1..];
            var y := FindChild(children, u).value;
            var k2, fr2 := SimCfgFrom(c, fuel - 1, s1, children, bbs, outs, exit, x, lo, hi, n, y, fr1, stk, e, args');
            CfgJoin(c, fuel, EvalCfg(c.w, fuel - 1, children, u, e, args', |outs|), children, bbs[x.id].row, exit, lo,
                    hi, n, fr, fr1, fr2, stk, k1, k2);
            k, fr' := k1 + k2, fr2;
          }
        case NoFuel => k, fr' := k1, fr1;
        case Wrong =>
      }
    }
  }

  lemma {:induction false} SimCfg(c: Ctx, fuel: nat, s: ES, n: Node, vals: seq<Operand>, outs: seq<nat>, fr: Frame,
                                  stk: Stack, env: Env, vs: seq<Val>)
    returns (k: nat, fr': Frame)
    requires n.op.Cfg? && ValidCfg(n.op.children, |vals|, |outs|) && |outs| == |n.outs|
    requires CtxOk(c) && Ready(s) && Here(c, s, fr) && Rel(env, c.fin.env, fr.loc.mem) && OutRow(c, n.id, outs)
    requires Later(EmitCfg(s, n.op.children, vals, outs, n.outs), c.fin) && OpsAre(fr.loc, vals, EncAll(vs))
    ensures OpStep(c, fuel, EvalOp(c.w, fuel, n, env, vs), s, EmitCfg(s, n.op.children, vals, outs, n.outs), n, outs,
                   fr, stk, k, fr')
    decreases fuel, n.op, 1
  {
    hide Later, Reaches, RunsOn, EvalCfg, EvalRegion, EvalCall, CfgStart, EmitCfg, EmitChildren, Ids, IdsAll, CtxOk,
      Ready, Here, Rel, OutRow, ValidCfg, OpsAre, OpAfter, EncAll, Steps, CfgLaid, AtChild, RowIs, Keeps, AtBlock;
    var children := n.op.children;
    CfgChildren(children, |vals|, |outs|);
    CfgLays(c, s, children, vals, outs, n.outs);
    var s1, bbs := CfgStart(s, children, vals, n.outs).0, CfgStart(s, children, vals, n.outs).1;
    var lo, hi := |s.slots|, |EmitChildren(s1, children, bbs, outs).slots|;
    LaterCounts(s, s1);
    CfgFound(c, s1, children, bbs, outs, |s.code|, lo, hi, children[1]);
    var k1, fr1 := EnterGraph(c, s, children, vals, outs, n.outs, lo, hi, fr, stk, env, vs);
    var k2, fr2 := SimCfgFrom(c, fuel, s1, children, bbs, outs, |s.code|, children[1], lo, hi, s.regs, children[0],
                              fr1, stk, env, vs);
    CfgOp(c.w, fuel, n, env, vs);
    match EvalOp(c.w, fuel, n, env, vs) {
      case Ok(os) =>
        var k3, fr3 := LeaveGraph(c, s, n, vals, outs, fr, fr1, fr2, stk, os);
        ReachTrans(c, fr, stk, k1, fr1, k2, fr2);
        ReachTrans(c, fr, stk, k1 + k2, fr2, k3, fr3);
        k, fr' := k1 + k2 + k3, fr3;
      case NoFuel =>
        RunsTrans(c, fr, stk, k1, fr1, k2, fuel);
        k, fr' := k1 + k2, fr2;
      case Wrong => k, fr' := 0, fr;
    }
  }

  // ----- functions -----

  /** Every call: the callee's emitted code returns the row that the callee's dataflow semantics gives, to the
      frame below; and while the HUGR is still going, so is the code. */
  lemma {:induction false} SimFunc(w: World, code: map<NodeId, Code>, fuel: nat, f: NodeId, args: seq<Val>, stk: Stack)
    returns (k: nat)
    requires Compiled(w, code)
    ensures FuncStep(w, code, fuel, EvalCall(w, fuel, f, args), f, args, stk, k)
    decreases fuel
  {
    hide EvalRegion, EmitNodes, ValidRegion, InStepBefore, InStepAfter, Later, FuncBody, EmitFunc, FuncStart, Steps,
      EncAll, Aggregate;
    if f !in w.funcs {
      k := 0;
      LinkedCall(w, code, fuel, f, args, stk);
    } else if |args| != |RegionIns(w.funcs[f].nodes)| {
      k := 0;
      WrongArgs(w, fuel, f, args);
    } else {
      var d := w.funcs[f];
      Enters(w, code, f, EncAll(args), stk);
      var c := Ctx(w, code, f, EmitFunc(d));
      FuncCtx(w, code, f);
      var k1, fr1 := EnterFunc(c, EncAll(args), stk);
      FuncRegion(d);
      FuncBefore(c, d, fr1, args);
      var k2, fr2 := SimRegion(c, fuel, FuncStart(d), d.nodes, Params(|d.ins|), FreshRow(0, |d.outs|), fr1, stk, map[],
                               args);
      StepsAdd(code, w.x, k1, k2, Run(Entry(f, EncAll(args)), stk));
      match EvalRegion(w, fuel, d.nodes, map[], args) {
        case Ok((e, os)) =>
          BodyDone(c, d, fr1, fr2, e, os);
          var k3 := LeaveFunc(c, d, fr2, stk, os);
          StepsAdd(code, w.x, k1 + k2, k3, Run(Entry(f, EncAll(args)), stk));
          k := k1 + k2 + k3;
        case NoFuel => k := k1 + k2;
        case Wrong => k := 0;
      }
    }
  }
}
