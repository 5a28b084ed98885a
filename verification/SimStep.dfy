/** Being in step: what ties a running function to the semantics of the HUGR between two nodes, and what one node
    owes to keep it so. */
module SimStep {
  import opened Values
  import opened Machine
  import opened Hugr
  import opened Builder
  import opened Emit
  import opened EmitLaws
  import opened Exec
  import opened SimBase
  import opened SimLocate
  import opened EmitParts

  ghost predicate Reaches(c: Ctx, a: Frame, stk: Stack, k: nat, b: Frame) {
    Steps(c.code, c.w.x, k, Run(a, stk)) == Run(b, stk)
  }

  /** At least `fuel` steps are taken without stopping. */
  ghost predicate RunsOn(c: Ctx, a: Frame, stk: Stack, k: nat, fuel: nat) {
    true == (
    k >= fuel && Steps(c.code, c.w.x, k, Run(a, stk)).Run?)
  }

  lemma ReachTrans(c: Ctx, a: Frame, stk: Stack, j: nat, b: Frame, k: nat, d: Frame)
    requires Reaches(c, a, stk, j, b) && Reaches(c, b, stk, k, d)
    ensures Reaches(c, a, stk, j + k, d)
  {
    Chain(c, j, k, Run(a, stk), Run(b, stk), Run(d, stk));
  }

  lemma RunsTrans(c: Ctx, a: Frame, stk: Stack, j: nat, b: Frame, k: nat, fuel: nat)
    requires Reaches(c, a, stk, j, b) && RunsOn(c, b, stk, k, fuel)
    ensures RunsOn(c, a, stk, j + k, j + fuel) && RunsOn(c, a, stk, j + k, fuel)
  {
    StepsAdd(c.code, c.w.x, j, k, Run(a, stk));
  }

  // ----- being in step -----

  /** The mailboxes a region's results are promised to.  A mailbox shared with a wire is either that result's own
      wire, or belongs to a wire that is neither bound yet nor bound by the region. */
  ghost predicate PromiseOk(c: Ctx, n: nat, ids: set<NodeId>, ws: seq<Wire>, promise: seq<nat>, env: Env) {
    true == (
    && |promise| == |ws|
    && (forall i :: 0 <= i < |promise| ==> promise[i] < n)
    && (forall i, w :: 0 <= i < |promise| && w in c.fin.env && c.fin.env[w] == promise[i] ==>
          w == ws[i] || (w !in env && w.node !in ids))
    && (forall i, j :: 0 <= i < j < |promise| && promise[i] == promise[j] ==> ws[i] == ws[j]))
  }

  ghost predicate OutIs(ws: seq<Wire>, promise: seq<nat>, env: Env, mem: map<nat, Option<LVal>>,
                        out: Option<seq<Val>>) {
    true == (
    out.Some? ==> RowIs(mem, promise, EncAll(out.value)) && forall i :: 0 <= i < |ws| ==> ws[i] in env)
  }

  ghost predicate Unbound(env: Env, ids: set<NodeId>) {
    true == (forall w :: w in env ==> w.node !in ids)
  }

  /** In step before a list of nodes: builder, frame, mailboxes and arguments agree with the HUGR. */
  ghost predicate InStepBefore(c: Ctx, st: ES, ids: set<NodeId>, inputs: seq<Operand>, promise: seq<nat>, ws: seq<Wire>,
                         fr: Frame, env: Env, ivals: seq<Val>, out: Option<seq<Val>>) {
    true == (
    && CtxOk(c) && Ready(st) && Here(c, st, fr) && Rel(env, c.fin.env, fr.loc.mem) && |promise| == |ws|
    && OpsAre(fr.loc, inputs, EncAll(ivals)) && Exec.Below(inputs, st.regs)
    && Unbound(env, ids) && PromiseOk(c, |st.slots|, ids, ws, promise, env)
    && OutIs(ws, promise, env, fr.loc.mem, out))
  }

  /** In step after emission from `st` to `st'`. */
  ghost predicate InStepAfter(c: Ctx, st: ES, st': ES, ids: set<NodeId>, promise: seq<nat>, ws: seq<Wire>,
                        fr: Frame, fr': Frame, env: Env, out: Option<seq<Val>>) {
    true == (
    && Here(c, st', fr') && Rel(env, c.fin.env, fr'.loc.mem)
    && Keeps(c.fin.env, ids, |st.slots|, |st'.slots|, st.regs, promise, fr.loc, fr'.loc)
    && OutIs(ws, promise, env, fr'.loc.mem, out))
  }

  type Outcome = Res<(Env, Option<seq<Val>>)>

  /** What a run of emitted code owes to the outcome in the HUGR. */
  ghost predicate InStep(c: Ctx, fuel: nat, r: Outcome, st: ES, st': ES, ids: set<NodeId>,
                         promise: seq<nat>, ws: seq<Wire>, fr: Frame, stk: Stack, k: nat, fr': Frame) {
    match r
    case Ok((e, o)) => Reaches(c, fr, stk, k, fr') && InStepAfter(c, st, st', ids, promise, ws, fr, fr', e, o)
    case NoFuel => RunsOn(c, fr, stk, k, fuel)
    case Wrong => true
  }

  // ----- lists of nodes -----

  lemma {:induction false} NoNodes(c: Ctx, fuel: nat, st: ES, inputs: seq<Operand>, promise: seq<nat>, ws: seq<Wire>,
                fr: Frame, stk: Stack, env: Env, ivals: seq<Val>, out: Option<seq<Val>>)
    requires InStepBefore(c, st, IdsAll([]), inputs, promise, ws, fr, env, ivals, out)
    ensures InStep(c, fuel, Ok((env, out)), st, st, IdsAll([]), promise, ws, fr, stk, 0, fr)
  {
    hide CtxOk, Inv, Open, Rel, OutIs, OpsAre, Exec.Below, PromiseOk, Unbound, Ready, RegsKept;
    KeptSelf(fr.loc, st.regs);
  }

  lemma KeptSelf(l: Local, n: nat)
    ensures RegsKept(l, l, n)
  {
  }

  lemma BeforeLen(c: Ctx, st: ES, ids: set<NodeId>, inputs: seq<Operand>, promise: seq<nat>, ws: seq<Wire>,
                  fr: Frame, env: Env, ivals: seq<Val>, out: Option<seq<Val>>)
    requires InStepBefore(c, st, ids, inputs, promise, ws, fr, env, ivals, out)
    ensures |promise| == |ws| && Ready(st) && CtxOk(c)
  {
  }

  lemma SplitEmission(c: Ctx, st: ES, n: Node, rest: seq<Node>, inputs: seq<Operand>, promise: seq<nat>, ws: seq<Wire>)
    requires Ready(st) && ValidNode(n, |inputs|, ws) && ValidNodes(rest, |inputs|, ws) && |promise| == |ws|
    requires Later(EmitNodes(EmitNode(st, n, inputs, promise), rest, inputs, promise), c.fin)
    ensures Emits(st, EmitNode(st, n, inputs, promise))
    ensures Later(EmitNode(st, n, inputs, promise), c.fin)
    ensures Emits(EmitNode(st, n, inputs, promise), EmitNodes(EmitNode(st, n, inputs, promise), rest, inputs, promise))
  {
    EmitNodeLaws(st, n, inputs, promise, ws);
    var s := EmitNode(st, n, inputs, promise);
    EmitNodesLaws(s, rest, inputs, promise, ws);
    LaterTrans(s, EmitNodes(s, rest, inputs, promise), c.fin);
  }

  /** After one node, everything is in step for the rest. */
  lemma NextNode(c: Ctx, fuel: nat, st: ES, n: Node, rest: set<NodeId>, inputs: seq<Operand>, promise: seq<nat>,
                 ws: seq<Wire>, fr: Frame, stk: Stack, k: nat, fr': Frame, env: Env, ivals: seq<Val>,
                 out: Option<seq<Val>>)
    requires InStepBefore(c, st, Ids(n) + rest, inputs, promise, ws, fr, env, ivals, out) && Ids(n) !! rest
    requires Emits(st, EmitNode(st, n, inputs, promise)) && EvalNode(c.w, fuel, n, env, ivals, out).Ok?
    requires InStep(c, fuel, EvalNode(c.w, fuel, n, env, ivals, out), st, EmitNode(st, n, inputs, promise),
                    Ids(n), promise, ws, fr, stk, k, fr')
    ensures var (e, o) := EvalNode(c.w, fuel, n, env, ivals, out).value;
      InStepBefore(c, EmitNode(st, n, inputs, promise), rest, inputs, promise, ws, fr', e, ivals, o)
  {
    hide EmitNode, Ids, IdsAll, EvalNode;
    var (e, o) := EvalNode(c.w, fuel, n, env, ivals, out).value;
    forall v | v in e ensures v in env || v.node in Ids(n) {
      NodeBinds(c.w, fuel, n, env, ivals, out, v);
    }
    AfterNode(c, st, EmitNode(st, n, inputs, promise), Ids(n), rest, inputs, promise, ws, fr, fr', env, e, ivals, out,
              o);
  }

  lemma NodeBinds(w: World, fuel: nat, n: Node, env: Env, ivals: seq<Val>, out: Option<seq<Val>>, v: Wire)
    requires EvalNode(w, fuel, n, env, ivals, out).Ok? && v in EvalNode(w, fuel, n, env, ivals, out).value.0
    ensures v in env || v.node in Ids(n)
  {
    if v.node != n.id { EvalNodeBinds(w, fuel, n, env, ivals, out, v); }
  }

  lemma AfterNode(c: Ctx, st: ES, s: ES, ids: set<NodeId>, rest: set<NodeId>, inputs: seq<Operand>, promise: seq<nat>,
                  ws: seq<Wire>, fr: Frame, fr': Frame, env: Env, e: Env, ivals: seq<Val>, out: Option<seq<Val>>,
                  o: Option<seq<Val>>)
    requires InStepBefore(c, st, ids + rest, inputs, promise, ws, fr, env, ivals, out) && ids !! rest && Emits(st, s)
    requires InStepAfter(c, st, s, ids, promise, ws, fr, fr', e, o)
    requires forall w :: w in e ==> w in env || w.node in ids
    ensures InStepBefore(c, s, rest, inputs, promise, ws, fr', e, ivals, o)
  {
    hide CtxOk, Inv, Later, Mod, Rel, Here, OutIs;
    OpsKept(fr.loc, fr'.loc, st.regs, inputs, EncAll(ivals));
    EmitsReady(st, s);
    LaterCounts(st, s);
  }

  lemma JoinSteps(c: Ctx, fuel: nat, e: Env, o: Option<seq<Val>>, r: Outcome, st: ES, s: ES, t: ES, ids: set<NodeId>,
                  ids': set<NodeId>, promise: seq<nat>, ws: seq<Wire>, fr: Frame, stk: Stack, k1: nat, fr1: Frame,
                  k2: nat, fr2: Frame)
    requires Emits(st, s) && Emits(s, t)
    requires InStep(c, fuel, Ok((e, o)), st, s, ids, promise, ws, fr, stk, k1, fr1)
    requires InStep(c, fuel, r, s, t, ids', promise, ws, fr1, stk, k2, fr2)
    ensures InStep(c, fuel, r, st, t, ids + ids', promise, ws, fr, stk, k1 + k2, fr2)
  {
    hide Inv, Later, Mod, Shut, Emits, Rel, Here, OutIs, Keeps, Reaches, RunsOn;
    match r {
      case Ok(_) =>
        ReachTrans(c, fr, stk, k1, fr1, k2, fr2);
        EmitsReady(st, s);
        LaterCounts(st, s);
        EmitsReady(s, t);
        LaterCounts(s, t);
        KeepsTrans(c.fin.env, ids, ids', |st.slots|, |s.slots|, |s.slots|, |t.slots|, st.regs, s.regs, promise,
                   fr.loc, fr1.loc, fr2.loc);
      case NoFuel => RunsTrans(c, fr, stk, k1, fr1, k2, fuel);
      case Wrong =>
    }
  }

  lemma StopHere(c: Ctx, fuel: nat, st: ES, s: ES, t: ES, ids: set<NodeId>, ids': set<NodeId>, promise: seq<nat>,
                 ws: seq<Wire>, fr: Frame, stk: Stack, k: nat, fr': Frame)
    requires InStep(c, fuel, NoFuel, st, s, ids, promise, ws, fr, stk, k, fr')
    ensures InStep(c, fuel, NoFuel, st, t, ids + ids', promise, ws, fr, stk, k, fr')
  {
  }

  lemma AnyStep(c: Ctx, fuel: nat, st: ES, t: ES, ids: set<NodeId>, promise: seq<nat>, ws: seq<Wire>, fr: Frame,
                stk: Stack, k: nat, fr': Frame)
    ensures InStep(c, fuel, Wrong, st, t, ids, promise, ws, fr, stk, k, fr')
  {
  }

  // ----- one node -----

  /** Code that only computes, put in front. */
  lemma Prepend(c: Ctx, fuel: nat, r: Outcome, st: ES, s: ES, t: ES, ids: set<NodeId>, promise: seq<nat>, ws: seq<Wire>,
                fr: Frame, stk: Stack, k1: nat, fr1: Frame, k2: nat, fr2: Frame)
    requires Emits(st, s) && Reaches(c, fr, stk, k1, fr1) && Computes(fr.loc, fr1.loc, st.regs)
    requires InStep(c, fuel, r, s, t, ids, promise, ws, fr1, stk, k2, fr2)
    ensures InStep(c, fuel, r, st, t, ids, promise, ws, fr, stk, k1 + k2, fr2)
  {
    hide Inv, Later, Mod, Shut, Emits, Rel, Here, OutIs, Reaches, RunsOn;
    EmitsReady(st, s);
    LaterCounts(st, s);
    match r {
      case Ok(_) => ReachTrans(c, fr, stk, k1, fr1, k2, fr2);
      case NoFuel => RunsTrans(c, fr, stk, k1, fr1, k2, fuel);
      case Wrong =>
    }
  }

  lemma StartNode(c: Ctx, st: ES, n: Node, rest: set<NodeId>, inputs: seq<Operand>, promise: seq<nat>, ws: seq<Wire>,
                  fr: Frame, stk: Stack, env: Env, ivals: seq<Val>, out: Option<seq<Val>>)
    returns (fr': Frame)
    requires ValidNode(n, |inputs|, ws) && Later(EmitNode(st, n, inputs, promise), c.fin)
    requires InStepBefore(c, st, Ids(n) + rest, inputs, promise, ws, fr, env, ivals, out) && Lookup(env, n.ins).Some?
    ensures Reaches(c, fr, stk, |n.ins|, fr') && Computes(fr.loc, fr'.loc, st.regs)
    ensures InStepBefore(c, Prelude(st, n), Ids(n) + rest, inputs, promise, ws, fr', env, ivals, out)
    ensures Emits(st, Prelude(st, n)) && |NodeOuts(st, n)| == |n.outs|
    ensures OutRow(c, n.id, NodeOuts(st, n)) && Within(NodeOuts(st, n), |Prelude(st, n).slots|)
    ensures OpsAre(fr'.loc, Regs(st.regs, |n.ins|), EncAll(Lookup(env, n.ins).value))
    ensures Exec.Below(Regs(st.regs, |n.ins|), Prelude(st, n).regs)
  {
    hide InStepBefore, Later, Ids, IdsAll, EmitNode, OutRow, Within, Emits, Inv, Here, Rel, Lookup, Ready, CtxOk;
    BeforeLen(c, st, Ids(n) + rest, inputs, promise, ws, fr, env, ivals, out);
    PreludeLater(c, st, n, inputs, promise, ws);
    BeforeHere(c, st, Ids(n) + rest, inputs, promise, ws, fr, env, ivals, out);
    fr' := SimPrelude(c, st, n, fr, stk, env);
    BeforeLater(c, st, Prelude(st, n), Ids(n) + rest, inputs, promise, ws, fr, fr', env, ivals, out);
  }

  lemma BeforeHere(c: Ctx, st: ES, ids: set<NodeId>, inputs: seq<Operand>, promise: seq<nat>, ws: seq<Wire>,
                   fr: Frame, env: Env, ivals: seq<Val>, out: Option<seq<Val>>)
    requires InStepBefore(c, st, ids, inputs, promise, ws, fr, env, ivals, out)
    ensures Here(c, st, fr) && Rel(env, c.fin.env, fr.loc.mem)
  {
  }

  /** Being in step survives code that only computes. */
  lemma BeforeLater(c: Ctx, st: ES, s: ES, ids: set<NodeId>, inputs: seq<Operand>, promise: seq<nat>, ws: seq<Wire>,
                    fr: Frame, fr': Frame, env: Env, ivals: seq<Val>, out: Option<seq<Val>>)
    requires InStepBefore(c, st, ids, inputs, promise, ws, fr, env, ivals, out) && Emits(st, s)
    requires Computes(fr.loc, fr'.loc, st.regs) && Here(c, s, fr')
    ensures InStepBefore(c, s, ids, inputs, promise, ws, fr', env, ivals, out)
  {
    hide Inv, Later, Mod, Shut, Emits, Rel, Here, OutIs, CtxOk;
    EmitsReady(st, s);
    LaterCounts(st, s);
    OpsKept(fr.loc, fr'.loc, st.regs, inputs, EncAll(ivals));
  }

  lemma PreludeLater(c: Ctx, st: ES, n: Node, inputs: seq<Operand>, promise: seq<nat>, ws: seq<Wire>)
    requires Ready(st) && ValidNode(n, |inputs|, ws) && |promise| == |ws| && |n.ins| == |n.inTys|
    requires Later(EmitNode(st, n, inputs, promise), c.fin)
    ensures Emits(st, Prelude(st, n)) && Later(Prelude(st, n), c.fin) && Prelude(st, n).regs == st.regs + |n.ins|
    ensures OutRow(c, n.id, NodeOuts(st, n)) && Within(NodeOuts(st, n), |Prelude(st, n).slots|)
    ensures |NodeOuts(st, n)| == |n.outs|
  {
    hide *;
    PreludeFacts(st, n);
    AfterPrelude(st, n, inputs, promise, ws);
    LaterVia(Prelude(st, n), EmitNode(st, n, inputs, promise), c.fin);
    OutWiresMapped(c, st, n);
  }

  lemma OutWiresMapped(c: Ctx, st: ES, n: Node)
    requires Inv(Prelude(st, n)) && Later(Prelude(st, n), c.fin)
    requires Mapped(OutWires(n.id, |n.outs|), Prelude(st, n).env)
    ensures OutRow(c, n.id, NodeOuts(st, n)) && Within(NodeOuts(st, n), |Prelude(st, n).slots|)
  {
    hide Prelude;
    var ws, s := OutWires(n.id, |n.outs|), Prelude(st, n);
    forall i | 0 <= i < |n.outs| ensures Wire(n.id, i) in s.env {
      assert ws[i] in ws;
    }
    assert RowOf(s.env, ws) == RowOf(c.fin.env, ws);
  }

  /** What the code of an op owes to the outcome of the op: its results in its output mailboxes. */
  ghost predicate OpStep(c: Ctx, fuel: nat, r: Res<seq<Val>>, s: ES, t: ES, n: Node, outs: seq<nat>, fr: Frame,
                         stk: Stack, k: nat, fr': Frame) {
    match r
    case Ok(os) => |os| == |n.outs| ==> Reaches(c, fr, stk, k, fr') && OpAfter(c, s, t, n, outs, fr, fr', os)
    case NoFuel => RunsOn(c, fr, stk, k, fuel)
    case Wrong => true
  }

  ghost predicate OpAfter(c: Ctx, s: ES, t: ES, n: Node, outs: seq<nat>, fr: Frame, fr': Frame, os: seq<Val>) {
    true == (
    && Here(c, t, fr') && RowIs(fr'.loc.mem, outs, EncAll(os))
    && Keeps(c.fin.env, Ids(n), |s.slots|, |t.slots|, s.regs, [], fr.loc, fr'.loc))
  }

  /** A node whose results are in its output mailboxes, and which touched nothing else, is done. */
  lemma OpDone(c: Ctx, fuel: nat, r: Res<seq<Val>>, s: ES, t: ES, n: Node, rest: set<NodeId>, outs: seq<nat>,
               inputs: seq<Operand>, promise: seq<nat>, ws: seq<Wire>, fr: Frame, stk: Stack, k: nat, fr': Frame,
               env: Env, ivals: seq<Val>, out: Option<seq<Val>>)
    requires OpStep(c, fuel, r, s, t, n, outs, fr, stk, k, fr') && OutRow(c, n.id, outs)
    requires InStepBefore(c, s, Ids(n) + rest, inputs, promise, ws, fr, env, ivals, out)
    ensures InStep(c, fuel, BindResults(env, n, r, out), s, t, Ids(n), promise, ws, fr, stk, k, fr')
  {
    hide Inv, Later, Rel, Here, OutIs, Reaches, RunsOn, Bind, EncAll, RowIs, OutRow, Keeps, PromiseOk, CtxOk, Ids,
      OpsAre, Exec.Below, Unbound, Ready;
    if r.Ok? && |r.value| == |n.outs| {
      UnboundLess(env, Ids(n), rest);
      RelKept(env, c.fin.env, Ids(n), |s.slots|, |t.slots|, s.regs, fr.loc, fr'.loc);
      BindRel(c, env, n.id, r.value, outs, fr'.loc.mem);
      OutKept(c, |s.slots|, Ids(n) + rest, Ids(n), ws, promise, env, |t.slots|, s.regs, fr.loc, fr'.loc, out);
      OutMore(ws, promise, env, n.id, r.value, fr'.loc.mem, out);
      KeepsSkip(c.fin.env, Ids(n), |s.slots|, |t.slots|, s.regs, promise, fr.loc, fr'.loc);
    }
  }

  lemma KeepsSkip(e: map<Wire, nat>, ids: set<NodeId>, lo: nat, hi: nat, n: nat, skip: seq<nat>, l: Local, l': Local)
    requires Keeps(e, ids, lo, hi, n, [], l, l')
    ensures Keeps(e, ids, lo, hi, n, skip, l, l')
  {
  }

  lemma UnboundLess(env: Env, ids: set<NodeId>, rest: set<NodeId>)
    requires Unbound(env, ids + rest)
    ensures Unbound(env, ids)
  {
  }

  lemma RelKept(env: Env, e: map<Wire, nat>, ids: set<NodeId>, lo: nat, hi: nat, n: nat, a: Local, b: Local)
    requires Keeps(e, ids, lo, hi, n, [], a, b) && Rel(env, e, a.mem) && Unbound(env, ids)
    ensures Rel(env, e, b.mem)
  {
  }

  lemma OutMore(ws: seq<Wire>, promise: seq<nat>, env: Env, id: NodeId, os: seq<Val>, mem: map<nat, Option<LVal>>,
                out: Option<seq<Val>>)
    requires OutIs(ws, promise, env, mem, out)
    ensures OutIs(ws, promise, Bind(env, id, 0, os), mem, out)
  {
  }

  /** Results already delivered survive what the other nodes of the region do. */
  lemma OutKept(c: Ctx, n: nat, ids: set<NodeId>, node: set<NodeId>, ws: seq<Wire>, promise: seq<nat>, env: Env,
                hi: nat, m: nat, l: Local, l': Local, out: Option<seq<Val>>)
    requires PromiseOk(c, n, ids, ws, promise, env) && Unbound(env, ids) && node <= ids
    requires Keeps(c.fin.env, node, n, hi, m, [], l, l') && OutIs(ws, promise, env, l.mem, out)
    ensures OutIs(ws, promise, env, l'.mem, out)
  {
    if out.Some? {
      forall i | 0 <= i < |promise| ensures promise[i] in l'.mem && l'.mem[promise[i]] == Some(EncAll(out.value)[i]) {
        assert l.mem[promise[i]] == Some(EncAll(out.value)[i]);
        if w :| w in c.fin.env && c.fin.env[w] == promise[i] {
          assert w.node !in node;
        } else {
          assert Anon(c.fin.env, promise[i]);
        }
      }
    }
  }

  /** `Input` stores the region's arguments, held in registers since before, in its output mailboxes. */
  lemma SimInput(c: Ctx, fuel: nat, s: ES, n: Node, rest: set<NodeId>, outs: seq<nat>, inputs: seq<Operand>,
                 promise: seq<nat>, ws: seq<Wire>, fr: Frame, stk: Stack, env: Env, ivals: seq<Val>,
                 out: Option<seq<Val>>)
    returns (k: nat, fr': Frame)
    requires InStepBefore(c, s, Ids(n) + rest, inputs, promise, ws, fr, env, ivals, out)
    requires OutRow(c, n.id, outs) && |outs| == |inputs| == |n.outs| && Later(WriteRow(s, outs, inputs), c.fin)
    ensures OpStep(c, fuel, Ok(ivals), s, WriteRow(s, outs, inputs), n, outs, fr, stk, k, fr')
  {
    hide Inv, Later, Rel, PromiseOk, OutIs, RowIs, OutRow, EncAll, CtxOk, Keeps, WriteRow;
    StoreOuts(c, n.id, outs, inputs, fr.loc, EncAll(ivals), |s.slots|, |WriteRow(s, outs, inputs).slots|, s.regs);
    var line := StoreLine(outs, inputs);
    WriteIsPut(s, outs, inputs);
    RunLine(c, s, line, s.regs, fr, stk);
    k := |line|;
    fr' := fr.(pc := fr.pc + k, loc := ExecSeq(c.w.x, line, fr.loc).value);
    KeepsIds(c.fin.env, {n.id}, Ids(n), |s.slots|, |WriteRow(s, outs, inputs).slots|, s.regs, fr.loc, fr'.loc);
  }

  lemma KeepsIds(e: map<Wire, nat>, ids: set<NodeId>, ids': set<NodeId>, lo: nat, hi: nat, n: nat, l: Local, l': Local)
    requires Keeps(e, ids, lo, hi, n, [], l, l') && ids <= ids'
    ensures Keeps(e, ids', lo, hi, n, [], l, l')
  {
  }

  /** `Output` stores the region's results in the promised mailboxes, which may be the very ones just read. */
  lemma SimOutput(c: Ctx, fuel: nat, s: ES, n: Node, rest: set<NodeId>, vals: seq<Operand>, inputs: seq<Operand>,
                  promise: seq<nat>, ws: seq<Wire>, fr: Frame, stk: Stack, env: Env, ivals: seq<Val>, vs: seq<Val>,
                  out: Option<seq<Val>>)
    returns (k: nat, fr': Frame)
    requires InStepBefore(c, s, Ids(n) + rest, inputs, promise, ws, fr, env, ivals, out) && n.ins == ws
    requires |vals| == |ws|
    requires Later(WriteRow(s, promise, vals), c.fin) && Lookup(env, ws) == Some(vs) && OpsAre(fr.loc, vals, EncAll(vs))
    ensures InStep(c, fuel, Ok((env, Some(vs))), s, WriteRow(s, promise, vals), Ids(n), promise, ws, fr, stk, k, fr')
  {
    hide Inv, Later, Ids, CtxOk, WriteRow, Keeps, Unbound, OutIs, Exec.Below, InStepAfter;
    LaterIn(c, s, promise, vals);
    StorePromise(c, |s.slots|, Ids(n) + rest, ws, promise, vals, fr.loc, env, vs);
    var line := StoreLine(promise, vals);
    WriteIsPut(s, promise, vals);
    RunLine(c, s, line, s.regs, fr, stk);
    k := |line|;
    fr' := fr.(pc := fr.pc + k, loc := ExecSeq(c.w.x, line, fr.loc).value);
    OutputAfter(c, s, WriteRow(s, promise, vals), Ids(n), promise, ws, fr, fr', env, vs);
  }

  lemma LaterIn(c: Ctx, s: ES, promise: seq<nat>, vals: seq<Operand>)
    requires Later(WriteRow(s, promise, vals), c.fin) && |promise| == |vals|
    ensures |s.slots| <= |c.fin.slots|
  {
  }

  lemma StorePromise(c: Ctx, n: nat, ids: set<NodeId>, ws: seq<Wire>, promise: seq<nat>, vals: seq<Operand>, l: Local,
                     env: Env, vs: seq<Val>)
    requires PromiseOk(c, n, ids, ws, promise, env) && |vals| == |ws| && Lookup(env, ws) == Some(vs)
    requires OpsAre(l, vals, EncAll(vs)) && Rel(env, c.fin.env, l.mem)
    requires n <= |c.fin.slots| && forall s :: 0 <= s < |c.fin.slots| ==> s in l.mem
    ensures var r := ExecSeq(c.w.x, StoreLine(promise, vals), l);
      && r.Some? && r.value.regs == l.regs && r.value.params == l.params && r.value.mem.Keys == l.mem.Keys
      && RowIs(r.value.mem, promise, EncAll(vs)) && Rel(env, c.fin.env, r.value.mem)
      && forall s :: s in l.mem && s !in promise ==> r.value.mem[s] == l.mem[s]
  {
    forall i, j | 0 <= i < j < |promise| && promise[i] == promise[j] ensures EncAll(vs)[i] == EncAll(vs)[j] {
      assert ws[i] == ws[j];
    }
    ExecStores(c.w.x, promise, vals, l, EncAll(vs));
    var m := ExecSeq(c.w.x, StoreLine(promise, vals), l).value.mem;
    forall w | w in env ensures m[c.fin.env[w]] == Some(Enc(env[w])) {
      if c.fin.env[w] in promise {
        var i :| 0 <= i < |promise| && promise[i] == c.fin.env[w];
        assert w == ws[i];
        assert m[promise[i]] == Some(EncAll(vs)[i]);
      }
    }
  }

  lemma OutputAfter(c: Ctx, s: ES, t: ES, ids: set<NodeId>, promise: seq<nat>, ws: seq<Wire>, fr: Frame, fr': Frame,
                    env: Env, vs: seq<Val>)
    requires Here(c, t, fr') && Rel(env, c.fin.env, fr'.loc.mem) && RowIs(fr'.loc.mem, promise, EncAll(vs))
    requires Lookup(env, ws) == Some(vs) && fr'.loc.regs == fr.loc.regs && fr'.loc.params == fr.loc.params
    requires fr'.loc.mem.Keys == fr.loc.mem.Keys
    requires forall s :: s in fr.loc.mem && s !in promise ==> fr'.loc.mem[s] == fr.loc.mem[s]
    ensures InStepAfter(c, s, t, ids, promise, ws, fr, fr', env, Some(vs))
  {
  }
}
