/** Regions and conditionals: how promised mailboxes receive results, from the switch through a case to the exit
    block. */
module SimCases {
  import opened Values
  import opened Machine
  import opened Hugr
  import opened Builder
  import opened Emit
  import opened EmitLaws
  import opened Exec
  import opened SimBase
  import opened SimBranch
  import opened SimLocate
  import opened EmitParts
  import opened SimStep
  import opened SimOps

  // ----- regions -----

  ghost predicate RegionStep(c: Ctx, fuel: nat, r: Res<(Env, seq<Val>)>, st: ES, st': ES, ids: set<NodeId>,
                             promise: seq<nat>, ws: seq<Wire>, fr: Frame, stk: Stack, k: nat, fr': Frame) {
    match r
    case Ok((e, os)) => Reaches(c, fr, stk, k, fr') && InStepAfter(c, st, st', ids, promise, ws, fr, fr', e, Some(os))
    case NoFuel => RunsOn(c, fr, stk, k, fuel)
    case Wrong => true
  }

  lemma MakeBefore(c: Ctx, st: ES, ids: set<NodeId>, inputs: seq<Operand>, promise: seq<nat>, ws: seq<Wire>,
                   fr: Frame, env: Env, ivals: seq<Val>)
    requires CtxOk(c) && Ready(st) && Here(c, st, fr) && Rel(env, c.fin.env, fr.loc.mem)
    requires OpsAre(fr.loc, inputs, EncAll(ivals)) && Exec.Below(inputs, st.regs)
    requires Unbound(env, ids) && PromiseOk(c, |st.slots|, ids, ws, promise, env)
    ensures InStepBefore(c, st, ids, inputs, promise, ws, fr, env, ivals, None)
  {
    hide CtxOk, Ready, Here, Rel, Inv, Unbound, OpsAre, Exec.Below;
  }

  /** The results of a nested region are promised to the output mailboxes of its node. */
  lemma DfgPromise(c: Ctx, s: ES, n: Node, outs: seq<nat>, ws: seq<Wire>, env: Env)
    requires n.op.Dfg? && n.id !in IdsAll(n.op.nodes) && CtxOk(c) && OutRow(c, n.id, outs) && Within(outs, |s.slots|)
    requires Unbound(env, Ids(n)) && |ws| == |outs|
    ensures PromiseOk(c, |s.slots|, IdsAll(n.op.nodes), ws, outs, env) && Unbound(env, IdsAll(n.op.nodes))
  {
    hide Inv, Compiled, IdsAll;
    OutRowDistinct(c, n.id, outs);
    NodeInIds(n);
    assert IdsAll(n.op.nodes) <= Ids(n);
  }

  lemma DfgAfter(c: Ctx, s: ES, t: ES, n: Node, outs: seq<nat>, ws: seq<Wire>, fr: Frame, fr': Frame, e: Env,
                 os: seq<Val>)
    requires n.op.Dfg? && CtxOk(c) && OutRow(c, n.id, outs)
    requires InStepAfter(c, s, t, IdsAll(n.op.nodes), outs, ws, fr, fr', e, Some(os))
    ensures OpAfter(c, s, t, n, outs, fr, fr', os)
  {
    hide Inv, Compiled, IdsAll, Here, Rel, RowIs, EncAll;
    OutRowDistinct(c, n.id, outs);
    NodeInIds(n);
    assert IdsAll(n.op.nodes) <= Ids(n);
    OutRowNotAnon(c, n.id, outs);
  }

  lemma OutRowNotAnon(c: Ctx, id: NodeId, outs: seq<nat>)
    requires CtxOk(c) && OutRow(c, id, outs)
    ensures forall q :: q in outs ==> !Anon(c.fin.env, q)
  {
    OutRowDistinct(c, id, outs);
  }

  // ----- conditionals -----

  ghost predicate CaseStep(c: Ctx, fuel: nat, r: Res<(Env, seq<Val>)>, ids: set<NodeId>, lo: nat, hi: nat, n: nat,
                           exitRow: seq<nat>, exit: nat, fr: Frame, stk: Stack, k: nat, fr': Frame) {
    match r
    case Ok((_, os)) => Reaches(c, fr, stk, k, fr') && CaseAfter(c, ids, lo, hi, n, exitRow, exit, fr, fr', os)
    case NoFuel => RunsOn(c, fr, stk, k, fuel)
    case Wrong => true
  }

  ghost predicate CaseAfter(c: Ctx, ids: set<NodeId>, lo: nat, hi: nat, n: nat, exitRow: seq<nat>, exit: nat,
                            fr: Frame, fr': Frame, os: seq<Val>) {
    true == (
    && AtBlock(c, exit, fr') && RowIs(fr'.loc.mem, exitRow, EncAll(os))
    && Keeps(c.fin.env, ids, lo, hi, n, exitRow, fr.loc, fr'.loc))
  }

  lemma SimCaseStart(c: Ctx, a: ES, d: Case, exit: nat, nIn: nat, fr: Frame, stk: Stack, ivals: seq<Val>)
    returns (fr': Frame)
    requires CtxOk(c) && Inv(a) && AtBlock(c, |a.code|, fr) && |a.code| < |c.fin.code|
    requires LoadLine(FreshRow(|a.slots|, nIn), a.regs) <= c.fin.code[|a.code|]
    requires RowIs(fr.loc.mem, FreshRow(|a.slots|, nIn), EncAll(ivals))
    requires var s := CaseStart(a, d, exit);
      s.cur == |a.code| < |s.code| && s.code[s.cur] == LoadLine(FreshRow(|a.slots|, nIn), a.regs)
    ensures Reaches(c, fr, stk, nIn, fr') && Here(c, CaseStart(a, d, exit), fr') && Computes(fr.loc, fr'.loc, a.regs)
    ensures OpsAre(fr'.loc, Regs(a.regs, nIn), EncAll(ivals))
  {
    hide Inv, CaseStart, LoadLine, ExecSeq, EncAll, CtxOk;
    var line := LoadLine(FreshRow(|a.slots|, nIn), a.regs);
    ExecLoads(c.w.x, FreshRow(|a.slots|, nIn), a.regs, fr.loc, EncAll(ivals));
    RunBlockLine(c, line, fr, stk);
    fr' := fr.(pc := |line|, loc := ExecSeq(c.w.x, line, fr.loc).value);
  }

  lemma CaseBefore(c: Ctx, a: ES, d: Case, s: ES, exitRow: seq<nat>, nIn: nat, fr: Frame, fr1: Frame, env: Env,
                   ivals: seq<Val>)
    requires CtxOk(c) && Ready(s) && Here(c, s, fr1) && |s.slots| == |a.slots| + nIn && s.regs == a.regs + nIn
    requires Computes(fr.loc, fr1.loc, a.regs) && Rel(env, c.fin.env, fr.loc.mem) && Unbound(env, IdsAll(d.nodes))
    requires OpsAre(fr1.loc, Regs(a.regs, nIn), EncAll(ivals)) && FreshIn(exitRow, 0, |a.slots|, c.fin)
    requires |RegionOuts(d.nodes)| == |exitRow|
    ensures InStepBefore(c, s, IdsAll(d.nodes), Regs(a.regs, nIn), exitRow, RegionOuts(d.nodes), fr1, env, ivals, None)
  {
    hide CtxOk, Ready, Here, OpsAre, EncAll, IdsAll, Unbound, RegionOuts;
    FreshPromise(c, |s.slots|, IdsAll(d.nodes), RegionOuts(d.nodes), exitRow, env);
    MakeBefore(c, s, IdsAll(d.nodes), Regs(a.regs, nIn), exitRow, RegionOuts(d.nodes), fr1, env, ivals);
  }

  /** Results may always be promised to anonymous mailboxes. */
  lemma FreshPromise(c: Ctx, n: nat, ids: set<NodeId>, ws: seq<Wire>, row: seq<nat>, env: Env)
    requires FreshIn(row, 0, n, c.fin) && |ws| == |row|
    ensures PromiseOk(c, n, ids, ws, row, env)
  {
  }

  lemma JumpToExit(c: Ctx, e: ES, exit: nat, fr: Frame, stk: Stack, s: ES, ids: set<NodeId>, exitRow: seq<nat>,
                   ws: seq<Wire>, fr1: Frame, env: Env, os: seq<Val>) returns (fr': Frame)
    requires CtxOk(c) && InStepAfter(c, s, e, ids, exitRow, ws, fr1, fr, env, Some(os)) && e.cur < |c.fin.code|
    requires e.cur < |e.code|
    requires e.code[e.cur] + [Br(exit)] <= c.fin.code[e.cur]
    ensures Reaches(c, fr, stk, 1, fr') && AtBlock(c, exit, fr') && fr'.loc == fr.loc
  {
    hide CtxOk, Rel, Keeps, OutIs;
    assert (e.code[e.cur] + [Br(exit)])[|e.code[e.cur]|] == Br(exit);
    OneStep(c, fr, stk, Br(exit));
    fr' := fr.(blk := exit, pc := 0);
  }

  lemma CaseDone(c: Ctx, a: ES, s: ES, e: ES, t: ES, n: nat, ids: set<NodeId>, exitRow: seq<nat>, exit: nat,
                 ws: seq<Wire>, fr: Frame, fr1: Frame, fr2: Frame, fr': Frame, env: Env, os: seq<Val>)
    requires InStepAfter(c, s, e, ids, exitRow, ws, fr1, fr2, env, Some(os)) && AtBlock(c, exit, fr')
    requires fr'.loc == fr2.loc
    requires Computes(fr.loc, fr1.loc, a.regs) && |a.slots| <= |s.slots| && a.regs <= s.regs && n <= a.regs
    requires |t.slots| == |e.slots|
    ensures CaseAfter(c, ids, |a.slots|, |t.slots|, n, exitRow, exit, fr, fr', os)
  {
    hide Rel, Here;
  }

  /** The exit block moves the results from the exit mailboxes to the output mailboxes of the node. */
  lemma SimExit(c: Ctx, t: ES, exit: nat, next: nat, id: NodeId, exitRow: seq<nat>, outs: seq<nat>, fr: Frame,
                stk: Stack, ls: seq<LVal>, lo: nat, hi: nat, n: nat)
    returns (k: nat, fr': Frame)
    requires CtxOk(c) && OutRow(c, id, outs) && |exitRow| == |outs| && AtBlock(c, exit, fr) && n <= next
    requires t.cur == exit < |t.code| && exit < |c.fin.code| && t.code[exit] <= c.fin.code[exit]
    requires t.code[exit] == LoadLine(exitRow, next) + StoreLine(outs, Regs(next, |outs|))
    requires RowIs(fr.loc.mem, exitRow, ls)
    ensures Reaches(c, fr, stk, k, fr') && Here(c, t, fr') && RowIs(fr'.loc.mem, outs, ls)
    ensures Keeps(c.fin.env, {id}, lo, hi, n, [], fr.loc, fr'.loc)
  {
    hide CtxOk, OutRow, LoadLine, StoreLine, ExecSeq, RowIs, Regs;
    var loads, stores := LoadLine(exitRow, next), StoreLine(outs, Regs(next, |outs|));
    ExecLoads(c.w.x, exitRow, next, fr.loc, ls);
    var l := ExecSeq(c.w.x, loads, fr.loc).value;
    StoreOuts(c, id, outs, Regs(next, |outs|), l, ls, lo, hi, n);
    ExecConcat(c.w.x, loads, stores, fr.loc);
    RunBlockLine(c, loads + stores, fr, stk);
    k := |loads + stores|;
    fr' := fr.(pc := k, loc := ExecSeq(c.w.x, loads + stores, fr.loc).value);
  }

  /** A case's own input mailboxes are fresh. */
  lemma CaseRowFresh(c: Ctx, a: ES, d: Case, exitRow: seq<nat>, exit: nat, nIn: nat)
    requires Inv(a) && 0 < exit < |a.code| && ValidRegion(d.nodes, nIn, |exitRow|) && |RegionIns(d.nodes)| == nIn
    requires Later(EmitCase(a, d, exitRow, exit), c.fin)
    ensures FreshIn(FreshRow(|a.slots|, nIn), |a.slots|, |EmitCase(a, d, exitRow, exit).slots|, c.fin)
    ensures |EmitCase(a, d, exitRow, exit).slots| <= |c.fin.slots|
  {
    hide EmitNodes, LoadLine, LayoutOk, JumpsOk, Open, EmitCase;
    CaseParts(a, d, exitRow, exit, nIn);
    CaseLater(a, d, exitRow, exit, nIn, c.fin);
    FreshAnon(a, CaseStart(a, d, exit), c.fin);
  }

  /** Handing values to fresh mailboxes disturbs no wire. */
  lemma PassedFresh(c: Ctx, row: seq<nat>, ls: seq<LVal>, n: nat, lo: nat, hi: nat, l: Local, l': Local, env: Env)
    requires Passed(row, ls, n, l, l') && FreshIn(row, lo, hi, c.fin) && Rel(env, c.fin.env, l.mem)
    ensures Keeps(c.fin.env, {}, lo, hi, n, [], l, l') && Rel(env, c.fin.env, l'.mem)
  {
  }

  lemma CaseFoundFacts(c: Ctx, s: ES, n: Node, vals: seq<Operand>, outs: seq<nat>, tag: nat, nIn: nat, a: ES)
    requires n.op.Cond? && |vals| >= 1 && tag < |n.op.cases| && CaseFound(c, s, n, vals, outs, tag, nIn, a)
    ensures var exitRow, d := FreshRow(|s.slots|, |n.outs|), n.op.cases[tag];
      var t := EmitCond(s, n.op.rows, n.op.cases, vals[0], vals[1..], n.outs, outs);
      && Inv(a) && 0 < |s.code| < |a.code| && s.regs <= a.regs && |s.slots| <= |a.slots|
      && ValidRegion(d.nodes, nIn, |exitRow|) && |RegionIns(d.nodes)| == nIn
      && Later(EmitCase(a, d, exitRow, |s.code|), c.fin)
      && |a.slots| <= |EmitCase(a, d, exitRow, |s.code|).slots| <= |t.slots|
      && FreshIn(exitRow, 0, |a.slots|, c.fin) && FreshIn(exitRow, |s.slots|, |a.slots|, c.fin)
  {
    hide Inv, Later, EmitCase, EmitCond, FreshIn, ValidRegion;
  }

  lemma NoBranch(c: Ctx, fuel: nat, n: Node, env: Env, vs: seq<Val>)
    requires n.op.Cond? && !Branches(n, vs)
    ensures EvalOp(c.w, fuel, n, env, vs) == Wrong
  {
  }

  lemma BranchTaken(c: Ctx, fuel: nat, n: Node, env: Env, vs: seq<Val>)
    requires n.op.Cond? && Branches(n, vs)
    ensures EvalOp(c.w, fuel, n, env, vs)
         == Results(EvalRegion(c.w, fuel, n.op.cases[vs[0].tag].nodes, env, vs[0].vals + vs[1..]))
  {
  }

  lemma UnboundCase(env: Env, n: Node, tag: nat, rows: seq<Row>, nRest: nat, nOut: nat)
    requires n.op.Cond? && tag < |n.op.cases| && Unbound(env, Ids(n)) && ValidCases(n.op.cases, rows, nRest, nOut)
    ensures Unbound(env, IdsAll(n.op.cases[tag].nodes)) && IdsAll(n.op.cases[tag].nodes) <= Ids(n)
  {
    ValidCaseAt(n.op.cases, rows, nRest, nOut, tag);
  }

  /** Where the code of the case that `vs` selects is. */
  ghost predicate CaseFound(c: Ctx, s: ES, n: Node, vals: seq<Operand>, outs: seq<nat>, tag: nat, nIn: nat, a: ES)
    requires n.op.Cond? && |vals| >= 1 && tag < |n.op.cases|
  {
    var exitRow, d := FreshRow(|s.slots|, |n.outs|), n.op.cases[tag];
    var t := EmitCond(s, n.op.rows, n.op.cases, vals[0], vals[1..], n.outs, outs);
    true == (
    && Inv(a) && 0 < |s.code| < |a.code| && s.regs <= a.regs && |s.slots| <= |a.slots|
    && ValidRegion(d.nodes, nIn, |exitRow|) && |RegionIns(d.nodes)| == nIn
    && Later(EmitCase(a, d, exitRow, |s.code|), c.fin)
    && |a.slots| <= |EmitCase(a, d, exitRow, |s.code|).slots| <= |t.slots|
    && FreshIn(exitRow, 0, |a.slots|, c.fin) && FreshIn(exitRow, |s.slots|, |a.slots|, c.fin))
  }

  /** From the conditional's node to the start of the case its first input selects. */
  lemma SimCondBranch(c: Ctx, s: ES, n: Node, vals: seq<Operand>, outs: seq<nat>, fr: Frame, stk: Stack, env: Env,
                      vs: seq<Val>)
    returns (k: nat, a: ES, fr': Frame)
    requires n.op.Cond? && n.op.rows != [] && |vals| >= 1 && |outs| == |n.outs| && Branches(n, vs)
    requires ValidCases(n.op.cases, n.op.rows, |vals| - 1, |outs|) && |n.op.cases| == |n.op.rows|
    requires CtxOk(c) && Ready(s) && Here(c, s, fr) && Rel(env, c.fin.env, fr.loc.mem)
    requires Later(EmitCond(s, n.op.rows, n.op.cases, vals[0], vals[1..], n.outs, outs), c.fin)
    requires OpsAre(fr.loc, vals, EncAll(vs)) && Exec.Below(vals, s.regs)
    ensures CaseFound(c, s, n, vals, outs, vs[0].tag, |vs[0].vals + vs[1..]|, a)
    ensures Reaches(c, fr, stk, k, fr') && AtBlock(c, |a.code|, fr') && Rel(env, c.fin.env, fr'.loc.mem)
    ensures RowIs(fr'.loc.mem, FreshRow(|a.slots|, |vs[0].vals + vs[1..]|), EncAll(vs[0].vals + vs[1..]))
    ensures var hi := |EmitCase(a, n.op.cases[vs[0].tag], FreshRow(|s.slots|, |n.outs|), |s.code|).slots|;
      Keeps(c.fin.env, {}, |a.slots|, hi, s.regs, [], fr.loc, fr'.loc)
  {
    hide CtxOk, Later, Inv, Open, Here, Rel, OpsAre, Exec.Below, EncAll, EmitCond, EmitCases, EmitCase, CondExit,
      Destructure, ValidCases, ValidRegion, Reaches, Keeps, Passed, FreshIn, Steps, TargetsOk, AtBlock, LoadLine,
        StoreLine, CaseFound, Enc, RowIs, SumStruct, RegionIns;
    var rows, cases, tag := n.op.rows, n.op.cases, vs[0].tag;
    var ivals, exitRow := vs[0].vals + vs[1..], FreshRow(|s.slots|, |n.outs|);
    CondParts(s, rows, cases, vals[0], vals[1..], n.outs, outs);
    var s1 := CondExit(s, n.outs, outs);
    var r := EmitCases(s1, cases, exitRow, |s.code|);
    CalleeAndArgs(fr.loc, vals, vs, s.regs);
    a := FindCase(c, s, n, vals, outs, tag, |ivals|, vs);
    CurIn(s);
    CurIn(r.0);
    HereToo(c, s, r.0, fr);
    LaterTrans(Destructure(r.0, rows, vals[0], vals[1..], r.1),
               EmitCond(s, rows, cases, vals[0], vals[1..], n.outs, outs), c.fin);
    LaterCounts(s, r.0);
    BelowMore(vals, s.regs, r.0.regs);
    EncSum(vs[0]);
    var row := FreshRow(|a.slots|, |ivals|);
    var hi := |EmitCase(a, cases[tag], exitRow, |s.code|).slots|;
    FreshRowIn(c, row, |a.slots|, hi);
    k, fr' := SimDestructure(c, r.0, rows, vals[0], vals[1..], r.1, tag, fr, stk, EncAll(vs[0].vals), EncAll(vs[1..]));
    EncAllConcat(vs[0].vals, vs[1..]);
    PassedFresh(c, row, EncAll(ivals), r.0.regs, |a.slots|, hi, fr.loc, fr'.loc, env);
    PreludeReach(c, fr, stk, k, fr');
    PassedRow(row, EncAll(ivals), r.0.regs, fr.loc, fr'.loc);
    KeepsFewer(c.fin.env, {}, |a.slots|, hi, r.0.regs, s.regs, fr.loc, fr'.loc);
  }

  lemma PassedRow(row: seq<nat>, ls: seq<LVal>, n: nat, l: Local, l': Local)
    requires Passed(row, ls, n, l, l')
    ensures RowIs(l'.mem, row, ls)
  {
  }

  lemma KeepsFewer(e: map<Wire, nat>, ids: set<NodeId>, lo: nat, hi: nat, n: nat, m: nat, l: Local, l': Local)
    requires Keeps(e, ids, lo, hi, n, [], l, l') && m <= n
    ensures Keeps(e, ids, lo, hi, m, [], l, l')
  {
  }

  lemma FreshRowIn(c: Ctx, row: seq<nat>, lo: nat, hi: nat)
    requires FreshIn(row, lo, hi, c.fin)
    ensures forall i :: 0 <= i < |row| ==> row[i] < |c.fin.slots|
    ensures forall i, j :: 0 <= i < j < |row| ==> row[i] != row[j]
  {
  }

  lemma HereToo(c: Ctx, s: ES, t: ES, fr: Frame)
    requires Here(c, s, fr) && t.cur == s.cur && s.cur < |s.code| && s.cur < |t.code| && t.code[s.cur] == s.code[s.cur]
    ensures Here(c, t, fr)
  {
  }

  lemma FindCase(c: Ctx, s: ES, n: Node, vals: seq<Operand>, outs: seq<nat>, tag: nat, nIn: nat, vs: seq<Val>)
    returns (a: ES)
    requires n.op.Cond? && n.op.rows != [] && |vals| >= 1 && |outs| == |n.outs| && tag < |n.op.cases|
    requires ValidCases(n.op.cases, n.op.rows, |vals| - 1, |outs|) && |n.op.cases| == |n.op.rows| && Ready(s)
    requires Later(EmitCond(s, n.op.rows, n.op.cases, vals[0], vals[1..], n.outs, outs), c.fin)
    requires nIn == |n.op.rows[tag].tys| + |vals| - 1
    ensures CaseFound(c, s, n, vals, outs, tag, nIn, a)
    ensures EmitCases(CondExit(s, n.outs, outs), n.op.cases, FreshRow(|s.slots|, |n.outs|), |s.code|).1[tag]
         == Target(|a.code|, FreshRow(|a.slots|, nIn))
    ensures FreshIn(FreshRow(|a.slots|, nIn), |a.slots|,
                    |EmitCase(a, n.op.cases[tag], FreshRow(|s.slots|, |n.outs|), |s.code|).slots|, c.fin)
  {
    hide Open, EmitCond, EmitCases, EmitCase, CondExit, Destructure, ValidCases, LoadLine, StoreLine, Later,
      LayoutOk, JumpsOk, Closed, Shut, TargetsOk, EnvOk, Ready, Inv, FreshIn;
    var rows, cases := n.op.rows, n.op.cases;
    var t := EmitCond(s, rows, cases, vals[0], vals[1..], n.outs, outs);
    CondParts(s, rows, cases, vals[0], vals[1..], n.outs, outs);
    var s1, exit, exitRow := CondExit(s, n.outs, outs), |s.code|, FreshRow(|s.slots|, |n.outs|);
    CondExitFacts(s, n.outs, outs);
    a := CaseAt(s1, cases, rows, |vals| - 1, exitRow, exit, tag);
    ValidCaseAt(cases, rows, |vals| - 1, |outs|, tag);
    RegionInsLen(cases[tag].nodes, nIn, |exitRow|);
    var e, r0 := EmitCase(a, cases[tag], exitRow, exit), EmitCases(s1, cases, exitRow, exit).0;
    LaterTrans(e, r0, t);
    LaterTrans(e, t, c.fin);
    EmitCaseLater(a, cases[tag], exitRow, exit, nIn, s1);
    LaterTrans(a, e, c.fin);
    LaterTrans(s1, a, c.fin);
    LaterCounts(s, s1);
    LaterCounts(s1, a);
    LaterCounts(a, e);
    LaterCounts(e, t);
    LaterCounts(a, c.fin);
    ExitRowFresh(s, s1, a, exitRow, c.fin);
    CaseRowFresh(c, a, cases[tag], exitRow, exit, nIn);
  }

  lemma SimCondExit(c: Ctx, s: ES, a: ES, n: Node, tag: nat, vals: seq<Operand>, outs: seq<nat>, exitRow: seq<nat>,
                    fr: Frame, fr1: Frame, fr2: Frame, stk: Stack, os: seq<Val>)
    returns (k: nat, fr': Frame)
    requires n.op.Cond? && n.op.rows != [] && |vals| >= 1 && |outs| == |n.outs| && tag < |n.op.cases|
    requires ValidCases(n.op.cases, n.op.rows, |vals| - 1, |outs|) && |n.op.cases| == |n.op.rows|
    requires CtxOk(c) && Ready(s) && OutRow(c, n.id, outs)
    requires Later(EmitCond(s, n.op.rows, n.op.cases, vals[0], vals[1..], n.outs, outs), c.fin)
    requires |s.slots| <= |a.slots| && exitRow == FreshRow(|s.slots|, |n.outs|)
    requires FreshIn(exitRow, |s.slots|, |a.slots|, c.fin) && IdsAll(n.op.cases[tag].nodes) <= Ids(n)
    requires var d := n.op.cases[tag];
      && |EmitCase(a, d, exitRow, |s.code|).slots|
         <= |EmitCond(s, n.op.rows, n.op.cases, vals[0], vals[1..], n.outs, outs).slots|
      && |a.slots| <= |EmitCase(a, d, exitRow, |s.code|).slots|
      && Keeps(c.fin.env, {}, |a.slots|, |EmitCase(a, d, exitRow, |s.code|).slots|, s.regs, [], fr.loc, fr1.loc)
      && CaseAfter(c, IdsAll(d.nodes), |a.slots|, |EmitCase(a, d, exitRow, |s.code|).slots|, s.regs, exitRow, |s.code|,
                   fr1, fr2, os)
    ensures Reaches(c, fr2, stk, k, fr')
    ensures OpAfter(c, s, EmitCond(s, n.op.rows, n.op.cases, vals[0], vals[1..], n.outs, outs), n, outs, fr, fr', os)
  {
    hide Later, Reaches, EmitCond, EmitCases, EmitCase, Ids, IdsAll, CtxOk, Inv, Open, OutRow, ValidCases, EncAll,
      LoadLine, StoreLine, Destructure, CondExit, RowIs, FreshIn, AtBlock, Here;
    var t := EmitCond(s, n.op.rows, n.op.cases, vals[0], vals[1..], n.outs, outs);
    CondParts(s, n.op.rows, n.op.cases, vals[0], vals[1..], n.outs, outs);
    LaterPrefix(t, c.fin, |s.code|);
    k, fr' := SimExit(c, t, |s.code|, s.regs, n.id, exitRow, outs, fr2, stk, EncAll(os), |s.slots|, |t.slots|, s.regs);
    NodeInIds(n);
    var hi := |EmitCase(a, n.op.cases[tag], exitRow, |s.code|).slots|;
    CondKeeps(c, IdsAll(n.op.cases[tag].nodes), Ids(n), n.id, |s.slots|, |a.slots|, hi, |t.slots|, s.regs, exitRow,
              fr.loc, fr1.loc, fr2.loc, fr'.loc);
  }

  lemma CondKeeps(c: Ctx, ids: set<NodeId>, all: set<NodeId>, id: NodeId, lo: nat, mid: nat, hi: nat, top: nat, n: nat,
                  exitRow: seq<nat>, l: Local, l1: Local, l2: Local, l3: Local)
    requires Keeps(c.fin.env, {}, mid, hi, n, [], l, l1) && Keeps(c.fin.env, ids, mid, hi, n, exitRow, l1, l2)
    requires Keeps(c.fin.env, {id}, lo, top, n, [], l2, l3) && FreshIn(exitRow, lo, mid, c.fin)
    requires lo <= mid <= hi <= top && ids <= all && id in all
    ensures Keeps(c.fin.env, all, lo, top, n, [], l, l3)
  {
  }
}
