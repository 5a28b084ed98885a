/** Where the parts of what is emitted for a node, a case, a block or a function sit in the final code, and the names
    of those parts. */
module EmitParts {
  import opened Values
  import opened Machine
  import opened Hugr
  import opened Types
  import opened Builder
  import opened Emit
  import opened EmitLaws
  import opened SimBase
  import opened SimLocate

  // ----- lists of nodes -----

  lemma IdsSplit(nodes: seq<Node>)
    requires nodes != []
    ensures IdsAll(nodes) == Ids(nodes[0]) + IdsAll(nodes[1..])
  {
  }

  lemma EmitsReady(a: ES, b: ES)
    requires Emits(a, b)
    ensures Ready(b) && Inv(b) && Later(a, b)
  {
  }

  lemma LaterCounts(a: ES, b: ES)
    requires Later(a, b)
    ensures |a.slots| <= |b.slots| && a.regs <= b.regs && |a.code| <= |b.code|
  {
  }

  // ----- one node -----

  ghost predicate Within(row: seq<nat>, n: nat) {
    true == (forall i :: 0 <= i < |row| ==> row[i] < n)
  }

  lemma LaterVia(s: ES, t: ES, fin: ES)
    requires Emits(s, t) && Later(t, fin)
    ensures Later(s, fin)
  {
    LaterTrans(s, t, fin);
  }

  lemma {:induction false} AfterPrelude(st: ES, n: Node, inputs: seq<Operand>, promise: seq<nat>, ws: seq<Wire>)
    requires Ready(st) && ValidNode(n, |inputs|, ws) && |promise| == |ws| && |n.ins| == |n.inTys|
    ensures Emits(Prelude(st, n), EmitNode(st, n, inputs, promise)) && |NodeOuts(st, n)| == |n.outs|
  {
    hide Later, Inv, Open, Prelude, Mod, Shut, ValidNode, Emits, Ready, EmitAt;
    PreludeFacts(st, n);
    EmitAtLaws(Prelude(st, n), n, Regs(st.regs, |n.ins|), NodeOuts(st, n), inputs, promise, ws);
  }

  lemma PreludeFacts(st: ES, n: Node)
    requires Ready(st) && |n.ins| == |n.inTys|
    ensures Emits(st, Prelude(st, n)) && Ready(Prelude(st, n)) && Inv(Prelude(st, n))
    ensures Prelude(st, n).regs == st.regs + |n.ins|
    ensures Mapped(OutWires(n.id, |n.outs|), Prelude(st, n).env)
  {
    hide Mod, Later, Mapped, Prelude, Shut;
    PreludeEmits(st, n);
  }

  lemma WriteIsPut(s: ES, row: seq<nat>, os: seq<Operand>)
    requires |row| == |os|
    ensures WriteRow(s, row, os) == Put(s, StoreLine(row, os), s.regs)
  {
  }

  // ----- ops -----

  lemma NodeInIds(n: Node)
    ensures n.id in Ids(n)
  {
  }

  // ----- calls -----

  lemma PutPrefix(s: ES, line: seq<Instr>, next: nat, fin: ES)
    requires s.cur < |s.code| && Later(Put(s, line, next), fin)
    ensures s.cur < |fin.code| && s.code[s.cur] + line <= fin.code[s.cur]
  {
    var t := Put(s, line, next);
    assert t.code[s.cur] <= fin.code[s.cur];
  }

  lemma SliceTail(b: seq<Instr>, pre: seq<Instr>, head: Instr, line: seq<Instr>)
    requires pre + ([head] + line) <= b
    ensures |pre| + 1 + |line| <= |b| && b[|pre|] == head && b[|pre| + 1..|pre| + 1 + |line|] == line
  {
    assert (pre + ([head] + line))[|pre|] == head;
    assert (pre + ([head] + line))[|pre| + 1..] == line;
    assert b[..|pre| + 1 + |line|] == pre + ([head] + line);
  }

  lemma {:induction false} FinishCall(s: ES, callee: Operand, vals: seq<Operand>, outs: seq<nat>)
    requires s.cur < |s.code|
    ensures var p := UnpackPiece(|outs|, s.regs + 1);
      Finish(s, Some(CallPiece(callee, vals, |outs|, s.regs)), outs)
      == Put(s, [Machine.Call(s.regs, callee, vals)] + (p.line + StoreLine(outs, p.vals)), p.next)
  {
    hide ExtractLine, StoreLine, Put;
    var p := CallPiece(callee, vals, |outs|, s.regs);
    var q := UnpackPiece(|outs|, s.regs + 1);
    PutPut(s, p.line, p.next, StoreLine(outs, p.vals), p.next);
    assert p.line + StoreLine(outs, p.vals)
           == [Machine.Call(s.regs, callee, vals)] + (q.line + StoreLine(outs, q.vals));
    PutRegs(s, p.line, p.next);
  }

  lemma PutRegs(s: ES, line: seq<Instr>, next: nat)
    requires s.cur < |s.code|
    ensures Put(s, line, next).regs == next
  {
  }

  // ----- conditionals -----

  /** The state `t` after a conditional, its exit block, and the state in which its switch is emitted. */
  lemma CondParts(s: ES, rows: seq<Row>, cases: seq<Case>, v: Operand, rest: seq<Operand>, tys: seq<Ty>, outs: seq<nat>)
    requires Ready(s) && rows != [] && |outs| == |tys| && ValidCases(cases, rows, |rest|, |tys|)
    ensures var s1 := CondExit(s, tys, outs); var r := EmitCases(s1, cases, FreshRow(|s.slots|, |tys|), |s.code|);
      var t := EmitCond(s, rows, cases, v, rest, tys, outs);
      && Ready(r.0) && r.0.cur == s.cur && r.0.code[s.cur] == s.code[s.cur] && TargetsOk(rows, r.1, |rest|, |r.0.code|)
      && Later(Destructure(r.0, rows, v, rest, r.1), t) && Later(r.0, t) && Later(s, r.0)
      && |s.code| < |t.code| && t.cur == |s.code|
      && t.code[|s.code|] == LoadLine(FreshRow(|s.slots|, |tys|), s.regs) + StoreLine(outs, Regs(s.regs, |tys|))
  {
    hide EmitCase, EmitCases, CondExit, Destructure, LayoutOk, EnvOk, JumpsOk, LoadLine, StoreLine, Open, Closed;
    var exit, row := |s.code|, FreshRow(|s.slots|, |tys|);
    CondExitLaws(s, tys, outs);
    var s1 := CondExit(s, tys, outs);
    EmitCasesLaws(s1, cases, rows, |rest|, row, exit);
    var r := EmitCases(s1, cases, row, exit);
    assert r.0.code[s.cur] == s1.code[s.cur] == s.code[s.cur];
    DestructureLaws(r.0, rows, v, rest, r.1);
    LaterTrans(s, s1, r.0);
    LaterTrans(r.0, Destructure(r.0, rows, v, rest, r.1), EmitCond(s, rows, cases, v, rest, tys, outs));
  }

  lemma CaseParts(a: ES, d: Case, exitRow: seq<nat>, exit: nat, nIn: nat)
    requires Inv(a) && 0 < exit < |a.code| && ValidRegion(d.nodes, nIn, |exitRow|) && |RegionIns(d.nodes)| == nIn
    ensures var s := CaseStart(a, d, exit); var e := EmitNodes(s, d.nodes, Regs(a.regs, nIn), exitRow);
      && Ready(s) && s.cur == |a.code| && |s.code| == |a.code| + 1 && s.env == a.env
      && |s.slots| == |a.slots| + nIn && s.regs == a.regs + nIn
      && s.code[s.cur] == LoadLine(FreshRow(|a.slots|, nIn), a.regs)
      && Emits(s, e) && e.cur < |e.code| && EmitCase(a, d, exitRow, exit) == At(Terminate(e, Br(exit)), a.cur)
  {
    hide EmitNodes, Later, Mod, LoadLine, CaseStart, Shut;
    CaseStartLaws(a, d, exit);
    var s := CaseStart(a, d, exit);
    EmitNodesLaws(s, d.nodes, Regs(a.regs, nIn), exitRow, RegionOuts(d.nodes));
  }

  lemma CaseLater(a: ES, d: Case, exitRow: seq<nat>, exit: nat, nIn: nat, fin: ES)
    requires Inv(a) && 0 < exit < |a.code| && ValidRegion(d.nodes, nIn, |exitRow|) && |RegionIns(d.nodes)| == nIn
    requires Later(EmitCase(a, d, exitRow, exit), fin)
    ensures var s := CaseStart(a, d, exit); var e := EmitNodes(s, d.nodes, Regs(a.regs, nIn), exitRow);
      && Later(s, fin) && Later(e, fin) && s.cur < |fin.code|
      && LoadLine(FreshRow(|a.slots|, nIn), a.regs) <= fin.code[s.cur]
      && e.cur < |fin.code| && e.cur < |e.code| && e.code[e.cur] + [Br(exit)] <= fin.code[e.cur]
      && |EmitCase(a, d, exitRow, exit).slots| == |e.slots|
  {
    hide EmitNodes, LoadLine, CaseStart, LayoutOk, EnvOk, JumpsOk, Open, EmitCase;
    CaseParts(a, d, exitRow, exit, nIn);
    var s := CaseStart(a, d, exit);
    var e := EmitNodes(s, d.nodes, Regs(a.regs, nIn), exitRow);
    EmitsReady(s, e);
    var t := Terminate(e, Br(exit));
    TerminateCloses(e, Br(exit));
    LaterTrans(e, t, At(t, a.cur));
    LaterTrans(e, At(t, a.cur), fin);
    LaterTrans(s, e, fin);
    assert s.code[s.cur] <= fin.code[s.cur];
    assert At(t, a.cur).code[e.cur] <= fin.code[e.cur];
  }

  ghost predicate Branches(n: Node, vs: seq<Val>)
    requires n.op.Cond?
  {
    && |vs| > 0 && vs[0].SumV? && vs[0].rows == n.op.rows && vs[0].tag < |n.op.cases| && vs[0].tag < |n.op.rows|
    && |vs[0].vals| == |n.op.rows[vs[0].tag].tys|
  }

  lemma {:induction false} CasesLen(cases: seq<Case>, rows: seq<Row>, nRest: nat, nOut: nat)
    requires ValidCases(cases, rows, nRest, nOut)
    ensures |cases| == |rows|
  {
  }

  lemma EncSum(v: Val)
    requires v.SumV? && v.tag < |v.rows|
    ensures Enc(v) == SumStruct(v.rows, v.tag, EncAll(v.vals)) && |EncAll(v.vals)| == |v.vals|
  {
  }

  lemma BelowMore(os: seq<Operand>, n: nat, m: nat)
    requires Exec.Below(os, n) && n <= m
    ensures Exec.Below(os, m)
    ensures |os| > 0 ==> Exec.Below([os[0]], m) && Exec.Below(os[1..], m)
  {
  }

  lemma CurIn(s: ES)
    requires Ready(s)
    ensures 1 <= s.cur < |s.code|
  {
  }

  lemma RegionInsLen(nodes: seq<Node>, nIn: nat, nOut: nat)
    requires ValidRegion(nodes, nIn, nOut)
    ensures |RegionIns(nodes)| == nIn
  {
  }

  lemma CondExitFacts(s: ES, tys: seq<Ty>, outs: seq<nat>)
    requires Ready(s) && |outs| == |tys|
    ensures var s1 := CondExit(s, tys, outs);
      && Inv(s) && Inv(s1) && 0 < |s.code| < |s1.code| && s1.env == s.env && |s1.slots| == |s.slots| + |tys|
        && Later(s, s1)
  {
    hide LayoutOk, JumpsOk, EnvOk, Closed, CondExit;
    CondExitLaws(s, tys, outs);
  }

  lemma EmitCaseLater(a: ES, d: Case, exitRow: seq<nat>, exit: nat, nIn: nat, s1: ES)
    requires Inv(a) && Inv(s1) && 0 < exit < |s1.code| && Later(s1, a) && ValidRegion(d.nodes, nIn, |exitRow|)
    ensures Later(a, EmitCase(a, d, exitRow, exit)) && exit < |a.code|
  {
    hide LayoutOk, JumpsOk, EnvOk, Closed, EmitCase;
    EmitCaseLaws(a, d, exitRow, exit, nIn);
  }

  lemma ExitRowFresh(s: ES, s1: ES, a: ES, exitRow: seq<nat>, fin: ES)
    requires Inv(s) && s1.env == s.env && |s1.slots| == |s.slots| + |exitRow| && Later(s1, fin)
    requires exitRow == FreshRow(|s.slots|, |exitRow|) && |s1.slots| <= |a.slots|
    ensures FreshIn(exitRow, 0, |a.slots|, fin) && FreshIn(exitRow, |s.slots|, |a.slots|, fin)
  {
    hide LayoutOk, JumpsOk;
    FreshAnon(s, s1, fin);
  }

  // ----- control-flow graphs -----

  /** The outcome of a block: its results, if they choose a successor. */
  ghost predicate Chooses(d: Child, os: seq<Val>)
    requires d.Block?
  {
    && |os| > 0 && os[0].SumV? && os[0].rows == d.rows && os[0].tag < |d.succs| && os[0].tag < |d.rows|
    && |os[0].vals| == |d.rows[os[0].tag].tys|
  }

  /** The promise made for the results of a dataflow block. */
  function BlockPromise(a: ES, nodes: seq<Node>, t: Target): seq<nat> {
    RowOf(BlockStart(a, nodes, t).env, RegionOuts(nodes))
  }

  /** The registers the results of a dataflow block are read back into. */
  function BlockResults(a: ES, nodes: seq<Node>, t: Target): (os: seq<Operand>)
    ensures |os| == |RegionOuts(nodes)|
  {
    var promise := BlockPromise(a, nodes, t);
    Regs(EmitNodes(BlockStart(a, nodes, t), nodes, Regs(a.regs, |t.row|), promise).regs, |promise|)
  }

  lemma {:induction false} BlockParts(a: ES, nodes: seq<Node>, t: Target)
    requires Inv(a) && 1 <= t.blk < |a.code| && a.code[t.blk] == []
    requires ValidRegion(nodes, |t.row|, |RegionOuts(nodes)|)
    ensures var s := BlockStart(a, nodes, t); var promise := BlockPromise(a, nodes, t);
      var e := EmitNodes(s, nodes, Regs(a.regs, |t.row|), promise); var z := BlockEnd(a, nodes, t);
      && Ready(s) && s.cur == t.blk && s.regs == a.regs + |t.row| && Later(a, s) && Mapped(RegionOuts(nodes), s.env)
      && s.code[t.blk] == LoadLine(t.row, a.regs)
      && Emits(s, e) && e.cur < |e.code| && z == Put(e, LoadLine(promise, e.regs), e.regs + |promise|)
      && Ready(z) && Later(e, z) && z.regs == e.regs + |promise| && |z.code| >= |a.code|
  {
    hide EmitNodes, Later, Mod, LoadLine, BlockStart, Shut, LayoutOk, JumpsOk, EnvOk, Closed;
    OutputTys(nodes, |t.row|, RegionOuts(nodes));
    BlockStartLaws(a, nodes, t);
    var s := BlockStart(a, nodes, t);
    var promise := BlockPromise(a, nodes, t);
    EmitNodesLaws(s, nodes, Regs(a.regs, |t.row|), promise, RegionOuts(nodes));
    var e := EmitNodes(s, nodes, Regs(a.regs, |t.row|), promise);
    ReadRowEmits(e, promise);
    EmitsReady(At(a, t.blk), s);
    EmitsReady(s, e);
    EmitsReady(e, BlockEnd(a, nodes, t));
    LaterCounts(a, s);
    LaterCounts(s, e);
    LaterFromAt(a, t.blk, s);
  }

  lemma LaterFromAt(a: ES, b: nat, s: ES)
    requires Later(At(a, b), s)
    ensures Later(a, s)
  {
  }

  lemma LaterFromChild(a: ES, b: nat, needs: set<Need>, s: ES)
    requires Later(Ask(At(a, b), needs), s)
    ensures Later(a, s)
  {
  }

  lemma DestructureLater(z: ES, rows: seq<Row>, v: Operand, rest: seq<Operand>, ts: seq<Target>)
    requires Ready(z) && rows != [] && |ts| == |rows|
    requires forall i :: 0 <= i < |rows| ==> |ts[i].row| == |rows[i].tys| + |rest| && 0 < ts[i].blk < |z.code|
    ensures Later(z, Destructure(z, rows, v, rest, ts)) && TargetsOk(rows, ts, |rest|, |z.code|)
  {
    hide Destructure;
    DestructureLaws(z, rows, v, rest, ts);
  }

  lemma BlockEmission(a: ES, d: Child, bbs: map<NodeId, Target>, outs: seq<nat>, nIn: nat)
    requires d.Block? && ValidRegion(d.nodes, nIn, |RegionOuts(d.nodes)|) && d.id in bbs
      && (forall u :: u in d.succs ==> u in bbs) && |RegionOuts(d.nodes)| >= 1
    ensures var z := BlockEnd(a, d.nodes, bbs[d.id]); var vals := BlockResults(a, d.nodes, bbs[d.id]);
      && |vals| >= 1
      && EmitChild(a, d, bbs, outs)
         == Ask(At(Destructure(z, d.rows, vals[0], vals[1..], Targets(d.succs, bbs)), a.cur),
                {NeedType(Sum(d.rows))})
  {
    hide BlockStart, EmitNodes, EmitRegion, Destructure, Put, RegionOuts, LoadLine, ValidNodes, CountOp, EmitChild;
    BlockUnfolds(a, d, bbs, outs);
  }

  lemma {:induction false} IdsChildIn(children: seq<Child>, d: Child)
    requires d in children
    ensures IdsChild(d) <= IdsChildren(children)
  {
    if children[0] != d { IdsChildIn(children[1..], d); }
  }

  lemma EntryLater(r: ES, t: Target, vals: seq<Operand>)
    requires Ready(r) && |t.row| == |vals|
    ensures var s := Terminate(WriteRow(r, t.row, vals), Br(t.blk)); Later(r, s) && s.slots == r.slots
  {
  }

  lemma ExitLen(d: Child, t: Target, env: map<Wire, nat>, lo: nat, hi: nat, exit: nat, nOut: nat)
    requires TargetOk(d, t, env, lo, hi, exit, nOut) && d.Exit?
    ensures |t.row| == nOut
  {
  }

  lemma ChoiceIn(d: Child, os: seq<Val>)
    requires d.Block? && Chooses(d, os)
    ensures |os| > 0 && os[0].SumV? && os[0].tag < |d.succs|
  {
  }

  lemma CfgChildren(children: seq<Child>, nIn: nat, nOut: nat)
    requires ValidCfg(children, nIn, nOut)
    ensures |children| >= 2 && children[0].Block? && children[1].Exit?
    ensures forall y :: y in children && y.Exit? ==> y == children[1]
  {
    hide ValidChildren, RegionIns;
  }

  lemma GraphIds(n: Node)
    requires n.op.Cfg? && n.op.children != []
    ensures IdsChild(n.op.children[0]) <= Ids(n) && IdsChildren(n.op.children) <= Ids(n) && n.id in Ids(n)
  {
    IdsChildIn(n.op.children, n.op.children[0]);
  }

  // ----- functions -----

  lemma FuncLater(f: FuncDefn)
    requires ValidFunc(f)
    ensures Later(FuncStart(f), EmitFunc(f))
  {
    hide EmitFunc, FuncStart, FuncBody, Later;
    FuncBodyLaws(f);
    FuncEnds(f);
    EmitsReady(FuncStart(f), FuncBody(f));
    LaterTrans(FuncStart(f), FuncBody(f), EmitFunc(f));
  }

  lemma FuncRowAnon(f: FuncDefn, fin: ES)
    requires ValidFunc(f) && Later(FuncBody(f), fin)
    ensures forall q :: 0 <= q < |f.outs| ==> Anon(fin.env, q)
  {
    FuncBodyLaws(f);
    InitialReady();
    LaterTrans(FuncStart(f), FuncBody(f), fin);
    FreshAnon(Initial, FuncStart(f), fin);
  }

  lemma SliceHead(b: seq<Instr>, pre: seq<Instr>, line: seq<Instr>, last: Instr)
    requires pre + (line + [last]) <= b
    ensures |pre| + |line| < |b| && b[|pre|..|pre| + |line|] == line && b[|pre| + |line|] == last
  {
    var w := pre + (line + [last]);
    assert b[..|w|] == w;
    assert w[|pre|..|pre| + |line|] == line;
    assert w[|pre| + |line|] == last;
  }

  lemma FuncRegion(d: FuncDefn)
    requires ValidFunc(d)
    ensures ValidNodes(d.nodes, |Params(|d.ins|)|, RegionOuts(d.nodes)) && |RegionIns(d.nodes)| == |d.ins|
    ensures Later(EmitNodes(FuncStart(d), d.nodes, Params(|d.ins|), FreshRow(0, |d.outs|)), EmitFunc(d))
  {
    hide EmitNodes, FuncStart, EmitFunc, Later;
    FuncEnds(d);
  }
}
