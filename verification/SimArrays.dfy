/** Array ops run in step: those that may fail test the indices, go through the block for success or for failure, and
    meet in the exit block with the sum they return in the output mailbox. */
module SimArrays {
  import opened Values
  import opened Machine
  import opened Hugr
  import opened Arrays
  import opened Builder
  import opened Emit
  import opened EmitLaws
  import opened Exec
  import opened ExecArrays
  import opened SimBase
  import opened SimLocate
  import opened EmitParts
  import opened SimStep
  import opened SimOps
  import opened SimCases

  function ArrayRes(op: ArrayOp, elem: Ty, size: nat, vs: seq<Val>): Res<seq<Val>> {
    match ArraySem(op, elem, size, vs) case Some(os) => Ok(os) case None => Wrong
  }

  lemma SimArray(c: Ctx, fuel: nat, s: ES, n: Node, vals: seq<Operand>, outs: seq<nat>, fr: Frame, stk: Stack,
                 vs: seq<Val>)
    returns (k: nat, fr': Frame)
    requires CtxOk(c) && Ready(s) && Here(c, s, fr) && OutRow(c, n.id, outs) && n.op.Array? && |outs| == |n.outs|
    requires |vals| == |ArrayIns(n.op.arr, n.op.elem, n.op.size)| && |vs| == |vals|
    requires |outs| == |ArrayOuts(n.op.arr, n.op.elem, n.op.size)|
    requires Later(EmitArray(s, n.op.arr, n.op.elem, n.op.size, vals, outs), c.fin)
    requires OpsAre(fr.loc, vals, EncAll(vs)) && Exec.Below(vals, s.regs)
    ensures OpStep(c, fuel, ArrayRes(n.op.arr, n.op.elem, n.op.size, vs), s,
                   EmitArray(s, n.op.arr, n.op.elem, n.op.size, vals, outs), n, outs, fr, stk, k, fr')
  {
    hide CtxOk, Ready, Here, Later, OutRow, OpsAre, Exec.Below, OpStep, EmitAccess, Finish, PieceOk, NewArrayPiece,
      PoppedPiece, EncAll, ExecSeq, Computes;
    var op, elem, size := n.op.arr, n.op.elem, n.op.size;
    var needs, t := ArrayNeeds(op, elem, size), EmitArray(s, op, elem, size, vals, outs);
    var s1 := Ask(s, needs);
    AskedHere(c, s, needs, fr);
    if ArraySem(op, elem, size, vs).None? {
      k, fr' := 0, fr;
      AnyOp(c, fuel, s, t, n, outs, fr, stk, k, fr');
      return;
    }
    var os := ArraySem(op, elem, size, vs).value;
    match op {
      case NewArray =>
        ExecNewArray(c.w.x, vals, s.regs, fr.loc, vs);
        NewArrayPieceOk(size, vals, s.regs);
        k, fr' := SimStraight(c, fuel, s, s1, NewArrayPiece(size, vals, s.regs), n, outs, fr, stk, os);
      case PopOp(left) =>
        assert vals == [vals[0]];
        ExecPopped(c.w.x, elem, left, size, vals[0], s.regs, fr.loc, vs, os);
        PoppedPieceOk(elem, left, size, vals[0], s.regs);
        var p := PoppedPiece(ArrayRows(op, elem, size), left, size, vals[0], s.regs).value;
        k, fr' := SimStraight(c, fuel, s, s1, p, n, outs, fr, stk, os);
      case DiscardEmpty =>
        k, fr' := 0, fr;
        NothingToDo(c, fuel, s, t, n, outs, fr, stk);
      case _ =>
        SemOfAccess(op, elem, size, vs);
        k, fr' := SimAccess(c, s1, op, elem, size, n, vals, outs, fr, stk, vs, os);
        ReachedStep(c, fuel, s, s1, t, n, outs, fr, stk, k, fr', os);
    }
  }

  lemma ReachedStep(c: Ctx, fuel: nat, s: ES, s1: ES, t: ES, n: Node, outs: seq<nat>, fr: Frame, stk: Stack, k: nat,
                    fr': Frame, os: seq<Val>)
    requires Reaches(c, fr, stk, k, fr') && OpAfter(c, s1, t, n, outs, fr, fr', os)
    requires s1.slots == s.slots && s1.regs == s.regs
    ensures OpStep(c, fuel, Ok(os), s, t, n, outs, fr, stk, k, fr')
  {
  }

  /** The sum that an op that may fail returns. */
  function Outcome(op: ArrayOp, elem: Ty, size: nat, vs: seq<Val>): seq<Val>
    requires Shaped(op, size, vs)
  {
    var rows := ArrayRows(op, elem, size);
    if InRange(op, size, vs) then [SumV(1, Taken(op, size, vs), rows)] else [SumV(0, Refused(op, size, vs), rows)]
  }

  lemma SimAccess(c: Ctx, s: ES, op: ArrayOp, elem: Ty, size: nat, n: Node, vals: seq<Operand>, outs: seq<nat>,
                  fr: Frame, stk: Stack, vs: seq<Val>, os: seq<Val>)
    returns (k: nat, fr': Frame)
    requires CtxOk(c) && Ready(s) && Here(c, s, fr) && OutRow(c, n.id, outs) && |outs| == 1
    requires Shaped(op, size, vs) && os == Outcome(op, elem, size, vs) && |vals| == |vs|
    requires Later(EmitAccess(s, op, ArrayRows(op, elem, size), size, vals, outs), c.fin)
    requires OpsAre(fr.loc, vals, EncAll(vs)) && Exec.Below(vals, s.regs)
    ensures Reaches(c, fr, stk, k, fr')
    ensures OpAfter(c, s, EmitAccess(s, op, ArrayRows(op, elem, size), size, vals, outs), n, outs, fr, fr', os)
  {
    hide CtxOk, Ready, Here, Later, OutRow, OpsAre, Exec.Below, EmitAccess, Success, Failure, GuardPiece, EncAll, RowIs,
      Keeps, FreshIn, AtBlock, Ids, LoadLine, StoreLine, Emits, Reaches, Outcome;
    var exit, exitRow := |s.code|, FreshRow(|s.slots|, 1);
    var t := EmitAccess(s, op, ArrayRows(op, elem, size), size, vals, outs);
    AccessLaws(s, op, elem, size, vals, outs);
    CurIn(s);
    ExitMailbox(c, s, t, exitRow);
    var p := Success(op, elem, size, vals, s.regs + 1);
    var q := Failure(op, elem, size, vals, p.next);
    var yes := InRange(op, size, vs);
    var k1, fr1 := SimGuard(c, s, t, op, size, vals, q.next, fr, stk, vs);
    var side, at := if yes then p else q, if yes then exit + 1 else exit + 2;
    SidesNext(op, elem, size, vals, s.regs);
    SideExec(c, op, elem, size, vals, s.regs, p, q, fr, fr1, vs);
    LaterPrefix(t, c.fin, at);
    var k2, fr2 := SimSide(c, side, at, exitRow, exit, |s.slots|, |t.slots|, s.regs, fr1, stk, EncAll(os)) by {
      assert os == Outcome(op, elem, size, vs);
      OutcomeIs(op, elem, size, vs);
    }
    LaterPrefix(t, c.fin, exit);
    var k3, fr3 := SimExit(c, t, exit, s.regs, n.id, exitRow, outs, fr2, stk, EncAll(os), |s.slots|, |t.slots|, s.regs);
    ReachTrans(c, fr, stk, k1, fr1, k2, fr2);
    ReachTrans(c, fr, stk, k1 + k2, fr2, k3, fr3);
    k, fr' := k1 + k2 + k3, fr3;
    NodeInIds(n);
    AccessKeeps(c, Ids(n), n.id, |s.slots|, |t.slots|, s.regs, fr.loc, fr1.loc, fr2.loc, fr3.loc);
  }

  lemma SidesNext(op: ArrayOp, elem: Ty, size: nat, vals: seq<Operand>, n: nat)
    requires IsAccess(op, |vals|)
    ensures var p := Success(op, elem, size, vals, n + 1); var q := Failure(op, elem, size, vals, p.next);
      n + 1 <= p.next && |p.vals| == 1 && |q.vals| == 1
  {
    hide AccessPiece, TagPiece;
    AccessPiecesOk(op, elem, size, vals, n + 1);
    AccessPiecesOk(op, elem, size, vals, Success(op, elem, size, vals, n + 1).next);
  }

  lemma OutcomeIs(op: ArrayOp, elem: Ty, size: nat, vs: seq<Val>)
    requires Shaped(op, size, vs)
    ensures var rows := ArrayRows(op, elem, size);
      Outcome(op, elem, size, vs)
      == if InRange(op, size, vs) then [SumV(1, Taken(op, size, vs), rows)] else [SumV(0, Refused(op, size, vs), rows)]
  {
  }

  /** The exit mailbox is anonymous. */
  lemma ExitMailbox(c: Ctx, s: ES, t: ES, exitRow: seq<nat>)
    requires Ready(s) && t.env == s.env && |t.slots| == |s.slots| + 1 && Later(t, c.fin)
    requires exitRow == FreshRow(|s.slots|, 1)
    ensures FreshIn(exitRow, |s.slots|, |t.slots|, c.fin)
  {
    FreshAnon(s, t, c.fin);
  }

  /** From the op to the start of the block its indices select. */
  lemma SimGuard(c: Ctx, s: ES, t: ES, op: ArrayOp, size: nat, vals: seq<Operand>, next: nat, fr: Frame, stk: Stack,
                 vs: seq<Val>)
    returns (k: nat, fr': Frame)
    requires CtxOk(c) && Here(c, s, fr) && Later(t, c.fin) && s.cur < |s.code| && s.cur < |t.code|
    requires Shaped(op, size, vs) && |vals| == |vs| && s.regs <= next
    requires OpsAre(fr.loc, vals, EncAll(vs)) && Exec.Below(vals, s.regs)
    requires var g := GuardPiece(op, size, vals, next);
      t.code[s.cur] == s.code[s.cur] + g.line + [CondBr(g.vals[0], |s.code| + 1, |s.code| + 2)]
    ensures Reaches(c, fr, stk, k, fr') && Computes(fr.loc, fr'.loc, s.regs)
    ensures AtBlock(c, if InRange(op, size, vs) then |s.code| + 1 else |s.code| + 2, fr')
  {
    hide CtxOk, Compiled, GuardPiece, ExecSeq, EncAll, Later;
    var g := GuardPiece(op, size, vals, next);
    MoreBelow(vals, s.regs, next);
    ExecGuard(c.w.x, op, size, vals, next, fr.loc, vs);
    var l := ExecSeq(c.w.x, g.line, fr.loc).value;
    var br := CondBr(g.vals[0], |s.code| + 1, |s.code| + 2);
    LaterPrefix(t, c.fin, s.cur);
    var b := c.fin.code[s.cur];
    assert s.code[s.cur] + g.line + [br] == s.code[s.cur] + (g.line + [br]);
    SliceHead(b, s.code[s.cur], g.line, br);
    CodeIs(c);
    RunStraight(c.code, c.w.x, g.line, fr, stk);
    var fr1 := fr.(pc := fr.pc + |g.line|, loc := l);
    OneStep(c, fr1, stk, br);
    fr' := fr1.(blk := if InRange(op, size, vs) then |s.code| + 1 else |s.code| + 2, pc := 0);
    Chain(c, |g.line|, 1, Run(fr, stk), Run(fr1, stk), Run(fr', stk));
    k := |g.line| + 1;
  }

  lemma MoreBelow(os: seq<Operand>, n: nat, m: nat)
    requires Exec.Below(os, n) && n <= m
    ensures Exec.Below(os, m)
  {
  }

  /** The code of the block that is selected computes the outcome. */
  lemma SideExec(c: Ctx, op: ArrayOp, elem: Ty, size: nat, vals: seq<Operand>, n: nat, p: Piece, q: Piece, fr: Frame,
                 fr1: Frame, vs: seq<Val>)
    requires Shaped(op, size, vs) && |vals| == |vs| && OpsAre(fr.loc, vals, EncAll(vs)) && Exec.Below(vals, n)
    requires Computes(fr.loc, fr1.loc, n) && n + 1 <= p.next
    requires p == Success(op, elem, size, vals, n + 1) && q == Failure(op, elem, size, vals, p.next)
    ensures var side := if InRange(op, size, vs) then p else q; var r := ExecSeq(c.w.x, side.line, fr1.loc);
      && r.Some? && Computes(fr1.loc, r.value, n) && OpsAre(r.value, side.vals, EncAll(Outcome(op, elem, size, vs)))
  {
    hide ExecSeq, Success, Failure, EncAll, OpsAre;
    OpsKept(fr.loc, fr1.loc, n, vals, EncAll(vs));
    MoreBelow(vals, n, n + 1);
    MoreBelow(vals, n, p.next);
    if InRange(op, size, vs) {
      ExecAccess(c.w.x, op, elem, size, vals, n + 1, fr1.loc, vs);
    } else {
      ExecRefused(c.w.x, op, elem, size, vals, p.next, fr1.loc, vs);
    }
  }

  /** One of the two blocks, from its start to the start of the exit block. */
  lemma SimSide(c: Ctx, p: Piece, at: nat, exitRow: seq<nat>, exit: nat, lo: nat, hi: nat, n: nat, fr: Frame,
                stk: Stack, ls: seq<LVal>)
    returns (k: nat, fr': Frame)
    requires CtxOk(c) && AtBlock(c, at, fr) && at < |c.fin.code| && FreshIn(exitRow, lo, hi, c.fin)
    requires p.line + StoreLine(exitRow, p.vals) + [Br(exit)] <= c.fin.code[at] && |exitRow| == |p.vals|
    requires var r := ExecSeq(c.w.x, p.line, fr.loc);
      r.Some? && Computes(fr.loc, r.value, n) && OpsAre(r.value, p.vals, ls)
    ensures Reaches(c, fr, stk, k, fr') && AtBlock(c, exit, fr') && RowIs(fr'.loc.mem, exitRow, ls)
    ensures Keeps(c.fin.env, {}, lo, hi, n, [], fr.loc, fr'.loc)
  {
    hide CtxOk, StoreLine, ExecSeq;
    var l := ExecSeq(c.w.x, p.line, fr.loc).value;
    ExecStores(c.w.x, exitRow, p.vals, l, ls);
    var line := p.line + StoreLine(exitRow, p.vals);
    ExecConcat(c.w.x, p.line, StoreLine(exitRow, p.vals), fr.loc);
    assert line <= c.fin.code[at] by { assert line == (line + [Br(exit)])[..|line|]; }
    RunBlockLine(c, line, fr, stk);
    var fr1 := fr.(pc := |line|, loc := ExecSeq(c.w.x, line, fr.loc).value);
    assert c.fin.code[at][|line|] == (line + [Br(exit)])[|line|] == Br(exit);
    OneStep(c, fr1, stk, Br(exit));
    fr' := fr1.(blk := exit, pc := 0);
    Chain(c, |line|, 1, Run(fr, stk), Run(fr1, stk), Run(fr', stk));
    k := |line| + 1;
  }

  lemma AccessKeeps(c: Ctx, ids: set<NodeId>, id: NodeId, lo: nat, hi: nat, n: nat, l: Local, l1: Local, l2: Local,
                    l3: Local)
    requires Computes(l, l1, n) && Keeps(c.fin.env, {}, lo, hi, n, [], l1, l2)
    requires Keeps(c.fin.env, {id}, lo, hi, n, [], l2, l3) && id in ids
    ensures Keeps(c.fin.env, ids, lo, hi, n, [], l, l3)
  {
  }
}
