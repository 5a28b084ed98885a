/** Ops that contain no region run in step: straight-line ops and calls. */
module SimOps {
  import opened Values
  import opened Machine
  import opened Hugr
  import opened Types
  import opened Builder
  import opened Emit
  import opened EmitLaws
  import opened Exec
  import opened SimBase
  import opened EmitParts
  import opened SimStep

  // ----- ops -----

  ghost predicate FuncStep(w: World, code: map<NodeId, Code>, fuel: nat, r: Res<seq<Val>>, f: NodeId, args: seq<Val>,
                           stk: Stack, k: nat) {
    match r
    case Ok(os) => Steps(code, w.x, k, Invoke(code, w.x, f, EncAll(args), stk)) == Return(stk, Aggregate(EncAll(os)))
    case NoFuel => k >= fuel && Steps(code, w.x, k, Invoke(code, w.x, f, EncAll(args), stk)).Run?
    case Wrong => true
  }

  lemma BeforeFacts(c: Ctx, s: ES, ids: set<NodeId>, rest: set<NodeId>, inputs: seq<Operand>, promise: seq<nat>,
                    ws: seq<Wire>, fr: Frame, env: Env, ivals: seq<Val>, out: Option<seq<Val>>)
    requires InStepBefore(c, s, ids + rest, inputs, promise, ws, fr, env, ivals, out)
    ensures CtxOk(c) && Ready(s) && Here(c, s, fr) && Rel(env, c.fin.env, fr.loc.mem) && Unbound(env, ids)
  {
    UnboundLess(env, ids, rest);
  }

  lemma RefsHere(c: Ctx, s: ES, f: NodeId, fr: Frame)
    requires Ready(s) && Here(c, s, fr)
    ensures Ready(s.(refs := s.refs + {f})) && Here(c, s.(refs := s.refs + {f}), fr)
  {
  }

  lemma OpsLen(l: Local, os: seq<Operand>, vs: seq<Val>)
    requires OpsAre(l, os, EncAll(vs))
    ensures |os| == |vs|
  {
  }

  lemma OutOfFuel(c: Ctx, s: ES, t: ES, n: Node, outs: seq<nat>, fr: Frame, stk: Stack)
    ensures OpStep(c, 0, NoFuel, s, t, n, outs, fr, stk, 0, fr)
  {
  }

  lemma AnyOp(c: Ctx, fuel: nat, s: ES, t: ES, n: Node, outs: seq<nat>, fr: Frame, stk: Stack, k: nat, fr': Frame)
    ensures OpStep(c, fuel, Wrong, s, t, n, outs, fr, stk, k, fr')
  {
  }

  /** `Const`, `FuncDecl` and scoped `FuncDefn` children emit nothing. */
  lemma NothingToDo(c: Ctx, fuel: nat, s: ES, t: ES, n: Node, outs: seq<nat>, fr: Frame, stk: Stack)
    requires Here(c, s, fr) && t.cur == s.cur && t.code == s.code && t.slots == s.slots && |outs| == |n.outs| == 0
    ensures OpStep(c, fuel, Ok([]), s, t, n, outs, fr, stk, 0, fr)
  {
  }

  lemma {:induction false} CalleeAndArgs(l: Local, vals: seq<Operand>, vs: seq<Val>, n: nat)
    requires OpsAre(l, vals, EncAll(vs)) && Exec.Below(vals, n) && |vs| > 0
    ensures |vals| == |vs| && OpVal(l, vals[0]) == Some(Enc(vs[0]))
    ensures OpsAre(l, vals[1..], EncAll(vs[1..])) && Exec.Below(vals[1..], n)
  {
    forall i | 0 <= i < |vals| - 1 ensures OpVal(l, vals[1..][i]) == Some(EncAll(vs[1..])[i]) {
      assert OpVal(l, vals[i + 1]) == Some(EncAll(vs)[i + 1]);
    }
  }

  /** Straight-line ops. */
  lemma SimStraight(c: Ctx, fuel: nat, s0: ES, s: ES, p: Piece, n: Node, outs: seq<nat>, fr: Frame, stk: Stack,
                    os: seq<Val>)
    returns (k: nat, fr': Frame)
    requires CtxOk(c) && Ready(s) && PieceOk(p, s.regs, |outs|) && Later(Finish(s, Some(p), outs), c.fin)
    requires Here(c, s, fr) && OutRow(c, n.id, outs) && s0.slots == s.slots && s0.regs == s.regs
    requires var r := ExecSeq(c.w.x, p.line, fr.loc);
      r.Some? && Computes(fr.loc, r.value, s.regs) && OpsAre(r.value, p.vals, EncAll(os))
    ensures OpStep(c, fuel, Ok(os), s0, Finish(s, Some(p), outs), n, outs, fr, stk, k, fr')
  {
    hide CtxOk, Ready, PieceOk, Later, Here, OutRow, ExecSeq, Finish, Keeps, RowIs, OpsAre, EncAll, Ids, Steps;
    var t := Finish(s, Some(p), outs);
    k, fr' := SimFinish(c, s, p, n.id, outs, fr, stk, EncAll(os), |t.slots|);
    NodeInIds(n);
    KeepsIds(c.fin.env, {n.id}, Ids(n), |s.slots|, |t.slots|, s.regs, fr.loc, fr'.loc);
  }

  lemma SimTag(c: Ctx, fuel: nat, s: ES, n: Node, vals: seq<Operand>, outs: seq<nat>, fr: Frame, stk: Stack,
               vs: seq<Val>)
    returns (k: nat, fr': Frame)
    requires CtxOk(c) && Ready(s) && Here(c, s, fr) && OutRow(c, n.id, outs) && n.op.Tag?
    requires n.op.tag < |n.op.rows| && |vals| == |n.op.rows[n.op.tag].tys| && |outs| == 1
    requires Later(Finish(Ask(s, {NeedType(Sum(n.op.rows))}), TagPiece(n.op.rows, n.op.tag, vals, s.regs), outs), c.fin)
    requires OpsAre(fr.loc, vals, EncAll(vs)) && Exec.Below(vals, s.regs)
    ensures OpStep(c, fuel, Ok([SumV(n.op.tag, vs, n.op.rows)]), s,
                   Finish(Ask(s, {NeedType(Sum(n.op.rows))}), TagPiece(n.op.rows, n.op.tag, vals, s.regs), outs), n,
                   outs, fr, stk, k, fr')
  {
    hide CtxOk, Ready, Later, Here, OutRow, Finish, Computes, Ids, OpStep;
    AskedHere(c, s, {NeedType(Sum(n.op.rows))}, fr);
    ExecTag(c.w.x, n.op.rows, n.op.tag, vals, s.regs, fr.loc, EncAll(vs));
    TagPieceOk(n.op.rows, n.op.tag, vals, s.regs);
    var p := TagPiece(n.op.rows, n.op.tag, vals, s.regs).value;
    var v := SumV(n.op.tag, vs, n.op.rows);
    assert EncAll([v]) == [Enc(v)];
    k, fr' := SimStraight(c, fuel, s, Ask(s, {NeedType(Sum(n.op.rows))}), p, n, outs, fr, stk, [v]);
  }

  lemma AskedHere(c: Ctx, s: ES, needs: set<Need>, fr: Frame)
    requires Ready(s) && Here(c, s, fr)
    ensures Ready(Ask(s, needs)) && Here(c, Ask(s, needs), fr)
  {
    AskReady(s, needs);
  }

  /** Asking for something afterwards changes nothing that runs. */
  lemma AskedStep(c: Ctx, fuel: nat, r: Res<seq<Val>>, s: ES, t: ES, needs: set<Need>, n: Node, outs: seq<nat>,
                  fr: Frame, stk: Stack, k: nat, fr': Frame)
    requires OpStep(c, fuel, r, s, t, n, outs, fr, stk, k, fr')
    ensures OpStep(c, fuel, r, s, Ask(t, needs), n, outs, fr, stk, k, fr')
  {
    hide Reaches, RunsOn, RowIs, Keeps, EncAll, Ids;
  }

  lemma LaterAsked(t: ES, needs: set<Need>, fin: ES)
    requires Later(Ask(t, needs), fin)
    ensures Later(t, fin)
  {
  }

  lemma SimExt(c: Ctx, fuel: nat, s: ES, n: Node, vals: seq<Operand>, outs: seq<nat>, fr: Frame, stk: Stack,
               vs: seq<Val>)
    returns (k: nat, fr': Frame)
    requires CtxOk(c) && Ready(s) && Here(c, s, fr) && OutRow(c, n.id, outs) && n.op.Ext? && |outs| == |n.outs|
    requires var p := Piece([ExtOp(s.regs, |outs|, n.op.op, vals)], s.regs + |outs|, Regs(s.regs, |outs|));
      Later(Finish(Ask(s, {NeedOp(n.op.op)}), Some(p), outs), c.fin)
    requires OpsAre(fr.loc, vals, EncAll(vs)) && Exec.Below(vals, s.regs)
    ensures var p := Piece([ExtOp(s.regs, |outs|, n.op.op, vals)], s.regs + |outs|, Regs(s.regs, |outs|));
      var r := c.w.x.src(n.op.op, vs);
      OpStep(c, fuel, if r.Some? then Ok(r.value) else Wrong, s, Finish(Ask(s, {NeedOp(n.op.op)}), Some(p), outs), n,
             outs, fr, stk, k, fr')
  {
    hide CtxOk, Ready, Later, Here, OutRow, Finish, Ids, OpStep, ExecSeq, OpsAre, EncAll, Computes;
    Handlers(c);
    var p := Piece([ExtOp(s.regs, |outs|, n.op.op, vals)], s.regs + |outs|, Regs(s.regs, |outs|));
    var r, s1 := c.w.x.src(n.op.op, vs), Ask(s, {NeedOp(n.op.op)});
    AskedHere(c, s, {NeedOp(n.op.op)}, fr);
    if r.None? {
      k, fr' := 0, fr;
      AnyOp(c, fuel, s, Finish(s1, Some(p), outs), n, outs, fr, stk, k, fr');
    } else if |r.value| != |outs| {
      k, fr' := 0, fr;
      WrongCount(c, fuel, r.value, s, Finish(s1, Some(p), outs), n, outs, fr, stk, k, fr');
    } else {
      ExecExt(c.w.x, s.regs, n.op.op, vals, fr.loc, vs, r.value);
      k, fr' := SimStraight(c, fuel, s, s1, p, n, outs, fr, stk, r.value);
    }
  }

  lemma Handlers(c: Ctx)
    requires CtxOk(c)
    ensures Compiled(c.w, c.code) && HandlersMatch(c.w.x)
  {
  }

  lemma WrongCount(c: Ctx, fuel: nat, os: seq<Val>, s: ES, t: ES, n: Node, outs: seq<nat>, fr: Frame, stk: Stack,
                   k: nat, fr': Frame)
    requires |os| != |n.outs|
    ensures OpStep(c, fuel, Ok(os), s, t, n, outs, fr, stk, k, fr')
  {
  }

  lemma ExecExt(x: Sem, dst: nat, op: nat, vals: seq<Operand>, l: Local, vs: seq<Val>, os: seq<Val>)
    requires HandlersMatch(x) && OpsAre(l, vals, EncAll(vs)) && x.src(op, vs) == Some(os)
    ensures var r := ExecSeq(x, [ExtOp(dst, |os|, op, vals)], l);
      r.Some? && Computes(l, r.value, dst) && OpsAre(r.value, Regs(dst, |os|), EncAll(os))
  {
    hide SetRegs;
    OpsValue(l, vals, EncAll(vs));
    assert x.tgt(op, EncAll(vs)) == Some(EncAll(os)) by { assert x.src(op, vs).Some?; }
    SetRegsHold(l, dst, EncAll(os));
    ExecOne(x, ExtOp(dst, |os|, op, vals), l, l.(regs := SetRegs(l.regs, dst, EncAll(os)))) by {
      hide HandlersMatch, OpsAre;
    }
  }

  lemma ExecOne(x: Sem, i: Instr, l: Local, l': Local)
    requires ExecInstr(x, i, l) == Some(l')
    ensures ExecSeq(x, [i], l) == Some(l')
  {
    assert [i][1..] == [];
  }

  lemma OpsValue(l: Local, os: seq<Operand>, ls: seq<LVal>)
    requires OpsAre(l, os, ls)
    ensures OpVals(l, os) == Some(ls)
  {
    forall i | 0 <= i < |os| ensures OpVal(l, os[i]).Some? {
      assert OpVal(l, os[i]) == Some(ls[i]);
    }
    var vs := OpVals(l, os).value;
    forall i | 0 <= i < |os| ensures vs[i] == ls[i] {
      assert OpVal(l, os[i]) == Some(vs[i]);
    }
    assert vs == ls;
  }

  lemma SetRegsHold(l: Local, dst: nat, ls: seq<LVal>)
    ensures var l' := l.(regs := SetRegs(l.regs, dst, ls)); Computes(l, l', dst) && OpsAre(l', Regs(dst, |ls|), ls)
  {
  }

  lemma SimLoadConst(c: Ctx, fuel: nat, s: ES, n: Node, outs: seq<nat>, fr: Frame, stk: Stack)
    returns (k: nat, fr': Frame)
    requires CtxOk(c) && Ready(s) && Here(c, s, fr) && OutRow(c, n.id, outs) && n.op.LoadConst? && |outs| == 1
    requires ValidConst(n.op.v) && Later(Finish(Ask(s, ConstNeeds(n.op.v)), ConstPiece(n.op.v, s.regs), outs), c.fin)
    ensures OpStep(c, fuel, Ok([n.op.v]), s, Finish(Ask(s, ConstNeeds(n.op.v)), ConstPiece(n.op.v, s.regs), outs), n,
                   outs, fr, stk, k, fr')
  {
    hide CtxOk, Ready, Later, Here, OutRow, Finish, Computes, Ids, OpStep;
    AskedHere(c, s, ConstNeeds(n.op.v), fr);
    ExecConst(c.w.x, n.op.v, s.regs, fr.loc);
    ConstPieceOk(n.op.v, s.regs);
    var p := ConstPiece(n.op.v, s.regs).value;
    assert EncAll([n.op.v]) == [Enc(n.op.v)];
    k, fr' := SimStraight(c, fuel, s, Ask(s, ConstNeeds(n.op.v)), p, n, outs, fr, stk, [n.op.v]);
  }

  lemma SimLoadFunc(c: Ctx, fuel: nat, s: ES, n: Node, outs: seq<nat>, fr: Frame, stk: Stack)
    returns (k: nat, fr': Frame)
    requires CtxOk(c) && Ready(s) && Here(c, s, fr) && OutRow(c, n.id, outs) && n.op.LoadFunc? && |outs| == 1
    requires var s1 := s.(refs := s.refs + {n.op.f});
      Later(Finish(s1, Some(Piece([], s.regs, [Const(LFn(n.op.f))])), outs), c.fin)
    ensures var s1 := s.(refs := s.refs + {n.op.f});
      OpStep(c, fuel, Ok([FunV(n.op.f)]), s, Finish(s1, Some(Piece([], s.regs, [Const(LFn(n.op.f))])), outs), n, outs,
             fr, stk, k, fr')
  {
    hide CtxOk, Later, OutRow, Finish, Ids, OpStep;
    var s1 := s.(refs := s.refs + {n.op.f});
    var v := FunV(n.op.f);
    RefsEmits(s, n.op.f);
    assert EncAll([v]) == [Enc(v)];
    k, fr' := SimStraight(c, fuel, s, s1, Piece([], s.regs, [Const(LFn(n.op.f))]), n, outs, fr, stk, [v]);
  }

  // ----- calls -----

  /** Unpacking the value handed back by `ret` gives the returned row, whatever its length. */
  lemma ExecUnpack(x: Sem, n: nat, next: nat, l: Local, ls: seq<LVal>)
    requires next > 0 && |ls| == n && OpVal(l, Reg(next - 1)) == Some(Aggregate(ls))
    ensures var p := UnpackPiece(n, next); var r := ExecSeq(x, p.line, l);
      r.Some? && Computes(l, r.value, next) && OpsAre(r.value, p.vals, ls)
  {
    if n >= 2 {
      ExecExtracts(x, Reg(next - 1), n, 0, next, l, ls);
      assert ls[0..n] == ls;
    }
  }

  /** The frame of the caller once the callee has returned `v` into register `dst`. */
  function Returned(fr: Frame, dst: nat, v: LVal): Frame {
    fr.(pc := fr.pc + 1, loc := fr.loc.(regs := fr.loc.regs[dst := v]))
  }

  lemma CallStep(c: Ctx, s: ES, callee: Operand, vals: seq<Operand>, line: seq<Instr>, next: nat, fr: Frame, stk: Stack,
                 f: NodeId, args: seq<Val>)
    requires CtxOk(c) && Ready(s) && Here(c, s, fr)
    requires Later(Put(s, [Machine.Call(s.regs, callee, vals)] + line, next), c.fin)
    requires OpVal(fr.loc, callee) == Some(LFn(f)) && OpsAre(fr.loc, vals, EncAll(args))
    ensures Steps(c.code, c.w.x, 1, Run(fr, stk))
         == Invoke(c.code, c.w.x, f, EncAll(args), Push(fr.(pc := fr.pc + 1), s.regs, stk))
  {
    hide ExecInstr, CtxOk, Inv, Open, Put, Later, OpsAre, Steps, EncAll;
    var i := Machine.Call(s.regs, callee, vals);
    PutPrefix(s, [i] + line, next, c.fin);
    SliceTail(c.fin.code[s.cur], s.code[s.cur], i, line);
    OneStep(c, fr, stk, i);
    OpsValue(fr.loc, vals, EncAll(args));
  }

  /** The rest of a line whose first instruction has been executed. */
  lemma RunTail(c: Ctx, s: ES, head: Instr, line: seq<Instr>, next: nat, fr: Frame, stk: Stack)
    requires CtxOk(c) && s.cur < |s.code| && Later(Put(s, [head] + line, next), c.fin)
    requires fr.fn == c.f && fr.blk == s.cur && fr.pc == |s.code[s.cur]| + 1
    requires forall q :: 0 <= q < |c.fin.slots| ==> q in fr.loc.mem
    requires ExecSeq(c.w.x, line, fr.loc).Some? && ExecSeq(c.w.x, line, fr.loc).value.mem.Keys == fr.loc.mem.Keys
    ensures var fr' := fr.(pc := fr.pc + |line|, loc := ExecSeq(c.w.x, line, fr.loc).value);
      Reaches(c, fr, stk, |line|, fr') && Here(c, Put(s, [head] + line, next), fr')
  {
    hide ExecSeq, Later, CtxOk, Put, Here;
    PutPrefix(s, [head] + line, next, c.fin);
    SliceTail(c.fin.code[s.cur], s.code[s.cur], head, line);
    CodeIs(c);
    RunStraight(c.code, c.w.x, line, fr, stk);
    var fr' := fr.(pc := fr.pc + |line|, loc := ExecSeq(c.w.x, line, fr.loc).value);
    HereAfter(c, s, [head] + line, next, fr');
  }

  lemma HereAfter(c: Ctx, s: ES, line: seq<Instr>, next: nat, fr: Frame)
    requires s.cur < |s.code| && fr.fn == c.f && fr.blk == s.cur && fr.pc == |s.code[s.cur]| + |line|
    requires forall q :: 0 <= q < |c.fin.slots| ==> q in fr.loc.mem
    ensures Here(c, Put(s, line, next), fr)
  {
  }

  /** After the callee: its result is unpacked and stored in the output mailboxes. */
  lemma SimReturn(c: Ctx, s: ES, callee: Operand, n: Node, vals: seq<Operand>, outs: seq<nat>, fr: Frame, stk: Stack,
                  os: seq<Val>)
    returns (k: nat, fr': Frame)
    requires CtxOk(c) && Ready(s) && Here(c, s, fr) && OutRow(c, n.id, outs) && |os| == |outs|
    requires Later(Finish(s, Some(CallPiece(callee, vals, |outs|, s.regs)), outs), c.fin)
    ensures var t := Finish(s, Some(CallPiece(callee, vals, |outs|, s.regs)), outs);
      && Reaches(c, Returned(fr, s.regs, Aggregate(EncAll(os))), stk, k, fr')
      && OpAfter(c, s, t, n, outs, fr, fr', os)
  {
    hide CtxOk, Later, OutRow, Keeps, RowIs, EncAll, Ids, Reaches, Finish, Aggregate, ExtractLine, StoreLine, Open;
    var v := Aggregate(EncAll(os));
    var fr1 := Returned(fr, s.regs, v);
    var p := UnpackPiece(|outs|, s.regs + 1);
    ExecUnpack(c.w.x, |outs|, s.regs + 1, fr1.loc, EncAll(os));
    var l := ExecSeq(c.w.x, p.line, fr1.loc).value;
    var t := Finish(s, Some(CallPiece(callee, vals, |outs|, s.regs)), outs);
    StoreOuts(c, n.id, outs, p.vals, l, EncAll(os), |s.slots|, |t.slots|, s.regs);
    ExecConcat(c.w.x, p.line, StoreLine(outs, p.vals), fr1.loc);
    var line := p.line + StoreLine(outs, p.vals);
    var head := Machine.Call(s.regs, callee, vals);
    FinishCall(s, callee, vals, outs);
    RunTail(c, s, head, line, p.next, fr1, stk);
    k := |line|;
    fr' := fr1.(pc := fr1.pc + |line|, loc := ExecSeq(c.w.x, line, fr1.loc).value);
    NodeInIds(n);
    KeepsFrom(c.fin.env, {n.id}, Ids(n), |s.slots|, |t.slots|, s.regs, fr.loc, l, fr'.loc);
  }

  lemma KeepsFrom(e: map<Wire, nat>, ids: set<NodeId>, ids': set<NodeId>, lo: nat, hi: nat, n: nat, a: Local, l: Local,
                  b: Local)
    requires RegsKept(a, l, n) && l.mem == a.mem && Keeps(e, ids, lo, hi, n, [], l, b) && ids <= ids'
    ensures Keeps(e, ids', lo, hi, n, [], a, b)
  {
  }

  /** A call: the callee runs on top of the stack for `j` steps, then its result is unpacked and stored. */
  lemma SimCall(c: Ctx, fuel: nat, s: ES, s0: ES, callee: Operand, n: Node, vals: seq<Operand>, outs: seq<nat>,
                fr: Frame, stk: Stack, f: NodeId, args: seq<Val>, j: nat)
    returns (k: nat, fr': Frame)
    requires CtxOk(c) && Ready(s) && Here(c, s, fr) && OutRow(c, n.id, outs) && |outs| == |n.outs| && fuel > 0
    requires s0.slots == s.slots && s0.regs == s.regs
    requires Later(Finish(s, Some(CallPiece(callee, vals, |outs|, s.regs)), outs), c.fin)
    requires OpVal(fr.loc, callee) == Some(LFn(f)) && OpsAre(fr.loc, vals, EncAll(args))
    requires FuncStep(c.w, c.code, fuel - 1, EvalCall(c.w, fuel - 1, f, args), f, args,
                      Push(fr.(pc := fr.pc + 1), s.regs, stk), j)
    ensures OpStep(c, fuel, EvalCall(c.w, fuel - 1, f, args), s0,
                   Finish(s, Some(CallPiece(callee, vals, |outs|, s.regs)), outs), n, outs, fr, stk, k, fr')
  {
    hide CtxOk, Later, OutRow, Keeps, RowIs, EncAll, Ids, Finish, Aggregate, OpsAre, CallPiece, Steps, Regs, EvalRegion;
    var r := EvalCall(c.w, fuel - 1, f, args);
    if r.Wrong? || (r.Ok? && |r.value| != |n.outs|) {
      k, fr' := 0, fr;
    } else {
      var q := UnpackPiece(|outs|, s.regs + 1);
      FinishCall(s, callee, vals, outs);
      CallStep(c, s, callee, vals, q.line + StoreLine(outs, q.vals), q.next, fr, stk, f, args);
      StepsAdd(c.code, c.w.x, 1, j, Run(fr, stk));
      if r.Ok? {
        var k2, fr2 := SimReturn(c, s, callee, n, vals, outs, fr, stk, r.value);
        var fr1 := Returned(fr, s.regs, Aggregate(EncAll(r.value)));
        PreludeReach(c, fr, stk, 1 + j, fr1);
        ReachTrans(c, fr, stk, 1 + j, fr1, k2, fr2);
        k, fr' := 1 + j + k2, fr2;
      } else {
        k, fr' := 1 + j, fr;
      }
    }
  }

  lemma PreludeReach(c: Ctx, fr: Frame, stk: Stack, k: nat, fr': Frame)
    requires Steps(c.code, c.w.x, k, Run(fr, stk)) == Run(fr', stk)
    ensures Reaches(c, fr, stk, k, fr')
  {
  }
}
