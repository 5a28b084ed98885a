/** Branching on a sum: the switch reaches the arm of the value's variant, which hands the fields and the other
    values to its target and jumps there. */
module SimBranch {
  import opened Values
  import opened Machine
  import opened Builder
  import opened EmitLaws
  import opened Exec
  import opened SimBase

  function ArmLine(rows: seq<Row>, v: Operand, rest: seq<Operand>, t: Target, tag: nat, next: nat): seq<Instr>
    requires tag < |rows|
  {
    UntagPiece(rows, tag, v, next).line + StoreLine(t.row, UntagPiece(rows, tag, v, next).vals + rest)
  }

  lemma ArmCode(st: ES, rows: seq<Row>, v: Operand, rest: seq<Operand>, t: Target, i: nat, last: nat)
    requires Inv(st) && i < |rows| && |t.row| == |rows[i].tys| + |rest| && 0 < t.blk < |st.code|
    ensures var s := Terminate(Arm(st, rows, v, rest, t, i, last), Br(t.blk));
      |s.code| == |st.code| + 1 && s.code[|st.code|] == ArmLine(rows, v, rest, t, i, st.regs) + [Br(t.blk)]
      && s.regs >= st.regs
  {
    ArmLaws(st, rows, v, rest, t, i, last);
  }

  lemma {:induction false} ArmsKeep(st: ES, rows: seq<Row>, v: Operand, rest: seq<Operand>, targets: seq<Target>,
                                    i: nat, last: nat, b: nat)
    requires Inv(st) && i <= |rows| && TargetsOk(rows, targets, |rest|, |st.code|) && 0 < b < |st.code|
    ensures var s := Arms(st, rows, v, rest, targets, i, last).0; b < |s.code| && s.code[b] == st.code[b]
  {
    ArmsLaws(st, rows, v, rest, targets, i, last);
  }

  /** Where arm `t` is, and its code. */
  lemma {:induction false} ArmAt(st: ES, rows: seq<Row>, v: Operand, rest: seq<Operand>, targets: seq<Target>,
                                 i: nat, last: nat, t: nat) returns (next: nat)
    requires Inv(st) && i <= t < |rows| && TargetsOk(rows, targets, |rest|, |st.code|)
    ensures next >= st.regs
    ensures var s := Arms(st, rows, v, rest, targets, i, last).0; var b := |st.code| + (t - i);
      b < |s.code| && s.code[b] == ArmLine(rows, v, rest, targets[t], t, next) + [Br(targets[t].blk)]
    decreases |rows| - i
  {
    hide Inv, Aside, Later, Mod, ArmLine, UntagPiece, WriteRow;
    ArmCode(st, rows, v, rest, targets[i], i, last);
    var s := Terminate(Arm(st, rows, v, rest, targets[i], i, last), Br(targets[i].blk));
    assert Inv(s) by { ArmCloses(st, rows, v, rest, targets[i], i, last); }
    if t == i {
      next := st.regs;
      ArmsKeep(s, rows, v, rest, targets, i + 1, |st.code|, |st.code|);
    } else {
      next := ArmAt(s, rows, v, rest, targets, i + 1, |st.code|, t);
    }
  }

  lemma {:induction false} SwitchHits(blk: nat, n: nat, tag: nat, lo: nat, default: nat)
    requires lo <= tag < lo + n
    ensures SwitchTarget(CaseList(lo, blk, n), default, tag) == blk + (tag - lo)
    decreases n
  {
    if tag != lo { SwitchHits(blk + 1, n - 1, tag, lo + 1, default); }
  }

  lemma {:induction false} SwitchMisses(blk: nat, n: nat, tag: nat, lo: nat, default: nat)
    requires tag < lo
    ensures SwitchTarget(CaseList(lo, blk, n), default, tag) == default
    decreases n
  {
    if n != 0 { SwitchMisses(blk + 1, n - 1, tag, lo + 1, default); }
  }

  /** With variant 0 as the default of the switch, tag `tag` selects block `blk + tag`. */
  lemma SwitchDispatch(blk: nat, n: nat, tag: nat)
    requires tag < n
    ensures var cs := CaseList(0, blk, n); SwitchTarget(cs[1..], cs[0].1, tag) == blk + tag
  {
    var cs := CaseList(0, blk, n);
    assert cs[1..] == CaseList(1, blk + 1, n - 1);
    if tag == 0 { SwitchMisses(blk + 1, n - 1, 0, 1, blk); } else { SwitchHits(blk + 1, n - 1, tag, 1, blk); }
  }

  /** What the builder's block ends with. */
  lemma {:induction false} DestructureCode(st: ES, rows: seq<Row>, v: Operand, rest: seq<Operand>, targets: seq<Target>)
    returns (next: nat, sw: Instr)
    requires Ready(st) && rows != [] && TargetsOk(rows, targets, |rest|, |st.code|)
    ensures next >= st.regs
    ensures var p := GetTagPiece(rows, v, next); var cs := CaseList(0, |st.code|, |rows|);
      && sw == Switch(p.vals[0], cs[0].1, cs[1..])
      && st.cur < |Destructure(st, rows, v, rest, targets).code|
      && Destructure(st, rows, v, rest, targets).code[st.cur] == st.code[st.cur] + p.line + [sw]
  {
    ArmsLaws(st, rows, v, rest, targets, 0, st.cur);
    ArmsCases(st, rows, v, rest, targets, 0, st.cur);
    var r := Arms(st, rows, v, rest, targets, 0, st.cur);
    var s := At(r.0, st.cur);
    assert s.code[st.cur] == st.code[st.cur];
    next := s.regs;
    var p := GetTagPiece(rows, v, next);
    sw := Switch(p.vals[0], r.1[0].1, r.1[1..]);
    SwitchOk(p.vals[0], |st.code|, |rows|, |s.code|);
    PutTerminate(s, p.line, p.next, sw);
  }

  lemma DestructureArm(st: ES, rows: seq<Row>, v: Operand, rest: seq<Operand>, targets: seq<Target>, t: nat)
    returns (next: nat)
    requires Ready(st) && t < |rows| && TargetsOk(rows, targets, |rest|, |st.code|)
    ensures next >= st.regs
    ensures var s := Destructure(st, rows, v, rest, targets); var b := |st.code| + t;
      b < |s.code| && s.code[b] == ArmLine(rows, v, rest, targets[t], t, next) + [Br(targets[t].blk)]
  {
    next := ArmAt(st, rows, v, rest, targets, 0, st.cur, t);
    ArmsLaws(st, rows, v, rest, targets, 0, st.cur);
  }

  /** What a transfer to a target leaves behind: the target's mailboxes hold the values, nothing else changed. */
  ghost predicate Passed(row: seq<nat>, ls: seq<LVal>, n: nat, l: Local, l': Local) {
    && RegsKept(l, l', n) && l'.mem.Keys == l.mem.Keys && RowIs(l'.mem, row, ls)
    && forall s :: s in l.mem && s !in row ==> l'.mem[s] == l.mem[s]
  }

  /** One arm, from the start of its block to the start of its target. */
  lemma SimArm(c: Ctx, rows: seq<Row>, v: Operand, rest: seq<Operand>, t: Target, tag: nat, next: nat, n: nat,
               fr: Frame, stk: Stack, xs: seq<LVal>, rs: seq<LVal>)
    returns (k: nat, fr': Frame)
    requires CtxOk(c) && tag < |rows| && |xs| == |rows[tag].tys| && |t.row| == |xs| + |rest| && n <= next
    requires fr.blk < |c.fin.code| && AtBlock(c, fr.blk, fr)
    requires ArmLine(rows, v, rest, t, tag, next) + [Br(t.blk)] <= c.fin.code[fr.blk]
    requires OpVal(fr.loc, v) == Some(SumStruct(rows, tag, xs)) && OpsAre(fr.loc, rest, rs) && Below(rest, n)
    requires forall i :: 0 <= i < |t.row| ==> t.row[i] < |c.fin.slots|
    requires forall i, j :: 0 <= i < j < |t.row| ==> t.row[i] != t.row[j]
    ensures k >= 1 && Steps(c.code, c.w.x, k, Run(fr, stk)) == Run(fr', stk) && AtBlock(c, t.blk, fr')
    ensures Passed(t.row, xs + rs, n, fr.loc, fr'.loc)
  {
    hide CtxOk, Compiled, UntagPiece, SumStruct, StoreLine, ExecSeq;
    var p := UntagPiece(rows, tag, v, next);
    ExecUntag(c.w.x, rows, tag, v, next, fr.loc, xs);
    var l := ExecSeq(c.w.x, p.line, fr.loc).value;
    var os := p.vals + rest;
    OpsKept(fr.loc, l, n, rest, rs);
    assert OpsAre(l, os, xs + rs);
    ExecStores(c.w.x, t.row, os, l, xs + rs);
    var line := ArmLine(rows, v, rest, t, tag, next);
    ExecConcat(c.w.x, p.line, StoreLine(t.row, os), fr.loc);
    RunBlockLine(c, line, fr, stk);
    var fr1 := fr.(pc := |line|, loc := ExecSeq(c.w.x, line, fr.loc).value);
    assert c.fin.code[fr.blk][|line|] == (line + [Br(t.blk)])[|line|] == Br(t.blk);
    OneStep(c, fr1, stk, Br(t.blk));
    fr' := fr1.(blk := t.blk, pc := 0);
    Chain(c, |line|, 1, Run(fr, stk), Run(fr1, stk), Run(fr', stk));
    k := |line| + 1;
  }

  /** A branch on a sum value delivers its fields and the other values to the target of its variant. */
  lemma SimDestructure(c: Ctx, st: ES, rows: seq<Row>, v: Operand, rest: seq<Operand>, targets: seq<Target>,
                       tag: nat, fr: Frame, stk: Stack, xs: seq<LVal>, rs: seq<LVal>)
    returns (k: nat, fr': Frame)
    requires CtxOk(c) && Ready(st) && tag < |rows| && TargetsOk(rows, targets, |rest|, |st.code|)
    requires Later(Destructure(st, rows, v, rest, targets), c.fin) && Here(c, st, fr)
    requires |xs| == |rows[tag].tys| && OpVal(fr.loc, v) == Some(SumStruct(rows, tag, xs)) && Below([v], st.regs)
    requires OpsAre(fr.loc, rest, rs) && Below(rest, st.regs)
    requires forall i :: 0 <= i < |targets[tag].row| ==> targets[tag].row[i] < |c.fin.slots|
    requires forall i, j :: 0 <= i < j < |targets[tag].row| ==> targets[tag].row[i] != targets[tag].row[j]
    ensures k >= 1 && Steps(c.code, c.w.x, k, Run(fr, stk)) == Run(fr', stk) && AtBlock(c, targets[tag].blk, fr')
    ensures Passed(targets[tag].row, xs + rs, st.regs, fr.loc, fr'.loc)
  {
    hide CtxOk, Compiled, Inv, Open, LayoutOk, JumpsOk, EnvOk, Arms, ArmLine, Destructure, Later, CaseList,
      SumStruct, ExecSeq;
    var next, sw := DestructureCode(st, rows, v, rest, targets);
    var anext := DestructureArm(st, rows, v, rest, targets, tag);
    var d := Destructure(st, rows, v, rest, targets);
    LaterPrefix(d, c.fin, st.cur);
    LaterPrefix(d, c.fin, |st.code| + tag);
    var fr1 := SimSwitch(c, st, rows, v, tag, next, sw, fr, stk, xs);
    assert OpVal(fr1.loc, v) == Some(SumStruct(rows, tag, xs)) by {
      OpsKept(fr.loc, fr1.loc, st.regs, [v], [SumStruct(rows, tag, xs)]);
      assert OpVal(fr1.loc, [v][0]) == Some([SumStruct(rows, tag, xs)][0]);
    }
    OpsKept(fr.loc, fr1.loc, st.regs, rest, rs);
    var k2, fr2 := SimArm(c, rows, v, rest, targets[tag], tag, anext, st.regs, fr1, stk, xs, rs);
    var k1 := |GetTagPiece(rows, v, next).line| + 1;
    Chain(c, k1, k2, Run(fr, stk), Run(fr1, stk), Run(fr2, stk));
    k, fr' := k1 + k2, fr2;
  }

  lemma SimSwitch(c: Ctx, st: ES, rows: seq<Row>, v: Operand, tag: nat, next: nat, sw: Instr, fr: Frame, stk: Stack,
                  xs: seq<LVal>)
    returns (fr': Frame)
    requires CtxOk(c) && st.cur < |st.code| && Here(c, st, fr) && tag < |rows| && st.regs <= next
    requires OpVal(fr.loc, v) == Some(SumStruct(rows, tag, xs)) && st.cur < |c.fin.code|
    requires var p := GetTagPiece(rows, v, next); var cs := CaseList(0, |st.code|, |rows|);
      && sw == Switch(p.vals[0], cs[0].1, cs[1..])
      && st.code[st.cur] + p.line + [sw] <= c.fin.code[st.cur]
    ensures Steps(c.code, c.w.x, |GetTagPiece(rows, v, next).line| + 1, Run(fr, stk)) == Run(fr', stk)
    ensures AtBlock(c, |st.code| + tag, fr') && Computes(fr.loc, fr'.loc, st.regs)
  {
    hide CtxOk, Compiled, SumStruct, ExecSeq, CaseList, GetTagPiece;
    var p := GetTagPiece(rows, v, next);
    ExecGetTag(c.w.x, rows, tag, v, next, fr.loc, xs);
    var l := ExecSeq(c.w.x, p.line, fr.loc).value;
    var b := c.fin.code[st.cur];
    var whole := st.code[st.cur] + p.line + [sw];
    assert b[fr.pc..fr.pc + |p.line|] == whole[fr.pc..fr.pc + |p.line|] == p.line;
    CodeIs(c);
    RunStraight(c.code, c.w.x, p.line, fr, stk);
    var fr1 := fr.(pc := fr.pc + |p.line|, loc := l);
    assert b[fr1.pc] == whole[fr1.pc] == sw;
    OneStep(c, fr1, stk, sw);
    SwitchDispatch(|st.code|, |rows|, tag);
    fr' := fr1.(blk := |st.code| + tag, pc := 0);
    Chain(c, |p.line|, 1, Run(fr, stk), Run(fr1, stk), Run(fr', stk));
  }
}
