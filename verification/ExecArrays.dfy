/** What the straight-line code of array ops does when it runs: spilling an array to the stack, accessing it through
    pointers, and loading it back computes what the ops mean on sequences. */
module ExecArrays {
  import opened Values
  import opened Machine
  import opened Arrays
  import opened Builder
  import opened EmitLaws
  import opened Exec

  // ----- the ops that may fail -----

  /** The inputs are an array of the op's size and indices. */
  predicate Shaped(op: ArrayOp, size: nat, vs: seq<Val>) {
    IsAccess(op, |vs|) && IsArr(vs[0], size) && IsIndex(vs[1]) && (op.SwapOp? ==> IsIndex(vs[2]))
  }

  predicate InRange(op: ArrayOp, size: nat, vs: seq<Val>)
    requires Shaped(op, size, vs)
  {
    vs[1].n < size && (op.SwapOp? ==> vs[2].n < size)
  }

  /** The fields of the variant for success. */
  function Taken(op: ArrayOp, size: nat, vs: seq<Val>): seq<Val>
    requires Shaped(op, size, vs) && InRange(op, size, vs)
  {
    var a, i := vs[0].elems, vs[1].n;
    match op
    case GetOp => [a[i]]
    case SetOp => [a[i], ArrV(a[i := vs[2]])]
    case SwapOp => [ArrV(a[i := a[vs[2].n]][vs[2].n := a[i]])]
  }

  /** The fields of the variant for failure. */
  function Refused(op: ArrayOp, size: nat, vs: seq<Val>): seq<Val>
    requires Shaped(op, size, vs)
  {
    match op
    case GetOp => []
    case SetOp => [vs[2], vs[0]]
    case SwapOp => [vs[0]]
  }

  lemma SemOfAccess(op: ArrayOp, elem: Ty, size: nat, vs: seq<Val>)
    requires op.GetOp? || op.SetOp? || op.SwapOp?
    ensures var rows := ArrayRows(op, elem, size);
      ArraySem(op, elem, size, vs)
      == if !Shaped(op, size, vs) then None
         else if InRange(op, size, vs) then Some([SumV(1, Taken(op, size, vs), rows)])
         else Some([SumV(0, Refused(op, size, vs), rows)])
  {
  }

  // ----- cells -----

  lemma FilledContents(vs: seq<LVal>)
    ensures Contents(Filled(vs)) == Some(vs)
  {
    assert Contents(Filled(vs)).value == vs;
  }

  lemma LoadFilled(l: Local, k: nat, off: nat, n: nat, es: seq<LVal>)
    requires k < |l.arrs| && l.arrs[k] == Filled(es) && off + n <= |es|
    ensures LoadCells(l, LPtr(k, off), n) == Some(es[off..off + n])
  {
    assert Filled(es)[off..off + n] == Filled(es[off..off + n]);
    FilledContents(es[off..off + n]);
  }

  lemma LoadOne(l: Local, k: nat, off: nat, es: seq<LVal>)
    requires k < |l.arrs| && l.arrs[k] == Filled(es) && off < |es|
    ensures LoadCells(l, LPtr(k, off), 1) == Some([es[off]])
  {
    LoadFilled(l, k, off, 1, es);
    assert es[off..off + 1] == [es[off]];
  }

  lemma StoreOne(l: Local, k: nat, off: nat, es: seq<LVal>, v: LVal)
    requires k < |l.arrs| && l.arrs[k] == Filled(es) && off < |es|
    ensures StoreCells(l, LPtr(k, off), [Some(v)]) == Some(l.(arrs := l.arrs[k := Filled(es[off := v])]))
  {
    var a := l.arrs[k];
    assert a[..off] + [Some(v)] + a[off + 1..] == Filled(es[off := v]);
  }

  // ----- one instruction at a time -----

  lemma ExecCons(x: Sem, i: Instr, line: seq<Instr>, l: Local, l1: Local)
    requires ExecInstr(x, i, l) == Some(l1)
    ensures ExecSeq(x, [i] + line, l) == ExecSeq(x, line, l1)
  {
    assert ([i] + line)[1..] == line;
  }

  /** After an array has been spilled: register `r` points to its first element. */
  ghost predicate Spilled(l: Local, l': Local, n: nat, r: nat, es: seq<LVal>) {
    true == (
    && Computes(l, l', n) && n <= r && r in l'.regs && l'.regs[r].LPtr? && l'.regs[r].off == 0
    && l'.regs[r].arr < |l'.arrs| && l'.arrs[l'.regs[r].arr] == Filled(es))
  }

  lemma ExecSpill(x: Sem, v: Operand, size: nat, next: nat, l: Local, es: seq<LVal>)
    requires OpVal(l, v) == Some(LArr(es)) && |es| == size && (v.Reg? ==> v.r < next)
    ensures var r := ExecSeq(x, SpillLine(v, size, next), l);
      r.Some? && Spilled(l, r.value, next, next, es)
  {
    var k := |l.arrs|;
    var l1 := l.(arrs := l.arrs + [seq(size, _ => None)], regs := l.regs[next := LPtr(k, 0)]);
    assert ExecInstr(x, AllocaArray(next, size), l) == Some(l1);
    var l2 := l1.(arrs := l1.arrs[k := Filled(es)]);
    var a := l1.arrs[k];
    assert a[..0] + Filled(es) + a[size..] == Filled(es);
    assert ExecInstr(x, StoreArray(Reg(next), v), l1) == Some(l2);
    ExecCons(x, AllocaArray(next, size), [StoreArray(Reg(next), v)], l, l1);
    ExecCons(x, StoreArray(Reg(next), v), [], l1, l2);
    assert [StoreArray(Reg(next), v)] + [] == [StoreArray(Reg(next), v)];
    assert SpillLine(v, size, next) == [AllocaArray(next, size)] + [StoreArray(Reg(next), v)];
  }

  /** Points to an element and loads it. */
  lemma ExecPeek(x: Sem, r: nat, index: Operand, dst: nat, line: seq<Instr>, l: Local, i: nat, es: seq<LVal>)
    returns (l': Local)
    requires Spilled(l, l, r, r, es) && r < dst && i < |es|
    requires OpVal(l, index).Some? && IndexOfVal(OpVal(l, index).value) == Some(i)
    ensures ExecSeq(x, [Gep(dst, Reg(r), index), LoadElem(dst + 1, Reg(dst))] + line, l) == ExecSeq(x, line, l')
    ensures RegsKept(l, l', dst) && l'.mem == l.mem && l'.arrs == l.arrs && Spilled(l', l', r, r, es)
    ensures OpVal(l', Reg(dst)) == Some(LPtr(l.regs[r].arr, i)) && OpVal(l', Reg(dst + 1)) == Some(es[i])
  {
    var k := l.regs[r].arr;
    var l1 := l.(regs := l.regs[dst := LPtr(k, i)]);
    assert ExecInstr(x, Gep(dst, Reg(r), index), l) == Some(l1);
    LoadOne(l1, k, i, es);
    l' := l1.(regs := l1.regs[dst + 1 := es[i]]);
    assert ExecInstr(x, LoadElem(dst + 1, Reg(dst)), l1) == Some(l');
    ExecCons(x, Gep(dst, Reg(r), index), [LoadElem(dst + 1, Reg(dst))] + line, l, l1);
    ExecCons(x, LoadElem(dst + 1, Reg(dst)), line, l1, l');
    assert [Gep(dst, Reg(r), index), LoadElem(dst + 1, Reg(dst))] + line
        == [Gep(dst, Reg(r), index)] + ([LoadElem(dst + 1, Reg(dst))] + line);
  }

  /** Stores to an element that register `p` points to. */
  lemma ExecPoke(x: Sem, r: nat, p: nat, v: Operand, line: seq<Instr>, l: Local, i: nat, es: seq<LVal>, w: LVal)
    returns (l': Local)
    requires Spilled(l, l, r, r, es) && i < |es| && OpVal(l, Reg(p)) == Some(LPtr(l.regs[r].arr, i))
    requires OpVal(l, v) == Some(w)
    ensures ExecSeq(x, [StoreElem(Reg(p), v)] + line, l) == ExecSeq(x, line, l')
    ensures l'.regs == l.regs && l'.params == l.params && l'.mem == l.mem && Spilled(l', l', r, r, es[i := w])
  {
    var k := l.regs[r].arr;
    StoreOne(l, k, i, es, w);
    l' := l.(arrs := l.arrs[k := Filled(es[i := w])]);
    assert ExecInstr(x, StoreElem(Reg(p), v), l) == Some(l');
    ExecCons(x, StoreElem(Reg(p), v), line, l, l');
  }

  /** Loads the whole array back. */
  lemma ExecReload(x: Sem, r: nat, dst: nat, l: Local, es: seq<LVal>) returns (l': Local)
    requires Spilled(l, l, r, r, es) && r < dst
    ensures ExecSeq(x, [LoadArray(dst, Reg(r), |es|)], l) == Some(l')
    ensures RegsKept(l, l', dst) && l'.mem == l.mem && OpVal(l', Reg(dst)) == Some(LArr(es))
  {
    var k := l.regs[r].arr;
    LoadFilled(l, k, 0, |es|, es);
    assert es[0..|es|] == es;
    l' := l.(regs := l.regs[dst := LArr(es)]);
    assert ExecInstr(x, LoadArray(dst, Reg(r), |es|), l) == Some(l');
    ExecCons(x, LoadArray(dst, Reg(r), |es|), [], l, l');
    assert [LoadArray(dst, Reg(r), |es|)] + [] == [LoadArray(dst, Reg(r), |es|)];
  }

  // ----- accesses -----

  lemma {:induction false} EncAllUpdate(vs: seq<Val>, i: nat, v: Val)
    requires i < |vs|
    ensures EncAll(vs[i := v]) == EncAll(vs)[i := Enc(v)]
  {
  }

  lemma {:induction false} EncAllSlice(vs: seq<Val>, i: nat, j: nat)
    requires i <= j <= |vs|
    ensures EncAll(vs[i..j]) == EncAll(vs)[i..j]
  {
    hide EncAll;
    forall k | 0 <= k < j - i ensures EncAll(vs[i..j])[k] == EncAll(vs)[i..j][k] {
      assert vs[i..j][k] == vs[i + k];
    }
  }

  /** The operands are the inputs. */
  lemma InputAt(l: Local, vals: seq<Operand>, vs: seq<Val>, i: nat)
    requires OpsAre(l, vals, EncAll(vs)) && i < |vs|
    ensures |vals| == |vs| && OpVal(l, vals[i]) == Some(Enc(vs[i]))
  {
  }

  lemma SpilledSelf(l: Local, l': Local, n: nat, r: nat, es: seq<LVal>)
    requires Spilled(l, l', n, r, es)
    ensures Spilled(l', l', r, r, es) && Computes(l, l', n)
  {
  }

  lemma IndexEnc(v: Val)
    requires IsIndex(v)
    ensures IndexOfVal(Enc(v)) == Some(v.n)
  {
  }

  lemma GetFields(x: Sem, size: nat, vals: seq<Operand>, next: nat, l: Local, vs: seq<Val>) returns (l': Local)
    requires Shaped(GetOp, size, vs) && InRange(GetOp, size, vs) && OpsAre(l, vals, EncAll(vs))
    requires Spilled(l, l, next, next, EncAll(vs[0].elems))
    ensures ExecSeq(x, AccessFields(GetOp, size, vals, next).line, l) == Some(l')
    ensures RegsKept(l, l', next + 1) && l'.mem == l.mem
    ensures OpsAre(l', AccessFields(GetOp, size, vals, next).vals, EncAll(Taken(GetOp, size, vs)))
  {
    hide Spilled, RegsKept;
    InputAt(l, vals, vs, 1);
    IndexEnc(vs[1]);
    l' := ExecPeek(x, next, vals[1], next + 1, [], l, vs[1].n, EncAll(vs[0].elems));
    var line := AccessFields(GetOp, size, vals, next).line;
    assert line + [] == line;
  }

  lemma SetFields(x: Sem, size: nat, vals: seq<Operand>, next: nat, l: Local, vs: seq<Val>) returns (l': Local)
    requires Shaped(SetOp, size, vs) && InRange(SetOp, size, vs) && OpsAre(l, vals, EncAll(vs)) && Below(vals, next)
    requires Spilled(l, l, next, next, EncAll(vs[0].elems))
    ensures ExecSeq(x, AccessFields(SetOp, size, vals, next).line, l) == Some(l')
    ensures RegsKept(l, l', next + 1) && l'.mem == l.mem
    ensures OpsAre(l', AccessFields(SetOp, size, vals, next).vals, EncAll(Taken(SetOp, size, vs)))
  {
    hide Spilled, ExecSeq, OpsAre;
    var es, i, v := EncAll(vs[0].elems), vs[1].n, Enc(vs[2]);
    InputAt(l, vals, vs, 1);
    IndexEnc(vs[1]);
    var store, load := StoreElem(Reg(next + 1), vals[2]), LoadArray(next + 3, Reg(next), size);
    var l1 := ExecPeek(x, next, vals[1], next + 1, [store] + [load], l, i, es);
    OpsKept(l, l1, next, vals, EncAll(vs)) by { KeptFewer(l, l1, next + 1, next); }
    InputAt(l1, vals, vs, 2);
    assert l1.regs[next] == l.regs[next] by { HeldReg(l, next, es); }
    var l2 := ExecPoke(x, next, next + 1, vals[2], [load], l1, i, es, v);
    l' := ExecReload(x, next, next + 3, l2, es[i := v]);
    EncAllUpdate(vs[0].elems, i, vs[2]);
    assert AccessFields(SetOp, size, vals, next).line
        == [Gep(next + 1, Reg(next), vals[1]), LoadElem(next + 2, Reg(next + 1))] + ([store] + [load]);
    TwoOps(l', Reg(next + 2), Reg(next + 3), es[i], LArr(es[i := v]));
    assert EncAll(Taken(SetOp, size, vs)) == [es[i], LArr(es[i := v])];
  }

  lemma KeptFewer(l: Local, l': Local, n: nat, m: nat)
    requires RegsKept(l, l', n) && m <= n
    ensures RegsKept(l, l', m)
  {
  }

  lemma OneOp(l: Local, o: Operand, a: LVal)
    requires OpVal(l, o) == Some(a)
    ensures OpsAre(l, [o], [a])
  {
  }

  lemma TwoOps(l: Local, o: Operand, p: Operand, a: LVal, b: LVal)
    requires OpVal(l, o) == Some(a) && OpVal(l, p) == Some(b)
    ensures OpsAre(l, [o, p], [a, b])
  {
  }

  /** Also when both indices are the same. */
  lemma SwapFields(x: Sem, size: nat, vals: seq<Operand>, next: nat, l: Local, vs: seq<Val>) returns (l': Local)
    requires Shaped(SwapOp, size, vs) && InRange(SwapOp, size, vs) && OpsAre(l, vals, EncAll(vs)) && Below(vals, next)
    requires Spilled(l, l, next, next, EncAll(vs[0].elems))
    ensures ExecSeq(x, AccessFields(SwapOp, size, vals, next).line, l) == Some(l')
    ensures RegsKept(l, l', next + 1) && l'.mem == l.mem
    ensures OpsAre(l', AccessFields(SwapOp, size, vals, next).vals, EncAll(Taken(SwapOp, size, vs)))
  {
    hide Spilled, ExecSeq, OpsAre;
    var a, i, j := vs[0].elems, vs[1].n, vs[2].n;
    var es := EncAll(a);
    InputAt(l, vals, vs, 1);
    IndexEnc(vs[1]);
    var s1, s2 := StoreElem(Reg(next + 1), Reg(next + 4)), StoreElem(Reg(next + 3), Reg(next + 2));
    var load := LoadArray(next + 5, Reg(next), size);
    var tail := [s1] + ([s2] + [load]);
    var mid := [Gep(next + 3, Reg(next), vals[2]), LoadElem(next + 4, Reg(next + 3))] + tail;
    var l1 := ExecPeek(x, next, vals[1], next + 1, mid, l, i, es);
    OpsKept(l, l1, next, vals, EncAll(vs)) by { KeptFewer(l, l1, next + 1, next); }
    InputAt(l1, vals, vs, 2);
    IndexEnc(vs[2]);
    var l2 := ExecPeek(x, next, vals[2], next + 3, tail, l1, j, es);
    assert l2.regs[next] == l1.regs[next] == l.regs[next] by { HeldReg(l, next, es); HeldReg(l1, next, es); }
    var l3 := ExecPoke(x, next, next + 1, Reg(next + 4), [s2] + [load], l2, i, es, es[j]);
    var l4 := ExecPoke(x, next, next + 3, Reg(next + 2), [load], l3, j, es[i := es[j]], es[i]);
    l' := ExecReload(x, next, next + 5, l4, es[i := es[j]][j := es[i]]);
    EncAllUpdate(a, i, a[j]);
    EncAllUpdate(a[i := a[j]], j, a[i]);
    assert AccessFields(SwapOp, size, vals, next).line
        == [Gep(next + 1, Reg(next), vals[1]), LoadElem(next + 2, Reg(next + 1))] + mid;
    OneOp(l', Reg(next + 5), LArr(es[i := es[j]][j := es[i]]));
    assert EncAll(Taken(SwapOp, size, vs)) == [LArr(es[i := es[j]][j := es[i]])];
  }

  lemma HeldReg(l: Local, r: nat, es: seq<LVal>)
    requires Spilled(l, l, r, r, es)
    ensures r in l.regs
  {
  }

  /** When the indices are in bounds, the code for success builds the variant for success. */
  lemma ExecAccess(x: Sem, op: ArrayOp, elem: Ty, size: nat, vals: seq<Operand>, next: nat, l: Local, vs: seq<Val>)
    requires Shaped(op, size, vs) && InRange(op, size, vs) && OpsAre(l, vals, EncAll(vs)) && Below(vals, next)
    ensures IsAccess(op, |vals|)
    ensures var p := Success(op, elem, size, vals, next); var r := ExecSeq(x, p.line, l);
      && r.Some? && Computes(l, r.value, next)
      && OpsAre(r.value, p.vals, EncAll([SumV(1, Taken(op, size, vs), ArrayRows(op, elem, size))]))
  {
    hide ExecSeq, AccessFields, TagPiece, Spilled, SpillLine, Enc;
    var rows, es := ArrayRows(op, elem, size), EncAll(vs[0].elems);
    InputAt(l, vals, vs, 0);
    EncArr(vs[0]);
    ExecSpill(x, vals[0], size, next, l, es);
    var l1 := ExecSeq(x, SpillLine(vals[0], size, next), l).value;
    SpilledSelf(l, l1, next, next, es);
    OpsKept(l, l1, next, vals, EncAll(vs));
    var p := AccessFields(op, size, vals, next);
    var l2;
    match op {
      case GetOp => l2 := GetFields(x, size, vals, next, l1, vs);
      case SetOp => l2 := SetFields(x, size, vals, next, l1, vs);
      case SwapOp => l2 := SwapFields(x, size, vals, next, l1, vs);
    }
    ExecVariant(x, rows, vals[0], size, p, next, l, l1, l2, Taken(op, size, vs)) by {
      FieldsNext(op, size, vals, next);
    }
  }

  lemma EncArr(v: Val)
    requires v.ArrV?
    ensures Enc(v) == LArr(EncAll(v.elems))
  {
  }

  lemma FieldsNext(op: ArrayOp, size: nat, vals: seq<Operand>, next: nat)
    requires IsAccess(op, |vals|)
    ensures var p := AccessFields(op, size, vals, next); next + 1 <= p.next && Below(p.vals, p.next)
  {
  }

  /** Spilling, computing the fields, and putting them into variant 1. */
  lemma ExecVariant(x: Sem, rows: seq<Row>, v: Operand, size: nat, p: Piece, next: nat, l: Local, l1: Local, l2: Local,
                    fields: seq<Val>)
    requires |rows| == 2 && |fields| == |rows[1].tys| && |p.vals| == |fields|
    requires ExecSeq(x, SpillLine(v, size, next), l) == Some(l1) && Computes(l, l1, next)
    requires ExecSeq(x, p.line, l1) == Some(l2) && RegsKept(l1, l2, next + 1) && l2.mem == l1.mem
    requires OpsAre(l2, p.vals, EncAll(fields)) && Below(p.vals, p.next) && next <= p.next
    ensures SuccessPiece(rows, v, size, p, next).Some?
    ensures var q := SuccessPiece(rows, v, size, p, next).value; var r := ExecSeq(x, q.line, l);
      && r.Some? && Computes(l, r.value, next) && OpsAre(r.value, q.vals, EncAll([SumV(1, fields, rows)]))
  {
    hide ExecSeq, TagPiece, SpillLine, SumStruct;
    TagPieceOk(rows, 1, p.vals, p.next);
    var t := TagPiece(rows, 1, p.vals, p.next).value;
    ExecTag(x, rows, 1, p.vals, p.next, l2, EncAll(fields));
    ExecConcat(x, SpillLine(v, size, next), p.line, l);
    ExecConcat(x, SpillLine(v, size, next) + p.line, t.line, l);
    assert EncAll([SumV(1, fields, rows)]) == [SumStruct(rows, 1, EncAll(fields))];
  }

  /** When they are not, the code for failure hands the inputs back. */
  lemma ExecRefused(x: Sem, op: ArrayOp, elem: Ty, size: nat, vals: seq<Operand>, next: nat, l: Local, vs: seq<Val>)
    requires Shaped(op, size, vs) && OpsAre(l, vals, EncAll(vs)) && Below(vals, next)
    ensures IsAccess(op, |vals|)
    ensures var p := Failure(op, elem, size, vals, next); var r := ExecSeq(x, p.line, l);
      && r.Some? && Computes(l, r.value, next)
      && OpsAre(r.value, p.vals, EncAll([SumV(0, Refused(op, size, vs), ArrayRows(op, elem, size))]))
  {
    hide ExecSeq, TagPiece, SumStruct;
    var rows, os, fields := ArrayRows(op, elem, size), HandedBack(op, vals), Refused(op, size, vs);
    forall i | 0 <= i < |vs| ensures OpVal(l, vals[i]) == Some(Enc(vs[i])) { InputAt(l, vals, vs, i); }
    assert OpsAre(l, os, EncAll(fields));
    ExecTag(x, rows, 0, os, next, l, EncAll(fields));
    AccessPiecesOk(op, elem, size, vals, next);
    assert EncAll([SumV(0, fields, rows)]) == [SumStruct(rows, 0, EncAll(fields))];
  }

  /** The guard tells which of the two it is. */
  lemma {:induction false} ExecGuard(x: Sem, op: ArrayOp, size: nat, vals: seq<Operand>, next: nat, l: Local,
                                     vs: seq<Val>)
    requires Shaped(op, size, vs) && OpsAre(l, vals, EncAll(vs)) && Below(vals, next)
    ensures IsAccess(op, |vals|)
    ensures var g := GuardPiece(op, size, vals, next); var r := ExecSeq(x, g.line, l);
      && r.Some? && Computes(l, r.value, next) && OpVal(r.value, g.vals[0]) == Some(LBit(InRange(op, size, vs)))
  {
    hide ExecInstr, ExecSeq, Enc;
    InputAt(l, vals, vs, 1);
    IndexEnc(vs[1]);
    var l1 := ExecTest(x, vals[1], size, next, l, vs[1].n);
    if op.SwapOp? {
      OpsKept(l, l1, next, vals, EncAll(vs));
      InputAt(l1, vals, vs, 2);
      IndexEnc(vs[2]);
      var l2 := ExecTest(x, vals[2], size, next + 1, l1, vs[2].n);
      var l3 := ExecBoth(x, next, next + 1, next + 2, l2, vs[1].n < size, vs[2].n < size);
      var u, u2, both := Ult(next, vals[1], size), Ult(next + 1, vals[2], size),
        And(next + 2, Reg(next), Reg(next + 1));
      ExecCons(x, u, [u2] + ([both] + []), l, l1);
      ExecCons(x, u2, [both] + [], l1, l2);
      ExecCons(x, both, [], l2, l3);
      assert GuardPiece(op, size, vals, next).line == [u] + ([u2] + ([both] + []));
      assert ExecSeq(x, GuardPiece(op, size, vals, next).line, l) == Some(l3) by { NoMore(x, l3); }
    } else {
      ExecCons(x, Ult(next, vals[1], size), [], l, l1);
      assert GuardPiece(op, size, vals, next).line == [Ult(next, vals[1], size)] + [];
      assert ExecSeq(x, GuardPiece(op, size, vals, next).line, l) == Some(l1) by { NoMore(x, l1); }
    }
  }

  lemma NoMore(x: Sem, l: Local)
    ensures ExecSeq(x, [], l) == Some(l)
  {
  }

  lemma ExecTest(x: Sem, v: Operand, size: nat, dst: nat, l: Local, i: nat) returns (l': Local)
    requires OpVal(l, v).Some? && IndexOfVal(OpVal(l, v).value) == Some(i)
    ensures ExecInstr(x, Ult(dst, v, size), l) == Some(l') && l' == l.(regs := l.regs[dst := LBit(i < size)])
  {
    l' := l.(regs := l.regs[dst := LBit(i < size)]);
  }

  lemma ExecBoth(x: Sem, r: nat, r': nat, dst: nat, l: Local, b: bool, c: bool) returns (l': Local)
    requires OpVal(l, Reg(r)) == Some(LBit(b)) && OpVal(l, Reg(r')) == Some(LBit(c))
    ensures ExecInstr(x, And(dst, Reg(r), Reg(r')), l) == Some(l') && l' == l.(regs := l.regs[dst := LBit(b && c)])
  {
    l' := l.(regs := l.regs[dst := LBit(b && c)]);
  }

  // ----- pops -----

  /** What a pop of a non-empty array takes. */
  function Popped(a: seq<Val>, left: bool): seq<Val>
    requires a != []
  {
    if left then [a[0], ArrV(a[1..])] else [a[|a| - 1], ArrV(a[..|a| - 1])]
  }

  lemma {:induction false} ExecPopFields(x: Sem, left: bool, next: nat, l: Local, a: seq<Val>) returns (l': Local)
    requires a != [] && Spilled(l, l, next, next, EncAll(a))
    ensures ExecSeq(x, PopFields(|a|, left, next).line, l) == Some(l')
    ensures RegsKept(l, l', next + 1) && l'.mem == l.mem
    ensures OpsAre(l', PopFields(|a|, left, next).vals, EncAll(Popped(a, left)))
  {
    hide ExecInstr, ExecSeq, EncAll, Enc;
    var es := EncAll(a);
    var p := PopFields(|a|, left, next);
    var off, at, from := if left then 1 else |a| - 1, if left then 0 else |a| - 1, if left then 1 else 0;
    var l1, l2, l3 := ExecEnds(x, left, next, l, es);
    EncAllSlice(a, from, from + |a| - 1);
    ExecCons(x, p.line[0], [p.line[1]] + ([p.line[2]] + []), l, l1);
    ExecCons(x, p.line[1], [p.line[2]] + [], l1, l2);
    ExecCons(x, p.line[2], [], l2, l3);
    NoMore(x, l3);
    assert p.line == [p.line[0]] + ([p.line[1]] + ([p.line[2]] + []));
    assert a[from..from + |a| - 1] == if left then a[1..] else a[..|a| - 1];
    TwoOps(l3, Reg(next + 2), Reg(next + 3), es[at], LArr(es[from..from + |a| - 1]));
    EncPair(a[at], a[from..from + |a| - 1]);
    l' := l3;
  }

  lemma EncPair(v: Val, a: seq<Val>)
    ensures EncAll([v, ArrV(a)]) == [Enc(v), LArr(EncAll(a))]
  {
  }

  lemma SpillAt(l: Local, next: nat, es: seq<LVal>) returns (k: nat)
    requires Spilled(l, l, next, next, es)
    ensures OpVal(l, Reg(next)) == Some(LPtr(k, 0)) && k < |l.arrs| && l.arrs[k] == Filled(es)
  {
    k := l.regs[next].arr;
  }

  lemma {:induction false} ExecEnds(x: Sem, left: bool, next: nat, l: Local, es: seq<LVal>)
    returns (l1: Local, l2: Local, l3: Local)
    requires es != [] && Spilled(l, l, next, next, es)
    ensures var p := PopFields(|es|, left, next);
      && ExecInstr(x, p.line[0], l) == Some(l1) && ExecInstr(x, p.line[1], l1) == Some(l2)
      && ExecInstr(x, p.line[2], l2) == Some(l3)
    ensures RegsKept(l, l3, next + 1) && l3.mem == l.mem
    ensures var at, from := if left then 0 else |es| - 1, if left then 1 else 0;
      && OpVal(l3, Reg(next + 2)) == Some(es[at]) && OpVal(l3, Reg(next + 3)) == Some(LArr(es[from..from + |es| - 1]))
  {
    hide Filled, Spilled, LoadCells;
    var k := SpillAt(l, next, es);
    l1 := l.(regs := l.regs[next + 1 := LPtr(k, if left then 1 else |es| - 1)]);
    var at, from := if left then 0 else |es| - 1, if left then 1 else 0;
    LoadOne(l1, k, at, es);
    l2 := l1.(regs := l1.regs[next + 2 := es[at]]);
    LoadFilled(l2, k, from, |es| - 1, es);
    l3 := l2.(regs := l2.regs[next + 3 := LArr(es[from..from + |es| - 1])]);
  }

  /** The code of a pop computes what popping means, for every size. */
  lemma {:induction false} ExecPopped(x: Sem, elem: Ty, left: bool, size: nat, v: Operand, next: nat, l: Local,
                                      vs: seq<Val>, os: seq<Val>)
    requires OpsAre(l, [v], EncAll(vs)) && Below([v], next) && ArraySem(PopOp(left), elem, size, vs) == Some(os)
    ensures Emit.PoppedPiece(ArrayRows(PopOp(left), elem, size), left, size, v, next).Some?
    ensures var p := Emit.PoppedPiece(ArrayRows(PopOp(left), elem, size), left, size, v, next).value;
      var r := ExecSeq(x, p.line, l);
      r.Some? && Computes(l, r.value, next) && OpsAre(r.value, p.vals, EncAll(os))
  {
    hide ExecSeq, TagPiece, SumStruct, SpillLine, PopFields, Spilled, SuccessPiece;
    var rows := ArrayRows(PopOp(left), elem, size);
    if size == 0 {
      TagPieceOk(rows, 0, [], next);
      ExecTag(x, rows, 0, [], next, l, []);
      assert EncAll(os) == [SumStruct(rows, 0, [])];
    } else {
      var a := vs[0].elems;
      InputAt(l, [v], vs, 0);
      assert [v][0] == v;
      EncArr(vs[0]);
      ExecSpill(x, v, size, next, l, EncAll(a));
      var l1 := ExecSeq(x, SpillLine(v, size, next), l).value;
      SpilledSelf(l, l1, next, next, EncAll(a));
      var l2 := ExecPopFields(x, left, next, l1, a);
      PopNext(size, left, next);
      ExecVariant(x, rows, v, size, PopFields(size, left, next), next, l, l1, l2, Popped(a, left));
      assert os == [SumV(1, Popped(a, left), rows)];
    }
  }

  lemma PopNext(size: nat, left: bool, next: nat)
    requires size > 0
    ensures var p := PopFields(size, left, next); next <= p.next && Below(p.vals, p.next) && |p.vals| == 2
  {
  }

  // ----- new arrays -----

  lemma {:induction false} ExecElems(x: Sem, agg: Operand, os: seq<Operand>, i: nat, next: nat, l: Local,
                                     elems: seq<LVal>, ls: seq<LVal>)
    requires OpVal(l, agg) == Some(LArr(elems)) && OpsAre(l, os, ls) && Below(os, next) && i + |os| <= |elems|
    ensures var r := ExecSeq(x, InsertLine(agg, os, i, next), l);
      && r.Some? && Computes(l, r.value, next)
      && OpVal(r.value, LastReg(agg, |os|, next)) == Some(LArr(elems[..i] + ls + elems[i + |os|..]))
    decreases os
  {
    if os == [] {
      assert elems[..i] + ls + elems[i..] == elems;
    } else {
      var v := LArr(elems[i := ls[0]]);
      var l1 := l.(regs := l.regs[next := v]);
      assert OpVal(l, os[0]) == Some(ls[0]);
      assert ExecInstr(x, Insert(next, agg, os[0], i), l) == Some(l1);
      assert InsertLine(agg, os, i, next)[1..] == InsertLine(Reg(next), os[1..], i + 1, next + 1);
      assert RegsKept(l, l1, next);
      OpsKept(l, l1, next, os, ls);
      assert OpsAre(l1, os[1..], ls[1..]) by {
        forall k | 0 <= k < |os[1..]| ensures OpVal(l1, os[1..][k]) == Some(ls[1..][k]) {
          assert OpVal(l1, os[k + 1]) == Some(ls[k + 1]);
        }
      }
      ExecElems(x, Reg(next), os[1..], i + 1, next + 1, l1, v.elems, ls[1..]);
      assert v.elems[..i + 1] + ls[1..] + v.elems[i + |os|..] == elems[..i] + ls + elems[i + |os|..];
      assert LastReg(Reg(next), |os| - 1, next + 1) == LastReg(agg, |os|, next);
    }
  }

  lemma EncOne(vs: seq<Val>)
    ensures EncAll([ArrV(vs)]) == [LArr(EncAll(vs))]
  {
  }

  /** Inserting the inputs one by one gives the array of the inputs. */
  lemma {:induction false} ExecNewArray(x: Sem, vals: seq<Operand>, next: nat, l: Local, vs: seq<Val>)
    requires OpsAre(l, vals, EncAll(vs)) && Below(vals, next)
    ensures var p := NewArrayPiece(|vs|, vals, next); var r := ExecSeq(x, p.line, l);
      r.Some? && Computes(l, r.value, next) && OpsAre(r.value, p.vals, EncAll([ArrV(vs)]))
  {
    hide ExecSeq, EncAll, Enc, InsertLine, Undefs;
    var undef := Undefs(|vs|);
    ExecElems(x, Const(LArr(undef)), vals, 0, next, l, undef, EncAll(vs));
    assert undef[..0] + EncAll(vs) + undef[|vals|..] == EncAll(vs);
    var p := NewArrayPiece(|vs|, vals, next);
    var r := ExecSeq(x, p.line, l).value;
    OneOp(r, p.vals[0], LArr(EncAll(vs)));
    EncOne(vs);
  }
}
