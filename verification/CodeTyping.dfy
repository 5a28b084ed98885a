/** Emitted code is well-typed LLVM: there are types for the registers under which every instruction of a function fits
    its operands, the types its mailboxes are allocated at, and the signatures of what it calls. */
module CodeTyping {
  import opened Values
  import opened Machine
  import opened Hugr
  import opened Arrays
  import opened Types
  import opened Typing
  import opened Builder
  import opened Emit

  /** What a register holds: the LLVM representation of a HUGR value, a struct of such (the fields of a variant, or the
      results of a call), a tag, the outcome of a comparison, or a pointer to the elements of an array. */
  datatype RTy = ValueOf(ty: Ty) | StructOf(tys: seq<Ty>) | Int32 | Flag | PtrTo(elem: Ty)

  function ValuesOf(tys: seq<Ty>): (ts: seq<RTy>)
    ensures |ts| == |tys| && forall i :: 0 <= i < |tys| ==> ts[i] == ValueOf(tys[i])
  {
    seq(|tys|, i requires 0 <= i < |tys| => ValueOf(tys[i]))
  }

  /** The types of the fields of an aggregate.  A sum has one struct per variant; from two variants on, a tag is in
      front of them. */
  function FieldsOf(t: RTy): Option<seq<RTy>> {
    match t
    case ValueOf(Sum(rows)) =>
      Some((if |rows| >= 2 then [Int32] else [])
           + seq(|rows|, i requires 0 <= i < |rows| => StructOf(rows[i].tys)))
    case ValueOf(Arr(size, elem)) => Some(seq(size, _ => ValueOf(elem)))
    case StructOf(tys) => Some(ValuesOf(tys))
    case _ => None
  }

  predicate FieldIs(t: RTy, i: nat, u: RTy) {
    FieldsOf(t).Some? && i < |FieldsOf(t).value| && FieldsOf(t).value[i] == u
  }

  /** What a call of a function with these results leaves in its register. */
  function ResultOf(outs: seq<Ty>): RTy {
    if |outs| == 1 then ValueOf(outs[0]) else StructOf(outs)
  }

  // ----- the judgement -----

  /** The function being typed: its world and signature, and the types of its wires. */
  datatype Setting = Setting(w: World, ins: seq<Ty>, outs: seq<Ty>, ty: Wire -> Ty)

  predicate IsArray(t: RTy) {
    t.ValueOf? && t.ty.Arr?
  }

  predicate ConstHas(w: World, v: LVal, t: RTy)
    decreases v
  {
    match v
    case Poison => true
    case Undef => true
    case LPrim(ty, _) => t == ValueOf(ty)
    case LInt(n) => t == Int32 && n >= 0
    case LFn(f) => HasSig(w, f) && t == ValueOf(Func(SigIns(w, f), SigOuts(w, f)))
    case LStruct(fields) =>
      && !IsArray(t) && FieldsOf(t).Some? && |FieldsOf(t).value| == |fields|
      && forall i :: 0 <= i < |fields| ==> ConstHas(w, fields[i], FieldsOf(t).value[i])
    case LArr(elems) =>
      IsArray(t) && t.ty.size == |elems| && forall i :: 0 <= i < |elems| ==> ConstHas(w, elems[i], ValueOf(t.ty.elem))
    case _ => false
  }

  /** Register `r` has type `ts[r]`. */
  predicate Has(s: Setting, ts: seq<RTy>, o: Operand, t: RTy) {
    match o
    case Reg(r) => r < |ts| && ts[r] == t
    case Param(i) => i < |s.ins| && t == ValueOf(s.ins[i])
    case Const(v) => ConstHas(s.w, v, t)
  }

  predicate AllHave(s: Setting, ts: seq<RTy>, os: seq<Operand>, tys: seq<Ty>) {
    |os| == |tys| && forall i :: 0 <= i < |os| ==> Has(s, ts, os[i], ValueOf(tys[i]))
  }

  predicate RegIs(ts: seq<RTy>, r: nat, t: RTy) {
    r < |ts| && ts[r] == t
  }

  /** The instruction is well typed in a function whose mailboxes are allocated at `slots`. */
  ghost predicate InstrOk(s: Setting, slots: seq<Ty>, ts: seq<RTy>, i: Instr) {
    match i
    case Alloca(slot, ty) => slot < |slots| && slots[slot] == ty
    case Load(dst, slot) => slot < |slots| && RegIs(ts, dst, ValueOf(slots[slot]))
    case Store(slot, v) => slot < |slots| && Has(s, ts, v, ValueOf(slots[slot]))
    case Insert(dst, agg, v, idx) =>
      dst < |ts| && Has(s, ts, agg, ts[dst]) && exists u :: FieldIs(ts[dst], idx, u) && Has(s, ts, v, u)
    case Extract(dst, agg, idx) => exists t :: Has(s, ts, agg, t) && dst < |ts| && FieldIs(t, idx, ts[dst])
    case ExtOp(dst, count, op, args) =>
      exists ins, outs :: AllHave(s, ts, args, ins) && TypedExt(s.w, op, ins, outs) && |outs| == count
                          && forall k :: 0 <= k < count ==> RegIs(ts, dst + k, ValueOf(outs[k]))
    case AllocaArray(dst, _) => dst < |ts| && ts[dst].PtrTo?
    case StoreArray(ptr, v) => exists n, e :: Has(s, ts, ptr, PtrTo(e)) && Has(s, ts, v, ValueOf(Arr(n, e)))
    case LoadArray(dst, ptr, n) => exists e :: Has(s, ts, ptr, PtrTo(e)) && RegIs(ts, dst, ValueOf(Arr(n, e)))
    case Gep(dst, ptr, index) =>
      && (exists e :: Has(s, ts, ptr, PtrTo(e)) && RegIs(ts, dst, PtrTo(e)))
      && (Has(s, ts, index, ValueOf(Usize)) || Has(s, ts, index, Int32))
    case LoadElem(dst, ptr) => exists e :: Has(s, ts, ptr, PtrTo(e)) && RegIs(ts, dst, ValueOf(e))
    case StoreElem(ptr, v) => exists e :: Has(s, ts, ptr, PtrTo(e)) && Has(s, ts, v, ValueOf(e))
    case Ult(dst, v, _) => Has(s, ts, v, ValueOf(Usize)) && RegIs(ts, dst, Flag)
    case And(dst, v, u) => Has(s, ts, v, Flag) && Has(s, ts, u, Flag) && RegIs(ts, dst, Flag)
    case Call(dst, callee, args) =>
      exists ins, outs :: Has(s, ts, callee, ValueOf(Func(ins, outs))) && AllHave(s, ts, args, ins)
                          && RegIs(ts, dst, ResultOf(outs))
    case Br(_) => true
    case CondBr(cond, _, _) => Has(s, ts, cond, Flag)
    case Switch(tag, _, _) => Has(s, ts, tag, Int32)
    case Ret(vals) => AllHave(s, ts, vals, s.outs)
  }

  ghost predicate LineOk(s: Setting, slots: seq<Ty>, ts: seq<RTy>, line: seq<Instr>) {
    true == (
    forall i :: 0 <= i < |line| ==> InstrOk(s, slots, ts, line[i]))
  }

  /** The mailboxes of a row have these types. */
  predicate RowHas(slots: seq<Ty>, row: seq<nat>, tys: seq<Ty>) {
    true == (
    |row| == |tys| && forall i :: 0 <= i < |row| ==> row[i] < |slots| && slots[row[i]] == tys[i])
  }

  // ----- the LLVM types behind it -----

  function Lower(hooks: Hooks, t: RTy): Option<LTy> {
    match t
    case ValueOf(ty) => MapType(hooks, ty)
    case StructOf(tys) => (match MapTypes(hooks, tys) case Some(ts) => Some(StructTy(ts)) case None => None)
    case Int32 => Some(I32)
    case _ => None
  }

  /** The fields of an aggregate are those of its LLVM type, so an access that is well typed here is well typed
      there. */
  lemma FieldsLower(hooks: Hooks, t: RTy, i: nat)
    requires FieldsOf(t).Some? && i < |FieldsOf(t).value| && Lower(hooks, t).Some?
    ensures match Lower(hooks, t).value
      case StructTy(ts) => |ts| == |FieldsOf(t).value| && Lower(hooks, FieldsOf(t).value[i]) == Some(ts[i])
      case ArrayTy(size, elem) => size == |FieldsOf(t).value| && Lower(hooks, FieldsOf(t).value[i]) == Some(elem)
      case _ => false
  {
    match t {
      case ValueOf(Sum(rows)) => SumLayout(hooks, rows);
      case StructOf(tys) => MapTypesAt(hooks, tys, i);
      case _ =>
    }
  }

  // ----- more registers and mailboxes -----

  lemma InstrMore(s: Setting, slots: seq<Ty>, ts: seq<RTy>, slots': seq<Ty>, ts': seq<RTy>, i: Instr)
    requires InstrOk(s, slots, ts, i) && slots <= slots' && ts <= ts'
    ensures InstrOk(s, slots', ts', i)
  {
    hide FieldsOf, ConstHas, TypedExt;
    match i {
      case Insert(dst, agg, v, idx) => var u :| FieldIs(ts[dst], idx, u) && Has(s, ts, v, u);
      case Extract(dst, agg, idx) => var t :| Has(s, ts, agg, t) && dst < |ts| && FieldIs(t, idx, ts[dst]);
      case ExtOp(dst, count, op, args) =>
        var ins, outs :| AllHave(s, ts, args, ins) && TypedExt(s.w, op, ins, outs) && |outs| == count
          && forall k :: 0 <= k < count ==> RegIs(ts, dst + k, ValueOf(outs[k]));
        assert AllHave(s, ts', args, ins);
      case Call(dst, callee, args) =>
        var ins, outs :| Has(s, ts, callee, ValueOf(Func(ins, outs))) && AllHave(s, ts, args, ins)
          && RegIs(ts, dst, ResultOf(outs));
        assert Has(s, ts', callee, ValueOf(Func(ins, outs))) && AllHave(s, ts', args, ins);
      case Ret(vals) =>
      case CondBr(cond, _, _) =>
      case Switch(tag, _, _) =>
      case Br(_) =>
      case Alloca(_, _) =>
      case Load(_, _) =>
      case Store(_, _) =>
      case _ => MemoryMore(s, slots, ts, slots', ts', i);
    }
  }

  lemma MemoryMore(s: Setting, slots: seq<Ty>, ts: seq<RTy>, slots': seq<Ty>, ts': seq<RTy>, i: Instr)
    requires InstrOk(s, slots, ts, i) && slots <= slots' && ts <= ts'
    requires !IsTerminator(i) && !i.Alloca? && !i.Load? && !i.Store? && !i.Insert? && !i.Extract?
    requires !i.ExtOp? && !i.Call?
    ensures InstrOk(s, slots', ts', i)
  {
    hide FieldsOf, ConstHas, TypedExt;
    match i {
      case StoreArray(ptr, v) => var n, e :| Has(s, ts, ptr, PtrTo(e)) && Has(s, ts, v, ValueOf(Arr(n, e)));
      case LoadArray(dst, ptr, n) => var e :| Has(s, ts, ptr, PtrTo(e)) && RegIs(ts, dst, ValueOf(Arr(n, e)));
      case Gep(dst, ptr, index) => var e :| Has(s, ts, ptr, PtrTo(e)) && RegIs(ts, dst, PtrTo(e));
      case LoadElem(dst, ptr) => var e :| Has(s, ts, ptr, PtrTo(e)) && RegIs(ts, dst, ValueOf(e));
      case StoreElem(ptr, v) => var e :| Has(s, ts, ptr, PtrTo(e)) && Has(s, ts, v, ValueOf(e));
      case _ =>
    }
  }

  lemma LineMore(s: Setting, slots: seq<Ty>, ts: seq<RTy>, slots': seq<Ty>, ts': seq<RTy>, line: seq<Instr>)
    requires LineOk(s, slots, ts, line) && slots <= slots' && ts <= ts'
    ensures LineOk(s, slots', ts', line)
  {
    hide InstrOk;
    forall i | 0 <= i < |line| ensures InstrOk(s, slots', ts', line[i]) {
      InstrMore(s, slots, ts, slots', ts', line[i]);
    }
  }

  lemma HaveMore(s: Setting, ts: seq<RTy>, ts': seq<RTy>, os: seq<Operand>, tys: seq<Ty>)
    requires AllHave(s, ts, os, tys) && ts <= ts'
    ensures AllHave(s, ts', os, tys)
  {
    hide ConstHas;
  }

  lemma RowMore(slots: seq<Ty>, slots': seq<Ty>, row: seq<nat>, tys: seq<Ty>)
    requires RowHas(slots, row, tys) && slots <= slots'
    ensures RowHas(slots', row, tys)
  {
  }

  lemma LineConcat(s: Setting, slots: seq<Ty>, ts: seq<RTy>, a: seq<Instr>, b: seq<Instr>)
    requires LineOk(s, slots, ts, a) && LineOk(s, slots, ts, b)
    ensures LineOk(s, slots, ts, a + b)
  {
    hide InstrOk;
  }

  lemma OneOk(s: Setting, slots: seq<Ty>, ts: seq<RTy>, i: Instr)
    requires InstrOk(s, slots, ts, i)
    ensures LineOk(s, slots, ts, [i])
  {
    hide InstrOk;
  }

  lemma NoneOk(s: Setting, slots: seq<Ty>, ts: seq<RTy>)
    ensures LineOk(s, slots, ts, [])
  {
  }

  // ----- straight-line code -----

  /** From registers `ts` on, the piece is well typed, and leaves values of types `tys`; the registers are `ts'`
      then. */
  ghost predicate PieceTyped(s: Setting, slots: seq<Ty>, ts: seq<RTy>, p: Piece, tys: seq<Ty>, ts': seq<RTy>) {
    ts <= ts' && |ts'| == p.next && LineOk(s, slots, ts', p.line) && AllHave(s, ts', p.vals, tys)
  }

  lemma {:induction false} LoadsOk(s: Setting, slots: seq<Ty>, ts: seq<RTy>, row: seq<nat>, tys: seq<Ty>)
    requires RowHas(slots, row, tys)
    ensures LineOk(s, slots, ts + ValuesOf(tys), LoadLine(row, |ts|))
    decreases row
  {
    var ts' := ts + ValuesOf(tys);
    if row != [] {
      assert ts + [ValueOf(tys[0])] + ValuesOf(tys[1..]) == ts';
      LoadsOk(s, slots, ts + [ValueOf(tys[0])], row[1..], tys[1..]);
      OneOk(s, slots, ts', Load(|ts|, row[0]));
      LineConcat(s, slots, ts', [Load(|ts|, row[0])], LoadLine(row[1..], |ts| + 1));
    }
  }

  lemma ReadTyped(s: Setting, slots: seq<Ty>, ts: seq<RTy>, row: seq<nat>, tys: seq<Ty>) returns (ts': seq<RTy>)
    requires RowHas(slots, row, tys)
    ensures PieceTyped(s, slots, ts, ReadRow(row, |ts|), tys, ts')
  {
    LoadsOk(s, slots, ts, row, tys);
    ts' := ts + ValuesOf(tys);
  }

  lemma {:induction false} StoresOk(s: Setting, slots: seq<Ty>, ts: seq<RTy>, row: seq<nat>, vals: seq<Operand>,
                                    tys: seq<Ty>)
    requires RowHas(slots, row, tys) && AllHave(s, ts, vals, tys)
    ensures LineOk(s, slots, ts, StoreLine(row, vals))
    decreases row
  {
    if row != [] && vals != [] {
      StoresOk(s, slots, ts, row[1..], vals[1..], tys[1..]);
      OneOk(s, slots, ts, Store(row[0], vals[0]));
      LineConcat(s, slots, ts, [Store(row[0], vals[0])], StoreLine(row[1..], vals[1..]));
    }
  }

  /** Inserting values of types `us` into an aggregate of type `t` from field `i` on. */
  lemma {:induction false} InsertsOk(s: Setting, slots: seq<Ty>, ts: seq<RTy>, agg: Operand, t: RTy, vs: seq<Operand>,
                                     us: seq<RTy>, i: nat) returns (ts': seq<RTy>)
    requires Has(s, ts, agg, t) && |us| == |vs|
    requires forall j :: 0 <= j < |vs| ==> FieldIs(t, i + j, us[j]) && Has(s, ts, vs[j], us[j])
    ensures ts <= ts' && |ts'| == |ts| + |vs| && LineOk(s, slots, ts', InsertLine(agg, vs, i, |ts|))
    ensures Has(s, ts', LastReg(agg, |vs|, |ts|), t)
    decreases vs
  {
    hide FieldsOf, ConstHas, FieldIs;
    ts' := ts;
    if vs != [] {
      var mid := ts + [t];
      forall j | 0 <= j < |vs[1..]| ensures FieldIs(t, i + 1 + j, us[1..][j]) && Has(s, mid, vs[1..][j], us[1..][j]) {
        assert FieldIs(t, i + (j + 1), us[j + 1]) && Has(s, ts, vs[j + 1], us[j + 1]);
      }
      ts' := InsertsOk(s, slots, mid, Reg(|ts|), t, vs[1..], us[1..], i + 1);
      var first := Insert(|ts|, agg, vs[0], i);
      assert FieldIs(t, i + 0, us[0]) && Has(s, ts', vs[0], us[0]) && Has(s, ts', agg, t);
      OneOk(s, slots, ts', first);
      LineConcat(s, slots, ts', [first], InsertLine(Reg(|ts|), vs[1..], i + 1, |ts| + 1));
      assert LastReg(agg, |vs|, |ts|) == LastReg(Reg(|ts|), |vs[1..]|, |ts| + 1);
    } else {
      NoneOk(s, slots, ts);
    }
  }

  /** Extracting `n` fields from field `i` on. */
  lemma {:induction false} ExtractsOk(s: Setting, slots: seq<Ty>, ts: seq<RTy>, agg: Operand, t: RTy, n: nat, i: nat)
    returns (ts': seq<RTy>)
    requires Has(s, ts, agg, t) && FieldsOf(t).Some? && i + n <= |FieldsOf(t).value|
    ensures ts' == ts + FieldsOf(t).value[i..i + n] && LineOk(s, slots, ts', ExtractLine(agg, n, i, |ts|))
    decreases n
  {
    hide FieldsOf, ConstHas;
    var fs := FieldsOf(t).value;
    ts' := ts + fs[i..i + n];
    if n == 0 {
      NoneOk(s, slots, ts');
    } else {
      var rest := ExtractsOk(s, slots, ts + [fs[i]], agg, t, n - 1, i + 1);
      assert fs[i..i + n] == [fs[i]] + fs[i + 1..i + n];
      assert rest == ts';
      var first := Extract(|ts|, agg, i);
      assert Has(s, ts', agg, t) && FieldIs(t, i, ts'[|ts|]);
      OneOk(s, slots, ts', first);
      LineConcat(s, slots, ts', [first], ExtractLine(agg, n - 1, i + 1, |ts| + 1));
    }
  }

  lemma SumFields(rows: seq<Row>)
    ensures var fs := FieldsOf(ValueOf(Sum(rows))).value;
      && |fs| == VariantFieldIndex(rows, |rows|) && (HasTagField(rows) ==> fs[0] == Int32)
      && forall i :: 0 <= i < |rows| ==>
           FieldIs(ValueOf(Sum(rows)), VariantFieldIndex(rows, i), StructOf(rows[i].tys))
  {
  }

  lemma UndefRow(w: World, tys: seq<Ty>)
    ensures ConstHas(w, LStruct(seq(|tys|, _ => Undef)), StructOf(tys))
  {
  }

  lemma PoisonHas(w: World, rows: seq<Row>)
    ensures ConstHas(w, PoisonSum(rows), ValueOf(Sum(rows)))
  {
    SumFields(rows);
  }

  /** The fields of the variant. */
  lemma RowTyped(s: Setting, slots: seq<Ty>, ts: seq<RTy>, tys: seq<Ty>, vs: seq<Operand>) returns (ts': seq<RTy>)
    requires AllHave(s, ts, vs, tys)
    ensures var row0 := Const(LStruct(seq(|vs|, _ => Undef)));
      && ts <= ts' && |ts'| == |ts| + |vs| && LineOk(s, slots, ts', InsertLine(row0, vs, 0, |ts|))
      && Has(s, ts', LastReg(row0, |vs|, |ts|), StructOf(tys))
  {
    hide ConstHas;
    UndefRow(s.w, tys);
    ts' := InsertsOk(s, slots, ts, Const(LStruct(seq(|vs|, _ => Undef))), StructOf(tys), vs, ValuesOf(tys), 0);
  }

  /** The tag, if there is one, goes into a sum with poison in all fields. */
  lemma TagFieldTyped(s: Setting, slots: seq<Ty>, ts: seq<RTy>, rows: seq<Row>, tag: nat) returns (ts': seq<RTy>)
    ensures var sum0, t := Const(PoisonSum(rows)), ValueOf(Sum(rows));
      var line := if HasTagField(rows) then [Insert(|ts|, sum0, Const(LInt(tag)), 0)] else [];
      && ts <= ts' && |ts'| == |ts| + |line| && LineOk(s, slots, ts', line)
      && Has(s, ts', if HasTagField(rows) then Reg(|ts|) else sum0, t)
  {
    var t := ValueOf(Sum(rows));
    SumFields(rows);
    PoisonHas(s.w, rows);
    if HasTagField(rows) {
      ts' := ts + [t];
      assert FieldIs(t, 0, Int32) && Has(s, ts', Const(LInt(tag)), Int32);
      OneOk(s, slots, ts', Insert(|ts|, Const(PoisonSum(rows)), Const(LInt(tag)), 0)) by { hide ConstHas; }
    } else {
      ts' := ts;
      NoneOk(s, slots, ts');
    }
  }

  lemma TagTyped(s: Setting, slots: seq<Ty>, ts: seq<RTy>, rows: seq<Row>, tag: nat, vs: seq<Operand>)
    returns (ts': seq<RTy>)
    requires tag < |rows| && AllHave(s, ts, vs, rows[tag].tys)
    ensures TagPiece(rows, tag, vs, |ts|).Some?
    ensures PieceTyped(s, slots, ts, TagPiece(rows, tag, vs, |ts|).value, [Sum(rows)], ts')
  {
    hide InsertLine, FieldsOf, ConstHas;
    var p, t := TagPiece(rows, tag, vs, |ts|).value, ValueOf(Sum(rows));
    var row0, sum0 := Const(LStruct(seq(|vs|, _ => Undef))), Const(PoisonSum(rows));
    var ts1 := RowTyped(s, slots, ts, rows[tag].tys, vs);
    var ts2 := TagFieldTyped(s, slots, ts1, rows, tag);
    var a, row := InsertLine(row0, vs, 0, |ts|), LastReg(row0, |vs|, |ts|);
    var b := if HasTagField(rows) then [Insert(|ts1|, sum0, Const(LInt(tag)), 0)] else [];
    var sum := if HasTagField(rows) then Reg(|ts1|) else sum0;
    ts' := ts2 + [t];
    LineMore(s, slots, ts1, slots, ts', a);
    LineMore(s, slots, ts2, slots, ts', b);
    var last := Insert(|ts2|, sum, row, VariantFieldIndex(rows, tag));
    SumFields(rows);
    assert FieldIs(t, VariantFieldIndex(rows, tag), StructOf(rows[tag].tys));
    assert Has(s, ts', row, StructOf(rows[tag].tys)) && Has(s, ts', sum, t);
    OneOk(s, slots, ts', last);
    LineConcat(s, slots, ts', a, b);
    LineConcat(s, slots, ts', a + b, [last]);
    assert p.line == a + b + [last];
  }

  lemma UntagTyped(s: Setting, slots: seq<Ty>, ts: seq<RTy>, rows: seq<Row>, tag: nat, v: Operand)
    returns (ts': seq<RTy>)
    requires tag < |rows| && Has(s, ts, v, ValueOf(Sum(rows)))
    ensures PieceTyped(s, slots, ts, UntagPiece(rows, tag, v, |ts|), rows[tag].tys, ts')
  {
    hide ConstHas;
    var n, t := |rows[tag].tys|, StructOf(rows[tag].tys);
    SumFields(rows);
    var mid := ts + [t];
    ts' := ExtractsOk(s, slots, mid, Reg(|ts|), t, n, 0);
    assert FieldsOf(t).value[0..n] == ValuesOf(rows[tag].tys);
    var first := Extract(|ts|, v, VariantFieldIndex(rows, tag));
    assert Has(s, ts', v, ValueOf(Sum(rows))) && FieldIs(ValueOf(Sum(rows)), VariantFieldIndex(rows, tag), ts'[|ts|]);
    OneOk(s, slots, ts', first);
    LineConcat(s, slots, ts', [first], ExtractLine(Reg(|ts|), n, 0, |ts| + 1));
  }

  lemma GetTagTyped(s: Setting, slots: seq<Ty>, ts: seq<RTy>, rows: seq<Row>, v: Operand) returns (ts': seq<RTy>)
    requires Has(s, ts, v, ValueOf(Sum(rows)))
    ensures var p := GetTagPiece(rows, v, |ts|);
      && ts <= ts' && |ts'| == p.next && LineOk(s, slots, ts', p.line) && Has(s, ts', p.vals[0], Int32)
  {
    SumFields(rows);
    ts' := if HasTagField(rows) then ts + [Int32] else ts;
    if HasTagField(rows) {
      assert Has(s, ts', v, ValueOf(Sum(rows))) && FieldIs(ValueOf(Sum(rows)), 0, ts'[|ts|]);
      OneOk(s, slots, ts', Extract(|ts|, v, 0));
    }
  }

  // ----- constants -----

  lemma {:induction false} ConstTyped(s: Setting, slots: seq<Ty>, ts: seq<RTy>, v: Val, ty: Ty) returns (ts': seq<RTy>)
    requires HasTy(s.w, v, ty) && ConstPiece(v, |ts|).Some?
    ensures PieceTyped(s, slots, ts, ConstPiece(v, |ts|).value, [ty], ts')
    decreases v, 1
  {
    hide TagPiece, FieldsOf;
    match v {
      case SumV(tag, vals, rows) =>
        var mid := ConstsTyped(s, slots, ts, vals, rows[tag].tys);
        var p := ConstsPiece(vals, |ts|).value;
        ts' := TagTyped(s, slots, mid, rows, tag, p.vals);
        var q := TagPiece(rows, tag, p.vals, |mid|).value;
        LineMore(s, slots, mid, slots, ts', p.line);
        LineConcat(s, slots, ts', p.line, q.line);
      case _ =>
        ts' := ts;
        NoneOk(s, slots, ts);
    }
  }

  lemma {:induction false} ConstsTyped(s: Setting, slots: seq<Ty>, ts: seq<RTy>, vs: seq<Val>, tys: seq<Ty>)
    returns (ts': seq<RTy>)
    requires HasTys(s.w, vs, tys) && ConstsPiece(vs, |ts|).Some?
    ensures PieceTyped(s, slots, ts, ConstsPiece(vs, |ts|).value, tys, ts')
    decreases vs, 0
  {
    hide ConstHas, HasTy;
    if vs == [] {
      ts' := ts;
      NoneOk(s, slots, ts);
    } else {
      var mid := ConstTyped(s, slots, ts, vs[0], tys[0]);
      var p := ConstPiece(vs[0], |ts|).value;
      ts' := ConstsTyped(s, slots, mid, vs[1..], tys[1..]);
      var q := ConstsPiece(vs[1..], p.next).value;
      LineMore(s, slots, mid, slots, ts', p.line);
      LineConcat(s, slots, ts', p.line, q.line);
      HaveMore(s, mid, ts', p.vals, [tys[0]]);
      HaveBoth(s, ts', p.vals, [tys[0]], q.vals, tys[1..]);
      assert [tys[0]] + tys[1..] == tys;
    }
  }

  lemma HaveBoth(s: Setting, ts: seq<RTy>, a: seq<Operand>, as_: seq<Ty>, b: seq<Operand>, bs: seq<Ty>)
    requires AllHave(s, ts, a, as_) && AllHave(s, ts, b, bs)
    ensures AllHave(s, ts, a + b, as_ + bs)
  {
    hide ConstHas;
  }

  // ----- calls -----

  lemma CallTyped(s: Setting, slots: seq<Ty>, ts: seq<RTy>, callee: Operand, args: seq<Operand>, ins: seq<Ty>,
                  outs: seq<Ty>) returns (ts': seq<RTy>)
    requires Has(s, ts, callee, ValueOf(Func(ins, outs))) && AllHave(s, ts, args, ins)
    ensures PieceTyped(s, slots, ts, CallPiece(callee, args, |outs|, |ts|), outs, ts')
  {
    hide ConstHas;
    var mid := ts + [ResultOf(outs)];
    ts' := mid;
    var rest := UnpackPiece(|outs|, |ts| + 1);
    if |outs| >= 2 {
      ts' := ExtractsOk(s, slots, mid, Reg(|ts|), StructOf(outs), |outs|, 0);
      assert FieldsOf(StructOf(outs)).value[0..|outs|] == ValuesOf(outs);
    } else {
      NoneOk(s, slots, ts');
    }
    HaveMore(s, ts, ts', args, ins);
    assert Has(s, ts', callee, ValueOf(Func(ins, outs))) && RegIs(ts', |ts|, ResultOf(outs));
    OneOk(s, slots, ts', Machine.Call(|ts|, callee, args));
    LineConcat(s, slots, ts', [Machine.Call(|ts|, callee, args)], rest.line);
  }

  lemma ExtTyped(s: Setting, slots: seq<Ty>, ts: seq<RTy>, op: nat, args: seq<Operand>, ins: seq<Ty>, outs: seq<Ty>)
    returns (ts': seq<RTy>)
    requires AllHave(s, ts, args, ins) && TypedExt(s.w, op, ins, outs)
    ensures PieceTyped(s, slots, ts,
                       Piece([ExtOp(|ts|, |outs|, op, args)], |ts| + |outs|, Regs(|ts|, |outs|)), outs, ts')
  {
    hide ConstHas, TypedExt;
    ts' := ts + ValuesOf(outs);
    HaveMore(s, ts, ts', args, ins);
    assert forall k :: 0 <= k < |outs| ==> RegIs(ts', |ts| + k, ValueOf(outs[k]));
    OneOk(s, slots, ts', ExtOp(|ts|, |outs|, op, args));
  }

  // ----- arrays -----

  lemma NewArrayTyped(s: Setting, slots: seq<Ty>, ts: seq<RTy>, elem: Ty, vs: seq<Operand>) returns (ts': seq<RTy>)
    requires AllHave(s, ts, vs, seq(|vs|, _ => elem))
    ensures PieceTyped(s, slots, ts, NewArrayPiece(|vs|, vs, |ts|), [Arr(|vs|, elem)], ts')
  {
    var t := ValueOf(Arr(|vs|, elem));
    UndefArray(s.w, |vs|, elem);
    hide ConstHas;
    ts' := InsertsOk(s, slots, ts, Const(LArr(Undefs(|vs|))), t, vs, seq(|vs|, _ => ValueOf(elem)), 0);
  }

  lemma UndefArray(w: World, n: nat, elem: Ty)
    ensures ConstHas(w, LArr(Undefs(n)), ValueOf(Arr(n, elem)))
  {
  }

  /** A spilled array of `n` elements, of type `e`. */
  lemma SpillTyped(s: Setting, slots: seq<Ty>, ts: seq<RTy>, v: Operand, n: nat, e: Ty)
    requires Has(s, ts, v, ValueOf(Arr(n, e)))
    ensures LineOk(s, slots, ts + [PtrTo(e)], SpillLine(v, n, |ts|))
  {
    hide ConstHas;
    var ts' := ts + [PtrTo(e)];
    assert Has(s, ts', Reg(|ts|), PtrTo(e)) && Has(s, ts', v, ValueOf(Arr(n, e)));
    assert InstrOk(s, slots, ts', StoreArray(Reg(|ts|), v)) && InstrOk(s, slots, ts', AllocaArray(|ts|, n));
  }

  /** What an access leaves when it succeeds. */
  function TakenTys(op: ArrayOp, elem: Ty, size: nat): seq<Ty>
    requires op.GetOp? || op.SetOp? || op.SwapOp?
  {
    match op
    case GetOp => [elem]
    case SetOp => [elem, Arr(size, elem)]
    case SwapOp => [Arr(size, elem)]
  }

  lemma FieldsTyped(s: Setting, slots: seq<Ty>, ts: seq<RTy>, op: ArrayOp, elem: Ty, size: nat, vals: seq<Operand>)
    returns (ts': seq<RTy>)
    requires IsAccess(op, |vals|) && AllHave(s, ts, vals, ArrayIns(op, elem, size))
    requires |ts| > 0 && ts[|ts| - 1] == PtrTo(elem)
    ensures PieceTyped(s, slots, ts, AccessFields(op, size, vals, |ts| - 1), TakenTys(op, elem, size), ts')
  {
    hide ConstHas;
    var p, n := AccessFields(op, size, vals, |ts| - 1), |ts|;
    var v, a := ValueOf(elem), ValueOf(Arr(size, elem));
    match op {
      case GetOp => ts' := ts + [PtrTo(elem), v];
      case SetOp => ts' := ts + [PtrTo(elem), v, a];
      case SwapOp => ts' := ts + [PtrTo(elem), v, PtrTo(elem), v, a];
    }
    assert Has(s, ts', Reg(n - 1), PtrTo(elem)) && Has(s, ts', Reg(n), PtrTo(elem)) && Has(s, ts', Reg(n + 1), v);
    assert Has(s, ts', vals[1], ValueOf(Usize));
    forall i | 0 <= i < |p.line| ensures InstrOk(s, slots, ts', p.line[i]) {
      if op.SetOp? { assert Has(s, ts', vals[2], v); }
      if op.SwapOp? {
        assert Has(s, ts', vals[2], ValueOf(Usize));
        assert Has(s, ts', Reg(n + 2), PtrTo(elem)) && Has(s, ts', Reg(n + 3), v);
      }
    }
  }

  lemma PopTyped(s: Setting, slots: seq<Ty>, ts: seq<RTy>, left: bool, elem: Ty, size: nat) returns (ts': seq<RTy>)
    requires size > 0 && |ts| > 0 && ts[|ts| - 1] == PtrTo(elem)
    ensures PieceTyped(s, slots, ts, PopFields(size, left, |ts| - 1), [elem, Arr(size - 1, elem)], ts')
  {
    var p, n := PopFields(size, left, |ts| - 1), |ts|;
    ts' := ts + [PtrTo(elem), ValueOf(elem), ValueOf(Arr(size - 1, elem))];
    assert Has(s, ts', Reg(n - 1), PtrTo(elem)) && Has(s, ts', Reg(n), PtrTo(elem));
    assert Has(s, ts', Const(LInt(if left then 1 else size - 1)), Int32);
  }

  /** Spilling an array, computing fields from it, and putting them into variant 1. */
  lemma SuccessTyped(s: Setting, slots: seq<Ty>, ts: seq<RTy>, rows: seq<Row>, v: Operand, size: nat, elem: Ty,
                     p: Piece, mid: seq<RTy>) returns (ts': seq<RTy>)
    requires Has(s, ts, v, ValueOf(Arr(size, elem))) && |rows| == 2
    requires PieceTyped(s, slots, ts + [PtrTo(elem)], p, rows[1].tys, mid)
    ensures SuccessPiece(rows, v, size, p, |ts|).Some?
    ensures PieceTyped(s, slots, ts, SuccessPiece(rows, v, size, p, |ts|).value, [Sum(rows)], ts')
  {
    hide TagPiece, ConstHas, SpillLine;
    var spill := SpillLine(v, size, |ts|);
    SpillTyped(s, slots, ts, v, size, elem);
    ts' := TagTyped(s, slots, mid, rows, 1, p.vals);
    var q := TagPiece(rows, 1, p.vals, |mid|).value;
    LineMore(s, slots, ts + [PtrTo(elem)], slots, ts', spill);
    LineMore(s, slots, mid, slots, ts', p.line);
    LineConcat(s, slots, ts', spill, p.line);
    LineConcat(s, slots, ts', spill + p.line, q.line);
  }

  lemma AccessTyped(s: Setting, slots: seq<Ty>, ts: seq<RTy>, op: ArrayOp, elem: Ty, size: nat, vals: seq<Operand>)
    returns (ts': seq<RTy>)
    requires IsAccess(op, |vals|) && AllHave(s, ts, vals, ArrayIns(op, elem, size))
    ensures var rows := ArrayRows(op, elem, size); var p := AccessPiece(op, rows, size, vals, |ts|);
      p.Some? && PieceTyped(s, slots, ts, p.value, [Sum(rows)], ts')
  {
    hide ConstHas, SuccessPiece, AccessFields, PieceTyped;
    var ts1 := ts + [PtrTo(elem)];
    HaveMore(s, ts, ts1, vals, ArrayIns(op, elem, size));
    var mid := FieldsTyped(s, slots, ts1, op, elem, size, vals);
    assert Has(s, ts, vals[0], ValueOf(ArrayIns(op, elem, size)[0]));
    ts' := SuccessTyped(s, slots, ts, ArrayRows(op, elem, size), vals[0], size, elem,
                        AccessFields(op, size, vals, |ts|), mid);
  }

  lemma RefusedTyped(s: Setting, slots: seq<Ty>, ts: seq<RTy>, op: ArrayOp, elem: Ty, size: nat, vals: seq<Operand>)
    returns (ts': seq<RTy>)
    requires IsAccess(op, |vals|) && AllHave(s, ts, vals, ArrayIns(op, elem, size))
    ensures var rows := ArrayRows(op, elem, size); var p := TagPiece(rows, 0, HandedBack(op, vals), |ts|);
      p.Some? && PieceTyped(s, slots, ts, p.value, [Sum(rows)], ts')
  {
    hide ConstHas, TagPiece, PieceTyped;
    ts' := TagTyped(s, slots, ts, ArrayRows(op, elem, size), 0, HandedBack(op, vals));
  }

  lemma PoppedTyped(s: Setting, slots: seq<Ty>, ts: seq<RTy>, left: bool, elem: Ty, size: nat, v: Operand)
    returns (ts': seq<RTy>)
    requires Has(s, ts, v, ValueOf(Arr(size, elem)))
    ensures var rows := ArrayRows(PopOp(left), elem, size); var p := PoppedPiece(rows, left, size, v, |ts|);
      p.Some? && PieceTyped(s, slots, ts, p.value, [Sum(rows)], ts')
  {
    hide ConstHas, TagPiece, SuccessPiece, PopFields, PieceTyped;
    var rows := ArrayRows(PopOp(left), elem, size);
    if size == 0 {
      ts' := TagTyped(s, slots, ts, rows, 0, []);
    } else {
      var mid := PopTyped(s, slots, ts + [PtrTo(elem)], left, elem, size);
      ts' := SuccessTyped(s, slots, ts, rows, v, size, elem, PopFields(size, left, |ts|), mid);
    }
  }

  lemma GuardTyped(s: Setting, slots: seq<Ty>, ts: seq<RTy>, op: ArrayOp, elem: Ty, size: nat, vals: seq<Operand>)
    returns (ts': seq<RTy>)
    requires IsAccess(op, |vals|) && AllHave(s, ts, vals, ArrayIns(op, elem, size))
    ensures var g := GuardPiece(op, size, vals, |ts|);
      && ts <= ts' && |ts'| == g.next && LineOk(s, slots, ts', g.line) && Has(s, ts', g.vals[0], Flag)
  {
    hide ConstHas;
    ts' := ts + if op.SwapOp? then [Flag, Flag, Flag] else [Flag];
    assert Has(s, ts', vals[1], ValueOf(Usize));
    if op.SwapOp? { assert Has(s, ts', vals[2], ValueOf(Usize)); }
  }
}
