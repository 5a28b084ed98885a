/** What every emission step keeps: mailboxes stay put, code is only ever appended, and each block that is
    left behind ends in its only terminator. */
module EmitLaws {
  import opened Values
  import opened Machine
  import opened Hugr
  import opened Arrays
  import opened Types
  import opened Builder
  import opened Emit

  // ----- blocks -----

  predicate Open(b: Block) {
    true == (
    forall i :: 0 <= i < |b| ==> !IsTerminator(b[i]))
  }

  /** Exactly one terminator, in last position. */
  predicate Closed(b: Block) {
    true == (
    |b| > 0 && IsTerminator(b[|b| - 1]) && Open(b[..|b| - 1]))
  }

  /** Jumps stay inside the function and never enter its first block. */
  predicate JumpOk(i: Instr, n: nat) {
    match i
    case Br(b) => 0 < b < n
    case CondBr(_, b, c) => 0 < b < n && 0 < c < n
    case Switch(_, d, cases) => 0 < d < n && forall k :: 0 <= k < |cases| ==> 0 < cases[k].1 < n
    case _ => true
  }

  predicate JumpsOk(b: Block, n: nat) {
    forall i :: 0 <= i < |b| ==> JumpOk(b[i], n)
  }

  function Allocas(slots: seq<Ty>): (b: Block)
    ensures |b| == |slots| && forall i :: 0 <= i < |b| ==> b[i] == Alloca(i, slots[i])
  {
    seq(|slots|, i requires 0 <= i < |slots| => Alloca(i, slots[i]))
  }

  // ----- invariants -----

  predicate LayoutOk(st: ES) {
    && |st.order| == |st.code| && |st.order| > 0 && st.order[0] == 0
    && forall b :: 0 <= b < |st.code| ==> b in st.order
  }

  /** Each wire has its own mailbox. */
  predicate EnvOk(env: map<Wire, nat>, n: nat) {
    && (forall w :: w in env ==> env[w] < n)
    && (forall w, w' :: w in env && w' in env && env[w] == env[w'] ==> w == w')
  }

  predicate Inv(st: ES) {
    true == (
    && !st.failed
    && 1 <= st.cur < |st.code|
    && st.code[0] == Allocas(st.slots)
    && EnvOk(st.env, |st.slots|)
    && LayoutOk(st)
    && forall b :: 0 <= b < |st.code| ==> JumpsOk(st.code[b], |st.code|))
  }

  predicate Mapped(ws: seq<Wire>, env: map<Wire, nat>) {
    true == (
    forall w :: w in ws ==> w in env)
  }

  /** `b` is a later state than `a`. */
  ghost predicate Later(a: ES, b: ES) {
    true == (
    && |a.code| <= |b.code| && (forall i :: 0 <= i < |a.code| ==> a.code[i] <= b.code[i])
    && a.slots <= b.slots && a.regs <= b.regs
    && (forall w :: w in a.env ==> w in b.env && b.env[w] == a.env[w])
    && (forall w :: w in b.env && w !in a.env ==> b.env[w] >= |a.slots|)
    && a.todo <= b.todo && a.refs <= b.refs)
  }

  /** Of the blocks of `a` other than the alloca block, only those in `m` have changed. */
  ghost predicate Mod(a: ES, b: ES, m: set<nat>) {
    true == (
    Later(a, b) && forall i :: 0 < i < |a.code| && i !in m ==> b.code[i] == a.code[i])
  }

  /** All blocks from `lo` on are closed, except those still pending. */
  ghost predicate Shut(b: ES, lo: nat, pending: set<nat>) {
    true == (
    forall i :: lo <= i < |b.code| && i !in pending ==> Closed(b.code[i]))
  }

  /** Emission at the builder: only the builder's block is appended to, the builder may have moved on to a new
      block, and then every other new block and the one it left are complete. */
  ghost predicate Emits(a: ES, b: ES) {
    true == (
    && Inv(b) && Mod(a, b, {a.cur})
    && (b.cur == a.cur || (b.cur >= |a.code| && a.cur < |b.code| && Closed(b.code[a.cur])))
    && Open(b.code[b.cur]) && Shut(b, |a.code|, {b.cur}))
  }

  /** Emission elsewhere: new, complete blocks only. */
  ghost predicate Aside(a: ES, b: ES) {
    Inv(b) && Mod(a, b, {}) && Shut(b, |a.code|, {})
  }

  predicate Ready(st: ES) {
    true == (
    Inv(st) && Open(st.code[st.cur]))
  }

  lemma LaterTrans(a: ES, b: ES, c: ES)
    requires Later(a, b) && Later(b, c)
    ensures Later(a, c)
  {
    forall i | 0 <= i < |a.code| ensures a.code[i] <= c.code[i] {
      assert a.code[i] <= b.code[i] <= c.code[i];
    }
  }

  lemma LaterPrefix(t: ES, fin: ES, b: nat)
    requires Later(t, fin) && b < |t.code|
    ensures b < |fin.code| && t.code[b] <= fin.code[b]
  {
  }

  lemma EmitsTrans(a: ES, b: ES, c: ES)
    requires Inv(a) && Emits(a, b) && Emits(b, c)
    ensures Emits(a, c)
  {
    LaterTrans(a, b, c);
  }

  lemma AsideTrans(a: ES, b: ES, c: ES)
    requires Inv(a) && Aside(a, b) && Aside(b, c)
    ensures Aside(a, c)
  {
    LaterTrans(a, b, c);
  }

  lemma AsideSame(st: ES)
    requires Inv(st)
    ensures Aside(st, st)
  {
  }

  // ----- primitive edits -----

  lemma PutPut(st: ES, a: seq<Instr>, n: nat, b: seq<Instr>, m: nat)
    requires st.cur < |st.code|
    ensures Put(Put(st, a, n), b, m) == Put(st, a + b, m)
  {
    assert st.code[st.cur] + a + b == st.code[st.cur] + (a + b);
  }

  lemma OpenConcat(a: Block, b: Block)
    requires Open(a) && Open(b)
    ensures Open(a + b)
  {
  }

  lemma PutEmits(st: ES, line: seq<Instr>, next: nat)
    requires Ready(st) && Open(line) && st.regs <= next
    ensures Emits(st, Put(st, line, next)) && Put(st, line, next).cur == st.cur
    ensures Put(st, line, next).code[st.cur] == st.code[st.cur] + line
    ensures Put(st, line, next).env == st.env && Put(st, line, next).slots == st.slots
    ensures |Put(st, line, next).code| == |st.code|
  {
    var t := Put(st, line, next);
    OpenConcat(st.code[st.cur], line);
    forall b | 0 <= b < |t.code| ensures JumpsOk(t.code[b], |t.code|) {
      assert JumpsOk(st.code[b], |st.code|);
    }
  }

  /** Adding a terminator at the builder closes its block. */
  lemma TerminateCloses(st: ES, i: Instr)
    requires Ready(st) && IsTerminator(i) && JumpOk(i, |st.code|)
    ensures var t := Terminate(st, i);
      && Inv(t) && Mod(st, t, {st.cur}) && t.cur == st.cur && |t.code| == |st.code|
      && t.code[st.cur] == st.code[st.cur] + [i] && Closed(t.code[st.cur])
      && t.env == st.env && t.slots == st.slots && t.regs == st.regs
  {
    var t := Terminate(st, i);
    var b := t.code[st.cur];
    assert b[..|b| - 1] == st.code[st.cur];
    forall b | 0 <= b < |t.code| ensures JumpsOk(t.code[b], |t.code|) {
      assert JumpsOk(st.code[b], |st.code|);
    }
  }

  lemma AllocEmits(st: ES, ty: Ty)
    requires Inv(st)
    ensures var t := Alloc(st, ty);
      && Inv(t) && Mod(st, t, {}) && t.cur == st.cur && |t.code| == |st.code|
      && t.slots == st.slots + [ty] && t.env == st.env && t.regs == st.regs
  {
    var t := Alloc(st, ty);
    assert t.code[0] == Allocas(t.slots);
    forall b | 0 <= b < |t.code| ensures JumpsOk(t.code[b], |t.code|) {
      assert JumpsOk(st.code[b], |st.code|);
    }
  }

  /** Allocation leaves everything but the slots, the alloca block and the map alone. */
  ghost predicate Allocated(a: ES, b: ES) {
    && Inv(b) && Mod(a, b, {}) && b.cur == a.cur && |b.code| == |a.code| && b.regs == a.regs
    && a.slots <= b.slots
  }

  lemma AllocatedTrans(a: ES, b: ES, c: ES)
    requires Allocated(a, b) && Allocated(b, c)
    ensures Allocated(a, c)
  {
    LaterTrans(a, b, c);
  }

  lemma {:induction false} NewRowAllocates(st: ES, tys: seq<Ty>)
    requires Inv(st)
    ensures Allocated(st, NewRow(st, tys)) && NewRow(st, tys).env == st.env
    ensures |NewRow(st, tys).slots| == |st.slots| + |tys|
    decreases tys
  {
    if tys != [] {
      AllocEmits(st, tys[0]);
      var s := Alloc(st, tys[0]);
      NewRowAllocates(s, tys[1..]);
      AllocatedTrans(st, s, NewRow(st, tys));
    }
  }

  lemma MapWireAllocates(st: ES, w: Wire, ty: Ty)
    requires Inv(st)
    ensures Allocated(st, MapWire(st, w, ty)) && w in MapWire(st, w, ty).env
    ensures forall v :: v in MapWire(st, w, ty).env ==> v in st.env || v == w
  {
    AllocEmits(st, ty);
  }

  lemma {:induction false} MapWiresAllocates(st: ES, ws: seq<Wire>, tys: seq<Ty>)
    requires Inv(st) && |ws| == |tys|
    ensures Allocated(st, MapWires(st, ws, tys))
    ensures forall w :: w in ws ==> w in MapWires(st, ws, tys).env
    ensures forall v :: v in MapWires(st, ws, tys).env ==> v in st.env || v in ws
    decreases ws
  {
    if ws != [] {
      MapWireAllocates(st, ws[0], tys[0]);
      var s := MapWire(st, ws[0], tys[0]);
      MapWiresAllocates(s, ws[1..], tys[1..]);
      AllocatedTrans(st, s, MapWires(st, ws, tys));
      forall w | w in ws ensures w in MapWires(st, ws, tys).env {
        assert w == ws[0] || w in ws[1..];
      }
    }
  }

  lemma AllocatedEmits(a: ES, b: ES)
    requires Ready(a) && Allocated(a, b)
    ensures Emits(a, b) && b.code[a.cur] == a.code[a.cur]
  {
  }

  lemma InsertAtLayout(order: seq<nat>, i: nat, b: nat)
    requires |order| > 0 && i > 0
    ensures |InsertAt(order, i, b)| == |order| + 1 && InsertAt(order, i, b)[0] == order[0]
    ensures b in InsertAt(order, i, b) && forall x :: x in order ==> x in InsertAt(order, i, b)
  {
    var r := InsertAt(order, i, b);
    if i <= |order| {
      assert r[i] == b;
      forall x | x in order ensures x in r {
        var k :| 0 <= k < |order| && order[k] == x;
        assert x == if k < i then r[k] else r[k + 1];
      }
    } else {
      assert r[|order|] == b;
    }
  }

  /** A new block is placed behind the alloca block wherever it goes. */
  lemma NewBlockLaws(st: ES, wh: Where)
    requires Inv(st) && (wh.Before? ==> wh.b != 0)
    ensures var t := NewBlock(st, wh);
      && Inv(t) && Mod(st, t, {}) && t.cur == st.cur && |t.code| == |st.code| + 1 && t.code[|st.code|] == []
      && t.env == st.env && t.slots == st.slots && t.regs == st.regs
      && (forall i :: 0 <= i < |st.code| ==> t.code[i] == st.code[i])
  {
    var t := NewBlock(st, wh);
    var b := |st.code|;
    match wh {
      case AtEnd => InsertAtLayout(st.order, |st.order|, b); assert t.order == InsertAt(st.order, |st.order|, b);
      case Before(x) => InsertAtLayout(st.order, IndexOf(st.order, x), b);
      case After(x) => InsertAtLayout(st.order, IndexOf(st.order, x) + 1, b);
    }
    forall i | 0 <= i < |t.code| ensures JumpsOk(t.code[i], |t.code|) {
      if i < b {
        assert JumpsOk(st.code[i], |st.code|);
      }
    }
  }

  lemma AtLaws(st: ES, b: nat)
    requires Inv(st) && 1 <= b < |st.code|
    ensures Inv(At(st, b)) && Mod(st, At(st, b), {})
  {
  }

  // ----- straight-line code is open -----

  lemma {:induction false} LoadLineOpen(row: seq<nat>, next: nat)
    ensures Open(LoadLine(row, next))
    decreases row
  {
    if row != [] { LoadLineOpen(row[1..], next + 1); }
  }

  lemma {:induction false} StoreLineOpen(row: seq<nat>, vals: seq<Operand>)
    ensures Open(StoreLine(row, vals))
    decreases row
  {
    if row != [] && vals != [] { StoreLineOpen(row[1..], vals[1..]); }
  }

  lemma {:induction false} InsertLineOpen(agg: Operand, vs: seq<Operand>, i: nat, next: nat)
    ensures Open(InsertLine(agg, vs, i, next))
    decreases vs
  {
    if vs != [] { InsertLineOpen(Reg(next), vs[1..], i + 1, next + 1); }
  }

  lemma {:induction false} ExtractLineOpen(agg: Operand, n: nat, i: nat, next: nat)
    ensures Open(ExtractLine(agg, n, i, next))
    decreases n
  {
    if n != 0 { ExtractLineOpen(agg, n - 1, i + 1, next + 1); }
  }

  ghost predicate PieceOk(p: Piece, next: nat, n: nat) {
    Open(p.line) && next <= p.next && |p.vals| == n
  }

  lemma TagPieceOk(rows: seq<Row>, tag: nat, vs: seq<Operand>, next: nat)
    requires tag < |rows| && |vs| == |rows[tag].tys|
    ensures TagPiece(rows, tag, vs, next).Some? && PieceOk(TagPiece(rows, tag, vs, next).value, next, 1)
  {
    InsertLineOpen(Const(LStruct(seq(|vs|, _ => Undef))), vs, 0, next);
  }

  lemma UntagPieceOk(rows: seq<Row>, tag: nat, v: Operand, next: nat)
    requires tag < |rows|
    ensures PieceOk(UntagPiece(rows, tag, v, next), next, |rows[tag].tys|)
  {
    ExtractLineOpen(Reg(next), |rows[tag].tys|, 0, next + 1);
  }

  lemma CallPieceOk(callee: Operand, args: seq<Operand>, n: nat, next: nat)
    ensures PieceOk(CallPiece(callee, args, n, next), next, n)
  {
    ExtractLineOpen(Reg(next), n, 0, next + 1);
  }

  lemma {:induction false} ConstPieceOk(v: Val, next: nat)
    requires ValidConst(v)
    ensures ConstPiece(v, next).Some? && PieceOk(ConstPiece(v, next).value, next, 1)
    decreases v, 1
  {
    if v.SumV? {
      ConstsPieceOk(v.vals, next);
      var p := ConstsPiece(v.vals, next).value;
      TagPieceOk(v.rows, v.tag, p.vals, p.next);
      OpenConcat(p.line, TagPiece(v.rows, v.tag, p.vals, p.next).value.line);
    }
  }

  lemma {:induction false} ConstsPieceOk(vs: seq<Val>, next: nat)
    requires ValidConsts(vs)
    ensures ConstsPiece(vs, next).Some? && PieceOk(ConstsPiece(vs, next).value, next, |vs|)
    decreases vs, 0
  {
    if vs != [] {
      ConstPieceOk(vs[0], next);
      var p := ConstPiece(vs[0], next).value;
      ConstsPieceOk(vs[1..], p.next);
      OpenConcat(p.line, ConstsPiece(vs[1..], p.next).value.line);
    }
  }

  lemma ReadRowEmits(st: ES, row: seq<nat>)
    requires Ready(st)
    ensures var t := PutPiece(st, ReadRow(row, st.regs));
      && Emits(st, t) && t.cur == st.cur && t.env == st.env && t.slots == st.slots && |t.code| == |st.code|
      && t.regs == st.regs + |row|
      && t.code[st.cur] == st.code[st.cur] + LoadLine(row, st.regs)
  {
    LoadLineOpen(row, st.regs);
    PutEmits(st, LoadLine(row, st.regs), st.regs + |row|);
  }

  lemma WriteRowEmits(st: ES, row: seq<nat>, vals: seq<Operand>)
    requires Ready(st) && |row| == |vals|
    ensures var t := WriteRow(st, row, vals);
      && Emits(st, t) && t.cur == st.cur && t.env == st.env && t.slots == st.slots && |t.code| == |st.code|
      && t.regs == st.regs && t.code[st.cur] == st.code[st.cur] + StoreLine(row, vals)
  {
    StoreLineOpen(row, vals);
    PutEmits(st, StoreLine(row, vals), st.regs);
  }

  // ----- branching on a sum -----

  predicate TargetsOk(rows: seq<Row>, targets: seq<Target>, nRest: nat, n: nat) {
    && |targets| == |rows|
    && forall i :: 0 <= i < |rows| ==> |targets[i].row| == |rows[i].tys| + nRest && 0 < targets[i].blk < n
  }

  /** The block of one arm, up to its final jump. */
  function Arm(st: ES, rows: seq<Row>, v: Operand, rest: seq<Operand>, t: Target, i: nat, last: nat): ES
    requires i < |rows|
  {
    var s := At(NewBlock(st, After(last)), |st.code|);
    var p := UntagPiece(rows, i, v, s.regs);
    WriteRow(PutPiece(s, p), t.row, p.vals + rest)
  }

  lemma ArmLaws(st: ES, rows: seq<Row>, v: Operand, rest: seq<Operand>, t: Target, i: nat, last: nat)
    requires Inv(st) && i < |rows| && |t.row| == |rows[i].tys| + |rest| && 0 < t.blk < |st.code|
    ensures var s := Arm(st, rows, v, rest, t, i, last);
      && Ready(s) && Mod(st, s, {}) && s.cur == |st.code| && |s.code| == |st.code| + 1
      && s.env == st.env && s.slots == st.slots
      && s.code[s.cur] == UntagPiece(rows, i, v, st.regs).line
                          + StoreLine(t.row, UntagPiece(rows, i, v, st.regs).vals + rest)
  {
    NewBlockLaws(st, After(last));
    var s := At(NewBlock(st, After(last)), |st.code|);
    var p := UntagPiece(rows, i, v, s.regs);
    UntagPieceOk(rows, i, v, s.regs);
    PutEmits(s, p.line, p.next);
    assert s.code[s.cur] + p.line == p.line;
    WriteRowEmits(PutPiece(s, p), t.row, p.vals + rest);
  }

  lemma ArmCloses(st: ES, rows: seq<Row>, v: Operand, rest: seq<Operand>, t: Target, i: nat, last: nat)
    requires Inv(st) && i < |rows| && |t.row| == |rows[i].tys| + |rest| && 0 < t.blk < |st.code|
    ensures var s := Terminate(Arm(st, rows, v, rest, t, i, last), Br(t.blk));
      Aside(st, s) && |s.code| == |st.code| + 1 && s.env == st.env && s.slots == st.slots
  {
    var s := Arm(st, rows, v, rest, t, i, last);
    ArmLaws(st, rows, v, rest, t, i, last);
    TerminateCloses(s, Br(t.blk));
    LaterTrans(st, s, Terminate(s, Br(t.blk)));
  }

  lemma {:induction false} ArmsLaws(st: ES, rows: seq<Row>, v: Operand, rest: seq<Operand>, targets: seq<Target>,
                                    i: nat, last: nat)
    requires Inv(st) && i <= |rows| && TargetsOk(rows, targets, |rest|, |st.code|)
    ensures var r := Arms(st, rows, v, rest, targets, i, last);
      && Aside(st, r.0) && |r.0.code| == |st.code| + |rows| - i
      && r.0.env == st.env && r.0.slots == st.slots
    decreases |rows| - i
  {
    if i < |rows| {
      ArmCloses(st, rows, v, rest, targets[i], i, last);
      var s := Terminate(Arm(st, rows, v, rest, targets[i], i, last), Br(targets[i].blk));
      ArmsLaws(s, rows, v, rest, targets, i + 1, |st.code|);
      AsideTrans(st, s, Arms(s, rows, v, rest, targets, i + 1, |st.code|).0);
    }
  }

  /** Switch cases for `n` consecutive tags and blocks. */
  function CaseList(tag: nat, blk: nat, n: nat): (cs: seq<(int, nat)>)
    ensures |cs| == n
    decreases n
  {
    if n == 0 then [] else [(tag, blk)] + CaseList(tag + 1, blk + 1, n - 1)
  }

  lemma {:induction false} CaseListAt(tag: nat, blk: nat, n: nat, k: nat)
    requires k < n
    ensures CaseList(tag, blk, n)[k].1 == blk + k
    decreases n
  {
    if k > 0 { CaseListAt(tag + 1, blk + 1, n - 1, k - 1); }
  }

  lemma ArmCount(st: ES, rows: seq<Row>, v: Operand, rest: seq<Operand>, t: Target, i: nat, last: nat)
    requires i < |rows|
    ensures |Terminate(Arm(st, rows, v, rest, t, i, last), Br(t.blk)).code| == |st.code| + 1
  {
  }

  lemma {:induction false} ArmsCases(st: ES, rows: seq<Row>, v: Operand, rest: seq<Operand>, targets: seq<Target>,
                                     i: nat, last: nat)
    requires i <= |rows| == |targets|
    ensures Arms(st, rows, v, rest, targets, i, last).1 == CaseList(i, |st.code|, |rows| - i)
    decreases |rows| - i
  {
    if i < |rows| {
      hide Arms, Arm, Terminate;
      ArmCount(st, rows, v, rest, targets[i], i, last);
      ArmsFrom(st, rows, v, rest, targets, i, last);
      var s := Terminate(Arm(st, rows, v, rest, targets[i], i, last), Br(targets[i].blk));
      ArmsCases(s, rows, v, rest, targets, i + 1, |st.code|);
    }
  }

  lemma ArmsFrom(st: ES, rows: seq<Row>, v: Operand, rest: seq<Operand>, targets: seq<Target>, i: nat, last: nat)
    requires i < |rows| == |targets|
    ensures var s := Terminate(Arm(st, rows, v, rest, targets[i], i, last), Br(targets[i].blk));
      Arms(st, rows, v, rest, targets, i, last).1
      == [(i, |st.code|)] + Arms(s, rows, v, rest, targets, i + 1, |st.code|).1
  {
    hide UntagPiece, WriteRow, PutPiece, NewBlock, Terminate;
  }

  lemma SwitchOk(tag: Operand, blk: nat, k: nat, n: nat)
    requires 0 < blk && 0 < k && blk + k <= n
    ensures var cs := CaseList(0, blk, k); JumpOk(Switch(tag, cs[0].1, cs[1..]), n)
  {
    forall i | 0 <= i < k ensures CaseList(0, blk, k)[i].1 == blk + i { CaseListAt(0, blk, k, i); }
  }

  /** Straight-line code and a terminator at the builder. */
  lemma PutTerminate(st: ES, line: seq<Instr>, next: nat, i: Instr)
    requires Ready(st) && Open(line) && st.regs <= next && IsTerminator(i) && JumpOk(i, |st.code|)
    ensures var t := Terminate(Put(st, line, next), i);
      && Inv(t) && Mod(st, t, {st.cur}) && t.cur == st.cur && |t.code| == |st.code| && Closed(t.code[st.cur])
      && t.env == st.env && t.slots == st.slots && t.code[st.cur] == st.code[st.cur] + line + [i]
  {
    PutEmits(st, line, next);
    TerminateCloses(Put(st, line, next), i);
    LaterTrans(st, Put(st, line, next), Terminate(Put(st, line, next), i));
  }

  lemma ModTrans(a: ES, b: ES, c: ES, m: set<nat>)
    requires Mod(a, b, m) && Mod(b, c, m)
    ensures Mod(a, c, m)
  {
    LaterTrans(a, b, c);
  }

  lemma GetTagPieceOk(rows: seq<Row>, v: Operand, next: nat)
    ensures PieceOk(GetTagPiece(rows, v, next), next, 1)
  {
  }

  lemma {:induction false} DestructureLaws(st: ES, rows: seq<Row>, v: Operand, rest: seq<Operand>, targets: seq<Target>)
    requires Ready(st) && rows != [] && TargetsOk(rows, targets, |rest|, |st.code|)
    ensures var t := Destructure(st, rows, v, rest, targets);
      && Inv(t) && Mod(st, t, {st.cur}) && t.cur == st.cur && Closed(t.code[st.cur]) && Shut(t, |st.code|, {})
      && t.env == st.env && t.slots == st.slots
  {
    hide Arms, LayoutOk, EnvOk, JumpsOk, GetTagPiece, CaseList;
    ArmsLaws(st, rows, v, rest, targets, 0, st.cur);
    ArmsCases(st, rows, v, rest, targets, 0, st.cur);
    var r := Arms(st, rows, v, rest, targets, 0, st.cur);
    var s := At(r.0, st.cur);
    AtLaws(r.0, st.cur);
    assert Ready(s) by { assert s.code[st.cur] == st.code[st.cur]; }
    var p := GetTagPiece(rows, v, s.regs);
    GetTagPieceOk(rows, v, s.regs);
    SwitchOk(p.vals[0], |st.code|, |rows|, |s.code|);
    PutTerminate(s, p.line, p.next, Switch(p.vals[0], r.1[0].1, r.1[1..]));
    ModTrans(st, s, Destructure(st, rows, v, rest, targets), {st.cur});
  }

  // ----- nodes -----

  lemma PreludeEmits(st: ES, n: Node)
    requires Ready(st) && |n.ins| == |n.inTys|
    ensures var s := Prelude(st, n);
      && Emits(st, s) && s.cur == st.cur && s.regs == st.regs + |n.ins| && |s.code| == |st.code|
      && Mapped(OutWires(n.id, |n.outs|), s.env) && Mapped(n.ins, s.env)
      && s.code[st.cur] == st.code[st.cur] + LoadLine(RowOf(s.env, n.ins), st.regs)
  {
    MapWiresAllocates(st, n.ins, n.inTys);
    var s1 := MapWires(st, n.ins, n.inTys);
    AllocatedEmits(st, s1);
    ReadRowEmits(s1, RowOf(s1.env, n.ins));
    var s2 := PutPiece(s1, ReadRow(RowOf(s1.env, n.ins), s1.regs));
    EmitsTrans(st, s1, s2);
    MapWiresAllocates(s2, OutWires(n.id, |n.outs|), n.outs);
    var s3 := Prelude(st, n);
    AllocatedEmits(s2, s3);
    EmitsTrans(st, s2, s3);
    assert RowOf(s1.env, n.ins) == RowOf(s3.env, n.ins);
  }

  lemma FinishEmits(st: ES, p: Piece, outs: seq<nat>)
    requires Ready(st) && PieceOk(p, st.regs, |outs|)
    ensures Finish(st, Some(p), outs) == Put(st, p.line + StoreLine(outs, p.vals), p.next)
    ensures Emits(st, Finish(st, Some(p), outs))
  {
    PutPut(st, p.line, p.next, StoreLine(outs, p.vals), p.next);
    StoreLineOpen(outs, p.vals);
    OpenConcat(p.line, StoreLine(outs, p.vals));
    PutEmits(st, p.line + StoreLine(outs, p.vals), p.next);
  }

  lemma {:induction false} EmitNodesLaws(st: ES, nodes: seq<Node>, inputs: seq<Operand>, promise: seq<nat>,
                                         ws: seq<Wire>)
    requires Ready(st) && ValidNodes(nodes, |inputs|, ws) && |promise| == |ws|
    ensures Emits(st, EmitNodes(st, nodes, inputs, promise))
    decreases nodes, 0
  {
    if nodes != [] {
      EmitNodeLaws(st, nodes[0], inputs, promise, ws);
      var s := EmitNode(st, nodes[0], inputs, promise);
      EmitNodesLaws(s, nodes[1..], inputs, promise, ws);
      EmitsTrans(st, s, EmitNodes(s, nodes[1..], inputs, promise));
    }
  }

  lemma {:induction false} EmitNodeLaws(st: ES, n: Node, inputs: seq<Operand>, promise: seq<nat>, ws: seq<Wire>)
    requires Ready(st) && ValidNode(n, |inputs|, ws) && |promise| == |ws|
    ensures Emits(st, EmitNode(st, n, inputs, promise))
    decreases n, 2
  {
    PreludeEmits(st, n);
    EmitAtLaws(Prelude(st, n), n, Regs(st.regs, |n.ins|), NodeOuts(st, n), inputs, promise, ws);
    EmitsTrans(st, Prelude(st, n), EmitNode(st, n, inputs, promise));
  }

  lemma {:induction false} EmitAtLaws(s: ES, n: Node, vals: seq<Operand>, outs: seq<nat>, inputs: seq<Operand>,
                                      promise: seq<nat>, ws: seq<Wire>)
    requires Ready(s) && ValidNode(n, |inputs|, ws) && |promise| == |ws| && |vals| == |n.ins| && |outs| == |n.outs|
    ensures Emits(s, EmitAt(s, n, vals, outs, inputs, promise))
    decreases n, 1
  {
    match n.op {
      case Input => WriteRowEmits(s, outs, inputs);
      case Output => WriteRowEmits(s, promise, vals);
      case _ => EmitOpLaws(s, n, |inputs|, vals, outs, ws);
    }
  }

  lemma {:induction false} EmitOpLaws(st: ES, n: Node, nIn: nat, vals: seq<Operand>, outs: seq<nat>, ws: seq<Wire>)
    requires Ready(st) && ValidNode(n, nIn, ws) && !n.op.Input? && !n.op.Output?
    requires |vals| == |n.ins| && |outs| == |n.outs|
    ensures Emits(st, EmitOp(st, n, vals, outs))
    decreases n, 0
  {
    match n.op {
      case Tag(tag, rows) =>
        TagPieceOk(rows, tag, vals, st.regs);
        AskedFinish(st, {NeedType(Sum(rows))}, TagPiece(rows, tag, vals, st.regs).value, outs);
      case Ext(op) =>
        var k := |outs|;
        AskedFinish(st, {NeedOp(op)}, Piece([ExtOp(st.regs, k, op, vals)], st.regs + k, Regs(st.regs, k)), outs);
      case Array(op, elem, size) => ArrayLaws(st, op, elem, size, vals, outs);
      case LoadConst(v) =>
        ConstPieceOk(v, st.regs);
        AskedFinish(st, ConstNeeds(v), ConstPiece(v, st.regs).value, outs);
      case LoadFunc(f) =>
        RefsEmits(st, f);
        FinishEmits(st.(refs := st.refs + {f}), Piece([], st.regs, [Const(LFn(f))]), outs);
        EmitsTrans(st, st.(refs := st.refs + {f}), EmitOp(st, n, vals, outs));
      case CallFn(f) =>
        RefsEmits(st, f);
        CallPieceOk(Const(LFn(f)), vals, |outs|, st.regs);
        FinishEmits(st.(refs := st.refs + {f}), CallPiece(Const(LFn(f)), vals, |outs|, st.regs), outs);
        EmitsTrans(st, st.(refs := st.refs + {f}), EmitOp(st, n, vals, outs));
      case CallIndirect =>
        CallPieceOk(vals[0], vals[1..], |outs|, st.regs);
        FinishEmits(st, CallPiece(vals[0], vals[1..], |outs|, st.regs), outs);
      case Dfg(nodes) => EmitNodesLaws(st, nodes, vals, outs, RegionOuts(nodes));
      case Cond(rows, cases) =>
        CondLaws(st, rows, cases, vals[0], vals[1..], n.outs, outs);
        AskEmits(st, EmitCond(st, rows, cases, vals[0], vals[1..], n.outs, outs), {NeedType(Sum(rows))});
      case Cfg(children) => CfgLaws(st, children, vals, outs, n.outs);
      case _ =>
    }
  }

  /** Asking for something changes no code. */
  lemma AskEmits(a: ES, b: ES, needs: set<Need>)
    requires Emits(a, b)
    ensures Emits(a, Ask(b, needs)) && Later(b, Ask(b, needs))
  {
  }

  lemma AskReady(st: ES, needs: set<Need>)
    requires Ready(st)
    ensures Ready(Ask(st, needs)) && Emits(st, Ask(st, needs))
  {
  }

  lemma AskedFinish(st: ES, needs: set<Need>, p: Piece, outs: seq<nat>)
    requires Ready(st) && PieceOk(p, st.regs, |outs|)
    ensures Emits(st, Finish(Ask(st, needs), Some(p), outs))
  {
    hide Inv, Emits, PieceOk, Open;
    AskReady(st, needs);
    FinishEmits(Ask(st, needs), p, outs);
    EmitsTrans(st, Ask(st, needs), Finish(Ask(st, needs), Some(p), outs));
  }

  lemma RefsEmits(st: ES, f: NodeId)
    requires Ready(st)
    ensures Ready(st.(refs := st.refs + {f})) && Emits(st, st.(refs := st.refs + {f}))
    ensures Ready(st.(todo := st.todo + {f})) && Emits(st, st.(todo := st.todo + {f}))
  {
  }

  /** A valid region is emitted without error. */
  lemma RegionOnce(st: ES, nodes: seq<Node>, inputs: seq<Operand>, promise: seq<nat>, nIn: nat, nOut: nat)
    requires ValidRegion(nodes, nIn, nOut)
    ensures EmitRegion(st, nodes, inputs, promise) == EmitNodes(st, nodes, inputs, promise)
  {
    hide EmitNodes, ValidNodes, CountOp, RegionIns, RegionOuts;
  }

  // ----- conditionals -----

  lemma CondExitLaws(st: ES, tys: seq<Ty>, outs: seq<nat>)
    requires Ready(st) && |outs| == |tys|
    ensures var s := CondExit(st, tys, outs); var row := FreshRow(|st.slots|, |tys|);
      && Ready(s) && s.cur == st.cur && Mod(st, s, {}) && |s.code| == |st.code| + 1
      && Open(s.code[|st.code|]) && s.env == st.env && |s.slots| == |st.slots| + |tys| && s.regs == st.regs + |tys|
      && s.code[|st.code|] == LoadLine(row, st.regs) + StoreLine(outs, Regs(st.regs, |tys|))
  {
    NewRowAllocates(st, tys);
    var s0 := NewRow(st, tys);
    NewBlockLaws(s0, AtEnd);
    var s1 := At(NewBlock(s0, AtEnd), |st.code|);
    var p := ReadRow(FreshRow(|st.slots|, |tys|), s1.regs);
    ReadRowEmits(s1, FreshRow(|st.slots|, |tys|));
    assert s1.code[s1.cur] + p.line == p.line;
    WriteRowEmits(PutPiece(s1, p), outs, p.vals);
  }

  lemma CaseStartLaws(st: ES, c: Case, exit: nat)
    requires Inv(st) && exit != 0
    ensures var s := CaseStart(st, c, exit); var row := FreshRow(|st.slots|, |RegionIns(c.nodes)|);
      && Ready(s) && s.cur == |st.code| && |s.code| == |st.code| + 1 && Mod(st, s, {}) && s.env == st.env
      && |s.slots| == |st.slots| + |RegionIns(c.nodes)|
      && s.regs == st.regs + |RegionIns(c.nodes)|
      && s.code[s.cur] == LoadLine(row, st.regs)
  {
    var tys := RegionIns(c.nodes);
    NewRowAllocates(st, tys);
    var s0 := NewRow(st, tys);
    NewBlockLaws(s0, Before(exit));
    var s1 := At(NewBlock(s0, Before(exit)), |st.code|);
    ReadRowEmits(s1, FreshRow(|st.slots|, |tys|));
    assert s1.code[s1.cur] + LoadLine(FreshRow(|st.slots|, |tys|), s1.regs)
        == LoadLine(FreshRow(|st.slots|, |tys|), s1.regs);
  }

  lemma {:induction false} EmitCaseLaws(st: ES, c: Case, exitRow: seq<nat>, exit: nat, nIn: nat)
    requires Inv(st) && 0 < exit < |st.code| && ValidRegion(c.nodes, nIn, |exitRow|)
    ensures var s := EmitCase(st, c, exitRow, exit);
      Aside(st, s) && s.cur == st.cur && |s.code| > |st.code|
    decreases c, 0
  {
    CaseStartLaws(st, c, exit);
    var s1 := CaseStart(st, c, exit);
    var vals := Regs(st.regs, |RegionIns(c.nodes)|);
    EmitNodesLaws(s1, c.nodes, vals, exitRow, RegionOuts(c.nodes));
    var s2 := EmitNodes(s1, c.nodes, vals, exitRow);
    TerminateCloses(s2, Br(exit));
    LeaveBlock(st, s1, s2, Br(exit), st.cur);
  }

  /** A new block that was emitted into and has been terminated is left for good. */
  lemma {:induction false} LeaveBlock(st: ES, s1: ES, s2: ES, i: Instr, b: nat)
    requires Inv(st) && Inv(s1) && Mod(st, s1, {}) && s1.cur == |st.code| && |s1.code| == |st.code| + 1
    requires Emits(s1, s2) && IsTerminator(i) && JumpOk(i, |s2.code|) && 1 <= b < |s2.code|
    ensures Aside(st, At(Terminate(s2, i), b))
  {
    TerminateCloses(s2, i);
    var s3 := Terminate(s2, i);
    LaterTrans(st, s1, s2);
    LaterTrans(st, s2, s3);
    assert Shut(s3, |st.code|, {});
  }

  lemma {:induction false} EmitCasesLaws(st: ES, cases: seq<Case>, rows: seq<Row>, nRest: nat, exitRow: seq<nat>,
                                         exit: nat)
    requires Inv(st) && 0 < exit < |st.code| && ValidCases(cases, rows, nRest, |exitRow|)
    ensures var r := EmitCases(st, cases, exitRow, exit);
      Aside(st, r.0) && r.0.cur == st.cur && TargetsOk(rows, r.1, nRest, |r.0.code|)
    decreases cases, 0
  {
    hide Inv, Open, Closed, EmitCase, Later;
    if cases == [] {
      AsideSame(st);
    } else {
      EmitCaseLaws(st, cases[0], exitRow, exit, |rows[0].tys| + nRest);
      var s := EmitCase(st, cases[0], exitRow, exit);
      EmitCasesLaws(s, cases[1..], rows[1..], nRest, exitRow, exit);
      var r := EmitCases(s, cases[1..], exitRow, exit);
      AsideTrans(st, s, r.0);
      assert EmitCases(st, cases, exitRow, exit).1
          == [Target(|st.code|, FreshRow(|st.slots|, |RegionIns(cases[0].nodes)|))] + r.1;
    }
  }

  lemma {:induction false} CondLaws(st: ES, rows: seq<Row>, cases: seq<Case>, v: Operand, rest: seq<Operand>,
                                    tys: seq<Ty>, outs: seq<nat>)
    requires Ready(st) && rows != [] && |outs| == |tys| && ValidCases(cases, rows, |rest|, |tys|)
    ensures Emits(st, EmitCond(st, rows, cases, v, rest, tys, outs))
    decreases cases, 1
  {
    var exit, exitRow := |st.code|, FreshRow(|st.slots|, |tys|);
    CondExitLaws(st, tys, outs);
    var s1 := CondExit(st, tys, outs);
    EmitCasesLaws(s1, cases, rows, |rest|, exitRow, exit);
    var r := EmitCases(s1, cases, exitRow, exit);
    assert Ready(r.0) by { assert r.0.code[st.cur] == s1.code[st.cur]; }
    DestructureLaws(r.0, rows, v, rest, r.1);
    MoveToExit(st, s1, r.0, Destructure(r.0, rows, v, rest, r.1));
  }

  /** Blocks set up aside, a branch out of the builder's block, and the builder moved to the exit block. */
  lemma MoveToExit(st: ES, s1: ES, s2: ES, t: ES)
    requires Ready(st) && s1.cur == st.cur && Mod(st, s1, {}) && |s1.code| == |st.code| + 1
    requires Inv(s1) && Open(s1.code[|st.code|]) && Aside(s1, s2) && s2.cur == st.cur
    requires Inv(t) && Mod(s2, t, {st.cur}) && Closed(t.code[st.cur]) && Shut(t, |s2.code|, {})
    ensures Emits(st, At(t, |st.code|))
  {
    LaterTrans(st, s1, s2);
    LaterTrans(st, s2, t);
    var exit := |st.code|;
    assert t.code[exit] == s2.code[exit] == s1.code[exit];
    assert Mod(st, t, {st.cur});
    forall i | exit <= i < |t.code| && i != exit ensures Closed(t.code[i]) {
      if i < |s2.code| {
        assert t.code[i] == s2.code[i];
      }
    }
  }

  // ----- arrays -----

  lemma NewArrayPieceOk(size: nat, vs: seq<Operand>, next: nat)
    ensures PieceOk(NewArrayPiece(size, vs, next), next, 1)
  {
    InsertLineOpen(Const(LArr(Undefs(size))), vs, 0, next);
  }

  lemma SuccessPieceOk(rows: seq<Row>, v: Operand, size: nat, p: Piece, next: nat)
    requires |rows| == 2 && |p.vals| == |rows[1].tys| && Open(p.line) && next <= p.next
    ensures SuccessPiece(rows, v, size, p, next).Some?
    ensures PieceOk(SuccessPiece(rows, v, size, p, next).value, next, 1)
  {
    TagPieceOk(rows, 1, p.vals, p.next);
    var q := TagPiece(rows, 1, p.vals, p.next).value;
    OpenConcat(SpillLine(v, size, next), p.line);
    OpenConcat(SpillLine(v, size, next) + p.line, q.line);
  }

  /** The three pieces of code of an op that may fail. */
  lemma AccessPiecesOk(op: ArrayOp, elem: Ty, size: nat, vals: seq<Operand>, next: nat)
    requires IsAccess(op, |vals|)
    ensures var rows := ArrayRows(op, elem, size);
      && AccessPiece(op, rows, size, vals, next).Some?
      && PieceOk(AccessPiece(op, rows, size, vals, next).value, next, 1)
      && TagPiece(rows, 0, HandedBack(op, vals), next).Some?
      && PieceOk(TagPiece(rows, 0, HandedBack(op, vals), next).value, next, 1)
      && PieceOk(GuardPiece(op, size, vals, next), next, 1)
  {
    var rows := ArrayRows(op, elem, size);
    SuccessPieceOk(rows, vals[0], size, AccessFields(op, size, vals, next), next);
    TagPieceOk(rows, 0, HandedBack(op, vals), next);
  }

  lemma PoppedPieceOk(elem: Ty, left: bool, size: nat, v: Operand, next: nat)
    ensures var p := PoppedPiece(ArrayRows(PopOp(left), elem, size), left, size, v, next);
      p.Some? && PieceOk(p.value, next, 1)
  {
    var rows := ArrayRows(PopOp(left), elem, size);
    if size == 0 {
      TagPieceOk(rows, 0, [], next);
    } else {
      SuccessPieceOk(rows, v, size, PopFields(size, left, next), next);
    }
  }

  /** The block of one outcome is complete when it is left. */
  lemma SideLaws(st: ES, b: nat, p: Piece, exitRow: seq<nat>, exit: nat)
    requires Inv(st) && 0 < exit < |st.code| && b != 0 && PieceOk(p, st.regs, |exitRow|)
    ensures var s := EmitSide(st, b, Some(p), exitRow, exit);
      && Aside(st, s) && s.cur == st.cur && |s.code| == |st.code| + 1 && s.env == st.env && s.slots == st.slots
      && s.regs == p.next && s.code[|st.code|] == p.line + StoreLine(exitRow, p.vals) + [Br(exit)]
  {
    hide LayoutOk, EnvOk, JumpsOk;
    NewBlockLaws(st, Before(b));
    var s0 := NewBlock(st, Before(b));
    AtLaws(s0, |st.code|);
    var s1 := At(s0, |st.code|);
    var line := p.line + StoreLine(exitRow, p.vals);
    FinishEmits(s1, p, exitRow);
    assert s1.code[s1.cur] + line == line;
    var s2 := Finish(s1, Some(p), exitRow);
    TerminateCloses(s2, Br(exit));
    LeaveBlock(st, s1, s2, Br(exit), st.cur);
  }

  /** The pieces of code of an op that may fail, one numbered behind the other. */
  function Success(op: ArrayOp, elem: Ty, size: nat, vals: seq<Operand>, next: nat): (p: Piece)
    requires IsAccess(op, |vals|)
  {
    AccessPiecesOk(op, elem, size, vals, next);
    AccessPiece(op, ArrayRows(op, elem, size), size, vals, next).value
  }

  function Failure(op: ArrayOp, elem: Ty, size: nat, vals: seq<Operand>, next: nat): (p: Piece)
    requires IsAccess(op, |vals|)
  {
    AccessPiecesOk(op, elem, size, vals, next);
    TagPiece(ArrayRows(op, elem, size), 0, HandedBack(op, vals), next).value
  }

  /** The blocks of an op that may fail, before the branch to them. */
  lemma {:induction false} SidesLaws(st: ES, op: ArrayOp, elem: Ty, size: nat, vals: seq<Operand>, outs: seq<nat>)
    requires Ready(st) && IsAccess(op, |vals|) && |outs| == 1
    ensures var rows := ArrayRows(op, elem, size); var exit, exitRow := |st.code|, FreshRow(|st.slots|, 1);
      var s1, s := CondExit(st, [Sum(rows)], outs), AccessSides(st, op, rows, size, vals, outs);
      var p := Success(op, elem, size, vals, st.regs + 1);
      var q := Failure(op, elem, size, vals, p.next);
      && Inv(s1) && Aside(s1, s) && s.cur == s1.cur && s.regs == q.next && |s.code| == |s1.code| + 2
      && s.env == s1.env && s.slots == s1.slots && st.regs <= p.next <= q.next
      && s.code[exit + 1] == p.line + StoreLine(exitRow, p.vals) + [Br(exit)]
      && s.code[exit + 2] == q.line + StoreLine(exitRow, q.vals) + [Br(exit)]
  {
    hide TagPiece, AccessPiece, CondExit, EmitSide, LayoutOk, EnvOk, JumpsOk, StoreLine, LoadLine, Open, Closed,
      HandedBack;
    var rows := ArrayRows(op, elem, size);
    var exit, exitRow := |st.code|, FreshRow(|st.slots|, 1);
    CondExitLaws(st, [Sum(rows)], outs);
    var s1 := CondExit(st, [Sum(rows)], outs);
    var p := Success(op, elem, size, vals, st.regs + 1);
    AccessPiecesOk(op, elem, size, vals, s1.regs);
    SideLaws(s1, exit, p, exitRow, exit);
    var s2 := EmitSide(s1, exit, Some(p), exitRow, exit);
    AccessPiecesOk(op, elem, size, vals, s2.regs);
    SideLaws(s2, exit + 1, Failure(op, elem, size, vals, p.next), exitRow, exit);
    AsideTrans(s1, s2, AccessSides(st, op, rows, size, vals, outs));
  }

  /** What an op that may fail leaves behind. */
  lemma AccessLaws(st: ES, op: ArrayOp, elem: Ty, size: nat, vals: seq<Operand>, outs: seq<nat>)
    requires Ready(st) && IsAccess(op, |vals|) && |outs| == 1
    ensures var rows := ArrayRows(op, elem, size); var exit, exitRow := |st.code|, FreshRow(|st.slots|, 1);
      var t := EmitAccess(st, op, rows, size, vals, outs);
      var p := Success(op, elem, size, vals, st.regs + 1);
      var q := Failure(op, elem, size, vals, p.next);
      var g := GuardPiece(op, size, vals, q.next);
      && Emits(st, t) && t.cur == exit && |t.code| == exit + 3 && t.env == st.env && |t.slots| == |st.slots| + 1
      && st.regs <= p.next <= q.next
      && t.code[exit] == LoadLine(exitRow, st.regs) + StoreLine(outs, Regs(st.regs, 1))
      && t.code[exit + 1] == p.line + StoreLine(exitRow, p.vals) + [Br(exit)]
      && t.code[exit + 2] == q.line + StoreLine(exitRow, q.vals) + [Br(exit)]
      && t.code[st.cur] == st.code[st.cur] + g.line + [CondBr(g.vals[0], exit + 1, exit + 2)]
  {
    hide TagPiece, AccessPiece, Success, Failure, GuardPiece, CondExit, EmitSide, LayoutOk, EnvOk, JumpsOk, HandedBack,
      StoreLine, LoadLine, AccessSides, Open, Closed;
    var rows := ArrayRows(op, elem, size);
    var exit := |st.code|;
    CondExitLaws(st, [Sum(rows)], outs);
    SidesLaws(st, op, elem, size, vals, outs);
    var s1, s := CondExit(st, [Sum(rows)], outs), AccessSides(st, op, rows, size, vals, outs);
    AccessPiecesOk(op, elem, size, vals, s.regs);
    var g := GuardPiece(op, size, vals, s.regs);
    assert s.code[st.cur] == s1.code[st.cur] == st.code[st.cur];
    PutTerminate(s, g.line, g.next, CondBr(g.vals[0], exit + 1, exit + 2));
    MoveToExit(st, s1, s, Terminate(PutPiece(s, g), CondBr(g.vals[0], exit + 1, exit + 2)));
  }

  lemma ArrayLaws(st: ES, op: ArrayOp, elem: Ty, size: nat, vals: seq<Operand>, outs: seq<nat>)
    requires Ready(st) && |vals| == |ArrayIns(op, elem, size)| && |outs| == |ArrayOuts(op, elem, size)|
    ensures Emits(st, EmitArray(st, op, elem, size, vals, outs))
  {
    hide Emits, EmitAccess, Finish, Inv, Open, PieceOk;
    var needs := ArrayNeeds(op, elem, size);
    AskReady(st, needs);
    var s := Ask(st, needs);
    match op {
      case NewArray =>
        NewArrayPieceOk(size, vals, st.regs);
        AskedFinish(st, needs, NewArrayPiece(size, vals, st.regs), outs);
      case PopOp(left) =>
        PoppedPieceOk(elem, left, size, vals[0], st.regs);
        AskedFinish(st, needs, PoppedPiece(ArrayRows(op, elem, size), left, size, vals[0], st.regs).value, outs);
      case DiscardEmpty =>
      case _ =>
        AccessLaws(s, op, elem, size, vals, outs);
        EmitsTrans(st, s, EmitArray(st, op, elem, size, vals, outs));
    }
  }

  // ----- control-flow graphs -----

  predicate IsBlock(c: Child) {
    c.Block? || c.Exit?
  }

  /** What `MakeBlocks` sets up for one child: a block of its own, the shared exit block for `Exit`,
      and mailboxes for all its arguments. */
  predicate TargetOk(c: Child, t: Target, env: map<Wire, nat>, lo: nat, hi: nat, exit: nat, nOut: nat) {
    && |t.row| == ChildArity(c, nOut)
    && (c.Exit? ==> t.blk == exit)
    && (c.Block? ==> lo <= t.blk < hi && t.row == RowOf(env, InputWires(c.nodes))
                     && forall w :: w in InputWires(c.nodes) ==> w in env)
  }

  ghost predicate BlocksOk(children: seq<Child>, bbs: map<NodeId, Target>, env: map<Wire, nat>, lo: nat, hi: nat,
                           exit: nat, nOut: nat) {
    && (forall id :: id in bbs <==> FindChild(children, id).Some?)
    && (forall id :: id in bbs ==> TargetOk(FindChild(children, id).value, bbs[id], env, lo, hi, exit, nOut))
    && (forall id, id' :: id in bbs && id' in bbs && bbs[id].blk == bbs[id'].blk && bbs[id].blk != exit ==> id == id')
  }

  predicate Empty(st: ES, lo: nat) {
    forall i :: lo <= i < |st.code| ==> st.code[i] == []
  }

  lemma BlocksOkLater(children: seq<Child>, bbs: map<NodeId, Target>, env: map<Wire, nat>, env': map<Wire, nat>,
                      lo: nat, hi: nat, exit: nat, nOut: nat, c: Child)
    requires BlocksOk(children, bbs, env, lo, hi, exit, nOut)
    requires forall w :: w in env ==> w in env' && env'[w] == env[w]
    ensures BlocksOk(children, bbs, env', lo, hi, exit, nOut)
  {
    forall id | id in bbs
      ensures TargetOk(FindChild(children, id).value, bbs[id], env', lo, hi, exit, nOut)
    {
      var c := FindChild(children, id).value;
      if c.Block? {
        assert RowOf(env, InputWires(c.nodes)) == RowOf(env', InputWires(c.nodes));
      }
    }
  }

  /** The state after the first child's block and mailboxes have been made. */
  function MakeBlock(st: ES, c: Child, exit: nat, tys: seq<Ty>): ES {
    match c
    case Exit(_) => NewRow(st, tys)
    case Block(_, _, nodes, _) => MapWires(NewBlock(st, Before(exit)), InputWires(nodes), RegionIns(nodes))
    case _ => st
  }

  /** Only empty blocks are added. */
  ghost predicate Prepares(a: ES, b: ES) {
    Inv(b) && Mod(a, b, {}) && b.cur == a.cur && Empty(b, |a.code|) && b.regs == a.regs
  }

  lemma PreparesTrans(a: ES, b: ES, c: ES)
    requires Inv(a) && Prepares(a, b) && Prepares(b, c)
    ensures Prepares(a, c)
  {
    LaterTrans(a, b, c);
  }

  lemma MakeBlockLaws(st: ES, c: Child, exit: nat, tys: seq<Ty>)
    requires Inv(st) && 0 < exit < |st.code|
    ensures Prepares(st, MakeBlock(st, c, exit, tys))
    ensures c.Exit? ==> MakeBlock(st, c, exit, tys).env == st.env && |MakeBlock(st, c, exit, tys).code| == |st.code|
    ensures c.Block? ==> |MakeBlock(st, c, exit, tys).code| == |st.code| + 1
    ensures c.Block? ==> forall w :: w in InputWires(c.nodes) ==> w in MakeBlock(st, c, exit, tys).env
  {
    match c {
      case Exit(_) => NewRowAllocates(st, tys);
      case Block(_, _, nodes, _) =>
        NewBlockLaws(st, Before(exit));
        var s := NewBlock(st, Before(exit));
        MapWiresAllocates(s, InputWires(nodes), RegionIns(nodes));
        LaterTrans(st, s, MakeBlock(st, c, exit, tys));
      case _ =>
    }
  }

  lemma {:induction false} MakeBlocksPrepares(st: ES, children: seq<Child>, exit: nat, tys: seq<Ty>)
    requires Inv(st) && 0 < exit < |st.code|
    ensures Prepares(st, MakeBlocks(st, children, exit, tys).0)
    decreases children
  {
    if children != [] {
      MakeBlockLaws(st, children[0], exit, tys);
      var s := MakeBlock(st, children[0], exit, tys);
      MakeBlocksPrepares(s, children[1..], exit, tys);
      PreparesTrans(st, s, MakeBlocks(s, children[1..], exit, tys).0);
    }
  }

  lemma {:induction false} MakeBlocksKeys(st: ES, children: seq<Child>, exit: nat, tys: seq<Ty>, id: NodeId)
    ensures id in MakeBlocks(st, children, exit, tys).1 <==> FindChild(children, id).Some?
    decreases children
  {
    if children != [] {
      MakeBlocksKeys(MakeBlock(st, children[0], exit, tys), children[1..], exit, tys, id);
    }
  }

  /** Children are distinct nodes, so the entry for the first child is not replaced by a later one. */
  lemma MakeBlocksFirst(st: ES, children: seq<Child>, exit: nat, tys: seq<Ty>)
    requires children != [] && IsBlock(children[0]) && FindChild(children[1..], children[0].id).None?
    ensures var c, r := children[0], MakeBlocks(MakeBlock(st, children[0], exit, tys), children[1..], exit, tys);
      var t := if c.Exit? then Target(exit, FreshRow(|st.slots|, |tys|))
               else Target(|st.code|, RowOf(MakeBlock(st, c, exit, tys).env, InputWires(c.nodes)));
      MakeBlocks(st, children, exit, tys) == (r.0, r.1[c.id := t]) && c.id !in r.1
  {
    hide MapWires, NewRow, RowOf, FindChild;
    MakeBlocksKeys(MakeBlock(st, children[0], exit, tys), children[1..], exit, tys, children[0].id);
    var c, r := children[0], MakeBlocks(MakeBlock(st, children[0], exit, tys), children[1..], exit, tys);
    var t := if c.Exit? then Target(exit, FreshRow(|st.slots|, |tys|))
             else Target(|st.code|, RowOf(MakeBlock(st, c, exit, tys).env, InputWires(c.nodes)));
    assert map[c.id := t] + r.1 == r.1[c.id := t];
  }

  lemma {:induction false} MakeBlocksOk(st: ES, children: seq<Child>, all: seq<Child>, exit: nat, tys: seq<Ty>,
                                        nOut: nat)
    requires Inv(st) && 0 < exit < |st.code| && ValidChildren(children, all, nOut)
    ensures var r := MakeBlocks(st, children, exit, tys);
      BlocksOk(children, r.1, r.0.env, |st.code|, |r.0.code|, exit, |tys|)
    decreases children
  {
    if children != [] {
      hide Inv, MakeBlock, MakeBlocks, BlocksOk, FindChild, Later, Shut, IdsChild, IdsChildren, ValidChild;
      var c := children[0];
      MakeBlockLaws(st, c, exit, tys);
      var s := MakeBlock(st, c, exit, tys);
      MakeBlocksOk(s, children[1..], all, exit, tys, nOut);
      MakeBlocksPrepares(s, children[1..], exit, tys);
      if IsBlock(c) {
        FirstBlockOk(st, children, exit, tys);
      } else {
        SkippedOk(st, children, exit, tys);
      }
    }
  }

  lemma SkippedOk(st: ES, children: seq<Child>, exit: nat, tys: seq<Ty>)
    requires children != [] && !IsBlock(children[0])
    requires var r := MakeBlocks(st, children[1..], exit, tys);
      BlocksOk(children[1..], r.1, r.0.env, |st.code|, |r.0.code|, exit, |tys|)
    ensures MakeBlock(st, children[0], exit, tys) == st
    ensures var r := MakeBlocks(st, children, exit, tys);
      BlocksOk(children, r.1, r.0.env, |st.code|, |r.0.code|, exit, |tys|)
  {
    hide TargetOk;
    var c := children[0];
    assert MakeBlocks(st, children, exit, tys) == MakeBlocks(st, children[1..], exit, tys);
    assert forall id :: FindChild(children, id) == FindChild(children[1..], id);
  }

  lemma FirstBlockOk(st: ES, children: seq<Child>, exit: nat, tys: seq<Ty>)
    requires children != [] && IsBlock(children[0]) && FindChild(children[1..], children[0].id).None?
    requires var c := children[0]; var s := MakeBlock(st, c, exit, tys);
      var r := MakeBlocks(s, children[1..], exit, tys);
      && BlocksOk(children[1..], r.1, r.0.env, |s.code|, |r.0.code|, exit, |tys|) && Later(s, r.0) && exit < |st.code|
      && |s.code| == |st.code| + (if c.Block? then 1 else 0)
      && (c.Block? ==> forall w :: w in InputWires(c.nodes) ==> w in s.env)
    ensures var r := MakeBlocks(st, children, exit, tys);
      BlocksOk(children, r.1, r.0.env, |st.code|, |r.0.code|, exit, |tys|)
  {
    hide MapWires, NewRow, BlocksOk, TargetOk, Later, MakeBlock, MakeBlocks, FindChild;
    var c, s := children[0], MakeBlock(st, children[0], exit, tys);
    var r := MakeBlocks(s, children[1..], exit, tys);
    LaterSizes(s, r.0);
    MakeBlocksFirst(st, children, exit, tys);
    var t := MakeBlocks(st, children, exit, tys).1[c.id];
    FirstTarget(s, st, c, t, exit, tys, r.0);
    if c.Exit? {
      AddExit(children, r.1, t, r.0.env, |st.code|, |r.0.code|, exit, |tys|);
    } else {
      AddBlock(children, r.1, t, r.0.env, |st.code|, |r.0.code|, exit, |tys|);
    }
  }

  lemma LaterSizes(a: ES, b: ES)
    requires Later(a, b)
    ensures |a.code| <= |b.code|
  {
  }

  lemma FirstTarget(s: ES, st: ES, c: Child, t: Target, exit: nat, tys: seq<Ty>, fin: ES)
    requires s == MakeBlock(st, c, exit, tys) && IsBlock(c) && Later(s, fin) && (c.Exit? || |st.code| < |fin.code|)
    requires c.Exit? ==> t == Target(exit, FreshRow(|st.slots|, |tys|))
    requires c.Block? ==> t == Target(|st.code|, RowOf(s.env, InputWires(c.nodes)))
    requires c.Block? ==> forall w :: w in InputWires(c.nodes) ==> w in s.env
    ensures c.Exit? ==> t.blk == exit && |t.row| == |tys|
    ensures c.Block? ==> TargetOk(c, t, fin.env, |st.code|, |fin.code|, exit, |tys|)
  {
    hide MapWires, NewRow;
    if c.Block? {
      assert RowOf(s.env, InputWires(c.nodes)) == RowOf(fin.env, InputWires(c.nodes));
      assert |InputWires(c.nodes)| == |RegionIns(c.nodes)|;
    }
  }

  lemma AddExit(children: seq<Child>, bbs: map<NodeId, Target>, t: Target, env: map<Wire, nat>, lo: nat, hi: nat,
                exit: nat, nOut: nat)
    requires children != [] && children[0].Exit? && t.blk == exit && |t.row| == nOut
    requires BlocksOk(children[1..], bbs, env, lo, hi, exit, nOut)
    ensures BlocksOk(children, bbs[children[0].id := t], env, lo, hi, exit, nOut)
  {
  }

  lemma AddBlock(children: seq<Child>, bbs: map<NodeId, Target>, t: Target, env: map<Wire, nat>, lo: nat, hi: nat,
                 exit: nat, nOut: nat)
    requires children != [] && children[0].Block? && t.blk == lo < hi && lo != exit
    requires TargetOk(children[0], t, env, lo, hi, exit, nOut)
    requires BlocksOk(children[1..], bbs, env, lo + 1, hi, exit, nOut)
    ensures BlocksOk(children, bbs[children[0].id := t], env, lo, hi, exit, nOut)
  {
    var all := bbs[children[0].id := t];
    forall id | id in all
      ensures TargetOk(FindChild(children, id).value, all[id], env, lo, hi, exit, nOut)
    {
    }
    forall id | id in bbs ensures bbs[id].blk != lo {
      assert TargetOk(FindChild(children[1..], id).value, bbs[id], env, lo + 1, hi, exit, nOut);
    }
  }

  /** The blocks the children from here on will be emitted into. */
  ghost function BlockSet(children: seq<Child>, bbs: map<NodeId, Target>): set<nat> {
    set c | c in children && IsBlock(c) && c.id in bbs :: bbs[c.id].blk
  }

  lemma {:induction false} ChildFound(children: seq<Child>, c: Child)
    requires c in children && IsBlock(c)
    ensures FindChild(children, c.id).Some?
  {
    if children[0] != c { ChildFound(children[1..], c); }
  }

  /** Everything the emission of the children of a control-flow graph relies on. */
  ghost predicate CfgReady(st: ES, children: seq<Child>, all: seq<Child>, bbs: map<NodeId, Target>, exit: nat,
                           nOut: nat) {
    && Inv(st) && ValidChildren(children, all, nOut)
    && BlocksOk(all, bbs, st.env, exit + 1, |st.code|, exit, nOut) && 0 < exit < |st.code|
    && (forall c :: c in children && IsBlock(c) ==> c.id in bbs && st.code[bbs[c.id].blk] == [])
    && (forall c :: c in children && IsBlock(c) ==> FindChild(all, c.id) == Some(c))
    && (forall i, j :: 0 <= i < j < |children| && children[i].Exit? ==> !children[j].Exit?)
  }

  lemma BlockStartLaws(st: ES, nodes: seq<Node>, t: Target)
    requires Inv(st) && 1 <= t.blk < |st.code| && Open(st.code[t.blk]) && |RegionOuts(nodes)| == |RegionOutTys(nodes)|
    ensures var s := BlockStart(st, nodes, t);
      && Emits(At(st, t.blk), s) && Ready(s) && s.cur == t.blk && s.regs == st.regs + |t.row| && |s.code| == |st.code|
      && (forall w :: w in RegionOuts(nodes) ==> w in s.env)
      && s.code[t.blk] == st.code[t.blk] + LoadLine(t.row, st.regs)
  {
    var a := At(st, t.blk);
    AtLaws(st, t.blk);
    MapWiresAllocates(a, RegionOuts(nodes), RegionOutTys(nodes));
    var s1 := MapWires(a, RegionOuts(nodes), RegionOutTys(nodes));
    AllocatedEmits(a, s1);
    ReadRowEmits(s1, t.row);
    EmitsTrans(a, s1, BlockStart(st, nodes, t));
  }

  lemma {:induction false} OutputTys(nodes: seq<Node>, nIn: nat, ws: seq<Wire>)
    requires ValidNodes(nodes, nIn, ws)
    ensures |RegionOuts(nodes)| == |RegionOutTys(nodes)|
    decreases nodes
  {
    if nodes != [] {
      if !nodes[0].op.Output? { OutputTys(nodes[1..], nIn, ws); }
    }
  }

  /** Emission positioned at an existing empty block completes that block and everything made on the way. */
  ghost predicate Fills(a: ES, b: ES, blk: nat) {
    && Inv(b) && Mod(a, b, {blk}) && blk < |b.code| && Closed(b.code[blk]) && Shut(b, |a.code|, {})
  }

  lemma SuccsOk(c: Child, all: seq<Child>, bbs: map<NodeId, Target>, env: map<Wire, nat>, lo: nat, hi: nat, exit: nat,
                nOut: nat)
    requires c.Block? && ValidChild(c, all, nOut) && BlocksOk(all, bbs, env, lo, hi, exit, nOut)
    requires 0 < lo && 0 < exit < hi
    ensures forall s :: s in c.succs ==> s in bbs
    ensures TargetsOk(c.rows, Targets(c.succs, bbs), |RegionOuts(c.nodes)| - 1, hi)
  {
    forall i | 0 <= i < |c.succs| ensures c.succs[i] in bbs && 0 < bbs[c.succs[i]].blk < hi
        && |bbs[c.succs[i]].row| == |c.rows[i].tys| + |RegionOuts(c.nodes)| - 1
    {
      var d := FindChild(all, c.succs[i]).value;
      assert TargetOk(d, bbs[c.succs[i]], env, lo, hi, exit, nOut);
    }
  }

  /** The state in which a dataflow block branches on its first result. */
  function BlockEnd(st: ES, nodes: seq<Node>, t: Target): ES {
    var s := BlockStart(st, nodes, t);
    var promise := RowOf(s.env, RegionOuts(nodes));
    var e := EmitNodes(s, nodes, Regs(st.regs, |t.row|), promise);
    PutPiece(e, ReadRow(promise, e.regs))
  }

  lemma {:induction false} BlockEndLaws(st: ES, nodes: seq<Node>, t: Target)
    requires Inv(st) && 1 <= t.blk < |st.code| && st.code[t.blk] == []
    requires ValidRegion(nodes, |t.row|, |RegionOuts(nodes)|)
    ensures Emits(At(st, t.blk), BlockEnd(st, nodes, t))
    decreases nodes, 2
  {
    OutputTys(nodes, |t.row|, RegionOuts(nodes));
    BlockStartLaws(st, nodes, t);
    var s1 := BlockStart(st, nodes, t);
    var promise := RowOf(s1.env, RegionOuts(nodes));
    EmitNodesLaws(s1, nodes, Regs(st.regs, |t.row|), promise, RegionOuts(nodes));
    var s2 := EmitNodes(s1, nodes, Regs(st.regs, |t.row|), promise);
    ReadRowEmits(s2, promise);
    var a := At(st, t.blk);
    EmitsTrans(a, s1, s2);
    EmitsTrans(a, s2, BlockEnd(st, nodes, t));
  }

  lemma {:induction false} EmitBlockLaws(st: ES, c: Child, all: seq<Child>, bbs: map<NodeId, Target>, outs: seq<nat>,
                                         exit: nat)
    requires c.Block? && Inv(st) && ValidChild(c, all, |outs|) && 0 < exit < |st.code| && c.id in bbs
    requires BlocksOk(all, bbs, st.env, exit + 1, |st.code|, exit, |outs|) && FindChild(all, c.id) == Some(c)
    requires st.code[bbs[c.id].blk] == []
    ensures Fills(st, EmitChild(st, c, bbs, outs), bbs[c.id].blk) && EmitChild(st, c, bbs, outs).cur == st.cur
    decreases c, 0
  {
    hide Inv, BlockStart, EmitNodes, Destructure, EmitChild, Emits, Fills, ValidNodes, BlockEnd;
    var t, ts := bbs[c.id], Targets(c.succs, bbs);
    assert 1 <= t.blk < |st.code| && |t.row| == |RegionIns(c.nodes)|
      && TargetsOk(c.rows, ts, |RegionOuts(c.nodes)| - 1, |st.code|) by {
      SuccsOk(c, all, bbs, st.env, exit + 1, |st.code|, exit, |outs|);
      assert TargetOk(c, t, st.env, exit + 1, |st.code|, exit, |outs|);
    }
    BlockEndLaws(st, c.nodes, t);
    var s := BlockStart(st, c.nodes, t);
    var promise := RowOf(s.env, RegionOuts(c.nodes));
    var e := EmitNodes(s, c.nodes, Regs(st.regs, |t.row|), promise);
    var vals := Regs(e.regs, |promise|);
    DestructureFills(st, At(st, t.blk), BlockEnd(st, c.nodes, t), c.rows, vals[0], vals[1..], ts, t.blk);
    var d := Destructure(BlockEnd(st, c.nodes, t), c.rows, vals[0], vals[1..], ts);
    BlockUnfolds(st, c, bbs, outs);
    AskFills(st, At(d, st.cur), t.blk, {NeedType(Sum(c.rows))});
  }

  lemma AskFills(a: ES, b: ES, blk: nat, needs: set<Need>)
    requires Fills(a, b, blk)
    ensures Fills(a, Ask(b, needs), blk)
  {
  }

  lemma BlockUnfolds(st: ES, c: Child, bbs: map<NodeId, Target>, outs: seq<nat>)
    requires c.Block? && c.id in bbs && (forall u :: u in c.succs ==> u in bbs) && |RegionOuts(c.nodes)| >= 1
    requires CountOp(c.nodes, true) == 1 && CountOp(c.nodes, false) == 1
    ensures var s := BlockStart(st, c.nodes, bbs[c.id]); var promise := RowOf(s.env, RegionOuts(c.nodes));
      var vals := Regs(EmitNodes(s, c.nodes, Regs(st.regs, |bbs[c.id].row|), promise).regs, |promise|);
      EmitChild(st, c, bbs, outs)
      == Ask(At(Destructure(BlockEnd(st, c.nodes, bbs[c.id]), c.rows, vals[0], vals[1..], Targets(c.succs, bbs)),
                st.cur), {NeedType(Sum(c.rows))})
  {
    hide EmitNodes, Destructure, BlockStart, Put, RegionOuts, CountOp;
  }

  lemma DestructureFills(st: ES, a: ES, s: ES, rows: seq<Row>, v: Operand, rest: seq<Operand>, ts: seq<Target>,
                         blk: nat)
    requires Inv(st) && 1 <= blk < |st.code| && a == At(st, blk) && Emits(a, s)
    requires rows != [] && TargetsOk(rows, ts, |rest|, |st.code|)
    ensures Fills(st, At(Destructure(s, rows, v, rest, ts), st.cur), blk)
  {
    hide LayoutOk, EnvOk, JumpsOk, Open, Destructure;
    DestructureLaws(s, rows, v, rest, ts);
    var t := Destructure(s, rows, v, rest, ts);
    AtLaws(t, st.cur);
    LaterTrans(a, s, t);
    assert t.code[blk] == if s.cur == blk then t.code[s.cur] else s.code[blk];
    assert Closed(t.code[blk]);
    forall i | |st.code| <= i < |t.code| ensures Closed(t.code[i]) {
      if i < |s.code| && i != s.cur {
        assert t.code[i] == s.code[i];
      }
    }
  }

  lemma EmitExitLaws(st: ES, c: Child, bbs: map<NodeId, Target>, outs: seq<nat>)
    requires c.Exit? && Inv(st) && c.id in bbs && 1 <= bbs[c.id].blk < |st.code| && st.code[bbs[c.id].blk] == []
    requires |bbs[c.id].row| == |outs|
    ensures var s := EmitChild(st, c, bbs, outs); var b := bbs[c.id].blk;
      && Inv(s) && s.cur == st.cur && Mod(st, s, {b}) && |s.code| == |st.code| && Open(s.code[b]) && s.env == st.env
      && s.code[b] == LoadLine(bbs[c.id].row, st.regs) + StoreLine(outs, Regs(st.regs, |outs|))
  {
    var b := bbs[c.id].blk;
    var a := At(st, b);
    var p := ReadRow(bbs[c.id].row, st.regs);
    ReadRowEmits(a, bbs[c.id].row);
    assert a.code[b] + p.line == p.line;
    WriteRowEmits(PutPiece(a, p), outs, p.vals);
    LaterTrans(a, PutPiece(a, p), WriteRow(PutPiece(a, p), outs, p.vals));
  }

  /** The outcome for a list of children: their blocks are complete, all but the exit block, and nothing else
      that existed has changed. */
  ghost predicate ChildrenDone(a: ES, b: ES, children: seq<Child>, bbs: map<NodeId, Target>) {
    && Inv(b) && b.cur == a.cur && Mod(a, b, BlockSet(children, bbs)) && Shut(b, |a.code|, {})
    && forall c :: c in children && IsBlock(c) ==>
         && c.id in bbs && bbs[c.id].blk < |b.code|
         && (c.Block? ==> Closed(b.code[bbs[c.id].blk])) && (c.Exit? ==> Open(b.code[bbs[c.id].blk]))
  }

  lemma CfgReadyAt(st: ES, children: seq<Child>, all: seq<Child>, bbs: map<NodeId, Target>, exit: nat, nOut: nat,
                   c: Child)
    requires CfgReady(st, children, all, bbs, exit, nOut) && c in children && IsBlock(c)
    ensures exit <= bbs[c.id].blk < |st.code| && TargetOk(c, bbs[c.id], st.env, exit + 1, |st.code|, exit, nOut)
  {
    assert TargetOk(FindChild(all, c.id).value, bbs[c.id], st.env, exit + 1, |st.code|, exit, nOut);
  }

  /** Distinct children have distinct blocks. */
  lemma OwnBlock(st: ES, children: seq<Child>, all: seq<Child>, bbs: map<NodeId, Target>, exit: nat, nOut: nat)
    requires CfgReady(st, children, all, bbs, exit, nOut) && children != [] && IsBlock(children[0])
    ensures bbs[children[0].id].blk !in BlockSet(children[1..], bbs)
  {
    forall c | c in children[1..] && IsBlock(c) ensures bbs[c.id].blk != bbs[children[0].id].blk {
      ChildFound(children[1..], c);
      assert c.id != children[0].id;
      CfgReadyAt(st, children, all, bbs, exit, nOut, c);
      CfgReadyAt(st, children, all, bbs, exit, nOut, children[0]);
      if children[0].Exit? {
        var j :| 0 <= j < |children[1..]| && children[1..][j] == c;
        assert children[j + 1] == c;
      }
    }
  }

  lemma {:induction false} EmitChildLaws(st: ES, children: seq<Child>, all: seq<Child>, bbs: map<NodeId, Target>,
                                         outs: seq<nat>, exit: nat)
    requires CfgReady(st, children, all, bbs, exit, |outs|) && children != []
    ensures var s := EmitChild(st, children[0], bbs, outs);
      ChildrenDone(st, s, children[..1], bbs)
    decreases children[0], 1
  {
    hide EmitNodes, Destructure, FindChild, ValidChild, MapWires, Inv, Later, ChildrenDone, EmitChild;
    var c := children[0];
    assert children[..1] == [c];
    match c {
      case Block(_, _, _, _) =>
        CfgReadyAt(st, children, all, bbs, exit, |outs|, c);
        EmitBlockLaws(st, c, all, bbs, outs, exit);
        BlockDone(st, EmitChild(st, c, bbs, outs), c, bbs);
      case Exit(_) =>
        CfgReadyAt(st, children, all, bbs, exit, |outs|, c);
        EmitExitLaws(st, c, bbs, outs);
        ExitDone(st, EmitChild(st, c, bbs, outs), c, bbs);
      case ChildFunc(f) =>
        NothingDone(st, c, bbs, outs);
      case ChildStatic =>
        NothingDone(st, c, bbs, outs);
    }
  }

  lemma BlockDone(a: ES, b: ES, c: Child, bbs: map<NodeId, Target>)
    requires c.Block? && c.id in bbs && Fills(a, b, bbs[c.id].blk) && b.cur == a.cur
    ensures ChildrenDone(a, b, [c], bbs)
  {
    hide Inv, Later;
  }

  lemma ExitDone(a: ES, b: ES, c: Child, bbs: map<NodeId, Target>)
    requires c.Exit? && c.id in bbs && bbs[c.id].blk < |b.code| && Open(b.code[bbs[c.id].blk])
    requires Inv(b) && b.cur == a.cur && Mod(a, b, {bbs[c.id].blk}) && |b.code| == |a.code|
    ensures ChildrenDone(a, b, [c], bbs)
  {
    hide Inv, Later;
  }

  lemma NothingDone(st: ES, c: Child, bbs: map<NodeId, Target>, outs: seq<nat>)
    requires !IsBlock(c) && Inv(st)
    ensures ChildrenDone(st, EmitChild(st, c, bbs, outs), [c], bbs)
  {
  }

  lemma CfgReadyNext(st: ES, s: ES, children: seq<Child>, all: seq<Child>, bbs: map<NodeId, Target>, exit: nat,
                     nOut: nat)
    requires CfgReady(st, children, all, bbs, exit, nOut) && children != []
    requires ChildrenDone(st, s, children[..1], bbs)
    ensures CfgReady(s, children[1..], all, bbs, exit, nOut)
  {
    assert BlocksOk(all, bbs, s.env, exit + 1, |s.code|, exit, nOut) by {
      BlocksOkLater(all, bbs, st.env, s.env, exit + 1, |st.code|, exit, nOut, children[0]);
      BlocksOkWider(all, bbs, s.env, exit + 1, |st.code|, |s.code|, exit, nOut);
    }
    forall c | c in children[1..] && IsBlock(c) ensures c.id in bbs && s.code[bbs[c.id].blk] == [] {
      CfgReadyAt(st, children, all, bbs, exit, nOut, c);
      if IsBlock(children[0]) {
        OwnBlock(st, children, all, bbs, exit, nOut);
      }
      assert bbs[c.id].blk !in BlockSet(children[..1], bbs);
    }
  }

  lemma BlocksOkWider(children: seq<Child>, bbs: map<NodeId, Target>, env: map<Wire, nat>, lo: nat, hi: nat, hi': nat,
                      exit: nat, nOut: nat)
    requires BlocksOk(children, bbs, env, lo, hi, exit, nOut) && hi <= hi'
    ensures BlocksOk(children, bbs, env, lo, hi', exit, nOut)
  {
    forall id | id in bbs ensures TargetOk(FindChild(children, id).value, bbs[id], env, lo, hi', exit, nOut) {
      assert TargetOk(FindChild(children, id).value, bbs[id], env, lo, hi, exit, nOut);
    }
  }

  lemma {:induction false} EmitChildrenLaws(st: ES, children: seq<Child>, all: seq<Child>, bbs: map<NodeId, Target>,
                                            outs: seq<nat>, exit: nat)
    requires CfgReady(st, children, all, bbs, exit, |outs|)
    ensures ChildrenDone(st, EmitChildren(st, children, bbs, outs), children, bbs)
    decreases children, 0
  {
    if children != [] {
      EmitChildLaws(st, children, all, bbs, outs, exit);
      var s := EmitChild(st, children[0], bbs, outs);
      CfgReadyNext(st, s, children, all, bbs, exit, |outs|);
      EmitChildrenLaws(s, children[1..], all, bbs, outs, exit);
      if IsBlock(children[0]) {
        OwnBlock(st, children, all, bbs, exit, |outs|);
        CfgReadyAt(st, children, all, bbs, exit, |outs|, children[0]);
      }
      ChildrenTrans(st, s, EmitChildren(s, children[1..], bbs, outs), children, bbs);
    }
  }

  lemma ChildrenTrans(a: ES, b: ES, c: ES, children: seq<Child>, bbs: map<NodeId, Target>)
    requires Inv(a) && children != []
    requires ChildrenDone(a, b, children[..1], bbs) && ChildrenDone(b, c, children[1..], bbs)
    requires IsBlock(children[0]) ==> children[0].id in bbs && 0 < bbs[children[0].id].blk
    requires IsBlock(children[0]) ==> bbs[children[0].id].blk !in BlockSet(children[1..], bbs)
    requires forall d :: d in children[1..] && IsBlock(d) && d.id in bbs ==> 0 < bbs[d.id].blk < |a.code|
    ensures ChildrenDone(a, c, children, bbs)
  {
    LaterTrans(a, b, c);
    assert children == children[..1] + children[1..];
    assert BlockSet(children, bbs) == BlockSet(children[..1], bbs) + BlockSet(children[1..], bbs);
    forall i | |a.code| <= i < |c.code| ensures Closed(c.code[i]) {
      if i < |b.code| { assert c.code[i] == b.code[i]; }
    }
    forall d | d in children && IsBlock(d)
      ensures d.id in bbs && bbs[d.id].blk < |c.code|
      ensures (d.Block? ==> Closed(c.code[bbs[d.id].blk])) && (d.Exit? ==> Open(c.code[bbs[d.id].blk]))
    {
      if d == children[0] {
        assert d in children[..1];
        assert c.code[bbs[d.id].blk] == b.code[bbs[d.id].blk];
      } else {
        assert d in children[1..];
      }
    }
  }

  /** Every block made here belongs to some child. */
  ghost predicate Covered(b: nat, children: seq<Child>, bbs: map<NodeId, Target>) {
    exists c :: c in children && c.Block? && c.id in bbs && bbs[c.id].blk == b
  }

  lemma {:induction false} MakeBlocksCover(st: ES, children: seq<Child>, all: seq<Child>, exit: nat, tys: seq<Ty>,
                                           nOut: nat)
    requires Inv(st) && 0 < exit < |st.code| && ValidChildren(children, all, nOut)
    ensures forall b :: |st.code| <= b < |MakeBlocks(st, children, exit, tys).0.code| ==>
              Covered(b, children, MakeBlocks(st, children, exit, tys).1)
    decreases children
  {
    if children != [] {
      MakeBlockLaws(st, children[0], exit, tys);
      var s := MakeBlock(st, children[0], exit, tys);
      MakeBlocksCover(s, children[1..], all, exit, tys, nOut);
      if IsBlock(children[0]) { MakeBlocksFirst(st, children, exit, tys); }
      var r, r' := MakeBlocks(st, children, exit, tys), MakeBlocks(s, children[1..], exit, tys);
      forall b | |st.code| <= b < |r.0.code| ensures Covered(b, children, r.1) {
        if b < |s.code| {
          assert children[0].Block? && r.1[children[0].id].blk == b;
        } else {
          assert Covered(b, children[1..], r'.1);
          var c :| c in children[1..] && c.Block? && c.id in r'.1 && r'.1[c.id].blk == b;
          ChildFound(children[1..], c);
          assert c in children && r.1[c.id] == r'.1[c.id];
        }
      }
    }
  }

  lemma {:induction false} FindSelf(children: seq<Child>, all: seq<Child>, nOut: nat, c: Child)
    requires ValidChildren(children, all, nOut) && c in children && IsBlock(c)
    ensures FindChild(children, c.id) == Some(c)
  {
    if children[0] != c {
      FindSelf(children[1..], all, nOut, c);
    }
  }

  /** The state in which the children of a control-flow graph are emitted. */
  function CfgStart(st: ES, children: seq<Child>, vals: seq<Operand>, tys: seq<Ty>): (r: (ES, map<NodeId, Target>)) {
    var r := MakeBlocks(NewBlock(st, AtEnd), children, |st.code|, tys);
    if children == [] || !children[0].Block? || children[0].id !in r.1 then r
    else (Terminate(WriteRow(r.0, r.1[children[0].id].row, vals), Br(r.1[children[0].id].blk)), r.1)
  }

  lemma CfgStartPrepares(st: ES, children: seq<Child>, vals: seq<Operand>, tys: seq<Ty>)
    requires Ready(st) && ValidCfg(children, |vals|, |tys|)
    ensures var s0 := NewBlock(st, AtEnd); var r := MakeBlocks(s0, children, |st.code|, tys);
      && Prepares(st, r.0) && Ready(r.0) && r.0.code[st.cur] == st.code[st.cur]
      && |r.0.code| > |st.code|
      && BlocksOk(children, r.1, r.0.env, |st.code| + 1, |r.0.code|, |st.code|, |tys|)
  {
    NewBlockLaws(st, AtEnd);
    var s0 := NewBlock(st, AtEnd);
    MakeBlocksPrepares(s0, children, |st.code|, tys);
    MakeBlocksOk(s0, children, children, |st.code|, tys, |tys|);
    PreparesTrans(st, s0, MakeBlocks(s0, children, |st.code|, tys).0);
  }

  lemma CfgStartLaws(st: ES, children: seq<Child>, vals: seq<Operand>, tys: seq<Ty>)
    requires Ready(st) && ValidCfg(children, |vals|, |tys|)
    ensures var (s, bbs) := CfgStart(st, children, vals, tys); var exit := |st.code|;
      && Inv(s) && s.cur == st.cur && Mod(st, s, {st.cur}) && Closed(s.code[st.cur]) && exit < |s.code|
      && children[0].id in bbs && children[1].id in bbs && bbs[children[1].id].blk == exit
      && s.regs == st.regs
      && |bbs[children[0].id].row| == |vals|
      && s.code[st.cur] == st.code[st.cur] + (StoreLine(bbs[children[0].id].row, vals) + [Br(bbs[children[0].id].blk)])
      && BlocksOk(children, bbs, s.env, exit + 1, |s.code|, exit, |tys|) && Empty(s, exit)
      && forall b :: exit < b < |s.code| ==> Covered(b, children, bbs)
  {
    CfgStartPrepares(st, children, vals, tys);
    var s0 := NewBlock(st, AtEnd);
    NewBlockLaws(st, AtEnd);
    var r := MakeBlocks(s0, children, |st.code|, tys);
    MakeBlocksCover(s0, children, children, |st.code|, tys, |tys|);
    FindSelf(children, children, |tys|, children[0]);
    FindSelf(children, children, |tys|, children[1]);
    assert TargetOk(children[0], r.1[children[0].id], r.0.env, |st.code| + 1, |r.0.code|, |st.code|, |tys|);
    assert TargetOk(children[1], r.1[children[1].id], r.0.env, |st.code| + 1, |r.0.code|, |st.code|, |tys|);
    EnterCfg(st, r.0, r.1[children[0].id], vals);
  }

  lemma EnterCfg(st: ES, r: ES, entry: Target, vals: seq<Operand>)
    requires Ready(st) && Prepares(st, r) && Ready(r) && r.code[st.cur] == st.code[st.cur]
    requires |entry.row| == |vals| && |st.code| < entry.blk < |r.code|
    ensures var s := Terminate(WriteRow(r, entry.row, vals), Br(entry.blk));
      && Inv(s) && s.cur == st.cur && Mod(st, s, {st.cur}) && Closed(s.code[st.cur]) && |s.code| == |r.code|
      && s.code[st.cur] == st.code[st.cur] + (StoreLine(entry.row, vals) + [Br(entry.blk)])
      && Empty(s, |st.code|) && s.env == r.env && s.regs == st.regs
  {
    WriteRowEmits(r, entry.row, vals);
    var w := WriteRow(r, entry.row, vals);
    TerminateCloses(w, Br(entry.blk));
    var s := Terminate(w, Br(entry.blk));
    LaterTrans(r, w, s);
    LaterTrans(st, r, s);
    forall i | |st.code| <= i < |s.code| ensures s.code[i] == [] {
      assert w.code[i] == r.code[i];
    }
  }

  lemma {:induction false} CfgStartReady(st: ES, children: seq<Child>, vals: seq<Operand>, tys: seq<Ty>)
    requires Ready(st) && ValidCfg(children, |vals|, |tys|)
    ensures var (s, bbs) := CfgStart(st, children, vals, tys);
      CfgReady(s, children, children, bbs, |st.code|, |tys|)
  {
    CfgStartLaws(st, children, vals, tys);
    var (s, bbs) := CfgStart(st, children, vals, tys);
    forall c | c in children && IsBlock(c)
      ensures FindChild(children, c.id) == Some(c) && c.id in bbs && s.code[bbs[c.id].blk] == []
    {
      FindSelf(children, children, |tys|, c);
      assert TargetOk(c, bbs[c.id], s.env, |st.code| + 1, |s.code|, |st.code|, |tys|);
    }
  }

  lemma {:induction false} CfgLaws(st: ES, children: seq<Child>, vals: seq<Operand>, outs: seq<nat>, tys: seq<Ty>)
    requires Ready(st) && ValidCfg(children, |vals|, |tys|) && |outs| == |tys|
    ensures Emits(st, EmitCfg(st, children, vals, outs, tys))
    decreases children, 1
  {
    hide LayoutOk, JumpsOk, EnvOk, MakeBlocks, BlocksOk, CfgReady, EmitChildren, EmitCfg, CfgStart, Inv, ValidChildren,
      ChildrenDone;
    CfgEmission(st, children, vals, outs, tys);
    CfgStartLaws(st, children, vals, tys);
    CfgStartReady(st, children, vals, tys);
    var (s, bbs) := CfgStart(st, children, vals, tys);
    EmitChildrenLaws(s, children, children, bbs, outs, |st.code|);
    var t := EmitChildren(s, children, bbs, outs);
    forall c | c in children && IsBlock(c) && c.id in bbs ensures |st.code| <= bbs[c.id].blk {
      CfgReadyAt(s, children, children, bbs, |st.code|, |tys|, c);
    }
    LeaveCfg(st, s, t, children, bbs);
  }

  lemma CfgEmission(st: ES, children: seq<Child>, vals: seq<Operand>, outs: seq<nat>, tys: seq<Ty>)
    requires Ready(st) && ValidCfg(children, |vals|, |tys|)
    ensures EmitCfg(st, children, vals, outs, tys)
         == At(EmitChildren(CfgStart(st, children, vals, tys).0, children, CfgStart(st, children, vals, tys).1, outs),
               |st.code|)
  {
    hide EmitChildren, MakeBlocks, Inv, Open, ValidChildren, WriteRow, Terminate;
    CfgStartLaws(st, children, vals, tys);
  }

  lemma LeaveCfg(st: ES, s: ES, t: ES, children: seq<Child>, bbs: map<NodeId, Target>)
    requires Ready(st) && Inv(s) && s.cur == st.cur && Mod(st, s, {st.cur}) && Closed(s.code[st.cur])
    requires |st.code| < |s.code| && ChildrenDone(s, t, children, bbs)
    requires |children| >= 2 && children[1].Exit? && children[1].id in bbs && bbs[children[1].id].blk == |st.code|
    requires forall b :: |st.code| < b < |s.code| ==> Covered(b, children, bbs)
    requires forall c :: c in children && IsBlock(c) && c.id in bbs ==> |st.code| <= bbs[c.id].blk
    ensures Emits(st, At(t, |st.code|))
  {
    LaterTrans(st, s, t);
    var exit := |st.code|;
    assert st.cur !in BlockSet(children, bbs);
    assert children[1] in children;
    forall i | exit <= i < |t.code| && i != exit ensures Closed(t.code[i]) {
      if i < |s.code| {
        assert Covered(i, children, bbs);
      }
    }
    assert Mod(st, t, {st.cur});
  }

  // ----- functions -----

  lemma InitialReady()
    ensures Ready(Initial)
  {
    assert Initial.order[1] == 1;
  }

  lemma FuncBodyLaws(f: FuncDefn)
    requires ValidFunc(f)
    ensures Ready(FuncStart(f)) && FuncStart(f).cur == 1 && FuncStart(f).code[1] == [] && |FuncStart(f).code| == 2
    ensures |FuncStart(f).slots| == |f.outs| && FuncStart(f).env == map[] && FuncStart(f).regs == 0
    ensures Emits(FuncStart(f), FuncBody(f))
  {
    InitialReady();
    NewRowAllocates(Initial, f.outs);
    EmitNodesLaws(FuncStart(f), f.nodes, Params(|f.ins|), FreshRow(0, |f.outs|), RegionOuts(f.nodes));
  }

  /** The shape of every emitted function: no error, exactly one terminator per block and in last position,
      an alloca block that comes first, holds nothing but the allocas and the final branch, and is never jumped
      to, and one mailbox per wire. */
  lemma FunctionWellFormed(f: FuncDefn)
    requires ValidFunc(f)
    ensures var s := EmitFunc(f);
      && !s.failed
      && (forall b :: 0 <= b < |s.code| ==> Closed(s.code[b]) && JumpsOk(s.code[b], |s.code|))
      && s.code[0] == Allocas(s.slots) + [Br(1)]
      && LayoutOk(s)
      && EnvOk(s.env, |s.slots|)
  {
    FuncBodyLaws(f);
    var s0, s := FuncStart(f), FuncBody(f);
    var row := FreshRow(0, |f.outs|);
    ReadRowEmits(s, row);
    var p := ReadRow(row, s.regs);
    var s1 := PutPiece(s, p);
    EmitsTrans(s0, s, s1);
    TerminateCloses(s1, Ret(p.vals));
    var s2 := Terminate(s1, Ret(p.vals));
    AllClosed(s0, s1, s2);
    FinishLaws(s2);
  }

  lemma AllClosed(s0: ES, s1: ES, s2: ES)
    requires Inv(s0) && s0.cur == 1 && |s0.code| == 2 && Emits(s0, s1) && Inv(s2) && Mod(s1, s2, {s1.cur})
    requires Closed(s2.code[s1.cur]) && |s2.code| == |s1.code|
    ensures forall b :: 0 < b < |s2.code| ==> Closed(s2.code[b])
  {
    forall b | 0 < b < |s2.code| ensures Closed(s2.code[b]) {
      if b != s1.cur { assert s2.code[b] == s1.code[b]; }
    }
  }

  /** The last edit: the alloca block is ended by a branch to the launch block. */
  lemma FinishLaws(s: ES)
    requires Inv(s) && forall b :: 0 < b < |s.code| ==> Closed(s.code[b])
    ensures var t := Terminate(At(s, 0), Br(1));
      && !t.failed && (forall b :: 0 <= b < |t.code| ==> Closed(t.code[b]) && JumpsOk(t.code[b], |t.code|))
      && t.code[0] == Allocas(s.slots) + [Br(1)] && LayoutOk(t) && EnvOk(t.env, |t.slots|) && t.slots == s.slots
      && Later(s, t)
  {
    var t := Terminate(At(s, 0), Br(1));
    var b0 := t.code[0];
    assert b0[..|b0| - 1] == Allocas(s.slots);
    forall b | 0 <= b < |t.code| ensures Closed(t.code[b]) && JumpsOk(t.code[b], |t.code|) {
      assert JumpsOk(s.code[b], |s.code|);
    }
  }

  /** How the body of a function sits in its final code. */
  lemma FuncEnds(f: FuncDefn)
    requires ValidFunc(f)
    ensures Later(FuncBody(f), EmitFunc(f)) && FuncBody(f).cur < |EmitFunc(f).code|
    ensures var s := FuncBody(f); var p := ReadRow(FreshRow(0, |f.outs|), s.regs);
      s.cur < |s.code| && s.code[s.cur] + (p.line + [Ret(p.vals)]) <= EmitFunc(f).code[s.cur]
  {
    FuncBodyLaws(f);
    var s, fin := FuncBody(f), EmitFunc(f);
    var p := ReadRow(FreshRow(0, |f.outs|), s.regs);
    LoadLineOpen(FreshRow(0, |f.outs|), s.regs);
    PutTerminate(s, p.line, p.next, Ret(p.vals));
    var s2 := Terminate(PutPiece(s, p), Ret(p.vals));
    LastBranch(s2);
    LaterTrans(s, s2, fin);
    assert s2.code[s.cur] <= fin.code[s.cur];
    assert s.code[s.cur] + p.line + [Ret(p.vals)] == s.code[s.cur] + (p.line + [Ret(p.vals)]);
  }

  lemma LastBranch(s: ES)
    requires Inv(s)
    ensures Later(s, Terminate(At(s, 0), Br(1)))
  {
  }
}
