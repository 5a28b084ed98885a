/** Static single assignment: in the code of an emitted function each register is defined in one place only, whatever
    is emitted. */
module Registers {
  import opened Values
  import opened Machine
  import opened Places
  import opened Hugr
  import opened Arrays
  import opened Types
  import opened Builder
  import opened Emit

  predicate DefinesAt(line: seq<Instr>, i: int, r: int) {
    0 <= i < |line| && r >= 0 && InReg(r) in Defs(line[i])
  }

  /** Every register that `line` defines is in `[lo, hi)`, and is defined once. */
  ghost predicate Once(line: seq<Instr>, lo: nat, hi: nat) {
    true == (
    && lo <= hi
    && (forall i, r :: DefinesAt(line, i, r) ==> lo <= r < hi)
    && forall i, j, r :: DefinesAt(line, i, r) && DefinesAt(line, j, r) ==> i == j)
  }

  /** Instruction `i` of block `blk` has been added between `a` and `b`, and defines `r`. */
  predicate Adds(a: ES, b: ES, blk: int, i: int, r: int) {
    0 <= blk < |b.code| && DefinesAt(b.code[blk], i, r) && (blk < |a.code| ==> i >= |a.code[blk]|)
  }

  /** Emission from `a` to `b` appends code that defines only registers not used before, each once. */
  ghost predicate Fresh(a: ES, b: ES) {
    true == (
    && |a.code| <= |b.code| && (forall k :: 0 <= k < |a.code| ==> a.code[k] <= b.code[k]) && a.regs <= b.regs
    && (forall blk, i, r :: Adds(a, b, blk, i, r) ==> a.regs <= r < b.regs)
    && forall blk, i, blk', i', r :: Adds(a, b, blk, i, r) && Adds(a, b, blk', i', r) ==> blk == blk' && i == i')
  }

  lemma FreshTrans(a: ES, b: ES, c: ES)
    requires Fresh(a, b) && Fresh(b, c)
    ensures Fresh(a, c)
  {
    forall k | 0 <= k < |a.code| ensures a.code[k] <= c.code[k] {
      assert a.code[k] <= b.code[k] <= c.code[k];
    }
    forall blk, i, r | Adds(a, c, blk, i, r) ensures Adds(a, b, blk, i, r) || Adds(b, c, blk, i, r) {
      if blk < |b.code| && i < |b.code[blk]| { assert b.code[blk] <= c.code[blk]; }
    }
    assert forall blk, i, r :: Adds(a, c, blk, i, r) ==> a.regs <= r < c.regs;
  }

  /** Edits that append nothing. */
  lemma SameCode(a: ES, b: ES)
    requires b.code == a.code && b.regs == a.regs
    ensures Fresh(a, b)
  {
  }

  lemma PutFresh(st: ES, line: seq<Instr>, next: nat)
    requires Once(line, st.regs, next)
    ensures Fresh(st, Put(st, line, next))
  {
    var t := Put(st, line, next);
    forall blk, i, r | Adds(st, t, blk, i, r) ensures blk == st.cur && DefinesAt(line, i - |st.code[st.cur]|, r) {
    }
  }

  lemma NewBlockFresh(st: ES, wh: Where)
    ensures Fresh(st, NewBlock(st, wh))
  {
  }

  // ----- straight-line code -----

  lemma OnceConcat(a: seq<Instr>, b: seq<Instr>, lo: nat, mid: nat, hi: nat)
    requires Once(a, lo, mid) && Once(b, mid, hi)
    ensures Once(a + b, lo, hi)
  {
    forall i, r | DefinesAt(a + b, i, r)
      ensures if i < |a| then DefinesAt(a, i, r) else DefinesAt(b, i - |a|, r)
    {
    }
  }

  /** Code that defines no registers. */
  lemma NoDefs(line: seq<Instr>, n: nat)
    requires forall i, r :: !DefinesAt(line, i, r)
    ensures Once(line, n, n)
  {
  }

  lemma OneDef(i: Instr, lo: nat, hi: nat)
    requires lo <= hi && forall r: nat :: InReg(r) in Defs(i) ==> lo <= r < hi
    ensures Once([i], lo, hi)
  {
  }

  lemma {:induction false} LoadsOnce(row: seq<nat>, next: nat)
    ensures Once(LoadLine(row, next), next, next + |row|)
    decreases row
  {
    if row != [] {
      OneDef(Load(next, row[0]), next, next + 1);
      LoadsOnce(row[1..], next + 1);
      OnceConcat([Load(next, row[0])], LoadLine(row[1..], next + 1), next, next + 1, next + |row|);
    }
  }

  lemma {:induction false} StoresOnce(row: seq<nat>, vals: seq<Operand>, n: nat)
    ensures Once(StoreLine(row, vals), n, n)
    decreases row
  {
    if row != [] && vals != [] {
      OneDef(Store(row[0], vals[0]), n, n);
      StoresOnce(row[1..], vals[1..], n);
      OnceConcat([Store(row[0], vals[0])], StoreLine(row[1..], vals[1..]), n, n, n);
    }
  }

  lemma {:induction false} InsertsOnce(agg: Operand, vs: seq<Operand>, i: nat, next: nat)
    ensures Once(InsertLine(agg, vs, i, next), next, next + |vs|)
    decreases vs
  {
    if vs != [] {
      OneDef(Insert(next, agg, vs[0], i), next, next + 1);
      InsertsOnce(Reg(next), vs[1..], i + 1, next + 1);
      OnceConcat([Insert(next, agg, vs[0], i)], InsertLine(Reg(next), vs[1..], i + 1, next + 1), next, next + 1,
                 next + |vs|);
    }
  }

  lemma {:induction false} ExtractsOnce(agg: Operand, n: nat, i: nat, next: nat)
    ensures Once(ExtractLine(agg, n, i, next), next, next + n)
    decreases n
  {
    if n != 0 {
      OneDef(Extract(next, agg, i), next, next + 1);
      ExtractsOnce(agg, n - 1, i + 1, next + 1);
      OnceConcat([Extract(next, agg, i)], ExtractLine(agg, n - 1, i + 1, next + 1), next, next + 1, next + n);
    }
  }

  lemma TagOnce(rows: seq<Row>, tag: nat, vs: seq<Operand>, next: nat)
    requires TagPiece(rows, tag, vs, next).Some?
    ensures var p := TagPiece(rows, tag, vs, next).value; Once(p.line, next, p.next)
  {
    hide InsertLine, Once;
    var row0, n1 := Const(LStruct(seq(|vs|, _ => Undef))), next + |vs|;
    var p := TagPiece(rows, tag, vs, next).value;
    InsertsOnce(row0, vs, 0, next);
    var b := if HasTagField(rows) then [Insert(n1, Const(PoisonSum(rows)), Const(LInt(tag)), 0)] else [];
    if b == [] { NoDefs(b, n1); } else { OneDef(b[0], n1, n1 + 1); }
    OnceConcat(InsertLine(row0, vs, 0, next), b, next, n1, n1 + |b|);
    var last := p.line[|p.line| - 1];
    OneDef(last, n1 + |b|, p.next);
    OnceConcat(InsertLine(row0, vs, 0, next) + b, [last], next, n1 + |b|, p.next);
    assert p.line == InsertLine(row0, vs, 0, next) + b + [last];
  }

  lemma UntagOnce(rows: seq<Row>, tag: nat, v: Operand, next: nat)
    requires tag < |rows|
    ensures var p := UntagPiece(rows, tag, v, next); Once(p.line, next, p.next)
  {
    var first := Extract(next, v, VariantFieldIndex(rows, tag));
    OneDef(first, next, next + 1);
    ExtractsOnce(Reg(next), |rows[tag].tys|, 0, next + 1);
    OnceConcat([first], ExtractLine(Reg(next), |rows[tag].tys|, 0, next + 1), next, next + 1,
               next + 1 + |rows[tag].tys|);
  }

  lemma GetTagOnce(rows: seq<Row>, v: Operand, next: nat)
    ensures var p := GetTagPiece(rows, v, next); Once(p.line, next, p.next)
  {
    if HasTagField(rows) { OneDef(Extract(next, v, 0), next, next + 1); } else { NoDefs([], next); }
  }

  lemma {:induction false} ConstOnce(v: Val, next: nat)
    requires ConstPiece(v, next).Some?
    ensures var p := ConstPiece(v, next).value; Once(p.line, next, p.next)
    decreases v, 1
  {
    hide Once, TagPiece;
    match v {
      case SumV(tag, vals, rows) =>
        ConstsOnce(vals, next);
        var p := ConstsPiece(vals, next).value;
        TagOnce(rows, tag, p.vals, p.next);
        var q := TagPiece(rows, tag, p.vals, p.next).value;
        OnceConcat(p.line, q.line, next, p.next, q.next);
      case _ => NoDefs([], next);
    }
  }

  lemma {:induction false} ConstsOnce(vs: seq<Val>, next: nat)
    requires ConstsPiece(vs, next).Some?
    ensures var p := ConstsPiece(vs, next).value; Once(p.line, next, p.next)
    decreases vs, 0
  {
    hide Once;
    if vs == [] {
      NoDefs([], next);
    } else {
      ConstOnce(vs[0], next);
      var p := ConstPiece(vs[0], next).value;
      ConstsOnce(vs[1..], p.next);
      var q := ConstsPiece(vs[1..], p.next).value;
      OnceConcat(p.line, q.line, next, p.next, q.next);
    }
  }

  lemma CallOnce(callee: Operand, args: seq<Operand>, n: nat, next: nat)
    ensures var p := CallPiece(callee, args, n, next); Once(p.line, next, p.next)
  {
    hide Once;
    var call, p := Machine.Call(next, callee, args), UnpackPiece(n, next + 1);
    OneDef(call, next, next + 1);
    if n < 2 { NoDefs([], next + 1); } else { ExtractsOnce(Reg(next), n, 0, next + 1); }
    OnceConcat([call], p.line, next, next + 1, p.next);
  }

  lemma SuccessOnce(rows: seq<Row>, v: Operand, size: nat, p: Piece, next: nat)
    requires SuccessPiece(rows, v, size, p, next).Some? && Once(p.line, next + 1, p.next)
    ensures var r := SuccessPiece(rows, v, size, p, next).value; Once(r.line, next, r.next)
  {
    hide TagPiece, Once;
    var spill := SpillLine(v, size, next);
    OneDef(spill[0], next, next + 1);
    OneDef(spill[1], next + 1, next + 1);
    OnceConcat([spill[0]], [spill[1]], next, next + 1, next + 1);
    assert spill == [spill[0]] + [spill[1]];
    TagOnce(rows, 1, p.vals, p.next);
    var q := TagPiece(rows, 1, p.vals, p.next).value;
    OnceConcat(spill, p.line, next, next + 1, p.next);
    OnceConcat(spill + p.line, q.line, next, p.next, q.next);
  }

  lemma OnceCons(i: Instr, line: seq<Instr>, lo: nat, mid: nat, hi: nat)
    requires lo <= mid && (forall r: nat :: InReg(r) in Defs(i) ==> lo <= r < mid) && Once(line, mid, hi)
    ensures Once([i] + line, lo, hi)
  {
    hide Once;
    OneDef(i, lo, mid);
    OnceConcat([i], line, lo, mid, hi);
  }

  lemma AccessOnce(op: ArrayOp, size: nat, vals: seq<Operand>, next: nat)
    requires IsAccess(op, |vals|)
    ensures var p := AccessFields(op, size, vals, next); Once(p.line, next + 1, p.next)
  {
    hide Once;
    var a, n := Reg(next), next + 1;
    var gep, load := Gep(n, a, vals[1]), LoadElem(n + 1, Reg(n));
    NoDefs([], AccessFields(op, size, vals, next).next);
    var rest: seq<Instr> := [];
    if op.SetOp? {
      var store, reload := StoreElem(Reg(n), vals[2]), LoadArray(n + 2, a, size);
      OnceCons(reload, [], n + 2, n + 3, n + 3);
      OnceCons(store, [reload] + [], n + 2, n + 2, n + 3);
      rest := [store] + ([reload] + []);
    } else if op.SwapOp? {
      rest := SwapOnce(size, vals, next);
    }
    var end := AccessFields(op, size, vals, next).next;
    OnceCons(load, rest, n + 1, n + 2, end);
    OnceCons(gep, [load] + rest, n, n + 1, end);
    assert AccessFields(op, size, vals, next).line == [gep] + ([load] + rest);
  }

  lemma SwapOnce(size: nat, vals: seq<Operand>, next: nat) returns (rest: seq<Instr>)
    requires |vals| == 3
    ensures rest == AccessFields(SwapOp, size, vals, next).line[2..] && Once(rest, next + 3, next + 6)
  {
    hide Once;
    var a, n := Reg(next), next + 1;
    var gep, load := Gep(n + 2, a, vals[2]), LoadElem(n + 3, Reg(n + 2));
    var store, store2 := StoreElem(Reg(n), Reg(n + 3)), StoreElem(Reg(n + 2), Reg(n + 1));
    var reload := LoadArray(n + 4, a, size);
    NoDefs([], n + 5);
    var l1 := [reload] + [];
    var l2 := [store2] + l1;
    var l3 := [store] + l2;
    var l4 := [load] + l3;
    OnceCons(reload, [], n + 4, n + 5, n + 5);
    OnceCons(store2, l1, n + 4, n + 4, n + 5);
    OnceCons(store, l2, n + 4, n + 4, n + 5);
    OnceCons(load, l3, n + 3, n + 4, n + 5);
    OnceCons(gep, l4, n + 2, n + 3, n + 5);
    rest := [gep] + l4;
  }

  lemma GuardOnce(op: ArrayOp, size: nat, vals: seq<Operand>, next: nat)
    requires IsAccess(op, |vals|)
    ensures var g := GuardPiece(op, size, vals, next); Once(g.line, next, g.next)
  {
  }

  lemma PopOnce(size: nat, left: bool, next: nat)
    requires size > 0
    ensures var p := PopFields(size, left, next); Once(p.line, next + 1, p.next)
  {
  }

  // ----- mailboxes and single blocks -----

  lemma {:induction false} NewRowFresh(st: ES, tys: seq<Ty>)
    ensures Fresh(st, NewRow(st, tys))
    decreases tys
  {
    if tys == [] {
      SameCode(st, st);
    } else {
      hide Fresh;
      AllocFresh(st, tys[0]);
      NewRowFresh(Alloc(st, tys[0]), tys[1..]);
      FreshTrans(st, Alloc(st, tys[0]), NewRow(st, tys));
    }
  }

  lemma AllocFresh(st: ES, ty: Ty)
    ensures Fresh(st, Alloc(st, ty))
  {
  }

  lemma {:induction false} MapWiresFresh(st: ES, ws: seq<Wire>, tys: seq<Ty>)
    ensures Fresh(st, MapWires(st, ws, tys))
    decreases ws
  {
    hide Fresh;
    if ws == [] || tys == [] {
      SameCode(st, st);
    } else {
      var s := MapWire(st, ws[0], tys[0]);
      AllocFresh(st, tys[0]);
      SameCode(Alloc(st, tys[0]), Alloc(st, tys[0]).(env := st.env[ws[0] := |st.slots|]));
      FreshTrans(st, Alloc(st, tys[0]), Alloc(st, tys[0]).(env := st.env[ws[0] := |st.slots|]));
      SameCode(st, st);
      MapWiresFresh(s, ws[1..], tys[1..]);
      FreshTrans(st, s, MapWires(st, ws, tys));
    }
  }

  lemma ReadFresh(st: ES, row: seq<nat>)
    ensures Fresh(st, PutPiece(st, ReadRow(row, st.regs)))
  {
    LoadsOnce(row, st.regs);
    PutFresh(st, LoadLine(row, st.regs), st.regs + |row|);
  }

  lemma WriteFresh(st: ES, row: seq<nat>, vals: seq<Operand>)
    ensures Fresh(st, WriteRow(st, row, vals))
  {
    hide Fresh, Once, Put;
    StoresOnce(row, vals, st.regs);
    PutFresh(st, StoreLine(row, vals), st.regs);
    SameCode(st, Fail(st));
  }

  lemma EndFresh(st: ES, i: Instr)
    requires Defs(i) == {}
    ensures Fresh(st, Terminate(st, i))
  {
    OneDef(i, st.regs, st.regs);
    PutFresh(st, [i], st.regs);
  }

  lemma FinishFresh(st: ES, p: Option<Piece>, outs: seq<nat>)
    requires p.Some? ==> Once(p.value.line, st.regs, p.value.next)
    ensures Fresh(st, Finish(st, p, outs))
  {
    hide Fresh, Once, Put, WriteRow;
    match p {
      case Some(p) =>
        PutFresh(st, p.line, p.next);
        WriteFresh(PutPiece(st, p), outs, p.vals);
        FreshTrans(st, PutPiece(st, p), WriteRow(PutPiece(st, p), outs, p.vals));
      case None => SameCode(st, Fail(st));
    }
  }

  lemma AskedFinishFresh(st: ES, needs: set<Need>, p: Option<Piece>, outs: seq<nat>)
    requires p.Some? ==> Once(p.value.line, st.regs, p.value.next)
    ensures Fresh(st, Finish(Ask(st, needs), p, outs))
  {
    hide Fresh, Once, Finish;
    SameCode(st, Ask(st, needs));
    FinishFresh(Ask(st, needs), p, outs);
    FreshTrans(st, Ask(st, needs), Finish(Ask(st, needs), p, outs));
  }

  /** Into a new block, and back. */
  lemma AsideFresh(a: ES, b: ES, c: ES, cur: nat)
    requires Fresh(a, b) && Fresh(At(b, |a.code|), c)
    ensures Fresh(a, At(c, cur))
  {
    hide Fresh;
    SameCode(b, At(b, |a.code|));
    FreshTrans(a, b, At(b, |a.code|));
    FreshTrans(a, At(b, |a.code|), c);
    SameCode(c, At(c, cur));
    FreshTrans(a, c, At(c, cur));
  }

  lemma MoveFresh(a: ES, b: ES, cur: nat)
    requires Fresh(a, b)
    ensures Fresh(a, At(b, cur))
  {
    hide Fresh;
    SameCode(b, At(b, cur));
    FreshTrans(a, b, At(b, cur));
  }

  lemma AskFresh(a: ES, b: ES, needs: set<Need>)
    requires Fresh(a, b)
    ensures Fresh(a, Ask(b, needs))
  {
    hide Fresh;
    SameCode(b, Ask(b, needs));
    FreshTrans(a, b, Ask(b, needs));
  }

  lemma FailFresh(a: ES, b: ES)
    requires Fresh(a, b)
    ensures Fresh(a, Fail(b))
  {
    hide Fresh;
    SameCode(b, Fail(b));
    FreshTrans(a, b, Fail(b));
  }

  // ----- branching -----

  lemma ArmFresh(st: ES, rows: seq<Row>, v: Operand, rest: seq<Operand>, targets: seq<Target>, i: nat, last: nat)
    returns (s: ES)
    requires i < |rows|
    ensures Fresh(st, s)
    ensures Arms(st, rows, v, rest, targets, i, last).0 == Arms(s, rows, v, rest, targets, i + 1, |st.code|).0
  {
    hide Fresh, Once, Put, UntagPiece, WriteRow, NewBlock;
    var s0 := NewBlock(st, After(last));
    var s1 := At(s0, |st.code|);
    var p := UntagPiece(rows, i, v, s1.regs);
    var s2 := PutPiece(s1, p);
    NewBlockFresh(st, After(last));
    SameCode(s0, s1);
    FreshTrans(st, s0, s1);
    UntagOnce(rows, i, v, s1.regs);
    PutFresh(s1, p.line, p.next);
    FreshTrans(st, s1, s2);
    if i < |targets| {
      var s3 := WriteRow(s2, targets[i].row, p.vals + rest);
      WriteFresh(s2, targets[i].row, p.vals + rest);
      FreshTrans(st, s2, s3);
      s := Terminate(s3, Br(targets[i].blk));
      EndFresh(s3, Br(targets[i].blk));
      FreshTrans(st, s3, s);
    } else {
      s := Fail(s2);
      FailFresh(st, s2);
    }
  }

  lemma NoArmsFresh(st: ES, rows: seq<Row>, v: Operand, rest: seq<Operand>, targets: seq<Target>, last: nat)
    ensures Fresh(st, Arms(st, rows, v, rest, targets, |rows|, last).0)
  {
    SameCode(st, st);
  }

  lemma {:induction false} ArmsFresh(st: ES, rows: seq<Row>, v: Operand, rest: seq<Operand>, targets: seq<Target>,
                                     i: nat, last: nat)
    requires i <= |rows|
    ensures Fresh(st, Arms(st, rows, v, rest, targets, i, last).0)
    decreases |rows| - i
  {
    hide Fresh, Arms;
    if i == |rows| {
      NoArmsFresh(st, rows, v, rest, targets, last);
    } else {
      var s := ArmFresh(st, rows, v, rest, targets, i, last);
      ArmsFresh(s, rows, v, rest, targets, i + 1, |st.code|);
      FreshTrans(st, s, Arms(st, rows, v, rest, targets, i, last).0);
    }
  }

  lemma DestructureFresh(st: ES, rows: seq<Row>, v: Operand, rest: seq<Operand>, targets: seq<Target>)
    ensures Fresh(st, Destructure(st, rows, v, rest, targets))
  {
    hide Fresh, Once, Arms, Put, GetTagPiece;
    if rows == [] {
      SameCode(st, Fail(st));
    } else {
      ArmsFresh(st, rows, v, rest, targets, 0, st.cur);
      var r := Arms(st, rows, v, rest, targets, 0, st.cur);
      var s := At(r.0, st.cur);
      MoveFresh(st, r.0, st.cur);
      var p := GetTagPiece(rows, v, s.regs);
      GetTagOnce(rows, v, s.regs);
      PutFresh(s, p.line, p.next);
      FreshTrans(st, s, PutPiece(s, p));
      EndFresh(PutPiece(s, p), Switch(p.vals[0], r.1[0].1, r.1[1..]));
      FreshTrans(st, PutPiece(s, p), Destructure(st, rows, v, rest, targets));
    }
  }

  // ----- nodes -----

  lemma PreludeFresh(st: ES, n: Node)
    ensures Fresh(st, Prelude(st, n))
  {
    hide Fresh, MapWires, Put, LoadLine;
    var s1 := MapWires(st, n.ins, n.inTys);
    MapWiresFresh(st, n.ins, n.inTys);
    var row := RowOf(s1.env, n.ins);
    var s2 := PutPiece(s1, ReadRow(row, s1.regs));
    ReadFresh(s1, row);
    FreshTrans(st, s1, s2);
    MapWiresFresh(s2, OutWires(n.id, |n.outs|), n.outs);
    FreshTrans(st, s2, Prelude(st, n));
  }

  lemma {:induction false} NodesFresh(st: ES, nodes: seq<Node>, inputs: seq<Operand>, promise: seq<nat>)
    ensures Fresh(st, EmitNodes(st, nodes, inputs, promise))
    decreases nodes, 0
  {
    hide Fresh, EmitNode;
    if nodes == [] {
      SameCode(st, st);
    } else {
      var s := EmitNode(st, nodes[0], inputs, promise);
      NodeFresh(st, nodes[0], inputs, promise);
      NodesFresh(s, nodes[1..], inputs, promise);
      FreshTrans(st, s, EmitNodes(st, nodes, inputs, promise));
    }
  }

  lemma {:induction false} NodeFresh(st: ES, n: Node, inputs: seq<Operand>, promise: seq<nat>)
    ensures Fresh(st, EmitNode(st, n, inputs, promise))
    decreases n, 2
  {
    hide Fresh, Prelude, EmitOp, WriteRow;
    var s, vals, outs := Prelude(st, n), Regs(st.regs, |n.ins|), NodeOuts(st, n);
    PreludeFresh(st, n);
    match n.op {
      case Input => WriteFresh(s, outs, inputs);
      case Output => WriteFresh(s, promise, vals);
      case _ => OpFresh(s, n, vals, outs);
    }
    assert EmitNode(st, n, inputs, promise) == EmitAt(s, n, vals, outs, inputs, promise);
    FreshTrans(st, s, EmitNode(st, n, inputs, promise));
  }

  lemma {:induction false} OpFresh(st: ES, n: Node, vals: seq<Operand>, outs: seq<nat>)
    ensures Fresh(st, EmitOp(st, n, vals, outs))
    decreases n, 1
  {
    hide Fresh, Once, Finish, TagPiece, ConstPiece, CallPiece, EmitArray, EmitRegion, EmitCond, EmitCfg;
    SameCode(st, Fail(st));
    match n.op {
      case Tag(tag, rows) =>
        if TagPiece(rows, tag, vals, st.regs).Some? { TagOnce(rows, tag, vals, st.regs); }
        AskedFinishFresh(st, {NeedType(Sum(rows))}, TagPiece(rows, tag, vals, st.regs), outs);
      case Ext(op) =>
        var i := ExtOp(st.regs, |outs|, op, vals);
        ExtOnce(st.regs, |outs|, op, vals);
        AskedFinishFresh(st, {NeedOp(op)}, Some(Piece([i], st.regs + |outs|, Regs(st.regs, |outs|))), outs);
      case Array(op, elem, size) => ArrayFresh(st, op, elem, size, vals, outs);
      case LoadConst(v) =>
        if ConstPiece(v, st.regs).Some? {
          ConstOnce(v, st.regs);
          AskedFinishFresh(st, ConstNeeds(v), ConstPiece(v, st.regs), outs);
        }
      case LoadFunc(f) =>
        NoDefs([], st.regs);
        RefFresh(st, f, Piece([], st.regs, [Const(LFn(f))]), outs);
      case CallFn(f) =>
        CallOnce(Const(LFn(f)), vals, |outs|, st.regs);
        RefFresh(st, f, CallPiece(Const(LFn(f)), vals, |outs|, st.regs), outs);
      case CallIndirect =>
        if vals != [] {
          CallOnce(vals[0], vals[1..], |outs|, st.regs);
          FinishFresh(st, Some(CallPiece(vals[0], vals[1..], |outs|, st.regs)), outs);
        }
      case Dfg(nodes) => RegionFresh(st, nodes, vals, outs);
      case Cond(rows, cases) =>
        if vals != [] {
          CondFresh(st, rows, cases, vals[0], vals[1..], n.outs, outs);
          AskFresh(st, EmitCond(st, rows, cases, vals[0], vals[1..], n.outs, outs), {NeedType(Sum(rows))});
        }
      case Cfg(children) => CfgFresh(st, children, vals, outs, n.outs);
      case FuncDef(f) => SameCode(st, st.(todo := st.todo + {f}));
      case Static => SameCode(st, st);
      case _ =>
    }
  }

  lemma ExtOnce(dst: nat, count: nat, op: nat, args: seq<Operand>)
    ensures Once([ExtOp(dst, count, op, args)], dst, dst + count)
  {
    OneDef(ExtOp(dst, count, op, args), dst, dst + count);
  }

  lemma RefFresh(st: ES, f: NodeId, p: Piece, outs: seq<nat>)
    requires Once(p.line, st.regs, p.next)
    ensures Fresh(st, Finish(st.(refs := st.refs + {f}), Some(p), outs))
  {
    hide Fresh, Once, Finish;
    var s := st.(refs := st.refs + {f});
    SameCode(st, s);
    FinishFresh(s, Some(p), outs);
    FreshTrans(st, s, Finish(s, Some(p), outs));
  }

  lemma {:induction false} RegionFresh(st: ES, nodes: seq<Node>, inputs: seq<Operand>, promise: seq<nat>)
    ensures Fresh(st, EmitRegion(st, nodes, inputs, promise))
    decreases nodes, 1
  {
    hide Fresh, EmitNodes, CountOp;
    NodesFresh(st, nodes, inputs, promise);
    FailFresh(st, EmitNodes(st, nodes, inputs, promise));
  }

  // ----- arrays -----

  lemma ArrayFresh(st: ES, op: ArrayOp, elem: Ty, size: nat, vals: seq<Operand>, outs: seq<nat>)
    ensures Fresh(st, EmitArray(st, op, elem, size, vals, outs))
  {
    hide Fresh, Once, Finish, NewArrayPiece, PoppedPiece, EmitAccess;
    var needs, rows := ArrayNeeds(op, elem, size), ArrayRows(op, elem, size);
    var s := Ask(st, needs);
    SameCode(st, s);
    FailFresh(st, s);
    match op {
      case NewArray =>
        NewArrayOnce(size, vals, st.regs);
        AskedFinishFresh(st, needs, Some(NewArrayPiece(size, vals, st.regs)), outs);
      case PopOp(left) =>
        if |vals| == 1 {
          PoppedOnce(rows, left, size, vals[0], st.regs);
          AskedFinishFresh(st, needs, PoppedPiece(rows, left, size, vals[0], st.regs), outs);
        }
      case DiscardEmpty =>
      case _ =>
        if IsAccess(op, |vals|) {
          BranchFresh(s, op, rows, size, vals, outs);
          FreshTrans(st, s, EmitAccess(s, op, rows, size, vals, outs));
        }
    }
  }

  lemma NewArrayOnce(size: nat, vs: seq<Operand>, next: nat)
    ensures var p := NewArrayPiece(size, vs, next); Once(p.line, next, p.next)
  {
    InsertsOnce(Const(LArr(Undefs(size))), vs, 0, next);
  }

  lemma PoppedOnce(rows: seq<Row>, left: bool, size: nat, v: Operand, next: nat)
    ensures var p := PoppedPiece(rows, left, size, v, next); p.Some? ==> Once(p.value.line, next, p.value.next)
  {
    hide Once, TagPiece, SuccessPiece, PopFields;
    if size == 0 {
      if TagPiece(rows, 0, [], next).Some? { TagOnce(rows, 0, [], next); }
    } else if SuccessPiece(rows, v, size, PopFields(size, left, next), next).Some? {
      PopOnce(size, left, next);
      SuccessOnce(rows, v, size, PopFields(size, left, next), next);
    }
  }

  lemma SideFresh(st: ES, b: nat, p: Option<Piece>, exitRow: seq<nat>, exit: nat)
    requires p.Some? ==> Once(p.value.line, st.regs, p.value.next)
    ensures Fresh(st, EmitSide(st, b, p, exitRow, exit))
  {
    hide Fresh, Once, Finish, NewBlock, Terminate;
    var s := NewBlock(st, Before(b));
    NewBlockFresh(st, Before(b));
    var s1 := At(s, |st.code|);
    assert s1.regs == st.regs by { NewBlockRegs(st, Before(b)); }
    FinishFresh(s1, p, exitRow);
    EndFresh(Finish(s1, p, exitRow), Br(exit));
    FreshTrans(s1, Finish(s1, p, exitRow), Terminate(Finish(s1, p, exitRow), Br(exit)));
    AsideFresh(st, s, Terminate(Finish(s1, p, exitRow), Br(exit)), st.cur);
  }

  lemma NewBlockRegs(st: ES, wh: Where)
    ensures NewBlock(st, wh).regs == st.regs
  {
  }

  lemma BranchFresh(st: ES, op: ArrayOp, rows: seq<Row>, size: nat, vals: seq<Operand>, outs: seq<nat>)
    requires IsAccess(op, |vals|)
    ensures Fresh(st, EmitAccess(st, op, rows, size, vals, outs))
  {
    hide Fresh, Once, CondExit, EmitSide, SuccessPiece, TagPiece, AccessFields, GuardPiece, Put;
    var exit, exitRow := |st.code|, FreshRow(|st.slots|, 1);
    var s1 := CondExit(st, [Sum(rows)], outs);
    CondExitFresh(st, [Sum(rows)], outs);
    var p := AccessPiece(op, rows, size, vals, s1.regs);
    AccessOnce(op, size, vals, s1.regs);
    if p.Some? { SuccessOnce(rows, vals[0], size, AccessFields(op, size, vals, s1.regs), s1.regs); }
    SideFresh(s1, exit, p, exitRow, exit);
    var s2 := EmitSide(s1, exit, p, exitRow, exit);
    FreshTrans(st, s1, s2);
    var q := TagPiece(rows, 0, HandedBack(op, vals), s2.regs);
    if q.Some? { TagOnce(rows, 0, HandedBack(op, vals), s2.regs); }
    SideFresh(s2, exit + 1, q, exitRow, exit);
    var s3 := AccessSides(st, op, rows, size, vals, outs);
    FreshTrans(st, s2, s3);
    var g := GuardPiece(op, size, vals, s3.regs);
    GuardOnce(op, size, vals, s3.regs);
    PutFresh(s3, g.line, g.next);
    FreshTrans(st, s3, PutPiece(s3, g));
    var i := CondBr(g.vals[0], |st.code| + 1, |st.code| + 2);
    EndFresh(PutPiece(s3, g), i);
    FreshTrans(st, PutPiece(s3, g), Terminate(PutPiece(s3, g), i));
    MoveFresh(st, Terminate(PutPiece(s3, g), i), exit);
  }

  // ----- conditionals -----

  lemma CondExitFresh(st: ES, tys: seq<Ty>, outs: seq<nat>)
    ensures Fresh(st, CondExit(st, tys, outs))
  {
    hide Fresh, NewRow, NewBlock, Put, WriteRow, LoadLine;
    NewRowFresh(st, tys);
    NewRowBlocks(st, tys);
    var s0 := NewRow(st, tys);
    NewBlockFresh(s0, AtEnd);
    FreshTrans(st, s0, NewBlock(s0, AtEnd));
    var s1 := At(NewBlock(s0, AtEnd), |st.code|);
    var p := ReadRow(FreshRow(|st.slots|, |tys|), s1.regs);
    ReadFresh(s1, FreshRow(|st.slots|, |tys|));
    WriteFresh(PutPiece(s1, p), outs, p.vals);
    FreshTrans(s1, PutPiece(s1, p), WriteRow(PutPiece(s1, p), outs, p.vals));
    AsideFresh(st, NewBlock(s0, AtEnd), WriteRow(PutPiece(s1, p), outs, p.vals), st.cur);
  }

  lemma {:induction false} NewRowBlocks(st: ES, tys: seq<Ty>)
    ensures |NewRow(st, tys).code| == |st.code|
    decreases tys
  {
    if tys != [] { NewRowBlocks(Alloc(st, tys[0]), tys[1..]); }
  }

  lemma {:induction false} CondFresh(st: ES, rows: seq<Row>, cases: seq<Case>, v: Operand, rest: seq<Operand>,
                                     tys: seq<Ty>, outs: seq<nat>)
    ensures Fresh(st, EmitCond(st, rows, cases, v, rest, tys, outs))
    decreases cases, 1
  {
    hide Fresh, CondExit, EmitCases, Destructure;
    var s1, exitRow := CondExit(st, tys, outs), FreshRow(|st.slots|, |tys|);
    CondExitFresh(st, tys, outs);
    CasesFresh(s1, cases, exitRow, |st.code|);
    var r := EmitCases(s1, cases, exitRow, |st.code|);
    FreshTrans(st, s1, r.0);
    DestructureFresh(r.0, rows, v, rest, r.1);
    FreshTrans(st, r.0, Destructure(r.0, rows, v, rest, r.1));
    MoveFresh(st, Destructure(r.0, rows, v, rest, r.1), |st.code|);
  }

  lemma {:induction false} CasesFresh(st: ES, cases: seq<Case>, exitRow: seq<nat>, exit: nat)
    ensures Fresh(st, EmitCases(st, cases, exitRow, exit).0)
    decreases cases, 0
  {
    hide Fresh, EmitCase, RegionIns;
    if cases == [] {
      SameCode(st, st);
    } else {
      var s := EmitCase(st, cases[0], exitRow, exit);
      CaseFresh(st, cases[0], exitRow, exit);
      CasesFresh(s, cases[1..], exitRow, exit);
      FreshTrans(st, s, EmitCases(st, cases, exitRow, exit).0);
    }
  }

  lemma {:induction false} CaseFresh(st: ES, c: Case, exitRow: seq<nat>, exit: nat)
    ensures Fresh(st, EmitCase(st, c, exitRow, exit))
    decreases c, 0
  {
    hide Fresh, NewRow, NewBlock, Put, EmitRegion, LoadLine, RegionIns;
    var tys := RegionIns(c.nodes);
    NewRowFresh(st, tys);
    NewRowBlocks(st, tys);
    var s0 := NewRow(st, tys);
    NewBlockFresh(s0, Before(exit));
    FreshTrans(st, s0, NewBlock(s0, Before(exit)));
    var s1 := At(NewBlock(s0, Before(exit)), |st.code|);
    ReadFresh(s1, FreshRow(|st.slots|, |tys|));
    var s2 := CaseStart(st, c, exit);
    var vals := Regs(st.regs, |tys|);
    RegionFresh(s2, c.nodes, vals, exitRow);
    var s3 := EmitRegion(s2, c.nodes, vals, exitRow);
    FreshTrans(s1, s2, s3);
    EndFresh(s3, Br(exit));
    FreshTrans(s1, s3, Terminate(s3, Br(exit)));
    AsideFresh(st, NewBlock(s0, Before(exit)), Terminate(s3, Br(exit)), st.cur);
  }

  // ----- control-flow graphs -----

  lemma {:induction false} MakeBlocksFresh(st: ES, children: seq<Child>, exit: nat, tys: seq<Ty>)
    ensures Fresh(st, MakeBlocks(st, children, exit, tys).0)
    decreases children
  {
    hide Fresh, NewRow, NewBlock, MapWires, InputWires, RegionIns;
    SameCode(st, st);
    if children != [] {
      match children[0] {
        case Exit(_) =>
          NewRowFresh(st, tys);
          MakeBlocksFresh(NewRow(st, tys), children[1..], exit, tys);
          FreshTrans(st, NewRow(st, tys), MakeBlocks(st, children, exit, tys).0);
        case Block(_, _, nodes, _) =>
          var s0 := NewBlock(st, Before(exit));
          NewBlockFresh(st, Before(exit));
          MapWiresFresh(s0, InputWires(nodes), RegionIns(nodes));
          var s := MapWires(s0, InputWires(nodes), RegionIns(nodes));
          FreshTrans(st, s0, s);
          MakeBlocksFresh(s, children[1..], exit, tys);
          FreshTrans(st, s, MakeBlocks(st, children, exit, tys).0);
        case _ => MakeBlocksFresh(st, children[1..], exit, tys);
      }
    }
  }

  lemma {:induction false} CfgFresh(st: ES, children: seq<Child>, vals: seq<Operand>, outs: seq<nat>, tys: seq<Ty>)
    ensures Fresh(st, EmitCfg(st, children, vals, outs, tys))
    decreases children, 1
  {
    hide Fresh, NewBlock, MakeBlocks, EmitChildren, WriteRow, Terminate;
    var s0, exit := NewBlock(st, AtEnd), |st.code|;
    NewBlockFresh(st, AtEnd);
    MakeBlocksFresh(s0, children, exit, tys);
    var r := MakeBlocks(s0, children, exit, tys);
    FreshTrans(st, s0, r.0);
    FailFresh(st, r.0);
    if |children| >= 2 && children[0].Block? && children[1].Exit? && children[0].id in r.1 {
      var entry := r.1[children[0].id];
      WriteFresh(r.0, entry.row, vals);
      FreshTrans(st, r.0, WriteRow(r.0, entry.row, vals));
      var s := Terminate(WriteRow(r.0, entry.row, vals), Br(entry.blk));
      EndFresh(WriteRow(r.0, entry.row, vals), Br(entry.blk));
      FreshTrans(st, WriteRow(r.0, entry.row, vals), s);
      ChildrenFresh(s, children, r.1, outs);
      FreshTrans(st, s, EmitChildren(s, children, r.1, outs));
      MoveFresh(st, EmitChildren(s, children, r.1, outs), exit);
      FailFresh(st, At(EmitChildren(s, children, r.1, outs), exit));
    }
  }

  lemma {:induction false} ChildrenFresh(st: ES, children: seq<Child>, bbs: map<NodeId, Target>, outs: seq<nat>)
    ensures Fresh(st, EmitChildren(st, children, bbs, outs))
    decreases children, 0
  {
    hide Fresh, EmitChild;
    if children == [] {
      SameCode(st, st);
    } else {
      var s := EmitChild(st, children[0], bbs, outs);
      ChildFresh(st, children[0], bbs, outs);
      ChildrenFresh(s, children[1..], bbs, outs);
      FreshTrans(st, s, EmitChildren(st, children, bbs, outs));
    }
  }

  lemma {:induction false} ChildFresh(st: ES, c: Child, bbs: map<NodeId, Target>, outs: seq<nat>)
    ensures Fresh(st, EmitChild(st, c, bbs, outs))
    decreases c, 0
  {
    hide Fresh, BlockStart, EmitRegion, Destructure, Put, WriteRow, LoadLine, RegionOuts;
    SameCode(st, Fail(st));
    match c {
      case Block(id, rows, nodes, succs) =>
        if id in bbs && (forall s :: s in succs ==> s in bbs) && RegionOuts(nodes) != [] {
          var s1 := BlockStart(st, nodes, bbs[id]);
          BlockStartFresh(st, nodes, bbs[id]);
          var promise := RowOf(s1.env, RegionOuts(nodes));
          RegionFresh(s1, nodes, Regs(st.regs, |bbs[id].row|), promise);
          var s2 := EmitRegion(s1, nodes, Regs(st.regs, |bbs[id].row|), promise);
          FreshTrans(st, s1, s2);
          var p := ReadRow(promise, s2.regs);
          ReadFresh(s2, promise);
          FreshTrans(st, s2, PutPiece(s2, p));
          var d := Destructure(PutPiece(s2, p), rows, p.vals[0], p.vals[1..], Targets(succs, bbs));
          DestructureFresh(PutPiece(s2, p), rows, p.vals[0], p.vals[1..], Targets(succs, bbs));
          FreshTrans(st, PutPiece(s2, p), d);
          MoveFresh(st, d, st.cur);
          AskFresh(st, At(d, st.cur), {NeedType(Sum(rows))});
        }
      case Exit(id) =>
        if id in bbs {
          var s := At(st, bbs[id].blk);
          var p := ReadRow(bbs[id].row, st.regs);
          SameCode(st, s);
          ReadFresh(s, bbs[id].row);
          FreshTrans(st, s, PutPiece(s, p));
          WriteFresh(PutPiece(s, p), outs, p.vals);
          FreshTrans(st, PutPiece(s, p), WriteRow(PutPiece(s, p), outs, p.vals));
          MoveFresh(st, WriteRow(PutPiece(s, p), outs, p.vals), st.cur);
        }
      case ChildFunc(f) => SameCode(st, st.(todo := st.todo + {f}));
      case ChildStatic => SameCode(st, st);
    }
  }

  lemma BlockStartFresh(st: ES, nodes: seq<Node>, t: Target)
    ensures Fresh(st, BlockStart(st, nodes, t))
  {
    hide Fresh, MapWires, Put, LoadLine, RegionOuts, RegionOutTys;
    var s0 := At(st, t.blk);
    var s1 := MapWires(s0, RegionOuts(nodes), RegionOutTys(nodes));
    SameCode(st, s0);
    MapWiresFresh(s0, RegionOuts(nodes), RegionOutTys(nodes));
    FreshTrans(st, s0, s1);
    ReadFresh(s1, t.row);
    MapWiresRegs(s0, RegionOuts(nodes), RegionOutTys(nodes));
    FreshTrans(st, s1, BlockStart(st, nodes, t));
  }

  lemma {:induction false} MapWiresRegs(st: ES, ws: seq<Wire>, tys: seq<Ty>)
    ensures MapWires(st, ws, tys).regs == st.regs
    decreases ws
  {
    if ws != [] && tys != [] { MapWiresRegs(MapWire(st, ws[0], tys[0]), ws[1..], tys[1..]); }
  }

  // ----- functions -----

  lemma FuncFresh(f: FuncDefn)
    ensures Fresh(Initial, EmitFunc(f))
  {
    hide Fresh, NewRow, EmitRegion, Put, LoadLine;
    var s0, row := FuncStart(f), FreshRow(0, |f.outs|);
    NewRowFresh(Initial, f.outs);
    RegionFresh(s0, f.nodes, Params(|f.ins|), row);
    var s := FuncBody(f);
    FreshTrans(Initial, s0, s);
    var p := ReadRow(row, s.regs);
    ReadFresh(s, row);
    FreshTrans(Initial, s, PutPiece(s, p));
    var s1 := Terminate(PutPiece(s, p), Ret(p.vals));
    EndFresh(PutPiece(s, p), Ret(p.vals));
    FreshTrans(Initial, PutPiece(s, p), s1);
    MoveFresh(Initial, s1, 0);
    EndFresh(At(s1, 0), Br(1));
    FreshTrans(Initial, At(s1, 0), EmitFunc(f));
  }

  /** In the code of any emitted function a register is defined by one instruction only. */
  lemma RegisterDefinedOnce(f: FuncDefn, b: nat, i: nat, b': nat, i': nat, r: nat)
    requires DefinesReg(EmitFunc(f).code, b, i, r) && DefinesReg(EmitFunc(f).code, b', i', r)
    ensures b == b' && i == i'
  {
    hide EmitFunc;
    FuncFresh(f);
    var t := EmitFunc(f);
    assert Adds(Initial, t, b, i, r) && Adds(Initial, t, b', i', r);
  }
}
