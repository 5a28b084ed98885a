/** The state of the compiler while it emits one function, and the primitive edits it makes:
    new blocks, new stack slots ("mailboxes"), straight-line code at the builder's position.
    These functions specify the methods of class `EmitFuncContext`. */
module Builder {
  import opened Values
  import opened Machine
  import opened Hugr
  import opened Arrays
  import opened Types

  /** `env` maps wires to their mailboxes; `code[0]` is the alloca block and `code[1]` the launch block; `order` is
      the layout of the blocks in the function; `regs` counts the registers used. `needs` collects the LLVM types
      and handlers that were asked for.  `failed` records that another error was raised. Upon any error, and when a
      need is not met, the whole emission is discarded. */
  datatype ES = ES(
    env: map<Wire, nat>,
    slots: seq<Ty>,
    code: seq<Block>,
    order: seq<nat>,
    cur: nat,
    regs: nat,
    todo: set<NodeId>,
    refs: set<NodeId>,
    needs: set<Need>,
    failed: bool)

  datatype Where = AtEnd | Before(b: nat) | After(b: nat)

  /** A basic block together with the mailboxes its inputs are passed in. */
  datatype Target = Target(blk: nat, row: seq<nat>)

  /** Straight-line code, the register counter after it, and the operands it leaves its results in. */
  datatype Piece = Piece(line: seq<Instr>, next: nat, vals: seq<Operand>)

  const Initial := ES(map[], [], [[], []], [0, 1], 1, 0, {}, {}, {}, false)

  function Fail(st: ES): ES {
    st.(failed := true)
  }

  function Ask(st: ES, needs: set<Need>): ES {
    st.(needs := st.needs + needs)
  }

  // ----- blocks -----

  function IndexOf(order: seq<nat>, b: nat): (i: nat)
    ensures i <= |order| && (i < |order| ==> order[i] == b)
  {
    if order == [] || order[0] == b then 0 else 1 + IndexOf(order[1..], b)
  }

  function InsertAt(order: seq<nat>, i: nat, b: nat): seq<nat> {
    if i <= |order| then order[..i] + [b] + order[i..] else order + [b]
  }

  function Place(order: seq<nat>, wh: Where, b: nat): seq<nat> {
    match wh
    case AtEnd => order + [b]
    case Before(x) => InsertAt(order, IndexOf(order, x), b)
    case After(x) => InsertAt(order, IndexOf(order, x) + 1, b)
  }

  /** What the layout becomes: the new block directly precedes the one it is put before, or directly follows the one it
      is put after. */
  ghost predicate Placed(order: seq<nat>, order': seq<nat>, wh: Where, b: nat) {
    match wh
    case AtEnd => order' == order + [b]
    case Before(x) => x in order ==>
      exists i :: 0 <= i < |order| && order[i] == x && order' == order[..i] + [b] + order[i..]
    case After(x) => x in order ==>
      exists i :: 0 <= i < |order| && order[i] == x && order' == order[..i] + [x, b] + order[i + 1..]
  }

  lemma {:induction false} IndexFound(order: seq<nat>, x: nat)
    requires x in order
    ensures IndexOf(order, x) < |order|
  {
    if order[0] != x { IndexFound(order[1..], x); }
  }

  lemma PlaceIs(order: seq<nat>, wh: Where, b: nat)
    ensures Placed(order, Place(order, wh, b), wh, b)
  {
    match wh {
      case AtEnd =>
      case Before(x) => if x in order { IndexFound(order, x); }
      case After(x) =>
        if x in order {
          IndexFound(order, x);
          var i := IndexOf(order, x);
          assert order[..i + 1] + [b] == order[..i] + [x, b];
        }
    }
  }

  /** Creates block `|st.code|`; the builder does not move. */
  function NewBlock(st: ES, wh: Where): ES {
    st.(code := st.code + [[]], order := Place(st.order, wh, |st.code|))
  }

  function At(st: ES, b: nat): ES {
    st.(cur := b)
  }

  function Put(st: ES, line: seq<Instr>, next: nat): ES {
    if st.cur < |st.code| then st.(code := st.code[st.cur := st.code[st.cur] + line], regs := next) else Fail(st)
  }

  function PutPiece(st: ES, p: Piece): ES {
    Put(st, p.line, p.next)
  }

  function Terminate(st: ES, i: Instr): ES {
    Put(st, [i], st.regs)
  }

  // ----- mailboxes -----

  /** Allocates slot `|st.slots|` at the end of the alloca block, with the LLVM type of `ty`. */
  function Alloc(st: ES, ty: Ty): ES {
    if |st.code| > 0 then
      Ask(st, {NeedType(ty)}).(code := st.code[0 := st.code[0] + [Alloca(|st.slots|, ty)]], slots := st.slots + [ty])
    else Fail(st)
  }

  function NewRow(st: ES, tys: seq<Ty>): ES
    decreases tys
  {
    if tys == [] then st else NewRow(Alloc(st, tys[0]), tys[1..])
  }

  /** The slots of a row of `n` mailboxes allocated when `lo` slots existed. */
  function FreshRow(lo: nat, n: nat): (row: seq<nat>)
    ensures |row| == n && forall i :: 0 <= i < n ==> row[i] == lo + i
  {
    seq(n, (i: nat) => lo + i)
  }

  function MapWire(st: ES, w: Wire, ty: Ty): ES {
    if w in st.env then st else Alloc(st, ty).(env := st.env[w := |st.slots|])
  }

  function MapWires(st: ES, ws: seq<Wire>, tys: seq<Ty>): ES
    decreases ws
  {
    if ws == [] || tys == [] then st else MapWires(MapWire(st, ws[0], tys[0]), ws[1..], tys[1..])
  }

  /** The mailboxes of a sequence of wires. */
  function RowOf(env: map<Wire, nat>, ws: seq<Wire>): (row: seq<nat>)
    ensures |row| == |ws|
    ensures forall i :: 0 <= i < |ws| && ws[i] in env ==> row[i] == env[ws[i]]
  {
    seq(|ws|, i requires 0 <= i < |ws| => if ws[i] in env then env[ws[i]] else 0)
  }

  function Regs(lo: nat, n: nat): (os: seq<Operand>)
    ensures |os| == n && forall i :: 0 <= i < n ==> os[i] == Reg(lo + i)
  {
    seq(n, (i: nat) => Reg(lo + i))
  }

  function Params(n: nat): (os: seq<Operand>)
    ensures |os| == n && forall i :: 0 <= i < n ==> os[i] == Param(i)
  {
    seq(n, (i: nat) => Param(i))
  }

  function LoadLine(row: seq<nat>, next: nat): (line: seq<Instr>)
    ensures |line| == |row|
  {
    if row == [] then [] else [Load(next, row[0])] + LoadLine(row[1..], next + 1)
  }

  /** Reads a row of mailboxes into registers. */
  function ReadRow(row: seq<nat>, next: nat): Piece {
    Piece(LoadLine(row, next), next + |row|, Regs(next, |row|))
  }

  function StoreLine(row: seq<nat>, vals: seq<Operand>): seq<Instr> {
    if row == [] || vals == [] then [] else [Store(row[0], vals[0])] + StoreLine(row[1..], vals[1..])
  }

  /** Writes a row of mailboxes; as many values as mailboxes are needed. */
  function WriteRow(st: ES, row: seq<nat>, vals: seq<Operand>): ES {
    if |row| == |vals| then Put(st, StoreLine(row, vals), st.regs) else Fail(st)
  }

  // ----- sums -----

  function InsertLine(agg: Operand, vs: seq<Operand>, i: nat, next: nat): (line: seq<Instr>)
    ensures |line| == |vs|
    decreases vs
  {
    if vs == [] then [] else [Insert(next, agg, vs[0], i)] + InsertLine(Reg(next), vs[1..], i + 1, next + 1)
  }

  function LastReg(agg: Operand, n: nat, next: nat): Operand {
    if n == 0 then agg else Reg(next + n - 1)
  }

  /** Builds variant `tag` of a sum; an error unless `tag` is a variant and every field is given. */
  function TagPiece(rows: seq<Row>, tag: nat, vs: seq<Operand>, next: nat): (p: Option<Piece>)
    ensures p.Some? ==> |p.value.vals| == 1
  {
    if tag < |rows| && |vs| == |rows[tag].tys| then
      var row0 := Const(LStruct(seq(|vs|, _ => Undef)));
      var n1 := next + |vs|;
      var row := LastReg(row0, |vs|, next);
      var tagged := HasTagField(rows);
      var sum0 := Const(PoisonSum(rows));
      var line1 := if tagged then [Insert(n1, sum0, Const(LInt(tag)), 0)] else [];
      var sum := if tagged then Reg(n1) else sum0;
      var n2 := n1 + |line1|;
      Some(Piece(InsertLine(row0, vs, 0, next) + line1 + [Insert(n2, sum, row, VariantFieldIndex(rows, tag))],
                 n2 + 1, [Reg(n2)]))
    else None
  }

  function ExtractLine(agg: Operand, n: nat, i: nat, next: nat): (line: seq<Instr>)
    ensures |line| == n
    decreases n
  {
    if n == 0 then [] else [Extract(next, agg, i)] + ExtractLine(agg, n - 1, i + 1, next + 1)
  }

  /** Reads the fields of variant `tag`. */
  function UntagPiece(rows: seq<Row>, tag: nat, v: Operand, next: nat): Piece
    requires tag < |rows|
  {
    var n := |rows[tag].tys|;
    Piece([Extract(next, v, VariantFieldIndex(rows, tag))] + ExtractLine(Reg(next), n, 0, next + 1),
          next + 1 + n, Regs(next + 1, n))
  }

  function GetTagPiece(rows: seq<Row>, v: Operand, next: nat): (p: Piece)
    ensures |p.vals| == 1
  {
    if HasTagField(rows) then Piece([Extract(next, v, 0)], next + 1, [Reg(next)])
    else Piece([], next, [Const(LInt(0))])
  }

  /** Materialises a constant; function constants are an error. */
  function ConstPiece(v: Val, next: nat): (p: Option<Piece>)
    ensures p.Some? ==> |p.value.vals| == 1
    decreases v, 1
  {
    match v
    case Prim(ty, n) => Some(Piece([], next, [Const(LPrim(ty, n))]))
    case ArrV(_) => None
    case FunV(_) => None
    case SumV(tag, vals, rows) =>
      match ConstsPiece(vals, next)
      case None => None
      case Some(p) =>
        match TagPiece(rows, tag, p.vals, p.next)
        case None => None
        case Some(q) => Some(Piece(p.line + q.line, q.next, q.vals))
  }

  function ConstsPiece(vs: seq<Val>, next: nat): (p: Option<Piece>)
    ensures p.Some? ==> |p.value.vals| == |vs|
    decreases vs, 0
  {
    if vs == [] then Some(Piece([], next, [])) else
    match ConstPiece(vs[0], next)
    case None => None
    case Some(p) =>
      match ConstsPiece(vs[1..], p.next)
      case None => None
      case Some(q) => Some(Piece(p.line + q.line, q.next, p.vals + q.vals))
  }

  /** The handlers of custom constants, and the types of sums, that a constant asks for. */
  function ConstNeeds(v: Val): set<Need>
    decreases v, 1
  {
    match v
    case Prim(ty, _) => {NeedConst(ty)}
    case SumV(_, vals, rows) => {NeedType(Sum(rows))} + ConstsNeed(vals)
    case _ => {}
  }

  function ConstsNeed(vs: seq<Val>): set<Need>
    decreases vs, 0
  {
    if vs == [] then {} else ConstNeeds(vs[0]) + ConstsNeed(vs[1..])
  }

  // ----- arrays -----

  function Undefs(n: nat): (ls: seq<LVal>)
    ensures |ls| == n
  {
    seq(n, _ => Undef)
  }

  /** Elements are inserted one by one into an undefined array. */
  function NewArrayPiece(size: nat, vs: seq<Operand>, next: nat): Piece {
    var a := Const(LArr(Undefs(size)));
    Piece(InsertLine(a, vs, 0, next), next + |vs|, [LastReg(a, |vs|, next)])
  }

  /** Spills an array; register `next` points to its first element. */
  function SpillLine(v: Operand, size: nat, next: nat): seq<Instr> {
    [AllocaArray(next, size), StoreArray(Reg(next), v)]
  }

  /** The ops that may fail, and how many inputs they take. */
  predicate IsAccess(op: ArrayOp, n: nat) {
    (op.GetOp? && n == 2) || ((op.SetOp? || op.SwapOp?) && n == 3)
  }

  /** What happens to a spilled array when the indices are in bounds: the fields of the successful variant. */
  function AccessFields(op: ArrayOp, size: nat, vals: seq<Operand>, next: nat): Piece
    requires IsAccess(op, |vals|)
  {
    var a := Reg(next);
    match op
    case GetOp => Piece([Gep(next + 1, a, vals[1]), LoadElem(next + 2, Reg(next + 1))], next + 3, [Reg(next + 2)])
    case SetOp =>
      Piece([Gep(next + 1, a, vals[1]), LoadElem(next + 2, Reg(next + 1)), StoreElem(Reg(next + 1), vals[2]),
             LoadArray(next + 3, a, size)], next + 4, [Reg(next + 2), Reg(next + 3)])
    case SwapOp =>
      Piece([Gep(next + 1, a, vals[1]), LoadElem(next + 2, Reg(next + 1)), Gep(next + 3, a, vals[2]),
             LoadElem(next + 4, Reg(next + 3)), StoreElem(Reg(next + 1), Reg(next + 4)),
             StoreElem(Reg(next + 3), Reg(next + 2)), LoadArray(next + 5, a, size)], next + 6, [Reg(next + 5)])
  }

  /** The element at one end, and the rest loaded from where it starts. */
  function PopFields(size: nat, left: bool, next: nat): Piece
    requires size > 0
  {
    var a, end := Reg(next), Reg(next + 1);
    Piece([Gep(next + 1, a, Const(LInt(if left then 1 else size - 1))), LoadElem(next + 2, if left then a else end),
           LoadArray(next + 3, if left then end else a, size - 1)], next + 4, [Reg(next + 2), Reg(next + 3)])
  }

  /** Puts the fields that `p` computes from a spilled array into variant 1. */
  function SuccessPiece(rows: seq<Row>, v: Operand, size: nat, p: Piece, next: nat): (r: Option<Piece>)
    ensures r.Some? ==> |r.value.vals| == 1
  {
    match TagPiece(rows, 1, p.vals, p.next)
    case Some(q) => Some(Piece(SpillLine(v, size, next) + p.line + q.line, q.next, q.vals))
    case None => None
  }

  function AccessPiece(op: ArrayOp, rows: seq<Row>, size: nat, vals: seq<Operand>, next: nat): (r: Option<Piece>)
    requires IsAccess(op, |vals|)
    ensures r.Some? ==> |r.value.vals| == 1
  {
    SuccessPiece(rows, vals[0], size, AccessFields(op, size, vals, next), next)
  }

  /** What is handed back when an index is out of bounds. */
  function HandedBack(op: ArrayOp, vals: seq<Operand>): seq<Operand>
    requires IsAccess(op, |vals|)
  {
    match op
    case GetOp => []
    case SetOp => [vals[2], vals[0]]
    case _ => [vals[0]]
  }

  /** Tests whether all indices are in bounds. */
  function GuardPiece(op: ArrayOp, size: nat, vals: seq<Operand>, next: nat): (p: Piece)
    requires IsAccess(op, |vals|)
    ensures |p.vals| == 1
  {
    if op.SwapOp? then
      Piece([Ult(next, vals[1], size), Ult(next + 1, vals[2], size), And(next + 2, Reg(next), Reg(next + 1))],
            next + 3, [Reg(next + 2)])
    else Piece([Ult(next, vals[1], size)], next + 1, [Reg(next)])
  }

  /** One arm per variant from `i` on: a block of its own that unpacks the variant, passes its fields and
      `rest` to the variant's target and jumps there.  Also returns the switch cases. */
  function Arms(st: ES, rows: seq<Row>, v: Operand, rest: seq<Operand>, targets: seq<Target>, i: nat, last: nat)
    : (r: (ES, seq<(int, nat)>))
    requires i <= |rows|
    ensures |r.1| == |rows| - i
    decreases |rows| - i
  {
    if i == |rows| then (st, []) else
    var bb := |st.code|;
    var s1 := At(NewBlock(st, After(last)), bb);
    var p := UntagPiece(rows, i, v, s1.regs);
    var s2 := PutPiece(s1, p);
    var s3 := if i < |targets| then Terminate(WriteRow(s2, targets[i].row, p.vals + rest), Br(targets[i].blk))
              else Fail(s2);
    var r := Arms(s3, rows, v, rest, targets, i + 1, bb);
    (r.0, [(i, bb)] + r.1)
  }

  /** Branches on the tag of sum `v`; variant 0 is the default of the switch. */
  function Destructure(st: ES, rows: seq<Row>, v: Operand, rest: seq<Operand>, targets: seq<Target>): ES {
    if rows == [] then Fail(st) else
    var r := Arms(st, rows, v, rest, targets, 0, st.cur);
    var s := At(r.0, st.cur);
    var p := GetTagPiece(rows, v, s.regs);
    Terminate(PutPiece(s, p), Switch(p.vals[0], r.1[0].1, r.1[1..]))
  }
}
