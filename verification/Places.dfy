/** Registers and mailboxes as places that instructions define and use, and where instructions jump to. */
module Places {
  import opened Machine

  /** What instructions define and use. */
  datatype Place = InReg(r: nat) | InSlot(s: nat)

  function UsesOf(o: Operand): set<Place> {
    if o.Reg? then {InReg(o.r)} else {}
  }

  function UsesAll(os: seq<Operand>): set<Place> {
    set o | o in os && o.Reg? :: InReg(o.r)
  }

  function Uses(i: Instr): set<Place> {
    match i
    case Alloca(_, _) => {}
    case Load(_, slot) => {InSlot(slot)}
    case Store(_, v) => UsesOf(v)
    case Insert(_, agg, v, _) => UsesOf(agg) + UsesOf(v)
    case Extract(_, agg, _) => UsesOf(agg)
    case ExtOp(_, _, _, args) => UsesAll(args)
    case AllocaArray(_, _) => {}
    case StoreArray(ptr, v) => UsesOf(ptr) + UsesOf(v)
    case LoadArray(_, ptr, _) => UsesOf(ptr)
    case Gep(_, ptr, index) => UsesOf(ptr) + UsesOf(index)
    case LoadElem(_, ptr) => UsesOf(ptr)
    case StoreElem(ptr, v) => UsesOf(ptr) + UsesOf(v)
    case Ult(_, v, _) => UsesOf(v)
    case And(_, v, w) => UsesOf(v) + UsesOf(w)
    case Call(_, callee, args) => UsesOf(callee) + UsesAll(args)
    case Br(_) => {}
    case CondBr(cond, _, _) => UsesOf(cond)
    case Switch(tag, _, _) => UsesOf(tag)
    case Ret(vals) => UsesAll(vals)
  }

  function Defs(i: Instr): set<Place> {
    match i
    case Load(dst, _) => {InReg(dst)}
    case Store(slot, _) => {InSlot(slot)}
    case Insert(dst, _, _, _) => {InReg(dst)}
    case Extract(dst, _, _) => {InReg(dst)}
    case ExtOp(dst, count, _, _) => set k | dst <= k < dst + count :: InReg(k)
    case AllocaArray(dst, _) => {InReg(dst)}
    case LoadArray(dst, _, _) => {InReg(dst)}
    case Gep(dst, _, _) => {InReg(dst)}
    case LoadElem(dst, _) => {InReg(dst)}
    case Ult(dst, _, _) => {InReg(dst)}
    case And(dst, _, _) => {InReg(dst)}
    case Call(dst, _, _) => {InReg(dst)}
    case _ => {}
  }

  /** Instruction `i` of block `b` defines register `r`. */
  predicate DefinesReg(code: Code, b: int, i: int, r: nat) {
    0 <= b < |code| && 0 <= i < |code[b]| && InReg(r) in Defs(code[b][i])
  }

  function DefsOf(b: seq<Instr>): set<Place> {
    if b == [] then {} else Defs(b[0]) + DefsOf(b[1..])
  }

  function Jumps(i: Instr): set<nat> {
    match i
    case Br(b) => {b}
    case CondBr(_, b, c) => {b, c}
    case Switch(_, default, cases) => {default} + set c | c in cases :: c.1
    case _ => {}
  }

  function Succs(b: seq<Instr>): set<nat> {
    if b == [] then {} else Jumps(b[0]) + Succs(b[1..])
  }
}
