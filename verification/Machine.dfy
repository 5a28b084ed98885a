/** The LLVM fragment the compiler emits, and its small-step semantics with an explicit call stack.
    Loads of slots never stored to and uses of registers never defined make the machine `Stuck`. */
module Machine {
  import opened Values

  datatype Operand = Reg(r: nat) | Const(v: LVal) | Param(i: nat)

  datatype Instr =
    | Alloca(slot: nat, ty: Ty)
    | Load(dst: nat, slot: nat)
    | Store(slot: nat, v: Operand)
    | Insert(dst: nat, agg: Operand, v: Operand, idx: nat)
    | Extract(dst: nat, agg: Operand, idx: nat)
    | ExtOp(dst: nat, count: nat, op: nat, args: seq<Operand>)
    | AllocaArray(dst: nat, count: nat)
    | StoreArray(ptr: Operand, v: Operand)
    | LoadArray(dst: nat, ptr: Operand, count: nat)
    | Gep(dst: nat, ptr: Operand, index: Operand)
    | LoadElem(dst: nat, ptr: Operand)
    | StoreElem(ptr: Operand, v: Operand)
    | Ult(dst: nat, v: Operand, bound: nat)
    | And(dst: nat, v: Operand, w: Operand)
    | Call(dst: nat, callee: Operand, args: seq<Operand>)
    | Br(target: nat)
    | CondBr(cond: Operand, yes: nat, no: nat)
    | Switch(tag: Operand, default: nat, cases: seq<(int, nat)>)
    | Ret(vals: seq<Operand>)

  type Block = seq<Instr>
  type Code = seq<Block>

  predicate IsTerminator(i: Instr) {
    i.Br? || i.CondBr? || i.Switch? || i.Ret?
  }

  /** Registers, stack slots (`None` once allocated and not yet stored to), parameters, and the arrays allocated so
      far, of one activation. */
  datatype Local = Local(regs: map<nat, LVal>, mem: map<nat, Option<LVal>>, params: seq<LVal>, arrs: seq<Cells>)

  type Cells = seq<Option<LVal>>

  datatype Frame = Frame(fn: NodeId, blk: nat, pc: nat, loc: Local)

  datatype Stack = Bottom | Push(caller: Frame, dst: nat, rest: Stack)

  datatype Config = Run(fr: Frame, stk: Stack) | Halted(v: LVal) | Stuck

  /** What extension ops mean, on HUGR values and as the LLVM code their handlers emit; and what functions do that are
      declared only and linked in later, on HUGR values and as calls in LLVM. */
  datatype Sem = Sem(
    src: (nat, seq<Val>) -> Option<seq<Val>>,
    tgt: (nat, seq<LVal>) -> Option<seq<LVal>>,
    linkedSrc: (NodeId, seq<Val>) -> Option<seq<Val>>,
    linkedTgt: (NodeId, seq<LVal>) -> Option<LVal>)

  /** The handlers emit code that matches the desired semantics of the op, and linked functions return what the HUGR
      means them to. */
  ghost predicate HandlersMatch(x: Sem) {
    && (forall op, vs :: x.src(op, vs).Some? ==> x.tgt(op, EncAll(vs)) == Some(EncAll(x.src(op, vs).value)))
    && (forall f, vs :: x.linkedSrc(f, vs).Some? ==>
      x.linkedTgt(f, EncAll(vs)) == Some(Aggregate(EncAll(x.linkedSrc(f, vs).value))))
  }

  // ----- straight-line instructions -----

  function OpVal(l: Local, o: Operand): Option<LVal> {
    match o
    case Reg(r) => if r in l.regs then Some(l.regs[r]) else None
    case Const(v) => Some(v)
    case Param(i) => if i < |l.params| then Some(l.params[i]) else None
  }

  function OpVals(l: Local, os: seq<Operand>): (vs: Option<seq<LVal>>)
    ensures vs.Some? ==> |vs.value| == |os| && forall i :: 0 <= i < |os| ==> OpVal(l, os[i]) == Some(vs.value[i])
    ensures (forall i :: 0 <= i < |os| ==> OpVal(l, os[i]).Some?) ==> vs.Some?
  {
    if os == [] then Some([])
    else
      match (OpVal(l, os[0]), OpVals(l, os[1..]))
      case (Some(v), Some(vs)) => Some([v] + vs)
      case _ => None
  }

  function InsertValue(agg: LVal, v: LVal, idx: nat): Option<LVal> {
    if agg.LStruct? && idx < |agg.fields| then Some(LStruct(agg.fields[idx := v]))
    else if agg.LArr? && idx < |agg.elems| then Some(LArr(agg.elems[idx := v]))
    else None
  }

  /** Extracting from poison gives poison. */
  function ExtractValue(agg: LVal, idx: nat): Option<LVal> {
    if agg.LStruct? && idx < |agg.fields| then Some(agg.fields[idx])
    else if agg.Poison? || agg.Undef? then Some(agg)
    else None
  }

  function SetRegs(regs: map<nat, LVal>, dst: nat, vs: seq<LVal>): (r: map<nat, LVal>)
    ensures forall i :: i in regs && !(dst <= i < dst + |vs|) ==> i in r && r[i] == regs[i]
    ensures forall i :: dst <= i < dst + |vs| ==> i in r && r[i] == vs[i - dst]
    decreases vs
  {
    if vs == [] then regs else SetRegs(regs[dst := vs[0]], dst + 1, vs[1..])
  }

  function SetReg(l: Local, dst: nat, v: Option<LVal>): Option<Local> {
    match v
    case Some(x) => Some(l.(regs := l.regs[dst := x]))
    case None => None
  }

  // ----- arrays in stack memory -----

  function Filled(vs: seq<LVal>): (cs: Cells)
    ensures |cs| == |vs| && forall i :: 0 <= i < |vs| ==> cs[i] == Some(vs[i])
  {
    seq(|vs|, i requires 0 <= i < |vs| => Some(vs[i]))
  }

  /** The values of initialised cells. */
  function Contents(cs: Cells): (vs: Option<seq<LVal>>)
    ensures vs.Some? ==> cs == Filled(vs.value)
    ensures (forall i :: 0 <= i < |cs| ==> cs[i].Some?) ==> vs.Some?
  {
    if forall i :: 0 <= i < |cs| ==> cs[i].Some? then
      Some(seq(|cs|, i requires 0 <= i < |cs| => cs[i].value))
    else None
  }

  /** There are `n` cells from where a pointer points. */
  predicate InBounds(arrs: seq<Cells>, p: LVal, n: nat) {
    p.LPtr? && p.arr < |arrs| && p.off + n <= |arrs[p.arr]|
  }

  function StoreCells(l: Local, p: LVal, cs: Cells): Option<Local> {
    if InBounds(l.arrs, p, |cs|) then
      var a := l.arrs[p.arr];
      Some(l.(arrs := l.arrs[p.arr := a[..p.off] + cs + a[p.off + |cs|..]]))
    else None
  }

  function LoadCells(l: Local, p: LVal, n: nat): Option<seq<LVal>> {
    if InBounds(l.arrs, p, n) then Contents(l.arrs[p.arr][p.off..p.off + n]) else None
  }

  /** The value of an unsigned index. */
  function IndexOfVal(v: LVal): Option<nat> {
    match v
    case LPrim(_, n) => if n >= 0 then Some(n) else None
    case LInt(n) => if n >= 0 then Some(n) else None
    case _ => None
  }

  function ExecArray(i: Instr, l: Local): Option<Local> {
    match i
    case AllocaArray(dst, n) =>
      Some(l.(arrs := l.arrs + [seq(n, _ => None)], regs := l.regs[dst := LPtr(|l.arrs|, 0)]))
    case StoreArray(ptr, v) =>
      (match (OpVal(l, ptr), OpVal(l, v))
       case (Some(p), Some(LArr(es))) => StoreCells(l, p, Filled(es))
       case _ => None)
    case LoadArray(dst, ptr, n) =>
      (match OpVal(l, ptr)
       case Some(p) => (match LoadCells(l, p, n) case Some(es) => SetReg(l, dst, Some(LArr(es))) case None => None)
       case None => None)
    case Gep(dst, ptr, index) =>
      (match (OpVal(l, ptr), OpVal(l, index))
       case (Some(LPtr(a, off)), Some(v)) =>
         (match IndexOfVal(v) case Some(k) => SetReg(l, dst, Some(LPtr(a, off + k))) case None => None)
       case _ => None)
    case LoadElem(dst, ptr) =>
      (match OpVal(l, ptr)
       case Some(p) => (match LoadCells(l, p, 1) case Some(es) => SetReg(l, dst, Some(es[0])) case None => None)
       case None => None)
    case StoreElem(ptr, v) =>
      (match (OpVal(l, ptr), OpVal(l, v))
       case (Some(p), Some(e)) => StoreCells(l, p, [Some(e)])
       case _ => None)
    case Ult(dst, v, bound) =>
      (match OpVal(l, v)
       case Some(w) => (match IndexOfVal(w) case Some(k) => SetReg(l, dst, Some(LBit(k < bound))) case None => None)
       case None => None)
    case And(dst, v, w) =>
      (match (OpVal(l, v), OpVal(l, w))
       case (Some(LBit(b)), Some(LBit(c))) => SetReg(l, dst, Some(LBit(b && c)))
       case _ => None)
    case _ => None
  }

  /** One instruction that is neither a call nor a terminator. */
  function ExecInstr(x: Sem, i: Instr, l: Local): Option<Local> {
    match i
    case Alloca(slot, _) => Some(l.(mem := l.mem[slot := None]))
    case Load(dst, slot) => if slot in l.mem then SetReg(l, dst, l.mem[slot]) else None
    case Store(slot, v) =>
      var v := OpVal(l, v);
      if slot in l.mem && v.Some? then Some(l.(mem := l.mem[slot := v])) else None
    case Insert(dst, agg, v, idx) =>
      var a, w := OpVal(l, agg), OpVal(l, v);
      if a.Some? && w.Some? then SetReg(l, dst, InsertValue(a.value, w.value, idx)) else None
    case Extract(dst, agg, idx) =>
      var a := OpVal(l, agg);
      if a.Some? then SetReg(l, dst, ExtractValue(a.value, idx)) else None
    case ExtOp(dst, count, op, args) =>
      var vs := OpVals(l, args);
      if vs.None? then None else
      var r := x.tgt(op, vs.value);
      if r.Some? && |r.value| == count then Some(l.(regs := SetRegs(l.regs, dst, r.value))) else None
    case _ => ExecArray(i, l)
  }

  function ExecSeq(x: Sem, line: seq<Instr>, l: Local): Option<Local> {
    if line == [] then Some(l) else
    match ExecInstr(x, line[0], l)
    case Some(l') => ExecSeq(x, line[1..], l')
    case None => None
  }

  // ----- the machine -----

  /** The value a `ret` hands back: nothing, one value, or an aggregate. */
  function Aggregate(vs: seq<LVal>): LVal {
    if |vs| == 0 then Undef else if |vs| == 1 then vs[0] else LStruct(vs)
  }

  function Return(stk: Stack, v: LVal): Config {
    match stk
    case Bottom => Halted(v)
    case Push(fr, dst, rest) => Run(fr.(loc := fr.loc.(regs := fr.loc.regs[dst := v])), rest)
  }

  function SwitchTarget(cases: seq<(int, nat)>, default: nat, n: int): nat {
    if cases == [] then default
    else if cases[0].0 == n then cases[0].1
    else SwitchTarget(cases[1..], default, n)
  }

  function Jump(fr: Frame, stk: Stack, b: nat): Config {
    Run(fr.(blk := b, pc := 0), stk)
  }

  function Entry(f: NodeId, args: seq<LVal>): Frame {
    Frame(f, 0, 0, Local(map[], map[], args, []))
  }

  /** A function that is called enters its code; one that is only declared does what is linked in for it. */
  function Invoke(code: map<NodeId, Code>, x: Sem, f: NodeId, vs: seq<LVal>, stk: Stack): Config {
    if f in code then Run(Entry(f, vs), stk) else
    match x.linkedTgt(f, vs)
    case Some(v) => Return(stk, v)
    case None => Stuck
  }

  function StepInstr(code: map<NodeId, Code>, x: Sem, i: Instr, fr: Frame, stk: Stack): Config {
    match i
    case Br(b) => Jump(fr, stk, b)
    case CondBr(cond, yes, no) =>
      (match OpVal(fr.loc, cond)
       case Some(LBit(b)) => Jump(fr, stk, if b then yes else no)
       case _ => Stuck)
    case Switch(tag, default, cases) =>
      (match OpVal(fr.loc, tag)
       case Some(LInt(n)) => Jump(fr, stk, SwitchTarget(cases, default, n))
       case _ => Stuck)
    case Ret(os) =>
      (match OpVals(fr.loc, os)
       case Some(vs) => Return(stk, Aggregate(vs))
       case None => Stuck)
    case Call(dst, callee, args) =>
      (match (OpVal(fr.loc, callee), OpVals(fr.loc, args))
       case (Some(LFn(f)), Some(vs)) =>
         Invoke(code, x, f, vs, Push(fr.(pc := fr.pc + 1), dst, stk))
       case _ => Stuck)
    case _ =>
      match ExecInstr(x, i, fr.loc)
      case Some(l) => Run(fr.(pc := fr.pc + 1, loc := l), stk)
      case None => Stuck
  }

  predicate Fetchable(code: map<NodeId, Code>, fr: Frame) {
    fr.fn in code && fr.blk < |code[fr.fn]| && fr.pc < |code[fr.fn][fr.blk]|
  }

  function Step(code: map<NodeId, Code>, x: Sem, c: Config): Config {
    match c
    case Run(fr, stk) =>
      if Fetchable(code, fr) then StepInstr(code, x, code[fr.fn][fr.blk][fr.pc], fr, stk) else Stuck
    case _ => c
  }

  function Steps(code: map<NodeId, Code>, x: Sem, n: nat, c: Config): Config {
    if n == 0 then c else Steps(code, x, n - 1, Step(code, x, c))
  }

  // ----- facts about runs -----

  lemma {:induction false} StepsAdd(code: map<NodeId, Code>, x: Sem, m: nat, n: nat, c: Config)
    ensures Steps(code, x, m + n, c) == Steps(code, x, n, Steps(code, x, m, c))
  {
    if m != 0 {
      StepsAdd(code, x, m - 1, n, Step(code, x, c));
    }
  }

  /** A configuration that has stopped stays as it is, so runs are compared by their first stop. */
  lemma {:induction false} StoppedStays(code: map<NodeId, Code>, x: Sem, n: nat, c: Config)
    requires !c.Run?
    ensures Steps(code, x, n, c) == c
  {
    if n != 0 {
      StoppedStays(code, x, n - 1, c);
    }
  }

  lemma {:induction false} ExecConcat(x: Sem, a: seq<Instr>, b: seq<Instr>, l: Local)
    requires ExecSeq(x, a, l).Some?
    ensures ExecSeq(x, a + b, l) == ExecSeq(x, b, ExecSeq(x, a, l).value)
  {
    if a == [] {
      assert a + b == b;
    } else {
      assert (a + b)[1..] == a[1..] + b;
      ExecConcat(x, a[1..], b, ExecInstr(x, a[0], l).value);
    }
  }

  /** Straight-line code found at the frame's position runs to its end in one step per instruction. */
  lemma {:induction false} RunStraight(code: map<NodeId, Code>, x: Sem, line: seq<Instr>, fr: Frame, stk: Stack)
    requires fr.fn in code && fr.blk < |code[fr.fn]| && fr.pc + |line| <= |code[fr.fn][fr.blk]|
    requires code[fr.fn][fr.blk][fr.pc..fr.pc + |line|] == line
    requires ExecSeq(x, line, fr.loc).Some?
    ensures Steps(code, x, |line|, Run(fr, stk))
         == Run(fr.(pc := fr.pc + |line|, loc := ExecSeq(x, line, fr.loc).value), stk)
  {
    if line != [] {
      var b := code[fr.fn][fr.blk];
      assert b[fr.pc] == b[fr.pc..fr.pc + |line|][0] == line[0];
      var l := ExecInstr(x, line[0], fr.loc).value;
      var fr1 := fr.(pc := fr.pc + 1, loc := l);
      assert Step(code, x, Run(fr, stk)) == Run(fr1, stk);
      assert b[fr1.pc..fr1.pc + |line[1..]|] == b[fr.pc..fr.pc + |line|][1..];
      RunStraight(code, x, line[1..], fr1, stk);
    }
  }
}
