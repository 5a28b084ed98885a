/** What the compiler emits for dataflow regions, conditionals, control-flow graphs and functions. */
module Emit {
  import opened Values
  import opened Machine
  import opened Hugr
  import opened Arrays
  import opened Types
  import opened Builder

  /** Emits the nodes of a region.  `inputs` are the region's arguments, `promise` the mailboxes of its results. */
  function EmitNodes(st: ES, nodes: seq<Node>, inputs: seq<Operand>, promise: seq<nat>): ES
    decreases nodes, 0
  {
    if nodes == [] then st
    else EmitNodes(EmitNode(st, nodes[0], inputs, promise), nodes[1..], inputs, promise)
  }

  /** A dataflow parent: its nodes are emitted in order.  The arguments and the promise are taken once each. */
  function EmitRegion(st: ES, nodes: seq<Node>, inputs: seq<Operand>, promise: seq<nat>): ES
    decreases nodes, 1
  {
    var s := EmitNodes(st, nodes, inputs, promise);
    if CountOp(nodes, true) == 1 && CountOp(nodes, false) == 1 then s else Fail(s)
  }

  /** The input wires of a node are mapped and read, then its output wires are mapped. */
  function Prelude(st: ES, n: Node): ES {
    var s1 := MapWires(st, n.ins, n.inTys);
    var s2 := PutPiece(s1, ReadRow(RowOf(s1.env, n.ins), s1.regs));
    MapWires(s2, OutWires(n.id, |n.outs|), n.outs)
  }

  /** The output mailboxes of a node. */
  function NodeOuts(st: ES, n: Node): (outs: seq<nat>)
    ensures |outs| == |n.outs|
  {
    RowOf(Prelude(st, n).env, OutWires(n.id, |n.outs|))
  }

  function EmitNode(st: ES, n: Node, inputs: seq<Operand>, promise: seq<nat>): ES
    decreases n, 2
  {
    EmitAt(Prelude(st, n), n, Regs(st.regs, |n.ins|), NodeOuts(st, n), inputs, promise)
  }

  /** A node, once its inputs are in `vals` and its output mailboxes are `outs`. */
  function EmitAt(s: ES, n: Node, vals: seq<Operand>, outs: seq<nat>, inputs: seq<Operand>, promise: seq<nat>): ES
    decreases n, 1
  {
    match n.op
    case Input => WriteRow(s, outs, inputs)
    case Output => WriteRow(s, promise, vals)
    case _ => EmitOp(s, n, vals, outs)
  }

  function Finish(st: ES, p: Option<Piece>, outs: seq<nat>): ES {
    match p
    case Some(p) => WriteRow(PutPiece(st, p), outs, p.vals)
    case None => Fail(st)
  }

  /** Unpacks the result of a call, in register `next - 1`, into its row of values. */
  function UnpackPiece(n: nat, next: nat): Piece
    requires next > 0
  {
    if n == 0 then Piece([], next, [])
    else if n == 1 then Piece([], next, [Reg(next - 1)])
    else Piece(ExtractLine(Reg(next - 1), n, 0, next), next + n, Regs(next, n))
  }

  function CallPiece(callee: Operand, args: seq<Operand>, n: nat, next: nat): Piece {
    var p := UnpackPiece(n, next + 1);
    Piece([Machine.Call(next, callee, args)] + p.line, p.next, p.vals)
  }

  function EmitOp(st: ES, n: Node, vals: seq<Operand>, outs: seq<nat>): ES
    decreases n, 0
  {
    match n.op
    case Tag(tag, rows) => Finish(Ask(st, {NeedType(Sum(rows))}), TagPiece(rows, tag, vals, st.regs), outs)
    case Ext(op) =>
      var k := |outs|;
      Finish(Ask(st, {NeedOp(op)}), Some(Piece([ExtOp(st.regs, k, op, vals)], st.regs + k, Regs(st.regs, k))), outs)
    case Array(op, elem, size) => EmitArray(st, op, elem, size, vals, outs)
    case LoadConst(v) =>
      (match ConstPiece(v, st.regs)
       case Some(p) => Finish(Ask(st, ConstNeeds(v)), Some(p), outs)
       case None => Fail(st))
    case LoadFunc(f) => Finish(st.(refs := st.refs + {f}), Some(Piece([], st.regs, [Const(LFn(f))])), outs)
    case CallFn(f) => Finish(st.(refs := st.refs + {f}), Some(CallPiece(Const(LFn(f)), vals, |outs|, st.regs)), outs)
    case CallIndirect =>
      if vals == [] then Fail(st) else Finish(st, Some(CallPiece(vals[0], vals[1..], |outs|, st.regs)), outs)
    case Dfg(nodes) => EmitRegion(st, nodes, vals, outs)
    case Cond(rows, cases) =>
      if vals == [] then Fail(st) else
      Ask(EmitCond(st, rows, cases, vals[0], vals[1..], n.outs, outs), {NeedType(Sum(rows))})
    case Cfg(children) => EmitCfg(st, children, vals, outs, n.outs)
    case FuncDef(f) => st.(todo := st.todo + {f})
    case Static => st
    case _ => Fail(st)
  }

  // ----- arrays -----

  /** Ops that may fail branch on whether they do; the others are straight-line code. */
  function EmitArray(st: ES, op: ArrayOp, elem: Ty, size: nat, vals: seq<Operand>, outs: seq<nat>): ES {
    var s := Ask(st, ArrayNeeds(op, elem, size));
    var rows := ArrayRows(op, elem, size);
    match op
    case NewArray => if |vals| <= size then Finish(s, Some(NewArrayPiece(size, vals, s.regs)), outs) else Fail(s)
    case PopOp(left) => if |vals| == 1 then Finish(s, PoppedPiece(rows, left, size, vals[0], s.regs), outs) else Fail(s)
    case DiscardEmpty => s
    case _ =>
      if IsAccess(op, |vals|) then EmitAccess(s, op, rows, size, vals, outs) else Fail(s)
  }

  /** The LLVM types an array op asks for: that of the elements, and that of the sum it returns. */
  function ArrayNeeds(op: ArrayOp, elem: Ty, size: nat): set<Need> {
    var rows := ArrayRows(op, elem, size);
    {NeedType(elem)} + if rows == [] then {} else {NeedType(Sum(rows))}
  }

  /** Popping the empty array gives the first variant. */
  function PoppedPiece(rows: seq<Row>, left: bool, size: nat, v: Operand, next: nat): Option<Piece> {
    if size == 0 then TagPiece(rows, 0, [], next)
    else SuccessPiece(rows, v, size, PopFields(size, left, next), next)
  }

  /** The exit block comes first, as for conditionals; before it, the block for success, and before that the one for
      failure.  Both leave their result in the exit mailbox. */
  function EmitAccess(st: ES, op: ArrayOp, rows: seq<Row>, size: nat, vals: seq<Operand>, outs: seq<nat>): ES
    requires IsAccess(op, |vals|)
  {
    var s := AccessSides(st, op, rows, size, vals, outs);
    var g := GuardPiece(op, size, vals, s.regs);
    At(Terminate(PutPiece(s, g), CondBr(g.vals[0], |st.code| + 1, |st.code| + 2)), |st.code|)
  }

  function AccessSides(st: ES, op: ArrayOp, rows: seq<Row>, size: nat, vals: seq<Operand>, outs: seq<nat>): ES
    requires IsAccess(op, |vals|)
  {
    var exit, exitRow := |st.code|, FreshRow(|st.slots|, 1);
    var s1 := CondExit(st, [Sum(rows)], outs);
    var s2 := EmitSide(s1, exit, AccessPiece(op, rows, size, vals, s1.regs), exitRow, exit);
    EmitSide(s2, exit + 1, TagPiece(rows, 0, HandedBack(op, vals), s2.regs), exitRow, exit)
  }

  /** A block of its own, before `b`, that computes one result and goes to the exit block. */
  function EmitSide(st: ES, b: nat, p: Option<Piece>, exitRow: seq<nat>, exit: nat): ES {
    At(Terminate(Finish(At(NewBlock(st, Before(b)), |st.code|), p, exitRow), Br(exit)), st.cur)
  }

  // ----- conditionals -----

  /** The exit block comes first, then the cases, then the branch to them; emission goes on in the exit block. */
  function EmitCond(st: ES, rows: seq<Row>, cases: seq<Case>, v: Operand, rest: seq<Operand>,
                    tys: seq<Ty>, outs: seq<nat>): ES
    decreases cases, 1
  {
    var exit := |st.code|;
    var r := EmitCases(CondExit(st, tys, outs), cases, FreshRow(|st.slots|, |tys|), exit);
    At(Destructure(r.0, rows, v, rest, r.1), exit)
  }

  /** The exit block of a conditional moves its exit mailboxes to the output mailboxes of the node. */
  function CondExit(st: ES, tys: seq<Ty>, outs: seq<nat>): ES {
    var s1 := At(NewBlock(NewRow(st, tys), AtEnd), |st.code|);
    var p := ReadRow(FreshRow(|st.slots|, |tys|), s1.regs);
    At(WriteRow(PutPiece(s1, p), outs, p.vals), st.cur)
  }

  /** Each case is a block with anonymous input mailboxes that leaves its results in `exitRow`. */
  function EmitCases(st: ES, cases: seq<Case>, exitRow: seq<nat>, exit: nat): (r: (ES, seq<Target>))
    ensures |r.1| == |cases|
    decreases cases, 0
  {
    if cases == [] then (st, []) else
    var tys := RegionIns(cases[0].nodes);
    var row := FreshRow(|st.slots|, |tys|);
    var s := EmitCase(st, cases[0], exitRow, exit);
    var r := EmitCases(s, cases[1..], exitRow, exit);
    (r.0, [Target(|st.code|, row)] + r.1)
  }

  /** The state in which the nodes of a case are emitted. */
  function CaseStart(st: ES, c: Case, exit: nat): ES {
    var tys := RegionIns(c.nodes);
    var s1 := At(NewBlock(NewRow(st, tys), Before(exit)), |st.code|);
    PutPiece(s1, ReadRow(FreshRow(|st.slots|, |tys|), s1.regs))
  }

  function EmitCase(st: ES, c: Case, exitRow: seq<nat>, exit: nat): ES
    decreases c, 0
  {
    var s1 := CaseStart(st, c, exit);
    var vals := Regs(st.regs, |RegionIns(c.nodes)|);
    At(Terminate(EmitRegion(s1, c.nodes, vals, exitRow), Br(exit)), st.cur)
  }

  // ----- control-flow graphs -----

  /** Creates a block for each child before anything is emitted into them. */
  function MakeBlocks(st: ES, children: seq<Child>, exit: nat, outTys: seq<Ty>): (ES, map<NodeId, Target>)
    decreases children
  {
    if children == [] then (st, map[]) else
    var c := children[0];
    match c
    case Exit(id) =>
      var r := MakeBlocks(NewRow(st, outTys), children[1..], exit, outTys);
      (r.0, map[id := Target(exit, FreshRow(|st.slots|, |outTys|))] + r.1)
    case Block(id, _, nodes, _) =>
      var s := MapWires(NewBlock(st, Before(exit)), InputWires(nodes), RegionIns(nodes));
      var r := MakeBlocks(s, children[1..], exit, outTys);
      (r.0, map[id := Target(|st.code|, RowOf(s.env, InputWires(nodes)))] + r.1)
    case _ => MakeBlocks(st, children[1..], exit, outTys)
  }

  function EmitCfg(st: ES, children: seq<Child>, vals: seq<Operand>, outs: seq<nat>, outTys: seq<Ty>): ES
    decreases children, 1
  {
    var exit := |st.code|;
    var r := MakeBlocks(NewBlock(st, AtEnd), children, exit, outTys);
    if |children| < 2 || !children[0].Block? || !children[1].Exit? || children[0].id !in r.1 then Fail(r.0) else
    var entry := r.1[children[0].id];
    var s := Terminate(WriteRow(r.0, entry.row, vals), Br(entry.blk));
    var t := At(EmitChildren(s, children, r.1, outs), exit);
    if exists i :: 0 <= i < |children| && i != 1 && children[i].Exit? then Fail(t) else t
  }

  function EmitChildren(st: ES, children: seq<Child>, bbs: map<NodeId, Target>, outs: seq<nat>): ES
    decreases children, 0
  {
    if children == [] then st else EmitChildren(EmitChild(st, children[0], bbs, outs), children[1..], bbs, outs)
  }

  function Targets(succs: seq<NodeId>, bbs: map<NodeId, Target>): (ts: seq<Target>)
    requires forall s :: s in succs ==> s in bbs
    ensures |ts| == |succs| && forall i :: 0 <= i < |succs| ==> ts[i] == bbs[succs[i]]
  {
    seq(|succs|, i requires 0 <= i < |succs| => bbs[succs[i]])
  }

  /** The state in which the nodes of a dataflow block are emitted: positioned at the block, the mailboxes of
      its results mapped, its arguments read. */
  function BlockStart(st: ES, nodes: seq<Node>, t: Target): ES {
    var s1 := MapWires(At(st, t.blk), RegionOuts(nodes), RegionOutTys(nodes));
    PutPiece(s1, ReadRow(t.row, s1.regs))
  }

  function EmitChild(st: ES, c: Child, bbs: map<NodeId, Target>, outs: seq<nat>): ES
    decreases c, 0
  {
    match c
    case Block(id, rows, nodes, succs) =>
      if id !in bbs || exists s :: s in succs && s !in bbs then Fail(st) else
      var t := bbs[id];
      var s1 := BlockStart(st, nodes, t);
      var s2 := EmitRegion(s1, nodes, Regs(st.regs, |t.row|), RowOf(s1.env, RegionOuts(nodes)));
      var p := ReadRow(RowOf(s1.env, RegionOuts(nodes)), s2.regs);
      if p.vals == [] then Fail(st) else
      var d := Destructure(PutPiece(s2, p), rows, p.vals[0], p.vals[1..], Targets(succs, bbs));
      Ask(At(d, st.cur), {NeedType(Sum(rows))})
    case Exit(id) =>
      if id !in bbs then Fail(st) else
      var p := ReadRow(bbs[id].row, st.regs);
      At(WriteRow(PutPiece(At(st, bbs[id].blk), p), outs, p.vals), st.cur)
    case ChildFunc(f) => st.(todo := st.todo + {f})
    case ChildStatic => st
  }

  // ----- functions -----

  function FuncStart(f: FuncDefn): ES {
    NewRow(Initial, f.outs)
  }

  function FuncBody(f: FuncDefn): ES {
    EmitRegion(FuncStart(f), f.nodes, Params(|f.ins|), FreshRow(0, |f.outs|))
  }

  /** The body ends by returning the row read from the return mailboxes; the alloca block ends by
      jumping to the launch block. */
  function EmitFunc(f: FuncDefn): ES {
    var s := FuncBody(f);
    var p := ReadRow(FreshRow(0, |f.outs|), s.regs);
    Terminate(At(Terminate(PutPiece(s, p), Ret(p.vals)), 0), Br(1))
  }
}
