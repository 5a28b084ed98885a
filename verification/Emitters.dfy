/** Emission in place: the methods that drive a context through the nodes of a function.  Each updates the context
    exactly as the function of `Emit` that specifies it says. */
module Emitters {
  import opened Values
  import opened Machine
  import opened Hugr
  import opened Arrays
  import opened Types
  import opened Builder
  import opened Emit
  import opened Context

  /** Emits the nodes of a region in order.  The arguments and the promise can each be taken once. */
  method EmitDataflowParent(context: EmitFuncContext, nodes: seq<Node>, inputs: seq<Operand>, promise: seq<nat>)
    requires context.Valid()
    modifies context
    ensures context.Valid() && |context.code| >= |old(context.code)|
    ensures context.State() == EmitRegion(old(context.State()), nodes, inputs, promise)
    decreases nodes, 2
  {
    var inputTaken, outputTaken, takenTwice := false, false, false;
    for i := 0 to |nodes|
      invariant context.Valid() && |context.code| >= |old(context.code)|
      invariant EmitNodes(context.State(), nodes[i..], inputs, promise)
             == EmitNodes(old(context.State()), nodes, inputs, promise)
      invariant takenTwice <==> CountOp(nodes[..i], true) > 1 || CountOp(nodes[..i], false) > 1
      invariant inputTaken <==> CountOp(nodes[..i], true) > 0
      invariant outputTaken <==> CountOp(nodes[..i], false) > 0
    {
      assert nodes[i..][0] == nodes[i] && nodes[i..][1..] == nodes[i + 1..];
      CountMore(nodes, i, true);
      CountMore(nodes, i, false);
      if nodes[i].op.Input? {
        takenTwice := takenTwice || inputTaken;
        inputTaken := true;
      } else if nodes[i].op.Output? {
        takenTwice := takenTwice || outputTaken;
        outputTaken := true;
      }
      EmitChildNode(context, nodes[i], inputs, promise);
    }
    assert nodes[..|nodes|] == nodes;
    if !inputTaken || !outputTaken || takenTwice {
      context.Error();
    }
  }

  lemma {:induction false} CountMore(nodes: seq<Node>, i: nat, isInput: bool)
    requires i < |nodes|
    ensures CountOp(nodes[..i + 1], isInput)
         == CountOp(nodes[..i], isInput) + CountOp([nodes[i]], isInput)
  {
    if i > 0 {
      CountMore(nodes[1..], i - 1, isInput);
      assert nodes[..i + 1][1..] == nodes[1..][..i] && nodes[..i][1..] == nodes[1..][..i - 1];
    } else {
      assert nodes[..1] == [nodes[0]] && nodes[..0] == [];
    }
  }

  /** Reads the input mailboxes of a node, promises its output mailboxes, and emits it. */
  method EmitChildNode(context: EmitFuncContext, n: Node, inputs: seq<Operand>, promise: seq<nat>)
    requires context.Valid()
    modifies context
    ensures context.Valid() && |context.code| >= |old(context.code)|
    ensures context.State() == EmitNode(old(context.State()), n, inputs, promise)
    decreases n, 2
  {
    var insRmb := context.MapRow(n.ins, n.inTys);
    var vals := context.ReadVec(insRmb);
    var outs := context.MapRow(OutWires(n.id, |n.outs|), n.outs);
    match n.op {
      case Input => context.Write(outs, inputs);
      case Output => context.Write(promise, vals);
      case _ => EmitOptype(context, n, vals, outs);
    }
  }

  method EmitOptype(context: EmitFuncContext, n: Node, vals: seq<Operand>, outs: seq<nat>)
    requires context.Valid()
    modifies context
    ensures context.Valid() && |context.code| >= |old(context.code)|
    ensures context.State() == EmitOp(old(context.State()), n, vals, outs)
    decreases n, 1
  {
    hide Finish, TagPiece, ConstPiece, CallPiece, EmitRegion, EmitCond, EmitCfg, MakeBlocks, NewBlock, EmitArray,
      AllMet;
    match n.op {
      case Tag(tag, rows) => EmitTag(context, rows, tag, vals, outs);
      case Ext(op) => EmitExtensionOp(context, op, vals, outs);
      case Array(op, elem, size) => EmitArrayOp(context, op, elem, size, vals, outs);
      case LoadConst(v) => EmitLoadConstant(context, v, outs);
      case LoadFunc(f) =>
        context.refs := context.refs + {f};
        EmitLoadFunction(context, f, outs);
      case CallFn(f) =>
        context.refs := context.refs + {f};
        EmitCall(context, Const(LFn(f)), vals, outs);
      case CallIndirect =>
        if vals == [] {
          context.Error();
        } else {
          EmitCall(context, vals[0], vals[1..], outs);
        }
      case Dfg(nodes) => EmitDataflowParent(context, nodes, vals, outs);
      case Cond(rows, cases) =>
        if vals == [] {
          context.Error();
        } else {
          EmitConditional(context, rows, cases, vals[0], vals[1..], n.outs, outs);
          context.Find(NeedType(Sum(rows)));
        }
      case Cfg(children) =>
        var e := new CfgEmitter(context, children, vals, outs, n.outs);
        e.EmitChildNodes();
      case FuncDef(f) => context.todo := context.todo + {f};
      case Static =>
      case _ => context.Error();
    }
  }

  method EmitTag(context: EmitFuncContext, rows: seq<Row>, tag: nat, vals: seq<Operand>, outs: seq<nat>)
    requires context.Valid()
    modifies context
    ensures context.Valid() && |context.code| == |old(context.code)|
    ensures context.State()
         == Finish(Ask(old(context.State()), {NeedType(Sum(rows))}), TagPiece(rows, tag, vals, old(context.regs)), outs)
  {
    hide AllMet, TagPiece;
    context.Find(NeedType(Sum(rows)));
    ghost var p := TagPiece(rows, tag, vals, context.regs);
    var v := context.BuildTag(rows, tag, vals);
    assert v.Some? ==> p.value.vals == [v.value];
    if v == None {
      context.Error();
    } else {
      context.Write(outs, [v.value]);
    }
  }

  /** The handler of an extension op, if there is one, leaves its results in fresh registers. */
  method EmitExtensionOp(context: EmitFuncContext, op: nat, vals: seq<Operand>, outs: seq<nat>)
    requires context.Valid()
    modifies context
    ensures context.Valid() && |context.code| == |old(context.code)|
    ensures var st, k := old(context.State()), |outs|;
      context.State() == Finish(Ask(st, {NeedOp(op)}),
                                Some(Piece([ExtOp(st.regs, k, op, vals)], st.regs + k, Regs(st.regs, k))), outs)
  {
    hide AllMet;
    context.Find(NeedOp(op));
    var results := Regs(context.regs, |outs|);
    context.Build(ExtOp(context.regs, |outs|, op, vals), context.regs + |outs|);
    context.Write(outs, results);
  }

  method EmitLoadFunction(context: EmitFuncContext, f: NodeId, outs: seq<nat>)
    requires context.Valid()
    modifies context
    ensures context.Valid() && |context.code| == |old(context.code)|
    ensures context.State()
         == Finish(old(context.State()), Some(Piece([], old(context.regs), [Const(LFn(f))])), outs)
  {
    EmptyPut(context.State());
    context.Write(outs, [Const(LFn(f))]);
  }

  /** An error discards the function, so what had been appended of the constant does not matter. */
  method EmitLoadConstant(context: EmitFuncContext, v: Val, outs: seq<nat>)
    requires context.Valid()
    modifies context
    ensures context.Valid() && |context.code| == |old(context.code)|
    ensures var st := old(context.State());
      context.State() == match ConstPiece(v, st.regs)
                         case Some(p) => Finish(Ask(st, ConstNeeds(v)), Some(p), outs)
                         case None => Fail(st)
  {
    hide AllMet;
    var code, regs, unmet := context.code, context.regs, context.unmet;
    ghost var needs := context.needs;
    var r := context.EmitValue(v);
    if r == None {
      context.code, context.regs, context.unmet, context.needs := code, regs, unmet, needs;
      context.Error();
    } else {
      context.Write(outs, [r.value]);
    }
  }

  /** Unpacks the value a call returned, which is in the last register. */
  method DeaggregateCallResult(context: EmitFuncContext, n: nat) returns (vals: seq<Operand>)
    requires context.Valid() && context.regs > 0
    modifies context`code, context`regs
    ensures context.Valid() && |context.code| == |old(context.code)|
    ensures context.State() == PutPiece(old(context.State()), UnpackPiece(n, old(context.regs)))
    ensures vals == UnpackPiece(n, old(context.regs)).vals
  {
    EmptyPut(context.State());
    if n == 0 {
      return [];
    } else if n == 1 {
      return [Reg(context.regs - 1)];
    }
    vals := context.BuildFields(Reg(context.regs - 1), n);
  }

  method EmitCall(context: EmitFuncContext, callee: Operand, args: seq<Operand>, outs: seq<nat>)
    requires context.Valid()
    modifies context
    ensures context.Valid() && |context.code| == |old(context.code)|
    ensures context.State()
         == Finish(old(context.State()), Some(CallPiece(callee, args, |outs|, old(context.regs))), outs)
  {
    ghost var st := context.State();
    context.Build(Machine.Call(context.regs, callee, args), context.regs + 1);
    var vals := DeaggregateCallResult(context, |outs|);
    ghost var p := UnpackPiece(|outs|, st.regs + 1);
    PutTwice(st, Machine.Call(st.regs, callee, args), st.regs + 1, p.line, p.next);
    context.Write(outs, vals);
  }

  // ----- arrays -----

  method EmitArrayOp(context: EmitFuncContext, op: ArrayOp, elem: Ty, size: nat, vals: seq<Operand>, outs: seq<nat>)
    requires context.Valid()
    modifies context
    ensures context.Valid() && |context.code| >= |old(context.code)|
    ensures context.State() == EmitArray(old(context.State()), op, elem, size, vals, outs)
  {
    hide AllMet, Finish, NewArrayPiece, SuccessPiece, TagPiece, EmitAccess, PopFields;
    ghost var st := context.State();
    var rows := ArrayRows(op, elem, size);
    context.Find(NeedType(elem));
    if rows != [] {
      context.Find(NeedType(Sum(rows)));
      AskTwice(st, {NeedType(elem)}, {NeedType(Sum(rows))});
    }
    assert context.State() == Ask(st, ArrayNeeds(op, elem, size));
    match op {
      case NewArray =>
        if |vals| > size {
          context.Error();
        } else {
          EmitNewArray(context, size, vals, outs);
        }
      case PopOp(left) =>
        if |vals| != 1 {
          context.Error();
        } else {
          EmitPopOp(context, rows, left, size, vals[0], outs);
        }
      case DiscardEmpty =>
      case _ =>
        if !IsAccess(op, |vals|) {
          context.Error();
        } else {
          EmitAccessOp(context, op, rows, size, vals, outs);
        }
    }
  }

  method EmitNewArray(context: EmitFuncContext, size: nat, vals: seq<Operand>, outs: seq<nat>)
    requires context.Valid()
    modifies context
    ensures context.Valid() && |context.code| == |old(context.code)|
    ensures context.State() == Finish(old(context.State()), Some(NewArrayPiece(size, vals, old(context.regs))), outs)
  {
    hide AllMet;
    var a := context.BuildRow(Const(LArr(Undefs(size))), vals);
    context.Write(outs, [a]);
  }

  method EmitPopOp(context: EmitFuncContext, rows: seq<Row>, left: bool, size: nat, v: Operand, outs: seq<nat>)
    requires context.Valid()
    modifies context
    ensures context.Valid() && |context.code| == |old(context.code)|
    ensures context.State() == Finish(old(context.State()), PoppedPiece(rows, left, size, v, old(context.regs)), outs)
  {
    hide AllMet, TagPiece, SuccessPiece, PopFields;
    var code, regs := context.code, context.regs;
    ghost var s0 := context.State();
    var r;
    if size == 0 {
      r := context.BuildTag(rows, 0, []);
    } else {
      var ptr := context.WithArrayAlloca(v, size);
      var fields := context.BuildPop(size, left, ptr);
      r := context.BuildSuccess(rows, fields, s0, v, size, PopFields(size, left, s0.regs));
    }
    assert r.Some? ==> PoppedPiece(rows, left, size, v, s0.regs).value.vals == [r.value];
    FinishResult(context, r, code, regs, outs);
  }

  /** Stores a result; without one, what was appended for it is dropped along with everything else. */
  method FinishResult(context: EmitFuncContext, r: Option<Operand>, code: Code, regs: nat, outs: seq<nat>)
    requires context.Valid() && context.cur < |code| == |context.code|
    modifies context
    ensures context.Valid() && |context.code| == |code|
    ensures context.State() == if r.Some? then WriteRow(old(context.State()), outs, [r.value])
                               else Fail(old(context.State()).(code := code, regs := regs))
  {
    hide AllMet;
    if r == None {
      context.code, context.regs := code, regs;
      context.Error();
    } else {
      context.Write(outs, [r.value]);
    }
  }

  method EmitAccessOp(context: EmitFuncContext, op: ArrayOp, rows: seq<Row>, size: nat, vals: seq<Operand>,
                      outs: seq<nat>)
    requires context.Valid()
    requires IsAccess(op, |vals|)
    modifies context
    ensures context.Valid() && |context.code| >= |old(context.code)|
    ensures context.State() == EmitAccess(old(context.State()), op, rows, size, vals, outs)
  {
    hide AllMet, CondExit, EmitSide, SuccessPiece, TagPiece, GuardPiece, AccessPiece, Put;
    var exit, exitRow := EmitCondExit(context, [Sum(rows)], outs);
    var success := EmitSuccessSide(context, op, rows, size, vals, exitRow, exit);
    var failure := EmitFailureSide(context, op, rows, vals, exitRow, exit, success);
    var cond := context.BuildGuard(op, size, vals);
    context.Build(CondBr(cond, success, failure), context.regs);
    context.PositionAtEnd(exit);
  }

  method EmitSuccessSide(context: EmitFuncContext, op: ArrayOp, rows: seq<Row>, size: nat, vals: seq<Operand>,
                         exitRow: seq<nat>, exit: nat) returns (bb: nat)
    requires context.Valid() && context.cur < |context.code|
    requires IsAccess(op, |vals|)
    modifies context
    ensures context.Valid() && |context.code| == |old(context.code)| + 1 && bb == |old(context.code)|
    ensures context.cur == old(context.cur)
    ensures var st := old(context.State());
      context.State() == EmitSide(st, exit, AccessPiece(op, rows, size, vals, st.regs), exitRow, exit)
  {
    hide AllMet, SuccessPiece, AccessFields, Place;
    var current := context.cur;
    bb := context.NewBasicBlock(Before(exit));
    context.PositionAtEnd(bb);
    var code, regs := context.code, context.regs;
    ghost var s0 := context.State();
    var ptr := context.WithArrayAlloca(vals[0], size);
    var fields := context.BuildAccess(op, size, vals, ptr);
    var r := context.BuildSuccess(rows, fields, s0, vals[0], size, AccessFields(op, size, vals, s0.regs));
    ghost var p := AccessPiece(op, rows, size, vals, s0.regs);
    assert r.Some? ==> p.value.vals == [r.value];
    FinishResult(context, r, code, regs, exitRow);
    context.Build(Br(exit), context.regs);
    context.PositionAtEnd(current);
  }

  method EmitFailureSide(context: EmitFuncContext, op: ArrayOp, rows: seq<Row>, vals: seq<Operand>,
                         exitRow: seq<nat>, exit: nat, success: nat) returns (bb: nat)
    requires context.Valid() && IsAccess(op, |vals|)
    modifies context
    ensures context.Valid() && |context.code| == |old(context.code)| + 1 && bb == |old(context.code)|
    ensures context.cur == old(context.cur)
    ensures var st := old(context.State());
      context.State() == EmitSide(st, success, TagPiece(rows, 0, HandedBack(op, vals), st.regs), exitRow, exit)
  {
    hide AllMet, TagPiece, Place;
    var current := context.cur;
    bb := context.NewBasicBlock(Before(success));
    context.PositionAtEnd(bb);
    var code, regs := context.code, context.regs;
    ghost var p := TagPiece(rows, 0, HandedBack(op, vals), regs);
    var r := context.BuildTag(rows, 0, HandedBack(op, vals));
    assert r.Some? ==> p.value.vals == [r.value];
    FinishResult(context, r, code, regs, exitRow);
    context.Build(Br(exit), context.regs);
    context.PositionAtEnd(current);
  }

  // ----- conditionals -----

  /** The exit block moves the exit mailboxes to the outputs of the node; the builder does not move. */
  method EmitCondExit(context: EmitFuncContext, tys: seq<Ty>, outs: seq<nat>) returns (exit: nat, exitRow: seq<nat>)
    requires context.Valid()
    modifies context
    ensures context.Valid() && |context.code| == |old(context.code)| + 1 && context.cur == old(context.cur)
    ensures context.State() == CondExit(old(context.State()), tys, outs)
    ensures exit == |old(context.code)| && exitRow == FreshRow(|old(context.slots)|, |tys|)
  {
    var current := context.cur;
    exitRow := context.NewRowMailBox(tys);
    exit := context.NewBasicBlock(AtEnd);
    context.PositionAtEnd(exit);
    var results := context.ReadVec(exitRow);
    context.Write(outs, results);
    context.PositionAtEnd(current);
  }

  method EmitConditional(context: EmitFuncContext, rows: seq<Row>, cases: seq<Case>, v: Operand, rest: seq<Operand>,
                         tys: seq<Ty>, outs: seq<nat>)
    requires context.Valid()
    modifies context
    ensures context.Valid() && |context.code| >= |old(context.code)|
    ensures context.State() == EmitCond(old(context.State()), rows, cases, v, rest, tys, outs)
    decreases cases, 3
  {
    hide Arms, EmitCases, CondExit, Destructure;
    var exit, exitRow := EmitCondExit(context, tys, outs);
    var targets := EmitCaseList(context, cases, exitRow, exit);
    context.BuildDestructure(rows, v, rest, targets);
    context.PositionAtEnd(exit);
  }

  /** Emits every case into a block of its own and returns what each expects. */
  method EmitCaseList(context: EmitFuncContext, cases: seq<Case>, exitRow: seq<nat>, exit: nat)
    returns (targets: seq<Target>)
    requires context.Valid()
    modifies context
    ensures context.Valid() && |context.code| >= |old(context.code)| && context.cur == old(context.cur)
    ensures (context.State(), targets) == EmitCases(old(context.State()), cases, exitRow, exit)
    decreases cases, 2
  {
    hide EmitCase;
    ghost var s1 := context.State();
    targets := [];
    assert [] + EmitCases(s1, cases, exitRow, exit).1 == EmitCases(s1, cases, exitRow, exit).1;
    for i := 0 to |cases|
      invariant context.Valid() && |context.code| >= |s1.code| && context.cur == s1.cur
      invariant EmitCases(context.State(), cases[i..], exitRow, exit).0 == EmitCases(s1, cases, exitRow, exit).0
      invariant targets + EmitCases(context.State(), cases[i..], exitRow, exit).1
             == EmitCases(s1, cases, exitRow, exit).1
    {
      assert cases[i..][0] == cases[i] && cases[i..][1..] == cases[i + 1..];
      ghost var was := targets;
      ghost var later := EmitCases(EmitCase(context.State(), cases[i], exitRow, exit), cases[i + 1..], exitRow, exit).1;
      var t := EmitOneCase(context, cases[i], exitRow, exit);
      targets := targets + [t];
      assert was + ([t] + later) == targets + later;
    }
    assert cases[|cases|..] == [] && targets + [] == targets;
  }

  method EmitOneCase(context: EmitFuncContext, c: Case, exitRow: seq<nat>, exit: nat) returns (t: Target)
    requires context.Valid()
    modifies context
    ensures context.Valid() && |context.code| >= |old(context.code)| && context.cur == old(context.cur)
    ensures context.State() == EmitCase(old(context.State()), c, exitRow, exit)
    ensures t == Target(|old(context.code)|, FreshRow(|old(context.slots)|, |RegionIns(c.nodes)|))
    decreases c, 2
  {
    var current := context.cur;
    var row := context.NewRowMailBox(RegionIns(c.nodes));
    var bb := context.NewBasicBlock(Before(exit));
    context.PositionAtEnd(bb);
    var inputs := context.ReadVec(row);
    EmitDataflowParent(context, c.nodes, inputs, exitRow);
    context.Build(Br(exit), context.regs);
    context.PositionAtEnd(current);
    t := Target(bb, row);
  }

  // ----- control-flow graphs -----

  class CfgEmitter {
    const context: EmitFuncContext
    const children: seq<Child>
    const inputs: seq<Operand>
    const outputs: seq<nat>
    const exitBlock: nat
    ghost const start: ES
    const outTys: seq<Ty>
    var bbs: map<NodeId, Target>
    var outputTaken: bool
    var takenTwice: bool

    ghost predicate Valid()
      reads this, context
    {
      context.Valid() && exitBlock < |context.code| && forall id :: id in bbs ==> bbs[id].blk < |context.code|
    }

    /** Creates a basic block for each child; the builder does not move. */
    constructor (context: EmitFuncContext, children: seq<Child>, inputs: seq<Operand>, outputs: seq<nat>,
                 outTys: seq<Ty>)
      requires context.Valid()
      modifies context
      ensures Valid() && |context.code| > |old(context.code)|
      ensures this.context == context && this.children == children && this.inputs == inputs && this.outputs == outputs
      ensures this.outTys == outTys && start == old(context.State())
      ensures exitBlock == |old(context.code)| && !outputTaken && !takenTwice
      ensures (context.State(), bbs) == MakeBlocks(NewBlock(start, AtEnd), children, exitBlock, outTys)
    {
      this.context, this.children, this.inputs, this.outputs := context, children, inputs, outputs;
      this.start, this.outTys := context.State(), outTys;
      this.exitBlock := |context.code|;
      bbs, outputTaken, takenTwice := map[], false, false;
      new;
      var _ := context.NewBasicBlock(AtEnd);
      MakeTargets();
    }

    /** Makes the block and the mailboxes of each child, in order. */
    method MakeTargets()
      requires Valid() && bbs == map[]
      modifies this`bbs, context
      ensures Valid() && |context.code| >= |old(context.code)|
      ensures (context.State(), bbs) == MakeBlocks(old(context.State()), children, exitBlock, outTys)
    {
      ghost var s0 := context.State();
      assert map[] + MakeBlocks(s0, children, exitBlock, outTys).1 == MakeBlocks(s0, children, exitBlock, outTys).1;
      for i := 0 to |children|
        invariant Valid() && |context.code| >= |s0.code|
        invariant MakeBlocks(context.State(), children[i..], exitBlock, outTys).0
               == MakeBlocks(s0, children, exitBlock, outTys).0
        invariant bbs + MakeBlocks(context.State(), children[i..], exitBlock, outTys).1
               == MakeBlocks(s0, children, exitBlock, outTys).1
      {
        hide MakeBlocks, NewRow, NewBlock, MapWires;
        ghost var was := bbs;
        MakeOne(context.State(), children, i, exitBlock, outTys);
        match children[i] {
          case Exit(id) =>
            var row := context.NewRowMailBox(outTys);
            bbs := bbs[id := Target(exitBlock, row)];
            EntryAdded(was, id, bbs[id], MakeBlocks(context.State(), children[i + 1..], exitBlock, outTys).1);
          case Block(id, _, nodes, _) =>
            var bb := context.NewBasicBlock(Before(exitBlock));
            var row := context.MapRow(InputWires(nodes), RegionIns(nodes));
            bbs := bbs[id := Target(bb, row)];
            EntryAdded(was, id, bbs[id], MakeBlocks(context.State(), children[i + 1..], exitBlock, outTys).1);
          case _ =>
        }
      }
      assert children[|children|..] == [] && bbs + map[] == bbs;
    }

    /** Writes the inputs into the mailboxes of the entry block, branches to it, and emits every child.  The builder
        ends up in the exit block. */
    method EmitChildNodes()
      requires Valid() && !outputTaken && !takenTwice
      requires (context.State(), bbs) == MakeBlocks(NewBlock(start, AtEnd), children, exitBlock, outTys)
      requires exitBlock == |start.code|
      modifies this`outputTaken, this`takenTwice, context
      ensures context.Valid() && |context.code| >= |old(context.code)|
      ensures context.State() == EmitCfg(start, children, inputs, outputs, outTys)
      decreases children, 2
    {
      hide EmitChild, MakeBlocks, NewBlock, WriteRow, Put;
      if |children| < 2 || !children[0].Block? || !children[1].Exit? || children[0].id !in bbs {
        context.Error();
        return;
      }
      var entry := bbs[children[0].id];
      context.Write(entry.row, inputs);
      context.Build(Br(entry.blk), context.regs);
      ghost var s1 := context.State();
      for i := 0 to |children|
        invariant Valid() && |context.code| >= |s1.code|
        invariant EmitChildren(context.State(), children[i..], bbs, outputs) == EmitChildren(s1, children, bbs, outputs)
        invariant outputTaken <==> exists j :: 0 <= j < i && children[j].Exit?
        invariant takenTwice <==> exists j, k :: 0 <= j < k < i && children[j].Exit? && children[k].Exit?
      {
        assert children[i..][0] == children[i] && children[i..][1..] == children[i + 1..];
        EmitChildNode(children[i]);
      }
      context.PositionAtEnd(exitBlock);
      SecondExit(children);
      if takenTwice {
        context.Error();
      }
    }

    method EmitChildNode(c: Child)
      requires Valid()
      modifies this`outputTaken, this`takenTwice, context
      ensures Valid() && |context.code| >= |old(context.code)|
      ensures context.State() == EmitChild(old(context.State()), c, bbs, outputs)
      ensures outputTaken <==> old(outputTaken) || c.Exit?
      ensures takenTwice <==> old(takenTwice) || (old(outputTaken) && c.Exit?)
      decreases c, 3
    {
      match c {
        case Block(_, _, _, _) => EmitDataflowBlock(c);
        case Exit(_) => EmitExitBlock(c);
        case ChildFunc(f) => context.todo := context.todo + {f};
        case ChildStatic =>
      }
    }

    method EmitDataflowBlock(c: Child)
      requires Valid() && c.Block?
      modifies context
      ensures Valid() && |context.code| >= |old(context.code)|
      ensures context.State() == EmitChild(old(context.State()), c, bbs, outputs)
      decreases c, 2
    {
      hide EmitRegion, Destructure, RegionOuts, RegionOutTys, MapWires, LoadLine, AllMet;
      var ok, targets := SuccessorData(c.succs);
      if c.id !in bbs || !ok || RegionOuts(c.nodes) == [] {
        context.Error();
        return;
      }
      var current, t := context.cur, bbs[c.id];
      context.PositionAtEnd(t.blk);
      var outputsRmb := context.MapRow(RegionOuts(c.nodes), RegionOutTys(c.nodes));
      var args := context.ReadVec(t.row);
      EmitDataflowParent(context, c.nodes, args, outputsRmb);
      var results := context.ReadVec(outputsRmb);
      context.BuildDestructure(c.rows, results[0], results[1..], targets);
      context.PositionAtEnd(current);
      context.Find(NeedType(Sum(c.rows)));
    }

    /** The block and mailboxes of each successor. */
    method SuccessorData(succs: seq<NodeId>) returns (ok: bool, targets: seq<Target>)
      ensures ok <==> forall s :: s in succs ==> s in bbs
      ensures ok ==> targets == Targets(succs, bbs)
    {
      ok, targets := true, [];
      for i := 0 to |succs|
        invariant ok <==> forall s :: s in succs[..i] ==> s in bbs
        invariant ok ==> |targets| == i && forall k :: 0 <= k < i ==> succs[k] in bbs && targets[k] == bbs[succs[k]]
      {
        assert succs[..i + 1] == succs[..i] + [succs[i]];
        if succs[i] in bbs {
          targets := targets + [bbs[succs[i]]];
        } else {
          ok := false;
        }
      }
      assert succs[..|succs|] == succs;
    }

    method EmitExitBlock(c: Child)
      requires Valid() && c.Exit?
      modifies this`outputTaken, this`takenTwice, context
      ensures Valid() && |context.code| >= |old(context.code)|
      ensures context.State() == EmitChild(old(context.State()), c, bbs, outputs)
      ensures outputTaken && (takenTwice <==> old(takenTwice) || old(outputTaken))
    {
      takenTwice := takenTwice || outputTaken;
      outputTaken := true;
      if c.id !in bbs {
        context.Error();
        return;
      }
      var current := context.cur;
      context.PositionAtEnd(bbs[c.id].blk);
      var results := context.ReadVec(bbs[c.id].row);
      context.Write(outputs, results);
      context.PositionAtEnd(current);
    }
  }

  lemma SecondExit(children: seq<Child>)
    requires |children| >= 2 && children[1].Exit?
    ensures (exists j, k :: 0 <= j < k < |children| && children[j].Exit? && children[k].Exit?)
       <==> exists i :: 0 <= i < |children| && i != 1 && children[i].Exit?
  {
    if i :| 0 <= i < |children| && i != 1 && children[i].Exit? {
      if i == 0 {
        assert children[0].Exit? && children[1].Exit?;
      } else {
        assert children[1].Exit? && children[i].Exit?;
      }
    }
  }

  /** What becomes of child `i` when its block is made. */
  lemma MakeOne(st: ES, children: seq<Child>, i: nat, exit: nat, tys: seq<Ty>)
    requires i < |children|
    ensures match children[i]
      case Exit(id) =>
        var r := MakeBlocks(NewRow(st, tys), children[i + 1..], exit, tys);
        MakeBlocks(st, children[i..], exit, tys) == (r.0, map[id := Target(exit, FreshRow(|st.slots|, |tys|))] + r.1)
      case Block(id, _, nodes, _) =>
        var s := MapWires(NewBlock(st, Before(exit)), InputWires(nodes), RegionIns(nodes));
        var r := MakeBlocks(s, children[i + 1..], exit, tys);
        MakeBlocks(st, children[i..], exit, tys)
          == (r.0, map[id := Target(|st.code|, RowOf(s.env, InputWires(nodes)))] + r.1)
      case _ => MakeBlocks(st, children[i..], exit, tys) == MakeBlocks(st, children[i + 1..], exit, tys)
  {
    assert children[i..][0] == children[i] && children[i..][1..] == children[i + 1..];
  }

  lemma EntryAdded(bbs: map<NodeId, Target>, id: NodeId, t: Target, later: map<NodeId, Target>)
    ensures bbs + (map[id := t] + later) == bbs[id := t] + later
  {
  }

  // ----- functions -----

  datatype Emitted = Emitted(code: Code, order: seq<nat>, slots: seq<Ty>, todo: set<NodeId>, refs: set<NodeId>)

  /** Emits one function, up to the branch out of its alloca block; an error if anything it asks for is not there. */
  method EmitFuncDefn(codegen: Codegen, f: FuncDefn) returns (r: Option<Emitted>)
    ensures var s := EmitFunc(f);
      r == if s.failed || !AllMet(codegen, s.needs) then None
           else Some(Emitted(s.code, s.order, s.slots, s.todo, s.refs))
  {
    hide AllMet;
    var context := new EmitFuncContext(codegen);
    var retRmb := context.NewRowMailBox(f.outs);
    EmitDataflowParent(context, f.nodes, Params(|f.ins|), retRmb);
    var results := context.ReadVec(retRmb);
    context.Build(Ret(results), context.regs);
    context.PositionAtEnd(0);
    context.Build(Br(1), context.regs);
    if context.failed || context.unmet {
      return None;
    }
    r := Some(Emitted(context.code, context.order, context.slots, context.todo, context.refs));
  }
}
