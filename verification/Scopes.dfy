/** What the emission of a function comes across: the functions defined in its body, which are left to be emitted,
    those it calls or loads, which are declared, and the LLVM types and handlers it asks for. */
module Scopes {
  import opened Values
  import opened Machine
  import opened Hugr
  import opened Arrays
  import opened Types
  import opened Builder
  import opened Emit
  import opened EmitLaws

  datatype Names = Names(scoped: set<NodeId>, called: set<NodeId>, needs: set<Need>)

  function Join(a: Names, b: Names): Names {
    Names(a.scoped + b.scoped, a.called + b.called, a.needs + b.needs)
  }

  const NoNames := Names({}, {}, {})

  function OnlyNeeds(needs: set<Need>): Names {
    Names({}, {}, needs)
  }

  function TypesNeed(tys: seq<Ty>): set<Need> {
    set t | t in tys :: NeedType(t)
  }

  // ----- what a HUGR mentions -----

  /** Everything mentioned in a region, but not inside the functions defined there. */
  function NamesIn(nodes: seq<Node>): Names
    decreases nodes, 0
  {
    if nodes == [] then NoNames else Join(NamesOf(nodes[0]), NamesIn(nodes[1..]))
  }

  /** The types of a node's ports, and what its op mentions. */
  function NamesOf(n: Node): Names
    decreases n, 1
  {
    Join(OnlyNeeds(TypesNeed(n.inTys) + TypesNeed(n.outs)), OpNames(n))
  }

  function OpNames(n: Node): Names
    decreases n, 0
  {
    match n.op
    case Tag(_, rows) => OnlyNeeds({NeedType(Sum(rows))})
    case Ext(op) => OnlyNeeds({NeedOp(op)})
    case Array(op, elem, size) => OnlyNeeds(ArrayNeeds(op, elem, size))
    case LoadConst(v) => OnlyNeeds(ConstNeeds(v))
    case LoadFunc(f) => Names({}, {f}, {})
    case CallFn(f) => Names({}, {f}, {})
    case FuncDef(f) => Names({f}, {}, {})
    case Dfg(nodes) => NamesIn(nodes)
    case Cond(rows, cases) => Join(NamesInCases(cases), OnlyNeeds({NeedType(Sum(rows))}))
    case Cfg(children) => NamesInChildren(children)
    case _ => NoNames
  }

  function NamesInCases(cases: seq<Case>): Names
    decreases cases, 0
  {
    if cases == [] then NoNames else Join(NamesIn(cases[0].nodes), NamesInCases(cases[1..]))
  }

  function NamesOfChild(c: Child): Names
    decreases c, 0
  {
    match c
    case Block(_, rows, nodes, _) => Join(NamesIn(nodes), OnlyNeeds({NeedType(Sum(rows))}))
    case ChildFunc(f) => Names({f}, {}, {})
    case _ => NoNames
  }

  function NamesInChildren(children: seq<Child>): Names
    decreases children, 0
  {
    if children == [] then NoNames else Join(NamesOfChild(children[0]), NamesInChildren(children[1..]))
  }

  /** All LLVM types and handlers that emitting a function takes, besides its own function type. */
  function FuncNeeds(f: FuncDefn): set<Need> {
    TypesNeed(f.outs) + NamesIn(f.nodes).needs
  }

  // ----- typed edges -----

  /** Every wire has the type that `ty` gives at all of its ends. */
  ghost predicate EdgesIn(nodes: seq<Node>, ty: Wire -> Ty)
    decreases nodes, 0
  {
    nodes == [] || (EdgesOf(nodes[0], ty) && EdgesIn(nodes[1..], ty))
  }

  ghost predicate Ends(ws: seq<Wire>, tys: seq<Ty>, ty: Wire -> Ty) {
    |ws| == |tys| && forall i :: 0 <= i < |ws| ==> tys[i] == ty(ws[i])
  }

  ghost predicate EdgesOf(n: Node, ty: Wire -> Ty)
    decreases n, 0
  {
    && Ends(n.ins, n.inTys, ty) && Ends(OutWires(n.id, |n.outs|), n.outs, ty)
    && match n.op
       case Dfg(nodes) => EdgesIn(nodes, ty)
       case Cond(_, cases) => EdgesInCases(cases, ty)
       case Cfg(children) => EdgesInChildren(children, ty)
       case _ => true
  }

  ghost predicate EdgesInCases(cases: seq<Case>, ty: Wire -> Ty)
    decreases cases, 0
  {
    cases == [] || (EdgesIn(cases[0].nodes, ty) && EdgesInCases(cases[1..], ty))
  }

  ghost predicate EdgesInChildren(children: seq<Child>, ty: Wire -> Ty)
    decreases children, 0
  {
    children == [] ||
    ((children[0].Block? ==> EdgesIn(children[0].nodes, ty)) && EdgesInChildren(children[1..], ty))
  }

  ghost predicate TypedEdges(f: FuncDefn) {
    exists ty: Wire -> Ty :: EdgesIn(f.nodes, ty)
  }

  // ----- what emission comes across -----

  /** Every mailbox has been asked for at its type, and a wire's mailbox has the wire's type. */
  ghost predicate Kept(st: ES, ty: Wire -> Ty) {
    true == (
    && |st.code| > 0 && (forall w :: w in st.env ==> st.env[w] < |st.slots| && st.slots[st.env[w]] == ty(w))
    && forall i :: 0 <= i < |st.slots| ==> NeedType(st.slots[i]) in st.needs)
  }

  /** Emission from `a` to `b` came across `names` and asked for nothing else; where the edges are typed (`ok`), it
      asked for all of `least`. */
  ghost predicate Gains(a: ES, b: ES, names: Names, least: set<Need>, ok: bool, ty: Wire -> Ty) {
    true == (
    && b.todo == a.todo + names.scoped && b.refs == a.refs + names.called
    && a.needs <= b.needs <= a.needs + names.needs
    && (ok && Kept(a, ty) ==> Kept(b, ty) && least <= b.needs))
  }

  lemma GainsTrans(a: ES, b: ES, c: ES, n1: Names, n2: Names, l1: set<Need>, l2: set<Need>, ok1: bool, ok2: bool,
                   ty: Wire -> Ty)
    requires Gains(a, b, n1, l1, ok1, ty) && Gains(b, c, n2, l2, ok2, ty)
    ensures Gains(a, c, Join(n1, n2), l1 + l2, ok1 && ok2, ty)
  {
    hide Kept;
  }

  /** The claim may be weakened. */
  lemma GainsLess(a: ES, b: ES, n: Names, n': Names, l: set<Need>, l': set<Need>, ok: bool, ok': bool, ty: Wire -> Ty)
    requires Gains(a, b, n, l, ok, ty) && l' <= a.needs + l && (ok' ==> ok)
    requires n'.scoped == n.scoped && n'.called == n.called && n.needs <= n'.needs + a.needs
    ensures Gains(a, b, n', l', ok', ty)
  {
    hide Kept;
  }

  /** Edits that come across nothing. */
  predicate SameNames(a: ES, b: ES) {
    true == (
    && b.todo == a.todo && b.refs == a.refs && b.needs == a.needs && b.env == a.env && b.slots == a.slots
    && |b.code| >= |a.code|)
  }

  lemma SameGains(a: ES, b: ES, ty: Wire -> Ty)
    requires SameNames(a, b)
    ensures Gains(a, b, NoNames, {}, true, ty)
  {
  }

  /** Emission that is followed by such an edit. */
  lemma ThenSame(a: ES, b: ES, c: ES, n: Names, l: set<Need>, ok: bool, ty: Wire -> Ty)
    requires Gains(a, b, n, l, ok, ty) && SameNames(b, c)
    ensures Gains(a, c, n, l, ok, ty)
  {
  }

  lemma AskGains(st: ES, needs: set<Need>, ty: Wire -> Ty)
    ensures Gains(st, Ask(st, needs), OnlyNeeds(needs), needs, true, ty)
  {
  }

  /** Asking is followed by an edit that comes across nothing. */
  lemma AskedGains(st: ES, needs: set<Need>, c: ES, ty: Wire -> Ty)
    requires SameNames(Ask(st, needs), c)
    ensures Gains(st, c, OnlyNeeds(needs), needs, true, ty)
  {
    AskGains(st, needs, ty);
    ThenSame(st, Ask(st, needs), c, OnlyNeeds(needs), needs, true, ty);
  }

  /** Emission that is followed by asking. */
  lemma ThenAsk(a: ES, b: ES, n: Names, l: set<Need>, needs: set<Need>, ok: bool, ty: Wire -> Ty)
    requires Gains(a, b, n, l, ok, ty)
    ensures Gains(a, Ask(b, needs), Join(n, OnlyNeeds(needs)), l + needs, ok, ty)
  {
    hide Gains, Kept;
    AskGains(b, needs, ty);
    GainsTrans(a, b, Ask(b, needs), n, OnlyNeeds(needs), l, needs, ok, true, ty);
  }

  // ----- mailboxes -----

  lemma AllocGains(st: ES, t: Ty, ty: Wire -> Ty)
    ensures Gains(st, Alloc(st, t), OnlyNeeds({NeedType(t)}), {NeedType(t)}, true, ty)
    ensures |Alloc(st, t).code| == |st.code| && Alloc(st, t).env == st.env
  {
  }

  lemma {:induction false} NewRowGains(st: ES, tys: seq<Ty>, ty: Wire -> Ty)
    ensures Gains(st, NewRow(st, tys), OnlyNeeds(TypesNeed(tys)), TypesNeed(tys), true, ty)
    decreases tys
  {
    hide Gains, Alloc;
    if tys == [] {
      SameGains(st, st, ty);
      assert TypesNeed(tys) == {};
    } else {
      AllocGains(st, tys[0], ty);
      var s := Alloc(st, tys[0]);
      NewRowGains(s, tys[1..], ty);
      var a, b := {NeedType(tys[0])}, TypesNeed(tys[1..]);
      assert a + b == TypesNeed(tys);
      assert Join(OnlyNeeds(a), OnlyNeeds(b)) == OnlyNeeds(a + b);
      GainsTrans(st, s, NewRow(st, tys), OnlyNeeds(a), OnlyNeeds(b), a, b, true, true, ty);
    }
  }

  lemma MapWireGains(st: ES, w: Wire, t: Ty, ty: Wire -> Ty)
    ensures Gains(st, MapWire(st, w, t), OnlyNeeds({NeedType(t)}), {NeedType(t)}, t == ty(w), ty)
  {
    if w in st.env && t == ty(w) && Kept(st, ty) {
      assert NeedType(st.slots[st.env[w]]) in st.needs;
    }
  }

  lemma {:induction false} MapWiresGain(st: ES, ws: seq<Wire>, tys: seq<Ty>, ty: Wire -> Ty)
    ensures Gains(st, MapWires(st, ws, tys), OnlyNeeds(TypesNeed(tys)), TypesNeed(tys), Ends(ws, tys, ty), ty)
    decreases ws
  {
    hide Gains, MapWire;
    if ws == [] || tys == [] {
      SameGains(st, st, ty);
      assert Ends(ws, tys, ty) ==> TypesNeed(tys) == {};
      if tys == [] {
        assert TypesNeed(tys) == {};
        GainsLess(st, st, NoNames, OnlyNeeds({}), {}, {}, true, Ends(ws, tys, ty), ty);
      } else {
        NeverOk(st, OnlyNeeds(TypesNeed(tys)), TypesNeed(tys), ty);
      }
    } else {
      MapWireGains(st, ws[0], tys[0], ty);
      var s := MapWire(st, ws[0], tys[0]);
      MapWiresGain(s, ws[1..], tys[1..], ty);
      var a, b := {NeedType(tys[0])}, TypesNeed(tys[1..]);
      assert a + b == TypesNeed(tys);
      assert Join(OnlyNeeds(a), OnlyNeeds(b)) == OnlyNeeds(a + b);
      var ok1, ok2 := tys[0] == ty(ws[0]), Ends(ws[1..], tys[1..], ty);
      GainsTrans(st, s, MapWires(st, ws, tys), OnlyNeeds(a), OnlyNeeds(b), a, b, ok1, ok2, ty);
      GainsLess(st, MapWires(st, ws, tys), OnlyNeeds(a + b), OnlyNeeds(a + b), a + b, a + b, ok1 && ok2,
                Ends(ws, tys, ty), ty);
    }
  }

  lemma NeverOk(st: ES, n: Names, l: set<Need>, ty: Wire -> Ty)
    requires n.scoped == {} && n.called == {}
    ensures Gains(st, st, n, l, false, ty)
  {
  }

  // ----- code that comes across nothing -----

  lemma {:induction false} ArmsNames(st: ES, rows: seq<Row>, v: Operand, rest: seq<Operand>, targets: seq<Target>,
                                     i: nat, last: nat)
    requires i <= |rows|
    ensures SameNames(st, Arms(st, rows, v, rest, targets, i, last).0)
    decreases |rows| - i
  {
    if i < |rows| {
      hide UntagPiece;
      var bb := |st.code|;
      var s1 := At(NewBlock(st, After(last)), bb);
      var p := UntagPiece(rows, i, v, s1.regs);
      var s2 := PutPiece(s1, p);
      var s3 := if i < |targets|
        then Terminate(WriteRow(s2, targets[i].row, p.vals + rest), Br(targets[i].blk)) else Fail(s2);
      assert SameNames(st, s3);
      ArmsNames(s3, rows, v, rest, targets, i + 1, bb);
    }
  }

  lemma DestructureNames(st: ES, rows: seq<Row>, v: Operand, rest: seq<Operand>, targets: seq<Target>)
    ensures SameNames(st, Destructure(st, rows, v, rest, targets))
  {
    hide Arms;
    if rows != [] { ArmsNames(st, rows, v, rest, targets, 0, st.cur); }
  }

  lemma FinishNames(st: ES, p: Option<Piece>, outs: seq<nat>)
    ensures SameNames(st, Finish(st, p, outs))
  {
  }

  lemma SideNames(st: ES, b: nat, p: Option<Piece>, exitRow: seq<nat>, exit: nat)
    ensures SameNames(st, EmitSide(st, b, p, exitRow, exit))
  {
    hide Finish, Place;
    FinishNames(At(NewBlock(st, Before(b)), |st.code|), p, exitRow);
  }

  lemma SameTrans(a: ES, b: ES, c: ES)
    requires SameNames(a, b) && SameNames(b, c)
    ensures SameNames(a, c)
  {
  }

  // ----- nodes -----

  lemma PreludeGains(st: ES, n: Node, ty: Wire -> Ty)
    ensures var needs := TypesNeed(n.inTys) + TypesNeed(n.outs);
      Gains(st, Prelude(st, n), OnlyNeeds(needs), needs,
            Ends(n.ins, n.inTys, ty) && Ends(OutWires(n.id, |n.outs|), n.outs, ty), ty)
  {
    hide MapWires, Gains, Put, LoadLine;
    var a, b := TypesNeed(n.inTys), TypesNeed(n.outs);
    MapWiresGain(st, n.ins, n.inTys, ty);
    var s1 := MapWires(st, n.ins, n.inTys);
    var s2 := PutPiece(s1, ReadRow(RowOf(s1.env, n.ins), s1.regs));
    PutNames(s1, ReadRow(RowOf(s1.env, n.ins), s1.regs));
    ThenSame(st, s1, s2, OnlyNeeds(a), a, Ends(n.ins, n.inTys, ty), ty);
    MapWiresGain(s2, OutWires(n.id, |n.outs|), n.outs, ty);
    GainsTrans(st, s2, Prelude(st, n), OnlyNeeds(a), OnlyNeeds(b), a, b, Ends(n.ins, n.inTys, ty),
               Ends(OutWires(n.id, |n.outs|), n.outs, ty), ty);
    assert Join(OnlyNeeds(a), OnlyNeeds(b)) == OnlyNeeds(a + b);
  }

  lemma PutNames(st: ES, p: Piece)
    ensures SameNames(st, PutPiece(st, p))
  {
  }

  lemma {:induction false} NodesGain(st: ES, nodes: seq<Node>, inputs: seq<Operand>, promise: seq<nat>, nIn: nat,
                                     ws: seq<Wire>, ty: Wire -> Ty)
    requires ValidNodes(nodes, nIn, ws)
    ensures Gains(st, EmitNodes(st, nodes, inputs, promise), NamesIn(nodes), NamesIn(nodes).needs,
                  EdgesIn(nodes, ty), ty)
    decreases nodes, 0
  {
    hide EmitNode, NamesOf, Gains, EdgesOf, ValidNode;
    if nodes == [] {
      SameGains(st, st, ty);
    } else {
      var s, t := EmitNode(st, nodes[0], inputs, promise), EmitNodes(st, nodes, inputs, promise);
      NodeGains(st, nodes[0], inputs, promise, nIn, ws, ty);
      NodesGain(s, nodes[1..], inputs, promise, nIn, ws, ty);
      var a, b := NamesOf(nodes[0]), NamesIn(nodes[1..]);
      GainsTrans(st, s, t, a, b, a.needs, b.needs, EdgesOf(nodes[0], ty), EdgesIn(nodes[1..], ty), ty);
    }
  }

  lemma {:induction false} NodeGains(st: ES, n: Node, inputs: seq<Operand>, promise: seq<nat>, nIn: nat, ws: seq<Wire>,
                                     ty: Wire -> Ty)
    requires ValidNode(n, nIn, ws)
    ensures Gains(st, EmitNode(st, n, inputs, promise), NamesOf(n), NamesOf(n).needs, EdgesOf(n, ty), ty)
    decreases n, 1
  {
    hide Prelude, EmitOp, NodeOuts, Gains, OpNames, WriteRow;
    PreludeGains(st, n, ty);
    var s, t := Prelude(st, n), EmitNode(st, n, inputs, promise);
    assert t == EmitAt(s, n, Regs(st.regs, |n.ins|), NodeOuts(st, n), inputs, promise);
    var ports := TypesNeed(n.inTys) + TypesNeed(n.outs);
    match n.op {
      case Input => WriteNames(s, NodeOuts(st, n), inputs); SameGains(s, t, ty); NothingMore(s, t, n, ports, ty);
      case Output => WriteNames(s, promise, Regs(st.regs, |n.ins|)); SameGains(s, t, ty);
        NothingMore(s, t, n, ports, ty);
      case _ => OpGains(s, n, Regs(st.regs, |n.ins|), NodeOuts(st, n), nIn, ws, ty);
    }
    var ok := Ends(n.ins, n.inTys, ty) && Ends(OutWires(n.id, |n.outs|), n.outs, ty);
    var op := Join(OpNames(n), OnlyNeeds(TypesNeed(n.outs)));
    GainsTrans(st, s, t, OnlyNeeds(ports), op, ports, OpNames(n).needs, ok, EdgesOf(n, ty), ty);
    GainsLess(st, t, Join(OnlyNeeds(ports), op), NamesOf(n), ports + OpNames(n).needs, NamesOf(n).needs,
              ok && EdgesOf(n, ty), EdgesOf(n, ty), ty) by { hide TypesNeed; }
  }

  lemma WriteNames(st: ES, row: seq<nat>, vals: seq<Operand>)
    ensures SameNames(st, WriteRow(st, row, vals))
  {
  }

  lemma NothingMore(s: ES, t: ES, n: Node, ports: set<Need>, ty: Wire -> Ty)
    requires Gains(s, t, NoNames, {}, true, ty) && (n.op.Input? || n.op.Output?)
    ensures Gains(s, t, Join(OpNames(n), OnlyNeeds(TypesNeed(n.outs))), OpNames(n).needs, EdgesOf(n, ty), ty)
  {
    hide Gains, EdgesOf;
    GainsLess(s, t, NoNames, Join(OpNames(n), OnlyNeeds(TypesNeed(n.outs))), {}, OpNames(n).needs, true, EdgesOf(n, ty),
              ty);
  }

  /** Besides what it mentions itself, an op may ask for the types of its outputs. */
  lemma {:induction false} OpGains(st: ES, n: Node, vals: seq<Operand>, outs: seq<nat>, nIn: nat, ws: seq<Wire>,
                                   ty: Wire -> Ty)
    requires ValidNode(n, nIn, ws) && !n.op.Input? && !n.op.Output? && |vals| == |n.ins|
    ensures Gains(st, EmitOp(st, n, vals, outs), Join(OpNames(n), OnlyNeeds(TypesNeed(n.outs))), OpNames(n).needs,
                  EdgesOf(n, ty), ty)
    decreases n, 0
  {
    hide Finish, TagPiece, ConstPiece, CallPiece, EmitRegion, EmitArray, EmitCond, EmitCfg, ValidRegion, ValidCases,
      ValidCfg, Gains, TypesNeed, EdgesIn, EdgesInCases, EdgesInChildren, NamesIn, NamesInCases, NamesInChildren, Ends,
      ConstNeeds, ValidConst, ArrayNeeds;
    var t, names, outNeeds := EmitOp(st, n, vals, outs), OpNames(n), TypesNeed(n.outs);
    var ok := true;
    match n.op {
      case Tag(tag, rows) =>
        FinishNames(Ask(st, {NeedType(Sum(rows))}), TagPiece(rows, tag, vals, st.regs), outs);
        AskedGains(st, {NeedType(Sum(rows))}, t, ty);
      case Ext(op) =>
        var p := Piece([ExtOp(st.regs, |outs|, op, vals)], st.regs + |outs|, Regs(st.regs, |outs|));
        FinishNames(Ask(st, {NeedOp(op)}), Some(p), outs);
        AskedGains(st, {NeedOp(op)}, t, ty);
      case Array(op, elem, size) => ArrayGains(st, op, elem, size, vals, outs, ty);
      case LoadConst(v) =>
        ConstPieceOk(v, st.regs);
        FinishNames(Ask(st, ConstNeeds(v)), ConstPiece(v, st.regs), outs);
        AskedGains(st, ConstNeeds(v), t, ty);
      case LoadFunc(f) => RefGains(st, f, Piece([], st.regs, [Const(LFn(f))]), outs, ty);
      case CallFn(f) => RefGains(st, f, CallPiece(Const(LFn(f)), vals, |outs|, st.regs), outs, ty);
      case CallIndirect =>
        FinishNames(st, Some(CallPiece(vals[0], vals[1..], |outs|, st.regs)), outs);
        SameGains(st, t, ty);
      case Dfg(nodes) =>
        ok := EdgesIn(nodes, ty);
        RegionGains(st, nodes, vals, outs, |n.ins|, |n.outs|, ty);
      case Cond(rows, cases) =>
        ok := EdgesInCases(cases, ty);
        var s := EmitCond(st, rows, cases, vals[0], vals[1..], n.outs, outs);
        CondGains(st, rows, cases, vals[0], vals[1..], n.outs, outs, |n.ins| - 1, |n.outs|, ty);
        var inner := Join(NamesInCases(cases), OnlyNeeds(outNeeds));
        ThenAsk(st, s, inner, NamesInCases(cases).needs, {NeedType(Sum(rows))}, ok, ty);
        GainsLess(st, t, Join(inner, OnlyNeeds({NeedType(Sum(rows))})), Join(names, OnlyNeeds(outNeeds)),
                  NamesInCases(cases).needs + {NeedType(Sum(rows))}, names.needs, ok, ok, ty);
        GainsLess(st, t, Join(names, OnlyNeeds(outNeeds)), Join(names, OnlyNeeds(outNeeds)), names.needs, names.needs,
                  ok, EdgesOf(n, ty), ty);
        return;
      case Cfg(children) =>
        ok := EdgesInChildren(children, ty);
        CfgGains(st, children, vals, outs, n.outs, |n.ins|, |n.outs|, ty);
        GainsLess(st, t, Join(names, OnlyNeeds(outNeeds)), Join(names, OnlyNeeds(outNeeds)), names.needs, names.needs,
                  ok, EdgesOf(n, ty), ty);
        return;
      case FuncDef(f) => DefGains(st, f, ty);
      case Static => SameGains(st, st, ty);
    }
    GainsLess(st, t, names, Join(names, OnlyNeeds(outNeeds)), names.needs, names.needs, ok, EdgesOf(n, ty), ty);
  }

  lemma RefGains(st: ES, f: NodeId, p: Piece, outs: seq<nat>, ty: Wire -> Ty)
    ensures Gains(st, Finish(st.(refs := st.refs + {f}), Some(p), outs), Names({}, {f}, {}), {}, true, ty)
  {
    hide Finish;
    FinishNames(st.(refs := st.refs + {f}), Some(p), outs);
  }

  lemma DefGains(st: ES, f: NodeId, ty: Wire -> Ty)
    ensures Gains(st, st.(todo := st.todo + {f}), Names({f}, {}, {}), {}, true, ty)
  {
  }

  lemma {:induction false} RegionGains(st: ES, nodes: seq<Node>, inputs: seq<Operand>, promise: seq<nat>, nIn: nat,
                                       nOut: nat, ty: Wire -> Ty)
    requires ValidRegion(nodes, nIn, nOut)
    ensures Gains(st, EmitRegion(st, nodes, inputs, promise), NamesIn(nodes), NamesIn(nodes).needs,
                  EdgesIn(nodes, ty), ty)
    decreases nodes, 1
  {
    hide EmitNodes, NamesIn, ValidNodes, CountOp, Gains, EdgesIn;
    NodesGain(st, nodes, inputs, promise, nIn, RegionOuts(nodes), ty);
  }

  // ----- arrays -----

  lemma ArrayGains(st: ES, op: ArrayOp, elem: Ty, size: nat, vals: seq<Operand>, outs: seq<nat>, ty: Wire -> Ty)
    ensures var needs := ArrayNeeds(op, elem, size);
      Gains(st, EmitArray(st, op, elem, size, vals, outs), OnlyNeeds(needs), needs, true, ty)
  {
    hide Finish, NewArrayPiece, PoppedPiece, EmitAccess, Gains, SameNames;
    var needs, rows := ArrayNeeds(op, elem, size), ArrayRows(op, elem, size);
    var s, t := Ask(st, needs), EmitArray(st, op, elem, size, vals, outs);
    if IsAccess(op, |vals|) {
      AccessGains(s, op, rows, size, vals, outs, ty);
      AskGains(st, needs, ty);
      var more := {NeedType(Sum(rows))};
      GainsTrans(st, s, t, OnlyNeeds(needs), OnlyNeeds(more), needs, more, true, true, ty);
      assert Join(OnlyNeeds(needs), OnlyNeeds(more)) == OnlyNeeds(needs) && needs + more == needs;
    } else {
      FailNames(s);
      FinishNames(s, Some(NewArrayPiece(size, vals, s.regs)), outs);
      if op.PopOp? && |vals| == 1 {
        FinishNames(s, PoppedPiece(rows, op.left, size, vals[0], s.regs), outs);
      }
      AskedGains(st, needs, t, ty);
    }
  }

  lemma FailNames(st: ES)
    ensures SameNames(st, Fail(st)) && SameNames(st, st)
  {
  }

  lemma AccessGains(st: ES, op: ArrayOp, rows: seq<Row>, size: nat, vals: seq<Operand>, outs: seq<nat>, ty: Wire -> Ty)
    requires IsAccess(op, |vals|)
    ensures var needs := {NeedType(Sum(rows))};
      Gains(st, EmitAccess(st, op, rows, size, vals, outs), OnlyNeeds(needs), needs, true, ty)
  {
    hide CondExit, EmitSide, AccessPiece, TagPiece, GuardPiece, Gains, SameNames, Put;
    var s1, t := CondExit(st, [Sum(rows)], outs), EmitAccess(st, op, rows, size, vals, outs);
    CondExitGains(st, [Sum(rows)], outs, ty);
    assert TypesNeed([Sum(rows)]) == {NeedType(Sum(rows))};
    var exit, exitRow := |st.code|, FreshRow(|st.slots|, 1);
    var s2 := EmitSide(s1, exit, AccessPiece(op, rows, size, vals, s1.regs), exitRow, exit);
    SideNames(s1, exit, AccessPiece(op, rows, size, vals, s1.regs), exitRow, exit);
    SideNames(s2, exit + 1, TagPiece(rows, 0, HandedBack(op, vals), s2.regs), exitRow, exit);
    var s3 := AccessSides(st, op, rows, size, vals, outs);
    SameTrans(s1, s2, s3);
    var g := GuardPiece(op, size, vals, s3.regs);
    BranchNames(s3, g, CondBr(g.vals[0], |st.code| + 1, |st.code| + 2), exit);
    SameTrans(s1, s3, t);
    ThenSame(st, s1, t, OnlyNeeds({NeedType(Sum(rows))}), {NeedType(Sum(rows))}, true, ty);
  }

  lemma BranchNames(st: ES, p: Piece, i: Instr, b: nat)
    ensures SameNames(st, At(Terminate(PutPiece(st, p), i), b))
  {
  }

  // ----- conditionals -----

  lemma CondExitGains(st: ES, tys: seq<Ty>, outs: seq<nat>, ty: Wire -> Ty)
    ensures Gains(st, CondExit(st, tys, outs), OnlyNeeds(TypesNeed(tys)), TypesNeed(tys), true, ty)
  {
    hide NewRow, Gains, LoadLine, StoreLine, Place;
    NewRowGains(st, tys, ty);
    ThenSame(st, NewRow(st, tys), CondExit(st, tys, outs), OnlyNeeds(TypesNeed(tys)), TypesNeed(tys), true, ty);
  }

  lemma {:induction false} CondGains(st: ES, rows: seq<Row>, cases: seq<Case>, v: Operand, rest: seq<Operand>,
                                     tys: seq<Ty>, outs: seq<nat>, nRest: nat, nOut: nat, ty: Wire -> Ty)
    requires ValidCases(cases, rows, nRest, nOut)
    ensures Gains(st, EmitCond(st, rows, cases, v, rest, tys, outs),
                  Join(NamesInCases(cases), OnlyNeeds(TypesNeed(tys))), NamesInCases(cases).needs,
                  EdgesInCases(cases, ty), ty)
    decreases cases, 1
  {
    hide CondExit, EmitCases, Destructure, NamesInCases, Gains, TypesNeed, EdgesInCases, SameNames;
    CondExitGains(st, tys, outs, ty);
    var s1, exitRow := CondExit(st, tys, outs), FreshRow(|st.slots|, |tys|);
    CasesGain(s1, cases, rows, exitRow, |st.code|, nRest, nOut, ty);
    var r := EmitCases(s1, cases, exitRow, |st.code|);
    var a, b, ok := OnlyNeeds(TypesNeed(tys)), NamesInCases(cases), EdgesInCases(cases, ty);
    GainsTrans(st, s1, r.0, a, b, a.needs, b.needs, true, ok, ty);
    var d := Destructure(r.0, rows, v, rest, r.1);
    DestructureNames(r.0, rows, v, rest, r.1);
    MovedNames(r.0, d, |st.code|);
    ThenSame(st, r.0, At(d, |st.code|), Join(a, b), a.needs + b.needs, ok, ty);
    GainsLess(st, At(d, |st.code|), Join(a, b), Join(b, a), a.needs + b.needs, b.needs, ok, ok, ty);
  }

  lemma MovedNames(a: ES, b: ES, blk: nat)
    requires SameNames(a, b)
    ensures SameNames(a, At(b, blk))
  {
  }

  lemma {:induction false} CasesGain(st: ES, cases: seq<Case>, rows: seq<Row>, exitRow: seq<nat>, exit: nat, nRest: nat,
                                     nOut: nat, ty: Wire -> Ty)
    requires ValidCases(cases, rows, nRest, nOut)
    ensures Gains(st, EmitCases(st, cases, exitRow, exit).0, NamesInCases(cases), NamesInCases(cases).needs,
                  EdgesInCases(cases, ty), ty)
    decreases cases, 0
  {
    hide EmitCase, NamesIn, ValidRegion, Gains, EdgesIn, RegionIns;
    if cases == [] {
      SameGains(st, st, ty);
    } else {
      var s, t := EmitCase(st, cases[0], exitRow, exit), EmitCases(st, cases, exitRow, exit).0;
      CaseGains(st, cases[0], exitRow, exit, |rows[0].tys| + nRest, nOut, ty);
      CasesGain(s, cases[1..], rows[1..], exitRow, exit, nRest, nOut, ty);
      var a, b := NamesIn(cases[0].nodes), NamesInCases(cases[1..]);
      GainsTrans(st, s, t, a, b, a.needs, b.needs, EdgesIn(cases[0].nodes, ty), EdgesInCases(cases[1..], ty), ty);
    }
  }

  lemma {:induction false} CaseGains(st: ES, c: Case, exitRow: seq<nat>, exit: nat, nIn: nat, nOut: nat, ty: Wire -> Ty)
    requires ValidRegion(c.nodes, nIn, nOut)
    ensures Gains(st, EmitCase(st, c, exitRow, exit), NamesIn(c.nodes), NamesIn(c.nodes).needs,
                  EdgesIn(c.nodes, ty), ty)
    decreases c, 0
  {
    hide EmitRegion, NamesIn, ValidRegion, CaseStart, Gains, EdgesIn, SameNames, TypesNeed, RegionIns, Terminate;
    var s1, vals := CaseStart(st, c, exit), Regs(st.regs, |RegionIns(c.nodes)|);
    var tys, names, ok := TypesNeed(RegionIns(c.nodes)), NamesIn(c.nodes), EdgesIn(c.nodes, ty);
    CaseStartGains(st, c, exit, ty);
    RegionGains(s1, c.nodes, vals, exitRow, nIn, nOut, ty);
    var s2 := EmitRegion(s1, c.nodes, vals, exitRow);
    GainsTrans(st, s1, s2, OnlyNeeds(tys), names, tys, names.needs, true, ok, ty);
    EndNames(s2, Br(exit), st.cur);
    var t := EmitCase(st, c, exitRow, exit);
    ThenSame(st, s2, t, Join(OnlyNeeds(tys), names), tys + names.needs, ok, ty);
    InputNeeds(c.nodes);
    GainsLess(st, t, Join(OnlyNeeds(tys), names), names, tys + names.needs, names.needs, ok, ok, ty);
  }

  lemma EndNames(st: ES, i: Instr, b: nat)
    ensures SameNames(st, At(Terminate(st, i), b))
  {
  }

  lemma CaseStartGains(st: ES, c: Case, exit: nat, ty: Wire -> Ty)
    ensures var tys := TypesNeed(RegionIns(c.nodes)); Gains(st, CaseStart(st, c, exit), OnlyNeeds(tys), tys, true, ty)
  {
    hide NewRow, Gains, RegionIns, Place, LoadLine;
    var tys := RegionIns(c.nodes);
    NewRowGains(st, tys, ty);
    ThenSame(st, NewRow(st, tys), CaseStart(st, c, exit), OnlyNeeds(TypesNeed(tys)), TypesNeed(tys), true, ty);
  }

  /** The types of a region's arguments and results are among those of its nodes' ports. */
  lemma {:induction false} InputNeeds(nodes: seq<Node>)
    ensures TypesNeed(RegionIns(nodes)) <= NamesIn(nodes).needs
    decreases nodes
  {
    if nodes != [] && !nodes[0].op.Input? {
      InputNeeds(nodes[1..]);
    }
  }

  lemma {:induction false} OutputNeeds(nodes: seq<Node>)
    ensures TypesNeed(RegionOutTys(nodes)) <= NamesIn(nodes).needs
    decreases nodes
  {
    if nodes != [] && !nodes[0].op.Output? {
      OutputNeeds(nodes[1..]);
    }
  }

  lemma {:induction false} InputEnds(nodes: seq<Node>, ty: Wire -> Ty)
    requires EdgesIn(nodes, ty)
    ensures Ends(InputWires(nodes), RegionIns(nodes), ty)
    decreases nodes
  {
    if nodes != [] && !nodes[0].op.Input? {
      InputEnds(nodes[1..], ty);
    }
  }

  lemma {:induction false} OutputEnds(nodes: seq<Node>, ty: Wire -> Ty)
    requires EdgesIn(nodes, ty)
    ensures Ends(RegionOuts(nodes), RegionOutTys(nodes), ty)
    decreases nodes
  {
    if nodes != [] && !nodes[0].op.Output? {
      OutputEnds(nodes[1..], ty);
    }
  }

  // ----- control-flow graphs -----

  lemma {:induction false} MakeBlocksGain(st: ES, children: seq<Child>, exit: nat, tys: seq<Ty>, ty: Wire -> Ty)
    ensures Gains(st, MakeBlocks(st, children, exit, tys).0,
                  OnlyNeeds(NamesInChildren(children).needs + TypesNeed(tys)), {}, EdgesInChildren(children, ty), ty)
    decreases children
  {
    hide MapWires, NewRow, NewBlock, Gains, TypesNeed, EdgesIn, NamesIn, RegionIns, InputWires;
    var all, t := NamesInChildren(children).needs + TypesNeed(tys), MakeBlocks(st, children, exit, tys).0;
    if children == [] {
      SameGains(st, st, ty);
      GainsLess(st, st, NoNames, OnlyNeeds(all), {}, {}, true, true, ty);
    } else {
      var c, s := children[0], MakeBlock(st, children[0], exit, tys);
      var first := if c.Exit? then TypesNeed(tys) else if c.Block? then TypesNeed(RegionIns(c.nodes)) else {};
      var ok := c.Block? ==> EdgesIn(c.nodes, ty);
      MakeBlockGains(st, c, exit, tys, ty);
      MakeBlocksGain(s, children[1..], exit, tys, ty);
      var rest := NamesInChildren(children[1..]).needs + TypesNeed(tys);
      GainsTrans(st, s, t, OnlyNeeds(first), OnlyNeeds(rest), {}, {}, ok, EdgesInChildren(children[1..], ty), ty);
      if c.Block? { InputNeeds(c.nodes); }
      assert NamesInChildren(children) == Join(NamesOfChild(c), NamesInChildren(children[1..]));
      assert first + rest <= all;
      GainsLess(st, t, Join(OnlyNeeds(first), OnlyNeeds(rest)), OnlyNeeds(all), {} + {}, {},
                ok && EdgesInChildren(children[1..], ty), EdgesInChildren(children, ty), ty);
    }
  }

  lemma MakeBlockGains(st: ES, c: Child, exit: nat, tys: seq<Ty>, ty: Wire -> Ty)
    ensures var needs := if c.Exit? then TypesNeed(tys) else if c.Block? then TypesNeed(RegionIns(c.nodes)) else {};
      Gains(st, MakeBlock(st, c, exit, tys), OnlyNeeds(needs), {}, c.Block? ==> EdgesIn(c.nodes, ty), ty)
  {
    hide MapWires, NewRow, Gains, TypesNeed, EdgesIn, RegionIns, InputWires, Ends, Place;
    match c {
      case Exit(_) =>
        NewRowGains(st, tys, ty);
        GainsLess(st, NewRow(st, tys), OnlyNeeds(TypesNeed(tys)), OnlyNeeds(TypesNeed(tys)), TypesNeed(tys), {}, true,
                  true, ty);
      case Block(_, _, nodes, _) =>
        var s, needs := NewBlock(st, Before(exit)), TypesNeed(RegionIns(nodes));
        assert SameNames(st, s);
        SameGains(st, s, ty);
        MapWiresGain(s, InputWires(nodes), RegionIns(nodes), ty);
        var t, ok := MapWires(s, InputWires(nodes), RegionIns(nodes)), Ends(InputWires(nodes), RegionIns(nodes), ty);
        GainsTrans(st, s, t, NoNames, OnlyNeeds(needs), {}, needs, true, ok, ty);
        if EdgesIn(nodes, ty) { InputEnds(nodes, ty); }
        GainsLess(st, t, Join(NoNames, OnlyNeeds(needs)), OnlyNeeds(needs), {} + needs, {}, ok, EdgesIn(nodes, ty), ty);
      case _ => SameGains(st, st, ty);
    }
  }

  lemma {:induction false} CfgGains(st: ES, children: seq<Child>, vals: seq<Operand>, outs: seq<nat>, tys: seq<Ty>,
                                    nIn: nat, nOut: nat, ty: Wire -> Ty)
    requires ValidCfg(children, nIn, nOut)
    ensures Gains(st, EmitCfg(st, children, vals, outs, tys),
                  Join(NamesInChildren(children), OnlyNeeds(TypesNeed(tys))), NamesInChildren(children).needs,
                  EdgesInChildren(children, ty), ty)
    decreases children, 1
  {
    hide MakeBlocks, EmitChildren, NamesInChildren, ValidChildren, Gains, EdgesInChildren, TypesNeed, Place, WriteRow;
    var s0, exit := NewBlock(st, AtEnd), |st.code|;
    assert SameNames(st, s0);
    SameGains(st, s0, ty);
    MakeBlocksGain(s0, children, exit, tys, ty);
    var r := MakeBlocks(s0, children, exit, tys);
    forall id ensures id in r.1 <==> FindChild(children, id).Some? {
      MakeBlocksKeys(s0, children, exit, tys, id);
    }
    forall c | c in children && IsBlock(c) ensures FindChild(children, c.id).Some? {
      ChildFound(children, c);
    }
    var made, names := OnlyNeeds(NamesInChildren(children).needs + TypesNeed(tys)), NamesInChildren(children);
    var ok := EdgesInChildren(children, ty);
    GainsTrans(st, s0, r.0, NoNames, made, {}, {}, true, ok, ty);
    var s := Terminate(WriteRow(r.0, r.1[children[0].id].row, vals), Br(r.1[children[0].id].blk));
    EnterNames(r.0, r.1[children[0].id], vals);
    GainsLess(st, r.0, Join(NoNames, made), Join(NoNames, made), {} + {}, {}, ok, ok, ty);
    ThenSame(st, r.0, s, Join(NoNames, made), {}, ok, ty);
    ChildrenGain(s, children, children, r.1, outs, nOut, ty);
    var t := EmitChildren(s, children, r.1, outs);
    GainsTrans(st, s, t, Join(NoNames, made), names, {}, names.needs, ok, ok, ty);
    AtNames(t, exit);
    ThenSame(st, t, At(t, exit), Join(Join(NoNames, made), names), {} + names.needs, ok, ty);
    GainsLess(st, At(t, exit), Join(Join(NoNames, made), names), Join(names, OnlyNeeds(TypesNeed(tys))),
              {} + names.needs, names.needs, ok, ok, ty);
  }

  lemma EnterNames(st: ES, t: Target, vals: seq<Operand>)
    ensures SameNames(st, Terminate(WriteRow(st, t.row, vals), Br(t.blk)))
  {
  }

  lemma AtNames(st: ES, b: nat)
    ensures SameNames(st, At(st, b))
  {
  }

  lemma {:induction false} ChildrenGain(st: ES, children: seq<Child>, all: seq<Child>, bbs: map<NodeId, Target>,
                                        outs: seq<nat>, nOut: nat, ty: Wire -> Ty)
    requires ValidChildren(children, all, nOut)
    requires forall id :: id in bbs <==> FindChild(all, id).Some?
    requires forall c :: c in children && IsBlock(c) ==> FindChild(all, c.id).Some?
    ensures Gains(st, EmitChildren(st, children, bbs, outs), NamesInChildren(children), NamesInChildren(children).needs,
                  EdgesInChildren(children, ty), ty)
    decreases children, 0
  {
    hide EmitChild, NamesOfChild, ValidChild, Gains, EdgesIn;
    if children == [] {
      SameGains(st, st, ty);
    } else {
      var c, s, t := children[0], EmitChild(st, children[0], bbs, outs), EmitChildren(st, children, bbs, outs);
      ChildGains(st, c, all, bbs, outs, nOut, ty);
      ChildrenGain(s, children[1..], all, bbs, outs, nOut, ty);
      var a, b := NamesOfChild(c), NamesInChildren(children[1..]);
      GainsTrans(st, s, t, a, b, a.needs, b.needs, c.Block? ==> EdgesIn(c.nodes, ty),
                 EdgesInChildren(children[1..], ty), ty);
    }
  }

  lemma {:induction false} ChildGains(st: ES, c: Child, all: seq<Child>, bbs: map<NodeId, Target>, outs: seq<nat>,
                                      nOut: nat, ty: Wire -> Ty)
    requires ValidChild(c, all, nOut) && (forall id :: id in bbs <==> FindChild(all, id).Some?)
    requires IsBlock(c) ==> FindChild(all, c.id).Some?
    ensures Gains(st, EmitChild(st, c, bbs, outs), NamesOfChild(c), NamesOfChild(c).needs,
                  c.Block? ==> EdgesIn(c.nodes, ty), ty)
    decreases c, 0
  {
    hide EmitRegion, NamesIn, ValidRegion, BlockStart, Destructure, FindChild, Gains, EdgesIn, TypesNeed, SameNames,
      RegionOuts, RegionOutTys, PutPiece, WriteRow;
    var t := EmitChild(st, c, bbs, outs);
    match c {
      case Block(id, rows, nodes, succs) =>
        var s1 := BlockStart(st, nodes, bbs[id]);
        BlockStartGains(st, nodes, bbs[id], ty);
        var tys, names, ok := TypesNeed(RegionOutTys(nodes)), NamesIn(nodes), EdgesIn(nodes, ty);
        var promise := RowOf(s1.env, RegionOuts(nodes));
        RegionGains(s1, nodes, Regs(st.regs, |bbs[id].row|), promise, |RegionIns(nodes)|, |RegionOuts(nodes)|, ty);
        var s2 := EmitRegion(s1, nodes, Regs(st.regs, |bbs[id].row|), promise);
        GainsTrans(st, s1, s2, OnlyNeeds(tys), names, {}, names.needs, ok, ok, ty);
        OutputNeeds(nodes);
        GainsLess(st, s2, Join(OnlyNeeds(tys), names), names, {} + names.needs, names.needs, ok && ok, ok, ty);
        var p := ReadRow(promise, s2.regs);
        PutNames(s2, p);
        var ts := Targets(succs, bbs);
        var d := Destructure(PutPiece(s2, p), rows, p.vals[0], p.vals[1..], ts);
        DestructureNames(PutPiece(s2, p), rows, p.vals[0], p.vals[1..], ts);
        SameTrans(s2, PutPiece(s2, p), d);
        MovedNames(s2, d, st.cur);
        ThenSame(st, s2, At(d, st.cur), names, names.needs, ok, ty);
        ThenAsk(st, At(d, st.cur), names, names.needs, {NeedType(Sum(rows))}, ok, ty);
      case Exit(id) =>
        ExitNames(st, bbs[id], outs);
        SameGains(st, t, ty);
      case ChildFunc(f) => DefGains(st, f, ty);
      case ChildStatic =>
        AtNames(st, st.cur);
        SameGains(st, st, ty);
    }
  }

  lemma ExitNames(st: ES, t: Target, outs: seq<nat>)
    ensures var p := ReadRow(t.row, st.regs); SameNames(st, At(WriteRow(PutPiece(At(st, t.blk), p), outs, p.vals),
                                                            st.cur))
  {
  }

  lemma BlockStartGains(st: ES, nodes: seq<Node>, t: Target, ty: Wire -> Ty)
    ensures Gains(st, BlockStart(st, nodes, t), OnlyNeeds(TypesNeed(RegionOutTys(nodes))), {}, EdgesIn(nodes, ty), ty)
  {
    hide MapWires, RegionOuts, RegionOutTys, Gains, TypesNeed, EdgesIn, Ends, PutPiece, SameNames;
    var s0, ws, tys := At(st, t.blk), RegionOuts(nodes), RegionOutTys(nodes);
    AtNames(st, t.blk);
    SameGains(st, s0, ty);
    MapWiresGain(s0, ws, tys, ty);
    var s1, ok := MapWires(s0, ws, tys), Ends(ws, tys, ty);
    GainsTrans(st, s0, s1, NoNames, OnlyNeeds(TypesNeed(tys)), {}, TypesNeed(tys), true, ok, ty);
    PutNames(s1, ReadRow(t.row, s1.regs));
    var s := BlockStart(st, nodes, t);
    ThenSame(st, s1, s, Join(NoNames, OnlyNeeds(TypesNeed(tys))), {} + TypesNeed(tys), ok, ty);
    if EdgesIn(nodes, ty) { OutputEnds(nodes, ty); }
    GainsLess(st, s, Join(NoNames, OnlyNeeds(TypesNeed(tys))), OnlyNeeds(TypesNeed(tys)), {} + TypesNeed(tys), {}, ok,
              EdgesIn(nodes, ty), ty);
  }

  // ----- functions -----

  lemma FuncGains(f: FuncDefn, ty: Wire -> Ty)
    requires ValidFunc(f)
    ensures Gains(Initial, EmitFunc(f), Join(OnlyNeeds(TypesNeed(f.outs)), NamesIn(f.nodes)), FuncNeeds(f),
                  EdgesIn(f.nodes, ty), ty)
  {
    hide EmitRegion, NamesIn, ValidRegion, NewRow, Gains, EdgesIn, TypesNeed, LoadLine;
    var s0, row := FuncStart(f), FreshRow(0, |f.outs|);
    NewRowGains(Initial, f.outs, ty);
    RegionGains(s0, f.nodes, Params(|f.ins|), row, |f.ins|, |f.outs|, ty);
    var a, b, ok := OnlyNeeds(TypesNeed(f.outs)), NamesIn(f.nodes), EdgesIn(f.nodes, ty);
    GainsTrans(Initial, s0, FuncBody(f), a, b, a.needs, b.needs, true, ok, ty);
    LeaveNames(f);
    ThenSame(Initial, FuncBody(f), EmitFunc(f), Join(a, b), a.needs + b.needs, ok, ty);
  }

  lemma LeaveNames(f: FuncDefn)
    ensures SameNames(FuncBody(f), EmitFunc(f))
  {
    hide FuncBody;
  }

  /** Emitting a function leaves exactly the functions defined in its body still to do, and declares exactly those it
      calls or loads. */
  lemma FunctionNames(f: FuncDefn)
    requires ValidFunc(f)
    ensures EmitFunc(f).todo == NamesIn(f.nodes).scoped && EmitFunc(f).refs == NamesIn(f.nodes).called
  {
    hide EmitFunc, NamesIn, ValidFunc;
    FuncGains(f, w => Var(0));
  }

  /** It asks for the LLVM types and handlers of what the HUGR holds, and for nothing else. */
  lemma FunctionNeeds(f: FuncDefn)
    requires ValidFunc(f)
    ensures EmitFunc(f).needs <= FuncNeeds(f)
    ensures TypedEdges(f) ==> EmitFunc(f).needs == FuncNeeds(f)
  {
    hide EmitFunc, NamesIn, ValidFunc, EdgesIn, TypesNeed;
    FuncGains(f, w => Var(0));
    if TypedEdges(f) {
      var ty: Wire -> Ty :| EdgesIn(f.nodes, ty);
      FuncGains(f, ty);
      assert Kept(Initial, ty);
    }
  }
}
