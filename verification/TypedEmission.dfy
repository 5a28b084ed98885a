/** Emission keeps the code of a function well typed: mailboxes that are copied into each other have the same type, so
    every load and store, and all code between them, fits. */
module TypedEmission {
  import opened Values
  import opened Machine
  import opened Hugr
  import opened Arrays
  import opened Types
  import opened Typing
  import opened Builder
  import opened Emit
  import opened EmitLaws
  import opened Scopes
  import opened CodeTyping

  /** The code so far is well typed with registers `ts`, and every wire's mailbox has the wire's type. */
  ghost predicate TypedState(s: Setting, st: ES, ts: seq<RTy>) {
    true == (
    && |ts| == st.regs && st.cur < |st.code|
    && (forall w :: w in st.env ==> st.env[w] < |st.slots| && st.slots[st.env[w]] == s.ty(w))
    && forall b :: 0 <= b < |st.code| ==> LineOk(s, st.slots, ts, st.code[b]))
  }

  /** `b` is a later state than `a`, and well typed. */
  ghost predicate Extends(s: Setting, a: ES, ts: seq<RTy>, b: ES, ts': seq<RTy>) {
    true == (
    && TypedState(s, b, ts') && ts <= ts' && a.slots <= b.slots && |a.code| <= |b.code|
    && forall w :: w in a.env ==> w in b.env && b.env[w] == a.env[w])
  }

  lemma ExtendsTrans(s: Setting, a: ES, ts: seq<RTy>, b: ES, ts': seq<RTy>, c: ES, ts'': seq<RTy>)
    requires Extends(s, a, ts, b, ts') && Extends(s, b, ts', c, ts'')
    ensures Extends(s, a, ts, c, ts'')
  {
    hide TypedState;
  }

  /** The parts of the claim that a step needs. */
  lemma ExtendsFacts(s: Setting, a: ES, ts: seq<RTy>, b: ES, ts': seq<RTy>)
    requires Extends(s, a, ts, b, ts')
    ensures TypedState(s, b, ts') && ts <= ts' && a.slots <= b.slots && |a.code| <= |b.code| && |ts'| == b.regs
  {
  }

  // ----- edits -----

  /** Edits that leave the code and the mailboxes alone. */
  lemma SameTyped(s: Setting, a: ES, ts: seq<RTy>, b: ES)
    requires TypedState(s, a, ts) && b.code == a.code && b.slots == a.slots && b.env == a.env && b.regs == a.regs
    requires b.cur < |b.code|
    ensures Extends(s, a, ts, b, ts)
  {
    hide LineOk;
  }

  /** The builder moves. */
  lemma MoveTyped(s: Setting, a: ES, ts: seq<RTy>, b: ES, ts': seq<RTy>, cur: nat)
    requires Extends(s, a, ts, b, ts') && cur < |b.code|
    ensures Extends(s, a, ts, At(b, cur), ts')
  {
    hide LineOk;
  }

  lemma FailTyped(s: Setting, a: ES, ts: seq<RTy>, b: ES, ts': seq<RTy>)
    requires Extends(s, a, ts, b, ts')
    ensures Extends(s, a, ts, Fail(b), ts')
  {
    hide LineOk;
  }

  lemma AskTyped(s: Setting, a: ES, ts: seq<RTy>, b: ES, ts': seq<RTy>, needs: set<Need>)
    requires Extends(s, a, ts, b, ts')
    ensures Extends(s, a, ts, Ask(b, needs), ts')
  {
    hide LineOk;
  }

  lemma PutTyped(s: Setting, st: ES, ts: seq<RTy>, line: seq<Instr>, next: nat, ts': seq<RTy>)
    requires TypedState(s, st, ts) && ts <= ts' && |ts'| == next && LineOk(s, st.slots, ts', line)
    ensures Extends(s, st, ts, Put(st, line, next), ts')
  {
    hide LineOk;
    var t := Put(st, line, next);
    forall b | 0 <= b < |t.code| ensures LineOk(s, t.slots, ts', t.code[b]) {
      LineMore(s, st.slots, ts, st.slots, ts', st.code[b]);
      if b == st.cur { LineConcat(s, st.slots, ts', st.code[b], line); }
    }
  }

  lemma EndTyped(s: Setting, a: ES, ts: seq<RTy>, b: ES, ts': seq<RTy>, i: Instr)
    requires Extends(s, a, ts, b, ts') && InstrOk(s, b.slots, ts', i)
    ensures Extends(s, a, ts, Terminate(b, i), ts')
  {
    hide LineOk, TypedState, Put, InstrOk;
    ExtendsFacts(s, a, ts, b, ts');
    OneOk(s, b.slots, ts', i);
    PutTyped(s, b, ts', [i], b.regs, ts');
    ExtendsTrans(s, a, ts, b, ts', Terminate(b, i), ts');
  }

  lemma BlockTyped(s: Setting, st: ES, ts: seq<RTy>, wh: Where)
    requires TypedState(s, st, ts)
    ensures Extends(s, st, ts, NewBlock(st, wh), ts)
  {
    hide LineOk, Place;
    NoneOk(s, st.slots, ts);
  }

  lemma AllocTyped(s: Setting, st: ES, ts: seq<RTy>, ty: Ty)
    requires TypedState(s, st, ts)
    ensures Extends(s, st, ts, Alloc(st, ty), ts) && Alloc(st, ty).slots == st.slots + [ty]
    ensures Alloc(st, ty).cur == st.cur && Alloc(st, ty).env == st.env && |Alloc(st, ty).code| == |st.code|
  {
    hide LineOk;
    var t := Alloc(st, ty);
    forall b | 0 <= b < |t.code| ensures LineOk(s, t.slots, ts, t.code[b]) {
      LineMore(s, st.slots, ts, t.slots, ts, st.code[b]);
      if b == 0 {
        OneOk(s, t.slots, ts, Alloca(|st.slots|, ty));
        LineConcat(s, t.slots, ts, st.code[0], [Alloca(|st.slots|, ty)]);
      }
    }
  }

  /** A fresh row of mailboxes has the types it is made for, in order. */
  lemma {:induction false} NewRowTyped(s: Setting, st: ES, ts: seq<RTy>, tys: seq<Ty>)
    requires TypedState(s, st, ts)
    ensures var t := NewRow(st, tys);
      && Extends(s, st, ts, t, ts) && t.slots == st.slots + tys && RowHas(t.slots, FreshRow(|st.slots|, |tys|), tys)
      && t.cur == st.cur && t.env == st.env && |t.code| == |st.code|
    decreases tys
  {
    hide TypedState;
    if tys == [] {
      CurIn(s, st, ts);
      SameTyped(s, st, ts, st);
    } else {
      var a := Alloc(st, tys[0]);
      AllocTyped(s, st, ts, tys[0]);
      ExtendsFacts(s, st, ts, a, ts);
      NewRowTyped(s, a, ts, tys[1..]);
      ExtendsTrans(s, st, ts, a, ts, NewRow(st, tys), ts);
    }
  }

  lemma CurIn(s: Setting, st: ES, ts: seq<RTy>)
    requires TypedState(s, st, ts)
    ensures st.cur < |st.code| && |ts| == st.regs
  {
  }

  lemma MapWireTyped(s: Setting, st: ES, ts: seq<RTy>, w: Wire)
    requires TypedState(s, st, ts)
    ensures var t := MapWire(st, w, s.ty(w));
      Extends(s, st, ts, t, ts) && w in t.env && t.cur == st.cur && |t.code| == |st.code|
  {
    hide LineOk;
    if w in st.env {
      SameTyped(s, st, ts, st);
    } else {
      var a := Alloc(st, s.ty(w));
      AllocTyped(s, st, ts, s.ty(w));
      assert TypedState(s, a, ts) by { ExtendsFacts(s, st, ts, a, ts); }
    }
  }

  lemma {:induction false} MapWiresTyped(s: Setting, st: ES, ts: seq<RTy>, ws: seq<Wire>, tys: seq<Ty>)
    requires TypedState(s, st, ts) && Scopes.Ends(ws, tys, s.ty)
    ensures var t := MapWires(st, ws, tys);
      && Extends(s, st, ts, t, ts) && RowHas(t.slots, RowOf(t.env, ws), tys) && (forall w :: w in ws ==> w in t.env)
      && t.cur == st.cur && |t.code| == |st.code|
    decreases ws
  {
    hide TypedState;
    if ws == [] {
      CurIn(s, st, ts);
      SameTyped(s, st, ts, st);
    } else {
      assert tys[0] == s.ty(ws[0]);
      var a := MapWire(st, ws[0], tys[0]);
      MapWireTyped(s, st, ts, ws[0]);
      ExtendsFacts(s, st, ts, a, ts);
      MapWiresTyped(s, a, ts, ws[1..], tys[1..]);
      var t := MapWires(st, ws, tys);
      ExtendsTrans(s, st, ts, a, ts, t, ts);
      forall i | 0 <= i < |ws| ensures ws[i] in t.env { if i > 0 { assert ws[i] in ws[1..]; } }
      ExtendsFacts(s, st, ts, t, ts);
      RowTypes(s, t, ts, ws, tys);
    }
  }

  lemma RowTypes(s: Setting, st: ES, ts: seq<RTy>, ws: seq<Wire>, tys: seq<Ty>)
    requires TypedState(s, st, ts)
    requires Scopes.Ends(ws, tys, s.ty) && forall i :: 0 <= i < |ws| ==> ws[i] in st.env
    ensures RowHas(st.slots, RowOf(st.env, ws), tys)
  {
  }

  lemma PieceGoes(s: Setting, a: ES, ts: seq<RTy>, b: ES, mid: seq<RTy>, p: Piece, tys: seq<Ty>, ts': seq<RTy>)
    requires Extends(s, a, ts, b, mid) && PieceTyped(s, b.slots, mid, p, tys, ts')
    ensures Extends(s, a, ts, PutPiece(b, p), ts') && AllHave(s, ts', p.vals, tys)
  {
    hide LineOk, TypedState, Put, AllHave;
    ExtendsFacts(s, a, ts, b, mid);
    PutTyped(s, b, mid, p.line, p.next, ts');
    ExtendsTrans(s, a, ts, b, mid, PutPiece(b, p), ts');
  }

  /** Reads a row of mailboxes. */
  lemma ReadGoes(s: Setting, a: ES, ts: seq<RTy>, b: ES, mid: seq<RTy>, row: seq<nat>, tys: seq<Ty>)
    returns (ts': seq<RTy>)
    requires Extends(s, a, ts, b, mid) && RowHas(b.slots, row, tys)
    ensures Extends(s, a, ts, PutPiece(b, ReadRow(row, b.regs)), ts') && AllHave(s, ts', Regs(b.regs, |row|), tys)
  {
    hide LoadLine, TypedState, Put, AllHave, RowHas, PieceTyped;
    ExtendsFacts(s, a, ts, b, mid);
    ts' := ReadTyped(s, b.slots, mid, row, tys);
    PieceGoes(s, a, ts, b, mid, ReadRow(row, b.regs), tys, ts');
  }

  /** Writes a row of mailboxes: values and mailboxes agree in their types. */
  lemma WriteGoes(s: Setting, a: ES, ts: seq<RTy>, b: ES, ts': seq<RTy>, row: seq<nat>, vals: seq<Operand>,
                  tys: seq<Ty>)
    requires Extends(s, a, ts, b, ts') && RowHas(b.slots, row, tys) && AllHave(s, ts', vals, tys)
    ensures Extends(s, a, ts, WriteRow(b, row, vals), ts')
  {
    hide LineOk, TypedState, Put, AllHave, RowHas;
    ExtendsFacts(s, a, ts, b, ts');
    FailTyped(s, a, ts, b, ts');
    StoresOk(s, b.slots, ts', row, vals, tys);
    PutTyped(s, b, ts', StoreLine(row, vals), b.regs, ts');
    ExtendsTrans(s, a, ts, b, ts', Put(b, StoreLine(row, vals), b.regs), ts');
  }

  lemma FinishGoes(s: Setting, a: ES, ts: seq<RTy>, b: ES, mid: seq<RTy>, p: Piece, tys: seq<Ty>, outs: seq<nat>,
                   ts': seq<RTy>)
    requires Extends(s, a, ts, b, mid) && PieceTyped(s, b.slots, mid, p, tys, ts') && RowHas(b.slots, outs, tys)
    ensures Extends(s, a, ts, Finish(b, Some(p), outs), ts')
  {
    hide LineOk, TypedState, WriteRow, AllHave, RowHas;
    PieceGoes(s, a, ts, b, mid, p, tys, ts');
    PutSlots(b, p);
    WriteGoes(s, a, ts, PutPiece(b, p), ts', outs, p.vals, tys);
  }

  lemma PutSlots(st: ES, p: Piece)
    ensures PutPiece(st, p).slots == st.slots && PutPiece(st, p).env == st.env && PutPiece(st, p).cur == st.cur
    ensures |PutPiece(st, p).code| == |st.code|
  {
  }

  lemma AskedGoes(s: Setting, st: ES, ts: seq<RTy>, needs: set<Need>, p: Piece, tys: seq<Ty>, outs: seq<nat>,
                  ts': seq<RTy>)
    requires TypedState(s, st, ts) && PieceTyped(s, st.slots, ts, p, tys, ts') && RowHas(st.slots, outs, tys)
    ensures Extends(s, st, ts, Finish(Ask(st, needs), Some(p), outs), ts')
  {
    hide LineOk, Extends, Finish, AllHave, RowHas, PieceTyped;
    CurIn(s, st, ts);
    hide TypedState;
    SameTyped(s, st, ts, Ask(st, needs));
    FinishGoes(s, st, ts, Ask(st, needs), ts, p, tys, outs, ts');
  }

  lemma Start(s: Setting, st: ES, ts: seq<RTy>)
    requires TypedState(s, st, ts)
    ensures Extends(s, st, ts, st, ts) && |ts| == st.regs && Extends(s, st, ts, Fail(st), ts)
  {
    hide LineOk;
  }

  // ----- nodes -----

  /** The inputs of a node are read at the types of its input ports, and its output mailboxes have those of its output
      ports. */
  lemma PreludeTyped(s: Setting, st: ES, ts: seq<RTy>, n: Node) returns (ts': seq<RTy>)
    requires TypedState(s, st, ts) && Scopes.Ends(n.ins, n.inTys, s.ty)
    requires Scopes.Ends(OutWires(n.id, |n.outs|), n.outs, s.ty)
    ensures Extends(s, st, ts, Prelude(st, n), ts') && AllHave(s, ts', Regs(st.regs, |n.ins|), n.inTys)
    ensures RowHas(Prelude(st, n).slots, NodeOuts(st, n), n.outs)
  {
    hide TypedState, Put, LoadLine, MapWires, AllHave, RowHas, Extends;
    var a := MapWires(st, n.ins, n.inTys);
    MapWiresTyped(s, st, ts, n.ins, n.inTys);
    MapWiresRegs(st, n.ins, n.inTys);
    ts' := ReadGoes(s, st, ts, a, ts, RowOf(a.env, n.ins), n.inTys);
    var b := PutPiece(a, ReadRow(RowOf(a.env, n.ins), a.regs));
    ExtendsFacts(s, st, ts, b, ts');
    MapWiresTyped(s, b, ts', OutWires(n.id, |n.outs|), n.outs);
    ExtendsTrans(s, st, ts, b, ts', Prelude(st, n), ts');
  }

  lemma {:induction false} MapWiresRegs(st: ES, ws: seq<Wire>, tys: seq<Ty>)
    ensures MapWires(st, ws, tys).regs == st.regs
    decreases ws
  {
    if ws != [] && tys != [] { MapWiresRegs(MapWire(st, ws[0], tys[0]), ws[1..], tys[1..]); }
  }

  lemma {:induction false} NodesTyped(s: Setting, st: ES, ts: seq<RTy>, nodes: seq<Node>, inputs: seq<Operand>,
                                      promise: seq<nat>, g: Scope, ins: seq<Ty>, outs: seq<Ty>, nIn: nat, ws: seq<Wire>)
    returns (ts': seq<RTy>)
    requires ValidNodes(nodes, nIn, ws) && TypedNodes(s.w, nodes, g, ins, outs) && EdgesIn(nodes, s.ty)
    requires TypedState(s, st, ts) && AllHave(s, ts, inputs, ins) && RowHas(st.slots, promise, outs)
    ensures Extends(s, st, ts, EmitNodes(st, nodes, inputs, promise), ts')
    decreases nodes, 0
  {
    hide TypedState, EmitNode, AllHave, RowHas, Extends, EdgesOf, TypedNode, ValidNode, AddOuts;
    if nodes == [] {
      ts' := ts;
      Start(s, st, ts);
    } else {
      var a := EmitNode(st, nodes[0], inputs, promise);
      var mid := NodeTyped(s, st, ts, nodes[0], inputs, promise, g, ins, outs, nIn, ws);
      ExtendsFacts(s, st, ts, a, mid);
      HaveMore(s, ts, mid, inputs, ins);
      RowMore(st.slots, a.slots, promise, outs);
      ts' := NodesTyped(s, a, mid, nodes[1..], inputs, promise, AddOuts(g, nodes[0]), ins, outs, nIn, ws);
      ExtendsTrans(s, st, ts, a, mid, EmitNodes(st, nodes, inputs, promise), ts');
    }
  }

  lemma {:induction false} NodeTyped(s: Setting, st: ES, ts: seq<RTy>, n: Node, inputs: seq<Operand>,
                                     promise: seq<nat>, g: Scope, ins: seq<Ty>, outs: seq<Ty>, nIn: nat, ws: seq<Wire>)
    returns (ts': seq<RTy>)
    requires ValidNode(n, nIn, ws) && TypedNode(s.w, n, g, ins, outs) && EdgesOf(n, s.ty)
    requires TypedState(s, st, ts) && AllHave(s, ts, inputs, ins) && RowHas(st.slots, promise, outs)
    ensures Extends(s, st, ts, EmitNode(st, n, inputs, promise), ts')
    decreases n, 2
  {
    hide TypedState, Prelude, NodeOuts, AllHave, RowHas, Extends, EmitOp, WriteRow, InScope, Scopes.Ends;
    var a, row, vals := Prelude(st, n), NodeOuts(st, n), Regs(st.regs, |n.ins|);
    var mid := PreludeTyped(s, st, ts, n);
    ExtendsFacts(s, st, ts, a, mid);
    match n.op {
      case Input =>
        ts' := mid;
        HaveMore(s, ts, mid, inputs, ins);
        WriteGoes(s, st, ts, a, mid, row, inputs, ins);
      case Output =>
        ts' := mid;
        RowMore(st.slots, a.slots, promise, outs);
        WriteGoes(s, st, ts, a, mid, promise, vals, outs);
      case _ =>
        ts' := OpTyped(s, a, mid, n, vals, row, g, nIn, ws);
        assert EmitNode(st, n, inputs, promise) == EmitAt(a, n, vals, row, inputs, promise) == EmitOp(a, n, vals, row);
        ExtendsTrans(s, st, ts, a, mid, EmitNode(st, n, inputs, promise), ts');
    }
  }

  lemma {:induction false} OpTyped(s: Setting, st: ES, ts: seq<RTy>, n: Node, vals: seq<Operand>, outs: seq<nat>,
                                   g: Scope, nIn: nat, ws: seq<Wire>) returns (ts': seq<RTy>)
    requires ValidNode(n, nIn, ws) && TypedOp(s.w, n, g) && EdgesOf(n, s.ty)
    requires TypedState(s, st, ts) && AllHave(s, ts, vals, n.inTys) && RowHas(st.slots, outs, n.outs)
    ensures Extends(s, st, ts, EmitOp(st, n, vals, outs), ts')
    decreases n, 1
  {
    hide TypedState, RowHas, Extends, Finish, TagPiece, ConstPiece, CallPiece, EmitRegion, EmitArray, EmitCond, EmitCfg,
      ValidRegion, ValidCases, ValidCfg, ValidConst, TypedRegion, TypedCases, TypedCfg, TypedExt, HasTy, PieceTyped,
      ConstHas, EdgesIn, EdgesInCases, EdgesInChildren, Scopes.Ends, AllHave;
    Start(s, st, ts);
    ts' := ts;
    RowLen(s, st, ts, vals, n.inTys, outs, n.outs);
    match n.op {
      case Tag(tag, rows) =>
        ts' := TagTyped(s, st.slots, ts, rows, tag, vals);
        AskedGoes(s, st, ts, {NeedType(Sum(rows))}, TagPiece(rows, tag, vals, st.regs).value, n.outs, outs, ts');
      case Ext(op) =>
        ts' := ExtTyped(s, st.slots, ts, op, vals, n.inTys, n.outs);
        var p := Piece([ExtOp(st.regs, |outs|, op, vals)], st.regs + |outs|, Regs(st.regs, |outs|));
        AskedGoes(s, st, ts, {NeedOp(op)}, p, n.outs, outs, ts');
      case Array(op, elem, size) => ts' := ArrayTyped(s, st, ts, op, elem, size, vals, outs);
      case LoadConst(v) =>
        if ConstPiece(v, st.regs).Some? {
          ts' := ConstTyped(s, st.slots, ts, v, n.outs[0]);
          assert [n.outs[0]] == n.outs;
          AskedGoes(s, st, ts, ConstNeeds(v), ConstPiece(v, st.regs).value, n.outs, outs, ts');
        }
      case LoadFunc(f) =>
        FuncConst(s, st, ts, f, n.outs);
        RefGoes(s, st, ts, f, Piece([], st.regs, [Const(LFn(f))]), n.outs, outs, ts);
      case CallFn(f) =>
        CalleeHas(s, ts, f);
        ts' := CallTyped(s, st.slots, ts, Const(LFn(f)), vals, SigIns(s.w, f), n.outs);
        RefGoes(s, st, ts, f, CallPiece(Const(LFn(f)), vals, |outs|, st.regs), n.outs, outs, ts');
      case CallIndirect =>
        HeadHas(s, ts, vals, n.inTys);
        ts' := CallTyped(s, st.slots, ts, vals[0], vals[1..], n.inTys[1..], n.outs);
        FinishGoes(s, st, ts, st, ts, CallPiece(vals[0], vals[1..], |outs|, st.regs), n.outs, outs, ts');
      case Dfg(nodes) => ts' := RegionTyped(s, st, ts, nodes, vals, outs, g, n.inTys, n.outs);
      case Cond(rows, cases) =>
        HeadHas(s, ts, vals, n.inTys);
        var t := EmitCond(st, rows, cases, vals[0], vals[1..], n.outs, outs);
        ts' := CondTyped(s, st, ts, rows, cases, vals[0], vals[1..], n.inTys[1..], n.outs, outs, g);
        AskTyped(s, st, ts, t, ts', {NeedType(Sum(rows))});
      case Cfg(children) => ts' := CfgTyped(s, st, ts, children, vals, outs, n.inTys, n.outs, g);
      case Static =>
      case FuncDef(f) => CurIn(s, st, ts); SameTyped(s, st, ts, st.(todo := st.todo + {f}));
    }
  }

  lemma RowLen(s: Setting, st: ES, ts: seq<RTy>, vals: seq<Operand>, tys: seq<Ty>, outs: seq<nat>, outTys: seq<Ty>)
    requires AllHave(s, ts, vals, tys) && RowHas(st.slots, outs, outTys)
    ensures |vals| == |tys| && |outs| == |outTys|
  {
  }

  lemma HeadHas(s: Setting, ts: seq<RTy>, vals: seq<Operand>, tys: seq<Ty>)
    requires AllHave(s, ts, vals, tys) && |tys| > 0
    ensures |vals| == |tys| && Has(s, ts, vals[0], ValueOf(tys[0])) && AllHave(s, ts, vals[1..], tys[1..])
  {
    hide ConstHas;
  }

  lemma CalleeHas(s: Setting, ts: seq<RTy>, f: NodeId)
    requires HasSig(s.w, f)
    ensures Has(s, ts, Const(LFn(f)), ValueOf(Func(SigIns(s.w, f), SigOuts(s.w, f))))
  {
  }

  lemma FuncConst(s: Setting, st: ES, ts: seq<RTy>, f: NodeId, tys: seq<Ty>)
    requires |tys| == 1 && HasTy(s.w, FunV(f), tys[0]) && |ts| == st.regs
    ensures PieceTyped(s, st.slots, ts, Piece([], st.regs, [Const(LFn(f))]), tys, ts)
  {
  }

  lemma RefGoes(s: Setting, st: ES, ts: seq<RTy>, f: NodeId, p: Piece, tys: seq<Ty>, outs: seq<nat>, ts': seq<RTy>)
    requires TypedState(s, st, ts) && PieceTyped(s, st.slots, ts, p, tys, ts') && RowHas(st.slots, outs, tys)
    ensures Extends(s, st, ts, Finish(st.(refs := st.refs + {f}), Some(p), outs), ts')
  {
    hide Extends, Finish, RowHas, PieceTyped;
    CurIn(s, st, ts);
    hide TypedState;
    var a := st.(refs := st.refs + {f});
    SameTyped(s, st, ts, a);
    FinishGoes(s, st, ts, a, ts, p, tys, outs, ts');
  }

  lemma {:induction false} RegionTyped(s: Setting, st: ES, ts: seq<RTy>, nodes: seq<Node>, inputs: seq<Operand>,
                                       promise: seq<nat>, g: Scope, ins: seq<Ty>, outs: seq<Ty>)
    returns (ts': seq<RTy>)
    requires ValidRegion(nodes, |ins|, |outs|) && TypedRegion(s.w, nodes, g, ins, outs) && EdgesIn(nodes, s.ty)
    requires TypedState(s, st, ts) && AllHave(s, ts, inputs, ins) && RowHas(st.slots, promise, outs)
    ensures Extends(s, st, ts, EmitRegion(st, nodes, inputs, promise), ts')
    decreases nodes, 1
  {
    hide TypedState, RowHas, AllHave, Extends, EmitNodes, TypedNodes, ValidNodes, EdgesIn;
    ts' := NodesTyped(s, st, ts, nodes, inputs, promise, g, ins, outs, |ins|, RegionOuts(nodes));
    FailTyped(s, st, ts, EmitNodes(st, nodes, inputs, promise), ts');
  }

  // ----- arrays -----

  lemma ArrayTyped(s: Setting, st: ES, ts: seq<RTy>, op: ArrayOp, elem: Ty, size: nat, vals: seq<Operand>,
                   outs: seq<nat>) returns (ts': seq<RTy>)
    requires TypedState(s, st, ts) && AllHave(s, ts, vals, ArrayIns(op, elem, size))
    requires RowHas(st.slots, outs, ArrayOuts(op, elem, size))
    ensures Extends(s, st, ts, EmitArray(st, op, elem, size, vals, outs), ts')
  {
    hide TypedState, RowHas, Extends, Finish, NewArrayPiece, PoppedPiece, EmitAccess, ConstHas, PieceTyped;
    var needs, rows := ArrayNeeds(op, elem, size), ArrayRows(op, elem, size);
    Start(s, st, ts);
    AskTyped(s, st, ts, st, ts, needs);
    FailTyped(s, st, ts, Ask(st, needs), ts);
    ts' := ts;
    match op {
      case NewArray =>
        ts' := NewArrayTyped(s, st.slots, ts, elem, vals);
        AskedGoes(s, st, ts, needs, NewArrayPiece(size, vals, st.regs), [Arr(size, elem)], outs, ts');
      case PopOp(left) =>
        assert Has(s, ts, vals[0], ValueOf(Arr(size, elem)));
        ts' := PoppedTyped(s, st.slots, ts, left, elem, size, vals[0]);
        AskedGoes(s, st, ts, needs, PoppedPiece(rows, left, size, vals[0], st.regs).value, [Sum(rows)], outs, ts');
      case DiscardEmpty =>
      case _ =>
        ExtendsFacts(s, st, ts, Ask(st, needs), ts);
        ts' := BranchTyped(s, Ask(st, needs), ts, op, elem, size, vals, outs);
        ExtendsTrans(s, st, ts, Ask(st, needs), ts, EmitArray(st, op, elem, size, vals, outs), ts');
    }
  }

  /** A block of its own that leaves one result in the exit mailbox. */
  lemma SideTyped(s: Setting, st: ES, ts: seq<RTy>, b: nat, p: Piece, tys: seq<Ty>, exitRow: seq<nat>, exit: nat,
                  ts': seq<RTy>)
    requires TypedState(s, st, ts) && PieceTyped(s, st.slots, ts, p, tys, ts') && RowHas(st.slots, exitRow, tys)
    ensures Extends(s, st, ts, EmitSide(st, b, Some(p), exitRow, exit), ts')
  {
    hide TypedState, RowHas, Extends, Finish, PieceTyped, Terminate, Place;
    var a := NewBlock(st, Before(b));
    BlockTyped(s, st, ts, Before(b));
    MoveTyped(s, st, ts, a, ts, |st.code|);
    FinishGoes(s, st, ts, At(a, |st.code|), ts, p, tys, exitRow, ts');
    var c := Finish(At(a, |st.code|), Some(p), exitRow);
    EndTyped(s, st, ts, c, ts', Br(exit));
    CurIn(s, st, ts);
    ExtendsFacts(s, st, ts, Terminate(c, Br(exit)), ts');
    MoveTyped(s, st, ts, Terminate(c, Br(exit)), ts', st.cur);
  }

  /** The exit mailboxes of a conditional have the types of its outputs, in order. */
  lemma CondExitTyped(s: Setting, st: ES, ts: seq<RTy>, tys: seq<Ty>, outs: seq<nat>) returns (ts': seq<RTy>)
    requires TypedState(s, st, ts) && RowHas(st.slots, outs, tys)
    ensures var t := CondExit(st, tys, outs);
      Extends(s, st, ts, t, ts') && RowHas(t.slots, FreshRow(|st.slots|, |tys|), tys) && |t.code| == |st.code| + 1
  {
    hide TypedState, RowHas, Extends, LoadLine, Put, NewRow, Place, WriteRow, AllHave;
    var a, row := NewRow(st, tys), FreshRow(|st.slots|, |tys|);
    NewRowTyped(s, st, ts, tys);
    ExtendsFacts(s, st, ts, a, ts);
    BlockTyped(s, a, ts, AtEnd);
    var b := NewBlock(a, AtEnd);
    ExtendsTrans(s, st, ts, a, ts, b, ts);
    MoveTyped(s, st, ts, b, ts, |st.code|);
    var c := At(b, |st.code|);
    var p := ReadRow(row, c.regs);
    ts' := ReadGoes(s, st, ts, c, ts, row, tys);
    PutSlots(c, p);
    RowMore(st.slots, c.slots, outs, tys);
    WriteGoes(s, st, ts, PutPiece(c, p), ts', outs, p.vals, tys);
    CurIn(s, st, ts);
    WriteSame(PutPiece(c, p), outs, p.vals);
    MoveTyped(s, st, ts, WriteRow(PutPiece(c, p), outs, p.vals), ts', st.cur);
  }

  lemma WriteSame(st: ES, row: seq<nat>, vals: seq<Operand>)
    ensures var t := WriteRow(st, row, vals); t.slots == st.slots && t.cur == st.cur && |t.code| == |st.code|
  {
  }

  lemma BranchTyped(s: Setting, st: ES, ts: seq<RTy>, op: ArrayOp, elem: Ty, size: nat, vals: seq<Operand>,
                    outs: seq<nat>) returns (ts': seq<RTy>)
    requires IsAccess(op, |vals|) && AllHave(s, ts, vals, ArrayIns(op, elem, size)) && TypedState(s, st, ts)
    requires RowHas(st.slots, outs, ArrayOuts(op, elem, size))
    ensures Extends(s, st, ts, EmitAccess(st, op, ArrayRows(op, elem, size), size, vals, outs), ts')
  {
    hide TypedState, RowHas, Extends, CondExit, EmitSide, AccessPiece, TagPiece, GuardPiece, PieceTyped, AllHave, Put,
      LineOk, Has;
    var rows, exit, exitRow, ins := ArrayRows(op, elem, size), |st.code|, FreshRow(|st.slots|, 1),
      ArrayIns(op, elem, size);
    var a := CondExit(st, [Sum(rows)], outs);
    var ts1 := CondExitTyped(s, st, ts, [Sum(rows)], outs);
    ExtendsFacts(s, st, ts, a, ts1);
    HaveMore(s, ts, ts1, vals, ins);
    var ts2 := AccessTyped(s, a.slots, ts1, op, elem, size, vals);
    var p := AccessPiece(op, rows, size, vals, a.regs);
    SideTyped(s, a, ts1, exit, p.value, [Sum(rows)], exitRow, exit, ts2);
    var b := EmitSide(a, exit, p, exitRow, exit);
    ExtendsTrans(s, st, ts, a, ts1, b, ts2);
    ExtendsFacts(s, a, ts1, b, ts2);
    HaveMore(s, ts1, ts2, vals, ins);
    RowMore(a.slots, b.slots, exitRow, [Sum(rows)]);
    var ts3 := RefusedTyped(s, b.slots, ts2, op, elem, size, vals);
    var q := TagPiece(rows, 0, HandedBack(op, vals), b.regs);
    SideTyped(s, b, ts2, exit + 1, q.value, [Sum(rows)], exitRow, exit, ts3);
    var c := AccessSides(st, op, rows, size, vals, outs);
    ExtendsTrans(s, st, ts, b, ts2, c, ts3);
    ExtendsFacts(s, b, ts2, c, ts3);
    HaveMore(s, ts2, ts3, vals, ins);
    var g := GuardPiece(op, size, vals, c.regs);
    ts' := GuardTyped(s, c.slots, ts3, op, elem, size, vals);
    PutTyped(s, c, ts3, g.line, g.next, ts');
    ExtendsTrans(s, st, ts, c, ts3, PutPiece(c, g), ts');
    PutSlots(c, g);
    var i := CondBr(g.vals[0], |st.code| + 1, |st.code| + 2);
    EndTyped(s, st, ts, PutPiece(c, g), ts', i);
    ExtendsFacts(s, st, ts, Terminate(PutPiece(c, g), i), ts');
    ExtendsFacts(s, st, ts, a, ts1);
    ExtendsFacts(s, st, ts, c, ts3);
    PutSlots(PutPiece(c, g), Piece([i], PutPiece(c, g).regs, []));
    MoveTyped(s, st, ts, Terminate(PutPiece(c, g), i), ts', exit);
  }

  // ----- branching -----

  /** Every target takes the fields of its variant, followed by the other values. */
  predicate TargetsHave(slots: seq<Ty>, rows: seq<Row>, targets: seq<Target>, rest: seq<Ty>) {
    true == (
    |targets| == |rows| && forall i :: 0 <= i < |rows| ==> RowHas(slots, targets[i].row, rows[i].tys + rest))
  }

  lemma {:induction false} ArmsTyped(s: Setting, st: ES, ts: seq<RTy>, rows: seq<Row>, v: Operand, rest: seq<Operand>,
                                     restTys: seq<Ty>, targets: seq<Target>, i: nat, last: nat) returns (ts': seq<RTy>)
    requires TypedState(s, st, ts) && Has(s, ts, v, ValueOf(Sum(rows))) && AllHave(s, ts, rest, restTys)
    requires i <= |rows| && TargetsHave(st.slots, rows, targets, restTys)
    ensures Extends(s, st, ts, Arms(st, rows, v, rest, targets, i, last).0, ts')
    decreases |rows| - i
  {
    hide TypedState, Extends, Arms, RowHas, AllHave, ConstHas;
    if i == |rows| {
      ts' := ts;
      Start(s, st, ts);
      NoArms(st, rows, v, rest, targets, last);
    } else {
      var a, mid := ArmTyped(s, st, ts, rows, v, rest, restTys, targets, i, last);
      ExtendsFacts(s, st, ts, a, mid);
      HaveMore(s, ts, mid, rest, restTys);
      forall k | 0 <= k < |rows| ensures RowHas(a.slots, targets[k].row, rows[k].tys + restTys) {
        RowMore(st.slots, a.slots, targets[k].row, rows[k].tys + restTys);
      }
      ts' := ArmsTyped(s, a, mid, rows, v, rest, restTys, targets, i + 1, |st.code|);
      ExtendsTrans(s, st, ts, a, mid, Arms(st, rows, v, rest, targets, i, last).0, ts');
    }
  }

  lemma NoArms(st: ES, rows: seq<Row>, v: Operand, rest: seq<Operand>, targets: seq<Target>, last: nat)
    ensures Arms(st, rows, v, rest, targets, |rows|, last).0 == st
  {
  }

  lemma ArmTyped(s: Setting, st: ES, ts: seq<RTy>, rows: seq<Row>, v: Operand, rest: seq<Operand>, restTys: seq<Ty>,
                 targets: seq<Target>, i: nat, last: nat) returns (a: ES, ts': seq<RTy>)
    requires TypedState(s, st, ts) && Has(s, ts, v, ValueOf(Sum(rows))) && AllHave(s, ts, rest, restTys)
    requires i < |rows| && TargetsHave(st.slots, rows, targets, restTys)
    ensures Extends(s, st, ts, a, ts')
    ensures Arms(st, rows, v, rest, targets, i, last).0 == Arms(a, rows, v, rest, targets, i + 1, |st.code|).0
  {
    hide TypedState, Extends, RowHas, AllHave, Put, UntagPiece, WriteRow, Place, PieceTyped, ConstHas;
    var b := At(NewBlock(st, After(last)), |st.code|);
    BlockTyped(s, st, ts, After(last));
    MoveTyped(s, st, ts, NewBlock(st, After(last)), ts, |st.code|);
    CurIn(s, st, ts);
    ts' := UntagTyped(s, b.slots, ts, rows, i, v);
    var p := UntagPiece(rows, i, v, b.regs);
    PieceGoes(s, st, ts, b, ts, p, rows[i].tys, ts');
    ExtendsFacts(s, st, ts, PutPiece(b, p), ts');
    HaveMore(s, ts, ts', rest, restTys);
    HaveBoth(s, ts', p.vals, rows[i].tys, rest, restTys);
    PutSlots(b, p);
    WriteGoes(s, st, ts, PutPiece(b, p), ts', targets[i].row, p.vals + rest, rows[i].tys + restTys);
    var c := WriteRow(PutPiece(b, p), targets[i].row, p.vals + rest);
    EndTyped(s, st, ts, c, ts', Br(targets[i].blk));
    a := Terminate(c, Br(targets[i].blk));
  }

  lemma DestructureTyped(s: Setting, st: ES, ts: seq<RTy>, rows: seq<Row>, v: Operand, rest: seq<Operand>,
                         restTys: seq<Ty>, targets: seq<Target>) returns (ts': seq<RTy>)
    requires TypedState(s, st, ts) && Has(s, ts, v, ValueOf(Sum(rows))) && AllHave(s, ts, rest, restTys)
    requires TargetsHave(st.slots, rows, targets, restTys)
    ensures Extends(s, st, ts, Destructure(st, rows, v, rest, targets), ts')
  {
    hide TypedState, Extends, TargetsHave, AllHave, Put, Arms, GetTagPiece, LineOk, ConstHas;
    ts' := ts;
    Start(s, st, ts);
    CurIn(s, st, ts);
    if rows != [] {
      var r := Arms(st, rows, v, rest, targets, 0, st.cur);
      var mid := ArmsTyped(s, st, ts, rows, v, rest, restTys, targets, 0, st.cur);
      ExtendsFacts(s, st, ts, r.0, mid);
      var a := At(r.0, st.cur);
      MoveTyped(s, st, ts, r.0, mid, st.cur);
      ExtendsFacts(s, st, ts, a, mid);
      var p := GetTagPiece(rows, v, a.regs);
      ts' := GetTagTyped(s, a.slots, mid, rows, v);
      PutTyped(s, a, mid, p.line, p.next, ts');
      ExtendsTrans(s, st, ts, a, mid, PutPiece(a, p), ts');
      EndTyped(s, st, ts, PutPiece(a, p), ts', Switch(p.vals[0], r.1[0].1, r.1[1..]));
    }
  }

  // ----- conditionals -----

  lemma {:induction false} CondTyped(s: Setting, st: ES, ts: seq<RTy>, rows: seq<Row>, cases: seq<Case>, v: Operand,
                                     rest: seq<Operand>, restTys: seq<Ty>, tys: seq<Ty>, outs: seq<nat>, g: Scope)
    returns (ts': seq<RTy>)
    requires ValidCases(cases, rows, |restTys|, |tys|) && TypedCases(s.w, cases, rows, g, restTys, tys)
    requires EdgesInCases(cases, s.ty) && TypedState(s, st, ts) && RowHas(st.slots, outs, tys)
    requires Has(s, ts, v, ValueOf(Sum(rows))) && AllHave(s, ts, rest, restTys)
    ensures Extends(s, st, ts, EmitCond(st, rows, cases, v, rest, tys, outs), ts')
    decreases cases, 1
  {
    hide TypedState, Extends, TargetsHave, AllHave, CondExit, EmitCases, Destructure, RowHas, ValidCases, TypedCases,
      EdgesInCases, ConstHas;
    var exit, exitRow := |st.code|, FreshRow(|st.slots|, |tys|);
    var a := CondExit(st, tys, outs);
    var ts1 := CondExitTyped(s, st, ts, tys, outs);
    ExtendsFacts(s, st, ts, a, ts1);
    var r := EmitCases(a, cases, exitRow, exit);
    var ts2 := CasesTyped(s, a, ts1, cases, rows, restTys, tys, exitRow, exit, g);
    ExtendsTrans(s, st, ts, a, ts1, r.0, ts2);
    ExtendsFacts(s, st, ts, r.0, ts2);
    HaveMore(s, ts, ts2, rest, restTys);
    ts' := DestructureTyped(s, r.0, ts2, rows, v, rest, restTys, r.1);
    var t := Destructure(r.0, rows, v, rest, r.1);
    ExtendsTrans(s, st, ts, r.0, ts2, t, ts');
    ExtendsFacts(s, a, ts1, r.0, ts2);
    ExtendsFacts(s, r.0, ts2, t, ts');
    MoveTyped(s, st, ts, t, ts', exit);
  }

  lemma {:induction false} CasesTyped(s: Setting, st: ES, ts: seq<RTy>, cases: seq<Case>, rows: seq<Row>,
                                      restTys: seq<Ty>, tys: seq<Ty>, exitRow: seq<nat>, exit: nat, g: Scope)
    returns (ts': seq<RTy>)
    requires ValidCases(cases, rows, |restTys|, |tys|) && TypedCases(s.w, cases, rows, g, restTys, tys)
    requires EdgesInCases(cases, s.ty) && TypedState(s, st, ts) && RowHas(st.slots, exitRow, tys)
    ensures var r := EmitCases(st, cases, exitRow, exit);
      Extends(s, st, ts, r.0, ts') && TargetsHave(r.0.slots, rows, r.1, restTys)
    decreases cases, 0
  {
    hide TypedState, Extends, EmitCase, RowHas, ValidRegion, TypedRegion, EdgesIn;
    if cases == [] {
      ts' := ts;
      Start(s, st, ts);
    } else {
      var c := cases[0];
      var a := EmitCase(st, c, exitRow, exit);
      var row := FreshRow(|st.slots|, |RegionIns(c.nodes)|);
      var mid := CaseTyped(s, st, ts, c, rows[0].tys + restTys, tys, exitRow, exit, g);
      ExtendsFacts(s, st, ts, a, mid);
      RowMore(st.slots, a.slots, exitRow, tys);
      var r := EmitCases(a, cases[1..], exitRow, exit);
      ts' := CasesTyped(s, a, mid, cases[1..], rows[1..], restTys, tys, exitRow, exit, g);
      ExtendsTrans(s, st, ts, a, mid, r.0, ts');
      ExtendsFacts(s, a, mid, r.0, ts');
      RowMore(a.slots, r.0.slots, row, rows[0].tys + restTys);
      var all := EmitCases(st, cases, exitRow, exit).1;
      forall i | 0 <= i < |rows| ensures RowHas(r.0.slots, all[i].row, rows[i].tys + restTys) {
        if i > 0 { assert all[i] == r.1[i - 1] && rows[i] == rows[1..][i - 1]; }
      }
    }
  }

  /** A case reads its own mailboxes at the types of its inputs, and leaves its results in the exit mailboxes. */
  lemma {:induction false} CaseTyped(s: Setting, st: ES, ts: seq<RTy>, c: Case, ins: seq<Ty>, outs: seq<Ty>,
                                     exitRow: seq<nat>, exit: nat, g: Scope) returns (ts': seq<RTy>)
    requires ValidRegion(c.nodes, |ins|, |outs|) && TypedRegion(s.w, c.nodes, g, ins, outs) && EdgesIn(c.nodes, s.ty)
    requires TypedState(s, st, ts) && RowHas(st.slots, exitRow, outs)
    ensures var t := EmitCase(st, c, exitRow, exit);
      Extends(s, st, ts, t, ts') && RowHas(t.slots, FreshRow(|st.slots|, |RegionIns(c.nodes)|), ins)
    decreases c, 0
  {
    hide TypedState, Extends, LoadLine, Put, NewRow, Place, RowHas, AllHave, EmitRegion, ValidRegion, TypedNodes,
      EdgesIn;
    var row := FreshRow(|st.slots|, |ins|);
    var a := NewRow(st, ins);
    NewRowTyped(s, st, ts, ins);
    ExtendsFacts(s, st, ts, a, ts);
    CurIn(s, st, ts);
    BlockTyped(s, a, ts, Before(exit));
    var b := NewBlock(a, Before(exit));
    ExtendsTrans(s, st, ts, a, ts, b, ts);
    MoveTyped(s, st, ts, b, ts, |st.code|);
    var c1 := At(b, |st.code|);
    var ts1 := ReadGoes(s, st, ts, c1, ts, row, ins);
    var d := CaseStart(st, c, exit);
    PutSlots(c1, ReadRow(row, c1.regs));
    ExtendsFacts(s, st, ts, d, ts1);
    RowMore(st.slots, d.slots, exitRow, outs);
    var vals := Regs(st.regs, |ins|);
    ts' := RegionTyped(s, d, ts1, c.nodes, vals, exitRow, g, ins, outs);
    var e := EmitRegion(d, c.nodes, vals, exitRow);
    ExtendsTrans(s, st, ts, d, ts1, e, ts');
    EndTyped(s, st, ts, e, ts', Br(exit));
    ExtendsFacts(s, d, ts1, e, ts');
    RowMore(d.slots, e.slots, row, ins);
    PutSlots(e, Piece([Br(exit)], e.regs, []));
    ExtendsFacts(s, st, ts, Terminate(e, Br(exit)), ts');
    MoveTyped(s, st, ts, Terminate(e, Br(exit)), ts', st.cur);
  }

  // ----- control-flow graphs -----

  /** The types of the values a child is entered with. */
  function ChildTys(c: Child, outTys: seq<Ty>): seq<Ty> {
    match c case Block(_, _, nodes, _) => RegionIns(nodes) case _ => outTys
  }

  /** The mailboxes of every child have the types of the values it is entered with. */
  predicate BlocksHave(st: ES, children: seq<Child>, bbs: map<NodeId, Target>, outTys: seq<Ty>) {
    true == (
    forall id :: id in bbs ==>
      && FindChild(children, id).Some? && bbs[id].blk < |st.code|
      && RowHas(st.slots, bbs[id].row, ChildTys(FindChild(children, id).value, outTys)))
  }

  lemma BlocksMore(a: ES, b: ES, children: seq<Child>, bbs: map<NodeId, Target>, outTys: seq<Ty>)
    requires BlocksHave(a, children, bbs, outTys) && a.slots <= b.slots && |a.code| <= |b.code|
    ensures BlocksHave(b, children, bbs, outTys)
  {
    hide RowHas;
    forall id | id in bbs
      ensures RowHas(b.slots, bbs[id].row, ChildTys(FindChild(children, id).value, outTys))
    {
      RowMore(a.slots, b.slots, bbs[id].row, ChildTys(FindChild(children, id).value, outTys));
    }
  }

  lemma MakeBlockTyped(s: Setting, st: ES, ts: seq<RTy>, c: Child, exit: nat, tys: seq<Ty>)
    requires TypedState(s, st, ts) && exit < |st.code| && (c.Block? ==> EdgesIn(c.nodes, s.ty))
    ensures var t := MakeBlock(st, c, exit, tys);
      && Extends(s, st, ts, t, ts) && t.cur == st.cur
      && (c.Exit? ==> RowHas(t.slots, FreshRow(|st.slots|, |tys|), tys))
      && (c.Block? ==> |st.code| < |t.code| && RowHas(t.slots, RowOf(t.env, InputWires(c.nodes)), RegionIns(c.nodes)))
  {
    hide TypedState, Extends, RowHas, NewRow, MapWires, Place, EdgesIn, InputWires, RegionIns, Scopes.Ends;
    match c {
      case Exit(_) => NewRowTyped(s, st, ts, tys);
      case Block(_, _, nodes, _) =>
        var a := NewBlock(st, Before(exit));
        BlockTyped(s, st, ts, Before(exit));
        ExtendsFacts(s, st, ts, a, ts);
        InputEnds(nodes, s.ty);
        MapWiresTyped(s, a, ts, InputWires(nodes), RegionIns(nodes));
        ExtendsTrans(s, st, ts, a, ts, MapWires(a, InputWires(nodes), RegionIns(nodes)), ts);
      case _ => Start(s, st, ts);
    }
  }

  lemma {:induction false} MakeBlocksTyped(s: Setting, st: ES, ts: seq<RTy>, children: seq<Child>, all: seq<Child>,
                                           exit: nat, tys: seq<Ty>, nOut: nat)
    requires TypedState(s, st, ts) && exit < |st.code| && EdgesInChildren(children, s.ty)
    requires ValidChildren(children, all, nOut)
    ensures var r := MakeBlocks(st, children, exit, tys);
      Extends(s, st, ts, r.0, ts) && r.0.cur == st.cur && BlocksHave(r.0, children, r.1, tys)
    decreases children
  {
    hide TypedState, Extends, RowHas, MakeBlock, MakeBlocks, BlocksHave, FindChild, EdgesIn, ValidChild;
    if children == [] {
      Start(s, st, ts);
      NoBlocks(st, exit, tys);
    } else {
      var c, a := children[0], MakeBlock(st, children[0], exit, tys);
      MakeBlockTyped(s, st, ts, c, exit, tys);
      ExtendsFacts(s, st, ts, a, ts);
      MakeBlocksTyped(s, a, ts, children[1..], all, exit, tys, nOut);
      var r := MakeBlocks(a, children[1..], exit, tys);
      ExtendsTrans(s, st, ts, a, ts, r.0, ts);
      ExtendsFacts(s, a, ts, r.0, ts);
      FirstHas(st, children, exit, tys, a, r.0);
    }
  }

  lemma NoBlocks(st: ES, exit: nat, tys: seq<Ty>)
    ensures MakeBlocks(st, [], exit, tys) == (st, map[]) && BlocksHave(st, [], map[], tys)
  {
  }

  /** The entry of the first child, beside those of the others. */
  lemma FirstHas(st: ES, children: seq<Child>, exit: nat, tys: seq<Ty>, a: ES, fin: ES)
    requires children != [] && a == MakeBlock(st, children[0], exit, tys) && exit < |fin.code|
    requires IsBlock(children[0]) ==> FindChild(children[1..], children[0].id).None?
    requires fin == MakeBlocks(a, children[1..], exit, tys).0 && a.slots <= fin.slots && |a.code| <= |fin.code|
    requires BlocksHave(fin, children[1..], MakeBlocks(a, children[1..], exit, tys).1, tys)
    requires var c := children[0];
      && (c.Exit? ==> RowHas(a.slots, FreshRow(|st.slots|, |tys|), tys))
      && (c.Block? ==> |st.code| < |a.code| && RowHas(a.slots, RowOf(a.env, InputWires(c.nodes)), RegionIns(c.nodes)))
    ensures var r := MakeBlocks(st, children, exit, tys); r.0 == fin && BlocksHave(fin, children, r.1, tys)
  {
    hide RowHas, MakeBlock, MakeBlocks, InputWires, RegionIns;
    var c, bbs := children[0], MakeBlocks(a, children[1..], exit, tys).1;
    if IsBlock(c) {
      MakeBlocksFirst(st, children, exit, tys);
      var row := if c.Exit? then FreshRow(|st.slots|, |tys|) else RowOf(a.env, InputWires(c.nodes));
      RowMore(a.slots, fin.slots, row, ChildTys(c, tys));
      assert FindChild(children, c.id) == Some(c);
      forall id | id in bbs ensures FindChild(children, id) == FindChild(children[1..], id) {
        assert id != c.id;
      }
    } else {
      NoBlockMade(st, children, exit, tys);
      assert forall id :: FindChild(children, id) == FindChild(children[1..], id);
    }
  }

  lemma NoBlockMade(st: ES, children: seq<Child>, exit: nat, tys: seq<Ty>)
    requires children != [] && !IsBlock(children[0])
    ensures MakeBlock(st, children[0], exit, tys) == st
    ensures MakeBlocks(st, children, exit, tys) == MakeBlocks(st, children[1..], exit, tys)
  {
  }

  lemma {:induction false} CfgTyped(s: Setting, st: ES, ts: seq<RTy>, children: seq<Child>, vals: seq<Operand>,
                                    outs: seq<nat>, ins: seq<Ty>, tys: seq<Ty>, g: Scope) returns (ts': seq<RTy>)
    requires ValidCfg(children, |ins|, |tys|) && TypedCfg(s.w, children, g, ins, tys)
    requires EdgesInChildren(children, s.ty) && TypedState(s, st, ts)
    requires AllHave(s, ts, vals, ins) && RowHas(st.slots, outs, tys)
    ensures Extends(s, st, ts, EmitCfg(st, children, vals, outs, tys), ts')
    decreases children, 1
  {
    hide TypedState, Extends, RowHas, AllHave, MakeBlocks, BlocksHave, EdgesInChildren, ValidChildren, TypedChildren,
      Place, EmitChildren, WriteRow, Put;
    var vis: map<NodeId, Scope> :| TypedChildren(s.w, children, children, vis, tys);
    var exit := |st.code|;
    var a := NewBlock(st, AtEnd);
    BlockTyped(s, st, ts, AtEnd);
    CurIn(s, st, ts);
    ExtendsFacts(s, st, ts, a, ts);
    MakeBlocksTyped(s, a, ts, children, children, exit, tys, |tys|);
    var r := MakeBlocks(a, children, exit, tys);
    ExtendsTrans(s, st, ts, a, ts, r.0, ts);
    FailTyped(s, st, ts, r.0, ts);
    ts' := ts;
    if children[0].id in r.1 {
      var entry := r.1[children[0].id];
      EntryHas(r.0, children, r.1, tys);
      WriteGoes(s, st, ts, r.0, ts, entry.row, vals, ins);
      WriteSame(r.0, entry.row, vals);
      var b := Terminate(WriteRow(r.0, entry.row, vals), Br(entry.blk));
      EndTyped(s, st, ts, WriteRow(r.0, entry.row, vals), ts, Br(entry.blk));
      PutSlots(WriteRow(r.0, entry.row, vals), Piece([Br(entry.blk)], WriteRow(r.0, entry.row, vals).regs, []));
      ExtendsFacts(s, st, ts, b, ts);
      BlocksMore(r.0, b, children, r.1, tys);
      RowMore(st.slots, b.slots, outs, tys);
      forall c | c in children && IsBlock(c) ensures FindChild(children, c.id) == Some(c) {
        FindSelf(children, children, |tys|, c);
      }
      ts' := ChildrenTyped(s, b, ts, children, children, vis, r.1, outs, tys);
      var t := EmitChildren(b, children, r.1, outs);
      ExtendsTrans(s, st, ts, b, ts, t, ts');
      ExtendsFacts(s, a, ts, r.0, ts) by { MakeBlocksTyped(s, a, ts, children, children, exit, tys, |tys|); }
      ExtendsFacts(s, b, ts, t, ts');
      MoveTyped(s, st, ts, t, ts', exit);
      FailTyped(s, st, ts, At(t, exit), ts');
    }
  }

  lemma EntryHas(st: ES, children: seq<Child>, bbs: map<NodeId, Target>, tys: seq<Ty>)
    requires children != [] && children[0].Block? && children[0].id in bbs && BlocksHave(st, children, bbs, tys)
    ensures RowHas(st.slots, bbs[children[0].id].row, RegionIns(children[0].nodes))
  {
    assert FindChild(children, children[0].id) == Some(children[0]);
  }

  lemma {:induction false} ChildrenTyped(s: Setting, st: ES, ts: seq<RTy>, children: seq<Child>, all: seq<Child>,
                                         vis: map<NodeId, Scope>, bbs: map<NodeId, Target>, outs: seq<nat>,
                                         tys: seq<Ty>) returns (ts': seq<RTy>)
    requires ValidChildren(children, all, |tys|) && TypedChildren(s.w, children, all, vis, tys)
    requires EdgesInChildren(children, s.ty) && TypedState(s, st, ts) && BlocksHave(st, all, bbs, tys)
    requires RowHas(st.slots, outs, tys) && forall c :: c in children && IsBlock(c) ==> FindChild(all, c.id) == Some(c)
    ensures Extends(s, st, ts, EmitChildren(st, children, bbs, outs), ts')
    decreases children, 0
  {
    hide TypedState, Extends, RowHas, BlocksHave, EmitChild, TypedChild, ValidChild, EdgesIn;
    if children == [] {
      ts' := ts;
      Start(s, st, ts);
    } else {
      var a := EmitChild(st, children[0], bbs, outs);
      var mid := ChildTyped(s, st, ts, children[0], all, vis, bbs, outs, tys);
      ExtendsFacts(s, st, ts, a, mid);
      BlocksMore(st, a, all, bbs, tys);
      RowMore(st.slots, a.slots, outs, tys);
      ts' := ChildrenTyped(s, a, mid, children[1..], all, vis, bbs, outs, tys);
      ExtendsTrans(s, st, ts, a, mid, EmitChildren(st, children, bbs, outs), ts');
    }
  }

  lemma {:induction false} ChildTyped(s: Setting, st: ES, ts: seq<RTy>, c: Child, all: seq<Child>,
                                      vis: map<NodeId, Scope>, bbs: map<NodeId, Target>, outs: seq<nat>, tys: seq<Ty>)
    returns (ts': seq<RTy>)
    requires ValidChild(c, all, |tys|) && TypedChild(s.w, c, all, vis, tys) && (c.Block? ==> EdgesIn(c.nodes, s.ty))
    requires TypedState(s, st, ts) && BlocksHave(st, all, bbs, tys) && RowHas(st.slots, outs, tys)
    requires IsBlock(c) ==> FindChild(all, c.id) == Some(c)
    ensures Extends(s, st, ts, EmitChild(st, c, bbs, outs), ts')
    decreases c, 0
  {
    hide TypedState, Extends, RowHas, BlocksHave, EmitRegion, Destructure, Put, WriteRow, LoadLine, EdgesIn,
      ValidRegion, TypedRegion, BlockStart, AllHave;
    Start(s, st, ts);
    CurIn(s, st, ts);
    ts' := ts;
    match c {
      case Block(id, rows, nodes, succs) =>
        if id in bbs && forall x :: x in succs ==> x in bbs {
          ts' := DataflowBlockTyped(s, st, ts, c, all, vis, bbs, outs, tys);
        }
      case Exit(id) =>
        if id in bbs {
          var a, row := At(st, bbs[id].blk), bbs[id].row;
          ChildHas(st, all, bbs, tys, c);
          SameTyped(s, st, ts, a);
          ts' := ReadGoes(s, st, ts, a, ts, row, tys);
          var p := ReadRow(row, st.regs);
          PutSlots(a, p);
          WriteGoes(s, st, ts, PutPiece(a, p), ts', outs, p.vals, tys);
          WriteSame(PutPiece(a, p), outs, p.vals);
          MoveTyped(s, st, ts, WriteRow(PutPiece(a, p), outs, p.vals), ts', st.cur);
        }
      case ChildFunc(f) => SameTyped(s, st, ts, st.(todo := st.todo + {f}));
      case ChildStatic =>
    }
  }

  lemma ChildHas(st: ES, all: seq<Child>, bbs: map<NodeId, Target>, tys: seq<Ty>, c: Child)
    requires BlocksHave(st, all, bbs, tys) && IsBlock(c) && c.id in bbs && FindChild(all, c.id) == Some(c)
    ensures bbs[c.id].blk < |st.code| && RowHas(st.slots, bbs[c.id].row, ChildTys(c, tys))
  {
  }

  /** A block reads its own mailboxes at the types of its inputs, its results at those of its outputs, and passes
      them to successors that take them at these types. */
  lemma {:induction false} DataflowBlockTyped(s: Setting, st: ES, ts: seq<RTy>, c: Child, all: seq<Child>,
                                              vis: map<NodeId, Scope>, bbs: map<NodeId, Target>, outs: seq<nat>,
                                              tys: seq<Ty>) returns (ts': seq<RTy>)
    requires c.Block? && ValidChild(c, all, |tys|) && TypedChild(s.w, c, all, vis, tys) && EdgesIn(c.nodes, s.ty)
    requires TypedState(s, st, ts) && BlocksHave(st, all, bbs, tys) && FindChild(all, c.id) == Some(c)
    requires c.id in bbs && forall x :: x in c.succs ==> x in bbs
    ensures Extends(s, st, ts, EmitChild(st, c, bbs, outs), ts')
    decreases c.nodes
  {
    hide TypedState, Extends, RowHas, BlocksHave, EmitRegion, Destructure, Put, LoadLine, EdgesIn, TypedEdge,
      ValidRegion, TypedRegion, AllHave, RegionOuts, RegionOutTys, RegionIns, MapWires, Scopes.Ends, FindChild,
      ScopeAfter, IdsAll, TargetsHave, Has;
    var t, nodes, outTys := bbs[c.id], c.nodes, RegionOutTys(c.nodes);
    ChildHas(st, all, bbs, tys, c);
    var a := At(st, t.blk);
    Start(s, st, ts);
    MoveTyped(s, st, ts, st, ts, t.blk);
    ExtendsFacts(s, st, ts, a, ts);
    OutputEnds(nodes, s.ty);
    var ws := RegionOuts(nodes);
    var b := MapWires(a, ws, outTys);
    MapWiresTyped(s, a, ts, ws, outTys);
    MapWiresRegs(a, ws, outTys);
    ExtendsTrans(s, st, ts, a, ts, b, ts);
    ExtendsFacts(s, a, ts, b, ts);
    RowMore(st.slots, b.slots, t.row, RegionIns(nodes));
    var ts1 := ReadGoes(s, st, ts, b, ts, t.row, RegionIns(nodes));
    var d, promise := BlockStart(st, nodes, t), RowOf(b.env, ws);
    PutSlots(b, ReadRow(t.row, b.regs));
    ExtendsFacts(s, st, ts, d, ts1);
    var ts2 := RegionTyped(s, d, ts1, nodes, Regs(st.regs, |t.row|), promise, vis[c.id], RegionIns(nodes), outTys);
    var e := EmitRegion(d, nodes, Regs(st.regs, |t.row|), promise);
    ExtendsTrans(s, st, ts, d, ts1, e, ts2);
    ExtendsFacts(s, d, ts1, e, ts2);
    RowMore(d.slots, e.slots, promise, outTys);
    var ts3 := ReadGoes(s, st, ts, e, ts2, promise, outTys);
    var p := ReadRow(promise, e.regs);
    var h := PutPiece(e, p);
    PutSlots(e, p);
    HeadHas(s, ts3, p.vals, outTys);
    ExtendsFacts(s, st, ts, h, ts3);
    BlocksMore(st, h, all, bbs, tys);
    SuccsHave(s, h, c, all, vis, bbs, tys);
    ts' := DestructureTyped(s, h, ts3, c.rows, p.vals[0], p.vals[1..], outTys[1..], Targets(c.succs, bbs));
    var k := Destructure(h, c.rows, p.vals[0], p.vals[1..], Targets(c.succs, bbs));
    ExtendsTrans(s, st, ts, h, ts3, k, ts');
    CurIn(s, st, ts);
    ExtendsFacts(s, st, ts, k, ts');
    MoveTyped(s, st, ts, k, ts', st.cur);
    AskTyped(s, st, ts, At(k, st.cur), ts', {NeedType(Sum(c.rows))});
  }

  lemma SuccsHave(s: Setting, st: ES, c: Child, all: seq<Child>, vis: map<NodeId, Scope>, bbs: map<NodeId, Target>,
                  tys: seq<Ty>)
    requires c.Block? && TypedChild(s.w, c, all, vis, tys) && BlocksHave(st, all, bbs, tys)
    requires forall x :: x in c.succs ==> x in bbs
    ensures TargetsHave(st.slots, c.rows, Targets(c.succs, bbs), RegionOutTys(c.nodes)[1..])
  {
    hide RowHas, TypedRegion, RegionOutTys, ScopeAfter, RegionIns, FindChild;
    forall i | 0 <= i < |c.rows|
      ensures RowHas(st.slots, Targets(c.succs, bbs)[i].row, c.rows[i].tys + RegionOutTys(c.nodes)[1..])
    {
      assert c.succs[i] in bbs;
      var d := FindChild(all, c.succs[i]).value;
      assert TypedEdge(d, vis, ScopeAfter(vis[c.id], c.nodes), c.rows[i].tys + RegionOutTys(c.nodes)[1..], tys);
      assert ChildTys(d, tys) == c.rows[i].tys + RegionOutTys(c.nodes)[1..];
    }
  }

  // ----- functions -----

  ghost predicate CodeOk(s: Setting, slots: seq<Ty>, ts: seq<RTy>, code: Code) {
    forall b, i :: 0 <= b < |code| && 0 <= i < |code[b]| ==> InstrOk(s, slots, ts, code[b][i])
  }

  /** Some types of the registers fit every instruction. */
  ghost predicate WellTyped(w: World, ins: seq<Ty>, outs: seq<Ty>, slots: seq<Ty>, code: Code) {
    exists ty: Wire -> Ty, ts: seq<RTy> :: CodeOk(Setting(w, ins, outs, ty), slots, ts, code)
  }

  /** The code of a well-typed function is well-typed LLVM: some types of the registers, together with the types
      that the alloca block gives the mailboxes, fit every instruction. */
  lemma EmittedCodeIsTyped(w: World, f: FuncDefn)
    requires ValidFunc(f) && TypedRegion(w, f.nodes, map[], f.ins, f.outs) && TypedEdges(f)
    ensures WellTyped(w, f.ins, f.outs, EmitFunc(f).slots, EmitFunc(f).code)
  {
    hide EmitFunc, InstrOk;
    var ty: Wire -> Ty :| EdgesIn(f.nodes, ty);
    var s := Setting(w, f.ins, f.outs, ty);
    var ts := FuncTyped(s, f);
    var t := EmitFunc(f);
    forall b, i | 0 <= b < |t.code| && 0 <= i < |t.code[b]| ensures InstrOk(s, t.slots, ts, t.code[b][i]) {
      assert LineOk(s, t.slots, ts, t.code[b]);
    }
    assert CodeOk(Setting(w, f.ins, f.outs, ty), t.slots, ts, t.code);
  }

  lemma FuncTyped(s: Setting, f: FuncDefn) returns (ts: seq<RTy>)
    requires ValidFunc(f) && TypedRegion(s.w, f.nodes, map[], f.ins, f.outs) && EdgesIn(f.nodes, s.ty)
    requires s.ins == f.ins && s.outs == f.outs
    ensures TypedState(s, EmitFunc(f), ts)
  {
    hide TypedState, Extends, RowHas, LoadLine, Put, NewRow, EmitRegion, EdgesIn, TypedRegion, ValidRegion, AllHave;
    var ts0: seq<RTy>, row := [], FreshRow(0, |f.outs|);
    InitialTyped(s, ts0);
    var a := FuncStart(f);
    NewRowTyped(s, Initial, ts0, f.outs);
    ExtendsFacts(s, Initial, ts0, a, ts0);
    ParamsHave(s, ts0, f.ins);
    var ts1 := RegionTyped(s, a, ts0, f.nodes, Params(|f.ins|), row, map[], f.ins, f.outs);
    var b := FuncBody(f);
    ExtendsTrans(s, Initial, ts0, a, ts0, b, ts1);
    ExtendsFacts(s, a, ts0, b, ts1);
    RowMore(a.slots, b.slots, row, f.outs);
    ts := ReadGoes(s, Initial, ts0, b, ts1, row, f.outs);
    var p := ReadRow(row, b.regs);
    var c := Terminate(PutPiece(b, p), Ret(p.vals));
    EndTyped(s, Initial, ts0, PutPiece(b, p), ts, Ret(p.vals));
    ExtendsFacts(s, Initial, ts0, c, ts);
    MoveTyped(s, Initial, ts0, c, ts, 0);
    EndTyped(s, Initial, ts0, At(c, 0), ts, Br(1));
    ExtendsFacts(s, Initial, ts0, EmitFunc(f), ts);
  }

  lemma InitialTyped(s: Setting, ts: seq<RTy>)
    requires ts == []
    ensures TypedState(s, Initial, ts)
  {
  }

  lemma ParamsHave(s: Setting, ts: seq<RTy>, tys: seq<Ty>)
    requires s.ins == tys
    ensures AllHave(s, ts, Params(|tys|), tys)
  {
  }
}