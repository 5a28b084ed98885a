/** The context a function is emitted in: a builder that is always positioned at the end of a block, the map from
    wires to mailboxes, and the methods that update them in place, one instruction or mailbox at a time.  Each
    is proved against the state transformer of the same name in `Builder`. */
module Context {
  import opened Values
  import opened Machine
  import opened Hugr
  import opened Arrays
  import opened Types
  import opened Builder

  class EmitFuncContext {
    var env: map<Wire, nat>
    var slots: seq<Ty>
    var code: seq<Block>
    var order: seq<nat>
    var cur: nat
    var regs: nat
    var todo: set<NodeId>
    var refs: set<NodeId>
    var failed: bool
    /** Whether something that was asked for is not registered. */
    var unmet: bool
    ghost var needs: set<Need>
    const codegen: Codegen

    ghost function State(): ES
      reads this
    {
      ES(env, slots, code, order, cur, regs, todo, refs, needs, failed)
    }

    /** The builder is positioned, and what could not be found is known. */
    ghost predicate Valid()
      reads this
    {
      cur < |code| && (unmet <==> !AllMet(codegen, needs))
    }

    constructor (codegen: Codegen)
      ensures Valid() && State() == Initial && this.codegen == codegen
    {
      this.codegen := codegen;
      env, slots, code, order, cur := map[], [], [[], []], [0, 1], 1;
      regs, todo, refs, failed, unmet, needs := 0, {}, {}, false, false, {};
    }

    method Error()
      modifies this`failed
      ensures State() == Fail(old(State()))
    {
      failed := true;
    }

    /** Looks up a type or a handler. */
    method Find(n: Need)
      requires Valid()
      modifies this`unmet, this`needs
      ensures Valid() && State() == Ask(old(State()), {n})
      ensures unmet <==> old(unmet) || !Met(codegen, n)
    {
      needs := needs + {n};
      unmet := unmet || !Met(codegen, n);
    }

    // ----- blocks and instructions -----

    /** The block directly precedes the one it is put before, or directly follows the one it is put after. */
    method NewBasicBlock(wh: Where) returns (b: nat)
      requires Valid()
      modifies this`code, this`order
      ensures Valid() && State() == NewBlock(old(State()), wh) && b == |old(code)| < |code|
      ensures Placed(old(order), order, wh, b)
    {
      b := |code|;
      code := code + [[]];
      PlaceIs(order, wh, b);
      order := Place(order, wh, b);
    }

    method PositionAtEnd(b: nat)
      requires Valid() && b < |code|
      modifies this`cur
      ensures Valid() && State() == At(old(State()), b)
    {
      cur := b;
    }

    /** Appends one instruction at the builder. */
    method Build(i: Instr, next: nat)
      requires Valid()
      modifies this`code, this`regs
      ensures Valid() && State() == Put(old(State()), [i], next) && |code| == |old(code)|
    {
      code := code[cur := code[cur] + [i]];
      regs := next;
    }

    // ----- mailboxes -----

    /** A new mailbox is allocated in the alloca block, wherever the builder is; an error if its type does not
        lower. */
    method NewValueMailBox(ty: Ty) returns (slot: nat)
      requires Valid()
      modifies this`code, this`slots, this`unmet, this`needs
      ensures Valid() && State() == Alloc(old(State()), ty) && slot == |old(slots)| && |code| == |old(code)|
      ensures unmet <==> old(unmet) || MapType(codegen.types, ty) == None
    {
      Find(NeedType(ty));
      slot := |slots|;
      code := code[0 := code[0] + [Alloca(slot, ty)]];
      slots := slots + [ty];
    }

    /** Anonymous mailboxes. */
    method NewRowMailBox(tys: seq<Ty>) returns (row: seq<nat>)
      requires Valid()
      modifies this`code, this`slots, this`unmet, this`needs
      ensures Valid() && State() == NewRow(old(State()), tys) && |code| == |old(code)|
      ensures row == FreshRow(|old(slots)|, |tys|) && |slots| == |old(slots)| + |tys|
      ensures unmet <==> old(unmet) || exists ty :: ty in tys && MapType(codegen.types, ty) == None
    {
      hide AllMet, MapType;
      row := [];
      for i := 0 to |tys|
        invariant Valid() && |code| == |old(code)| && |slots| == |old(slots)| + i
        invariant NewRow(State(), tys[i..]) == NewRow(old(State()), tys)
        invariant unchanged(`env, `order, `cur, `regs, `todo, `refs, `failed)
        invariant unmet <==> old(unmet) || exists ty :: ty in tys[..i] && MapType(codegen.types, ty) == None
        invariant row == FreshRow(|old(slots)|, i)
      {
        assert tys[i..][0] == tys[i] && tys[i..][1..] == tys[i + 1..];
        assert tys[..i + 1] == tys[..i] + [tys[i]];
        var slot := NewValueMailBox(tys[i]);
        row := row + [slot];
      }
      assert tys[..|tys|] == tys;
    }

    /** A wire that has a mailbox keeps it; another gets one, which is an error if its type does not lower. */
    method MapWire(w: Wire, ty: Ty) returns (slot: nat)
      requires Valid()
      modifies this`env, this`code, this`slots, this`unmet, this`needs
      ensures Valid() && State() == Builder.MapWire(old(State()), w, ty) && |code| == |old(code)|
      ensures w in env && slot == env[w]
      ensures unmet <==> old(unmet) || (w !in old(env) && MapType(codegen.types, ty) == None)
    {
      if w in env {
        return env[w];
      }
      slot := NewValueMailBox(ty);
      env := env[w := slot];
    }

    /** The mailboxes of a row of wires, as for the inputs or outputs of a node. */
    method MapRow(ws: seq<Wire>, tys: seq<Ty>) returns (row: seq<nat>)
      requires Valid()
      modifies this`env, this`code, this`slots, this`unmet, this`needs
      ensures Valid() && State() == MapWires(old(State()), ws, tys) && |code| == |old(code)|
      ensures row == RowOf(env, ws)
    {
      hide AllMet, Builder.MapWire;
      var i := 0;
      while i < |ws| && i < |tys|
        invariant 0 <= i <= |ws| && i <= |tys|
        invariant Valid() && |code| == |old(code)|
        invariant MapWires(State(), ws[i..], tys[i..]) == MapWires(old(State()), ws, tys)
        invariant unchanged(`order, `cur, `regs, `todo, `refs, `failed)
      {
        assert ws[i..][0] == ws[i] && ws[i..][1..] == ws[i + 1..];
        assert tys[i..][0] == tys[i] && tys[i..][1..] == tys[i + 1..];
        var slot := MapWire(ws[i], tys[i]);
        i := i + 1;
      }
      row := RowOf(env, ws);
    }

    method ReadVec(row: seq<nat>) returns (vals: seq<Operand>)
      requires Valid()
      modifies this`code, this`regs
      ensures Valid() && State() == PutPiece(old(State()), ReadRow(row, old(regs))) && |code| == |old(code)|
      ensures vals == Regs(old(regs), |row|)
    {
      vals := [];
      ghost var last := regs + |row|;
      EmptyPut(State());
      for i := 0 to |row|
        invariant Valid() && |code| == |old(code)| && regs == old(regs) + i
        invariant Put(State(), LoadLine(row[i..], regs), last) == Put(old(State()), LoadLine(row, old(regs)), last)
        invariant unchanged(`env, `slots, `order, `cur, `todo, `refs, `needs, `failed)
        invariant vals == Regs(old(regs), i)
      {
        assert row[i..][0] == row[i] && row[i..][1..] == row[i + 1..];
        PutTwice(State(), Load(regs, row[i]), regs + 1, LoadLine(row[i + 1..], regs + 1), last);
        vals := vals + [Reg(regs)];
        Build(Load(regs, row[i]), regs + 1);
      }
      EmptyPut(State());
    }

    /** As many values as mailboxes are needed. */
    method Write(row: seq<nat>, vals: seq<Operand>)
      requires Valid()
      modifies this`code, this`regs, this`failed
      ensures Valid() && State() == WriteRow(old(State()), row, vals) && |code| == |old(code)| && regs == old(regs)
    {
      if |row| != |vals| {
        Error();
        return;
      }
      for i := 0 to |row|
        invariant Valid() && |code| == |old(code)| && regs == old(regs)
        invariant Put(State(), StoreLine(row[i..], vals[i..]), regs) == Put(old(State()), StoreLine(row, vals), regs)
        invariant unchanged(`env, `slots, `order, `cur, `todo, `refs, `needs, `failed)
      {
        assert row[i..][0] == row[i] && row[i..][1..] == row[i + 1..];
        assert vals[i..][0] == vals[i] && vals[i..][1..] == vals[i + 1..];
        PutTwice(State(), Store(row[i], vals[i]), regs, StoreLine(row[i + 1..], vals[i + 1..]), regs);
        Build(Store(row[i], vals[i]), regs);
      }
      EmptyPut(State());
    }

    // ----- sums -----

    /** Inserts the fields of a struct one by one. */
    method BuildRow(agg: Operand, vs: seq<Operand>) returns (row: Operand)
      requires Valid()
      modifies this`code, this`regs
      ensures Valid() && State() == Put(old(State()), InsertLine(agg, vs, 0, old(regs)), old(regs) + |vs|)
      ensures row == LastReg(agg, |vs|, old(regs)) && |code| == |old(code)|
    {
      row := agg;
      ghost var last := regs + |vs|;
      for i := 0 to |vs|
        invariant Valid() && |code| == |old(code)| && regs == old(regs) + i
        invariant Put(State(), InsertLine(row, vs[i..], i, regs), last)
               == Put(old(State()), InsertLine(agg, vs, 0, old(regs)), last)
        invariant unchanged(`env, `slots, `order, `cur, `todo, `refs, `needs, `failed)
        invariant row == LastReg(agg, i, old(regs))
      {
        assert vs[i..][0] == vs[i] && vs[i..][1..] == vs[i + 1..];
        PutTwice(State(), Insert(regs, row, vs[i], i), regs + 1, InsertLine(Reg(regs), vs[i + 1..], i + 1, regs + 1),
                 last);
        var next := Reg(regs);
        Build(Insert(regs, row, vs[i], i), regs + 1);
        row := next;
      }
      EmptyPut(State());
    }

    /** An error unless `tag` is a variant and every field is given. */
    method BuildTag(rows: seq<Row>, tag: nat, vs: seq<Operand>) returns (v: Option<Operand>)
      requires Valid()
      modifies this`code, this`regs
      ensures Valid() && |code| == |old(code)|
      ensures match TagPiece(rows, tag, vs, old(regs))
              case Some(p) => State() == PutPiece(old(State()), p) && v == Some(p.vals[0])
              case None => State() == old(State()) && v == None
      ensures v.Some? <==> tag < |rows| && |vs| == |rows[tag].tys|
      ensures v.Some? ==> |code[cur]| == |old(code[cur])| + |vs| + (if |rows| == 1 then 1 else 2)
    {
      if tag >= |rows| || |vs| != |rows[tag].tys| {
        return None;
      }
      ghost var s0, p := State(), TagPiece(rows, tag, vs, regs).value;
      var row := BuildRow(Const(LStruct(seq(|vs|, _ => Undef))), vs);
      ghost var s1, n1 := State(), regs;
      var sum := Const(PoisonSum(rows));
      if HasTagField(rows) {
        var next := Reg(regs);
        Build(Insert(regs, sum, Const(LInt(tag)), 0), regs + 1);
        sum := next;
      } else {
        EmptyPut(State());
      }
      v := Some(Reg(regs));
      ghost var line1 := if HasTagField(rows) then [Insert(n1, Const(PoisonSum(rows)), Const(LInt(tag)), 0)] else [];
      assert State() == Put(s1, line1, regs);
      ghost var insert := Insert(regs, sum, row, VariantFieldIndex(rows, tag));
      Build(Insert(regs, sum, row, VariantFieldIndex(rows, tag)), regs + 1);
      PutThrice(s0, InsertLine(Const(LStruct(seq(|vs|, _ => Undef))), vs, 0, s0.regs), n1, line1, regs - 1, [insert],
                regs);
    }

    method BuildFields(agg: Operand, n: nat) returns (vals: seq<Operand>)
      requires Valid()
      modifies this`code, this`regs
      ensures Valid() && State() == Put(old(State()), ExtractLine(agg, n, 0, old(regs)), old(regs) + n)
      ensures vals == Regs(old(regs), n) && |code| == |old(code)|
    {
      vals := [];
      ghost var last := regs + n;
      for i := 0 to n
        invariant Valid() && |code| == |old(code)| && regs == old(regs) + i
        invariant Put(State(), ExtractLine(agg, n - i, i, regs), last)
               == Put(old(State()), ExtractLine(agg, n, 0, old(regs)), last)
        invariant unchanged(`env, `slots, `order, `cur, `todo, `refs, `needs, `failed)
        invariant vals == Regs(old(regs), i)
      {
        PutTwice(State(), Extract(regs, agg, i), regs + 1, ExtractLine(agg, n - i - 1, i + 1, regs + 1), last);
        vals := vals + [Reg(regs)];
        Build(Extract(regs, agg, i), regs + 1);
      }
      EmptyPut(State());
    }

    method BuildUntag(rows: seq<Row>, tag: nat, v: Operand) returns (vals: seq<Operand>)
      requires Valid() && tag < |rows|
      modifies this`code, this`regs
      ensures Valid() && State() == PutPiece(old(State()), UntagPiece(rows, tag, v, old(regs))) && |code| == |old(code)|
      ensures vals == UntagPiece(rows, tag, v, old(regs)).vals
    {
      ghost var s0, n := State(), |rows[tag].tys|;
      var row := Reg(regs);
      Build(Extract(regs, v, VariantFieldIndex(rows, tag)), regs + 1);
      vals := BuildFields(row, |rows[tag].tys|);
      PutTwice(s0, Extract(s0.regs, v, VariantFieldIndex(rows, tag)), s0.regs + 1, ExtractLine(row, n, 0, s0.regs + 1),
               regs);
    }

    method BuildGetTag(rows: seq<Row>, v: Operand) returns (tag: Operand)
      requires Valid()
      modifies this`code, this`regs
      ensures Valid() && State() == PutPiece(old(State()), GetTagPiece(rows, v, old(regs))) && |code| == |old(code)|
      ensures tag == GetTagPiece(rows, v, old(regs)).vals[0]
      ensures |rows| <= 1 ==> State() == old(State()) && tag == Const(LInt(0))
      ensures |rows| >= 2 ==> code[cur] == old(code[cur]) + [Extract(old(regs), v, 0)] && tag == Reg(old(regs))
    {
      if HasTagField(rows) {
        tag := Reg(regs);
        Build(Extract(regs, v, 0), regs + 1);
      } else {
        tag := Const(LInt(0));
        EmptyPut(State());
      }
    }

    /** The block of one variant: unpacks it and goes to its target. */
    method BuildArm(rows: seq<Row>, i: nat, v: Operand, rest: seq<Operand>, targets: seq<Target>, last: nat)
      returns (bb: nat)
      requires Valid() && i < |rows|
      modifies this
      ensures Valid() && |code| == |old(code)| + 1 && bb == |old(code)|
      ensures State() == BuiltArm(old(State()), rows, i, v, rest, targets, last)
    {
      hide AllMet, UntagPiece, Place;
      bb := NewBasicBlock(After(last));
      PositionAtEnd(bb);
      var vals := BuildUntag(rows, i, v);
      if i < |targets| {
        Write(targets[i].row, vals + rest);
        Build(Br(targets[i].blk), regs);
      } else {
        Error();
      }
    }

    /** One block per variant, each behind the last, then the switch. */
    method BuildDestructure(rows: seq<Row>, v: Operand, rest: seq<Operand>, targets: seq<Target>)
      requires Valid()
      modifies this
      ensures Valid() && State() == Destructure(old(State()), rows, v, rest, targets) && |code| >= |old(code)|
    {
      hide AllMet, BuiltArm;
      if rows == [] {
        Error();
        return;
      }
      var orig, last, cases := cur, cur, [];
      assert [] + Arms(State(), rows, v, rest, targets, 0, orig).1 == Arms(State(), rows, v, rest, targets, 0, orig).1;
      for i := 0 to |rows|
        invariant Valid() && |code| >= |old(code)| && orig < |code| && |cases| == i
        invariant Arms(old(State()), rows, v, rest, targets, 0, orig).0
               == Arms(State(), rows, v, rest, targets, i, last).0
        invariant Arms(old(State()), rows, v, rest, targets, 0, orig).1
               == cases + Arms(State(), rows, v, rest, targets, i, last).1
      {
        ghost var was, before := cases, State();
        var bb := BuildArm(rows, i, v, rest, targets, last);
        cases := cases + [(i, bb)];
        ArmsStep(before, rows, v, rest, targets, i, last, was);
        last := bb;
      }
      ghost var r := Arms(old(State()), rows, v, rest, targets, 0, orig);
      assert r.0 == State() && r.1 == cases by { assert cases + [] == cases; }
      PositionAtEnd(orig);
      var tag := BuildGetTag(rows, v);
      Build(Switch(tag, cases[0].1, cases[1..]), regs);
    }

    // ----- arrays -----

    /** Spills an array to the stack; the pointer is to its first element. */
    method WithArrayAlloca(v: Operand, size: nat) returns (ptr: Operand)
      requires Valid()
      modifies this`code, this`regs
      ensures Valid() && State() == Put(old(State()), SpillLine(v, size, old(regs)), old(regs) + 1)
      ensures ptr == Reg(old(regs)) && regs == old(regs) + 1 && |code| == |old(code)|
    {
      hide AllMet;
      ghost var a, b := AllocaArray(regs, size), StoreArray(Reg(regs), v);
      ghost var s0 := State();
      ptr := Reg(regs);
      Build(AllocaArray(regs, size), regs + 1);
      Build(StoreArray(ptr, v), regs);
      PutAgain(s0, [a], s0.regs + 1, [b], s0.regs + 1);
      assert [a] + [b] == SpillLine(v, size, s0.regs);
    }

    /** Accesses the array that was spilled into register `regs - 1`: the fields of the successful variant. */
    method BuildAccess(op: ArrayOp, size: nat, vals: seq<Operand>, ptr: Operand) returns (fields: seq<Operand>)
      requires Valid() && regs > 0 && ptr == Reg(regs - 1)
      requires IsAccess(op, |vals|)
      modifies this`code, this`regs
      ensures Valid() && State() == PutPiece(old(State()), AccessFields(op, size, vals, old(regs) - 1))
      ensures fields == AccessFields(op, size, vals, old(regs) - 1).vals && |code| == |old(code)|
    {
      hide AllMet;
      ghost var block := code[cur];
      var addr, elem := Reg(regs), Reg(regs + 1);
      Build(Gep(regs, ptr, vals[1]), regs + 1);
      Build(LoadElem(regs, addr), regs + 1);
      assert code[cur] == block + [Gep(regs - 2, ptr, vals[1]), LoadElem(regs - 1, addr)];
      if op.GetOp? {
        fields := [elem];
      } else if op.SetOp? {
        fields := [elem, Reg(regs)];
        Build(StoreElem(addr, vals[2]), regs);
        Build(LoadArray(regs, ptr, size), regs + 1);
      } else {
        var addr2, elem2 := Reg(regs), Reg(regs + 1);
        Build(Gep(regs, ptr, vals[2]), regs + 1);
        Build(LoadElem(regs, addr2), regs + 1);
        Build(StoreElem(addr, elem2), regs);
        Build(StoreElem(addr2, elem), regs);
        fields := [Reg(regs)];
        Build(LoadArray(regs, ptr, size), regs + 1);
      }
      assert code[cur] == block + AccessFields(op, size, vals, old(regs) - 1).line;
    }

    /** The element at one end of the array spilled into register `regs - 1`, and the rest. */
    method BuildPop(size: nat, left: bool, ptr: Operand) returns (fields: seq<Operand>)
      requires Valid() && regs > 0 && ptr == Reg(regs - 1) && size > 0
      modifies this`code, this`regs
      ensures Valid() && State() == PutPiece(old(State()), PopFields(size, left, old(regs) - 1))
      ensures fields == PopFields(size, left, old(regs) - 1).vals && |code| == |old(code)|
    {
      hide AllMet;
      ghost var block := code[cur];
      var end := Reg(regs);
      fields := [Reg(regs + 1), Reg(regs + 2)];
      Build(Gep(regs, ptr, Const(LInt(if left then 1 else size - 1))), regs + 1);
      Build(LoadElem(regs, if left then ptr else end), regs + 1);
      Build(LoadArray(regs, if left then end else ptr, size - 1), regs + 1);
      assert code[cur] == block + PopFields(size, left, old(regs) - 1).line;
    }

    /** Puts the fields of the successful variant, computed from a spilled array, into the sum. */
    method BuildSuccess(rows: seq<Row>, fields: seq<Operand>, ghost s0: ES, v: Operand, size: nat, ghost p: Piece)
      returns (r: Option<Operand>)
      requires Valid() && s0.cur < |s0.code| && fields == p.vals
      requires State() == PutPiece(Put(s0, SpillLine(v, size, s0.regs), s0.regs + 1), p)
      modifies this`code, this`regs
      ensures Valid() && |code| == |old(code)|
      ensures match SuccessPiece(rows, v, size, p, s0.regs)
              case Some(q) => State() == PutPiece(s0, q) && r == Some(q.vals[0])
              case None => r == None
    {
      hide AllMet;
      r := BuildTag(rows, 1, fields);
      if r.Some? {
        ghost var q := TagPiece(rows, 1, fields, p.next).value;
        PutThrice(s0, SpillLine(v, size, s0.regs), s0.regs + 1, p.line, p.next, q.line, q.next);
      }
    }

    /** Tests the indices against the size. */
    method BuildGuard(op: ArrayOp, size: nat, vals: seq<Operand>) returns (cond: Operand)
      requires Valid() && IsAccess(op, |vals|)
      modifies this`code, this`regs
      ensures Valid() && State() == PutPiece(old(State()), GuardPiece(op, size, vals, old(regs)))
      ensures cond == GuardPiece(op, size, vals, old(regs)).vals[0] && |code| == |old(code)|
    {
      hide AllMet;
      ghost var block := code[cur];
      cond := Reg(regs);
      Build(Ult(regs, vals[1], size), regs + 1);
      if op.SwapOp? {
        var cond2 := Reg(regs);
        Build(Ult(regs, vals[2], size), regs + 1);
        Build(And(regs, cond, cond2), regs + 1);
        cond := Reg(regs - 1);
      }
      assert code[cur] == block + GuardPiece(op, size, vals, old(regs)).line;
    }

    /** Constants are materialised field by field. */
    method EmitValue(v: Val) returns (r: Option<Operand>)
      requires Valid()
      modifies this`code, this`regs, this`unmet, this`needs
      ensures Valid() && |code| == |old(code)| && unchanged(`env, `slots, `order, `cur, `todo, `refs, `failed)
      ensures match ConstPiece(v, old(regs))
              case Some(p) => State() == PutPiece(Ask(old(State()), ConstNeeds(v)), p) && r == Some(p.vals[0])
              case None => r == None
      decreases v, 1
    {
      match v {
        case Prim(ty, n) => Find(NeedConst(ty)); EmptyPut(State()); r := Some(Const(LPrim(ty, n)));
        case ArrV(_) => r := None;
        case FunV(_) => r := None;
        case SumV(tag, vals, rows) =>
          ghost var s0 := State();
          Find(NeedType(Sum(rows)));
          var vs := EmitValues(vals);
          if vs == None { return None; }
          r := BuildTag(rows, tag, vs.value);
          if r.Some? {
            ghost var p := ConstsPiece(vals, s0.regs).value;
            ghost var q := TagPiece(rows, tag, p.vals, p.next).value;
            AskTwice(s0, {NeedType(Sum(rows))}, ConstsNeed(vals));
            PutAgain(Ask(s0, ConstNeeds(v)), p.line, p.next, q.line, q.next);
          }
      }
    }

    method EmitValues(vs: seq<Val>) returns (r: Option<seq<Operand>>)
      requires Valid()
      modifies this`code, this`regs, this`unmet, this`needs
      ensures Valid() && |code| == |old(code)| && unchanged(`env, `slots, `order, `cur, `todo, `refs, `failed)
      ensures match ConstsPiece(vs, old(regs))
              case Some(p) => State() == PutPiece(Ask(old(State()), ConstsNeed(vs)), p) && r == Some(p.vals)
              case None => r == None
      decreases vs, 0
    {
      hide Put;
      var os := [];
      ghost var s0 := State();
      assert vs[0..] == vs;
      for i := 0 to |vs|
        invariant Valid() && |code| == |old(code)| && unchanged(`env, `slots, `order, `cur, `todo, `refs, `failed)
        invariant ConstsLeft(s0, vs, State(), vs[i..], os)
      {
        ghost var s1 := State();
        assert vs[i..][0] == vs[i] && vs[i..][1..] == vs[i + 1..];
        var o := EmitValue(vs[i]);
        if o == None { return None; }
        ConstsStep(s0, vs, s1, vs[i..], os, State());
        os := os + [o.value];
      }
      ConstsDone(s0, vs, State(), os);
      r := Some(os);
    }

  }

  // ----- facts about the state transformers -----

  lemma EmptyPut(st: ES)
    requires st.cur < |st.code|
    ensures Put(st, [], st.regs) == st
  {
    assert st.code[st.cur] + [] == st.code[st.cur];
  }

  lemma PutAgain(st: ES, a: seq<Instr>, n: nat, b: seq<Instr>, m: nat)
    requires st.cur < |st.code|
    ensures Put(Put(st, a, n), b, m) == Put(st, a + b, m)
  {
    assert st.code[st.cur] + a + b == st.code[st.cur] + (a + b);
  }

  lemma PutTwice(st: ES, i: Instr, n: nat, line: seq<Instr>, m: nat)
    requires st.cur < |st.code|
    ensures Put(Put(st, [i], n), line, m) == Put(st, [i] + line, m)
  {
    PutAgain(st, [i], n, line, m);
  }

  lemma PutThrice(st: ES, a: seq<Instr>, n: nat, b: seq<Instr>, m: nat, c: seq<Instr>, k: nat)
    requires st.cur < |st.code|
    ensures Put(Put(Put(st, a, n), b, m), c, k) == Put(st, a + b + c, k)
  {
    PutAgain(st, a, n, b, m);
    PutAgain(st, a + b, m, c, k);
  }

  /** The state after the block of one variant. */
  function BuiltArm(st: ES, rows: seq<Row>, i: nat, v: Operand, rest: seq<Operand>, targets: seq<Target>, last: nat): ES
    requires i < |rows|
  {
    var s1 := At(NewBlock(st, After(last)), |st.code|);
    var p := UntagPiece(rows, i, v, s1.regs);
    var s2 := PutPiece(s1, p);
    if i < |targets| then Terminate(WriteRow(s2, targets[i].row, p.vals + rest), Br(targets[i].blk)) else Fail(s2)
  }

  lemma ArmsStep(st: ES, rows: seq<Row>, v: Operand, rest: seq<Operand>, targets: seq<Target>, i: nat, last: nat,
                 cases: seq<(int, nat)>)
    requires i < |rows|
    ensures var bb, s := |st.code|, BuiltArm(st, rows, i, v, rest, targets, last);
      var r, r' := Arms(st, rows, v, rest, targets, i, last), Arms(s, rows, v, rest, targets, i + 1, bb);
      r.0 == r'.0 && cases + r.1 == cases + [(i, bb)] + r'.1
  {
  }

  lemma AskTwice(st: ES, a: set<Need>, b: set<Need>)
    ensures Ask(Ask(st, a), b) == Ask(st, a + b)
  {
    assert st.needs + a + b == st.needs + (a + b);
  }

  /** The constants `vs` from `s0` on come to the same as `rest` from `st` on, after the operands `os`. */
  ghost predicate ConstsLeft(s0: ES, vs: seq<Val>, st: ES, rest: seq<Val>, os: seq<Operand>) {
    match (ConstsPiece(vs, s0.regs), ConstsPiece(rest, st.regs))
    case (Some(p), Some(q)) =>
      PutPiece(Ask(s0, ConstsNeed(vs)), p) == PutPiece(Ask(st, ConstsNeed(rest)), q) && p.vals == os + q.vals
    case (None, None) => true
    case _ => false
  }

  lemma ConstsStep(s0: ES, vs: seq<Val>, st: ES, rest: seq<Val>, os: seq<Operand>, s: ES)
    requires ConstsLeft(s0, vs, st, rest, os) && rest != [] && st.cur < |st.code|
    requires ConstPiece(rest[0], st.regs).Some?
    requires s == PutPiece(Ask(st, ConstNeeds(rest[0])), ConstPiece(rest[0], st.regs).value)
    ensures ConstsLeft(s0, vs, s, rest[1..], os + [ConstPiece(rest[0], st.regs).value.vals[0]])
  {
    var p := ConstPiece(rest[0], st.regs).value;
    if ConstsPiece(rest[1..], p.next).Some? {
      var q := ConstsPiece(rest[1..], p.next).value;
      AskTwice(st, ConstNeeds(rest[0]), ConstsNeed(rest[1..]));
      PutAgain(Ask(st, ConstsNeed(rest)), p.line, p.next, q.line, q.next);
      assert os + (p.vals + q.vals) == os + [p.vals[0]] + q.vals;
    }
  }

  lemma ConstsDone(s0: ES, vs: seq<Val>, st: ES, os: seq<Operand>)
    requires ConstsLeft(s0, vs, st, [], os) && st.cur < |st.code|
    ensures ConstsPiece(vs, s0.regs).Some?
    ensures st == PutPiece(Ask(s0, ConstsNeed(vs)), ConstsPiece(vs, s0.regs).value)
    ensures os == ConstsPiece(vs, s0.regs).value.vals
  {
    EmptyPut(st);
    assert Ask(st, {}) == st;
    assert os + [] == os;
  }
}
