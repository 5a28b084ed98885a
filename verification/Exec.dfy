/** What the straight-line pieces of emitted code do when they run: reading and writing rows of mailboxes,
    building, testing and unpacking sums, materialising constants. */
module Exec {
  import opened Values
  import opened Machine
  import opened Hugr
  import opened Builder

  /** The operands evaluate to the given values. */
  ghost predicate OpsAre(l: Local, os: seq<Operand>, ls: seq<LVal>) {
    |os| == |ls| && forall i :: 0 <= i < |os| ==> OpVal(l, os[i]) == Some(ls[i])
  }

  /** The mailboxes hold the given values. */
  ghost predicate RowIs(mem: map<nat, Option<LVal>>, row: seq<nat>, ls: seq<LVal>) {
    |row| == |ls| && forall i :: 0 <= i < |row| ==> row[i] in mem && mem[row[i]] == Some(ls[i])
  }

  /** Only registers below `n` are used. */
  predicate Below(os: seq<Operand>, n: nat) {
    forall i :: 0 <= i < |os| && os[i].Reg? ==> os[i].r < n
  }

  /** Registers below `n` and parameters are as before. */
  ghost predicate RegsKept(l: Local, l': Local, n: nat) {
    l'.params == l.params && forall r :: r in l.regs && r < n ==> r in l'.regs && l'.regs[r] == l.regs[r]
  }

  /** Code that computes only: memory is as before. */
  ghost predicate Computes(l: Local, l': Local, n: nat) {
    RegsKept(l, l', n) && l'.mem == l.mem
  }

  lemma OpsKept(l: Local, l': Local, n: nat, os: seq<Operand>, ls: seq<LVal>)
    requires RegsKept(l, l', n) && Below(os, n) && OpsAre(l, os, ls)
    ensures OpsAre(l', os, ls)
  {
    forall i | 0 <= i < |os| ensures OpVal(l', os[i]) == Some(ls[i]) {
      assert OpVal(l, os[i]) == Some(ls[i]);
    }
  }

  // ----- rows -----

  lemma ExecLoad(x: Sem, dst: nat, slot: nat, l: Local, v: LVal)
    requires slot in l.mem && l.mem[slot] == Some(v)
    ensures ExecInstr(x, Load(dst, slot), l) == Some(l.(regs := l.regs[dst := v]))
  {
  }

  lemma {:induction false} ExecLoads(x: Sem, row: seq<nat>, next: nat, l: Local, ls: seq<LVal>)
    requires RowIs(l.mem, row, ls)
    ensures var r := ExecSeq(x, LoadLine(row, next), l);
      r.Some? && Computes(l, r.value, next) && OpsAre(r.value, Regs(next, |row|), ls)
    decreases row
  {
    hide ExecInstr;
    if row != [] {
      var l1 := l.(regs := l.regs[next := ls[0]]);
      ExecLoad(x, next, row[0], l, ls[0]);
      assert LoadLine(row, next)[1..] == LoadLine(row[1..], next + 1);
      ExecLoads(x, row[1..], next + 1, l1, ls[1..]);
      var r := ExecSeq(x, LoadLine(row, next), l).value;
      forall i | 0 <= i < |row| ensures OpVal(r, Regs(next, |row|)[i]) == Some(ls[i]) {
        if i > 0 {
          assert OpVal(r, Regs(next + 1, |row| - 1)[i - 1]) == Some(ls[1..][i - 1]);
        }
      }
    }
  }

  /** The stores of a row: distinct values never meet in one mailbox, so each mailbox ends with its value. */
  lemma {:induction false} ExecStores(x: Sem, row: seq<nat>, os: seq<Operand>, l: Local, ls: seq<LVal>)
    requires |row| == |os| && OpsAre(l, os, ls) && forall i :: 0 <= i < |row| ==> row[i] in l.mem
    requires forall i, j :: 0 <= i < j < |row| && row[i] == row[j] ==> ls[i] == ls[j]
    ensures var r := ExecSeq(x, StoreLine(row, os), l);
      && r.Some? && r.value.regs == l.regs && r.value.params == l.params && r.value.mem.Keys == l.mem.Keys
      && RowIs(r.value.mem, row, ls)
      && forall s :: s in l.mem && s !in row ==> r.value.mem[s] == l.mem[s]
    decreases row
  {
    if row != [] {
      assert OpVal(l, os[0]) == Some(ls[0]);
      var l1 := l.(mem := l.mem[row[0] := Some(ls[0])]);
      assert ExecInstr(x, StoreLine(row, os)[0], l) == Some(l1);
      assert StoreLine(row, os)[1..] == StoreLine(row[1..], os[1..]);
      assert OpsAre(l1, os[1..], ls[1..]) by {
        forall i | 0 <= i < |os[1..]| ensures OpVal(l1, os[1..][i]) == Some(ls[1..][i]) {
          assert OpVal(l, os[i + 1]) == Some(ls[i + 1]);
        }
      }
      ExecStores(x, row[1..], os[1..], l1, ls[1..]);
      var r := ExecSeq(x, StoreLine(row, os), l).value;
      forall i | 0 <= i < |row| ensures row[i] in r.mem && r.mem[row[i]] == Some(ls[i]) {
        if i > 0 {
          assert row[1..][i - 1] in r.mem && r.mem[row[1..][i - 1]] == Some(ls[1..][i - 1]);
        } else if row[0] in row[1..] {
          var j :| 0 <= j < |row[1..]| && row[1..][j] == row[0];
          assert r.mem[row[1..][j]] == Some(ls[1..][j]);
          assert row[j + 1] == row[0];
        }
      }
    }
  }

  // ----- sums -----

  lemma {:induction false} ExecInserts(x: Sem, agg: Operand, os: seq<Operand>, i: nat, next: nat, l: Local,
                                       fields: seq<LVal>, ls: seq<LVal>)
    requires OpVal(l, agg) == Some(LStruct(fields)) && OpsAre(l, os, ls) && Below(os, next)
    requires i + |os| <= |fields|
    ensures var r := ExecSeq(x, InsertLine(agg, os, i, next), l);
      && r.Some? && Computes(l, r.value, next)
      && OpVal(r.value, LastReg(agg, |os|, next)) == Some(LStruct(fields[..i] + ls + fields[i + |os|..]))
    decreases os
  {
    if os == [] {
      assert fields[..i] + ls + fields[i..] == fields;
    } else {
      var v := LStruct(fields[i := ls[0]]);
      var l1 := l.(regs := l.regs[next := v]);
      assert OpVal(l, os[0]) == Some(ls[0]);
      assert ExecInstr(x, Insert(next, agg, os[0], i), l) == Some(l1);
      assert InsertLine(agg, os, i, next)[1..] == InsertLine(Reg(next), os[1..], i + 1, next + 1);
      assert RegsKept(l, l1, next);
      OpsKept(l, l1, next, os, ls);
      assert OpsAre(l1, os[1..], ls[1..]) by {
        forall k | 0 <= k < |os[1..]| ensures OpVal(l1, os[1..][k]) == Some(ls[1..][k]) {
          assert OpVal(l1, os[k + 1]) == Some(ls[k + 1]);
        }
      }
      ExecInserts(x, Reg(next), os[1..], i + 1, next + 1, l1, v.fields, ls[1..]);
      assert v.fields[..i + 1] + ls[1..] + v.fields[i + |os|..] == fields[..i] + ls + fields[i + |os|..];
      assert LastReg(Reg(next), |os| - 1, next + 1) == LastReg(agg, |os|, next);
    }
  }

  /** Inserting the tag and the row of fields into the poison sum, as the end of the code for a tag does. */
  lemma ExecFill(x: Sem, rows: seq<Row>, tag: nat, row: Operand, n1: nat, l: Local, ls: seq<LVal>)
    requires tag < |rows| && |ls| == |rows[tag].tys|
    requires OpVal(l, row) == Some(LStruct(ls)) && (row.Reg? ==> row.r < n1)
    ensures var tagged := HasTagField(rows);
      var b := if tagged then [Insert(n1, Const(PoisonSum(rows)), Const(LInt(tag)), 0)] else [];
      var sum := if tagged then Reg(n1) else Const(PoisonSum(rows));
      var n2 := n1 + |b|;
      var r := ExecSeq(x, b + [Insert(n2, sum, row, VariantFieldIndex(rows, tag))], l);
      && r.Some? && Computes(l, r.value, n1) && OpVal(r.value, Reg(n2)) == Some(SumStruct(rows, tag, ls))
  {
    var tagged := HasTagField(rows);
    var b := if tagged then [Insert(n1, Const(PoisonSum(rows)), Const(LInt(tag)), 0)] else [];
    var sum := if tagged then Reg(n1) else Const(PoisonSum(rows));
    var poison := PoisonSum(rows).fields;
    var l2 := if tagged then l.(regs := l.regs[n1 := LStruct(poison[0 := LInt(tag)])]) else l;
    assert ExecSeq(x, b, l) == Some(l2) by {
      if tagged { assert b[1..] == []; }
    }
    var n2 := n1 + |b|;
    var idx := VariantFieldIndex(rows, tag);
    var d := Insert(n2, sum, row, idx);
    ExecConcat(x, b, [d], l);
    var s := if tagged then poison[0 := LInt(tag)] else poison;
    assert OpVal(l2, row) == Some(LStruct(ls));
    assert s[idx := LStruct(ls)] == SumStruct(rows, tag, ls).fields;
    var l3 := l2.(regs := l2.regs[n2 := SumStruct(rows, tag, ls)]);
    assert ExecInstr(x, d, l2) == Some(l3);
    assert [d][1..] == [];
    assert ExecSeq(x, [d], l2) == Some(l3);
  }

  /** Running the code for a tag leaves the struct with the tag in place, the fields of the variant given,
      and poison in every other variant. */
  lemma ExecTag(x: Sem, rows: seq<Row>, tag: nat, os: seq<Operand>, next: nat, l: Local, ls: seq<LVal>)
    requires tag < |rows| && |os| == |rows[tag].tys| && OpsAre(l, os, ls) && Below(os, next)
    ensures var p := TagPiece(rows, tag, os, next).value; var r := ExecSeq(x, p.line, l);
      && r.Some? && Computes(l, r.value, next)
      && OpVal(r.value, p.vals[0]) == Some(SumStruct(rows, tag, ls))
      && LaidOut(|rows|, tag, ls, SumStruct(rows, tag, ls))
  {
    hide ExecSeq, SumStruct, InsertLine, LaidOut;
    SumIsLaidOut(rows, tag, ls);
    var fields := seq(|os|, _ => Undef);
    var row0 := Const(LStruct(fields));
    ExecInserts(x, row0, os, 0, next, l, fields, ls);
    assert fields[..0] + ls + fields[|os|..] == ls;
    var a := InsertLine(row0, os, 0, next);
    var l1 := ExecSeq(x, a, l).value;
    var row := LastReg(row0, |os|, next);
    var n1 := next + |os|;
    var b := if HasTagField(rows) then [Insert(n1, Const(PoisonSum(rows)), Const(LInt(tag)), 0)] else [];
    var sum := if HasTagField(rows) then Reg(n1) else Const(PoisonSum(rows));
    var d := Insert(n1 + |b|, sum, row, VariantFieldIndex(rows, tag));
    ExecFill(x, rows, tag, row, n1, l1, ls);
    ExecConcat(x, a, b + [d], l);
    assert TagPiece(rows, tag, os, next).value.line == a + (b + [d]);
  }

  lemma {:induction false} ExecExtracts(x: Sem, agg: Operand, n: nat, i: nat, next: nat, l: Local, ls: seq<LVal>)
    requires OpVal(l, agg) == Some(LStruct(ls)) && i + n <= |ls| && (agg.Reg? ==> agg.r < next)
    ensures var r := ExecSeq(x, ExtractLine(agg, n, i, next), l);
      && r.Some? && Computes(l, r.value, next) && OpsAre(r.value, Regs(next, n), ls[i..i + n])
    decreases n
  {
    if n != 0 {
      var l1 := l.(regs := l.regs[next := ls[i]]);
      assert ExecInstr(x, ExtractLine(agg, n, i, next)[0], l) == Some(l1);
      assert ExtractLine(agg, n, i, next)[1..] == ExtractLine(agg, n - 1, i + 1, next + 1);
      ExecExtracts(x, agg, n - 1, i + 1, next + 1, l1, ls);
      var r := ExecSeq(x, ExtractLine(agg, n, i, next), l).value;
      forall k | 0 <= k < n ensures OpVal(r, Regs(next, n)[k]) == Some(ls[i..i + n][k]) {
        if k > 0 {
          assert OpVal(r, Regs(next + 1, n - 1)[k - 1]) == Some(ls[i + 1..i + n][k - 1]);
        }
      }
    }
  }

  /** Unpacking the active variant yields its fields. */
  lemma ExecUntag(x: Sem, rows: seq<Row>, tag: nat, v: Operand, next: nat, l: Local, ls: seq<LVal>)
    requires tag < |rows| && |ls| == |rows[tag].tys|
    requires OpVal(l, v) == Some(SumStruct(rows, tag, ls))
    ensures var p := UntagPiece(rows, tag, v, next); var r := ExecSeq(x, p.line, l);
      && r.Some? && Computes(l, r.value, next) && OpsAre(r.value, p.vals, ls)
  {
    var p := UntagPiece(rows, tag, v, next);
    var l1 := l.(regs := l.regs[next := LStruct(ls)]);
    assert ExecInstr(x, p.line[0], l) == Some(l1);
    assert p.line[1..] == ExtractLine(Reg(next), |ls|, 0, next + 1);
    ExecExtracts(x, Reg(next), |ls|, 0, next + 1, l1, ls);
    assert ls[0..|ls|] == ls;
  }

  /** The tag that is read is the tag of the value. */
  lemma ExecGetTag(x: Sem, rows: seq<Row>, tag: nat, v: Operand, next: nat, l: Local, ls: seq<LVal>)
    requires tag < |rows| && OpVal(l, v) == Some(SumStruct(rows, tag, ls))
    ensures var p := GetTagPiece(rows, v, next); var r := ExecSeq(x, p.line, l);
      && r.Some? && Computes(l, r.value, next) && OpVal(r.value, p.vals[0]) == Some(LInt(tag))
  {
    if HasTagField(rows) {
      var p := GetTagPiece(rows, v, next);
      assert ExecInstr(x, p.line[0], l) == Some(l.(regs := l.regs[next := LInt(tag)]));
      assert p.line[1..] == [];
    }
  }

  lemma {:induction false} ExecPoison(x: Sem, agg: Operand, n: nat, i: nat, next: nat, l: Local)
    requires OpVal(l, agg) == Some(Poison) && (agg.Reg? ==> agg.r < next)
    ensures var r := ExecSeq(x, ExtractLine(agg, n, i, next), l);
      && r.Some? && Computes(l, r.value, next)
      && forall k :: 0 <= k < n ==> OpVal(r.value, Regs(next, n)[k]) == Some(Poison)
    decreases n
  {
    if n != 0 {
      var l1 := l.(regs := l.regs[next := Poison]);
      assert ExecInstr(x, ExtractLine(agg, n, i, next)[0], l) == Some(l1);
      assert ExtractLine(agg, n, i, next)[1..] == ExtractLine(agg, n - 1, i + 1, next + 1);
      ExecPoison(x, agg, n - 1, i + 1, next + 1, l1);
      var r := ExecSeq(x, ExtractLine(agg, n, i, next), l).value;
      forall k | 0 <= k < n ensures OpVal(r, Regs(next, n)[k]) == Some(Poison) {
        if k > 0 { assert OpVal(r, Regs(next + 1, n - 1)[k - 1]) == Some(Poison); }
      }
    }
  }

  /** Unpacking any other variant yields poison. */
  lemma ExecUntagOther(x: Sem, rows: seq<Row>, tag: nat, other: nat, v: Operand, next: nat, l: Local, ls: seq<LVal>)
    requires tag < |rows| && other < |rows| && other != tag && OpVal(l, v) == Some(SumStruct(rows, tag, ls))
    ensures var p := UntagPiece(rows, other, v, next); var r := ExecSeq(x, p.line, l);
      r.Some? && forall k :: 0 <= k < |p.vals| ==> OpVal(r.value, p.vals[k]) == Some(Poison)
  {
    var p := UntagPiece(rows, other, v, next);
    assert ExecInstr(x, p.line[0], l) == Some(l.(regs := l.regs[next := Poison]));
    assert p.line[1..] == ExtractLine(Reg(next), |rows[other].tys|, 0, next + 1);
    ExecPoison(x, Reg(next), |rows[other].tys|, 0, next + 1, l.(regs := l.regs[next := Poison]));
  }

  /** How many instructions tagging and reading the tag take. */
  lemma TagElided(rows: seq<Row>, tag: nat, os: seq<Operand>, next: nat)
    requires tag < |rows| && |os| == |rows[tag].tys|
    ensures |TagPiece(rows, tag, os, next).value.line| == |os| + (if |rows| == 1 then 1 else 2)
    ensures forall v, n :: |GetTagPiece(rows, v, n).line| == (if |rows| == 1 then 0 else 1)
  {
  }

  /** Tagging and then taking apart: the tag that is read is the one given, its variant has the fields given, and
      every field of every other variant is poison.  With a single variant there is no tag field: none is written, and
      none is read, the tag being 0. */
  lemma SumRoundTrip(x: Sem, rows: seq<Row>, tag: nat, other: nat, os: seq<Operand>, next: nat, l: Local, ls: seq<LVal>)
    requires tag < |rows| && other < |rows| && |os| == |rows[tag].tys| && OpsAre(l, os, ls) && Below(os, next)
    ensures var p := TagPiece(rows, tag, os, next).value;
      && ExecSeq(x, p.line, l).Some?
      && var l1 := ExecSeq(x, p.line, l).value; var v := p.vals[0];
         var g, u := GetTagPiece(rows, v, p.next), UntagPiece(rows, other, v, p.next);
         && ExecSeq(x, g.line, l1).Some? && OpVal(ExecSeq(x, g.line, l1).value, g.vals[0]) == Some(LInt(tag))
         && ExecSeq(x, u.line, l1).Some?
         && (other == tag ==> OpsAre(ExecSeq(x, u.line, l1).value, u.vals, ls))
         && (other != tag ==> forall k :: 0 <= k < |u.vals| ==>
           OpVal(ExecSeq(x, u.line, l1).value, u.vals[k]) == Some(Poison))
         && |p.line| == |os| + (if |rows| == 1 then 1 else 2) && |g.line| == (if |rows| == 1 then 0 else 1)
         && (|rows| == 1 ==> OpVal(l1, v) == Some(LStruct([LStruct(ls)])))
  {
    hide InsertLine, UntagPiece, GetTagPiece, SumStruct, ExecSeq;
    TagElided(rows, tag, os, next);
    SumIsLaidOut(rows, tag, ls);
    ExecTag(x, rows, tag, os, next, l, ls);
    var p := TagPiece(rows, tag, os, next).value;
    var l1 := ExecSeq(x, p.line, l).value;
    ExecGetTag(x, rows, tag, p.vals[0], p.next, l1, ls);
    if other == tag {
      ExecUntag(x, rows, tag, p.vals[0], p.next, l1, ls);
    } else {
      ExecUntagOther(x, rows, tag, other, p.vals[0], p.next, l1, ls);
    }
  }

  // ----- constants -----

  lemma {:induction false} ExecConst(x: Sem, v: Val, next: nat, l: Local)
    requires ValidConst(v)
    ensures ConstPiece(v, next).Some?
    ensures var p := ConstPiece(v, next).value; var r := ExecSeq(x, p.line, l);
      && r.Some? && Computes(l, r.value, next) && OpVal(r.value, p.vals[0]) == Some(Enc(v))
      && next <= p.next && Below(p.vals, p.next)
    decreases v, 1
  {
    if v.SumV? {
      ExecConsts(x, v.vals, next, l);
      var p := ConstsPiece(v.vals, next).value;
      var l1 := ExecSeq(x, p.line, l).value;
      ExecTag(x, v.rows, v.tag, p.vals, p.next, l1, EncAll(v.vals));
      ExecConcat(x, p.line, TagPiece(v.rows, v.tag, p.vals, p.next).value.line, l);
    }
  }

  lemma {:induction false} ExecConsts(x: Sem, vs: seq<Val>, next: nat, l: Local)
    requires ValidConsts(vs)
    ensures ConstsPiece(vs, next).Some?
    ensures var p := ConstsPiece(vs, next).value; var r := ExecSeq(x, p.line, l);
      && r.Some? && Computes(l, r.value, next) && OpsAre(r.value, p.vals, EncAll(vs))
      && next <= p.next && Below(p.vals, p.next)
    decreases vs, 0
  {
    if vs != [] {
      ExecConst(x, vs[0], next, l);
      var p := ConstPiece(vs[0], next).value;
      var l1 := ExecSeq(x, p.line, l).value;
      ExecConsts(x, vs[1..], p.next, l1);
      var q := ConstsPiece(vs[1..], p.next).value;
      ExecConcat(x, p.line, q.line, l);
      var l2 := ExecSeq(x, q.line, l1).value;
      OpsKept(l1, l2, p.next, p.vals, [Enc(vs[0])]);
      forall i | 0 <= i < |vs| ensures OpVal(l2, (p.vals + q.vals)[i]) == Some(EncAll(vs)[i]) {
        if i > 0 {
          assert OpVal(l2, q.vals[i - 1]) == Some(EncAll(vs[1..])[i - 1]);
        }
      }
    }
  }
}
