/** Definitions come before uses on every path through an emitted function, whether or not any run takes it: every
    register is defined, and every mailbox written, before it is read. */
module Dominance {
  import opened Values
  import opened Machine
  import opened Places
  import Registers
  import opened Hugr
  import opened Arrays
  import opened Types
  import opened Typing
  import opened Builder
  import opened Emit
  import opened EmitLaws
  import opened SimBase
  import opened SimBranch
  import opened SimLocate
  import opened EmitParts
  import opened SimStep
  import opened SimGraphs

  /** In straight-line code that starts with `v` defined, every use comes after its definition. */
  predicate Ordered(b: seq<Instr>, v: set<Place>) {
    b == [] || (Uses(b[0]) <= v && Ordered(b[1..], v + Defs(b[0])))
  }

  function Slots(row: seq<nat>): set<Place> {
    set s | s in row :: InSlot(s)
  }

  // ----- the claim about paths -----

  /** A path through the blocks of a function. */
  predicate IsPath(code: Code, path: seq<nat>) {
    && |path| > 0 && (forall i :: 0 <= i < |path| ==> path[i] < |code|)
    && forall i :: 0 <= i < |path| - 1 ==> path[i + 1] in Succs(code[path[i]])
  }

  function DefsAlong(code: Code, path: seq<nat>): set<Place>
    requires forall i :: 0 <= i < |path| ==> path[i] < |code|
  {
    if path == [] then {} else DefsAlong(code, path[..|path| - 1]) + DefsOf(code[path[|path| - 1]])
  }

  /** What each block may rely on at its start. */
  type Ann = seq<set<Place>>

  /** A block that may rely on `v` uses nothing else, and jumps only to blocks that rely on no more than it leaves. */
  ghost predicate BlockSound(block: Block, v: set<Place>, av: Ann) {
    Ordered(block, v) && forall t :: t in Succs(block) ==> t < |av| && av[t] <= v + DefsOf(block)
  }

  ghost predicate SoundCode(code: Code, av: Ann) {
    |av| == |code| && forall b :: 0 <= b < |av| ==> BlockSound(code[b], av[b], av)
  }

  /** What a block relies on has been defined along every path to it. */
  lemma {:induction false} DefinedAlong(code: Code, av: Ann, path: seq<nat>)
    requires SoundCode(code, av) && IsPath(code, path) && av[path[0]] == {}
    ensures av[path[|path| - 1]] <= DefsAlong(code, path[..|path| - 1])
    decreases path
  {
    if |path| > 1 {
      var p := path[..|path| - 1];
      assert IsPath(code, p) by {
        forall i | 0 <= i < |p| - 1 ensures p[i + 1] in Succs(code[p[i]]) {
          assert path[i + 1] in Succs(code[path[i]]);
        }
      }
      DefinedAlong(code, av, p);
      assert BlockSound(code[p[|p| - 1]], av[p[|p| - 1]], av);
      assert path[|p| - 1 + 1] in Succs(code[path[|p| - 1]]);
    }
  }

  lemma {:induction false} OrderedAt(b: seq<Instr>, v: set<Place>, j: nat)
    requires Ordered(b, v) && j < |b|
    ensures Uses(b[j]) <= v + DefsOf(b[..j])
    decreases b
  {
    if j > 0 {
      OrderedAt(b[1..], v + Defs(b[0]), j - 1);
      assert b[..j][1..] == b[1..][..j - 1];
    }
  }

  // ----- straight-line code -----

  lemma {:induction false} DefsConcat(a: seq<Instr>, b: seq<Instr>)
    ensures DefsOf(a + b) == DefsOf(a) + DefsOf(b) && Succs(a + b) == Succs(a) + Succs(b)
    decreases a
  {
    if a == [] {
      assert a + b == b;
    } else {
      assert (a + b)[1..] == a[1..] + b;
      DefsConcat(a[1..], b);
    }
  }

  lemma {:induction false} OrderedConcat(a: seq<Instr>, b: seq<Instr>, v: set<Place>)
    requires Ordered(a, v) && Ordered(b, v + DefsOf(a))
    ensures Ordered(a + b, v)
    decreases a
  {
    if a == [] {
      assert a + b == b && v + DefsOf(a) == v;
    } else {
      assert (a + b)[1..] == a[1..] + b;
      assert v + DefsOf(a) == v + Defs(a[0]) + DefsOf(a[1..]);
      OrderedConcat(a[1..], b, v + Defs(a[0]));
    }
  }

  lemma {:induction false} OpenSuccs(b: seq<Instr>)
    requires Open(b)
    ensures Succs(b) == {}
  {
    if b != [] {
      forall i | 0 <= i < |b[1..]| ensures !IsTerminator(b[1..][i]) {
        assert b[1..][i] == b[i + 1];
      }
      assert !IsTerminator(b[0]);
      OpenSuccs(b[1..]);
    }
  }

  lemma {:induction false} AllocasOrdered(b: seq<Instr>, v: set<Place>)
    requires forall i :: 0 <= i < |b| ==> b[i].Alloca?
    ensures Ordered(b, v) && DefsOf(b) == {} && Succs(b) == {}
  {
    if b != [] {
      assert v + Defs(b[0]) == v;
      AllocasOrdered(b[1..], v);
    }
  }

  lemma {:induction false} LoadsOrdered(row: seq<nat>, next: nat, v: set<Place>)
    requires Slots(row) <= v
    ensures Ordered(LoadLine(row, next), v) && UsesAll(Regs(next, |row|)) <= DefsOf(LoadLine(row, next))
    decreases row
  {
    if row != [] {
      var line := LoadLine(row, next);
      assert InSlot(row[0]) in Slots(row);
      forall s | s in row[1..] ensures InSlot(s) in v { assert InSlot(s) in Slots(row); }
      LoadsOrdered(row[1..], next + 1, v + Defs(line[0]));
      assert line[1..] == LoadLine(row[1..], next + 1);
      forall o | o in Regs(next, |row|) && o.Reg? ensures InReg(o.r) in DefsOf(line) {
        if o.r != next {
          var k :| 0 <= k < |row| && Regs(next, |row|)[k] == o;
          assert o == Regs(next + 1, |row| - 1)[k - 1];
          assert InReg(o.r) in UsesAll(Regs(next + 1, |row| - 1));
        }
      }
    }
  }

  lemma {:induction false} StoresOrdered(row: seq<nat>, vals: seq<Operand>, v: set<Place>)
    requires UsesAll(vals) <= v && |row| == |vals|
    ensures Ordered(StoreLine(row, vals), v) && Slots(row) <= DefsOf(StoreLine(row, vals))
    decreases row
  {
    if row != [] {
      var line := StoreLine(row, vals);
      if vals[0].Reg? { assert InReg(vals[0].r) in UsesAll(vals); }
      forall o | o in vals[1..] && o.Reg? ensures InReg(o.r) in v { assert InReg(o.r) in UsesAll(vals); }
      StoresOrdered(row[1..], vals[1..], v + Defs(line[0]));
      assert line[1..] == StoreLine(row[1..], vals[1..]);
      forall s | s in row ensures InSlot(s) in DefsOf(line) {
        if s != row[0] { assert s in row[1..]; assert InSlot(s) in Slots(row[1..]); }
      }
    }
  }

  lemma {:induction false} InsertsOrdered(agg: Operand, vs: seq<Operand>, i: nat, next: nat, v: set<Place>)
    requires UsesOf(agg) + UsesAll(vs) <= v
    ensures Ordered(InsertLine(agg, vs, i, next), v)
    ensures UsesOf(LastReg(agg, |vs|, next)) <= v + DefsOf(InsertLine(agg, vs, i, next))
    decreases vs
  {
    if vs != [] {
      var line := InsertLine(agg, vs, i, next);
      if vs[0].Reg? { assert InReg(vs[0].r) in UsesAll(vs); }
      forall o | o in vs[1..] && o.Reg? ensures InReg(o.r) in v { assert InReg(o.r) in UsesAll(vs); }
      InsertsOrdered(Reg(next), vs[1..], i + 1, next + 1, v + Defs(line[0]));
      assert line[1..] == InsertLine(Reg(next), vs[1..], i + 1, next + 1);
      assert LastReg(agg, |vs|, next) == LastReg(Reg(next), |vs| - 1, next + 1);
    }
  }

  lemma {:induction false} ExtractsOrdered(agg: Operand, n: nat, i: nat, next: nat, v: set<Place>)
    requires UsesOf(agg) <= v
    ensures Ordered(ExtractLine(agg, n, i, next), v) && UsesAll(Regs(next, n)) <= DefsOf(ExtractLine(agg, n, i, next))
    decreases n
  {
    if n != 0 {
      var line := ExtractLine(agg, n, i, next);
      ExtractsOrdered(agg, n - 1, i + 1, next + 1, v + Defs(line[0]));
      assert line[1..] == ExtractLine(agg, n - 1, i + 1, next + 1);
      forall o | o in Regs(next, n) && o.Reg? ensures InReg(o.r) in DefsOf(line) {
        if o.r != next {
          var k :| 0 <= k < n && Regs(next, n)[k] == o;
          assert o == Regs(next + 1, n - 1)[k - 1];
          assert InReg(o.r) in UsesAll(Regs(next + 1, n - 1));
        }
      }
    }
  }

  /** A piece of code that can run once `v` is defined, and leaves its operands defined. */
  ghost predicate PieceOrdered(p: Piece, v: set<Place>) {
    Ordered(p.line, v) && UsesAll(p.vals) <= v + DefsOf(p.line)
  }

  lemma UsesConcat(a: seq<Operand>, b: seq<Operand>)
    ensures UsesAll(a + b) == UsesAll(a) + UsesAll(b)
  {
  }

  lemma OneUse(o: Operand)
    ensures UsesAll([o]) == UsesOf(o)
  {
    if o.Reg? { assert o in [o]; }
  }

  lemma OneOrdered(i: Instr, v: set<Place>)
    requires Uses(i) <= v
    ensures Ordered([i], v) && DefsOf([i]) == Defs(i) && Succs([i]) == Jumps(i)
  {
    assert [i][1..] == [];
  }

  lemma TagOrdered(rows: seq<Row>, tag: nat, vs: seq<Operand>, next: nat, v: set<Place>)
    requires tag < |rows| && |vs| == |rows[tag].tys| && UsesAll(vs) <= v
    ensures PieceOrdered(TagPiece(rows, tag, vs, next).value, v)
  {
    hide InsertLine;
    var row0 := Const(LStruct(seq(|vs|, _ => Undef)));
    var a := InsertLine(row0, vs, 0, next);
    InsertsOrdered(row0, vs, 0, next, v);
    var p := TagPiece(rows, tag, vs, next).value;
    var n1 := next + |vs|;
    var b := if HasTagField(rows) then [Insert(n1, Const(PoisonSum(rows)), Const(LInt(tag)), 0)] else [];
    if b != [] { OneOrdered(b[0], v + DefsOf(a)); }
    OrderedConcat(a, b, v);
    DefsConcat(a, b);
    var last := p.line[|p.line| - 1];
    assert p.line == a + b + [last];
    OneOrdered(last, v + DefsOf(a + b));
    OrderedConcat(a + b, [last], v);
    DefsConcat(a + b, [last]);
    OneUse(p.vals[0]);
  }

  lemma UntagOrdered(rows: seq<Row>, tag: nat, o: Operand, next: nat, v: set<Place>)
    requires tag < |rows| && UsesOf(o) <= v
    ensures PieceOrdered(UntagPiece(rows, tag, o, next), v)
  {
    var p := UntagPiece(rows, tag, o, next);
    var first, rest := p.line[0], ExtractLine(Reg(next), |rows[tag].tys|, 0, next + 1);
    OneOrdered(first, v);
    ExtractsOrdered(Reg(next), |rows[tag].tys|, 0, next + 1, v + DefsOf([first]));
    OrderedConcat([first], rest, v);
    DefsConcat([first], rest);
  }

  lemma GetTagOrdered(rows: seq<Row>, o: Operand, next: nat, v: set<Place>)
    requires UsesOf(o) <= v
    ensures PieceOrdered(GetTagPiece(rows, o, next), v)
  {
    if HasTagField(rows) { OneOrdered(Extract(next, o, 0), v); }
    OneUse(GetTagPiece(rows, o, next).vals[0]);
  }

  lemma UnpackOrdered(n: nat, next: nat, v: set<Place>)
    requires next > 0 && InReg(next - 1) in v
    ensures PieceOrdered(UnpackPiece(n, next), v)
  {
    if n >= 2 { ExtractsOrdered(Reg(next - 1), n, 0, next, v); }
    if n == 1 { OneUse(Reg(next - 1)); }
  }

  lemma CallOrdered(callee: Operand, args: seq<Operand>, n: nat, next: nat, v: set<Place>)
    requires UsesOf(callee) + UsesAll(args) <= v
    ensures PieceOrdered(CallPiece(callee, args, n, next), v)
  {
    var i := Machine.Call(next, callee, args);
    var p := UnpackPiece(n, next + 1);
    OneOrdered(i, v);
    UnpackOrdered(n, next + 1, v + DefsOf([i]));
    OrderedConcat([i], p.line, v);
    DefsConcat([i], p.line);
  }

  lemma {:induction false} ConstOrdered(x: Val, next: nat, v: set<Place>)
    requires ValidConst(x)
    ensures ConstPiece(x, next).Some? && PieceOrdered(ConstPiece(x, next).value, v)
    decreases x, 1
  {
    if x.SumV? {
      ConstsOrdered(x.vals, next, v);
      var p := ConstsPiece(x.vals, next).value;
      TagOrdered(x.rows, x.tag, p.vals, p.next, v + DefsOf(p.line));
      var q := TagPiece(x.rows, x.tag, p.vals, p.next).value;
      OrderedConcat(p.line, q.line, v);
      DefsConcat(p.line, q.line);
    } else {
      OneUse(ConstPiece(x, next).value.vals[0]);
    }
  }

  lemma {:induction false} ConstsOrdered(xs: seq<Val>, next: nat, v: set<Place>)
    requires ValidConsts(xs)
    ensures ConstsPiece(xs, next).Some? && PieceOrdered(ConstsPiece(xs, next).value, v)
    decreases xs, 0
  {
    if xs != [] {
      ConstOrdered(xs[0], next, v);
      var p := ConstPiece(xs[0], next).value;
      ConstsOrdered(xs[1..], p.next, v + DefsOf(p.line));
      var q := ConstsPiece(xs[1..], p.next).value;
      OrderedConcat(p.line, q.line, v);
      DefsConcat(p.line, q.line);
      UsesConcat(p.vals, q.vals);
    }
  }

  // ----- edits -----

  /** What is defined where the builder is. */
  function Avail(st: ES, av: Ann): set<Place> {
    if st.cur < |av| && st.cur < |st.code| then av[st.cur] + DefsOf(st.code[st.cur]) else {}
  }

  ghost predicate Sound(st: ES, av: Ann) {
    true == (Inv(st) && SoundCode(st.code, av))
  }

  ghost predicate Widens(a: Ann, b: Ann) {
    true == (|a| <= |b| && forall i :: 0 <= i < |a| ==> b[i] == a[i])
  }

  /** Emission from `st` to `t` keeps the code sound, and loses nothing that was defined at the builder. */
  ghost predicate Grows(st: ES, t: ES, av: Ann, av': Ann) {
    true == (Sound(t, av') && Widens(av, av') && Avail(st, av) <= Avail(t, av'))
  }

  lemma GrowsTrans(a: ES, b: ES, c: ES, x: Ann, y: Ann, z: Ann)
    requires Grows(a, b, x, y) && Grows(b, c, y, z)
    ensures Grows(a, c, x, z)
  {
    hide Sound, Avail;
  }

  lemma GrowsFacts(a: ES, b: ES, x: Ann, y: Ann)
    requires Grows(a, b, x, y)
    ensures Sound(b, y) && Widens(x, y) && Avail(a, x) <= Avail(b, y)
  {
  }

  lemma AllocaBlock(st: ES, v: set<Place>, av: Ann)
    requires Inv(st)
    ensures BlockSound(st.code[0], v, av)
  {
    AllocasOrdered(st.code[0], v);
  }

  lemma BlockAt(st: ES, av: Ann, b: nat)
    requires Sound(st, av) && b < |av|
    ensures |av| == |st.code| && BlockSound(st.code[b], av[b], av)
  {
    hide BlockSound, Inv;
  }

  lemma BlockWider(block: Block, v: set<Place>, av: Ann, av': Ann)
    requires BlockSound(block, v, av) && Widens(av, av')
    ensures BlockSound(block, v, av')
  {
    hide Ordered, Succs, DefsOf;
  }

  lemma BlockAppended(block: Block, line: seq<Instr>, v: set<Place>, av: Ann)
    requires BlockSound(block, v, av) && BlockSound(line, v + DefsOf(block), av)
    ensures BlockSound(block + line, v, av) && DefsOf(block + line) == DefsOf(block) + DefsOf(line)
  {
    hide Ordered, Succs, DefsOf;
    DefsConcat(block, line);
    OrderedConcat(block, line, v);
  }

  /** Code is appended at the builder; jumps only go where enough is defined. */
  lemma Appended(st: ES, t: ES, line: seq<Instr>, av: Ann)
    requires Sound(st, av) && Inv(t) && Mod(st, t, {st.cur}) && |t.code| == |st.code| && t.cur == st.cur
    requires t.code[st.cur] == st.code[st.cur] + line && BlockSound(line, Avail(st, av), av)
    ensures Sound(t, av) && Avail(t, av) == Avail(st, av) + DefsOf(line)
    ensures Grows(st, t, av, av)
  {
    hide LayoutOk, JumpsOk, EnvOk, BlockSound, DefsOf;
    forall b | 0 <= b < |av| ensures BlockSound(t.code[b], av[b], av) {
      BlockAt(st, av, b);
      if b == 0 { AllocaBlock(t, av[0], av); }
      if b == st.cur { BlockAppended(st.code[b], line, av[b], av); }
    }
    BlockAt(st, av, st.cur);
    BlockAppended(st.code[st.cur], line, av[st.cur], av);
  }

  /** One new block, which may rely on `x`. */
  lemma OneMore(st: ES, t: ES, av: Ann, x: set<Place>, block: Block)
    requires Sound(st, av) && Inv(t) && Mod(st, t, {}) && |t.code| == |st.code| + 1 && t.code[|st.code|] == block
    requires BlockSound(block, x, av)
    ensures Sound(t, av + [x]) && Widens(av, av + [x])
    ensures t.cur == st.cur ==> Avail(t, av + [x]) == Avail(st, av)
    ensures t.cur == |st.code| ==> Avail(t, av + [x]) == x + DefsOf(block)
  {
    hide LayoutOk, JumpsOk, EnvOk, BlockSound, DefsOf;
    var av' := av + [x];
    assert Widens(av, av');
    forall b | 0 <= b < |av'| ensures BlockSound(t.code[b], av'[b], av') {
      if b == |av| {
        BlockWider(block, x, av, av');
      } else {
        BlockAt(st, av, b);
        if b == 0 { AllocaBlock(t, av'[0], av'); } else { BlockWider(t.code[b], av'[b], av, av'); }
      }
    }
  }

  /** New empty blocks may rely on anything, as long as nothing jumps to them. */
  lemma NewEmpty(st: ES, t: ES, av: Ann, av': Ann)
    requires Sound(st, av) && Prepares(st, t) && Widens(av, av') && |av'| == |t.code|
    ensures Sound(t, av') && Avail(t, av') == Avail(st, av) && Grows(st, t, av, av')
  {
    hide LayoutOk, JumpsOk, EnvOk, BlockSound, DefsOf;
    forall b | 0 <= b < |av'| ensures BlockSound(t.code[b], av'[b], av') {
      if b < |av| {
        BlockAt(st, av, b);
        if b == 0 { AllocaBlock(t, av'[0], av'); } else { BlockWider(t.code[b], av'[b], av, av'); }
      } else {
        EmptyBlock(av'[b], av');
      }
    }
  }

  lemma EmptyBlock(v: set<Place>, av: Ann)
    ensures BlockSound([], v, av)
  {
  }

  lemma Moved(st: ES, b: nat, av: Ann)
    requires Sound(st, av) && 1 <= b < |st.code|
    ensures Sound(At(st, b), av) && Avail(At(st, b), av) == av[b] + DefsOf(st.code[b])
  {
    hide LayoutOk, JumpsOk, EnvOk, DefsOf, Ordered, Succs;
    AtLaws(st, b);
  }

  // ----- scopes and rows -----

  /** The mailboxes of the wires in scope have been written. */
  ghost predicate Has(c: Ctx, g: Scope, v: set<Place>) {
    true == (forall x :: x in g && x in c.fin.env ==> InSlot(c.fin.env[x]) in v)
  }

  lemma HasMore(c: Ctx, g: Scope, v: set<Place>, v': set<Place>)
    requires Has(c, g, v) && v <= v'
    ensures Has(c, g, v')
  {
  }

  lemma HasLess(c: Ctx, g: Scope, h: Scope, v: set<Place>)
    requires Has(c, g, v) && h.Items <= g.Items
    ensures Has(c, h, v)
  {
    forall x | x in h && x in c.fin.env ensures InSlot(c.fin.env[x]) in v {
      assert (x, h[x]) in h.Items;
    }
  }

  lemma HasOuts(c: Ctx, g: Scope, n: Node, outs: seq<nat>, v: set<Place>)
    requires Has(c, g, v) && OutRow(c, n.id, outs) && |outs| == |n.outs| && Slots(outs) <= v
    ensures Has(c, AddOuts(g, n), v)
  {
    forall x | x in AddOuts(g, n) && x in c.fin.env ensures InSlot(c.fin.env[x]) in v {
      if x.node == n.id && x.port < |outs| {
        assert OutWires(n.id, |outs|)[x.port] == x && x == Wire(n.id, x.port);
        assert outs[x.port] in outs;
        assert InSlot(outs[x.port]) in Slots(outs);
      }
    }
  }

  lemma ScopeSlots(c: Ctx, s: ES, g: Scope, ws: seq<Wire>, tys: seq<Ty>, v: set<Place>)
    requires Has(c, g, v) && InScope(g, ws, tys) && Later(s, c.fin) && Mapped(ws, s.env)
    ensures Slots(RowOf(s.env, ws)) <= v
  {
    SameRow(s, c.fin, ws);
    forall q | q in RowOf(s.env, ws) ensures InSlot(q) in v {
      var i :| 0 <= i < |ws| && RowOf(c.fin.env, ws)[i] == q;
      assert ws[i] in ws && ws[i] in g;
    }
  }

  // ----- straight-line emission -----

  lemma LineSound(line: seq<Instr>, v: set<Place>, av: Ann)
    requires Ordered(line, v) && Open(line)
    ensures BlockSound(line, v, av)
  {
    OpenSuccs(line);
  }

  lemma PutGrows(st: ES, line: seq<Instr>, next: nat, av: Ann)
    requires Ready(st) && Sound(st, av) && Open(line) && st.regs <= next && Ordered(line, Avail(st, av))
    ensures Grows(st, Put(st, line, next), av, av) && Avail(Put(st, line, next), av) == Avail(st, av) + DefsOf(line)
  {
    hide Inv, Ordered, DefsOf, Avail, Open, Put;
    PutEmits(st, line, next);
    LineSound(line, Avail(st, av), av);
    ModOf(st, Put(st, line, next));
    Appended(st, Put(st, line, next), line, av);
  }

  lemma ModOf(a: ES, b: ES)
    requires Emits(a, b)
    ensures Inv(b) && Mod(a, b, {a.cur}) && Ready(b)
  {
  }

  lemma WriteGrows(st: ES, row: seq<nat>, vals: seq<Operand>, av: Ann)
    requires Ready(st) && Sound(st, av) && |row| == |vals| && UsesAll(vals) <= Avail(st, av)
    ensures Grows(st, WriteRow(st, row, vals), av, av) && Slots(row) <= Avail(WriteRow(st, row, vals), av)
  {
    hide Inv, Ordered, DefsOf, Avail, Open, Put;
    StoreLineOpen(row, vals);
    StoresOrdered(row, vals, Avail(st, av));
    PutGrows(st, StoreLine(row, vals), st.regs, av);
  }

  lemma ReadGrows(st: ES, row: seq<nat>, av: Ann)
    requires Ready(st) && Sound(st, av) && Slots(row) <= Avail(st, av)
    ensures Grows(st, PutPiece(st, ReadRow(row, st.regs)), av, av)
    ensures UsesAll(Regs(st.regs, |row|)) <= Avail(PutPiece(st, ReadRow(row, st.regs)), av)
  {
    hide Inv, Ordered, DefsOf, Avail, Open, Put;
    LoadLineOpen(row, st.regs);
    LoadsOrdered(row, st.regs, Avail(st, av));
    PutGrows(st, LoadLine(row, st.regs), st.regs + |row|, av);
  }

  lemma FinishGrows(st: ES, p: Piece, outs: seq<nat>, av: Ann)
    requires Ready(st) && Sound(st, av) && PieceOk(p, st.regs, |outs|) && PieceOrdered(p, Avail(st, av))
    ensures Grows(st, Finish(st, Some(p), outs), av, av) && Slots(outs) <= Avail(Finish(st, Some(p), outs), av)
  {
    hide Inv, Ordered, DefsOf, Avail, Open, Put;
    var line := p.line + StoreLine(outs, p.vals);
    FinishEmits(st, p, outs);
    StoreLineOpen(outs, p.vals);
    OpenConcat(p.line, StoreLine(outs, p.vals));
    StoresOrdered(outs, p.vals, Avail(st, av) + DefsOf(p.line));
    OrderedConcat(p.line, StoreLine(outs, p.vals), Avail(st, av));
    DefsConcat(p.line, StoreLine(outs, p.vals));
    PutGrows(st, line, p.next, av);
  }

  lemma PreludeGrows(c: Ctx, st: ES, n: Node, g: Scope, av: Ann)
    requires Ready(st) && Sound(st, av) && InScope(g, n.ins, n.inTys) && Has(c, g, Avail(st, av))
    requires Later(Prelude(st, n), c.fin)
    ensures Grows(st, Prelude(st, n), av, av) && UsesAll(Regs(st.regs, |n.ins|)) <= Avail(Prelude(st, n), av)
  {
    hide Inv, Ordered, DefsOf, Avail, Open, Prelude, Mod, Shut, Later, Has, Mapped, Closed, InScope;
    ScopeLen(g, n.ins, n.inTys);
    PreludeEmits(st, n);
    var s := Prelude(st, n);
    ModOf(st, s);
    var row := RowOf(s.env, n.ins);
    ScopeSlots(c, s, g, n.ins, n.inTys, Avail(st, av));
    LoadsOrdered(row, st.regs, Avail(st, av));
    LoadLineOpen(row, st.regs);
    LineSound(LoadLine(row, st.regs), Avail(st, av), av);
    Appended(st, s, LoadLine(row, st.regs), av);
  }

  lemma ScopeLen(g: Scope, ws: seq<Wire>, tys: seq<Ty>)
    requires InScope(g, ws, tys)
    ensures |ws| == |tys|
  {
  }

  // ----- branching -----

  /** The targets of a branch rely on no more than `x` and their own mailboxes. */
  ghost predicate TargetsRely(targets: seq<Target>, av: Ann, x: set<Place>) {
    true == (forall i :: 0 <= i < |targets| ==>
      targets[i].blk < |av| && av[targets[i].blk] <= x + Slots(targets[i].row))
  }

  lemma TargetsWider(targets: seq<Target>, av: Ann, av': Ann, x: set<Place>, x': set<Place>)
    requires TargetsRely(targets, av, x) && Widens(av, av') && x <= x'
    ensures TargetsRely(targets, av', x')
  {
  }

  lemma ArmSound(rows: seq<Row>, v: Operand, rest: seq<Operand>, t: Target, tag: nat, next: nat, av: Ann, x: set<Place>)
    requires tag < |rows| && |t.row| == |rows[tag].tys| + |rest| && UsesOf(v) + UsesAll(rest) <= x
    requires t.blk < |av| && av[t.blk] <= x + Slots(t.row)
    ensures BlockSound(ArmLine(rows, v, rest, t, tag, next) + [Br(t.blk)], x, av)
  {
    hide Ordered, DefsOf, Succs;
    var p := UntagPiece(rows, tag, v, next);
    var stores := StoreLine(t.row, p.vals + rest);
    UntagOrdered(rows, tag, v, next, x);
    UntagPieceOk(rows, tag, v, next);
    UsesConcat(p.vals, rest);
    StoresOrdered(t.row, p.vals + rest, x + DefsOf(p.line));
    StoreLineOpen(t.row, p.vals + rest);
    OpenConcat(p.line, stores);
    OrderedConcat(p.line, stores, x);
    DefsConcat(p.line, stores);
    LineSound(p.line + stores, x, av);
    OneOrdered(Br(t.blk), x + DefsOf(p.line + stores));
    BlockAppended(p.line + stores, [Br(t.blk)], x, av);
  }

  /** `n` more blocks that may rely on `x`. */
  function Pad(av: Ann, x: set<Place>, n: nat): (r: Ann)
    ensures |r| == |av| + n
  {
    av + seq(n, _ => x)
  }

  lemma PadWidens(av: Ann, x: set<Place>, n: nat)
    ensures Widens(av, Pad(av, x, n)) && forall k :: |av| <= k < |av| + n ==> Pad(av, x, n)[k] == x
  {
  }

  lemma PadMore(av: Ann, x: set<Place>, n: nat)
    requires n > 0
    ensures Pad(av + [x], x, n - 1) == Pad(av, x, n)
  {
  }

  lemma ArmDom(st: ES, rows: seq<Row>, v: Operand, rest: seq<Operand>, t: Target, i: nat, last: nat, av: Ann,
               x: set<Place>)
    requires Sound(st, av) && i < |rows| && |t.row| == |rows[i].tys| + |rest| && 0 < t.blk < |st.code|
    requires UsesOf(v) + UsesAll(rest) <= x && t.blk < |av| && av[t.blk] <= x + Slots(t.row)
    ensures Sound(Terminate(Arm(st, rows, v, rest, t, i, last), Br(t.blk)), av + [x])
    ensures |Terminate(Arm(st, rows, v, rest, t, i, last), Br(t.blk)).code| == |st.code| + 1
  {
    hide Inv, Later, Mod, Shut, BlockSound, UntagPiece, WriteRow, ArmLine, Terminate, Arm, Avail, Ordered, DefsOf,
      Widens;
    SoundInv(st, av);
    ArmCode(st, rows, v, rest, t, i, last);
    ArmCloses(st, rows, v, rest, t, i, last);
    var s := Terminate(Arm(st, rows, v, rest, t, i, last), Br(t.blk));
    ArmSound(rows, v, rest, t, i, st.regs, av, x);
    OneMore(st, s, av, x, ArmLine(rows, v, rest, t, i, st.regs) + [Br(t.blk)]);
  }

  lemma {:induction false} ArmsDom(st: ES, rows: seq<Row>, v: Operand, rest: seq<Operand>, targets: seq<Target>, i: nat,
                                   last: nat, av: Ann, x: set<Place>)
    requires Sound(st, av) && i <= |rows| && TargetsOk(rows, targets, |rest|, |st.code|)
    requires UsesOf(v) + UsesAll(rest) <= x && TargetsRely(targets, av, x)
    ensures Sound(Arms(st, rows, v, rest, targets, i, last).0, Pad(av, x, |rows| - i))
    decreases |rows| - i
  {
    hide Sound, Arm, Terminate, Pad, TargetsRely, NewBlock, PutPiece, WriteRow, UntagPiece, At;
    if i == |rows| {
      assert Pad(av, x, 0) == av by { NoPad(av, x); }
    } else {
      OneTarget(targets, av, x, i);
      ArmDom(st, rows, v, rest, targets[i], i, last, av, x);
      var s := Terminate(Arm(st, rows, v, rest, targets[i], i, last), Br(targets[i].blk));
      WidensMore(av, x);
      TargetsWider(targets, av, av + [x], x, x);
      ArmsDom(s, rows, v, rest, targets, i + 1, |st.code|, av + [x], x);
      PadMore(av, x, |rows| - i);
      ArmsUnfold(st, rows, v, rest, targets, i, last);
    }
  }

  lemma NoPad(av: Ann, x: set<Place>)
    ensures Pad(av, x, 0) == av
  {
  }

  lemma ArmsUnfold(st: ES, rows: seq<Row>, v: Operand, rest: seq<Operand>, targets: seq<Target>, i: nat, last: nat)
    requires i < |rows| && i < |targets|
    ensures var s := Terminate(Arm(st, rows, v, rest, targets[i], i, last), Br(targets[i].blk));
      Arms(st, rows, v, rest, targets, i, last).0 == Arms(s, rows, v, rest, targets, i + 1, |st.code|).0
  {
    hide Terminate, NewBlock, WriteRow, UntagPiece;
  }

  lemma OneTarget(targets: seq<Target>, av: Ann, x: set<Place>, i: nat)
    requires TargetsRely(targets, av, x) && i < |targets|
    ensures targets[i].blk < |av| && av[targets[i].blk] <= x + Slots(targets[i].row)
  {
  }

  lemma WidensMore(av: Ann, x: set<Place>)
    ensures Widens(av, av + [x])
  {
  }

  lemma WidensTrans(a: Ann, b: Ann, c: Ann)
    requires Widens(a, b) && Widens(b, c)
    ensures Widens(a, c)
  {
  }

  lemma WidensAt(a: Ann, b: Ann, i: nat)
    requires Widens(a, b) && i < |a|
    ensures |a| <= |b| && b[i] == a[i]
  {
  }

  lemma SoundInv(st: ES, av: Ann)
    requires Sound(st, av)
    ensures Inv(st) && |av| == |st.code|
  {
  }

  lemma SwitchJumps(tag: Operand, blk: nat, n: nat, b: nat)
    requires n > 0 && b in Jumps(Switch(tag, CaseList(0, blk, n)[0].1, CaseList(0, blk, n)[1..]))
    ensures blk <= b < blk + n
  {
    forall k | 0 <= k < n ensures CaseList(0, blk, n)[k].1 == blk + k { CaseListAt(0, blk, n, k); }
  }

  lemma DestructureDom(st: ES, rows: seq<Row>, v: Operand, rest: seq<Operand>, targets: seq<Target>, av: Ann)
    returns (av': Ann)
    requires Ready(st) && Sound(st, av) && rows != [] && TargetsOk(rows, targets, |rest|, |st.code|)
    requires UsesOf(v) + UsesAll(rest) <= Avail(st, av) && TargetsRely(targets, av, Avail(st, av))
    ensures Sound(Destructure(st, rows, v, rest, targets), av') && Widens(av, av')
  {
    hide Inv, Later, Arms, BlockSound, CaseList, GetTagPiece, Ordered, DefsOf, Open, Closed, Shut, Pad;
    var x := Avail(st, av);
    ArmsDom(st, rows, v, rest, targets, 0, st.cur, av, x);
    av' := Pad(av, x, |rows|);
    PadWidens(av, x, |rows|);
    ArmsLaws(st, rows, v, rest, targets, 0, st.cur);
    var r, t := At(Arms(st, rows, v, rest, targets, 0, st.cur).0, st.cur), Destructure(st, rows, v, rest, targets);
    SoundInv(st, av);
    CurIn(st);
    Moved(Arms(st, rows, v, rest, targets, 0, st.cur).0, st.cur, av');
    SwitchPart(st, rows, v, rest, targets);
    var next := r.regs;
    var p, cs := GetTagPiece(rows, v, next), CaseList(0, |st.code|, |rows|);
    var sw := Switch(p.vals[0], cs[0].1, cs[1..]);
    GetTagOrdered(rows, v, next, Avail(r, av'));
    SwitchSound(rows, v, next, |st.code|, |rows|, Avail(r, av'), av', x);
    Appended(r, t, p.line + [sw], av');
  }

  lemma SwitchPart(st: ES, rows: seq<Row>, v: Operand, rest: seq<Operand>, targets: seq<Target>)
    requires Ready(st) && rows != [] && TargetsOk(rows, targets, |rest|, |st.code|)
    ensures var r, t := At(Arms(st, rows, v, rest, targets, 0, st.cur).0, st.cur),
      Destructure(st, rows, v, rest, targets);
      var p, cs := GetTagPiece(rows, v, r.regs), CaseList(0, |st.code|, |rows|);
      && Inv(t) && Mod(r, t, {r.cur}) && |t.code| == |r.code| && t.cur == r.cur == st.cur < |r.code|
      && r.code[st.cur] == st.code[st.cur]
      && t.code[r.cur] == r.code[r.cur] + (p.line + [Switch(p.vals[0], cs[0].1, cs[1..])])
  {
    hide Arms, LayoutOk, EnvOk, JumpsOk, Shut;
    ArmsLaws(st, rows, v, rest, targets, 0, st.cur);
    ArmsCases(st, rows, v, rest, targets, 0, st.cur);
    var a := Arms(st, rows, v, rest, targets, 0, st.cur);
    var r := At(a.0, st.cur);
    AtLaws(a.0, st.cur);
    assert r.code[st.cur] == st.code[st.cur];
    var p := GetTagPiece(rows, v, r.regs);
    var sw := Switch(p.vals[0], a.1[0].1, a.1[1..]);
    SwitchOk(p.vals[0], |st.code|, |rows|, |r.code|);
    PutTerminate(r, p.line, p.next, sw);
    assert r.code[st.cur] + p.line + [sw] == r.code[st.cur] + (p.line + [sw]);
  }

  lemma SwitchSound(rows: seq<Row>, v: Operand, next: nat, blk: nat, n: nat, y: set<Place>, av: Ann, x: set<Place>)
    requires n > 0 && x <= y && blk + n <= |av| && (forall k :: blk <= k < blk + n ==> av[k] == x)
    requires PieceOrdered(GetTagPiece(rows, v, next), y)
    ensures var p, cs := GetTagPiece(rows, v, next), CaseList(0, blk, n);
      BlockSound(p.line + [Switch(p.vals[0], cs[0].1, cs[1..])], y, av)
  {
    hide Ordered, DefsOf, Succs, CaseList, Jumps;
    var p, cs := GetTagPiece(rows, v, next), CaseList(0, blk, n);
    var sw := Switch(p.vals[0], cs[0].1, cs[1..]);
    LineSound(p.line, y, av);
    OneUse(p.vals[0]);
    assert [p.vals[0]] == p.vals;
    OneOrdered(sw, y + DefsOf(p.line));
    forall b | b in Jumps(sw) ensures b < |av| && av[b] <= y { SwitchJumps(p.vals[0], blk, n, b); }
    BlockAppended(p.line, [sw], y, av);
  }

  // ----- regions -----

  lemma GrowsSelf(st: ES, av: Ann)
    requires Sound(st, av)
    ensures Grows(st, st, av, av)
  {
    hide Sound, Avail;
  }

  lemma {:induction false} NodesDom(c: Ctx, st: ES, nodes: seq<Node>, inputs: seq<Operand>, promise: seq<nat>,
                                    ws: seq<Wire>, g: Scope, ins: seq<Ty>, outs: seq<Ty>, av: Ann) returns (av': Ann)
    requires ValidNodes(nodes, |inputs|, ws) && TypedNodes(c.w, nodes, g, ins, outs) && |promise| == |ws|
    requires Ready(st) && Sound(st, av) && Later(EmitNodes(st, nodes, inputs, promise), c.fin)
    requires UsesAll(inputs) <= Avail(st, av) && Has(c, g, Avail(st, av))
    ensures Grows(st, EmitNodes(st, nodes, inputs, promise), av, av')
    ensures Has(c, ScopeAfter(g, nodes), Avail(EmitNodes(st, nodes, inputs, promise), av'))
    ensures CountOp(nodes, false) > 0 ==> Slots(promise) <= Avail(EmitNodes(st, nodes, inputs, promise), av')
    decreases nodes, 0
  {
    hide Later, Emits, ValidNode, TypedNode, EmitNode, Sound, Avail, Has, AddOuts, Ready;
    if nodes == [] {
      av' := av;
      GrowsSelf(st, av);
    } else {
      var n, rest := nodes[0], nodes[1..];
      var s := EmitNode(st, n, inputs, promise);
      SplitEmission(c, st, n, rest, inputs, promise, ws);
      var av1 := NodeDom(c, st, n, inputs, promise, ws, g, ins, outs, av);
      EmitsReady(st, s);
      GrowsFacts(st, s, av, av1);
      av' := NodesDom(c, s, rest, inputs, promise, ws, AddOuts(g, n), ins, outs, av1);
      GrowsFacts(s, EmitNodes(s, rest, inputs, promise), av1, av');
      GrowsTrans(st, s, EmitNodes(s, rest, inputs, promise), av, av1, av');
    }
  }

  lemma {:induction false} NodeDom(c: Ctx, st: ES, n: Node, inputs: seq<Operand>, promise: seq<nat>, ws: seq<Wire>,
                                   g: Scope, ins: seq<Ty>, outs: seq<Ty>, av: Ann) returns (av': Ann)
    requires ValidNode(n, |inputs|, ws) && TypedNode(c.w, n, g, ins, outs) && |promise| == |ws|
    requires Ready(st) && Sound(st, av) && Later(EmitNode(st, n, inputs, promise), c.fin)
    requires UsesAll(inputs) <= Avail(st, av) && Has(c, g, Avail(st, av))
    ensures Grows(st, EmitNode(st, n, inputs, promise), av, av')
    ensures Has(c, AddOuts(g, n), Avail(EmitNode(st, n, inputs, promise), av'))
    ensures n.op.Output? ==> Slots(promise) <= Avail(EmitNode(st, n, inputs, promise), av')
    decreases n, 2
  {
    hide Later, Emits, Sound, Avail, Has, AddOuts, Ready, Prelude, NodeOuts, EmitOp, WriteRow, TypedOp, OutRow,
      InScope, Within;
    ScopeLen(g, n.ins, n.inTys);
    PreludeLater(c, st, n, inputs, promise, ws);
    PreludeGrows(c, st, n, g, av);
    var s, row, t := Prelude(st, n), NodeOuts(st, n), EmitNode(st, n, inputs, promise);
    EmitsReady(st, s);
    GrowsFacts(st, s, av, av);
    HasMore(c, g, Avail(st, av), Avail(s, av));
    match n.op {
      case Input => av' := av; WriteGrows(s, row, inputs, av);
      case Output => av' := av; WriteGrows(s, promise, Regs(st.regs, |n.ins|), av);
      case _ => av' := OpDom(c, s, n, Regs(st.regs, |n.ins|), row, g, |inputs|, ws, av);
    }
    GrowsTrans(st, s, t, av, av, av');
    GrowsFacts(s, t, av, av');
    HasMore(c, g, Avail(s, av), Avail(t, av'));
    if n.op.Output? { NoOuts(g, n); } else { HasOuts(c, g, n, row, Avail(t, av')); }
  }

  lemma SameSound(st: ES, s: ES, av: Ann)
    requires Sound(st, av) && s == st.(todo := s.todo, refs := s.refs, needs := s.needs)
    ensures Sound(s, av) && Avail(s, av) == Avail(st, av) && Grows(st, s, av, av)
  {
    hide SoundCode, DefsOf;
  }

  lemma ExtOrdered(dst: nat, k: nat, op: nat, args: seq<Operand>, v: set<Place>)
    requires UsesAll(args) <= v
    ensures PieceOrdered(Piece([ExtOp(dst, k, op, args)], dst + k, Regs(dst, k)), v)
  {
    OneOrdered(ExtOp(dst, k, op, args), v);
  }

  lemma HeadAndTail(os: seq<Operand>)
    requires |os| > 0
    ensures UsesOf(os[0]) + UsesAll(os[1..]) <= UsesAll(os)
  {
  }

  lemma {:induction false} OpDom(c: Ctx, s: ES, n: Node, vals: seq<Operand>, outs: seq<nat>, g: Scope, nIn: nat,
                                 ws: seq<Wire>, av: Ann) returns (av': Ann)
    requires ValidNode(n, nIn, ws) && TypedOp(c.w, n, g) && |n.ins| == |n.inTys|
    requires Ready(s) && Sound(s, av) && |vals| == |n.ins| && |outs| == |n.outs|
    requires Later(EmitOp(s, n, vals, outs), c.fin)
    requires UsesAll(vals) <= Avail(s, av) && Has(c, g, Avail(s, av))
    ensures Grows(s, EmitOp(s, n, vals, outs), av, av') && Slots(outs) <= Avail(EmitOp(s, n, vals, outs), av')
    decreases n, 0
  {
    hide Later, Sound, Avail, Has, Ready, Finish, TagPiece, ConstPiece, CallPiece, EmitRegion, EmitNodes, EmitCond,
      EmitArray, EmitCfg, Grows, ValidRegion, ValidCases, ValidCfg, ValidConst, TypedRegion, TypedCases, TypedCfg,
      TypedExt, HasTy, PieceOk, PieceOrdered;
    av' := av;
    match n.op {
      case Tag(tag, rows) =>
        TagOrdered(rows, tag, vals, s.regs, Avail(s, av));
        TagPieceOk(rows, tag, vals, s.regs);
        AskedGrows(s, {NeedType(Sum(rows))}, TagPiece(rows, tag, vals, s.regs).value, outs, av);
      case Ext(op) =>
        ExtOrdered(s.regs, |outs|, op, vals, Avail(s, av));
        ExtPieceOk(s.regs, |outs|, op, vals);
        var p := Piece([ExtOp(s.regs, |outs|, op, vals)], s.regs + |outs|, Regs(s.regs, |outs|));
        AskedGrows(s, {NeedOp(op)}, p, outs, av);
      case Array(op, elem, size) => av' := ArrayDom(s, op, elem, size, vals, outs, av);
      case LoadConst(v) =>
        ConstOrdered(v, s.regs, Avail(s, av));
        ConstPieceOk(v, s.regs);
        AskedGrows(s, ConstNeeds(v), ConstPiece(v, s.regs).value, outs, av);
      case LoadFunc(f) => FuncRefGrows(s, f, Piece([], s.regs, [Const(LFn(f))]), outs, av);
      case CallFn(f) =>
        CallOrdered(Const(LFn(f)), vals, |outs|, s.regs, Avail(s, av));
        CallPieceOk(Const(LFn(f)), vals, |outs|, s.regs);
        FuncRefGrows(s, f, CallPiece(Const(LFn(f)), vals, |outs|, s.regs), outs, av);
      case CallIndirect =>
        HeadAndTail(vals);
        CallOrdered(vals[0], vals[1..], |outs|, s.regs, Avail(s, av));
        CallPieceOk(vals[0], vals[1..], |outs|, s.regs);
        FinishGrows(s, CallPiece(vals[0], vals[1..], |outs|, s.regs), outs, av);
      case Dfg(nodes) =>
        RegionOnce(s, nodes, vals, outs, |vals|, |outs|);
        av' := RegionDom(c, s, nodes, vals, outs, g, n.inTys, n.outs, av);
      case Cond(rows, cases) =>
        HeadAndTail(vals);
        var t := EmitCond(s, rows, cases, vals[0], vals[1..], n.outs, outs);
        LaterUnasked(t, {NeedType(Sum(rows))}, c.fin);
        av' := CondDom(c, s, rows, cases, vals[0], vals[1..], n.outs, outs, g, n.inTys[1..], av);
        GrowsFacts(s, t, av, av');
        SameSound(t, Ask(t, {NeedType(Sum(rows))}), av');
        GrowsTrans(s, t, Ask(t, {NeedType(Sum(rows))}), av, av', av');
      case Cfg(children) => av' := CfgDom(c, s, children, vals, outs, n.outs, g, n.inTys, av);
      case Static => GrowsSelf(s, av);
      case FuncDef(f) => SameSound(s, s.(todo := s.todo + {f}), av);
    }
  }

  lemma AskedGrows(s: ES, needs: set<Need>, p: Piece, outs: seq<nat>, av: Ann)
    requires Ready(s) && Sound(s, av) && PieceOk(p, s.regs, |outs|) && PieceOrdered(p, Avail(s, av))
    ensures var t := Finish(Ask(s, needs), Some(p), outs); Grows(s, t, av, av) && Slots(outs) <= Avail(t, av)
  {
    hide Inv, Sound, Avail, Finish, PieceOk, PieceOrdered, Grows, Open;
    SameSound(s, Ask(s, needs), av);
    AskReady(s, needs);
    FinishGrows(Ask(s, needs), p, outs, av);
    GrowsTrans(s, Ask(s, needs), Finish(Ask(s, needs), Some(p), outs), av, av, av);
  }

  lemma LaterUnasked(t: ES, needs: set<Need>, fin: ES)
    requires Later(Ask(t, needs), fin)
    ensures Later(t, fin)
  {
  }

  // ----- arrays -----

  lemma ConsOrdered(i: Instr, line: seq<Instr>, v: set<Place>)
    requires Uses(i) <= v && Ordered(line, v + Defs(i))
    ensures Ordered([i] + line, v) && DefsOf([i] + line) == Defs(i) + DefsOf(line)
  {
    assert ([i] + line)[1..] == line;
  }

  lemma InputUse(vals: seq<Operand>, i: nat, v: set<Place>)
    requires UsesAll(vals) <= v && i < |vals|
    ensures UsesOf(vals[i]) <= v
  {
  }

  /** Accessing a spilled array uses its pointer and the inputs. */
  lemma {:induction false} FieldsOrdered(op: ArrayOp, size: nat, vals: seq<Operand>, next: nat, v: set<Place>)
    requires IsAccess(op, |vals|) && UsesAll(vals) <= v && InReg(next) in v
    ensures PieceOrdered(AccessFields(op, size, vals, next), v)
  {
    hide Ordered, DefsOf, UsesAll;
    var a, p := Reg(next), AccessFields(op, size, vals, next);
    InputUse(vals, 1, v);
    var v2 := v + {InReg(next + 1)} + {InReg(next + 2)};
    var gep, load := Gep(next + 1, a, vals[1]), LoadElem(next + 2, Reg(next + 1));
    var rest := p.line[2..];
    if op.GetOp? {
      NoLine(v2);
      assert rest == [];
    } else if op.SetOp? {
      InputUse(vals, 2, v);
      var store, reload := StoreElem(Reg(next + 1), vals[2]), LoadArray(next + 3, a, size);
      NoLine(v2 + {InReg(next + 3)});
      ConsOrdered(reload, [], v2);
      assert v2 + Defs(store) == v2;
      ConsOrdered(store, [reload] + [], v2);
      assert rest == [store] + ([reload] + []);
    } else {
      SwapOrdered(size, vals, next, v2) by { assert UsesAll(vals) <= v2; }
    }
    assert v + {InReg(next + 1)} + Defs(load) == v2;
    ConsOrdered(load, rest, v + {InReg(next + 1)});
    ConsOrdered(gep, [load] + rest, v);
    assert p.line == [gep] + ([load] + rest);
    RegsUse(p.vals, v + DefsOf(p.line));
  }

  lemma {:induction false} SwapOrdered(size: nat, vals: seq<Operand>, next: nat, v: set<Place>)
    requires |vals| == 3 && UsesAll(vals) <= v && {InReg(next), InReg(next + 1), InReg(next + 2)} <= v
    ensures var rest := AccessFields(SwapOp, size, vals, next).line[2..];
      Ordered(rest, v) && InReg(next + 5) in DefsOf(rest)
  {
    hide Ordered, DefsOf, UsesAll;
    InputUse(vals, 2, v);
    var a, v4 := Reg(next), v + {InReg(next + 3)} + {InReg(next + 4)};
    var gep2, load2 := Gep(next + 3, a, vals[2]), LoadElem(next + 4, Reg(next + 3));
    var store, store2 := StoreElem(Reg(next + 1), Reg(next + 4)), StoreElem(Reg(next + 3), Reg(next + 2));
    var reload := LoadArray(next + 5, a, size);
    var l1 := [reload] + [];
    var l2 := [store2] + l1;
    var l3 := [store] + l2;
    var l4 := [load2] + l3;
    NoLine(v4 + {InReg(next + 5)});
    ConsOrdered(reload, [], v4);
    assert v4 + Defs(store) == v4 && v4 + Defs(store2) == v4;
    ConsOrdered(store2, l1, v4);
    ConsOrdered(store, l2, v4);
    ConsOrdered(load2, l3, v + {InReg(next + 3)});
    ConsOrdered(gep2, l4, v);
    assert AccessFields(SwapOp, size, vals, next).line[2..] == [gep2] + l4;
  }

  lemma NoLine(v: set<Place>)
    ensures Ordered([], v) && DefsOf([]) == {}
  {
  }

  lemma RegsUse(os: seq<Operand>, v: set<Place>)
    requires forall i :: 0 <= i < |os| ==> os[i].Reg? && InReg(os[i].r) in v
    ensures UsesAll(os) <= v
  {
  }

  lemma PopOrdered(size: nat, left: bool, next: nat, v: set<Place>)
    requires size > 0 && InReg(next) in v
    ensures PieceOrdered(PopFields(size, left, next), v)
  {
    hide Ordered, DefsOf, UsesAll;
    var p := PopFields(size, left, next);
    var v1 := v + {InReg(next + 1)};
    NoLine(v1 + {InReg(next + 2)} + {InReg(next + 3)});
    ConsOrdered(p.line[2], [], v1 + {InReg(next + 2)});
    ConsOrdered(p.line[1], [p.line[2]] + [], v1);
    ConsOrdered(p.line[0], [p.line[1]] + ([p.line[2]] + []), v);
    assert p.line == [p.line[0]] + ([p.line[1]] + ([p.line[2]] + []));
    RegsUse(p.vals, v + DefsOf(p.line));
  }

  /** Spilling, the fields, and the tag. */
  lemma SuccessOrdered(rows: seq<Row>, o: Operand, size: nat, p: Piece, next: nat, v: set<Place>)
    requires SuccessPiece(rows, o, size, p, next).Some? && UsesOf(o) <= v && PieceOrdered(p, v + {InReg(next)})
    ensures PieceOrdered(SuccessPiece(rows, o, size, p, next).value, v)
  {
    hide Ordered, DefsOf, UsesAll, TagPiece;
    var v1 := v + {InReg(next)};
    var alloca, store := AllocaArray(next, size), StoreArray(Reg(next), o);
    NoLine(v1);
    assert v1 + Defs(store) == v1;
    ConsOrdered(store, [], v1);
    ConsOrdered(alloca, [store] + [], v);
    var spill := SpillLine(o, size, next);
    assert spill == [alloca] + ([store] + []);
    assert v + DefsOf(spill) == v1;
    OrderedConcat(spill, p.line, v);
    DefsConcat(spill, p.line);
    TagParts(rows, p.vals, p.next);
    TagOrdered(rows, 1, p.vals, p.next, v1 + DefsOf(p.line));
    var q := TagPiece(rows, 1, p.vals, p.next).value;
    assert v + DefsOf(spill + p.line) == v1 + DefsOf(p.line);
    OrderedConcat(spill + p.line, q.line, v);
    DefsConcat(spill + p.line, q.line);
    assert v + DefsOf(spill + p.line + q.line) == v1 + DefsOf(p.line) + DefsOf(q.line);
  }

  lemma TagParts(rows: seq<Row>, vs: seq<Operand>, next: nat)
    requires TagPiece(rows, 1, vs, next).Some?
    ensures |rows| > 1 && |vs| == |rows[1].tys|
  {
  }

  lemma GuardOrdered(op: ArrayOp, size: nat, vals: seq<Operand>, next: nat, v: set<Place>)
    requires IsAccess(op, |vals|) && UsesAll(vals) <= v
    ensures PieceOrdered(GuardPiece(op, size, vals, next), v)
  {
    hide Ordered, DefsOf, UsesAll;
    var g := GuardPiece(op, size, vals, next);
    InputUse(vals, 1, v);
    if op.SwapOp? {
      InputUse(vals, 2, v);
      var v2 := v + {InReg(next)} + {InReg(next + 1)};
      NoLine(v2 + {InReg(next + 2)});
      ConsOrdered(g.line[2], [], v2);
      ConsOrdered(g.line[1], [g.line[2]] + [], v + {InReg(next)});
      ConsOrdered(g.line[0], [g.line[1]] + ([g.line[2]] + []), v);
      assert g.line == [g.line[0]] + ([g.line[1]] + ([g.line[2]] + []));
    } else {
      NoLine(v + {InReg(next)});
      ConsOrdered(g.line[0], [], v);
      assert g.line == [g.line[0]] + [];
    }
    RegsUse(g.vals, v + DefsOf(g.line));
  }

  /** New blocks, and code appended at the builder that jumps to them. */
  lemma Extended(s: ES, t: ES, av: Ann, adds: Ann, line: seq<Instr>)
    requires Sound(s, av) && Inv(t) && Mod(s, t, {s.cur}) && s.cur < |s.code| && |t.code| == |s.code| + |adds|
    requires t.code[s.cur] == s.code[s.cur] + line && BlockSound(line, Avail(s, av), av + adds)
    requires forall k :: 0 <= k < |adds| ==> BlockSound(t.code[|s.code| + k], adds[k], av + adds)
    ensures Sound(t, av + adds) && Widens(av, av + adds)
  {
    hide LayoutOk, JumpsOk, EnvOk, BlockSound, DefsOf;
    var av' := av + adds;
    forall b | 0 <= b < |av'| ensures BlockSound(t.code[b], av'[b], av') {
      if b >= |av| {
        assert BlockSound(t.code[|s.code| + (b - |av|)], adds[b - |av|], av');
      } else {
        BlockAt(s, av, b);
        BlockWider(s.code[b], av[b], av, av');
        if b == 0 { AllocaBlock(t, av'[0], av'); }
        if b == s.cur { BlockAppended(s.code[b], line, av[b], av'); }
      }
    }
  }

  /** One of the two blocks of an op that may fail. */
  lemma SideSound(p: Piece, exitRow: seq<nat>, exit: nat, x: set<Place>, av: Ann)
    requires PieceOrdered(p, x) && Open(p.line) && |exitRow| == |p.vals|
    requires exit < |av| && av[exit] <= x + Slots(exitRow)
    ensures BlockSound(p.line + StoreLine(exitRow, p.vals) + [Br(exit)], x, av)
  {
    hide Ordered, DefsOf, Succs, Open;
    var stores := StoreLine(exitRow, p.vals);
    StoresOrdered(exitRow, p.vals, x + DefsOf(p.line));
    StoreLineOpen(exitRow, p.vals);
    OpenConcat(p.line, stores);
    OrderedConcat(p.line, stores, x);
    DefsConcat(p.line, stores);
    LineSound(p.line + stores, x, av);
    OneOrdered(Br(exit), x + DefsOf(p.line + stores));
    BlockAppended(p.line + stores, [Br(exit)], x, av);
  }

  lemma BranchSound(g: Piece, yes: nat, no: nat, x: set<Place>, av: Ann)
    requires PieceOrdered(g, x) && Open(g.line) && |g.vals| == 1
    requires yes < |av| && no < |av| && av[yes] <= x && av[no] <= x
    ensures BlockSound(g.line + [CondBr(g.vals[0], yes, no)], x, av)
  {
    hide Ordered, DefsOf, Succs, Open;
    LineSound(g.line, x, av);
    OneUse(g.vals[0]);
    assert [g.vals[0]] == g.vals;
    OneOrdered(CondBr(g.vals[0], yes, no), x + DefsOf(g.line));
    BlockAppended(g.line, [CondBr(g.vals[0], yes, no)], x, av);
  }

  lemma PiecesOrdered(op: ArrayOp, elem: Ty, size: nat, vals: seq<Operand>, next: nat, v: set<Place>)
    requires IsAccess(op, |vals|) && UsesAll(vals) <= v
    ensures PieceOrdered(Success(op, elem, size, vals, next), v) && PieceOrdered(Failure(op, elem, size, vals, next), v)
  {
    hide PieceOrdered, TagPiece, SuccessPiece, AccessFields, UsesAll;
    var rows := ArrayRows(op, elem, size);
    AccessPiecesOk(op, elem, size, vals, next);
    InputUse(vals, 0, v);
    assert UsesAll(vals) <= v + {InReg(next)};
    FieldsOrdered(op, size, vals, next, v + {InReg(next)});
    SuccessOrdered(rows, vals[0], size, AccessFields(op, size, vals, next), next, v);
    BackUses(op, vals);
    TagOrdered(rows, 0, HandedBack(op, vals), next, v);
  }

  lemma BackUses(op: ArrayOp, vals: seq<Operand>)
    requires IsAccess(op, |vals|)
    ensures UsesAll(HandedBack(op, vals)) <= UsesAll(vals)
  {
  }

  lemma AccessDom(s: ES, op: ArrayOp, elem: Ty, size: nat, vals: seq<Operand>, outs: seq<nat>, av: Ann)
    returns (av': Ann)
    requires Ready(s) && Sound(s, av) && IsAccess(op, |vals|) && |outs| == 1 && UsesAll(vals) <= Avail(s, av)
    ensures var t := EmitAccess(s, op, ArrayRows(op, elem, size), size, vals, outs);
      Grows(s, t, av, av') && Slots(outs) <= Avail(t, av')
  {
    hide Sound, Avail, Inv, Open, EmitAccess, Success, Failure, GuardPiece, LoadLine, StoreLine, BlockSound, Grows, Mod,
      PieceOrdered, DefsOf, Slots, UsesAll, Emits, Widens, PieceOk;
    var exit, exitRow, x := |s.code|, FreshRow(|s.slots|, 1), Avail(s, av);
    var t := EmitAccess(s, op, ArrayRows(op, elem, size), size, vals, outs);
    AccessLaws(s, op, elem, size, vals, outs);
    ModOf(s, t);
    CurIn(s);
    SoundInv(s, av);
    var p := Success(op, elem, size, vals, s.regs + 1);
    var q := Failure(op, elem, size, vals, p.next);
    var g := GuardPiece(op, size, vals, q.next);
    PiecesOrdered(op, elem, size, vals, s.regs + 1, x);
    PiecesOrdered(op, elem, size, vals, p.next, x);
    GuardOrdered(op, size, vals, q.next, x);
    PiecesOpen(op, elem, size, vals, s.regs + 1);
    PiecesOpen(op, elem, size, vals, p.next);
    PiecesOpen(op, elem, size, vals, q.next);
    var y := x + Slots(exitRow);
    var adds: Ann := [y, x, x];
    av' := av + adds;
    ExitSound(exitRow, outs, s.regs, y, av');
    SideSound(p, exitRow, exit, x, av');
    SideSound(q, exitRow, exit, x, av');
    var i := CondBr(g.vals[0], exit + 1, exit + 2);
    BranchSound(g, exit + 1, exit + 2, x, av');
    assert s.code[s.cur] + g.line + [i] == s.code[s.cur] + (g.line + [i]);
    Extended(s, t, av, adds, g.line + [i]);
    Arrived(s, t, av, av', exit, x, y, LoadLine(exitRow, s.regs) + StoreLine(outs, Regs(s.regs, 1)));
  }

  lemma PiecesOpen(op: ArrayOp, elem: Ty, size: nat, vals: seq<Operand>, next: nat)
    requires IsAccess(op, |vals|)
    ensures Open(Success(op, elem, size, vals, next).line) && |Success(op, elem, size, vals, next).vals| == 1
    ensures Open(Failure(op, elem, size, vals, next).line) && |Failure(op, elem, size, vals, next).vals| == 1
    ensures Open(GuardPiece(op, size, vals, next).line) && |GuardPiece(op, size, vals, next).vals| == 1
  {
    hide Open, TagPiece, AccessPiece, GuardPiece;
    AccessPiecesOk(op, elem, size, vals, next);
  }

  lemma ArrayDom(s: ES, op: ArrayOp, elem: Ty, size: nat, vals: seq<Operand>, outs: seq<nat>, av: Ann)
    returns (av': Ann)
    requires Ready(s) && Sound(s, av) && UsesAll(vals) <= Avail(s, av)
    requires |vals| == |ArrayIns(op, elem, size)| && |outs| == |ArrayOuts(op, elem, size)|
    ensures var t := EmitArray(s, op, elem, size, vals, outs); Grows(s, t, av, av') && Slots(outs) <= Avail(t, av')
  {
    hide Sound, Avail, Inv, Open, EmitAccess, Finish, PieceOrdered, PieceOk, Grows, NewArrayPiece, PoppedPiece, Slots,
      UsesAll;
    var needs, s1 := ArrayNeeds(op, elem, size), Ask(s, ArrayNeeds(op, elem, size));
    av' := av;
    SameSound(s, s1, av);
    AskReady(s, needs);
    match op {
      case NewArray =>
        NewArrayPieceOk(size, vals, s.regs);
        NewArrayOrdered(size, vals, s.regs, Avail(s, av));
        AskedGrows(s, needs, NewArrayPiece(size, vals, s.regs), outs, av);
      case PopOp(left) =>
        PoppedPieceOk(elem, left, size, vals[0], s.regs);
        InputUse(vals, 0, Avail(s, av));
        PoppedOrdered(elem, left, size, vals[0], s.regs, Avail(s, av));
        var p := PoppedPiece(ArrayRows(op, elem, size), left, size, vals[0], s.regs).value;
        AskedGrows(s, needs, p, outs, av);
      case DiscardEmpty => NoSlots(Avail(s1, av));
      case _ =>
        av' := AccessDom(s1, op, elem, size, vals, outs, av);
        GrowsTrans(s, s1, EmitArray(s, op, elem, size, vals, outs), av, av, av');
    }
  }

  lemma NoSlots(v: set<Place>)
    ensures Slots([]) <= v
  {
  }

  lemma NewArrayOrdered(size: nat, vs: seq<Operand>, next: nat, v: set<Place>)
    requires UsesAll(vs) <= v
    ensures PieceOrdered(NewArrayPiece(size, vs, next), v)
  {
    var a := Const(LArr(Undefs(size)));
    InsertsOrdered(a, vs, 0, next, v);
    OneUse(LastReg(a, |vs|, next));
  }

  lemma PoppedOrdered(elem: Ty, left: bool, size: nat, o: Operand, next: nat, v: set<Place>)
    requires UsesOf(o) <= v
    ensures var p := PoppedPiece(ArrayRows(PopOp(left), elem, size), left, size, o, next);
      p.Some? && PieceOrdered(p.value, v)
  {
    hide PieceOrdered, TagPiece, SuccessPiece, PopFields, PieceOk;
    var rows := ArrayRows(PopOp(left), elem, size);
    PoppedPieceOk(elem, left, size, o, next);
    if size == 0 {
      NoUses(v);
      TagOrdered(rows, 0, [], next, v);
    } else {
      PopOrdered(size, left, next, v + {InReg(next)});
      SuccessOrdered(rows, o, size, PopFields(size, left, next), next, v);
    }
  }

  lemma NoUses(v: set<Place>)
    ensures UsesAll([]) <= v
  {
  }

  lemma ExtPieceOk(dst: nat, k: nat, op: nat, args: seq<Operand>)
    ensures PieceOk(Piece([ExtOp(dst, k, op, args)], dst + k, Regs(dst, k)), dst, k)
  {
  }

  lemma FuncRefGrows(s: ES, f: NodeId, p: Piece, outs: seq<nat>, av: Ann)
    requires Ready(s) && Sound(s, av) && (PieceOk(p, s.regs, |outs|) || p == Piece([], s.regs, [Const(LFn(f))]))
      && |outs| == |p.vals|
    requires PieceOrdered(p, Avail(s, av)) || p == Piece([], s.regs, [Const(LFn(f))])
    ensures var s1 := s.(refs := s.refs + {f});
      Grows(s, Finish(s1, Some(p), outs), av, av) && Slots(outs) <= Avail(Finish(s1, Some(p), outs), av)
  {
    hide Inv, Sound, Avail, Finish, Ordered, DefsOf, Grows;
    var s1 := s.(refs := s.refs + {f});
    SameSound(s, s1, av);
    RefsEmits(s, f);
    if p == Piece([], s.regs, [Const(LFn(f))]) { ConstOperand(f, s.regs, Avail(s, av)); }
    FinishGrows(s1, p, outs, av);
    GrowsTrans(s, s1, Finish(s1, Some(p), outs), av, av, av);
  }

  lemma ConstOperand(f: NodeId, next: nat, v: set<Place>)
    ensures PieceOk(Piece([], next, [Const(LFn(f))]), next, 1) && PieceOrdered(Piece([], next, [Const(LFn(f))]), v)
  {
  }

  lemma {:induction false} RegionDom(c: Ctx, s: ES, nodes: seq<Node>, inputs: seq<Operand>, promise: seq<nat>, g: Scope,
                                     ins: seq<Ty>, outs: seq<Ty>, av: Ann) returns (av': Ann)
    requires ValidRegion(nodes, |inputs|, |promise|) && TypedRegion(c.w, nodes, g, ins, outs)
    requires Ready(s) && Sound(s, av) && Later(EmitNodes(s, nodes, inputs, promise), c.fin)
    requires UsesAll(inputs) <= Avail(s, av) && Has(c, g, Avail(s, av))
    ensures Grows(s, EmitNodes(s, nodes, inputs, promise), av, av')
    ensures Has(c, ScopeAfter(g, nodes), Avail(EmitNodes(s, nodes, inputs, promise), av'))
    ensures Slots(promise) <= Avail(EmitNodes(s, nodes, inputs, promise), av')
    decreases nodes, 1
  {
    hide Later, Sound, Avail, Has, Ready, EmitNodes, ValidNodes, TypedNodes, RegionOuts, RegionIns, Grows, CountOp,
      ScopeAfter;
    av' := NodesDom(c, s, nodes, inputs, promise, RegionOuts(nodes), g, ins, outs, av);
  }

  // ----- conditionals -----

  lemma ExitSound(exitRow: seq<nat>, outs: seq<nat>, next: nat, x: set<Place>, av: Ann)
    requires |exitRow| == |outs| && Slots(exitRow) <= x
    ensures BlockSound(LoadLine(exitRow, next) + StoreLine(outs, Regs(next, |outs|)), x, av)
    ensures Slots(outs) <= DefsOf(LoadLine(exitRow, next) + StoreLine(outs, Regs(next, |outs|)))
  {
    hide Ordered, DefsOf, Open, Succs;
    var loads, stores := LoadLine(exitRow, next), StoreLine(outs, Regs(next, |outs|));
    LoadsOrdered(exitRow, next, x);
    StoresOrdered(outs, Regs(next, |outs|), x + DefsOf(loads));
    OrderedConcat(loads, stores, x);
    DefsConcat(loads, stores);
    LoadLineOpen(exitRow, next);
    StoreLineOpen(outs, Regs(next, |outs|));
    OpenConcat(loads, stores);
    LineSound(loads + stores, x, av);
  }

  lemma {:induction false} CondDom(c: Ctx, s: ES, rows: seq<Row>, cases: seq<Case>, v: Operand, rest: seq<Operand>,
                                   tys: seq<Ty>, outs: seq<nat>, g: Scope, restTys: seq<Ty>, av: Ann) returns (av': Ann)
    requires rows != [] && |outs| == |tys| && ValidCases(cases, rows, |rest|, |tys|)
    requires TypedCases(c.w, cases, rows, g, restTys, tys) && |restTys| == |rest|
    requires Ready(s) && Sound(s, av) && Later(EmitCond(s, rows, cases, v, rest, tys, outs), c.fin)
    requires UsesOf(v) + UsesAll(rest) <= Avail(s, av) && Has(c, g, Avail(s, av))
    ensures Grows(s, EmitCond(s, rows, cases, v, rest, tys, outs), av, av')
    ensures Slots(outs) <= Avail(EmitCond(s, rows, cases, v, rest, tys, outs), av')
    decreases cases, 2
  {
    hide Later, Sound, Avail, Has, Ready, EmitCases, CondExit, Destructure, ValidCases, TypedCases, LoadLine,
      StoreLine, BlockSound, Inv, Mod, Open, TargetsOk, TargetsRely, Grows, Widens, DefsOf;
    var exit, exitRow, x := |s.code|, FreshRow(|s.slots|, |tys|), Avail(s, av);
    var y, block := x + Slots(exitRow), LoadLine(exitRow, s.regs) + StoreLine(outs, Regs(s.regs, |tys|));
    var s1, av1 := CondExit(s, tys, outs), av + [y];
    SoundInv(s, av);
    CurIn(s);
    CondExitLaws(s, tys, outs);
    ExitSound(exitRow, outs, s.regs, y, av);
    ReadyInv(s1);
    OneMore(s, s1, av, y, block);
    CondParts(s, rows, cases, v, rest, tys, outs);
    var r, t := EmitCases(s1, cases, exitRow, exit), EmitCond(s, rows, cases, v, rest, tys, outs);
    LaterTrans(r.0, t, c.fin);
    var av2 := CasesDom(c, s1, cases, rows, exitRow, exit, g, restTys, tys, x, av1);
    CurIn(r.0);
    WidensMore(av, y);
    SameAvail(s, r.0, av, av1, av2);
    av' := DestructureDom(r.0, rows, v, rest, r.1, av2);
    var d := Destructure(r.0, rows, v, rest, r.1);
    DestructureLaws(r.0, rows, v, rest, r.1);
    WidensTrans(av1, av2, av');
    WidensAt(av1, av', exit);
    WidensTrans(av, av1, av');
    CondLeaves(d, t, exit);
    Moved(d, exit, av');
    Arrived(s, t, av, av', exit, x, y, block);
  }

  lemma ReadyInv(s: ES)
    requires Ready(s)
    ensures Inv(s)
  {
  }

  lemma SameAvail(s: ES, r: ES, av: Ann, av1: Ann, av2: Ann)
    requires Sound(s, av) && Sound(r, av2) && Widens(av, av1) && Widens(av1, av2) && r.cur == s.cur < |r.code|
    requires s.cur < |s.code|
    requires r.code[s.cur] == s.code[s.cur]
    ensures Avail(r, av2) == Avail(s, av)
  {
    hide BlockSound, DefsOf, Inv;
    WidensTrans(av, av1, av2);
    WidensAt(av, av2, s.cur);
  }

  lemma CondLeaves(d: ES, t: ES, exit: nat)
    requires t == At(d, exit)
    ensures t.code == d.code && |t.code| == |d.code|
  {
  }

  /** The builder has arrived in a block that relies on what was defined before. */
  lemma Arrived(s: ES, t: ES, av: Ann, av': Ann, b: nat, x: set<Place>, y: set<Place>, block: Block)
    requires Sound(t, av') && Widens(av, av') && b < |av'| && b < |t.code| && av'[b] == y && t.code[b] == block
    requires t.cur == b
    requires x == Avail(s, av) && x <= y
    ensures Grows(s, t, av, av') && DefsOf(block) <= Avail(t, av')
  {
    hide Sound, DefsOf;
  }

  lemma {:induction false} CasesDom(c: Ctx, st: ES, cases: seq<Case>, rows: seq<Row>, exitRow: seq<nat>, exit: nat,
                                    g: Scope, restTys: seq<Ty>, outs: seq<Ty>, x: set<Place>, av: Ann)
    returns (av': Ann)
    requires ValidCases(cases, rows, |restTys|, |exitRow|) && TypedCases(c.w, cases, rows, g, restTys, outs)
    requires Sound(st, av) && 0 < exit < |st.code| && Later(EmitCases(st, cases, exitRow, exit).0, c.fin)
    requires Has(c, g, x)
    requires exit < |av| && av[exit] <= x + Slots(exitRow)
    ensures Sound(EmitCases(st, cases, exitRow, exit).0, av') && Widens(av, av')
    ensures TargetsRely(EmitCases(st, cases, exitRow, exit).1, av', x)
    decreases cases, 1
  {
    hide Later, Sound, Has, EmitCase, ValidRegion, TypedRegion, Inv, TargetsRely, Widens, RegionIns, Closed, Open, Shut;
    SoundInv(st, av);
    if cases == [] {
      av' := av;
      NoTargets(av, x);
    } else {
      var nIn := |rows[0].tys| + |restTys|;
      var s := EmitCase(st, cases[0], exitRow, exit);
      EmitCaseLaws(st, cases[0], exitRow, exit, nIn);
      EmitCasesLaws(s, cases[1..], rows[1..], |restTys|, exitRow, exit);
      LaterTrans(s, EmitCases(s, cases[1..], exitRow, exit).0, c.fin);
      RegionInsLen(cases[0].nodes, nIn, |exitRow|);
      var av1 := CaseDom(c, st, cases[0], exitRow, exit, g, rows[0].tys + restTys, outs, x, av);
      WidensAt(av, av1, exit);
      av' := CasesDom(c, s, cases[1..], rows[1..], exitRow, exit, g, restTys, outs, x, av1);
      WidensTrans(av, av1, av');
      WidensAt(av1, av', |st.code|);
      FirstRelies(Target(|st.code|, FreshRow(|st.slots|, |RegionIns(cases[0].nodes)|)),
                  EmitCases(s, cases[1..], exitRow, exit).1, av', x);
    }
  }

  lemma NoTargets(av: Ann, x: set<Place>)
    ensures TargetsRely([], av, x) && Widens(av, av)
  {
  }

  lemma FirstRelies(t: Target, ts: seq<Target>, av: Ann, x: set<Place>)
    requires t.blk < |av| && av[t.blk] <= x + Slots(t.row) && TargetsRely(ts, av, x)
    ensures TargetsRely([t] + ts, av, x)
  {
  }

  lemma {:induction false} CaseDom(c: Ctx, st: ES, d: Case, exitRow: seq<nat>, exit: nat, g: Scope, ins: seq<Ty>,
                                   outs: seq<Ty>, x: set<Place>, av: Ann) returns (av': Ann)
    requires ValidRegion(d.nodes, |ins|, |exitRow|) && TypedRegion(c.w, d.nodes, g, ins, outs)
    requires Sound(st, av) && 0 < exit < |st.code| && Later(EmitCase(st, d, exitRow, exit), c.fin) && Has(c, g, x)
    requires exit < |av| && av[exit] <= x + Slots(exitRow)
    ensures Sound(EmitCase(st, d, exitRow, exit), av') && Widens(av, av')
    ensures |st.code| < |av'| && av'[|st.code|] == x + Slots(FreshRow(|st.slots|, |RegionIns(d.nodes)|))
    decreases d, 2
  {
    hide Later, Sound, Has, EmitCase, EmitNodes, ValidRegion, TypedRegion, Inv, Open, Closed, Widens, LoadLine,
      BlockSound, Avail, Grows, CaseStart, RegionIns, Mod, DefsOf;
    SoundInv(st, av);
    RegionInsLen(d.nodes, |ins|, |exitRow|);
    CaseParts(st, d, exitRow, exit, |ins|);
    CaseStartLaws(st, d, exit);
    CaseLater(st, d, exitRow, exit, |ins|, c.fin);
    var row := FreshRow(|st.slots|, |ins|);
    var s, y, line := CaseStart(st, d, exit), x + Slots(row), LoadLine(row, st.regs);
    RowLoads(row, st.regs, y, av);
    ReadyInv(s);
    OneMore(st, s, av, y, line);
    WidensMore(av, y);
    HasMore(c, g, x, Avail(s, av + [y]));
    var e := EmitNodes(s, d.nodes, Regs(st.regs, |ins|), exitRow);
    av' := RegionDom(c, s, d.nodes, Regs(st.regs, |ins|), exitRow, g, ins, outs, av + [y]);
    GrowsFacts(s, e, av + [y], av');
    WidensTrans(av, av + [y], av');
    WidensAt(av + [y], av', |st.code|);
    WidensAt(av, av', exit);
    EmitsReady(s, e);
    SoundInv(e, av');
    LaterCounts(s, e);
    JumpGrows(e, exit, av');
    SoundInv(Terminate(e, Br(exit)), av');
    InvCur(st);
    Moved(Terminate(e, Br(exit)), st.cur, av');
  }

  lemma InvCur(st: ES)
    requires Inv(st)
    ensures 1 <= st.cur < |st.code|
  {
  }

  lemma RowLoads(row: seq<nat>, next: nat, v: set<Place>, av: Ann)
    requires Slots(row) <= v
    ensures BlockSound(LoadLine(row, next), v, av) && UsesAll(Regs(next, |row|)) <= DefsOf(LoadLine(row, next))
  {
    LoadsOrdered(row, next, v);
    LoadLineOpen(row, next);
    LineSound(LoadLine(row, next), v, av);
  }

  /** A jump, at the builder, to a block that relies on no more than what is defined. */
  lemma JumpGrows(e: ES, b: nat, av: Ann)
    requires Ready(e) && Sound(e, av) && 0 < b < |e.code| && b < |av| && av[b] <= Avail(e, av)
    ensures Sound(Terminate(e, Br(b)), av) && |Terminate(e, Br(b)).code| == |e.code|
  {
    hide Inv, Mod, Open, Closed, Avail, DefsOf;
    TerminateCloses(e, Br(b));
    JumpSound(b, Avail(e, av), av);
    Appended(e, Terminate(e, Br(b)), [Br(b)], av);
  }

  lemma JumpSound(b: nat, v: set<Place>, av: Ann)
    requires b < |av| && av[b] <= v
    ensures BlockSound([Br(b)], v, av)
  {
    OneOrdered(Br(b), v);
  }

  // ----- control-flow graphs -----

  /** What a child's block relies on besides what is defined before the graph: its mailboxes, and those of the wires
      visible in it. */
  ghost function RelyOf(c: Ctx, d: Child, bbs: map<NodeId, Target>, vis: map<NodeId, Scope>): set<Place>
    requires IsBlock(d)
  {
    (if d.id in bbs then Slots(bbs[d.id].row) else {})
    + if d.Block? && d.id in vis then VisSlots(c, vis[d.id]) else {}
  }

  ghost function VisSlots(c: Ctx, g: Scope): set<Place> {
    set x | x in g && x in c.fin.env :: InSlot(c.fin.env[x])
  }

  ghost function RelyAt(c: Ctx, children: seq<Child>, bbs: map<NodeId, Target>, vis: map<NodeId, Scope>,
                        b: nat): set<Place> {
    set d, p | d in children && IsBlock(d) && d.id in bbs && bbs[d.id].blk == b && p in RelyOf(c, d, bbs, vis) :: p
  }

  ghost predicate Relies(c: Ctx, children: seq<Child>, bbs: map<NodeId, Target>, vis: map<NodeId, Scope>, av: Ann,
                         x: set<Place>) {
    true == (forall d :: d in children && IsBlock(d) ==>
      d.id in bbs && bbs[d.id].blk < |av| && av[bbs[d.id].blk] == x + RelyOf(c, d, bbs, vis))
  }

  lemma ReliesAt(c: Ctx, children: seq<Child>, bbs: map<NodeId, Target>, vis: map<NodeId, Scope>, av: Ann,
                 x: set<Place>, d: Child)
    requires Relies(c, children, bbs, vis, av, x) && d in children && IsBlock(d)
    ensures d.id in bbs && bbs[d.id].blk < |av| && av[bbs[d.id].blk] == x + RelyOf(c, d, bbs, vis)
  {
  }

  lemma ReliesWider(c: Ctx, children: seq<Child>, bbs: map<NodeId, Target>, vis: map<NodeId, Scope>, av: Ann, av': Ann,
                    x: set<Place>)
    requires Relies(c, children, bbs, vis, av, x) && Widens(av, av')
    ensures Relies(c, children, bbs, vis, av', x)
  {
  }

  lemma VisHas(c: Ctx, g: Scope, v: set<Place>)
    ensures VisSlots(c, g) <= v <==> Has(c, g, v)
  {
    if VisSlots(c, g) <= v {
      forall x | x in g && x in c.fin.env ensures InSlot(c.fin.env[x]) in v {
        assert InSlot(c.fin.env[x]) in VisSlots(c, g);
      }
    }
  }

  /** Distinct children have distinct blocks, so each block relies on exactly what its child does. */
  lemma OneChild(c: Ctx, s: ES, children: seq<Child>, bbs: map<NodeId, Target>, vis: map<NodeId, Scope>, exit: nat,
                 nOut: nat, d: Child)
    requires CfgReady(s, children, children, bbs, exit, nOut) && d in children && IsBlock(d)
    ensures d.id in bbs && RelyAt(c, children, bbs, vis, bbs[d.id].blk) == RelyOf(c, d, bbs, vis)
  {
    hide RelyOf, Inv, ValidChildren;
    forall e | e in children && IsBlock(e) && e.id in bbs && bbs[e.id].blk == bbs[d.id].blk ensures e == d {
      CfgReadyAt(s, children, children, bbs, exit, nOut, e);
      CfgReadyAt(s, children, children, bbs, exit, nOut, d);
    }
  }

  /** The annotation of a graph's blocks. */
  ghost function GraphAnn(c: Ctx, av: Ann, n: nat, children: seq<Child>, bbs: map<NodeId, Target>,
                          vis: map<NodeId, Scope>, x: set<Place>): (r: Ann)
    requires |av| <= n
    ensures |r| == n && Widens(av, r)
  {
    seq(n, b => if 0 <= b < |av| then av[b] else if b >= 0 then x + RelyAt(c, children, bbs, vis, b) else {})
  }

  lemma GraphRelies(c: Ctx, s: ES, av: Ann, children: seq<Child>, bbs: map<NodeId, Target>, vis: map<NodeId, Scope>,
                    exit: nat, nOut: nat, x: set<Place>)
    requires CfgReady(s, children, children, bbs, exit, nOut) && |av| == exit
    ensures |av| <= |s.code| && Relies(c, children, bbs, vis, GraphAnn(c, av, |s.code|, children, bbs, vis, x), x)
  {
    hide RelyOf, RelyAt, Inv, ValidChildren, BlocksOk;
    forall d | d in children && IsBlock(d)
      ensures d.id in bbs && bbs[d.id].blk < |s.code|
      ensures GraphAnn(c, av, |s.code|, children, bbs, vis, x)[bbs[d.id].blk] == x + RelyOf(c, d, bbs, vis)
    {
      CfgReadyAt(s, children, children, bbs, exit, nOut, d);
      OneChild(c, s, children, bbs, vis, exit, nOut, d);
    }
  }

  lemma {:induction false} CfgDom(c: Ctx, st: ES, children: seq<Child>, vals: seq<Operand>, outs: seq<nat>,
                                  tys: seq<Ty>, g: Scope, ins: seq<Ty>, av: Ann) returns (av': Ann)
    requires ValidCfg(children, |vals|, |tys|) && TypedCfg(c.w, children, g, ins, tys) && |outs| == |tys|
    requires Ready(st) && Sound(st, av) && Later(EmitCfg(st, children, vals, outs, tys), c.fin)
    requires UsesAll(vals) <= Avail(st, av) && Has(c, g, Avail(st, av))
    ensures Grows(st, EmitCfg(st, children, vals, outs, tys), av, av')
    ensures Slots(outs) <= Avail(EmitCfg(st, children, vals, outs, tys), av')
    decreases children, 2
  {
    hide Later, Sound, Avail, Has, Ready, EmitCfg, EmitChildren, CfgStart, CfgReady, LoadLine, StoreLine, BlockSound,
      TypedChildren, Inv, Mod, Open, Closed, Grows, Widens, DefsOf, Relies, RelyAt, GraphAnn, ValidChildren, RegionIns,
        Covered, BlocksOk, VisSlots;
    var vis: map<NodeId, Scope> :| TypedChildren(c.w, children, children, vis, tys)
      && children[0].id in vis && vis[children[0].id].Items <= g.Items;
    var exit, x := |st.code|, Avail(st, av);
    CfgStartLaws(st, children, vals, tys);
    CfgStartReady(st, children, vals, tys);
    CfgEmission(st, children, vals, outs, tys);
    var s1, bbs := CfgStart(st, children, vals, tys).0, CfgStart(st, children, vals, tys).1;
    var t := EmitChildren(s1, children, bbs, outs);
    SoundInv(st, av);
    LaterFromAt(t, exit, c.fin);
    GraphRelies(c, s1, av, children, bbs, vis, exit, |tys|, x);
    var av1 := GraphAnn(c, av, |s1.code|, children, bbs, vis, x);
    EnterDom(c, st, children, vals, tys, g, vis, av, av1);
    var av2 := ChildrenDom(c, s1, children, children, bbs, outs, exit, vis, tys, x, av1);
    WidensTrans(av, av1, av2);
    SoundInv(t, av2);
    var next := ExitCodeAt(s1, children, bbs, outs, exit, children[1]);
    ReliesAt(c, children, bbs, vis, av1, x, children[1]);
    ExitSound(bbs[children[1].id].row, outs, next, Slots(bbs[children[1].id].row), []) by {
      CfgFound1(s1, children, bbs, exit, |outs|, children[1]);
    }
    WidensAt(av1, av2, exit);
    InvCur(st);
    Moved(t, exit, av2);
    Arrived(st, At(t, exit), av, av2, exit, x, av2[exit], t.code[exit]);
    av' := av2;
  }

  lemma CfgFound1(s: ES, children: seq<Child>, bbs: map<NodeId, Target>, exit: nat, nOut: nat, d: Child)
    requires CfgReady(s, children, children, bbs, exit, nOut) && d in children && d.Exit?
    ensures d.id in bbs && |bbs[d.id].row| == nOut
  {
    hide Inv, ValidChildren, BlocksOk;
    CfgReadyAt(s, children, children, bbs, exit, nOut, d);
  }

  /** The inputs of the graph are handed to its entry block. */
  lemma EnterDom(c: Ctx, st: ES, children: seq<Child>, vals: seq<Operand>, tys: seq<Ty>, g: Scope,
                 vis: map<NodeId, Scope>, av: Ann, av1: Ann)
    requires Ready(st) && Sound(st, av) && ValidCfg(children, |vals|, |tys|) && UsesAll(vals) <= Avail(st, av)
    requires Has(c, g, Avail(st, av)) && children[0].id in vis && vis[children[0].id].Items <= g.Items
    requires var (s1, bbs) := CfgStart(st, children, vals, tys);
      |av1| == |s1.code| && Widens(av, av1) && Relies(c, children, bbs, vis, av1, Avail(st, av))
    ensures Sound(CfgStart(st, children, vals, tys).0, av1)
  {
    hide Later, Sound, Avail, Has, Ready, CfgStart, MakeBlocks, StoreLine, BlockSound, Inv, Mod, Open, Closed, Grows,
      Widens, DefsOf, Relies, RelyOf, ValidChildren, RegionIns, Covered, BlocksOk, VisSlots, Prepares;
    var x := Avail(st, av);
    EntryParts(st, children, vals, tys);
    var r := MakeBlocks(NewBlock(st, AtEnd), children, |st.code|, tys).0;
    var s1, bbs := CfgStart(st, children, vals, tys).0, CfgStart(st, children, vals, tys).1;
    NewEmpty(st, r, av, av1);
    var entry := bbs[children[0].id];
    ReliesAt(c, children, bbs, vis, av1, x, children[0]);
    HasLess(c, g, vis[children[0].id], x);
    VisHas(c, vis[children[0].id], x);
    EntryRely(c, children[0], bbs, vis, x);
    EntrySound(entry, vals, x, av1);
    Appended(r, s1, StoreLine(entry.row, vals) + [Br(entry.blk)], av1);
  }

  lemma EntryRely(c: Ctx, d: Child, bbs: map<NodeId, Target>, vis: map<NodeId, Scope>, x: set<Place>)
    requires IsBlock(d) && d.id in bbs && (d.Block? && d.id in vis ==> VisSlots(c, vis[d.id]) <= x)
    ensures RelyOf(c, d, bbs, vis) <= x + Slots(bbs[d.id].row)
  {
  }

  lemma EntryParts(st: ES, children: seq<Child>, vals: seq<Operand>, tys: seq<Ty>)
    requires Ready(st) && ValidCfg(children, |vals|, |tys|)
    ensures var r := MakeBlocks(NewBlock(st, AtEnd), children, |st.code|, tys).0;
      var (s1, bbs) := CfgStart(st, children, vals, tys);
      && children[0].id in bbs && |bbs[children[0].id].row| == |vals|
      && Prepares(st, r) && Inv(s1) && Mod(r, s1, {r.cur}) && |s1.code| == |r.code| && s1.cur == r.cur
      && r.cur < |r.code|
      && s1.code[r.cur] == r.code[r.cur] + (StoreLine(bbs[children[0].id].row, vals) + [Br(bbs[children[0].id].blk)])
  {
    hide LayoutOk, JumpsOk, EnvOk, MakeBlocks, StoreLine, Closed, ValidChildren, RegionIns, BlocksOk, Covered;
    CfgStartPrepares(st, children, vals, tys);
    CfgStartLaws(st, children, vals, tys);
    var r := MakeBlocks(NewBlock(st, AtEnd), children, |st.code|, tys);
    var entry := r.1[children[0].id];
    EntryWrites(r.0, entry, vals);
  }

  lemma EntryWrites(r: ES, t: Target, vals: seq<Operand>)
    requires Ready(r) && |t.row| == |vals|
    ensures var s := Terminate(WriteRow(r, t.row, vals), Br(t.blk));
      Mod(r, s, {r.cur}) && |s.code| == |r.code| && s.cur == r.cur
  {
    hide LayoutOk, JumpsOk, EnvOk, StoreLine, Open;
  }

  lemma EntrySound(t: Target, vals: seq<Operand>, x: set<Place>, av: Ann)
    requires |t.row| == |vals| && UsesAll(vals) <= x && t.blk < |av| && av[t.blk] <= x + Slots(t.row)
    ensures BlockSound(StoreLine(t.row, vals) + [Br(t.blk)], x, av)
  {
    hide Ordered, DefsOf, Succs, Open;
    StoresOrdered(t.row, vals, x);
    StoreLineOpen(t.row, vals);
    LineSound(StoreLine(t.row, vals), x, av);
    JumpSound(t.blk, x + DefsOf(StoreLine(t.row, vals)), av);
    BlockAppended(StoreLine(t.row, vals), [Br(t.blk)], x, av);
  }

  lemma {:induction false} ChildrenDom(c: Ctx, st: ES, children: seq<Child>, all: seq<Child>, bbs: map<NodeId, Target>,
                                       outs: seq<nat>, exit: nat, vis: map<NodeId, Scope>, tys: seq<Ty>, x: set<Place>,
                                       av: Ann)
    returns (av': Ann)
    requires CfgReady(st, children, all, bbs, exit, |outs|) && TypedChildren(c.w, children, all, vis, tys)
    requires Sound(st, av) && Relies(c, all, bbs, vis, av, x) && Later(EmitChildren(st, children, bbs, outs), c.fin)
    ensures Sound(EmitChildren(st, children, bbs, outs), av') && Widens(av, av')
    decreases children, 1
  {
    hide Later, Sound, CfgReady, EmitChild, TypedChild, Relies, Widens, ChildrenDone;
    if children == [] {
      av' := av;
      NoTargets(av, x);
    } else {
      var s := EmitChild(st, children[0], bbs, outs);
      EmitChildLaws(st, children, all, bbs, outs, exit);
      CfgReadyNext(st, s, children, all, bbs, exit, |outs|);
      EmitChildrenLaws(s, children[1..], all, bbs, outs, exit);
      DoneLater(s, EmitChildren(s, children[1..], bbs, outs), children[1..], bbs);
      LaterTrans(s, EmitChildren(s, children[1..], bbs, outs), c.fin);
      var av1 := ChildDom(c, st, children, all, bbs, outs, exit, vis, tys, x, av);
      ReliesWider(c, all, bbs, vis, av, av1, x);
      av' := ChildrenDom(c, s, children[1..], all, bbs, outs, exit, vis, tys, x, av1);
      WidensTrans(av, av1, av');
    }
  }

  lemma DoneLater(a: ES, b: ES, children: seq<Child>, bbs: map<NodeId, Target>)
    requires ChildrenDone(a, b, children, bbs)
    ensures Later(a, b)
  {
  }

  lemma {:induction false} ChildDom(c: Ctx, a: ES, children: seq<Child>, all: seq<Child>, bbs: map<NodeId, Target>,
                                    outs: seq<nat>, exit: nat, vis: map<NodeId, Scope>, tys: seq<Ty>, x: set<Place>,
                                    av: Ann)
    returns (av': Ann)
    requires CfgReady(a, children, all, bbs, exit, |outs|) && children != []
    requires TypedChild(c.w, children[0], all, vis, tys)
    requires Sound(a, av) && Relies(c, all, bbs, vis, av, x) && Later(EmitChild(a, children[0], bbs, outs), c.fin)
    ensures Sound(EmitChild(a, children[0], bbs, outs), av') && Widens(av, av')
    decreases children[0], 3
  {
    hide Later, Sound, CfgReady, TypedChild, Relies, Widens, EmitChild;
    var d := children[0];
    match d {
      case Block(_, _, _, _) =>
        ChildIn(a, children, all, bbs, exit, |outs|);
        av' := BlockDom(c, a, children, d, all, bbs, outs, exit, vis, tys, x, av);
      case Exit(_) =>
        ChildIn(a, children, all, bbs, exit, |outs|);
        ReliesAt(c, all, bbs, vis, av, x, d);
        ExitDom(c, a, children, all, bbs, outs, exit, vis, x, av);
        av' := av;
        NoTargets(av, x);
      case ChildFunc(f) =>
        av' := av;
        NoTargets(av, x);
        NoCode(a, d, bbs, outs);
        SameSound(a, EmitChild(a, d, bbs, outs), av);
      case ChildStatic =>
        av' := av;
        NoTargets(av, x);
        NoCode(a, d, bbs, outs);
    }
  }

  lemma NoCode(a: ES, d: Child, bbs: map<NodeId, Target>, outs: seq<nat>)
    ensures d.ChildFunc? ==> EmitChild(a, d, bbs, outs) == a.(todo := a.todo + {d.f})
    ensures d.ChildStatic? ==> EmitChild(a, d, bbs, outs) == a
  {
  }

  lemma ChildIn(a: ES, children: seq<Child>, all: seq<Child>, bbs: map<NodeId, Target>, exit: nat, nOut: nat)
    requires CfgReady(a, children, all, bbs, exit, nOut) && children != [] && IsBlock(children[0])
    ensures children[0] in all && FindChild(all, children[0].id) == Some(children[0]) && Inv(a)
  {
    hide Inv, ValidChildren, BlocksOk;
  }

  lemma ExitDom(c: Ctx, a: ES, children: seq<Child>, all: seq<Child>, bbs: map<NodeId, Target>, outs: seq<nat>,
                exit: nat, vis: map<NodeId, Scope>, x: set<Place>, av: Ann)
    requires CfgReady(a, children, all, bbs, exit, |outs|) && children != [] && children[0].Exit? && children[0] in all
    requires Sound(a, av) && Relies(c, all, bbs, vis, av, x)
    ensures Sound(EmitChild(a, children[0], bbs, outs), av)
  {
    hide Later, Sound, Relies, EmitChild, Inv, ValidChildren, BlocksOk, LoadLine, StoreLine, Open, Mod, BlockSound,
      DefsOf;
    var d := children[0];
    CfgReadyAt(a, children, all, bbs, exit, |outs|, d);
    ReliesAt(c, all, bbs, vis, av, x, d);
    EmitExitLaws(a, d, bbs, outs);
    var b, s := bbs[d.id].blk, EmitChild(a, d, bbs, outs);
    SoundInv(a, av);
    MovedEmpty(a, b, av);
    ExitSound(bbs[d.id].row, outs, a.regs, av[b], av);
    AtMod(a, s, b);
    Appended(At(a, b), At(s, b), LoadLine(bbs[d.id].row, a.regs) + StoreLine(outs, Regs(a.regs, |outs|)), av);
    InvCur(a);
    Moved(At(s, b), a.cur, av);
  }

  lemma MovedEmpty(st: ES, b: nat, av: Ann)
    requires Sound(st, av) && 1 <= b < |st.code| && st.code[b] == []
    ensures b < |av| && Sound(At(st, b), av) && Avail(At(st, b), av) == av[b]
  {
    hide Sound, Inv, Avail;
    SoundInv(st, av);
    Moved(st, b, av);
    assert DefsOf([]) == {};
  }

  lemma AtMod(a: ES, s: ES, b: nat)
    requires Inv(a) && Inv(s) && Mod(a, s, {b}) && 1 <= b < |a.code| && b < |s.code|
    ensures Mod(At(a, b), At(s, b), {b}) && Inv(At(s, b))
  {
    hide LayoutOk, JumpsOk, EnvOk;
    AtLaws(s, b);
  }

  lemma {:induction false} BlockDom(c: Ctx, a: ES, children: seq<Child>, d: Child, all: seq<Child>,
                                    bbs: map<NodeId, Target>, outs: seq<nat>, exit: nat, vis: map<NodeId, Scope>,
                                    tys: seq<Ty>, x: set<Place>, av: Ann)
    returns (av': Ann)
    requires CfgReady(a, children, all, bbs, exit, |outs|) && children != [] && children[0] == d && d.Block? && d in all
    requires TypedChild(c.w, d, all, vis, tys)
    requires Sound(a, av) && Relies(c, all, bbs, vis, av, x) && Later(EmitChild(a, d, bbs, outs), c.fin)
    ensures Sound(EmitChild(a, d, bbs, outs), av') && Widens(av, av')
    decreases d, 2
  {
    hide Later, Sound, CfgReady, TypedRegion, Relies, Widens, EmitChild, Inv, Ready, Avail, Grows, BlockReady,
      BlockEnd, BlockStart, EmitNodes, Destructure, ValidRegion, RegionOuts, RegionIns, RegionOutTys, TargetsRely,
        TargetsOk, TypedEdge, Targets, Has, VisSlots, RelyOf, FindChild, ScopeAfter, BlockPromise, BlockResults,
          IdsAll, IdsChildren;
    ReadyBlock(c, a, children, all, bbs, exit, |outs|, d);
    BlockLater(c, a, d, all, bbs, exit, outs);
    var t := bbs[d.id];
    var z, vals := BlockEnd(a, d.nodes, t), BlockResults(a, d.nodes, t);
    var av2 := BodyDom(c, a, d, all, bbs, exit, |outs|, vis, tys, x, av);
    HeadAndTail(vals);
    BlockRows(c, a, d, all, bbs, exit, |outs|);
    SuccsRely(c, d, all, bbs, vis, tys, x, av, av2, Avail(z, av2));
    av' := DestructureDom(z, d.rows, vals[0], vals[1..], Targets(d.succs, bbs), av2);
    WidensTrans(av, av2, av');
    BlockDone(c, a, d, all, bbs, exit, outs);
    var dd := Destructure(z, d.rows, vals[0], vals[1..], Targets(d.succs, bbs));
    SoundInv(a, av);
    SoundInv(dd, av');
    InvCur(a);
    WidensLen(av, av');
    Moved(dd, a.cur, av');
    SameSound(At(dd, a.cur), EmitChild(a, d, bbs, outs), av');
  }

  lemma BlockRows(c: Ctx, a: ES, d: Child, all: seq<Child>, bbs: map<NodeId, Target>, exit: nat, nOut: nat)
    requires d.Block? && BlockReady(c, a, d, all, bbs, exit, nOut)
    ensures d.rows != []
  {
    hide Inv, ValidRegion, RegionIns, RegionOuts, IdsAll, IdsChildren;
  }

  lemma WidensLen(a: Ann, b: Ann)
    requires Widens(a, b)
    ensures |a| <= |b|
  {
  }

  lemma BlockDone(c: Ctx, a: ES, d: Child, all: seq<Child>, bbs: map<NodeId, Target>, exit: nat, outs: seq<nat>)
    requires d.Block? && BlockReady(c, a, d, all, bbs, exit, |outs|)
    ensures var z := BlockEnd(a, d.nodes, bbs[d.id]); var vals := BlockResults(a, d.nodes, bbs[d.id]);
      && |vals| >= 1
      && EmitChild(a, d, bbs, outs)
         == Ask(At(Destructure(z, d.rows, vals[0], vals[1..], Targets(d.succs, bbs)), a.cur), {NeedType(Sum(d.rows))})
  {
    hide Inv, Destructure, EmitChild, ValidRegion, RegionOuts, BlockEnd, BlockStart, EmitNodes, IdsAll, IdsChildren;
    BlockEmission(a, d, bbs, outs, |RegionIns(d.nodes)|);
  }

  /** A dataflow block up to its branch. */
  lemma {:induction false} BodyDom(c: Ctx, a: ES, d: Child, all: seq<Child>, bbs: map<NodeId, Target>, exit: nat,
                                   nOut: nat, vis: map<NodeId, Scope>, tys: seq<Ty>, x: set<Place>, av: Ann)
    returns (av': Ann)
    requires d.Block? && BlockReady(c, a, d, all, bbs, exit, nOut) && d in all && TypedChild(c.w, d, all, vis, tys)
    requires Sound(a, av) && Relies(c, all, bbs, vis, av, x) && d.id in bbs
    requires Later(BlockEnd(a, d.nodes, bbs[d.id]), c.fin)
    ensures var z := BlockEnd(a, d.nodes, bbs[d.id]);
      && Sound(z, av') && Widens(av, av') && x <= Avail(z, av')
        && UsesAll(BlockResults(a, d.nodes, bbs[d.id])) <= Avail(z, av')
      && d.id in vis && Has(c, ScopeAfter(vis[d.id], d.nodes), Avail(z, av'))
    decreases d, 1
  {
    hide Later, Sound, Relies, Widens, Inv, Ready, Avail, Grows, BlockStart, BlockEnd, EmitNodes, ValidRegion,
      TypedRegion, Emits, Open, RegionOuts, RegionIns, RegionOutTys, Has, VisSlots, LoadLine, BlockSound, DefsOf,
        ScopeAfter, IdsAll, TypedEdge, BlockReady, FindChild;
    var t := bbs[d.id];
    var s, promise := BlockStart(a, d.nodes, t), BlockPromise(a, d.nodes, t);
    var e := EmitNodes(s, d.nodes, Regs(a.regs, |t.row|), promise);
    BlockFits(c, a, d, all, bbs, exit, nOut);
    BlockParts(a, d.nodes, t);
    ReliesAt(c, all, bbs, vis, av, x, d);
    StartDom(a, d.nodes, t, av);
    VisHas(c, vis[d.id], Avail(s, av));
    RowLen(c, a, d, all, bbs, exit, nOut);
    av' := RegionDom(c, s, d.nodes, Regs(a.regs, |t.row|), promise, vis[d.id], RegionIns(d.nodes),
                     RegionOutTys(d.nodes), av);
    GrowsFacts(s, e, av, av');
    EmitsReady(s, e);
    ReadGrows(e, promise, av');
    var z := BlockEnd(a, d.nodes, t);
    EndIs(a, d.nodes, t);
    GrowsFacts(e, z, av', av');
    HasMore(c, ScopeAfter(vis[d.id], d.nodes), Avail(e, av'), Avail(z, av'));
  }

  lemma EndIs(a: ES, nodes: seq<Node>, t: Target)
    ensures var s, promise := BlockStart(a, nodes, t), BlockPromise(a, nodes, t);
      var e := EmitNodes(s, nodes, Regs(a.regs, |t.row|), promise);
      && BlockEnd(a, nodes, t) == PutPiece(e, ReadRow(promise, e.regs))
      && BlockResults(a, nodes, t) == Regs(e.regs, |promise|)
  {
    hide BlockStart, EmitNodes;
  }

  lemma RowLen(c: Ctx, a: ES, d: Child, all: seq<Child>, bbs: map<NodeId, Target>, exit: nat, nOut: nat)
    requires d.Block? && BlockReady(c, a, d, all, bbs, exit, nOut) && d.id in bbs
    ensures |bbs[d.id].row| == |RegionIns(d.nodes)|
  {
    hide Inv, ValidRegion, RegionIns, RegionOuts, IdsAll, IdsChildren;
  }

  lemma StartDom(a: ES, nodes: seq<Node>, t: Target, av: Ann)
    requires Sound(a, av) && 1 <= t.blk < |a.code| && t.blk < |av| && a.code[t.blk] == [] && Slots(t.row) <= av[t.blk]
    requires ValidRegion(nodes, |t.row|, |RegionOuts(nodes)|)
    ensures var s := BlockStart(a, nodes, t);
      Sound(s, av) && av[t.blk] <= Avail(s, av) && UsesAll(Regs(a.regs, |t.row|)) <= Avail(s, av)
  {
    hide Later, Sound, Inv, Avail, Grows, BlockStart, ValidNodes, Open, RegionOuts, RegionIns, RegionOutTys, LoadLine,
      BlockSound, DefsOf, CountOp, Mod, Shut;
    SoundInv(a, av);
    OutputTys(nodes, |t.row|, RegionOuts(nodes));
    OpenEmpty();
    BlockStartLaws(a, nodes, t);
    var s := BlockStart(a, nodes, t);
    MovedEmpty(a, t.blk, av);
    RowLoads(t.row, a.regs, av[t.blk], av);
    ModOf(At(a, t.blk), s);
    Appended(At(a, t.blk), s, LoadLine(t.row, a.regs), av);
  }

  lemma OpenEmpty()
    ensures Open([])
  {
  }

  /** Whatever a block relies on is there at the end of each of its predecessors. */
  lemma SuccsRely(c: Ctx, d: Child, all: seq<Child>, bbs: map<NodeId, Target>, vis: map<NodeId, Scope>, tys: seq<Ty>,
                  x: set<Place>, av: Ann, av2: Ann, y: set<Place>)
    requires d.Block? && TypedChild(c.w, d, all, vis, tys) && Relies(c, all, bbs, vis, av, x) && Widens(av, av2)
    requires x <= y
    requires d.id in vis && Has(c, ScopeAfter(vis[d.id], d.nodes), y) && forall u :: u in d.succs ==> u in bbs
    ensures TargetsRely(Targets(d.succs, bbs), av2, y)
  {
    hide Relies, Widens, Has, VisSlots, TypedRegion, RegionIns, RegionOuts, RegionOutTys, ScopeAfter, FindChild,
      IdsAll, RelyOf, TypedEdge;
    forall i | 0 <= i < |d.succs|
      ensures bbs[d.succs[i]].blk < |av2| && av2[bbs[d.succs[i]].blk] <= y + Slots(bbs[d.succs[i]].row)
    {
      assert d.succs[i] in d.succs;
      var u := FindChild(all, d.succs[i]).value;
      EdgeRelies(c, u, bbs, vis, ScopeAfter(vis[d.id], d.nodes), d.rows[i].tys + RegionOutTys(d.nodes)[1..], tys, y);
      ReliesAt(c, all, bbs, vis, av, x, u);
      WidensAt(av, av2, bbs[u.id].blk);
    }
  }

  lemma EdgeRelies(c: Ctx, u: Child, bbs: map<NodeId, Target>, vis: map<NodeId, Scope>, g: Scope, tys: seq<Ty>,
                   outs: seq<Ty>, y: set<Place>)
    requires TypedEdge(u, vis, g, tys, outs) && Has(c, g, y) && IsBlock(u) && u.id in bbs
    ensures RelyOf(c, u, bbs, vis) <= y + Slots(bbs[u.id].row)
  {
    hide RegionIns, Has, VisSlots;
    if u.Block? {
      HasLess(c, g, vis[u.id], y);
      VisHas(c, vis[u.id], y);
    }
  }

  // ----- functions -----

  lemma FuncDom(c: Ctx, f: FuncDefn) returns (av: Ann)
    requires ValidFunc(f) && TypedRegion(c.w, f.nodes, map[], f.ins, f.outs) && c.fin == EmitFunc(f)
    ensures SoundCode(EmitFunc(f).code, av) && |av| >= 2 && av[0] == {} && av[1] == {}
  {
    hide Later, Sound, Avail, Has, EmitNodes, EmitRegion, ValidRegion, TypedRegion, Grows, Inv, Open, Emits, FuncStart,
      FuncBody, EmitFunc, SoundCode, Widens, NewRow;
    var s0, row := FuncStart(f), FreshRow(0, |f.outs|);
    FuncBodyLaws(f);
    FuncEnds(f);
    RegionOnce(s0, f.nodes, Params(|f.ins|), row, |f.ins|, |f.outs|);
    BodyIs(f);
    var av0: Ann := [{}, {}];
    StartSound(s0);
    NoScope(c, Avail(s0, av0));
    ParamsUse(|f.ins|);
    av := RegionDom(c, s0, f.nodes, Params(|f.ins|), row, map[], f.ins, f.outs, av0);
    GrowsFacts(s0, FuncBody(f), av0, av);
    WidensAt(av0, av, 0);
    WidensAt(av0, av, 1);
    EmitsReady(s0, FuncBody(f));
    EndSound(f, av);
  }

  lemma BodyIs(f: FuncDefn)
    ensures FuncBody(f) == EmitRegion(FuncStart(f), f.nodes, Params(|f.ins|), FreshRow(0, |f.outs|))
  {
  }

  lemma StartSound(s: ES)
    requires Ready(s) && |s.code| == 2 && s.code[1] == []
    ensures Sound(s, [{}, {}])
  {
    hide LayoutOk, JumpsOk, EnvOk, BlockSound;
    AllocaBlock(s, {}, [{}, {}]);
    EmptyBlock({}, [{}, {}]);
  }

  lemma NoScope(c: Ctx, v: set<Place>)
    ensures Has(c, map[], v)
  {
  }

  lemma ParamsUse(n: nat)
    ensures UsesAll(Params(n)) == {}
  {
    forall o | o in Params(n) ensures !o.Reg? {
      var i :| 0 <= i < n && Params(n)[i] == o;
    }
  }

  lemma EndSound(f: FuncDefn, av: Ann)
    requires ValidFunc(f) && Ready(FuncBody(f)) && Sound(FuncBody(f), av) && |av| >= 2 && av[1] == {}
    requires Slots(FreshRow(0, |f.outs|)) <= Avail(FuncBody(f), av)
    ensures SoundCode(EmitFunc(f).code, av)
  {
    hide Sound, Avail, EmitRegion, ValidRegion, Inv, Open, FuncBody, SoundCode, Mod, Closed, DefsOf, LoadLine;
    var s, row := FuncBody(f), FreshRow(0, |f.outs|);
    var p := ReadRow(row, s.regs);
    ReadGrows(s, row, av);
    ReadRowEmits(s, row);
    var s1 := PutPiece(s, p);
    GrowsFacts(s, s1, av, av);
    EmitsReady(s, s1);
    TerminateCloses(s1, Ret(p.vals));
    RetSound(p.vals, Avail(s1, av), av);
    Appended(s1, Terminate(s1, Ret(p.vals)), [Ret(p.vals)], av);
    LastSound(Terminate(s1, Ret(p.vals)), av);
  }

  lemma RetSound(vals: seq<Operand>, v: set<Place>, av: Ann)
    requires UsesAll(vals) <= v
    ensures BlockSound([Ret(vals)], v, av)
  {
    OneOrdered(Ret(vals), v);
  }

  /** The branch out of the alloca block. */
  lemma LastSound(s: ES, av: Ann)
    requires Sound(s, av) && |av| >= 2 && av[1] == {}
    ensures SoundCode(Terminate(At(s, 0), Br(1)).code, av)
  {
    hide LayoutOk, JumpsOk, EnvOk, BlockSound, DefsOf;
    var code := Terminate(At(s, 0), Br(1)).code;
    forall b | 0 <= b < |av| ensures BlockSound(code[b], av[b], av) {
      BlockAt(s, av, b);
      if b == 0 {
        JumpSound(1, av[0] + DefsOf(s.code[0]), av);
        BlockAppended(s.code[0], [Br(1)], av[0], av);
      }
    }
  }

  /** On every path from the start of an emitted function, whatever an instruction uses has been defined before: by
      the blocks on the path, or earlier in its own block. */
  lemma DefinedBeforeUse(w: World, f: FuncDefn, path: seq<nat>, j: nat)
    requires ValidFunc(f) && TypedRegion(w, f.nodes, map[], f.ins, f.outs)
    requires IsPath(EmitFunc(f).code, path) && path[0] == 0 && j < |EmitFunc(f).code[path[|path| - 1]]|
    ensures var code := EmitFunc(f).code; var last := path[|path| - 1];
      Uses(code[last][j]) <= DefsAlong(code, path[..|path| - 1]) + DefsOf(code[last][..j])
  {
    hide TypedRegion, ValidRegion, EmitFunc, BlockSound, Uses, DefsOf;
    var code, last := EmitFunc(f).code, path[|path| - 1];
    var av := FuncDom(Ctx(w, map[], 0, EmitFunc(f)), f);
    DefinedAlong(code, av, path);
    BlockOrdered(code[last], av[last], av);
    OrderedAt(code[last], av[last], j);
  }

  lemma {:induction false} DefiningInstr(b: seq<Instr>, p: Place) returns (i: nat)
    requires p in DefsOf(b)
    ensures i < |b| && p in Defs(b[i])
  {
    if p in Defs(b[0]) {
      i := 0;
    } else {
      var k := DefiningInstr(b[1..], p);
      i := k + 1;
    }
  }

  lemma {:induction false} DefiningBlock(code: Code, path: seq<nat>, p: Place) returns (k: nat)
    requires (forall i :: 0 <= i < |path| ==> path[i] < |code|) && p in DefsAlong(code, path)
    ensures k < |path| && p in DefsOf(code[path[k]])
  {
    if p in DefsOf(code[path[|path| - 1]]) {
      k := |path| - 1;
    } else {
      k := DefiningBlock(code, path[..|path| - 1], p);
    }
  }

  /** Static single assignment with dominance: a register that is used has one definition; it comes earlier in the
      block of the use, or its block lies on every path from the start of the function to the use. */
  lemma {:induction false} DefinitionDominatesUse(w: World, f: FuncDefn, r: nat, b: nat, i: nat, path: seq<nat>, j: nat)
    requires ValidFunc(f) && TypedRegion(w, f.nodes, map[], f.ins, f.outs)
    requires IsPath(EmitFunc(f).code, path) && path[0] == 0 && j < |EmitFunc(f).code[path[|path| - 1]]|
    requires InReg(r) in Uses(EmitFunc(f).code[path[|path| - 1]][j])
    requires DefinesReg(EmitFunc(f).code, b, i, r)
    ensures if b == path[|path| - 1] then i < j else b in path
    ensures forall b', i' :: DefinesReg(EmitFunc(f).code, b', i', r) ==> b' == b && i' == i
    decreases path
  {
    hide TypedRegion, ValidRegion, EmitFunc, Uses, DefsOf, Defs, DefsAlong;
    var code, last := EmitFunc(f).code, path[|path| - 1];
    forall b', i' | DefinesReg(code, b', i', r) ensures b' == b && i' == i {
      Registers.RegisterDefinedOnce(f, b, i, b', i', r);
    }
    if k :| 0 <= k < |path| - 1 && path[k] == last {
      SubPath(code, path, k);
      assert path[..k + 1][k] == last;
      DefinitionDominatesUse(w, f, r, b, i, path[..k + 1], j);
    } else {
      DefinedBeforeUse(w, f, path, j);
      var before := path[..|path| - 1];
      if InReg(r) in DefsAlong(code, before) {
        var k := DefiningBlock(code, before, InReg(r));
        var i' := DefiningInstr(code[path[k]], InReg(r));
        assert DefinesReg(code, path[k], i', r);
      } else {
        var i' := DefiningInstr(code[last][..j], InReg(r));
        assert DefinesReg(code, last, i', r);
      }
    }
  }

  lemma SubPath(code: Code, path: seq<nat>, k: nat)
    requires IsPath(code, path) && k < |path|
    ensures IsPath(code, path[..k + 1])
  {
    var p := path[..k + 1];
    forall i | 0 <= i < |p| - 1 ensures p[i + 1] in Succs(code[p[i]]) {
      assert path[i + 1] in Succs(code[path[i]]);
    }
  }

  lemma BlockOrdered(block: Block, v: set<Place>, av: Ann)
    requires BlockSound(block, v, av)
    ensures Ordered(block, v)
  {
  }
}
