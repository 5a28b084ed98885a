/** Mailboxes over whole histories: whatever the sequence of requests a function's emission makes, a wire keeps one
    mailbox of its type, different wires have different ones, and anonymous mailboxes are nobody else's. */
module Mailboxes {
  import opened Values
  import opened Hugr
  import opened Builder
  import opened EmitLaws

  /** What emission asks for: the mailboxes of the input or output wires of a node, or anonymous ones. */
  datatype Request = OfWires(ws: seq<Wire>, tys: seq<Ty>) | Anonymous(tys: seq<Ty>)

  function Serve(st: ES, r: Request): (ES, seq<nat>) {
    match r
    case OfWires(ws, tys) => (MapWires(st, ws, tys), RowOf(MapWires(st, ws, tys).env, ws))
    case Anonymous(tys) => (NewRow(st, tys), FreshRow(|st.slots|, |tys|))
  }

  function ServeAll(st: ES, rs: seq<Request>): (r: (ES, seq<seq<nat>>))
    ensures |r.1| == |rs|
    decreases rs
  {
    if rs == [] then (st, []) else
    var (s, row) := Serve(st, rs[0]);
    var (t, rows) := ServeAll(s, rs[1..]);
    (t, [row] + rows)
  }

  predicate WellFormed(rs: seq<Request>) {
    forall i :: 0 <= i < |rs| && rs[i].OfWires? ==> |rs[i].ws| == |rs[i].tys|
  }

  /** The edges of a graph are typed: a wire is asked for at one type only, which `ty` gives. */
  ghost predicate TypedBy(rs: seq<Request>, ty: Wire -> Ty) {
    forall i, k :: 0 <= i < |rs| && rs[i].OfWires? && 0 <= k < |rs[i].ws| && k < |rs[i].tys| ==>
      rs[i].tys[k] == ty(rs[i].ws[k])
  }

  ghost predicate EnvTyped(st: ES, ty: Wire -> Ty) {
    forall w :: w in st.env && st.env[w] < |st.slots| ==> st.slots[st.env[w]] == ty(w)
  }

  // ----- one request -----

  lemma {:induction false} NewRowTypes(st: ES, tys: seq<Ty>)
    requires |st.code| > 0
    ensures NewRow(st, tys).slots == st.slots + tys && |NewRow(st, tys).code| == |st.code|
    decreases tys
  {
    if tys != [] { NewRowTypes(Alloc(st, tys[0]), tys[1..]); }
  }

  lemma {:induction false} MapWiresTypes(st: ES, ws: seq<Wire>, tys: seq<Ty>, ty: Wire -> Ty)
    requires Inv(st) && |ws| == |tys| && EnvTyped(st, ty) && forall k :: 0 <= k < |ws| ==> tys[k] == ty(ws[k])
    ensures EnvTyped(MapWires(st, ws, tys), ty)
    decreases ws
  {
    if ws != [] {
      MapWireAllocates(st, ws[0], tys[0]);
      var s := MapWire(st, ws[0], tys[0]);
      assert EnvTyped(s, ty);
      MapWiresTypes(s, ws[1..], tys[1..], ty);
    }
  }

  lemma ServeLaws(st: ES, r: Request, ty: Wire -> Ty)
    requires Inv(st) && EnvTyped(st, ty) && WellFormed([r]) && TypedBy([r], ty)
    ensures var s := Serve(st, r).0;
      && Inv(s) && Later(st, s) && EnvTyped(s, ty) && |Serve(st, r).1| == |r.tys|
      && (r.OfWires? ==> Mapped(r.ws, s.env))
      && (r.Anonymous? ==> s.env == st.env && s.slots == st.slots + r.tys)
  {
    assert [r][0] == r;
    match r {
      case OfWires(ws, tys) =>
        MapWiresAllocates(st, ws, tys);
        MapWiresTypes(st, ws, tys, ty);
      case Anonymous(tys) =>
        NewRowAllocates(st, tys);
        NewRowTypes(st, tys);
    }
  }

  // ----- any sequence of requests -----

  /** What a request was given, in terms of the final state. */
  ghost predicate Served(fin: ES, r: Request, row: seq<nat>, lo: nat, ty: Wire -> Ty) {
    true == (
    && |row| == |r.tys|
    && (forall k :: 0 <= k < |row| ==> row[k] < |fin.slots| && fin.slots[row[k]] == r.tys[k])
    && (r.OfWires? ==> Mapped(r.ws, fin.env) && row == RowOf(fin.env, r.ws))
    && (r.Anonymous? ==>
      forall k :: 0 <= k < |row| ==> row[k] >= lo && forall w :: w in fin.env ==> fin.env[w] != row[k]))
  }

  ghost predicate Disjoint(a: seq<nat>, b: seq<nat>) {
    forall i, j :: 0 <= i < |a| && 0 <= j < |b| ==> a[i] != b[j]
  }

  lemma Tail(rs: seq<Request>, ty: Wire -> Ty)
    requires rs != [] && WellFormed(rs) && TypedBy(rs, ty)
    ensures WellFormed(rs[1..]) && TypedBy(rs[1..], ty) && WellFormed([rs[0]]) && TypedBy([rs[0]], ty)
  {
    forall i | 0 <= i < |rs[1..]| ensures rs[1..][i] == rs[i + 1] {}
  }

  lemma {:induction false} ServeAllLaws(st: ES, rs: seq<Request>, ty: Wire -> Ty)
    requires Inv(st) && EnvTyped(st, ty) && WellFormed(rs) && TypedBy(rs, ty)
    ensures Inv(ServeAll(st, rs).0) && Later(st, ServeAll(st, rs).0) && EnvTyped(ServeAll(st, rs).0, ty)
    ensures forall i :: 0 <= i < |rs| ==> Served(ServeAll(st, rs).0, rs[i], ServeAll(st, rs).1[i], |st.slots|, ty)
    ensures forall i, j :: 0 <= i < j < |rs| && rs[i].Anonymous? && rs[j].Anonymous? ==>
              Disjoint(ServeAll(st, rs).1[i], ServeAll(st, rs).1[j])
    decreases rs
  {
    hide Inv, Later, EnvTyped, Served, Serve, WellFormed, TypedBy, Disjoint;
    if rs == [] {
      LaterSelf(st);
    } else {
      Tail(rs, ty);
      var (s, row) := Serve(st, rs[0]);
      ServeLaws(st, rs[0], ty);
      ServeAllLaws(s, rs[1..], ty);
      var fin, rows := ServeAll(s, rs[1..]).0, ServeAll(s, rs[1..]).1;
      LaterTrans(st, s, fin);
      FirstServed(st, rs[0], fin, ty);
      forall i | 0 <= i < |rs| ensures Served(fin, rs[i], ServeAll(st, rs).1[i], |st.slots|, ty) {
        if i > 0 {
          assert rs[i] == rs[1..][i - 1] && ServeAll(st, rs).1[i] == rows[i - 1];
          ServedBefore(st, s, fin, rs[i], rows[i - 1], ty);
        }
      }
      forall i, j | 0 <= i < j < |rs| && rs[i].Anonymous? && rs[j].Anonymous?
        ensures Disjoint(ServeAll(st, rs).1[i], ServeAll(st, rs).1[j])
      {
        assert rs[j] == rs[1..][j - 1] && ServeAll(st, rs).1[j] == rows[j - 1];
        if i == 0 {
          FirstDisjoint(st, rs[0], fin, rs[j], rows[j - 1], ty);
        } else {
          assert rs[i] == rs[1..][i - 1] && ServeAll(st, rs).1[i] == rows[i - 1];
        }
      }
    }
  }

  lemma LaterSelf(st: ES)
    ensures Later(st, st)
  {
  }

  lemma FirstServed(st: ES, r: Request, fin: ES, ty: Wire -> Ty)
    requires Inv(st) && EnvTyped(st, ty) && WellFormed([r]) && TypedBy([r], ty)
    requires Inv(fin) && Later(Serve(st, r).0, fin) && EnvTyped(fin, ty)
    ensures Served(fin, r, Serve(st, r).1, |st.slots|, ty)
  {
    hide Inv, Later, Served, EnvTyped, MapWires, NewRow;
    ServeLaws(st, r, ty);
    assert [r][0] == r;
    match r {
      case OfWires(ws, tys) => WiresServed(Serve(st, r).0, r, fin, |st.slots|, ty);
      case Anonymous(tys) => AnonymousServed(st, Serve(st, r).0, r, fin, ty);
    }
  }

  lemma WiresServed(s: ES, r: Request, fin: ES, lo: nat, ty: Wire -> Ty)
    requires r.OfWires? && Inv(fin) && Later(s, fin) && EnvTyped(fin, ty) && Mapped(r.ws, s.env) && |r.ws| == |r.tys|
    requires forall k :: 0 <= k < |r.ws| ==> r.tys[k] == ty(r.ws[k])
    ensures Served(fin, r, RowOf(s.env, r.ws), lo, ty)
  {
    hide LayoutOk, JumpsOk;
    forall k | 0 <= k < |r.ws| ensures r.ws[k] in s.env && r.ws[k] in fin.env && fin.env[r.ws[k]] == s.env[r.ws[k]] {
      assert r.ws[k] in r.ws;
    }
    assert RowOf(s.env, r.ws) == RowOf(fin.env, r.ws);
  }

  lemma AnonymousServed(st: ES, s: ES, r: Request, fin: ES, ty: Wire -> Ty)
    requires r.Anonymous? && Inv(st) && Later(s, fin) && s.env == st.env && s.slots == st.slots + r.tys
    ensures Served(fin, r, FreshRow(|st.slots|, |r.tys|), |st.slots|, ty)
  {
    hide LayoutOk, JumpsOk;
  }

  lemma ServedBefore(st: ES, s: ES, fin: ES, r: Request, row: seq<nat>, ty: Wire -> Ty)
    requires Later(st, s) && Served(fin, r, row, |s.slots|, ty)
    ensures Served(fin, r, row, |st.slots|, ty)
  {
  }

  lemma FirstDisjoint(st: ES, r: Request, fin: ES, r': Request, row': seq<nat>, ty: Wire -> Ty)
    requires Inv(st) && EnvTyped(st, ty) && WellFormed([r]) && TypedBy([r], ty) && r.Anonymous? && r'.Anonymous?
    requires Served(fin, r', row', |Serve(st, r).0.slots|, ty)
    ensures Disjoint(Serve(st, r).1, row')
  {
    ServeLaws(st, r, ty);
  }

  /** Every mailbox has the type it was asked for. */
  ghost predicate OwnTypes(rs: seq<Request>, fin: ES, rows: seq<seq<nat>>) {
    |rows| == |rs| && forall i :: 0 <= i < |rs| ==>
      && |rows[i]| == |rs[i].tys|
      && forall k :: 0 <= k < |rows[i]| ==> rows[i][k] < |fin.slots| && fin.slots[rows[i][k]] == rs[i].tys[k]
  }

  /** Two wires have the same mailbox exactly when they are the same wire. */
  ghost predicate OnePerWire(rs: seq<Request>, rows: seq<seq<nat>>) {
    |rows| == |rs| && forall i, j :: 0 <= i < |rs| && 0 <= j < |rs| && rs[i].OfWires? && rs[j].OfWires? ==>
      forall k, l :: 0 <= k < |rs[i].ws| && 0 <= l < |rs[j].ws| && k < |rows[i]| && l < |rows[j]| ==>
        (rows[i][k] == rows[j][l] <==> rs[i].ws[k] == rs[j].ws[l])
  }

  /** An anonymous mailbox is shared with no wire and with no other anonymous mailbox. */
  ghost predicate AnonymousApart(rs: seq<Request>, rows: seq<seq<nat>>) {
    |rows| == |rs| && forall i, j :: 0 <= i < |rs| && 0 <= j < |rs| && i != j && rs[i].Anonymous? ==>
      Disjoint(rows[i], rows[j])
  }

  /** The theorem: over any sequence of requests, from the start of a function. */
  lemma MailboxesNeverAlias(rs: seq<Request>, ty: Wire -> Ty)
    requires WellFormed(rs) && TypedBy(rs, ty)
    ensures OwnTypes(rs, ServeAll(Initial, rs).0, ServeAll(Initial, rs).1)
    ensures OnePerWire(rs, ServeAll(Initial, rs).1)
    ensures AnonymousApart(rs, ServeAll(Initial, rs).1)
  {
    hide Inv, Later, EnvTyped, Served, Serve, WellFormed, TypedBy, ServeAll;
    InitialReady();
    InitialTyped(ty);
    ServeAllLaws(Initial, rs, ty);
    var fin, rows := ServeAll(Initial, rs).0, ServeAll(Initial, rs).1;
    forall i | 0 <= i < |rs|
      ensures |rows[i]| == |rs[i].tys|
      ensures forall k :: 0 <= k < |rows[i]| ==> rows[i][k] < |fin.slots| && fin.slots[rows[i][k]] == rs[i].tys[k]
    {
      ServedTypes(fin, rs[i], rows[i], |Initial.slots|, ty);
    }
    forall i, j, k, l | 0 <= i < |rs| && 0 <= j < |rs| && rs[i].OfWires? && rs[j].OfWires?
                        && 0 <= k < |rs[i].ws| && 0 <= l < |rs[j].ws| && k < |rows[i]| && l < |rows[j]|
      ensures rows[i][k] == rows[j][l] <==> rs[i].ws[k] == rs[j].ws[l]
    {
      OneMailbox(fin, rs[i], rs[j], rows[i], rows[j], k, l, |Initial.slots|, ty);
    }
    forall i, j | 0 <= i < |rs| && 0 <= j < |rs| && i != j && rs[i].Anonymous? ensures Disjoint(rows[i], rows[j]) {
      if rs[j].OfWires? {
        NotAWire(fin, rs[i], rs[j], rows[i], rows[j], |Initial.slots|, ty);
      } else if i < j {
        assert Disjoint(rows[i], rows[j]);
      } else {
        assert Disjoint(rows[j], rows[i]);
      }
    }
  }

  lemma InitialTyped(ty: Wire -> Ty)
    ensures EnvTyped(Initial, ty) && Inv(Initial)
  {
    hide LayoutOk, JumpsOk;
    InitialReady();
  }

  lemma ServedTypes(fin: ES, r: Request, row: seq<nat>, lo: nat, ty: Wire -> Ty)
    requires Served(fin, r, row, lo, ty)
    ensures |row| == |r.tys| && forall k :: 0 <= k < |row| ==> row[k] < |fin.slots| && fin.slots[row[k]] == r.tys[k]
  {
  }

  lemma OneMailbox(fin: ES, a: Request, b: Request, rowA: seq<nat>, rowB: seq<nat>, k: nat, l: nat, lo: nat,
                   ty: Wire -> Ty)
    requires Inv(fin) && Served(fin, a, rowA, lo, ty) && Served(fin, b, rowB, lo, ty) && a.OfWires? && b.OfWires?
    requires k < |a.ws| && l < |b.ws| && k < |rowA| && l < |rowB|
    ensures rowA[k] == rowB[l] <==> a.ws[k] == b.ws[l]
  {
    hide LayoutOk, JumpsOk;
    assert a.ws[k] in a.ws && b.ws[l] in b.ws;
  }

  lemma NotAWire(fin: ES, a: Request, b: Request, rowA: seq<nat>, rowB: seq<nat>, lo: nat, ty: Wire -> Ty)
    requires Served(fin, a, rowA, lo, ty) && Served(fin, b, rowB, lo, ty) && a.Anonymous? && b.OfWires?
    ensures Disjoint(rowA, rowB)
  {
    forall l | 0 <= l < |rowB| ensures b.ws[l] in fin.env && fin.env[b.ws[l]] == rowB[l] {
      assert b.ws[l] in b.ws;
    }
  }
}
