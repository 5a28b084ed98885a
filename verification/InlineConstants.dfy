/** Elimination of function constants: each used one becomes a function definition holding its body, and the loads of
    it become function loads; bodies may hold further function constants, so the pass runs until nothing changes. */
module InlineConstants {
  import opened Values

  /** Constants.  A function constant holds a HUGR of its own, whose node 0 is the root. */
  datatype Value = Function(body: seq<Op>) | SumValue(vals: seq<Value>) | Extension(n: int)

  /** Nodes, with the constant they are linked to by a static edge. */
  datatype Op =
    | Const(v: Value)
    | LoadConstant(k: NodeId)
    | UsesConstant(k: NodeId)
    | LoadFunction
    | Dfg
    | FuncDefn
    | Other(n: int)

  /** Node slots; removed nodes leave `None` behind, and new nodes go at the end. */
  type Graph = seq<Option<Op>>

  /** A function constant, its body, and the loads of it. */
  datatype ConstFun = ConstFun(node: NodeId, body: seq<Op>, loads: seq<NodeId>)

  // ----- counting function constants through nesting -----

  function Count(v: Value): nat
    decreases v, 1
  {
    match v
    case Function(body) => 1 + CountBody(body)
    case SumValue(vals) => CountVals(vals)
    case Extension(_) => 0
  }

  function CountVals(vals: seq<Value>): nat
    decreases vals, 0
  {
    if vals == [] then 0 else Count(vals[0]) + CountVals(vals[1..])
  }

  function CountOp(op: Op): nat
    decreases op, 1
  {
    match op case Const(v) => Count(v) case _ => 0
  }

  function CountBody(body: seq<Op>): nat
    decreases body, 0
  {
    if body == [] then 0 else CountOp(body[0]) + CountBody(body[1..])
  }

  function CountNode(o: Option<Op>): nat {
    match o case Some(op) => CountOp(op) case None => 0
  }

  function Total(g: Graph): nat {
    if g == [] then 0 else CountNode(g[0]) + Total(g[1..])
  }

  lemma {:induction false} TotalConcat(a: Graph, b: Graph)
    ensures Total(a + b) == Total(a) + Total(b)
  {
    if a == [] {
      assert a + b == b;
    } else {
      assert (a + b)[1..] == a[1..] + b;
      TotalConcat(a[1..], b);
    }
  }

  lemma {:induction false} TotalUpdate(g: Graph, i: nat, o: Option<Op>)
    requires i < |g|
    ensures Total(g[i := o]) + CountNode(g[i]) == Total(g) + CountNode(o)
  {
    if i > 0 {
      assert g[i := o][1..] == g[1..][i - 1 := o];
      TotalUpdate(g[1..], i - 1, o);
    } else {
      assert g[0 := o][1..] == g[1..];
    }
  }

  // ----- graphs -----

  predicate IsFunctionConst(o: Option<Op>) {
    o.Some? && o.value.Const? && o.value.v.Function?
  }

  /** Static edges come from constants. */
  predicate Linked(o: Option<Op>, g: Graph) {
    o.Some? && (o.value.LoadConstant? || o.value.UsesConstant?) ==>
      o.value.k < |g| && g[o.value.k].Some? && g[o.value.k].value.Const?
  }

  predicate WellLinked(g: Graph) {
    forall i :: 0 <= i < |g| ==> Linked(g[i], g)
  }

  function Lift(body: seq<Op>): Graph {
    seq(|body|, i requires 0 <= i < |body| => Some(body[i]))
  }

  /** Constants hold well-linked bodies, all the way down. */
  predicate WellFormedValue(v: Value)
    decreases v, 1
  {
    match v
    case Function(body) =>
      WellLinked(Lift(body)) && forall i :: 0 <= i < |body| && body[i].Const? ==> WellFormedValue(body[i].v)
    case SumValue(_) => true
    case Extension(_) => true
  }

  predicate WellFormed(g: Graph) {
    WellLinked(g) && forall i :: 0 <= i < |g| && g[i].Some? && g[i].value.Const? ==> WellFormedValue(g[i].value.v)
  }

  /** The nodes of a body, renumbered to follow `offset` existing ones. */
  function Shift(op: Op, offset: nat): Op {
    match op
    case LoadConstant(k) => LoadConstant(k + offset)
    case UsesConstant(k) => UsesConstant(k + offset)
    case _ => op
  }

  function Shifted(body: seq<Op>, offset: nat): (g: Graph)
    ensures |g| == |body| && forall i :: 0 <= i < |g| ==> g[i] == Some(Shift(body[i], offset))
  {
    seq(|body|, i requires 0 <= i < |body| => Some(Shift(body[i], offset)))
  }

  lemma {:induction false} ShiftedTotal(body: seq<Op>, offset: nat)
    ensures Total(Shifted(body, offset)) == CountBody(body)
    decreases body
  {
    if body != [] {
      assert Shifted(body, offset)[1..] == Shifted(body[1..], offset);
      ShiftedTotal(body[1..], offset);
    }
  }

  // ----- what one round does -----

  /** The fate of an existing node: function constants go, loads of them load functions, the rest stays. */
  function Fate(g: Graph, i: nat): Option<Op>
    requires i < |g|
  {
    if IsFunctionConst(g[i]) then None
    else if g[i].Some? && g[i].value.LoadConstant? && g[i].value.k < |g| && IsFunctionConst(g[g[i].value.k])
    then Some(LoadFunction)
    else g[i]
  }

  predicate UsedBy(o: Option<Op>, k: NodeId) {
    o == Some(LoadConstant(k)) || o == Some(UsesConstant(k))
  }

  predicate LoadsOf(g: Graph, k: NodeId, loads: seq<NodeId>) {
    && (forall i :: 0 <= i < |loads| ==> loads[i] < |g| && g[loads[i]] == Some(LoadConstant(k)))
    && (forall i :: 0 <= i < |g| && g[i] == Some(LoadConstant(k)) ==> i in loads)
  }

  predicate SupportedRoot(body: seq<Op>) {
    body != [] && (body[0].Dfg? || body[0].FuncDefn?)
  }

  /** What makes a round fail: a body whose root is neither a dataflow graph nor a function definition, or a use
      that is no load. */
  predicate Unsupported(g: Graph) {
    exists k :: 0 <= k < |g| && IsFunctionConst(g[k])
      && var body := g[k].value.v.body; body == [] || body[0] !in [Dfg, FuncDefn] || Some(UsesConstant(k)) in g
  }

  /** The constants yet to be processed: all function constants of `g` from `i` on, with all their loads. */
  predicate Pending(g: Graph, cs: seq<ConstFun>) {
    && (forall c :: c in cs ==>
      c.node < |g| && g[c.node] == Some(Const(Function(c.body))) && LoadsOf(g, c.node, c.loads))
    && (forall k :: 0 <= k < |g| && IsFunctionConst(g[k]) ==> exists c :: c in cs && c.node == k)
    && (forall i, j :: 0 <= i < j < |cs| ==> cs[i].node != cs[j].node)
  }

  // ----- where bodies end up -----

  predicate IsFunction(op: Op) {
    op.Const? && op.v.Function?
  }

  /** What a node of a body is in a graph in which the body's node 0 has index `at`. */
  predicate Copied(op: Op, o: Option<Op>, at: nat) {
    match op
    case LoadConstant(k) => o == Some(LoadConstant(at + k))
    case UsesConstant(k) => o == Some(UsesConstant(at + k))
    case _ => o == Some(op)
  }

  /** A function definition at `k`, with the nodes of `body` below it. */
  predicate InsertedAt(body: seq<Op>, g: Graph, k: nat) {
    && k + |body| < |g| && g[k] == Some(FuncDefn)
    && forall j :: 0 <= j < |body| ==> Copied(body[j], g[k + 1 + j], k + 1)
  }

  predicate IsUsed(g: Graph, k: nat) {
    k < |g| && IsFunctionConst(g[k]) && Some(LoadConstant(k)) in g
  }

  /** What becomes of a node of a body inserted from `at` on, once the body's own function constants are gone. */
  predicate SettledAs(body: seq<Op>, op: Op, o: Option<Op>, at: nat) {
    match op
    case Const(Function(_)) => o == None
    case LoadConstant(k) =>
      o == if k < |body| && IsFunction(body[k]) then Some(LoadFunction) else Some(LoadConstant(at + k))
    case _ => Copied(op, o, at)
  }

  /** The body of function constant `v` is that of a function of `g`, and so are, however deep, those of the function
      constants used in it. */
  ghost predicate Realized(v: Value, g: Graph)
    decreases v, 1
  {
    exists k: nat :: RealizedAt(v, g, k)
  }

  ghost predicate RealizedAt(v: Value, g: Graph, k: nat)
    decreases v, 0
  {
    && v.Function? && k + |v.body| < |g| && g[k] == Some(FuncDefn)
    && (forall j :: 0 <= j < |v.body| ==> SettledAs(v.body, v.body[j], g[k + 1 + j], k + 1))
    && forall j :: 0 <= j < |v.body| && IsFunction(v.body[j]) && LoadConstant(j) in v.body ==> Realized(v.body[j].v, g)
  }

  /** Every function constant in use in `g` is a function of `h`. */
  ghost predicate AllRealized(g: Graph, h: Graph) {
    forall k: nat :: IsUsed(g, k) ==> Realized(g[k].value.v, h)
  }

  // ----- processing one constant -----

  /** `h` is `g` with the constant `c` inlined. */
  ghost predicate Inlined(g: Graph, c: ConstFun, h: Graph) {
    && |h| >= |g|
    && (forall i :: 0 <= i < |g| ==>
          h[i] == if i == c.node then None else if g[i] == Some(LoadConstant(c.node)) then Some(LoadFunction) else g[i])
    && h[|g|..] == if c.loads == [] then [] else [Some(FuncDefn)] + Shifted(c.body, |g| + 1)
  }

  predicate Inlinable(g: Graph, c: ConstFun) {
    && c.node < |g| && g[c.node] == Some(Const(Function(c.body))) && Some(UsesConstant(c.node)) !in g
  }

  /** What one step adds is the body, unchanged but for the indices of its static edges. */
  lemma BodyInserted(g: Graph, c: ConstFun, h: Graph)
    requires Inlined(g, c, h) && c.loads != []
    ensures InsertedAt(c.body, h, |g|)
  {
    AddedAll(g, c, h);
    forall j | 0 <= j < |c.body| ensures Copied(c.body[j], h[|g| + 1 + j], |g| + 1) {
      AddedAt(g, c, h, |g| + 1 + j);
    }
  }

  lemma AddedAll(g: Graph, c: ConstFun, h: Graph)
    requires Inlined(g, c, h) && c.loads != []
    ensures |h| == |g| + 1 + |c.body| && h[|g|] == Some(FuncDefn)
  {
    assert |h[|g|..]| == 1 + |c.body| && h[|g|] == h[|g|..][0];
  }

  lemma AddedAt(g: Graph, c: ConstFun, h: Graph, i: nat)
    requires Inlined(g, c, h) && |g| <= i < |h|
    ensures c.loads != [] && |h| == |g| + 1 + |c.body|
    ensures if i == |g| then h[i] == Some(FuncDefn)
            else i - |g| - 1 < |c.body| && h[i] == Some(Shift(c.body[i - |g| - 1], |g| + 1))
  {
    assert h[i] == h[|g|..][i - |g|];
  }

  /** Static edges stay inside the graph and inside the inserted body. */
  lemma InlinedWellFormed(g: Graph, c: ConstFun, h: Graph)
    requires WellFormed(g) && Inlinable(g, c) && Inlined(g, c, h)
    ensures WellFormed(h)
  {
    assert WellFormedValue(g[c.node].value.v);
    forall i | 0 <= i < |h|
      ensures Linked(h[i], h) && (h[i].Some? && h[i].value.Const? ==> WellFormedValue(h[i].value.v))
    {
      if i < |g| {
        assert Linked(g[i], g);
      } else {
        AddedAt(g, c, h, i);
        if i > |g| { InsertedLinked(g, c, h, i); }
      }
    }
  }

  lemma InsertedLinked(g: Graph, c: ConstFun, h: Graph, i: nat)
    requires Inlined(g, c, h) && |g| < i < |h| && WellFormedValue(Function(c.body))
    ensures Linked(h[i], h) && (h[i].Some? && h[i].value.Const? ==> WellFormedValue(h[i].value.v))
  {
    AddedAt(g, c, h, i);
    var j := i - |g| - 1;
    assert Linked(Lift(c.body)[j], Lift(c.body));
    if c.body[j].LoadConstant? || c.body[j].UsesConstant? {
      AddedAt(g, c, h, c.body[j].k + |g| + 1);
    }
  }

  lemma CountFunction(body: seq<Op>)
    ensures CountNode(Some(Const(Function(body)))) == 1 + CountBody(body)
  {
    assert Count(Function(body)) == 1 + CountBody(body);
  }

  /** One constant fewer when the body comes along, and the whole body fewer when it does not. */
  lemma InlinedTotal(g: Graph, c: ConstFun, mid: Graph, h: Graph)
    requires c.node < |g| && g[c.node] == Some(Const(Function(c.body)))
    requires mid == g || mid == g + ([Some(FuncDefn)] + Shifted(c.body, |g| + 1))
    requires |h| == |mid| && Total(h) == Total(mid)
    requires h[c.node] == g[c.node]
    ensures Total(h[c.node := None]) < Total(g)
  {
    var added := [Some(FuncDefn)] + Shifted(c.body, |g| + 1);
    TotalConcat(g, added);
    TotalConcat([Some(FuncDefn)], Shifted(c.body, |g| + 1));
    ShiftedTotal(c.body, |g| + 1);
    assert Total([Some(FuncDefn)]) == 0 && Total(added) == CountBody(c.body);
    CountFunction(c.body);
    TotalUpdate(h, c.node, None);
  }

  /** A node's fate once the constants in `done` have been inlined. */
  function FateAfter(g: Graph, done: set<NodeId>, i: nat): Option<Op>
    requires i < |g|
  {
    if i in done then None
    else if g[i].Some? && g[i].value.LoadConstant? && g[i].value.k in done then Some(LoadFunction)
    else g[i]
  }

  // ----- constants that can be inlined however deep they are -----

  predicate DeepSupported(v: Value)
    decreases v
  {
    v.Function? ==>
      && SupportedRoot(v.body) && !Unsupported(Lift(v.body))
      && forall i :: 0 <= i < |v.body| && v.body[i].Const? ==> DeepSupported(v.body[i].v)
  }

  predicate Supported(g: Graph) {
    !Unsupported(g) && forall i :: 0 <= i < |g| && g[i].Some? && g[i].value.Const? ==> DeepSupported(g[i].value.v)
  }

  lemma InlinedSupported(g: Graph, c: ConstFun, h: Graph)
    requires WellFormed(g) && Inlinable(g, c) && Inlined(g, c, h) && Supported(g)
    ensures Supported(h)
  {
    hide WellFormed, Inlined, Linked, DeepSupported, Inlinable;
    forall i | 0 <= i < |h| && h[i].Some? && h[i].value.Const? ensures DeepSupported(h[i].value.v) {
      DeepAt(g, c, h, i);
    }
    forall k | 0 <= k < |h| && IsFunctionConst(h[k])
      ensures SupportedRoot(h[k].value.v.body) && Some(UsesConstant(k)) !in h
    {
      DeepRoot(h[k].value.v);
      forall u | 0 <= u < |h| ensures h[u] != Some(UsesConstant(k)) {
        NoUse(g, c, h, k, u);
      }
    }
  }

  lemma DeepAt(g: Graph, c: ConstFun, h: Graph, i: nat)
    requires Inlinable(g, c) && Inlined(g, c, h) && Supported(g) && i < |h| && h[i].Some? && h[i].value.Const?
    ensures DeepSupported(h[i].value.v)
  {
    hide Unsupported, SupportedRoot;
    if i >= |g| {
      AddedAt(g, c, h, i);
      assert DeepSupported(g[c.node].value.v);
    }
  }

  lemma DeepRoot(v: Value)
    requires DeepSupported(v) && v.Function?
    ensures SupportedRoot(v.body)
  {
  }

  lemma NoUse(g: Graph, c: ConstFun, h: Graph, k: nat, u: nat)
    requires WellFormed(g) && Inlinable(g, c) && Inlined(g, c, h) && Supported(g)
    requires k < |h| && u < |h| && IsFunctionConst(h[k])
    ensures h[u] != Some(UsesConstant(k))
  {
    if u < |g| {
      assert Linked(g[u], g);
      assert g[u] in g;
    } else {
      AddedAt(g, c, h, u);
      assert DeepSupported(g[c.node].value.v) && WellFormedValue(g[c.node].value.v);
      if u > |g| { NoUseInBody(g, c, h, k, u - |g| - 1); }
    }
  }

  lemma NoUseInBody(g: Graph, c: ConstFun, h: Graph, k: nat, j: nat)
    requires Inlined(g, c, h) && c.loads != [] && j < |c.body| && k < |h| && IsFunctionConst(h[k])
    requires DeepSupported(Function(c.body)) && WellFormedValue(Function(c.body))
    ensures Shift(c.body[j], |g| + 1) != UsesConstant(k)
  {
    hide SupportedRoot;
    var body := c.body;
    if body[j].UsesConstant? && body[j].k + |g| + 1 == k {
      assert Linked(Lift(body)[j], Lift(body));
      UsesAreNoFunctions(body, j);
      AddedAt(g, c, h, k);
    }
  }

  lemma UsesAreNoFunctions(body: seq<Op>, j: nat)
    requires DeepSupported(Function(body)) && j < |body| && body[j].UsesConstant? && body[j].k < |body|
    ensures !IsFunctionConst(Some(body[body[j].k]))
  {
    hide SupportedRoot;
    var l := Lift(body);
    assert l[j] == Some(UsesConstant(body[j].k)) && l[body[j].k] == Some(body[body[j].k]);
    assert l[j] in l;
  }

  class HugrGraph {
    var g: Graph

    constructor (g: Graph)
      ensures this.g == g
    {
      this.g := g;
    }

    method OutputNeighbours(k: NodeId) returns (ns: seq<NodeId>)
      ensures forall i :: 0 <= i < |ns| ==> ns[i] < |g| && UsedBy(g[ns[i]], k)
      ensures forall i :: 0 <= i < |g| && UsedBy(g[i], k) ==> i in ns
    {
      ns := [];
      for i := 0 to |g|
        invariant forall j :: 0 <= j < |ns| ==> ns[j] < |g| && UsedBy(g[ns[j]], k)
        invariant forall j :: 0 <= j < i && UsedBy(g[j], k) ==> j in ns
      {
        if UsedBy(g[i], k) {
          ns := ns + [i];
        }
      }
    }

    /** Finds the function constants and their loads. */
    method CollectConstFuns() returns (r: Option<seq<ConstFun>>)
      ensures r.None? <==> Unsupported(g)
      ensures Supported(g) ==> r.Some?
      ensures r.Some? ==> Pending(g, r.value)
    {
      var cs: seq<ConstFun> := [];
      for n := 0 to |g|
        invariant forall c :: c in cs ==>
          c.node < n && g[c.node] == Some(Const(Function(c.body))) && LoadsOf(g, c.node, c.loads)
        invariant forall k :: 0 <= k < n && IsFunctionConst(g[k]) ==> exists c :: c in cs && c.node == k
        invariant forall i, j :: 0 <= i < j < |cs| ==> cs[i].node != cs[j].node
        invariant forall k :: 0 <= k < n && IsFunctionConst(g[k]) ==>
          SupportedRoot(g[k].value.v.body) && Some(UsesConstant(k)) !in g
      {
        if IsFunctionConst(g[n]) {
          var body := g[n].value.v.body;
          if !SupportedRoot(body) {
            return None;
          }
          var ns := OutputNeighbours(n);
          for j := 0 to |ns|
            invariant forall i :: 0 <= i < j ==> g[ns[i]] == Some(LoadConstant(n))
          {
            if g[ns[j]].value.UsesConstant? {
              assert Some(UsesConstant(n)) in g;
              return None;
            }
          }
          cs := cs + [ConstFun(n, body, ns)];
        }
      }
      r := Some(cs);
    }

    /** Replaces the loads of one constant. */
    method ReplaceLoads(k: NodeId, loads: seq<NodeId>)
      requires forall i :: 0 <= i < |loads| ==> loads[i] < |g|
      requires forall i :: 0 <= i < |loads| ==> g[loads[i]] == Some(LoadConstant(k))
      modifies this
      ensures |g| == |old(g)| && Total(g) == Total(old(g))
      ensures forall i :: 0 <= i < |g| ==> g[i] == if i in loads then Some(LoadFunction) else old(g)[i]
    {
      for j := 0 to |loads|
        invariant |g| == |old(g)| && Total(g) == Total(old(g))
        invariant forall i :: 0 <= i < |g| ==> g[i] == if i in loads[..j] then Some(LoadFunction) else old(g)[i]
      {
        assert loads[..j + 1] == loads[..j] + [loads[j]];
        TotalUpdate(g, loads[j], Some(LoadFunction));
        g := g[loads[j] := Some(LoadFunction)];
      }
      assert loads[..|loads|] == loads;
    }

    /** Inlines one constant; returns whether its body was kept. */
    method InlineOne(c: ConstFun) returns (changed: bool)
      requires WellFormed(g) && Inlinable(g, c) && LoadsOf(g, c.node, c.loads)
      modifies this
      ensures Inlined(old(g), c, g) && WellFormed(g) && Total(g) < Total(old(g))
      ensures Supported(old(g)) ==> Supported(g)
      ensures changed <==> c.loads != []
    {
      ghost var g0 := g;
      changed := c.loads != [];
      if changed {
        g := g + ([Some(FuncDefn)] + Shifted(c.body, |g| + 1));
        ghost var mid := g;
        ReplaceLoads(c.node, c.loads);
        InlinedTotal(g0, c, mid, g);
        assert g[|g0|..] == [Some(FuncDefn)] + Shifted(c.body, |g0| + 1) by {
          forall i | |g0| <= i < |g| ensures g[i] == mid[i] {}
        }
      } else {
        InlinedTotal(g0, c, g, g);
      }
      g := g[c.node := None];
      InlinedWellFormed(g0, c, g);
      if Supported(g0) { InlinedSupported(g0, c, g); }
    }

    /** One round; returns whether any constant was in use. */
    method InlineRound() returns (r: Option<bool>)
      requires WellFormed(g)
      modifies this
      ensures r.None? <==> Unsupported(old(g))
      ensures r.Some? ==> WellFormed(g) && |g| >= |old(g)| && forall i :: 0 <= i < |old(g)| ==> g[i] == Fate(old(g), i)
      ensures r.Some? ==> forall k: nat :: IsUsed(old(g), k) ==>
                exists at: nat :: at >= |old(g)| && InsertedAt(old(g)[k].value.v.body, g, at)
      ensures r == Some(true) ==> Total(g) < Total(old(g))
      ensures r == Some(false) ==> |g| == |old(g)| && Total(g) <= Total(old(g))
      ensures Supported(old(g)) ==> r.Some? && Supported(g)
    {
      hide Inlined, WellFormed, Supported, Unsupported, LoadsOf, Inlinable, LinksAbove, Pending;
      var found := CollectConstFuns();
      if found == None {
        return None;
      }
      var cs := found.value;
      var anyChanges := false;
      ghost var g0, done := g, {};
      for j := 0 to |cs|
        invariant WellFormed(g) && |g| >= |g0| && (anyChanges || |g| == |g0|)
        invariant forall i :: 0 <= i < |g0| ==> g[i] == FateAfter(g0, done, i)
        invariant forall k :: k in done <==> exists i :: 0 <= i < j && cs[i].node == k
        invariant forall i :: |g0| <= i < |g| ==> LinksAbove(g[i], |g0|)
        invariant Total(g) <= Total(g0) && (j > 0 ==> Total(g) < Total(g0)) && (anyChanges ==> j > 0)
        invariant Supported(g0) ==> Supported(g)
        invariant forall i :: 0 <= i < j && cs[i].loads != [] ==> exists at: nat :: HasBody(g0, cs[i], g, at)
      {
        ghost var before := g;
        StillPending(g0, g, cs, j, done);
        var changed := InlineOne(cs[j]);
        anyChanges := anyChanges || changed;
        InlinedFates(g0, before, g, cs[j], done);
        forall i | 0 <= i <= j && cs[i].loads != [] ensures exists at: nat :: HasBody(g0, cs[i], g, at) {
          if i == j {
            BodyInserted(before, cs[j], g);
            assert HasBody(g0, cs[j], g, |before|);
          } else {
            var at: nat :| HasBody(g0, cs[i], before, at);
            BodyStays(g0, before, g, cs[j], cs[i], at);
          }
        }
        done := done + {cs[j].node};
      }
      AllFates(g0, g, cs, done);
      UsedInserted(g0, g, cs);
      r := Some(anyChanges);
    }

    /** Rounds are made until nothing changes.  No function constant is left then, however deep it was, and every node
        there was at the start has met its fate. */
    method InlineConstantFunctions() returns (ok: bool)
      requires WellFormed(g)
      modifies this
      ensures ok ==> forall i :: 0 <= i < |g| ==> !IsFunctionConst(g[i])
      ensures ok ==> |g| >= |old(g)| && forall i :: 0 <= i < |old(g)| ==> g[i] == Fate(old(g), i)
      ensures ok ==> AllRealized(old(g), g)
      ensures Supported(old(g)) ==> ok
    {
      hide Realized, Unsupported, InsertedAt, Total;
      ghost var g0 := g;
      var r := InlineRound();
      if r == None {
        return false;
      }
      RoundLeadsTo(g0, g, g0);
      while r.value
        invariant r.Some? && WellFormed(g) && |g| >= |g0| && (Supported(g0) ==> Supported(g))
        invariant forall i :: 0 <= i < |g0| ==> g[i] == Fate(g0, i)
        invariant !r.value ==> forall i :: 0 <= i < |g| ==> !IsFunctionConst(g[i])
        invariant LeadsTo(g0, g)
        decreases Total(g), r.value
      {
        ghost var before := g;
        r := InlineRound();
        if r == None {
          return false;
        }
        forall i | 0 <= i < |g0| ensures g[i] == Fate(g0, i) {
          FateSettled(g0, before, i);
        }
        RoundLeadsTo(before, g, g0);
      }
      NothingLeft(g0, g);
      ok := true;
    }
  }

  /** Whatever graph later rounds make of `g`, in which the function constants of `g` are realized, those of `g0`
      are. */
  ghost predicate LeadsTo(g0: Graph, g: Graph) {
    forall h: Graph :: Outcome(g, h) ==> AllRealized(g0, h)
  }

  /** `h` is what can become of `g`. */
  ghost predicate Outcome(g: Graph, h: Graph) {
    |h| >= |g| && (forall i :: 0 <= i < |g| ==> h[i] == Fate(g, i)) && AllRealized(g, h)
  }

  lemma RoundLeadsTo(g: Graph, next: Graph, g0: Graph)
    requires WellFormed(g) && WellFormed(next) && |next| >= |g| && (g == g0 || LeadsTo(g0, g))
    requires forall i :: 0 <= i < |g| ==> next[i] == Fate(g, i)
    requires forall k: nat :: IsUsed(g, k) ==> exists at: nat :: at >= |g| && InsertedAt(g[k].value.v.body, next, at)
    ensures LeadsTo(g0, next)
  {
    hide WellLinked, InsertedAt, Fate, Realized, WellFormedValue;
    forall h: Graph | Outcome(next, h) ensures AllRealized(g0, h) {
      forall i | 0 <= i < |g| ensures h[i] == Fate(g, i) {
        FateSettled(g, next, i);
      }
      forall k: nat | IsUsed(g, k) ensures Realized(g[k].value.v, h) {
        var at: nat :| at >= |g| && InsertedAt(g[k].value.v.body, next, at);
        BodyRealized(g[k].value.v, next, h, at);
      }
      assert AllRealized(g, h);
    }
  }

  /** A body that has been inserted is realized once the function constants in it are. */
  lemma BodyRealized(v: Value, g: Graph, h: Graph, at: nat)
    requires v.Function? && InsertedAt(v.body, g, at) && Outcome(g, h) && WellFormedValue(v)
    ensures Realized(v, h)
  {
    hide Realized;
    forall j | 0 <= j < |v.body| ensures SettledAs(v.body, v.body[j], h[at + 1 + j], at + 1) {
      NodeSettled(v.body, g, h, at, j);
    }
    forall j | 0 <= j < |v.body| && IsFunction(v.body[j]) && LoadConstant(j) in v.body
      ensures Realized(v.body[j].v, h)
    {
      var u :| 0 <= u < |v.body| && v.body[u] == LoadConstant(j);
      assert Copied(v.body[u], g[at + 1 + u], at + 1) && Copied(v.body[j], g[at + 1 + j], at + 1);
      assert g[at + 1 + u] == Some(LoadConstant(at + 1 + j));
      assert IsUsed(g, at + 1 + j);
    }
    assert RealizedAt(v, h, at);
    RealizedBy(v, h, at);
  }

  lemma RealizedBy(v: Value, h: Graph, at: nat)
    requires RealizedAt(v, h, at)
    ensures Realized(v, h)
  {
  }

  lemma NodeSettled(body: seq<Op>, g: Graph, h: Graph, at: nat, j: nat)
    requires InsertedAt(body, g, at) && j < |body| && WellLinked(Lift(body))
    requires |h| >= |g| && forall i :: 0 <= i < |g| ==> h[i] == Fate(g, i)
    ensures SettledAs(body, body[j], h[at + 1 + j], at + 1)
  {
    assert Copied(body[j], g[at + 1 + j], at + 1) && h[at + 1 + j] == Fate(g, at + 1 + j);
    assert Linked(Lift(body)[j], Lift(body));
    match body[j] {
      case LoadConstant(k) => assert Copied(body[k], g[at + 1 + k], at + 1);
      case _ =>
    }
  }

  /** When no function constant is left, the rounds have come to their end. */
  lemma NothingLeft(g0: Graph, g: Graph)
    requires LeadsTo(g0, g) && forall i :: 0 <= i < |g| ==> !IsFunctionConst(g[i])
    ensures AllRealized(g0, g)
  {
    hide Realized;
    assert Outcome(g, g);
  }

  predicate HasBody(g0: Graph, c: ConstFun, g: Graph, at: nat) {
    at >= |g0| && InsertedAt(c.body, g, at)
  }

  /** Inlining another constant leaves inserted bodies alone. */
  lemma BodyStays(g0: Graph, g: Graph, h: Graph, c: ConstFun, d: ConstFun, at: nat)
    requires Inlined(g, c, h) && c.node < |g0| <= |g| && HasBody(g0, d, g, at)
    requires forall i :: |g0| <= i < |g| ==> LinksAbove(g[i], |g0|)
    ensures HasBody(g0, d, h, at)
  {
    forall i | |g0| <= i < |g| ensures h[i] == g[i] {
      assert LinksAbove(g[i], |g0|);
    }
  }

  lemma UsedInserted(g0: Graph, g: Graph, cs: seq<ConstFun>)
    requires Pending(g0, cs)
    requires forall i :: 0 <= i < |cs| && cs[i].loads != [] ==> exists at: nat :: HasBody(g0, cs[i], g, at)
    ensures forall k: nat :: IsUsed(g0, k) ==>
              exists at: nat :: at >= |g0| && InsertedAt(g0[k].value.v.body, g, at)
  {
    hide InsertedAt;
    forall k: nat | IsUsed(g0, k) ensures exists at: nat :: at >= |g0| && InsertedAt(g0[k].value.v.body, g, at) {
      var c :| c in cs && c.node == k;
      var i :| 0 <= i < |cs| && cs[i] == c;
      var u :| 0 <= u < |g0| && g0[u] == Some(LoadConstant(k));
      assert u in c.loads;
      var at: nat :| HasBody(g0, cs[i], g, at);
    }
  }

  predicate LinksAbove(o: Option<Op>, n: nat) {
    o.Some? && (o.value.LoadConstant? || o.value.UsesConstant?) ==> o.value.k >= n
  }

  lemma StillPending(g0: Graph, g: Graph, cs: seq<ConstFun>, j: nat, done: set<NodeId>)
    requires Pending(g0, cs) && j < |cs| && |g| >= |g0| && !Unsupported(g0)
    requires forall i :: 0 <= i < |g0| ==> g[i] == FateAfter(g0, done, i)
    requires forall k :: k in done <==> exists i :: 0 <= i < j && cs[i].node == k
    requires forall i :: |g0| <= i < |g| ==> LinksAbove(g[i], |g0|)
    ensures Inlinable(g, cs[j]) && LoadsOf(g, cs[j].node, cs[j].loads) && cs[j].node !in done && cs[j].node < |g0|
  {
    var c := cs[j];
    assert c in cs && IsFunctionConst(g0[c.node]);
    forall u | 0 <= u < |g| ensures g[u] != Some(UsesConstant(c.node)) {
      if u < |g0| { assert g0[u] in g0; }
    }
    forall i | 0 <= i < |c.loads| ensures g[c.loads[i]] == Some(LoadConstant(c.node)) {
      assert g0[c.loads[i]] == Some(LoadConstant(c.node));
    }
    forall i | 0 <= i < |g| && g[i] == Some(LoadConstant(c.node)) ensures i in c.loads {
      assert g0[i] == Some(LoadConstant(c.node));
    }
  }

  lemma InlinedFates(g0: Graph, g: Graph, h: Graph, c: ConstFun, done: set<NodeId>)
    requires Inlined(g, c, h) && |g| >= |g0| && c.node < |g0| && c.node !in done
    requires forall i :: 0 <= i < |g0| ==> g[i] == FateAfter(g0, done, i)
    requires forall i :: |g0| <= i < |g| ==> LinksAbove(g[i], |g0|)
    ensures forall i :: 0 <= i < |g0| ==> h[i] == FateAfter(g0, done + {c.node}, i)
    ensures forall i :: |g0| <= i < |h| ==> LinksAbove(h[i], |g0|)
    ensures c.loads == [] ==> |h| == |g|
  {
    hide Inlined;
    NothingAdded(g, c, h);
    forall i | 0 <= i < |g0| ensures h[i] == FateAfter(g0, done + {c.node}, i) {
      InlinedFate(g0, g, h, c, done, i);
    }
    forall i | |g0| <= i < |h| ensures LinksAbove(h[i], |g0|) {
      InlinedLinks(g0, g, h, c, i);
    }
  }

  lemma InlinedFate(g0: Graph, g: Graph, h: Graph, c: ConstFun, done: set<NodeId>, i: nat)
    requires Inlined(g, c, h) && |g| >= |g0| && c.node < |g0| && c.node !in done && i < |g0|
    requires g[i] == FateAfter(g0, done, i)
    ensures h[i] == FateAfter(g0, done + {c.node}, i)
  {
    hide Shift;
  }

  lemma InlinedLinks(g0: Graph, g: Graph, h: Graph, c: ConstFun, i: nat)
    requires Inlined(g, c, h) && |g0| <= |g| && |g0| <= i < |h| && (i < |g| ==> LinksAbove(g[i], |g0|))
    ensures LinksAbove(h[i], |g0|)
  {
    if i >= |g| { AddedAt(g, c, h, i); }
  }

  lemma NothingAdded(g: Graph, c: ConstFun, h: Graph)
    requires Inlined(g, c, h)
    ensures |h| >= |g| && (c.loads == [] ==> |h| == |g|)
  {
    if |h| > |g| { AddedAt(g, c, h, |g|); }
  }

  lemma AllFates(g0: Graph, g: Graph, cs: seq<ConstFun>, done: set<NodeId>)
    requires Pending(g0, cs) && |g| >= |g0|
    requires forall i :: 0 <= i < |g0| ==> g[i] == FateAfter(g0, done, i)
    requires forall k :: k in done <==> exists i :: 0 <= i < |cs| && cs[i].node == k
    ensures forall i :: 0 <= i < |g0| ==> g[i] == Fate(g0, i)
  {
    forall k | 0 <= k < |g0| ensures k in done <==> IsFunctionConst(g0[k]) {
      if IsFunctionConst(g0[k]) {
        var c :| c in cs && c.node == k;
      }
      if k in done {
        var i :| 0 <= i < |cs| && cs[i].node == k;
        assert cs[i] in cs;
      }
    }
    forall k | k in done ensures k < |g0| {
      var i :| 0 <= i < |cs| && cs[i].node == k;
      assert cs[i] in cs;
    }
  }

  /** Nodes that have met their fate are left alone by later rounds. */
  lemma FateSettled(g0: Graph, g: Graph, i: nat)
    requires WellFormed(g0) && WellFormed(g) && |g| >= |g0| && i < |g0|
    requires forall j :: 0 <= j < |g0| ==> g[j] == Fate(g0, j)
    ensures Fate(g, i) == Fate(g0, i)
  {
    assert g[i] == Fate(g0, i);
    assert Linked(g0[i], g0);
    if g[i].Some? && g[i].value.LoadConstant? {
      assert g[g[i].value.k] == Fate(g0, g[i].value.k);
    }
  }
}
