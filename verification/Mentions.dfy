/** What a function mentions, node by node, however deep a node is nested: the functions defined or referred to, and
    what has to be registered for the function to be emitted. */
module Mentions {
  import opened Values
  import opened Hugr
  import opened Arrays
  import opened Types
  import opened Builder
  import opened Emit
  import opened Scopes

  // ----- nesting -----

  /** `m` is a node of the region or of a region inside it. */
  ghost predicate Within(m: Node, nodes: seq<Node>)
    decreases nodes, 0
  {
    exists i :: 0 <= i < |nodes| && (m == nodes[i] || Beneath(m, nodes[i]))
  }

  ghost predicate Beneath(m: Node, n: Node)
    decreases n, 0
  {
    match n.op
    case Dfg(nodes) => Within(m, nodes)
    case Cond(_, cases) => exists i :: 0 <= i < |cases| && Within(m, cases[i].nodes)
    case Cfg(children) => exists i :: 0 <= i < |children| && children[i].Block? && Within(m, children[i].nodes)
    case _ => false
  }

  /** `u` is the constant `v` or one of the constants it is made of. */
  ghost predicate PartOf(u: Val, v: Val)
    decreases v
  {
    u == v || (v.SumV? && exists i :: 0 <= i < |v.vals| && PartOf(u, v.vals[i]))
  }

  // ----- what a node mentions itself -----

  datatype Mention = Defines(f: NodeId) | Refers(f: NodeId) | Asks(need: Need)

  predicate Holds(a: Names, x: Mention) {
    match x
    case Defines(f) => f in a.scoped
    case Refers(f) => f in a.called
    case Asks(need) => need in a.needs
  }

  /** Definitions are nodes of a region or children of a control-flow graph. */
  predicate DefinesFunc(n: Node, f: NodeId) {
    n.op == FuncDef(f) || (n.op.Cfg? && ChildFunc(f) in n.op.children)
  }

  predicate RefersTo(n: Node, f: NodeId) {
    n.op == CallFn(f) || n.op == LoadFunc(f)
  }

  /** The types whose LLVM types a node asks for: those of its ports, and the sums that its op builds or takes
      apart. */
  ghost predicate AsksType(n: Node, ty: Ty) {
    || ty in n.inTys || ty in n.outs
    || match n.op
       case Tag(_, rows) => ty == Sum(rows)
       case Cond(rows, _) => ty == Sum(rows)
       case Cfg(children) => exists i :: 0 <= i < |children| && children[i].Block? && ty == Sum(children[i].rows)
       case Array(op, elem, size) =>
         ty == elem || (!op.NewArray? && !op.DiscardEmpty? && ty == Sum(ArrayRows(op, elem, size)))
       case LoadConst(v) => exists u :: PartOf(u, v) && u.SumV? && ty == Sum(u.rows)
       case _ => false
  }

  ghost predicate AsksConst(n: Node, ty: Ty) {
    n.op.LoadConst? && exists u :: PartOf(u, n.op.v) && u.Prim? && u.ty == ty
  }

  ghost predicate Itself(n: Node, x: Mention) {
    match x
    case Defines(f) => DefinesFunc(n, f)
    case Refers(f) => RefersTo(n, f)
    case Asks(NeedType(ty)) => AsksType(n, ty)
    case Asks(NeedOp(op)) => n.op == Ext(op)
    case Asks(NeedConst(ty)) => AsksConst(n, ty)
  }

  // ----- constants -----

  ghost predicate ValAsks(u: Val, need: Need) {
    (u.SumV? && need == NeedType(Sum(u.rows))) || (u.Prim? && need == NeedConst(u.ty))
  }

  lemma {:induction false} ConstAsks(v: Val, need: Need)
    ensures need in ConstNeeds(v) <==> exists u :: PartOf(u, v) && ValAsks(u, need)
    decreases v, 1
  {
    if need in ConstNeeds(v) && !ValAsks(v, need) {
      ConstsAsk(v.vals, need);
      var i :| 0 <= i < |v.vals| && need in ConstNeeds(v.vals[i]);
      ConstAsks(v.vals[i], need);
      var u :| PartOf(u, v.vals[i]) && ValAsks(u, need);
      assert PartOf(u, v);
    }
    if ValAsks(v, need) { assert PartOf(v, v); }
    if u :| PartOf(u, v) && ValAsks(u, need) {
      if u != v {
        var i :| 0 <= i < |v.vals| && PartOf(u, v.vals[i]);
        ConstAsks(v.vals[i], need);
        ConstsAsk(v.vals, need);
      }
    }
  }

  lemma {:induction false} ConstsAsk(vs: seq<Val>, need: Need)
    ensures need in ConstsNeed(vs) <==> exists i :: 0 <= i < |vs| && need in ConstNeeds(vs[i])
    decreases vs, 0
  {
    if vs != [] {
      ConstsAsk(vs[1..], need);
      if i :| 0 <= i < |vs[1..]| && need in ConstNeeds(vs[1..][i]) { assert vs[1..][i] == vs[i + 1]; }
      if i :| 0 <= i < |vs| && need in ConstNeeds(vs[i]) { if i > 0 { assert vs[i] == vs[1..][i - 1]; } }
    }
  }

  // ----- what regions mention -----

  ghost predicate Anywhere(nodes: seq<Node>, x: Mention) {
    exists m :: Within(m, nodes) && Itself(m, x)
  }

  /** What a region is said to mention is what some node in it mentions. */
  lemma {:induction false} RegionMentions(nodes: seq<Node>, x: Mention)
    ensures Holds(NamesIn(nodes), x) <==> Anywhere(nodes, x)
    decreases nodes, 0
  {
    hide Itself, NamesOf;
    if nodes != [] {
      NodeMentions(nodes[0], x);
      RegionMentions(nodes[1..], x);
      if Anywhere(nodes, x) {
        var m :| Within(m, nodes) && Itself(m, x);
        var i :| 0 <= i < |nodes| && (m == nodes[i] || Beneath(m, nodes[i]));
        if i > 0 { assert nodes[i] == nodes[1..][i - 1]; assert Within(m, nodes[1..]); }
      }
      if Anywhere(nodes[1..], x) {
        var m :| Within(m, nodes[1..]) && Itself(m, x);
        var i :| 0 <= i < |nodes[1..]| && (m == nodes[1..][i] || Beneath(m, nodes[1..][i]));
        assert nodes[1..][i] == nodes[i + 1];
        assert Within(m, nodes);
      }
      if Itself(nodes[0], x) { assert Within(nodes[0], nodes); }
      if m :| Beneath(m, nodes[0]) && Itself(m, x) { assert Within(m, nodes); }
    }
  }

  lemma {:induction false} NodeMentions(n: Node, x: Mention)
    ensures Holds(NamesOf(n), x) <==> Itself(n, x) || InnerMentions(n, x)
    decreases n, 1
  {
    match n.op {
      case Dfg(nodes) => RegionMentions(nodes, x); DfgMentions(n, x);
      case Cond(rows, cases) => CasesMention(cases, x); CondMentions(n, x);
      case Cfg(children) =>
        ChildrenMention(children, x);
        CfgMentions(n, x);
        CfgItself(n, x);
      case LoadConst(v) =>
        if x.Asks? {
          ConstAsks(v, x.need);
          LoadAsks(n, x.need);
        }
      case _ =>
    }
  }

  ghost predicate InnerMentions(n: Node, x: Mention) {
    exists m :: Beneath(m, n) && Itself(m, x)
  }

  lemma DfgMentions(n: Node, x: Mention)
    requires n.op.Dfg?
    ensures InnerMentions(n, x) <==> Anywhere(n.op.nodes, x)
  {
    hide Itself;
  }

  lemma CondMentions(n: Node, x: Mention)
    requires n.op.Cond?
    ensures InnerMentions(n, x) <==> exists i :: 0 <= i < |n.op.cases| && Anywhere(n.op.cases[i].nodes, x)
  {
    hide Itself, Within;
    if m :| Beneath(m, n) && Itself(m, x) {
      var i :| 0 <= i < |n.op.cases| && Within(m, n.op.cases[i].nodes);
      assert Anywhere(n.op.cases[i].nodes, x);
    }
    if i :| 0 <= i < |n.op.cases| && Anywhere(n.op.cases[i].nodes, x) {
      var m :| Within(m, n.op.cases[i].nodes) && Itself(m, x);
      assert Beneath(m, n);
    }
  }

  lemma LoadAsks(n: Node, need: Need)
    requires n.op.LoadConst?
    ensures Itself(n, Asks(need)) <==>
              || need in TypesNeed(n.inTys) + TypesNeed(n.outs)
              || exists u :: PartOf(u, n.op.v) && ValAsks(u, need)
  {
    hide PartOf;
    if u :| PartOf(u, n.op.v) && ValAsks(u, need) {}
  }

  /** What a child of a control-flow graph adds to what its nodes mention. */
  predicate ChildItself(c: Child, x: Mention) {
    (c.Block? && x == Asks(NeedType(Sum(c.rows)))) || (c.ChildFunc? && x == Defines(c.f))
  }

  ghost predicate ChildMentions(c: Child, x: Mention) {
    ChildItself(c, x) || (c.Block? && Anywhere(c.nodes, x))
  }

  lemma CfgMentions(n: Node, x: Mention)
    requires n.op.Cfg?
    ensures var cs := n.op.children;
      InnerMentions(n, x) <==> exists i :: 0 <= i < |cs| && cs[i].Block? && Anywhere(cs[i].nodes, x)
  {
    hide Within, Itself;
    var cs := n.op.children;
    if m :| Beneath(m, n) && Itself(m, x) {
      var i :| 0 <= i < |cs| && cs[i].Block? && Within(m, cs[i].nodes);
      assert Anywhere(cs[i].nodes, x);
    }
    if i :| 0 <= i < |cs| && cs[i].Block? && Anywhere(cs[i].nodes, x) {
      var m :| Within(m, cs[i].nodes) && Itself(m, x);
      assert Beneath(m, n);
    }
  }

  lemma CfgItself(n: Node, x: Mention)
    requires n.op.Cfg?
    ensures Itself(n, x) <==>
              || (exists i :: 0 <= i < |n.op.children| && ChildItself(n.op.children[i], x))
              || (x.Asks? && x.need.NeedType? && (x.need.ty in n.inTys || x.need.ty in n.outs))
  {
    var cs := n.op.children;
    if i :| 0 <= i < |cs| && ChildItself(cs[i], x) && cs[i].ChildFunc? {
      assert cs[i] == ChildFunc(x.f) && cs[i] in cs;
    }
    if x.Defines? && ChildFunc(x.f) in cs {
      var i :| 0 <= i < |cs| && cs[i] == ChildFunc(x.f);
      assert ChildItself(cs[i], x);
    }
    if x.Asks? && x.need.NeedType? && AsksType(n, x.need.ty) && x.need.ty !in n.inTys && x.need.ty !in n.outs {
      var i :| 0 <= i < |cs| && cs[i].Block? && x.need.ty == Sum(cs[i].rows);
      assert ChildItself(cs[i], x);
    }
  }

  lemma {:induction false} CasesMention(cases: seq<Case>, x: Mention)
    ensures Holds(NamesInCases(cases), x) <==> exists i :: 0 <= i < |cases| && Anywhere(cases[i].nodes, x)
    decreases cases, 0
  {
    hide NamesIn, Anywhere;
    if cases != [] {
      RegionMentions(cases[0].nodes, x);
      CasesMention(cases[1..], x);
      if i :| 0 <= i < |cases[1..]| && Anywhere(cases[1..][i].nodes, x) { assert cases[1..][i] == cases[i + 1]; }
      if i :| 0 <= i < |cases| && Anywhere(cases[i].nodes, x) && i > 0 { assert cases[i] == cases[1..][i - 1]; }
    }
  }

  lemma {:induction false} ChildrenMention(children: seq<Child>, x: Mention)
    ensures Holds(NamesInChildren(children), x) <==>
              exists i :: 0 <= i < |children| && ChildMentions(children[i], x)
    decreases children, 0
  {
    hide NamesIn, Anywhere;
    if children != [] {
      var c := children[0];
      if c.Block? { RegionMentions(c.nodes, x); }
      ChildrenMention(children[1..], x);
      if i :| 0 <= i < |children[1..]| && ChildMentions(children[1..][i], x) {
        assert children[1..][i] == children[i + 1];
      }
      if i :| 0 <= i < |children| && ChildMentions(children[i], x) && i > 0 {
        assert children[i] == children[1..][i - 1];
      }
    }
  }

  // ----- what functions mention -----

  /** Emission leaves to be emitted exactly the definitions found anywhere in the body, and declares exactly the
      functions that some node in it calls or loads. */
  lemma FunctionMentions(f: FuncDefn, g: NodeId)
    requires ValidFunc(f)
    ensures g in EmitFunc(f).todo <==> exists m :: Within(m, f.nodes) && DefinesFunc(m, g)
    ensures g in EmitFunc(f).refs <==> exists m :: Within(m, f.nodes) && RefersTo(m, g)
  {
    hide EmitFunc, NamesIn, Within;
    FunctionNames(f);
    RegionMentions(f.nodes, Defines(g));
    RegionMentions(f.nodes, Refers(g));
    if m :| Within(m, f.nodes) && DefinesFunc(m, g) { assert Itself(m, Defines(g)); }
    if m :| Within(m, f.nodes) && RefersTo(m, g) { assert Itself(m, Refers(g)); }
  }

  /** Everything a node asks for is registered: the callbacks of its types, the handler of its op, and those of the
      custom constants it loads. */
  ghost predicate Registered(cg: Codegen, n: Node) {
    && (forall ty :: AsksType(n, ty) ==> Lowers(cg.types, ty))
    && (n.op.Ext? ==> n.op.op in cg.ops)
    && forall ty :: AsksConst(n, ty) ==> ty in cg.consts
  }

  /** What a function needs is there exactly when its output types lower and every node in it finds what it asks
      for. */
  lemma NeedsMetIff(cg: Codegen, f: FuncDefn)
    ensures AllMet(cg, FuncNeeds(f)) <==>
              && (forall ty :: ty in f.outs ==> Lowers(cg.types, ty))
              && forall m :: Within(m, f.nodes) ==> Registered(cg, m)
  {
    hide Within, NamesIn, Lowers, MapType;
    forall ty ensures Met(cg, NeedType(ty)) <==> Lowers(cg.types, ty) { MapsIffLowers(cg.types, ty); }
    if AllMet(cg, FuncNeeds(f)) {
      forall ty | ty in f.outs ensures Lowers(cg.types, ty) { assert NeedType(ty) in FuncNeeds(f); }
      forall m | Within(m, f.nodes) ensures Registered(cg, m) {
        forall need | Itself(m, Asks(need)) ensures Met(cg, need) {
          RegionMentions(f.nodes, Asks(need));
          assert need in FuncNeeds(f);
        }
        RegisteredIff(cg, m);
      }
    } else {
      var need :| need in FuncNeeds(f) && !Met(cg, need);
      if need in NamesIn(f.nodes).needs {
        RegionMentions(f.nodes, Asks(need));
        var m :| Within(m, f.nodes) && Itself(m, Asks(need));
        RegisteredIff(cg, m);
      }
    }
  }

  lemma RegisteredIff(cg: Codegen, m: Node)
    ensures Registered(cg, m) <==> forall need :: Itself(m, Asks(need)) ==> Met(cg, need)
  {
    hide Lowers, MapType, AsksType, AsksConst;
    forall ty ensures Met(cg, NeedType(ty)) <==> Lowers(cg.types, ty) { MapsIffLowers(cg.types, ty); }
    if forall need :: Itself(m, Asks(need)) ==> Met(cg, need) {
      forall ty | AsksType(m, ty) ensures Lowers(cg.types, ty) { assert Itself(m, Asks(NeedType(ty))); }
      forall ty | AsksConst(m, ty) ensures ty in cg.consts { assert Itself(m, Asks(NeedConst(ty))); }
      if m.op.Ext? { assert Itself(m, Asks(NeedOp(m.op.op))); }
    }
  }
}
