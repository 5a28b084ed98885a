/** Well-typed, well-scoped HUGRs do not go wrong: every input of a node that runs has been computed before, and
    every value has the type of its wire.  Wires from outside a block are visible in it when every path to the
    block computes them. */
module Typing {
  import opened Values
  import opened Hugr
  import opened Arrays

  type Scope = map<Wire, Ty>

  // ----- values -----

  predicate HasSig(w: World, f: NodeId) {
    f in w.funcs || f in w.decls
  }

  function SigIns(w: World, f: NodeId): seq<Ty>
    requires HasSig(w, f)
  {
    if f in w.funcs then w.funcs[f].ins else w.decls[f].ins
  }

  function SigOuts(w: World, f: NodeId): seq<Ty>
    requires HasSig(w, f)
  {
    if f in w.funcs then w.funcs[f].outs else w.decls[f].outs
  }

  ghost predicate HasTy(w: World, v: Val, ty: Ty)
    decreases v, 1
  {
    match v
    case Prim(t, n) => ty == t && t.Custom? && (t == Usize ==> 0 <= n < 0x1_0000_0000_0000_0000)
    case ArrV(elems) => ty.Arr? && |elems| == ty.size && forall i :: 0 <= i < |elems| ==> HasTy(w, elems[i], ty.elem)
    case FunV(f) => HasSig(w, f) && ty == Func(SigIns(w, f), SigOuts(w, f))
    case SumV(tag, vals, rows) => ty == Sum(rows) && tag < |rows| && HasTys(w, vals, rows[tag].tys)
  }

  ghost predicate HasTys(w: World, vs: seq<Val>, tys: seq<Ty>)
    ensures HasTys(w, vs, tys) ==> |vs| == |tys|
    decreases vs, 0
  {
    if vs == [] || tys == [] then vs == [] && tys == [] else HasTy(w, vs[0], tys[0]) && HasTys(w, vs[1..], tys[1..])
  }

  ghost predicate EnvHas(w: World, env: Env, g: Scope) {
    forall x :: x in g ==> x in env && HasTy(w, env[x], g[x])
  }

  // ----- graphs -----

  function AddOuts(g: Scope, n: Node): Scope {
    g + (map i | 0 <= i < |n.outs| :: Wire(n.id, i) := n.outs[i])
  }

  /** What is in scope after a list of nodes. */
  function ScopeAfter(g: Scope, nodes: seq<Node>): Scope
    decreases nodes
  {
    if nodes == [] then g else ScopeAfter(AddOuts(g, nodes[0]), nodes[1..])
  }

  /** The inputs of a node come from wires in scope, at their types. */
  predicate InScope(g: Scope, ws: seq<Wire>, tys: seq<Ty>) {
    |ws| == |tys| && forall i :: 0 <= i < |ws| ==> ws[i] in g && g[ws[i]] == tys[i]
  }

  ghost predicate TypedExt(w: World, op: nat, ins: seq<Ty>, outs: seq<Ty>) {
    forall vs :: HasTys(w, vs, ins) ==> w.x.src(op, vs).Some? && HasTys(w, w.x.src(op, vs).value, outs)
  }

  ghost predicate TypedNodes(w: World, nodes: seq<Node>, g: Scope, ins: seq<Ty>, outs: seq<Ty>)
    decreases nodes, 0
  {
    nodes == [] || (TypedNode(w, nodes[0], g, ins, outs) && TypedNodes(w, nodes[1..], AddOuts(g, nodes[0]), ins, outs))
  }

  ghost predicate TypedNode(w: World, n: Node, g: Scope, ins: seq<Ty>, outs: seq<Ty>)
    decreases n, 1
  {
    && InScope(g, n.ins, n.inTys)
    && match n.op
       case Input => n.outs == ins
       case Output => n.inTys == outs && n.outs == []
       case _ => TypedOp(w, n, g)
  }

  ghost predicate TypedOp(w: World, n: Node, g: Scope)
    decreases n, 0
  {
    match n.op
    case Tag(tag, rows) => tag < |rows| && n.inTys == rows[tag].tys && n.outs == [Sum(rows)]
    case Ext(op) => TypedExt(w, op, n.inTys, n.outs)
    case Array(op, elem, size) => n.inTys == ArrayIns(op, elem, size) && n.outs == ArrayOuts(op, elem, size)
    case LoadConst(v) => |n.outs| == 1 && HasTy(w, v, n.outs[0])
    case LoadFunc(f) => |n.outs| == 1 && HasTy(w, FunV(f), n.outs[0])
    case CallFn(f) => HasSig(w, f) && n.inTys == SigIns(w, f) && n.outs == SigOuts(w, f)
    case CallIndirect => |n.inTys| >= 1 && n.inTys[0] == Func(n.inTys[1..], n.outs)
    case Dfg(nodes) => TypedRegion(w, nodes, g, n.inTys, n.outs)
    case Cond(rows, cases) => |n.inTys| >= 1 && n.inTys[0] == Sum(rows)
      && TypedCases(w, cases, rows, g, n.inTys[1..], n.outs)
    case Cfg(children) => TypedCfg(w, children, g, n.inTys, n.outs)
    case Static => n.outs == []
    case FuncDef(_) => n.outs == []
    case _ => false
  }

  ghost predicate TypedRegion(w: World, nodes: seq<Node>, g: Scope, ins: seq<Ty>, outs: seq<Ty>)
    decreases nodes, 1
  {
    RegionIns(nodes) == ins && CountOp(nodes, false) >= 1 && TypedNodes(w, nodes, g, ins, outs)
  }

  ghost predicate TypedCases(w: World, cases: seq<Case>, rows: seq<Row>, g: Scope, rest: seq<Ty>, outs: seq<Ty>)
    decreases cases, 0
  {
    && |cases| == |rows|
    && (cases == [] || (&& TypedRegion(w, cases[0].nodes, g, rows[0].tys + rest, outs)
                        && TypedCases(w, cases[1..], rows[1..], g, rest, outs)))
  }

  /** `vis` gives the wires visible in each block. */
  ghost predicate TypedCfg(w: World, children: seq<Child>, g: Scope, ins: seq<Ty>, outs: seq<Ty>)
    decreases children, 1
  {
    && children != [] && children[0].Block? && RegionIns(children[0].nodes) == ins
    && exists vis: map<NodeId, Scope> ::
         && TypedChildren(w, children, children, vis, outs)
         && children[0].id in vis && vis[children[0].id].Items <= g.Items
  }

  ghost predicate TypedChildren(w: World, children: seq<Child>, all: seq<Child>, vis: map<NodeId, Scope>, outs: seq<Ty>)
    decreases children, 0
  {
    children == [] || (TypedChild(w, children[0], all, vis, outs) && TypedChildren(w, children[1..], all, vis, outs))
  }

  ghost predicate TypedChild(w: World, c: Child, all: seq<Child>, vis: map<NodeId, Scope>, outs: seq<Ty>)
    decreases c, 0
  {
    c.Block? ==>
      && c.id in vis && (forall x :: x in vis[c.id] ==> x.node !in IdsAll(c.nodes))
      && TypedRegion(w, c.nodes, vis[c.id], RegionIns(c.nodes), RegionOutTys(c.nodes))
      && |RegionOutTys(c.nodes)| >= 1 && RegionOutTys(c.nodes)[0] == Sum(c.rows) && |c.succs| == |c.rows|
      && forall t :: 0 <= t < |c.succs| ==>
           && FindChild(all, c.succs[t]).Some?
           && TypedEdge(FindChild(all, c.succs[t]).value, vis, ScopeAfter(vis[c.id], c.nodes),
                        c.rows[t].tys + RegionOutTys(c.nodes)[1..], outs)
  }

  /** An edge to `d`: what is visible in `d` is in scope at the end of the block the edge leaves. */
  ghost predicate TypedEdge(d: Child, vis: map<NodeId, Scope>, g: Scope, tys: seq<Ty>, outs: seq<Ty>) {
    match d
    case Block(id, _, nodes, _) => id in vis && vis[id].Items <= g.Items && RegionIns(nodes) == tys
    case Exit(_) => outs == tys
    case _ => false
  }

  /** Functions linked in later take and return what they are declared to. */
  ghost predicate TypedWorld(w: World) {
    && (forall f :: f in w.funcs ==> TypedRegion(w, w.funcs[f].nodes, map[], w.funcs[f].ins, w.funcs[f].outs))
    && (forall f :: f in w.decls && f !in w.funcs ==> TypedLinked(w, f))
  }

  ghost predicate TypedLinked(w: World, f: NodeId)
    requires f in w.decls
  {
    forall vs :: HasTys(w, vs, w.decls[f].ins) ==>
      w.x.linkedSrc(f, vs).Some? && HasTys(w, w.x.linkedSrc(f, vs).value, w.decls[f].outs)
  }

  // ----- values and environments -----

  lemma {:induction false} HasTysAt(w: World, vs: seq<Val>, tys: seq<Ty>, i: nat)
    requires HasTys(w, vs, tys) && i < |vs|
    ensures HasTy(w, vs[i], tys[i])
    decreases vs
  {
    if i > 0 { HasTysAt(w, vs[1..], tys[1..], i - 1); }
  }

  lemma {:induction false} HasTysAll(w: World, vs: seq<Val>, tys: seq<Ty>)
    requires |vs| == |tys| && forall i :: 0 <= i < |vs| ==> HasTy(w, vs[i], tys[i])
    ensures HasTys(w, vs, tys)
    decreases vs
  {
    if vs != [] {
      forall i | 0 <= i < |vs| - 1 ensures HasTy(w, vs[1..][i], tys[1..][i]) {
        assert HasTy(w, vs[i + 1], tys[i + 1]);
      }
      HasTysAll(w, vs[1..], tys[1..]);
    }
  }

  lemma HasTysConcat(w: World, a: seq<Val>, b: seq<Val>, s: seq<Ty>, t: seq<Ty>)
    requires HasTys(w, a, s) && HasTys(w, b, t)
    ensures HasTys(w, a + b, s + t)
  {
    forall i | 0 <= i < |a + b| ensures HasTy(w, (a + b)[i], (s + t)[i]) {
      if i < |a| { HasTysAt(w, a, s, i); } else { HasTysAt(w, b, t, i - |a|); }
    }
    HasTysAll(w, a + b, s + t);
  }

  lemma One(w: World, v: Val, ty: Ty)
    requires HasTy(w, v, ty)
    ensures HasTys(w, [v], [ty])
  {
    HasTysAll(w, [v], [ty]);
  }

  lemma NoOuts(g: Scope, n: Node)
    requires n.outs == []
    ensures AddOuts(g, n) == g
  {
  }

  lemma LookupHas(w: World, env: Env, g: Scope, ws: seq<Wire>, tys: seq<Ty>)
    requires EnvHas(w, env, g) && InScope(g, ws, tys)
    ensures Lookup(env, ws).Some? && HasTys(w, Lookup(env, ws).value, tys)
  {
    HasTysAll(w, Lookup(env, ws).value, tys);
  }

  lemma BindHas(w: World, env: Env, g: Scope, n: Node, os: seq<Val>)
    requires EnvHas(w, env, g) && HasTys(w, os, n.outs)
    ensures EnvHas(w, Bind(env, n.id, 0, os), AddOuts(g, n))
  {
    var e := Bind(env, n.id, 0, os);
    forall x | x in AddOuts(g, n) ensures x in e && HasTy(w, e[x], AddOuts(g, n)[x]) {
      if x.node == n.id && x.port < |os| { HasTysAt(w, os, n.outs, x.port); }
    }
  }

  lemma EnvHasLess(w: World, env: Env, g: Scope, h: Scope)
    requires EnvHas(w, env, g) && h.Items <= g.Items
    ensures EnvHas(w, env, h)
  {
    forall x | x in h ensures x in env && HasTy(w, env[x], h[x]) {
      assert (x, h[x]) in h.Items;
    }
  }

  // ----- soundness -----

  ghost predicate SafeNodes(w: World, r: Res<(Env, Option<seq<Val>>)>, g: Scope, outs: seq<Ty>, done: bool) {
    match r
    case Ok((e, o)) => EnvHas(w, e, g) && (o.Some? ==> HasTys(w, o.value, outs)) && (done ==> o.Some?)
    case NoFuel => true
    case Wrong => false
  }

  ghost predicate Safe(w: World, r: Res<seq<Val>>, outs: seq<Ty>) {
    match r case Ok(os) => HasTys(w, os, outs) case NoFuel => true case Wrong => false
  }

  lemma {:induction false} NodesSafe(w: World, fuel: nat, nodes: seq<Node>, env: Env, g: Scope, ivals: seq<Val>,
                                     out: Option<seq<Val>>, ins: seq<Ty>, outs: seq<Ty>)
    requires TypedWorld(w) && TypedNodes(w, nodes, g, ins, outs) && EnvHas(w, env, g) && HasTys(w, ivals, ins)
    requires out.Some? ==> HasTys(w, out.value, outs)
    ensures SafeNodes(w, EvalNodes(w, fuel, nodes, env, ivals, out), ScopeAfter(g, nodes), outs,
                      out.Some? || CountOp(nodes, false) > 0)
    decreases fuel, nodes, 0
  {
    hide TypedWorld, TypedNode, EvalNode, EnvHas, HasTys, AddOuts;
    if nodes != [] {
      NodeSafe(w, fuel, nodes[0], env, g, ivals, out, ins, outs);
      var r := EvalNode(w, fuel, nodes[0], env, ivals, out);
      if r.Ok? {
        NodesSafe(w, fuel, nodes[1..], r.value.0, AddOuts(g, nodes[0]), ivals, r.value.1, ins, outs);
      }
    }
  }

  lemma {:induction false} NodeSafe(w: World, fuel: nat, n: Node, env: Env, g: Scope, ivals: seq<Val>,
                                    out: Option<seq<Val>>, ins: seq<Ty>, outs: seq<Ty>)
    requires TypedWorld(w) && TypedNode(w, n, g, ins, outs) && EnvHas(w, env, g) && HasTys(w, ivals, ins)
    requires out.Some? ==> HasTys(w, out.value, outs)
    ensures SafeNodes(w, EvalNode(w, fuel, n, env, ivals, out), AddOuts(g, n), outs, out.Some? || n.op.Output?)
    decreases fuel, n, 1
  {
    hide TypedWorld, TypedOp, EvalOp, EnvHas, HasTys, AddOuts, InScope;
    LookupHas(w, env, g, n.ins, n.inTys);
    var vs := Lookup(env, n.ins).value;
    match n.op {
      case Input => BindHas(w, env, g, n, ivals);
      case Output => NoOuts(g, n);
      case _ =>
        OpSafe(w, fuel, n, env, g, vs);
        var r := EvalOp(w, fuel, n, env, vs);
        if r.Ok? { BindHas(w, env, g, n, r.value); }
    }
  }

  lemma {:induction false} OpSafe(w: World, fuel: nat, n: Node, env: Env, g: Scope, vs: seq<Val>)
    requires TypedWorld(w) && TypedOp(w, n, g) && EnvHas(w, env, g) && HasTys(w, vs, n.inTys)
    ensures Safe(w, EvalOp(w, fuel, n, env, vs), n.outs)
    decreases fuel, n, 0
  {
    hide TypedWorld, TypedRegion, TypedCases, TypedCfg, EvalRegion, EvalCfg, EvalCall, EnvHas;
    match n.op {
      case CallFn(f) => if fuel > 0 { CallSafe(w, fuel - 1, f, vs); }
      case CallIndirect =>
        HasTysAt(w, vs, n.inTys, 0);
        if fuel > 0 { CallSafe(w, fuel - 1, vs[0].f, vs[1..]); }
      case Dfg(nodes) => RegionSafe(w, fuel, nodes, env, g, vs, n.inTys, n.outs);
      case Cond(rows, cases) =>
        HasTysAt(w, vs, n.inTys, 0);
        var tag := vs[0].tag;
        TypedCaseAt(w, cases, rows, g, n.inTys[1..], n.outs, tag);
        HasTysConcat(w, vs[0].vals, vs[1..], rows[tag].tys, n.inTys[1..]);
        RegionSafe(w, fuel, cases[tag].nodes, env, g, vs[0].vals + vs[1..], rows[tag].tys + n.inTys[1..], n.outs);
      case Cfg(children) => GraphSafe(w, fuel, n, env, g, vs);
      case Tag(tag, rows) => One(w, SumV(tag, vs, rows), Sum(rows));
      case LoadConst(v) => One(w, v, n.outs[0]); assert n.outs == [n.outs[0]];
      case LoadFunc(f) => One(w, FunV(f), n.outs[0]); assert n.outs == [n.outs[0]];
      case Array(op, elem, size) => ArraySafe(w, op, elem, size, vs);
      case Ext(op) =>
      case _ =>
    }
  }

  /** Array ops on values of their types return values of their types. */
  lemma ArraySafe(w: World, op: ArrayOp, elem: Ty, size: nat, vs: seq<Val>)
    requires HasTys(w, vs, ArrayIns(op, elem, size))
    ensures ArraySem(op, elem, size, vs).Some?
    ensures HasTys(w, ArraySem(op, elem, size, vs).value, ArrayOuts(op, elem, size))
  {
    hide HasTys, HasTy, ArrayRows;
    HasTysLen(w, vs, ArrayIns(op, elem, size));
    match op {
      case NewArray =>
        forall i | 0 <= i < |vs| ensures HasTy(w, vs[i], elem) { HasTysAt(w, vs, ArrayIns(op, elem, size), i); }
        ArrHasTy(w, vs, elem);
        One(w, ArrV(vs), Arr(size, elem));
      case GetOp =>
        HasTysAt(w, vs, ArrayIns(op, elem, size), 0);
        HasTysAt(w, vs, ArrayIns(op, elem, size), 1);
        GetSafe(w, elem, size, vs[0], vs[1]);
      case SetOp =>
        HasTysAt(w, vs, ArrayIns(op, elem, size), 0);
        HasTysAt(w, vs, ArrayIns(op, elem, size), 1);
        HasTysAt(w, vs, ArrayIns(op, elem, size), 2);
        SetSafe(w, elem, size, vs[0], vs[1], vs[2]);
      case SwapOp =>
        HasTysAt(w, vs, ArrayIns(op, elem, size), 0);
        HasTysAt(w, vs, ArrayIns(op, elem, size), 1);
        HasTysAt(w, vs, ArrayIns(op, elem, size), 2);
        SwapSafe(w, elem, size, vs[0], vs[1], vs[2]);
      case PopOp(left) =>
        HasTysAt(w, vs, ArrayIns(op, elem, size), 0);
        PopSafe(w, elem, size, left, vs[0]);
      case DiscardEmpty =>
        HasTysAt(w, vs, ArrayIns(op, elem, size), 0);
        Nothing(w);
        ArrParts(w, vs[0], 0, elem);
    }
  }

  lemma ArrHasTy(w: World, a: seq<Val>, elem: Ty)
    requires forall i :: 0 <= i < |a| ==> HasTy(w, a[i], elem)
    ensures HasTy(w, ArrV(a), Arr(|a|, elem))
  {
  }

  lemma ArrParts(w: World, v: Val, size: nat, elem: Ty)
    requires HasTy(w, v, Arr(size, elem))
    ensures IsArr(v, size) && forall i :: 0 <= i < size ==> HasTy(w, v.elems[i], elem)
  {
  }

  lemma IndexHasTy(w: World, v: Val)
    requires HasTy(w, v, Usize)
    ensures IsIndex(v)
  {
  }

  lemma Nothing(w: World)
    ensures HasTys(w, [], [])
  {
  }

  lemma Two(w: World, u: Val, v: Val, s: Ty, t: Ty)
    requires HasTy(w, u, s) && HasTy(w, v, t)
    ensures HasTys(w, [u, v], [s, t])
  {
    HasTysAll(w, [u, v], [s, t]);
  }

  lemma GetSafe(w: World, elem: Ty, size: nat, a: Val, i: Val)
    requires HasTy(w, a, Arr(size, elem)) && HasTy(w, i, Usize)
    ensures var r := ArraySem(GetOp, elem, size, [a, i]); r.Some? && HasTys(w, r.value, ArrayOuts(GetOp, elem, size))
  {
    hide HasTys, HasTy;
    ArrParts(w, a, size, elem);
    IndexHasTy(w, i);
    if i.n < size { One(w, a.elems[i.n], elem); } else { Nothing(w); }
    OneSum(w, ArraySem(GetOp, elem, size, [a, i]).value[0]);
  }

  lemma SetSafe(w: World, elem: Ty, size: nat, a: Val, i: Val, v: Val)
    requires HasTy(w, a, Arr(size, elem)) && HasTy(w, i, Usize) && HasTy(w, v, elem)
    ensures var r := ArraySem(SetOp, elem, size, [a, i, v]); r.Some? && HasTys(w, r.value, ArrayOuts(SetOp, elem, size))
  {
    hide HasTys, HasTy;
    ArrParts(w, a, size, elem);
    IndexHasTy(w, i);
    if i.n < size {
      ArrHasTy(w, a.elems[i.n := v], elem);
      Two(w, a.elems[i.n], ArrV(a.elems[i.n := v]), elem, Arr(size, elem));
    } else {
      Two(w, v, a, elem, Arr(size, elem));
    }
    OneSum(w, ArraySem(SetOp, elem, size, [a, i, v]).value[0]);
  }

  lemma SwapSafe(w: World, elem: Ty, size: nat, a: Val, i: Val, j: Val)
    requires HasTy(w, a, Arr(size, elem)) && HasTy(w, i, Usize) && HasTy(w, j, Usize)
    ensures var r := ArraySem(SwapOp, elem, size, [a, i, j]);
      r.Some? && HasTys(w, r.value, ArrayOuts(SwapOp, elem, size))
  {
    hide HasTys, HasTy;
    ArrParts(w, a, size, elem);
    IndexHasTy(w, i);
    IndexHasTy(w, j);
    if i.n < size && j.n < size {
      var b := a.elems[i.n := a.elems[j.n]][j.n := a.elems[i.n]];
      ArrHasTy(w, b, elem);
      One(w, ArrV(b), Arr(size, elem));
    } else {
      One(w, a, Arr(size, elem));
    }
    OneSum(w, ArraySem(SwapOp, elem, size, [a, i, j]).value[0]);
  }

  lemma PopSafe(w: World, elem: Ty, size: nat, left: bool, a: Val)
    requires HasTy(w, a, Arr(size, elem))
    ensures var r := ArraySem(PopOp(left), elem, size, [a]);
      r.Some? && HasTys(w, r.value, ArrayOuts(PopOp(left), elem, size))
  {
    hide HasTys, HasTy;
    ArrParts(w, a, size, elem);
    if size == 0 {
      Nothing(w);
    } else {
      var x, b := if left then a.elems[0] else a.elems[size - 1], if left then a.elems[1..] else a.elems[..size - 1];
      ArrHasTy(w, b, elem);
      Two(w, x, ArrV(b), elem, Arr(size - 1, elem));
    }
    OneSum(w, ArraySem(PopOp(left), elem, size, [a]).value[0]);
  }

  lemma OneSum(w: World, v: Val)
    requires v.SumV? && v.tag < |v.rows| && HasTys(w, v.vals, v.rows[v.tag].tys)
    ensures HasTys(w, [v], [Sum(v.rows)])
  {
    One(w, v, Sum(v.rows));
  }

  lemma HasTysLen(w: World, vs: seq<Val>, tys: seq<Ty>)
    requires HasTys(w, vs, tys)
    ensures |vs| == |tys|
  {
  }

  lemma {:induction false} TypedCaseAt(w: World, cases: seq<Case>, rows: seq<Row>, g: Scope, rest: seq<Ty>,
                                       outs: seq<Ty>, t: nat)
    requires TypedCases(w, cases, rows, g, rest, outs) && t < |rows|
    ensures t < |cases| && TypedRegion(w, cases[t].nodes, g, rows[t].tys + rest, outs)
    decreases cases
  {
    if t > 0 { TypedCaseAt(w, cases[1..], rows[1..], g, rest, outs, t - 1); }
  }

  ghost predicate SafeRegion(w: World, r: Res<(Env, seq<Val>)>, g: Scope, outs: seq<Ty>) {
    match r
    case Ok((e, os)) => EnvHas(w, e, g) && HasTys(w, os, outs)
    case NoFuel => true
    case Wrong => false
  }

  lemma {:induction false} RegionSafe(w: World, fuel: nat, nodes: seq<Node>, env: Env, g: Scope, ivals: seq<Val>,
                                      ins: seq<Ty>, outs: seq<Ty>)
    requires TypedWorld(w) && TypedRegion(w, nodes, g, ins, outs) && EnvHas(w, env, g) && HasTys(w, ivals, ins)
    ensures SafeRegion(w, EvalRegion(w, fuel, nodes, env, ivals), ScopeAfter(g, nodes), outs)
    ensures Safe(w, Results(EvalRegion(w, fuel, nodes, env, ivals)), outs)
    decreases fuel, nodes, 1
  {
    hide TypedWorld, TypedNodes, EvalNodes, EnvHas, HasTys, ScopeAfter;
    NodesSafe(w, fuel, nodes, env, g, ivals, None, ins, outs);
  }

  lemma {:induction false} CallSafe(w: World, fuel: nat, f: NodeId, args: seq<Val>)
    requires TypedWorld(w) && HasSig(w, f) && HasTys(w, args, SigIns(w, f))
    ensures Safe(w, EvalCall(w, fuel, f, args), SigOuts(w, f))
    decreases fuel
  {
    hide TypedRegion, EvalRegion, HasTys;
    if f in w.funcs {
      RegionSafe(w, fuel, w.funcs[f].nodes, map[], map[], args, w.funcs[f].ins, w.funcs[f].outs);
    } else {
      assert TypedLinked(w, f);
    }
  }

  lemma {:induction false} GraphSafe(w: World, fuel: nat, n: Node, env: Env, g: Scope, vs: seq<Val>)
    requires TypedWorld(w) && n.op.Cfg? && TypedOp(w, n, g) && EnvHas(w, env, g) && HasTys(w, vs, n.inTys)
    ensures Safe(w, EvalOp(w, fuel, n, env, vs), n.outs)
    decreases fuel, n.op, 1
  {
    hide TypedWorld, TypedChildren, EvalRegion, EvalCfg, EvalCall, EnvHas, HasTys;
    var children := n.op.children;
    var vis: map<NodeId, Scope> :|
      && TypedChildren(w, children, children, vis, n.outs)
      && children[0].id in vis && vis[children[0].id].Items <= g.Items;
    EnvHasLess(w, env, g, vis[children[0].id]);
    CfgSafe(w, fuel, children, children[0], env, vs, vis, n.inTys, n.outs);
  }

  lemma {:induction false} TypedChildAt(w: World, children: seq<Child>, all: seq<Child>, vis: map<NodeId, Scope>,
                                        outs: seq<Ty>, d: Child)
    requires TypedChildren(w, children, all, vis, outs) && d in children
    ensures TypedChild(w, d, all, vis, outs)
  {
    if children[0] != d { TypedChildAt(w, children[1..], all, vis, outs, d); }
  }

  lemma {:induction false} CfgSafe(w: World, fuel: nat, children: seq<Child>, d: Child, env: Env, args: seq<Val>,
                                   vis: map<NodeId, Scope>, ins: seq<Ty>, outs: seq<Ty>)
    requires TypedWorld(w) && TypedChildren(w, children, children, vis, outs) && HasTys(w, args, ins)
    requires d in children && TypedEdge(d, vis, if d.Block? && d.id in vis then vis[d.id] else map[], ins, outs)
    requires FindChild(children, d.id) == Some(d)
    requires d.Block? ==> EnvHas(w, env, vis[d.id])
    ensures Safe(w, EvalCfg(w, fuel, children, d.id, env, args, |outs|), outs)
    decreases fuel, children, 0
  {
    hide TypedWorld, TypedChildren, TypedRegion, EvalRegion, HasTys, IdsAll, EnvHas, ScopeAfter, Without;
    if d.Block? && fuel > 0 {
      TypedChildAt(w, children, children, vis, outs, d);
      WithoutHas(w, env, vis[d.id], IdsAll(d.nodes));
      RegionSafe(w, fuel, d.nodes, Without(env, IdsAll(d.nodes)), vis[d.id], args, ins, RegionOutTys(d.nodes));
      var r := EvalRegion(w, fuel, d.nodes, Without(env, IdsAll(d.nodes)), args);
      if r.Ok? {
        var (e, os) := r.value;
        Choice(w, d, os);
        var tag := os[0].tag;
        var u := FindChild(children, d.succs[tag]).value;
        if u.Block? { EnvHasLess(w, e, ScopeAfter(vis[d.id], d.nodes), vis[u.id]); }
        CfgSafe(w, fuel - 1, children, u, e, os[0].vals + os[1..], vis, d.rows[tag].tys + RegionOutTys(d.nodes)[1..],
                outs);
      }
    }
  }

  lemma WithoutHas(w: World, env: Env, g: Scope, ids: set<NodeId>)
    requires EnvHas(w, env, g) && forall x :: x in g ==> x.node !in ids
    ensures EnvHas(w, Without(env, ids), g)
  {
  }

  /** The first result of a well-typed block chooses one of its successors. */
  lemma Choice(w: World, d: Child, os: seq<Val>)
    requires d.Block? && |RegionOutTys(d.nodes)| >= 1 && RegionOutTys(d.nodes)[0] == Sum(d.rows)
    requires |d.succs| == |d.rows|
    requires HasTys(w, os, RegionOutTys(d.nodes))
    ensures |os| > 0 && os[0].SumV? && os[0].rows == d.rows && os[0].tag < |d.succs|
    ensures |os[0].vals| == |d.rows[os[0].tag].tys|
    ensures HasTys(w, os[0].vals + os[1..], d.rows[os[0].tag].tys + RegionOutTys(d.nodes)[1..])
  {
    hide RegionOutTys;
    HasTysAt(w, os, RegionOutTys(d.nodes), 0);
    HasTysConcat(w, os[0].vals, os[1..], d.rows[os[0].tag].tys, RegionOutTys(d.nodes)[1..]);
  }
}
