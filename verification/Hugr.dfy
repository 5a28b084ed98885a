/** HUGRs as trees of regions, what it takes for one to be valid, and their direct dataflow semantics. */
module Hugr {
  import opened Values
  import opened Machine
  import opened Arrays

  /** An outgoing value port.  Edges are given by their source wire, so each input has exactly one source. */
  datatype Wire = Wire(node: NodeId, port: nat)

  /** `Static` covers `Const` and `FuncDecl` children, which emit nothing; `FuncDef` is a scoped `FuncDefn`. */
  datatype Op =
    | Input
    | Output
    | Tag(tag: nat, rows: seq<Row>)
    | Ext(op: nat)
    | Array(arr: ArrayOp, elem: Ty, size: nat)
    | LoadConst(v: Val)
    | LoadFunc(f: NodeId)
    | CallFn(f: NodeId)
    | CallIndirect
    | Dfg(nodes: seq<Node>)
    | Cond(rows: seq<Row>, cases: seq<Case>)
    | Cfg(children: seq<Child>)
    | Static
    | FuncDef(f: NodeId)

  /** A node of a dataflow region: the wires feeding its value inputs, and the types of its ports. */
  datatype Node = Node(id: NodeId, op: Op, ins: seq<Wire>, inTys: seq<Ty>, outs: seq<Ty>)

  /** The nodes of a region are listed in the topological order they are emitted in. */
  datatype Case = Case(nodes: seq<Node>)

  datatype Child =
    | Block(id: NodeId, rows: seq<Row>, nodes: seq<Node>, succs: seq<NodeId>)
    | Exit(id: NodeId)
    | ChildFunc(f: NodeId)
    | ChildStatic

  datatype FuncDefn = FuncDefn(name: string, ins: seq<Ty>, outs: seq<Ty>, nodes: seq<Node>)

  datatype FuncDecl = FuncDecl(name: string, ins: seq<Ty>, outs: seq<Ty>)

  type Env = map<Wire, Val>

  /** The functions that are defined, those that are only declared, and the meaning of what is not in the HUGR. */
  datatype World = World(funcs: map<NodeId, FuncDefn>, decls: map<NodeId, FuncDecl>, x: Sem)

  // ----- structure -----

  function InputOf(nodes: seq<Node>): (r: Option<Node>)
    ensures r.Some? ==> r.value in nodes && r.value.op.Input?
  {
    if nodes == [] then None else if nodes[0].op.Input? then Some(nodes[0]) else InputOf(nodes[1..])
  }

  function OutputOf(nodes: seq<Node>): (r: Option<Node>)
    ensures r.Some? ==> r.value in nodes && r.value.op.Output?
  {
    if nodes == [] then None else if nodes[0].op.Output? then Some(nodes[0]) else OutputOf(nodes[1..])
  }

  /** The types of the values a region takes, and the wires it hands out. */
  function RegionIns(nodes: seq<Node>): seq<Ty> {
    match InputOf(nodes) case Some(i) => i.outs case None => []
  }

  function RegionOuts(nodes: seq<Node>): seq<Wire> {
    match OutputOf(nodes) case Some(o) => o.ins case None => []
  }

  function RegionOutTys(nodes: seq<Node>): seq<Ty> {
    match OutputOf(nodes) case Some(o) => o.inTys case None => []
  }

  function OutWires(id: NodeId, n: nat): (ws: seq<Wire>)
    ensures |ws| == n && forall i :: 0 <= i < n ==> ws[i] == Wire(id, i)
  {
    seq(n, (i: nat) => Wire(id, i))
  }

  function InputWires(nodes: seq<Node>): seq<Wire> {
    match InputOf(nodes) case Some(i) => OutWires(i.id, |i.outs|) case None => []
  }

  function Ids(n: Node): set<NodeId>
    decreases n, 0
  {
    {n.id} + match n.op
             case Dfg(nodes) => IdsAll(nodes)
             case Cond(_, cases) => IdsCases(cases)
             case Cfg(children) => IdsChildren(children)
             case _ => {}
  }

  function IdsAll(nodes: seq<Node>): set<NodeId>
    decreases nodes, 0
  {
    if nodes == [] then {} else Ids(nodes[0]) + IdsAll(nodes[1..])
  }

  function IdsCases(cases: seq<Case>): set<NodeId>
    decreases cases, 0
  {
    if cases == [] then {} else IdsAll(cases[0].nodes) + IdsCases(cases[1..])
  }

  function IdsChild(c: Child): set<NodeId>
    decreases c, 0
  {
    match c case Block(_, _, nodes, _) => IdsAll(nodes) case _ => {}
  }

  function IdsChildren(children: seq<Child>): set<NodeId>
    decreases children, 0
  {
    if children == [] then {} else IdsChild(children[0]) + IdsChildren(children[1..])
  }

  function FindChild(children: seq<Child>, id: NodeId): (r: Option<Child>)
    ensures r.Some? ==> r.value in children && (r.value.Block? || r.value.Exit?) && r.value.id == id
  {
    if children == [] then None
    else if (children[0].Block? || children[0].Exit?) && children[0].id == id then Some(children[0])
    else FindChild(children[1..], id)
  }

  function CountOp(nodes: seq<Node>, isInput: bool): nat {
    if nodes == [] then 0
    else (if (isInput && nodes[0].op.Input?) || (!isInput && nodes[0].op.Output?) then 1 else 0)
         + CountOp(nodes[1..], isInput)
  }

  // ----- validity of the graph -----

  /** Constants hold no functions, arrays are no constants, and every sum constant has the fields its variant
      declares. */
  predicate ValidConst(v: Val)
    decreases v, 1
  {
    match v
    case Prim(_, _) => true
    case ArrV(_) => false
    case FunV(_) => false
    case SumV(tag, vals, rows) => tag < |rows| && |vals| == |rows[tag].tys| && ValidConsts(vals)
  }

  predicate ValidConsts(vs: seq<Val>)
    decreases vs, 0
  {
    vs == [] || (ValidConst(vs[0]) && ValidConsts(vs[1..]))
  }

  predicate ValidRegion(nodes: seq<Node>, nIn: nat, nOut: nat)
    decreases nodes, 1
  {
    && CountOp(nodes, true) == 1 && CountOp(nodes, false) == 1
    && |RegionIns(nodes)| == nIn && |RegionOuts(nodes)| == nOut
    && ValidNodes(nodes, nIn, RegionOuts(nodes))
  }

  predicate ValidNodes(nodes: seq<Node>, nIn: nat, outs: seq<Wire>)
    decreases nodes, 0
  {
    nodes == [] ||
    (ValidNode(nodes[0], nIn, outs) && Ids(nodes[0]) !! IdsAll(nodes[1..]) && ValidNodes(nodes[1..], nIn, outs))
  }

  predicate ValidNode(n: Node, nIn: nat, outs: seq<Wire>)
    decreases n, 0
  {
    true == (
    && |n.ins| == |n.inTys|
    && match n.op
       case Input => n.ins == [] && |n.outs| == nIn
       case Output => n.ins == outs && n.outs == []
       case Tag(tag, rows) => tag < |rows| && |n.ins| == |rows[tag].tys| && |n.outs| == 1
       case Array(op, elem, size) =>
         size <= MaxSize && |n.ins| == |ArrayIns(op, elem, size)| && |n.outs| == |ArrayOuts(op, elem, size)|
       case LoadConst(v) => ValidConst(v) && |n.outs| == 1
       case LoadFunc(_) => |n.outs| == 1
       case CallIndirect => |n.ins| >= 1
       case Dfg(nodes) => n.id !in IdsAll(nodes) && ValidRegion(nodes, |n.ins|, |n.outs|)
       case Cond(rows, cases) =>
         && n.id !in IdsCases(cases) && |n.ins| >= 1 && |rows| >= 1
         && ValidCases(cases, rows, |n.ins| - 1, |n.outs|)
       case Cfg(children) => n.id !in IdsChildren(children) && ValidCfg(children, |n.ins|, |n.outs|)
       case Static => n.outs == []
       case FuncDef(_) => n.outs == []
       case _ => true)
  }

  predicate ValidCases(cases: seq<Case>, rows: seq<Row>, nRest: nat, nOut: nat)
    decreases cases, 0
  {
    && |cases| == |rows|
    && (cases == [] ||
        (&& ValidRegion(cases[0].nodes, |rows[0].tys| + nRest, nOut)
         && ValidCases(cases[1..], rows[1..], nRest, nOut)))
  }

  /** The first two children are the entry block and the only exit block. */
  predicate ValidCfg(children: seq<Child>, nIn: nat, nOut: nat)
    decreases children, 1
  {
    && |children| >= 2 && children[0].Block? && children[1].Exit?
    && (forall i :: 0 <= i < |children| && i != 1 ==> !children[i].Exit?)
    && |RegionIns(children[0].nodes)| == nIn
    && ValidChildren(children, children, nOut)
  }

  function ChildArity(c: Child, nOut: nat): nat {
    match c case Block(_, _, nodes, _) => |RegionIns(nodes)| case _ => nOut
  }

  predicate ValidChildren(children: seq<Child>, all: seq<Child>, nOut: nat)
    decreases children, 0
  {
    children == [] ||
    (&& ValidChild(children[0], all, nOut)
     && ((children[0].Block? || children[0].Exit?) ==> FindChild(children[1..], children[0].id).None?)
     && IdsChild(children[0]) !! IdsChildren(children[1..])
     && ValidChildren(children[1..], all, nOut))
  }

  /** The successors of a block are listed per branch tag, and take the fields of that variant
      followed by the other outputs. */
  predicate ValidChild(c: Child, all: seq<Child>, nOut: nat)
    decreases c, 0
  {
    c.Block? ==>
      && |RegionOuts(c.nodes)| >= 1
      && ValidRegion(c.nodes, |RegionIns(c.nodes)|, |RegionOuts(c.nodes)|)
      && |c.rows| >= 1 && |c.succs| == |c.rows|
      && forall t :: 0 <= t < |c.succs| ==>
           && FindChild(all, c.succs[t]).Some?
           && ChildArity(FindChild(all, c.succs[t]).value, nOut) == |c.rows[t].tys| + |RegionOuts(c.nodes)| - 1
  }

  predicate ValidFunc(f: FuncDefn) {
    ValidRegion(f.nodes, |f.ins|, |f.outs|)
  }

  // ----- semantics -----

  /** `NoFuel` marks a run that is still going after `fuel` block transitions and calls. */
  datatype Res<+T> = Ok(value: T) | NoFuel | Wrong

  function Bind(env: Env, id: NodeId, port: nat, vals: seq<Val>): (e: Env)
    ensures forall w: Wire :: w.node == id && port <= w.port < port + |vals| ==> w in e && e[w] == vals[w.port - port]
    ensures forall w: Wire :: !(w.node == id && port <= w.port < port + |vals|) ==>
              (w in e <==> w in env) && (w in env ==> e[w] == env[w])
    decreases vals
  {
    if vals == [] then env else Bind(env[Wire(id, port) := vals[0]], id, port + 1, vals[1..])
  }

  function Lookup(env: Env, ws: seq<Wire>): (r: Option<seq<Val>>)
    ensures r.Some? ==> |r.value| == |ws| && forall i :: 0 <= i < |ws| ==> ws[i] in env && env[ws[i]] == r.value[i]
    ensures r.Some? <==> forall i :: 0 <= i < |ws| ==> ws[i] in env
  {
    if ws == [] then Some([])
    else if ws[0] !in env then None
    else match Lookup(env, ws[1..]) case Some(vs) => Some([env[ws[0]]] + vs) case None => None
  }

  function Without(env: Env, ids: set<NodeId>): Env {
    map w | w in env && w.node !in ids :: env[w]
  }

  /** Runs the nodes of a region in order.  `out` holds the region's results once `Output` has been reached. */
  ghost function EvalNodes(w: World, fuel: nat, nodes: seq<Node>, env: Env, ivals: seq<Val>, out: Option<seq<Val>>)
    : Res<(Env, Option<seq<Val>>)>
    decreases fuel, nodes, 0
  {
    if nodes == [] then Ok((env, out)) else
    match EvalNode(w, fuel, nodes[0], env, ivals, out)
    case Ok((e, o)) => EvalNodes(w, fuel, nodes[1..], e, ivals, o)
    case NoFuel => NoFuel
    case Wrong => Wrong
  }

  ghost function EvalNode(w: World, fuel: nat, n: Node, env: Env, ivals: seq<Val>, out: Option<seq<Val>>)
    : Res<(Env, Option<seq<Val>>)>
    decreases fuel, n, 2
  {
    match Lookup(env, n.ins)
    case None => Wrong
    case Some(vs) => EvalAt(w, fuel, n, env, ivals, vs, out)
  }

  /** A node, once its inputs are known. */
  ghost function EvalAt(w: World, fuel: nat, n: Node, env: Env, ivals: seq<Val>, vs: seq<Val>, out: Option<seq<Val>>)
    : Res<(Env, Option<seq<Val>>)>
    decreases fuel, n, 1
  {
    match n.op
    case Input => BindResults(env, n, Ok(ivals), out)
    case Output => Ok((env, Some(vs)))
    case _ => BindResults(env, n, EvalOp(w, fuel, n, env, vs), out)
  }

  function BindResults(env: Env, n: Node, r: Res<seq<Val>>, out: Option<seq<Val>>): Res<(Env, Option<seq<Val>>)> {
    match r
    case Ok(os) => if |os| == |n.outs| then Ok((Bind(env, n.id, 0, os), out)) else Wrong
    case NoFuel => NoFuel
    case Wrong => Wrong
  }

  /** A region sees the wires of its ancestors; its own wires vanish with it. */
  ghost function EvalRegion(w: World, fuel: nat, nodes: seq<Node>, env: Env, ivals: seq<Val>)
    : Res<(Env, seq<Val>)>
    decreases fuel, nodes, 1
  {
    if |ivals| != |RegionIns(nodes)| then Wrong else
    match EvalNodes(w, fuel, nodes, env, ivals, None)
    case Ok((e, Some(os))) => Ok((e, os))
    case NoFuel => NoFuel
    case _ => Wrong
  }

  ghost function Results(r: Res<(Env, seq<Val>)>): Res<seq<Val>> {
    match r case Ok((_, os)) => Ok(os) case NoFuel => NoFuel case Wrong => Wrong
  }

  ghost function EvalOp(w: World, fuel: nat, n: Node, env: Env, vs: seq<Val>): Res<seq<Val>>
    decreases fuel, n, 0
  {
    match n.op
    case Tag(tag, rows) =>
      if tag < |rows| && |vs| == |rows[tag].tys| then Ok([SumV(tag, vs, rows)]) else Wrong
    case Ext(op) => (match w.x.src(op, vs) case Some(os) => Ok(os) case None => Wrong)
    case Array(op, elem, size) =>
      (match ArraySem(op, elem, size, vs) case Some(os) => Ok(os) case None => Wrong)
    case LoadConst(v) => Ok([v])
    case LoadFunc(f) => Ok([FunV(f)])
    case CallFn(f) => if fuel == 0 then NoFuel else EvalCall(w, fuel - 1, f, vs)
    case CallIndirect =>
      if |vs| > 0 && vs[0].FunV? then
        if fuel == 0 then NoFuel else EvalCall(w, fuel - 1, vs[0].f, vs[1..])
      else Wrong
    case Dfg(nodes) => Results(EvalRegion(w, fuel, nodes, env, vs))
    case Cond(rows, cases) =>
      if |vs| > 0 && vs[0].SumV? && vs[0].rows == rows && vs[0].tag < |cases| && vs[0].tag < |rows|
         && |vs[0].vals| == |rows[vs[0].tag].tys| then
        var c := cases[vs[0].tag];
        Results(EvalRegion(w, fuel, c.nodes, env, vs[0].vals + vs[1..]))
      else Wrong
    case Cfg(children) =>
      if |children| > 0 && children[0].Block? then EvalCfg(w, fuel, children, children[0].id, env, vs, |n.outs|)
      else Wrong
    case Static => Ok([])
    case FuncDef(_) => Ok([])
    case _ => Wrong
  }

  /** A call of a function that is not defined here does what the function linked in later does. */
  ghost function EvalCall(w: World, fuel: nat, f: NodeId, args: seq<Val>): Res<seq<Val>>
    decreases fuel
  {
    if f in w.funcs then Results(EvalRegion(w, fuel, w.funcs[f].nodes, map[], args))
    else match w.x.linkedSrc(f, args) case Some(os) => Ok(os) case None => Wrong
  }

  /** Runs a control-flow graph from child `cur` on.  The wires of finished blocks stay visible to later
      blocks; entering a block forgets what an earlier visit of it computed. */
  ghost function EvalCfg(w: World, fuel: nat, children: seq<Child>, cur: NodeId, env: Env, args: seq<Val>, nOut: nat)
    : Res<seq<Val>>
    decreases fuel, children, 0
  {
    match FindChild(children, cur)
    case Some(Exit(_)) => if |args| == nOut then Ok(args) else Wrong
    case Some(Block(id, rows, nodes, succs)) =>
      if fuel == 0 then NoFuel else
      (match EvalRegion(w, fuel, nodes, Without(env, IdsAll(nodes)), args)
       case Ok((e, os)) =>
         if |os| > 0 && os[0].SumV? && os[0].rows == rows && os[0].tag < |succs| && os[0].tag < |rows|
            && |os[0].vals| == |rows[os[0].tag].tys| then
           EvalCfg(w, fuel - 1, children, succs[os[0].tag], e, os[0].vals + os[1..], nOut)
         else Wrong
       case NoFuel => NoFuel
       case Wrong => Wrong)
    case _ => Wrong
  }
}
