/** Control-flow graphs: how blocks hand their arguments to each other through mailboxes, from entry to exit. */
module SimGraphs {
  import opened Values
  import opened Machine
  import opened Hugr
  import opened Types
  import opened Builder
  import opened Emit
  import opened EmitLaws
  import opened Exec
  import opened SimBase
  import opened SimBranch
  import opened SimLocate
  import opened EmitParts
  import opened SimStep
  import opened SimOps
  import opened SimCases

  // ----- control-flow graphs -----

  /** The mailboxes of a child: distinct, owned by the child's wires or allocated with the graph. */
  ghost predicate TargetRow(c: Ctx, d: Child, row: seq<nat>, lo: nat, hi: nat, nOut: nat) {
    true == (
    && |row| == ChildArity(d, nOut)
    && (forall i :: 0 <= i < |row| ==> row[i] < |c.fin.slots|)
    && (forall i, j :: 0 <= i < j < |row| ==> row[i] != row[j])
    && (forall w :: w in c.fin.env && c.fin.env[w] in row ==> w.node in IdsChild(d))
    && (forall q :: q in row && Anon(c.fin.env, q) ==> lo <= q < hi))
  }

  ghost predicate TargetRows(c: Ctx, children: seq<Child>, bbs: map<NodeId, Target>, lo: nat, hi: nat, nOut: nat) {
    true == (
    forall d :: d in children && IsBlock(d) ==> d.id in bbs && TargetRow(c, d, bbs[d.id].row, lo, hi, nOut))
  }

  /** A frame at the start of a child's block with the child's arguments in its mailboxes. */
  ghost predicate AtChild(c: Ctx, d: Child, t: Target, fr: Frame, env: Env, args: seq<Val>) {
    true == (
    && AtBlock(c, t.blk, fr) && RowIs(fr.loc.mem, t.row, EncAll(args))
    && Rel(Without(env, IdsChild(d)), c.fin.env, fr.loc.mem))
  }

  /** Handing values over to a child puts the frame at it, whatever stale values its wires had. */
  lemma ArriveAt(c: Ctx, d: Child, t: Target, lo: nat, hi: nat, nOut: nat, n: nat, fr: Frame, fr': Frame, env: Env,
                 args: seq<Val>)
    requires TargetRow(c, d, t.row, lo, hi, nOut) && AtBlock(c, t.blk, fr')
    requires Passed(t.row, EncAll(args), n, fr.loc, fr'.loc) && Rel(env, c.fin.env, fr.loc.mem)
    ensures AtChild(c, d, t, fr', env, args)
    ensures Keeps(c.fin.env, IdsChild(d), lo, hi, n, [], fr.loc, fr'.loc)
  {
    hide IdsChild;
  }

  ghost predicate BlockStep(c: Ctx, fuel: nat, r: Res<(Env, seq<Val>)>, d: Child, all: seq<Child>,
                            bbs: map<NodeId, Target>, lo: nat, hi: nat, n: nat, fr: Frame, stk: Stack, k: nat,
                            fr': Frame)
    requires d.Block?
  {
    match r
    case Ok((e, os)) =>
      Chooses(d, os) ==>
        var u := d.succs[os[0].tag];
        && FindChild(all, u).Some? && u in bbs
        && k >= 1 && Reaches(c, fr, stk, k, fr')
        && AtChild(c, FindChild(all, u).value, bbs[u], fr', e, os[0].vals + os[1..])
        && Keeps(c.fin.env, IdsChildren(all), lo, hi, n, [], fr.loc, fr'.loc)
    case NoFuel => RunsOn(c, fr, stk, k, fuel)
    case Wrong => true
  }

  /** What is needed of the state `a` in which dataflow block `d` is emitted. */
  ghost predicate BlockReady(c: Ctx, a: ES, d: Child, all: seq<Child>, bbs: map<NodeId, Target>, exit: nat, nOut: nat)
    requires d.Block?
  {
    true == (
    && Inv(a) && d.id in bbs && 1 <= bbs[d.id].blk < |a.code| && a.code[bbs[d.id].blk] == []
    && |bbs[d.id].row| == |RegionIns(d.nodes)| && |RegionOuts(d.nodes)| >= 1 && d.rows != [] && |d.succs| == |d.rows|
    && ValidRegion(d.nodes, |RegionIns(d.nodes)|, |RegionOuts(d.nodes)|)
    && IdsAll(d.nodes) <= IdsChildren(all)
    && (forall u :: u in d.succs ==> u in bbs && FindChild(all, u).Some?)
    && TargetsOk(d.rows, Targets(d.succs, bbs), |RegionOuts(d.nodes)| - 1, |a.code|))
  }

  /** Where the three parts of a dataflow block's code sit in the final code. */
  lemma BlockLater(c: Ctx, a: ES, d: Child, all: seq<Child>, bbs: map<NodeId, Target>, exit: nat, outs: seq<nat>)
    requires d.Block? && BlockReady(c, a, d, all, bbs, exit, |outs|) && Later(EmitChild(a, d, bbs, outs), c.fin)
    ensures d.id in bbs
    ensures var t := bbs[d.id]; var z := BlockEnd(a, d.nodes, t); var vals := BlockResults(a, d.nodes, bbs[d.id]);
      && |vals| >= 1 && (forall u :: u in d.succs ==> u in bbs)
      && Later(Destructure(z, d.rows, vals[0], vals[1..], Targets(d.succs, bbs)), c.fin)
      && |Destructure(z, d.rows, vals[0], vals[1..], Targets(d.succs, bbs)).slots| == |EmitChild(a, d, bbs, outs).slots|
      && Later(z, c.fin) && Ready(z) && |a.slots| <= |z.slots| <= |EmitChild(a, d, bbs, outs).slots|
      && TargetsOk(d.rows, Targets(d.succs, bbs), |RegionOuts(d.nodes)| - 1, |z.code|)
  {
    hide EmitNodes, Later, Mod, LoadLine, BlockStart, Shut, LayoutOk, JumpsOk, EnvOk, Closed, Destructure, ValidRegion,
      Inv, Ready;
    var t := bbs[d.id];
    BlockParts(a, d.nodes, t);
    var z := BlockEnd(a, d.nodes, t);
    var vals := BlockResults(a, d.nodes, bbs[d.id]);
    var dd := Destructure(z, d.rows, vals[0], vals[1..], Targets(d.succs, bbs));
    DestructureLater(z, d.rows, vals[0], vals[1..], Targets(d.succs, bbs));
    BlockEmission(a, d, bbs, outs, |RegionIns(d.nodes)|);
    LaterFromChild(dd, a.cur, {NeedType(Sum(d.rows))}, c.fin);
    LaterTrans(z, dd, c.fin);
    var s := BlockStart(a, d.nodes, t);
    var e := EmitNodes(s, d.nodes, Regs(a.regs, |t.row|), BlockPromise(a, d.nodes, t));
    EmitsReady(s, e);
    LaterTrans(a, s, e);
    LaterTrans(a, e, z);
    LaterCounts(a, z);
    LaterCounts(z, dd);
  }

  lemma BlockFits(c: Ctx, a: ES, d: Child, all: seq<Child>, bbs: map<NodeId, Target>, exit: nat, nOut: nat)
    requires d.Block? && BlockReady(c, a, d, all, bbs, exit, nOut) && d.id in bbs
    requires Later(BlockEnd(a, d.nodes, bbs[d.id]), c.fin)
    ensures var t := bbs[d.id]; var s := BlockStart(a, d.nodes, t);
      var e := EmitNodes(s, d.nodes, Regs(a.regs, |t.row|), BlockPromise(a, d.nodes, t));
      && Inv(a) && 1 <= t.blk < |a.code| && a.code[t.blk] == [] && ValidRegion(d.nodes, |t.row|, |RegionOuts(d.nodes)|)
      && ValidNodes(d.nodes, |Regs(a.regs, |t.row|)|, RegionOuts(d.nodes)) && Later(e, c.fin)
  {
    hide Later, EmitNodes, BlockStart, BlockEnd, BlockPromise, ValidNodes, LayoutOk, JumpsOk, Ready, Emits;
    BlockParts(a, d.nodes, bbs[d.id]);
    var s := BlockStart(a, d.nodes, bbs[d.id]);
    var e := EmitNodes(s, d.nodes, Regs(a.regs, |bbs[d.id].row|), BlockPromise(a, d.nodes, bbs[d.id]));
    LaterTrans(e, BlockEnd(a, d.nodes, bbs[d.id]), c.fin);
  }

  lemma SimBlockStart(c: Ctx, a: ES, nodes: seq<Node>, t: Target, fr: Frame, stk: Stack, env: Env, args: seq<Val>)
    returns (fr': Frame)
    requires CtxOk(c) && Inv(a) && 1 <= t.blk < |a.code| && a.code[t.blk] == []
    requires ValidRegion(nodes, |t.row|, |RegionOuts(nodes)|)
    requires var s := BlockStart(a, nodes, t);
      Later(EmitNodes(s, nodes, Regs(a.regs, |t.row|), BlockPromise(a, nodes, t)), c.fin)
    requires AtBlock(c, t.blk, fr) && RowIs(fr.loc.mem, t.row, EncAll(args))
    requires Rel(env, c.fin.env, fr.loc.mem) && Unbound(env, IdsAll(nodes))
    ensures Reaches(c, fr, stk, |t.row|, fr') && Computes(fr.loc, fr'.loc, a.regs)
    ensures InStepBefore(c, BlockStart(a, nodes, t), IdsAll(nodes), Regs(a.regs, |t.row|), BlockPromise(a, nodes, t),
                   RegionOuts(nodes), fr', env, args, None)
  {
    hide CtxOk, Later, Inv, ValidRegion, EmitNodes, IdsAll, Rel, OpsAre, Unbound, EncAll, ExecSeq, RowIs, Open, Emits,
      RegionOuts, BlockStart, InStepBefore, BlockPromise, LoadLine, BlockEnd, PromiseOk, Mapped;
    BlockParts(a, nodes, t);
    var s := BlockStart(a, nodes, t);
    var e := EmitNodes(s, nodes, Regs(a.regs, |t.row|), BlockPromise(a, nodes, t));
    EmitsReady(s, e);
    LaterTrans(s, e, c.fin);
    CurIn(s);
    LaterPrefix(s, c.fin, t.blk);
    var line := LoadLine(t.row, a.regs);
    ExecLoads(c.w.x, t.row, a.regs, fr.loc, EncAll(args));
    RunBlockLine(c, line, fr, stk);
    fr' := fr.(pc := |line|, loc := ExecSeq(c.w.x, line, fr.loc).value);
    BlockPromiseOk(c, s, a, nodes, t, env);
    MakeBefore(c, s, IdsAll(nodes), Regs(a.regs, |t.row|), BlockPromise(a, nodes, t), RegionOuts(nodes), fr', env,
               args);
  }

  /** The results of a dataflow block are promised to the mailboxes of the wires they come from. */
  lemma BlockPromiseOk(c: Ctx, s: ES, a: ES, nodes: seq<Node>, t: Target, env: Env)
    requires CtxOk(c) && s == BlockStart(a, nodes, t) && Ready(s) && Mapped(RegionOuts(nodes), s.env) && Later(s, c.fin)
    ensures PromiseOk(c, |s.slots|, IdsAll(nodes), RegionOuts(nodes), BlockPromise(a, nodes, t), env)
    ensures PromiseMapped(c, RegionOuts(nodes), BlockPromise(a, nodes, t))
  {
    hide BlockStart, IdsAll, RegionOuts, Compiled, LayoutOk, JumpsOk, Open;
    var ws, promise := RegionOuts(nodes), BlockPromise(a, nodes, t);
    forall i | 0 <= i < |ws| ensures ws[i] in s.env && promise[i] == s.env[ws[i]] == c.fin.env[ws[i]] {
      assert ws[i] in ws;
    }
  }

  ghost predicate PromiseMapped(c: Ctx, ws: seq<Wire>, promise: seq<nat>) {
    true == (
    |promise| == |ws| && forall i :: 0 <= i < |ws| ==> ws[i] in c.fin.env && promise[i] == c.fin.env[ws[i]])
  }

  lemma SimBlockEnd(c: Ctx, a: ES, nodes: seq<Node>, t: Target, fr1: Frame, fr: Frame, stk: Stack, v: Env, os: seq<Val>)
    returns (k: nat, fr': Frame)
    requires CtxOk(c) && Inv(a) && 1 <= t.blk < |a.code| && a.code[t.blk] == []
    requires ValidRegion(nodes, |t.row|, |RegionOuts(nodes)|) && Later(BlockEnd(a, nodes, t), c.fin)
    requires var s := BlockStart(a, nodes, t); var promise := BlockPromise(a, nodes, t);
      InStepAfter(c, s, EmitNodes(s, nodes, Regs(a.regs, |t.row|), promise), IdsAll(nodes), promise, RegionOuts(nodes),
                  fr1, fr, v, Some(os))
    ensures Reaches(c, fr, stk, k, fr') && Here(c, BlockEnd(a, nodes, t), fr')
    ensures var s := BlockStart(a, nodes, t); var promise := BlockPromise(a, nodes, t);
      Computes(fr.loc, fr'.loc, EmitNodes(s, nodes, Regs(a.regs, |t.row|), promise).regs)
    ensures OpsAre(fr'.loc, BlockResults(a, nodes, t), EncAll(os)) && |os| == |RegionOuts(nodes)|
  {
    hide CtxOk, Later, Inv, ValidRegion, EmitNodes, IdsAll, Rel, EncAll, ExecSeq, Open, Emits, Keeps,
      RegionOuts, BlockStart, LoadLine, BlockEnd, Mapped;
    BlockParts(a, nodes, t);
    var promise := BlockPromise(a, nodes, t);
    var e := EmitNodes(BlockStart(a, nodes, t), nodes, Regs(a.regs, |t.row|), promise);
    var line := LoadLine(promise, e.regs);
    ExecLoads(c.w.x, promise, e.regs, fr.loc, EncAll(os));
    RunLine(c, e, line, e.regs + |promise|, fr, stk);
    k := |line|;
    fr' := fr.(pc := fr.pc + k, loc := ExecSeq(c.w.x, line, fr.loc).value);
  }

  lemma BlockBody(c: Ctx, fuel: nat, a: ES, d: Child, t: Target, n: nat, fr: Frame, fr1: Frame, fr2: Frame, fr3: Frame,
                  env: Env, args: seq<Val>, v: Env, os: seq<Val>)
    requires d.Block? && CtxOk(c) && Inv(a) && 1 <= t.blk < |a.code| && a.code[t.blk] == [] && n <= a.regs
    requires ValidRegion(d.nodes, |t.row|, |RegionOuts(d.nodes)|) && Later(BlockEnd(a, d.nodes, t), c.fin)
    requires EvalRegion(c.w, fuel, d.nodes, env, args) == Ok((v, os)) && Rel(env, c.fin.env, fr.loc.mem)
    requires Computes(fr.loc, fr1.loc, a.regs)
    requires var s := BlockStart(a, d.nodes, t); var promise := BlockPromise(a, d.nodes, t);
      var e := EmitNodes(s, d.nodes, Regs(a.regs, |t.row|), promise);
      && InStepAfter(c, s, e, IdsAll(d.nodes), promise, RegionOuts(d.nodes), fr1, fr2, v, Some(os))
      && Computes(fr2.loc, fr3.loc, e.regs)
    requires Here(c, BlockEnd(a, d.nodes, t), fr3) && OpsAre(fr3.loc, BlockResults(a, d.nodes, t), EncAll(os))
    requires |os| == |RegionOuts(d.nodes)|
    ensures BodyAfter(c, a, d, t, n, fr, fr3, v, os)
  {
    hide CtxOk, Later, Inv, ValidRegion, EmitNodes, IdsAll, EncAll, Open, OpsAre, Here, BlockResults,
      RegionOuts, BlockStart, LoadLine, BlockEnd, Mapped, EvalRegion, Keeps, RowIs, BlockPromise;
    BlockParts(a, d.nodes, t);
    var s, promise := BlockStart(a, d.nodes, t), BlockPromise(a, d.nodes, t);
    var e := EmitNodes(s, d.nodes, Regs(a.regs, |t.row|), promise);
    EmitsReady(s, e);
    LaterTrans(e, BlockEnd(a, d.nodes, t), c.fin);
    LaterTrans(s, e, c.fin);
    BlockPromiseOk(c, s, a, d.nodes, t, env);
    LaterCounts(a, s);
    LaterCounts(s, e);
    LaterCounts(e, BlockEnd(a, d.nodes, t));
    SameOutside(c.w, fuel, d.nodes, env, args);
    BlockKeeps(c, IdsAll(d.nodes), RegionOuts(d.nodes), promise, |a.slots|, |s.slots|, |e.slots|,
               |BlockEnd(a, d.nodes, t).slots|, n, a.regs, s.regs, e.regs, env, v, os, fr.loc, fr1.loc, fr2.loc,
                 fr3.loc);
  }

  /** A region's run leaves the wires outside it as they were. */
  lemma SameOutside(w: World, fuel: nat, nodes: seq<Node>, env: Env, args: seq<Val>)
    requires EvalRegion(w, fuel, nodes, env, args).Ok?
    ensures var e := EvalRegion(w, fuel, nodes, env, args).value.0;
      forall v :: v in e && v.node !in IdsAll(nodes) ==> v in env && env[v] == e[v]
  {
    hide IdsAll, RegionIns;
    var e := EvalRegion(w, fuel, nodes, env, args).value.0;
    forall v | v in e && v.node !in IdsAll(nodes) ensures v in env && env[v] == e[v] {
      EvalNodesBinds(w, fuel, nodes, env, args, None, v);
    }
  }

  /** Storing a block's results in the mailboxes they were read from changes no wire outside the block. */
  lemma BlockKeeps(c: Ctx, ids: set<NodeId>, ws: seq<Wire>, promise: seq<nat>, lo: nat, mid: nat, top: nat, hi: nat,
                   n: nat, n1: nat, n2: nat, n3: nat, env: Env, v: Env, os: seq<Val>, l: Local, l1: Local, l2: Local,
                   l3: Local)
    requires CtxOk(c) && PromiseMapped(c, ws, promise)
    requires Computes(l, l1, n1) && Keeps(c.fin.env, ids, mid, top, n2, promise, l1, l2) && Computes(l2, l3, n3)
    requires lo <= mid <= top <= hi && n <= n1 <= n2 <= n3
    requires Rel(env, c.fin.env, l.mem) && Rel(v, c.fin.env, l2.mem) && OutIs(ws, promise, v, l2.mem, Some(os))
    requires forall w :: w in v && w.node !in ids ==> w in env && env[w] == v[w]
    ensures Keeps(c.fin.env, ids, lo, hi, n, [], l, l3)
  {
    hide Compiled;
    var e := c.fin.env;
    forall w | w in e && w.node !in ids && e[w] in l.mem ensures l3.mem[e[w]] == l.mem[e[w]] {
      if e[w] in promise {
        var i :| 0 <= i < |promise| && promise[i] == e[w];
        assert w == ws[i];
        assert w in v;
      }
    }
    forall i | 0 <= i < |promise| ensures !Anon(e, promise[i]) {
      assert e[ws[i]] == promise[i];
    }
  }

  ghost predicate BodyStep(c: Ctx, fuel: nat, r: Res<(Env, seq<Val>)>, a: ES, d: Child, t: Target, n: nat,
                           fr: Frame, stk: Stack, env: Env, k: nat, fr': Frame)
    requires d.Block?
  {
    match r
    case Ok((e, os)) => Reaches(c, fr, stk, k, fr') && BodyAfter(c, a, d, t, n, fr, fr', e, os)
    case NoFuel => RunsOn(c, fr, stk, k, fuel)
    case Wrong => true
  }

  ghost predicate BodyAfter(c: Ctx, a: ES, d: Child, t: Target, n: nat, fr: Frame, fr': Frame, e: Env, os: seq<Val>)
    requires d.Block?
  {
    true == (
    && Here(c, BlockEnd(a, d.nodes, t), fr') && Rel(e, c.fin.env, fr'.loc.mem) && |os| == |RegionOuts(d.nodes)|
    && OpsAre(fr'.loc, BlockResults(a, d.nodes, t), EncAll(os))
    && Keeps(c.fin.env, IdsAll(d.nodes), |a.slots|, |BlockEnd(a, d.nodes, t).slots|, n, [], fr.loc, fr'.loc))
  }

  /** The branch at the end of a dataflow block. */
  lemma SimChoice(c: Ctx, a: ES, d: Child, all: seq<Child>, bbs: map<NodeId, Target>, exit: nat, outs: seq<nat>,
                  lo: nat, hi: nat, n: nat, fr: Frame, fr1: Frame, stk: Stack, e: Env, os: seq<Val>)
    returns (k: nat, fr': Frame)
    requires d.Block? && CtxOk(c) && BlockReady(c, a, d, all, bbs, exit, |outs|) && Chooses(d, os)
    requires Later(EmitChild(a, d, bbs, outs), c.fin) && d.id in bbs && n <= a.regs
    requires BodyAfter(c, a, d, bbs[d.id], n, fr, fr1, e, os)
    requires TargetRows(c, all, bbs, lo, hi, |outs|) && lo <= |a.slots| && |EmitChild(a, d, bbs, outs).slots| <= hi
    ensures var u := d.succs[os[0].tag];
      && FindChild(all, u).Some? && u in bbs && k >= 1 && Reaches(c, fr1, stk, k, fr')
      && AtChild(c, FindChild(all, u).value, bbs[u], fr', e, os[0].vals + os[1..])
      && Keeps(c.fin.env, IdsChildren(all), lo, hi, n, [], fr.loc, fr'.loc)
  {
    hide Later, Reaches, EmitChild, IdsAll, CtxOk, Rel, OpsAre, Exec.Below, EncAll, Enc, Steps, AtBlock, AtChild,
      SumStruct, RowIs, BlockReady, BlockEnd, BlockResults, Destructure, Ready, TargetRows, TargetRow, FindChild,
        IdsChildren, RegionOuts, BlockStart, EmitNodes, Keeps, Passed, TargetsOk, BodyAfter;
    var t, tag := bbs[d.id], os[0].tag;
    var u := d.succs[tag];
    BlockLater(c, a, d, all, bbs, exit, outs);
    var z, vals := BlockEnd(a, d.nodes, t), BlockResults(a, d.nodes, t);
    BodyFacts(c, a, d, all, bbs, exit, |outs|, n, fr, fr1, e, os);
    ResultsBelow(c, a, d, all, bbs, exit, |outs|);
    CalleeAndArgs(fr1.loc, vals, os, z.regs);
    BelowMore(vals, z.regs, z.regs);
    EncSum(os[0]);
    SuccRow(c, d, all, bbs, lo, hi, |outs|, u);
    var x := FindChild(all, u).value;
    assert Targets(d.succs, bbs)[tag] == bbs[u];
    k, fr' := SimDestructure(c, z, d.rows, vals[0], vals[1..], Targets(d.succs, bbs), tag, fr1, stk,
                             EncAll(os[0].vals), EncAll(os[1..]));
    PreludeReach(c, fr1, stk, k, fr');
    EncAllConcat(os[0].vals, os[1..]);
    ArriveAt(c, x, bbs[u], lo, hi, |outs|, z.regs, fr1, fr', e, os[0].vals + os[1..]);
    ChoiceKeeps(c, IdsAll(d.nodes), IdsChild(x), IdsChildren(all), |a.slots|, |z.slots|, lo, hi, n, z.regs,
                fr.loc, fr1.loc, fr'.loc);
  }

  lemma BodyFacts(c: Ctx, a: ES, d: Child, all: seq<Child>, bbs: map<NodeId, Target>, exit: nat, nOut: nat, n: nat,
                  fr: Frame, fr1: Frame, e: Env, os: seq<Val>)
    requires d.Block? && BlockReady(c, a, d, all, bbs, exit, nOut) && d.id in bbs && Chooses(d, os)
    requires BodyAfter(c, a, d, bbs[d.id], n, fr, fr1, e, os)
    ensures var t := bbs[d.id]; var z := BlockEnd(a, d.nodes, t);
      && Here(c, z, fr1) && Rel(e, c.fin.env, fr1.loc.mem) && |os| == |RegionOuts(d.nodes)|
      && OpsAre(fr1.loc, BlockResults(a, d.nodes, t), EncAll(os))
      && Keeps(c.fin.env, IdsAll(d.nodes), |a.slots|, |z.slots|, n, [], fr.loc, fr1.loc)
      && IdsAll(d.nodes) <= IdsChildren(all) && a.regs <= z.regs && d.succs[os[0].tag] in bbs
      && FindChild(all, d.succs[os[0].tag]).Some? && |d.succs| == |d.rows|
  {
    hide BlockEnd, BlockResults, RegionOuts, IdsAll, IdsChildren, Keeps, Rel, OpsAre, EncAll, Here, EmitNodes,
      BlockStart, Later, FindChild, Inv, LoadLine;
    BlockParts(a, d.nodes, bbs[d.id]);
    var s := BlockStart(a, d.nodes, bbs[d.id]);
    var e' := EmitNodes(s, d.nodes, Regs(a.regs, |bbs[d.id].row|), BlockPromise(a, d.nodes, bbs[d.id]));
    EmitsReady(s, e');
    LaterCounts(s, e');
    LaterCounts(e', BlockEnd(a, d.nodes, bbs[d.id]));
  }

  lemma ResultsBelow(c: Ctx, a: ES, d: Child, all: seq<Child>, bbs: map<NodeId, Target>, exit: nat, nOut: nat)
    requires d.Block? && d.id in bbs && BlockReady(c, a, d, all, bbs, exit, nOut)
    ensures Exec.Below(BlockResults(a, d.nodes, bbs[d.id]), BlockEnd(a, d.nodes, bbs[d.id]).regs)
  {
    hide EmitNodes, BlockStart, RegionOuts, Later, Inv, LoadLine, BlockEnd, ValidRegion;
    BlockParts(a, d.nodes, bbs[d.id]);
  }

  lemma SuccRow(c: Ctx, d: Child, all: seq<Child>, bbs: map<NodeId, Target>, lo: nat, hi: nat, nOut: nat, u: NodeId)
    requires TargetRows(c, all, bbs, lo, hi, nOut) && FindChild(all, u).Some? && u in bbs
    ensures TargetRow(c, FindChild(all, u).value, bbs[u].row, lo, hi, nOut)
    ensures forall i :: 0 <= i < |bbs[u].row| ==> bbs[u].row[i] < |c.fin.slots|
    ensures forall i, j :: 0 <= i < j < |bbs[u].row| ==> bbs[u].row[i] != bbs[u].row[j]
    ensures IdsChild(FindChild(all, u).value) <= IdsChildren(all)
  {
    hide IdsChild, IdsChildren;
    IdsChildIn(all, FindChild(all, u).value);
  }

  lemma ChoiceKeeps(c: Ctx, ids: set<NodeId>, ids': set<NodeId>, all: set<NodeId>, lo1: nat, hi1: nat, lo: nat, hi: nat,
                    n: nat, m: nat, l: Local, l1: Local, l2: Local)
    requires Keeps(c.fin.env, ids, lo1, hi1, n, [], l, l1) && Keeps(c.fin.env, ids', lo, hi, m, [], l1, l2)
    requires lo <= lo1 && hi1 <= hi && n <= m && ids <= all && ids' <= all
    ensures Keeps(c.fin.env, all, lo, hi, n, [], l, l2)
  {
  }

  /** The mailboxes of dataflow block `d`: those of its input wires. */
  lemma BlockRow(c: Ctx, s1: ES, d: Child, t: Target, exit: nat, lo: nat, hi: nat, nOut: nat)
    requires CtxOk(c) && Later(s1, c.fin) && d.Block? && TargetOk(d, t, s1.env, exit + 1, |s1.code|, exit, nOut)
    ensures TargetRow(c, d, t.row, lo, hi, nOut)
  {
    hide Compiled, IdsAll, Inv;
    var ws := InputWires(d.nodes);
    forall i | 0 <= i < |ws| ensures ws[i] in c.fin.env && t.row[i] == c.fin.env[ws[i]]
      && ws[i].node in IdsAll(d.nodes) {
      assert ws[i] in ws;
      InputInIds(d.nodes);
    }
    forall i, j | 0 <= i < j < |ws| ensures t.row[i] != t.row[j] {
      assert ws[i] != ws[j];
    }
    forall w | w in c.fin.env && c.fin.env[w] in t.row ensures w.node in IdsChild(d) {
      var i :| 0 <= i < |t.row| && t.row[i] == c.fin.env[w];
      assert w == ws[i];
    }
  }

  lemma ExitRow(c: Ctx, d: Child, row: seq<nat>, lo: nat, hi: nat, lo': nat, hi': nat, nOut: nat)
    requires d.Exit? && |row| == nOut && FreshIn(row, lo, hi, c.fin) && lo' <= lo && hi <= hi'
    ensures TargetRow(c, d, row, lo', hi', nOut)
  {
  }

  lemma CfgStartExit(c: Ctx, s: ES, children: seq<Child>, vals: seq<Operand>, tys: seq<Ty>, d: Child)
    requires Ready(s) && ValidCfg(children, |vals|, |tys|) && d in children && d.Exit?
    requires Later(CfgStart(s, children, vals, tys).0, c.fin)
    ensures d.id in CfgStart(s, children, vals, tys).1
    ensures FreshIn(CfgStart(s, children, vals, tys).1[d.id].row, |s.slots|,
                    |CfgStart(s, children, vals, tys).0.slots|, c.fin)
  {
    hide LayoutOk, JumpsOk, EnvOk, Open, Closed, FreshIn, Later, MakeBlocks, StoreLine;
    CfgStartPrepares(s, children, vals, tys);
    CfgStartLaws(s, children, vals, tys);
    NewBlockLaws(s, AtEnd);
    var s0 := NewBlock(s, AtEnd);
    var r := MakeBlocks(s0, children, |s.code|, tys);
    FindSelf(children, children, |tys|, d);
    EntryLater(r.0, r.1[children[0].id], vals);
    LaterTrans(r.0, CfgStart(s, children, vals, tys).0, c.fin);
    MakeBlocksExit(s0, children, children, |tys|, |s.code|, tys, c.fin, d.id);
  }

  /** A control-flow graph set up from `s`: its blocks and mailboxes made, its code in place. */
  ghost predicate CfgLaid(c: Ctx, s1: ES, children: seq<Child>, bbs: map<NodeId, Target>, outs: seq<nat>, exit: nat,
                          lo: nat, hi: nat) {
    true == (
    && CfgReady(s1, children, children, bbs, exit, |outs|)
    && Later(EmitChildren(s1, children, bbs, outs), c.fin) && Later(s1, c.fin)
    && TargetRows(c, children, bbs, lo, hi, |outs|)
    && lo <= |s1.slots| && |EmitChildren(s1, children, bbs, outs).slots| <= hi && lo <= hi)
  }

  lemma CfgLays(c: Ctx, s: ES, children: seq<Child>, vals: seq<Operand>, outs: seq<nat>, tys: seq<Ty>)
    requires CtxOk(c) && Ready(s) && ValidCfg(children, |vals|, |tys|) && |outs| == |tys|
    requires Later(EmitCfg(s, children, vals, outs, tys), c.fin)
    ensures var (s1, bbs) := CfgStart(s, children, vals, tys); var t := EmitChildren(s1, children, bbs, outs);
      && EmitCfg(s, children, vals, outs, tys) == At(t, |s.code|) && Later(s, s1)
      && CfgLaid(c, s1, children, bbs, outs, |s.code|, |s.slots|, |t.slots|)
  {
    hide LayoutOk, JumpsOk, EnvOk, Open, Closed, CfgReady, Inv, MakeBlocks, EmitChildren, EmitCfg, StoreLine,
      TargetRow, CtxOk;
    CfgStartLaws(s, children, vals, tys);
    CfgStartReady(s, children, vals, tys);
    CfgEmission(s, children, vals, outs, tys);
    var (s1, bbs) := CfgStart(s, children, vals, tys);
    EmitChildrenLaws(s1, children, children, bbs, outs, |s.code|);
    var t := EmitChildren(s1, children, bbs, outs);
    LaterFromAt(t, |s.code|, c.fin);
    LaterTrans(s1, t, c.fin);
    LaterCounts(s, s1);
    LaterCounts(s1, t);
    forall d | d in children && IsBlock(d) ensures d.id in bbs
      && TargetRow(c, d, bbs[d.id].row, |s.slots|, |t.slots|, |outs|) {
      ChildRow(c, s, s1, t, children, vals, tys, d, bbs, |outs|);
    }
  }

  lemma ChildRow(c: Ctx, s: ES, s1: ES, t: ES, children: seq<Child>, vals: seq<Operand>, tys: seq<Ty>, d: Child,
                 bbs: map<NodeId, Target>, nOut: nat)
    requires CtxOk(c) && Ready(s) && ValidCfg(children, |vals|, |tys|) && nOut == |tys| && d in children && IsBlock(d)
    requires (s1, bbs) == CfgStart(s, children, vals, tys) && Later(s1, t) && Later(s1, c.fin)
    ensures d.id in bbs && TargetRow(c, d, bbs[d.id].row, |s.slots|, |t.slots|, nOut)
  {
    hide LayoutOk, JumpsOk, EnvOk, Open, Closed, Inv, CfgStart, Later, TargetRow, FreshIn, TargetOk, CtxOk;
    CfgStartReady(s, children, vals, tys);
    CfgReadyAt(s1, children, children, bbs, |s.code|, nOut, d);
    if d.Exit? {
      CfgStartExit(c, s, children, vals, tys, d);
      LaterCounts(s1, t);
      ExitLen(d, bbs[d.id], s1.env, |s.code| + 1, |s1.code|, |s.code|, nOut);
      ExitRow(c, d, bbs[d.id].row, |s.slots|, |s1.slots|, |s.slots|, |t.slots|, nOut);
    } else {
      BlockRow(c, s1, d, bbs[d.id], |s.code|, |s.slots|, |t.slots|, nOut);
    }
  }

  /** The emission of one child, inside that of its graph. */
  lemma ChildReady(c: Ctx, s1: ES, children: seq<Child>, bbs: map<NodeId, Target>, outs: seq<nat>, exit: nat,
                   lo: nat, hi: nat, d: Child)
    returns (a: ES)
    requires CfgLaid(c, s1, children, bbs, outs, exit, lo, hi) && d in children && d.Block?
    ensures BlockReady(c, a, d, children, bbs, exit, |outs|) && s1.regs <= a.regs && lo <= |a.slots|
    ensures Later(EmitChild(a, d, bbs, outs), c.fin) && |EmitChild(a, d, bbs, outs).slots| <= hi && d.id in bbs
  {
    hide LayoutOk, JumpsOk, EnvOk, Open, Closed, Inv, Later, EmitChild, EmitChildren, TargetRows, BlockReady, BlocksOk,
      IdsChildren, IdsAll;
    var rest;
    a, rest := ChildAt(s1, children, children, bbs, outs, exit, d);
    LaterTrans(EmitChild(a, d, bbs, outs), EmitChildren(s1, children, bbs, outs), c.fin);
    LaterCounts(s1, a);
    LaterCounts(EmitChild(a, d, bbs, outs), EmitChildren(s1, children, bbs, outs));
    ReadyBlock(c, a, rest, children, bbs, exit, |outs|, d);
  }

  lemma ReadyBlock(c: Ctx, a: ES, rest: seq<Child>, children: seq<Child>, bbs: map<NodeId, Target>, exit: nat,
                   nOut: nat, d: Child)
    requires CfgReady(a, rest, children, bbs, exit, nOut) && rest != [] && rest[0] == d && d in children && d.Block?
    ensures BlockReady(c, a, d, children, bbs, exit, nOut)
  {
    hide LayoutOk, JumpsOk, EnvOk, Open, Inv, IdsAll, IdsChildren, ValidRegion, BlocksOk, FindChild;
    CfgReadyAt(a, rest, children, bbs, exit, nOut, d);
    SuccsOk(d, children, bbs, a.env, exit + 1, |a.code|, exit, nOut);
    IdsChildIn(children, d);
  }

  /** The exit block of a control-flow graph moves the exit mailboxes to the output mailboxes of the node. */
  lemma ExitCode(c: Ctx, s1: ES, children: seq<Child>, bbs: map<NodeId, Target>, outs: seq<nat>, exit: nat,
                 lo: nat, hi: nat, d: Child)
    returns (next: nat)
    requires CfgLaid(c, s1, children, bbs, outs, exit, lo, hi) && d in children && d.Exit?
    ensures d.id in bbs && s1.regs <= next
    ensures var t := EmitChildren(s1, children, bbs, outs);
      exit < |t.code| && t.code[exit] == LoadLine(bbs[d.id].row, next) + StoreLine(outs, Regs(next, |outs|))
  {
    hide CfgReady, Later, EmitChildren, TargetRows, LoadLine, StoreLine;
    next := ExitCodeAt(s1, children, bbs, outs, exit, d);
  }

  /** What running a control-flow graph from some child on owes to the outcome in the HUGR. */
  ghost predicate CfgStep(c: Ctx, fuel: nat, r: Res<seq<Val>>, children: seq<Child>, exitRow: seq<nat>, exit: nat,
                          lo: nat, hi: nat, n: nat, fr: Frame, stk: Stack, k: nat, fr': Frame) {
    match r
    case Ok(os) =>
      && Reaches(c, fr, stk, k, fr') && AtBlock(c, exit, fr') && RowIs(fr'.loc.mem, exitRow, EncAll(os))
      && Keeps(c.fin.env, IdsChildren(children), lo, hi, n, [], fr.loc, fr'.loc)
    case NoFuel => RunsOn(c, fr, stk, k, fuel)
    case Wrong => true
  }

  lemma KeepsNothing(e: map<Wire, nat>, ids: set<NodeId>, lo: nat, hi: nat, n: nat, l: Local)
    ensures Keeps(e, ids, lo, hi, n, [], l, l)
  {
  }

  /** At the exit block the graph is done. */
  lemma AtExit(c: Ctx, fuel: nat, children: seq<Child>, bbs: map<NodeId, Target>, s1: ES, exit: nat, nOut: nat,
               d: Child, x: Child, lo: nat, hi: nat, n: nat, fr: Frame, stk: Stack, env: Env, args: seq<Val>)
    requires d in children && d.Exit? && x == d && FindChild(children, d.id) == Some(d) && d.id in bbs
    requires bbs[d.id].blk == exit
    requires AtChild(c, d, bbs[d.id], fr, env, args)
    ensures CfgStep(c, fuel, EvalCfg(c.w, fuel, children, d.id, env, args, nOut), children, bbs[x.id].row, exit, lo,
                    hi, n, fr, stk, 0, fr)
  {
    hide IdsChildren, IdsChild, Rel, EncAll, RowIs;
    KeepsNothing(c.fin.env, IdsChildren(children), lo, hi, n, fr.loc);
  }

  lemma CfgFound(c: Ctx, s1: ES, children: seq<Child>, bbs: map<NodeId, Target>, outs: seq<nat>, exit: nat,
                 lo: nat, hi: nat, d: Child)
    requires CfgLaid(c, s1, children, bbs, outs, exit, lo, hi) && d in children && IsBlock(d)
    ensures FindChild(children, d.id) == Some(d) && d.id in bbs && (d.Exit? ==> bbs[d.id].blk == exit)
    ensures TargetRows(c, children, bbs, lo, hi, |outs|) && lo <= hi
  {
    hide Inv, Later, EmitChildren, TargetRows, BlocksOk;
    CfgReadyAt(s1, children, children, bbs, exit, |outs|, d);
  }

  lemma AtBlockChild(c: Ctx, d: Child, t: Target, fr: Frame, env: Env, args: seq<Val>)
    requires d.Block? && AtChild(c, d, t, fr, env, args)
    ensures AtBlock(c, t.blk, fr) && RowIs(fr.loc.mem, t.row, EncAll(args))
    ensures Rel(Without(env, IdsAll(d.nodes)), c.fin.env, fr.loc.mem)
    ensures Unbound(Without(env, IdsAll(d.nodes)), IdsAll(d.nodes))
  {
    hide IdsAll, Rel, RowIs, EncAll;
  }

  /** One transition of the control-flow graph. */
  lemma CfgUnfold(w: World, fuel: nat, children: seq<Child>, d: Child, env: Env, args: seq<Val>, nOut: nat)
    requires d.Block? && FindChild(children, d.id) == Some(d)
    ensures fuel == 0 ==> EvalCfg(w, fuel, children, d.id, env, args, nOut) == NoFuel
    ensures fuel > 0 ==>
      EvalCfg(w, fuel, children, d.id, env, args, nOut) ==
      match EvalRegion(w, fuel, d.nodes, Without(env, IdsAll(d.nodes)), args)
      case Ok((e, os)) =>
        if Chooses(d, os)
        then EvalCfg(w, fuel - 1, children, d.succs[os[0].tag], e, os[0].vals + os[1..], nOut)
        else Wrong
      case NoFuel => NoFuel
      case Wrong => Wrong
  {
    hide EvalRegion, IdsAll, Without, FindChild;
  }

  lemma StillHere(c: Ctx, fr: Frame, stk: Stack)
    ensures RunsOn(c, fr, stk, 0, 0)
  {
  }

  lemma CfgJoin(c: Ctx, fuel: nat, r: Res<seq<Val>>, children: seq<Child>, exitRow: seq<nat>, exit: nat, lo: nat,
                hi: nat, n: nat, fr: Frame, fr1: Frame, fr2: Frame, stk: Stack, k1: nat, k2: nat)
    requires fuel > 0 && k1 >= 1 && lo <= hi && Reaches(c, fr, stk, k1, fr1)
    requires Keeps(c.fin.env, IdsChildren(children), lo, hi, n, [], fr.loc, fr1.loc)
    requires CfgStep(c, fuel - 1, r, children, exitRow, exit, lo, hi, n, fr1, stk, k2, fr2)
    ensures CfgStep(c, fuel, r, children, exitRow, exit, lo, hi, n, fr, stk, k1 + k2, fr2)
  {
    hide Reaches, RowIs, EncAll, AtBlock, IdsChildren, Keeps;
    match r {
      case Ok(_) =>
        ReachTrans(c, fr, stk, k1, fr1, k2, fr2);
        KeepsTrans(c.fin.env, IdsChildren(children), IdsChildren(children), lo, hi, lo, hi, n, n, [], fr.loc, fr1.loc,
                   fr2.loc);
        assert IdsChildren(children) + IdsChildren(children) == IdsChildren(children);
      case NoFuel => RunsTrans(c, fr, stk, k1, fr1, k2, fuel - 1);
      case Wrong =>
    }
  }

  /** Entering a control-flow graph: its inputs are handed to the entry block. */
  lemma EnterGraph(c: Ctx, s: ES, children: seq<Child>, vals: seq<Operand>, outs: seq<nat>, tys: seq<Ty>, lo: nat,
                   hi: nat, fr: Frame, stk: Stack, env: Env, vs: seq<Val>)
    returns (k: nat, fr': Frame)
    requires CtxOk(c) && Ready(s) && ValidCfg(children, |vals|, |tys|) && |outs| == |tys|
    requires var (s1, bbs) := CfgStart(s, children, vals, tys); CfgLaid(c, s1, children, bbs, outs, |s.code|, lo, hi)
    requires Here(c, s, fr) && Rel(env, c.fin.env, fr.loc.mem) && OpsAre(fr.loc, vals, EncAll(vs))
    ensures children[0].id in CfgStart(s, children, vals, tys).1
    ensures Reaches(c, fr, stk, k, fr')
    ensures AtChild(c, children[0], CfgStart(s, children, vals, tys).1[children[0].id], fr', env, vs)
    ensures Keeps(c.fin.env, IdsChild(children[0]), lo, hi, s.regs, [], fr.loc, fr'.loc)
  {
    hide CtxOk, CfgLaid, Reaches, IdsChild, AtChild, Later, Rel, EncAll, Keeps, CfgStart, StoreLine, TargetRows,
      Inv, Closed, Open, BlocksOk, OpsAre, ExecSeq, RowIs;
    CfgStartLaws(s, children, vals, tys);
    var (s1, bbs) := CfgStart(s, children, vals, tys);
    var t := bbs[children[0].id];
    CfgFound(c, s1, children, bbs, outs, |s.code|, lo, hi, children[0]);
    LaidRow(c, children, bbs, lo, hi, |outs|, children[0]);
    LaidPrefix(c, s1, children, bbs, outs, |s.code|, lo, hi, s.cur);
    var line, b := StoreLine(t.row, vals), c.fin.code[s.cur];
    ExecEntry(c, t.row, vals, fr.loc, EncAll(vs), s.regs);
    SliceHead(b, s.code[s.cur], line, Br(t.blk));
    RunStraight(c.code, c.w.x, line, fr, stk) by { CodeIs(c); }
    var fr1 := fr.(pc := fr.pc + |line|, loc := ExecSeq(c.w.x, line, fr.loc).value);
    OneStep(c, fr1, stk, Br(t.blk));
    fr' := fr1.(blk := t.blk, pc := 0);
    Chain(c, |line|, 1, Run(fr, stk), Run(fr1, stk), Run(fr', stk));
    k := |line| + 1;
    PreludeReach(c, fr, stk, k, fr');
    ArriveAt(c, children[0], t, lo, hi, |outs|, s.regs, fr, fr', env, vs);
  }

  lemma ExecEntry(c: Ctx, row: seq<nat>, vals: seq<Operand>, l: Local, ls: seq<LVal>, n: nat)
    requires |row| == |vals| && OpsAre(l, vals, ls) && forall q :: 0 <= q < |c.fin.slots| ==> q in l.mem
    requires forall i :: 0 <= i < |row| ==> row[i] < |c.fin.slots|
    requires forall i, j :: 0 <= i < j < |row| ==> row[i] != row[j]
    ensures ExecSeq(c.w.x, StoreLine(row, vals), l).Some?
    ensures Passed(row, ls, n, l, ExecSeq(c.w.x, StoreLine(row, vals), l).value)
  {
    ExecStores(c.w.x, row, vals, l, ls);
  }

  lemma LaidRow(c: Ctx, children: seq<Child>, bbs: map<NodeId, Target>, lo: nat, hi: nat, nOut: nat, d: Child)
    requires TargetRows(c, children, bbs, lo, hi, nOut) && d in children && IsBlock(d)
    ensures d.id in bbs && TargetRow(c, d, bbs[d.id].row, lo, hi, nOut) && |bbs[d.id].row| == ChildArity(d, nOut)
    ensures forall i :: 0 <= i < |bbs[d.id].row| ==> bbs[d.id].row[i] < |c.fin.slots|
    ensures forall i, j :: 0 <= i < j < |bbs[d.id].row| ==> bbs[d.id].row[i] != bbs[d.id].row[j]
  {
  }

  lemma LaidPrefix(c: Ctx, s1: ES, children: seq<Child>, bbs: map<NodeId, Target>, outs: seq<nat>, exit: nat,
                   lo: nat, hi: nat, b: nat)
    requires CfgLaid(c, s1, children, bbs, outs, exit, lo, hi) && b < |s1.code|
    ensures b < |c.fin.code| && s1.code[b] <= c.fin.code[b]
  {
    hide TargetRows, EmitChildren, CfgReady;
    LaterPrefix(s1, c.fin, b);
  }

  lemma CfgOp(w: World, fuel: nat, n: Node, env: Env, vs: seq<Val>)
    requires n.op.Cfg? && |n.op.children| > 0 && n.op.children[0].Block?
    ensures EvalOp(w, fuel, n, env, vs) == EvalCfg(w, fuel, n.op.children, n.op.children[0].id, env, vs, |n.outs|)
  {
    hide EvalCfg, EvalRegion, EvalCall;
  }

  lemma LeaveGraph(c: Ctx, s: ES, n: Node, vals: seq<Operand>, outs: seq<nat>, fr: Frame, fr1: Frame, fr2: Frame,
                   stk: Stack, os: seq<Val>)
    returns (k: nat, fr': Frame)
    requires n.op.Cfg? && ValidCfg(n.op.children, |vals|, |outs|) && |outs| == |n.outs|
    requires CtxOk(c) && Ready(s) && OutRow(c, n.id, outs)
    requires Later(EmitCfg(s, n.op.children, vals, outs, n.outs), c.fin)
    requires var (s1, bbs) := CfgStart(s, n.op.children, vals, n.outs); var x := n.op.children[1];
      && x.Exit? && x.id in bbs && AtBlock(c, |s.code|, fr2) && RowIs(fr2.loc.mem, bbs[x.id].row, EncAll(os))
    requires var hi := |EmitCfg(s, n.op.children, vals, outs, n.outs).slots|;
      && Keeps(c.fin.env, IdsChild(n.op.children[0]), |s.slots|, hi, s.regs, [], fr.loc, fr1.loc)
      && Keeps(c.fin.env, IdsChildren(n.op.children), |s.slots|, hi, s.regs, [], fr1.loc, fr2.loc)
    ensures Reaches(c, fr2, stk, k, fr')
    ensures OpAfter(c, s, EmitCfg(s, n.op.children, vals, outs, n.outs), n, outs, fr, fr', os)
  {
    hide Later, Reaches, CfgStart, EmitCfg, EmitChildren, Ids, IdsAll, IdsChildren, IdsChild, CtxOk, Ready, Here,
      OutRow, EncAll, CfgLaid, RowIs, Keeps, AtBlock, ValidChildren, LoadLine, StoreLine, RegionIns;
    var children := n.op.children;
    CfgLays(c, s, children, vals, outs, n.outs);
    var s1, bbs := CfgStart(s, children, vals, n.outs).0, CfgStart(s, children, vals, n.outs).1;
    var t, z := EmitCfg(s, children, vals, outs, n.outs), EmitChildren(s1, children, bbs, outs);
    var next := ExitCode(c, s1, children, bbs, outs, |s.code|, |s.slots|, |z.slots|, children[1]);
    LaterCounts(s, s1);
    CfgFound(c, s1, children, bbs, outs, |s.code|, |s.slots|, |z.slots|, children[1]);
    LaidRow(c, children, bbs, |s.slots|, |z.slots|, |outs|, children[1]);
    LaterPrefix(t, c.fin, |s.code|);
    k, fr' := SimExit(c, t, |s.code|, next, n.id, bbs[children[1].id].row, outs, fr2, stk, EncAll(os), |s.slots|,
                      |t.slots|, s.regs);
    GraphIds(n);
    GraphKeeps(c.fin.env, IdsChild(children[0]), IdsChildren(children), n.id, Ids(n), |s.slots|, |t.slots|, s.regs,
               fr.loc, fr1.loc, fr2.loc, fr'.loc);
  }

  lemma GraphKeeps(e: map<Wire, nat>, a: set<NodeId>, b: set<NodeId>, id: NodeId, all: set<NodeId>, lo: nat, hi: nat,
                   n: nat, l: Local, l1: Local, l2: Local, l3: Local)
    requires Keeps(e, a, lo, hi, n, [], l, l1) && Keeps(e, b, lo, hi, n, [], l1, l2)
    requires Keeps(e, {id}, lo, hi, n, [], l2, l3)
    requires a <= all && b <= all && id in all
    ensures Keeps(e, all, lo, hi, n, [], l, l3)
  {
  }
}
