/** Finding, in the code of a conditional or control-flow graph, the fragment emitted for one case or child;
    and what the semantics of the HUGR leaves alone. */
module SimLocate {
  import opened Values
  import opened Hugr
  import opened Builder
  import opened Emit
  import opened EmitLaws
  import opened SimBase

  lemma {:induction false} ValidCaseAt(cases: seq<Case>, rows: seq<Row>, nRest: nat, nOut: nat, t: nat)
    requires ValidCases(cases, rows, nRest, nOut) && t < |cases|
    ensures ValidRegion(cases[t].nodes, |rows[t].tys| + nRest, nOut)
    ensures IdsAll(cases[t].nodes) <= IdsCases(cases)
  {
    if t > 0 { ValidCaseAt(cases[1..], rows[1..], nRest, nOut, t - 1); }
  }

  /** The state `a` in which case `t` of a conditional is emitted. */
  lemma {:induction false} CaseAt(st: ES, cases: seq<Case>, rows: seq<Row>, nRest: nat, exitRow: seq<nat>, exit: nat,
                                  t: nat) returns (a: ES)
    requires Inv(st) && 0 < exit < |st.code| && ValidCases(cases, rows, nRest, |exitRow|) && t < |cases|
    ensures Inv(a) && Later(st, a)
    ensures Later(EmitCase(a, cases[t], exitRow, exit), EmitCases(st, cases, exitRow, exit).0)
    ensures EmitCases(st, cases, exitRow, exit).1[t]
         == Target(|a.code|, FreshRow(|a.slots|, |RegionIns(cases[t].nodes)|))
    decreases cases
  {
    hide LayoutOk, JumpsOk, EnvOk, Open, Closed, EmitCase;
    var nIn := |rows[0].tys| + nRest;
    EmitCaseLaws(st, cases[0], exitRow, exit, nIn);
    var s := EmitCase(st, cases[0], exitRow, exit);
    EmitCasesLaws(s, cases[1..], rows[1..], nRest, exitRow, exit);
    if t == 0 {
      a := st;
    } else {
      a := CaseAt(s, cases[1..], rows[1..], nRest, exitRow, exit, t - 1);
      LaterTrans(st, s, a);
    }
  }

  /** The state `a` in which child `d` of a control-flow graph is emitted; later children leave its block alone. */
  lemma {:induction false} ChildAt(st: ES, children: seq<Child>, all: seq<Child>, bbs: map<NodeId, Target>,
                                   outs: seq<nat>, exit: nat, d: Child) returns (a: ES, rest: seq<Child>)
    requires CfgReady(st, children, all, bbs, exit, |outs|) && d in children && IsBlock(d)
    ensures CfgReady(a, rest, all, bbs, exit, |outs|) && rest != [] && rest[0] == d && Later(st, a)
    ensures Later(EmitChild(a, d, bbs, outs), EmitChildren(st, children, bbs, outs))
    ensures var b := bbs[d.id].blk; var s, t := EmitChild(a, d, bbs, outs), EmitChildren(st, children, bbs, outs);
      b < |s.code| && b < |t.code| && t.code[b] == s.code[b]
    decreases children
  {
    EmitChildLaws(st, children, all, bbs, outs, exit);
    var s := EmitChild(st, children[0], bbs, outs);
    CfgReadyNext(st, s, children, all, bbs, exit, |outs|);
    EmitChildrenLaws(s, children[1..], all, bbs, outs, exit);
    if children[0] == d {
      a, rest := st, children;
      OwnBlock(st, children, all, bbs, exit, |outs|);
      CfgReadyAt(st, children, all, bbs, exit, |outs|, d);
    } else {
      a, rest := ChildAt(s, children[1..], all, bbs, outs, exit, d);
      LaterTrans(st, s, a);
    }
  }

  /** What the exit block of a control-flow graph does: it moves the exit mailboxes to the output mailboxes. */
  lemma ExitCodeAt(s1: ES, children: seq<Child>, bbs: map<NodeId, Target>, outs: seq<nat>, exit: nat, d: Child)
    returns (next: nat)
    requires CfgReady(s1, children, children, bbs, exit, |outs|) && d in children && d.Exit?
    ensures d.id in bbs && s1.regs <= next
    ensures var t := EmitChildren(s1, children, bbs, outs);
      exit < |t.code| && t.code[exit] == LoadLine(bbs[d.id].row, next) + StoreLine(outs, Regs(next, |outs|))
  {
    hide LayoutOk, JumpsOk, EnvOk, Open, Closed, Inv, EmitChild, EmitChildren, BlocksOk, LoadLine, StoreLine;
    var a, rest := ChildAt(s1, children, children, bbs, outs, exit, d);
    CfgReadyAt(a, rest, children, bbs, exit, |outs|, d);
    EmitExitLaws(a, d, bbs, outs);
    next := a.regs;
  }

  lemma {:induction false} InputInIds(nodes: seq<Node>)
    requires InputOf(nodes).Some?
    ensures InputOf(nodes).value.id in IdsAll(nodes)
  {
    if !nodes[0].op.Input? { InputInIds(nodes[1..]); }
  }

  /** The exit block's mailboxes are anonymous and its own. */
  lemma {:induction false} MakeBlocksExit(st: ES, children: seq<Child>, all: seq<Child>, nOut: nat, exit: nat,
                                          tys: seq<Ty>, fin: ES, id: NodeId)
    requires ValidChildren(children, all, nOut) && Inv(st) && 0 < exit < |st.code|
    requires Later(MakeBlocks(st, children, exit, tys).0, fin)
    requires FindChild(children, id).Some? && FindChild(children, id).value.Exit?
    ensures id in MakeBlocks(st, children, exit, tys).1
    ensures FreshIn(MakeBlocks(st, children, exit, tys).1[id].row, |st.slots|,
                    |MakeBlocks(st, children, exit, tys).0.slots|, fin)
    decreases children
  {
    MakeBlockLaws(st, children[0], exit, tys);
    var s := MakeBlock(st, children[0], exit, tys);
    MakeBlocksPrepares(s, children[1..], exit, tys);
    var t := MakeBlocks(s, children[1..], exit, tys).0;
    if children[0].Exit? && children[0].id == id {
      NewRowAllocates(st, tys);
      LaterTrans(s, t, fin);
      FreshAnon(st, s, fin);
      MakeBlocksKeys(s, children[1..], exit, tys, id);
    } else {
      MakeBlocksExit(s, children[1..], all, nOut, exit, tys, fin, id);
    }
  }

  /** A row of distinct anonymous mailboxes allocated in `[lo, hi)`. */
  ghost predicate FreshIn(row: seq<nat>, lo: nat, hi: nat, fin: ES) {
    && (forall i :: 0 <= i < |row| ==> lo <= row[i] < hi && row[i] < |fin.slots| && Anon(fin.env, row[i]))
    && (forall i, j :: 0 <= i < j < |row| ==> row[i] != row[j])
  }

  // ----- the semantics of the HUGR -----

  lemma EvalNodeBinds(w: World, fuel: nat, n: Node, env: Env, ivals: seq<Val>, out: Option<seq<Val>>, v: Wire)
    requires EvalNode(w, fuel, n, env, ivals, out).Ok? && v.node != n.id
    ensures var e := EvalNode(w, fuel, n, env, ivals, out).value.0;
      (v in e <==> v in env) && (v in env ==> e[v] == env[v])
  {
  }

  /** Running nodes binds only wires of those nodes. */
  lemma {:induction false} EvalNodesBinds(w: World, fuel: nat, nodes: seq<Node>, env: Env, ivals: seq<Val>,
                                          out: Option<seq<Val>>, v: Wire)
    requires EvalNodes(w, fuel, nodes, env, ivals, out).Ok? && v.node !in IdsAll(nodes)
    ensures var e := EvalNodes(w, fuel, nodes, env, ivals, out).value.0;
      (v in e <==> v in env) && (v in env ==> e[v] == env[v])
    decreases nodes
  {
    if nodes != [] {
      EvalNodeBinds(w, fuel, nodes[0], env, ivals, out, v);
      var r := EvalNode(w, fuel, nodes[0], env, ivals, out).value;
      EvalNodesBinds(w, fuel, nodes[1..], r.0, ivals, r.1, v);
    }
  }
}
