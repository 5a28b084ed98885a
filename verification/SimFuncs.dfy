/** Functions: from the call through the alloca block to the return of the results. */
module SimFuncs {
  import opened Values
  import opened Machine
  import opened Hugr
  import opened Builder
  import opened Emit
  import opened EmitLaws
  import opened Exec
  import opened SimBase
  import opened EmitParts
  import opened SimStep
  import opened SimOps
  import opened SimCases

  // ----- functions -----

  lemma {:induction false} ExecAllocas(x: Sem, line: seq<Instr>, lo: nat, l: Local)
    requires forall i :: 0 <= i < |line| ==> line[i].Alloca? && line[i].slot == lo + i
    ensures var r := ExecSeq(x, line, l);
      r.Some? && r.value.params == l.params && forall q :: q in l.mem || lo <= q < lo + |line| ==> q in r.value.mem
    decreases line
  {
    if line != [] {
      ExecAllocas(x, line[1..], lo + 1, ExecInstr(x, line[0], l).value);
    }
  }

  /** The alloca block allocates every slot and enters the launch block. */
  lemma EnterFunc(c: Ctx, args: seq<LVal>, stk: Stack) returns (k: nat, fr': Frame)
    requires CtxOk(c) && |c.fin.code| > 0 && c.fin.code[0] == Allocas(c.fin.slots) + [Br(1)]
    ensures k >= 1 && Steps(c.code, c.w.x, k, Run(Entry(c.f, args), stk)) == Run(fr', stk)
    ensures AtBlock(c, 1, fr') && fr'.loc.params == args
  {
    hide Compiled, EmitFunc, ExecSeq, ExecInstr;
    var fr, line := Entry(c.f, args), Allocas(c.fin.slots);
    ExecAllocas(c.w.x, line, 0, fr.loc);
    RunBlockLine(c, line, fr, stk);
    var fr1 := fr.(pc := |line|, loc := ExecSeq(c.w.x, line, fr.loc).value);
    assert c.fin.code[0][|line|] == Br(1);
    OneStep(c, fr1, stk, Br(1));
    fr' := fr1.(blk := 1, pc := 0);
    Chain(c, |line|, 1, Run(fr, stk), Run(fr1, stk), Run(fr', stk));
    k := |line| + 1;
  }

  lemma FuncBefore(c: Ctx, f: FuncDefn, fr: Frame, args: seq<Val>)
    requires CtxOk(c) && ValidFunc(f) && c.fin == EmitFunc(f) && AtBlock(c, 1, fr) && fr.loc.params == EncAll(args)
    requires |args| == |f.ins|
    ensures InStepBefore(c, FuncStart(f), IdsAll(f.nodes), Params(|f.ins|), FreshRow(0, |f.outs|), RegionOuts(f.nodes),
                         fr, map[], args, None)
  {
    hide Compiled, IdsAll, EmitFunc, FuncStart, FuncBody, RegionIns, CtxOk, EncAll, Later, RegionOuts, Emits, Unbound,
      Rel, OutIs, CountOp, ValidNodes;
    FuncBodyLaws(f);
    FuncEnds(f);
    FuncRowAnon(f, c.fin);
    FuncHere(c, FuncStart(f), f, fr, args);
    FreshPromise(c, |f.outs|, IdsAll(f.nodes), RegionOuts(f.nodes), FreshRow(0, |f.outs|), map[]) by {
      LaterCounts(FuncStart(f), c.fin) by { FuncLater(f); }
    }
    MakeBefore(c, FuncStart(f), IdsAll(f.nodes), Params(|f.ins|), FreshRow(0, |f.outs|), RegionOuts(f.nodes), fr,
               map[], args);
  }

  lemma FuncHere(c: Ctx, s: ES, f: FuncDefn, fr: Frame, args: seq<Val>)
    requires AtBlock(c, 1, fr) && fr.loc.params == EncAll(args) && |args| == |f.ins|
    requires s.cur == 1 && |s.code| == 2 && s.code[1] == []
    ensures Here(c, s, fr) && OpsAre(fr.loc, Params(|f.ins|), EncAll(args)) && Exec.Below(Params(|f.ins|), s.regs)
    ensures Rel(map[], c.fin.env, fr.loc.mem) && Unbound(map[], IdsAll(f.nodes))
  {
  }

  /** The body has run: its results are read back and returned. */
  lemma LeaveFunc(c: Ctx, f: FuncDefn, fr: Frame, stk: Stack, os: seq<Val>) returns (k: nat)
    requires CtxOk(c) && ValidFunc(f) && c.fin == EmitFunc(f) && Here(c, FuncBody(f), fr)
    requires RowIs(fr.loc.mem, FreshRow(0, |f.outs|), EncAll(os))
    ensures Steps(c.code, c.w.x, k, Run(fr, stk)) == Return(stk, Aggregate(EncAll(os)))
  {
    hide Compiled, Inv, EmitFunc, FuncBody, ExecSeq, EncAll, LoadLine, Later;
    var s, row := FuncBody(f), FreshRow(0, |f.outs|);
    FuncEnds(f);
    var p := ReadRow(row, s.regs);
    ExecLoads(c.w.x, row, s.regs, fr.loc, EncAll(os));
    var b := c.fin.code[s.cur];
    SliceHead(b, s.code[s.cur], p.line, Ret(p.vals));
    RunStraight(c.code, c.w.x, p.line, fr, stk);
    var fr1 := fr.(pc := fr.pc + |p.line|, loc := ExecSeq(c.w.x, p.line, fr.loc).value);
    OneStep(c, fr1, stk, Ret(p.vals));
    OpsValue(fr1.loc, p.vals, EncAll(os));
    StepsAdd(c.code, c.w.x, |p.line|, 1, Run(fr, stk));
    k := |p.line| + 1;
  }

  lemma WrongArgs(w: World, fuel: nat, f: NodeId, args: seq<Val>)
    requires f in w.funcs && |args| != |RegionIns(w.funcs[f].nodes)|
    ensures EvalCall(w, fuel, f, args) == Wrong
  {
  }

  /** A function that is only declared hands back at once what is linked in for it. */
  lemma LinkedCall(w: World, code: map<NodeId, Code>, fuel: nat, f: NodeId, args: seq<Val>, stk: Stack)
    requires Compiled(w, code) && f !in w.funcs
    ensures FuncStep(w, code, fuel, EvalCall(w, fuel, f, args), f, args, stk, 0)
  {
    hide EmitFunc, ValidFunc;
  }

  lemma Enters(w: World, code: map<NodeId, Code>, f: NodeId, args: seq<LVal>, stk: Stack)
    requires Compiled(w, code) && f in w.funcs
    ensures Invoke(code, w.x, f, args, stk) == Run(Entry(f, args), stk)
  {
    hide EmitFunc, ValidFunc;
  }

  lemma FuncCtx(w: World, code: map<NodeId, Code>, f: NodeId)
    requires Compiled(w, code) && f in w.funcs
    ensures var c := Ctx(w, code, f, EmitFunc(w.funcs[f]));
      CtxOk(c) && ValidFunc(w.funcs[f]) && |c.fin.code| > 0 && c.fin.code[0] == Allocas(c.fin.slots) + [Br(1)]
  {
    hide EmitFunc;
    FunctionWellFormed(w.funcs[f]);
  }

  lemma BodyDone(c: Ctx, d: FuncDefn, fr: Frame, fr': Frame, e: Env, os: seq<Val>)
    requires InStepAfter(c, FuncStart(d), EmitNodes(FuncStart(d), d.nodes, Params(|d.ins|), FreshRow(0, |d.outs|)),
                         IdsAll(d.nodes), FreshRow(0, |d.outs|), RegionOuts(d.nodes), fr, fr', e, Some(os))
    ensures Here(c, FuncBody(d), fr') && RowIs(fr'.loc.mem, FreshRow(0, |d.outs|), EncAll(os))
  {
    hide EmitNodes, FuncStart, EncAll, RowIs, Rel, Keeps;
  }
}
