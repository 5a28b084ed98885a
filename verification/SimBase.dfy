/** Running emitted code in step with the HUGR: the relation between environments and the mailboxes
    of the running function, what every fragment of emitted code leaves alone, and the fragments that contain
    no region. */
module SimBase {
  import opened Values
  import opened Machine
  import opened Hugr
  import opened Builder
  import opened Emit
  import opened EmitLaws
  import opened Exec

  /** All functions defined in the world, and no others, compiled. */
  ghost predicate Compiled(w: World, code: map<NodeId, Code>) {
    && HandlersMatch(w.x) && code.Keys <= w.funcs.Keys
    && forall f :: f in w.funcs ==> ValidFunc(w.funcs[f]) && f in code && code[f] == EmitFunc(w.funcs[f]).code
  }

  /** The function being run: the final state of its emission is `fin`. */
  datatype Ctx = Ctx(w: World, code: map<NodeId, Code>, f: NodeId, fin: ES)

  ghost predicate CtxOk(c: Ctx) {
    true == (
    && Compiled(c.w, c.code) && c.f in c.code && c.code[c.f] == c.fin.code && EnvOk(c.fin.env, |c.fin.slots|))
  }

  /** The frame is where emission state `st` left off. */
  ghost predicate Here(c: Ctx, st: ES, fr: Frame) {
    true == (
    && fr.fn == c.f && fr.blk == st.cur < |st.code| && fr.pc == |st.code[st.cur]|
    && forall s :: 0 <= s < |c.fin.slots| ==> s in fr.loc.mem)
  }

  /** The frame is at the start of block `b`. */
  ghost predicate AtBlock(c: Ctx, b: nat, fr: Frame) {
    fr.fn == c.f && fr.blk == b && fr.pc == 0 && forall s :: 0 <= s < |c.fin.slots| ==> s in fr.loc.mem
  }

  /** Every wire of the environment has its value in its mailbox. */
  ghost predicate Rel(env: Env, e: map<Wire, nat>, mem: map<nat, Option<LVal>>) {
    forall w :: w in env ==> w in e && e[w] in mem && mem[e[w]] == Some(Enc(env[w]))
  }

  ghost predicate Anon(e: map<Wire, nat>, s: nat) {
    forall w :: w in e ==> e[w] != s
  }

  /** Mailboxes of wires outside `ids`, anonymous mailboxes outside `[lo, hi)`, and registers below `n` are as
      before; mailboxes in `skip` are exempt. */
  ghost predicate Keeps(e: map<Wire, nat>, ids: set<NodeId>, lo: nat, hi: nat, n: nat, skip: seq<nat>, l: Local,
                        l': Local) {
    true == (
    && RegsKept(l, l', n)
    && l.mem.Keys <= l'.mem.Keys
    && (forall w :: w in e && w.node !in ids && e[w] !in skip && e[w] in l.mem ==> l'.mem[e[w]] == l.mem[e[w]])
    && (forall s :: s in l.mem && Anon(e, s) && !(lo <= s < hi) && s !in skip ==> l'.mem[s] == l.mem[s]))
  }

  lemma KeepsTrans(e: map<Wire, nat>, ids: set<NodeId>, ids': set<NodeId>, lo: nat, mid: nat, mid': nat, hi: nat,
                   n: nat, n': nat, skip: seq<nat>, a: Local, b: Local, c: Local)
    requires Keeps(e, ids, lo, mid, n, skip, a, b) && Keeps(e, ids', mid', hi, n', skip, b, c)
    requires n <= n' && lo <= mid <= hi && lo <= mid' <= hi
    ensures Keeps(e, ids + ids', lo, hi, n, skip, a, c)
  {
  }

  /** Slots allocated between two states without mapping a wire stay anonymous for good. */
  lemma FreshAnon(a: ES, b: ES, fin: ES)
    requires Inv(a) && b.env == a.env && Later(b, fin)
    ensures forall s :: |a.slots| <= s < |b.slots| ==> Anon(fin.env, s)
  {
  }

  // ----- running straight-line code -----

  lemma RunLine(c: Ctx, st: ES, line: seq<Instr>, next: nat, fr: Frame, stk: Stack)
    requires CtxOk(c) && st.cur < |st.code| && Here(c, st, fr) && Later(Put(st, line, next), c.fin)
    requires ExecSeq(c.w.x, line, fr.loc).Some?
    ensures var fr' := fr.(pc := fr.pc + |line|, loc := ExecSeq(c.w.x, line, fr.loc).value);
      && Steps(c.code, c.w.x, |line|, Run(fr, stk)) == Run(fr', stk)
      && (fr.loc.mem.Keys <= fr'.loc.mem.Keys ==> Here(c, Put(st, line, next), fr'))
  {
    hide Compiled, EnvOk, ExecSeq;
    var t := Put(st, line, next);
    assert t.code[st.cur] <= c.fin.code[st.cur];
    var b := c.fin.code[st.cur];
    assert b[fr.pc..fr.pc + |line|] == t.code[st.cur][fr.pc..fr.pc + |line|] == line;
    RunStraight(c.code, c.w.x, line, fr, stk);
  }

  /** Code at the start of a block, found there as a prefix. */
  lemma RunBlockLine(c: Ctx, line: seq<Instr>, fr: Frame, stk: Stack)
    requires CtxOk(c) && fr.fn == c.f && fr.pc == 0 && fr.blk < |c.fin.code| && line <= c.fin.code[fr.blk]
    requires ExecSeq(c.w.x, line, fr.loc).Some?
    ensures Steps(c.code, c.w.x, |line|, Run(fr, stk))
         == Run(fr.(pc := |line|, loc := ExecSeq(c.w.x, line, fr.loc).value), stk)
  {
    hide Compiled, EnvOk, ExecSeq;
    assert c.fin.code[fr.blk][0..|line|] == line;
    RunStraight(c.code, c.w.x, line, fr, stk);
  }

  lemma Chain(c: Ctx, j: nat, k: nat, a: Config, b: Config, d: Config)
    requires Steps(c.code, c.w.x, j, a) == b && Steps(c.code, c.w.x, k, b) == d
    ensures Steps(c.code, c.w.x, j + k, a) == d
  {
    StepsAdd(c.code, c.w.x, j, k, a);
  }

  /** One step, from the instruction at the frame's position. */
  lemma OneStep(c: Ctx, fr: Frame, stk: Stack, i: Instr)
    requires CtxOk(c) && fr.fn == c.f && fr.blk < |c.fin.code| && fr.pc < |c.fin.code[fr.blk]|
    requires c.fin.code[fr.blk][fr.pc] == i
    ensures Steps(c.code, c.w.x, 1, Run(fr, stk)) == StepInstr(c.code, c.w.x, i, fr, stk)
  {
    assert Steps(c.code, c.w.x, 1, Run(fr, stk)) == Step(c.code, c.w.x, Run(fr, stk));
  }

  // ----- the start of a node -----

  lemma LookupRow(env: Env, ws: seq<Wire>, e: map<Wire, nat>, mem: map<nat, Option<LVal>>)
    requires Rel(env, e, mem) && Lookup(env, ws).Some?
    ensures RowIs(mem, RowOf(e, ws), EncAll(Lookup(env, ws).value))
  {
  }

  /** The node's input mailboxes are read. */
  lemma SimPrelude(c: Ctx, st: ES, n: Node, fr: Frame, stk: Stack, env: Env) returns (fr': Frame)
    requires CtxOk(c) && Ready(st) && |n.ins| == |n.inTys| && Later(Prelude(st, n), c.fin)
    requires Here(c, st, fr) && Rel(env, c.fin.env, fr.loc.mem) && Lookup(env, n.ins).Some?
    ensures Steps(c.code, c.w.x, |n.ins|, Run(fr, stk)) == Run(fr', stk)
    ensures Here(c, Prelude(st, n), fr') && Computes(fr.loc, fr'.loc, st.regs)
    ensures OpsAre(fr'.loc, Regs(st.regs, |n.ins|), EncAll(Lookup(env, n.ins).value))
  {
    hide CtxOk, LayoutOk, JumpsOk, EnvOk, Open, Prelude, Mod, Shut, Later, Rel, Lookup, LoadLine, EncAll, RowIs,
      ExecSeq, Mapped;
    var s := Prelude(st, n);
    PreludeEmits(st, n);
    var row := RowOf(s.env, n.ins);
    var line := LoadLine(row, st.regs);
    SameRow(s, c.fin, n.ins);
    LookupRow(env, n.ins, c.fin.env, fr.loc.mem);
    ExecLoads(c.w.x, row, st.regs, fr.loc, EncAll(Lookup(env, n.ins).value));
    LaterPrefix(s, c.fin, st.cur);
    fr' := fr.(pc := fr.pc + |line|, loc := ExecSeq(c.w.x, line, fr.loc).value);
    assert c.fin.code[st.cur][fr.pc..fr.pc + |line|] == s.code[st.cur][fr.pc..fr.pc + |line|] == line;
    CodeIs(c);
    RunStraight(c.code, c.w.x, line, fr, stk);
  }

  lemma CodeIs(c: Ctx)
    requires CtxOk(c)
    ensures c.f in c.code && c.code[c.f] == c.fin.code
  {
  }

  lemma SameRow(a: ES, b: ES, ws: seq<Wire>)
    requires Later(a, b) && Mapped(ws, a.env)
    ensures RowOf(a.env, ws) == RowOf(b.env, ws)
  {
    forall i | 0 <= i < |ws| ensures ws[i] in a.env && b.env[ws[i]] == a.env[ws[i]] {
      assert ws[i] in ws;
    }
  }

  // ----- the end of a node -----

  /** The output mailboxes of a node: mapped, its own, and pairwise distinct. */
  ghost predicate OutRow(c: Ctx, id: NodeId, outs: seq<nat>) {
    true == (
    && outs == RowOf(c.fin.env, OutWires(id, |outs|))
    && forall i :: 0 <= i < |outs| ==> Wire(id, i) in c.fin.env)
  }

  lemma OutRowDistinct(c: Ctx, id: NodeId, outs: seq<nat>)
    requires CtxOk(c) && OutRow(c, id, outs)
    ensures forall i, j :: 0 <= i < j < |outs| ==> outs[i] != outs[j]
    ensures forall w :: w in c.fin.env && c.fin.env[w] in outs ==> w.node == id
    ensures forall i :: 0 <= i < |outs| ==> outs[i] < |c.fin.slots| && !Anon(c.fin.env, outs[i])
  {
    hide Compiled;
    forall i | 0 <= i < |outs| ensures outs[i] == c.fin.env[Wire(id, i)] {
      assert OutWires(id, |outs|)[i] == Wire(id, i);
    }
  }

  /** Storing a node's results in its output mailboxes touches no other mailbox. */
  lemma StoreOuts(c: Ctx, id: NodeId, outs: seq<nat>, os: seq<Operand>, l: Local, ls: seq<LVal>, lo: nat, hi: nat,
                  n: nat)
    requires CtxOk(c) && OutRow(c, id, outs) && |outs| == |os| && OpsAre(l, os, ls)
    requires forall s :: 0 <= s < |c.fin.slots| ==> s in l.mem
    ensures var r := ExecSeq(c.w.x, StoreLine(outs, os), l);
      && r.Some? && r.value.mem.Keys == l.mem.Keys && RowIs(r.value.mem, outs, ls)
      && Keeps(c.fin.env, {id}, lo, hi, n, [], l, r.value)
  {
    hide Compiled, ExecSeq, StoreLine;
    OutRowDistinct(c, id, outs);
    ExecStores(c.w.x, outs, os, l, ls);
  }

  /** Results in the output mailboxes extend the relation to the node's wires. */
  lemma BindRel(c: Ctx, env: Env, id: NodeId, vals: seq<Val>, outs: seq<nat>, mem: map<nat, Option<LVal>>)
    requires Rel(env, c.fin.env, mem) && OutRow(c, id, outs) && RowIs(mem, outs, EncAll(vals))
    ensures Rel(Bind(env, id, 0, vals), c.fin.env, mem)
  {
    var e := Bind(env, id, 0, vals);
    forall w | w in e ensures w in c.fin.env && c.fin.env[w] in mem && mem[c.fin.env[w]] == Some(Enc(e[w])) {
      if w.node == id && w.port < |vals| {
        assert OutWires(id, |outs|)[w.port] == w;
        assert mem[outs[w.port]] == Some(EncAll(vals)[w.port]);
      }
    }
  }

  lemma CurInside(st: ES)
    requires Ready(st)
    ensures st.cur < |st.code|
  {
  }

  /** Straight-line ops: the code computes, then the results are stored. */
  lemma SimFinish(c: Ctx, st: ES, p: Piece, id: NodeId, outs: seq<nat>, fr: Frame, stk: Stack, ls: seq<LVal>, hi: nat)
    returns (k: nat, fr': Frame)
    requires CtxOk(c) && Ready(st) && PieceOk(p, st.regs, |outs|) && Later(Finish(st, Some(p), outs), c.fin)
    requires Here(c, st, fr) && OutRow(c, id, outs)
    requires var r := ExecSeq(c.w.x, p.line, fr.loc);
      r.Some? && Computes(fr.loc, r.value, st.regs) && OpsAre(r.value, p.vals, ls)
    ensures Steps(c.code, c.w.x, k, Run(fr, stk)) == Run(fr', stk) && Here(c, Finish(st, Some(p), outs), fr')
    ensures RowIs(fr'.loc.mem, outs, ls) && Keeps(c.fin.env, {id}, |st.slots|, hi, st.regs, [], fr.loc, fr'.loc)
  {
    hide CtxOk, Inv, Open, ExecSeq, StoreLine, RowIs, OutRow, Later;
    FinishEmits(st, p, outs);
    CurInside(st);
    var l := ExecSeq(c.w.x, p.line, fr.loc).value;
    var stores := StoreLine(outs, p.vals);
    StoreOuts(c, id, outs, p.vals, l, ls, |st.slots|, hi, st.regs);
    ExecConcat(c.w.x, p.line, stores, fr.loc);
    var line := p.line + stores;
    RunLine(c, st, line, p.next, fr, stk);
    k := |line|;
    fr' := fr.(pc := fr.pc + k, loc := ExecSeq(c.w.x, line, fr.loc).value);
  }
}
