/** The dispatch table of a block with labels: what its loop body does for each
    value of $next (src/codegen/stmt.c, emit_block_stmts). */
module ControlDispatch {
  import opened Control

  // ----- branches that leave a piece of code -----

  function Free(c: Code): set<Lbl>
    decreases c
  {
    match c case WNil => {} case WCons(i, rest) => FreeOf(i) + Free(rest)
  }

  function FreeOf(i: Instr): set<Lbl>
    decreases i
  {
    match i
    case WBlock(l, body) => Free(body) - {l}
    case WLoop(l, body) => Free(body) - {l}
    case WIf(thn) => Free(thn)
    case WBr(l) => {l}
    case WBrIf(l) => {l}
    case WBrTable(bid, n) => (set k: nat | 0 <= k <= n :: LSeg(bid, k)) + {LExit(bid)}
    case _ => {}
  }

  lemma {:induction false} ExecFree(w: World, c: Code, s: WState, f: nat)
    ensures Exec(w, c, s, f).out.Branches? ==> Exec(w, c, s, f).out.l in Free(c)
    decreases f, c
  {
    match c
    case WNil =>
    case WCons(i, rest) =>
      ExecFreeOf(w, i, s, f);
      var r := ExecInstr(w, i, s, f);
      if r.out.Falls? { ExecFree(w, rest, r.s, f); }
  }

  lemma {:induction false} ExecFreeOf(w: World, i: Instr, s: WState, f: nat)
    ensures ExecInstr(w, i, s, f).out.Branches? ==> ExecInstr(w, i, s, f).out.l in FreeOf(i)
    decreases f, i
  {
    match i
    case WBlock(l, body) => ExecFree(w, body, s, f);
    case WLoop(l, body) =>
      ExecFree(w, body, s, f);
      var r := Exec(w, body, s, f);
      if r.out == Branches(l) && f > 0 { ExecFreeOf(w, i, r.s, f - 1); }
    case WIf(thn) => ExecFree(w, thn, s, f);
    case _ =>
  }

  lemma {:induction false} FreeApp(a: Code, b: Code)
    ensures Free(App(a, b)) == Free(a) + Free(b)
    decreases a
  {
    if a.WCons? { FreeApp(a.rest, b); }
  }

  lemma {:induction false} FreeOne(i: Instr)
    ensures Free(One(i)) == FreeOf(i)
  {
  }

  lemma {:induction false} ExecOne(w: World, i: Instr, s: WState, f: nat)
    ensures Exec(w, One(i), s, f) == ExecInstr(w, i, s, f)
  {
  }

  lemma {:induction false} GotoSegRuns(w: World, bid: int, k: nat, s: WState, f: nat)
    ensures Exec(w, GotoSeg(bid, k), s, f) == WResult(Branches(LDispatch(bid)), s.(next := s.next[bid := k]))
  {
    ExecOne(w, WBr(LDispatch(bid)), s.(next := s.next[bid := k]), f);
  }

  function BodyOf(b: Stmts, env: Env, cc: nat, g: Ctr): Code {
    EmitSegs(b, g.id, 0, Table(g.id, CountLabels(b)), Opened(b, env, cc, g), cc, Numbered(b, g)).0
  }

  /** Only breaks and gotos leave the code of a statement. */
  predicate Outward(ls: set<Lbl>) {
    forall l | l in ls :: l.LBrk? || l.LDispatch?
  }

  lemma {:induction false} StmtOutward(s: Stmt, env: Env, cc: nat, g: Ctr)
    ensures Outward(Free(EmitStmt(s, env, cc, g).0))
    decreases s, 0
  {
    match s
    case Do(b) => BlockOutward(b, env, cc, g);
    case If(k, thn, els) =>
      var (t, g1) := EmitBlock(thn, env, cc, g.(n := g.n + 1));
      BlockOutward(thn, env, cc, g.(n := g.n + 1));
      BlockOutward(els, env, cc, g1);
      IfOutward(g.n, k, t, EmitBlock(els, env, cc, g1).0);
    case While(k, b) =>
      var e, g0 := InLoop(env, g.n, cc), g.(n := g.n + 1);
      BlockOutward(b, e, cc, g0);
      LoopOutward(g.n, QCond(k), EmitBlock(b, e, cc, g0).0);
    case Repeat(b, k) =>
      var e, g0 := InLoop(env, g.n, cc), g.(n := g.n + 1);
      StmtsOutward(b, e, cc, g0);
      RepeatOutward(g.n, k, CountClose(b) > 0, cc, EmitStmts(b, e, cc, g0).0);
    case ForGen(k, closing, b) =>
      var e, g0, cc' := InLoop(env, g.n, cc), g.(n := g.n + 1), if closing then cc + 1 else cc;
      BlockOutward(b, e, cc', g0);
      ForOutward(g.n, k, closing, cc, EmitBlock(b, e, cc', g0).0);
    case Break =>
      if env.loop.Some? { FreeOne(WBr(LBrk(env.loop.value.n))); }
    case Return(k) => FreeOne(WReturn);
    case Goto(name) =>
      var t := Lookup(env.sc, name);
      if t.Some? { FreeGoto(t.value.bid, t.value.seg); }
    case _ =>
  }

  lemma {:induction false} FreeGoto(bid: int, k: nat)
    ensures Free(GotoSeg(bid, k)) == {LDispatch(bid)}
  {
    FreeOne(WBr(LDispatch(bid)));
  }

  lemma {:induction false} RepeatOutward(n: int, k: int, closes: bool, cc: nat, c: Code)
    requires Outward(Free(c))
    ensures Outward(Free(LoopShell(n, App(c, Until(n, k, closes, cc)))))
  {
    var last := One(WBrIf(LCont(n)));
    FreeApp(c, Until(n, k, closes, cc));
    FreeOne(WBrIf(LCont(n)));
    assert Free(CloseIf(closes, cc, last)) == {LCont(n)};
    assert Free(Until(n, k, closes, cc)) == {LCont(n)} by {
      assert Free(WCons(WEqz, CloseIf(closes, cc, last))) == {LCont(n)};
    }
    ShellOutward(n, App(c, Until(n, k, closes, cc)));
  }

  lemma {:induction false} ForOutward(n: int, k: int, closing: bool, cc: nat, c: Code)
    requires Outward(Free(c))
    ensures var shell := LoopShell(n, Guarded(n, QNext(k), c));
            var init := if closing then WPush(QInit(k, closing)) else WAsk(QInit(k, closing));
            Outward(Free(WCons(init, App(shell, CloseIf(closing, cc, WNil)))))
  {
    LoopOutward(n, QNext(k), c);
    var shell := LoopShell(n, Guarded(n, QNext(k), c));
    FreeApp(shell, CloseIf(closing, cc, WNil));
  }

  lemma {:induction false} IfOutward(n: int, k: int, t: Code, e: Code)
    requires Outward(Free(t)) && Outward(Free(e))
    ensures var arm := WIf(App(t, One(WBr(LIfEnd(n)))));
            var body := WCons(WTest(QCond(k)), WCons(arm, e));
            Outward(Free(One(WBlock(LIfEnd(n), body))))
  {
    FreeApp(t, One(WBr(LIfEnd(n))));
    FreeOne(WBr(LIfEnd(n)));
    var arm := WIf(App(t, One(WBr(LIfEnd(n)))));
    assert Free(WCons(arm, e)) == Free(t) + {LIfEnd(n)} + Free(e);
    var body := WCons(WTest(QCond(k)), WCons(arm, e));
    assert Free(body) == FreeOf(WTest(QCond(k))) + Free(WCons(arm, e));
    FreeOne(WBlock(LIfEnd(n), body));
  }

  lemma {:induction false} ShellOutward(n: int, body: Code)
    requires Outward(Free(body) - {LCont(n)})
    ensures Outward(Free(LoopShell(n, body)))
  {
    FreeOne(WLoop(LCont(n), body));
    FreeOne(WBlock(LBrk(n), One(WLoop(LCont(n), body))));
  }

  lemma {:induction false} LoopOutward(n: int, q: Query, c: Code)
    requires Outward(Free(c))
    ensures Outward(Free(LoopShell(n, Guarded(n, q, c))))
  {
    var again := App(c, One(WBr(LCont(n))));
    FreeApp(c, One(WBr(LCont(n))));
    FreeOne(WBr(LCont(n)));
    var exit := WCons(WBrIf(LBrk(n)), again);
    assert Free(exit) == {LBrk(n)} + Free(again);
    assert Free(WCons(WEqz, exit)) == Free(exit);
    assert Free(Guarded(n, q, c)) == Free(exit);
    ShellOutward(n, Guarded(n, q, c));
  }

  lemma {:induction false} SeqOutward(ss: Stmts, env: Env, cc: nat, g: Ctr)
    ensures Outward(Free(EmitSeq(ss, env, cc, g).0))
    decreases ss, 0
  {
    if ss.Cons? {
      var (c, g1) := EmitStmt(ss.hd, env, cc, g);
      StmtOutward(ss.hd, env, cc, g);
      SeqOutward(ss.tl, env, Bump(ss.hd, cc), g1);
      FreeApp(c, EmitSeq(ss.tl, env, Bump(ss.hd, cc), g1).0);
    }
  }

  predicate Inward(ls: set<Lbl>, bid: int, k: nat, n: nat) {
    forall l | l in ls :: l.LBrk? || l.LDispatch? || l == LExit(bid) || (l.LSeg? && l.bid == bid && k < l.k <= n)
  }

  lemma {:induction false} SegsOutward(ss: Stmts, bid: int, k: nat, n: nat, acc: Code, env: Env, cc: nat, g: Ctr)
    requires k + CountLabels(ss) == n && Inward(Free(acc), bid, k, n)
    ensures Inward(Free(EmitSegs(ss, bid, k, acc, env, cc, g).0), bid, n, n)
    decreases ss, 0
  {
    match ss
    case Nil =>
      FreeApp(acc, One(WBr(LExit(bid))));
      FreeOne(WBr(LExit(bid)));
    case Cons(Label(_), tl) =>
      var next := GotoSeg(bid, k + 1);
      FreeApp(acc, next);
      FreeGoto(bid, k + 1);
      FreeOne(WBlock(LSeg(bid, k + 1), App(acc, next)));
      SegsOutward(tl, bid, k + 1, n, One(WBlock(LSeg(bid, k + 1), App(acc, next))), env, cc, g);
    case Cons(s, tl) =>
      var (c, g1) := EmitStmt(s, env, cc, g);
      StmtOutward(s, env, cc, g);
      FreeApp(acc, c);
      SegsOutward(tl, bid, k, n, App(acc, c), env, Bump(s, cc), g1);
  }

  lemma {:induction false} StmtsOutward(b: Stmts, env: Env, cc: nat, g: Ctr)
    ensures Outward(Free(EmitStmts(b, env, cc, g).0))
    decreases b, 1
  {
    if CountLabels(b) == 0 {
      SeqOutward(b, env, cc, g);
    } else {
      var bid, n := g.id, CountLabels(b);
      FreeOne(WBrTable(bid, n));
      FreeOne(WBlock(LSeg(bid, 0), One(WBrTable(bid, n))));
      SegsOutward(b, bid, 0, n, Table(bid, n), Opened(b, env, cc, g), cc, Numbered(b, g));
      var c := BodyOf(b, env, cc, g);
      var loop := WLoop(LDispatch(bid), c);
      FreeOne(loop);
      FreeOne(WBlock(LExit(bid), One(loop)));
    }
  }

  lemma {:induction false} BlockOutward(b: Stmts, env: Env, cc: nat, g: Ctr)
    ensures Outward(Free(EmitBlock(b, env, cc, g).0))
    decreases b, 2
  {
    StmtsOutward(b, env, cc, g);
    FreeApp(EmitStmts(b, env, cc, g).0, CloseIf(CountClose(b) > 0, cc, WNil));
  }

  // ----- counters only grow -----

  predicate Grown(g: Ctr, g': Ctr) {
    g.n <= g'.n && g.id <= g'.id
  }

  lemma {:induction false} StmtGrows(s: Stmt, env: Env, cc: nat, g: Ctr)
    ensures Grown(g, EmitStmt(s, env, cc, g).1)
    decreases s, 0
  {
    match s
    case Do(b) => BlockGrows(b, env, cc, g);
    case If(k, thn, els) =>
      var g1 := EmitBlock(thn, env, cc, g.(n := g.n + 1)).1;
      BlockGrows(thn, env, cc, g.(n := g.n + 1));
      BlockGrows(els, env, cc, g1);
    case While(k, b) => BlockGrows(b, InLoop(env, g.n, cc), cc, g.(n := g.n + 1));
    case Repeat(b, k) => StmtsGrow(b, InLoop(env, g.n, cc), cc, g.(n := g.n + 1));
    case ForGen(k, closing, b) => BlockGrows(b, InLoop(env, g.n, cc), if closing then cc + 1 else cc, g.(n := g.n + 1));
    case _ =>
  }

  lemma {:induction false} SeqGrows(ss: Stmts, env: Env, cc: nat, g: Ctr)
    ensures Grown(g, EmitSeq(ss, env, cc, g).1)
    decreases ss, 0
  {
    if ss.Cons? {
      StmtGrows(ss.hd, env, cc, g);
      SeqGrows(ss.tl, env, Bump(ss.hd, cc), EmitStmt(ss.hd, env, cc, g).1);
    }
  }

  lemma {:induction false} SegsGrow(ss: Stmts, bid: int, k: nat, acc: Code, env: Env, cc: nat, g: Ctr)
    ensures Grown(g, EmitSegs(ss, bid, k, acc, env, cc, g).1)
    decreases ss, 0
  {
    match ss
    case Nil =>
    case Cons(Label(_), tl) =>
      var next := GotoSeg(bid, k + 1);
      SegsGrow(tl, bid, k + 1, One(WBlock(LSeg(bid, k + 1), App(acc, next))), env, cc, g);
    case Cons(s, tl) =>
      var (c, g1) := EmitStmt(s, env, cc, g);
      StmtGrows(s, env, cc, g);
      SegsGrow(tl, bid, k, App(acc, c), env, Bump(s, cc), g1);
  }

  lemma {:induction false} StmtsGrow(b: Stmts, env: Env, cc: nat, g: Ctr)
    ensures Grown(g, EmitStmts(b, env, cc, g).1)
    decreases b, 1
  {
    if CountLabels(b) == 0 {
      SeqGrows(b, env, cc, g);
    } else {
      SegsGrow(b, g.id, 0, Table(g.id, CountLabels(b)), Opened(b, env, cc, g), cc, Numbered(b, g));
    }
  }

  lemma {:induction false} BlockGrows(b: Stmts, env: Env, cc: nat, g: Ctr)
    ensures Grown(g, EmitBlock(b, env, cc, g).1)
    decreases b, 2
  {
    StmtsGrow(b, env, cc, g);
  }

  // ----- segments -----

  /** The code of one segment: its statements, then the jump to the next one. */
  function EmitSeg(ss: Stmts, bid: int, k: nat, env: Env, cc: nat, g: Ctr): Code
    decreases ss
  {
    match ss
    case Nil => One(WBr(LExit(bid)))
    case Cons(Label(_), tl) => GotoSeg(bid, k + 1)
    case Cons(s, tl) =>
      var (c, g1) := EmitStmt(s, env, cc, g);
      App(c, EmitSeg(tl, bid, k, env, Bump(s, cc), g1))
  }

  datatype Place = Place(ss: Stmts, cc: nat, g: Ctr)

  /** Where segment j begins, walking from segment k at `p`. */
  function SegAt(p: Place, env: Env, k: nat, j: nat): Place
    requires k <= j <= k + CountLabels(p.ss)
    decreases p.ss
  {
    if j == k then p
    else if p.ss.hd.Label? then SegAt(p.(ss := p.ss.tl), env, k + 1, j)
    else SegAt(Past(p, env), env, k, j)
  }

  /** The place after the statement at p. */
  function Past(p: Place, env: Env): Place
    requires p.ss.Cons?
  {
    Place(p.ss.tl, Bump(p.ss.hd, p.cc), EmitStmt(p.ss.hd, env, p.cc, p.g).1)
  }

  predicate Final(r: WResult, bid: int) {
    !r.out.Falls? && !(r.out.Branches? && (r.out.l.LSeg? || r.out.l == LExit(bid)))
  }

  lemma {:induction false} StmtFinal(w: World, s: Stmt, env: Env, cc: nat, g: Ctr, t: WState, f: nat, bid: int)
    ensures Exec(w, EmitStmt(s, env, cc, g).0, t, f).out.Falls? || Final(Exec(w, EmitStmt(s, env, cc, g).0, t, f), bid)
  {
    ExecFree(w, EmitStmt(s, env, cc, g).0, t, f);
    StmtOutward(s, env, cc, g);
  }

  /** The three ways the code emitted so far can end decide what the whole body
      does: settled already; running on in segment k; or still on the way to a
      later segment j. */
  lemma {:induction false} SegsRun(w: World, ss: Stmts, bid: int, k: nat, acc: Code, env: Env, cc: nat, g: Ctr,
      s: WState, f: nat, j: nat)
    ensures var r := Exec(w, acc, s, f);
            var all := Exec(w, EmitSegs(ss, bid, k, acc, env, cc, g).0, s, f);
            && (!r.out.Falls? && !(r.out.Branches? && r.out.l.LSeg?) ==> all == r)
            && (r.out.Falls? ==> all == Exec(w, EmitSeg(ss, bid, k, env, cc, g), r.s, f))
            && (r == WResult(Branches(LSeg(bid, j)), s) && k < j <= k + CountLabels(ss) ==>
                  var p := SegAt(Place(ss, cc, g), env, k, j);
                    all == Exec(w, EmitSeg(p.ss, bid, j, env, p.cc, p.g), s, f))
    decreases ss
  {
    match ss
    case Nil => ExecApp(w, acc, One(WBr(LExit(bid))), s, f);
    case Cons(Label(_), tl) =>
      var next := GotoSeg(bid, k + 1);
      ExecApp(w, acc, next, s, f);
      GotoSegRuns(w, bid, k + 1, Exec(w, acc, s, f).s, f);
      ExecOne(w, WBlock(LSeg(bid, k + 1), App(acc, next)), s, f);
      SegsRun(w, tl, bid, k + 1, One(WBlock(LSeg(bid, k + 1), App(acc, next))), env, cc, g, s, f, j);
    case Cons(st, tl) =>
      var (c, g1) := EmitStmt(st, env, cc, g);
      var r := Exec(w, acc, s, f);
      ExecApp(w, acc, c, s, f);
      SegsRun(w, tl, bid, k, App(acc, c), env, Bump(st, cc), g1, s, f, j);
      if r.out.Falls? {
        ExecApp(w, c, EmitSeg(tl, bid, k, env, Bump(st, cc), g1), r.s, f);
        StmtFinal(w, st, env, cc, g, r.s, f, bid);
      }
  }

  function Begin(b: Stmts, cc: nat, g: Ctr): Place {
    Place(b, cc, Numbered(b, g))
  }

  /** One turn of the dispatch loop runs the segment $next names. */
  lemma {:induction false} BodyRuns(w: World, b: Stmts, env: Env, cc: nat, g: Ctr, s: WState, f: nat, j: nat)
    requires g.id in s.next && s.next[g.id] == j <= CountLabels(b)
    ensures var e := Opened(b, env, cc, g);
            var p := SegAt(Begin(b, cc, g), e, 0, j);
            Exec(w, BodyOf(b, env, cc, g), s, f) == Exec(w, EmitSeg(p.ss, g.id, j, e, p.cc, p.g), s, f)
  {
    var bid, n := g.id, CountLabels(b);
    ExecOne(w, WBrTable(bid, n), s, f);
    ExecOne(w, WBlock(LSeg(bid, 0), One(WBrTable(bid, n))), s, f);
    SegsRun(w, b, bid, 0, Table(bid, n), Opened(b, env, cc, g), cc, Numbered(b, g), s, f, j);
  }

  /** A label's segment starts right after it, with its close base. */
  lemma {:induction false} SegOfLabel(p: Place, env: Env, k: nat, name: string)
    requires name in Labels(p.ss)
    ensures SegIndex(p.ss, name) <= CountLabels(p.ss)
    ensures var q := SegAt(p, env, k, k + SegIndex(p.ss, name));
            q.ss == After(p.ss, name) && q.cc == LabelBase(p.ss, name, p.cc) && Grown(p.g, q.g)
    decreases p.ss
  {
    if p.ss.hd != Label(name) {
      if p.ss.hd.Label? {
        SegOfLabel(p.(ss := p.ss.tl), env, k + 1, name);
      } else {
        StmtGrows(p.ss.hd, env, p.cc, p.g);
        SegOfLabel(Past(p, env), env, k, name);
      }
    }
  }
}
