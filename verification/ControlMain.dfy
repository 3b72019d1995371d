module ControlMain {
  // The lowering of a whole function body: it means what the source means, and every
  // to-be-closed variable is closed exactly once, last declared first.

  import opened Options
  import opened Control
  import opened ControlMarks
  import opened ControlDispatch
  import opened ControlSim

  // ----- closing discipline -----

  /** The nonfalse entries: the ones that will be closed. */
  function Pending(s: seq<int>): seq<int> {
    if s == [] then []
    else if s[|s| - 1] == 0 then Pending(s[..|s| - 1])
    else Pending(s[..|s| - 1]) + [s[|s| - 1]]
  }

  function Note(open: Option<seq<int>>, e: Event): Option<seq<int>> {
    if open.None? then None
    else
      match e.q
      case QDecl(_) => if e.r.Value? && e.r.v != 0 then Some(open.value + [e.r.v]) else open
      case QInit(_, true) => if e.r.Value? && e.r.v != 0 then Some(open.value + [e.r.v]) else open
      case QClose(v, _) =>
        var n := |open.value|;
        if n > 0 && open.value[n - 1] == v then Some(open.value[..n - 1]) else None
      case _ => open
  }

  /** Read a trace as a record of what was declared and closed: the values still
      open, or None once a value is closed that is not the last one open. */
  function Open(tr: seq<Event>): Option<seq<int>> {
    if tr == [] then Some([]) else Note(Open(tr[..|tr| - 1]), tr[|tr| - 1])
  }

  lemma {:induction false} OpenStep(tr: seq<Event>, e: Event)
    ensures Open(tr + [e]) == Note(Open(tr), e)
  {
    assert (tr + [e])[..|tr|] == tr;
  }

  lemma {:induction false} PendingStep(s: seq<int>, v: int)
    ensures Pending(s + [v]) == if v == 0 then Pending(s) else Pending(s) + [v]
  {
    assert (s + [v])[..|s|] == s;
  }

  /** The to-be-closed stack holds what the trace says is open. */
  ghost predicate Tracks(st: State) {
    Open(st.tr) == Some(Pending(st.tbc))
  }

  lemma {:induction false} AskTracks(w: World, st: State, q: Query)
    requires Tracks(st) && !q.QClose? && !q.QDecl? && !(q.QInit? && q.closing)
    ensures Tracks(Ask(w, st, q).0)
  {
    OpenStep(st.tr, Event(q, w(st.tr, q)));
  }

  lemma {:induction false} PushTracks(w: World, st: State, q: Query)
    requires Tracks(st) && (q.QDecl? || (q.QInit? && q.closing))
    ensures var (st', r) := Ask(w, st, q);
            if r.Raise? then Tracks(st') else Tracks(st'.(tbc := st'.tbc + [r.v]))
  {
    OpensTracks(st, Event(q, w(st.tr, q)), st.tbc + (match w(st.tr, q) case Value(v) => [v] case Raise(_) => []));
  }

  /** A declaration's event, and the stack after it. */
  lemma {:induction false} OpensTracks(st: State, e: Event, now: seq<int>)
    requires Tracks(st) && (e.q.QDecl? || (e.q.QInit? && e.q.closing))
    requires now == st.tbc + (match e.r case Value(v) => [v] case Raise(_) => [])
    ensures Tracks(st.(tr := st.tr + [e], tbc := now))
  {
    OpenStep(st.tr, e);
    match e.r
    case Value(v) =>
      assert now == st.tbc + [v];
      PendingStep(st.tbc, v);
    case Raise(_) => assert now == st.tbc;
  }

  lemma {:induction false} PopTracks(w: World, st: State, err: Option<int>)
    requires Tracks(st) && st.tbc != []
    ensures var n := |st.tbc| - 1;
            var v, st' := st.tbc[n], st.(tbc := st.tbc[..n]);
            if v == 0 then Tracks(st') else Tracks(Ask(w, st', QClose(v, err)).0)
  {
    var n := |st.tbc| - 1;
    var v, st' := st.tbc[n], st.(tbc := st.tbc[..n]);
    var e := Event(QClose(v, err), w(st.tr, QClose(v, err)));
    OpenStep(st.tr, e);
    if v != 0 {
      var p := Pending(st'.tbc);
      assert Pending(st.tbc) == p + [v];
      assert (p + [v])[..|p|] == p;
      assert Note(Some(p + [v]), e) == Some(p);
    }
  }

  lemma {:induction false} UnwindTracks(w: World, st: State, to: nat, err: Option<int>)
    requires Tracks(st)
    ensures Tracks(Unwind(w, st, to, err).0)
    decreases |st.tbc|
  {
    if |st.tbc| > to {
      var v, st' := st.tbc[|st.tbc| - 1], st.(tbc := st.tbc[..|st.tbc| - 1]);
      PopTracks(w, st, err);
      if v == 0 {
        UnwindTracks(w, st', to, err);
      } else {
        var (st'', r) := Ask(w, st', QClose(v, err));
        UnwindTracks(w, st'', to, if r.Raise? then Some(r.e) else err);
      }
    }
  }

  lemma {:induction false} LeaveTracks(w: World, r: Result, base: nat)
    requires Tracks(r.st)
    ensures Tracks(Leave(w, r, base).st)
  {
    UnwindTracks(w, r.st, base, if r.out.Error? then Some(r.out.e) else None);
  }

  lemma {:induction false} InTracks(w: World, b: Stmts, ss: Stmts, base: nat, marks: seq<nat>, st: State, f: nat)
    requires Tracks(st)
    ensures Tracks(ExecIn(w, b, ss, base, marks, st, f).st)
    decreases f, ss, 2
  {
    match ss
    case Nil =>
    case Cons(Label(_), tl) =>
      if f > 0 { InTracks(w, b, tl, base, marks, st, f - 1); }
    case Cons(LocalClose(k), tl) =>
      var (st', r) := Ask(w, st, QDecl(k));
      PushTracks(w, st, QDecl(k));
      if r.Value? { InTracks(w, b, tl, base, marks + [Len(ss)], st'.(tbc := st'.tbc + [r.v]), f); }
    case _ => StepTracks(w, b, ss, base, marks, st, f);
  }

  lemma {:induction false} StepTracks(w: World, b: Stmts, ss: Stmts, base: nat, marks: seq<nat>, st: State, f: nat)
    requires Tracks(st) && ss.Cons? && !ss.hd.Label? && !ss.hd.LocalClose?
    ensures Tracks(ExecIn(w, b, ss, base, marks, st, f).st)
    decreases f, ss, 1
  {
    var r := ExecStmt(w, ss.hd, st, f);
    StmtTracks(w, ss.hd, st, f);
    if r.out.Normal? {
      InTracks(w, b, ss.tl, base, marks, r.st, f);
    } else if r.out.Jumps? && r.out.name in Labels(b) {
      CaughtTracks(w, b, base, marks, r, f, ss);
    }
  }

  lemma {:induction false} CaughtTracks(w: World, b: Stmts, base: nat, marks: seq<nat>, r: Result, f: nat, ss: Stmts)
    requires Tracks(r.st) && r.out.Jumps? && r.out.name in Labels(b)
    ensures Tracks(Caught(w, b, base, marks, r, f).st)
    decreases f, ss, 0
  {
    var to := After(b, r.out.name);
    var kept := Kept(marks, Len(to));
    var c := Leave(w, r.(out := Normal), base + kept);
    LeaveTracks(w, r.(out := Normal), base + kept);
    if f > 0 { InTracks(w, b, to, base, marks[..kept], c.st, f - 1); }
  }

  lemma {:induction false} BlockTracks(w: World, b: Stmts, st: State, f: nat)
    requires Tracks(st)
    ensures Tracks(ExecBlock(w, b, st, f).st)
    decreases f, b, 3
  {
    InTracks(w, b, b, |st.tbc|, [], st, f);
    LeaveTracks(w, ExecIn(w, b, b, |st.tbc|, [], st, f), |st.tbc|);
  }

  lemma {:induction false} StmtTracks(w: World, s: Stmt, st: State, f: nat)
    requires Tracks(st)
    ensures Tracks(ExecStmt(w, s, st, f).st)
    decreases f, s, 0
  {
    match s
    case Act(k) => AskTracks(w, st, QAct(k));
    case Do(b) => BlockTracks(w, b, st, f);
    case If(k, thn, els) =>
      AskTracks(w, st, QCond(k));
      BlockTracks(w, thn, Ask(w, st, QCond(k)).0, f);
      BlockTracks(w, els, Ask(w, st, QCond(k)).0, f);
    case While(k, b) => LoopTracks(w, QCond(k), b, st, f);
    case Repeat(b, k) => RepeatTracks(w, b, k, st, f);
    case ForGen(k, closing, b) =>
      var (st', r) := Ask(w, st, QInit(k, closing));
      if closing { PushTracks(w, st, QInit(k, closing)); } else { AskTracks(w, st, QInit(k, closing)); }
      if r.Value? {
        var st'' := if closing then st'.(tbc := st'.tbc + [r.v]) else st';
        LoopTracks(w, QNext(k), b, st'', f);
        LeaveTracks(w, CatchBreak(ExecLoop(w, QNext(k), b, st'', f)), |st.tbc|);
      }
    case Return(k) => AskTracks(w, st, QReturn(k));
    case _ =>
  }

  lemma {:induction false} LoopTracks(w: World, q: Query, b: Stmts, st: State, f: nat)
    requires Tracks(st) && (q.QCond? || q.QNext?)
    ensures Tracks(ExecLoop(w, q, b, st, f).st)
    decreases f, b, 4
  {
    var st' := Ask(w, st, q).0;
    AskTracks(w, st, q);
    BlockTracks(w, b, st', f);
    var r := ExecBlock(w, b, st', f);
    if r.out.Normal? && f > 0 { LoopTracks(w, q, b, r.st, f - 1); }
  }

  lemma {:induction false} RepeatTracks(w: World, b: Stmts, k: int, st: State, f: nat)
    requires Tracks(st)
    ensures Tracks(ExecRepeat(w, b, k, st, f).st)
    decreases f, b, 4
  {
    InTracks(w, b, b, |st.tbc|, [], st, f);
    var r := ExecIn(w, b, b, |st.tbc|, [], st, f);
    LeaveTracks(w, r, |st.tbc|);
    AskTracks(w, r.st, QCond(k));
    var (st', v) := Ask(w, r.st, QCond(k));
    var c := Leave(w, Result(Normal, st'), |st.tbc|);
    LeaveTracks(w, Result(Normal, st'), |st.tbc|);
    if v.Raise? { LeaveTracks(w, Result(Error(v.e), st'), |st.tbc|); }
    if r.out.Normal? && f > 0 { RepeatTracks(w, b, k, c.st, f - 1); }
  }

  // ----- function bodies -----

  const TOP := Env([], None)
  const ZERO := Ctr(0, 0)
  const START := State([], [])

  ghost predicate LegalBody(b: Stmts) {
    LegalBlock(b, false, true) && BlockGotos(b) == {}
  }

  function HasClose(b: Stmts): bool {
    match b case Nil => false case Cons(s, tl) => StmtHasClose(s) || HasClose(tl)
  }

  /** The parser's n_close > 0. */
  function StmtHasClose(s: Stmt): bool {
    match s
    case LocalClose(_) => true
    case Do(b) => HasClose(b)
    case If(_, thn, els) => HasClose(thn) || HasClose(els)
    case While(_, b) => HasClose(b)
    case Repeat(b, _) => HasClose(b)
    case ForGen(_, closing, b) => closing || HasClose(b)
    case _ => false
  }

  /** emit_close_body: with <close> variables, the body runs in a try_table whose
      handler closes what is still open, with the error, and rethrows. */
  function RunBody(w: World, b: Stmts, t: WState, f: nat): WResult {
    var r := Exec(w, EmitBlock(b, TOP, 0, ZERO).0, t, f);
    if HasClose(b) && r.out.Throws? then
      var (st, err) := Unwind(w, r.s.st, 0, Some(r.out.e));
      WResult(if err.Some? then Throws(err.value) else Falls, r.s.(st := st))
    else r
  }

  function Source(w: World, b: Stmts, f: nat): Result {
    ExecBlock(w, b, START, f)
  }

  function Target(w: World, b: Stmts, next: map<int, nat>, flag: bool, f: nat): WResult {
    RunBody(w, b, WState(START, next, flag), f)
  }

  /** The same end, with the same trace and nothing left open. */
  ghost predicate Agrees(r: Result, t: WResult) {
    && t.s.st == r.st && r.st.tbc == []
    && match r.out
       case Normal => t.out == Falls
       case Returns => t.out == Leaves
       case Error(e) => t.out == Throws(e)
       case _ => false
  }

  // ----- without <close> variables nothing is pushed -----

  predicate Pushes(c: Code)
    decreases c
  {
    match c case WNil => false case WCons(i, rest) => PushesAt(i) || Pushes(rest)
  }

  predicate PushesAt(i: Instr)
    decreases i
  {
    match i
    case WPush(_) => true
    case WBlock(_, body) => Pushes(body)
    case WLoop(_, body) => Pushes(body)
    case WIf(thn) => Pushes(thn)
    case _ => false
  }

  lemma {:induction false} PushesApp(a: Code, b: Code)
    ensures Pushes(App(a, b)) == (Pushes(a) || Pushes(b))
    decreases a
  {
    if a.WCons? { PushesApp(a.rest, b); }
  }

  lemma {:induction false} PushesOne(i: Instr)
    ensures Pushes(One(i)) == PushesAt(i)
  {
  }

  lemma {:induction false} FlatRun(w: World, c: Code, s: WState, f: nat)
    requires !Pushes(c) && s.st.tbc == []
    ensures Exec(w, c, s, f).s.st.tbc == []
    decreases f, c
  {
    if c.WCons? {
      FlatStep(w, c.w, s, f);
      var r := ExecInstr(w, c.w, s, f);
      if r.out.Falls? { FlatRun(w, c.rest, r.s, f); }
    }
  }

  lemma {:induction false} FlatStep(w: World, i: Instr, s: WState, f: nat)
    requires !PushesAt(i) && s.st.tbc == []
    ensures ExecInstr(w, i, s, f).s.st.tbc == []
    decreases f, i
  {
    match i
    case WBlock(l, body) => FlatRun(w, body, s, f);
    case WLoop(l, body) =>
      FlatRun(w, body, s, f);
      var r := Exec(w, body, s, f);
      if r.out == Branches(l) && f > 0 { FlatStep(w, i, r.s, f - 1); }
    case WIf(thn) => FlatRun(w, thn, s, f);
    case _ =>
  }

  lemma {:induction false} LoopFlat(s: Stmt, env: Env, cc: nat, g: Ctr)
    requires s.While? || s.Repeat? || s.ForGen?
    requires !StmtHasClose(s)
    ensures !Pushes(EmitStmt(s, env, cc, g).0)
    decreases s, 0
  {
    match s
    case While(k, b) =>
      BlockFlat(b, InLoop(env, g.n, cc), cc, g.(n := g.n + 1));
      GuardFlat(g.n, QCond(k), EmitBlock(b, InLoop(env, g.n, cc), cc, g.(n := g.n + 1)).0);
    case Repeat(b, k) =>
      StmtsFlat(b, InLoop(env, g.n, cc), cc, g.(n := g.n + 1));
      RepeatFlat(g.n, k, CountClose(b) > 0, cc, EmitStmts(b, InLoop(env, g.n, cc), cc, g.(n := g.n + 1)).0);
    case ForGen(k, closing, b) =>
      BlockFlat(b, InLoop(env, g.n, cc), cc, g.(n := g.n + 1));
      ForFlat(g.n, k, cc, EmitBlock(b, InLoop(env, g.n, cc), cc, g.(n := g.n + 1)).0);
  }

  lemma {:induction false} BranchFlat(s: Stmt, env: Env, cc: nat, g: Ctr)
    requires s.If? && !StmtHasClose(s)
    ensures !Pushes(EmitStmt(s, env, cc, g).0)
    decreases s, 0
  {
    var g0 := g.(n := g.n + 1);
    var (t, g1) := EmitBlock(s.thn, env, cc, g0);
    BlockFlat(s.thn, env, cc, g0);
    BlockFlat(s.els, env, cc, g1);
    IfFlat(g.n, s.k, t, EmitBlock(s.els, env, cc, g1).0);
  }

  lemma {:induction false} StmtFlat(s: Stmt, env: Env, cc: nat, g: Ctr)
    requires !StmtHasClose(s)
    ensures !Pushes(EmitStmt(s, env, cc, g).0)
    decreases s, 1
  {
    match s
    case Do(b) => BlockFlat(b, env, cc, g);
    case If(_, _, _) => BranchFlat(s, env, cc, g);
    case While(_, _) => LoopFlat(s, env, cc, g);
    case Repeat(_, _) => LoopFlat(s, env, cc, g);
    case ForGen(_, _, _) => LoopFlat(s, env, cc, g);
    case Break =>
      if env.loop.Some? { PushesOne(WBr(LBrk(env.loop.value.n))); }
    case Return(k) => PushesOne(WReturn);
    case Goto(name) =>
      var t := Lookup(env.sc, name);
      if t.Some? { GotoFlat(t.value.bid, t.value.seg); }
    case _ =>
  }

  lemma {:induction false} IfFlat(n: int, k: int, t: Code, e: Code)
    requires !Pushes(t) && !Pushes(e)
    ensures var arm := WIf(App(t, One(WBr(LIfEnd(n)))));
            var body := WCons(WTest(QCond(k)), WCons(arm, e));
            !Pushes(One(WBlock(LIfEnd(n), body)))
  {
    var end := One(WBr(LIfEnd(n)));
    PushesApp(t, end);
    PushesOne(WBr(LIfEnd(n)));
    var body := WCons(WTest(QCond(k)), WCons(WIf(App(t, end)), e));
    assert !PushesAt(WIf(App(t, end)));
    assert !Pushes(WCons(WIf(App(t, end)), e));
    assert !Pushes(body);
    PushesOne(WBlock(LIfEnd(n), body));
  }

  lemma {:induction false} ForFlat(n: int, k: int, cc: nat, c: Code)
    requires !Pushes(c)
    ensures !Pushes(WCons(WAsk(QInit(k, false)), App(LoopShell(n, Guarded(n, QNext(k), c)), CloseIf(false, cc, WNil))))
  {
    GuardFlat(n, QNext(k), c);
    PushesApp(LoopShell(n, Guarded(n, QNext(k), c)), WNil);
  }

  lemma {:induction false} RepeatFlat(n: int, k: int, closes: bool, cc: nat, c: Code)
    requires !Pushes(c)
    ensures !Pushes(LoopShell(n, App(c, Until(n, k, closes, cc))))
  {
    var last := One(WBrIf(LCont(n)));
    PushesOne(WBrIf(LCont(n)));
    assert !Pushes(CloseIf(closes, cc, last));
    assert !Pushes(WCons(WEqz, CloseIf(closes, cc, last)));
    assert !Pushes(Until(n, k, closes, cc));
    PushesApp(c, Until(n, k, closes, cc));
    ShellFlat(n, App(c, Until(n, k, closes, cc)));
  }

  lemma {:induction false} GotoFlat(bid: int, k: nat)
    ensures !Pushes(GotoSeg(bid, k))
  {
    PushesOne(WBr(LDispatch(bid)));
  }

  lemma {:induction false} ShellFlat(n: int, body: Code)
    requires !Pushes(body)
    ensures !Pushes(LoopShell(n, body))
  {
    PushesOne(WLoop(LCont(n), body));
    PushesOne(WBlock(LBrk(n), One(WLoop(LCont(n), body))));
  }

  lemma {:induction false} GuardFlat(n: int, q: Query, c: Code)
    requires !Pushes(c)
    ensures !Pushes(LoopShell(n, Guarded(n, q, c)))
  {
    var again := App(c, One(WBr(LCont(n))));
    PushesApp(c, One(WBr(LCont(n))));
    PushesOne(WBr(LCont(n)));
    var exit := WCons(WBrIf(LBrk(n)), again);
    assert !Pushes(exit);
    assert !Pushes(WCons(WEqz, exit));
    ShellFlat(n, Guarded(n, q, c));
  }

  lemma {:induction false} SeqFlat(ss: Stmts, env: Env, cc: nat, g: Ctr)
    requires !HasClose(ss)
    ensures !Pushes(EmitSeq(ss, env, cc, g).0)
    decreases ss, 0
  {
    if ss.Cons? {
      var (c, g1) := EmitStmt(ss.hd, env, cc, g);
      StmtFlat(ss.hd, env, cc, g);
      SeqFlat(ss.tl, env, Bump(ss.hd, cc), g1);
      PushesApp(c, EmitSeq(ss.tl, env, Bump(ss.hd, cc), g1).0);
    }
  }

  lemma {:induction false} SegsFlat(ss: Stmts, bid: int, k: nat, acc: Code, env: Env, cc: nat, g: Ctr)
    requires !HasClose(ss) && !Pushes(acc)
    ensures !Pushes(EmitSegs(ss, bid, k, acc, env, cc, g).0)
    decreases ss, 0
  {
    if ss.Nil? {
      PushesOne(WBr(LExit(bid)));
      PushesApp(acc, One(WBr(LExit(bid))));
    } else if ss.hd.Label? {
      var next := GotoSeg(bid, k + 1);
      GotoFlat(bid, k + 1);
      PushesApp(acc, next);
      PushesOne(WBlock(LSeg(bid, k + 1), App(acc, next)));
      SegsFlat(ss.tl, bid, k + 1, One(WBlock(LSeg(bid, k + 1), App(acc, next))), env, cc, g);
    } else {
      var (c, g1) := EmitStmt(ss.hd, env, cc, g);
      StmtFlat(ss.hd, env, cc, g);
      PushesApp(acc, c);
      SegsFlat(ss.tl, bid, k, App(acc, c), env, Bump(ss.hd, cc), g1);
    }
  }

  lemma {:induction false} StmtsFlat(b: Stmts, env: Env, cc: nat, g: Ctr)
    requires !HasClose(b)
    ensures !Pushes(EmitStmts(b, env, cc, g).0)
    decreases b, 1
  {
    if CountLabels(b) == 0 {
      SeqFlat(b, env, cc, g);
    } else {
      PushesOne(WBrTable(g.id, CountLabels(b)));
      PushesOne(WBlock(LSeg(g.id, 0), One(WBrTable(g.id, CountLabels(b)))));
      SegsFlat(b, g.id, 0, Table(g.id, CountLabels(b)), Opened(b, env, cc, g), cc, Numbered(b, g));
      var loop := WLoop(LDispatch(g.id), BodyOf(b, env, cc, g));
      PushesOne(loop);
      PushesOne(WBlock(LExit(g.id), One(loop)));
    }
  }

  lemma {:induction false} BlockFlat(b: Stmts, env: Env, cc: nat, g: Ctr)
    requires !HasClose(b)
    ensures !Pushes(EmitBlock(b, env, cc, g).0)
    decreases b, 2
  {
    StmtsFlat(b, env, cc, g);
    PushesApp(EmitStmts(b, env, cc, g).0, CloseIf(CountClose(b) > 0, cc, WNil));
  }

  // ----- the main results -----

  lemma {:induction false} BodySim(w: World, b: Stmts, next: map<int, nat>, flag: bool, f: nat, slack: nat)
    requires LegalBody(b)
    ensures var r, t := Source(w, b, f), Target(w, b, next, flag, f + slack);
            if r.out.Timeout? then slack == 0 ==> t.out.WTimeout? && t.s.st.tr <= r.st.tr
            else Agrees(r, t) || (r.out.Error? && Starved(t, slack, r.st.tr))
  {
    var t0 := WState(START, next, flag);
    var r, t := Source(w, b, f), Exec(w, EmitBlock(b, TOP, 0, ZERO).0, t0, f + slack);
    SimBlock(w, b, TOP, 0, ZERO, true, START, t0, f, slack);
    BlockFrame(w, b, START, f);
    if t.out.Throws? {
      UnwindTbc(w, t.s.st, 0, Some(t.out.e));
      if !HasClose(b) {
        BlockFlat(b, TOP, 0, ZERO);
        FlatRun(w, EmitBlock(b, TOP, 0, ZERO).0, t0, f + slack);
      }
    }
    match r.out
    case Normal =>
    case Returns => UnwindTbc(w, r.st, 0, None);
    case Error(e) => UnwindTbc(w, r.st, 0, Some(e));
    case _ =>
  }

  /** Whatever a finished run of the target did, the source does. */
  lemma {:induction false} BodySound(w: World, b: Stmts, next: map<int, nat>, flag: bool, f: nat)
    requires LegalBody(b) && !Target(w, b, next, flag, f).out.WTimeout?
    ensures Agrees(Source(w, b, f), Target(w, b, next, flag, f))
  {
    BodySim(w, b, next, flag, f, 0);
  }

  /** Whatever a finished run of the source did, the target does. */
  lemma {:induction false} BodyComplete(w: World, b: Stmts, next: map<int, nat>, flag: bool, f: nat)
    requires LegalBody(b) && !Source(w, b, f).out.Timeout?
    ensures Agrees(Source(w, b, f), Target(w, b, next, flag, f + MAX_BLOCK_LABELS))
  {
    BodySim(w, b, next, flag, f, MAX_BLOCK_LABELS);
  }

  lemma {:induction false} OpenPrefix(a: seq<Event>, c: seq<Event>)
    requires a <= c && Open(c).Some?
    ensures Open(a).Some?
    decreases |c|
  {
    if a != c { OpenPrefix(a, c[..|c| - 1]); }
  }

  /** Every variable whose declaration ran is closed once, last declared first:
      at no time is anything closed out of turn, and at the end nothing is open. */
  lemma {:induction false} ClosedOnce(w: World, b: Stmts, next: map<int, nat>, flag: bool, f: nat)
    requires LegalBody(b)
    ensures var t := Target(w, b, next, flag, f);
            if t.out.WTimeout? then Open(t.s.st.tr).Some? else Open(t.s.st.tr) == Some([])
  {
    BodySim(w, b, next, flag, f, 0);
    BlockTracks(w, b, START, f);
    BlockFrame(w, b, START, f);
    var r, t := Source(w, b, f), Target(w, b, next, flag, f);
    if t.out.WTimeout? { OpenPrefix(t.s.st.tr, r.st.tr); }
  }

  /** The error in flight after a close: the one it raises, or the one before it. */
  function InFlight(e: Event, err: Option<int>): Option<int> { if e.r.Raise? then Some(e.r.e) else err }

  function LastError(es: seq<Event>, err: Option<int>): Option<int> {
    if es == [] then err else LastError(es[1..], InFlight(es[0], err))
  }

  /** The values that are closed, topmost first: nil and false are not. */
  function ToClose(vs: seq<int>): seq<int> {
    if vs == [] then [] else (if vs[|vs| - 1] == 0 then [] else [vs[|vs| - 1]]) + ToClose(vs[..|vs| - 1])
  }

  /** es are the closes of vs, each told the error in flight then. */
  predicate Chained(es: seq<Event>, vs: seq<int>, err: Option<int>) {
    if es == [] then vs == []
    else vs != [] && es[0].q == QClose(vs[0], err) && Chained(es[1..], vs[1..], InFlight(es[0], err))
  }

  /** From st the stack is closed down to a height, with the closes es. */
  predicate Unwound(st: State, to: nat, err: Option<int>, es: seq<Event>, r: (State, Option<int>))
    requires to <= |st.tbc|
  {
    && r.0 == State(st.tr + es, st.tbc[..to])
    && Chained(es, ToClose(st.tbc[to..]), err) && r.1 == LastError(es, err)
  }

  /** Closing down to a height asks each __close once, topmost first, tells it the error in
      flight then, goes on when one raises, and ends with the last error raised, if any. */
  lemma {:induction false} UnwindChains(w: World, st: State, to: nat, err: Option<int>) returns (es: seq<Event>)
    requires to <= |st.tbc|
    ensures Unwound(st, to, err, es, Unwind(w, st, to, err))
    decreases |st.tbc|
  {
    es := [];
    if |st.tbc| == to {
      assert st.tbc[to..] == [] && st.tbc[..to] == st.tbc && st.tr + [] == st.tr;
    } else {
      var v, st1 := st.tbc[|st.tbc| - 1], st.(tbc := st.tbc[..|st.tbc| - 1]);
      if v == 0 {
        es := UnwindChains(w, st1, to, err);
        Skips(st, to, err, es, Unwind(w, st1, to, err));
      } else {
        var e := Event(QClose(v, err), w(st.tr, QClose(v, err)));
        var st2 := State(st.tr + [e], st1.tbc);
        es := UnwindChains(w, st2, to, InFlight(e, err));
        Closes(st, to, err, e, es, Unwind(w, st2, to, InFlight(e, err)));
        es := [e] + es;
      }
    }
  }

  lemma {:induction false} Skips(st: State, to: nat, err: Option<int>, es: seq<Event>, r: (State, Option<int>))
    requires to < |st.tbc| && st.tbc[|st.tbc| - 1] == 0
    requires Unwound(st.(tbc := st.tbc[..|st.tbc| - 1]), to, err, es, r)
    ensures Unwound(st, to, err, es, r)
  {
    TopOff(st.tbc, to);
    assert [] + ToClose(st.tbc[..|st.tbc| - 1][to..]) == ToClose(st.tbc[..|st.tbc| - 1][to..]);
  }

  lemma {:induction false} Closes(st: State, to: nat, err: Option<int>, e: Event, es: seq<Event>, r: (State,
        Option<int>))
    requires to < |st.tbc| && st.tbc[|st.tbc| - 1] != 0 && e.q == QClose(st.tbc[|st.tbc| - 1], err)
    requires Unwound(State(st.tr + [e], st.tbc[..|st.tbc| - 1]), to, InFlight(e, err), es, r)
    ensures Unwound(st, to, err, [e] + es, r)
  {
    var below := st.tbc[..|st.tbc| - 1];
    TopOff(st.tbc, to);
    ChainOn(e, es, ToClose(below[to..]), err);
    assert st.tr + [e] + es == st.tr + ([e] + es);
  }

  lemma {:induction false} TopOff(tbc: seq<int>, to: nat)
    requires to < |tbc|
    ensures var rest, v := tbc[..|tbc| - 1], tbc[|tbc| - 1];
            rest[..to] == tbc[..to] && ToClose(tbc[to..]) == (if v == 0 then [] else [v]) + ToClose(rest[to..])
  {
    assert tbc[to..][..|tbc| - 1 - to] == tbc[..|tbc| - 1][to..];
  }

  lemma {:induction false} ChainOn(e: Event, es: seq<Event>, vs: seq<int>, err: Option<int>)
    requires e.q.QClose? && e.q.err == err && Chained(es, vs, InFlight(e, err))
    ensures Chained([e] + es, [e.q.v] + vs, err) && LastError([e] + es, err) == LastError(es, InFlight(e, err))
  {
    assert ([e] + es)[1..] == es && ([e.q.v] + vs)[1..] == vs;
  }

  // ----- close_count against the run-time stack -----

  /** A statement run with as many entries open as close_count says leaves as
      many as close_count says after it. */
  lemma {:induction false} HeightStays(w: World, s: Stmt, env: Env, cc: nat, g: Ctr, t: WState, f: nat)
    requires LegalStmt(s, env.loop.Some?) && Resolved(Gotos(s), env.sc) && Ctx(env, cc, g) && |t.st.tbc| == cc
    ensures var r := Exec(w, EmitStmt(s, env, cc, g).0, t, f); r.out.Falls? ==> |r.s.st.tbc| == Bump(s, cc)
  {
    if s.LocalClose? {
      ExecOne(w, WPush(QDecl(s.k)), t, f);
    } else {
      SimStmt(w, s, env, cc, g, t.st, t, f, 0);
      StmtFrame(w, s, t.st, f);
    }
  }

  /** Statements that fall through in a row keep the two together. */
  lemma {:induction false} HeightAlong(w: World, b: Stmts, ss: Stmts, env: Env, cc: nat, g: Ctr, soft: bool,
      t: WState, f: nat)
    requires LegalSeq(b, ss, env.loop.Some?, soft) && Resolved(SeqGotos(ss), env.sc) && Ctx(env, cc, g)
      && |t.st.tbc| == cc
    ensures var r := Exec(w, EmitSeq(ss, env, cc, g).0, t, f); r.out.Falls? ==> |r.s.st.tbc| == cc + CountClose(ss)
    decreases ss
  {
    if ss.Cons? {
      var (c, g1) := EmitStmt(ss.hd, env, cc, g);
      var d := EmitSeq(ss.tl, env, Bump(ss.hd, cc), g1).0;
      ExecApp(w, c, d, t, f);
      HeightStays(w, ss.hd, env, cc, g, t, f);
      StmtGrows(ss.hd, env, cc, g);
      CtxGrown(env, cc, g, Bump(ss.hd, cc), g1);
      var r := Exec(w, c, t, f);
      if r.out.Falls? { HeightAlong(w, b, ss.tl, env, Bump(ss.hd, cc), g1, soft, r.s, f); }
    }
  }

  /** A goto run with as many entries open as close_count says arrives at its label with
      the smaller of that and the label's close base: as many as close_count says there
      if and only if its own close_count is not below that base. */
  lemma {:induction false} ArrivalExact(w: World, name: string, env: Env, cc: nat, g: Ctr, t: WState, f: nat)
    requires Lookup(env.sc, name).Some? && |t.st.tbc| == cc
    ensures var d := Lookup(env.sc, name).value;
            var r := Exec(w, EmitStmt(Goto(name), env, cc, g).0, t, f);
            && (r.out.Throws? || r.out == Branches(LDispatch(d.bid)))
            && |r.s.st.tbc| == (if cc <= d.base then cc else d.base)
            && (|r.s.st.tbc| == d.base <==> cc >= d.base)
  {
    var d := Lookup(env.sc, name).value;
    CloseThen(w, cc, d.base, GotoSeg(d.bid, d.seg), t, f);
    UnwindTbc(w, t.st, d.base, None);
    GotoSegRuns(w, d.bid, d.seg, t.(st := Unwind(w, t.st, d.base, None).0), f);
  }

  /** In the source's terms, for a goto standing before the statements ss of the block
      that declares the label: exactly when it does not jump forward over a <close>
      declaration. One that does, in a legal block, has only labels after its label. */
  lemma {:induction false} ArrivalHeight(b: Stmts, ss: Stmts, name: string, soft: bool, base: nat)
    requires IsSuffix(b, ss) && name in Labels(b) && MayJump(b, ss, name, soft)
    ensures var cc, to := base + CountClose(b) - CountClose(ss), After(b, name);
            && (cc >= LabelBase(b, name, base) <==> CountClose(to) >= CountClose(ss))
            && (CountClose(to) < CountClose(ss) ==> Len(to) < Len(ss) && soft && OnlyLabels(to))
  {
    var to := After(b, name);
    AfterSuffix(b, name);
    BaseCounts(b, name, base);
    if Len(to) >= Len(ss) {
      SuffixOrder(b, to, ss);
      SuffixLess(to, ss);
    }
  }

  /** goto l; local x <close>; ::l:: */
  function SkipToEnd(): Stmts {
    Cons(Goto("l"), Cons(LocalClose(0), Cons(Label("l"), Nil)))
  }

  /** There the label is reached with nothing open while close_count is 1: "close_count
      equals the length of the run-time stack" is false at a label that ends its block. */
  lemma {:induction false} ShorterAtEnd(w: World, t: WState, f: nat)
    requires t.st.tbc == []
    ensures LegalBody(SkipToEnd()) && LabelBase(SkipToEnd(), "l", 0) == 1
    ensures var r := Exec(w, EmitStmt(Goto("l"), Opened(SkipToEnd(), TOP, 0, ZERO), 0, ZERO).0, t, f);
            r.out == Branches(LDispatch(0)) && 0 in r.s.next && r.s.next[0] == 1 && r.s.st.tbc == []
  {
    var b := SkipToEnd();
    var d := Cons(Label("l"), Nil);
    var c := Cons(LocalClose(0), d);
    assert Labels(d) == {"l"} && Labels(c) == {"l"} && Labels(b) == {"l"};
    assert After(d, "l") == Nil && After(c, "l") == Nil && After(b, "l") == Nil;
    assert CountLabels(d) == 1 && CountLabels(c) == 1;
    assert LabelBase(c, "l", 0) == LabelBase(d, "l", 1) == 1;
    assert DistinctLabels(d) && DistinctLabels(c);
    assert LegalSeq(b, d, false, true) && LegalSeq(b, c, false, true);
    assert SeqGotos(d) == {} && SeqGotos(c) == {};
    assert SegIndex(c, "l") == SegIndex(d, "l") == 1;
    GotoSegRuns(w, 0, 1, t, f);
  }
}
