/** The lowering of Control preserves meaning: the target asks the world the same
    questions in the same order, and ends the same way. */
module ControlSim {
  import opened Options
  import opened Control
  import opened ControlMarks
  import opened ControlDispatch

  // ----- unwinding -----

  lemma {:induction false} UnwindTbc(w: World, st: State, to: nat, err: Option<int>)
    ensures Unwind(w, st, to, err).0.tbc == if |st.tbc| <= to then st.tbc else st.tbc[..to]
    ensures |st.tbc| <= to ==> Unwind(w, st, to, err) == (st, err)
    ensures err.Some? ==> Unwind(w, st, to, err).1.Some?
    decreases |st.tbc|
  {
    if |st.tbc| > to {
      var v, st' := st.tbc[|st.tbc| - 1], st.(tbc := st.tbc[..|st.tbc| - 1]);
      if v == 0 {
        UnwindTbc(w, st', to, err);
      } else {
        var (st'', r) := Ask(w, st', QClose(v, err));
        UnwindTbc(w, st'', to, if r.Raise? then Some(r.e) else err);
      }
    }
  }

  /** Unwinding in two steps is unwinding at once. */
  lemma {:induction false} UnwindCompose(w: World, st: State, a: nat, b: nat, err: Option<int>)
    requires b <= a
    ensures var (s1, e1) := Unwind(w, st, a, err); Unwind(w, s1, b, e1) == Unwind(w, st, b, err)
    decreases |st.tbc|
  {
    if |st.tbc| > a {
      var v, st' := st.tbc[|st.tbc| - 1], st.(tbc := st.tbc[..|st.tbc| - 1]);
      if v == 0 {
        UnwindCompose(w, st', a, b, err);
      } else {
        var (st'', r) := Ask(w, st', QClose(v, err));
        UnwindCompose(w, st'', a, b, if r.Raise? then Some(r.e) else err);
      }
    }
  }

  // ----- what a statement leaves on the to-be-closed stack -----

  /** The entries below `base` are as before; a goto may leave more on top. */
  ghost predicate Above(st: State, base: nat, r: Result) {
    !r.out.Timeout? ==> base <= |st.tbc| && base <= |r.st.tbc| && r.st.tbc[..base] == st.tbc[..base]
  }

  ghost predicate Restores(st: State, r: Result) {
    Above(st, |st.tbc|, r) && (!r.out.Timeout? && !r.out.Jumps? ==> r.st.tbc == st.tbc)
  }

  lemma {:induction false} LeaveRestores(w: World, st: State, r: Result)
    requires Above(st, |st.tbc|, r)
    ensures Restores(st, Leave(w, r, |st.tbc|))
  {
    UnwindTbc(w, r.st, |st.tbc|, if r.out.Error? then Some(r.out.e) else None);
  }

  /** What the catching block leaves of the stack a goto arrives with. */
  lemma {:induction false} CatchFrame(w: World, st: State, r: Result, base: nat, open: nat, kept: nat)
    requires |st.tbc| == base + open && kept <= open && r.out.Jumps? && Above(st, |st.tbc|, r)
    ensures var c := Leave(w, r.(out := Normal), base + kept);
            && (c.out.Normal? || c.out.Error?)
            && |c.st.tbc| == base + kept && c.st.tbc == st.tbc[..base + kept] && c.st.tbc[..base] == st.tbc[..base]
  {
    UnwindTbc(w, r.st, base + kept, None);
    assert r.st.tbc[..base + kept] == r.st.tbc[..|st.tbc|][..base + kept];
    assert st.tbc[..base + kept][..base] == st.tbc[..base];
  }

  lemma {:induction false} InFrame(w: World, b: Stmts, ss: Stmts, base: nat, marks: seq<nat>, st: State, f: nat)
    requires |st.tbc| == base + |marks|
    ensures Above(st, base, ExecIn(w, b, ss, base, marks, st, f))
    decreases f, ss, 1
  {
    match ss
    case Nil =>
    case Cons(Label(_), tl) =>
      if f > 0 { InFrame(w, b, tl, base, marks, st, f - 1); }
    case Cons(LocalClose(k), tl) =>
      var (st', r) := Ask(w, st, QDecl(k));
      if r.Value? {
        var st'' := st'.(tbc := st'.tbc + [r.v]);
        InFrame(w, b, tl, base, marks + [Len(ss)], st'', f);
        assert st''.tbc[..base] == st.tbc[..base];
      }
    case _ => StepFrame(w, b, ss, base, marks, st, f);
  }

  lemma {:induction false} StepFrame(w: World, b: Stmts, ss: Stmts, base: nat, marks: seq<nat>, st: State, f: nat)
    requires |st.tbc| == base + |marks| && ss.Cons? && !ss.hd.Label? && !ss.hd.LocalClose?
    ensures Above(st, base, ExecIn(w, b, ss, base, marks, st, f))
    decreases f, ss, 0
  {
    var all := ExecIn(w, b, ss, base, marks, st, f);
    var r := ExecStmt(w, ss.hd, st, f);
    StmtFrame(w, ss.hd, st, f);
    if r.out.Normal? {
      InFrame(w, b, ss.tl, base, marks, r.st, f);
    } else if r.out.Jumps? && r.out.name in Labels(b) {
      var to := After(b, r.out.name);
      var kept := Kept(marks, Len(to));
      CatchFrame(w, st, r, base, |marks|, kept);
      var c := Leave(w, r.(out := Normal), base + kept);
      if !c.out.Error? && f > 0 {
        InFrame(w, b, to, base, marks[..kept], c.st, f - 1);
      }
    } else {
      assert all == r;
      assert !r.out.Timeout? ==> r.st.tbc[..base] == r.st.tbc[..|st.tbc|][..base];
    }
  }

  /** A block without <close> declarations leaves the stack alone. */
  lemma {:induction false} InFlat(w: World, b: Stmts, ss: Stmts, base: nat, st: State, f: nat)
    requires |st.tbc| == base && IsSuffix(b, ss) && CountClose(b) == 0
    ensures var r := ExecIn(w, b, ss, base, [], st, f); r.out.Normal? ==> r.st.tbc == st.tbc
    decreases f, ss, 1
  {
    if ss.Cons? {
      SuffixTail(b, ss);
      SuffixLess(b, ss);
      if !ss.hd.Label? {
        StepFlat(w, b, ss, base, st, f);
      } else if f > 0 {
        InFlat(w, b, ss.tl, base, st, f - 1);
      }
    }
  }

  lemma {:induction false} StepFlat(w: World, b: Stmts, ss: Stmts, base: nat, st: State, f: nat)
    requires |st.tbc| == base && IsSuffix(b, ss) && CountClose(b) == 0
    requires ss.Cons? && !ss.hd.Label? && !ss.hd.LocalClose? && IsSuffix(b, ss.tl)
    ensures var r := ExecIn(w, b, ss, base, [], st, f); r.out.Normal? ==> r.st.tbc == st.tbc
    decreases f, ss, 0
  {
    var r := ExecStmt(w, ss.hd, st, f);
    StmtFrame(w, ss.hd, st, f);
    if r.out.Normal? {
      InFlat(w, b, ss.tl, base, r.st, f);
    } else if r.out.Jumps? && r.out.name in Labels(b) {
      var to := After(b, r.out.name);
      var none: seq<nat> := [];
      AfterSuffix(b, r.out.name);
      CatchFrame(w, st, r, base, 0, 0);
      var c := Leave(w, r.(out := Normal), base);
      assert Kept(none, Len(to)) == 0 && none[..0] == none;
      if !c.out.Error? && f > 0 {
        InFlat(w, b, to, base, c.st, f - 1);
        assert ExecIn(w, b, ss, base, none, st, f) == ExecIn(w, b, to, base, none, c.st, f - 1);
      }
    }
  }

  lemma {:induction false} BlockFrame(w: World, b: Stmts, st: State, f: nat)
    ensures Restores(st, ExecBlock(w, b, st, f))
    decreases f, b, 2
  {
    InFrame(w, b, b, |st.tbc|, [], st, f);
    LeaveRestores(w, st, ExecIn(w, b, b, |st.tbc|, [], st, f));
  }

  lemma {:induction false} StmtFrame(w: World, s: Stmt, st: State, f: nat)
    ensures Restores(st, ExecStmt(w, s, st, f))
    decreases f, s, 0
  {
    match s
    case Do(b) => BlockFrame(w, b, st, f);
    case If(k, thn, els) =>
      var (st', r) := Ask(w, st, QCond(k));
      BlockFrame(w, thn, st', f);
      BlockFrame(w, els, st', f);
    case While(k, b) => LoopFrame(w, QCond(k), b, st, f);
    case Repeat(b, k) => RepeatFrame(w, b, k, st, f);
    case ForGen(k, closing, b) =>
      var (st', r) := Ask(w, st, QInit(k, closing));
      if r.Value? {
        var st'' := if closing then st'.(tbc := st'.tbc + [r.v]) else st';
        LoopFrame(w, QNext(k), b, st'', f);
        var c := CatchBreak(ExecLoop(w, QNext(k), b, st'', f));
        assert Above(st, |st.tbc|, c) by {
          assert st''.tbc[..|st.tbc|] == st.tbc;
          if !c.out.Timeout? { assert c.st.tbc[..|st.tbc|] == c.st.tbc[..|st''.tbc|][..|st.tbc|]; }
        }
        LeaveRestores(w, st, c);
      }
    case _ =>
  }

  lemma {:induction false} LoopFrame(w: World, q: Query, b: Stmts, st: State, f: nat)
    ensures Restores(st, ExecLoop(w, q, b, st, f))
    decreases f, b, 3
  {
    var (st', r) := Ask(w, st, q);
    if r.Value? && Truthy(r.v) {
      BlockFrame(w, b, st', f);
      var r := ExecBlock(w, b, st', f);
      if r.out.Normal? && f > 0 { LoopFrame(w, q, b, r.st, f - 1); }
    }
  }

  lemma {:induction false} RepeatFrame(w: World, b: Stmts, k: int, st: State, f: nat)
    ensures Restores(st, ExecRepeat(w, b, k, st, f))
    decreases f, b, 3
  {
    InFrame(w, b, b, |st.tbc|, [], st, f);
    var r := ExecIn(w, b, b, |st.tbc|, [], st, f);
    if !r.out.Normal? {
      LeaveRestores(w, st, r);
    } else {
      var (st', v) := Ask(w, r.st, QCond(k));
      LeaveRestores(w, st, Result(if v.Raise? then Error(v.e) else Normal, st'));
      var c := Leave(w, Result(Normal, st'), |st.tbc|);
      if v.Value? && !c.out.Error? && !Truthy(v.v) && f > 0 { RepeatFrame(w, b, k, c.st, f - 1); }
    }
  }

  // ----- where a goto may go -----

  /** A goto that leaves a statement is one of those written in it. */
  lemma {:induction false} StmtJumps(w: World, s: Stmt, st: State, f: nat)
    ensures var r := ExecStmt(w, s, st, f); r.out.Jumps? ==> r.out.name in Gotos(s)
    decreases f, s, 0
  {
    match s
    case Do(b) => InJumps(w, b, b, |st.tbc|, [], st, f);
    case If(k, thn, els) =>
      var st' := Ask(w, st, QCond(k)).0;
      InJumps(w, thn, thn, |st'.tbc|, [], st', f);
      InJumps(w, els, els, |st'.tbc|, [], st', f);
    case While(k, b) => LoopJumps(w, QCond(k), b, st, f);
    case Repeat(b, k) => RepeatJumps(w, b, k, st, f);
    case ForGen(k, closing, b) =>
      var (st', r) := Ask(w, st, QInit(k, closing));
      if r.Value? {
        LoopJumps(w, QNext(k), b, if closing then st'.(tbc := st'.tbc + [r.v]) else st', f);
      }
    case _ =>
  }

  lemma {:induction false} LoopJumps(w: World, q: Query, b: Stmts, st: State, f: nat)
    ensures var r := ExecLoop(w, q, b, st, f); r.out.Jumps? ==> r.out.name in BlockGotos(b)
    decreases f, b, 4
  {
    var (st', a) := Ask(w, st, q);
    if !a.Raise? && Truthy(a.v) {
      BlockJumps(w, b, st', f);
      var r := ExecBlock(w, b, st', f);
      if r.out.Normal? && f > 0 { LoopJumps(w, q, b, r.st, f - 1); }
    }
  }

  lemma {:induction false} BlockJumps(w: World, b: Stmts, st: State, f: nat)
    ensures var r := ExecBlock(w, b, st, f); r.out.Jumps? ==> r.out.name in BlockGotos(b)
    decreases f, b, 3
  {
    InJumps(w, b, b, |st.tbc|, [], st, f);
  }

  lemma {:induction false} RepeatJumps(w: World, b: Stmts, k: int, st: State, f: nat)
    ensures var r := ExecRepeat(w, b, k, st, f); r.out.Jumps? ==> r.out.name in BlockGotos(b)
    decreases f, b, 4
  {
    InJumps(w, b, b, |st.tbc|, [], st, f);
    var r := ExecIn(w, b, b, |st.tbc|, [], st, f);
    var c := Leave(w, Result(Normal, Ask(w, r.st, QCond(k)).0), |st.tbc|);
    if r.out.Normal? && f > 0 { RepeatJumps(w, b, k, c.st, f - 1); }
  }

  lemma {:induction false} InJumps(w: World, b: Stmts, ss: Stmts, base: nat, marks: seq<nat>, st: State, f: nat)
    requires IsSuffix(b, ss)
    ensures var r := ExecIn(w, b, ss, base, marks, st, f); r.out.Jumps? ==> r.out.name in BlockGotos(b)
    decreases f, ss, 2
  {
    if ss.Cons? {
      SuffixTail(b, ss);
      match ss.hd
      case Label(_) => if f > 0 { InJumps(w, b, ss.tl, base, marks, st, f - 1); }
      case LocalClose(k) =>
        var (st', r) := Ask(w, st, QDecl(k));
        if r.Value? { InJumps(w, b, ss.tl, base, marks + [Len(ss)], st'.(tbc := st'.tbc + [r.v]), f); }
      case _ => StepJumps(w, b, ss, base, marks, st, f);
    }
  }

  lemma {:induction false} StepJumps(w: World, b: Stmts, ss: Stmts, base: nat, marks: seq<nat>, st: State, f: nat)
    requires IsSuffix(b, ss) && ss.Cons? && IsSuffix(b, ss.tl) && !ss.hd.Label? && !ss.hd.LocalClose?
    ensures var r := ExecIn(w, b, ss, base, marks, st, f); r.out.Jumps? ==> r.out.name in BlockGotos(b)
    decreases f, ss, 1
  {
    var r := ExecStmt(w, ss.hd, st, f);
    StmtJumps(w, ss.hd, st, f);
    StmtFollows(w, b, ss, base, marks, st, r, f);
    if r.out.Normal? {
      InJumps(w, b, ss.tl, base, marks, r.st, f);
    } else if r.out.Jumps? {
      SuffixGotos(b, ss);
      if r.out.name in Labels(b) { CaughtJumps(w, b, base, marks, r, f, ss); }
    }
  }

  lemma {:induction false} CaughtJumps(w: World, b: Stmts, base: nat, marks: seq<nat>, r: Result, f: nat, ss: Stmts)
    requires r.out.Jumps? && r.out.name in Labels(b) && IsSuffix(b, ss)
    ensures var c := Caught(w, b, base, marks, r, f); c.out.Jumps? ==> c.out.name in BlockGotos(b)
    decreases f, ss, 0
  {
    var to := After(b, r.out.name);
    var kept := Kept(marks, Len(to));
    AfterSuffix(b, r.out.name);
    if f > 0 { InJumps(w, b, to, base, marks[..kept], Leave(w, r.(out := Normal), base + kept).st, f - 1); }
  }

  /** What follows in a block once one of its statements has ended in r. */
  function Follows(w: World, b: Stmts, ss: Stmts, base: nat, marks: seq<nat>, r: Result, f: nat): Result
    requires ss.Cons?
  {
    if r.out.Normal? then ExecIn(w, b, ss.tl, base, marks, r.st, f)
    else if r.out.Jumps? && r.out.name in Labels(b) then Caught(w, b, base, marks, r, f)
    else r
  }

  lemma {:induction false} StmtFollows(w: World, b: Stmts, ss: Stmts, base: nat, marks: seq<nat>, st: State,
        r: Result, f: nat)
    requires ss.Cons? && !ss.hd.LocalClose? && !ss.hd.Label? && r == ExecStmt(w, ss.hd, st, f)
    ensures ExecIn(w, b, ss, base, marks, st, f) == Follows(w, b, ss, base, marks, r, f)
  {
  }

  lemma {:induction false} SuffixGotos(b: Stmts, ss: Stmts)
    requires IsSuffix(b, ss)
    ensures SeqGotos(ss) <= SeqGotos(b)
    decreases b
  {
    if b != ss { SuffixGotos(b.tl, ss); }
  }

  lemma {:induction false} SuffixLegal(b: Stmts, xs: Stmts, ss: Stmts, inLoop: bool, soft: bool)
    requires IsSuffix(xs, ss) && LegalSeq(b, xs, inLoop, soft)
    ensures LegalSeq(b, ss, inLoop, soft)
    decreases xs
  {
    if xs != ss { SuffixLegal(b, xs.tl, ss, inLoop, soft); }
  }

  // ----- how a run of the target matches a run of the source -----

  /** The target threw; closing everything still open gives what it gives the
      source in error e. */
  ghost predicate Threw(w: World, t: WResult, st: State, e: int) {
    t.out.Throws? && Unwind(w, t.s.st, 0, Some(t.out.e)) == Unwind(w, st, 0, Some(e))
  }

  /** The target has already closed down to the destination of the exit. */
  ghost predicate Exits(w: World, st: State, to: nat, out: WOutcome, t: WResult) {
    var (s1, err) := Unwind(w, st, to, None);
    if err.None? then t.out == out && t.s.st == s1 else Threw(w, t, s1, err.value)
  }

  ghost predicate Starved(t: WResult, slack: nat, tr: seq<Event>) {
    t.out.WTimeout? && slack < MAX_BLOCK_LABELS && t.s.st.tr <= tr
  }

  /** The target, run with `slack` more fuel, against the source. */
  ghost predicate Rel(w: World, env: Env, slack: nat, r: Result, t: WResult) {
    match r.out
    case Normal => t.out.Falls? && t.s.st == r.st
    case Timeout => slack == 0 ==> t.out.WTimeout? && t.s.st.tr <= r.st.tr
    case Error(e) => Threw(w, t, r.st, e) || Starved(t, slack, r.st.tr)
    case Breaks => env.loop.Some? && Exits(w, r.st, env.loop.value.base, Branches(LBrk(env.loop.value.n)), t)
    case Returns => Exits(w, r.st, 0, Leaves, t)
    case Jumps(name) =>
      match Lookup(env.sc, name)
      case None => false
      case Some(d) =>
        && Exits(w, r.st, d.base, Branches(LDispatch(d.bid)), t)
        && (t.out.Branches? ==> d.bid in t.s.next && t.s.next[d.bid] == d.seg)
  }

  /** As Rel, for a block before its scope is left. After a goto to a label that
      ends the block (`soft`), the target may still hold entries open that the
      source has closed: leaving the scope makes up for it. */
  ghost predicate InRel(w: World, env: Env, slack: nat, soft: bool, base: nat, r: Result, t: WResult, done: WOutcome) {
    match r.out
    case Normal =>
      t.out == done && (t.s.st == r.st || (soft && Unwind(w, t.s.st, base, None) == Unwind(w, r.st, base, None)))
    case Error(e) =>
      || Threw(w, t, r.st, e) || Starved(t, slack, r.st.tr)
      || (soft && t.out == done
          && var (s1, err) := Unwind(w, t.s.st, base, None);
             err.Some? && Unwind(w, s1, 0, err) == Unwind(w, r.st, 0, Some(e)))
    case _ => Rel(w, env, slack, r, t)
  }

  ghost predicate Ctx(env: Env, cc: nat, g: Ctr) {
    && (env.loop.Some? ==> env.loop.value.base <= cc && env.loop.value.n < g.n)
    && forall i | 0 <= i < |env.sc| :: env.sc[i].bid < g.id
  }

  predicate Resolved(names: set<string>, sc: Scope) {
    forall name | name in names :: Lookup(sc, name).Some?
  }

  lemma {:induction false} CtxGrown(env: Env, cc: nat, g: Ctr, cc': nat, g': Ctr)
    requires Ctx(env, cc, g) && Grown(g, g') && cc <= cc'
    ensures Ctx(env, cc', g')
  {
  }

  lemma {:induction false} LookupBid(sc: Scope, name: string, id: int)
    requires Lookup(sc, name).Some? && forall i | 0 <= i < |sc| :: sc[i].bid < id
    ensures Lookup(sc, name).value.bid < id
    decreases |sc|
  {
    if name !in Labels(sc[0].b) { LookupBid(sc[1..], name, id); }
  }

  /** Leaving a scope on the way out does not disturb an exit. */
  lemma {:induction false} LeaveExits(w: World, st: State, to: nat, out: WOutcome, t: WResult, h: nat, o: Outcome)
    requires Exits(w, st, to, out, t) && to <= h && (o.Breaks? || o.Returns?)
    ensures var c := Leave(w, Result(o, st), h);
            if c.out.Error? then Threw(w, t, c.st, c.out.e) else c.out == o && Exits(w, c.st, to, out, t)
  {
    UnwindCompose(w, st, h, to, None);
    var (s2, e2) := Unwind(w, st, h, None);
    var (s1, e1) := Unwind(w, st, to, None);
    UnwindTbc(w, s2, to, e2);
    UnwindCompose(w, s2, to, 0, e2);
  }

  lemma {:induction false} LeaveThrew(w: World, t: WResult, st: State, e: int, h: nat)
    requires Threw(w, t, st, e)
    ensures var c := Leave(w, Result(Error(e), st), h); c.out.Error? && Threw(w, t, c.st, c.out.e)
  {
    UnwindTbc(w, st, h, Some(e));
    UnwindCompose(w, st, h, 0, Some(e));
  }

  /** The end of emit_block: close the block's variables. */
  lemma {:induction false} FinishBlock(w: World, env: Env, slack: nat, soft: bool, cc: nat, closes: bool, r: Result,
        t: WResult, f: nat)
    requires InRel(w, env, slack, soft, cc, r, t, Falls) && (soft ==> closes)
    requires !closes && r.out.Normal? ==> |r.st.tbc| <= cc
    requires env.loop.Some? ==> env.loop.value.base <= cc
    ensures Rel(w, env, slack, Leave(w, r, cc),
                if t.out.Falls? then Exec(w, CloseIf(closes, cc, WNil), t.s, f) else t)
  {
    ExecOne(w, WCloseUpto(cc), t.s, f);
    match r.out
    case Normal => UnwindTbc(w, r.st, cc, None);
    case Error(e) =>
      if Threw(w, t, r.st, e) {
        LeaveThrew(w, t, r.st, e, cc);
      } else if Starved(t, slack, r.st.tr) {
        UnwindTbc(w, r.st, cc, Some(e));
        UnwindTrace(w, r.st, cc, Some(e));
      } else {
        UnwindTbc(w, r.st, cc, Some(e));
        UnwindCompose(w, r.st, cc, 0, Some(e));
      }
    case Breaks => LeaveExits(w, r.st, env.loop.value.base, Branches(LBrk(env.loop.value.n)), t, cc, Breaks);
    case Returns => LeaveExits(w, r.st, 0, Leaves, t, cc, Returns);
    case _ =>
  }

  // ----- the simulation -----

  /** What one more turn of the dispatch loop makes of a run of its body. */
  function Turn(w: World, loop: Instr, r: WResult, f: nat): WResult
    requires loop.WLoop?
  {
    if r.out != Branches(loop.l) then r
    else if f == 0 then WResult(WTimeout, r.s)
    else ExecInstr(w, loop, r.s, f - 1)
  }

  lemma {:induction false} LoopTurns(w: World, loop: Instr, s: WState, f: nat)
    requires loop.WLoop?
    ensures ExecInstr(w, loop, s, f) == Turn(w, loop, Exec(w, loop.body, s, f), f)
  {
  }

  lemma {:induction false} SameRel(w: World, env: Env, slack: nat, r: Result, t: WResult, r': Result, t': WResult)
    requires Rel(w, env, slack, r, t) && r' == r && t' == t
    ensures Rel(w, env, slack, r', t')
  {
  }

  lemma {:induction false} BlockIs(w: World, b: Stmts, env: Env, cc: nat, g: Ctr, st: State, t: WState, f: nat, fw: nat)
    ensures ExecBlock(w, b, st, f) == Leave(w, ExecIn(w, b, b, |st.tbc|, [], st, f), |st.tbc|)
    ensures var x := Exec(w, EmitStmts(b, env, cc, g).0, t, fw);
            Exec(w, EmitBlock(b, env, cc, g).0, t, fw)
            == if x.out.Falls? then Exec(w, CloseIf(CountClose(b) > 0, cc, WNil), x.s, fw) else x
  {
    ExecApp(w, EmitStmts(b, env, cc, g).0, CloseIf(CountClose(b) > 0, cc, WNil), t, fw);
  }

  lemma {:induction false} SimBlock(w: World, b: Stmts, env: Env, cc: nat, g: Ctr, soft: bool, st: State, t: WState,
      f: nat, slack: nat)
    requires LegalBlock(b, env.loop.Some?, soft) && Resolved(BlockGotos(b), env.sc) && Ctx(env, cc, g)
    requires |st.tbc| == cc && t.st == st
    ensures Rel(w, env, slack, ExecBlock(w, b, st, f), Exec(w, EmitBlock(b, env, cc, g).0, t, f + slack))
    decreases f, b, 6
  {
    var closes, F := CountClose(b) > 0, f + slack;
    var r, x := ExecIn(w, b, b, cc, [], st, f), Exec(w, EmitStmts(b, env, cc, g).0, t, F);
    SimStmts(w, b, env, cc, g, soft, st, t, f, slack);
    if !closes { InFlat(w, b, b, cc, st, f); }
    FinishBlock(w, env, slack, soft && closes, cc, closes, r, x, F);
    BlockIs(w, b, env, cc, g, st, t, f, F);
    SameRel(w, env, slack, Leave(w, r, cc), if x.out.Falls? then Exec(w, CloseIf(closes, cc, WNil), x.s, F) else x,
            ExecBlock(w, b, st, f), Exec(w, EmitBlock(b, env, cc, g).0, t, F));
  }

  lemma {:induction false} SimSeq(w: World, b: Stmts, ss: Stmts, base: nat, marks: seq<nat>, env: Env, cc: nat,
      g: Ctr, soft: bool, st: State, t: WState, f: nat, slack: nat)
    requires CountLabels(ss) == 0 && Labels(b) == {} && LegalSeq(b, ss, env.loop.Some?, soft)
    requires Resolved(SeqGotos(ss), env.sc) && Ctx(env, cc, g) && |st.tbc| == cc && t.st == st
    ensures Rel(w, env, slack, ExecIn(w, b, ss, base, marks, st, f), Exec(w, EmitSeq(ss, env, cc, g).0, t, f + slack))
    decreases f, ss, 2
  {
    if ss.Cons? {
      var (c, g1) := EmitStmt(ss.hd, env, cc, g);
      ExecApp(w, c, EmitSeq(ss.tl, env, Bump(ss.hd, cc), g1).0, t, f + slack);
      StmtGrows(ss.hd, env, cc, g);
      CtxGrown(env, cc, g, Bump(ss.hd, cc), g1);
      if ss.hd.LocalClose? {
        SeqDecl(w, b, ss, base, marks, env, cc, g, g1, soft, st, t, f, slack);
      } else {
        SeqStmt(w, b, ss, base, marks, env, cc, g, g1, soft, st, t, f, slack);
      }
    }
  }

  /** What runs after the first statement's code. */
  function Rest(w: World, x: WResult, d: Code, f: nat): WResult {
    if x.out.Falls? then Exec(w, d, x.s, f) else x
  }

  lemma {:induction false} SeqDecl(w: World, b: Stmts, ss: Stmts, base: nat, marks: seq<nat>, env: Env, cc: nat,
      g: Ctr, g1: Ctr, soft: bool, st: State, t: WState, f: nat, slack: nat)
    requires ss.Cons? && ss.hd.LocalClose? && CountLabels(ss) == 0 && Labels(b) == {}
      && LegalSeq(b, ss, env.loop.Some?, soft)
    requires Resolved(SeqGotos(ss), env.sc) && Ctx(env, cc + 1, g1) && |st.tbc| == cc && t.st == st
      && g1 == EmitStmt(ss.hd, env, cc, g).1
    ensures Rel(w, env, slack, ExecIn(w, b, ss, base, marks, st, f),
                Rest(w, Exec(w, EmitStmt(ss.hd, env, cc, g).0, t, f + slack), EmitSeq(ss.tl, env, cc + 1, g1).0,
                  f + slack))
    decreases f, ss, 1
  {
    var (st', r) := Ask(w, st, QDecl(ss.hd.k));
    ExecOne(w, WPush(QDecl(ss.hd.k)), t, f + slack);
    if r.Value? {
      var st'' := st'.(tbc := st'.tbc + [r.v]);
      SimSeq(w, b, ss.tl, base, marks + [Len(ss)], env, cc + 1, g1, soft, st'', t.(st := st''), f, slack);
    }
  }

  lemma {:induction false} SeqStmt(w: World, b: Stmts, ss: Stmts, base: nat, marks: seq<nat>, env: Env, cc: nat,
      g: Ctr, g1: Ctr, soft: bool, st: State, t: WState, f: nat, slack: nat)
    requires ss.Cons? && !ss.hd.LocalClose? && CountLabels(ss) == 0 && Labels(b) == {}
      && LegalSeq(b, ss, env.loop.Some?, soft)
    requires Resolved(SeqGotos(ss), env.sc) && Ctx(env, cc, g) && Ctx(env, cc, g1) && |st.tbc| == cc && t.st == st
    requires g1 == EmitStmt(ss.hd, env, cc, g).1
    ensures Rel(w, env, slack, ExecIn(w, b, ss, base, marks, st, f),
                Rest(w, Exec(w, EmitStmt(ss.hd, env, cc, g).0, t, f + slack), EmitSeq(ss.tl, env, cc, g1).0, f + slack))
    decreases f, ss, 1
  {
    var r, x := ExecStmt(w, ss.hd, st, f), Exec(w, EmitStmt(ss.hd, env, cc, g).0, t, f + slack);
    SimStmt(w, ss.hd, env, cc, g, st, t, f, slack);
    StmtFrame(w, ss.hd, st, f);
    StmtIs(w, b, ss, base, marks, st, f);
    if r.out.Normal? {
      SimSeq(w, b, ss.tl, base, marks, env, cc, g1, soft, r.st, x.s, f, slack);
    }
  }

  lemma {:induction false} StmtIs(w: World, b: Stmts, ss: Stmts, base: nat, marks: seq<nat>, st: State, f: nat)
    requires ss.Cons? && !ss.hd.LocalClose? && !ss.hd.Label?
    ensures var r := ExecStmt(w, ss.hd, st, f);
            && (r.out.Normal? ==> ExecIn(w, b, ss, base, marks, st, f) == ExecIn(w, b, ss.tl, base, marks, r.st, f))
            && (!r.out.Normal? && !(r.out.Jumps? && r.out.name in Labels(b))
              ==> ExecIn(w, b, ss, base, marks, st, f) == r)
  {
  }

  lemma {:induction false} NoLabels(b: Stmts)
    requires CountLabels(b) == 0
    ensures Labels(b) == {}
    decreases b
  {
    if b.Cons? { NoLabels(b.tl); }
  }

  lemma {:induction false} SimStmts(w: World, b: Stmts, env: Env, cc: nat, g: Ctr, soft: bool, st: State, t: WState,
      f: nat, slack: nat)
    requires LegalBlock(b, env.loop.Some?, soft) && Resolved(BlockGotos(b), env.sc) && Ctx(env, cc, g)
    requires |st.tbc| == cc && t.st == st
    ensures InRel(w, env, slack, soft && CountClose(b) > 0, cc,
                  ExecIn(w, b, b, cc, [], st, f), Exec(w, EmitStmts(b, env, cc, g).0, t, f + slack), Falls)
    decreases f, b, 5
  {
    if CountLabels(b) == 0 {
      NoLabels(b);
      SimSeq(w, b, b, cc, [], env, cc, g, soft, st, t, f, slack);
    } else {
      var F, t' := f + slack, t.(next := t.next[g.id := 0]);
      OpenedCtx(b, env, cc, g);
      SimSeg(w, b, env, cc, g, Begin(b, cc, g), 0, [], soft, st, t', f, slack);
      LabelledRuns(w, b, env, cc, g, t, F);
      ExitCaught(w, env, slack, soft && CountClose(b) > 0, cc, ExecIn(w, b, b, cc, [], st, f),
        SegRun(w, b, env, cc, g, Begin(b, cc, g), 0, t', F), g.id, Exec(w, EmitStmts(b, env, cc, g).0, t, F));
    }
  }

  /** A labelled block is its first segment, run inside the dispatch loop. */
  lemma {:induction false} LabelledRuns(w: World, b: Stmts, env: Env, cc: nat, g: Ctr, t: WState, f: nat)
    requires CountLabels(b) > 0
    ensures Exec(w, EmitStmts(b, env, cc, g).0, t, f)
      == CatchBranch(SegRun(w, b, env, cc, g, Begin(b, cc, g), 0, t.(next := t.next[g.id := 0]), f), LExit(g.id))
  {
    var t' := t.(next := t.next[g.id := 0]);
    BodyRuns(w, b, env, cc, g, t', f, 0);
    LoopTurns(w, Dispatcher(b, env, cc, g), t', f);
    DispatchRuns(w, g.id, Dispatcher(b, env, cc, g), t, f);
  }

  lemma {:induction false} ExitCaught(w: World, env: Env, slack: nat, soft: bool, base: nat, r: Result, t: WResult,
        id: int, t': WResult)
    requires InRel(w, env, slack, soft, base, r, t, Branches(LExit(id))) && t' == CatchBranch(t, LExit(id))
    ensures InRel(w, env, slack, soft, base, r, t', Falls)
  {
  }

  /** The dispatched block: its own gotos see its labels first. */
  lemma {:induction false} OpenedCtx(b: Stmts, env: Env, cc: nat, g: Ctr)
    requires Ctx(env, cc, g) && CountLabels(b) > 0
    ensures Ctx(Opened(b, env, cc, g), cc, Numbered(b, g))
    ensures forall name | name !in Labels(b) :: Lookup(Opened(b, env, cc, g).sc, name) == Lookup(env.sc, name)
    ensures Resolved(BlockGotos(b), env.sc) ==> Resolved(SeqGotos(b), Opened(b, env, cc, g).sc)
  {
    var sc := Opened(b, env, cc, g).sc;
    assert sc[1..] == env.sc;
  }

  lemma {:induction false} DispatchRuns(w: World, bid: int, loop: Instr, t: WState, f: nat)
    ensures var c := WCons(WSetNext(bid, 0), One(WBlock(LExit(bid), One(loop))));
            Exec(w, c, t, f) == CatchBranch(ExecInstr(w, loop, t.(next := t.next[bid := 0]), f), LExit(bid))
  {
    var t' := t.(next := t.next[bid := 0]);
    ExecCons(w, WSetNext(bid, 0), One(WBlock(LExit(bid), One(loop))), t, f);
    ExecOne(w, WBlock(LExit(bid), One(loop)), t', f);
    ExecOne(w, loop, t', f);
  }

  /** p is a place of block b in segment k: walking on from it meets the same
      segments as walking from the block's start. */
  ghost predicate InSegment(b: Stmts, env: Env, cc: nat, g: Ctr, p: Place, k: nat) {
    var e, n := Opened(b, env, cc, g), CountLabels(b);
    && IsSuffix(b, p.ss) && k + CountLabels(p.ss) == n && Grown(Numbered(b, g), p.g)
    && p.cc == cc + |FullMarks(b, p.ss)|
    && forall j | k < j <= n :: SegAt(Begin(b, cc, g), e, 0, j) == SegAt(p, e, k, j)
  }

  lemma {:induction false} NextPlace(b: Stmts, env: Env, cc: nat, g: Ctr, p: Place, k: nat)
    requires InSegment(b, env, cc, g, p, k) && p.ss.Cons?
    ensures p.ss.hd.Label? ==> InSegment(b, env, cc, g, p.(ss := p.ss.tl), k + 1)
    ensures p.ss.hd.Label? ==> SegAt(Begin(b, cc, g), Opened(b, env, cc, g), 0, k + 1) == p.(ss := p.ss.tl)
    ensures !p.ss.hd.Label? ==> InSegment(b, env, cc, g, Past(p, Opened(b, env, cc, g)), k)
  {
    SuffixTail(b, p.ss);
    MarksStep(b, p.ss);
    StmtGrows(p.ss.hd, Opened(b, env, cc, g), p.cc, p.g);
    if p.ss.hd.Label? {
      var e, q := Opened(b, env, cc, g), p.(ss := p.ss.tl);
      assert SegAt(p, e, k, k + 1) == q;
      forall j | k + 1 < j <= CountLabels(b) ensures SegAt(Begin(b, cc, g), e, 0, j) == SegAt(q, e, k + 1, j) {
        assert SegAt(p, e, k, j) == SegAt(q, e, k + 1, j);
      }
    }
  }

  /** The place a label's segment begins at. */
  lemma {:induction false} LabelPlace(b: Stmts, env: Env, cc: nat, g: Ctr, name: string)
    requires name in Labels(b)
    ensures SegIndex(b, name) <= CountLabels(b)
    ensures var e, j := Opened(b, env, cc, g), SegIndex(b, name);
            var p := SegAt(Begin(b, cc, g), e, 0, j);
            p.ss == After(b, name) && InSegment(b, env, cc, g, p, j)
  {
    var e, j := Opened(b, env, cc, g), SegIndex(b, name);
    SegOfLabel(Begin(b, cc, g), e, 0, name);
    AfterSuffix(b, name);
    BaseCounts(b, name, cc);
    MarksCount(b, After(b, name));
    var p := SegAt(Begin(b, cc, g), e, 0, j);
    LabelsAfter(Begin(b, cc, g), e, 0, j);
    forall i | j < i <= CountLabels(b) ensures SegAt(Begin(b, cc, g), e, 0, i) == SegAt(p, e, j, i) {
      SegAtTwice(Begin(b, cc, g), e, 0, j, i);
    }
  }

  lemma {:induction false} SegAtTwice(p: Place, e: Env, k: nat, j: nat, i: nat)
    requires k <= j <= i <= k + CountLabels(p.ss)
    ensures CountLabels(SegAt(p, e, k, j).ss) + j == CountLabels(p.ss) + k
    ensures SegAt(p, e, k, i) == SegAt(SegAt(p, e, k, j), e, j, i)
    decreases p.ss
  {
    if j > k {
      if p.ss.hd.Label? {
        SegAtTwice(p.(ss := p.ss.tl), e, k + 1, j, i);
      } else {
        SegAtTwice(Past(p, e), e, k, j, i);
      }
    }
  }

  lemma {:induction false} LabelsAfter(p: Place, e: Env, k: nat, j: nat)
    requires k <= j <= k + CountLabels(p.ss)
    ensures CountLabels(SegAt(p, e, k, j).ss) + j == CountLabels(p.ss) + k
  {
    SegAtTwice(p, e, k, j, j);
  }

  function Dispatcher(b: Stmts, env: Env, cc: nat, g: Ctr): (loop: Instr)
    ensures loop.WLoop?
  {
    WLoop(LDispatch(g.id), BodyOf(b, env, cc, g))
  }

  /** The rest of segment k from p, and what follows it through the dispatch loop. */
  function SegRun(w: World, b: Stmts, env: Env, cc: nat, g: Ctr, p: Place, k: nat, t: WState, f: nat): WResult {
    Turn(w, Dispatcher(b, env, cc, g), Exec(w, EmitSeg(p.ss, g.id, k, Opened(b, env, cc, g), p.cc, p.g), t, f), f)
  }

  ghost predicate SegReady(b: Stmts, env: Env, cc: nat, g: Ctr, p: Place, k: nat, marks: seq<nat>, soft: bool,
      st: State, t: WState) {
    && CountLabels(b) > 0 && LegalBlock(b, env.loop.Some?, soft) && LegalSeq(b, p.ss, env.loop.Some?, soft)
    && Ctx(env, cc, g) && Resolved(BlockGotos(b), env.sc) && Resolved(SeqGotos(p.ss), Opened(b, env, cc, g).sc)
    && InSegment(b, env, cc, g, p, k) && marks == FullMarks(b, p.ss) && |st.tbc| == p.cc && t.st == st
  }

  lemma {:induction false} SimSeg(w: World, b: Stmts, env: Env, cc: nat, g: Ctr, p: Place, k: nat, marks: seq<nat>,
      soft: bool, st: State, t: WState, f: nat, slack: nat)
    requires SegReady(b, env, cc, g, p, k, marks, soft, st, t)
    ensures InRel(w, env, slack, soft && CountClose(b) > 0, cc, ExecIn(w, b, p.ss, cc, marks, st, f),
                  SegRun(w, b, env, cc, g, p, k, t, f + slack), Branches(LExit(g.id)))
    decreases f, p.ss, 4
  {
    match p.ss
    case Nil => ExecOne(w, WBr(LExit(g.id)), t, f + slack);
    case Cons(Label(_), tl) => SegLabel(w, b, env, cc, g, p, k, marks, soft, st, t, f, slack);
    case Cons(LocalClose(kk), tl) => SegDecl(w, b, env, cc, g, p, k, marks, soft, st, t, f, slack);
    case Cons(s, tl) => SegStmt(w, b, env, cc, g, p, k, marks, soft, st, t, f, slack);
  }

  lemma {:induction false} SegLabel(w: World, b: Stmts, env: Env, cc: nat, g: Ctr, p: Place, k: nat,
      marks: seq<nat>, soft: bool, st: State, t: WState, f: nat, slack: nat)
    requires SegReady(b, env, cc, g, p, k, marks, soft, st, t) && p.ss.Cons? && p.ss.hd.Label?
    ensures InRel(w, env, slack, soft && CountClose(b) > 0, cc, ExecIn(w, b, p.ss, cc, marks, st, f),
                  SegRun(w, b, env, cc, g, p, k, t, f + slack), Branches(LExit(g.id)))
    decreases f, p.ss, 3
  {
    NextPlace(b, env, cc, g, p, k);
    MarksStep(b, p.ss);
    LabelTurns(w, b, env, cc, g, p, k, t, f + slack);
    if f > 0 {
      SimSeg(w, b, env, cc, g, p.(ss := p.ss.tl), k + 1, marks, soft, st, t.(next := t.next[g.id := k + 1]), f - 1,
        slack);
    }
  }

  /** Falling into a label goes once round the dispatch loop. */
  lemma {:induction false} LabelTurns(w: World, b: Stmts, env: Env, cc: nat, g: Ctr, p: Place, k: nat, t: WState,
        f: nat)
    requires InSegment(b, env, cc, g, p, k) && p.ss.Cons? && p.ss.hd.Label?
    ensures var t', q := t.(next := t.next[g.id := k + 1]), p.(ss := p.ss.tl);
            && InSegment(b, env, cc, g, q, k + 1)
            && SegRun(w, b, env, cc, g, p, k, t, f)
               == if f == 0 then WResult(WTimeout, t') else SegRun(w, b, env, cc, g, q, k + 1, t', f - 1)
  {
    NextPlace(b, env, cc, g, p, k);
    GotoSegRuns(w, g.id, k + 1, t, f);
    if f > 0 {
      var t' := t.(next := t.next[g.id := k + 1]);
      BodyRuns(w, b, env, cc, g, t', f - 1, k + 1);
      LoopTurns(w, Dispatcher(b, env, cc, g), t', f - 1);
    }
  }

  lemma {:induction false} SegDecl(w: World, b: Stmts, env: Env, cc: nat, g: Ctr, p: Place, k: nat, marks: seq<nat>,
      soft: bool, st: State, t: WState, f: nat, slack: nat)
    requires SegReady(b, env, cc, g, p, k, marks, soft, st, t) && p.ss.Cons? && p.ss.hd.LocalClose?
    ensures InRel(w, env, slack, soft && CountClose(b) > 0, cc, ExecIn(w, b, p.ss, cc, marks, st, f),
                  SegRun(w, b, env, cc, g, p, k, t, f + slack), Branches(LExit(g.id)))
    decreases f, p.ss, 3
  {
    NextPlace(b, env, cc, g, p, k);
    MarksStep(b, p.ss);
    var q, kk := Past(p, Opened(b, env, cc, g)), p.ss.hd.k;
    var (st', r) := Ask(w, st, QDecl(kk));
    ExecApp(w, One(WPush(QDecl(kk))), EmitSeg(q.ss, g.id, k, Opened(b, env, cc, g), q.cc, q.g), t, f + slack);
    ExecOne(w, WPush(QDecl(kk)), t, f + slack);
    if r.Value? {
      var st'' := st'.(tbc := st'.tbc + [r.v]);
      SimSeg(w, b, env, cc, g, q, k, marks + [Len(p.ss)], soft, st'', t.(st := st''), f, slack);
    }
  }

  lemma {:induction false} SegStmt(w: World, b: Stmts, env: Env, cc: nat, g: Ctr, p: Place, k: nat, marks: seq<nat>,
      soft: bool, st: State, t: WState, f: nat, slack: nat)
    requires SegReady(b, env, cc, g, p, k, marks, soft, st, t) && p.ss.Cons? && !p.ss.hd.Label? && !p.ss.hd.LocalClose?
    ensures InRel(w, env, slack, soft && CountClose(b) > 0, cc, ExecIn(w, b, p.ss, cc, marks, st, f),
                  SegRun(w, b, env, cc, g, p, k, t, f + slack), Branches(LExit(g.id)))
    decreases f, p.ss, 3
  {
    var r, x := SegStep(w, b, env, cc, g, p, k, marks, soft, st, t, f, slack);
    SegFollows(w, b, env, cc, g, p, k, marks, soft, st, t, r, x, f, slack);
  }

  /** The statement a segment goes on with ends in r, its code in x. */
  lemma {:induction false} SegStep(w: World, b: Stmts, env: Env, cc: nat, g: Ctr, p: Place, k: nat, marks: seq<nat>,
      soft: bool, st: State, t: WState, f: nat, slack: nat)
      returns (r: Result, x: WResult)
    requires SegReady(b, env, cc, g, p, k, marks, soft, st, t) && p.ss.Cons? && !p.ss.hd.Label? && !p.ss.hd.LocalClose?
    ensures Rel(w, Opened(b, env, cc, g), slack, r, x) && Above(st, |st.tbc|, r)
    ensures r.out.Normal? ==> |r.st.tbc| == |st.tbc|
    ensures r.out.Jumps? ==> r.out.name in Gotos(p.ss.hd)
    ensures ExecIn(w, b, p.ss, cc, marks, st, f) == Follows(w, b, p.ss, cc, marks, r, f)
    ensures SegRun(w, b, env, cc, g, p, k, t, f + slack) == SegRest(w, b, env, cc, g, p, k, x, f + slack)
    decreases f, p.ss, 2
  {
    r, x := SegSim(w, b, env, cc, g, p, k, marks, soft, st, t, f, slack);
    StmtFollows(w, b, p.ss, cc, marks, st, r, f);
    SegSplits(w, b, env, cc, g, p, k, t, x, f + slack);
  }

  lemma {:induction false} SegSim(w: World, b: Stmts, env: Env, cc: nat, g: Ctr, p: Place, k: nat, marks: seq<nat>,
      soft: bool, st: State, t: WState, f: nat, slack: nat)
      returns (r: Result, x: WResult)
    requires SegReady(b, env, cc, g, p, k, marks, soft, st, t) && p.ss.Cons? && !p.ss.hd.Label? && !p.ss.hd.LocalClose?
    ensures r == ExecStmt(w, p.ss.hd, st, f)
    ensures x == Exec(w, EmitStmt(p.ss.hd, Opened(b, env, cc, g), p.cc, p.g).0, t, f + slack)
    ensures Rel(w, Opened(b, env, cc, g), slack, r, x) && Above(st, |st.tbc|, r)
    ensures r.out.Normal? ==> |r.st.tbc| == |st.tbc|
    ensures r.out.Jumps? ==> r.out.name in Gotos(p.ss.hd)
    decreases f, p.ss, 1
  {
    var e, s := Opened(b, env, cc, g), p.ss.hd;
    r, x := ExecStmt(w, s, st, f), Exec(w, EmitStmt(s, e, p.cc, p.g).0, t, f + slack);
    SegLegal(b, env, cc, g, p, k, marks, soft, st, t);
    SimStmt(w, s, e, p.cc, p.g, st, t, f, slack);
    StmtFrame(w, s, st, f);
    StmtJumps(w, s, st, f);
  }

  lemma {:induction false} SegLegal(b: Stmts, env: Env, cc: nat, g: Ctr, p: Place, k: nat, marks: seq<nat>, soft: bool,
      st: State, t: WState)
    requires SegReady(b, env, cc, g, p, k, marks, soft, st, t) && p.ss.Cons?
    ensures var e := Opened(b, env, cc, g);
            LegalStmt(p.ss.hd, e.loop.Some?) && Resolved(Gotos(p.ss.hd), e.sc) && Ctx(e, p.cc, p.g)
    ensures |st.tbc| == p.cc && t.st == st
  {
    OpenedCtx(b, env, cc, g);
    CtxGrown(Opened(b, env, cc, g), cc, Numbered(b, g), p.cc, p.g);
  }

  /** The rest of a segment once the code of its next statement has ended in x. */
  function SegRest(w: World, b: Stmts, env: Env, cc: nat, g: Ctr, p: Place, k: nat, x: WResult, f: nat): WResult
    requires p.ss.Cons?
  {
    var e, q := Opened(b, env, cc, g), Past(p, Opened(b, env, cc, g));
    Turn(w, Dispatcher(b, env, cc, g), Rest(w, x, EmitSeg(q.ss, g.id, k, e, q.cc, q.g), f), f)
  }

  lemma {:induction false} SegSplits(w: World, b: Stmts, env: Env, cc: nat, g: Ctr, p: Place, k: nat, t: WState,
        x: WResult, f: nat)
    requires p.ss.Cons? && !p.ss.hd.Label?
    requires x == Exec(w, EmitStmt(p.ss.hd, Opened(b, env, cc, g), p.cc, p.g).0, t, f)
    ensures SegRun(w, b, env, cc, g, p, k, t, f) == SegRest(w, b, env, cc, g, p, k, x, f)
  {
    var e, q := Opened(b, env, cc, g), Past(p, Opened(b, env, cc, g));
    ExecApp(w, EmitStmt(p.ss.hd, e, p.cc, p.g).0, EmitSeg(q.ss, g.id, k, e, q.cc, q.g), t, f);
  }

  /** What follows in a segment once a statement has ended in r, its code in x. */
  lemma {:induction false} SegFollows(w: World, b: Stmts, env: Env, cc: nat, g: Ctr, p: Place, k: nat,
      marks: seq<nat>, soft: bool, st: State, t: WState, r: Result, x: WResult, f: nat, slack: nat)
    requires SegReady(b, env, cc, g, p, k, marks, soft, st, t) && p.ss.Cons? && !p.ss.hd.Label? && !p.ss.hd.LocalClose?
    requires Rel(w, Opened(b, env, cc, g), slack, r, x) && Above(st, |st.tbc|, r)
    requires r.out.Normal? ==> |r.st.tbc| == |st.tbc|
    requires r.out.Jumps? ==> r.out.name in Gotos(p.ss.hd)
    ensures InRel(w, env, slack, soft && CountClose(b) > 0, cc, Follows(w, b, p.ss, cc, marks, r, f),
                  SegRest(w, b, env, cc, g, p, k, x, f + slack), Branches(LExit(g.id)))
    decreases f, p.ss, 2
  {
    if r.out.Normal? {
      ReadyNext(b, env, cc, g, p, k, marks, soft, st, t, r.st, x.s);
      SimSeg(w, b, env, cc, g, Past(p, Opened(b, env, cc, g)), k, marks, soft, r.st, x.s, f, slack);
    } else if r.out.Jumps? && r.out.name in Labels(b) {
      SegJump(w, b, env, cc, g, p, marks, soft, k, st, t, r, x, f, slack);
    } else {
      PassTurn(w, b, env, cc, g, slack, r, x, f + slack);
    }
  }

  lemma {:induction false} ReadyNext(b: Stmts, env: Env, cc: nat, g: Ctr, p: Place, k: nat, marks: seq<nat>, soft: bool,
                  st: State, t: WState, st': State, t': WState)
    requires SegReady(b, env, cc, g, p, k, marks, soft, st, t) && p.ss.Cons? && !p.ss.hd.Label? && !p.ss.hd.LocalClose?
    requires |st'.tbc| == |st.tbc| && t'.st == st'
    ensures SegReady(b, env, cc, g, Past(p, Opened(b, env, cc, g)), k, marks, soft, st', t')
  {
    NextPlace(b, env, cc, g, p, k);
    MarksStep(b, p.ss);
  }

  /** What is not a jump to one of the block's own labels leaves the dispatch loop. */
  lemma {:induction false} PassTurn(w: World, b: Stmts, env: Env, cc: nat, g: Ctr, slack: nat, r: Result, x: WResult,
        f: nat)
    requires Ctx(env, cc, g) && CountLabels(b) > 0 && Rel(w, Opened(b, env, cc, g), slack, r, x)
    requires !r.out.Normal? && !(r.out.Jumps? && r.out.name in Labels(b))
    ensures Rel(w, env, slack, r, Turn(w, Dispatcher(b, env, cc, g), x, f))
  {
    OpenedCtx(b, env, cc, g);
    if r.out.Jumps? { LookupBid(env.sc, r.out.name, g.id); }
  }

  /** A jump to one of the block's labels. */
  lemma {:induction false} SegJump(w: World, b: Stmts, env: Env, cc: nat, g: Ctr, p: Place, marks: seq<nat>,
      soft: bool, k: nat, st: State, t: WState, r: Result, x: WResult, f: nat, slack: nat)
    requires SegReady(b, env, cc, g, p, k, marks, soft, st, t)
    requires r.out.Jumps? && r.out.name in Labels(b) && MayJump(b, p.ss, r.out.name, soft)
    requires Rel(w, Opened(b, env, cc, g), slack, r, x) && Above(st, |st.tbc|, r)
    ensures InRel(w, env, slack, soft && CountClose(b) > 0, cc, Caught(w, b, cc, marks, r, f),
                  Turn(w, Dispatcher(b, env, cc, g), x, f + slack), Branches(LExit(g.id)))
    decreases f, p.ss, 1
  {
    var name, to := r.out.name, After(b, r.out.name);
    AfterSuffix(b, name);
    BaseCounts(b, name, cc);
    MarksCount(b, p.ss);
    MarksCount(b, to);
    if Len(to) < Len(p.ss) && CountClose(to) != CountClose(p.ss) {
      KeptForward(b, p.ss, to);
      SoftJump(w, b, env, cc, g, marks, r, x, f, slack);
    } else {
      if Len(to) >= Len(p.ss) {
        KeptBackward(b, p.ss, to);
      } else {
        KeptForward(b, p.ss, to);
        assert marks[..|marks|] == marks;
      }
      JumpBack(w, b, p.ss, env, cc, g, marks, soft, st, r, x, f, slack);
    }
  }

  lemma {:induction false} JumpBack(w: World, b: Stmts, ss: Stmts, env: Env, cc: nat, g: Ctr, marks: seq<nat>,
      soft: bool, st: State, r: Result, x: WResult, f: nat, slack: nat)
    requires CountLabels(b) > 0 && LegalBlock(b, env.loop.Some?, soft) && Ctx(env, cc, g)
      && Resolved(BlockGotos(b), env.sc)
    requires r.out.Jumps? && r.out.name in Labels(b) && |st.tbc| == cc + |marks|
    requires Rel(w, Opened(b, env, cc, g), slack, r, x) && Above(st, |st.tbc|, r)
    requires var to := After(b, r.out.name);
             var kept := Kept(marks, Len(to));
             marks[..kept] == FullMarks(b, to) && LabelBase(b, r.out.name, cc) == cc + kept
    ensures InRel(w, env, slack, soft && CountClose(b) > 0, cc, Caught(w, b, cc, marks, r, f),
                  Turn(w, Dispatcher(b, env, cc, g), x, f + slack), Branches(LExit(g.id)))
    decreases f, ss, 0
  {
    var name, to := r.out.name, After(b, r.out.name);
    var c := HardJump(w, b, env, cc, g, marks, soft, st, r, x, f, slack);
    if c.Some? && f > 0 {
      var q := SegAt(Begin(b, cc, g), Opened(b, env, cc, g), 0, SegIndex(b, name));
      SimSeg(w, b, env, cc, g, q, SegIndex(b, name), FullMarks(b, to), soft, c.value, x.s, f - 1, slack);
    }
  }

  /** The target has closed exactly what the source has: it goes on from where the
      source goes on. */
  lemma {:induction false} HardJump(w: World, b: Stmts, env: Env, cc: nat, g: Ctr, marks: seq<nat>, soft: bool,
                 st: State, r: Result, x: WResult, f: nat, slack: nat)
    returns (closed: Option<State>)
    requires CountLabels(b) > 0 && LegalBlock(b, env.loop.Some?, soft) && Ctx(env, cc, g)
      && Resolved(BlockGotos(b), env.sc)
    requires r.out.Jumps? && r.out.name in Labels(b) && |st.tbc| == cc + |marks|
    requires Rel(w, Opened(b, env, cc, g), slack, r, x) && Above(st, |st.tbc|, r)
    requires var to := After(b, r.out.name);
             var kept := Kept(marks, Len(to));
             marks[..kept] == FullMarks(b, to) && LabelBase(b, r.out.name, cc) == cc + kept
    ensures var name, to, F := r.out.name, After(b, r.out.name), f + slack;
            var src, tgt := Caught(w, b, cc, marks, r, f), Turn(w, Dispatcher(b, env, cc, g), x, F);
            if closed.None? || f == 0
            then InRel(w, env, slack, soft && CountClose(b) > 0, cc, src, tgt, Branches(LExit(g.id)))
            else
              var j := SegIndex(b, name);
              && j <= CountLabels(b)
              && var q := SegAt(Begin(b, cc, g), Opened(b, env, cc, g), 0, j);
              && q.ss == to && SegReady(b, env, cc, g, q, j, FullMarks(b, to), soft, closed.value, x.s)
              && src == ExecIn(w, b, to, cc, FullMarks(b, to), closed.value, f - 1)
              && tgt == SegRun(w, b, env, cc, g, q, j, x.s, F - 1)
  {
    var (s1, err) := Unwind(w, r.st, LabelBase(b, r.out.name, cc), None);
    closed := if err.None? then Some(s1) else None;
    CatchFrame(w, st, r, cc, |marks|, Kept(marks, Len(After(b, r.out.name))));
    if err.None? && f > 0 {
      GoesOn(w, b, env, cc, g, marks, r, x, s1, f, slack);
      ReadyThere(b, env, cc, g, r.out.name, soft, s1, x.s);
    }
  }

  /** The dispatch loop turns to the label's segment. */
  lemma {:induction false} GoesOn(w: World, b: Stmts, env: Env, cc: nat, g: Ctr, marks: seq<nat>, r: Result,
        x: WResult, s1: State,
      f: nat, slack: nat)
    requires CountLabels(b) > 0 && CountLabels(b) < MAX_BLOCK_LABELS && r.out.Jumps? && r.out.name in Labels(b) && f > 0
    requires Rel(w, Opened(b, env, cc, g), slack, r, x)
      && Unwind(w, r.st, LabelBase(b, r.out.name, cc), None) == (s1, None)
    requires var to := After(b, r.out.name);
             var kept := Kept(marks, Len(to));
             marks[..kept] == FullMarks(b, to) && LabelBase(b, r.out.name, cc) == cc + kept
    ensures x.s.st == s1 && g.id in x.s.next && x.s.next[g.id] == SegIndex(b, r.out.name)
    ensures Caught(w, b, cc, marks, r, f)
      == ExecIn(w, b, After(b, r.out.name), cc, FullMarks(b, After(b, r.out.name)), s1, f - 1)
    ensures var j, F := SegIndex(b, r.out.name), f + slack;
            && j <= CountLabels(b)
            && Turn(w, Dispatcher(b, env, cc, g), x, F)
               == SegRun(w, b, env, cc, g, SegAt(Begin(b, cc, g), Opened(b, env, cc, g), 0, j), j, x.s, F - 1)
  {
    LabelPlace(b, env, cc, g, r.out.name);
    BodyRuns(w, b, env, cc, g, x.s, f + slack - 1, SegIndex(b, r.out.name));
    LoopTurns(w, Dispatcher(b, env, cc, g), x.s, f + slack - 1);
  }

  lemma {:induction false} ReadyThere(b: Stmts, env: Env, cc: nat, g: Ctr, name: string, soft: bool, s1: State,
        t: WState)
    requires CountLabels(b) > 0 && LegalBlock(b, env.loop.Some?, soft) && Ctx(env, cc, g)
      && Resolved(BlockGotos(b), env.sc)
    requires name in Labels(b) && t.st == s1 && |s1.tbc| == cc + |FullMarks(b, After(b, name))|
    ensures SegIndex(b, name) <= CountLabels(b)
    ensures var j := SegIndex(b, name);
            var q := SegAt(Begin(b, cc, g), Opened(b, env, cc, g), 0, j);
            q.ss == After(b, name) && SegReady(b, env, cc, g, q, j, FullMarks(b, After(b, name)), soft, s1, t)
  {
    LabelPlace(b, env, cc, g, name);
    OpenedCtx(b, env, cc, g);
    AfterSuffix(b, name);
    SuffixLegal(b, b, After(b, name), env.loop.Some?, soft);
    SuffixGotos(b, After(b, name));
  }

  /** What the target does for a jump to one of the block's own labels. */
  lemma {:induction false} OwnJump(w: World, b: Stmts, env: Env, cc: nat, g: Ctr, r: Result, x: WResult, slack: nat)
    requires r.out.Jumps? && r.out.name in Labels(b) && Rel(w, Opened(b, env, cc, g), slack, r, x)
    ensures Exits(w, r.st, LabelBase(b, r.out.name, cc), Branches(LDispatch(g.id)), x)
    ensures x.out.Branches? ==> g.id in x.s.next && x.s.next[g.id] == SegIndex(b, r.out.name)
  {
  }

  /** The target may have closed less than the source, but only labels follow. */
  lemma {:induction false} SoftJump(w: World, b: Stmts, env: Env, cc: nat, g: Ctr, marks: seq<nat>,
                 r: Result, x: WResult, f: nat, slack: nat)
    requires 0 < CountLabels(b) < MAX_BLOCK_LABELS
    requires r.out.Jumps? && r.out.name in Labels(b) && OnlyLabels(After(b, r.out.name))
    requires Rel(w, Opened(b, env, cc, g), slack, r, x)
    requires Kept(marks, Len(After(b, r.out.name))) == |marks| && cc + |marks| <= LabelBase(b, r.out.name, cc)
    ensures InRel(w, env, slack, true, cc, Caught(w, b, cc, marks, r, f),
                  Turn(w, Dispatcher(b, env, cc, g), x, f + slack), Branches(LExit(g.id)))
  {
    var name, kept := r.out.name, cc + |marks|;
    var (s1, err) := Unwind(w, r.st, LabelBase(b, name, cc), None);
    OwnJump(w, b, env, cc, g, r, x, slack);
    CaughtSoft(w, b, cc, marks, r, f);
    UnwindCompose(w, r.st, LabelBase(b, name, cc), kept, None);
    if err.Some? {
      SoftThrew(w, env, slack, cc, kept, s1, err.value, Caught(w, b, cc, marks, r, f), x, Branches(LExit(g.id)));
      PassThrew(w, Dispatcher(b, env, cc, g), x, f + slack);
    } else {
      WalkTarget(w, b, env, cc, g, name, x.s, f + slack);
      SoftEnd(w, env, slack, cc, kept, s1, Caught(w, b, cc, marks, r, f),
              Turn(w, Dispatcher(b, env, cc, g), x, f + slack), Branches(LExit(g.id)), Len(After(b, name)), f);
    }
  }

  lemma {:induction false} PassThrew(w: World, loop: Instr, x: WResult, f: nat)
    requires x.out.Throws? && loop.WLoop?
    ensures Turn(w, loop, x, f) == x
  {
  }

  lemma {:induction false} SoftThrew(w: World, env: Env, slack: nat, cc: nat, kept: nat, s1: State, e: int,
        c: Result, x: WResult,
      done: WOutcome)
    requires Threw(w, x, s1, e)
    requires var (s2, e2) := Unwind(w, s1, kept, Some(e));
      c.out == (if e2.Some? then Error(e2.value) else c.out) && c.st == s2
    ensures InRel(w, env, slack, true, cc, c, x, done)
  {
    UnwindTbc(w, s1, kept, Some(e));
    UnwindCompose(w, s1, kept, 0, Some(e));
  }

  lemma {:induction false} CaughtSoft(w: World, b: Stmts, cc: nat, marks: seq<nat>, r: Result, f: nat)
    requires r.out.Jumps? && r.out.name in Labels(b) && OnlyLabels(After(b, r.out.name))
    requires Kept(marks, Len(After(b, r.out.name))) == |marks|
    ensures var (st, err) := Unwind(w, r.st, cc + |marks|, None);
            Caught(w, b, cc, marks, r, f)
            == Result(if err.Some? then Error(err.value) else if Len(After(b, r.out.name)) < f then Normal
              else Timeout, st)
  {
    var st := Unwind(w, r.st, cc + |marks|, None).0;
    if f > 0 { WalkSource(w, b, After(b, r.out.name), cc, marks[..|marks|], st, f - 1); }
  }

  /** At the block's end the target, with s1 still open, and the source, closed
      down to `kept`, come to the same once the scope is left. */
  lemma {:induction false} SoftEnd(w: World, env: Env, slack: nat, cc: nat, kept: nat, s1: State, c: Result,
        t: WResult, done: WOutcome,
      n: nat, f: nat)
    requires cc <= kept && n < MAX_BLOCK_LABELS
    requires t.out == (if n < f + slack then done else WTimeout) && t.s.st == s1
    requires var (s2, e2) := Unwind(w, s1, kept, None);
             c == Result(if e2.Some? then Error(e2.value) else if n < f then Normal else Timeout, s2)
    ensures InRel(w, env, slack, true, cc, c, t, done)
  {
    var (s2, e2) := Unwind(w, s1, kept, None);
    UnwindCompose(w, s1, kept, cc, None);
    UnwindCompose(w, s1, kept, 0, None);
    UnwindCompose(w, s1, cc, 0, None);
    UnwindTbc(w, s2, cc, e2);
    UnwindTrace(w, s1, kept, None);
  }

  lemma {:induction false} UnwindTrace(w: World, st: State, to: nat, err: Option<int>)
    ensures st.tr <= Unwind(w, st, to, err).0.tr
    decreases |st.tbc|
  {
    if |st.tbc| > to {
      var v, st' := st.tbc[|st.tbc| - 1], st.(tbc := st.tbc[..|st.tbc| - 1]);
      if v == 0 {
        UnwindTrace(w, st', to, err);
      } else {
        var (st'', r) := Ask(w, st', QClose(v, err));
        UnwindTrace(w, st'', to, if r.Raise? then Some(r.e) else err);
      }
    }
  }

  lemma {:induction false} WalkSource(w: World, b: Stmts, ss: Stmts, base: nat, marks: seq<nat>, st: State, f: nat)
    requires OnlyLabels(ss)
    ensures ExecIn(w, b, ss, base, marks, st, f) == Result(if Len(ss) <= f then Normal else Timeout, st)
    decreases ss
  {
    if ss.Cons? && f > 0 { WalkSource(w, b, ss.tl, base, marks, st, f - 1); }
  }

  /** Through trailing labels only: one turn of the dispatch loop for each. */
  lemma {:induction false} WalkSegs(w: World, b: Stmts, env: Env, cc: nat, g: Ctr, p: Place, k: nat, t: WState, f: nat)
    requires InSegment(b, env, cc, g, p, k) && OnlyLabels(p.ss)
    ensures var r := SegRun(w, b, env, cc, g, p, k, t, f);
            r.out == (if Len(p.ss) <= f then Branches(LExit(g.id)) else WTimeout) && r.s.st == t.st
    decreases p.ss
  {
    if p.ss.Cons? {
      LabelTurns(w, b, env, cc, g, p, k, t, f);
      if f > 0 { WalkSegs(w, b, env, cc, g, p.(ss := p.ss.tl), k + 1, t.(next := t.next[g.id := k + 1]), f - 1); }
    } else {
      ExecOne(w, WBr(LExit(g.id)), t, f);
    }
  }

  lemma {:induction false} WalkTarget(w: World, b: Stmts, env: Env, cc: nat, g: Ctr, name: string, t: WState, f: nat)
    requires CountLabels(b) < MAX_BLOCK_LABELS && name in Labels(b) && OnlyLabels(After(b, name))
    requires g.id in t.next && t.next[g.id] == SegIndex(b, name)
    ensures var n, r := Len(After(b, name)), Turn(w, Dispatcher(b, env, cc, g),
      WResult(Branches(LDispatch(g.id)), t), f);
            r.out == (if n < f then Branches(LExit(g.id)) else WTimeout) && r.s.st == t.st && n < MAX_BLOCK_LABELS
  {
    var to, loop := After(b, name), Dispatcher(b, env, cc, g);
    AfterSuffix(b, name);
    SuffixLess(b, to);
    OnlyLabelsLen(to);
    LabelPlace(b, env, cc, g, name);
    if f > 0 {
      var j := SegIndex(b, name);
      BodyRuns(w, b, env, cc, g, t, f - 1, j);
      LoopTurns(w, loop, t, f - 1);
      WalkSegs(w, b, env, cc, g, SegAt(Begin(b, cc, g), Opened(b, env, cc, g), 0, j), j, t, f - 1);
    }
  }

  /** ExecIn once a statement jumps to one of the block's labels. */
  function Caught(w: World, b: Stmts, base: nat, marks: seq<nat>, r: Result, f: nat): Result
    requires r.out.Jumps? && r.out.name in Labels(b)
  {
    var to := After(b, r.out.name);
    var kept := Kept(marks, Len(to));
    var c := Leave(w, r.(out := Normal), base + kept);
    if c.out.Error? then c
    else if f == 0 then Result(Timeout, c.st)
    else ExecIn(w, b, to, base, marks[..kept], c.st, f - 1)
  }

  lemma {:induction false} SimStmt(w: World, s: Stmt, env: Env, cc: nat, g: Ctr, st: State, t: WState, f: nat,
      slack: nat)
    requires !s.LocalClose? && LegalStmt(s, env.loop.Some?) && Resolved(Gotos(s), env.sc) && Ctx(env, cc, g)
    requires |st.tbc| == cc && t.st == st
    ensures Rel(w, env, slack, ExecStmt(w, s, st, f), Exec(w, EmitStmt(s, env, cc, g).0, t, f + slack))
    decreases f, s, 1
  {
    var F := f + slack;
    match s
    case Act(k) => ExecOne(w, WAsk(QAct(k)), t, F);
    case Label(_) =>
    case Do(b) => SimBlock(w, b, env, cc, g, true, st, t, f, slack);
    case If(_, _, _) => SimIf(w, s, env, cc, g, st, t, f, slack);
    case While(_, _) => SimWhile(w, s, env, cc, g, st, t, f, slack);
    case Repeat(_, _) => SimUntil(w, s, env, cc, g, st, t, f, slack);
    case ForGen(k, closing, b) => SimFor(w, k, closing, b, env, cc, g, st, t, f, slack);
    case _ => SimExit(w, s, env, cc, g, st, t, f, slack);
  }

  lemma {:induction false} SimIf(w: World, s: Stmt, env: Env, cc: nat, g: Ctr, st: State, t: WState, f: nat, slack: nat)
    requires s.If? && LegalStmt(s, env.loop.Some?) && Resolved(Gotos(s), env.sc) && Ctx(env, cc, g) && |st.tbc| == cc
      && t.st == st
    ensures Rel(w, env, slack, ExecStmt(w, s, st, f), Exec(w, EmitStmt(s, env, cc, g).0, t, f + slack))
    decreases f, s, 0
  {
    var F := f + slack;
    var (st', r) := Ask(w, st, QCond(s.k));
    var g0 := g.(n := g.n + 1);
    var (tc, g1) := EmitBlock(s.thn, env, cc, g0);
    var ec := EmitBlock(s.els, env, cc, g1).0;
    BlockGrows(s.thn, env, cc, g0);
    var t' := t.(st := st', flag := r.Value? && Truthy(r.v));
    IfRuns(w, g.n, s.k, tc, ec, t, F);
    if r.Value? {
      if Truthy(r.v) {
        SimBlock(w, s.thn, env, cc, g0, true, st', t', f, slack);
        ExecFree(w, tc, t', F);
        BlockOutward(s.thn, env, cc, g0);
      } else {
        SimBlock(w, s.els, env, cc, g1, true, st', t', f, slack);
        ExecFree(w, ec, t', F);
        BlockOutward(s.els, env, cc, g1);
      }
    }
  }

  lemma {:induction false} SimWhile(w: World, s: Stmt, env: Env, cc: nat, g: Ctr, st: State, t: WState, f: nat,
      slack: nat)
    requires s.While? && LegalStmt(s, env.loop.Some?) && Resolved(Gotos(s), env.sc) && Ctx(env, cc, g)
      && |st.tbc| == cc && t.st == st
    ensures Rel(w, env, slack, ExecStmt(w, s, st, f), Exec(w, EmitStmt(s, env, cc, g).0, t, f + slack))
    decreases f, s, 0
  {
    var g0 := g.(n := g.n + 1);
    var body := Guarded(g.n, QCond(s.k), EmitBlock(s.body, InLoop(env, g.n, cc), cc, g0).0);
    SimLoop(w, QCond(s.k), s.body, env, g.n, cc, cc, g0, st, t, f, slack);
    ShellRuns(w, g.n, body, t, f + slack);
    LoopFrame(w, QCond(s.k), s.body, st, f);
    LeaveLoop(w, env, g.n, cc, slack, ExecLoop(w, QCond(s.k), s.body, st, f), LoopRun(w, g.n, body, t, f + slack));
    EmitWhile(s, env, cc, g);
  }

  lemma {:induction false} EmitWhile(s: Stmt, env: Env, cc: nat, g: Ctr)
    requires s.While?
    ensures EmitStmt(s, env, cc, g).0
            == LoopShell(g.n, Guarded(g.n, QCond(s.k), EmitBlock(s.body, InLoop(env, g.n, cc), cc, g.(n := g.n + 1)).0))
  {
  }

  lemma {:induction false} SimUntil(w: World, s: Stmt, env: Env, cc: nat, g: Ctr, st: State, t: WState, f: nat,
      slack: nat)
    requires s.Repeat? && LegalStmt(s, env.loop.Some?) && Resolved(Gotos(s), env.sc) && Ctx(env, cc, g)
      && |st.tbc| == cc && t.st == st
    ensures Rel(w, env, slack, ExecStmt(w, s, st, f), Exec(w, EmitStmt(s, env, cc, g).0, t, f + slack))
    decreases f, s, 0
  {
    var g0 := g.(n := g.n + 1);
    var body := App(EmitStmts(s.body, InLoop(env, g.n, cc), cc, g0).0, Until(g.n, s.k, CountClose(s.body) > 0, cc));
    SimRepeat(w, s.body, s.k, env, g.n, cc, g0, st, t, f, slack);
    ShellRuns(w, g.n, body, t, f + slack);
    RepeatFrame(w, s.body, s.k, st, f);
    LeaveLoop(w, env, g.n, cc, slack, ExecRepeat(w, s.body, s.k, st, f), LoopRun(w, g.n, body, t, f + slack));
  }

  /** break, return and goto: close first, then branch. */
  lemma {:induction false} SimExit(w: World, s: Stmt, env: Env, cc: nat, g: Ctr, st: State, t: WState, f: nat,
        slack: nat)
    requires s.Break? || s.Return? || s.Goto?
    requires LegalStmt(s, env.loop.Some?) && Resolved(Gotos(s), env.sc) && Ctx(env, cc, g)
    requires |st.tbc| == cc && t.st == st
    ensures Rel(w, env, slack, ExecStmt(w, s, st, f), Exec(w, EmitStmt(s, env, cc, g).0, t, f + slack))
  {
    var F := f + slack;
    match s
    case Break =>
      var l := env.loop.value;
      CloseThen(w, cc, l.base, One(WBr(LBrk(l.n))), t, F);
      ExecOne(w, WBr(LBrk(l.n)), t.(st := Unwind(w, st, l.base, None).0), F);
    case Return(k) =>
      var (st', r) := Ask(w, st, QReturn(k));
      ExecCons(w, WAsk(QReturn(k)), CloseIf(cc > 0, 0, One(WReturn)), t, F);
      if r.Value? {
        CloseThen(w, cc, 0, One(WReturn), t.(st := st'), F);
        ExecOne(w, WReturn, t.(st := Unwind(w, st', 0, None).0), F);
      }
    case Goto(name) =>
      var d := Lookup(env.sc, name).value;
      CloseThen(w, cc, d.base, GotoSeg(d.bid, d.seg), t, F);
      GotoSegRuns(w, d.bid, d.seg, t.(st := Unwind(w, st, d.base, None).0), F);
  }

  lemma {:induction false} CloseThen(w: World, cc: nat, to: nat, rest: Code, t: WState, f: nat)
    requires |t.st.tbc| == cc
    ensures var (s1, err) := Unwind(w, t.st, to, None);
            Exec(w, CloseIf(cc > to, to, rest), t, f)
            == if err.Some? then WResult(Throws(err.value), t.(st := s1)) else Exec(w, rest, t.(st := s1), f)
  {
    UnwindTbc(w, t.st, to, None);
    ExecCons(w, WCloseUpto(to), rest, t, f);
  }

  lemma {:induction false} SimRepeat(w: World, b: Stmts, k: int, env: Env, n: int, cc: nat, g: Ctr, st: State,
      t: WState, f: nat, slack: nat)
    requires LegalBlock(b, true, false) && Resolved(BlockGotos(b), env.sc) && Ctx(InLoop(env, n, cc), cc, g)
    requires |st.tbc| == cc && t.st == st
    ensures Rel(w, InLoop(env, n, cc), slack, ExecRepeat(w, b, k, st, f),
                LoopRun(w, n, App(EmitStmts(b, InLoop(env, n, cc), cc, g).0, Until(n, k, CountClose(b) > 0, cc)), t,
                  f + slack))
    decreases f, b, 7
  {
    var e, F, closes := InLoop(env, n, cc), f + slack, CountClose(b) > 0;
    var c := EmitStmts(b, e, cc, g).0;
    var r0, t0 := ExecIn(w, b, b, cc, [], st, f), Exec(w, c, t, F);
    SimStmts(w, b, e, cc, g, false, st, t, f, slack);
    RepeatRuns(w, n, k, closes, cc, c, t, F);
    ExecFree(w, c, t, F);
    StmtsOutward(b, e, cc, g);
    if !closes { InFlat(w, b, b, cc, st, f); }
    if !r0.out.Normal? {
      FinishBlock(w, e, slack, false, cc, closes, r0, t0, F);
    } else {
      var (st', v) := Ask(w, r0.st, QCond(k));
      if v.Raise? {
        LeaveThrew(w, WResult(Throws(v.e), t0.s.(st := st')), st', v.e, cc);
      } else {
        UnwindTbc(w, st', cc, None);
        InFrame(w, b, b, cc, [], st, f);
        var c1 := Leave(w, Result(Normal, st'), cc);
        if !c1.out.Error? && !Truthy(v.v) && f > 0 {
          SimRepeat(w, b, k, env, n, cc, g, c1.st, t0.s.(st := c1.st, flag := true), f - 1, slack);
        }
      }
    }
  }

  /** One turn of a repeat. */
  lemma {:induction false} RepeatRuns(w: World, n: int, k: int, closes: bool, cc: nat, c: Code, t: WState, f: nat)
    ensures var body := App(c, Until(n, k, closes, cc));
            var all := LoopRun(w, n, body, t, f);
            var t0 := Exec(w, c, t, f);
            if !t0.out.Falls? then t0.out != Branches(LCont(n)) ==> all == t0
            else
              var (st, r) := Ask(w, t0.s.st, QCond(k));
              if r.Raise? then all == WResult(Throws(r.e), t0.s.(st := st))
              else
                var (s1, err) := if closes then Unwind(w, st, cc, None) else (st, None);
                var t1 := t0.s.(st := s1, flag := !Truthy(r.v));
                if err.Some? then all == WResult(Throws(err.value), t1)
                else if Truthy(r.v) then all == WResult(Falls, t1)
                else if f == 0 then all == WResult(WTimeout, t1)
                else all == LoopRun(w, n, body, t1, f - 1)
  {
    ExecApp(w, c, Until(n, k, closes, cc), t, f);
    var t0 := Exec(w, c, t, f);
    if t0.out.Falls? {
      var (st, r) := Ask(w, t0.s.st, QCond(k));
      var last := One(WBrIf(LCont(n)));
      ExecCons(w, WTest(QCond(k)), WCons(WEqz, CloseIf(closes, cc, last)), t0.s, f);
      if r.Value? {
        var ta := t0.s.(st := st, flag := Truthy(r.v));
        var tb := ta.(flag := !ta.flag);
        ExecCons(w, WEqz, CloseIf(closes, cc, last), ta, f);
        ExecCons(w, WCloseUpto(cc), last, tb, f);
        ExecOne(w, WBrIf(LCont(n)), tb, f);
        ExecOne(w, WBrIf(LCont(n)), tb.(st := Unwind(w, st, cc, None).0), f);
      }
    }
  }

  lemma {:induction false} SimFor(w: World, k: int, closing: bool, b: Stmts, env: Env, cc: nat, g: Ctr, st: State,
      t: WState, f: nat, slack: nat)
    requires LegalBlock(b, true, true) && Resolved(BlockGotos(b), env.sc) && Ctx(env, cc, g)
    requires |st.tbc| == cc && t.st == st
    ensures Rel(w, env, slack, ExecStmt(w, ForGen(k, closing, b), st, f),
                Exec(w, EmitStmt(ForGen(k, closing, b), env, cc, g).0, t, f + slack))
    decreases f, b, 9
  {
    var s, code := ForGen(k, closing, b), EmitStmt(ForGen(k, closing, b), env, cc, g).0;
    var (st', r) := Ask(w, st, QInit(k, closing));
    ForIs(w, k, closing, b, st, f);
    ForRuns(w, k, closing, b, env, cc, g, t, f + slack);
    if r.Value? {
      var st'' := if closing then st'.(tbc := st'.tbc + [r.v]) else st';
      ForGoes(w, k, closing, b, env, cc, g, st'', t.(st := st''), f, slack);
      SameRel(w, env, slack, Leave(w, CatchBreak(ExecLoop(w, QNext(k), b, st'', f)), cc),
              Exec(w, ForRest(k, closing, b, env, cc, g), t.(st := st''), f + slack),
              ExecStmt(w, s, st, f), Exec(w, code, t, f + slack));
    }
  }

  /** The loop and its exit, once the iterator is set up. */
  function ForRest(k: int, closing: bool, b: Stmts, env: Env, cc: nat, g: Ctr): Code {
    var cc', g0 := if closing then cc + 1 else cc, g.(n := g.n + 1);
    var body := Guarded(g.n, QNext(k), EmitBlock(b, InLoop(env, g.n, cc), cc', g0).0);
    App(LoopShell(g.n, body), CloseIf(closing, cc, WNil))
  }

  lemma {:induction false} ForIs(w: World, k: int, closing: bool, b: Stmts, st: State, f: nat)
    ensures var (st', r) := Ask(w, st, QInit(k, closing));
            ExecStmt(w, ForGen(k, closing, b), st, f)
            == if r.Raise? then Result(Error(r.e), st')
               else
                 var st'' := if closing then st'.(tbc := st'.tbc + [r.v]) else st';
                 Leave(w, CatchBreak(ExecLoop(w, QNext(k), b, st'', f)), |st.tbc|)
  {
  }

  lemma {:induction false} ForRuns(w: World, k: int, closing: bool, b: Stmts, env: Env, cc: nat, g: Ctr, t: WState,
        f: nat)
    ensures var (st', r) := Ask(w, t.st, QInit(k, closing));
            Exec(w, EmitStmt(ForGen(k, closing, b), env, cc, g).0, t, f)
            == if r.Raise? then WResult(Throws(r.e), t.(st := st'))
               else
                 var st'' := if closing then st'.(tbc := st'.tbc + [r.v]) else st';
                 Exec(w, ForRest(k, closing, b, env, cc, g), t.(st := st''), f)
  {
    var init := if closing then WPush(QInit(k, closing)) else WAsk(QInit(k, closing));
    ForCode(k, closing, b, env, cc, g);
    ExecCons(w, init, ForRest(k, closing, b, env, cc, g), t, f);
  }

  lemma {:induction false} ForCode(k: int, closing: bool, b: Stmts, env: Env, cc: nat, g: Ctr)
    ensures var init := if closing then WPush(QInit(k, closing)) else WAsk(QInit(k, closing));
            EmitStmt(ForGen(k, closing, b), env, cc, g).0 == WCons(init, ForRest(k, closing, b, env, cc, g))
  {
  }

  /** A generic for once its iterator is set up. */
  lemma {:induction false} ForGoes(w: World, k: int, closing: bool, b: Stmts, env: Env, cc: nat, g: Ctr, st: State,
      t: WState, f: nat, slack: nat)
    requires LegalBlock(b, true, true) && Resolved(BlockGotos(b), env.sc) && Ctx(env, cc, g)
    requires |st.tbc| == (if closing then cc + 1 else cc) && t.st == st
    ensures Rel(w, env, slack, Leave(w, CatchBreak(ExecLoop(w, QNext(k), b, st, f)), cc),
                Exec(w, ForRest(k, closing, b, env, cc, g), t, f + slack))
    decreases f, b, 8
  {
    var F, n, cc', g0 := f + slack, g.n, if closing then cc + 1 else cc, g.(n := g.n + 1);
    var body := Guarded(n, QNext(k), EmitBlock(b, InLoop(env, n, cc), cc', g0).0);
    SimLoop(w, QNext(k), b, env, n, cc, cc', g0, st, t, f, slack);
    LoopFrame(w, QNext(k), b, st, f);
    ExecApp(w, LoopShell(n, body), CloseIf(closing, cc, WNil), t, F);
    ShellRuns(w, n, body, t, F);
    FinishFor(w, env, n, cc, closing, slack, ExecLoop(w, QNext(k), b, st, f), LoopRun(w, n, body, t, F), F);
  }

  /** A generic for's exit: the closing value, if any, is closed. */
  lemma {:induction false} FinishFor(w: World, env: Env, n: int, cc: nat, closing: bool, slack: nat, r: Result,
        t: WResult, f: nat)
    requires LoopRel(w, env, n, cc, slack, r, t)
    requires !closing && (r.out.Normal? || r.out.Breaks?) ==> |r.st.tbc| <= cc
    requires env.loop.Some? ==> env.loop.value.base <= cc
    ensures var c := CatchBranch(t, LBrk(n));
            Rel(w, env, slack, Leave(w, CatchBreak(r), cc),
                if c.out.Falls? then Exec(w, CloseIf(closing, cc, WNil), c.s, f) else c)
  {
    var c := CatchBranch(t, LBrk(n));
    if r.out.Breaks? {
      UnwindTbc(w, r.st, cc, None);
      var (s1, err) := Unwind(w, r.st, cc, None);
      if err.None? {
        UnwindTbc(w, s1, cc, None);
        ExecOne(w, WCloseUpto(cc), c.s, f);
      }
    } else {
      FinishBlock(w, env, slack, false, cc, closing, r, c, f);
    }
  }

  /** The code of an if. */
  lemma {:induction false} IfRuns(w: World, n: int, k: int, tc: Code, ec: Code, t: WState, f: nat)
    ensures var arm := WIf(App(tc, One(WBr(LIfEnd(n)))));
            var body := WCons(WTest(QCond(k)), WCons(arm, ec));
            var all := Exec(w, One(WBlock(LIfEnd(n), body)), t, f);
            var (st, r) := Ask(w, t.st, QCond(k));
            var t' := t.(st := st, flag := r.Value? && Truthy(r.v));
            if r.Raise? then all == WResult(Throws(r.e), t.(st := st))
            else all == CatchBranch(Exec(w, if Truthy(r.v) then tc else ec, t', f), LIfEnd(n))
  {
    var end := LIfEnd(n);
    var arm := WIf(App(tc, One(WBr(end))));
    var body := WCons(WTest(QCond(k)), WCons(arm, ec));
    ExecOne(w, WBlock(end, body), t, f);
    var (st, r) := Ask(w, t.st, QCond(k));
    var t' := t.(st := st, flag := r.Value? && Truthy(r.v));
    ExecCons(w, WTest(QCond(k)), WCons(arm, ec), t, f);
    ExecCons(w, arm, ec, t', f);
    ExecApp(w, tc, One(WBr(end)), t', f);
    ExecOne(w, WBr(end), Exec(w, tc, t', f).s, f);
  }

  lemma {:induction false} ExecCons(w: World, i: Instr, rest: Code, s: WState, f: nat)
    ensures var r := ExecInstr(w, i, s, f);
            Exec(w, WCons(i, rest), s, f) == if r.out.Falls? then Exec(w, rest, r.s, f) else r
  {
  }

  function LoopRun(w: World, n: int, body: Code, t: WState, f: nat): WResult {
    ExecInstr(w, WLoop(LCont(n), body), t, f)
  }

  lemma {:induction false} ShellRuns(w: World, n: int, body: Code, t: WState, f: nat)
    ensures Exec(w, LoopShell(n, body), t, f) == CatchBranch(LoopRun(w, n, body, t, f), LBrk(n))
  {
    ExecOne(w, WLoop(LCont(n), body), t, f);
    ExecOne(w, WBlock(LBrk(n), One(WLoop(LCont(n), body))), t, f);
  }

  /** A loop's runs: its end and its breaks both branch to $brk. */
  ghost predicate LoopRel(w: World, env: Env, n: int, base: nat, slack: nat, r: Result, t: WResult) {
    if r.out.Normal? then t.out == Branches(LBrk(n)) && t.s.st == r.st
    else Rel(w, InLoop(env, n, base), slack, r, t)
  }

  lemma {:induction false} LeaveLoop(w: World, env: Env, n: int, base: nat, slack: nat, r: Result, t: WResult)
    requires LoopRel(w, env, n, base, slack, r, t) || Rel(w, InLoop(env, n, base), slack, r, t)
    requires r.out.Breaks? ==> |r.st.tbc| <= base
    ensures Rel(w, env, slack, CatchBreak(r), CatchBranch(t, LBrk(n)))
  {
    if r.out.Breaks? { UnwindTbc(w, r.st, base, None); }
  }

  lemma {:induction false} SimLoop(w: World, q: Query, b: Stmts, env: Env, n: int, base: nat, cc: nat, g: Ctr,
      st: State, t: WState, f: nat, slack: nat)
    requires LegalBlock(b, true, true) && Resolved(BlockGotos(b), env.sc) && Ctx(InLoop(env, n, base), cc, g)
    requires |st.tbc| == cc && t.st == st
    ensures LoopRel(w, env, n, base, slack, ExecLoop(w, q, b, st, f),
                    LoopRun(w, n, Guarded(n, q, EmitBlock(b, InLoop(env, n, base), cc, g).0), t, f + slack))
    decreases f, b, 7
  {
    var e, F := InLoop(env, n, base), f + slack;
    var c := EmitBlock(b, e, cc, g).0;
    var body := Guarded(n, q, c);
    var (st', r) := Ask(w, st, q);
    GuardRuns(w, n, q, c, t, F);
    if r.Value? && Truthy(r.v) {
      var t' := t.(st := st', flag := false);
      SimBlock(w, b, e, cc, g, true, st', t', f, slack);
      BlockFrame(w, b, st', f);
      ExecFree(w, c, t', F);
      BlockOutward(b, e, cc, g);
      var r := ExecBlock(w, b, st', f);
      var t1 := Exec(w, c, t', F);
      if r.out.Normal? && f > 0 {
        SimLoop(w, q, b, env, n, base, cc, g, r.st, t1.s, f - 1, slack);
      }
    }
  }

  /** One turn of a guarded loop. */
  lemma {:induction false} GuardRuns(w: World, n: int, q: Query, c: Code, t: WState, f: nat)
    ensures var body := Guarded(n, q, c);
            var all := LoopRun(w, n, body, t, f);
            var (st, r) := Ask(w, t.st, q);
            if r.Raise? then all == WResult(Throws(r.e), t.(st := st))
            else
              var t' := t.(st := st, flag := !Truthy(r.v));
              if !Truthy(r.v) then all == WResult(Branches(LBrk(n)), t')
              else
                var t1 := Exec(w, c, t', f);
                if t1.out.Falls? then all == (if f == 0 then WResult(WTimeout, t1.s)
                  else LoopRun(w, n, body, t1.s, f - 1))
                else t1.out != Branches(LCont(n)) ==> all == t1
  {
    var again := App(c, One(WBr(LCont(n))));
    var exit := WCons(WBrIf(LBrk(n)), again);
    var (st, r) := Ask(w, t.st, q);
    ExecCons(w, WTest(q), WCons(WEqz, exit), t, f);
    if r.Value? {
      var t0 := t.(st := st, flag := Truthy(r.v));
      var t' := t0.(flag := !Truthy(r.v));
      ExecCons(w, WEqz, exit, t0, f);
      ExecCons(w, WBrIf(LBrk(n)), again, t', f);
      ExecApp(w, c, One(WBr(LCont(n))), t', f);
      ExecOne(w, WBr(LCont(n)), Exec(w, c, t', f).s, f);
    }
  }
}
