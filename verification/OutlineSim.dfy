/** Outlining a loop changes nothing visible. */
module OutlineSim {
  // Outlining a loop is unobservable: whatever the budget, calling the outlined function until
  // it is done does what the loop in place does.

  import opened Options
  import opened Numbers
  import opened Outline

  // ----- scoping -----

  function Binds(s: Stmt): set<nat> {
    match s case Local(slots, _) => SetOf(slots) case LocalFun(slot, _, _) => {slot} case _ => {}
  }

  /** The slots a block's own statements declare. */
  function Top(ss: Stmts): set<nat>
    decreases ss
  {
    match ss case SNil => {} case SCons(s, tl) => Binds(s) + Top(tl)
  }

  /** Slots are used only where a declaration made them visible; S is visible before ss. */
  predicate Scoped(ss: Stmts, S: set<nat>)
    decreases ss
  {
    match ss case SNil => true case SCons(s, tl) => ScopedAt(s, S) && Scoped(tl, S + Binds(s))
  }

  predicate ScopedAt(s: Stmt, S: set<nat>)
    decreases s
  {
    match s
    case Local(_, es) => RefEs(es) <= S
    case Assign(slots, es) => SetOf(slots) <= S && RefEs(es) <= S
    case LocalFun(slot, _, caps) => SetOf(caps) <= S + {slot}
    case Do(b) => Scoped(b, S)
    case If(e, thn, els) => RefE(e) <= S && Scoped(thn, S) && Scoped(els, S)
    case While(e, b) => RefE(e) <= S && Scoped(b, S)
    case Repeat(b, e) => Scoped(b, S) && RefE(e) <= S + Top(b)
    case ForNum(_, slot, a, z, d, b) => RefE(a) <= S && RefE(z) <= S && RefE(d) <= S && Scoped(b, S + {slot})
    case ForGen(slots, es, b) => RefEs(es) <= S && Scoped(b, S + SetOf(slots))
    case Break => true
    case Return(e) => RefE(e) <= S
    case Do1(e) => RefE(e) <= S
  }

  /** Everything referred to is visible before the statement or declared in it. */
  lemma {:induction false} RefScoped(ss: Stmts, S: set<nat>)
    requires Scoped(ss, S)
    ensures RefS(ss) <= S + DeclS(ss) && Top(ss) <= DeclS(ss)
    decreases ss
  {
    if ss.SCons? {
      RefScopedAt(ss.hd, S);
      RefScoped(ss.tl, S + Binds(ss.hd));
    }
  }

  lemma {:induction false} RefScopedAt(s: Stmt, S: set<nat>)
    requires ScopedAt(s, S)
    ensures Ref(s) <= S + Decl(s) && Binds(s) <= Decl(s)
    decreases s
  {
    match s
    case Do(b) => RefScoped(b, S);
    case If(_, thn, els) =>
      RefScoped(thn, S);
      RefScoped(els, S);
    case While(_, b) => RefScoped(b, S);
    case Repeat(b, _) => RefScoped(b, S);
    case ForNum(_, slot, _, _, _, b) => RefScoped(b, S + {slot});
    case ForGen(slots, _, b) => RefScoped(b, S + SetOf(slots));
    case _ =>
  }

  /** Only what is referred to matters. */
  lemma {:induction false} ScopedWithin(ss: Stmts, S: set<nat>, R: set<nat>)
    requires Scoped(ss, S) && RefS(ss) <= R
    ensures Scoped(ss, S * R)
    decreases ss
  {
    if ss.SCons? {
      ScopedWithinAt(ss.hd, S, R);
      ScopedWithin(ss.tl, S + Binds(ss.hd), R);
      ScopedMore(ss.tl, (S + Binds(ss.hd)) * R, S * R + Binds(ss.hd));
    }
  }

  lemma {:induction false} ScopedWithinAt(s: Stmt, S: set<nat>, R: set<nat>)
    requires ScopedAt(s, S) && Ref(s) <= R
    ensures ScopedAt(s, S * R)
    decreases s
  {
    match s
    case Do(b) => ScopedWithin(b, S, R);
    case If(_, thn, els) =>
      ScopedWithin(thn, S, R);
      ScopedWithin(els, S, R);
    case While(_, b) => ScopedWithin(b, S, R);
    case Repeat(b, _) => ScopedWithin(b, S, R);
    case ForNum(_, slot, _, _, _, b) =>
      ScopedWithin(b, S + {slot}, R);
      ScopedMore(b, (S + {slot}) * R, S * R + {slot});
    case ForGen(slots, _, b) =>
      ScopedWithin(b, S + SetOf(slots), R);
      ScopedMore(b, (S + SetOf(slots)) * R, S * R + SetOf(slots));
    case _ =>
  }

  lemma {:induction false} ScopedMore(ss: Stmts, S: set<nat>, T: set<nat>)
    requires Scoped(ss, S) && S <= T
    ensures Scoped(ss, T)
    decreases ss
  {
    if ss.SCons? {
      ScopedMoreAt(ss.hd, S, T);
      ScopedMore(ss.tl, S + Binds(ss.hd), T + Binds(ss.hd));
    }
  }

  lemma {:induction false} ScopedMoreAt(s: Stmt, S: set<nat>, T: set<nat>)
    requires ScopedAt(s, S) && S <= T
    ensures ScopedAt(s, T)
    decreases s
  {
    match s
    case Do(b) => ScopedMore(b, S, T);
    case If(_, thn, els) =>
      ScopedMore(thn, S, T);
      ScopedMore(els, S, T);
    case While(_, b) => ScopedMore(b, S, T);
    case Repeat(b, _) => ScopedMore(b, S, T);
    case ForNum(_, slot, _, _, _, b) => ScopedMore(b, S + {slot}, T + {slot});
    case ForGen(slots, _, b) => ScopedMore(b, S + SetOf(slots), T + SetOf(slots));
    case _ =>
  }

  // ----- two activations that agree -----

  ghost predicate EnvAgree(S: set<nat>, a: seq<V>, b: seq<V>) {
    |a| == |b| && forall i | i in S && i < |a| :: a[i] == b[i]
  }

  ghost predicate Agree(S: set<nat>, m: M, n: M) {
    EnvAgree(S, m.env, n.env) && m.heap == n.heap && m.tr == n.tr && m.fuel == n.fuel
  }

  lemma {:induction false} EvalSame(c: Code, e: Expr, S: set<nat>, a: seq<V>, b: seq<V>, h: seq<V>, tr: Trace)
    requires EnvAgree(S, a, b) && RefE(e) <= S
    ensures Eval(c, e, a, h, tr) == Eval(c, e, b, h, tr)
    decreases e
  {
    match e
    case Op(_, es) => EvalAllSame(c, es, S, a, b, h, tr);
    case Closure(_, caps) =>
      forall i | 0 <= i < |caps| ensures Raw(a, caps[i]) == Raw(b, caps[i]) { assert caps[i] in SetOf(caps); }
      assert Refs(a, caps) == Refs(b, caps);
    case _ =>
  }

  lemma {:induction false} EvalAllSame(c: Code, es: Exprs, S: set<nat>, a: seq<V>, b: seq<V>, h: seq<V>, tr: Trace)
    requires EnvAgree(S, a, b) && RefEs(es) <= S
    ensures EvalAll(c, es, a, h, tr) == EvalAll(c, es, b, h, tr)
    decreases es
  {
    if es.ECons? {
      EvalSame(c, es.e, S, a, b, h, tr);
      var r := Eval(c, es.e, a, h, tr);
      if r.Ok? { EvalAllSame(c, es.es, S, a, b, r.heap, r.tr); }
    }
  }

  lemma {:induction false} BindSame(c: Code, slots: seq<nat>, vs: seq<V>, S: set<nat>, m: M, n: M)
    requires Agree(S, m, n)
    ensures Agree(S + SetOf(slots), StoreAll(c, slots, vs, true, m), StoreAll(c, slots, vs, true, n))
    decreases |slots|
  {
    if slots != [] {
      var m1, n1 := Store(c, slots[0], First(vs), true, m), Store(c, slots[0], First(vs), true, n);
      BindSame(c, slots[1..], if vs == [] then [] else vs[1..], S + {slots[0]}, m1, n1);
      assert S + SetOf(slots) == S + {slots[0]} + SetOf(slots[1..]);
    } else {
      assert S + SetOf(slots) == S;
    }
  }

  lemma {:induction false} AssignSame(c: Code, slots: seq<nat>, vs: seq<V>, S: set<nat>, m: M, n: M)
    requires Agree(S, m, n) && SetOf(slots) <= S
    ensures Agree(S, StoreAll(c, slots, vs, false, m), StoreAll(c, slots, vs, false, n))
    decreases |slots|
  {
    if slots != [] {
      assert slots[0] in SetOf(slots);
      var m1, n1 := Store(c, slots[0], First(vs), false, m), Store(c, slots[0], First(vs), false, n);
      assert SetOf(slots[1..]) <= SetOf(slots);
      AssignSame(c, slots[1..], if vs == [] then [] else vs[1..], S, m1, n1);
    }
  }

  // ----- what a statement leaves alone -----

  /** Control locals below level fd, and slots outside R, are as before. */
  ghost predicate Kept(R: set<nat>, fd: nat, m: M, n: M) {
    && |m.env| == |n.env|
    && (forall i | 0 <= i < |m.env| && i !in R :: n.env[i] == m.env[i])
    && (forall l: nat | l < fd :: CtlAt(n, l) == CtlAt(m, l))
  }

  lemma {:induction false} KeptTrans(R: set<nat>, T: set<nat>, fd: nat, fe: nat, m: M, n: M, o: M)
    requires Kept(R, fe, m, n) && Kept(T, fd, n, o) && R <= T && fd <= fe
    ensures Kept(T, fd, m, o)
  {
  }

  lemma {:induction false} StoreKept(c: Code, slots: seq<nat>, vs: seq<V>, bind: bool, fd: nat, m: M)
    ensures Kept(SetOf(slots), fd, m, StoreAll(c, slots, vs, bind, m))
    decreases |slots|
  {
    if slots != [] {
      var m1 := Store(c, slots[0], First(vs), bind, m);
      StoreKept(c, slots[1..], if vs == [] then [] else vs[1..], bind, fd, m1);
      assert SetOf(slots) == {slots[0]} + SetOf(slots[1..]);
    }
  }

  /** Slots an iteration's own bookkeeping writes. */
  function Own(s: Stmt): set<nat> {
    match s case ForNum(_, slot, _, _, _, _) => {slot} case ForGen(slots, _, _) => SetOf(slots) case _ => {}
  }

  lemma {:induction false} SetupKept(c: Code, s: Stmt, fd: nat, m: M)
    requires IsLoop(s)
    ensures Kept(Own(s), fd, m, Setup(c, s, fd, m).m)
  {
  }

  lemma {:induction false} EnterKept(c: Code, s: Stmt, fd: nat, m: M)
    requires IsLoop(s)
    ensures Kept(Own(s), fd, m, Enter(c, s, fd, m).m)
  {
    if s.ForGen? {
      var k := CtlAt(m, fd);
      var r := Asked(c, QIter(k.iter, k.state, k.k), m.heap, m.tr);
      if r.Ok? { StoreKept(c, s.slots, r.v, true, fd, Put(r, m).(ctl := m.ctl[fd := k.(k := First(r.v))])); }
    }
  }

  lemma {:induction false} AfterKept(c: Code, s: Stmt, fd: nat, m: M)
    requires IsLoop(s)
    ensures Kept(Own(s), fd, m, After(c, s, fd, m).m)
  {
  }

  lemma {:induction false} RunKept(c: Code, ss: Stmts, fd: nat, mode: Mode, m: M)
    requires !mode.Self?
    ensures Kept(RefS(ss), fd, m, Run(c, ss, fd, mode, m).m)
    decreases m.fuel, ss, 4
  {
    if ss.SCons? {
      StepKept(c, ss.hd, fd, mode, m);
      var o := Step(c, ss.hd, fd, mode, m);
      if o.Norm? { RunKept(c, ss.tl, fd, mode, o.m); }
    }
  }

  lemma {:induction false} StepKept(c: Code, s: Stmt, fd: nat, mode: Mode, m: M)
    requires !mode.Self?
    ensures Kept(Ref(s), fd, m, Step(c, s, fd, mode, m).m)
    decreases m.fuel, s, 3
  {
    if s.Local? || s.Assign? || s.LocalFun? {
      StoresKept(c, s, fd, mode, m);
    } else if IsLoop(s) {
      StepLoop(c, s, fd, mode, m);
      StartedKept(c, s, fd, mode, m);
    } else if s.Do? {
      RunKept(c, s.body, fd, mode, m);
    } else if s.If? {
      var v := Eval(c, s.c, m.env, m.heap, m.tr);
      if v.Ok? { RunKept(c, if c.truthy(v.v) then s.thn else s.els, fd, mode, Put(v, m)); }
    }
  }

  lemma {:induction false} StoresKept(c: Code, s: Stmt, fd: nat, mode: Mode, m: M)
    requires !mode.Self? && (s.Local? || s.Assign? || s.LocalFun?)
    ensures Kept(Ref(s), fd, m, Step(c, s, fd, mode, m).m)
  {
    if !s.LocalFun? {
      var vs := EvalAll(c, s.es, m.env, m.heap, m.tr);
      if vs.Ok? { StoreKept(c, s.slots, vs.v, s.Local?, fd, Put(vs, m)); }
    }
  }

  lemma {:induction false} StepLoop(c: Code, s: Stmt, fd: nat, mode: Mode, m: M)
    requires !mode.Self? && IsLoop(s)
    ensures Step(c, s, fd, mode, m) == Started(c, s, fd, mode, Setup(c, s, fd, m))
  {
  }

  lemma {:induction false} StartedKept(c: Code, s: Stmt, fd: nat, mode: Mode, m: M)
    requires IsLoop(s)
    ensures Kept(Ref(s), fd, m, Started(c, s, fd, mode, Setup(c, s, fd, m)).m)
    decreases m.fuel, s, 2
  {
    SetupKept(c, s, fd, m);
    var t := Setup(c, s, fd, m);
    if t.Go? { LoopKept(c, s, fd, mode, t.m); }
  }

  lemma {:induction false} LoopPass(c: Code, s: Stmt, fd: nat, mode: Mode, m: M)
    requires IsLoop(s) && m.fuel > 0 && (mode.Self? ==> Counted(mode, m).bud >= 0)
    ensures var p := PassOf(c, s, fd, mode, m);
            Loop(c, s, fd, mode, m) == if p.Again? then Loop(c, s, fd, mode, p.m) else p.o
  {
  }

  lemma {:induction false} LoopEmpty(c: Code, s: Stmt, fd: nat, mode: Mode, m: M)
    requires IsLoop(s)
    ensures m.fuel == 0 && (mode.Self? ==> Counted(mode, m).bud >= 0)
      ==> Loop(c, s, fd, mode, m) == Timeout(Counted(mode, m))
    ensures mode.Self? && Counted(mode, m).bud < 0 ==> Loop(c, s, fd, mode, m) == Susp(Counted(mode, m))
  {
  }

  lemma {:induction false} LoopKept(c: Code, s: Stmt, fd: nat, mode: Mode, m: M)
    requires IsLoop(s)
    ensures Kept(Ref(s), fd, m, Loop(c, s, fd, mode, m).m)
    decreases m.fuel, s, 1
  {
    LoopEmpty(c, s, fd, mode, m);
    if !(mode.Self? && Counted(mode, m).bud < 0) && m.fuel > 0 {
      LoopPass(c, s, fd, mode, m);
      PassKept(c, s, fd, mode, m);
      var p := PassOf(c, s, fd, mode, m);
      if p.Again? {
        LoopKept(c, s, fd, mode, p.m);
        KeptTrans(Ref(s), Ref(s), fd, fd, m, p.m, Loop(c, s, fd, mode, p.m).m);
      }
    }
  }

  lemma {:induction false} PassKept(c: Code, s: Stmt, fd: nat, mode: Mode, m: M)
    requires IsLoop(s) && m.fuel > 0
    ensures Kept(Ref(s), fd, m, EndOf(PassOf(c, s, fd, mode, m)))
    decreases m.fuel, s, 0
  {
    TurnedKept(c, s, fd, mode, Counted(mode, m).(fuel := m.fuel - 1));
  }

  function EndOf(p: Pass): M { if p.Again? then p.m else p.o.m }

  lemma {:induction false} TurnedKept(c: Code, s: Stmt, fd: nat, mode: Mode, m: M)
    requires IsLoop(s)
    ensures Kept(Ref(s), fd, m, EndOf(Turned(c, s, fd, mode, m)))
    decreases m.fuel, s, 0
  {
    EnterKept(c, s, fd, m);
    var t := Enter(c, s, fd, m);
    if t.Go? {
      RunKept(c, s.body, BodyLevel(s, fd), Within(mode), t.m);
      var o := Run(c, s.body, BodyLevel(s, fd), Within(mode), t.m);
      KeptTrans(Own(s), Ref(s), fd, fd, m, t.m, t.m);
      KeptTrans(RefS(s.body), Ref(s), fd, BodyLevel(s, fd), t.m, o.m, o.m);
      KeptTrans(Ref(s), Ref(s), fd, fd, m, t.m, o.m);
      if o.Norm? {
        AfterKept(c, s, fd, o.m);
        KeptTrans(Ref(s), Ref(s), fd, fd, m, o.m, After(c, s, fd, o.m).m);
      }
    }
  }

  // ----- inside an outlined loop -----

  /** Same way of ending; S is what must agree where execution goes on. */
  ghost predicate Same(S: set<nat>, T: set<nat>, o: Out, q: Out) {
    match o
    case Norm(m) => q.Norm? && Agree(T, m, q.m)
    case Brk(m) => q.Brk? && Agree(S, m, q.m)
    case Ret(v, m) => q.Ret? && v == q.v && Agree({}, m, q.m)
    case Err(e, m) => q.Err? && e == q.e && Agree({}, m, q.m)
    case Timeout(m) => q.Timeout? && Agree({}, m, q.m)
    case Susp(_) => false
  }

  /** The slots that must agree at a loop's header: a counter kept in its slot too. */
  function AtHead(c: Code, s: Stmt, S: set<nat>): set<nat> {
    if s.ForNum? && s.slot !in c.boxed then S + {s.slot} else S
  }

  /** The loop's own control locals agree, and it was not skipped. */
  ghost predicate CtlSame(s: Stmt, fd: nat, m: M, n: M) {
    s.ForNum? || s.ForGen? ==> CtlAt(m, fd) == CtlAt(n, fd) && !CtlAt(m, fd).skip
  }

  ghost predicate HeadAgree(c: Code, s: Stmt, S: set<nat>, fd: nat, m: M, n: M) {
    Agree(AtHead(c, s, S), m, n) && CtlSame(s, fd, m, n)
  }

  ghost predicate TurnSame(c: Code, s: Stmt, S: set<nat>, T: set<nat>, fd: nat, t: Turn, u: Turn) {
    match t
    case Go(m) => u.Go? && Agree(T, m, u.m) && CtlSame(s, fd, m, u.m)
    case Stop(m) => u.Stop? && Agree(S, m, u.m)
    case Fail(e, m) => u.Fail? && e == u.e && Agree({}, m, u.m)
  }

  lemma {:induction false} SetupSame(c: Code, s: Stmt, S: set<nat>, fd: nat, m: M, n: M)
    requires IsLoop(s) && ScopedAt(s, S) && Agree(S, m, n)
    ensures TurnSame(c, s, S, AtHead(c, s, S), fd, Setup(c, s, fd, m), Setup(c, s, fd, n))
  {
    if s.ForNum? {
      NumSetupSame(c, s, S, fd, m, n);
    } else if s.ForGen? {
      EvalAllSame(c, s.es, S, m.env, n.env, m.heap, m.tr);
    }
  }

  lemma {:induction false} NumSetupSame(c: Code, s: Stmt, S: set<nat>, fd: nat, m: M, n: M)
    requires s.ForNum? && ScopedAt(s, S) && Agree(S, m, n)
    ensures TurnSame(c, s, S, AtHead(c, s, S), fd, Setup(c, s, fd, m), Setup(c, s, fd, n))
  {
    EvalSame(c, s.start, S, m.env, n.env, m.heap, m.tr);
    var x := Eval(c, s.start, m.env, m.heap, m.tr);
    if x.Ok? {
      EvalSame(c, s.stop, S, m.env, n.env, x.heap, x.tr);
      var y := Eval(c, s.stop, m.env, x.heap, x.tr);
      if y.Ok? { EvalSame(c, s.step, S, m.env, n.env, y.heap, y.tr); }
    }
  }

  lemma {:induction false} EnterSame(c: Code, s: Stmt, S: set<nat>, fd: nat, m: M, n: M)
    requires IsLoop(s) && ScopedAt(s, S) && HeadAgree(c, s, S, fd, m, n)
    ensures TurnSame(c, s, S, S + Own(s), fd, Enter(c, s, fd, m), Enter(c, s, fd, n))
  {
    match s
    case While(e, _) => EvalSame(c, e, S, m.env, n.env, m.heap, m.tr);
    case ForGen(slots, _, _) =>
      var k := CtlAt(m, fd);
      var r := Asked(c, QIter(k.iter, k.state, k.k), m.heap, m.tr);
      if r.Ok? {
        var k' := k.(k := First(r.v));
        BindSame(c, slots, r.v, S, Put(r, m).(ctl := m.ctl[fd := k']), Put(r, n).(ctl := n.ctl[fd := k']));
      }
    case _ =>
  }

  lemma {:induction false} AfterSame(c: Code, s: Stmt, S: set<nat>, fd: nat, m: M, n: M)
    requires IsLoop(s) && ScopedAt(s, S) && Agree(S + Own(s) + Top(s.body), m, n)
    requires CtlSame(s, fd, m, n)
    ensures TurnSame(c, s, S, AtHead(c, s, S), fd, After(c, s, fd, m), After(c, s, fd, n))
  {
    if s.Repeat? { EvalSame(c, s.c, S + Own(s) + Top(s.body), m.env, n.env, m.heap, m.tr); }
  }

  lemma {:induction false} RunSame(c: Code, ss: Stmts, S: set<nat>, fd: nat, mode: Mode, m: M, n: M)
    requires !mode.Self? && Scoped(ss, S) && Agree(S, m, n)
    ensures Same(S, S + Top(ss), Run(c, ss, fd, Inline, m), Run(c, ss, fd, mode, n))
    decreases m.fuel, ss, 4
  {
    if ss.SCons? {
      StepSame(c, ss.hd, S, fd, mode, m, n);
      var o, q := Step(c, ss.hd, fd, Inline, m), Step(c, ss.hd, fd, mode, n);
      if o.Norm? {
        RunSame(c, ss.tl, S + Binds(ss.hd), fd, mode, o.m, q.m);
        assert S + Binds(ss.hd) + Top(ss.tl) == S + Top(ss);
      }
    } else {
      assert S + Top(ss) == S;
    }
  }

  lemma {:induction false} StoreStepSame(c: Code, s: Stmt, S: set<nat>, fd: nat, mode: Mode, m: M, n: M)
    requires !mode.Self? && (s.Local? || s.Assign? || s.LocalFun?) && ScopedAt(s, S) && Agree(S, m, n)
    ensures Same(S, S + Binds(s), Step(c, s, fd, Inline, m), Step(c, s, fd, mode, n))
  {
    if s.LocalFun? {
      FunStepSame(c, s, S, fd, mode, m, n);
    } else {
      EvalAllSame(c, s.es, S, m.env, n.env, m.heap, m.tr);
      var vs := EvalAll(c, s.es, m.env, m.heap, m.tr);
      if vs.Ok? && s.Local? { BindSame(c, s.slots, vs.v, S, Put(vs, m), Put(vs, n)); }
      if vs.Ok? && s.Assign? {
        AssignSame(c, s.slots, vs.v, S, Put(vs, m), Put(vs, n));
        assert S + Binds(s) == S;
      }
    }
  }

  lemma {:induction false} FunStepSame(c: Code, s: Stmt, S: set<nat>, fd: nat, mode: Mode, m: M, n: M)
    requires !mode.Self? && s.LocalFun? && ScopedAt(s, S) && Agree(S, m, n)
    ensures Same(S, S + Binds(s), Step(c, s, fd, Inline, m), Step(c, s, fd, mode, n))
  {
    var m1, n1 := Store(c, s.slot, Nil, true, m), Store(c, s.slot, Nil, true, n);
    EvalSame(c, Closure(s.k, s.caps), S + {s.slot}, m1.env, n1.env, m1.heap, m1.tr);
    var v := Eval(c, Closure(s.k, s.caps), m1.env, m1.heap, m1.tr);
    if v.Ok? { OneSame(c, s.slot, v.v, S + {s.slot}, Put(v, m1), Put(v, n1)); }
  }

  lemma {:induction false} OneSame(c: Code, slot: nat, v: V, S: set<nat>, m: M, n: M)
    requires Agree(S, m, n) && slot in S
    ensures Agree(S, Store(c, slot, v, false, m), Store(c, slot, v, false, n))
  {
  }

  lemma {:induction false} StepSame(c: Code, s: Stmt, S: set<nat>, fd: nat, mode: Mode, m: M, n: M)
    requires !mode.Self? && ScopedAt(s, S) && Agree(S, m, n)
    ensures Same(S, S + Binds(s), Step(c, s, fd, Inline, m), Step(c, s, fd, mode, n))
    decreases m.fuel, s, 3
  {
    if IsLoop(s) {
      StepLoop(c, s, fd, Inline, m);
      StepLoop(c, s, fd, mode, n);
      SetupSame(c, s, S, fd, m, n);
      StartedSame(c, s, S, fd, mode, Setup(c, s, fd, m), Setup(c, s, fd, n));
      assert S + Binds(s) == S;
    } else if s.Local? || s.Assign? || s.LocalFun? {
      StoreStepSame(c, s, S, fd, mode, m, n);
    } else {
      assert S + Binds(s) == S;
      BlockStepSame(c, s, S, fd, mode, m, n);
    }
  }

  lemma {:induction false} BlockStepSame(c: Code, s: Stmt, S: set<nat>, fd: nat, mode: Mode, m: M, n: M)
    requires !mode.Self? && (s.Do? || s.If? || s.Break? || s.Return? || s.Do1?) && ScopedAt(s, S) && Agree(S, m, n)
    ensures Same(S, S, Step(c, s, fd, Inline, m), Step(c, s, fd, mode, n))
    decreases m.fuel, s, 2
  {
    if s.Do? {
      RunSame(c, s.body, S, fd, mode, m, n);
    } else if s.If? {
      EvalSame(c, s.c, S, m.env, n.env, m.heap, m.tr);
      var v := Eval(c, s.c, m.env, m.heap, m.tr);
      if v.Ok? { RunSame(c, if c.truthy(v.v) then s.thn else s.els, S, fd, mode, Put(v, m), Put(v, n)); }
    } else if !s.Break? {
      EvalSame(c, s.e, S, m.env, n.env, m.heap, m.tr);
    }
  }

  lemma {:induction false} StartedSame(c: Code, s: Stmt, S: set<nat>, fd: nat, mode: Mode, t: Turn, u: Turn)
    requires !mode.Self? && IsLoop(s) && ScopedAt(s, S) && TurnSame(c, s, S, AtHead(c, s, S), fd, t, u)
    ensures Same(S, S, Started(c, s, fd, Inline, t), Started(c, s, fd, mode, u))
    decreases t.m.fuel, s, 2
  {
    if t.Go? { LoopSame(c, s, S, fd, mode, t.m, u.m); }
  }

  lemma {:induction false} LoopSame(c: Code, s: Stmt, S: set<nat>, fd: nat, mode: Mode, m: M, n: M)
    requires !mode.Self? && IsLoop(s) && ScopedAt(s, S) && HeadAgree(c, s, S, fd, m, n)
    ensures Same(S, S, Loop(c, s, fd, Inline, m), Loop(c, s, fd, mode, n))
    decreases m.fuel, s, 1
  {
    LoopEmpty(c, s, fd, Inline, m);
    LoopEmpty(c, s, fd, mode, n);
    if m.fuel > 0 {
      LoopPass(c, s, fd, Inline, m);
      LoopPass(c, s, fd, mode, n);
      PassesSame(c, s, S, fd, mode, m, n);
      var p, q := PassOf(c, s, fd, Inline, m), PassOf(c, s, fd, mode, n);
      if p.Again? { LoopSame(c, s, S, fd, mode, p.m, q.m); }
    }
  }

  lemma {:induction false} PassesSame(c: Code, s: Stmt, S: set<nat>, fd: nat, mode: Mode, m: M, n: M)
    requires IsLoop(s) && ScopedAt(s, S) && HeadAgree(c, s, S, fd, m, n) && m.fuel > 0
    ensures PassSame(c, s, S, fd, PassOf(c, s, fd, Inline, m), PassOf(c, s, fd, mode, n))
    decreases m.fuel, s, 0
  {
    TurnedSame(c, s, S, fd, mode, m.(fuel := m.fuel - 1), Counted(mode, n).(fuel := n.fuel - 1));
  }

  ghost predicate PassSame(c: Code, s: Stmt, S: set<nat>, fd: nat, p: Pass, q: Pass) {
    match p
    case Again(m) => q.Again? && HeadAgree(c, s, S, fd, m, q.m)
    case Left(o) => q.Left? && Same(S, S, o, q.o)
  }

  lemma {:induction false} TurnedSame(c: Code, s: Stmt, S: set<nat>, fd: nat, mode: Mode, m: M, n: M)
    requires IsLoop(s) && ScopedAt(s, S) && HeadAgree(c, s, S, fd, m, n)
    ensures PassSame(c, s, S, fd, Turned(c, s, fd, Inline, m), Turned(c, s, fd, mode, n))
    decreases m.fuel, s, 0
  {
    EnterSame(c, s, S, fd, m, n);
    var t, u := Enter(c, s, fd, m), Enter(c, s, fd, n);
    if t.Go? {
      var lv := BodyLevel(s, fd);
      assert Scoped(s.body, S + Own(s)) by { if s.While? || s.Repeat? { assert S + Own(s) == S; } }
      RunSame(c, s.body, S + Own(s), lv, Within(mode), t.m, u.m);
      RunKept(c, s.body, lv, Inline, t.m);
      RunKept(c, s.body, lv, Within(mode), u.m);
      BodiedSame(c, s, S, fd, Run(c, s.body, lv, Inline, t.m), Run(c, s.body, lv, Within(mode), u.m));
    }
  }

  lemma {:induction false} BodiedSame(c: Code, s: Stmt, S: set<nat>, fd: nat, o: Out, q: Out)
    requires IsLoop(s) && ScopedAt(s, S) && !o.Susp? && !q.Susp? && Same(S + Own(s), S + Own(s) + Top(s.body), o, q)
    requires CtlSame(s, fd, o.m, q.m)
    ensures PassSame(c, s, S, fd, Bodied(c, s, fd, o), Bodied(c, s, fd, q))
  {
    if o.Norm? { AfterSame(c, s, S, fd, o.m, q.m); }
  }

  // ----- the outlined loop -----

  /** What the outlined function's end says about the loop in place. */
  ghost predicate SelfEnd(c: Code, s: Stmt, S: set<nat>, fd: nat, m: M, o: Out, m': M)
    requires IsLoop(s)
  {
    if o.Susp? then
      Loop(c, s, fd, Inline, m) == Loop(c, s, fd, Inline, m') && HeadAgree(c, s, S, fd, m', o.m)
        && Kept(Ref(s), fd, m, m')
    else Same(S, S, Loop(c, s, fd, Inline, m), o)
  }

  /** Run in the outlined function until it suspends, or to its end. If it suspends the
      loop in place has a header state m' that agrees with the suspended one. */
  lemma {:induction false} SelfSame(c: Code, s: Stmt, S: set<nat>, fd: nat, m: M, n: M) returns (m': M)
    requires IsLoop(s) && ScopedAt(s, S) && HeadAgree(c, s, S, fd, m, n)
    ensures SelfEnd(c, s, S, fd, m, Loop(c, s, fd, Self, n), m')
    decreases m.fuel
  {
    m' := m;
    if Counted(Self, n).bud < 0 || m.fuel == 0 {
      LoopEmpty(c, s, fd, Inline, m);
      LoopEmpty(c, s, fd, Self, n);
    } else {
      PassesSame(c, s, S, fd, Self, m, n);
      var p, q := PassOf(c, s, fd, Inline, m), PassOf(c, s, fd, Self, n);
      LoopPass(c, s, fd, Inline, m);
      LoopPass(c, s, fd, Self, n);
      if p.Again? {
        m' := SelfSame(c, s, S, fd, p.m, q.m);
        PassKept(c, s, fd, Inline, m);
        SelfEndBack(c, s, S, fd, m, p.m, Loop(c, s, fd, Self, q.m), m');
      } else {
        LeftEnd(c, s, S, fd, m, Loop(c, s, fd, Self, n));
      }
    }
  }

  lemma {:induction false} LeftEnd(c: Code, s: Stmt, S: set<nat>, fd: nat, m: M, o: Out)
    requires IsLoop(s) && Same(S, S, Loop(c, s, fd, Inline, m), o)
    ensures SelfEnd(c, s, S, fd, m, o, m)
  {
  }

  lemma {:induction false} SelfEndBack(c: Code, s: Stmt, S: set<nat>, fd: nat, m: M, m1: M, o: Out, m': M)
    requires IsLoop(s) && Loop(c, s, fd, Inline, m) == Loop(c, s, fd, Inline, m1) && Kept(Ref(s), fd, m, m1)
    requires SelfEnd(c, s, S, fd, m1, o, m')
    ensures SelfEnd(c, s, S, fd, m, o, m')
  {
    if o.Susp? { KeptTrans(Ref(s), Ref(s), fd, fd, m, m1, m'); }
  }

  /** Slots that outlive the loop agree. */
  ghost predicate Outside(s: Stmt, m: M, n: M) {
    |m.env| == |n.env| && forall i | 0 <= i < |m.env| && i !in Decl(s) :: m.env[i] == n.env[i]
  }

  /** The same end: the same values in every local that outlives the loop, the same
      boxes, the same events; a returned value or an error leaves no local behind. */
  ghost predicate SameEnd(s: Stmt, o: Out, q: Out) {
    match o
    case Norm(m) => q.Norm? && Outside(s, m, q.m) && Agree({}, m, q.m)
    case Ret(v, m) => q.Ret? && v == q.v && Agree({}, m, q.m)
    case Err(e, m) => q.Err? && e == q.e && Agree({}, m, q.m)
    case Timeout(m) => q.Timeout? && Agree({}, m, q.m)
    case _ => false
  }

  /** A caller at a suspended loop and the loop in place at its header. */
  ghost predicate Alike(c: Code, s: Stmt, S: set<nat>, fd: nat, m: M, mc: M) {
    HeadAgree(c, s, S, fd, m, mc) && Outside(s, m, mc)
  }

  /** Of what is visible before the loop, the loop's share is what is handed over. */
  lemma {:induction false} ShareOf(c: Code, s: Stmt, vis: set<nat>)
    requires IsLoop(s) && ScopedAt(s, vis) && vis !! Decl(s)
    ensures ScopedAt(s, vis * Ref(s)) && vis * Ref(s) == Ref(s) - Decl(s) && AtHead(c, s, vis * Ref(s)) == Carried(c, s)
  {
    ScopedWithinAt(s, vis, Ref(s));
    RefScopedAt(s, vis);
    assert vis * Ref(s) == Ref(s) - Decl(s);
  }

  lemma {:induction false} LoopNotBrk(c: Code, s: Stmt, fd: nat, mode: Mode, m: M)
    requires IsLoop(s)
    ensures !Loop(c, s, fd, mode, m).Brk?
    decreases m.fuel
  {
    LoopEmpty(c, s, fd, mode, m);
    if !(mode.Self? && Counted(mode, m).bud < 0) && m.fuel > 0 {
      LoopPass(c, s, fd, mode, m);
      var p := PassOf(c, s, fd, mode, m);
      if p.Again? { LoopNotBrk(c, s, fd, mode, p.m); }
    }
  }

  lemma {:induction false} BackAlike(c: Code, s: Stmt, vis: set<nat>, fd: nat, m: M, m': M, mc: M, n: M)
    requires IsLoop(s) && ScopedAt(s, vis) && vis !! Decl(s)
    requires Outside(s, m, mc) && Kept(Ref(s), fd, m, m') && HeadAgree(c, s, vis * Ref(s), fd, m', n)
    ensures Alike(c, s, vis * Ref(s), fd, m', Back(c, s, fd, mc, n))
  {
    ShareOf(c, s, vis);
  }

  lemma {:induction false} BackOutside(c: Code, s: Stmt, vis: set<nat>, fd: nat, m: M, m': M, mc: M, n: M)
    requires IsLoop(s) && ScopedAt(s, vis) && vis !! Decl(s)
    requires Outside(s, m, mc) && Kept(Ref(s), fd, m, m') && Agree(vis * Ref(s), m', n)
    ensures Outside(s, m', Back(c, s, fd, mc, n))
  {
    ShareOf(c, s, vis);
    var r := Back(c, s, fd, mc, n);
    forall i | 0 <= i < |m'.env| && i !in Decl(s) ensures m'.env[i] == r.env[i] {
      assert i in Carried(c, s) ==> i in vis * Ref(s) by {
        if s.ForNum? { assert s.slot in Decl(s); }
      }
    }
  }

  lemma {:induction false} FrameAlike(c: Code, s: Stmt, vis: set<nat>, fd: nat, m: M, mc: M, budget: nat)
    requires IsLoop(s) && ScopedAt(s, vis) && vis !! Decl(s) && Alike(c, s, vis * Ref(s), fd, m, mc)
    ensures HeadAgree(c, s, vis * Ref(s), fd, m, FrameOf(c, s, fd, mc, budget))
  {
    ShareOf(c, s, vis);
  }

  /** One call: from callee state n at its header, seen from the caller mc. */
  lemma {:induction false} CallEnds(c: Code, s: Stmt, vis: set<nat>, fd: nat, m: M, mc: M, n: M) returns (m': M)
    requires IsLoop(s) && ScopedAt(s, vis) && vis !! Decl(s)
    requires HeadAgree(c, s, vis * Ref(s), fd, m, n) && Outside(s, m, mc)
    ensures var o := Loop(c, s, fd, Self, n);
            if o.Susp? then
              Loop(c, s, fd, Inline, m) == Loop(c, s, fd, Inline, m')
                && Alike(c, s, vis * Ref(s), fd, m', Back(c, s, fd, mc, o.m))
            else SameEnd(s, Loop(c, s, fd, Inline, m), Returned(c, s, fd, mc, o))
  {
    ShareOf(c, s, vis);
    m' := SelfSame(c, s, vis * Ref(s), fd, m, n);
    var o, q := Loop(c, s, fd, Self, n), Loop(c, s, fd, Inline, m);
    if o.Susp? {
      BackAlike(c, s, vis, fd, m, m', mc, o.m);
    } else {
      LoopNotBrk(c, s, fd, Inline, m);
      LoopKept(c, s, fd, Inline, m);
      if q.Norm? { BackOutside(c, s, vis, fd, m, q.m, mc, o.m); }
    }
  }

  lemma {:induction false} ResumedSame(c: Code, s: Stmt, vis: set<nat>, fd: nat, m: M, mc: M, budget: nat)
    requires IsLoop(s) && ScopedAt(s, vis) && vis !! Decl(s) && budget >= 1 && Alike(c, s, vis * Ref(s), fd, m, mc)
    ensures SameEnd(s, Loop(c, s, fd, Inline, m), CallLoop(c, s, fd, true, mc, budget))
    decreases m.fuel
  {
    var n := FrameOf(c, s, fd, mc, budget);
    FrameAlike(c, s, vis, fd, m, mc, budget);
    var m' := CallEnds(c, s, vis, fd, m, mc, n);
    var o := Called(c, s, fd, true, mc, budget);
    if o.Susp? { ResumedSame(c, s, vis, fd, m', Back(c, s, fd, mc, o.m), budget); }
  }

  /** Outlining is unobservable for every budget: calling the outlined function until it
      is done ends like the loop in place, whether the calls start it or take it over
      after its setup. */
  lemma {:induction false} OutlineSame(c: Code, s: Stmt, vis: set<nat>, fd: nat, resume: bool, m: M, budget: nat)
    requires IsLoop(s) && ScopedAt(s, vis) && vis !! Decl(s) && budget >= 1
    requires resume && (s.ForNum? || s.ForGen?) ==> !CtlAt(m, fd).skip
    ensures SameEnd(s, InPlace(c, s, fd, resume, m), CallLoop(c, s, fd, resume, m, budget))
  {
    if resume {
      ResumedSame(c, s, vis, fd, m, m, budget);
    } else {
      StartedOutlined(c, s, vis, fd, m, budget);
    }
  }

  lemma {:induction false} StartedOutlined(c: Code, s: Stmt, vis: set<nat>, fd: nat, m: M, budget: nat)
    requires IsLoop(s) && ScopedAt(s, vis) && vis !! Decl(s) && budget >= 1
    ensures SameEnd(s, InPlace(c, s, fd, false, m), CallLoop(c, s, fd, false, m, budget))
  {
    ShareOf(c, s, vis);
    var S, n := vis * Ref(s), FrameOf(c, s, fd, m, budget);
    assert Agree(S, m, n);
    SetupSame(c, s, S, fd, m, n);
    SetupKept(c, s, fd, m);
    var t, u := Setup(c, s, fd, m), Setup(c, s, fd, n);
    assert Outside(s, t.m, m);
    var o := Called(c, s, fd, false, m, budget);
    if t.Go? {
      var m' := CallEnds(c, s, vis, fd, t.m, m, u.m);
      if o.Susp? { ResumedSame(c, s, vis, fd, m', Back(c, s, fd, m, o.m), budget); }
    } else if t.Stop? {
      BackOutside(c, s, vis, fd, t.m, t.m, m, u.m);
    }
  }

  /** So the budget itself is unobservable. */
  lemma {:induction false} AnyBudget(c: Code, s: Stmt, vis: set<nat>, fd: nat, m: M, one: nat, two: nat)
    requires IsLoop(s) && ScopedAt(s, vis) && vis !! Decl(s) && one >= 1 && two >= 1
    ensures SameEnd(s, CallLoop(c, s, fd, false, m, one), CallLoop(c, s, fd, false, m, two))
  {
    OutlineSame(c, s, vis, fd, false, m, one);
    OutlineSame(c, s, vis, fd, false, m, two);
  }
}
