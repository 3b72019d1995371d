/** Int boxes at run time (src/codegen/analysis.c, "Int boxes"): once the boxes are settled,
    every read of one gives an int, on every run and under both entries of a function. */
module IntRuns {
  import opened Options
  import opened Numbers
  import opened Upvalues
  import opened Bindings
  import opened IntBoxes

  // ----- what the other analyses promise -----

  /** ibox_init: candidates are captured, and no parameters. */
  ghost predicate Candidates(p: Prog, boxes: set<Var>)
    requires ProgOk(p)
  {
    forall x | x in boxes :: x.0 < |p.fns| && p.fns[x.0].params <= x.1 && x.1 in p.tabs[x.0].captured
  }

  /** compute_int_slots: no captured slot, a parameter only where the signature is followed
      and says int, and every store one int-typed value. */
  ghost predicate SlotsRight(p: Prog, m: Binds, cx: Cx, typed: bool)
    requires ProgOk(p) && cx.f < |p.fns|
  {
    && (forall s | s in cx.ints ::
          s !in p.tabs[cx.f].captured && (s < p.fns[cx.f].params ==> typed && IntParam(cx.sg, cx.f, s)))
    && Stores(p, m, cx, p.fns[cx.f].body)
  }

  predicate IntParam(sg: Sigs, f: nat, s: nat) { f < |sg| && s < |sg[f].params| && sg[f].params[s] }

  /** Every store of ss into an int slot is one int-typed value (typed_kill_stmt). */
  ghost predicate Stores(p: Prog, m: Binds, cx: Cx, ss: Stmts)
    requires TabsOk(p.tabs) && cx.f < |p.tabs|
    decreases ss
  {
    match ss case Nil => true case Cons(s, tl) => StoresAt(p, m, cx, s) && Stores(p, m, cx, tl)
  }

  ghost predicate StoresAt(p: Prog, m: Binds, cx: Cx, s: Stmt)
    requires TabsOk(p.tabs) && cx.f < |p.tabs|
    decreases s
  {
    match s
    case LocalVals(slots, close, es) =>
      forall j | 0 <= j < |slots| && slots[j] in cx.ints ::
        !Closes(close, j) && Count(es) == |slots| && IsInt(p, m, cx, Nth(es, j))
    case Assign(ts, es) =>
      forall j | 0 <= j < |ts| && ts[j].ToLocal? && ts[j].s in cx.ints ::
        |ts| == 1 && Count(es) == 1 && IsInt(p, m, cx, es.e)
    case LocalFun(slot, _) => slot !in cx.ints
    case ForNum(slot, a, _, d, b) =>
      (slot in cx.ints ==> IsInt(p, m, cx, a) && IsInt(p, m, cx, d)) && Stores(p, m, cx, b)
    case ForGen(slots, _, b) => (forall j | 0 <= j < |slots| :: slots[j] !in cx.ints) && Stores(p, m, cx, b)
    case If(_, thn, els) => Stores(p, m, cx, thn) && Stores(p, m, cx, els)
    case While(_, b) => Stores(p, m, cx, b)
    case _ => true
  }

  /** stmt_always_returns. */
  predicate Always(ss: Stmts)
    decreases ss
  {
    ss.Cons? && if ss.tl.Nil? then AlwaysAt(ss.hd) else Always(ss.tl)
  }

  predicate AlwaysAt(s: Stmt)
    decreases s
  {
    match s case Return(_) => true case If(_, thn, els) => Always(thn) && Always(els) case _ => false
  }

  ghost predicate Returns(p: Prog, m: Binds, cx: Cx, ss: Stmts)
    requires TabsOk(p.tabs) && cx.f < |p.tabs|
    decreases ss
  {
    match ss case Nil => true case Cons(s, tl) => ReturnsAt(p, m, cx, s) && Returns(p, m, cx, tl)
  }

  ghost predicate ReturnsAt(p: Prog, m: Binds, cx: Cx, s: Stmt)
    requires TabsOk(p.tabs) && cx.f < |p.tabs|
    decreases s
  {
    match s
    case Return(e) => IsInt(p, m, cx, e)
    case If(_, thn, els) => Returns(p, m, cx, thn) && Returns(p, m, cx, els)
    case While(_, b) => Returns(p, m, cx, b)
    case ForNum(_, _, _, _, b) => Returns(p, m, cx, b)
    case ForGen(_, _, b) => Returns(p, m, cx, b)
    case _ => true
  }

  /** infer_signatures at rest: an int result is one, with the parameters as the signature
      says (compute_ret_ty), and a function without direct calls has none. */
  ghost predicate RetRight(p: Prog, m: Binds, t: Typing, boxes: set<Var>, sg: Sigs, f: nat)
    requires ProgOk(p) && f < |p.fns|
  {
    f < |sg| && sg[f].ret ==>
      HasSite(sg, f) && Always(p.fns[f].body) && Returns(p, m, BodyCx(t, boxes, sg, f, true), p.fns[f].body)
  }

  /** What the alternation ends with. */
  ghost predicate Right(p: Prog, m: Binds, t: Typing, boxes: set<Var>, sg: Sigs) {
    && ProgOk(p) && MapOk(p, m) && Candidates(p, boxes) && Settled(p, m, t, boxes, sg)
    && forall f: nat | f < |p.fns| :: RightFn(p, m, t, boxes, sg, f)
  }

  ghost predicate RightFn(p: Prog, m: Binds, t: Typing, boxes: set<Var>, sg: Sigs, f: nat)
    requires ProgOk(p) && f < |p.fns|
  {
    && SlotsRight(p, m, BodyCx(t, boxes, sg, f, false), false)
    && SlotsRight(p, m, BodyCx(t, boxes, sg, f, true), true)
    && RetRight(p, m, t, boxes, sg, f)
  }

  // ----- what holds on every run -----

  predicate IntV(v: V) { v.VNone? || v.VInt? }

  ghost predicate HeapInt(boxes: set<Var>, st: St) {
    forall b | 0 <= b < |st.heap| && st.heap[b].of in boxes :: IntV(st.heap[b].v)
  }

  /** Captured slots are in boxes, the others are not; int slots hold ints. */
  ghost predicate SlotInt(p: Prog, cx: Cx, s: nat, c: Slot)
    requires ProgOk(p) && cx.f < |p.tabs|
  {
    (s in p.tabs[cx.f].captured <==> c.Boxed?) && (s in cx.ints && c.Plain? ==> IntV(c.v))
  }

  ghost predicate FrameInt(p: Prog, cx: Cx, fr: Frame)
    requires ProgOk(p) && cx.f < |p.tabs|
  {
    fr.f == cx.f && forall s: nat | s < |fr.slots| :: SlotInt(p, cx, s, fr.slots[s])
  }

  /** A state in the body of cx.f. */
  ghost predicate Inside(p: Prog, m: Binds, cx: Cx, fr: Frame, st: St) {
    && ProgOk(p) && cx.f < |p.fns| && StOk(p, m, st) && FrameOk(p, m, st.heap, fr)
    && HeapInt(cx.boxes, st) && FrameInt(p, cx, fr)
  }

  /** The context of one of f's two entries. */
  ghost predicate Entry(p: Prog, m: Binds, t: Typing, boxes: set<Var>, sg: Sigs, cx: Cx) {
    && Right(p, m, t, boxes, sg) && cx.f < |p.fns|
    && (cx == BodyCx(t, boxes, sg, cx.f, false)
        || (HasSite(sg, cx.f) && cx == BodyCx(t, boxes, sg, cx.f, true)))
  }

  lemma {:induction false} EntryHas(p: Prog, m: Binds, t: Typing, boxes: set<Var>, sg: Sigs, cx: Cx)
    requires Entry(p, m, t, boxes, sg, cx)
    ensures cx.boxes == boxes && cx.sg == sg
    ensures Holds(p, m, cx, p.fns[cx.f].body) && Stores(p, m, cx, p.fns[cx.f].body)
    ensures forall s | s in cx.ints :: s !in p.tabs[cx.f].captured
    ensures forall x | x in boxes :: x.0 < |p.fns| && x.1 in p.tabs[x.0].captured
  {
    assert SettledFn(p, m, t, boxes, sg, cx.f) && RightFn(p, m, t, boxes, sg, cx.f);
  }

  // ----- storing -----

  /** A value that may be put into slot s of cx.f. */
  predicate Suits(cx: Cx, s: nat, v: V) { (cx.f, s) in cx.boxes || s in cx.ints ==> IntV(v) }

  lemma {:induction false} BindInt(p: Prog, m: Binds, cx: Cx, fr: Frame, s: nat, v: V, st: St)
    requires Inside(p, m, cx, fr, st) && Suits(cx, s, v) && ValOk(p, st.heap, v) && Says(m, (fr.f, s), v)
    ensures var (fr', st') := Bind(p, fr, s, v, st);
            Inside(p, m, cx, fr', st') && Kept(st.heap, st'.heap)
  {
    BindOk(p, m, fr, s, v, st);
    var (fr', st') := Bind(p, fr, s, v, st);
    forall u: nat | u < |fr'.slots| ensures SlotInt(p, cx, u, fr'.slots[u]) {
      assert u < |fr.slots| && SlotInt(p, cx, u, fr.slots[u]);
    }
  }

  ghost predicate AllSuit(cx: Cx, slots: seq<nat>, vs: seq<V>) {
    forall j | 0 <= j < |slots| :: Suits(cx, slots[j], if j < |vs| then vs[j] else VNil)
  }

  lemma {:induction false} BindAllInt(p: Prog, m: Binds, cx: Cx, fr: Frame, slots: seq<nat>, vs: seq<V>, st: St)
    requires Inside(p, m, cx, fr, st) && AllSuit(cx, slots, vs) && Fit(p, m, st.heap, fr.f, slots, vs)
    ensures var (fr', st') := BindAll(p, fr, slots, vs, st);
            Inside(p, m, cx, fr', st') && Kept(st.heap, st'.heap)
    decreases |slots|
  {
    if slots != [] {
      var v, rest := if vs == [] then VNil else vs[0], if vs == [] then [] else vs[1..];
      assert Suits(cx, slots[0], v);
      BindInt(p, m, cx, fr, slots[0], v, st);
      var (fr', st') := Bind(p, fr, slots[0], v, st);
      FitTail(p, m, st.heap, st'.heap, fr.f, slots, vs);
      forall j | 0 <= j < |slots[1..]| ensures Suits(cx, slots[1..][j], if j < |rest| then rest[j] else VNil) {
        assert Suits(cx, slots[j + 1], if j + 1 < |vs| then vs[j + 1] else VNil);
      }
      BindAllInt(p, m, cx, fr', slots[1..], rest, st');
    }
  }

  /** A value that may be stored to a target. */
  ghost predicate SuitsAt(p: Prog, cx: Cx, tg: Target, v: V)
    requires ProgOk(p) && cx.f < |p.tabs|
  {
    && (Written(p, cx.f, tg).Some? && Written(p, cx.f, tg).value in cx.boxes ==> IntV(v))
    && (tg.ToLocal? && tg.s in cx.ints ==> IntV(v))
  }

  lemma {:induction false} StoreInt(p: Prog, m: Binds, cx: Cx, fr: Frame, tg: Target, v: V, st: St)
    requires Inside(p, m, cx, fr, st) && SuitsAt(p, cx, tg, v) && ValOk(p, st.heap, v)
    requires Written(p, fr.f, tg).Some? ==> Says(m, Written(p, fr.f, tg).value, v)
    ensures var (fr', st') := Store(fr, tg, v, st);
            Inside(p, m, cx, fr', st') && Kept(st.heap, st'.heap)
  {
    StoreOk(p, m, fr, tg, v, st);
    var (fr', st') := Store(fr, tg, v, st);
    if tg.ToLocal? && tg.s < |fr.slots| { assert SlotOk(p, m, st.heap, fr.f, tg.s, fr.slots[tg.s]); }
    forall u: nat | u < |fr'.slots| ensures SlotInt(p, cx, u, fr'.slots[u]) {
      assert SlotInt(p, cx, u, fr.slots[u]);
    }
  }

  lemma {:induction false} StoreAllInt(p: Prog, m: Binds, cx: Cx, fr: Frame, ts: seq<Target>, vs: seq<V>, st: St)
    requires Inside(p, m, cx, fr, st) && forall j | 0 <= j < |vs| :: ValOk(p, st.heap, vs[j])
    requires forall j | 0 <= j < |ts| :: SuitsAt(p, cx, ts[j], if j < |vs| then vs[j] else VNil)
    requires forall j | 0 <= j < |ts| && Written(p, fr.f, ts[j]).Some? :: Written(p, fr.f, ts[j]).value !in m
    ensures var (fr', st') := StoreAll(fr, ts, vs, st);
            Inside(p, m, cx, fr', st') && Kept(st.heap, st'.heap)
    decreases |ts|
  {
    if ts != [] {
      var v, rest := if vs == [] then VNil else vs[0], if vs == [] then [] else vs[1..];
      assert SuitsAt(p, cx, ts[0], v);
      StoreInt(p, m, cx, fr, ts[0], v, st);
      var (fr', st') := Store(fr, ts[0], v, st);
      forall j | 0 <= j < |rest| ensures ValOk(p, st'.heap, rest[j]) { ValKept(p, st.heap, st'.heap, vs[j + 1]); }
      forall j | 0 <= j < |ts[1..]|
        ensures SuitsAt(p, cx, ts[1..][j], if j < |rest| then rest[j] else VNil)
        ensures Written(p, fr'.f, ts[1..][j]).Some? ==> Written(p, fr'.f, ts[1..][j]).value !in m {
        assert SuitsAt(p, cx, ts[j + 1], if j + 1 < |vs| then vs[j + 1] else VNil) && ts[1..][j] == ts[j + 1];
      }
      StoreAllInt(p, m, cx, fr', ts[1..], rest, st');
    }
  }

  // ----- evaluating -----

  /** Reading a surviving box, or an int slot, gives an int. */
  lemma {:induction false} ReadsInt(p: Prog, m: Binds, t: Typing, boxes: set<Var>, sg: Sigs, cx: Cx, e: Expr,
        fr: Frame, st: St, fuel: nat)
    requires Entry(p, m, t, boxes, sg, cx) && Inside(p, m, cx, fr, st)
    requires (e.GetLocal? || e.GetUpval?) && IsInt(p, m, cx, e)
    ensures var r := Eval(p, e, fr, st, fuel); r.st == st && (r.Ok? ==> r.v.VInt?)
  {
    EntryHas(p, m, t, boxes, sg, cx);
    if e.GetLocal? && e.s < |fr.slots| {
      assert SlotOk(p, m, st.heap, fr.f, e.s, fr.slots[e.s]) && SlotInt(p, cx, e.s, fr.slots[e.s]);
    }
  }

  ghost predicate ResInt(p: Prog, boxes: set<Var>, isInt: bool, r: Res<V>) {
    HeapInt(boxes, r.st) && (isInt && r.Ok? ==> r.v.VInt?)
  }

  lemma {:induction false} EvalInt(p: Prog, m: Binds, t: Typing, boxes: set<Var>, sg: Sigs, cx: Cx, e: Expr,
      fr: Frame, st: St, fuel: nat)
    requires Entry(p, m, t, boxes, sg, cx) && Inside(p, m, cx, fr, st) && Nested(p, fr.f, e)
    ensures ResInt(p, boxes, IsInt(p, m, cx, e), Eval(p, e, fr, st, fuel))
    decreases fuel, 1, e, 1
  {
    EntryHas(p, m, t, boxes, sg, cx);
    match e
    case GetLocal(_) => if IsInt(p, m, cx, e) { ReadsInt(p, m, t, boxes, sg, cx, e, fr, st, fuel); }
    case GetUpval(_) => if IsInt(p, m, cx, e) { ReadsInt(p, m, t, boxes, sg, cx, e, fr, st, fuel); }
    case Call(_, _) => CallInt(p, m, t, boxes, sg, cx, e, fr, st, fuel);
    case Arith(op, l, r) =>
      EvalInt(p, m, t, boxes, sg, cx, l, fr, st, fuel);
      var a := Eval(p, l, fr, st, fuel);
      if a.Ok? {
        Onward(p, m, cx, l, fr, st, fuel);
        EvalInt(p, m, t, boxes, sg, cx, r, fr, a.st, fuel);
      }
    case Unary(_, x) => EvalInt(p, m, t, boxes, sg, cx, x, fr, st, fuel);
    case _ =>
  }

  /** The frame as it is after an expression. */
  lemma {:induction false} Onward(p: Prog, m: Binds, cx: Cx, e: Expr, fr: Frame, st: St, fuel: nat)
    requires Inside(p, m, cx, fr, st) && MapOk(p, m) && Nested(p, fr.f, e)
    requires HeapInt(cx.boxes, Eval(p, e, fr, st, fuel).st)
    ensures var r := Eval(p, e, fr, st, fuel);
            Inside(p, m, cx, fr, r.st) && Kept(st.heap, r.st.heap) && (r.Ok? ==> ValOk(p, r.st.heap, r.v))
  {
    EvalOk(p, m, e, fr, st, fuel);
    FrameKept(p, m, st.heap, Eval(p, e, fr, st, fuel).st.heap, fr);
  }

  lemma {:induction false} CallInt(p: Prog, m: Binds, t: Typing, boxes: set<Var>, sg: Sigs, cx: Cx, e: Expr,
      fr: Frame, st: St, fuel: nat)
    requires Entry(p, m, t, boxes, sg, cx) && Inside(p, m, cx, fr, st) && Nested(p, fr.f, e) && e.Call?
    ensures ResInt(p, boxes, IsInt(p, m, cx, e), Eval(p, e, fr, st, fuel))
    decreases fuel, 1, e, 0
  {
    EntryHas(p, m, t, boxes, sg, cx);
    EvalInt(p, m, t, boxes, sg, cx, e.callee, fr, st, fuel);
    Onward(p, m, cx, e.callee, fr, st, fuel);
    var c := Eval(p, e.callee, fr, st, fuel);
    if c.Ok? {
      AllInt(p, m, t, boxes, sg, cx, e.args, fr, c.st, fuel);
      var vs := EvalAll(p, e.args, fr, c.st, fuel);
      if vs.Ok? && c.v.VClo? {
        ValKept(p, c.st.heap, vs.st.heap, c.v);
        var typed := IsInt(p, m, cx, e);
        if typed { Direct(p, m, t, boxes, sg, cx, e, fr, st, vs.v, fuel); }
        InvokeInt(p, m, t, boxes, sg, c.v.f, c.v.boxes, vs.v, typed, vs.st, fuel);
      }
    }
  }

  /** A direct call with a known int result: what is called, and that its arguments suit. */
  lemma {:induction false} Direct(p: Prog, m: Binds, t: Typing, boxes: set<Var>, sg: Sigs, cx: Cx, e: Expr,
        fr: Frame, st: St,
      args: seq<V>, fuel: nat)
    requires Entry(p, m, t, boxes, sg, cx) && Inside(p, m, cx, fr, st) && e.Call? && IsInt(p, m, cx, e)
    requires |args| == Count(e.args) && forall j | 0 <= j < |args| && IsInt(p, m, cx, Nth(e.args, j)) :: args[j].VInt?
    ensures var r := Eval(p, e.callee, fr, st, fuel);
            r.Ok? && r.v.VClo? ==> r.v.f < |p.fns| && r.v.f < |sg| && sg[r.v.f].ret && Suited(p, sg, r.v.f, args)
  {
    EntryHas(p, m, t, boxes, sg, cx);
    var k := DirectTo(p, m, cx.f, e.callee, e.args).value;
    CalleeIs(p, m, e.callee, fr, st, fuel);
    assert RightFn(p, m, t, boxes, sg, k);
    forall j: nat | j < |args| && IntParam(sg, k, j) ensures args[j].VInt? {
      ArgIsInt(p, m, cx, sg[k].params, 0, e.args, j);
    }
  }

  lemma {:induction false} ArgIsInt(p: Prog, m: Binds, cx: Cx, ps: seq<bool>, i: nat, es: Exprs, j: nat)
    requires TabsOk(p.tabs) && cx.f < |p.tabs| && ArgsInt(p, m, cx, ps, i, es) && j < Count(es)
    requires i + j < |ps| && ps[i + j]
    ensures IsInt(p, m, cx, Nth(es, j))
    decreases j
  {
    if j > 0 { ArgIsInt(p, m, cx, ps, i + 1, es.es, j - 1); }
  }

  /** Arguments for the typed entry of f. */
  ghost predicate Suited(p: Prog, sg: Sigs, f: nat, args: seq<V>)
    requires f < |p.fns|
  {
    HasSite(sg, f) && |args| == p.fns[f].params && forall j: nat | j < |args| && IntParam(sg, f, j) :: args[j].VInt?
  }

  lemma {:induction false} AllInt(p: Prog, m: Binds, t: Typing, boxes: set<Var>, sg: Sigs, cx: Cx, es: Exprs,
      fr: Frame, st: St, fuel: nat)
    requires Entry(p, m, t, boxes, sg, cx) && Inside(p, m, cx, fr, st) && NestedAll(p, fr.f, es)
    ensures var vs := EvalAll(p, es, fr, st, fuel);
            && Inside(p, m, cx, fr, vs.st) && Kept(st.heap, vs.st.heap)
            && (vs.Ok? ==> |vs.v| == Count(es) && (forall j | 0 <= j < |vs.v| :: ValOk(p, vs.st.heap, vs.v[j]))
                           && forall j | 0 <= j < |vs.v| && IsInt(p, m, cx, Nth(es, j)) :: vs.v[j].VInt?)
    decreases fuel, 1, es
  {
    EntryHas(p, m, t, boxes, sg, cx);
    if es.ECons? {
      EvalInt(p, m, t, boxes, sg, cx, es.e, fr, st, fuel);
      Onward(p, m, cx, es.e, fr, st, fuel);
      var a := Eval(p, es.e, fr, st, fuel);
      if a.Ok? {
        AllInt(p, m, t, boxes, sg, cx, es.es, fr, a.st, fuel);
        var vs := EvalAll(p, es.es, fr, a.st, fuel);
        if vs.Ok? {
          ValKept(p, a.st.heap, vs.st.heap, a.v);
          MoreInt(p, m, cx, es, a.v, vs.v);
        }
      }
    }
  }

  lemma {:induction false} MoreInt(p: Prog, m: Binds, cx: Cx, es: Exprs, v: V, vs: seq<V>)
    requires TabsOk(p.tabs) && cx.f < |p.tabs| && es.ECons? && |vs| == Count(es.es)
    requires IsInt(p, m, cx, es.e) ==> v.VInt?
    requires forall j | 0 <= j < |vs| && IsInt(p, m, cx, Nth(es.es, j)) :: vs[j].VInt?
    ensures forall j | 0 <= j < |[v] + vs| && IsInt(p, m, cx, Nth(es, j)) :: ([v] + vs)[j].VInt?
  {
    forall j | 0 <= j < |[v] + vs| && IsInt(p, m, cx, Nth(es, j)) ensures ([v] + vs)[j].VInt? {
      if j > 0 { assert Nth(es, j) == Nth(es.es, j - 1) && ([v] + vs)[j] == vs[j - 1]; }
    }
  }

  // ----- calls -----

  /** A call through either entry: boxes keep their ints, and an int result is an int. */
  lemma {:induction false} InvokeInt(p: Prog, m: Binds, t: Typing, boxes: set<Var>, sg: Sigs, f: nat, clo: seq<nat>,
      args: seq<V>, typed: bool, st: St, fuel: nat)
    requires Right(p, m, t, boxes, sg) && StOk(p, m, st) && f < |p.fns| && CloOk(p, st.heap, f, clo)
    requires (forall j | 0 <= j < |args| :: ValOk(p, st.heap, args[j])) && HeapInt(boxes, st)
    requires typed ==> Suited(p, sg, f, args)
    ensures ResInt(p, boxes, typed && sg[f].ret, Invoke(p, f, clo, args, st, fuel))
    decreases fuel, 0
  {
    if fuel > 0 {
      var cx := BodyCx(t, boxes, sg, f, typed);
      assert SettledFn(p, m, t, boxes, sg, f) && RightFn(p, m, t, boxes, sg, f);
      var fr, st1 := Enters(p, m, t, boxes, sg, cx, clo, args, typed, st, fuel);
      BodyInt(p, m, t, boxes, sg, cx, typed, fr, st1, fuel - 1);
    }
  }

  /** The body starts in a frame and a state that are as they should be. */
  lemma {:induction false} Enters(p: Prog, m: Binds, t: Typing, boxes: set<Var>, sg: Sigs, cx: Cx, clo: seq<nat>,
        args: seq<V>,
      typed: bool, st: St, fuel: nat) returns (fr: Frame, st1: St)
    requires Entry(p, m, t, boxes, sg, cx) && cx == BodyCx(t, boxes, sg, cx.f, typed) && fuel > 0
    requires StOk(p, m, st) && CloOk(p, st.heap, cx.f, clo) && HeapInt(boxes, st)
    requires forall j | 0 <= j < |args| :: ValOk(p, st.heap, args[j])
    requires typed ==> Suited(p, sg, cx.f, args)
    ensures Inside(p, m, cx, fr, st1)
    ensures Invoke(p, cx.f, clo, args, st, fuel) == Ended(Run(p, p.fns[cx.f].body, fr, st1, fuel - 1))
  {
    EntersInt(p, m, t, boxes, sg, cx, clo, args, typed, st);
    var (slots, st0) := Blank(p, cx.f, p.fns[cx.f].params + p.fns[cx.f].locals, st);
    var entered := BindAll(p, Frame(cx.f, slots, clo), Upto(p.fns[cx.f].params), args, st0);
    fr, st1 := entered.0, entered.1;
  }

  /** What a call gives for the end of its body. */
  function Ended(r: Flow): Res<V> {
    match r case Next(_, st) => Ok(VNil, st) case Ret(v, st) => Ok(v, st) case Fail(e, st) => Err(e, st)
  }

  /** A body runs to its end: under typed parameters an int result is one. */
  lemma {:induction false} BodyInt(p: Prog, m: Binds, t: Typing, boxes: set<Var>, sg: Sigs, cx: Cx, typed: bool,
      fr: Frame, st: St, fuel: nat)
    requires Entry(p, m, t, boxes, sg, cx) && Inside(p, m, cx, fr, st) && cx == BodyCx(t, boxes, sg, cx.f, typed)
    requires typed ==> HasSite(sg, cx.f)
    ensures var r := Run(p, p.fns[cx.f].body, fr, st, fuel);
            HeapInt(boxes, r.st) && (typed && sg[cx.f].ret ==> !r.Next? && (r.Ret? ==> r.v.VInt?))
    decreases fuel, 3
  {
    EntryHas(p, m, t, boxes, sg, cx);
    assert RightFn(p, m, t, boxes, sg, cx.f);
    RunInt(p, m, t, boxes, sg, cx, p.fns[cx.f].body, fr, st, fuel);
    if typed && sg[cx.f].ret { NeverFalls(p, p.fns[cx.f].body, fr, st, fuel); }
  }

  lemma {:induction false} BlankInt(p: Prog, m: Binds, cx: Cx, n: nat, st: St)
    requires ProgOk(p) && cx.f < |p.fns| && StOk(p, m, st) && HeapInt(cx.boxes, st)
    ensures var (slots, st') := Blank(p, cx.f, n, st);
            HeapInt(cx.boxes, st') && |slots| == n && forall s: nat | s < n :: SlotInt(p, cx, s, slots[s])
    decreases n
  {
    if n > 0 { BlankInt(p, m, cx, n - 1, st); }
  }

  lemma {:induction false} EntersInt(p: Prog, m: Binds, t: Typing, boxes: set<Var>, sg: Sigs, cx: Cx, clo: seq<nat>,
        args: seq<V>,
      typed: bool, st: St)
    requires Entry(p, m, t, boxes, sg, cx) && cx == BodyCx(t, boxes, sg, cx.f, typed)
    requires StOk(p, m, st) && CloOk(p, st.heap, cx.f, clo) && HeapInt(boxes, st)
    requires forall j | 0 <= j < |args| :: ValOk(p, st.heap, args[j])
    requires typed ==> Suited(p, sg, cx.f, args)
    ensures var (slots, st1) := Blank(p, cx.f, p.fns[cx.f].params + p.fns[cx.f].locals, st);
            var (fr, st2) := BindAll(p, Frame(cx.f, slots, clo), Upto(p.fns[cx.f].params), args, st1);
            Inside(p, m, cx, fr, st2)
  {
    var f := cx.f;
    BlankOk(p, m, f, p.fns[f].params + p.fns[f].locals, st);
    BlankInt(p, m, cx, p.fns[f].params + p.fns[f].locals, st);
    var (slots, st1) := Blank(p, f, p.fns[f].params + p.fns[f].locals, st);
    ParamsFit(p, m, f, args, st.heap, st1.heap);
    BlankFrame(p, m, f, clo, slots, st.heap, st1.heap);
    ParamsSuit(p, m, t, boxes, sg, cx, args, typed);
    BindAllInt(p, m, cx, Frame(f, slots, clo), Upto(p.fns[f].params), args, st1);
  }

  lemma {:induction false} ParamsSuit(p: Prog, m: Binds, t: Typing, boxes: set<Var>, sg: Sigs, cx: Cx, args: seq<V>,
        typed: bool)
    requires Entry(p, m, t, boxes, sg, cx) && cx == BodyCx(t, boxes, sg, cx.f, typed)
    requires typed ==> Suited(p, sg, cx.f, args)
    ensures AllSuit(cx, Upto(p.fns[cx.f].params), args)
  {
    assert RightFn(p, m, t, boxes, sg, cx.f);
    forall j | 0 <= j < p.fns[cx.f].params ensures Suits(cx, j, if j < |args| then args[j] else VNil) {
      assert (cx.f, j) !in boxes;
    }
  }

  // ----- running -----

  ghost predicate FlowInt(p: Prog, m: Binds, cx: Cx, rets: bool, st: St, r: Flow) {
    && HeapInt(cx.boxes, r.st) && (r.Next? ==> Inside(p, m, cx, r.fr, r.st))
    && (r.Ret? && rets ==> r.v.VInt?) && Kept(st.heap, r.st.heap)
  }

  lemma {:induction false} NeverFalls(p: Prog, ss: Stmts, fr: Frame, st: St, fuel: nat)
    requires Always(ss)
    ensures !Run(p, ss, fr, st, fuel).Next?
    decreases ss
  {
    var r := Step(p, ss.hd, fr, st, fuel);
    if ss.tl.Nil? {
      if ss.hd.If? {
        var v := Eval(p, ss.hd.c, fr, st, fuel);
        if v.Ok? { NeverFalls(p, if Truthy(v.v) then ss.hd.thn else ss.hd.els, fr, v.st, fuel); }
      }
    } else if r.Next? {
      NeverFalls(p, ss.tl, r.fr, r.st, fuel);
    }
  }

  lemma {:induction false} RunInt(p: Prog, m: Binds, t: Typing, boxes: set<Var>, sg: Sigs, cx: Cx, ss: Stmts,
      fr: Frame, st: St, fuel: nat)
    requires Entry(p, m, t, boxes, sg, cx) && Inside(p, m, cx, fr, st)
    requires NestedIn(p, fr.f, ss) && Respects(p, m, fr.f, ss) && Holds(p, m, cx, ss) && Stores(p, m, cx, ss)
    ensures FlowInt(p, m, cx, Returns(p, m, cx, ss), st, Run(p, ss, fr, st, fuel))
    decreases fuel, 2, ss, 4
  {
    EntryHas(p, m, t, boxes, sg, cx);
    if ss.Cons? {
      StepInt(p, m, t, boxes, sg, cx, ss.hd, fr, st, fuel);
      var r := Step(p, ss.hd, fr, st, fuel);
      if r.Next? { RunInt(p, m, t, boxes, sg, cx, ss.tl, r.fr, r.st, fuel); }
    }
  }

  ghost predicate Ready(p: Prog, m: Binds, t: Typing, boxes: set<Var>, sg: Sigs, cx: Cx, s: Stmt, fr: Frame, st: St) {
    && Entry(p, m, t, boxes, sg, cx) && Inside(p, m, cx, fr, st)
    && NestedAt(p, fr.f, s) && RespectsAt(p, m, fr.f, s) && HoldsAt(p, m, cx, s) && StoresAt(p, m, cx, s)
  }

  lemma {:induction false} StepInt(p: Prog, m: Binds, t: Typing, boxes: set<Var>, sg: Sigs, cx: Cx, s: Stmt,
      fr: Frame, st: St, fuel: nat)
    requires Ready(p, m, t, boxes, sg, cx, s, fr, st)
    ensures FlowInt(p, m, cx, ReturnsAt(p, m, cx, s), st, Step(p, s, fr, st, fuel))
    decreases fuel, 2, s, 3
  {
    match s
    case LocalFun(_, _) => LocalFunInt(p, m, t, boxes, sg, cx, s, fr, st, fuel);
    case LocalVals(_, _, _) => LocalInt(p, m, t, boxes, sg, cx, s, fr, st, fuel);
    case Assign(_, _) => AssignInt(p, m, t, boxes, sg, cx, s, fr, st, fuel);
    case ForNum(_, _, _, _, _) => ForNumInt(p, m, t, boxes, sg, cx, s, fr, st, fuel);
    case ForGen(_, it, _) =>
      EntryHas(p, m, t, boxes, sg, cx);
      EvalInt(p, m, t, boxes, sg, cx, it, fr, st, fuel);
      Onward(p, m, cx, it, fr, st, fuel);
      var v := Eval(p, it, fr, st, fuel);
      if v.Ok? { IterateInt(p, m, t, boxes, sg, cx, s, v.v, fr, v.st, fuel); }
    case _ => BranchInt(p, m, t, boxes, sg, cx, s, fr, st, fuel);
  }

  lemma {:induction false} LocalFunInt(p: Prog, m: Binds, t: Typing, boxes: set<Var>, sg: Sigs, cx: Cx, s: Stmt,
      fr: Frame, st: St, fuel: nat)
    requires Ready(p, m, t, boxes, sg, cx, s, fr, st) && s.LocalFun?
    ensures FlowInt(p, m, cx, true, st, Step(p, s, fr, st, fuel))
  {
    EntryHas(p, m, t, boxes, sg, cx);
    BindInt(p, m, cx, fr, s.slot, VNone, st);
    var (fr1, st1) := Bind(p, fr, s.slot, VNone, st);
    CaughtOk(p, m, fr1, st1.heap, s.f, |p.tabs[s.f].upvals|);
    assert p.tabs[s.f].upvals[..|p.tabs[s.f].upvals|] == p.tabs[s.f].upvals;
    var v := Eval(p, Fun(s.f), fr1, st1, fuel);
    if v.Ok? { StoreInt(p, m, cx, fr1, ToLocal(s.slot), v.v, v.st); }
  }

  lemma {:induction false} LocalInt(p: Prog, m: Binds, t: Typing, boxes: set<Var>, sg: Sigs, cx: Cx, s: Stmt,
      fr: Frame, st: St, fuel: nat)
    requires Ready(p, m, t, boxes, sg, cx, s, fr, st) && s.LocalVals?
    ensures FlowInt(p, m, cx, true, st, Step(p, s, fr, st, fuel))
    decreases fuel, 2, s, 2
  {
    EntryHas(p, m, t, boxes, sg, cx);
    AllInt(p, m, t, boxes, sg, cx, s.es, fr, st, fuel);
    AllOk(p, m, s.es, fr, st, fuel);
    var vs := EvalAll(p, s.es, fr, st, fuel);
    if vs.Ok? {
      forall j | 0 <= j < |s.slots| ensures Suits(cx, s.slots[j], if j < |vs.v| then vs.v[j] else VNil) {
        if (cx.f, s.slots[j]) in cx.boxes { assert IntDecl(p, m, cx, s, j); }
      }
      BindAllInt(p, m, cx, fr, s.slots, vs.v, vs.st);
    }
  }

  lemma {:induction false} AssignInt(p: Prog, m: Binds, t: Typing, boxes: set<Var>, sg: Sigs, cx: Cx, s: Stmt,
      fr: Frame, st: St, fuel: nat)
    requires Ready(p, m, t, boxes, sg, cx, s, fr, st) && s.Assign?
    ensures FlowInt(p, m, cx, true, st, Step(p, s, fr, st, fuel))
    decreases fuel, 2, s, 2
  {
    EntryHas(p, m, t, boxes, sg, cx);
    AllInt(p, m, t, boxes, sg, cx, s.es, fr, st, fuel);
    var vs := EvalAll(p, s.es, fr, st, fuel);
    if vs.Ok? {
      forall j | 0 <= j < |s.targets|
        ensures SuitsAt(p, cx, s.targets[j], if j < |vs.v| then vs.v[j] else VNil) {
        if Count(s.es) == 1 { assert Nth(s.es, 0) == s.es.e; }
      }
      StoreAllInt(p, m, cx, fr, s.targets, vs.v, vs.st);
    }
  }

  lemma {:induction false} ForNumInt(p: Prog, m: Binds, t: Typing, boxes: set<Var>, sg: Sigs, cx: Cx, s: Stmt,
      fr: Frame, st: St, fuel: nat)
    requires Ready(p, m, t, boxes, sg, cx, s, fr, st) && s.ForNum?
    ensures FlowInt(p, m, cx, ReturnsAt(p, m, cx, s), st, Step(p, s, fr, st, fuel))
    decreases fuel, 2, s, 2
  {
    EntryHas(p, m, t, boxes, sg, cx);
    var last := ECons(s.d, ENil);
    var es := ECons(s.a, ECons(s.z, last));
    assert NestedAll(p, fr.f, last) && NestedAll(p, fr.f, ECons(s.z, last));
    AllInt(p, m, t, boxes, sg, cx, es, fr, st, fuel);
    var vs := EvalAll(p, es, fr, st, fuel);
    if vs.Ok? && |vs.v| == 3 {
      assert Nth(es, 0) == s.a && Nth(es, 2) == Nth(last, 0) == s.d;
      TurnsInt(p, m, t, boxes, sg, cx, s, vs.v[0], vs.v[2], p.w.turns(vs.v[0], vs.v[1], vs.v[2]), 0, fr, vs.st, fuel);
    }
  }

  lemma {:induction false} TurnsInt(p: Prog, m: Binds, t: Typing, boxes: set<Var>, sg: Sigs, cx: Cx, s: Stmt,
      a: V, d: V, n: nat, k: nat, fr: Frame, st: St, fuel: nat)
    requires Ready(p, m, t, boxes, sg, cx, s, fr, st) && s.ForNum?
    requires s.slot in cx.ints ==> a.VInt? && d.VInt?
    ensures FlowInt(p, m, cx, ReturnsAt(p, m, cx, s), st, Turns(p, s, a, d, n, k, fr, st, fuel))
    decreases fuel, 2, s, 1
  {
    EntryHas(p, m, t, boxes, sg, cx);
    if k < n {
      BindInt(p, m, cx, fr, s.slot, Control(a, d, k), st);
      var (fr1, st1) := Bind(p, fr, s.slot, Control(a, d, k), st);
      RunInt(p, m, t, boxes, sg, cx, s.body, fr1, st1, fuel);
      var r := Run(p, s.body, fr1, st1, fuel);
      if r.Next? && fuel > 0 { TurnsInt(p, m, t, boxes, sg, cx, s, a, d, n, k + 1, r.fr, r.st, fuel - 1); }
    }
  }

  lemma {:induction false} IterateInt(p: Prog, m: Binds, t: Typing, boxes: set<Var>, sg: Sigs, cx: Cx, s: Stmt,
      it: V, fr: Frame, st: St, fuel: nat)
    requires Ready(p, m, t, boxes, sg, cx, s, fr, st) && s.ForGen? && ValOk(p, st.heap, it)
    ensures FlowInt(p, m, cx, ReturnsAt(p, m, cx, s), st, Iterate(p, s, it, fr, st, fuel))
    decreases fuel, 2, s, 1
  {
    EntryHas(p, m, t, boxes, sg, cx);
    if fuel > 0 && it.VClo? {
      AskInt(p, m, t, boxes, sg, cx, s, it, fr, st, fuel - 1);
      var v := Invoke(p, it.f, it.boxes, [], st, fuel - 1);
      if v.Ok? && !v.v.VNil? { OnceMoreInt(p, m, t, boxes, sg, cx, s, it, v.v, fr, v.st, fuel - 1); }
    }
  }

  lemma {:induction false} AskInt(p: Prog, m: Binds, t: Typing, boxes: set<Var>, sg: Sigs, cx: Cx, s: Stmt,
      it: V, fr: Frame, st: St, fuel: nat)
    requires Ready(p, m, t, boxes, sg, cx, s, fr, st) && it.VClo? && ValOk(p, st.heap, it)
    ensures var v := Invoke(p, it.f, it.boxes, [], st, fuel);
            && HeapInt(cx.boxes, v.st) && Kept(st.heap, v.st.heap)
            && (v.Ok? ==> Ready(p, m, t, boxes, sg, cx, s, fr, v.st) && ValOk(p, v.st.heap, it)
                          && ValOk(p, v.st.heap, v.v))
    decreases fuel, 1
  {
    EntryHas(p, m, t, boxes, sg, cx);
    InvokeInt(p, m, t, boxes, sg, it.f, it.boxes, [], false, st, fuel);
    InvokeOk(p, m, it.f, it.boxes, [], st, fuel);
    var v := Invoke(p, it.f, it.boxes, [], st, fuel);
    FrameKept(p, m, st.heap, v.st.heap, fr);
    ValKept(p, st.heap, v.st.heap, it);
  }

  lemma {:induction false} OnceMoreInt(p: Prog, m: Binds, t: Typing, boxes: set<Var>, sg: Sigs, cx: Cx, s: Stmt,
      it: V, v: V, fr: Frame, st: St, fuel: nat)
    requires Ready(p, m, t, boxes, sg, cx, s, fr, st) && s.ForGen? && ValOk(p, st.heap, it) && ValOk(p, st.heap, v)
    ensures var r := Pass(p, s, v, fr, st, fuel);
            FlowInt(p, m, cx, ReturnsAt(p, m, cx, s), st, if r.Next? then Iterate(p, s, it, r.fr, r.st, fuel) else r)
    decreases fuel, 2, s, 2
  {
    EntryHas(p, m, t, boxes, sg, cx);
    PassInt(p, m, t, boxes, sg, cx, s, v, fr, st, fuel);
    var r := Pass(p, s, v, fr, st, fuel);
    if r.Next? {
      ValKept(p, st.heap, r.st.heap, it);
      IterateInt(p, m, t, boxes, sg, cx, s, it, r.fr, r.st, fuel);
    }
  }

  lemma {:induction false} PassInt(p: Prog, m: Binds, t: Typing, boxes: set<Var>, sg: Sigs, cx: Cx, s: Stmt,
      v: V, fr: Frame, st: St, fuel: nat)
    requires Ready(p, m, t, boxes, sg, cx, s, fr, st) && s.ForGen? && ValOk(p, st.heap, v)
    ensures FlowInt(p, m, cx, ReturnsAt(p, m, cx, s), st, Pass(p, s, v, fr, st, fuel))
    decreases fuel, 2, s, 0
  {
    EntryHas(p, m, t, boxes, sg, cx);
    BindAllInt(p, m, cx, fr, s.slots, [v], st);
    var (fr1, st1) := BindAll(p, fr, s.slots, [v], st);
    RunInt(p, m, t, boxes, sg, cx, s.body, fr1, st1, fuel);
  }

  lemma {:induction false} BranchInt(p: Prog, m: Binds, t: Typing, boxes: set<Var>, sg: Sigs, cx: Cx, s: Stmt,
      fr: Frame, st: St, fuel: nat)
    requires Ready(p, m, t, boxes, sg, cx, s, fr, st) && (s.If? || s.While? || s.Return? || s.Do?)
    ensures FlowInt(p, m, cx, ReturnsAt(p, m, cx, s), st, Step(p, s, fr, st, fuel))
    decreases fuel, 2, s, 2
  {
    EntryHas(p, m, t, boxes, sg, cx);
    var c := if s.If? || s.While? then s.c else s.e;
    EvalInt(p, m, t, boxes, sg, cx, c, fr, st, fuel);
    Onward(p, m, cx, c, fr, st, fuel);
    var v := Eval(p, c, fr, st, fuel);
    if v.Ok? {
      if s.If? {
        RunInt(p, m, t, boxes, sg, cx, if Truthy(v.v) then s.thn else s.els, fr, v.st, fuel);
      } else if s.While? && Truthy(v.v) {
        RunInt(p, m, t, boxes, sg, cx, s.body, fr, v.st, fuel);
        var r := Run(p, s.body, fr, v.st, fuel);
        if r.Next? && fuel > 0 { StepInt(p, m, t, boxes, sg, cx, s, r.fr, r.st, fuel - 1); }
      }
    }
  }

  /** From the start of the chunk on, every state a run reaches has ints in the int boxes. */
  lemma {:induction false} ChunkInt(p: Prog, m: Binds, t: Typing, boxes: set<Var>, sg: Sigs, args: seq<V>, fuel: nat)
    requires Right(p, m, t, boxes, sg) && |p.fns| > 0 && p.tabs[0].upvals == []
    requires forall j | 0 <= j < |args| :: !args[j].VClo?
    ensures HeapInt(boxes, Invoke(p, 0, [], args, St([], map[]), fuel).st)
  {
    InvokeInt(p, m, t, boxes, sg, 0, [], args, false, St([], map[]), fuel);
  }

  // ----- computing the boxes -----

  /** What the typing of slots (compute_int_slots) and the inference (infer_signatures) give. */
  ghost predicate Analyses(p: Prog, m: Binds, t: Typing)
    requires ProgOk(p)
  {
    && (forall boxes, sg, f: nat, typed | f < |p.fns| :: SlotsRight(p, m, BodyCx(t, boxes, sg, f, typed), typed))
    && forall boxes, f: nat | f < |p.fns| :: RetRight(p, m, t, boxes, t.infer(boxes), f)
  }

  /** The passes before emission: bindings, candidates, and the alternation. */
  method BoxInts(p: Prog, t: Typing, candidates: set<Var>) returns (m: Binds, boxes: set<Var>, sg: Sigs)
    requires ProgOk(p) && SlotsOnce(p) && Candidates(p, candidates) && Analyses(p, Stable(p), t)
    ensures m == Stable(p) && boxes <= candidates && sg == t.infer(boxes) && Right(p, m, t, boxes, sg)
  {
    m := ComputeBindings(p);
    StableOk(p);
    var boxer := new Boxer(p, m, t, candidates);
    sg := boxer.Alternate();
    boxes := boxer.boxes;
    forall f: nat | f < |p.fns| ensures RightFn(p, m, t, boxes, sg, f) {
      assert SlotsRight(p, m, BodyCx(t, boxes, sg, f, false), false);
      assert SlotsRight(p, m, BodyCx(t, boxes, sg, f, true), true);
    }
  }
}
