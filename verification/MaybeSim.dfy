/** Maybe lowering computes what Lua does, within the temporaries the pre-pass
    counted. */
module MaybeSim {
  import opened Options
  import opened Numbers
  import opened Maybe

  // ----- the two states -----

  predicate TagOk(c: Cell) { 0 <= c.t <= 2 }

  /** The wasm locals hold the Lua locals. */
  ghost predicate Rel(ks: Kinds, m: M, env: seq<V>) {
    && |ks| == |env| == |m.slots|
    && forall s | 0 <= s < |ks| :: Held(ks[s], m.slots[s]) == env[s] && (ks[s] == KMaybe ==> TagOk(m.slots[s]))
  }

  predicate InScope(e: Expr, n: nat) {
    match e
    case Local(s) => s < n
    case Bin(_, l, r) => InScope(l, n) && InScope(r, n)
    case Neg(x) => InScope(x, n)
    case Call(_, callee, args) => InScope(callee, n) && AllInScope(args, n)
    case Other(_, _, args) => AllInScope(args, n)
    case _ => true
  }

  predicate AllInScope(es: Exprs, n: nat) {
    match es case Nil => true case Cons(e, tl) => InScope(e, n) && AllInScope(tl, n)
  }

  /** Only the temporaries from k up, and cell d if any, may have changed. */
  ghost predicate Frame(m: M, m': M, k: nat, d: Option<Base>) {
    && |m'.slots| == |m.slots| && |m'.temps| == |m.temps|
    && (forall s | 0 <= s < |m.slots| :: d == Some(Slot(s)) || m'.slots[s] == m.slots[s])
    && (forall j | 0 <= j < k && j < |m.temps| :: d == Some(Tmp(j)) || m'.temps[j] == m.temps[j])
  }

  lemma {:induction false} RelKept(ks: Kinds, m: M, m': M, env: seq<V>, k: nat)
    requires Rel(ks, m, env) && Frame(m, m', k, None)
    ensures Rel(ks, m', env)
  {
  }

  // ----- cells -----

  /** Reading a's parts, now, gives a cell that stands for v. */
  ghost predicate Denotes(w: World, a: MCell, v: V, m: M) {
    exists c: Cell :: Reads(w, a, c, m) && Decode(c) == v && TagOk(c)
  }

  ghost predicate Reads(w: World, a: MCell, c: Cell, m: M) {
    && RunX(w, a.t, m) == XOk(W32(c.t), m) && RunX(w, a.i, m) == XOk(W64(c.i), m)
    && RunX(w, a.f, m) == XOk(WF(c.f), m) && RunX(w, a.r, m) == XOk(WR(c.b), m)
  }

  lemma {:induction false} ReadsCell(w: World, b: Base, m: M)
    requires Has(m, b)
    ensures Reads(w, CellOf(b), CellAt(m, b), m)
  {
  }

  lemma {:induction false} BoxReads(w: World, a: MCell, c: Cell, m: M)
    requires Reads(w, a, c, m)
    ensures RunX(w, BoxCell(a), m) == XOk(WR(Decode(c)), m)
  {
  }

  lemma {:induction false} CellFReads(w: World, a: MCell, c: Cell, m: M)
    requires Reads(w, a, c, m) && (c.t == 1 || c.t == 2)
    ensures RunX(w, CellF(a), m) == XOk(WF(ToFlt(w, Decode(c))), m)
  {
    assert RunX(w, Un(IsTag(2), a.t), m) == XOk(Bit(c.t == 2), m);
    assert RunX(w, Un(Conv, a.i), m) == XOk(WF(w.conv(c.i)), m);
  }

  lemma {:induction false} TestReads(w: World, a: MCell, c: Cell, m: M, n: int)
    requires Reads(w, a, c, m)
    ensures RunX(w, Un(IsTag(n), a.t), m) == XOk(Bit(c.t == n), m)
    ensures RunX(w, Un(NotTag(n), a.t), m) == XOk(Bit(c.t != n), m)
  {
  }

  lemma {:induction false} BothRead(w: World, a: MCell, b: MCell, c: Cell, d: Cell, m: M)
    requires Reads(w, a, c, m) && Reads(w, b, d, m)
    ensures RunX(w, BothTags(a, b, 1), m) == XOk(Bit(c.t == 1 && d.t == 1), m)
    ensures RunX(w, BothNums(a, b), m) == XOk(Bit(c.t != 0 && d.t != 0), m)
  {
    TestReads(w, a, c, m, 1);
    TestReads(w, b, d, m, 1);
    TestReads(w, a, c, m, 0);
    TestReads(w, b, d, m, 0);
  }

  // ----- writing a cell -----

  /** The code left m' with cell d standing for r's value and nothing else changed,
      or failed as r does. */
  ghost predicate Stored(r: (Result, seq<Event>), s: SR, m: M, d: Base) {
    match r.0
    case Err(e) => s.SErr? && s.e == e && s.m.tr == r.1
    case Ok(v) =>
      && s.SOk? && Has(s.m, d) && Has(m, d) && Decode(CellAt(s.m, d)) == v && TagOk(CellAt(s.m, d))
      && s.m == Write(m.(tr := r.1), d, CellAt(s.m, d))
  }

  lemma {:induction false} SetIntStores(w: World, d: Base, x: X, m: M, i: int, m': M)
    requires RunX(w, x, m) == XOk(W64(i), m') && Has(m', d)
    ensures Stored((Ok(VInt(i)), m'.tr), RunS(w, SetInt(d, x), m), m', d)
  {
    var m1 := Write(m', d, CellAt(m', d).(i := i));
    assert RunS(w, Set(d, PI, x), m) == SOk(m1);
    assert RunS(w, SetTag(d, 1), m1) == SOk(Write(m1, d, CellAt(m1, d).(t := 1)));
  }

  lemma {:induction false} SetFltStores(w: World, d: Base, x: X, m: M, f: Flt, m': M)
    requires RunX(w, x, m) == XOk(WF(f), m') && Has(m', d)
    ensures Stored((Ok(VFlt(f)), m'.tr), RunS(w, SetFlt(d, x), m), m', d)
  {
    var m1 := Write(m', d, CellAt(m', d).(f := f));
    assert RunS(w, Set(d, PF, x), m) == SOk(m1);
    assert RunS(w, SetTag(d, 2), m1) == SOk(Write(m1, d, CellAt(m1, d).(t := 2)));
  }

  lemma {:induction false} SetBoxStores(w: World, d: Base, x: X, m: M, v: V, m': M)
    requires RunX(w, x, m) == XOk(WR(v), m') && Has(m', d)
    ensures Stored((Ok(v), m'.tr), RunS(w, SetBox(d, x), m), m', d)
  {
    var m1 := Write(m', d, CellAt(m', d).(b := v));
    assert RunS(w, Set(d, PB, x), m) == SOk(m1);
    assert RunS(w, SetTag(d, 0), m1) == SOk(Write(m1, d, CellAt(m1, d).(t := 0)));
  }

  lemma {:induction false} ReclassifyStores(w: World, d: Base, x: X, m: M, v: V, m': M)
    requires RunX(w, x, m) == XOk(WR(v), m') && Has(m', d)
    ensures Stored((Ok(v), m'.tr), RunS(w, Reclassify(d, x), m), m', d)
  {
    var m1 := Write(m', d, CellAt(m', d).(b := v));
    assert RunS(w, Set(d, PB, x), m) == SOk(m1);
    assert RunS(w, Unbox(d), m1) == SOk(Write(m1, d, Classify(CellAt(m1, d))));
  }

  lemma {:induction false} SetFails(w: World, d: Base, p: Part, x: X, rest: S, m: M)
    requires RunX(w, x, m).XErr?
    ensures RunS(w, Seq(Set(d, p, x), rest), m) == SErr(RunX(w, x, m).e, RunX(w, x, m).m)
  {
  }

  // ----- the tag switches -----

  lemma {:induction false} IfRuns(w: World, c: X, thn: S, els: S, m: M, b: bool)
    requires RunX(w, c, m) == XOk(Bit(b), m)
    ensures RunS(w, IfS(c, thn, els), m) == RunS(w, if b then thn else els, m)
  {
  }

  lemma {:induction false} SameStored(r: (Result, seq<Event>), s: SR, s': SR, m: M, d: Base)
    requires Stored(r, s, m, d) && s' == s
    ensures Stored(r, s', m, d)
  {
  }

  lemma {:induction false} NumsStore(w: World, op: Op, a: MCell, b: MCell, ca: Cell, cb: Cell, d: Base, m: M)
    requires Reads(w, a, ca, m) && Reads(w, b, cb, m) && Has(m, d)
    requires MaybeOp(op) && TagOk(ca) && TagOk(cb) && ca.t != 0 && cb.t != 0 && !(ca.t == 1 && cb.t == 1)
    ensures Stored(Arith(w, m.tr, op, Decode(ca), Decode(cb)),
      RunS(w, SetFlt(d, Two(F64(op), CellF(a), CellF(b))), m), m, d)
  {
    CellFReads(w, a, ca, m);
    CellFReads(w, b, cb, m);
    var xs, f := Two(F64(op), CellF(a), CellF(b)), w.fop(op, ToFlt(w, Decode(ca)), ToFlt(w, Decode(cb)));
    assert RunX(w, xs, m) == XOk(WF(f), m);
    SetFltStores(w, d, xs, m, f, m);
  }

  lemma {:induction false} ArithStores(w: World, op: Op, a: MCell, b: MCell, d: Base, m: M, x: V, y: V)
    requires MaybeOp(op) && Denotes(w, a, x, m) && Denotes(w, b, y, m) && Has(m, d)
    ensures Stored(Arith(w, m.tr, op, x, y), RunS(w, ArithS(op, a, b, d), m), m, d)
  {
    var ca: Cell :| Reads(w, a, ca, m) && Decode(ca) == x && TagOk(ca);
    var cb: Cell :| Reads(w, b, cb, m) && Decode(cb) == y && TagOk(cb);
    BothRead(w, a, b, ca, cb, m);
    var all := RunS(w, ArithS(op, a, b, d), m);
    var ints := if op.Div? then SetFlt(d, Two(F64(Div), Un(Conv, a.i), Un(Conv, b.i)))
                else SetInt(d, Two(I64(op), a.i, b.i));
    var generic := SetBox(d, Two(Helper(op), BoxCell(a), BoxCell(b)));
    var nums := SetFlt(d, Two(F64(op), CellF(a), CellF(b)));
    var rest := if op.FDiv? || op.Mod? then generic else IfS(BothNums(a, b), nums, generic);
    IfRuns(w, BothTags(a, b, 1), ints, rest, m, ca.t == 1 && cb.t == 1);
    IfRuns(w, BothNums(a, b), nums, generic, m, ca.t != 0 && cb.t != 0);
    if ca.t == 1 && cb.t == 1 {
      IntsStore(w, op, a, b, ca, cb, d, m);
      SameStored(Arith(w, m.tr, op, x, y), RunS(w, ints, m), all, m, d);
    } else if ca.t != 0 && cb.t != 0 && !op.FDiv? && !op.Mod? {
      NumsStore(w, op, a, b, ca, cb, d, m);
      SameStored(Arith(w, m.tr, op, x, y), RunS(w, nums, m), all, m, d);
    } else {
      GenericStores(w, op, a, b, ca, cb, d, m);
      SameStored(Arith(w, m.tr, op, x, y), RunS(w, generic, m), all, m, d);
    }
  }

  lemma {:induction false} IntsStore(w: World, op: Op, a: MCell, b: MCell, ca: Cell, cb: Cell, d: Base, m: M)
    requires MaybeOp(op) && Reads(w, a, ca, m) && Reads(w, b, cb, m) && ca.t == 1 && cb.t == 1 && Has(m, d)
    ensures var ints := if op.Div? then SetFlt(d, Two(F64(Div), Un(Conv, a.i), Un(Conv, b.i)))
                        else SetInt(d, Two(I64(op), a.i, b.i));
            Stored((IntArith(w, op, ca.i, cb.i), m.tr), RunS(w, ints, m), m, d)
  {
    if op.Div? {
      assert RunX(w, Un(Conv, a.i), m) == XOk(WF(w.conv(ca.i)), m);
      assert RunX(w, Un(Conv, b.i), m) == XOk(WF(w.conv(cb.i)), m);
      SetFltStores(w, d, Two(F64(Div), Un(Conv, a.i), Un(Conv, b.i)), m, w.fop(Div, w.conv(ca.i), w.conv(cb.i)), m);
    } else {
      var x, r := Two(I64(op), a.i, b.i), IntArith(w, op, ca.i, cb.i);
      if r.Err? {
        SetFails(w, d, PI, x, SetTag(d, 1), m);
      } else {
        SetIntStores(w, d, x, m, r.v.i, m);
      }
    }
  }

  lemma {:induction false} GenericStores(w: World, op: Op, a: MCell, b: MCell, ca: Cell, cb: Cell, d: Base, m: M)
    requires Reads(w, a, ca, m) && Reads(w, b, cb, m) && Has(m, d)
    ensures Stored(Arith(w, m.tr, op, Decode(ca), Decode(cb)),
      RunS(w, SetBox(d, Two(Helper(op), BoxCell(a), BoxCell(b))), m), m, d)
  {
    var x := Two(Helper(op), BoxCell(a), BoxCell(b));
    BoxReads(w, a, ca, m);
    BoxReads(w, b, cb, m);
    var (r, tr) := Arith(w, m.tr, op, Decode(ca), Decode(cb));
    assert RunX(w, x, m) == Lift((r, tr), m);
    if r.Err? {
      SetFails(w, d, PB, x, SetTag(d, 0), m);
    } else {
      SetBoxStores(w, d, x, m, r.v, m.(tr := tr));
    }
  }

  lemma {:induction false} NegStores(w: World, a: MCell, d: Base, m: M, x: V)
    requires Denotes(w, a, x, m) && Has(m, d)
    ensures Stored(Negate(w, m.tr, x), RunS(w, NegS(a, d), m), m, d)
  {
    var c: Cell :| Reads(w, a, c, m) && Decode(c) == x && TagOk(c);
    TestReads(w, a, c, m, 1);
    TestReads(w, a, c, m, 2);
    var whole, flt := SetInt(d, Two(I64(Sub), Const(W64(0)), a.i)), SetFlt(d, Un(NegF, a.f));
    var generic, r, all := SetBox(d, Un(HelperNeg, BoxCell(a))), Negate(w, m.tr, x), RunS(w, NegS(a, d), m);
    IfRuns(w, Un(IsTag(2), a.t), flt, generic, m, c.t == 2);
    IfRuns(w, Un(IsTag(1), a.t), whole, IfS(Un(IsTag(2), a.t), flt, generic), m, c.t == 1);
    if c.t == 1 {
      NegInt(w, a, c, d, m);
      SameStored(r, RunS(w, whole, m), all, m, d);
    } else if c.t == 2 {
      SetFltStores(w, d, Un(NegF, a.f), m, w.fneg(c.f), m);
      SameStored(r, RunS(w, flt, m), all, m, d);
    } else {
      NegBoxed(w, a, c, d, m);
      SameStored(r, RunS(w, generic, m), all, m, d);
    }
  }

  lemma {:induction false} NegInt(w: World, a: MCell, c: Cell, d: Base, m: M)
    requires Reads(w, a, c, m) && c.t == 1 && Has(m, d)
    ensures Stored(Negate(w, m.tr, Decode(c)), RunS(w, SetInt(d, Two(I64(Sub), Const(W64(0)), a.i)), m), m, d)
  {
    TwoInts(w, Sub, Const(W64(0)), a.i, 0, c.i, m);
    SetIntStores(w, d, Two(I64(Sub), Const(W64(0)), a.i), m, Wrap(0 - c.i), m);
  }

  lemma {:induction false} NegBoxed(w: World, a: MCell, c: Cell, d: Base, m: M)
    requires Reads(w, a, c, m) && TagOk(c) && Has(m, d)
    ensures Stored(Negate(w, m.tr, Decode(c)), RunS(w, SetBox(d, Un(HelperNeg, BoxCell(a))), m), m, d)
  {
    var y := Un(HelperNeg, BoxCell(a));
    BoxReads(w, a, c, m);
    var (r, tr) := Negate(w, m.tr, Decode(c));
    assert RunX(w, y, m) == Lift((r, tr), m);
    if r.Err? {
      SetFails(w, d, PB, y, SetTag(d, 0), m);
    } else {
      SetBoxStores(w, d, y, m, r.v, m.(tr := tr));
    }
  }

  lemma {:induction false} MathStores(w: World, k: MathKind, a: MCell, c: Cell, d: Base, m: M)
    requires Reads(w, a, c, m) && (c.t == 1 || c.t == 2) && Has(m, d)
    ensures Stored((Ok(MathOf(w, k, Decode(c))), m.tr), RunS(w, MathS(k, a, d), m), m, d)
  {
    TestReads(w, a, c, m, 1);
    match k
    case Sqrt =>
      CellFReads(w, a, c, m);
      SetFltStores(w, d, Un(RoundF(Sqrt), CellF(a)), m, w.fround(Sqrt, ToFlt(w, Decode(c))), m);
    case Abs => AbsStores(w, a, c, d, m);
    case _ =>
      if c.t == 1 {
        SetIntStores(w, d, a.i, m, c.i, m);
      } else {
        RoundStores(w, k, a, c, d, m);
      }
  }

  lemma {:induction false} AbsStores(w: World, a: MCell, c: Cell, d: Base, m: M)
    requires Reads(w, a, c, m) && (c.t == 1 || c.t == 2) && Has(m, d)
    ensures Stored((Ok(MathOf(w, Abs, Decode(c))), m.tr), RunS(w, MathS(Abs, a, d), m), m, d)
  {
    TestReads(w, a, c, m, 1);
    var r := (Ok(MathOf(w, Abs, Decode(c))), m.tr);
    var neg := IfX(Un(Less0, a.i), Two(I64(Sub), Const(W64(0)), a.i), a.i);
    IfRuns(w, Un(IsTag(1), a.t), SetInt(d, neg), SetFlt(d, Un(RoundF(Abs), a.f)), m, c.t == 1);
    if c.t == 1 {
      AbsInt(w, a.i, c, d, neg, m);
      SameStored(r, RunS(w, SetInt(d, neg), m), RunS(w, MathS(Abs, a, d), m), m, d);
    } else {
      var abs := SetFlt(d, Un(RoundF(Abs), a.f));
      SetFltStores(w, d, Un(RoundF(Abs), a.f), m, w.fround(Abs, c.f), m);
      SameStored(r, RunS(w, abs, m), RunS(w, MathS(Abs, a, d), m), m, d);
    }
  }

  lemma {:induction false} AbsInt(w: World, x: X, c: Cell, d: Base, neg: X, m: M)
    requires RunX(w, x, m) == XOk(W64(c.i), m) && c.t == 1 && Has(m, d)
    requires neg == IfX(Un(Less0, x), Two(I64(Sub), Const(W64(0)), x), x)
    ensures Stored((Ok(MathOf(w, Abs, Decode(c))), m.tr), RunS(w, SetInt(d, neg), m), m, d)
  {
    var i := if c.i < 0 then Wrap(0 - c.i) else c.i;
    AbsRuns(w, x, c.i, neg, m);
    AbsValue(w, c, i);
    SetIntStores(w, d, neg, m, i, m);
  }

  lemma {:induction false} AbsValue(w: World, c: Cell, i: int)
    requires c.t == 1 && i == if c.i < 0 then Wrap(0 - c.i) else c.i
    ensures MathOf(w, Abs, Decode(c)) == VInt(i)
  {
  }

  lemma {:induction false} AbsRuns(w: World, x: X, i: int, neg: X, m: M)
    requires RunX(w, x, m) == XOk(W64(i), m) && neg == IfX(Un(Less0, x), Two(I64(Sub), Const(W64(0)), x), x)
    ensures RunX(w, neg, m) == XOk(W64(if i < 0 then Wrap(0 - i) else i), m)
  {
    TwoInts(w, Sub, Const(W64(0)), x, 0, i, m);
    assert RunX(w, Un(Less0, x), m) == XOk(Bit(i < 0), m);
  }

  /** floor and ceil of a float: an int when the rounded float fits. */
  lemma {:induction false} RoundStores(w: World, k: MathKind, a: MCell, c: Cell, d: Base, m: M)
    requires Reads(w, a, c, m) && c.t == 2 && Has(m, d) && (k.Floor? || k.Ceil?)
    ensures var back := IfS(Un(Fits, Get(d, PF)), SetInt(d, Un(Trunc, Get(d, PF))), SetTag(d, 2));
            Stored((Ok(MathOf(w, k, Decode(c))), m.tr), RunS(w, Seq(Set(d, PF, Un(RoundF(k), a.f)), back), m), m, d)
  {
    var r := w.fround(k, c.f);
    var m1 := Write(m, d, CellAt(m, d).(f := r));
    assert RunX(w, Un(RoundF(k), a.f), m) == XOk(WF(r), m);
    assert RunS(w, Set(d, PF, Un(RoundF(k), a.f)), m) == SOk(m1);
    assert RunX(w, Get(d, PF), m1) == XOk(WF(r), m1);
    assert RunX(w, Un(Fits, Get(d, PF)), m1) == XOk(Bit(w.fits(r)), m1);
    if w.fits(r) {
      SetIntStores(w, d, Un(Trunc, Get(d, PF)), m1, w.trunc(r), m1);
    } else {
      assert RunS(w, SetTag(d, 2), m1) == SOk(Write(m1, d, CellAt(m1, d).(t := 2)));
    }
  }

  lemma {:induction false} GuardedStores(w: World, k: MathKind, cv: Base, a: MCell, d: Base, m: M, f: V, x: V)
    requires Has(m, cv) && CellAt(m, cv).b == f && Denotes(w, a, x, m) && Has(m, d)
    ensures Stored(Called(w, m.tr, f, [x]), RunS(w, GuardedS(k, cv, a, d), m), m, d)
  {
    var c: Cell :| Reads(w, a, c, m) && Decode(c) == x && TagOk(c);
    TestReads(w, a, c, m, 0);
    var guard := Two(And, Un(IsRef(Builtin(k)), Get(cv, PB)), Un(NotTag(0), a.t));
    var call := Reclassify(d, CallX(Get(cv, PB), XCons(BoxCell(a), XNil)));
    assert RunX(w, Un(IsRef(Builtin(k)), Get(cv, PB)), m) == XOk(Bit(f == Builtin(k)), m);
    IfRuns(w, guard, MathS(k, a, d), call, m, f == Builtin(k) && c.t != 0);
    var all := RunS(w, GuardedS(k, cv, a, d), m);
    if f == Builtin(k) && c.t != 0 {
      MathStores(w, k, a, c, d, m);
      BuiltinCalled(w, m.tr, k, x);
      SameStored(Called(w, m.tr, f, [x]), RunS(w, MathS(k, a, d), m), all, m, d);
    } else {
      CallStores(w, cv, a, c, d, m);
      SameStored(Called(w, m.tr, f, [x]), RunS(w, call, m), all, m, d);
    }
  }

  lemma {:induction false} BuiltinCalled(w: World, tr: seq<Event>, k: MathKind, x: V)
    requires IsNum(x)
    ensures Called(w, tr, Builtin(k), [x]) == (Ok(MathOf(w, k, x)), tr)
  {
  }

  /** The ordinary call, its result classified. */
  lemma {:induction false} CallStores(w: World, cv: Base, a: MCell, c: Cell, d: Base, m: M)
    requires Has(m, cv) && Reads(w, a, c, m) && Has(m, d)
    ensures Stored(Called(w, m.tr, CellAt(m, cv).b, [Decode(c)]),
                   RunS(w, Reclassify(d, CallX(Get(cv, PB), XCons(BoxCell(a), XNil))), m), m, d)
  {
    var f, x, args := CellAt(m, cv).b, Decode(c), XCons(BoxCell(a), XNil);
    var y := CallX(Get(cv, PB), args);
    BoxReads(w, a, c, m);
    assert RunXs(w, XNil, m) == XsOk([], m);
    assert RunXs(w, args, m) == XsOk([x] + [], m) && [x] + [] == [x];
    var (r, tr) := Called(w, m.tr, f, [x]);
    assert RunX(w, y, m) == Lift((r, tr), m);
    if r.Err? {
      SetFails(w, d, PB, y, Unbox(d), m);
    } else {
      ReclassifyStores(w, d, y, m, r.v, m.(tr := tr));
    }
  }

  // ----- typed expressions -----

  /** A provably int expression is one: it yields an int, or divides by zero, and
      asks the world nothing; its unboxed code computes the same. */
  lemma {:induction false} IntRuns(w: World, ks: Kinds, e: Expr, m: M, env: seq<V>)
    requires IsInt(ks, e) && Rel(ks, m, env) && InScope(e, |env|)
    ensures var (r, tr) := Eval(w, e, env, m.tr);
            && tr == m.tr
            && RunX(w, IntX(ks, e), m) == (if r.Err? then XErr(r.e, m) else XOk(W64(if r.v.VInt? then r.v.i else 0), m))
            && (r.Ok? ==> r.v.VInt?)
    decreases e
  {
    match e
    case Int(n) =>
    case Local(s) => assert Held(ks[s], m.slots[s]) == env[s];
    case Bin(op, l, r) =>
      IntRuns(w, ks, l, m, env);
      IntRuns(w, ks, r, m, env);
      var (a, b) := (Eval(w, l, env, m.tr).0, Eval(w, r, env, m.tr).0);
      if a.Ok? && b.Ok? { TwoInts(w, op, IntX(ks, l), IntX(ks, r), a.v.i, b.v.i, m); }
    case Neg(x) =>
      IntRuns(w, ks, x, m, env);
      var a := Eval(w, x, env, m.tr).0;
      if a.Ok? { TwoInts(w, Sub, Const(W64(0)), IntX(ks, x), 0, a.v.i, m); }
  }

  lemma {:induction false} TwoInts(w: World, op: Op, x: X, y: X, a: int, b: int, m: M)
    requires RunX(w, x, m) == XOk(W64(a), m) && RunX(w, y, m) == XOk(W64(b), m) && !op.Div?
    ensures var r := IntArith(w, op, a, b);
            && (r.Ok? ==> r.v.VInt?)
            && RunX(w, Two(I64(op), x, y), m) == (if r.Err? then XErr(r.e, m)
              else XOk(W64(if r.v.VInt? then r.v.i else 0), m))
  {
  }

  /** Likewise for floats. */
  lemma {:induction false} FltRuns(w: World, ks: Kinds, e: Expr, m: M, env: seq<V>)
    requires IsFlt(ks, e) && Rel(ks, m, env) && InScope(e, |env|)
    ensures var (r, tr) := Eval(w, e, env, m.tr);
            && tr == m.tr
            && RunX(w, FltX(ks, e), m) == (if r.Err? then XErr(r.e, m)
              else XOk(WF(if r.v.VFlt? then r.v.x else ZERO), m))
            && (r.Ok? ==> r.v.VFlt?)
    decreases e, 0
  {
    match e
    case Float(x) =>
    case Local(s) => assert Held(ks[s], m.slots[s]) == env[s];
    case Bin(_, l, r) =>
      NumRuns(w, ks, l, m, env);
      NumRuns(w, ks, r, m, env);
      FltKinds(w, ks, l, m, env);
      FltKinds(w, ks, r, m, env);
    case Neg(x) => FltRuns(w, ks, x, m, env);
  }

  /** An operand's value has the type its kind says. */
  lemma {:induction false} FltKinds(w: World, ks: Kinds, e: Expr, m: M, env: seq<V>)
    requires (IsInt(ks, e) || IsFlt(ks, e)) && Rel(ks, m, env) && InScope(e, |env|)
    ensures var r := Eval(w, e, env, m.tr).0; r.Ok? ==> (IsInt(ks, e) ==> r.v.VInt?) && (IsFlt(ks, e) ==> r.v.VFlt?)
    decreases e, 1
  {
    NotBoth(ks, e);
    if IsFlt(ks, e) { FltRuns(w, ks, e, m, env); } else { IntRuns(w, ks, e, m, env); }
  }

  lemma {:induction false} NumRuns(w: World, ks: Kinds, e: Expr, m: M, env: seq<V>)
    requires (IsInt(ks, e) || IsFlt(ks, e)) && Rel(ks, m, env) && InScope(e, |env|)
    ensures var (r, tr) := Eval(w, e, env, m.tr);
            && tr == m.tr && (r.Ok? ==> IsNum(r.v))
            && RunX(w, NumF(ks, e), m) == (if r.Err? then XErr(r.e, m)
              else XOk(WF(if IsNum(r.v) then ToFlt(w, r.v) else ZERO), m))
    decreases e, 1
  {
    if IsFlt(ks, e) { FltRuns(w, ks, e, m, env); } else { IntRuns(w, ks, e, m, env); }
  }

  lemma {:induction false} NotBoth(ks: Kinds, e: Expr)
    ensures !(IsInt(ks, e) && IsFlt(ks, e))
    decreases e
  {
    match e
    case Bin(_, l, r) =>
      NotBoth(ks, l);
      NotBoth(ks, r);
    case Neg(x) => NotBoth(ks, x);
    case _ =>
  }
}
