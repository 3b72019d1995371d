/** Lowering maybe-typed expressions. */
module MaybeMain {
  // Maybe lowering, whole expressions (src/codegen/maybe.c, emit_maybe_lower): the destination
  // cell gets the value generic evaluation gives, the world is asked the same in the same
  // order, nothing live is clobbered, and the temporaries stay within the bound of the
  // pre-pass.

  import opened Options
  import opened Numbers
  import opened Maybe
  import opened MaybeSim

  /** Code for a Lua value: the value, the same questions, and only temporaries
      from k up changed. */
  ghost predicate Yields(r: (Result, seq<Event>), x: XR, m: M, k: nat) {
    match r.0
    case Err(e) => x.XErr? && x.e == e && x.m.tr == r.1
    case Ok(v) => x == XOk(WR(v), x.m) && x.m.tr == r.1 && Frame(m, x.m, k, None)
  }

  ghost predicate YieldsAll(r: (Values, seq<Event>), x: XsR, m: M, k: nat) {
    match r.0
    case Fails(e) => x.XsErr? && x.e == e && x.m.tr == r.1
    case Vals(vs) => x == XsOk(vs, x.m) && x.m.tr == r.1 && Frame(m, x.m, k, None)
  }

  /** Code that fills cell d. */
  ghost predicate Fills(r: (Result, seq<Event>), s: SR, m: M, k: nat, d: Base) {
    match r.0
    case Err(e) => s.SErr? && s.e == e && s.m.tr == r.1
    case Ok(v) =>
      && s.SOk? && s.m.tr == r.1 && Frame(m, s.m, k, Some(d))
      && Has(s.m, d) && Decode(CellAt(s.m, d)) == v && TagOk(CellAt(s.m, d))
  }

  /** A cell that may be written: a maybe slot, or a temporary already taken. */
  ghost predicate Target(ks: Kinds, d: Base, k: nat, m: M) {
    Has(m, d) && match d case Slot(s) => s < |ks| && ks[s] == KMaybe case Tmp(j) => j < k
  }

  lemma {:induction false} StoredFills(r: (Result, seq<Event>), s: SR, m: M, m1: M, k: nat, d: Base)
    requires Stored(r, s, m1, d) && Frame(m, m1, k, None) && Has(m1, d)
    ensures Fills(r, s, m, k, d)
  {
  }

  function ImmValue(e: Expr, env: seq<V>): V {
    match e
    case Int(n) => VInt(n)
    case Float(x) => VFlt(x)
    case Local(s) => if s < |env| then env[s] else VObj(0)
    case _ => VObj(0)
  }

  /** An operand used in place stands for its value, whenever it is read. */
  lemma {:induction false} ImmDenotes(w: World, ks: Kinds, e: Expr, after: Option<Expr>, m: M, env: seq<V>)
    requires OperandImm(ks, e, after).Some? && Rel(ks, m, env) && InScope(e, |env|)
    ensures Denotes(w, OperandImm(ks, e, after).value, ImmValue(e, env), m)
    ensures forall tr :: Eval(w, e, env, tr) == (Ok(ImmValue(e, env)), tr)
  {
    var a := OperandImm(ks, e, after).value;
    match e
    case Int(n) => assert Reads(w, a, Cell(1, n, ZERO, VObj(0)), m);
    case Float(x) => assert Reads(w, a, Cell(2, 0, x, VObj(0)), m);
    case Local(s) =>
      assert Held(ks[s], m.slots[s]) == env[s];
      if ks[s] == KInt {
        assert Reads(w, a, Cell(1, m.slots[s].i, ZERO, VObj(0)), m);
      } else if ks[s] == KFloat {
        assert Reads(w, a, Cell(2, 0, m.slots[s].f, VObj(0)), m);
      } else {
        ReadsCell(w, Slot(s), m);
      }
  }

  lemma {:induction false} CopyRuns(w: World, d: Base, s: Base, m: M)
    requires Has(m, d) && Has(m, s) && d != s
    ensures RunS(w, CopyS(d, s), m) == SOk(Write(m, d, CellAt(m, s)))
  {
    var c := CellAt(m, s);
    var m1 := Write(m, d, CellAt(m, d).(t := c.t));
    var m2 := Write(m1, d, CellAt(m1, d).(i := c.i));
    var m3 := Write(m2, d, CellAt(m2, d).(f := c.f));
    var m4 := Write(m3, d, CellAt(m3, d).(b := c.b));
    var src := CellOf(s);
    assert RunS(w, Set(d, PT, src.t), m) == SOk(m1);
    assert RunS(w, Set(d, PI, src.i), m1) == SOk(m2);
    assert RunS(w, Set(d, PF, src.f), m2) == SOk(m3);
    assert RunS(w, Set(d, PB, src.r), m3) == SOk(m4);
    assert m4 == Write(m, d, c);
    var last := Seq(Set(d, PF, src.f), Set(d, PB, src.r));
    SeqRuns(w, Set(d, PF, src.f), Set(d, PB, src.r), m2);
    SeqRuns(w, Set(d, PI, src.i), last, m1);
    SeqRuns(w, Set(d, PT, src.t), Seq(Set(d, PI, src.i), last), m);
  }

  lemma {:induction false} SeqRuns(w: World, a: S, b: S, m: M)
    ensures RunS(w, Seq(a, b), m) == var r := RunS(w, a, m); if r.SErr? then r else RunS(w, b, r.m)
  {
  }

  lemma {:induction false} LowerOk(w: World, ks: Kinds, e: Expr, d: Base, k: nat, m: M, env: seq<V>)
    requires Rel(ks, m, env) && InScope(e, |env|) && Target(ks, d, k, m) && k + LNeed(ks, e) <= |m.temps|
    ensures Fills(Eval(w, e, env, m.tr), RunS(w, Lower(ks, e, d, k), m), m, k, d)
    decreases e, 3
  {
    var r, all := Eval(w, e, env, m.tr), RunS(w, Lower(ks, e, d, k), m);
    if IsInt(ks, e) {
      IntRuns(w, ks, e, m, env);
      if r.0.Err? {
        SetFails(w, d, PI, IntX(ks, e), SetTag(d, 1), m);
      } else {
        SetIntStores(w, d, IntX(ks, e), m, r.0.v.i, m);
        StoredFills(r, all, m, m, k, d);
      }
    } else if IsFlt(ks, e) {
      FltRuns(w, ks, e, m, env);
      if r.0.Err? {
        SetFails(w, d, PF, FltX(ks, e), SetTag(d, 2), m);
      } else {
        SetFltStores(w, d, FltX(ks, e), m, r.0.v.x, m);
        StoredFills(r, all, m, m, k, d);
      }
    } else if e.Local? && KindOf(ks, e.s) == KMaybe {
      assert Held(ks[e.s], m.slots[e.s]) == env[e.s];
      if d != Slot(e.s) { CopyRuns(w, d, Slot(e.s), m); }
    } else if e.Bin? && MaybeOp(e.op) {
      BinOk(w, ks, e, d, k, m, env);
    } else if e.Neg? {
      NegOk(w, ks, e, d, k, m, env);
    } else if Inlined(e) {
      MathOk(w, ks, e, d, k, m, env);
    } else {
      PlainOk(w, ks, e, k, m, env);
      ReclassifyOk(w, r, EmitPlain(ks, e, k), d, k, m);
    }
  }

  lemma {:induction false} ReclassifyOk(w: World, r: (Result, seq<Event>), x: X, d: Base, k: nat, m: M)
    requires Yields(r, RunX(w, x, m), m, k) && Has(m, d)
    ensures Fills(r, RunS(w, Reclassify(d, x), m), m, k, d)
  {
    if r.0.Err? {
      SetFails(w, d, PB, x, Unbox(d), m);
    } else {
      var m1 := RunX(w, x, m).m;
      ReclassifyStores(w, d, x, m, r.0.v, m1);
      StoredFills((r.0, m1.tr), RunS(w, Reclassify(d, x), m), m, m1, k, d);
    }
  }

  /** One operand: in place, or lowered into temporary j with those from `next` up
      free. */
  lemma {:induction false} OperandOk(w: World, ks: Kinds, e: Expr, after: Option<Expr>, j: nat, next: nat, m: M,
      env: seq<V>)
    requires Rel(ks, m, env) && InScope(e, |env|)
    requires OperandImm(ks, e, after).None? ==> j < next && next + LNeed(ks, e) <= |m.temps|
    ensures var im := OperandImm(ks, e, after);
            var a, code := if im.Some? then im.value else CellOf(Tmp(j)), if im.Some? then Skip
              else Lower(ks, e, Tmp(j), next);
            var (r, tr) := Eval(w, e, env, m.tr);
            var s := RunS(w, code, m);
            if r.Err? then s == SErr(r.e, s.m) && s.m.tr == tr
            else
              && s.SOk? && s.m.tr == tr && Denotes(w, a, r.v, s.m) && Rel(ks, s.m, env)
              && Frame(m, s.m, next, if im.Some? then None else Some(Tmp(j)))
              && (if im.Some? then s.m == m && r.v == ImmValue(e, env)
                  else Has(s.m, Tmp(j)) && Decode(CellAt(s.m, Tmp(j))) == r.v && TagOk(CellAt(s.m, Tmp(j))))
    decreases e, 4
  {
    if OperandImm(ks, e, after).Some? {
      ImmDenotes(w, ks, e, after, m, env);
    } else {
      LowerOk(w, ks, e, Tmp(j), next, m, env);
      var s := RunS(w, Lower(ks, e, Tmp(j), next), m);
      if s.SOk? { ReadsCell(w, Tmp(j), s.m); }
    }
  }

  lemma {:induction false} BinOk(w: World, ks: Kinds, e: Expr, d: Base, k: nat, m: M, env: seq<V>)
    requires Rel(ks, m, env) && InScope(e, |env|) && Target(ks, d, k, m) && k + LNeed(ks, e) <= |m.temps|
    requires e.Bin? && MaybeOp(e.op) && !IsInt(ks, e) && !IsFlt(ks, e)
    ensures Fills(Eval(w, e, env, m.tr), RunS(w, Lower(ks, e, d, k), m), m, k, d)
    decreases e, 2
  {
    var kr, next, x, y, cl, cr := BinSplit(ks, e, d, k);
    ThenEval(w, e, env, m.tr);
    LeftOk(w, ks, e, d, k, m, env, kr, next, x, y, cl, cr);
    var (v, tr) := Eval(w, e.l, env, m.tr);
    var code := Seq(cl, Seq(cr, ArithS(e.op, x, y, d)));
    SameFills(if v.Err? then (v, tr) else BinThen(w, e, v.v, env, tr), RunS(w, code, m),
      Eval(w, e, env, m.tr), RunS(w, Lower(ks, e, d, k), m), m, k, d);
  }

  /** The operands of e: read at a and b once cl and cr have run, with temporaries from
      `next` up free. */
  ghost predicate Parts(ks: Kinds, e: Expr, k: nat, kr: nat, next: nat, a: MCell, b: MCell, cl: S, cr: S)
    requires e.Bin?
  {
    var il, ir := OperandImm(ks, e.l, Some(e.r)), OperandImm(ks, e.r, None);
    && kr == (if il.Some? then k else k + 1) && next == (if ir.Some? then kr else kr + 1)
    && a == (if il.Some? then il.value else CellOf(Tmp(k)))
    && b == (if ir.Some? then ir.value else CellOf(Tmp(kr)))
    && cl == (if il.Some? then Skip else Lower(ks, e.l, Tmp(k), next))
    && cr == (if ir.Some? then Skip else Lower(ks, e.r, Tmp(kr), next))
  }

  lemma {:induction false} BinSplit(ks: Kinds, e: Expr, d: Base, k: nat)
      returns (kr: nat, next: nat, a: MCell, b: MCell, cl: S, cr: S)
    requires e.Bin? && MaybeOp(e.op) && !IsInt(ks, e) && !IsFlt(ks, e)
    ensures Parts(ks, e, k, kr, next, a, b, cl, cr)
    ensures Lower(ks, e, d, k) == Seq(cl, Seq(cr, ArithS(e.op, a, b, d)))
  {
    var il, ir := OperandImm(ks, e.l, Some(e.r)), OperandImm(ks, e.r, None);
    kr := if il.Some? then k else k + 1;
    next := if ir.Some? then kr else kr + 1;
    a := if il.Some? then il.value else CellOf(Tmp(k));
    b := if ir.Some? then ir.value else CellOf(Tmp(kr));
    cl := if il.Some? then Skip else Lower(ks, e.l, Tmp(k), next);
    cr := if ir.Some? then Skip else Lower(ks, e.r, Tmp(kr), next);
    BinShape(ks, e, d, k);
  }

  lemma {:induction false} LeftOk(w: World, ks: Kinds, e: Expr, d: Base, k: nat, m: M, env: seq<V>,
      kr: nat, next: nat, a: MCell, b: MCell, cl: S, cr: S)
    requires Rel(ks, m, env) && InScope(e, |env|) && Target(ks, d, k, m) && k + LNeed(ks, e) <= |m.temps|
    requires e.Bin? && MaybeOp(e.op) && !IsInt(ks, e) && !IsFlt(ks, e) && Parts(ks, e, k, kr, next, a, b, cl, cr)
    ensures var (v, tr) := Eval(w, e.l, env, m.tr);
            Fills(if v.Err? then (v, tr) else BinThen(w, e, v.v, env, tr),
              RunS(w, Seq(cl, Seq(cr, ArithS(e.op, a, b, d))), m), m, k, d)
    decreases e, 1
  {
    var rest := Seq(cr, ArithS(e.op, a, b, d));
    BinRoom(ks, e, k, |m.temps|);
    OperandOk(w, ks, e.l, Some(e.r), k, next, m, env);
    SeqRuns(w, cl, rest, m);
    var (v, tr) := Eval(w, e.l, env, m.tr);
    if v.Ok? { RightOk(w, ks, e, d, k, m, RunS(w, cl, m).m, v.v, env, kr, next, a, b, cl, cr); }
  }

  /** The temporaries counted for an operator leave room for both operands. */
  lemma {:induction false} BinRoom(ks: Kinds, e: Expr, k: nat, n: nat)
    requires e.Bin? && MaybeOp(e.op) && !IsInt(ks, e) && !IsFlt(ks, e) && k + LNeed(ks, e) <= n
    ensures var il, ir := OperandImm(ks, e.l, Some(e.r)), OperandImm(ks, e.r, None);
            var kr := if il.Some? then k else k + 1;
            var next := if ir.Some? then kr else kr + 1;
            && next <= n
            && (il.None? ==> k < next && next + LNeed(ks, e.l) <= n)
            && (ir.None? ==> kr < next && next + LNeed(ks, e.r) <= n)
  {
  }

  /** Evaluating an operator once its left operand is known. */
  function BinThen(w: World, e: Expr, a: V, env: seq<V>, tr: seq<Event>): (Result, seq<Event>)
    requires e.Bin?
  {
    var (b, tr1) := Eval(w, e.r, env, tr);
    if b.Err? then (b, tr1) else Arith(w, tr1, e.op, a, b.v)
  }

  lemma {:induction false} ThenEval(w: World, e: Expr, env: seq<V>, tr: seq<Event>)
    requires e.Bin?
    ensures Eval(w, e, env, tr) == var (a, tr1) := Eval(w, e.l, env, tr);
      if a.Err? then (a, tr1) else BinThen(w, e, a.v, env, tr1)
  {
  }

  lemma {:induction false} RightOk(w: World, ks: Kinds, e: Expr, d: Base, k: nat, m: M, m1: M, va: V, env: seq<V>,
      kr: nat, next: nat, a: MCell, b: MCell, cl: S, cr: S)
    requires Rel(ks, m, env) && Rel(ks, m1, env) && InScope(e, |env|) && Target(ks, d, k, m)
      && k + LNeed(ks, e) <= |m.temps|
    requires e.Bin? && MaybeOp(e.op) && !IsInt(ks, e) && !IsFlt(ks, e)
    requires Parts(ks, e, k, kr, next, a, b, cl, cr)
    requires var il := OperandImm(ks, e.l, Some(e.r));
             && Frame(m, m1, next, if il.Some? then None else Some(Tmp(k)))
             && (if il.Some? then m1 == m && va == ImmValue(e.l, env)
                 else Has(m1, Tmp(k)) && Decode(CellAt(m1, Tmp(k))) == va && TagOk(CellAt(m1, Tmp(k))))
    ensures Fills(BinThen(w, e, va, env, m1.tr), RunS(w, Seq(cr, ArithS(e.op, a, b, d)), m1), m, k, d)
    decreases e, 0
  {
    var arith := ArithS(e.op, a, b, d);
    BinRoom(ks, e, k, |m.temps|);
    OperandOk(w, ks, e.r, None, kr, next, m1, env);
    SeqRuns(w, cr, arith, m1);
    var (vb, trb) := Eval(w, e.r, env, m1.tr);
    var s2, all := RunS(w, cr, m1), RunS(w, Seq(cr, arith), m1);
    if vb.Err? {
      SameFills((vb, trb), s2, BinThen(w, e, va, env, m1.tr), all, m, k, d);
    } else {
      LeftKept(w, ks, e, k, kr, next, m, m1, s2.m, env);
      ArithStores(w, e.op, a, b, d, s2.m, va, vb.v);
      StoredFills(Arith(w, trb, e.op, va, vb.v), RunS(w, arith, s2.m), m, s2.m, k, d);
      SameFills(Arith(w, trb, e.op, va, vb.v), RunS(w, arith, s2.m), BinThen(w, e, va, env, m1.tr), all, m, k, d);
    }
  }

  lemma {:induction false} SameFills(r: (Result, seq<Event>), s: SR, r': (Result, seq<Event>), s': SR, m: M, k: nat,
        d: Base)
    requires Fills(r, s, m, k, d) && r' == r && s' == s
    ensures Fills(r', s', m, k, d)
  {
  }

  lemma {:induction false} BinShape(ks: Kinds, e: Expr, d: Base, k: nat)
    requires e.Bin? && MaybeOp(e.op) && !IsInt(ks, e) && !IsFlt(ks, e)
    ensures var il, ir := OperandImm(ks, e.l, Some(e.r)), OperandImm(ks, e.r, None);
            var kr := if il.Some? then k else k + 1;
            var next := if ir.Some? then kr else kr + 1;
            var a := if il.Some? then il.value else CellOf(Tmp(k));
            var b := if ir.Some? then ir.value else CellOf(Tmp(kr));
            Lower(ks, e, d, k) == Seq(if il.Some? then Skip else Lower(ks, e.l, Tmp(k), next),
                                      Seq(if ir.Some? then Skip
                                        else Lower(ks, e.r, Tmp(kr), next), ArithS(e.op, a, b, d)))
  {
  }

  /** The left operand's cell still stands for its value after the right operand. */
  lemma {:induction false} LeftKept(w: World, ks: Kinds, e: Expr, k: nat, kr: nat, next: nat, m: M, m1: M, m2: M,
        env: seq<V>)
    requires e.Bin? && InScope(e, |env|) && Rel(ks, m, env) && Rel(ks, m2, env)
    requires var il, ir := OperandImm(ks, e.l, Some(e.r)), OperandImm(ks, e.r, None);
             && kr == (if il.Some? then k else k + 1) && next == (if ir.Some? then kr else kr + 1)
             && Frame(m, m1, next, if il.Some? then None else Some(Tmp(k))) && (il.Some? ==> m1 == m)
             && Frame(m1, m2, next, if ir.Some? then None else Some(Tmp(kr)))
             && (il.None? ==> k < |m.temps| && TagOk(CellAt(m1, Tmp(k))))
    ensures Frame(m, m2, k, None)
    ensures var il := OperandImm(ks, e.l, Some(e.r));
            if il.Some? then Denotes(w, il.value, ImmValue(e.l, env), m2)
            else Denotes(w, CellOf(Tmp(k)), Decode(CellAt(m1, Tmp(k))), m2)
  {
    if OperandImm(ks, e.l, Some(e.r)).Some? {
      ImmDenotes(w, ks, e.l, Some(e.r), m2, env);
    } else {
      assert m2.temps[k] == m1.temps[k];
      ReadsCell(w, Tmp(k), m2);
    }
  }

  lemma {:induction false} NegOk(w: World, ks: Kinds, e: Expr, d: Base, k: nat, m: M, env: seq<V>)
    requires Rel(ks, m, env) && InScope(e, |env|) && Target(ks, d, k, m) && k + LNeed(ks, e) <= |m.temps|
    requires e.Neg? && !IsInt(ks, e) && !IsFlt(ks, e)
    ensures Fills(Eval(w, e, env, m.tr), RunS(w, Lower(ks, e, d, k), m), m, k, d)
    decreases e, 2
  {
    var im := OperandImm(ks, e.e, None);
    var a, code := if im.Some? then im.value else CellOf(Tmp(k)), if im.Some? then Skip
      else Lower(ks, e.e, Tmp(k), k + 1);
    OperandOk(w, ks, e.e, None, k, k + 1, m, env);
    SeqRuns(w, code, NegS(a, d), m);
    var s := RunS(w, code, m);
    if s.SOk? {
      var (v, tr) := Eval(w, e.e, env, m.tr);
      NegStores(w, a, d, s.m, v.v);
      StoredFills(Negate(w, tr, v.v), RunS(w, NegS(a, d), s.m), m, s.m, k, d);
    }
  }

  lemma {:induction false} EvalOne(w: World, es: Exprs, env: seq<V>, tr: seq<Event>)
    requires Count(es) == 1
    ensures EvalAll(w, es, env, tr)
            == var (a, tr1) := Eval(w, es.hd, env, tr); (if a.Err? then Fails(a.e) else Vals([a.v]), tr1)
  {
    var (a, tr1) := Eval(w, es.hd, env, tr);
    assert es.tl == Nil && EvalAll(w, Nil, env, tr1) == (Vals([]), tr1);
    if a.Ok? { assert [a.v] + [] == [a.v]; }
  }

  lemma {:induction false} MathOk(w: World, ks: Kinds, e: Expr, d: Base, k: nat, m: M, env: seq<V>)
    requires Rel(ks, m, env) && InScope(e, |env|) && Target(ks, d, k, m) && k + LNeed(ks, e) <= |m.temps|
    requires Inlined(e)
    ensures Fills(Eval(w, e, env, m.tr), RunS(w, Lower(ks, e, d, k), m), m, k, d)
    decreases e, 2
  {
    var x, arg := EmitX(ks, e.callee, k + 1), e.args.hd;
    var im := OperandImm(ks, arg, None);
    var a, code := if im.Some? then im.value else CellOf(Tmp(k + 1)), if im.Some? then Skip
      else Lower(ks, arg, Tmp(k + 1), k + 2);
    var rest := Seq(code, GuardedS(e.math.value, Tmp(k), a, d));
    MathShape(ks, e, d, k);
    ValueOk(w, ks, e.callee, k + 1, m, env);
    var ev, all := Eval(w, e, env, m.tr), RunS(w, Lower(ks, e, d, k), m);
    var (f, trf) := Eval(w, e.callee, env, m.tr);
    if f.Err? {
      CalleeFails(w, e, env, m.tr);
      SetFails(w, Tmp(k), PB, x, rest, m);
      SameFills((f, trf), all, ev, all, m, k, d);
    } else {
      var m2 := CalleeKept(w, ks, k, x, rest, m, env, f.v, trf);
      ArgOk(w, ks, e, d, k, m, m2, f.v, env, a, code);
      MathEval(w, e, env, m.tr, f.v, trf);
      SameFills(ArgThen(w, e, f.v, env, trf), RunS(w, rest, m2), ev, all, m, k, d);
    }
  }

  lemma {:induction false} CalleeFails(w: World, e: Expr, env: seq<V>, tr: seq<Event>)
    requires e.Call? && Eval(w, e.callee, env, tr).0.Err?
    ensures Eval(w, e, env, tr) == Eval(w, e.callee, env, tr)
  {
  }

  /** The callee's value f is put into temporary k. */
  lemma {:induction false} CalleeKept(w: World, ks: Kinds, k: nat, x: X, rest: S, m: M, env: seq<V>, f: V,
        trf: seq<Event>)
      returns (m2: M)
    requires Rel(ks, m, env) && k < |m.temps| && Yields((Ok(f), trf), RunX(w, x, m), m, k + 1)
    ensures Rel(ks, m2, env) && Frame(m, m2, k, None) && CellAt(m2, Tmp(k)).b == f && m2.tr == trf
    ensures RunS(w, Seq(Set(Tmp(k), PB, x), rest), m) == RunS(w, rest, m2)
  {
    var m1 := RunX(w, x, m).m;
    m2 := Write(m1, Tmp(k), CellAt(m1, Tmp(k)).(b := f));
    assert RunS(w, Set(Tmp(k), PB, x), m) == SOk(m2);
    SeqRuns(w, Set(Tmp(k), PB, x), rest, m);
    RelKept(ks, m, m2, env, k);
  }

  /** Evaluating an inlined call once the callee is known. */
  function ArgThen(w: World, e: Expr, f: V, env: seq<V>, tr: seq<Event>): (Result, seq<Event>)
    requires Inlined(e)
  {
    var (v, tr1) := Eval(w, e.args.hd, env, tr);
    if v.Err? then (v, tr1) else Called(w, tr1, f, [v.v])
  }

  lemma {:induction false} ArgOk(w: World, ks: Kinds, e: Expr, d: Base, k: nat, m: M, m2: M, f: V, env: seq<V>,
      a: MCell, code: S)
    requires Rel(ks, m2, env) && InScope(e, |env|) && Target(ks, d, k, m) && k + LNeed(ks, e) <= |m.temps| && Inlined(e)
    requires Frame(m, m2, k, None) && k < |m.temps| && CellAt(m2, Tmp(k)).b == f
    requires var im := OperandImm(ks, e.args.hd, None);
             && a == (if im.Some? then im.value else CellOf(Tmp(k + 1)))
             && code == (if im.Some? then Skip else Lower(ks, e.args.hd, Tmp(k + 1), k + 2))
    ensures Fills(ArgThen(w, e, f, env, m2.tr), RunS(w, Seq(code, GuardedS(e.math.value, Tmp(k), a, d)), m2), m, k, d)
    decreases e, 1
  {
    var arg := e.args.hd;
    var guarded := GuardedS(e.math.value, Tmp(k), a, d);
    ArgRoom(ks, e, k, |m2.temps|);
    OperandOk(w, ks, arg, None, k + 1, k + 2, m2, env);
    SeqRuns(w, code, guarded, m2);
    var s := RunS(w, code, m2);
    var (v, tr) := Eval(w, arg, env, m2.tr);
    var all := RunS(w, Seq(code, guarded), m2);
    if v.Err? {
      SameFills((v, tr), s, ArgThen(w, e, f, env, m2.tr), all, m, k, d);
    } else {
      ArgCalls(w, ks, e.math.value, d, k, m, m2, s.m, f, v.v, a);
      SameFills(Called(w, tr, f, [v.v]), RunS(w, guarded, s.m), ArgThen(w, e, f, env, m2.tr), all, m, k, d);
    }
  }

  lemma {:induction false} ArgRoom(ks: Kinds, e: Expr, k: nat, n: nat)
    requires Inlined(e) && k + LNeed(ks, e) <= n
    ensures OperandImm(ks, e.args.hd, None).None? ==> k + 2 + LNeed(ks, e.args.hd) <= n
  {
  }

  /** The guarded call, with the callee in temporary k and the argument read at a. */
  lemma {:induction false} ArgCalls(w: World, ks: Kinds, mk: MathKind, d: Base, k: nat, m: M, m2: M, m3: M, f: V,
        v: V, a: MCell)
    requires Target(ks, d, k, m) && Frame(m, m2, k, None) && k < |m.temps| && CellAt(m2, Tmp(k)).b == f
    requires Frame(m2, m3, k + 1, None) && Denotes(w, a, v, m3)
    ensures Fills(Called(w, m3.tr, f, [v]), RunS(w, GuardedS(mk, Tmp(k), a, d), m3), m, k, d)
  {
    assert CellAt(m3, Tmp(k)) == CellAt(m2, Tmp(k));
    GuardedStores(w, mk, Tmp(k), a, d, m3, f, v);
    StoredFills(Called(w, m3.tr, f, [v]), RunS(w, GuardedS(mk, Tmp(k), a, d), m3), m, m3, k, d);
  }

  lemma {:induction false} MathEval(w: World, e: Expr, env: seq<V>, tr: seq<Event>, f: V, trf: seq<Event>)
    requires Inlined(e) && Eval(w, e.callee, env, tr) == (Ok(f), trf)
    ensures Eval(w, e, env, tr) == ArgThen(w, e, f, env, trf)
  {
    EvalOne(w, e.args, env, trf);
  }

  lemma {:induction false} MathShape(ks: Kinds, e: Expr, d: Base, k: nat)
    requires Inlined(e)
    ensures var im := OperandImm(ks, e.args.hd, None);
            var call := Set(Tmp(k), PB, EmitX(ks, e.callee, k + 1));
            var a := if im.Some? then im.value else CellOf(Tmp(k + 1));
            var code := if im.Some? then Skip else Lower(ks, e.args.hd, Tmp(k + 1), k + 2);
            Lower(ks, e, d, k) == Seq(call, Seq(code, GuardedS(e.math.value, Tmp(k), a, d)))
  {
  }

  lemma {:induction false} ValueOk(w: World, ks: Kinds, e: Expr, k: nat, m: M, env: seq<V>)
    requires Rel(ks, m, env) && InScope(e, |env|) && k + XNeed(ks, e) <= |m.temps|
    ensures Yields(Eval(w, e, env, m.tr), RunX(w, EmitX(ks, e, k), m), m, k)
    decreases e, 5
  {
    if (!e.Int? && IsInt(ks, e)) || (!e.Float? && IsFlt(ks, e)) {
      TypedOk(w, ks, e, k, m, env);
    } else if Lowered(ks, e) {
      LoweredOk(w, ks, e, k, m, env);
    } else {
      PlainOk(w, ks, e, k, m, env);
    }
  }

  lemma {:induction false} TypedOk(w: World, ks: Kinds, e: Expr, k: nat, m: M, env: seq<V>)
    requires Rel(ks, m, env) && InScope(e, |env|) && ((!e.Int? && IsInt(ks, e)) || (!e.Float? && IsFlt(ks, e)))
    ensures Yields(Eval(w, e, env, m.tr), RunX(w, EmitX(ks, e, k), m), m, k)
  {
    EmitTyped(ks, e, k);
    if !e.Int? && IsInt(ks, e) { IntYields(w, ks, e, k, m, env); } else { FltYields(w, ks, e, k, m, env); }
  }

  lemma {:induction false} EmitTyped(ks: Kinds, e: Expr, k: nat)
    ensures !e.Int? && IsInt(ks, e) ==> EmitX(ks, e, k) == Un(MakeInt, IntX(ks, e))
    ensures !(!e.Int? && IsInt(ks, e)) && !e.Float? && IsFlt(ks, e) ==> EmitX(ks, e, k) == Un(MakeFloat, FltX(ks, e))
  {
  }

  lemma {:induction false} IntYields(w: World, ks: Kinds, e: Expr, k: nat, m: M, env: seq<V>)
    requires Rel(ks, m, env) && InScope(e, |env|) && IsInt(ks, e)
    ensures Yields(Eval(w, e, env, m.tr), RunX(w, Un(MakeInt, IntX(ks, e)), m), m, k)
  {
    IntRuns(w, ks, e, m, env);
    BoxedInt(w, Eval(w, e, env, m.tr), IntX(ks, e), m, k);
  }

  lemma {:induction false} FltYields(w: World, ks: Kinds, e: Expr, k: nat, m: M, env: seq<V>)
    requires Rel(ks, m, env) && InScope(e, |env|) && IsFlt(ks, e)
    ensures Yields(Eval(w, e, env, m.tr), RunX(w, Un(MakeFloat, FltX(ks, e)), m), m, k)
  {
    FltRuns(w, ks, e, m, env);
    BoxedFlt(w, Eval(w, e, env, m.tr), FltX(ks, e), m, k);
  }

  lemma {:induction false} BoxedInt(w: World, r: (Result, seq<Event>), x: X, m: M, k: nat)
    requires r.1 == m.tr && (r.0.Ok? ==> r.0.v.VInt?)
    requires RunX(w, x, m) == if r.0.Err? then XErr(r.0.e, m) else XOk(W64(if r.0.v.VInt? then r.0.v.i else 0), m)
    ensures Yields(r, RunX(w, Un(MakeInt, x), m), m, k)
  {
    UnRuns(w, MakeInt, x, m);
  }

  lemma {:induction false} BoxedFlt(w: World, r: (Result, seq<Event>), x: X, m: M, k: nat)
    requires r.1 == m.tr && (r.0.Ok? ==> r.0.v.VFlt?)
    requires RunX(w, x, m) == if r.0.Err? then XErr(r.0.e, m) else XOk(WF(if r.0.v.VFlt? then r.0.v.x else ZERO), m)
    ensures Yields(r, RunX(w, Un(MakeFloat, x), m), m, k)
  {
    UnRuns(w, MakeFloat, x, m);
  }

  lemma {:induction false} UnRuns(w: World, o: Op1, x: X, m: M)
    ensures RunX(w, Un(o, x), m) == var r := RunX(w, x, m); if r.XErr? then r else Unary(w, o, r.v, r.m)
  {
  }

  lemma {:induction false} LoweredOk(w: World, ks: Kinds, e: Expr, k: nat, m: M, env: seq<V>)
    requires Rel(ks, m, env) && InScope(e, |env|) && k + XNeed(ks, e) <= |m.temps| && Lowered(ks, e)
    requires !(!e.Int? && IsInt(ks, e)) && !(!e.Float? && IsFlt(ks, e))
    ensures Yields(Eval(w, e, env, m.tr), RunX(w, EmitX(ks, e, k), m), m, k)
    decreases e, 4
  {
    OpaqueUntyped(ks, e);
    LowerOk(w, ks, e, Tmp(k), k + 1, m, env);
    BoxedOk(w, Eval(w, e, env, m.tr), Lower(ks, e, Tmp(k), k + 1), m, k);
  }

  /** emit_maybe_boxed. */
  lemma {:induction false} BoxedOk(w: World, r: (Result, seq<Event>), code: S, m: M, k: nat)
    requires Fills(r, RunS(w, code, m), m, k + 1, Tmp(k))
    ensures Yields(r, RunX(w, BlockX(code, BoxCell(CellOf(Tmp(k)))), m), m, k)
  {
    var s := RunS(w, code, m);
    if s.SOk? {
      ReadsCell(w, Tmp(k), s.m);
      BoxReads(w, CellOf(Tmp(k)), CellAt(s.m, Tmp(k)), s.m);
    }
  }

  /** A tree with an opaque operand is neither int nor float. */
  lemma {:induction false} OpaqueUntyped(ks: Kinds, e: Expr)
    requires HasOpaque(ks, e)
    ensures !IsInt(ks, e) && !IsFlt(ks, e)
    decreases e
  {
    match e
    case Bin(_, l, r) => if HasOpaque(ks, l) { OpaqueUntyped(ks, l); } else { OpaqueUntyped(ks, r); }
    case Neg(x) => OpaqueUntyped(ks, x);
    case _ =>
  }

  lemma {:induction false} PlainOk(w: World, ks: Kinds, e: Expr, k: nat, m: M, env: seq<V>)
    requires Rel(ks, m, env) && InScope(e, |env|) && k + PNeed(ks, e) <= |m.temps|
    requires e.Local? ==> KindOf(ks, e.s) == KMaybe || KindOf(ks, e.s) == KPlain
    ensures Yields(Eval(w, e, env, m.tr), RunX(w, EmitPlain(ks, e, k), m), m, k)
    decreases e, 2
  {
    match e
    case Int(_) =>
    case Float(_) =>
    case Lit(_) =>
    case Local(s) =>
      assert Held(ks[s], m.slots[s]) == env[s];
      if ks[s] == KMaybe {
        ReadsCell(w, Slot(s), m);
        BoxReads(w, CellOf(Slot(s)), m.slots[s], m);
      }
    case Bin(op, l, r) => HelperOk(w, ks, op, l, r, k, m, env);
    case Neg(x) => ValueOk(w, ks, x, k, m, env);
    case Call(_, callee, args) =>
      ValueOk(w, ks, callee, k, m, env);
      var r0 := RunX(w, EmitX(ks, callee, k), m);
      if r0.XOk? {
        RelKept(ks, m, r0.m, env, k);
        AllOk(w, ks, args, k, r0.m, env);
      }
    case Other(q, _, args) => AllOk(w, ks, args, k, m, env);
  }

  lemma {:induction false} HelperOk(w: World, ks: Kinds, op: Op, l: Expr, r: Expr, k: nat, m: M, env: seq<V>)
    requires Rel(ks, m, env) && InScope(l, |env|) && InScope(r, |env|)
    requires k + XNeed(ks, l) <= |m.temps| && k + XNeed(ks, r) <= |m.temps|
    ensures Yields(Eval(w, Bin(op, l, r), env, m.tr), RunX(w, Two(Helper(op), EmitX(ks, l, k), EmitX(ks, r, k)), m),
      m, k)
    decreases Bin(op, l, r), 1
  {
    ValueOk(w, ks, l, k, m, env);
    var x, y := EmitX(ks, l, k), EmitX(ks, r, k);
    BinEval(w, op, l, r, env, m.tr);
    var r0 := RunX(w, x, m);
    if r0.XOk? {
      RelKept(ks, m, r0.m, env, k);
      ValueOk(w, ks, r, k, r0.m, env);
    }
    var a := Eval(w, l, env, m.tr);
    HelperYields(w, op, x, y, m, k, a, Eval(w, r, env, a.1));
  }

  /** The helper on two operands, given what each of them yields. */
  lemma {:induction false} HelperYields(w: World, op: Op, x: X, y: X, m: M, k: nat, a: (Result, seq<Event>),
        b: (Result, seq<Event>))
    requires Yields(a, RunX(w, x, m), m, k)
    requires a.0.Ok? ==> Yields(b, RunX(w, y, RunX(w, x, m).m), RunX(w, x, m).m, k)
    ensures Yields(if a.0.Err? then a else if b.0.Err? then b else Arith(w, b.1, op, a.0.v, b.0.v),
      RunX(w, Two(Helper(op), x, y), m), m, k)
  {
    HelperRuns(w, op, x, y, m);
  }

  lemma {:induction false} HelperRuns(w: World, op: Op, x: X, y: X, m: M)
    ensures RunX(w, Two(Helper(op), x, y), m)
            == var r0 := RunX(w, x, m);
               if r0.XErr? then r0
               else
                 var r1 := RunX(w, y, r0.m);
                 if r1.XErr? then r1 else Binary(w, Helper(op), r0.v, r1.v, r1.m)
  {
  }

  lemma {:induction false} BinEval(w: World, op: Op, l: Expr, r: Expr, env: seq<V>, tr: seq<Event>)
    ensures Eval(w, Bin(op, l, r), env, tr)
            == var (a, tr1) := Eval(w, l, env, tr);
               if a.Err? then (a, tr1)
               else
                 var (b, tr2) := Eval(w, r, env, tr1);
                 if b.Err? then (b, tr2) else Arith(w, tr2, op, a.v, b.v)
  {
  }

  lemma {:induction false} AllOk(w: World, ks: Kinds, es: Exprs, k: nat, m: M, env: seq<V>)
    requires Rel(ks, m, env) && AllInScope(es, |env|) && k + XsNeed(ks, es) <= |m.temps|
    ensures YieldsAll(EvalAll(w, es, env, m.tr), RunXs(w, EmitXs(ks, es, k), m), m, k)
    decreases es, 0
  {
    if es.Cons? {
      ValueOk(w, ks, es.hd, k, m, env);
      var r0 := RunX(w, EmitX(ks, es.hd, k), m);
      if r0.XOk? {
        RelKept(ks, m, r0.m, env, k);
        AllOk(w, ks, es.tl, k, r0.m, env);
      }
    }
  }

  // ----- the bound -----

  lemma {:induction false} SimpleNeeds(ks: Kinds, e: Expr)
    requires Simple(e)
    ensures XNeed(ks, e) == 0 && PNeed(ks, e) == 0
    decreases e
  {
    if e.Other? { SimpleAllNeed(ks, e.args); }
  }

  lemma {:induction false} SimpleAllNeed(ks: Kinds, es: Exprs)
    requires SimpleAll(es)
    ensures XsNeed(ks, es) == 0
    decreases es
  {
    if es.Cons? {
      SimpleNeeds(ks, es.hd);
      SimpleAllNeed(ks, es.tl);
    }
  }

  /** The pre-pass counts enough: a store takes at most expr_temp_need temporaries,
      a value one more. */
  lemma {:induction false} NeedBounded(ks: Kinds, e: Expr)
    requires Guesses(ks, e)
    ensures LNeed(ks, e) <= Bound(ks, e) && PNeed(ks, e) <= Bound(ks, e) && XNeed(ks, e) <= 1 + Bound(ks, e)
    decreases e
  {
    match e
    case Bin(op, l, r) =>
      NeedBounded(ks, l);
      NeedBounded(ks, r);
      BinBounded(ks, op, l, r);
    case Neg(x) =>
      NeedBounded(ks, x);
      ImmNeeds(ks, x, None);
    case Call(mk, callee, args) =>
      NeedBounded(ks, callee);
      NeedsBounded(ks, args, 2);
      if mk.Some? { SimpleNeeds(ks, callee); }
      if Inlined(e) { NeedBounded(ks, args.hd); }
      CallBounded(ks, mk, callee, args);
    case Other(_, _, args) => NeedsBounded(ks, args, 1);
    case _ =>
  }

  lemma {:induction false} BinBounded(ks: Kinds, op: Op, l: Expr, r: Expr)
    requires LNeed(ks, l) <= Bound(ks, l) && XNeed(ks, l) <= 1 + Bound(ks, l)
    requires LNeed(ks, r) <= Bound(ks, r) && XNeed(ks, r) <= 1 + Bound(ks, r)
    ensures var e := Bin(op, l, r);
            LNeed(ks, e) <= Bound(ks, e) && PNeed(ks, e) <= Bound(ks, e) && XNeed(ks, e) <= 1 + Bound(ks, e)
  {
    ImmNeeds(ks, l, Some(r));
    ImmNeeds(ks, r, None);
  }

  lemma {:induction false} CallBounded(ks: Kinds, mk: Option<MathKind>, callee: Expr, args: Exprs)
    requires XNeed(ks, callee) <= 1 + Bound(ks, callee) && XsNeed(ks, args) <= BoundAll(ks, args, 2)
    requires mk.Some? ==> XNeed(ks, callee) == 0
    requires mk.Some? && Count(args) == 1 ==> LNeed(ks, args.hd) <= Bound(ks, args.hd)
    ensures var e := Call(mk, callee, args);
            LNeed(ks, e) <= Bound(ks, e) && PNeed(ks, e) <= Bound(ks, e) && XNeed(ks, e) <= 1 + Bound(ks, e)
  {
  }

  lemma {:induction false} ImmNeeds(ks: Kinds, e: Expr, after: Option<Expr>)
    ensures OperandImm(ks, e, after).Some? ==> XNeed(ks, e) == 0
  {
  }

  lemma {:induction false} NeedsBounded(ks: Kinds, es: Exprs, extra: nat)
    requires GuessesAll(ks, es) && extra >= 1
    ensures XsNeed(ks, es) <= BoundAll(ks, es, extra)
    decreases es
  {
    if es.Cons? {
      NeedBounded(ks, es.hd);
      NeedsBounded(ks, es.tl, extra);
    }
  }

  // ----- the main result -----

  /** `slot = e` for a maybe slot: afterwards the slot stands for e's value and every
      other local for what it stood for, even when e reads the slot itself. */
  lemma {:induction false} StoreOk(w: World, ks: Kinds, slot: nat, e: Expr, m: M, env: seq<V>)
    requires Rel(ks, m, env) && InScope(e, |env|) && Guesses(ks, e)
    requires slot < |ks| && ks[slot] == KMaybe && Bound(ks, e) <= |m.temps|
    ensures var (r, tr) := Eval(w, e, env, m.tr);
            var s := RunS(w, Lower(ks, e, Slot(slot), 0), m);
            if r.Err? then s == SErr(r.e, s.m) && s.m.tr == tr
            else s.SOk? && s.m.tr == tr && Rel(ks, s.m, env[slot := r.v])
  {
    NeedBounded(ks, e);
    LowerOk(w, ks, e, Slot(slot), 0, m, env);
  }
}
