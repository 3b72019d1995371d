/** Whole bodies (src/codegen/analysis.c, block_temp_need; src/codegen/stmt.c,
    emit_assign_multi_cells, emit_unboxed_index_store): multiple assignment through held
    cells is Lua's, and no statement takes more temporaries than counted. */
module MaybeBlock {
  import opened Options
  import opened Numbers
  import opened Maybe
  import opened MaybeSim
  import opened MaybeMain
  import opened MaybeEmit
  import opened MaybeCmp

  // ----- values held in temporaries -----

  /** How a temporary holds a value: boxed, lowered, as an i64, or copied from a maybe slot. */
  datatype Hold = Boxed(e: Expr) | Lowered(e: Expr) | AsInt(e: Expr) | CopyOf(s: nat)

  predicate HoldFits(ks: Kinds, h: Hold) {
    match h case AsInt(e) => IsInt(ks, e) case CopyOf(s) => KindOf(ks, s) == KMaybe case _ => true
  }

  function ExprOf(h: Hold): Expr { match h case CopyOf(s) => Local(s) case _ => h.e }

  function HoldS(ks: Kinds, h: Hold, j: nat): S
    requires HoldFits(ks, h)
  {
    match h
    case Boxed(e) => Set(Tmp(j), PB, EmitX(ks, e, j + 1))
    case Lowered(e) => Lower(ks, e, Tmp(j), j + 1)
    case AsInt(e) => Set(Tmp(j), PI, IntX(ks, e))
    case CopyOf(s) => CopyS(Tmp(j), Slot(s))
  }

  function Read(h: Hold, c: Cell): V {
    match h case Boxed(_) => c.b case AsInt(_) => VInt(c.i) case _ => Decode(c)
  }

  function HoldNeed(ks: Kinds, h: Hold): nat {
    match h case Boxed(e) => 1 + XNeed(ks, e) case Lowered(e) => 1 + LNeed(ks, e) case _ => 1
  }

  /** Cell j holds h's value afterwards, or the code fails as h does. */
  ghost predicate HoldWorks(w: World, ks: Kinds, h: Hold, j: nat, m: M, env: seq<V>)
    requires HoldFits(ks, h)
  {
    var (r, tr) := Eval(w, ExprOf(h), env, m.tr);
    var s := RunS(w, HoldS(ks, h, j), m);
    if r.Err? then s == SErr(r.e, s.m) && s.m.tr == tr
    else
      && s.SOk? && s.m.tr == tr && Rel(ks, s.m, env) && Frame(m, s.m, j, None)
      && j < |s.m.temps| && Read(h, s.m.temps[j]) == r.v
  }

  lemma {:induction false} HoldOk(w: World, ks: Kinds, h: Hold, j: nat, m: M, env: seq<V>)
    requires Rel(ks, m, env) && HoldFits(ks, h) && InScope(ExprOf(h), |env|) && j + HoldNeed(ks, h) <= |m.temps|
    ensures HoldWorks(w, ks, h, j, m, env)
  {
    match h
    case Boxed(e) => BoxedWorks(w, ks, e, j, m, env);
    case Lowered(e) => LoweredWorks(w, ks, e, j, m, env);
    case AsInt(e) => IntWorks(w, ks, e, j, m, env);
    case CopyOf(s) => CopyWorks(w, ks, s, j, m, env);
  }

  lemma {:induction false} BoxedWorks(w: World, ks: Kinds, e: Expr, j: nat, m: M, env: seq<V>)
    requires Rel(ks, m, env) && InScope(e, |env|) && j + 1 + XNeed(ks, e) <= |m.temps|
    ensures HoldWorks(w, ks, Boxed(e), j, m, env)
  {
    ValueOk(w, ks, e, j + 1, m, env);
    var r := RunX(w, EmitX(ks, e, j + 1), m);
    if r.XOk? {
      var m1 := Write(r.m, Tmp(j), CellAt(r.m, Tmp(j)).(b := r.v.v));
      assert RunS(w, Set(Tmp(j), PB, EmitX(ks, e, j + 1)), m) == SOk(m1);
      RelKept(ks, m, m1, env, j);
    }
  }

  lemma {:induction false} LoweredWorks(w: World, ks: Kinds, e: Expr, j: nat, m: M, env: seq<V>)
    requires Rel(ks, m, env) && InScope(e, |env|) && j + 1 + LNeed(ks, e) <= |m.temps|
    ensures HoldWorks(w, ks, Lowered(e), j, m, env)
  {
    LowerOk(w, ks, e, Tmp(j), j + 1, m, env);
    var s := RunS(w, Lower(ks, e, Tmp(j), j + 1), m);
    if s.SOk? { RelKept(ks, m, s.m, env, j); }
  }

  lemma {:induction false} IntWorks(w: World, ks: Kinds, e: Expr, j: nat, m: M, env: seq<V>)
    requires Rel(ks, m, env) && IsInt(ks, e) && InScope(e, |env|) && j < |m.temps|
    ensures HoldWorks(w, ks, AsInt(e), j, m, env)
  {
    IntRuns(w, ks, e, m, env);
  }

  lemma {:induction false} CopyWorks(w: World, ks: Kinds, s: nat, j: nat, m: M, env: seq<V>)
    requires Rel(ks, m, env) && KindOf(ks, s) == KMaybe && s < |env| && j < |m.temps|
    ensures HoldWorks(w, ks, CopyOf(s), j, m, env)
  {
    CopyRuns(w, Tmp(j), Slot(s), m);
    assert Held(ks[s], m.slots[s]) == env[s];
  }

  /** One after another, from temporary j up. */
  function HoldsS(ks: Kinds, hs: seq<Hold>, j: nat): S
    requires forall h | h in hs :: HoldFits(ks, h)
  {
    if hs == [] then Skip else Seq(HoldS(ks, hs[0], j), HoldsS(ks, hs[1..], j + 1))
  }

  function ExprsOf(hs: seq<Hold>): Exprs { if hs == [] then Nil else Cons(ExprOf(hs[0]), ExprsOf(hs[1..])) }

  ghost predicate Fitting(ks: Kinds, hs: seq<Hold>, j: nat, env: nat, temps: nat) {
    forall i | 0 <= i < |hs| ::
      HoldFits(ks, hs[i]) && InScope(ExprOf(hs[i]), env) && j + i + HoldNeed(ks, hs[i]) <= temps
  }

  ghost predicate Holding(hs: seq<Hold>, j: nat, m: M, vs: seq<V>) {
    |vs| == |hs| && j + |hs| <= |m.temps| && forall i | 0 <= i < |hs| :: Read(hs[i], m.temps[j + i]) == vs[i]
  }

  /** Later values leave the earlier ones where they are. */
  lemma {:induction false} HoldsOk(w: World, ks: Kinds, hs: seq<Hold>, j: nat, m: M, env: seq<V>)
    requires Rel(ks, m, env) && Fitting(ks, hs, j, |env|, |m.temps|) && j <= |m.temps|
    ensures var (vs, tr) := EvalAll(w, ExprsOf(hs), env, m.tr);
            var s := RunS(w, HoldsS(ks, hs, j), m);
            if vs.Fails? then s == SErr(vs.e, s.m) && s.m.tr == tr
            else s.SOk? && s.m.tr == tr && Rel(ks, s.m, env) && Frame(m, s.m, j, None) && Holding(hs, j, s.m, vs.vs)
    decreases |hs|
  {
    if hs != [] {
      var h, tl := hs[0], hs[1..];
      assert Fitting(ks, tl, j + 1, |env|, |m.temps|) by {
        forall i | 0 <= i < |tl| ensures HoldFits(ks, tl[i]) { assert tl[i] == hs[i + 1]; }
      }
      HoldOk(w, ks, h, j, m, env);
      SeqRuns(w, HoldS(ks, h, j), HoldsS(ks, tl, j + 1), m);
      var s := RunS(w, HoldS(ks, h, j), m);
      if s.SOk? {
        HoldsOk(w, ks, tl, j + 1, s.m, env);
        var (v, tr) := Eval(w, ExprOf(h), env, m.tr);
        var (vs, _) := EvalAll(w, ExprsOf(tl), env, tr);
        if vs.Vals? { HoldingMore(h, tl, j, s.m, RunS(w, HoldsS(ks, tl, j + 1), s.m).m, v.v, vs.vs); }
      }
    }
  }

  lemma {:induction false} HoldingMore(h: Hold, tl: seq<Hold>, j: nat, m1: M, m2: M, v: V, vs: seq<V>)
    requires j < |m1.temps| && Read(h, m1.temps[j]) == v && Frame(m1, m2, j + 1, None) && Holding(tl, j + 1, m2, vs)
    ensures Holding([h] + tl, j, m2, [v] + vs)
  {
    var hs := [h] + tl;
    assert m2.temps[j] == m1.temps[j];
    forall i | 0 <= i < |hs| ensures Read(hs[i], m2.temps[j + i]) == ([v] + vs)[i] {
      if i > 0 { assert hs[i] == tl[i - 1] && Read(tl[i - 1], m2.temps[j + 1 + (i - 1)]) == vs[i - 1]; }
    }
  }

  // ----- multiple assignment -----

  /** A plain local, or an element by a constant short string or by any other key. */
  datatype Target = VarT(s: nat) | FieldT(t: Expr, k: int) | IndexT(t: Expr, key: Expr)

  /** The world's store t[k] = v, with its metamethods. */
  const SET := 0

  datatype Assigned = Done(env: seq<V>, tr: seq<Event>) | Failed(e: int, tr: seq<Event>)

  function TargetExprs(ts: seq<Target>): Exprs {
    if ts == [] then Nil
    else
      match ts[0]
      case VarT(_) => TargetExprs(ts[1..])
      case FieldT(t, _) => Cons(t, TargetExprs(ts[1..]))
      case IndexT(t, key) => Cons(t, Cons(key, TargetExprs(ts[1..])))
  }

  /** How many values the targets' own expressions have. */
  function Parts(ts: seq<Target>): nat {
    if ts == [] then 0
    else (match ts[|ts| - 1] case VarT(_) => 0 case FieldT(_, _) => 1 case IndexT(_, _) => 2) + Parts(ts[..|ts| - 1])
  }

  /** The stores, right to left; got holds the targets' parts and then the values. */
  function Stores(w: World, ts: seq<Target>, got: seq<V>, vals: seq<V>, env: seq<V>, tr: seq<Event>): Assigned
    requires Parts(ts) <= |got| && |ts| <= |vals|
  {
    if ts == [] then Done(env, tr)
    else
      var n, o := |ts| - 1, Parts(ts[..|ts| - 1]);
      match ts[n]
      case VarT(s) => Stores(w, ts[..n], got, vals, if s < |env| then env[s := vals[n]] else env, tr)
      case FieldT(_, k) =>
        var (r, tr') := Asked(w, tr, QOther(SET, [got[o], VObj(k), vals[n]]));
        if r.Err? then Failed(r.e, tr') else Stores(w, ts[..n], got, vals, env, tr')
      case IndexT(_, _) =>
        var (r, tr') := Asked(w, tr, QOther(SET, [got[o], got[o + 1], vals[n]]));
        if r.Err? then Failed(r.e, tr') else Stores(w, ts[..n], got, vals, env, tr')
  }

  function Join(a: Exprs, b: Exprs): Exprs { match a case Nil => b case Cons(e, tl) => Cons(e, Join(tl, b)) }

  /** Lua's order: every table and key, every value, then the stores. */
  function AssignAll(w: World, ts: seq<Target>, values: Exprs, env: seq<V>, tr: seq<Event>): Assigned
    requires Count(values) == |ts|
  {
    var (vs, tr1) := EvalAll(w, Join(TargetExprs(ts), values), env, tr);
    if vs.Fails? then Failed(vs.e, tr1)
    else if |vs.vs| < Parts(ts) + |ts| then Failed(STUCK, tr1)
    else Stores(w, ts, vs.vs, vs.vs[Parts(ts)..], env, tr1)
  }

  // ----- its code -----

  function KeyHold(ks: Kinds, key: Expr): Hold {
    if IsInt(ks, key) then AsInt(key)
    else if key.Local? && KindOf(ks, key.s) == KMaybe then CopyOf(key.s)
    else Boxed(key)
  }

  function TargetHolds(ks: Kinds, ts: seq<Target>): seq<Hold> {
    if ts == [] then []
    else
      match ts[0]
      case VarT(_) => TargetHolds(ks, ts[1..])
      case FieldT(t, _) => [Boxed(t)] + TargetHolds(ks, ts[1..])
      case IndexT(t, key) => [Boxed(t), KeyHold(ks, key)] + TargetHolds(ks, ts[1..])
  }

  /** store_value_lowers. */
  predicate ValueLowers(ks: Kinds, v: Expr) {
    IsFlt(ks, v) || ((v.Bin? || v.Neg?) && HasOpaque(ks, v)) || (v.Local? && KindOf(ks, v.s) == KMaybe) || Inlined(v)
  }

  function ValueHolds(ks: Kinds, ts: seq<Target>, values: Exprs): seq<Hold>
    requires Count(values) == |ts|
  {
    if values.Nil? then []
    else
      [if !ts[0].VarT? && ValueLowers(ks, values.hd) then Lowered(values.hd) else Boxed(values.hd)]
      + ValueHolds(ks, ts[1..], values.tl)
  }

  function AllHolds(ks: Kinds, ts: seq<Target>, values: Exprs): seq<Hold>
    requires Count(values) == |ts|
  {
    TargetHolds(ks, ts) + ValueHolds(ks, ts, values)
  }

  /** The stores from the cells from j up, the values' from v up. */
  function RunStores(w: World, ts: seq<Target>, hs: seq<Hold>, j: nat, v: nat, m: M): SR
    requires Parts(ts) <= |hs| && v + |ts| <= |hs| && j + |hs| <= |m.temps|
  {
    if ts == [] then SOk(m)
    else
      var n, o := |ts| - 1, Parts(ts[..|ts| - 1]);
      var x := Read(hs[v + n], m.temps[j + v + n]);
      match ts[n]
      case VarT(s) =>
        if !Has(m, Slot(s)) then SErr(STUCK, m)
        else RunStores(w, ts[..n], hs, j, v, Write(m, Slot(s), m.slots[s].(b := x)))
      case FieldT(_, k) =>
        var (r, tr) := Asked(w, m.tr, QOther(SET, [Read(hs[o], m.temps[j + o]), VObj(k), x]));
        if r.Err? then SErr(r.e, m.(tr := tr)) else RunStores(w, ts[..n], hs, j, v, m.(tr := tr))
      case IndexT(_, _) =>
        var key := Read(hs[o + 1], m.temps[j + o + 1]);
        var (r, tr) := Asked(w, m.tr, QOther(SET, [Read(hs[o], m.temps[j + o]), key, x]));
        if r.Err? then SErr(r.e, m.(tr := tr)) else RunStores(w, ts[..n], hs, j, v, m.(tr := tr))
  }

  function RunMulti(w: World, ks: Kinds, ts: seq<Target>, values: Exprs, j: nat, m: M): SR
    requires Count(values) == |ts|
  {
    var hs := AllHolds(ks, ts, values);
    HoldsShape(ks, ts, values);
    var s := RunS(w, HoldsS(ks, hs, j), m);
    if s.SErr? then s
    else if j + |hs| > |s.m.temps| then SErr(STUCK, s.m)
    else RunStores(w, ts, hs, j, Parts(ts), s.m)
  }

  lemma {:induction false} PartsFront(ts: seq<Target>)
    requires ts != []
    ensures Parts(ts) == (match ts[0] case VarT(_) => 0 case FieldT(_, _) => 1 case IndexT(_, _) => 2) + Parts(ts[1..])
    decreases |ts|
  {
    if |ts| > 1 {
      PartsFront(ts[..|ts| - 1]);
      assert ts[..|ts| - 1][1..] == ts[1..][..|ts| - 2];
    }
  }

  lemma {:induction false} TargetShape(ks: Kinds, ts: seq<Target>)
    ensures var hs := TargetHolds(ks, ts);
            |hs| == Parts(ts) && (forall h | h in hs :: HoldFits(ks, h)) && ExprsOf(hs) == TargetExprs(ts)
    decreases |ts|
  {
    if ts != [] {
      TargetShape(ks, ts[1..]);
      PartsFront(ts);
      var hs, tl := TargetHolds(ks, ts), TargetHolds(ks, ts[1..]);
      match ts[0]
      case VarT(_) =>
      case FieldT(t, _) => assert hs[1..] == tl;
      case IndexT(t, key) => assert hs[1..] == [KeyHold(ks, key)] + tl && hs[1..][1..] == tl;
    }
  }

  lemma {:induction false} ValueShape(ks: Kinds, ts: seq<Target>, values: Exprs)
    requires Count(values) == |ts|
    ensures var hs := ValueHolds(ks, ts, values);
            |hs| == |ts| && (forall h | h in hs :: HoldFits(ks, h)) && ExprsOf(hs) == values
    decreases values
  {
    if values.Cons? {
      ValueShape(ks, ts[1..], values.tl);
      assert ValueHolds(ks, ts, values)[1..] == ValueHolds(ks, ts[1..], values.tl);
    }
  }

  lemma {:induction false} ExprsJoin(a: seq<Hold>, b: seq<Hold>)
    ensures ExprsOf(a + b) == Join(ExprsOf(a), ExprsOf(b))
    decreases |a|
  {
    if a == [] {
      assert a + b == b;
    } else {
      assert (a + b)[1..] == a[1..] + b;
      ExprsJoin(a[1..], b);
    }
  }

  lemma {:induction false} HoldsShape(ks: Kinds, ts: seq<Target>, values: Exprs)
    requires Count(values) == |ts|
    ensures var hs := AllHolds(ks, ts, values);
            && |hs| == Parts(ts) + |ts| && (forall h | h in hs :: HoldFits(ks, h))
            && ExprsOf(hs) == Join(TargetExprs(ts), values)
  {
    TargetShape(ks, ts);
    ValueShape(ks, ts, values);
    ExprsJoin(TargetHolds(ks, ts), ValueHolds(ks, ts, values));
  }

  // ----- multiple assignment is Lua's -----

  /** emit_assign_multi_cells handles plain locals only. */
  predicate PlainVars(ks: Kinds, ts: seq<Target>) {
    forall t | t in ts :: t.VarT? ==> t.s < |ks| && ks[t.s] == KPlain
  }

  lemma {:induction false} StoresOk(w: World, ks: Kinds, ts: seq<Target>, hs: seq<Hold>, j: nat, m: M, env: seq<V>,
      vs: seq<V>, v: nat)
    requires Rel(ks, m, env) && PlainVars(ks, ts) && Holding(hs, j, m, vs)
    requires Parts(ts) <= |hs| && v + |ts| <= |hs|
    ensures var r := Stores(w, ts, vs, vs[v..], env, m.tr);
            var s := RunStores(w, ts, hs, j, v, m);
            if r.Failed? then s == SErr(r.e, s.m) && s.m.tr == r.tr
            else s.SOk? && s.m.tr == r.tr && Rel(ks, s.m, r.env)
    decreases |ts|
  {
    if ts != [] {
      var n, o := |ts| - 1, Parts(ts[..|ts| - 1]);
      assert PlainVars(ks, ts[..n]);
      assert Read(hs[v + n], m.temps[j + (v + n)]) == vs[v..][n];
      match ts[n]
      case VarT(s) =>
        assert ts[n] in ts;
        StoresOk(w, ks, ts[..n], hs, j, Write(m, Slot(s), m.slots[s].(b := vs[v..][n])), env[s := vs[v..][n]], vs, v);
      case FieldT(_, k) =>
        assert Read(hs[o], m.temps[j + o]) == vs[o];
        var (r, tr) := Asked(w, m.tr, QOther(SET, [vs[o], VObj(k), vs[v..][n]]));
        if r.Ok? { StoresOk(w, ks, ts[..n], hs, j, m.(tr := tr), env, vs, v); }
      case IndexT(_, _) =>
        assert Read(hs[o], m.temps[j + o]) == vs[o] && Read(hs[o + 1], m.temps[j + (o + 1)]) == vs[o + 1];
        var (r, tr) := Asked(w, m.tr, QOther(SET, [vs[o], vs[o + 1], vs[v..][n]]));
        if r.Ok? { StoresOk(w, ks, ts[..n], hs, j, m.(tr := tr), env, vs, v); }
    }
  }

  /** `t1[k1], x, t2[k2] = v1, v2, v3` through held cells: same order of evaluation, same
      stores from right to left, same errors, with as many temporaries as counted. */
  lemma {:induction false} MultiOk(w: World, ks: Kinds, ts: seq<Target>, values: Exprs, m: M, env: seq<V>)
    requires Count(values) == |ts| && Rel(ks, m, env) && PlainVars(ks, ts)
    requires AllInScope(Join(TargetExprs(ts), values), |env|) && GuessesAll(ks, Join(TargetExprs(ts), values))
    requires MultiBound(ks, ts, values) <= |m.temps|
    ensures var r := AssignAll(w, ts, values, env, m.tr);
            var s := RunMulti(w, ks, ts, values, 0, m);
            if r.Failed? then s == SErr(r.e, s.m) && s.m.tr == r.tr
            else s.SOk? && s.m.tr == r.tr && Rel(ks, s.m, r.env)
  {
    var hs := AllHolds(ks, ts, values);
    HoldsShape(ks, ts, values);
    MultiFits(ks, ts, values, |env|, |m.temps|);
    HoldsOk(w, ks, hs, 0, m, env);
    var (vs, tr) := EvalAll(w, ExprsOf(hs), env, m.tr);
    if vs.Vals? { StoresOk(w, ks, ts, hs, 0, RunS(w, HoldsS(ks, hs, 0), m).m, env, vs.vs, Parts(ts)); }
  }

  // ----- how many temporaries -----

  /** The most any of the expressions takes. */
  function Sub(ks: Kinds, es: Exprs): nat {
    match es case Nil => 0 case Cons(e, tl) => Max(1 + Bound(ks, e), Sub(ks, tl))
  }

  function Indexed(ts: seq<Target>): nat {
    if ts == [] then 0 else (if ts[0].VarT? then 0 else 1) + Indexed(ts[1..])
  }

  /** The expressions multi_assign_stmt_need counts: a constant key too. */
  function Counted(ts: seq<Target>): Exprs {
    if ts == [] then Nil
    else
      match ts[0]
      case VarT(_) => Counted(ts[1..])
      case FieldT(t, k) => Cons(t, Cons(Lit(k), Counted(ts[1..])))
      case IndexT(t, key) => Cons(t, Cons(key, Counted(ts[1..])))
  }

  /** multi_assign_stmt_need. */
  function MultiBound(ks: Kinds, ts: seq<Target>, values: Exprs): nat {
    |ts| + 2 * Indexed(ts) + Max(Sub(ks, Counted(ts)), Sub(ks, values))
  }

  /** What a hold needs is at most one cell more than what is counted for it. */
  lemma {:induction false} HoldBounded(ks: Kinds, h: Hold)
    requires Guesses(ks, ExprOf(h))
    ensures HoldNeed(ks, h) <= 2 + Bound(ks, ExprOf(h))
  {
    NeedBounded(ks, ExprOf(h));
  }

  lemma {:induction false} SubHas(ks: Kinds, hs: seq<Hold>, i: nat)
    requires i < |hs|
    ensures 1 + Bound(ks, ExprOf(hs[i])) <= Sub(ks, ExprsOf(hs))
    decreases i
  {
    if i > 0 { SubHas(ks, hs[1..], i - 1); }
  }

  lemma {:induction false} AllHas(ks: Kinds, hs: seq<Hold>, i: nat, n: nat)
    requires i < |hs|
    ensures GuessesAll(ks, ExprsOf(hs)) ==> Guesses(ks, ExprOf(hs[i]))
    ensures AllInScope(ExprsOf(hs), n) ==> InScope(ExprOf(hs[i]), n)
    decreases i
  {
    if i > 0 { AllHas(ks, hs[1..], i - 1, n); }
  }

  lemma {:induction false} CountedMore(ks: Kinds, ts: seq<Target>)
    ensures Sub(ks, TargetExprs(ts)) <= Sub(ks, Counted(ts)) && Parts(ts) <= 2 * Indexed(ts)
    decreases |ts|
  {
    if ts != [] {
      CountedMore(ks, ts[1..]);
      PartsFront(ts);
    }
  }

  lemma {:induction false} MultiFits(ks: Kinds, ts: seq<Target>, values: Exprs, env: nat, temps: nat)
    requires Count(values) == |ts| && MultiBound(ks, ts, values) <= temps
    requires AllInScope(Join(TargetExprs(ts), values), env) && GuessesAll(ks, Join(TargetExprs(ts), values))
    ensures Fitting(ks, AllHolds(ks, ts, values), 0, env, temps)
  {
    var hs := AllHolds(ks, ts, values);
    HoldsShape(ks, ts, values);
    forall i | 0 <= i < |hs|
      ensures HoldFits(ks, hs[i]) && InScope(ExprOf(hs[i]), env) && 0 + i + HoldNeed(ks, hs[i]) <= temps {
      AllHas(ks, hs, i, env);
      HoldFitsIn(ks, ts, values, i);
    }
  }

  /** Cell i of a multiple assignment, and what is taken above it, is within the count. */
  lemma {:induction false} HoldFitsIn(ks: Kinds, ts: seq<Target>, values: Exprs, i: nat)
    requires Count(values) == |ts| && i < |AllHolds(ks, ts, values)|
    requires Guesses(ks, ExprOf(AllHolds(ks, ts, values)[i]))
    ensures i + HoldNeed(ks, AllHolds(ks, ts, values)[i]) <= MultiBound(ks, ts, values)
  {
    var th, vh := TargetHolds(ks, ts), ValueHolds(ks, ts, values);
    TargetShape(ks, ts);
    ValueShape(ks, ts, values);
    CountedMore(ks, ts);
    HoldBounded(ks, (th + vh)[i]);
    if i < |th| { SubHas(ks, th, i); } else { SubHas(ks, vh, i - |th|); }
  }

  // ----- bodies -----

  datatype Stmts = End | More(hd: Stmt, tl: Stmts)

  /** A statement by what it evaluates: boxed values in turn (calls, conditions, returns,
      stores into plain locals), a store into a maybe slot, a comparison as a condition, one
      element store, a multiple assignment, or blocks. */
  datatype Stmt =
    | Values(es: Exprs)
    | StoreIn(s: nat, e: Expr)
    | Test(op: CmpOp, l: Expr, r: Expr)
    | ElementStore(t: Expr, key: Expr, short: bool, v: Expr)
    | Multi(ts: seq<Target>, es: Exprs)
    | Nest(a: Stmts, b: Stmts)

  /** temp_need_visit and multi_assign_need_visit over the body. */
  function Most(ks: Kinds, b: Stmts): nat
    decreases b
  {
    match b case End => 0 case More(s, tl) => Max(MostAt(ks, s), Most(ks, tl))
  }

  function MostAt(ks: Kinds, s: Stmt): nat
    decreases s
  {
    match s
    case Values(es) => Sub(ks, es)
    case StoreIn(_, e) => 1 + Bound(ks, e)
    case Test(_, l, r) => 1 + Bound(ks, Pair(l, r))
    case ElementStore(t, key, _, v) => Sub(ks, Cons(t, Cons(key, Cons(v, Nil))))
    case Multi(ts, es) => MultiBound(ks, ts, es)
    case Nest(a, b) => Max(Most(ks, a), Most(ks, b))
  }

  /** block_temp_need: the size of the pool. */
  function BlockNeed(ks: Kinds, b: Stmts): nat { Most(ks, b) + 3 }

  predicate KeyInPlace(ks: Kinds, key: Expr) { key.Local? && KindOf(ks, key.s) == KMaybe }

  /** The element stores that emit_unboxed_index_store takes on; `short` marks a constant
      string key. */
  predicate Unboxed(ks: Kinds, key: Expr, short: bool, v: Expr) {
    var low := !short && key.Bin? && MaybeOp(key.op) && HasOpaque(ks, key);
    && (short ==> key.Lit?)
    && (short || IsInt(ks, key) || KeyInPlace(ks, key) || low)
    && (ValueLowers(ks, v) || low)
  }

  ghost predicate Usual(ks: Kinds, b: Stmts)
    decreases b
  {
    match b case End => true case More(s, tl) => UsualAt(ks, s) && Usual(ks, tl)
  }

  /** Conditions as emit_truthy sends them here, and guesses as callee_math_kind makes them. */
  ghost predicate UsualAt(ks: Kinds, s: Stmt)
    decreases s
  {
    match s
    case Values(es) => GuessesAll(ks, es)
    case StoreIn(_, e) => Guesses(ks, e)
    case Test(_, l, r) => HasOpaque(ks, Pair(l, r)) && Guesses(ks, Pair(l, r))
    case ElementStore(t, key, short, v) =>
      Guesses(ks, t) && Guesses(ks, key) && Guesses(ks, v) && Unboxed(ks, key, short, v)
    case Multi(ts, es) => Count(es) == |ts| && GuessesAll(ks, Join(TargetExprs(ts), es))
    case Nest(a, b) => Usual(ks, a) && Usual(ks, b)
  }

  datatype Code = CNone | CMore(hd: Piece, tl: Code)

  datatype Piece =
    | PX(x: X) | PS(s: S) | PTest(cl: S, cr: S, test: B) | PStore(t: S, k: S, v: S) | PMulti(held: S)
    | PNest(a: Code, b: Code)

  /** The code of a body, every statement with all temporaries free. */
  ghost predicate IsCode(ks: Kinds, b: Stmts, c: Code)
    decreases b, 0
  {
    match b
    case End => c == CNone
    case More(s, tl) =>
      if s.Values? then IsValues(ks, s.es, tl, c) else c.CMore? && IsPiece(ks, s, c.hd) && IsCode(ks, tl, c.tl)
  }

  ghost predicate IsValues(ks: Kinds, es: Exprs, tl: Stmts, c: Code)
    decreases tl, 1, es
  {
    match es
    case Nil => IsCode(ks, tl, c)
    case Cons(e, more) => c.CMore? && c.hd == PX(EmitX(ks, e, 0)) && IsValues(ks, more, tl, c.tl)
  }

  ghost predicate IsPiece(ks: Kinds, s: Stmt, p: Piece)
    decreases s, 0
  {
    match s
    case Values(_) => true
    case StoreIn(x, e) => p == PS(Lower(ks, e, Slot(x), 0))
    case Test(op, l, r) =>
      p.PTest? && exists kr: nat, next: nat, a, b ::
        MaybeMain.Parts(ks, Pair(l, r), 0, kr, next, a, b, p.cl, p.cr) && p.test == CmpB(op, l, r, a, b)
    case ElementStore(t, key, short, v) =>
      p.PStore? && p.t == Set(Tmp(0), PB, EmitX(ks, t, 3))
      && p.k == (if short || KeyInPlace(ks, key) then Skip
                 else if IsInt(ks, key) then Set(Tmp(0), PI, IntX(ks, key)) else Lower(ks, key, Tmp(1), 3))
      && p.v == (if ValueLowers(ks, v) then Lower(ks, v, Tmp(2), 3) else Set(Tmp(2), PB, EmitX(ks, v, 3)))
    case Multi(ts, es) =>
      Count(es) == |ts| && (forall h | h in AllHolds(ks, ts, es) :: HoldFits(ks, h))
      && p == PMulti(HoldsS(ks, AllHolds(ks, ts, es), 0))
    case Nest(a, b) => p.PNest? && IsCode(ks, a, p.a) && IsCode(ks, b, p.b)
  }

  /** One held value: its cell, then its code above it. */
  method EmitHold(c: CG, ks: Kinds, h: Hold) returns (code: S)
    requires c.ok && HoldFits(ks, h) && c.mtDepth + HoldNeed(ks, h) <= c.mtMax
    modifies c
    ensures c.ok && c.mtDepth == old(c.mtDepth) + 1 && code == HoldS(ks, h, old(c.mtDepth))
  {
    var j := c.MtAlloc(1);
    match h
    case Boxed(e) =>
      var x := c.EmitExpr(ks, e);
      code := Set(Tmp(j), PB, x);
    case Lowered(e) => code := c.EmitLower(ks, e, Tmp(j));
    case AsInt(e) => code := Set(Tmp(j), PI, IntX(ks, e));
    case CopyOf(s) => code := CopyS(Tmp(j), Slot(s));
  }

  method EmitHolds(c: CG, ks: Kinds, hs: seq<Hold>) returns (code: S)
    requires c.ok && forall i | 0 <= i < |hs| :: HoldFits(ks, hs[i]) && c.mtDepth + i + HoldNeed(ks, hs[i]) <= c.mtMax
    modifies c
    ensures c.ok && (forall h | h in hs :: HoldFits(ks, h)) && code == HoldsS(ks, hs, old(c.mtDepth))
    decreases |hs|
  {
    if hs == [] { return Skip; }
    var first := EmitHold(c, ks, hs[0]);
    assert forall i | 0 <= i < |hs[1..]| :: hs[1..][i] == hs[i + 1];
    var rest := EmitHolds(c, ks, hs[1..]);
    code := Seq(first, rest);
  }

  /** emit_assign_multi_cells, up to the stores. */
  method EmitMulti(c: CG, ks: Kinds, ts: seq<Target>, es: Exprs) returns (p: Piece)
    requires c.ok && c.mtDepth == 0 && MultiBound(ks, ts, es) <= c.mtMax && UsualAt(ks, Multi(ts, es))
    modifies c
    ensures c.ok && c.mtDepth == 0 && IsPiece(ks, Multi(ts, es), p)
  {
    ghost var hs := AllHolds(ks, ts, es);
    HoldsShape(ks, ts, es);
    forall i | 0 <= i < |hs| ensures HoldFits(ks, hs[i]) && i + HoldNeed(ks, hs[i]) <= c.mtMax {
      AllHas(ks, hs, i, 0);
      HoldFitsIn(ks, ts, es, i);
    }
    var code := EmitHolds(c, ks, AllHolds(ks, ts, es));
    c.mtDepth := 0;
    p := PMulti(code);
  }

  lemma {:induction false} ElementNeeds(ks: Kinds, t: Expr, key: Expr, short: bool, v: Expr)
    requires UsualAt(ks, ElementStore(t, key, short, v))
    ensures var n := MostAt(ks, ElementStore(t, key, short, v));
            XNeed(ks, t) <= n && LNeed(ks, key) <= n && LNeed(ks, v) <= n && XNeed(ks, v) <= n
  {
    NeedBounded(ks, t);
    NeedBounded(ks, key);
    NeedBounded(ks, v);
    var last := Cons(v, Nil);
    assert Sub(ks, last) >= 1 + Bound(ks, v) && Sub(ks, Cons(key, last)) >= Max(1 + Bound(ks, key), Sub(ks, last));
  }

  /** emit_unboxed_index_store: three cells, then each part above them. */
  method EmitElement(c: CG, ks: Kinds, t: Expr, key: Expr, short: bool, v: Expr) returns (p: Piece)
    requires c.ok && c.mtDepth == 0 && UsualAt(ks, ElementStore(t, key, short, v))
    requires MostAt(ks, ElementStore(t, key, short, v)) + 3 <= c.mtMax
    modifies c
    ensures c.ok && c.mtDepth == 0 && IsPiece(ks, ElementStore(t, key, short, v), p)
  {
    ElementNeeds(ks, t, key, short, v);
    var k := c.MtAlloc(3);
    var x := c.EmitExpr(ks, t);
    var kc, vc;
    if short || KeyInPlace(ks, key) {
      kc := Skip;
    } else if IsInt(ks, key) {
      kc := Set(Tmp(0), PI, IntX(ks, key));
    } else {
      kc := c.EmitLower(ks, key, Tmp(1));
    }
    if ValueLowers(ks, v) {
      vc := c.EmitLower(ks, v, Tmp(2));
    } else {
      var y := c.EmitExpr(ks, v);
      vc := Set(Tmp(2), PB, y);
    }
    c.mtDepth := k;
    p := PStore(Set(Tmp(0), PB, x), kc, vc);
  }

  lemma {:induction false} TestNeeds(ks: Kinds, l: Expr, r: Expr)
    requires HasOpaque(ks, Pair(l, r)) && Guesses(ks, Pair(l, r))
    ensures !IsInt(ks, Pair(l, r)) && !IsFlt(ks, Pair(l, r)) && LNeed(ks, Pair(l, r)) <= Bound(ks, Pair(l, r))
  {
    OpaqueUntyped(ks, Pair(l, r));
    NeedBounded(ks, Pair(l, r));
  }

  /** emit_maybe_cmp_block. */
  method EmitTest(c: CG, ks: Kinds, op: CmpOp, l: Expr, r: Expr) returns (p: Piece)
    requires c.ok && c.mtDepth == 0 && UsualAt(ks, Test(op, l, r)) && 1 + Bound(ks, Pair(l, r)) <= c.mtMax
    modifies c
    ensures c.ok && c.mtDepth == 0 && IsPiece(ks, Test(op, l, r), p)
  {
    TestNeeds(ks, l, r);
    var k, cl, cr, a, b := c.EmitOperands(ks, Pair(l, r));
    p := PTest(cl, cr, CmpB(op, l, r, a, b));
    c.mtDepth := k;
    ghost var kr: nat := if OperandImm(ks, l, Some(r)).Some? then 0 else 1;
    IsTest(ks, op, l, r, kr, if OperandImm(ks, r, None).Some? then kr else kr + 1, a, b, cl, cr);
  }

  lemma {:induction false} IsTest(ks: Kinds, op: CmpOp, l: Expr, r: Expr, kr: nat, next: nat, a: MCell, b: MCell,
        cl: S, cr: S)
    requires MaybeMain.Parts(ks, Pair(l, r), 0, kr, next, a, b, cl, cr)
    ensures IsPiece(ks, Test(op, l, r), PTest(cl, cr, CmpB(op, l, r, a, b)))
  {
  }

  /** A body in a pool of the size block_temp_need computes: the internal error is never
      raised, whatever the statements. */
  method EmitBody(ks: Kinds, b: Stmts) returns (code: Code, c: CG)
    requires Usual(ks, b)
    ensures fresh(c) && c.mtMax == BlockNeed(ks, b) && c.ok && c.mtDepth == 0 && IsCode(ks, b, code)
  {
    c := new CG(BlockNeed(ks, b));
    code := EmitStmts(c, ks, b);
  }

  method EmitStmts(c: CG, ks: Kinds, b: Stmts) returns (code: Code)
    requires c.ok && c.mtDepth == 0 && Usual(ks, b) && Most(ks, b) + 3 <= c.mtMax
    modifies c
    ensures c.ok && c.mtDepth == 0 && IsCode(ks, b, code)
    decreases b, 0
  {
    if b.End? { return CNone; }
    if b.hd.Values? {
      code := EmitValues(c, ks, b.hd.es, b.tl);
    } else {
      var p := EmitStmt(c, ks, b.hd);
      var rest := EmitStmts(c, ks, b.tl);
      code := CMore(p, rest);
    }
  }

  method EmitValues(c: CG, ks: Kinds, es: Exprs, tl: Stmts) returns (code: Code)
    requires c.ok && c.mtDepth == 0 && GuessesAll(ks, es) && Usual(ks, tl)
    requires Sub(ks, es) <= c.mtMax && Most(ks, tl) + 3 <= c.mtMax
    modifies c
    ensures c.ok && c.mtDepth == 0 && IsValues(ks, es, tl, code)
    decreases tl, 1, es
  {
    if es.Nil? {
      code := EmitStmts(c, ks, tl);
    } else {
      NeedBounded(ks, es.hd);
      var x := c.EmitExpr(ks, es.hd);
      var rest := EmitValues(c, ks, es.tl, tl);
      code := CMore(PX(x), rest);
    }
  }

  method EmitStmt(c: CG, ks: Kinds, s: Stmt) returns (p: Piece)
    requires c.ok && c.mtDepth == 0 && UsualAt(ks, s) && MostAt(ks, s) + 3 <= c.mtMax && !s.Values?
    modifies c
    ensures c.ok && c.mtDepth == 0 && IsPiece(ks, s, p)
    decreases s, 0
  {
    match s
    case StoreIn(x, e) =>
      var code := c.EmitStore(ks, x, e);
      p := PS(code);
    case Test(op, l, r) => p := EmitTest(c, ks, op, l, r);
    case ElementStore(t, key, short, v) => p := EmitElement(c, ks, t, key, short, v);
    case Multi(ts, es) => p := EmitMulti(c, ks, ts, es);
    case Nest(a, b) =>
      var x := EmitStmts(c, ks, a);
      var y := EmitStmts(c, ks, b);
      p := PNest(x, y);
  }
}
