/** Comparisons of maybe-typed operands (src/codegen/maybe.c, emit_maybe_cmp_block;
    src/codegen/expr.c, cmp_op): numbers inline, mixed ones exactly, anything else by the
    generic helper. */
module MaybeCmp {
  import opened Options
  import opened Numbers
  import opened Maybe
  import opened MaybeSim
  import opened MaybeMain

  datatype CmpOp = Lt | Le | Gt | Ge | Eq | Ne

  /** f64 comparison, the exact comparisons of an int with a float, and Lua's booleans:
      any functions that are lawful. */
  datatype Cmps = Cmps(
    flts: (CmpOp, Flt, Flt) -> bool, intFlt: (CmpOp, int, Flt) -> bool, fltInt: (CmpOp, Flt, int) -> bool,
    boolean: bool -> V, truthy: V -> bool, helper: CmpOp -> int)

  /** 2^53: integers up to it convert exactly. */
  const EXACT := 0x20_0000_0000_0000

  ghost predicate Lawful(w: World, c: Cmps) {
    && (forall b :: c.truthy(c.boolean(b)) == b)
    && (forall i, x :: c.intFlt(Ne, i, x) == !c.intFlt(Eq, i, x))
    && (forall i, x :: c.fltInt(Ne, x, i) == !c.fltInt(Eq, x, i))
    && (forall op, i, x | -EXACT <= i <= EXACT :: c.flts(op, w.conv(i), x) == c.intFlt(op, i, x))
    && (forall op, i, x | -EXACT <= i <= EXACT :: c.flts(op, x, w.conv(i)) == c.fltInt(op, x, i))
  }

  function Ints(op: CmpOp, a: int, b: int): bool {
    match op
    case Lt => a < b
    case Le => a <= b
    case Gt => a > b
    case Ge => a >= b
    case Eq => a == b
    case Ne => a != b
  }

  // ----- Lua's comparison -----

  function NumCmp(c: Cmps, op: CmpOp, a: V, b: V): bool
    requires IsNum(a) && IsNum(b)
  {
    if a.VInt? then (if b.VInt? then Ints(op, a.i, b.i) else c.intFlt(op, a.i, b.x))
    else if b.VInt? then c.fltInt(op, a.x, b.i)
    else c.flts(op, a.x, b.x)
  }

  /** The generic helper: numbers by value, anything else as the world says. */
  function Generic(w: World, c: Cmps, tr: seq<Event>, op: CmpOp, a: V, b: V): (Result, seq<Event>) {
    if IsNum(a) && IsNum(b) then (Ok(c.boolean(NumCmp(c, op, a, b))), tr)
    else Asked(w, tr, QOther(c.helper(op), [a, b]))
  }

  datatype Answer = Says(b: bool) | Errs(e: int)

  function Truth(c: Cmps, r: (Result, seq<Event>)): (Answer, seq<Event>) {
    (if r.0.Err? then Errs(r.0.e) else Says(c.truthy(r.0.v)), r.1)
  }

  function Compare(w: World, c: Cmps, op: CmpOp, l: Expr, r: Expr, env: seq<V>, tr: seq<Event>): (Answer, seq<Event>) {
    var (a, tr1) := Eval(w, l, env, tr);
    if a.Err? then (Errs(a.e), tr1)
    else
      var (b, tr2) := Eval(w, r, env, tr1);
      if b.Err? then (Errs(b.e), tr2) else Truth(c, Generic(w, c, tr2, op, a.v, b.v))
  }

  // ----- the i32 code -----

  datatype B =
    | CmpI(op: CmpOp, a: X, b: X)     // i64.lt_s ...
    | CmpF(op: CmpOp, a: X, b: X)     // f64.lt ...
    | CmpIF(op: CmpOp, a: X, b: X)    // $int_lt_float ..., which have no ne
    | CmpFI(op: CmpOp, a: X, b: X)
    | Not(c: B)                       // i32.eqz
    | Pick(t: X, c: B, d: B)          // if (result i32)
    | Help(op: CmpOp, a: X, b: X)     // $lua_truthy of the helper

  datatype BR = BOk(b: bool, m: M) | BErr(e: int, m: M)

  function RunB(w: World, c: Cmps, x: B, m: M): BR
    decreases x
  {
    match x
    case Not(y) =>
      var r := RunB(w, c, y, m);
      if r.BErr? then r else BOk(!r.b, r.m)
    case Pick(t, y, z) =>
      var r := RunX(w, t, m);
      if r.XErr? then BErr(r.e, r.m)
      else if !r.v.W32? then BErr(STUCK, r.m)
      else if r.v.n != 0 then RunB(w, c, y, r.m) else RunB(w, c, z, r.m)
    case _ =>
      var r := RunX(w, x.a, m);
      if r.XErr? then BErr(r.e, r.m)
      else
        var s := RunX(w, x.b, r.m);
        if s.XErr? then BErr(s.e, s.m) else Answered(w, c, x, r.v, s.v, s.m)
  }

  function Answered(w: World, c: Cmps, x: B, u: WV, v: WV, m: M): BR {
    match (x, u, v)
    case (CmpI(op, _, _), W64(a), W64(b)) => BOk(Ints(op, a, b), m)
    case (CmpF(op, _, _), WF(a), WF(b)) => BOk(c.flts(op, a, b), m)
    case (CmpIF(op, _, _), W64(a), WF(b)) => if op.Ne? then BErr(STUCK, m) else BOk(c.intFlt(op, a, b), m)
    case (CmpFI(op, _, _), WF(a), W64(b)) => if op.Ne? then BErr(STUCK, m) else BOk(c.fltInt(op, a, b), m)
    case (Help(op, _, _), WR(a), WR(b)) =>
      var (r, tr) := Generic(w, c, m.tr, op, a, b);
      if r.Err? then BErr(r.e, m.(tr := tr)) else BOk(c.truthy(r.v), m.(tr := tr))
    case _ => BErr(STUCK, m)
  }

  // ----- emission -----

  /** A cell's static tag, 0 if it is found out at run time. */
  function StaticTag(a: MCell): int { if a.t.Const? && a.t.v.W32? then a.t.v.n else 0 }

  /** expr_is_exact_f64_int_literal. */
  predicate ExactLit(e: Expr) { e.Int? && -EXACT <= e.n <= EXACT }

  /** emit_mixed_cell_cmp: l and r are the operands the cells a and b stand for. */
  function MixedB(op: CmpOp, l: Expr, r: Expr, a: MCell, b: MCell, intLeft: bool): B {
    if ExactLit(if intLeft then l else r) then
      (if intLeft then CmpF(op, Un(Conv, a.i), b.f) else CmpF(op, a.f, Un(Conv, b.i)))
    else
      var o := if op.Ne? then Eq else op;
      var x := if intLeft then CmpIF(o, a.i, b.f) else CmpFI(o, a.f, b.i);
      if op.Ne? then Not(x) else x
  }

  /** emit_maybe_cmp_block, once both operands are in place. */
  function CmpB(op: CmpOp, l: Expr, r: Expr, a: MCell, b: MCell): B {
    var at, bt := StaticTag(a), StaticTag(b);
    var generic := Help(op, BoxCell(a), BoxCell(b));
    var ints, flts := MixedB(op, l, r, a, b, true), MixedB(op, l, r, a, b, false);
    var one :=
      if at == 1 || bt == 2 then ints
      else if at == 2 || bt == 1 then flts
      else Pick(Un(IsTag(1), a.t), ints, flts);
    var rest := if at != 0 && bt != 0 && at == bt then generic else Pick(BothNums(a, b), one, generic);
    Pick(BothTags(a, b, 1), CmpI(op, a.i, b.i), Pick(BothTags(a, b, 2), CmpF(op, a.f, b.f), rest))
  }

  // ----- the code compares -----

  lemma {:induction false} PickRuns(w: World, c: Cmps, t: X, y: B, z: B, m: M, b: bool)
    requires RunX(w, t, m) == XOk(Bit(b), m)
    ensures RunB(w, c, Pick(t, y, z), m) == RunB(w, c, if b then y else z, m)
  {
  }

  lemma {:induction false} TwoRead(w: World, c: Cmps, x: B, m: M, u: WV, v: WV)
    requires !x.Not? && !x.Pick? && RunX(w, x.a, m) == XOk(u, m) && RunX(w, x.b, m) == XOk(v, m)
    ensures RunB(w, c, x, m) == Answered(w, c, x, u, v, m)
  {
  }

  lemma {:induction false} ConvReads(w: World, x: X, m: M, i: int)
    requires RunX(w, x, m) == XOk(W64(i), m)
    ensures RunX(w, Un(Conv, x), m) == XOk(WF(w.conv(i)), m)
  {
  }

  /** An int on the left and a float on the right. */
  lemma {:induction false} IntFltB(w: World, c: Cmps, op: CmpOp, l: Expr, r: Expr, a: MCell, b: MCell, ca: Cell,
        cb: Cell, m: M)
    requires Lawful(w, c) && Reads(w, a, ca, m) && Reads(w, b, cb, m) && (l.Int? ==> ca.i == l.n)
    ensures RunB(w, c, MixedB(op, l, r, a, b, true), m) == BOk(c.intFlt(op, ca.i, cb.f), m)
  {
    if ExactLit(l) {
      ConvReads(w, a.i, m, ca.i);
      TwoRead(w, c, CmpF(op, Un(Conv, a.i), b.f), m, WF(w.conv(ca.i)), WF(cb.f));
    } else {
      var o := if op.Ne? then Eq else op;
      TwoRead(w, c, CmpIF(o, a.i, b.f), m, W64(ca.i), WF(cb.f));
    }
  }

  lemma {:induction false} FltIntB(w: World, c: Cmps, op: CmpOp, l: Expr, r: Expr, a: MCell, b: MCell, ca: Cell,
        cb: Cell, m: M)
    requires Lawful(w, c) && Reads(w, a, ca, m) && Reads(w, b, cb, m) && (r.Int? ==> cb.i == r.n)
    ensures RunB(w, c, MixedB(op, l, r, a, b, false), m) == BOk(c.fltInt(op, ca.f, cb.i), m)
  {
    if ExactLit(r) {
      ConvReads(w, b.i, m, cb.i);
      TwoRead(w, c, CmpF(op, a.f, Un(Conv, b.i)), m, WF(ca.f), WF(w.conv(cb.i)));
    } else {
      var o := if op.Ne? then Eq else op;
      TwoRead(w, c, CmpFI(o, a.f, b.i), m, WF(ca.f), W64(cb.i));
    }
  }

  lemma {:induction false} HelpB(w: World, c: Cmps, op: CmpOp, a: MCell, b: MCell, ca: Cell, cb: Cell, m: M)
    requires Reads(w, a, ca, m) && Reads(w, b, cb, m)
    ensures var (ans, tr) := Truth(c, Generic(w, c, m.tr, op, Decode(ca), Decode(cb)));
            RunB(w, c, Help(op, BoxCell(a), BoxCell(b)), m)
            == if ans.Errs? then BErr(ans.e, m.(tr := tr)) else BOk(ans.b, m.(tr := tr))
  {
    BoxReads(w, a, ca, m);
    BoxReads(w, b, cb, m);
    TwoRead(w, c, Help(op, BoxCell(a), BoxCell(b)), m, WR(Decode(ca)), WR(Decode(cb)));
  }

  lemma {:induction false} StaticReads(w: World, a: MCell, c: Cell, m: M)
    requires Reads(w, a, c, m) && TagOk(c)
    ensures StaticTag(a) != 0 ==> c.t == StaticTag(a)
  {
  }

  lemma {:induction false} BothFlts(w: World, a: MCell, b: MCell, ca: Cell, cb: Cell, m: M)
    requires Reads(w, a, ca, m) && Reads(w, b, cb, m)
    ensures RunX(w, BothTags(a, b, 2), m) == XOk(Bit(ca.t == 2 && cb.t == 2), m)
  {
    TestReads(w, a, ca, m, 2);
    TestReads(w, b, cb, m, 2);
  }

  lemma {:induction false} CmpBOk(w: World, c: Cmps, op: CmpOp, l: Expr, r: Expr, a: MCell, b: MCell, ca: Cell,
        cb: Cell, m: M)
    requires Lawful(w, c) && Reads(w, a, ca, m) && Reads(w, b, cb, m) && TagOk(ca) && TagOk(cb)
    requires (l.Int? ==> ca.i == l.n) && (r.Int? ==> cb.i == r.n)
    ensures var (ans, tr) := Truth(c, Generic(w, c, m.tr, op, Decode(ca), Decode(cb)));
            RunB(w, c, CmpB(op, l, r, a, b), m)
            == if ans.Errs? then BErr(ans.e, m.(tr := tr)) else BOk(ans.b, m.(tr := tr))
  {
    BothRead(w, a, b, ca, cb, m);
    BothFlts(w, a, b, ca, cb, m);
    var ints, flts := CmpI(op, a.i, b.i), CmpF(op, a.f, b.f);
    var at, bt := StaticTag(a), StaticTag(b);
    var generic := Help(op, BoxCell(a), BoxCell(b));
    var mi, mf := MixedB(op, l, r, a, b, true), MixedB(op, l, r, a, b, false);
    var one := if at == 1 || bt == 2 then mi else if at == 2 || bt == 1 then mf else Pick(Un(IsTag(1), a.t), mi, mf);
    var rest := if at != 0 && bt != 0 && at == bt then generic else Pick(BothNums(a, b), one, generic);
    PickRuns(w, c, BothTags(a, b, 1), ints, Pick(BothTags(a, b, 2), flts, rest), m, ca.t == 1 && cb.t == 1);
    PickRuns(w, c, BothTags(a, b, 2), flts, rest, m, ca.t == 2 && cb.t == 2);
    StaticReads(w, a, ca, m);
    StaticReads(w, b, cb, m);
    if ca.t == 1 && cb.t == 1 {
      TwoRead(w, c, ints, m, W64(ca.i), W64(cb.i));
    } else if ca.t == 2 && cb.t == 2 {
      TwoRead(w, c, flts, m, WF(ca.f), WF(cb.f));
    } else {
      PickRuns(w, c, BothNums(a, b), one, generic, m, ca.t != 0 && cb.t != 0);
      if ca.t != 0 && cb.t != 0 {
        MixedOk(w, c, op, l, r, a, b, ca, cb, m);
      } else {
        HelpB(w, c, op, a, b, ca, cb, m);
      }
    }
  }

  lemma {:induction false} MixedOk(w: World, c: Cmps, op: CmpOp, l: Expr, r: Expr, a: MCell, b: MCell, ca: Cell,
        cb: Cell, m: M)
    requires Lawful(w, c) && Reads(w, a, ca, m) && Reads(w, b, cb, m) && TagOk(ca) && TagOk(cb)
    requires (l.Int? ==> ca.i == l.n) && (r.Int? ==> cb.i == r.n)
    requires ca.t != 0 && cb.t != 0 && ca.t != cb.t
    ensures var at, bt := StaticTag(a), StaticTag(b);
            var mi, mf := MixedB(op, l, r, a, b, true), MixedB(op, l, r, a, b, false);
            var one :=
              if at == 1 || bt == 2 then mi else if at == 2 || bt == 1 then mf else Pick(Un(IsTag(1), a.t), mi, mf);
            RunB(w, c, one, m) == BOk(NumCmp(c, op, Decode(ca), Decode(cb)), m)
  {
    StaticReads(w, a, ca, m);
    StaticReads(w, b, cb, m);
    TestReads(w, a, ca, m, 1);
    var mi, mf := MixedB(op, l, r, a, b, true), MixedB(op, l, r, a, b, false);
    PickRuns(w, c, Un(IsTag(1), a.t), mi, mf, m, ca.t == 1);
    if ca.t == 1 {
      IntFltB(w, c, op, l, r, a, b, ca, cb, m);
    } else {
      FltIntB(w, c, op, l, r, a, b, ca, cb, m);
    }
  }

  // ----- operands and comparison -----

  /** The operands are lowered like those of an arithmetic operator. */
  function Pair(l: Expr, r: Expr): Expr { Bin(Add, l, r) }

  function RunCmp(w: World, c: Cmps, cl: S, cr: S, x: B, m: M): BR {
    var s := RunS(w, Seq(cl, cr), m);
    if s.SErr? then BErr(s.e, s.m) else RunB(w, c, x, s.m)
  }

  /** Both operands in place. */
  lemma {:induction false} OperandsOk(w: World, ks: Kinds, l: Expr, r: Expr, k: nat, m: M, env: seq<V>,
      kr: nat, next: nat, a: MCell, b: MCell, cl: S, cr: S)
    requires Rel(ks, m, env) && InScope(Pair(l, r), |env|) && k + LNeed(ks, Pair(l, r)) <= |m.temps|
    requires HasOpaque(ks, Pair(l, r)) && Parts(ks, Pair(l, r), k, kr, next, a, b, cl, cr)
    ensures var (va, tr1) := Eval(w, l, env, m.tr);
            var (vb, tr2) := Eval(w, r, env, tr1);
            var s := RunS(w, Seq(cl, cr), m);
            if va.Err? then s == SErr(va.e, s.m) && s.m.tr == tr1
            else if vb.Err? then s == SErr(vb.e, s.m) && s.m.tr == tr2
            else
              && s.SOk? && s.m.tr == tr2 && Frame(m, s.m, k, None)
              && Denotes(w, a, va.v, s.m) && Denotes(w, b, vb.v, s.m)
  {
    var e := Pair(l, r);
    OpaqueUntyped(ks, e);
    BinRoom(ks, e, k, |m.temps|);
    OperandOk(w, ks, l, Some(r), k, next, m, env);
    SeqRuns(w, cl, cr, m);
    var m1 := RunS(w, cl, m).m;
    if RunS(w, cl, m).SOk? {
      OperandOk(w, ks, r, None, kr, next, m1, env);
      if RunS(w, cr, m1).SOk? { LeftKept(w, ks, e, k, kr, next, m, m1, RunS(w, cr, m1).m, env); }
    }
  }

  lemma {:induction false} Traced(ks: Kinds, m: M, m': M, tr: seq<Event>, k: nat, env: seq<V>)
    requires Rel(ks, m, env) && Frame(m, m', k, None)
    ensures Frame(m, m'.(tr := tr), k, None) && Rel(ks, m'.(tr := tr), env)
  {
    RelKept(ks, m, m'.(tr := tr), env, k);
  }

  lemma {:induction false} LitCells(ks: Kinds, l: Expr, r: Expr, k: nat, kr: nat, next: nat, a: MCell, b: MCell,
        cl: S, cr: S)
    requires Parts(ks, Pair(l, r), k, kr, next, a, b, cl, cr)
    ensures (l.Int? ==> a.i == Const(W64(l.n))) && (r.Int? ==> b.i == Const(W64(r.n)))
  {
  }

  /** Once both operands are in place, at m2. */
  lemma {:induction false} Compares(w: World, c: Cmps, ks: Kinds, op: CmpOp, l: Expr, r: Expr, k: nat, m: M, m2: M,
        env: seq<V>,
      a: MCell, b: MCell, x: V, y: V)
    requires Lawful(w, c) && Rel(ks, m, env) && Frame(m, m2, k, None)
    requires Denotes(w, a, x, m2) && Denotes(w, b, y, m2)
    requires (l.Int? ==> a.i == Const(W64(l.n))) && (r.Int? ==> b.i == Const(W64(r.n)))
    ensures var (ans, tr) := Truth(c, Generic(w, c, m2.tr, op, x, y));
            var s := RunB(w, c, CmpB(op, l, r, a, b), m2);
            && s.m.tr == tr
            && if ans.Errs? then s == BErr(ans.e, s.m)
               else s == BOk(ans.b, s.m) && Frame(m, s.m, k, None) && Rel(ks, s.m, env)
  {
    var ca: Cell :| Reads(w, a, ca, m2) && Decode(ca) == x && TagOk(ca);
    var cb: Cell :| Reads(w, b, cb, m2) && Decode(cb) == y && TagOk(cb);
    CmpBOk(w, c, op, l, r, a, b, ca, cb, m2);
    Traced(ks, m, m2, Generic(w, c, m2.tr, op, x, y).1, k, env);
  }

  /** The comparison block gives Lua's answer, in Lua's order, for every pair of operands;
      slots and the temporaries below k are as they were. */
  lemma {:induction false} CmpOk(w: World, c: Cmps, ks: Kinds, op: CmpOp, l: Expr, r: Expr, k: nat, m: M, env: seq<V>,
      kr: nat, next: nat, a: MCell, b: MCell, cl: S, cr: S)
    requires Lawful(w, c) && Rel(ks, m, env) && InScope(Pair(l, r), |env|) && k + LNeed(ks, Pair(l, r)) <= |m.temps|
    requires HasOpaque(ks, Pair(l, r)) && Parts(ks, Pair(l, r), k, kr, next, a, b, cl, cr)
    ensures var (ans, tr) := Compare(w, c, op, l, r, env, m.tr);
            var s := RunCmp(w, c, cl, cr, CmpB(op, l, r, a, b), m);
            && s.m.tr == tr
            && if ans.Errs? then s == BErr(ans.e, s.m)
               else s == BOk(ans.b, s.m) && Frame(m, s.m, k, None) && Rel(ks, s.m, env)
  {
    OperandsOk(w, ks, l, r, k, m, env, kr, next, a, b, cl, cr);
    var (va, tr1) := Eval(w, l, env, m.tr);
    var (vb, _) := Eval(w, r, env, tr1);
    if va.Ok? && vb.Ok? {
      LitCells(ks, l, r, k, kr, next, a, b, cl, cr);
      Compares(w, c, ks, op, l, r, k, m, RunS(w, Seq(cl, cr), m).m, env, a, b, va.v, vb.v);
    }
  }
}
