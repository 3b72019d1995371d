/** Whole-program numeric specialization (src/codegen/analysis.c, expr.c): which
    expressions are provably int or float, what the boxed program does, and what the
    program with unboxed slots, parameters and returns does. */
module Spec {
  import opened Numbers
  import opened IntFor

  // ----- values and the world -----

  /** VNone is a local before its declaration runs: scoping rules out reading it. */
  datatype V = VInt(i: I64) | VFlt(x: Flt) | VFun(f: nat) | VObj(k: int) | VNone

  const NIL := VObj(0)

  datatype Query =
    | QArith(op: Op, a: V, b: V) | QNeg(a: V) | QCall(f: V, args: seq<V>) | QOther(k: int, args: seq<V>)
    | QFor(a: V, b: V, c: V)
    | QNew(v: V) | QSet(box: nat, v: V)     // a new box, a store into a box

  datatype Reply = Value(v: V) | Raise(e: int)

  datatype Event = Event(q: Query, r: Reply)

  type Trace = seq<Event>

  /** A captured local's slot refers to a box shared with closures, known by its place in
      the trace. */
  datatype Slot = Plain(v: V) | Boxed(b: nat)

  type Env = seq<Slot>

  /** What $for_limit makes of a limit that is no integer: the integer limit that
      admits the same values, and whether the loop is skipped. */
  datatype Limit = Limit(stop: I64, skip: bool) | NoLimit

  /** What the program leaves to its surroundings: metamethods, coercions, library
      calls, float arithmetic, limits that are no integers, float loops, and what a box
      holds, since closures write to boxes too. */
  datatype World = World(
    ask: (Trace, Query) -> Reply,
    fop: (Op, Flt, Flt) -> Flt, conv: I64 -> Flt, fneg: Flt -> Flt, ibit: (Op, I64, I64) -> I64,
    limit: (V, I64, I64) -> Limit, fcount: (V, V, V) -> nat, fstep: (V, V, nat) -> Flt, truthy: V -> bool,
    cell: (Trace, nat) -> V)

  const STUCK := 1
  const DIV_BY_ZERO := 2
  const BAD_FOR := 3
  const TIMEOUT := 4

  datatype Result<+T> = Ok(v: T, tr: Trace) | Err(e: int, tr: Trace)

  function Asked(w: World, tr: Trace, q: Query): Result<V> {
    var r := w.ask(tr, q);
    var tr' := tr + [Event(q, r)];
    if r.Raise? then Err(r.e, tr') else Ok(r.v, tr')
  }

  /** Two ints, all operators but `/`. */
  function IntOp(w: World, op: Op, a: I64, b: I64, tr: Trace): Result<I64> {
    match op
    case Add => Ok(Wrap(a + b), tr)
    case Sub => Ok(Wrap(a - b), tr)
    case Mul => Ok(Wrap(a * b), tr)
    case FDiv => if b == 0 then Err(DIV_BY_ZERO, tr) else Ok(Wrap(FloorDiv(a, b)), tr)
    case Mod => if b == 0 then Err(DIV_BY_ZERO, tr) else Ok(Wrap(a - FloorDiv(a, b) * b), tr)
    case _ => Ok(w.ibit(op, a, b), tr)
  }

  /** Dividing by zero is the only error, and the result is the manual's. */
  lemma {:induction false} IntOpExact(w: World, op: Op, a: I64, b: I64, tr: Trace)
    ensures IntOp(w, op, a, b, tr).tr == tr
    ensures (op.FDiv? || op.Mod?) && b == 0 ==> IntOp(w, op, a, b, tr) == Err(DIV_BY_ZERO, tr)
    ensures !((op.FDiv? || op.Mod?) && b == 0) ==>
      IntOp(w, op, a, b, tr).Ok? && Exact(op, a, b, IntOp(w, op, a, b, tr).v)
  {
    if op.FDiv? || op.Mod? {
      if b != 0 {
        DivExact(a, b);
        ModExact(a, b);
      }
    } else {
      SumExact(op, a, b);
    }
  }

  predicate IsNum(v: V) { v.VInt? || v.VFlt? }

  function ToFlt(w: World, v: V): Flt
    requires IsNum(v)
  {
    if v.VInt? then w.conv(v.i) else v.x
  }

  predicate FloatOp(op: Op) { op.Add? || op.Sub? || op.Mul? || op.Div? || op.FDiv? || op.Mod? }

  function BoxI(r: Result<I64>): Result<V> {
    match r case Ok(i, tr) => Ok(VInt(i), tr) case Err(e, tr) => Err(e, tr)
  }

  function BoxF(r: Result<Flt>): Result<V> {
    match r case Ok(x, tr) => Ok(VFlt(x), tr) case Err(e, tr) => Err(e, tr)
  }

  function Arith(w: World, op: Op, a: V, b: V, tr: Trace): Result<V> {
    if a.VInt? && b.VInt? && !op.Div? then BoxI(IntOp(w, op, a.i, b.i, tr))
    else if FloatOp(op) && IsNum(a) && IsNum(b) then Ok(VFlt(w.fop(op, ToFlt(w, a), ToFlt(w, b))), tr)
    else Asked(w, tr, QArith(op, a, b))
  }

  function Negate(w: World, a: V, tr: Trace): Result<V> {
    match a
    case VInt(i) => Ok(VInt(Wrap(0 - i)), tr)
    case VFlt(x) => Ok(VFlt(w.fneg(x)), tr)
    case _ => Asked(w, tr, QNeg(a))
  }

  // ----- programs -----

  datatype Exprs = ENil | ECons(e: Expr, es: Exprs)

  /** Direct: a call whose callee is statically function f, with as many arguments as
      it has parameters. Call: any other call. Other: everything else, its operands
      in order and then the world. */
  datatype Expr =
    | Int(n: I64) | Float(x: Flt) | Lit(k: int) | Fun(f: nat)
    | Local(s: nat)
    | Bin(op: Op, l: Expr, r: Expr)
    | Neg(a: Expr)
    | Direct(f: nat, args: Exprs)
    | Call(callee: Expr, args: Exprs)
    | Other(k: int, args: Exprs)

  datatype Stmts = Nil | Cons(hd: Stmt, tl: Stmts)

  /** STake fills slots with whatever the world answers: local functions, generic for
      variables, <close> variables and the values of a multi-value call. */
  datatype Stmt =
    | SLocal(slots: seq<nat>, es: Exprs)
    | SAssign(slots: seq<nat>, es: Exprs)
    | STake(slots: seq<nat>, k: int, es: Exprs)
    | SDo(body: Stmts)
    | SIf(c: Expr, thn: Stmts, els: Stmts)
    | SWhile(c: Expr, body: Stmts)
    | SFor(slot: nat, start: Expr, stop: Expr, step: Expr, body: Stmts)
    | SReturn(es: Exprs)
    | SBreak
    | SCall(e: Expr)

  datatype Fn = Fn(params: nat, locals: nat, captured: set<nat>, body: Stmts)

  type Prog = seq<Fn>

  function Count(es: Exprs): nat { match es case ENil => 0 case ECons(_, tl) => 1 + Count(tl) }

  // ----- the boxed program -----

  datatype Flow = Next(env: Env, tr: Trace) | Brk(env: Env, tr: Trace) | Ret(v: V, tr: Trace)
    | Fail(e: int, tr: Trace)

  /** A call's single value: the first returned, or nil. */
  function First(vs: seq<V>): V { if vs == [] then NIL else vs[0] }

  /** Arguments cut or filled up with nil to the parameter count. */
  function Adjust(vs: seq<V>, n: nat): (r: seq<V>)
    ensures |r| == n
  {
    seq(n, i requires 0 <= i < n => if i < |vs| then vs[i] else NIL)
  }

  function Frame(args: seq<V>, locals: nat): (r: seq<V>)
    ensures |r| == |args| + locals
  {
    args + seq(locals, i => VNone)
  }

  /** A function is entered: a box for each slot in `boxed`, filled with what the slot holds. */
  function Enter(boxed: set<nat>, vs: seq<V>, tr: Trace): (r: (Env, Trace))
    ensures |r.0| == |vs|
    decreases |vs|
  {
    if vs == [] then ([], tr)
    else
      var n := |vs| - 1;
      var (env, tr1) := Enter(boxed, vs[..n], tr);
      if n in boxed then (env + [Boxed(|tr1|)], tr1 + [Event(QNew(vs[n]), Value(vs[n]))])
      else (env + [Plain(vs[n])], tr1)
  }

  function Read(w: World, env: Env, s: nat, tr: Trace): V {
    if s >= |env| then VNone else if env[s].Plain? then env[s].v else w.cell(tr, env[s].b)
  }

  /** A declaration gives a captured local a box of its own, an assignment stores into the
      one there is. */
  function Store(env: Env, s: nat, v: V, decl: bool, tr: Trace): (r: (Env, Trace))
    ensures |r.0| == |env|
  {
    if s >= |env| then (env, tr)
    else if env[s].Plain? then (env[s := Plain(v)], tr)
    else if decl then (env[s := Boxed(|tr|)], tr + [Event(QNew(v), Value(v))])
    else (env, tr + [Event(QSet(env[s].b, v), Value(v))])
  }

  function Eval(p: Prog, w: World, e: Expr, env: Env, tr: Trace, f: nat): Result<V>
    decreases f, 2, e, 0
  {
    match e
    case Int(n) => Ok(VInt(n), tr)
    case Float(x) => Ok(VFlt(x), tr)
    case Lit(k) => Ok(VObj(k), tr)
    case Fun(g) => Ok(VFun(g), tr)
    case Local(s) => if Read(w, env, s, tr).VNone? then Err(STUCK, tr) else Ok(Read(w, env, s, tr), tr)
    case Bin(op, l, r) =>
      var a := Eval(p, w, l, env, tr, f);
      if a.Err? then a
      else
        var b := Eval(p, w, r, env, a.tr, f);
        if b.Err? then b else Arith(w, op, a.v, b.v, b.tr)
    case Neg(x) =>
      var a := Eval(p, w, x, env, tr, f);
      if a.Err? then a else Negate(w, a.v, a.tr)
    case Direct(g, args) =>
      var vs := EvalAll(p, w, args, env, tr, f);
      if vs.Err? then Err(vs.e, vs.tr) else Invoke(p, w, g, vs.v, vs.tr, f)
    case Call(callee, args) =>
      var c := Eval(p, w, callee, env, tr, f);
      if c.Err? then c
      else
        var vs := EvalAll(p, w, args, env, c.tr, f);
        if vs.Err? then Err(vs.e, vs.tr)
        else if c.v.VFun? && c.v.f < |p| then Invoke(p, w, c.v.f, Adjust(vs.v, p[c.v.f].params), vs.tr, f)
        else Asked(w, vs.tr, QCall(c.v, vs.v))
    case Other(k, args) =>
      var vs := EvalAll(p, w, args, env, tr, f);
      if vs.Err? then Err(vs.e, vs.tr) else Asked(w, vs.tr, QOther(k, vs.v))
  }

  function EvalAll(p: Prog, w: World, es: Exprs, env: Env, tr: Trace, f: nat): Result<seq<V>>
    decreases f, 2, es, 0
  {
    match es
    case ENil => Ok([], tr)
    case ECons(e, tl) =>
      var a := Eval(p, w, e, env, tr, f);
      if a.Err? then Err(a.e, a.tr)
      else
        var vs := EvalAll(p, w, tl, env, a.tr, f);
        if vs.Err? then vs else Ok([a.v] + vs.v, vs.tr)
  }

  function Invoke(p: Prog, w: World, g: nat, args: seq<V>, tr: Trace, f: nat): Result<V>
    decreases f, 1
  {
    if f == 0 then Err(TIMEOUT, tr)
    else if g >= |p| then Err(STUCK, tr)
    else
      var (env, tr1) := Enter(p[g].captured, Frame(args, p[g].locals), tr);
      match Run(p, w, p[g].body, env, tr1, f - 1)
      case Next(_, tr') => Ok(NIL, tr')
      case Brk(_, tr') => Err(STUCK, tr')
      case Ret(v, tr') => Ok(v, tr')
      case Fail(e, tr') => Err(e, tr')
  }

  /** Store values from right to left, missing ones as nil. */
  function Put(env: Env, slots: seq<nat>, vs: seq<V>, decl: bool, tr: Trace): (r: Flow)
    ensures r.Next? && |r.env| == |env|
    decreases |slots|
  {
    if slots == [] then Next(env, tr)
    else
      var n := |slots| - 1;
      var (env', tr') := Store(env, slots[n], if n < |vs| then vs[n] else NIL, decl, tr);
      Put(env', slots[..n], vs, decl, tr')
  }

  function Taken(slots: seq<nat>, env: Env, r: Result<V>): Flow {
    if r.Err? then Fail(r.e, r.tr) else Put(env, slots, [r.v], true, r.tr)
  }

  function Run(p: Prog, w: World, ss: Stmts, env: Env, tr: Trace, f: nat): Flow
    decreases f, 3, ss, 1
  {
    match ss
    case Nil => Next(env, tr)
    case Cons(s, tl) =>
      var r := Step(p, w, s, env, tr, f);
      if r.Next? then Run(p, w, tl, r.env, r.tr, f) else r
  }

  function Step(p: Prog, w: World, s: Stmt, env: Env, tr: Trace, f: nat): Flow
    decreases f, 3, s, 0
  {
    match s
    case SLocal(slots, es) =>
      var vs := EvalAll(p, w, es, env, tr, f);
      if vs.Err? then Fail(vs.e, vs.tr) else Put(env, slots, vs.v, true, vs.tr)
    case SAssign(slots, es) =>
      var vs := EvalAll(p, w, es, env, tr, f);
      if vs.Err? then Fail(vs.e, vs.tr) else Put(env, slots, vs.v, false, vs.tr)
    case STake(slots, k, es) =>
      var vs := EvalAll(p, w, es, env, tr, f);
      if vs.Err? then Fail(vs.e, vs.tr) else Taken(slots, env, Asked(w, vs.tr, QOther(k, vs.v)))
    case SDo(b) => Run(p, w, b, env, tr, f)
    case SIf(c, thn, els) =>
      var v := Eval(p, w, c, env, tr, f);
      if v.Err? then Fail(v.e, v.tr) else Run(p, w, if w.truthy(v.v) then thn else els, env, v.tr, f)
    case SWhile(c, b) =>
      var v := Eval(p, w, c, env, tr, f);
      if v.Err? then Fail(v.e, v.tr)
      else if !w.truthy(v.v) then Next(env, v.tr)
      else
        var r := Run(p, w, b, env, v.tr, f);
        if r.Brk? then Next(r.env, r.tr)
        else if !r.Next? then r
        else if f == 0 then Fail(TIMEOUT, r.tr)
        else Step(p, w, s, r.env, r.tr, f - 1)
    case SFor(slot, start, stop, step, b) =>
      var a := Eval(p, w, start, env, tr, f);
      if a.Err? then Fail(a.e, a.tr)
      else
        var z := Eval(p, w, stop, env, a.tr, f);
        if z.Err? then Fail(z.e, z.tr)
        else
          var d := Eval(p, w, step, env, z.tr, f);
          if d.Err? then Fail(d.e, d.tr) else Loop(p, w, slot, a.v, z.v, d.v, 0, b, env, d.tr, f)
    case SReturn(es) =>
      var vs := EvalAll(p, w, es, env, tr, f);
      if vs.Err? then Fail(vs.e, vs.tr) else Ret(First(vs.v), vs.tr)
    case SBreak => Brk(env, tr)
    case SCall(e) =>
      var v := Eval(p, w, e, env, tr, f);
      if v.Err? then Fail(v.e, v.tr) else Next(env, v.tr)
  }

  predicate IntLoop(a: V, d: V) { a.VInt? && d.VInt? }

  /** An integer limit stands for itself; then only the header's test can end the loop. */
  function LimitOf(w: World, z: V, a: I64, d: I64): Limit {
    if z.VInt? then Limit(z.i, false) else w.limit(z, a, d)
  }

  /** An int loop's step must not be zero and its limit must be a number. */
  predicate ForOk(w: World, a: V, z: V, d: V) {
    if IntLoop(a, d) then d.i != 0 && LimitOf(w, z, a.i, d.i).Limit? else IsNum(a) && IsNum(d)
  }

  /** How many turns a numeric for makes. */
  function Turns(w: World, a: V, z: V, d: V): nat
    requires ForOk(w, a, z, d)
  {
    if IntLoop(a, d) then
      var l := LimitOf(w, z, a.i, d.i);
      if l.skip then 0 else Trips(a.i, l.stop, d.i)
    else w.fcount(a, z, d)
  }

  /** The control variable in turn k: an int exactly when start and step are ints. */
  function ControlAt(w: World, a: V, z: V, d: V, k: nat): V
    requires ForOk(w, a, z, d) && k < Turns(w, a, z, d)
  {
    if IntLoop(a, d) then VInt(ValueAt(a.i, LimitOf(w, z, a.i, d.i).stop, d.i, k)) else VFlt(w.fstep(a, d, k))
  }

  function Loop(p: Prog, w: World, slot: nat, a: V, z: V, d: V, k: nat, b: Stmts, env: Env, tr: Trace, f: nat): Flow
    decreases f, 3, b, 2
  {
    if !ForOk(w, a, z, d) then Fail(BAD_FOR, tr)
    else if k >= Turns(w, a, z, d) then Next(env, tr)
    else
      var s := Put(env, [slot], [ControlAt(w, a, z, d, k)], true, tr);
      var r := Run(p, w, b, s.env, s.tr, f);
      if r.Brk? then Next(r.env, r.tr)
      else if !r.Next? then r
      else if f == 0 then Fail(TIMEOUT, r.tr)
      else Loop(p, w, slot, a, z, d, k + 1, b, r.env, r.tr, f - 1)
  }

  // ----- what the compiler proves -----

  datatype Ty = TUnset | TInt | TFloat | TAny

  datatype Sig = Sig(params: seq<Ty>, ret: Ty)

  type Sigs = seq<Sig>

  /** The slots of one body believed to hold ints only, and floats only. */
  datatype Ctx = Ctx(ints: set<nat>, flts: set<nat>)

  function ParamTy(sg: Sigs, g: nat, i: nat): Ty {
    if g < |sg| && i < |sg[g].params| then sg[g].params[i] else TAny
  }

  function RetTy(sg: Sigs, g: nat): Ty { if g < |sg| then sg[g].ret else TAny }

  /** expr_is_int. */
  predicate IsInt(sg: Sigs, cx: Ctx, e: Expr)
    decreases e, 0
  {
    match e
    case Int(_) => true
    case Local(s) => s in cx.ints
    case Bin(op, l, r) => !op.Div? && IsInt(sg, cx, l) && IsInt(sg, cx, r)
    case Neg(x) => IsInt(sg, cx, x)
    case Direct(g, args) => RetTy(sg, g) == TInt && ArgsOk(sg, cx, g, 0, args)
    case _ => false
  }

  /** expr_is_float. */
  predicate IsFlt(sg: Sigs, cx: Ctx, e: Expr)
    decreases e, 0
  {
    match e
    case Float(_) => true
    case Local(s) => s in cx.flts
    case Bin(op, l, r) =>
      var num := (IsInt(sg, cx, l) || IsFlt(sg, cx, l)) && (IsInt(sg, cx, r) || IsFlt(sg, cx, r));
      num && (op.Div? || ((op.Add? || op.Sub? || op.Mul?) && (IsFlt(sg, cx, l) || IsFlt(sg, cx, r))))
    case Neg(x) => IsFlt(sg, cx, x)
    case Direct(g, args) => RetTy(sg, g) == TFloat && ArgsOk(sg, cx, g, 0, args)
    case _ => false
  }

  /** direct_args_typed_ok, for the arguments from position i on. */
  predicate ArgsOk(sg: Sigs, cx: Ctx, g: nat, i: nat, args: Exprs)
    decreases args, 0
  {
    match args
    case ENil => true
    case ECons(e, tl) =>
      var t := ParamTy(sg, g, i);
      && (t.TInt? ==> IsInt(sg, cx, e))
      && (t.TFloat? ==> IsInt(sg, cx, e) || IsFlt(sg, cx, e))
      && ArgsOk(sg, cx, g, i + 1, tl)
  }

  /** expr_num_ty. */
  function NumTy(sg: Sigs, cx: Ctx, e: Expr): Ty {
    if IsInt(sg, cx, e) then TInt else if IsFlt(sg, cx, e) then TFloat else TAny
  }

  /** num_meet. */
  function Meet(a: Ty, b: Ty): Ty {
    if a.TUnset? then b else if b.TUnset? then a else if a == b then a else TAny
  }

  // ----- the specialized program -----

  /** The two bodies of a function: with boxed parameters, and with its signature's. */
  datatype Tables = Tables(sg: Sigs, boxed: seq<Ctx>, typed: seq<Ctx>)

  /** emit_int_expr: a raw i64. */
  function EvalInt(p: Prog, t: Tables, w: World, cx: Ctx, e: Expr, env: Env, tr: Trace, f: nat): Result<I64>
    decreases f, 2, e, 0
  {
    match e
    case Int(n) => Ok(n, tr)
    case Local(s) => if s < |env| && env[s].Plain? && env[s].v.VInt? then Ok(env[s].v.i, tr) else Err(STUCK, tr)
    case Bin(op, l, r) =>
      var a := EvalInt(p, t, w, cx, l, env, tr, f);
      if a.Err? then a
      else
        var b := EvalInt(p, t, w, cx, r, env, a.tr, f);
        if b.Err? then b else IntOp(w, op, a.v, b.v, b.tr)
    case Neg(x) =>
      var a := EvalInt(p, t, w, cx, x, env, tr, f);
      if a.Err? then a else Ok(Wrap(0 - a.v), a.tr)
    case Direct(g, args) =>
      var r := EvalDirect(p, t, w, cx, g, args, env, tr, f);
      if r.Err? then Err(r.e, r.tr) else if r.v.VInt? then Ok(r.v.i, r.tr) else Err(STUCK, r.tr)
    case _ => Err(STUCK, tr)
  }

  /** emit_float_expr: a raw f64. */
  function EvalFlt(p: Prog, t: Tables, w: World, cx: Ctx, e: Expr, env: Env, tr: Trace, f: nat): Result<Flt>
    decreases f, 2, e, 0
  {
    match e
    case Float(x) => Ok(x, tr)
    case Local(s) => if s < |env| && env[s].Plain? && env[s].v.VFlt? then Ok(env[s].v.x, tr) else Err(STUCK, tr)
    case Bin(op, l, r) =>
      var a := EvalNum(p, t, w, cx, l, env, tr, f);
      if a.Err? then a
      else
        var b := EvalNum(p, t, w, cx, r, env, a.tr, f);
        if b.Err? then b else Ok(w.fop(op, a.v, b.v), b.tr)
    case Neg(x) =>
      var a := EvalNum(p, t, w, cx, x, env, tr, f);
      if a.Err? then a else Ok(w.fneg(a.v), a.tr)
    case Direct(g, args) =>
      var r := EvalDirect(p, t, w, cx, g, args, env, tr, f);
      if r.Err? then Err(r.e, r.tr) else if r.v.VFlt? then Ok(r.v.x, r.tr) else Err(STUCK, r.tr)
    case _ => Err(STUCK, tr)
  }

  /** emit_num_as_f64. */
  function EvalNum(p: Prog, t: Tables, w: World, cx: Ctx, e: Expr, env: Env, tr: Trace, f: nat): Result<Flt>
    decreases f, 2, e, 1
  {
    if IsFlt(t.sg, cx, e) then EvalFlt(p, t, w, cx, e, env, tr, f)
    else
      var a := EvalInt(p, t, w, cx, e, env, tr, f);
      if a.Err? then Err(a.e, a.tr) else Ok(w.conv(a.v), a.tr)
  }

  /** emit_typed_direct_call1: raw arguments at their parameters' types, then the
      typed entry. */
  function EvalDirect(p: Prog, t: Tables, w: World, cx: Ctx, g: nat, args: Exprs, env: Env, tr: Trace,
      f: nat)
      : Result<V>
    decreases f, 2, args, 1
  {
    var vs := EvalArgs(p, t, w, cx, g, 0, args, env, tr, f);
    if vs.Err? then Err(vs.e, vs.tr) else InvokeT(p, t, w, g, true, vs.v, vs.tr, f)
  }

  function EvalArgs(p: Prog, t: Tables, w: World, cx: Ctx, g: nat, i: nat, args: Exprs, env: Env, tr: Trace,
      f: nat)
      : Result<seq<V>>
    decreases f, 2, args, 0
  {
    match args
    case ENil => Ok([], tr)
    case ECons(e, tl) =>
      var a := EvalArg(p, t, w, cx, ParamTy(t.sg, g, i), e, env, tr, f);
      if a.Err? then Err(a.e, a.tr)
      else
        var vs := EvalArgs(p, t, w, cx, g, i + 1, tl, env, a.tr, f);
        if vs.Err? then vs else Ok([a.v] + vs.v, vs.tr)
  }

  function EvalArg(p: Prog, t: Tables, w: World, cx: Ctx, ty: Ty, e: Expr, env: Env, tr: Trace, f: nat): Result<V>
    decreases f, 2, e, 4
  {
    match ty
    case TInt => BoxI(EvalInt(p, t, w, cx, e, env, tr, f))
    case TFloat => BoxF(EvalNum(p, t, w, cx, e, env, tr, f))
    case _ => EvalT(p, t, w, cx, e, env, tr, f)
  }

  /** emit_expr: a Lua value. */
  function EvalT(p: Prog, t: Tables, w: World, cx: Ctx, e: Expr, env: Env, tr: Trace, f: nat): Result<V>
    decreases f, 2, e, 3
  {
    if IsInt(t.sg, cx, e) then BoxI(EvalInt(p, t, w, cx, e, env, tr, f))
    else if IsFlt(t.sg, cx, e) then BoxF(EvalFlt(p, t, w, cx, e, env, tr, f))
    else
      match e
      case Int(n) => Ok(VInt(n), tr)
      case Float(x) => Ok(VFlt(x), tr)
      case Lit(k) => Ok(VObj(k), tr)
      case Fun(g) => Ok(VFun(g), tr)
      case Local(s) => if Read(w, env, s, tr).VNone? then Err(STUCK, tr) else Ok(Read(w, env, s, tr), tr)
      case Bin(op, l, r) =>
        var a := EvalT(p, t, w, cx, l, env, tr, f);
        if a.Err? then a
        else
          var b := EvalT(p, t, w, cx, r, env, a.tr, f);
          if b.Err? then b else Arith(w, op, a.v, b.v, b.tr)
      case Neg(x) =>
        var a := EvalT(p, t, w, cx, x, env, tr, f);
        if a.Err? then a else Negate(w, a.v, a.tr)
      case Direct(g, args) =>
        if ArgsOk(t.sg, cx, g, 0, args) then EvalDirect(p, t, w, cx, g, args, env, tr, f)
        else
          var vs := EvalAllT(p, t, w, cx, args, env, tr, f);
          if vs.Err? then Err(vs.e, vs.tr) else InvokeT(p, t, w, g, false, vs.v, vs.tr, f)
      case Call(callee, args) =>
        var c := EvalT(p, t, w, cx, callee, env, tr, f);
        if c.Err? then c
        else
          var vs := EvalAllT(p, t, w, cx, args, env, c.tr, f);
          if vs.Err? then Err(vs.e, vs.tr)
          else if c.v.VFun? && c.v.f < |p| then InvokeT(p, t, w, c.v.f, false, Adjust(vs.v, p[c.v.f].params), vs.tr, f)
          else Asked(w, vs.tr, QCall(c.v, vs.v))
      case Other(k, args) =>
        var vs := EvalAllT(p, t, w, cx, args, env, tr, f);
        if vs.Err? then Err(vs.e, vs.tr) else Asked(w, vs.tr, QOther(k, vs.v))
  }

  function EvalAllT(p: Prog, t: Tables, w: World, cx: Ctx, es: Exprs, env: Env, tr: Trace, f: nat): Result<seq<V>>
    decreases f, 2, es, 0
  {
    match es
    case ENil => Ok([], tr)
    case ECons(e, tl) =>
      var a := EvalT(p, t, w, cx, e, env, tr, f);
      if a.Err? then Err(a.e, a.tr)
      else
        var vs := EvalAllT(p, t, w, cx, tl, env, a.tr, f);
        if vs.Err? then vs else Ok([a.v] + vs.v, vs.tr)
  }

  function CtxOf(t: Tables, g: nat, typed: bool): Ctx {
    var tab := if typed then t.typed else t.boxed;
    if g < |tab| then tab[g] else Ctx({}, {})
  }

  function SlotTy(cx: Ctx, s: nat): Ty {
    if s in cx.ints then TInt else if s in cx.flts then TFloat else TAny
  }

  /** A captured slot is given a box unless it is a raw number. */
  function InBoxes(cx: Ctx, fn: Fn): set<nat> { set s | s in fn.captured && SlotTy(cx, s) == TAny }

  /** The typed entry $user_N_da1, or the boxed one. */
  function InvokeT(p: Prog, t: Tables, w: World, g: nat, typed: bool, args: seq<V>, tr: Trace, f: nat): Result<V>
    decreases f, 1
  {
    if f == 0 then Err(TIMEOUT, tr)
    else if g >= |p| then Err(STUCK, tr)
    else
      var cx := CtxOf(t, g, typed);
      var (env, tr1) := Enter(InBoxes(cx, p[g]), Frame(args, p[g].locals), tr);
      match RunT(p, t, w, cx, if typed then RetTy(t.sg, g) else TAny, p[g].body, env, tr1, f - 1)
      case Next(_, tr') => Ok(NIL, tr')
      case Brk(_, tr') => Err(STUCK, tr')
      case Ret(v, tr') => Ok(v, tr')
      case Fail(e, tr') => Err(e, tr')
  }

  /** A store of one expression goes by the slot's type; others are boxed. */
  function StoreT(p: Prog, t: Tables, w: World, cx: Ctx, slots: seq<nat>, es: Exprs, decl: bool, env: Env, tr: Trace,
      f: nat)
      : Flow
    decreases f, 2, es, 3
  {
    var vs := EvalSlots(p, t, w, cx, slots, es, env, tr, f);
    if vs.Err? then Fail(vs.e, vs.tr) else Put(env, slots, vs.v, decl, vs.tr)
  }

  function EvalSlots(p: Prog, t: Tables, w: World, cx: Ctx, slots: seq<nat>, es: Exprs, env: Env, tr: Trace,
      f: nat)
      : Result<seq<V>>
    decreases f, 2, es, 0
  {
    match es
    case ENil => Ok([], tr)
    case ECons(e, tl) =>
      var a := EvalArg(p, t, w, cx, if slots == [] then TAny else SlotTy(cx, slots[0]), e, env, tr, f);
      if a.Err? then Err(a.e, a.tr)
      else
        var vs := EvalSlots(p, t, w, cx, if slots == [] then [] else slots[1..], tl, env, a.tr, f);
        if vs.Err? then vs else Ok([a.v] + vs.v, vs.tr)
  }

  function RunT(p: Prog, t: Tables, w: World, cx: Ctx, ret: Ty, ss: Stmts, env: Env, tr: Trace, f: nat): Flow
    decreases f, 3, ss, 1
  {
    match ss
    case Nil => Next(env, tr)
    case Cons(s, tl) =>
      var r := StepT(p, t, w, cx, ret, s, env, tr, f);
      if r.Next? then RunT(p, t, w, cx, ret, tl, r.env, r.tr, f) else r
  }

  function StepT(p: Prog, t: Tables, w: World, cx: Ctx, ret: Ty, s: Stmt, env: Env, tr: Trace, f: nat): Flow
    decreases f, 3, s, 0
  {
    match s
    case SLocal(slots, es) => StoreT(p, t, w, cx, slots, es, true, env, tr, f)
    case SAssign(slots, es) => StoreT(p, t, w, cx, slots, es, false, env, tr, f)
    case STake(slots, k, es) =>
      var vs := EvalAllT(p, t, w, cx, es, env, tr, f);
      if vs.Err? then Fail(vs.e, vs.tr) else Taken(slots, env, Asked(w, vs.tr, QOther(k, vs.v)))
    case SDo(b) => RunT(p, t, w, cx, ret, b, env, tr, f)
    case SIf(c, thn, els) =>
      var v := EvalT(p, t, w, cx, c, env, tr, f);
      if v.Err? then Fail(v.e, v.tr) else RunT(p, t, w, cx, ret, if w.truthy(v.v) then thn else els, env, v.tr, f)
    case SWhile(c, b) =>
      var v := EvalT(p, t, w, cx, c, env, tr, f);
      if v.Err? then Fail(v.e, v.tr)
      else if !w.truthy(v.v) then Next(env, v.tr)
      else
        var r := RunT(p, t, w, cx, ret, b, env, v.tr, f);
        if r.Brk? then Next(r.env, r.tr)
        else if !r.Next? then r
        else if f == 0 then Fail(TIMEOUT, r.tr)
        else StepT(p, t, w, cx, ret, s, r.env, r.tr, f - 1)
    case SFor(slot, start, stop, step, b) =>
      var a := EvalT(p, t, w, cx, start, env, tr, f);
      if a.Err? then Fail(a.e, a.tr)
      else
        var z := EvalT(p, t, w, cx, stop, env, a.tr, f);
        if z.Err? then Fail(z.e, z.tr)
        else
          var d := EvalT(p, t, w, cx, step, env, z.tr, f);
          if d.Err? then Fail(d.e, d.tr)
          else if slot in cx.ints then IntForT(p, t, w, cx, ret, slot, StepSign(step), a.v, z.v, d.v, b, env, d.tr, f)
          else LoopT(p, t, w, cx, ret, slot, a.v, z.v, d.v, 0, b, env, d.tr, f)
    case SReturn(es) =>
      // a typed entry returns its one value raw
      if ret.TInt? && Count(es) == 1 then
        var v := EvalInt(p, t, w, cx, es.e, env, tr, f);
        if v.Err? then Fail(v.e, v.tr) else Ret(VInt(v.v), v.tr)
      else if ret.TFloat? && Count(es) == 1 then
        var v := EvalNum(p, t, w, cx, es.e, env, tr, f);
        if v.Err? then Fail(v.e, v.tr) else Ret(VFlt(v.v), v.tr)
      else
        var vs := EvalAllT(p, t, w, cx, es, env, tr, f);
        if vs.Err? then Fail(vs.e, vs.tr) else Ret(First(vs.v), vs.tr)
    case SBreak => Brk(env, tr)
    case SCall(e) =>
      var v := EvalT(p, t, w, cx, e, env, tr, f);
      if v.Err? then Fail(v.e, v.tr) else Next(env, v.tr)
  }

  function LoopT(p: Prog, t: Tables, w: World, cx: Ctx, ret: Ty, slot: nat, a: V, z: V, d: V, k: nat, b: Stmts,
      env: Env, tr: Trace, f: nat): Flow
    decreases f, 3, b, 2
  {
    if !ForOk(w, a, z, d) then Fail(BAD_FOR, tr)
    else if k >= Turns(w, a, z, d) then Next(env, tr)
    else
      var s := Put(env, [slot], [ControlAt(w, a, z, d, k)], true, tr);
      var r := RunT(p, t, w, cx, ret, b, s.env, s.tr, f);
      if r.Brk? then Next(r.env, r.tr)
      else if !r.Next? then r
      else if f == 0 then Fail(TIMEOUT, r.tr)
      else LoopT(p, t, w, cx, ret, slot, a, z, d, k + 1, b, r.env, r.tr, f - 1)
  }

  /** The step's sign as known at compile time; 0 when it is tested at run time. */
  function StepSign(e: Expr): int { if e.Int? && e.n > 0 then 1 else if e.Int? && e.n < 0 then -1 else 0 }

  /** emit_for_num_int: raw start and step; $for_limit unless the limit is an integer. */
  function IntForT(p: Prog, t: Tables, w: World, cx: Ctx, ret: Ty, slot: nat, sign: int, a: V, z: V, d: V,
                   b: Stmts, env: Env, tr: Trace, f: nat): Flow
    decreases f, 3, b, 3
  {
    if !IntLoop(a, d) then Fail(STUCK, tr)
    else if sign == 0 && d.i == 0 then Fail(BAD_FOR, tr)
    else
      match LimitOf(w, z, a.i, d.i)
      case NoLimit => Fail(BAD_FOR, tr)
      case Limit(stop, skip) =>
        if skip then Next(env, tr) else IntLoopT(p, t, w, cx, ret, slot, sign, a.i, stop, d.i, b, env, tr, f)
  }

  /** The loop: past the limit?, the body, i64.add, wrapped? */
  function IntLoopT(p: Prog, t: Tables, w: World, cx: Ctx, ret: Ty, slot: nat, sign: int, i: I64, stop: I64, step: I64,
                    b: Stmts, env: Env, tr: Trace, f: nat): Flow
    decreases f, 3, b, 2
  {
    if Past(sign, i, stop, step) then Next(env, tr)
    else
      var s := Put(env, [slot], [VInt(i)], true, tr);
      var r := RunT(p, t, w, cx, ret, b, s.env, s.tr, f);
      if r.Brk? then Next(r.env, r.tr)
      else if !r.Next? then r
      else if f == 0 then Fail(TIMEOUT, r.tr)
      else
        var next := Wrap(i + step);
        if Wrapped(sign, next, i, step) then Next(r.env, r.tr)
        else IntLoopT(p, t, w, cx, ret, slot, sign, next, stop, step, b, r.env, r.tr, f - 1)
  }
}
