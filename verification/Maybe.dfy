/** Maybe-typed lowering (src/codegen/maybe.c, analysis.c, expr.c): arithmetic over
    values whose type is found out at run time, switched on the tags of cells of
    wasm locals. */
module Maybe {
  import opened Options
  import opened Numbers

  // ----- values and the world -----

  datatype V = VInt(i: int) | VFlt(x: Flt) | VObj(k: int)

  datatype MathKind = Sqrt | Abs | Floor | Ceil

  datatype Query =
    | QArith(op: Op, a: V, b: V) | QNeg(a: V) | QCall(f: V, args: seq<V>) | QOther(k: int, args: seq<V>)

  datatype Reply = Value(v: V) | Raise(e: int)

  datatype Event = Event(q: Query, r: Reply)

  datatype World = World(
    ask: (seq<Event>, Query) -> Reply,
    fop: (Op, Flt, Flt) -> Flt, conv: int -> Flt, fneg: Flt -> Flt,
    fround: (MathKind, Flt) -> Flt, fits: Flt -> bool, trunc: Flt -> int,
    ibit: (Op, int, int) -> int)

  const ZERO := Flt(0)
  /** "attempt to perform 'n//0'" and its like. */
  const DIV_BY_ZERO := 1
  /** What a wasm validator rules out. */
  const STUCK := 2

  datatype Result = Ok(v: V) | Err(e: int)

  function Asked(w: World, tr: seq<Event>, q: Query): (Result, seq<Event>) {
    var r := w.ask(tr, q);
    (if r.Raise? then Err(r.e) else Ok(r.v), tr + [Event(q, r)])
  }

  // ----- Lua's arithmetic -----

  function IntArith(w: World, op: Op, a: int, b: int): Result {
    match op
    case Add => Ok(VInt(Wrap(a + b)))
    case Sub => Ok(VInt(Wrap(a - b)))
    case Mul => Ok(VInt(Wrap(a * b)))
    case Div => Ok(VFlt(w.fop(Div, w.conv(a), w.conv(b))))
    case FDiv => if b == 0 then Err(DIV_BY_ZERO) else Ok(VInt(Wrap(FloorDiv(a, b))))
    case Mod => if b == 0 then Err(DIV_BY_ZERO) else Ok(VInt(Wrap(a - FloorDiv(a, b) * b)))
    case _ => Ok(VInt(w.ibit(op, a, b)))
  }

  /** Dividing by zero is the only error, and an integer result is the manual's. */
  lemma {:induction false} IntArithExact(w: World, op: Op, a: I64, b: I64)
    requires !op.Div?
    ensures (op.FDiv? || op.Mod?) && b == 0 ==> IntArith(w, op, a, b) == Err(DIV_BY_ZERO)
    ensures !((op.FDiv? || op.Mod?) && b == 0) ==>
      IntArith(w, op, a, b).Ok? && IntArith(w, op, a, b).v.VInt? && Exact(op, a, b, IntArith(w, op, a, b).v.i)
  {
    if op.FDiv? || op.Mod? {
      if b != 0 {
        DivExact(a, b);
        ModExact(a, b);
      }
    } else {
      SumExact(op, a, b);
    }
  }

  predicate IsNum(v: V) { v.VInt? || v.VFlt? }

  function ToFlt(w: World, v: V): Flt
    requires IsNum(v)
  {
    if v.VInt? then w.conv(v.i) else v.x
  }

  predicate MaybeOp(op: Op) { op.Add? || op.Sub? || op.Mul? || op.Div? || op.FDiv? || op.Mod? }

  /** The generic helper: numbers in place, anything else by coercion, metamethod
      or error, which the world decides. */
  function Arith(w: World, tr: seq<Event>, op: Op, a: V, b: V): (Result, seq<Event>) {
    if a.VInt? && b.VInt? then (IntArith(w, op, a.i, b.i), tr)
    else if MaybeOp(op) && IsNum(a) && IsNum(b) then (Ok(VFlt(w.fop(op, ToFlt(w, a), ToFlt(w, b)))), tr)
    else Asked(w, tr, QArith(op, a, b))
  }

  function Negate(w: World, tr: seq<Event>, a: V): (Result, seq<Event>) {
    match a
    case VInt(i) => (Ok(VInt(Wrap(0 - i))), tr)
    case VFlt(x) => (Ok(VFlt(w.fneg(x))), tr)
    case _ => Asked(w, tr, QNeg(a))
  }

  function BuiltinId(k: MathKind): int {
    match k case Sqrt => -1 case Abs => -2 case Floor => -3 case Ceil => -4
  }

  function Builtin(k: MathKind): V { VObj(BuiltinId(k)) }

  function MathOf(w: World, k: MathKind, v: V): V
    requires IsNum(v)
  {
    match k
    case Sqrt => VFlt(w.fround(Sqrt, ToFlt(w, v)))
    case Abs => if v.VInt? then VInt(if v.i < 0 then Wrap(0 - v.i) else v.i) else VFlt(w.fround(Abs, v.x))
    case _ =>
      if v.VInt? then v
      else
        var r := w.fround(k, v.x);
        if w.fits(r) then VInt(w.trunc(r)) else VFlt(r)
  }

  /** A call of a math builtin on a number is that function; the world does every
      other call. */
  function Called(w: World, tr: seq<Event>, f: V, args: seq<V>): (Result, seq<Event>) {
    if |args| == 1 && IsNum(args[0]) && f == Builtin(Sqrt) then (Ok(MathOf(w, Sqrt, args[0])), tr)
    else if |args| == 1 && IsNum(args[0]) && f == Builtin(Abs) then (Ok(MathOf(w, Abs, args[0])), tr)
    else if |args| == 1 && IsNum(args[0]) && f == Builtin(Floor) then (Ok(MathOf(w, Floor, args[0])), tr)
    else if |args| == 1 && IsNum(args[0]) && f == Builtin(Ceil) then (Ok(MathOf(w, Ceil, args[0])), tr)
    else Asked(w, tr, QCall(f, args))
  }

  // ----- expressions -----

  datatype Exprs = Nil | Cons(hd: Expr, tl: Exprs)

  /** `math` on a call: what callee_math_kind guesses. Other covers table reads,
      globals, upvalues, method calls, constructors and strict operators outside
      arithmetic: their operands in order, then the world; `unknown` says whether
      expr_has_opaque counts it. */
  datatype Expr =
    | Int(n: int)
    | Float(x: Flt)
    | Lit(k: int)
    | Local(s: nat)
    | Bin(op: Op, l: Expr, r: Expr)
    | Neg(e: Expr)
    | Call(math: Option<MathKind>, callee: Expr, args: Exprs)
    | Other(k: int, unknown: bool, args: Exprs)

  function Count(es: Exprs): nat { match es case Nil => 0 case Cons(_, tl) => 1 + Count(tl) }

  datatype Values = Vals(vs: seq<V>) | Fails(e: int)

  function Eval(w: World, e: Expr, env: seq<V>, tr: seq<Event>): (Result, seq<Event>)
    decreases e
  {
    match e
    case Int(n) => (Ok(VInt(n)), tr)
    case Float(x) => (Ok(VFlt(x)), tr)
    case Lit(k) => (Ok(VObj(k)), tr)
    case Local(s) => (if s < |env| then Ok(env[s]) else Err(STUCK), tr)
    case Bin(op, l, r) =>
      var (a, tr1) := Eval(w, l, env, tr);
      if a.Err? then (a, tr1)
      else
        var (b, tr2) := Eval(w, r, env, tr1);
        if b.Err? then (b, tr2) else Arith(w, tr2, op, a.v, b.v)
    case Neg(x) =>
      var (a, tr1) := Eval(w, x, env, tr);
      if a.Err? then (a, tr1) else Negate(w, tr1, a.v)
    case Call(_, callee, args) =>
      var (f, tr1) := Eval(w, callee, env, tr);
      if f.Err? then (f, tr1)
      else
        var (vs, tr2) := EvalAll(w, args, env, tr1);
        if vs.Fails? then (Err(vs.e), tr2) else Called(w, tr2, f.v, vs.vs)
    case Other(k, _, args) =>
      var (vs, tr1) := EvalAll(w, args, env, tr);
      if vs.Fails? then (Err(vs.e), tr1) else Asked(w, tr1, QOther(k, vs.vs))
  }

  function EvalAll(w: World, es: Exprs, env: seq<V>, tr: seq<Event>): (Values, seq<Event>)
    decreases es
  {
    match es
    case Nil => (Vals([]), tr)
    case Cons(e, tl) =>
      var (a, tr1) := Eval(w, e, env, tr);
      if a.Err? then (Fails(a.e), tr1)
      else
        var (vs, tr2) := EvalAll(w, tl, env, tr1);
        if vs.Fails? then (vs, tr2) else (Vals([a.v] + vs.vs), tr2)
  }

  // ----- the wasm side -----

  /** A cell: tag (0 boxed, 1 int, 2 float), i64, f64 and reference locals. */
  datatype Cell = Cell(t: int, i: int, f: Flt, b: V)

  function Decode(c: Cell): V {
    if c.t == 1 then VInt(c.i) else if c.t == 2 then VFlt(c.f) else c.b
  }

  /** How a local is held: i64, f64, all four locals, or one reference. */
  datatype Kind = KInt | KFloat | KMaybe | KPlain

  function Held(k: Kind, c: Cell): V {
    match k
    case KInt => VInt(c.i)
    case KFloat => VFlt(c.f)
    case KMaybe => Decode(c)
    case KPlain => c.b
  }

  datatype Base = Slot(s: nat) | Tmp(k: nat)

  datatype Part = PT | PI | PF | PB

  datatype WV = W32(n: int) | W64(i: int) | WF(x: Flt) | WR(v: V)

  datatype Xs = XNil | XCons(hd: X, tl: Xs)

  datatype Op1 =
    | Conv | NegF | Trunc | Fits | Less0
    | RoundF(k: MathKind)            // f64.sqrt, f64.abs, f64.floor, f64.ceil
    | IsTag(n: int) | NotTag(n: int) | IsRef(r: V)
    | MakeInt | MakeFloat | HelperNeg

  datatype Op2 =
    | I64(op: Op)                    // i64.add ..., and $idiv_floor, $imod_floor
    | F64(op: Op)
    | And
    | Helper(op: Op)                 // $lua_add ...

  datatype X =
    | Const(v: WV)
    | Get(at: Base, p: Part)
    | Un(o: Op1, a: X)
    | Two(o2: Op2, a: X, b: X)
    | IfX(c: X, a: X, b: X)
    | Box(t: X, i: X, f: X, r: X)    // $box_num
    | CallX(fn: X, args: Xs)
    | AskX(q: int, args: Xs)
    | BlockX(code: S, y: X)

  datatype S =
    | Skip
    | Seq(s1: S, s2: S)
    | Set(at: Base, p: Part, x: X)
    | IfS(c: X, thn: S, els: S)
    | Unbox(at: Base)                // $unbox_num of the reference, into the other three

  datatype M = M(slots: seq<Cell>, temps: seq<Cell>, tr: seq<Event>)

  datatype XR = XOk(v: WV, m: M) | XErr(e: int, m: M)

  datatype XsR = XsOk(vs: seq<V>, m: M) | XsErr(e: int, m: M)

  datatype SR = SOk(m: M) | SErr(e: int, m: M)

  predicate Has(m: M, b: Base) {
    match b case Slot(s) => s < |m.slots| case Tmp(k) => k < |m.temps|
  }

  function CellAt(m: M, b: Base): Cell
    requires Has(m, b)
  {
    match b case Slot(s) => m.slots[s] case Tmp(k) => m.temps[k]
  }

  function Write(m: M, b: Base, c: Cell): M
    requires Has(m, b)
  {
    match b case Slot(s) => m.(slots := m.slots[s := c]) case Tmp(k) => m.(temps := m.temps[k := c])
  }

  function PartOf(c: Cell, p: Part): WV {
    match p case PT => W32(c.t) case PI => W64(c.i) case PF => WF(c.f) case PB => WR(c.b)
  }

  function SetPart(c: Cell, p: Part, v: WV): Option<Cell> {
    match (p, v)
    case (PT, W32(n)) => Some(c.(t := n))
    case (PI, W64(i)) => Some(c.(i := i))
    case (PF, WF(x)) => Some(c.(f := x))
    case (PB, WR(r)) => Some(c.(b := r))
    case _ => None
  }

  function Bit(b: bool): WV { W32(if b then 1 else 0) }

  function Classify(c: Cell): Cell {
    match c.b
    case VInt(i) => c.(t := 1, i := i, f := ZERO)
    case VFlt(x) => c.(t := 2, i := 0, f := x)
    case _ => c.(t := 0, i := 0, f := ZERO)
  }

  function Lift(r: (Result, seq<Event>), m: M): XR {
    match r.0 case Ok(v) => XOk(WR(v), m.(tr := r.1)) case Err(e) => XErr(e, m.(tr := r.1))
  }

  function Unary(w: World, o: Op1, v: WV, m: M): XR {
    match (o, v)
    case (Conv, W64(i)) => XOk(WF(w.conv(i)), m)
    case (NegF, WF(a)) => XOk(WF(w.fneg(a)), m)
    case (RoundF(k), WF(a)) => XOk(WF(w.fround(k, a)), m)
    case (Trunc, WF(a)) => XOk(W64(w.trunc(a)), m)
    case (Fits, WF(a)) => XOk(Bit(w.fits(a)), m)
    case (IsTag(n), W32(t)) => XOk(Bit(t == n), m)
    case (NotTag(n), W32(t)) => XOk(Bit(t != n), m)
    case (Less0, W64(i)) => XOk(Bit(i < 0), m)
    case (IsRef(r), WR(a)) => XOk(Bit(a == r), m)
    case (MakeInt, W64(i)) => XOk(WR(VInt(i)), m)
    case (MakeFloat, WF(a)) => XOk(WR(VFlt(a)), m)
    case (HelperNeg, WR(a)) => Lift(Negate(w, m.tr, a), m)
    case _ => XErr(STUCK, m)
  }

  function Binary(w: World, o: Op2, u: WV, v: WV, m: M): XR {
    match (o, u, v)
    case (I64(op), W64(a), W64(b)) =>
      var r := IntArith(w, op, a, b);
      if r.Err? then XErr(r.e, m) else if r.v.VInt? then XOk(W64(r.v.i), m) else XErr(STUCK, m)
    case (F64(op), WF(a), WF(b)) => XOk(WF(w.fop(op, a, b)), m)
    case (And, W32(a), W32(b)) => XOk(Bit(a == 1 && b == 1), m)
    case (Helper(op), WR(a), WR(b)) => Lift(Arith(w, m.tr, op, a, b), m)
    case _ => XErr(STUCK, m)
  }

  function RunX(w: World, x: X, m: M): XR
    decreases x
  {
    match x
    case Const(v) => XOk(v, m)
    case Get(b, p) => if Has(m, b) then XOk(PartOf(CellAt(m, b), p), m) else XErr(STUCK, m)
    case Un(o, a) =>
      var r := RunX(w, a, m);
      if r.XErr? then r else Unary(w, o, r.v, r.m)
    case Two(o, a, b) =>
      var r := RunX(w, a, m);
      if r.XErr? then r
      else
        var s := RunX(w, b, r.m);
        if s.XErr? then s else Binary(w, o, r.v, s.v, s.m)
    case IfX(c, a, b) =>
      var r := RunX(w, c, m);
      if r.XErr? then r
      else if !r.v.W32? then XErr(STUCK, r.m)
      else if r.v.n != 0 then RunX(w, a, r.m) else RunX(w, b, r.m)
    case Box(t, i, f, b) => RunBox(w, RunX(w, t, m), i, f, b, x)
    case CallX(f, args) =>
      var r := RunX(w, f, m);
      if r.XErr? then r
      else if !r.v.WR? then XErr(STUCK, r.m)
      else
        var rs := RunXs(w, args, r.m);
        if rs.XsErr? then XErr(rs.e, rs.m) else Lift(Called(w, rs.m.tr, r.v.v, rs.vs), rs.m)
    case AskX(k, args) =>
      var rs := RunXs(w, args, m);
      if rs.XsErr? then XErr(rs.e, rs.m) else Lift(Asked(w, rs.m.tr, QOther(k, rs.vs)), rs.m)
    case BlockX(code, y) =>
      var r := RunS(w, code, m);
      if r.SErr? then XErr(r.e, r.m) else RunX(w, y, r.m)
  }

  /** The other three parts of a boxing, after the tag. */
  function RunBox(w: World, r: XR, i: X, f: X, b: X, x: X): XR
    requires i < x && f < x && b < x
    decreases x, 0
  {
    if r.XErr? then r
    else
      var ri := RunX(w, i, r.m);
      if ri.XErr? then ri
      else
        var rf := RunX(w, f, ri.m);
        if rf.XErr? then rf
        else
          var rb := RunX(w, b, rf.m);
          if rb.XErr? then rb
          else if r.v.W32? && ri.v.W64? && rf.v.WF? && rb.v.WR?
          then XOk(WR(Decode(Cell(r.v.n, ri.v.i, rf.v.x, rb.v.v))), rb.m)
          else XErr(STUCK, rb.m)
  }

  function RunXs(w: World, xs: Xs, m: M): XsR
    decreases xs
  {
    match xs
    case XNil => XsOk([], m)
    case XCons(x, tl) =>
      var r := RunX(w, x, m);
      if r.XErr? then XsErr(r.e, r.m) else if !r.v.WR? then XsErr(STUCK, r.m) else
      var rs := RunXs(w, tl, r.m);
      if rs.XsErr? then rs else XsOk([r.v.v] + rs.vs, rs.m)
  }

  function RunS(w: World, s: S, m: M): SR
    decreases s
  {
    match s
    case Skip => SOk(m)
    case Seq(a, b) =>
      var r := RunS(w, a, m);
      if r.SErr? then r else RunS(w, b, r.m)
    case Set(b, p, x) =>
      var r := RunX(w, x, m);
      if r.XErr? then SErr(r.e, r.m)
      else if !Has(r.m, b) || SetPart(CellAt(r.m, b), p, r.v).None? then SErr(STUCK, r.m)
      else SOk(Write(r.m, b, SetPart(CellAt(r.m, b), p, r.v).value))
    case IfS(c, thn, els) =>
      var r := RunX(w, c, m);
      if r.XErr? then SErr(r.e, r.m) else if !r.v.W32? then SErr(STUCK, r.m)
      else if r.v.n != 0 then RunS(w, thn, r.m) else RunS(w, els, r.m)
    case Unbox(b) => if Has(m, b) then SOk(Write(m, b, Classify(CellAt(m, b)))) else SErr(STUCK, m)
  }

  // ----- what the compiler can prove -----

  type Kinds = seq<Kind>

  function KindOf(ks: Kinds, s: nat): Kind { if s < |ks| then ks[s] else KPlain }

  /** expr_is_int, without calls and captured variables. */
  predicate IsInt(ks: Kinds, e: Expr) {
    match e
    case Int(_) => true
    case Local(s) => KindOf(ks, s) == KInt
    case Bin(op, l, r) => !op.Div? && IsInt(ks, l) && IsInt(ks, r)
    case Neg(x) => IsInt(ks, x)
    case _ => false
  }

  /** expr_is_float, likewise. */
  predicate IsFlt(ks: Kinds, e: Expr) {
    match e
    case Float(_) => true
    case Local(s) => KindOf(ks, s) == KFloat
    case Bin(op, l, r) =>
      var num := (IsInt(ks, l) || IsFlt(ks, l)) && (IsInt(ks, r) || IsFlt(ks, r));
      num && (op.Div? || ((op.Add? || op.Sub? || op.Mul?) && (IsFlt(ks, l) || IsFlt(ks, r))))
    case Neg(x) => IsFlt(ks, x)
    case _ => false
  }

  /** expr_has_opaque. */
  predicate HasOpaque(ks: Kinds, e: Expr) {
    match e
    case Local(s) => KindOf(ks, s) == KMaybe || KindOf(ks, s) == KPlain
    case Bin(op, l, r) => MaybeOp(op) && (HasOpaque(ks, l) || HasOpaque(ks, r))
    case Neg(x) => HasOpaque(ks, x)
    case Call(_, _, _) => true
    case Other(_, unknown, _) => unknown
    case _ => false
  }

  /** expr_side_effect_free. */
  predicate EffectFree(e: Expr) {
    match e
    case Int(_) => true
    case Float(_) => true
    case Lit(_) => true
    case Local(_) => true
    case Bin(op, l, r) => MaybeOp(op) && EffectFree(l) && EffectFree(r)
    case Neg(x) => EffectFree(x)
    case _ => false
  }

  // ----- emission -----

  /** Where the four parts of a value are read. */
  datatype MCell = MCell(t: X, i: X, f: X, r: X)

  function CellOf(b: Base): MCell { MCell(Get(b, PT), Get(b, PI), Get(b, PF), Get(b, PB)) }

  function Imm(tag: int, i: X, f: X): MCell { MCell(Const(W32(tag)), i, f, Const(WR(VObj(0)))) }

  /** operand_immediate: a literal, or a local read in place unless what runs after
      it might have effects. */
  function OperandImm(ks: Kinds, e: Expr, after: Option<Expr>): Option<MCell> {
    match e
    case Int(n) => Some(Imm(1, Const(W64(n)), Const(WF(ZERO))))
    case Float(x) => Some(Imm(2, Const(W64(0)), Const(WF(x))))
    case Local(s) =>
      if after.Some? && !EffectFree(after.value) then None
      else
        (match KindOf(ks, s)
         case KInt => Some(Imm(1, Get(Slot(s), PI), Const(WF(ZERO))))
         case KFloat => Some(Imm(2, Const(W64(0)), Get(Slot(s), PF)))
         case KMaybe => Some(CellOf(Slot(s)))
         case KPlain => None)
    case _ => None
  }

  function IntX(ks: Kinds, e: Expr): X
    requires IsInt(ks, e)
  {
    match e
    case Int(n) => Const(W64(n))
    case Local(s) => Get(Slot(s), PI)
    case Bin(op, l, r) => Two(I64(op), IntX(ks, l), IntX(ks, r))
    case Neg(x) => Two(I64(Sub), Const(W64(0)), IntX(ks, x))
  }

  function NumF(ks: Kinds, e: Expr): X
    requires IsInt(ks, e) || IsFlt(ks, e)
    decreases e, 1
  {
    if IsFlt(ks, e) then FltX(ks, e) else Un(Conv, IntX(ks, e))
  }

  function FltX(ks: Kinds, e: Expr): X
    requires IsFlt(ks, e)
    decreases e, 0
  {
    match e
    case Float(x) => Const(WF(x))
    case Local(s) => Get(Slot(s), PF)
    case Bin(op, l, r) => Two(F64(op), NumF(ks, l), NumF(ks, r))
    case Neg(x) => Un(NegF, NumF(ks, x))
  }

  function BoxCell(a: MCell): X { Box(a.t, a.i, a.f, a.r) }

  function BothTags(a: MCell, b: MCell, n: int): X { Two(And, Un(IsTag(n), a.t), Un(IsTag(n), b.t)) }

  function BothNums(a: MCell, b: MCell): X { Two(And, Un(NotTag(0), a.t), Un(NotTag(0), b.t)) }

  /** The f64 view of a number's cell. */
  function CellF(a: MCell): X { IfX(Un(IsTag(2), a.t), a.f, Un(Conv, a.i)) }

  function SetTag(d: Base, n: int): S { Set(d, PT, Const(W32(n))) }

  function SetInt(d: Base, x: X): S { Seq(Set(d, PI, x), SetTag(d, 1)) }

  function SetFlt(d: Base, x: X): S { Seq(Set(d, PF, x), SetTag(d, 2)) }

  function SetBox(d: Base, x: X): S { Seq(Set(d, PB, x), SetTag(d, 0)) }

  function Reclassify(d: Base, x: X): S { Seq(Set(d, PB, x), Unbox(d)) }

  /** emit_maybe_arith. */
  function ArithS(op: Op, a: MCell, b: MCell, d: Base): S {
    var ints := if op.Div? then SetFlt(d, Two(F64(Div), Un(Conv, a.i), Un(Conv, b.i)))
                else SetInt(d, Two(I64(op), a.i, b.i));
    var generic := SetBox(d, Two(Helper(op), BoxCell(a), BoxCell(b)));
    var nums := SetFlt(d, Two(F64(op), CellF(a), CellF(b)));
    var rest := if op.FDiv? || op.Mod? then generic else IfS(BothNums(a, b), nums, generic);
    IfS(BothTags(a, b, 1), ints, rest)
  }

  /** emit_maybe_neg. */
  function NegS(a: MCell, d: Base): S {
    var flt := SetFlt(d, Un(NegF, a.f));
    var generic := SetBox(d, Un(HelperNeg, BoxCell(a)));
    IfS(Un(IsTag(1), a.t), SetInt(d, Two(I64(Sub), Const(W64(0)), a.i)), IfS(Un(IsTag(2), a.t), flt, generic))
  }

  /** The inline form of a math builtin on a number's cell. */
  function MathS(k: MathKind, a: MCell, d: Base): S {
    match k
    case Sqrt => SetFlt(d, Un(RoundF(Sqrt), CellF(a)))
    case Abs =>
      var neg := IfX(Un(Less0, a.i), Two(I64(Sub), Const(W64(0)), a.i), a.i);
      IfS(Un(IsTag(1), a.t), SetInt(d, neg), SetFlt(d, Un(RoundF(Abs), a.f)))
    case _ =>
      var back := IfS(Un(Fits, Get(d, PF)), SetInt(d, Un(Trunc, Get(d, PF))), SetTag(d, 2));
      IfS(Un(IsTag(1), a.t), SetInt(d, a.i), Seq(Set(d, PF, Un(RoundF(k), a.f)), back))
  }

  /** The guard: the builtin itself, on a number; otherwise the ordinary call. */
  function GuardedS(k: MathKind, cv: Base, a: MCell, d: Base): S {
    var guard := Two(And, Un(IsRef(Builtin(k)), Get(cv, PB)), Un(NotTag(0), a.t));
    IfS(guard, MathS(k, a, d), Reclassify(d, CallX(Get(cv, PB), XCons(BoxCell(a), XNil))))
  }

  function CopyS(d: Base, s: Base): S {
    var c := CellOf(s);
    var rest := Seq(Set(d, PF, c.f), Set(d, PB, c.r));
    Seq(Set(d, PT, c.t), Seq(Set(d, PI, c.i), rest))
  }

  predicate Inlined(e: Expr) { e.Call? && e.math.Some? && Count(e.args) == 1 }

  /** emit_maybe_lower: e into cell d, with the temporaries from k up free. */
  function Lower(ks: Kinds, e: Expr, d: Base, k: nat): S
    decreases e, 1
  {
    if IsInt(ks, e) then SetInt(d, IntX(ks, e))
    else if IsFlt(ks, e) then SetFlt(d, FltX(ks, e))
    else if e.Local? && KindOf(ks, e.s) == KMaybe then (if d == Slot(e.s) then Skip else CopyS(d, Slot(e.s)))
    else if e.Bin? && MaybeOp(e.op) then
      var il, ir := OperandImm(ks, e.l, Some(e.r)), OperandImm(ks, e.r, None);
      var kr := if il.Some? then k else k + 1;
      var next := if ir.Some? then kr else kr + 1;
      var a := if il.Some? then il.value else CellOf(Tmp(k));
      var b := if ir.Some? then ir.value else CellOf(Tmp(kr));
      Seq(if il.Some? then Skip else Lower(ks, e.l, Tmp(k), next),
          Seq(if ir.Some? then Skip else Lower(ks, e.r, Tmp(kr), next), ArithS(e.op, a, b, d)))
    else if e.Neg? then
      var im := OperandImm(ks, e.e, None);
      if im.Some? then NegS(im.value, d) else Seq(Lower(ks, e.e, Tmp(k), k + 1), NegS(CellOf(Tmp(k)), d))
    else if Inlined(e) then
      var callee := Set(Tmp(k), PB, EmitX(ks, e.callee, k + 1));
      var im := OperandImm(ks, e.args.hd, None);
      var a := if im.Some? then im.value else CellOf(Tmp(k + 1));
      var arg := if im.Some? then Skip else Lower(ks, e.args.hd, Tmp(k + 1), k + 2);
      Seq(callee, Seq(arg, GuardedS(e.math.value, Tmp(k), a, d)))
    else Reclassify(d, EmitPlain(ks, e, k))
  }

  /** emit_expr: e as a Lua value. */
  function EmitX(ks: Kinds, e: Expr, k: nat): X
    decreases e, 2
  {
    if !e.Int? && IsInt(ks, e) then Un(MakeInt, IntX(ks, e))
    else if !e.Float? && IsFlt(ks, e) then Un(MakeFloat, FltX(ks, e))
    else if Lowered(ks, e) then BlockX(Lower(ks, e, Tmp(k), k + 1), BoxCell(CellOf(Tmp(k))))
    else EmitPlain(ks, e, k)
  }

  /** Trees that expr_involves_maybe sends through emit_maybe_boxed. */
  predicate Lowered(ks: Kinds, e: Expr) {
    ((e.Bin? && MaybeOp(e.op)) || e.Neg?) && HasOpaque(ks, e)
  }

  /** A node evaluated generically. */
  function EmitPlain(ks: Kinds, e: Expr, k: nat): X
    decreases e, 0
  {
    match e
    case Int(n) => Const(WR(VInt(n)))
    case Float(x) => Const(WR(VFlt(x)))
    case Lit(n) => Const(WR(VObj(n)))
    case Local(s) => if KindOf(ks, s) == KMaybe then BoxCell(CellOf(Slot(s))) else Get(Slot(s), PB)
    case Bin(op, l, r) => Two(Helper(op), EmitX(ks, l, k), EmitX(ks, r, k))
    case Neg(x) => Un(HelperNeg, EmitX(ks, x, k))
    case Call(_, callee, args) => CallX(EmitX(ks, callee, k), EmitXs(ks, args, k))
    case Other(q, _, args) => AskX(q, EmitXs(ks, args, k))
  }

  function EmitXs(ks: Kinds, es: Exprs, k: nat): Xs
    decreases es
  {
    match es case Nil => XNil case Cons(e, tl) => XCons(EmitX(ks, e, k), EmitXs(ks, tl, k))
  }

  // ----- temporaries -----

  function Max(a: nat, b: nat): nat { if a > b then a else b }

  /** The temporaries the code of Lower, EmitX and EmitPlain uses, from k up. */
  function LNeed(ks: Kinds, e: Expr): nat
    decreases e, 1
  {
    if IsInt(ks, e) || IsFlt(ks, e) || (e.Local? && KindOf(ks, e.s) == KMaybe) then 0
    else if e.Bin? && MaybeOp(e.op) then
      var tl := if OperandImm(ks, e.l, Some(e.r)).Some? then 0 else 1;
      var tr := if OperandImm(ks, e.r, None).Some? then 0 else 1;
      tl + tr + Max(if tl == 0 then 0 else LNeed(ks, e.l), if tr == 0 then 0 else LNeed(ks, e.r))
    else if e.Neg? then (if OperandImm(ks, e.e, None).Some? then 0 else 1 + LNeed(ks, e.e))
    else if Inlined(e) then
      1 + Max(XNeed(ks, e.callee), if OperandImm(ks, e.args.hd, None).Some? then 0 else 1 + LNeed(ks, e.args.hd))
    else PNeed(ks, e)
  }

  function XNeed(ks: Kinds, e: Expr): nat
    decreases e, 2
  {
    if IsInt(ks, e) || IsFlt(ks, e) then 0 else if Lowered(ks, e) then 1 + LNeed(ks, e) else PNeed(ks, e)
  }

  function PNeed(ks: Kinds, e: Expr): nat
    decreases e, 0
  {
    match e
    case Bin(_, l, r) => Max(XNeed(ks, l), XNeed(ks, r))
    case Neg(x) => XNeed(ks, x)
    case Call(_, callee, args) => Max(XNeed(ks, callee), XsNeed(ks, args))
    case Other(_, _, args) => XsNeed(ks, args)
    case _ => 0
  }

  function XsNeed(ks: Kinds, es: Exprs): nat
    decreases es
  {
    match es case Nil => 0 case Cons(e, tl) => Max(XNeed(ks, e), XsNeed(ks, tl))
  }

  /** expr_temp_need: the bound the pre-pass computes. */
  function Bound(ks: Kinds, e: Expr): nat {
    match e
    case Bin(_, l, r) =>
      var tl := if OperandImm(ks, l, Some(r)).Some? then 0 else 1;
      var tr := if OperandImm(ks, r, None).Some? then 0 else 1;
      tl + tr + Max(if tl == 0 then 0 else Bound(ks, l), if tr == 0 then 0 else Bound(ks, r))
    case Neg(x) => if OperandImm(ks, x, None).Some? then 0 else 1 + Bound(ks, x)
    case Call(_, callee, args) => Max(1 + Bound(ks, callee), BoundAll(ks, args, 2))
    case Other(_, _, args) => BoundAll(ks, args, 1)
    case _ => 0
  }

  function BoundAll(ks: Kinds, es: Exprs, extra: nat): nat {
    match es case Nil => 0 case Cons(e, tl) => Max(extra + Bound(ks, e), BoundAll(ks, tl, extra))
  }

  /** callee_math_kind only guesses at `math.<key>`, a local or an upvalue: code
      without temporaries. */
  predicate Guesses(ks: Kinds, e: Expr) {
    match e
    case Bin(_, l, r) => Guesses(ks, l) && Guesses(ks, r)
    case Neg(x) => Guesses(ks, x)
    case Call(m, callee, args) => (m.Some? ==> Simple(callee)) && Guesses(ks, callee) && GuessesAll(ks, args)
    case Other(_, _, args) => GuessesAll(ks, args)
    case _ => true
  }

  predicate GuessesAll(ks: Kinds, es: Exprs) {
    match es case Nil => true case Cons(e, tl) => Guesses(ks, e) && GuessesAll(ks, tl)
  }

  predicate Simple(e: Expr) {
    match e
    case Local(_) => true
    case Lit(_) => true
    case Other(_, _, args) => SimpleAll(args)
    case _ => false
  }

  predicate SimpleAll(es: Exprs) {
    match es case Nil => true case Cons(e, tl) => Simple(e) && SimpleAll(tl)
  }
}
