module SpecSim {
  // The specialized program of Spec does what the boxed one does, when its tables are what the
  // analyses end on.

  import opened Numbers
  import opened IntFor
  import opened Spec

  // ----- closed tables -----

  predicate HasTy(v: V, ty: Ty) {
    match ty case TInt => v.VInt? case TFloat => v.VFlt? case _ => true
  }

  function Nth(es: Exprs, i: nat): Expr
    requires i < Count(es)
  {
    if i == 0 then es.e else Nth(es.es, i - 1)
  }

  /** A slot of the type ty may be stored to this way. */
  predicate StoreOk(sg: Sigs, cx: Ctx, slots: seq<nat>, es: Exprs, multi: bool) {
    forall j | 0 <= j < |slots| && SlotTy(cx, slots[j]) != TAny ::
      && (multi || |slots| == 1) && Count(es) == |slots|
      && (if SlotTy(cx, slots[j]).TInt? then IsInt(sg, cx, Nth(es, j)) else IsFlt(sg, cx, Nth(es, j)))
  }

  /** typed_kill_stmt finds nothing to kill. */
  predicate Closed(sg: Sigs, cx: Ctx, ss: Stmts)
    decreases ss
  {
    match ss case Nil => true case Cons(s, tl) => ClosedAt(sg, cx, s) && Closed(sg, cx, tl)
  }

  predicate ClosedAt(sg: Sigs, cx: Ctx, s: Stmt)
    decreases s
  {
    match s
    case SLocal(slots, es) => StoreOk(sg, cx, slots, es, true)
    case SAssign(slots, es) => StoreOk(sg, cx, slots, es, false)
    case STake(slots, _, _) => forall j | 0 <= j < |slots| :: SlotTy(cx, slots[j]) == TAny
    case SDo(b) => Closed(sg, cx, b)
    case SIf(_, thn, els) => Closed(sg, cx, thn) && Closed(sg, cx, els)
    case SWhile(_, b) => Closed(sg, cx, b)
    case SFor(slot, start, _, step, b) =>
      && slot !in cx.flts && (slot in cx.ints ==> IsInt(sg, cx, start) && IsInt(sg, cx, step))
      && Closed(sg, cx, b)
    case _ => true
  }

  /** block_always_returns. */
  predicate AlwaysReturns(ss: Stmts)
    decreases ss
  {
    ss.Cons? && if ss.tl.Nil? then StmtReturns(ss.hd) else AlwaysReturns(ss.tl)
  }

  predicate StmtReturns(s: Stmt)
    decreases s
  {
    match s
    case SReturn(_) => true
    case SDo(b) => AlwaysReturns(b)
    case SIf(_, thn, els) => AlwaysReturns(thn) && AlwaysReturns(els)
    case _ => false
  }

  /** Every return in the body is one expression of the type. */
  predicate Returns(sg: Sigs, cx: Ctx, ty: Ty, ss: Stmts)
    decreases ss
  {
    match ss case Nil => true case Cons(s, tl) => ReturnsAt(sg, cx, ty, s) && Returns(sg, cx, ty, tl)
  }

  predicate ReturnsAt(sg: Sigs, cx: Ctx, ty: Ty, s: Stmt)
    decreases s
  {
    match s
    case SReturn(es) => Count(es) == 1 && NumTy(sg, cx, es.e) == ty
    case SDo(b) => Returns(sg, cx, ty, b)
    case SIf(_, thn, els) => Returns(sg, cx, ty, thn) && Returns(sg, cx, ty, els)
    case SWhile(_, b) => Returns(sg, cx, ty, b)
    case SFor(_, _, _, _, b) => Returns(sg, cx, ty, b)
    case _ => true
  }

  /** Every direct call has as many arguments as parameters, and meeting their types
      into the parameters changes nothing. */
  predicate Settled(p: Prog, sg: Sigs, cx: Ctx, e: Expr)
    decreases e
  {
    match e
    case Bin(_, l, r) => Settled(p, sg, cx, l) && Settled(p, sg, cx, r)
    case Neg(x) => Settled(p, sg, cx, x)
    case Direct(g, args) => g < |p| && Count(args) == p[g].params && SettledArgs(sg, cx, g, 0, args)
      && SettledAll(p, sg, cx, args)
    case Call(c, args) => Settled(p, sg, cx, c) && SettledAll(p, sg, cx, args)
    case Other(_, args) => SettledAll(p, sg, cx, args)
    case _ => true
  }

  predicate SettledAll(p: Prog, sg: Sigs, cx: Ctx, es: Exprs)
    decreases es
  {
    match es case ENil => true case ECons(e, tl) => Settled(p, sg, cx, e) && SettledAll(p, sg, cx, tl)
  }

  predicate SettledArgs(sg: Sigs, cx: Ctx, g: nat, i: nat, args: Exprs)
    decreases args
  {
    match args
    case ENil => true
    case ECons(e, tl) =>
      && (ParamTy(sg, g, i) == TAny || Meet(ParamTy(sg, g, i), NumTy(sg, cx, e)) == ParamTy(sg, g, i))
      && SettledArgs(sg, cx, g, i + 1, tl)
  }

  predicate SettledIn(p: Prog, sg: Sigs, cx: Ctx, ss: Stmts)
    decreases ss
  {
    match ss case Nil => true case Cons(s, tl) => SettledAt(p, sg, cx, s) && SettledIn(p, sg, cx, tl)
  }

  predicate SettledAt(p: Prog, sg: Sigs, cx: Ctx, s: Stmt)
    decreases s
  {
    match s
    case SLocal(_, es) => SettledAll(p, sg, cx, es)
    case SAssign(_, es) => SettledAll(p, sg, cx, es)
    case STake(_, _, es) => SettledAll(p, sg, cx, es)
    case SDo(b) => SettledIn(p, sg, cx, b)
    case SIf(c, thn, els) => Settled(p, sg, cx, c) && SettledIn(p, sg, cx, thn) && SettledIn(p, sg, cx, els)
    case SWhile(c, b) => Settled(p, sg, cx, c) && SettledIn(p, sg, cx, b)
    case SFor(_, a, z, d, b) => Settled(p, sg, cx, a) && Settled(p, sg, cx, z) && Settled(p, sg, cx, d)
      && SettledIn(p, sg, cx, b)
    case SReturn(es) => SettledAll(p, sg, cx, es)
    case SBreak => true
    case SCall(e) => Settled(p, sg, cx, e)
  }

  ghost predicate Sub(cx: Ctx, cy: Ctx) { cx.ints <= cy.ints && cx.flts <= cy.flts && cy.ints !! cy.flts }

  /** The calls of a body are settled in a context that types at least as much. */
  ghost predicate SettledAbove(p: Prog, sg: Sigs, cx: Ctx, cy: Ctx, ss: Stmts, cz: Ctx) {
    Sub(cx, cz) && Sub(cy, cz) && SettledIn(p, sg, cz, ss)
  }

  /** What holds once inference has stopped. */
  ghost predicate GoodFn(p: Prog, t: Tables, g: nat)
    requires g < |p| && |t.boxed| == |t.typed| == |t.sg| == |p|
  {
    var fn, cx, cy := p[g], t.boxed[g], t.typed[g];
    && |t.sg[g].params| == fn.params && (exists cz :: SettledAbove(p, t.sg, cx, cy, fn.body, cz))
    && (forall i | i in fn.captured :: SlotTy(cx, i) == TAny && SlotTy(cy, i) == TAny)
    && Closed(t.sg, cx, fn.body) && Closed(t.sg, cy, fn.body)
    && (forall i | 0 <= i < fn.params :: i !in cx.ints && i !in cx.flts)
    && (forall i: nat | i < fn.params ::
          (i in cy.ints ==> t.sg[g].params[i] == TInt) && (i in cy.flts ==> t.sg[g].params[i] == TFloat))
    && (t.sg[g].ret == TInt || t.sg[g].ret == TFloat
        ==> AlwaysReturns(fn.body) && Returns(t.sg, cy, t.sg[g].ret, fn.body))
  }

  ghost predicate Good(p: Prog, t: Tables) {
    && |t.boxed| == |t.typed| == |t.sg| == |p|
    && forall g | 0 <= g < |p| :: GoodFn(p, t, g)
  }

  /** Typed slots hold their type, once declared, and are in no box. */
  predicate SlotOk(cx: Ctx, s: nat, c: Slot) {
    match c case Plain(v) => v.VNone? || HasTy(v, SlotTy(cx, s)) case Boxed(_) => SlotTy(cx, s) == TAny
  }

  ghost predicate EnvOk(cx: Ctx, env: Env) {
    forall s: nat | s < |env| :: SlotOk(cx, s, env[s])
  }

  // ----- more information types more -----

  lemma {:induction false} NotBoth(sg: Sigs, cx: Ctx, e: Expr)
    requires cx.ints !! cx.flts
    ensures !(IsInt(sg, cx, e) && IsFlt(sg, cx, e))
    decreases e
  {
    match e
    case Bin(_, l, r) =>
      NotBoth(sg, cx, l);
      NotBoth(sg, cx, r);
    case Neg(x) => NotBoth(sg, cx, x);
    case _ =>
  }

  lemma {:induction false} TypesKept(sg: Sigs, cx: Ctx, cy: Ctx, e: Expr)
    requires Sub(cx, cy)
    ensures IsInt(sg, cx, e) ==> IsInt(sg, cy, e)
    ensures IsFlt(sg, cx, e) ==> IsFlt(sg, cy, e)
    decreases e
  {
    match e
    case Bin(_, l, r) =>
      TypesKept(sg, cx, cy, l);
      TypesKept(sg, cx, cy, r);
    case Neg(x) => TypesKept(sg, cx, cy, x);
    case Direct(g, args) => ArgsKept(sg, cx, cy, g, 0, args);
    case _ =>
  }

  lemma {:induction false} ArgsKept(sg: Sigs, cx: Ctx, cy: Ctx, g: nat, i: nat, args: Exprs)
    requires Sub(cx, cy)
    ensures ArgsOk(sg, cx, g, i, args) ==> ArgsOk(sg, cy, g, i, args)
    decreases args
  {
    if args.ECons? {
      TypesKept(sg, cx, cy, args.e);
      ArgsKept(sg, cx, cy, g, i + 1, args.es);
    }
  }

  /** At a settled call an argument's type is exactly its parameter's: an int is
      never passed for a float. */
  lemma {:induction false} ArgExact(sg: Sigs, cx: Ctx, cy: Ctx, g: nat, i: nat, args: Exprs)
    requires Sub(cx, cy) && args.ECons? && ArgsOk(sg, cx, g, i, args) && SettledArgs(sg, cy, g, i, args)
    ensures ParamTy(sg, g, i) != TUnset
    ensures ParamTy(sg, g, i) == TInt ==> IsInt(sg, cx, args.e)
    ensures ParamTy(sg, g, i) == TFloat ==> IsFlt(sg, cx, args.e) && !IsInt(sg, cx, args.e)
  {
    TypesKept(sg, cx, cy, args.e);
  }

  // ----- the simulation -----

  function NumOf(w: World, r: Result<V>): Result<Flt> {
    match r case Err(e, tr) => Err(e, tr) case Ok(v, tr) => if IsNum(v) then Ok(ToFlt(w, v), tr) else Err(STUCK, tr)
  }

  lemma {:induction false} IntSame(p: Prog, t: Tables, w: World, cx: Ctx, cy: Ctx, e: Expr, env: Env, tr: Trace,
      f: nat)
    requires Good(p, t) && Sub(cx, cy) && EnvOk(cx, env) && IsInt(t.sg, cx, e) && Settled(p, t.sg, cy, e)
    ensures BoxI(EvalInt(p, t, w, cx, e, env, tr, f)) == Eval(p, w, e, env, tr, f)
    decreases f, 2, e, 0
  {
    match e
    case Int(_) =>
    case Local(s) => assert s < |env| ==> SlotOk(cx, s, env[s]);
    case Bin(op, l, r) =>
      IntSame(p, t, w, cx, cy, l, env, tr, f);
      var a := EvalInt(p, t, w, cx, l, env, tr, f);
      if a.Ok? { IntSame(p, t, w, cx, cy, r, env, a.tr, f); }
    case Neg(x) => IntSame(p, t, w, cx, cy, x, env, tr, f);
    case Direct(g, args) => DirectSame(p, t, w, cx, cy, g, args, env, tr, f);
  }

  lemma {:induction false} FltSame(p: Prog, t: Tables, w: World, cx: Ctx, cy: Ctx, e: Expr, env: Env, tr: Trace,
      f: nat)
    requires Good(p, t) && Sub(cx, cy) && EnvOk(cx, env) && IsFlt(t.sg, cx, e) && Settled(p, t.sg, cy, e)
    ensures BoxF(EvalFlt(p, t, w, cx, e, env, tr, f)) == Eval(p, w, e, env, tr, f)
    decreases f, 2, e, 1
  {
    match e
    case Float(_) =>
    case Local(s) => assert s < |env| ==> SlotOk(cx, s, env[s]);
    case Bin(op, l, r) => FloatBin(p, t, w, cx, cy, op, l, r, env, tr, f);
    case Neg(x) => NumSame(p, t, w, cx, cy, x, env, tr, f);
    case Direct(g, args) => DirectSame(p, t, w, cx, cy, g, args, env, tr, f);
  }

  lemma {:induction false} FloatBin(p: Prog, t: Tables, w: World, cx: Ctx, cy: Ctx, op: Op, l: Expr, r: Expr,
      env: Env, tr: Trace, f: nat)
    requires Good(p, t) && Sub(cx, cy) && EnvOk(cx, env)
    requires IsFlt(t.sg, cx, Bin(op, l, r)) && Settled(p, t.sg, cy, Bin(op, l, r))
    ensures BoxF(EvalFlt(p, t, w, cx, Bin(op, l, r), env, tr, f)) == Eval(p, w, Bin(op, l, r), env, tr, f)
    decreases f, 2, Bin(op, l, r), 0
  {
    NumSame(p, t, w, cx, cy, l, env, tr, f);
    var a := Eval(p, w, l, env, tr, f);
    if a.Ok? { NumSame(p, t, w, cx, cy, r, env, a.tr, f); }
  }

  /** A number's f64 view; its type is the one proved. */
  lemma {:induction false} NumSame(p: Prog, t: Tables, w: World, cx: Ctx, cy: Ctx, e: Expr, env: Env, tr: Trace,
      f: nat)
    requires Good(p, t) && Sub(cx, cy) && EnvOk(cx, env) && (IsInt(t.sg, cx, e) || IsFlt(t.sg, cx, e))
      && Settled(p, t.sg, cy, e)
    ensures var r := Eval(p, w, e, env, tr, f);
            && EvalNum(p, t, w, cx, e, env, tr, f) == NumOf(w, r)
            && (r.Ok? ==> if IsFlt(t.sg, cx, e) then r.v.VFlt? else r.v.VInt?)
    decreases f, 2, e, 2
  {
    if IsFlt(t.sg, cx, e) {
      FltSame(p, t, w, cx, cy, e, env, tr, f);
    } else {
      IntSame(p, t, w, cx, cy, e, env, tr, f);
    }
  }

  lemma {:induction false} DirectSame(p: Prog, t: Tables, w: World, cx: Ctx, cy: Ctx, g: nat, args: Exprs,
      env: Env, tr: Trace, f: nat)
    requires Good(p, t) && Sub(cx, cy) && EnvOk(cx, env) && ArgsOk(t.sg, cx, g, 0, args)
      && Settled(p, t.sg, cy, Direct(g, args))
    ensures var r := Eval(p, w, Direct(g, args), env, tr, f);
            EvalDirect(p, t, w, cx, g, args, env, tr, f) == r && (r.Ok? ==> HasTy(r.v, RetTy(t.sg, g)))
    decreases f, 2, args, 1
  {
    ArgsSame(p, t, w, cx, cy, g, 0, args, env, tr, f);
    var vs := EvalAll(p, w, args, env, tr, f);
    if vs.Ok? { InvokeSame(p, t, w, g, true, vs.v, vs.tr, f); }
  }

  predicate ArgTys(sg: Sigs, g: nat, i: nat, vs: seq<V>) {
    forall j | 0 <= j < |vs| :: HasTy(vs[j], ParamTy(sg, g, i + j)) && ParamTy(sg, g, i + j) != TUnset
  }

  lemma {:induction false} ArgsSame(p: Prog, t: Tables, w: World, cx: Ctx, cy: Ctx, g: nat, i: nat, args: Exprs,
      env: Env, tr: Trace, f: nat)
    requires Good(p, t) && Sub(cx, cy) && EnvOk(cx, env)
    requires ArgsOk(t.sg, cx, g, i, args) && SettledArgs(t.sg, cy, g, i, args) && SettledAll(p, t.sg, cy, args)
    ensures var r := EvalAll(p, w, args, env, tr, f);
            && EvalArgs(p, t, w, cx, g, i, args, env, tr, f) == r
            && (r.Ok? ==> |r.v| == Count(args) && ArgTys(t.sg, g, i, r.v))
    decreases f, 2, args, 0
  {
    if args.ECons? {
      ArgExact(t.sg, cx, cy, g, i, args);
      ArgSame(p, t, w, cx, cy, ParamTy(t.sg, g, i), args.e, env, tr, f);
      var a := Eval(p, w, args.e, env, tr, f);
      if a.Ok? {
        ArgsSame(p, t, w, cx, cy, g, i + 1, args.es, env, a.tr, f);
        var vs := EvalAll(p, w, args.es, env, a.tr, f);
        if vs.Ok? { ArgTysStep(t.sg, g, i, a.v, vs.v); }
      }
    }
  }

  lemma {:induction false} ArgTysStep(sg: Sigs, g: nat, i: nat, v: V, vs: seq<V>)
    requires HasTy(v, ParamTy(sg, g, i)) && ParamTy(sg, g, i) != TUnset && ArgTys(sg, g, i + 1, vs)
    ensures ArgTys(sg, g, i, [v] + vs)
  {
    forall j | 0 <= j < |[v] + vs| ensures HasTy(([v] + vs)[j], ParamTy(sg, g, i + j))
      && ParamTy(sg, g, i + j) != TUnset {
      if j > 0 { assert ([v] + vs)[j] == vs[j - 1] && i + j == i + 1 + (j - 1); }
    }
  }

  /** A value computed at a type it has. */
  lemma {:induction false} ArgSame(p: Prog, t: Tables, w: World, cx: Ctx, cy: Ctx, ty: Ty, e: Expr, env: Env,
      tr: Trace, f: nat)
    requires Good(p, t) && Sub(cx, cy) && EnvOk(cx, env) && Settled(p, t.sg, cy, e)
    requires ty == TInt ==> IsInt(t.sg, cx, e)
    requires ty == TFloat ==> IsFlt(t.sg, cx, e)
    ensures var r := Eval(p, w, e, env, tr, f);
            EvalArg(p, t, w, cx, ty, e, env, tr, f) == r && (r.Ok? ==> HasTy(r.v, ty))
    decreases f, 2, e, 4
  {
    match ty
    case TInt => IntSame(p, t, w, cx, cy, e, env, tr, f);
    case TFloat => NumSame(p, t, w, cx, cy, e, env, tr, f);
    case _ => ValueSame(p, t, w, cx, cy, e, env, tr, f);
  }

  lemma {:induction false} ValueSame(p: Prog, t: Tables, w: World, cx: Ctx, cy: Ctx, e: Expr, env: Env, tr: Trace,
      f: nat)
    requires Good(p, t) && Sub(cx, cy) && EnvOk(cx, env) && Settled(p, t.sg, cy, e)
    ensures EvalT(p, t, w, cx, e, env, tr, f) == Eval(p, w, e, env, tr, f)
    decreases f, 2, e, 3
  {
    if IsInt(t.sg, cx, e) {
      IntSame(p, t, w, cx, cy, e, env, tr, f);
    } else if IsFlt(t.sg, cx, e) {
      FltSame(p, t, w, cx, cy, e, env, tr, f);
    } else {
      match e
      case Bin(op, l, r) =>
        ValueSame(p, t, w, cx, cy, l, env, tr, f);
        var a := Eval(p, w, l, env, tr, f);
        if a.Ok? { ValueSame(p, t, w, cx, cy, r, env, a.tr, f); }
      case Neg(x) => ValueSame(p, t, w, cx, cy, x, env, tr, f);
      case Direct(g, args) => CallSame(p, t, w, cx, cy, g, args, env, tr, f);
      case Call(callee, args) =>
        ValueSame(p, t, w, cx, cy, callee, env, tr, f);
        var c := Eval(p, w, callee, env, tr, f);
        if c.Ok? { DynamicSame(p, t, w, cx, cy, c.v, args, env, c.tr, f); }
      case Other(_, args) => AllSame(p, t, w, cx, cy, args, env, tr, f);
      case _ =>
    }
  }

  lemma {:induction false} CallSame(p: Prog, t: Tables, w: World, cx: Ctx, cy: Ctx, g: nat, args: Exprs, env: Env,
      tr: Trace, f: nat)
    requires Good(p, t) && Sub(cx, cy) && EnvOk(cx, env) && Settled(p, t.sg, cy, Direct(g, args))
    ensures Eval(p, w, Direct(g, args), env, tr, f)
            == if ArgsOk(t.sg, cx, g, 0, args) then EvalDirect(p, t, w, cx, g, args, env, tr, f)
               else var vs := EvalAllT(p, t, w, cx, args, env, tr, f);
                    if vs.Err? then Err(vs.e, vs.tr) else InvokeT(p, t, w, g, false, vs.v, vs.tr, f)
    decreases f, 2, args, 2
  {
    if ArgsOk(t.sg, cx, g, 0, args) {
      DirectSame(p, t, w, cx, cy, g, args, env, tr, f);
    } else {
      AllSame(p, t, w, cx, cy, args, env, tr, f);
      var vs := EvalAll(p, w, args, env, tr, f);
      if vs.Ok? { InvokeSame(p, t, w, g, false, vs.v, vs.tr, f); }
    }
  }

  lemma {:induction false} DynamicSame(p: Prog, t: Tables, w: World, cx: Ctx, cy: Ctx, c: V, args: Exprs,
      env: Env, tr: Trace, f: nat)
    requires Good(p, t) && Sub(cx, cy) && EnvOk(cx, env) && SettledAll(p, t.sg, cy, args)
    ensures var vs := EvalAll(p, w, args, env, tr, f);
            && EvalAllT(p, t, w, cx, args, env, tr, f) == vs
            && (vs.Ok? && c.VFun? && c.f < |p| ==>
                  var xs := Adjust(vs.v, p[c.f].params);
                  InvokeT(p, t, w, c.f, false, xs, vs.tr, f) == Invoke(p, w, c.f, xs, vs.tr, f))
    decreases f, 2, args, 2
  {
    AllSame(p, t, w, cx, cy, args, env, tr, f);
    var vs := EvalAll(p, w, args, env, tr, f);
    if vs.Ok? && c.VFun? && c.f < |p| { InvokeSame(p, t, w, c.f, false, Adjust(vs.v, p[c.f].params), vs.tr, f); }
  }

  lemma {:induction false} AllSame(p: Prog, t: Tables, w: World, cx: Ctx, cy: Ctx, es: Exprs, env: Env, tr: Trace,
      f: nat)
    requires Good(p, t) && Sub(cx, cy) && EnvOk(cx, env) && SettledAll(p, t.sg, cy, es)
    ensures EvalAllT(p, t, w, cx, es, env, tr, f) == EvalAll(p, w, es, env, tr, f)
    ensures EvalAll(p, w, es, env, tr, f).Ok? ==> |EvalAll(p, w, es, env, tr, f).v| == Count(es)
    decreases f, 2, es, 0
  {
    if es.ECons? {
      ValueSame(p, t, w, cx, cy, es.e, env, tr, f);
      var a := Eval(p, w, es.e, env, tr, f);
      if a.Ok? { AllSame(p, t, w, cx, cy, es.es, env, a.tr, f); }
    }
  }

  // ----- statements -----

  ghost predicate FlowOk(cx: Ctx, ret: Ty, r: Flow) {
    match r
    case Next(env, _) => EnvOk(cx, env)
    case Brk(env, _) => EnvOk(cx, env)
    case Ret(v, _) => HasTy(v, ret)
    case Fail(_, _) => true
  }

  /** Running a body of a function with these tables: closed, settled, returning. */
  ghost predicate BodyOk(p: Prog, t: Tables, cx: Ctx, cy: Ctx, ret: Ty, ss: Stmts) {
    && Good(p, t) && Sub(cx, cy) && Closed(t.sg, cx, ss) && SettledIn(p, t.sg, cy, ss)
    && (ret == TInt || ret == TFloat ==> Returns(t.sg, cx, ret, ss))
  }

  lemma {:induction false} InvokeSame(p: Prog, t: Tables, w: World, g: nat, typed: bool, args: seq<V>, tr: Trace,
      f: nat)
    requires Good(p, t) && g < |p| && |args| == p[g].params
    requires typed ==> ArgTys(t.sg, g, 0, args)
    ensures var r := Invoke(p, w, g, args, tr, f);
            InvokeT(p, t, w, g, typed, args, tr, f) == r && (typed && r.Ok? ==> HasTy(r.v, RetTy(t.sg, g)))
    decreases f, 1
  {
    if f > 0 {
      assert GoodFn(p, t, g);
      var cx, ret, fn := CtxOf(t, g, typed), if typed then RetTy(t.sg, g) else TAny, p[g];
      FrameOk(p, t, g, typed, args, tr);
      var (env, tr1) := Enter(fn.captured, Frame(args, fn.locals), tr);
      var cz :| SettledAbove(p, t.sg, t.boxed[g], t.typed[g], fn.body, cz);
      RunSame(p, t, w, cx, cz, ret, fn.body, env, tr1, f - 1);
      if ret == TInt || ret == TFloat { NeverFalls(p, w, fn.body, env, tr1, f - 1); }
    }
  }

  lemma {:induction false} FrameOk(p: Prog, t: Tables, g: nat, typed: bool, args: seq<V>, tr: Trace)
    requires Good(p, t) && g < |p| && |args| == p[g].params && (typed ==> ArgTys(t.sg, g, 0, args))
    ensures var cx := CtxOf(t, g, typed);
            InBoxes(cx, p[g]) == p[g].captured && EnvOk(cx, Enter(p[g].captured, Frame(args, p[g].locals), tr).0)
  {
    assert GoodFn(p, t, g);
    var cx, vs := CtxOf(t, g, typed), Frame(args, p[g].locals);
    forall s | 0 <= s < |vs| ensures vs[s].VNone? || HasTy(vs[s], SlotTy(cx, s)) {
      if s < |args| && typed { assert HasTy(args[s], ParamTy(t.sg, g, 0 + s)) && ParamTy(t.sg, g, 0 + s) != TUnset; }
    }
    EnterOk(cx, p[g].captured, vs, tr);
  }

  lemma {:induction false} EnterOk(cx: Ctx, boxed: set<nat>, vs: seq<V>, tr: Trace)
    requires forall s | s in boxed :: SlotTy(cx, s) == TAny
    requires forall s | 0 <= s < |vs| :: vs[s].VNone? || HasTy(vs[s], SlotTy(cx, s))
    ensures EnvOk(cx, Enter(boxed, vs, tr).0)
    decreases |vs|
  {
    if vs != [] { EnterOk(cx, boxed, vs[..|vs| - 1], tr); }
  }

  /** A body that always returns does not fall through. */
  lemma {:induction false} NeverFalls(p: Prog, w: World, ss: Stmts, env: Env, tr: Trace, f: nat)
    requires AlwaysReturns(ss)
    ensures !Run(p, w, ss, env, tr, f).Next?
    decreases ss
  {
    if ss.tl.Nil? {
      StmtNeverFalls(p, w, ss.hd, env, tr, f);
    } else {
      var r := Step(p, w, ss.hd, env, tr, f);
      if r.Next? { NeverFalls(p, w, ss.tl, r.env, r.tr, f); }
    }
  }

  lemma {:induction false} StmtNeverFalls(p: Prog, w: World, s: Stmt, env: Env, tr: Trace, f: nat)
    requires StmtReturns(s)
    ensures !Step(p, w, s, env, tr, f).Next?
    decreases s
  {
    match s
    case SReturn(_) =>
    case SDo(b) => NeverFalls(p, w, b, env, tr, f);
    case SIf(c, thn, els) =>
      var v := Eval(p, w, c, env, tr, f);
      if v.Ok? { NeverFalls(p, w, if w.truthy(v.v) then thn else els, env, v.tr, f); }
  }

  lemma {:induction false} RunSame(p: Prog, t: Tables, w: World, cx: Ctx, cy: Ctx, ret: Ty, ss: Stmts, env: Env,
      tr: Trace, f: nat)
    requires BodyOk(p, t, cx, cy, ret, ss) && EnvOk(cx, env)
    ensures var r := Run(p, w, ss, env, tr, f); RunT(p, t, w, cx, ret, ss, env, tr, f) == r && FlowOk(cx, ret, r)
    decreases f, 3, ss, 1
  {
    if ss.Cons? {
      StepSame(p, t, w, cx, cy, ret, ss.hd, env, tr, f);
      var r := Step(p, w, ss.hd, env, tr, f);
      if r.Next? { RunSame(p, t, w, cx, cy, ret, ss.tl, r.env, r.tr, f); }
    }
  }

  ghost predicate StmtOk(p: Prog, t: Tables, cx: Ctx, cy: Ctx, ret: Ty, s: Stmt) {
    && Good(p, t) && Sub(cx, cy) && ClosedAt(t.sg, cx, s) && SettledAt(p, t.sg, cy, s)
    && (ret == TInt || ret == TFloat ==> ReturnsAt(t.sg, cx, ret, s))
  }

  lemma {:induction false} StepSame(p: Prog, t: Tables, w: World, cx: Ctx, cy: Ctx, ret: Ty, s: Stmt, env: Env,
      tr: Trace, f: nat)
    requires StmtOk(p, t, cx, cy, ret, s) && EnvOk(cx, env)
    ensures var r := Step(p, w, s, env, tr, f); StepT(p, t, w, cx, ret, s, env, tr, f) == r && FlowOk(cx, ret, r)
    decreases f, 3, s, 1
  {
    if s.SWhile? || s.SIf? || s.SDo? {
      NestSame(p, t, w, cx, cy, ret, s, env, tr, f);
    } else if s.STake? {
      TakeSame(p, t, w, cx, cy, ret, s, env, tr, f);
    } else {
      match s
      case SLocal(slots, es) => StoreSame(p, t, w, cx, cy, slots, es, true, env, tr, f);
      case SAssign(slots, es) => StoreSame(p, t, w, cx, cy, slots, es, false, env, tr, f);
      case SFor(_, _, _, _, _) => ForSame(p, t, w, cx, cy, ret, s, env, tr, f);
      case SReturn(es) => ReturnSame(p, t, w, cx, cy, ret, es, env, tr, f);
      case SBreak =>
      case SCall(e) => ValueSame(p, t, w, cx, cy, e, env, tr, f);
    }
  }

  lemma {:induction false} TakeSame(p: Prog, t: Tables, w: World, cx: Ctx, cy: Ctx, ret: Ty, s: Stmt, env: Env,
      tr: Trace, f: nat)
    requires s.STake? && StmtOk(p, t, cx, cy, ret, s) && EnvOk(cx, env)
    ensures var r := Step(p, w, s, env, tr, f); StepT(p, t, w, cx, ret, s, env, tr, f) == r && FlowOk(cx, ret, r)
    decreases f, 3, s, 0
  {
    AllSame(p, t, w, cx, cy, s.es, env, tr, f);
    var vs := EvalAll(p, w, s.es, env, tr, f);
    if vs.Ok? {
      var r := Asked(w, vs.tr, QOther(s.k, vs.v));
      if r.Ok? { PutOk(cx, env, s.slots, [r.v], true, r.tr); }
    }
  }

  lemma {:induction false} NestSame(p: Prog, t: Tables, w: World, cx: Ctx, cy: Ctx, ret: Ty, s: Stmt, env: Env,
      tr: Trace, f: nat)
    requires (s.SWhile? || s.SIf? || s.SDo?) && StmtOk(p, t, cx, cy, ret, s) && EnvOk(cx, env)
    ensures var r := Step(p, w, s, env, tr, f); StepT(p, t, w, cx, ret, s, env, tr, f) == r && FlowOk(cx, ret, r)
    decreases f, 3, s, 0
  {
    if s.SDo? {
      RunSame(p, t, w, cx, cy, ret, s.body, env, tr, f);
    } else {
      ValueSame(p, t, w, cx, cy, s.c, env, tr, f);
      var v := Eval(p, w, s.c, env, tr, f);
      if s.SIf? && v.Ok? {
        RunSame(p, t, w, cx, cy, ret, if w.truthy(v.v) then s.thn else s.els, env, v.tr, f);
      } else if s.SWhile? && v.Ok? && w.truthy(v.v) {
        RunSame(p, t, w, cx, cy, ret, s.body, env, v.tr, f);
        var r := Run(p, w, s.body, env, v.tr, f);
        if r.Next? && f > 0 { StepSame(p, t, w, cx, cy, ret, s, r.env, r.tr, f - 1); }
      }
    }
  }

  lemma {:induction false} ReturnSame(p: Prog, t: Tables, w: World, cx: Ctx, cy: Ctx, ret: Ty, es: Exprs,
      env: Env, tr: Trace, f: nat)
    requires StmtOk(p, t, cx, cy, ret, SReturn(es)) && EnvOk(cx, env)
    ensures var s := SReturn(es);
            var r := Step(p, w, s, env, tr, f); StepT(p, t, w, cx, ret, s, env, tr, f) == r && FlowOk(cx, ret, r)
    decreases f, 2, es, 5
  {
    if (ret == TInt || ret == TFloat) && Count(es) == 1 {
      OneValue(p, w, es, env, tr, f);
      NotBoth(t.sg, cy, es.e);
      TypesKept(t.sg, cx, cy, es.e);
      NumSame(p, t, w, cx, cy, es.e, env, tr, f);
      if ret == TInt {
        IntSame(p, t, w, cx, cy, es.e, env, tr, f);
      } else {
        FltSame(p, t, w, cx, cy, es.e, env, tr, f);
      }
    } else {
      AllSame(p, t, w, cx, cy, es, env, tr, f);
    }
  }

  lemma {:induction false} OneValue(p: Prog, w: World, es: Exprs, env: Env, tr: Trace, f: nat)
    requires Count(es) == 1
    ensures var a := Eval(p, w, es.e, env, tr, f);
            EvalAll(p, w, es, env, tr, f) == if a.Err? then Err(a.e, a.tr) else Ok([a.v], a.tr)
  {
    var a := Eval(p, w, es.e, env, tr, f);
    assert es.es == ENil;
    if a.Ok? { assert EvalAll(p, w, es.es, env, a.tr, f) == Ok([], a.tr) && [a.v] + [] == [a.v]; }
  }

  // ----- stores and loops -----

  predicate TypedStores(sg: Sigs, cx: Ctx, slots: seq<nat>, es: Exprs) {
    forall j | 0 <= j < |slots| && SlotTy(cx, slots[j]) != TAny ::
      j < Count(es) && if SlotTy(cx, slots[j]).TInt? then IsInt(sg, cx, Nth(es, j)) else IsFlt(sg, cx, Nth(es, j))
  }

  predicate Fit(cx: Ctx, slots: seq<nat>, vs: seq<V>) {
    forall j | 0 <= j < |slots| && SlotTy(cx, slots[j]) != TAny :: j < |vs| && HasTy(vs[j], SlotTy(cx, slots[j]))
  }

  lemma {:induction false} PutOk(cx: Ctx, env: Env, slots: seq<nat>, vs: seq<V>, decl: bool, tr: Trace)
    requires EnvOk(cx, env) && Fit(cx, slots, vs)
    ensures EnvOk(cx, Put(env, slots, vs, decl, tr).env)
    decreases |slots|
  {
    if slots != [] {
      var n := |slots| - 1;
      var v := if n < |vs| then vs[n] else NIL;
      assert SlotTy(cx, slots[n]) != TAny ==> n < |vs| && HasTy(vs[n], SlotTy(cx, slots[n]));
      var (env', tr') := Store(env, slots[n], v, decl, tr);
      forall s: nat | s < |env'| ensures SlotOk(cx, s, env'[s]) { assert SlotOk(cx, s, env[s]); }
      forall j | 0 <= j < n && SlotTy(cx, slots[..n][j]) != TAny
        ensures j < |vs| && HasTy(vs[j], SlotTy(cx, slots[..n][j])) {
        assert slots[..n][j] == slots[j];
      }
      PutOk(cx, env', slots[..n], vs, decl, tr');
    }
  }

  lemma {:induction false} SlotsSame(p: Prog, t: Tables, w: World, cx: Ctx, cy: Ctx, slots: seq<nat>, es: Exprs,
      env: Env, tr: Trace, f: nat)
    requires Good(p, t) && Sub(cx, cy) && EnvOk(cx, env) && SettledAll(p, t.sg, cy, es)
      && TypedStores(t.sg, cx, slots, es)
    ensures var r := EvalAll(p, w, es, env, tr, f);
            EvalSlots(p, t, w, cx, slots, es, env, tr, f) == r && (r.Ok? ==> Fit(cx, slots, r.v))
    decreases f, 2, es, 0
  {
    if es.ECons? {
      var ty := if slots == [] then TAny else SlotTy(cx, slots[0]);
      var rest := if slots == [] then [] else slots[1..];
      ArgSame(p, t, w, cx, cy, ty, es.e, env, tr, f);
      var a := Eval(p, w, es.e, env, tr, f);
      if a.Ok? {
        StoresTail(t.sg, cx, slots, es);
        SlotsSame(p, t, w, cx, cy, rest, es.es, env, a.tr, f);
        var vs := EvalAll(p, w, es.es, env, a.tr, f);
        if vs.Ok? { FitStep(cx, slots, a.v, vs.v); }
      }
    }
  }

  lemma {:induction false} StoresTail(sg: Sigs, cx: Ctx, slots: seq<nat>, es: Exprs)
    requires TypedStores(sg, cx, slots, es) && es.ECons?
    ensures TypedStores(sg, cx, if slots == [] then [] else slots[1..], es.es)
  {
    if slots != [] {
      forall j | 0 <= j < |slots[1..]| && SlotTy(cx, slots[1..][j]) != TAny
        ensures j < Count(es.es) && if SlotTy(cx, slots[1..][j]).TInt? then IsInt(sg, cx, Nth(es.es, j))
          else IsFlt(sg, cx, Nth(es.es, j))
      {
        assert slots[1..][j] == slots[j + 1] && j + 1 < Count(es) && Nth(es, j + 1) == Nth(es.es, j);
      }
    }
  }

  lemma {:induction false} FitStep(cx: Ctx, slots: seq<nat>, v: V, vs: seq<V>)
    requires Fit(cx, if slots == [] then [] else slots[1..], vs)
    requires slots != [] ==> HasTy(v, SlotTy(cx, slots[0]))
    ensures Fit(cx, slots, [v] + vs)
  {
    forall j | 0 <= j < |slots| && SlotTy(cx, slots[j]) != TAny
      ensures j < |[v] + vs| && HasTy(([v] + vs)[j], SlotTy(cx, slots[j]))
    {
      if j > 0 { assert slots[1..][j - 1] == slots[j] && ([v] + vs)[j] == vs[j - 1]; }
    }
  }

  lemma {:induction false} StoreSame(p: Prog, t: Tables, w: World, cx: Ctx, cy: Ctx, slots: seq<nat>, es: Exprs,
      multi: bool, env: Env, tr: Trace, f: nat)
    requires Good(p, t) && Sub(cx, cy) && EnvOk(cx, env) && SettledAll(p, t.sg, cy, es)
      && StoreOk(t.sg, cx, slots, es, multi)
    ensures var vs := EvalAll(p, w, es, env, tr, f);
            var r := if vs.Err? then Fail(vs.e, vs.tr) else Put(env, slots, vs.v, multi, vs.tr);
            StoreT(p, t, w, cx, slots, es, multi, env, tr, f) == r && FlowOk(cx, TAny, r)
    decreases f, 2, es, 3
  {
    SlotsSame(p, t, w, cx, cy, slots, es, env, tr, f);
    var vs := EvalAll(p, w, es, env, tr, f);
    if vs.Ok? { PutOk(cx, env, slots, vs.v, multi, vs.tr); }
  }

  lemma {:induction false} ForSame(p: Prog, t: Tables, w: World, cx: Ctx, cy: Ctx, ret: Ty, s: Stmt, env: Env,
      tr: Trace, f: nat)
    requires s.SFor? && StmtOk(p, t, cx, cy, ret, s) && EnvOk(cx, env)
    ensures var r := Step(p, w, s, env, tr, f); StepT(p, t, w, cx, ret, s, env, tr, f) == r && FlowOk(cx, ret, r)
    decreases f, 3, s, 0
  {
    ValueSame(p, t, w, cx, cy, s.start, env, tr, f);
    var a := Eval(p, w, s.start, env, tr, f);
    if a.Ok? {
      ValueSame(p, t, w, cx, cy, s.stop, env, a.tr, f);
      var z := Eval(p, w, s.stop, env, a.tr, f);
      if z.Ok? {
        ValueSame(p, t, w, cx, cy, s.step, env, z.tr, f);
        var d := Eval(p, w, s.step, env, z.tr, f);
        if d.Ok? {
          if s.slot in cx.ints {
            IntSame(p, t, w, cx, cy, s.start, env, tr, f);
            IntSame(p, t, w, cx, cy, s.step, env, z.tr, f);
            IntForSame(p, t, w, cx, cy, ret, s.slot, StepSign(s.step), a.v, z.v, d.v, s.body, env, d.tr, f);
          } else {
            LoopSame(p, t, w, cx, cy, ret, s.slot, a.v, z.v, d.v, 0, s.body, env, d.tr, f);
          }
        }
      }
    }
  }

  /** Running turn k's body under either program. */
  lemma {:induction false} TurnSame(p: Prog, t: Tables, w: World, cx: Ctx, cy: Ctx, ret: Ty, slot: nat, v: V,
      b: Stmts, env: Env, tr: Trace, f: nat)
    requires BodyOk(p, t, cx, cy, ret, b) && EnvOk(cx, env) && HasTy(v, SlotTy(cx, slot))
    ensures var s := Put(env, [slot], [v], true, tr);
            var r := Run(p, w, b, s.env, s.tr, f);
            RunT(p, t, w, cx, ret, b, s.env, s.tr, f) == r && FlowOk(cx, ret, r)
    decreases f, 3, b, 2
  {
    PutOk(cx, env, [slot], [v], true, tr);
    var s := Put(env, [slot], [v], true, tr);
    RunSame(p, t, w, cx, cy, ret, b, s.env, s.tr, f);
  }

  lemma {:induction false} LoopSame(p: Prog, t: Tables, w: World, cx: Ctx, cy: Ctx, ret: Ty, slot: nat, a: V, z: V,
      d: V, k: nat, b: Stmts, env: Env, tr: Trace, f: nat)
    requires BodyOk(p, t, cx, cy, ret, b) && EnvOk(cx, env) && SlotTy(cx, slot) == TAny
    ensures var r := Loop(p, w, slot, a, z, d, k, b, env, tr, f);
            LoopT(p, t, w, cx, ret, slot, a, z, d, k, b, env, tr, f) == r && FlowOk(cx, ret, r)
    decreases f, 3, b, 4
  {
    if ForOk(w, a, z, d) && k < Turns(w, a, z, d) {
      MoreSame(p, t, w, cx, cy, ret, slot, a, z, d, k, b, env, tr, f);
    } else {
      LoopOut(p, w, slot, a, z, d, k, b, env, tr, f);
      LoopOutT(p, t, w, cx, ret, slot, a, z, d, k, b, env, tr, f);
    }
  }

  function LoopEnd(w: World, a: V, z: V, d: V, env: Env, tr: Trace): Flow {
    if ForOk(w, a, z, d) then Next(env, tr) else Fail(BAD_FOR, tr)
  }

  lemma {:induction false} LoopOut(p: Prog, w: World, slot: nat, a: V, z: V, d: V, k: nat, b: Stmts, env: Env,
        tr: Trace, f: nat)
    requires ForOk(w, a, z, d) ==> k >= Turns(w, a, z, d)
    ensures Loop(p, w, slot, a, z, d, k, b, env, tr, f) == LoopEnd(w, a, z, d, env, tr)
  {
  }

  lemma {:induction false} LoopOutT(p: Prog, t: Tables, w: World, cx: Ctx, ret: Ty, slot: nat, a: V, z: V, d: V,
        k: nat, b: Stmts,
      env: Env, tr: Trace, f: nat)
    requires ForOk(w, a, z, d) ==> k >= Turns(w, a, z, d)
    ensures LoopT(p, t, w, cx, ret, slot, a, z, d, k, b, env, tr, f) == LoopEnd(w, a, z, d, env, tr)
  {
  }

  lemma {:induction false} MoreSame(p: Prog, t: Tables, w: World, cx: Ctx, cy: Ctx, ret: Ty, slot: nat, a: V, z: V,
      d: V, k: nat, b: Stmts, env: Env, tr: Trace, f: nat)
    requires BodyOk(p, t, cx, cy, ret, b) && EnvOk(cx, env) && SlotTy(cx, slot) == TAny
    requires ForOk(w, a, z, d) && k < Turns(w, a, z, d)
    ensures var r := Loop(p, w, slot, a, z, d, k, b, env, tr, f);
            LoopT(p, t, w, cx, ret, slot, a, z, d, k, b, env, tr, f) == r && FlowOk(cx, ret, r)
    decreases f, 3, b, 3
  {
    TurnSame(p, t, w, cx, cy, ret, slot, ControlAt(w, a, z, d, k), b, env, tr, f);
    LoopTurn(p, w, slot, a, z, d, k, b, env, tr, f);
    LoopTurnT(p, t, w, cx, ret, slot, a, z, d, k, b, env, tr, f);
    var s := Put(env, [slot], [ControlAt(w, a, z, d, k)], true, tr);
    var r := Run(p, w, b, s.env, s.tr, f);
    if r.Next? && f > 0 { LoopSame(p, t, w, cx, cy, ret, slot, a, z, d, k + 1, b, r.env, r.tr, f - 1); }
  }

  lemma {:induction false} LoopTurnT(p: Prog, t: Tables, w: World, cx: Ctx, ret: Ty, slot: nat, a: V, z: V, d: V,
        k: nat, b: Stmts,
      env: Env, tr: Trace, f: nat)
    requires ForOk(w, a, z, d) && k < Turns(w, a, z, d)
    ensures LoopT(p, t, w, cx, ret, slot, a, z, d, k, b, env, tr, f)
            == var s := Put(env, [slot], [ControlAt(w, a, z, d, k)], true, tr);
               var r := RunT(p, t, w, cx, ret, b, s.env, s.tr, f);
               if r.Brk? then Next(r.env, r.tr)
               else if !r.Next? then r
               else if f == 0 then Fail(TIMEOUT, r.tr)
               else LoopT(p, t, w, cx, ret, slot, a, z, d, k + 1, b, r.env, r.tr, f - 1)
  {
  }

  lemma {:induction false} IntForSame(p: Prog, t: Tables, w: World, cx: Ctx, cy: Ctx, ret: Ty, slot: nat, sign: int,
      a: V, z: V, d: V, b: Stmts, env: Env, tr: Trace, f: nat)
    requires BodyOk(p, t, cx, cy, ret, b) && EnvOk(cx, env) && SlotTy(cx, slot) == TInt
    requires IntLoop(a, d) && SignOf(sign, d.i)
    ensures var r := Loop(p, w, slot, a, z, d, 0, b, env, tr, f);
            IntForT(p, t, w, cx, ret, slot, sign, a, z, d, b, env, tr, f) == r && FlowOk(cx, ret, r)
    decreases f, 3, b, 5
  {
    if ForOk(w, a, z, d) {
      var l := LimitOf(w, z, a.i, d.i);
      PastExact(sign, a.i, l.stop, d.i);
      if !l.skip { IntLoopSame(p, t, w, cx, cy, ret, slot, sign, a, z, d, 0, a.i, b, env, tr, f); }
    }
  }

  predicate IntReady(w: World, a: V, z: V, d: V, sign: int) {
    IntLoop(a, d) && ForOk(w, a, z, d) && SignOf(sign, d.i) && !LimitOf(w, z, a.i, d.i).skip
  }

  /** The raw counter before turn k: that turn's value, or past the limit after the last. */
  predicate CounterAt(w: World, a: V, z: V, d: V, sign: int, k: nat, i: I64)
    requires IntReady(w, a, z, d, sign)
  {
    if k < Turns(w, a, z, d) then ControlAt(w, a, z, d, k) == VInt(i)
      else Past(sign, i, LimitOf(w, z, a.i, d.i).stop, d.i)
  }

  lemma {:induction false} CounterNext(w: World, a: V, z: V, d: V, sign: int, k: nat, i: I64)
    requires IntReady(w, a, z, d, sign) && CounterAt(w, a, z, d, sign, k, i) && k < Turns(w, a, z, d)
    ensures !Past(sign, i, LimitOf(w, z, a.i, d.i).stop, d.i)
    ensures if Wrapped(sign, Wrap(i + d.i), i, d.i) then k + 1 >= Turns(w, a, z, d)
      else CounterAt(w, a, z, d, sign, k + 1, Wrap(i + d.i))
  {
    var stop := LimitOf(w, z, a.i, d.i).stop;
    NextTurn(sign, a.i, stop, d.i, k);
  }

  lemma {:induction false} CounterIn(w: World, a: V, z: V, d: V, sign: int, k: nat, i: I64)
    requires IntReady(w, a, z, d, sign) && CounterAt(w, a, z, d, sign, k, i) && k < Turns(w, a, z, d)
    ensures !Past(sign, i, LimitOf(w, z, a.i, d.i).stop, d.i)
  {
    CounterNext(w, a, z, d, sign, k, i);
  }

  /** The raw counter walks through exactly the values of the boxed loop. */
  lemma {:induction false} IntLoopSame(p: Prog, t: Tables, w: World, cx: Ctx, cy: Ctx, ret: Ty, slot: nat,
      sign: int, a: V, z: V, d: V, k: nat, i: I64, b: Stmts, env: Env, tr: Trace, f: nat)
    requires BodyOk(p, t, cx, cy, ret, b) && EnvOk(cx, env) && SlotTy(cx, slot) == TInt
    requires IntReady(w, a, z, d, sign) && CounterAt(w, a, z, d, sign, k, i)
    ensures var r := Loop(p, w, slot, a, z, d, k, b, env, tr, f);
            && IntLoopT(p, t, w, cx, ret, slot, sign, i, LimitOf(w, z, a.i, d.i).stop, d.i, b, env, tr, f) == r
            && FlowOk(cx, ret, r)
    decreases f, 3, b, 4
  {
    if k >= Turns(w, a, z, d) {
      LoopOut(p, w, slot, a, z, d, k, b, env, tr, f);
    } else {
      IntMoreSame(p, t, w, cx, cy, ret, slot, sign, a, z, d, k, i, b, env, tr, f);
    }
  }

  lemma {:induction false} IntMoreSame(p: Prog, t: Tables, w: World, cx: Ctx, cy: Ctx, ret: Ty, slot: nat,
      sign: int, a: V, z: V, d: V, k: nat, i: I64, b: Stmts, env: Env, tr: Trace, f: nat)
    requires BodyOk(p, t, cx, cy, ret, b) && EnvOk(cx, env) && SlotTy(cx, slot) == TInt && IntReady(w, a, z, d, sign)
    requires k < Turns(w, a, z, d) && ControlAt(w, a, z, d, k) == VInt(i)
    ensures var r := Loop(p, w, slot, a, z, d, k, b, env, tr, f);
            && IntLoopT(p, t, w, cx, ret, slot, sign, i, LimitOf(w, z, a.i, d.i).stop, d.i, b, env, tr, f) == r
            && FlowOk(cx, ret, r)
    decreases f, 3, b, 3
  {
    CounterIn(w, a, z, d, sign, k, i);
    TurnSame(p, t, w, cx, cy, ret, slot, VInt(i), b, env, tr, f);
    LoopTurn(p, w, slot, a, z, d, k, b, env, tr, f);
    IntTurnT(p, t, w, cx, ret, slot, sign, i, LimitOf(w, z, a.i, d.i).stop, d.i, b, env, tr, f);
    var s := Put(env, [slot], [VInt(i)], true, tr);
    var r := Run(p, w, b, s.env, s.tr, f);
    if r.Next? && f > 0 { IntRestSame(p, t, w, cx, cy, ret, slot, sign, a, z, d, k, i, b, r.env, r.tr, f - 1); }
  }

  /** After the body of turn k. */
  lemma {:induction false} IntRestSame(p: Prog, t: Tables, w: World, cx: Ctx, cy: Ctx, ret: Ty, slot: nat,
      sign: int, a: V, z: V, d: V, k: nat, i: I64, b: Stmts, env: Env, tr: Trace, f: nat)
    requires BodyOk(p, t, cx, cy, ret, b) && EnvOk(cx, env) && SlotTy(cx, slot) == TInt && IntReady(w, a, z, d, sign)
    requires k < Turns(w, a, z, d) && ControlAt(w, a, z, d, k) == VInt(i)
    ensures var r := Loop(p, w, slot, a, z, d, k + 1, b, env, tr, f);
            var next := Wrap(i + d.i);
            && (if Wrapped(sign, next, i, d.i) then Next(env, tr)
                else IntLoopT(p, t, w, cx, ret, slot, sign, next, LimitOf(w, z, a.i, d.i).stop, d.i, b, env, tr,
                  f)) == r
            && FlowOk(cx, ret, r)
    decreases f, 3, b, 5
  {
    CounterNext(w, a, z, d, sign, k, i);
    var next := Wrap(i + d.i);
    if Wrapped(sign, next, i, d.i) {
      LoopOut(p, w, slot, a, z, d, k + 1, b, env, tr, f);
    } else {
      IntLoopSame(p, t, w, cx, cy, ret, slot, sign, a, z, d, k + 1, next, b, env, tr, f);
    }
  }

  lemma {:induction false} IntTurnT(p: Prog, t: Tables, w: World, cx: Ctx, ret: Ty, slot: nat, sign: int, i: I64,
        stop: I64, step: I64,
                 b: Stmts, env: Env, tr: Trace, f: nat)
    requires !Past(sign, i, stop, step)
    ensures IntLoopT(p, t, w, cx, ret, slot, sign, i, stop, step, b, env, tr, f)
            == var s := Put(env, [slot], [VInt(i)], true, tr);
               var r := RunT(p, t, w, cx, ret, b, s.env, s.tr, f);
               var next := Wrap(i + step);
               if r.Brk? then Next(r.env, r.tr)
               else if !r.Next? then r
               else if f == 0 then Fail(TIMEOUT, r.tr)
               else if Wrapped(sign, next, i, step) then Next(r.env, r.tr)
               else IntLoopT(p, t, w, cx, ret, slot, sign, next, stop, step, b, r.env, r.tr, f - 1)
  {
  }

  lemma {:induction false} LoopTurn(p: Prog, w: World, slot: nat, a: V, z: V, d: V, k: nat, b: Stmts, env: Env,
        tr: Trace, f: nat)
    requires ForOk(w, a, z, d) && k < Turns(w, a, z, d)
    ensures Loop(p, w, slot, a, z, d, k, b, env, tr, f)
            == var s := Put(env, [slot], [ControlAt(w, a, z, d, k)], true, tr);
               var r := Run(p, w, b, s.env, s.tr, f);
               if r.Brk? then Next(r.env, r.tr)
               else if !r.Next? then r
               else if f == 0 then Fail(TIMEOUT, r.tr)
               else Loop(p, w, slot, a, z, d, k + 1, b, r.env, r.tr, f - 1)
  {
  }

  // ----- the main results -----

  /** A typed entry called with arguments of its parameter types returns its declared
      type, and what the boxed function returns, recursion included. */
  lemma {:induction false} TypedEntry(p: Prog, t: Tables, w: World, g: nat, args: seq<V>, tr: Trace, f: nat)
    requires Good(p, t) && g < |p| && |args| == p[g].params && ArgTys(t.sg, g, 0, args)
    ensures InvokeT(p, t, w, g, true, args, tr, f) == Invoke(p, w, g, args, tr, f)
    ensures Invoke(p, w, g, args, tr, f).Ok? ==> HasTy(Invoke(p, w, g, args, tr, f).v, RetTy(t.sg, g))
  {
    InvokeSame(p, t, w, g, true, args, tr, f);
  }

  /** The whole specialized program, entered at any function through its boxed entry,
      does what the boxed program does. */
  lemma {:induction false} ProgramSame(p: Prog, t: Tables, w: World, g: nat, args: seq<V>, tr: Trace, f: nat)
    requires Good(p, t) && g < |p| && |args| == p[g].params
    ensures InvokeT(p, t, w, g, false, args, tr, f) == Invoke(p, w, g, args, tr, f)
  {
    InvokeSame(p, t, w, g, false, args, tr, f);
  }
}
