module InferRules {
  // What signature inference computes for one function, and how that depends on the return
  // types assumed (src/codegen/analysis.c, compute_ret_ty, infer_step_body).

  import opened Numbers
  import opened Spec
  import opened SpecSim
  import opened KillRule

  // ----- return types -----

  /** ret_scan: the meet of the types of all returns. */
  function AccRet(sg: Sigs, cx: Ctx, ss: Stmts): Ty
    decreases ss
  {
    match ss case Nil => TUnset case Cons(s, tl) => Meet(AccRetAt(sg, cx, s), AccRet(sg, cx, tl))
  }

  function AccRetAt(sg: Sigs, cx: Ctx, s: Stmt): Ty
    decreases s
  {
    match s
    case SReturn(es) => if Count(es) == 1 then NumTy(sg, cx, es.e) else TAny
    case SDo(b) => AccRet(sg, cx, b)
    case SIf(_, thn, els) => Meet(AccRet(sg, cx, thn), AccRet(sg, cx, els))
    case SWhile(_, b) => AccRet(sg, cx, b)
    case SFor(_, _, _, _, b) => AccRet(sg, cx, b)
    case _ => TUnset
  }

  /** compute_ret_ty. */
  function ComputeRet(sg: Sigs, cx: Ctx, ss: Stmts): Ty {
    if !AlwaysReturns(ss) || AccRet(sg, cx, ss).TUnset? then TAny else AccRet(sg, cx, ss)
  }

  predicate Numeric(ty: Ty) { ty.TInt? || ty.TFloat? }

  /** b says at most what a says: undetermined, then int or float, then anything. */
  predicate Weaker(a: Ty, b: Ty) { a == b || a.TUnset? || b.TAny? }

  /** num_meet gives the most that can be said of both. */
  lemma {:induction false} MeetLeast(a: Ty, b: Ty, c: Ty)
    ensures Weaker(a, Meet(a, b)) && Weaker(b, Meet(a, b))
    ensures Weaker(a, c) && Weaker(b, c) ==> Weaker(Meet(a, b), c)
  {
  }

  /** A numeric return type means that every return has it, and conversely. */
  lemma {:induction false} AccReturns(sg: Sigs, cx: Ctx, ty: Ty, ss: Stmts)
    requires Numeric(ty)
    ensures AccRet(sg, cx, ss) == ty || AccRet(sg, cx, ss) == TUnset <==> Returns(sg, cx, ty, ss)
    decreases ss
  {
    if ss.Cons? {
      AccReturnsAt(sg, cx, ty, ss.hd);
      AccReturns(sg, cx, ty, ss.tl);
    }
  }

  lemma {:induction false} AccReturnsAt(sg: Sigs, cx: Ctx, ty: Ty, s: Stmt)
    requires Numeric(ty)
    ensures AccRetAt(sg, cx, s) == ty || AccRetAt(sg, cx, s) == TUnset <==> ReturnsAt(sg, cx, ty, s)
    decreases s
  {
    match s
    case SDo(b) => AccReturns(sg, cx, ty, b);
    case SIf(_, thn, els) =>
      AccReturns(sg, cx, ty, thn);
      AccReturns(sg, cx, ty, els);
    case SWhile(_, b) => AccReturns(sg, cx, ty, b);
    case SFor(_, _, _, _, b) => AccReturns(sg, cx, ty, b);
    case _ =>
  }

  lemma {:induction false} AlwaysSets(sg: Sigs, cx: Ctx, ss: Stmts)
    requires AlwaysReturns(ss)
    ensures AccRet(sg, cx, ss) != TUnset
    decreases ss
  {
    if ss.tl.Nil? { AlwaysSetsAt(sg, cx, ss.hd); } else { AlwaysSets(sg, cx, ss.tl); }
  }

  lemma {:induction false} AlwaysSetsAt(sg: Sigs, cx: Ctx, s: Stmt)
    requires StmtReturns(s)
    ensures AccRetAt(sg, cx, s) != TUnset
    decreases s
  {
    match s
    case SReturn(_) =>
    case SDo(b) => AlwaysSets(sg, cx, b);
    case SIf(_, thn, els) => AlwaysSets(sg, cx, thn);
  }

  lemma {:induction false} RetNumeric(sg: Sigs, cx: Ctx, ty: Ty, ss: Stmts)
    requires Numeric(ty)
    ensures ComputeRet(sg, cx, ss) == ty <==> AlwaysReturns(ss) && Returns(sg, cx, ty, ss)
  {
    AccReturns(sg, cx, ty, ss);
    if AlwaysReturns(ss) { AlwaysSets(sg, cx, ss); }
  }

  // ----- the contexts of a body -----

  /** The slots the int analysis starts from; parameters only as their types say. */
  function CandInt(fn: Fn, params: seq<Ty>, typed: bool): set<nat> {
    set i: nat | i < fn.params + fn.locals && i !in fn.captured
                 && (i >= fn.params || (typed && i < |params| && (params[i].TInt? || params[i].TUnset?)))
  }

  function CandFlt(fn: Fn, params: seq<Ty>, typed: bool, ints: set<nat>): set<nat> {
    set i: nat | i < fn.params + fn.locals && i !in fn.captured && i !in ints
                 && (i >= fn.params || (typed && i < |params| && params[i].TFloat?))
  }

  /** What compute_int_slots and then compute_float_slots leave. */
  ghost predicate IsCtx(sg: Sigs, fn: Fn, params: seq<Ty>, typed: bool, cx: Ctx) {
    && Greatest(sg, TInt, {}, CandInt(fn, params, typed), fn.body, cx.ints)
    && Greatest(sg, TFloat, cx.ints, CandFlt(fn, params, typed, cx.ints), fn.body, cx.flts)
  }

  lemma {:induction false} CtxDisjoint(sg: Sigs, fn: Fn, params: seq<Ty>, typed: bool, cx: Ctx)
    requires IsCtx(sg, fn, params, typed, cx)
    ensures cx.ints !! cx.flts
  {
  }

  // ----- which signatures a body can see -----

  /** Every direct call in e is to a function in D, with as many arguments as that
      function has parameters. */
  predicate Calls(p: Prog, D: set<nat>, e: Expr)
    decreases e
  {
    match e
    case Bin(_, l, r) => Calls(p, D, l) && Calls(p, D, r)
    case Neg(x) => Calls(p, D, x)
    case Direct(g, args) => g in D && g < |p| && Count(args) == p[g].params && CallsAll(p, D, args)
    case Call(c, args) => Calls(p, D, c) && CallsAll(p, D, args)
    case Other(_, args) => CallsAll(p, D, args)
    case _ => true
  }

  predicate CallsAll(p: Prog, D: set<nat>, es: Exprs)
    decreases es
  {
    match es case ENil => true case ECons(e, tl) => Calls(p, D, e) && CallsAll(p, D, tl)
  }

  predicate CallsIn(p: Prog, D: set<nat>, ss: Stmts)
    decreases ss
  {
    match ss case Nil => true case Cons(s, tl) => CallsAt(p, D, s) && CallsIn(p, D, tl)
  }

  predicate CallsAt(p: Prog, D: set<nat>, s: Stmt)
    decreases s
  {
    match s
    case SLocal(_, es) => CallsAll(p, D, es)
    case SAssign(_, es) => CallsAll(p, D, es)
    case STake(_, _, es) => CallsAll(p, D, es)
    case SDo(b) => CallsIn(p, D, b)
    case SIf(c, thn, els) => Calls(p, D, c) && CallsIn(p, D, thn) && CallsIn(p, D, els)
    case SWhile(c, b) => Calls(p, D, c) && CallsIn(p, D, b)
    case SFor(_, a, z, d, b) => Calls(p, D, a) && Calls(p, D, z) && Calls(p, D, d) && CallsIn(p, D, b)
    case SReturn(es) => CallsAll(p, D, es)
    case SBreak => true
    case SCall(e) => Calls(p, D, e)
  }

  lemma {:induction false} NthCalls(p: Prog, D: set<nat>, es: Exprs, j: nat)
    requires CallsAll(p, D, es) && j < Count(es)
    ensures Calls(p, D, Nth(es, j))
    decreases es
  {
    if j > 0 { NthCalls(p, D, es.es, j - 1); }
  }

  // ----- signatures that say more -----

  /** About the functions in D, sh says at least what sg says: the same parameters,
      and every numeric return. */
  ghost predicate SaysMore(sg: Sigs, sh: Sigs, D: set<nat>) {
    && |sg| == |sh|
    && forall g | g in D && g < |sg| :: sg[g].params == sh[g].params && (Numeric(sg[g].ret) ==> sh[g].ret == sg[g].ret)
  }

  lemma {:induction false} MoreTypes(p: Prog, D: set<nat>, sg: Sigs, sh: Sigs, cx: Ctx, cy: Ctx, e: Expr)
    requires Calls(p, D, e) && SaysMore(sg, sh, D) && cx.ints <= cy.ints && cx.flts <= cy.flts
    ensures IsInt(sg, cx, e) ==> IsInt(sh, cy, e)
    ensures IsFlt(sg, cx, e) ==> IsFlt(sh, cy, e)
    decreases e
  {
    match e
    case Bin(_, l, r) =>
      MoreTypes(p, D, sg, sh, cx, cy, l);
      MoreTypes(p, D, sg, sh, cx, cy, r);
    case Neg(x) => MoreTypes(p, D, sg, sh, cx, cy, x);
    case Direct(g, args) => MoreArgs(p, D, sg, sh, cx, cy, g, 0, args);
    case _ =>
  }

  lemma {:induction false} MoreArgs(p: Prog, D: set<nat>, sg: Sigs, sh: Sigs, cx: Ctx, cy: Ctx, g: nat, i: nat,
      args: Exprs)
    requires CallsAll(p, D, args) && g in D && SaysMore(sg, sh, D) && cx.ints <= cy.ints && cx.flts <= cy.flts
    ensures ArgsOk(sg, cx, g, i, args) ==> ArgsOk(sh, cy, g, i, args)
    decreases args
  {
    if args.ECons? {
      MoreTypes(p, D, sg, sh, cx, cy, args.e);
      MoreArgs(p, D, sg, sh, cx, cy, g, i + 1, args.es);
    }
  }

  /** A set respected under less information is respected under more. */
  lemma {:induction false} MoreRespects(p: Prog, D: set<nat>, sg: Sigs, sh: Sigs, ty: Ty, ints: set<nat>,
      jnts: set<nat>, live: set<nat>, ss: Stmts)
    requires CallsIn(p, D, ss) && SaysMore(sg, sh, D) && ints <= jnts && Respects(sg, ty, ints, live, ss)
    ensures Respects(sh, ty, jnts, live, ss)
    decreases ss
  {
    if ss.Cons? {
      MoreRespectsAt(p, D, sg, sh, ty, ints, jnts, live, ss.hd);
      MoreRespects(p, D, sg, sh, ty, ints, jnts, live, ss.tl);
    }
  }

  lemma {:induction false} MoreRespectsAt(p: Prog, D: set<nat>, sg: Sigs, sh: Sigs, ty: Ty, ints: set<nat>,
      jnts: set<nat>, live: set<nat>, s: Stmt)
    requires CallsAt(p, D, s) && SaysMore(sg, sh, D) && ints <= jnts && RespectsAt(sg, ty, ints, live, s)
    ensures RespectsAt(sh, ty, jnts, live, s)
    decreases s
  {
    var cx, cy := CtxFor(ty, ints, live), CtxFor(ty, jnts, live);
    if s.SLocal? || s.SAssign? {
      forall j | 0 <= j < |s.slots| && s.slots[j] in live ensures Keeps(sh, cy, ty, s, j) {
        assert Keeps(sg, cx, ty, s, j);
        NthCalls(p, D, s.es, j);
        MoreTypes(p, D, sg, sh, cx, cy, Nth(s.es, j));
      }
    } else {
      match s
      case SDo(b) => MoreRespects(p, D, sg, sh, ty, ints, jnts, live, b);
      case SIf(_, thn, els) =>
        MoreRespects(p, D, sg, sh, ty, ints, jnts, live, thn);
        MoreRespects(p, D, sg, sh, ty, ints, jnts, live, els);
      case SWhile(_, b) => MoreRespects(p, D, sg, sh, ty, ints, jnts, live, b);
      case SFor(_, start, _, step, b) =>
        MoreTypes(p, D, sg, sh, cx, cy, start);
        MoreTypes(p, D, sg, sh, cx, cy, step);
        MoreRespects(p, D, sg, sh, ty, ints, jnts, live, b);
      case _ =>
    }
  }

  /** So is a numeric return type. */
  lemma {:induction false} MoreReturns(p: Prog, D: set<nat>, sg: Sigs, sh: Sigs, cx: Ctx, cy: Ctx, ty: Ty, ss: Stmts)
    requires CallsIn(p, D, ss) && SaysMore(sg, sh, D) && SpecSim.Sub(cx, cy) && Numeric(ty) && Returns(sg, cx, ty, ss)
    ensures Returns(sh, cy, ty, ss)
    decreases ss
  {
    if ss.Cons? {
      MoreReturnsAt(p, D, sg, sh, cx, cy, ty, ss.hd);
      MoreReturns(p, D, sg, sh, cx, cy, ty, ss.tl);
    }
  }

  lemma {:induction false} MoreReturnsAt(p: Prog, D: set<nat>, sg: Sigs, sh: Sigs, cx: Ctx, cy: Ctx, ty: Ty, s: Stmt)
    requires CallsAt(p, D, s) && SaysMore(sg, sh, D) && SpecSim.Sub(cx, cy) && Numeric(ty) && ReturnsAt(sg, cx, ty, s)
    ensures ReturnsAt(sh, cy, ty, s)
    decreases s
  {
    match s
    case SReturn(es) =>
      MoreTypes(p, D, sg, sh, cx, cy, es.e);
      NotBoth(sh, cy, es.e);
    case SDo(b) => MoreReturns(p, D, sg, sh, cx, cy, ty, b);
    case SIf(_, thn, els) =>
      MoreReturns(p, D, sg, sh, cx, cy, ty, thn);
      MoreReturns(p, D, sg, sh, cx, cy, ty, els);
    case SWhile(_, b) => MoreReturns(p, D, sg, sh, cx, cy, ty, b);
    case SFor(_, _, _, _, b) => MoreReturns(p, D, sg, sh, cx, cy, ty, b);
    case _ =>
  }

  // ----- no slot is a float here and an int there -----

  /** Every local in e is numbered below n: what a declaration can refer to. */
  predicate Below(e: Expr, n: nat)
    decreases e
  {
    match e
    case Local(s) => s < n
    case Bin(_, l, r) => Below(l, n) && Below(r, n)
    case Neg(x) => Below(x, n)
    case Direct(_, args) => BelowAll(args, n)
    case Call(c, args) => Below(c, n) && BelowAll(args, n)
    case Other(_, args) => BelowAll(args, n)
    case _ => true
  }

  predicate BelowAll(es: Exprs, n: nat)
    decreases es
  {
    match es case ENil => true case ECons(e, tl) => Below(e, n) && BelowAll(tl, n)
  }

  /** The statement that declares slot n is among these: slot numbers grow, and a
      declaration's value is computed before the slot is in scope. */
  predicate Declares(ss: Stmts, n: nat)
    decreases ss
  {
    ss.Cons? && (DeclaresAt(ss.hd, n) || Declares(ss.tl, n))
  }

  predicate DeclaresAt(s: Stmt, n: nat)
    decreases s
  {
    match s
    case SLocal(slots, es) =>
      exists j :: 0 <= j < |slots| && slots[j] == n && (Count(es) == |slots| ==> Below(Nth(es, j), n))
    case STake(slots, _, _) => n in slots
    case SDo(b) => Declares(b, n)
    case SIf(_, thn, els) => Declares(thn, n) || Declares(els, n)
    case SWhile(_, b) => Declares(b, n)
    case SFor(slot, _, _, _, b) => slot == n || Declares(b, n)
    case _ => false
  }

  ghost predicate Scoped(fn: Fn) {
    forall n: nat | fn.params <= n < fn.params + fn.locals :: Declares(fn.body, n)
  }

  /** No function in D returns floats under sg and ints under sh. */
  ghost predicate NoSwap(sg: Sigs, sh: Sigs, D: set<nat>) {
    forall g | g in D :: !(RetTy(sg, g).TFloat? && RetTy(sh, g).TInt?)
  }

  /** An expression that is a float under one context and an int under another has a
      local that is so too. */
  lemma {:induction false} Clash(p: Prog, D: set<nat>, sg: Sigs, sh: Sigs, cx: Ctx, cy: Ctx, e: Expr, n: nat)
    returns (s: nat)
    requires NoSwap(sg, sh, D) && Calls(p, D, e) && IsFlt(sg, cx, e) && IsInt(sh, cy, e)
    ensures s in cx.flts && s in cy.ints && (Below(e, n) ==> s < n)
    decreases e
  {
    match e
    case Local(i) => s := i;
    case Bin(_, l, r) =>
      if IsFlt(sg, cx, l) { s := Clash(p, D, sg, sh, cx, cy, l, n); } else { s := Clash(p, D, sg, sh, cx, cy, r, n); }
    case Neg(x) => s := Clash(p, D, sg, sh, cx, cy, x, n);
  }

  /** The declared value of a slot that is a float here and an int there. */
  lemma {:induction false} DeclValue(p: Prog, D: set<nat>, sg: Sigs, sh: Sigs, cx: Ctx, jnts: set<nat>, ss: Stmts,
      n: nat)
    returns (e: Expr)
    requires Respects(sg, TFloat, cx.ints, cx.flts, ss) && Respects(sh, TInt, {}, jnts, ss)
    requires CallsIn(p, D, ss) && n in cx.flts && n in jnts && Declares(ss, n)
    ensures Calls(p, D, e) && Below(e, n) && IsFlt(sg, cx, e) && IsInt(sh, Ctx(jnts, {}), e)
    decreases ss
  {
    if DeclaresAt(ss.hd, n) {
      e := DeclValueAt(p, D, sg, sh, cx, jnts, ss.hd, n);
    } else {
      e := DeclValue(p, D, sg, sh, cx, jnts, ss.tl, n);
    }
  }

  lemma {:induction false} DeclValueAt(p: Prog, D: set<nat>, sg: Sigs, sh: Sigs, cx: Ctx, jnts: set<nat>, s: Stmt,
      n: nat)
    returns (e: Expr)
    requires RespectsAt(sg, TFloat, cx.ints, cx.flts, s) && RespectsAt(sh, TInt, {}, jnts, s)
    requires CallsAt(p, D, s) && n in cx.flts && n in jnts && DeclaresAt(s, n)
    ensures Calls(p, D, e) && Below(e, n) && IsFlt(sg, cx, e) && IsInt(sh, Ctx(jnts, {}), e)
    decreases s
  {
    match s
    case SLocal(slots, es) =>
      var j :| 0 <= j < |slots| && slots[j] == n && (Count(es) == |slots| ==> Below(Nth(es, j), n));
      assert Keeps(sg, CtxFor(TFloat, cx.ints, cx.flts), TFloat, s, j) && Keeps(sh, CtxFor(TInt, {}, jnts), TInt, s, j);
      NthCalls(p, D, es, j);
      e := Nth(es, j);
    case SDo(b) => e := DeclValue(p, D, sg, sh, cx, jnts, b, n);
    case SIf(_, thn, els) =>
      if Declares(thn, n) {
        e := DeclValue(p, D, sg, sh, cx, jnts, thn, n);
      } else {
        e := DeclValue(p, D, sg, sh, cx, jnts, els, n);
      }
    case SWhile(_, b) => e := DeclValue(p, D, sg, sh, cx, jnts, b, n);
    case SFor(_, _, _, _, b) => e := DeclValue(p, D, sg, sh, cx, jnts, b, n);
  }

  /** By induction on slot numbers: no slot is a float under cx and an int under jnts,
      if no parameter is. */
  lemma {:induction false} NoClash(p: Prog, D: set<nat>, sg: Sigs, sh: Sigs, fn: Fn, cx: Ctx, jnts: set<nat>, n: nat)
    requires NoSwap(sg, sh, D) && Scoped(fn) && CallsIn(p, D, fn.body) && n < fn.params + fn.locals
    requires Respects(sg, TFloat, cx.ints, cx.flts, fn.body) && Respects(sh, TInt, {}, jnts, fn.body)
    requires forall i: nat | i < fn.params :: !(i in cx.flts && i in jnts)
    ensures !(n in cx.flts && n in jnts)
    decreases n
  {
    if n >= fn.params && n in cx.flts && n in jnts {
      var e := DeclValue(p, D, sg, sh, cx, jnts, fn.body, n);
      var s := Clash(p, D, sg, sh, cx, Ctx(jnts, {}), e, n);
      NoClash(p, D, sg, sh, fn, cx, jnts, s);
    }
  }

  /** More information, and parameters typed, keep every type. */
  lemma {:induction false} CtxGrows(p: Prog, D: set<nat>, sg: Sigs, sh: Sigs, fn: Fn, params: seq<Ty>, typed: bool,
        typed': bool,
      cx: Ctx, cy: Ctx)
    requires SaysMore(sg, sh, D) && Scoped(fn) && CallsIn(p, D, fn.body) && (typed ==> typed')
    requires IsCtx(sg, fn, params, typed, cx) && IsCtx(sh, fn, params, typed', cy)
    ensures SpecSim.Sub(cx, cy)
  {
    MoreRespects(p, D, sg, sh, TInt, {}, {}, cx.ints, fn.body);
    assert CandInt(fn, params, typed) <= CandInt(fn, params, typed');
    assert cx.ints <= cy.ints;
    assert NoSwap(sg, sh, D);
    forall n | n in cx.flts ensures n !in cy.ints { NoClash(p, D, sg, sh, fn, cx, cy.ints, n); }
    MoreRespects(p, D, sg, sh, TFloat, cx.ints, cy.ints, cx.flts, fn.body);
    assert cx.flts <= CandFlt(fn, params, typed', cy.ints);
  }

  // ----- the return type of one function, step by step -----

  /** infer_step_body finds the return type r for a body under these signatures. */
  ghost predicate Finds(sg: Sigs, fn: Fn, params: seq<Ty>, r: Ty) {
    exists cx :: IsCtx(sg, fn, params, true, cx) && ComputeRet(sg, cx, fn.body) == r
  }

  lemma {:induction false} FindsUnique(sg: Sigs, fn: Fn, params: seq<Ty>, r: Ty, q: Ty)
    requires Finds(sg, fn, params, r) && Finds(sg, fn, params, q)
    ensures r == q && r != TUnset
  {
    var cx :| IsCtx(sg, fn, params, true, cx) && ComputeRet(sg, cx, fn.body) == r;
    var cy :| IsCtx(sg, fn, params, true, cy) && ComputeRet(sg, cy, fn.body) == q;
    CtxUnique(sg, fn, params, true, cx, cy);
  }

  lemma {:induction false} CtxUnique(sg: Sigs, fn: Fn, params: seq<Ty>, typed: bool, cx: Ctx, cy: Ctx)
    requires IsCtx(sg, fn, params, typed, cx) && IsCtx(sg, fn, params, typed, cy)
    ensures cx == cy
  {
    GreatestUnique(sg, TInt, {}, CandInt(fn, params, typed), fn.body, cx.ints, cy.ints);
    GreatestUnique(sg, TFloat, cx.ints, CandFlt(fn, params, typed, cx.ints), fn.body, cx.flts, cy.flts);
  }

  lemma {:induction false} SameGreatest(p: Prog, D: set<nat>, sg: Sigs, sh: Sigs, ty: Ty, ints: set<nat>,
        cand: set<nat>, ss: Stmts,
      live: set<nat>)
    requires SaysMore(sg, sh, D) && SaysMore(sh, sg, D) && CallsIn(p, D, ss) && Greatest(sg, ty, ints, cand, ss, live)
    ensures Greatest(sh, ty, ints, cand, ss, live)
  {
    MoreRespects(p, D, sg, sh, ty, ints, ints, live, ss);
    forall other: set<nat> | other <= cand && Respects(sh, ty, ints, other, ss) ensures other <= live {
      MoreRespects(p, D, sh, sg, ty, ints, ints, other, ss);
    }
  }

  lemma {:induction false} SameCtx(p: Prog, D: set<nat>, sg: Sigs, sh: Sigs, fn: Fn, params: seq<Ty>, typed: bool,
        cx: Ctx)
    requires SaysMore(sg, sh, D) && SaysMore(sh, sg, D) && CallsIn(p, D, fn.body) && IsCtx(sg, fn, params, typed, cx)
    ensures IsCtx(sh, fn, params, typed, cx)
  {
    SameGreatest(p, D, sg, sh, TInt, {}, CandInt(fn, params, typed), fn.body, cx.ints);
    SameGreatest(p, D, sg, sh, TFloat, cx.ints, CandFlt(fn, params, typed, cx.ints), fn.body, cx.flts);
  }

  lemma {:induction false} RetGrows(p: Prog, D: set<nat>, sg: Sigs, sh: Sigs, cx: Ctx, cy: Ctx, ss: Stmts)
    requires CallsIn(p, D, ss) && SaysMore(sg, sh, D) && SpecSim.Sub(cx, cy) && Numeric(ComputeRet(sg, cx, ss))
    ensures ComputeRet(sh, cy, ss) == ComputeRet(sg, cx, ss)
  {
    var ty := ComputeRet(sg, cx, ss);
    RetNumeric(sg, cx, ty, ss);
    MoreReturns(p, D, sg, sh, cx, cy, ty, ss);
    RetNumeric(sh, cy, ty, ss);
  }

  /** What is found depends only on the functions the body calls. */
  lemma {:induction false} FindsLocal(p: Prog, D: set<nat>, sg: Sigs, sh: Sigs, fn: Fn, params: seq<Ty>, r: Ty)
    requires SaysMore(sg, sh, D) && SaysMore(sh, sg, D) && CallsIn(p, D, fn.body) && Finds(sg, fn, params, r)
    ensures Finds(sh, fn, params, r)
  {
    var cx :| IsCtx(sg, fn, params, true, cx) && ComputeRet(sg, cx, fn.body) == r;
    SameCtx(p, D, sg, sh, fn, params, true, cx);
    if Numeric(r) {
      RetGrows(p, D, sg, sh, cx, cx, fn.body);
    } else if Numeric(ComputeRet(sh, cx, fn.body)) {
      RetGrows(p, D, sh, sg, cx, cx, fn.body);
    }
  }

  function At(sg: Sigs, g: nat, r: Ty): Sigs
    requires g < |sg|
  {
    sg[g := sg[g].(ret := r)]
  }

  /** A numeric type found while nothing is assumed is found whatever is assumed. */
  lemma {:induction false} AnyFixes(p: Prog, D: set<nat>, sg: Sigs, g: nat, fn: Fn, params: seq<Ty>, a: Ty, b: Ty,
        r: Ty, q: Ty)
    requires g < |sg| && Scoped(fn) && CallsIn(p, D, fn.body) && !Numeric(a) && Numeric(r)
    requires Finds(At(sg, g, a), fn, params, r) && Finds(At(sg, g, b), fn, params, q)
    ensures q == r
  {
    var sa, sb := At(sg, g, a), At(sg, g, b);
    var cx :| IsCtx(sa, fn, params, true, cx) && ComputeRet(sa, cx, fn.body) == r;
    var cy :| IsCtx(sb, fn, params, true, cy) && ComputeRet(sb, cy, fn.body) == q;
    CtxGrows(p, D, sa, sb, fn, params, true, true, cx, cy);
    RetGrows(p, D, sa, sb, cx, cy, fn.body);
  }

  /** A returned expression that is a float here and an int there. */
  lemma {:induction false} ReturnClash(p: Prog, D: set<nat>, sg: Sigs, sh: Sigs, cx: Ctx, cy: Ctx, ss: Stmts)
    returns (e: Expr)
    requires AlwaysReturns(ss) && CallsIn(p, D, ss) && Returns(sg, cx, TFloat, ss) && Returns(sh, cy, TInt, ss)
    ensures Calls(p, D, e) && IsFlt(sg, cx, e) && IsInt(sh, cy, e)
    decreases ss
  {
    if ss.tl.Nil? {
      e := ReturnClashAt(p, D, sg, sh, cx, cy, ss.hd);
    } else {
      e := ReturnClash(p, D, sg, sh, cx, cy, ss.tl);
    }
  }

  lemma {:induction false} ReturnClashAt(p: Prog, D: set<nat>, sg: Sigs, sh: Sigs, cx: Ctx, cy: Ctx, s: Stmt)
    returns (e: Expr)
    requires StmtReturns(s) && CallsAt(p, D, s) && ReturnsAt(sg, cx, TFloat, s) && ReturnsAt(sh, cy, TInt, s)
    ensures Calls(p, D, e) && IsFlt(sg, cx, e) && IsInt(sh, cy, e)
    decreases s
  {
    match s
    case SReturn(es) => e := es.e;
    case SDo(b) => e := ReturnClash(p, D, sg, sh, cx, cy, b);
    case SIf(_, thn, _) => e := ReturnClash(p, D, sg, sh, cx, cy, thn);
  }

  /** Assuming int never leads to float while assuming float leads to int. */
  lemma {:induction false} NoOscillation(p: Prog, D: set<nat>, sg: Sigs, g: nat, fn: Fn, params: seq<Ty>)
    requires g < |sg| && Scoped(fn) && CallsIn(p, D, fn.body)
    requires Finds(At(sg, g, TInt), fn, params, TFloat)
    ensures !Finds(At(sg, g, TFloat), fn, params, TInt)
  {
    var si, sf := At(sg, g, TInt), At(sg, g, TFloat);
    if Finds(sf, fn, params, TInt) {
      var cx :| IsCtx(si, fn, params, true, cx) && ComputeRet(si, cx, fn.body) == TFloat;
      var cy :| IsCtx(sf, fn, params, true, cy) && ComputeRet(sf, cy, fn.body) == TInt;
      RetNumeric(si, cx, TFloat, fn.body);
      RetNumeric(sf, cy, TInt, fn.body);
      var e := ReturnClash(p, D, si, sf, cx, cy, fn.body);
      var s := Clash(p, D, si, sf, cx, cy, e, 0);
      assert NoSwap(si, sf, D);
      NoClash(p, D, si, sf, fn, cx, cy.ints, s);
    }
  }

  /** Although return types start at int and are not monotone, two steps settle them. */
  lemma {:induction false} TwoSteps(p: Prog, D: set<nat>, sg: Sigs, g: nat, fn: Fn, params: seq<Ty>, r1: Ty, r2: Ty,
        r3: Ty, q: Ty)
    requires g < |sg| && Scoped(fn) && CallsIn(p, D, fn.body)
    requires Finds(At(sg, g, r1), fn, params, r2) && Finds(At(sg, g, r2), fn, params, r3)
      && Finds(At(sg, g, r3), fn, params, q)
    ensures q == r3
  {
    FindsUnique(At(sg, g, r1), fn, params, r2, r2);
    FindsUnique(At(sg, g, r2), fn, params, r3, r3);
    FindsUnique(At(sg, g, r3), fn, params, q, q);
    if r3 == r2 {
      FindsUnique(At(sg, g, r2), fn, params, r3, q);
    } else if !Numeric(r2) {
      AnyFixes(p, D, sg, g, fn, params, r2, r3, r3, q);
    } else if !Numeric(r3) {
      if Numeric(q) { AnyFixes(p, D, sg, g, fn, params, r3, r2, q, r3); }
    } else if q != r3 {
      if r1 == r2 {
        FindsUnique(At(sg, g, r2), fn, params, r2, r3);
      } else if r1 == r3 {
        FindsUnique(At(sg, g, r3), fn, params, r2, q);
        NoOscillation(p, D, sg, g, fn, params);
      } else {
        AnyFixes(p, D, sg, g, fn, params, r1, r2, r2, r3);
      }
    }
  }

  // ----- the lattice does not only move downward -----

  /** b is a itself or below it. */
  predicate Falls(a: Ty, b: Ty) { Meet(a, b) == b }

  /** function () return <float> end */
  function FloatFn(x: Flt): Fn { Fn(0, 0, {}, Cons(SReturn(ECons(Float(x), ENil)), Nil)) }

  /** Its return type starts at int and one step takes it to float, which is not below. */
  lemma {:induction false} NotDownward(sg: Sigs, g: nat, x: Flt)
    requires g < |sg|
    ensures Finds(At(sg, g, TInt), FloatFn(x), [], TFloat) && !Falls(TInt, TFloat)
  {
    var fn, cx := FloatFn(x), Ctx({}, {});
    var sh, ret := At(sg, g, TInt), SReturn(ECons(Float(x), ENil));
    assert CandInt(fn, [], true) == {} && CandFlt(fn, [], true, {}) == {};
    assert fn.body.hd == ret && fn.body.tl == Nil;
    assert RespectsAt(sh, TInt, {}, {}, ret) && RespectsAt(sh, TFloat, {}, {}, ret);
    assert Respects(sh, TInt, {}, {}, fn.body) && Respects(sh, TFloat, {}, {}, fn.body);
    assert IsCtx(sh, fn, [], true, cx);
    assert StmtReturns(ret) && AlwaysReturns(fn.body);
    assert Count(ret.es) == 1 && NumTy(sh, cx, ret.es.e) == TFloat;
    assert ReturnsAt(sh, cx, TFloat, ret) && Returns(sh, cx, TFloat, fn.body);
    RetNumeric(sh, cx, TFloat, fn.body);
  }

  /** The first step moves up exactly for a body that always returns, and only floats
      while its own calls are taken for ints. */
  lemma {:induction false} FirstStep(sg: Sigs, g: nat, fn: Fn, params: seq<Ty>, cx: Ctx)
    requires g < |sg| && IsCtx(At(sg, g, TInt), fn, params, true, cx)
    ensures var sh := At(sg, g, TInt);
            Falls(TInt, ComputeRet(sh, cx, fn.body)) <==> !(AlwaysReturns(fn.body) && Returns(sh, cx, TFloat, fn.body))
  {
    var sh := At(sg, g, TInt);
    RetNumeric(sh, cx, TFloat, fn.body);
  }

  /** Every later step only falls. */
  lemma {:induction false} LaterSteps(p: Prog, D: set<nat>, sg: Sigs, g: nat, fn: Fn, params: seq<Ty>, r1: Ty,
        r2: Ty, r3: Ty)
    requires g < |sg| && Scoped(fn) && CallsIn(p, D, fn.body)
    requires Finds(At(sg, g, r1), fn, params, r2) && Finds(At(sg, g, r2), fn, params, r3)
    ensures Falls(r2, r3)
  {
    FindsUnique(At(sg, g, r1), fn, params, r2, r2);
    FindsUnique(At(sg, g, r2), fn, params, r3, r3);
    if Numeric(r3) && r3 != r2 {
      if !Numeric(r2) {
        AnyFixes(p, D, sg, g, fn, params, r2, r1, r3, r2);
      } else if r1 == r2 {
        FindsUnique(At(sg, g, r2), fn, params, r2, r3);
      } else if r1 == r3 {
        NoOscillation(p, D, sg, g, fn, params);
      } else {
        AnyFixes(p, D, sg, g, fn, params, r1, r2, r2, r3);
      }
    }
  }
}
