module Infer {
  // Whole-program signature inference (src/codegen/analysis.c, infer_signatures): it stops on
  // every program although return types are not monotone (InferRules.NotDownward), and what it
  // ends on makes the specialized program do what the boxed one does.

  import opened Numbers
  import opened Spec
  import opened SpecSim
  import opened KillRule
  import opened InferRules
  import Bindings

  // ----- programs as the parser leaves them -----

  /** Body g and those of smaller rank. */
  function Reach(rank: seq<nat>, g: nat): set<nat> {
    set h: nat | h < |rank| && (h == g || (g < |rank| && rank[h] < rank[g]))
  }

  /** Slot n is bound by a declaration or a loop in the body. */
  predicate Binds(ss: Stmts, n: nat)
    decreases ss
  {
    ss.Cons? && (BindsAt(ss.hd, n) || Binds(ss.tl, n))
  }

  predicate BindsAt(s: Stmt, n: nat)
    decreases s
  {
    match s
    case SLocal(slots, _) => n in slots
    case STake(slots, _, _) => n in slots
    case SDo(b) => Binds(b, n)
    case SIf(_, thn, els) => Binds(thn, n) || Binds(els, n)
    case SWhile(_, b) => Binds(b, n)
    case SFor(slot, _, _, _, b) => slot == n || Binds(b, n)
    case _ => false
  }

  /** mark_reassigned_visit: slot n is a target of an assignment in the body. */
  predicate Assigned(ss: Stmts, n: nat)
    decreases ss
  {
    ss.Cons? && (AssignedAt(ss.hd, n) || Assigned(ss.tl, n))
  }

  predicate AssignedAt(s: Stmt, n: nat)
    decreases s
  {
    match s
    case SAssign(slots, _) => n in slots
    case SDo(b) => Assigned(b, n)
    case SIf(_, thn, els) => Assigned(thn, n) || Assigned(els, n)
    case SWhile(_, b) => Assigned(b, n)
    case SFor(_, _, _, _, b) => Assigned(b, n)
    case _ => false
  }

  predicate Pinned(fn: Fn, i: nat) { i in fn.captured || Assigned(fn.body, i) }

  ghost predicate WellFn(p: Prog, rank: seq<nat>, g: nat)
    requires g < |p|
  {
    && Scoped(p[g]) && CallsIn(p, Reach(rank, g), p[g].body)
    && forall i | 0 <= i < p[g].params :: !Binds(p[g].body, i)
  }

  /** The main chunk is the last row and has no parameters. */
  ghost predicate WellFormed(p: Prog, rank: seq<nat>) {
    && |p| > 0 && |rank| == |p| && p[|p| - 1].params == 0
    && forall g: nat | g < |p| :: WellFn(p, rank, g)
  }

  /** Row g's function in the parser's tables, where the chunk is first. */
  function Num(p: Prog, g: nat): nat { if g + 1 == |p| then 0 else g + 1 }

  /** direct_call_target: a body calls directly itself, and the functions bound to its own
      locals. */
  ghost function Targets(p: Prog, q: Bindings.Prog, g: nat): set<nat>
    requires Bindings.ProgOk(q)
  {
    set h: nat | h < |p| && (h == g || BoundTo(p, q, g, h))
  }

  ghost predicate BoundTo(p: Prog, q: Bindings.Prog, g: nat, h: nat)
    requires Bindings.ProgOk(q)
  {
    exists x :: x in Bindings.Stable(q) && x.0 == Num(p, g) && Bindings.Stable(q)[x] == Num(p, h)
  }

  /** A program with the tables it was parsed into. */
  ghost predicate Parsed(p: Prog, q: Bindings.Prog) {
    && |p| > 0 && |q.fns| == |p| && p[|p| - 1].params == 0 && Bindings.ProgOk(q) && Bindings.SlotsOnce(q)
    && forall g: nat | g < |p| :: ParsedFn(p, q, g)
  }

  ghost predicate ParsedFn(p: Prog, q: Bindings.Prog, g: nat)
    requires g < |p| == |q.fns| && Bindings.ProgOk(q)
  {
    && Scoped(p[g]) && q.fns[Num(p, g)].params == p[g].params && CallsIn(p, Targets(p, q, g), p[g].body)
    && forall i | 0 <= i < p[g].params :: !Binds(p[g].body, i)
  }

  /** Direct calls go inwards: the later a function was opened, the smaller its rank. */
  lemma {:induction false} Ranked(p: Prog, q: Bindings.Prog) returns (rank: seq<nat>)
    requires Parsed(p, q)
    ensures WellFormed(p, rank)
  {
    rank := seq(|p|, g requires 0 <= g < |p| => |p| - Num(p, g));
    Bindings.StableOk(q);
    forall g: nat | g < |p| ensures WellFn(p, rank, g) {
      assert ParsedFn(p, q, g);
      forall h | h in Targets(p, q, g) ensures h in Reach(rank, g) {
        if h != g {
          var x :| x in Bindings.Stable(q) && x.0 == Num(p, g) && Bindings.Stable(q)[x] == Num(p, h);
          assert Num(p, g) < Num(p, h);
        }
      }
      CallsInGrow(p, Targets(p, q, g), Reach(rank, g), p[g].body);
    }
  }

  // ----- how far parameter types have descended -----

  function Height(ty: Ty): nat { match ty case TUnset => 2 case TAny => 0 case _ => 1 }

  function RowHeight(ts: seq<Ty>): nat { if ts == [] then 0 else RowHeight(ts[..|ts| - 1]) + Height(ts[|ts| - 1]) }

  function SumHeight(sg: Sigs): nat {
    if sg == [] then 0 else SumHeight(sg[..|sg| - 1]) + RowHeight(sg[|sg| - 1].params)
  }

  lemma {:induction false} RowLowers(ts: seq<Ty>, i: nat, ty: Ty)
    requires i < |ts| && Height(ty) < Height(ts[i])
    ensures RowHeight(ts[i := ty]) < RowHeight(ts)
    decreases |ts|
  {
    var n := |ts| - 1;
    if i < n {
      RowLowers(ts[..n], i, ty);
      assert ts[i := ty][..n] == ts[..n][i := ty];
    } else {
      assert ts[i := ty][..n] == ts[..n];
    }
  }

  lemma {:induction false} SumLowers(sg: Sigs, g: nat, row: Sig)
    requires g < |sg| && RowHeight(row.params) < RowHeight(sg[g].params)
    ensures SumHeight(sg[g := row]) < SumHeight(sg)
    decreases |sg|
  {
    var n := |sg| - 1;
    if g < n {
      SumLowers(sg[..n], g, row);
      assert sg[g := row][..n] == sg[..n][g := row];
    } else {
      assert sg[g := row][..n] == sg[..n];
    }
  }

  /** Return types do not count. */
  lemma {:induction false} SumSame(sg: Sigs, sh: Sigs)
    requires |sg| == |sh| && forall g | 0 <= g < |sg| :: sg[g].params == sh[g].params
    ensures SumHeight(sg) == SumHeight(sh)
    decreases |sg|
  {
    if sg != [] { SumSame(sg[..|sg| - 1], sh[..|sg| - 1]); }
  }

  predicate RowNarrowed(a: Sig, b: Sig) {
    && |a.params| == |b.params|
    && forall i | 0 <= i < |a.params| ::
         (a.params[i].TAny? ==> b.params[i].TAny?) && (!a.params[i].TUnset? ==> !b.params[i].TUnset?)
  }

  /** From a to b only parameters changed, and if any did, their sum went down. */
  ghost predicate Narrowed(a: Sigs, b: Sigs) {
    && |a| == |b| && (a == b || SumHeight(b) < SumHeight(a))
    && forall g | 0 <= g < |a| :: b[g].ret == a[g].ret && RowNarrowed(a[g], b[g])
  }

  lemma {:induction false} NarrowedTrans(a: Sigs, b: Sigs, c: Sigs)
    requires Narrowed(a, b) && Narrowed(b, c)
    ensures Narrowed(a, c) && (a == c ==> a == b)
  {
    forall g | 0 <= g < |a| ensures RowNarrowed(a[g], c[g]) {
      assert RowNarrowed(a[g], b[g]) && RowNarrowed(b[g], c[g]);
    }
  }

  lemma {:induction false} MeetLowers(sg: Sigs, g: nat, i: nat, ty: Ty)
    requires g < |sg| && i < |sg[g].params| && !ty.TUnset? && !sg[g].params[i].TAny?
    ensures var row := sg[g].(params := sg[g].params[i := Meet(sg[g].params[i], ty)]);
            Narrowed(sg, sg[g := row]) && !row.params[i].TUnset?
  {
    var was := sg[g].params;
    var row := sg[g].(params := was[i := Meet(was[i], ty)]);
    if row.params[i] == was[i] {
      assert row.params == was && sg[g := row] == sg;
    } else {
      RowLowers(was, i, row.params[i]);
      SumLowers(sg, g, row);
    }
  }

  // ----- direct-call sites seen so far -----

  lemma {:induction false} CallsGrow(p: Prog, D: set<nat>, E: set<nat>, e: Expr)
    requires D <= E && Calls(p, D, e)
    ensures Calls(p, E, e)
    decreases e
  {
    match e
    case Bin(_, l, r) =>
      CallsGrow(p, D, E, l);
      CallsGrow(p, D, E, r);
    case Neg(x) => CallsGrow(p, D, E, x);
    case Direct(_, args) => CallsAllGrow(p, D, E, args);
    case Call(c, args) =>
      CallsGrow(p, D, E, c);
      CallsAllGrow(p, D, E, args);
    case Other(_, args) => CallsAllGrow(p, D, E, args);
    case _ =>
  }

  lemma {:induction false} CallsAllGrow(p: Prog, D: set<nat>, E: set<nat>, es: Exprs)
    requires D <= E && CallsAll(p, D, es)
    ensures CallsAll(p, E, es)
    decreases es
  {
    if es.ECons? {
      CallsGrow(p, D, E, es.e);
      CallsAllGrow(p, D, E, es.es);
    }
  }

  lemma {:induction false} CallsInGrow(p: Prog, D: set<nat>, E: set<nat>, ss: Stmts)
    requires D <= E && CallsIn(p, D, ss)
    ensures CallsIn(p, E, ss)
    decreases ss
  {
    if ss.Cons? {
      CallsAtGrow(p, D, E, ss.hd);
      CallsInGrow(p, D, E, ss.tl);
    }
  }

  lemma {:induction false} CallsAtGrow(p: Prog, D: set<nat>, E: set<nat>, s: Stmt)
    requires D <= E && CallsAt(p, D, s)
    ensures CallsAt(p, E, s)
    decreases s
  {
    match s
    case SLocal(_, es) => CallsAllGrow(p, D, E, es);
    case SAssign(_, es) => CallsAllGrow(p, D, E, es);
    case STake(_, _, es) => CallsAllGrow(p, D, E, es);
    case SDo(b) => CallsInGrow(p, D, E, b);
    case SIf(c, thn, els) =>
      CallsGrow(p, D, E, c);
      CallsInGrow(p, D, E, thn);
      CallsInGrow(p, D, E, els);
    case SWhile(c, b) =>
      CallsGrow(p, D, E, c);
      CallsInGrow(p, D, E, b);
    case SFor(_, a, z, d, b) =>
      CallsGrow(p, D, E, a);
      CallsGrow(p, D, E, z);
      CallsGrow(p, D, E, d);
      CallsInGrow(p, D, E, b);
    case SReturn(es) => CallsAllGrow(p, D, E, es);
    case SBreak =>
    case SCall(e) => CallsGrow(p, D, E, e);
  }

  /** A row of the table; a reassigned or captured parameter is never typed. */
  predicate RowShape(fn: Fn, row: Sig) {
    |row.params| == fn.params && forall i | 0 <= i < fn.params && Pinned(fn, i) :: row.params[i] == TAny
  }

  // ----- what one step, and one round, does to return types -----

  /** What infer_step_body finds for row g: a context in which every call is settled,
      and the return type. */
  ghost predicate RowFound(p: Prog, a: Sigs, g: nat, r: Ty, cx: Ctx)
    requires g < |p| == |a|
  {
    && IsCtx(a, p[g], a[g].params, true, cx) && SettledIn(p, a, cx, p[g].body)
    && if g == |p| - 1 then r == a[g].ret else ComputeRet(a, cx, p[g].body) == r
  }

  ghost predicate RowOk(p: Prog, a: Sigs, g: nat)
    requires g < |p| == |a|
  {
    exists cx :: RowFound(p, a, g, a[g].ret, cx)
  }

  /** From a to b row g was stepped: unless parameters fell, only its return type changed. */
  ghost predicate Stepped(p: Prog, a: Sigs, b: Sigs, g: nat)
    requires g < |p| == |a| == |b|
  {
    && SumHeight(b) <= SumHeight(a)
    && (forall h | 0 <= h < |p| :: (h != g ==> b[h].ret == a[h].ret) && RowNarrowed(a[h], b[h]))
    && (SumHeight(b) == SumHeight(a) ==> b == At(a, g, b[g].ret) && exists cx :: RowFound(p, a, g, b[g].ret, cx))
  }

  ghost predicate Stable(p: Prog, sg: Sigs, g: nat)
    requires g < |p| == |sg|
  {
    forall q | Finds(sg, p[g], sg[g].params, q) :: q == sg[g].ret
  }

  /** Return types of functions of rank below k are settled. */
  ghost predicate Lower(p: Prog, rank: seq<nat>, sg: Sigs, k: nat)
    requires |p| == |sg| == |rank|
  {
    forall g: nat | g < |p| - 1 && rank[g] < k :: Stable(p, sg, g)
  }

  /** Those of rank k have been found once since. */
  ghost predicate Half(p: Prog, rank: seq<nat>, sg: Sigs, k: nat)
    requires |p| == |sg| == |rank|
  {
    forall g: nat | g < |p| - 1 && rank[g] == k :: exists r :: Finds(At(sg, g, r), p[g], sg[g].params, sg[g].ret)
  }

  /** Rows below i have been stepped once from s0, and no parameter fell. */
  ghost predicate RoundAt(p: Prog, rank: seq<nat>, s0: Sigs, s: Sigs, k: nat, i: nat)
    requires |p| == |s0| == |rank|
  {
    && |s| == |s0|
    && (forall g: nat | g < |p| :: s[g].params == s0[g].params)
    && (forall g: nat | g < |p| && (rank[g] < k || g == |p| - 1 || g >= i) :: s[g].ret == s0[g].ret)
    && (forall g: nat | g < i && g < |p| - 1 && rank[g] == k :: Finds(s0, p[g], s0[g].params, s[g].ret))
  }

  lemma {:induction false} StepEnds(p: Prog, s0: Sigs, s1: Sigs, s2: Sigs, g: nat, r: Ty, cx: Ctx)
    requires g < |p| == |s0| == |s1| && Narrowed(s0, s1) && s2 == At(s1, g, r)
    requires s1 == s0 ==> RowFound(p, s0, g, r, cx)
    ensures Stepped(p, s0, s2, g) && (s2 == s0 ==> s1 == s0)
  {
    SumSame(s1, s2);
    forall h | 0 <= h < |p| ensures (h != g ==> s2[h].ret == s0[h].ret) && RowNarrowed(s0[h], s2[h]) {
      assert RowNarrowed(s0[h], s1[h]);
    }
  }

  lemma {:induction false} RoundStep(p: Prog, rank: seq<nat>, s0: Sigs, s: Sigs, s': Sigs, k: nat, i: nat)
    requires WellFormed(p, rank) && |p| == |s0| == |s'| && i < |p|
    requires Lower(p, rank, s0, k) && RoundAt(p, rank, s0, s, k, i)
    requires Stepped(p, s, s', i) && SumHeight(s') == SumHeight(s)
    ensures RoundAt(p, rank, s0, s', k, i + 1)
  {
    var r := s'[i].ret;
    var cx :| RowFound(p, s, i, r, cx);
    if i < |p| - 1 && rank[i] <= k {
      assert WellFn(p, rank, i);
      assert Finds(s, p[i], s[i].params, r);
      FindsLocal(p, Reach(rank, i), s, s0, p[i], s[i].params, r);
      if rank[i] < k { assert Stable(p, s0, i); }
    }
  }

  lemma {:induction false} RoundKeeps(p: Prog, rank: seq<nat>, s0: Sigs, s: Sigs, k: nat)
    requires WellFormed(p, rank) && |p| == |s0| && Lower(p, rank, s0, k) && RoundAt(p, rank, s0, s, k, |p|)
    ensures Lower(p, rank, s, k)
  {
    forall g: nat | g < |p| - 1 && rank[g] < k ensures Stable(p, s, g) {
      assert WellFn(p, rank, g) && Stable(p, s0, g);
      forall q | Finds(s, p[g], s[g].params, q) ensures q == s[g].ret {
        FindsLocal(p, Reach(rank, g), s, s0, p[g], s[g].params, q);
      }
    }
  }

  lemma {:induction false} RoundFirst(p: Prog, rank: seq<nat>, s0: Sigs, s: Sigs, k: nat)
    requires WellFormed(p, rank) && |p| == |s0| && Lower(p, rank, s0, k) && RoundAt(p, rank, s0, s, k, |p|)
    ensures Half(p, rank, s, k)
  {
    forall g: nat | g < |p| - 1 && rank[g] == k ensures exists r :: Finds(At(s, g, r), p[g], s[g].params, s[g].ret) {
      assert WellFn(p, rank, g);
      FindsLocal(p, Reach(rank, g), s0, At(s, g, s0[g].ret), p[g], s[g].params, s[g].ret);
    }
  }

  lemma {:induction false} RoundSecond(p: Prog, rank: seq<nat>, s0: Sigs, s: Sigs, k: nat)
    requires WellFormed(p, rank) && |p| == |s0| && Lower(p, rank, s0, k) && Half(p, rank, s0, k)
      && RoundAt(p, rank, s0, s, k, |p|)
    ensures Lower(p, rank, s, k + 1)
  {
    RoundKeeps(p, rank, s0, s, k);
    forall g: nat | g < |p| - 1 && rank[g] == k ensures Stable(p, s, g) {
      assert WellFn(p, rank, g);
      var r1 :| Finds(At(s0, g, r1), p[g], s0[g].params, s0[g].ret);
      assert At(s0, g, s0[g].ret) == s0;
      forall q | Finds(s, p[g], s[g].params, q) ensures q == s[g].ret {
        FindsLocal(p, Reach(rank, g), s, At(s0, g, s[g].ret), p[g], s[g].params, q);
        TwoSteps(p, Reach(rank, g), s0, g, p[g], s[g].params, r1, s0[g].ret, s[g].ret, q);
      }
    }
  }

  // ----- what inference ends on -----

  lemma {:induction false} Closes(sg: Sigs, cx: Ctx, ss: Stmts)
    requires Respects(sg, TInt, {}, cx.ints, ss) && Respects(sg, TFloat, cx.ints, cx.flts, ss) && cx.ints !! cx.flts
    ensures Closed(sg, cx, ss)
    decreases ss
  {
    if ss.Cons? {
      ClosesAt(sg, cx, ss.hd);
      Closes(sg, cx, ss.tl);
    }
  }

  lemma {:induction false} ClosesAt(sg: Sigs, cx: Ctx, s: Stmt)
    requires RespectsAt(sg, TInt, {}, cx.ints, s) && RespectsAt(sg, TFloat, cx.ints, cx.flts, s) && cx.ints !! cx.flts
    ensures ClosedAt(sg, cx, s)
    decreases s
  {
    var ci := Ctx(cx.ints, {});
    if s.SLocal? || s.SAssign? {
      forall j | 0 <= j < |s.slots| && SlotTy(cx, s.slots[j]) != TAny
        ensures (s.SLocal? || |s.slots| == 1) && Count(s.es) == |s.slots|
        ensures if SlotTy(cx, s.slots[j]).TInt? then IsInt(sg, cx, Nth(s.es, j)) else IsFlt(sg, cx, Nth(s.es, j))
      {
        if s.slots[j] in cx.ints {
          assert Keeps(sg, CtxFor(TInt, {}, cx.ints), TInt, s, j);
          Grows(sg, ci, cx, Nth(s.es, j));
        } else {
          assert Keeps(sg, CtxFor(TFloat, cx.ints, cx.flts), TFloat, s, j);
        }
      }
    } else {
      match s
      case SDo(b) => Closes(sg, cx, b);
      case SIf(_, thn, els) =>
        Closes(sg, cx, thn);
        Closes(sg, cx, els);
      case SWhile(_, b) => Closes(sg, cx, b);
      case SFor(_, start, _, step, b) =>
        Grows(sg, ci, cx, start);
        Grows(sg, ci, cx, step);
        Closes(sg, cx, b);
      case _ =>
    }
  }

  /** sg and sh say the same about the functions in D. */
  ghost predicate Agree(sg: Sigs, sh: Sigs, D: set<nat>) {
    |sg| == |sh| && forall g | g in D && g < |sg| :: sg[g] == sh[g]
  }

  lemma {:induction false} SameTy(p: Prog, D: set<nat>, sg: Sigs, sh: Sigs, cx: Ctx, e: Expr)
    requires Agree(sg, sh, D) && Calls(p, D, e)
    ensures NumTy(sh, cx, e) == NumTy(sg, cx, e)
  {
    MoreTypes(p, D, sg, sh, cx, cx, e);
    MoreTypes(p, D, sh, sg, cx, cx, e);
  }

  lemma {:induction false} SettledSame(p: Prog, D: set<nat>, sg: Sigs, sh: Sigs, cx: Ctx, e: Expr)
    requires Agree(sg, sh, D) && Calls(p, D, e) && Settled(p, sg, cx, e)
    ensures Settled(p, sh, cx, e)
    decreases e
  {
    match e
    case Bin(_, l, r) =>
      SettledSame(p, D, sg, sh, cx, l);
      SettledSame(p, D, sg, sh, cx, r);
    case Neg(x) => SettledSame(p, D, sg, sh, cx, x);
    case Direct(g, args) =>
      SettledArgsSame(p, D, sg, sh, cx, g, 0, args);
      SettledAllSame(p, D, sg, sh, cx, args);
    case Call(c, args) =>
      SettledSame(p, D, sg, sh, cx, c);
      SettledAllSame(p, D, sg, sh, cx, args);
    case Other(_, args) => SettledAllSame(p, D, sg, sh, cx, args);
    case _ =>
  }

  lemma {:induction false} SettledArgsSame(p: Prog, D: set<nat>, sg: Sigs, sh: Sigs, cx: Ctx, g: nat, i: nat,
      args: Exprs)
    requires Agree(sg, sh, D) && g in D && CallsAll(p, D, args) && SettledArgs(sg, cx, g, i, args)
    ensures SettledArgs(sh, cx, g, i, args)
    decreases args
  {
    if args.ECons? {
      SameTy(p, D, sg, sh, cx, args.e);
      SettledArgsSame(p, D, sg, sh, cx, g, i + 1, args.es);
    }
  }

  lemma {:induction false} SettledAllSame(p: Prog, D: set<nat>, sg: Sigs, sh: Sigs, cx: Ctx, es: Exprs)
    requires Agree(sg, sh, D) && CallsAll(p, D, es) && SettledAll(p, sg, cx, es)
    ensures SettledAll(p, sh, cx, es)
    decreases es
  {
    if es.ECons? {
      SettledSame(p, D, sg, sh, cx, es.e);
      SettledAllSame(p, D, sg, sh, cx, es.es);
    }
  }

  lemma {:induction false} SettledInSame(p: Prog, D: set<nat>, sg: Sigs, sh: Sigs, cx: Ctx, ss: Stmts)
    requires Agree(sg, sh, D) && CallsIn(p, D, ss) && SettledIn(p, sg, cx, ss)
    ensures SettledIn(p, sh, cx, ss)
    decreases ss
  {
    if ss.Cons? {
      SettledAtSame(p, D, sg, sh, cx, ss.hd);
      SettledInSame(p, D, sg, sh, cx, ss.tl);
    }
  }

  lemma {:induction false} SettledAtSame(p: Prog, D: set<nat>, sg: Sigs, sh: Sigs, cx: Ctx, s: Stmt)
    requires Agree(sg, sh, D) && CallsAt(p, D, s) && SettledAt(p, sg, cx, s)
    ensures SettledAt(p, sh, cx, s)
    decreases s
  {
    match s
    case SLocal(_, es) => SettledAllSame(p, D, sg, sh, cx, es);
    case SAssign(_, es) => SettledAllSame(p, D, sg, sh, cx, es);
    case STake(_, _, es) => SettledAllSame(p, D, sg, sh, cx, es);
    case SDo(b) => SettledInSame(p, D, sg, sh, cx, b);
    case SIf(c, thn, els) =>
      SettledSame(p, D, sg, sh, cx, c);
      SettledInSame(p, D, sg, sh, cx, thn);
      SettledInSame(p, D, sg, sh, cx, els);
    case SWhile(c, b) =>
      SettledSame(p, D, sg, sh, cx, c);
      SettledInSame(p, D, sg, sh, cx, b);
    case SFor(_, a, z, d, b) =>
      SettledSame(p, D, sg, sh, cx, a);
      SettledSame(p, D, sg, sh, cx, z);
      SettledSame(p, D, sg, sh, cx, d);
      SettledInSame(p, D, sg, sh, cx, b);
    case SReturn(es) => SettledAllSame(p, D, sg, sh, cx, es);
    case SBreak =>
    case SCall(e) => SettledSame(p, D, sg, sh, cx, e);
  }

  /** The last step: no parameter stays undetermined, and a function without a direct
      call is boxed. */
  function FinalRow(row: Sig, site: bool): Sig {
    Sig(seq(|row.params|, i requires 0 <= i < |row.params| =>
          if site && !row.params[i].TUnset? then row.params[i] else TAny),
        if site then row.ret else TAny)
  }

  function Finalized(sg: Sigs, sited: set<nat>): Sigs {
    seq(|sg|, g requires 0 <= g < |sg| => FinalRow(sg[g], g in sited))
  }

  lemma {:induction false} FinalAgrees(sg: Sigs, sited: set<nat>)
    requires forall g | g in sited && g < |sg| :: TUnset !in sg[g].params
    ensures Agree(sg, Finalized(sg, sited), sited)
  {
    var sh := Finalized(sg, sited);
    forall g | g in sited && g < |sg| ensures sg[g] == sh[g] {
      assert sh[g].params == sg[g].params;
    }
  }

  /** The emitted tables: every body with boxed and with typed parameters. */
  ghost predicate Emitted(p: Prog, t: Tables) {
    && |t.boxed| == |t.typed| == |t.sg| == |p|
    && forall g: nat | g < |p| ::
         IsCtx(t.sg, p[g], t.sg[g].params, false, t.boxed[g]) && IsCtx(t.sg, p[g], t.sg[g].params, true, t.typed[g])
  }

  lemma {:induction false} FinalGood(p: Prog, rank: seq<nat>, sg: Sigs, sited: set<nat>, t: Tables, g: nat)
    requires WellFormed(p, rank) && |sg| == |p| && t.sg == Finalized(sg, sited) && Emitted(p, t) && g < |p|
    requires RowShape(p[g], sg[g]) && RowOk(p, sg, g) && CallsIn(p, sited, p[g].body)
      && (g == |p| - 1 ==> sg[g].ret == TAny)
    requires forall h | h in sited && h < |sg| :: TUnset !in sg[h].params
    ensures GoodFn(p, t, g)
  {
    var fn, cx, cy, sh := p[g], t.boxed[g], t.typed[g], t.sg;
    assert WellFn(p, rank, g);
    FinalAgrees(sg, sited);
    var cz :| RowFound(p, sg, g, sg[g].ret, cz);
    var row := sg[g].params;
    SameCtx(p, sited, sg, sh, fn, row, true, cz);
    CtxDisjoint(sh, fn, row, true, cz);
    SettledInSame(p, sited, sg, sh, cz, fn.body);
    assert IsCtx(sh, fn, row, false, cx);
    CtxGrows(p, sited, sh, sh, fn, row, false, true, cx, cz);
    if g in sited {
      assert sh[g] == sg[g];
      CtxUnique(sh, fn, row, true, cy, cz);
    } else {
      assert CandInt(fn, sh[g].params, true) == CandInt(fn, row, false);
      assert CandFlt(fn, sh[g].params, true, cy.ints) == CandFlt(fn, row, false, cy.ints);
      assert IsCtx(sh, fn, row, false, cy);
      CtxGrows(p, sited, sh, sh, fn, row, false, true, cy, cz);
    }
    assert SettledAbove(p, sh, cx, cy, fn.body, cz);
    Closes(sh, cx, fn.body);
    Closes(sh, cy, fn.body);
    if Numeric(sh[g].ret) {
      RetGrows(p, sited, sg, sh, cz, cz, fn.body);
      RetNumeric(sh, cy, sh[g].ret, fn.body);
    }
  }

  /** Body h has a direct call of g: whatever set of functions covers its calls has g. */
  ghost predicate Reaches(p: Prog, h: nat, g: nat)
    requires h < |p|
  {
    forall D: set<nat> | CallsIn(p, D, p[h].body) :: g in D
  }

  /** A function with a site whose returns all have one numeric type is given it. */
  lemma {:induction false} FinalRet(p: Prog, sg: Sigs, sited: set<nat>, t: Tables, g: nat, ty: Ty)
    requires |sg| == |p| && t.sg == Finalized(sg, sited) && Emitted(p, t) && g < |p| - 1 && g in sited
    requires RowOk(p, sg, g) && CallsIn(p, sited, p[g].body)
    requires forall h | h in sited && h < |sg| :: TUnset !in sg[h].params
    requires Numeric(ty) && AlwaysReturns(p[g].body) && Returns(t.sg, t.typed[g], ty, p[g].body)
    ensures t.sg[g].ret == ty
  {
    var fn, sh := p[g], t.sg;
    FinalAgrees(sg, sited);
    assert sh[g] == sg[g];
    var cz :| RowFound(p, sg, g, sg[g].ret, cz);
    SameCtx(p, sited, sg, sh, fn, sg[g].params, true, cz);
    CtxUnique(sh, fn, sg[g].params, true, t.typed[g], cz);
    RetNumeric(sh, cz, ty, fn.body);
    CtxDisjoint(sh, fn, sg[g].params, true, cz);
    RetGrows(p, sited, sh, sg, cz, cz, fn.body);
  }

  // ----- typed parameters are unboxed slots -----

  lemma {:induction false} RespectsMore(sg: Sigs, ty: Ty, ints: set<nat>, live: set<nat>, i: nat, ss: Stmts)
    requires Respects(sg, ty, ints, live, ss) && !Binds(ss, i) && !Assigned(ss, i)
    ensures Respects(sg, ty, ints, live + {i}, ss)
    decreases ss
  {
    if ss.Cons? {
      RespectsMoreAt(sg, ty, ints, live, i, ss.hd);
      RespectsMore(sg, ty, ints, live, i, ss.tl);
    }
  }

  lemma {:induction false} RespectsMoreAt(sg: Sigs, ty: Ty, ints: set<nat>, live: set<nat>, i: nat, s: Stmt)
    requires RespectsAt(sg, ty, ints, live, s) && !BindsAt(s, i) && !AssignedAt(s, i)
    ensures RespectsAt(sg, ty, ints, live + {i}, s)
    decreases s
  {
    var more := live + {i};
    if s.SLocal? || s.SAssign? {
      forall j | 0 <= j < |s.slots| && s.slots[j] in more ensures Keeps(sg, CtxFor(ty, ints, more), ty, s, j) {
        assert s.slots[j] in s.slots;
        assert Keeps(sg, CtxFor(ty, ints, live), ty, s, j);
        HasGrows(sg, ty, ints, live, more, Nth(s.es, j));
      }
    } else {
      match s
      case SDo(b) => RespectsMore(sg, ty, ints, live, i, b);
      case SIf(_, thn, els) =>
        RespectsMore(sg, ty, ints, live, i, thn);
        RespectsMore(sg, ty, ints, live, i, els);
      case SWhile(_, b) => RespectsMore(sg, ty, ints, live, i, b);
      case SFor(_, start, _, step, b) =>
        if ty.TInt? {
          HasGrows(sg, ty, ints, live, more, start);
          HasGrows(sg, ty, ints, live, more, step);
        }
        RespectsMore(sg, ty, ints, live, i, b);
      case _ =>
    }
  }

  /** A parameter the signature passes raw is an unboxed slot of that type throughout
      the body, so no other pass of the body re-types it. */
  lemma {:induction false} ParamStays(sg: Sigs, fn: Fn, params: seq<Ty>, cx: Ctx, i: nat)
    requires IsCtx(sg, fn, params, true, cx) && RowShape(fn, Sig(params, TAny)) && i < fn.params && !Binds(fn.body, i)
    ensures SlotTy(cx, i) == (if params[i].TUnset? then TInt else params[i])
  {
    if params[i].TInt? || params[i].TUnset? {
      RespectsMore(sg, TInt, {}, cx.ints, i, fn.body);
    } else if params[i].TFloat? {
      RespectsMore(sg, TFloat, cx.ints, cx.flts, i, fn.body);
    }
  }

  // ----- rounds -----

  /** The slot sets of one body: compute_int_slots, then compute_float_slots. */
  method SlotsOf(sg: Sigs, fn: Fn, params: seq<Ty>, typed: bool) returns (cx: Ctx)
    ensures IsCtx(sg, fn, params, typed, cx)
  {
    var n := fn.params + fn.locals;
    var ints := new bool[n];
    var i := 0;
    while i < n
      invariant 0 <= i <= n
      invariant forall j | 0 <= j < i :: ints[j] == (j in CandInt(fn, params, typed))
    {
      ints[i] := i !in fn.captured && (i >= fn.params
        || (typed && i < |params| && (params[i].TInt? || params[i].TUnset?)));
      i := i + 1;
    }
    assert LiveOf(ints[..]) == CandInt(fn, params, typed);
    var pass := new SlotPass(sg, TInt, {}, ints);
    var passes := pass.Settle(fn.body);
    var got := LiveOf(ints[..]);
    var flts := new bool[n];
    i := 0;
    while i < n
      invariant 0 <= i <= n
      invariant forall j | 0 <= j < i :: flts[j] == (j in CandFlt(fn, params, typed, got))
    {
      flts[i] := i !in fn.captured && i !in got && (i >= fn.params || (typed && i < |params| && params[i].TFloat?));
      i := i + 1;
    }
    assert LiveOf(flts[..]) == CandFlt(fn, params, typed, got);
    var pass' := new SlotPass(sg, TFloat, got, flts);
    passes := pass'.Settle(fn.body);
    cx := Ctx(got, LiveOf(flts[..]));
  }

  class Inferrer {
    const p: Prog
    ghost const rank: seq<nat>
    var sg: Sigs
    var sited: set<nat>
    var changed: bool

    ghost predicate Shape()
      reads this
    {
      && WellFormed(p, rank) && |sg| == |p| && sg[|p| - 1].ret == TAny
      && forall g | 0 <= g < |p| :: RowShape(p[g], sg[g])
    }

    /** Every function with a site has had each parameter narrowed. */
    ghost predicate SitedSet()
      reads this
    {
      forall g | g in sited && g < |sg| :: TUnset !in sg[g].params
    }

    /** One argument of infer_sites_visit. */
    method NarrowParam(cx: Ctx, g: nat, i: nat, e: Expr)
      requires Shape() && g < |p| && i < p[g].params
      modifies this`sg, this`changed
      ensures Shape() && Narrowed(old(sg), sg) && changed == (old(changed) || sg != old(sg))
        && sg[g].params[i] != TUnset
      ensures sg == old(sg) ==> sg[g].params[i] == TAny || Meet(sg[g].params[i], NumTy(sg, cx, e)) == sg[g].params[i]
      ensures sg[g].params[i] == Meet(old(sg)[g].params[i], NumTy(old(sg), cx, e))
      ensures forall h, j | 0 <= h < |sg| && 0 <= j < |sg[h].params| && (h != g || j != i) ::
                sg[h].params[j] == old(sg)[h].params[j]
    {
      var was := sg[g].params[i];
      if was.TAny? { return; }
      var nw := Meet(was, NumTy(sg, cx, e));
      if nw != was {
        MeetLowers(sg, g, i, NumTy(sg, cx, e));
        sg := sg[g := sg[g].(params := sg[g].params[i := nw])];
        changed := true;
      }
    }

    method NarrowAll(cx: Ctx, g: nat, i: nat, args: Exprs)
      requires Shape() && g < |p| && i + Count(args) == p[g].params
      requires forall j | 0 <= j < i :: sg[g].params[j] != TUnset
      modifies this`sg, this`changed
      ensures Shape() && Narrowed(old(sg), sg) && changed == (old(changed) || sg != old(sg)) && TUnset !in sg[g].params
      ensures sg == old(sg) ==> SettledArgs(sg, cx, g, i, args)
      decreases args
    {
      if args.ENil? { return; }
      ghost var s0 := sg;
      NarrowParam(cx, g, i, args.e);
      ghost var s1 := sg;
      assert RowNarrowed(s0[g], s1[g]);
      NarrowAll(cx, g, i + 1, args.es);
      NarrowedTrans(s0, s1, sg);
    }

    /** infer_sites_visit: subexpressions first, then the call itself. */
    method Site(cx: Ctx, e: Expr, ghost D: set<nat>)
      requires Shape() && SitedSet() && Calls(p, D, e)
      modifies this
      ensures Shape() && SitedSet() && Narrowed(old(sg), sg) && changed == (old(changed) || sg != old(sg))
      ensures old(sited) <= sited && Calls(p, sited, e)
      ensures sg == old(sg) ==> Settled(p, sg, cx, e)
      decreases e
    {
      ghost var s0 := sg;
      match e
      case Bin(_, l, r) =>
        Site(cx, l, D);
        ghost var s1, d1 := sg, sited;
        Site(cx, r, D);
        NarrowedTrans(s0, s1, sg);
        CallsGrow(p, d1, sited, l);
      case Neg(x) => Site(cx, x, D);
      case Direct(g, args) =>
        SiteAll(cx, args, D);
        ghost var s1, d1 := sg, sited;
        sited := sited + {g};
        NarrowAll(cx, g, 0, args);
        KeptSited(s1, d1, g);
        NarrowedTrans(s0, s1, sg);
        CallsAllGrow(p, d1, sited, args);
      case Call(c, args) =>
        Site(cx, c, D);
        ghost var s1, d1 := sg, sited;
        SiteAll(cx, args, D);
        NarrowedTrans(s0, s1, sg);
        CallsGrow(p, d1, sited, c);
      case Other(_, args) => SiteAll(cx, args, D);
      case _ =>
    }

    lemma {:induction false} KeptSited(s1: Sigs, d1: set<nat>, g: nat)
      requires Narrowed(s1, sg) && sited == d1 + {g} && g < |sg| && TUnset !in sg[g].params
      requires forall h | h in d1 && h < |s1| :: TUnset !in s1[h].params
      ensures SitedSet()
    {
      forall h | h in sited && h < |sg| ensures TUnset !in sg[h].params {
        if h != g {
          assert RowNarrowed(s1[h], sg[h]);
          forall i | 0 <= i < |sg[h].params| ensures sg[h].params[i] != TUnset {
            assert s1[h].params[i] in s1[h].params;
          }
        }
      }
    }

    method SiteAll(cx: Ctx, es: Exprs, ghost D: set<nat>)
      requires Shape() && SitedSet() && CallsAll(p, D, es)
      modifies this
      ensures Shape() && SitedSet() && Narrowed(old(sg), sg) && changed == (old(changed) || sg != old(sg))
      ensures old(sited) <= sited && CallsAll(p, sited, es)
      ensures sg == old(sg) ==> SettledAll(p, sg, cx, es)
      decreases es
    {
      if es.ENil? { return; }
      ghost var s0 := sg;
      Site(cx, es.e, D);
      ghost var s1, d1 := sg, sited;
      SiteAll(cx, es.es, D);
      NarrowedTrans(s0, s1, sg);
      CallsGrow(p, d1, sited, es.e);
    }

    /** infer_sites_block. */
    method SiteIn(cx: Ctx, ss: Stmts, ghost D: set<nat>)
      requires Shape() && SitedSet() && CallsIn(p, D, ss)
      modifies this
      ensures Shape() && SitedSet() && Narrowed(old(sg), sg) && changed == (old(changed) || sg != old(sg))
      ensures old(sited) <= sited && CallsIn(p, sited, ss)
      ensures sg == old(sg) ==> SettledIn(p, sg, cx, ss)
      decreases ss
    {
      if ss.Nil? { return; }
      ghost var s0 := sg;
      SiteAt(cx, ss.hd, D);
      ghost var s1, d1 := sg, sited;
      SiteIn(cx, ss.tl, D);
      NarrowedTrans(s0, s1, sg);
      CallsAtGrow(p, d1, sited, ss.hd);
    }

    method SiteAt(cx: Ctx, s: Stmt, ghost D: set<nat>)
      requires Shape() && SitedSet() && CallsAt(p, D, s)
      modifies this
      ensures Shape() && SitedSet() && Narrowed(old(sg), sg) && changed == (old(changed) || sg != old(sg))
      ensures old(sited) <= sited && CallsAt(p, sited, s)
      ensures sg == old(sg) ==> SettledAt(p, sg, cx, s)
      decreases s
    {
      ghost var s0 := sg;
      match s
      case SLocal(_, es) => SiteAll(cx, es, D);
      case SAssign(_, es) => SiteAll(cx, es, D);
      case STake(_, _, es) => SiteAll(cx, es, D);
      case SDo(b) => SiteIn(cx, b, D);
      case SIf(c, thn, els) =>
        Site(cx, c, D);
        ghost var s1, d1 := sg, sited;
        SiteIn(cx, thn, D);
        ghost var s2, d2 := sg, sited;
        SiteIn(cx, els, D);
        NarrowedTrans(s0, s1, s2);
        NarrowedTrans(s0, s2, sg);
        CallsGrow(p, d1, sited, c);
        CallsInGrow(p, d2, sited, thn);
      case SWhile(c, b) =>
        Site(cx, c, D);
        ghost var s1, d1 := sg, sited;
        SiteIn(cx, b, D);
        NarrowedTrans(s0, s1, sg);
        CallsGrow(p, d1, sited, c);
      case SFor(_, a, z, d, b) =>
        SiteFor(cx, a, z, d, D);
        ghost var s1, d1 := sg, sited;
        SiteIn(cx, b, D);
        NarrowedTrans(s0, s1, sg);
        CallsGrow(p, d1, sited, a);
        CallsGrow(p, d1, sited, z);
        CallsGrow(p, d1, sited, d);
      case SReturn(es) => SiteAll(cx, es, D);
      case SBreak =>
      case SCall(e) => Site(cx, e, D);
    }

    method SiteFor(cx: Ctx, a: Expr, z: Expr, d: Expr, ghost D: set<nat>)
      requires Shape() && SitedSet() && Calls(p, D, a) && Calls(p, D, z) && Calls(p, D, d)
      modifies this
      ensures Shape() && SitedSet() && Narrowed(old(sg), sg) && changed == (old(changed) || sg != old(sg))
      ensures old(sited) <= sited && Calls(p, sited, a) && Calls(p, sited, z) && Calls(p, sited, d)
      ensures sg == old(sg) ==> Settled(p, sg, cx, a) && Settled(p, sg, cx, z) && Settled(p, sg, cx, d)
    {
      ghost var s0 := sg;
      Site(cx, a, D);
      ghost var s1, d1 := sg, sited;
      Site(cx, z, D);
      ghost var s2, d2 := sg, sited;
      Site(cx, d, D);
      NarrowedTrans(s0, s1, s2);
      NarrowedTrans(s0, s2, sg);
      CallsGrow(p, d1, sited, a);
      CallsGrow(p, d2, sited, z);
    }

    /** infer_step_body. */
    method StepBody(g: nat)
      requires Shape() && SitedSet() && g < |p|
      modifies this
      ensures Shape() && SitedSet() && Stepped(p, old(sg), sg, g) && changed == (old(changed) || sg != old(sg))
      ensures old(sited) <= sited && CallsIn(p, sited, p[g].body)
    {
      ghost var s0 := sg;
      assert WellFn(p, rank, g);
      var fn := p[g];
      var cx := SlotsOf(sg, fn, sg[g].params, true);
      SiteIn(cx, fn.body, Reach(rank, g));
      ghost var s1 := sg;
      var r := if g == |p| - 1 then sg[g].ret else ComputeRet(sg, cx, fn.body);
      if r != sg[g].ret {
        sg := At(sg, g, r);
        changed := true;
      }
      StepEnds(p, s0, s1, sg, g, r, cx);
    }

    /** Everything a round has looked at so far is unchanged and settled. */
    ghost predicate Quiet(i: nat)
      requires i <= |p| == |sg|
      reads this
    {
      forall g: nat | g < i :: RowOk(p, sg, g)
    }

    ghost predicate Walked(i: nat)
      requires i <= |p|
      reads this
    {
      forall g: nat | g < i :: CallsIn(p, sited, p[g].body)
    }

    ghost predicate ManyRanks(bound: nat)
      requires |rank| == |p|
    {
      forall g | 0 <= g < |p| :: rank[g] <= bound
    }

    /** One round over all rows. While ranks below k are settled it changes no return
        type of theirs; when that is every rank it changes nothing. */
    method Round(ghost k: nat, ghost bound: nat)
      requires Shape() && SitedSet() && ManyRanks(bound) && Lower(p, rank, sg, k)
      modifies this
      ensures Shape() && SitedSet() && Walked(|p|) && (!changed ==> Quiet(|p|))
      ensures SumHeight(sg) <= SumHeight(old(sg))
      ensures SumHeight(sg) == SumHeight(old(sg)) ==> RoundAt(p, rank, old(sg), sg, k, |p|) && (k > bound ==> !changed)
    {
      changed := false;
      ghost var s0 := sg;
      var i := 0;
      while i < |p|
        invariant 0 <= i <= |p| && Shape() && SitedSet() && Walked(i) && (!changed ==> Quiet(i))
        invariant SumHeight(sg) <= SumHeight(s0)
        invariant SumHeight(sg) == SumHeight(s0) ==> RoundAt(p, rank, s0, sg, k, i) && (k > bound ==> !changed)
      {
        Turn(i, s0, k, bound);
        i := i + 1;
      }
    }

    method Turn(i: nat, ghost s0: Sigs, ghost k: nat, ghost bound: nat)
      requires Shape() && SitedSet() && ManyRanks(bound) && i < |p| == |s0| && Walked(i) && (!changed ==> Quiet(i))
      requires Lower(p, rank, s0, k) && SumHeight(sg) <= SumHeight(s0)
      requires SumHeight(sg) == SumHeight(s0) ==> RoundAt(p, rank, s0, sg, k, i) && (k > bound ==> !changed)
      modifies this
      ensures Shape() && SitedSet() && Walked(i + 1) && (!changed ==> Quiet(i + 1))
      ensures SumHeight(sg) <= SumHeight(s0)
      ensures SumHeight(sg) == SumHeight(s0) ==> RoundAt(p, rank, s0, sg, k, i + 1) && (k > bound ==> !changed)
    {
      ghost var s1, d1 := sg, sited;
      StepBody(i);
      forall g: nat | g < i ensures CallsIn(p, sited, p[g].body) { CallsInGrow(p, d1, sited, p[g].body); }
      if SumHeight(sg) == SumHeight(s0) {
        RoundStep(p, rank, s0, s1, sg, k, i);
        if k > bound { AllSettled(s0, s1, k, bound, i); }
      }
    }

    /** When every rank is settled, stepping a row changes nothing. */
    lemma {:induction false} AllSettled(s0: Sigs, s1: Sigs, k: nat, bound: nat, i: nat)
      requires Shape() && ManyRanks(bound) && k > bound && i < |p| == |s0| == |s1|
      requires RoundAt(p, rank, s0, s1, k, i) && RoundAt(p, rank, s0, sg, k, i + 1)
      ensures sg == s1
    {
      forall g: nat | g < |p| ensures sg[g] == s1[g] { assert rank[g] < k; }
    }

    /** The rounds of infer_signatures end, and on a state no body changes. */
    method Rounds(ghost bound: nat)
      requires Shape() && SitedSet() && ManyRanks(bound)
      modifies this
      ensures Shape() && SitedSet() && Walked(|p|) && Quiet(|p|)
    {
      changed := true;
      ghost var k, again := 0, false;
      while changed
        invariant Shape() && SitedSet() && k <= bound + 1 && (again ==> k <= bound)
        invariant Lower(p, rank, sg, k) && (again ==> Half(p, rank, sg, k))
        invariant !changed ==> Walked(|p|) && Quiet(|p|)
        decreases SumHeight(sg), 2 * (bound + 1 - k) - (if again then 1 else 0), changed
      {
        ghost var s0 := sg;
        Round(k, bound);
        if SumHeight(sg) < SumHeight(s0) {
          k, again := 0, false;
        } else {
          RoundKeeps(p, rank, s0, sg, k);
          if k <= bound && again {
            RoundSecond(p, rank, s0, sg, k);
            k, again := k + 1, false;
          } else if k <= bound {
            RoundFirst(p, rank, s0, sg, k);
            again := true;
          }
        }
      }
    }

    /** The start: parameters undetermined unless pinned, returns optimistically int. */
    constructor (p: Prog, ghost rank: seq<nat>)
      requires WellFormed(p, rank)
      ensures this.p == p && this.rank == rank && Shape() && SitedSet()
    {
      this.p, this.rank := p, rank;
      sg := seq(|p|, g requires 0 <= g < |p| =>
        Sig(seq(p[g].params, i requires 0 <= i < p[g].params => if Pinned(p[g], i) then TAny else TUnset),
            if g == |p| - 1 then TAny else TInt));
      sited, changed := {}, true;
    }

    method Finalize()
      requires Shape()
      modifies this`sg
      ensures Shape() && sg == Finalized(old(sg), sited)
    {
      ghost var was := sg;
      var i := 0;
      while i < |p|
        invariant 0 <= i <= |p| == |sg| == |was|
        invariant forall g | 0 <= g < |p| :: sg[g] == if g < i then FinalRow(was[g], g in sited) else was[g]
      {
        sg := sg[i := FinalRow(sg[i], i in sited)];
        i := i + 1;
      }
    }

    /** emit_user_function's two slot analyses of every body. */
    method Emit() returns (t: Tables)
      requires Shape()
      ensures t.sg == sg && Emitted(p, t)
    {
      var boxed, typed := [], [];
      var i := 0;
      while i < |p|
        invariant 0 <= i <= |p| && |boxed| == |typed| == i
        invariant forall g: nat | g < i ::
                    IsCtx(sg, p[g], sg[g].params, false, boxed[g]) && IsCtx(sg, p[g], sg[g].params, true, typed[g])
      {
        var cx := SlotsOf(sg, p[i], sg[i].params, false);
        var cy := SlotsOf(sg, p[i], sg[i].params, true);
        boxed, typed := boxed + [cx], typed + [cy];
        i := i + 1;
      }
      t := Tables(sg, boxed, typed);
    }
  }

  function Top(rank: seq<nat>): (r: nat)
    ensures forall g | 0 <= g < |rank| :: rank[g] <= r
  {
    if rank == [] then 0
    else
      var r := Top(rank[..|rank| - 1]);
      if rank[|rank| - 1] > r then rank[|rank| - 1] else r
  }

  // ----- what the whole pass promises -----

  ghost predicate Shaped(p: Prog, t: Tables) { |t.boxed| == |t.typed| == |t.sg| == |p| }

  /** No captured local is a raw number, with boxed parameters or with typed ones. */
  ghost predicate CapturedBoxed(p: Prog, t: Tables)
    requires Shaped(p, t)
  {
    forall g: nat, i | g < |p| && i in p[g].captured ::
      SlotTy(t.boxed[g], i) == TAny && SlotTy(t.typed[g], i) == TAny
  }

  ghost predicate ParamsTyped(p: Prog, t: Tables)
    requires Shaped(p, t)
  {
    forall g: nat, i: nat | g < |p| && i < p[g].params :: SlotTy(t.typed[g], i) == ParamTy(t.sg, g, i)
  }

  /** A function called directly whose returns all have one numeric type is given it. */
  ghost predicate RetsFound(p: Prog, t: Tables)
    requires Shaped(p, t)
  {
    forall g: nat, h: nat, ty | g < |p| - 1 && h < |p| && Reaches(p, h, g) && Numeric(ty)
      && AlwaysReturns(p[g].body) && Returns(t.sg, t.typed[g], ty, p[g].body) :: t.sg[g].ret == ty
  }

  /** In every world, on all arguments, with any fuel. */
  ghost predicate RunsSame(p: Prog, t: Tables)
    requires Shaped(p, t)
  {
    forall w: World, g: nat, args: seq<V>, tr: Trace, f: nat | g < |p| && |args| == p[g].params ::
      InvokeT(p, t, w, g, false, args, tr, f) == Invoke(p, w, g, args, tr, f)
  }

  /** infer_signatures followed by emission: the specialized program does what the boxed
      one does, whatever the world answers and however long it runs. */
  method Specialize(p: Prog, q: Bindings.Prog) returns (t: Tables)
    requires Parsed(p, q)
    ensures Shaped(p, t) && Good(p, t) && Emitted(p, t)
    ensures CapturedBoxed(p, t) && ParamsTyped(p, t) && RetsFound(p, t) && RunsSame(p, t)
  {
    ghost var rank := Ranked(p, q);
    var c := new Inferrer(p, rank);
    c.Rounds(Top(rank));
    ghost var sg := c.sg;
    ghost var sited := c.sited;
    c.Finalize();
    t := c.Emit();
    forall g: nat | g < |p| ensures GoodFn(p, t, g) { FinalGood(p, rank, sg, sited, t, g); }
    FinalCaptured(p, t);
    forall g: nat | g < |p| ensures RowShape(p[g], t.sg[g]) {}
    FinalParams(p, rank, sg, sited, t);
    FinalRets(p, sg, sited, t);
    FinalRuns(p, t);
  }

  lemma {:induction false} FinalCaptured(p: Prog, t: Tables)
    requires Good(p, t)
    ensures CapturedBoxed(p, t)
  {
    forall g: nat, i | g < |p| && i in p[g].captured
      ensures SlotTy(t.boxed[g], i) == TAny && SlotTy(t.typed[g], i) == TAny
    {
      assert GoodFn(p, t, g);
    }
  }

  lemma {:induction false} FinalParams(p: Prog, rank: seq<nat>, sg: Sigs, sited: set<nat>, t: Tables)
    requires WellFormed(p, rank) && |sg| == |p| && t.sg == Finalized(sg, sited) && Emitted(p, t)
    requires forall g: nat | g < |p| :: RowShape(p[g], t.sg[g])
    ensures ParamsTyped(p, t)
  {
    forall g: nat, i: nat | g < |p| && i < p[g].params ensures SlotTy(t.typed[g], i) == ParamTy(t.sg, g, i) {
      assert WellFn(p, rank, g) && RowShape(p[g], t.sg[g]);
      ParamStays(t.sg, p[g], t.sg[g].params, t.typed[g], i);
      FinalNoUnset(sg, sited, g, i);
    }
  }

  lemma {:induction false} FinalRets(p: Prog, sg: Sigs, sited: set<nat>, t: Tables)
    requires |p| > 0 && |sg| == |p| && t.sg == Finalized(sg, sited) && Emitted(p, t)
    requires forall g: nat | g < |p| :: RowOk(p, sg, g) && CallsIn(p, sited, p[g].body)
    requires forall h | h in sited && h < |sg| :: TUnset !in sg[h].params
    ensures RetsFound(p, t)
  {
    forall g: nat, h: nat, ty | g < |p| - 1 && h < |p| && Reaches(p, h, g) && Numeric(ty)
      && AlwaysReturns(p[g].body) && Returns(t.sg, t.typed[g], ty, p[g].body)
      ensures t.sg[g].ret == ty
    {
      FinalRet(p, sg, sited, t, g, ty);
    }
  }

  lemma {:induction false} FinalRuns(p: Prog, t: Tables)
    requires Good(p, t)
    ensures RunsSame(p, t)
  {
    forall w: World, g: nat, args: seq<V>, tr: Trace, f: nat | g < |p| && |args| == p[g].params
      ensures InvokeT(p, t, w, g, false, args, tr, f) == Invoke(p, w, g, args, tr, f)
    {
      ProgramSame(p, t, w, g, args, tr, f);
    }
  }

  lemma {:induction false} FinalNoUnset(sg: Sigs, sited: set<nat>, g: nat, i: nat)
    requires g < |sg| && i < |sg[g].params|
    ensures Finalized(sg, sited)[g].params[i] != TUnset
  {
  }
}
