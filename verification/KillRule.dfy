module KillRule {
  // The kill-rule analysis of one body (src/codegen/analysis.c, compute_int_slots,
  // compute_float_slots): it ends on the greatest set of slots that every store respects.

  import opened Numbers
  import opened Sets
  import opened Spec
  import opened SpecSim

  /** The typing context while slots `live` are believed to be of type ty; the float
      analysis runs after the int one. */
  function CtxFor(ty: Ty, ints: set<nat>, live: set<nat>): Ctx {
    if ty.TInt? then Ctx(live, {}) else Ctx(ints, live)
  }

  /** expr_has_ty. */
  predicate HasType(sg: Sigs, cx: Ctx, ty: Ty, e: Expr) {
    if ty.TInt? then IsInt(sg, cx, e) else IsFlt(sg, cx, e)
  }

  /** A store that lets slot number j keep the type. */
  predicate Keeps(sg: Sigs, cx: Ctx, ty: Ty, s: Stmt, j: nat)
    requires (s.SLocal? || s.SAssign?) && j < |s.slots|
  {
    && (s.SAssign? ==> |s.slots| == 1)
    && Count(s.es) == |s.slots| && HasType(sg, cx, ty, Nth(s.es, j))
  }

  predicate ForKeeps(sg: Sigs, cx: Ctx, ty: Ty, s: Stmt)
    requires s.SFor?
  {
    ty.TInt? && IsInt(sg, cx, s.start) && IsInt(sg, cx, s.step)
  }

  /** No statement of the body contradicts the set. */
  predicate Respects(sg: Sigs, ty: Ty, ints: set<nat>, live: set<nat>, ss: Stmts)
    decreases ss
  {
    match ss case Nil => true case Cons(s, tl) => RespectsAt(sg, ty, ints, live, s) && Respects(sg, ty, ints, live, tl)
  }

  predicate RespectsAt(sg: Sigs, ty: Ty, ints: set<nat>, live: set<nat>, s: Stmt)
    decreases s
  {
    var cx := CtxFor(ty, ints, live);
    match s
    case SLocal(slots, _) => forall j | 0 <= j < |slots| && slots[j] in live :: Keeps(sg, cx, ty, s, j)
    case SAssign(slots, _) => forall j | 0 <= j < |slots| && slots[j] in live :: Keeps(sg, cx, ty, s, j)
    case STake(slots, _, _) => forall j | 0 <= j < |slots| :: slots[j] !in live
    case SDo(b) => Respects(sg, ty, ints, live, b)
    case SIf(_, thn, els) => Respects(sg, ty, ints, live, thn) && Respects(sg, ty, ints, live, els)
    case SWhile(_, b) => Respects(sg, ty, ints, live, b)
    case SFor(slot, _, _, _, b) => (slot in live ==> ForKeeps(sg, cx, ty, s)) && Respects(sg, ty, ints, live, b)
    case _ => true
  }

  ghost predicate Greatest(sg: Sigs, ty: Ty, ints: set<nat>, cand: set<nat>, ss: Stmts, live: set<nat>) {
    && live <= cand && Respects(sg, ty, ints, live, ss)
    && forall other: set<nat> | other <= cand && Respects(sg, ty, ints, other, ss) :: other <= live
  }

  /** Whatever the order of statements or passes, there is one answer. */
  lemma {:induction false} GreatestUnique(sg: Sigs, ty: Ty, ints: set<nat>, cand: set<nat>, ss: Stmts, a: set<nat>,
        b: set<nat>)
    requires Greatest(sg, ty, ints, cand, ss, a) && Greatest(sg, ty, ints, cand, ss, b)
    ensures a == b
  {
  }

  // ----- a bigger context types more -----

  lemma {:induction false} Grows(sg: Sigs, cx: Ctx, cy: Ctx, e: Expr)
    requires cx.ints <= cy.ints && cx.flts <= cy.flts
    ensures IsInt(sg, cx, e) ==> IsInt(sg, cy, e)
    ensures IsFlt(sg, cx, e) ==> IsFlt(sg, cy, e)
    decreases e
  {
    match e
    case Bin(_, l, r) =>
      Grows(sg, cx, cy, l);
      Grows(sg, cx, cy, r);
    case Neg(x) => Grows(sg, cx, cy, x);
    case Direct(g, args) => GrowsAll(sg, cx, cy, g, 0, args);
    case _ =>
  }

  lemma {:induction false} GrowsAll(sg: Sigs, cx: Ctx, cy: Ctx, g: nat, i: nat, args: Exprs)
    requires cx.ints <= cy.ints && cx.flts <= cy.flts
    ensures ArgsOk(sg, cx, g, i, args) ==> ArgsOk(sg, cy, g, i, args)
    decreases args
  {
    if args.ECons? {
      Grows(sg, cx, cy, args.e);
      GrowsAll(sg, cx, cy, g, i + 1, args.es);
    }
  }

  lemma {:induction false} HasGrows(sg: Sigs, ty: Ty, ints: set<nat>, a: set<nat>, b: set<nat>, e: Expr)
    requires a <= b
    ensures HasType(sg, CtxFor(ty, ints, a), ty, e) ==> HasType(sg, CtxFor(ty, ints, b), ty, e)
  {
    Grows(sg, CtxFor(ty, ints, a), CtxFor(ty, ints, b), e);
  }

  // ----- the passes -----

  function LiveOf(out: seq<bool>): set<nat> { set s: nat | s < |out| && out[s] }

  lemma {:induction false} LiveSize(out: seq<bool>)
    ensures |LiveOf(out)| <= |out|
  {
    if out != [] {
      var n := |out| - 1;
      LiveSize(out[..n]);
      assert LiveOf(out) == LiveOf(out[..n]) + if out[n] then {n} else {};
    } else {
      assert LiveOf(out) == {};
    }
  }

  class SlotPass {
    const sg: Sigs
    const ty: Ty
    const ints: set<nat>
    const out: array<bool>
    var changed: bool

    constructor (sg: Sigs, ty: Ty, ints: set<nat>, out: array<bool>)
      ensures this.sg == sg && this.ty == ty && this.ints == ints && this.out == out && changed
    {
      this.sg, this.ty, this.ints, this.out, this.changed := sg, ty, ints, out, true;
    }

    ghost function Live(): set<nat>
      reads this, out
    {
      LiveOf(out[..])
    }

    function Cx(): Ctx
      reads this, out
    {
      CtxFor(ty, ints, LiveOf(out[..]))
    }

    /** No set the rules allow, among those starting from `top`, loses a slot. */
    ghost predicate Above(ss: Stmts, top: set<nat>)
      reads this, out
    {
      forall other: set<nat> | other <= top && Respects(sg, ty, ints, other, ss) :: other <= Live()
    }

    ghost predicate AboveAt(s: Stmt, top: set<nat>)
      reads this, out
    {
      forall other: set<nat> | other <= top && RespectsAt(sg, ty, ints, other, s) :: other <= Live()
    }

    /** slot_kill. */
    method Kill(slot: nat)
      modifies this, out
      ensures Live() == old(Live()) - {slot}
      ensures changed == (old(changed) || slot in old(Live()))
    {
      if slot < out.Length && out[slot] {
        ghost var was := out[..];
        out[slot] := false;
        changed := true;
        assert out[..] == was[slot := false];
      }
    }

    /** typed_kill_stmt on one store of several slots. */
    method KillStore(s: Stmt)
      requires s.SLocal? || s.SAssign?
      modifies this, out
      ensures Live() <= old(Live()) && AboveAt(s, old(Live()))
      ensures changed == (old(changed) || Live() != old(Live()))
      ensures Live() == old(Live()) ==> RespectsAt(sg, ty, ints, Live(), s)
    {
      ghost var top := Live();
      var j := 0;
      while j < |s.slots|
        invariant 0 <= j <= |s.slots| && Live() <= top && AboveAt(s, top)
        invariant changed == (old(changed) || Live() != top)
        invariant Live() == top ==> forall i | 0 <= i < j && s.slots[i] in top ::
          Keeps(sg, CtxFor(ty, ints, top), ty, s, i)
      {
        var keep := (s.SAssign? ==> |s.slots| == 1) && Count(s.es) == |s.slots| && HasType(sg, Cx(), ty, Nth(s.es, j));
        if !keep {
          ghost var now := Live();
          forall other: set<nat> | other <= top && RespectsAt(sg, ty, ints, other, s) ensures s.slots[j] !in other {
            if s.slots[j] in other {
              assert Keeps(sg, CtxFor(ty, ints, other), ty, s, j);
              HasGrows(sg, ty, ints, other, now, Nth(s.es, j));
            }
          }
          Kill(s.slots[j]);
        }
        j := j + 1;
      }
    }

    method KillTake(s: Stmt)
      requires s.STake?
      modifies this, out
      ensures Live() <= old(Live()) && AboveAt(s, old(Live()))
      ensures changed == (old(changed) || Live() != old(Live()))
      ensures Live() == old(Live()) ==> RespectsAt(sg, ty, ints, Live(), s)
    {
      ghost var top := Live();
      var j := 0;
      while j < |s.slots|
        invariant 0 <= j <= |s.slots| && Live() <= top && AboveAt(s, top)
        invariant changed == (old(changed) || Live() != top)
        invariant Live() == top ==> forall i | 0 <= i < j :: s.slots[i] !in top
      {
        Kill(s.slots[j]);
        j := j + 1;
      }
    }

    method KillStmts(ss: Stmts)
      modifies this, out
      ensures Live() <= old(Live()) && Above(ss, old(Live()))
      ensures changed == (old(changed) || Live() != old(Live()))
      ensures Live() == old(Live()) ==> Respects(sg, ty, ints, Live(), ss)
      decreases ss
    {
      if ss.Nil? { return; }
      KillStmt(ss.hd);
      KillStmts(ss.tl);
    }

    method KillStmt(s: Stmt)
      modifies this, out
      ensures Live() <= old(Live()) && AboveAt(s, old(Live()))
      ensures changed == (old(changed) || Live() != old(Live()))
      ensures Live() == old(Live()) ==> RespectsAt(sg, ty, ints, Live(), s)
      decreases s
    {
      match s
      case SLocal(_, _) => KillStore(s);
      case SAssign(_, _) => KillStore(s);
      case STake(_, _, _) => KillTake(s);
      case SDo(b) => KillStmts(b);
      case SIf(_, thn, els) =>
        KillStmts(thn);
        KillStmts(els);
      case SWhile(_, b) => KillStmts(b);
      case SFor(slot, start, _, step, b) =>
        if !(ty.TInt? && IsInt(sg, Cx(), start) && IsInt(sg, Cx(), step)) {
          ghost var now := Live();
          forall other: set<nat> | other <= now && RespectsAt(sg, ty, ints, other, s) ensures slot !in other {
            if ty.TInt? {
              HasGrows(sg, ty, ints, other, now, start);
              HasGrows(sg, ty, ints, other, now, step);
            }
          }
          Kill(slot);
        }
        KillStmts(b);
      case _ =>
    }

    /** The fixpoint loop: at most one pass per slot, and one that changes nothing. */
    method Settle(ss: Stmts) returns (passes: nat)
      requires changed
      modifies this, out
      ensures Greatest(sg, ty, ints, old(Live()), ss, Live())
      ensures passes <= out.Length + 1
    {
      ghost var cand := Live();
      passes := 0;
      LiveSize(out[..]);
      while changed
        invariant Live() <= cand && Above(ss, cand)
        invariant !changed ==> Respects(sg, ty, ints, Live(), ss)
        invariant passes + |Live()| <= out.Length + if changed then 0 else 1
        decreases |Live()|, changed
      {
        ghost var was := Live();
        changed := false;
        KillStmts(ss);
        if changed { ProperSize(Live(), was); }
        passes := passes + 1;
      }
    }
  }
}
