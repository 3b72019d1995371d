/** Int boxes (src/codegen/analysis.c, ibox_settle; src/codegen/module.c): dropping
    candidates and inferring signatures alternate until the boxes that are left hold
    under the signatures inferred from them. */
module IntBoxes {
  import opened Options
  import opened Numbers
  import opened Sets
  import opened Upvalues
  import opened Bindings

  /** A captured local: its function and slot. */
  type Var = (nat, nat)

  /** Which parameters and results are ints, and whether there are direct calls. */
  datatype Sig = Sig(params: seq<bool>, ret: bool, site: bool)

  type Sigs = seq<Sig>

  /** The analyses the alternation is built from: the int slots of a body, given the boxes and
      signatures and whether its parameters are typed (compute_int_slots); and signatures,
      given the boxes (infer_signatures). */
  datatype Typing = Typing(slots: (set<Var>, Sigs, nat, bool) -> set<nat>, infer: set<Var> -> Sigs)

  /** Where an expression is typed: signatures, function, int slots, int boxes. */
  datatype Cx = Cx(sg: Sigs, f: nat, ints: set<nat>, boxes: set<Var>)

  function BodyCx(t: Typing, boxes: set<Var>, sg: Sigs, f: nat, typed: bool): Cx {
    Cx(sg, f, t.slots(boxes, sg, f, typed), boxes)
  }

  // ----- typing -----

  /** direct_call_target. */
  function DirectTo(p: Prog, m: Binds, f: nat, callee: Expr, args: Exprs): Option<nat>
    requires TabsOk(p.tabs) && f < |p.tabs|
  {
    var k :=
      match callee
      case GetLocal(s) => if (f, s) in m then Some(m[(f, s)]) else None
      case GetUpval(i) =>
        if i < |p.tabs[f].upvals| && Origin(p.tabs, f, i) in m && m[Origin(p.tabs, f, i)] == f then Some(f) else None
      case _ => None;
    if k.None? || k.value >= |p.fns| || Count(args) != p.fns[k.value].params || AnyCall(args) then None else k
  }

  predicate AnyCall(es: Exprs) { match es case ENil => false case ECons(e, tl) => e.Call? || AnyCall(tl) }

  /** expr_is_int. */
  predicate IsInt(p: Prog, m: Binds, cx: Cx, e: Expr)
    requires TabsOk(p.tabs) && cx.f < |p.tabs|
    decreases e
  {
    match e
    case Int(_) => true
    case GetLocal(s) => s in cx.ints || (cx.f, s) in cx.boxes
    case GetUpval(i) => i < |p.tabs[cx.f].upvals| && Origin(p.tabs, cx.f, i) in cx.boxes
    case Arith(op, l, r) => !op.Div? && IsInt(p, m, cx, l) && IsInt(p, m, cx, r)
    case Unary(_, x) => IsInt(p, m, cx, x)
    case Call(callee, args) =>
      var k := DirectTo(p, m, cx.f, callee, args);
      k.Some? && k.value < |cx.sg| && cx.sg[k.value].ret && ArgsInt(p, m, cx, cx.sg[k.value].params, 0, args)
    case _ => false
  }

  /** direct_args_typed_ok. */
  predicate ArgsInt(p: Prog, m: Binds, cx: Cx, ps: seq<bool>, i: nat, es: Exprs)
    requires TabsOk(p.tabs) && cx.f < |p.tabs|
    decreases es
  {
    match es
    case ENil => true
    case ECons(e, tl) => (i < |ps| && ps[i] ==> IsInt(p, m, cx, e)) && ArgsInt(p, m, cx, ps, i + 1, tl)
  }

  // ----- what a surviving box means -----

  function Last(es: Exprs): Expr
    requires es.ECons?
  {
    if es.es.ENil? then es.e else Last(es.es)
  }

  /** How many leading values stand alone: a last call fills the names left over. */
  function Lead(slots: seq<nat>, es: Exprs): nat {
    if Count(es) > 0 && |slots| > Count(es) && Last(es).Call? then Count(es) - 1 else Count(es)
  }

  predicate Closes(close: seq<bool>, j: nat) { j < |close| && close[j] }

  predicate IntDecl(p: Prog, m: Binds, cx: Cx, s: Stmt, j: nat)
    requires TabsOk(p.tabs) && cx.f < |p.tabs| && s.LocalVals? && j < |s.slots|
  {
    j < Lead(s.slots, s.es) && !Closes(s.close, j) && j < Count(s.es) && IsInt(p, m, cx, Nth(s.es, j))
  }

  /** Every store of ss into a box of cx is one int-typed value. */
  ghost predicate Holds(p: Prog, m: Binds, cx: Cx, ss: Stmts)
    requires TabsOk(p.tabs) && cx.f < |p.tabs|
    decreases ss
  {
    match ss case Nil => true case Cons(s, tl) => HoldsAt(p, m, cx, s) && Holds(p, m, cx, tl)
  }

  ghost predicate HoldsAt(p: Prog, m: Binds, cx: Cx, s: Stmt)
    requires TabsOk(p.tabs) && cx.f < |p.tabs|
    decreases s
  {
    match s
    case LocalVals(slots, _, _) =>
      forall j | 0 <= j < |slots| && (cx.f, slots[j]) in cx.boxes :: IntDecl(p, m, cx, s, j)
    case Assign(ts, es) =>
      forall j | 0 <= j < |ts| && Written(p, cx.f, ts[j]).Some? && Written(p, cx.f, ts[j]).value in cx.boxes ::
        |ts| == 1 && Count(es) == 1 && IsInt(p, m, cx, es.e)
    case LocalFun(slot, _) => (cx.f, slot) !in cx.boxes
    case ForNum(slot, _, _, _, b) => (cx.f, slot) !in cx.boxes && Holds(p, m, cx, b)
    case ForGen(slots, _, b) =>
      (forall j | 0 <= j < |slots| :: (cx.f, slots[j]) !in cx.boxes) && Holds(p, m, cx, b)
    case If(_, thn, els) => Holds(p, m, cx, thn) && Holds(p, m, cx, els)
    case While(_, b) => Holds(p, m, cx, b)
    case _ => true
  }

  /** Under both entries of every function that has both. */
  ghost predicate Settled(p: Prog, m: Binds, t: Typing, boxes: set<Var>, sg: Sigs)
    requires ProgOk(p)
  {
    forall f: nat | f < |p.fns| :: SettledFn(p, m, t, boxes, sg, f)
  }

  ghost predicate SettledFn(p: Prog, m: Binds, t: Typing, boxes: set<Var>, sg: Sigs, f: nat)
    requires TabsOk(p.tabs) && f < |p.fns| == |p.tabs|
  {
    && Holds(p, m, BodyCx(t, boxes, sg, f, false), p.fns[f].body)
    && (HasSite(sg, f) ==> Holds(p, m, BodyCx(t, boxes, sg, f, true), p.fns[f].body))
  }

  /** The chunk has none. */
  predicate HasSite(sg: Sigs, f: nat) { 0 < f < |sg| && sg[f].site }

  // ----- more boxes type more -----

  /** compute_int_slots: with more int boxes no slot stops being an int slot. */
  ghost predicate Monotone(t: Typing) {
    forall b, c, sg, f, typed | b <= c :: t.slots(b, sg, f, typed) <= t.slots(c, sg, f, typed)
  }

  predicate Inner(b: Cx, c: Cx) { b.sg == c.sg && b.f == c.f && b.ints <= c.ints && b.boxes <= c.boxes }

  lemma {:induction false} TypesMore(p: Prog, m: Binds, b: Cx, c: Cx, e: Expr)
    requires TabsOk(p.tabs) && b.f < |p.tabs| && Inner(b, c) && IsInt(p, m, b, e)
    ensures IsInt(p, m, c, e)
    decreases e
  {
    match e
    case Arith(_, l, r) =>
      TypesMore(p, m, b, c, l);
      TypesMore(p, m, b, c, r);
    case Unary(_, x) => TypesMore(p, m, b, c, x);
    case Call(callee, args) =>
      var k := DirectTo(p, m, b.f, callee, args);
      ArgsMore(p, m, b, c, b.sg[k.value].params, 0, args);
    case _ =>
  }

  lemma {:induction false} ArgsMore(p: Prog, m: Binds, b: Cx, c: Cx, ps: seq<bool>, i: nat, es: Exprs)
    requires TabsOk(p.tabs) && b.f < |p.tabs| && Inner(b, c) && ArgsInt(p, m, b, ps, i, es)
    ensures ArgsInt(p, m, c, ps, i, es)
    decreases es
  {
    if es.ECons? {
      if i < |ps| && ps[i] { TypesMore(p, m, b, c, es.e); }
      ArgsMore(p, m, b, c, ps, i + 1, es.es);
    }
  }

  /** From `was` to `now` only boxes went that no set could keep: a set of boxes in `was` that
      the statement leaves int-typed, with int slots among cx's, is still there. */
  ghost predicate Spares(p: Prog, m: Binds, cx: Cx, s: Stmt, was: set<Var>, now: set<Var>)
    requires TabsOk(p.tabs) && cx.f < |p.tabs|
  {
    forall b: Cx | Inner(b, cx.(boxes := was)) && HoldsAt(p, m, b, s) :: b.boxes <= now
  }

  ghost predicate SparesIn(p: Prog, m: Binds, cx: Cx, ss: Stmts, was: set<Var>, now: set<Var>)
    requires TabsOk(p.tabs) && cx.f < |p.tabs|
  {
    forall b: Cx | Inner(b, cx.(boxes := was)) && Holds(p, m, b, ss) :: b.boxes <= now
  }

  /** The declaration or the assignment of x is not int-typed, so no set keeps x. */
  lemma {:induction false} DeclSpares(p: Prog, m: Binds, cx: Cx, s: Stmt, j: nat, b: Cx)
    requires TabsOk(p.tabs) && cx.f < |p.tabs| && s.LocalVals? && j < |s.slots|
    requires !IntDecl(p, m, cx, s, j) && Inner(b, cx) && HoldsAt(p, m, b, s)
    ensures (cx.f, s.slots[j]) !in b.boxes
  {
    if (cx.f, s.slots[j]) in b.boxes {
      assert IntDecl(p, m, b, s, j);
      TypesMore(p, m, b, cx, Nth(s.es, j));
    }
  }

  lemma {:induction false} StoreSpares(p: Prog, m: Binds, cx: Cx, s: Stmt, j: nat, b: Cx)
    requires TabsOk(p.tabs) && cx.f < |p.tabs| && s.Assign? && j < |s.targets| && Written(p, cx.f, s.targets[j]).Some?
    requires !(|s.targets| == 1 && Count(s.es) == 1 && IsInt(p, m, cx, s.es.e)) && Inner(b, cx) && HoldsAt(p, m, b, s)
    ensures Written(p, cx.f, s.targets[j]).value !in b.boxes
  {
    if Written(p, cx.f, s.targets[j]).value in b.boxes { TypesMore(p, m, b, cx, s.es.e); }
  }

  // ----- the passes -----

  class Boxer {
    const p: Prog
    const m: Binds
    const t: Typing
    var boxes: set<Var>
    var changed: bool

    constructor (p: Prog, m: Binds, t: Typing, boxes: set<Var>)
      ensures this.p == p && this.m == m && this.t == t && this.boxes == boxes
    {
      this.p, this.m, this.t, this.boxes, this.changed := p, m, t, boxes, false;
    }

    /** Only drops, and says so. */
    twostate predicate Shrunk()
      reads this
    {
      boxes <= old(boxes) && (changed <==> old(changed) || boxes != old(boxes))
    }

    /** ibox_drop. */
    method Drop(x: Var)
      modifies this
      ensures Shrunk() && boxes == old(boxes) - {x}
    {
      if x in boxes {
        boxes := boxes - {x};
        changed := true;
      }
    }

    /** ibox_drop_var. */
    method DropVar(f: nat, tg: Target)
      requires ProgOk(p) && f < |p.tabs|
      modifies this
      ensures Shrunk()
      ensures boxes == if Written(p, f, tg).Some? then old(boxes) - {Written(p, f, tg).value} else old(boxes)
    {
      match tg
      case ToLocal(s) => Drop((f, s));
      case ToUpval(i) => if i < |p.tabs[f].upvals| { Drop(Origin(p.tabs, f, i)); }
      case ToGlobal(_) =>
    }

    method CheckLocal(ints: set<nat>, sg: Sigs, f: nat, s: Stmt)
      requires ProgOk(p) && f < |p.tabs| && s.LocalVals?
      modifies this
      ensures Shrunk() && (boxes == old(boxes) ==> HoldsAt(p, m, Cx(sg, f, ints, boxes), s))
      ensures Spares(p, m, Cx(sg, f, ints, boxes), s, old(boxes), boxes)
    {
      var j := 0;
      while j < |s.slots|
        invariant 0 <= j <= |s.slots| && Shrunk()
        invariant boxes == old(boxes) ==> forall i | 0 <= i < j && (f, s.slots[i]) in boxes ::
                    IntDecl(p, m, Cx(sg, f, ints, boxes), s, i)
        invariant Spares(p, m, Cx(sg, f, ints, boxes), s, old(boxes), boxes)
      {
        ghost var cx := Cx(sg, f, ints, boxes);
        if (f, s.slots[j]) in boxes && !IntDecl(p, m, Cx(sg, f, ints, boxes), s, j) {
          forall b: Cx | Inner(b, cx) && HoldsAt(p, m, b, s) ensures (f, s.slots[j]) !in b.boxes {
            DeclSpares(p, m, cx, s, j, b);
          }
          Drop((f, s.slots[j]));
        }
        j := j + 1;
      }
    }

    method CheckAssign(ints: set<nat>, sg: Sigs, f: nat, s: Stmt)
      requires ProgOk(p) && f < |p.tabs| && s.Assign?
      modifies this
      ensures Shrunk() && (boxes == old(boxes) ==> HoldsAt(p, m, Cx(sg, f, ints, boxes), s))
      ensures Spares(p, m, Cx(sg, f, ints, boxes), s, old(boxes), boxes)
    {
      ghost var cx := Cx(sg, f, ints, boxes);
      if |s.targets| == 1 && Count(s.es) == 1 {
        if !IsInt(p, m, Cx(sg, f, ints, boxes), s.es.e) {
          NoneStored(cx, s);
          DropVar(f, s.targets[0]);
        }
        return;
      }
      NoneStored(cx, s);
      var j := 0;
      while j < |s.targets|
        invariant 0 <= j <= |s.targets| && Shrunk() && Spares(p, m, cx, s, old(boxes), boxes)
        invariant forall i | 0 <= i < j && Written(p, f, s.targets[i]).Some? ::
                    Written(p, f, s.targets[i]).value !in boxes
      {
        DropVar(f, s.targets[j]);
        j := j + 1;
      }
    }

    lemma {:induction false} NoneStored(cx: Cx, s: Stmt)
      requires ProgOk(p) && cx.f < |p.tabs| && s.Assign?
      requires !(|s.targets| == 1 && Count(s.es) == 1 && IsInt(p, m, cx, s.es.e))
      ensures forall b: Cx, j | Inner(b, cx) && HoldsAt(p, m, b, s) && 0 <= j < |s.targets|
                && Written(p, cx.f, s.targets[j]).Some? :: Written(p, cx.f, s.targets[j]).value !in b.boxes
    {
      forall b: Cx, j | Inner(b, cx) && HoldsAt(p, m, b, s) && 0 <= j < |s.targets|
        && Written(p, cx.f, s.targets[j]).Some?
        ensures Written(p, cx.f, s.targets[j]).value !in b.boxes
      {
        StoreSpares(p, m, cx, s, j, b);
      }
    }

    method CheckSlots(f: nat, slots: seq<nat>)
      modifies this
      ensures Shrunk() && boxes == old(boxes) - (set j | 0 <= j < |slots| :: (f, slots[j]))
    {
      var j := 0;
      while j < |slots|
        invariant 0 <= j <= |slots| && Shrunk() && boxes == old(boxes) - (set i | 0 <= i < j :: (f, slots[i]))
      {
        Drop((f, slots[j]));
        j := j + 1;
      }
    }

    /** ibox_check_stmt over a body. */
    method Check(ints: set<nat>, sg: Sigs, f: nat, ss: Stmts)
      requires ProgOk(p) && f < |p.tabs|
      modifies this
      ensures Shrunk() && (boxes == old(boxes) ==> Holds(p, m, Cx(sg, f, ints, boxes), ss))
      ensures SparesIn(p, m, Cx(sg, f, ints, boxes), ss, old(boxes), boxes)
      decreases ss
    {
      if ss.Cons? {
        CheckStmt(ints, sg, f, ss.hd);
        ghost var between := boxes;
        Check(ints, sg, f, ss.tl);
        if boxes == old(boxes) { assert between == boxes; }
        SparesTwo(Cx(sg, f, ints, boxes), ss.hd, ss.tl, old(boxes), between, boxes);
      }
    }

    lemma {:induction false} SparesTwo(cx: Cx, s: Stmt, tl: Stmts, was: set<Var>, between: set<Var>, now: set<Var>)
      requires ProgOk(p) && cx.f < |p.tabs|
      requires Spares(p, m, cx, s, was, between) && SparesIn(p, m, cx, tl, between, now)
      ensures SparesIn(p, m, cx, Cons(s, tl), was, now)
    {
      forall b: Cx | Inner(b, cx.(boxes := was)) && Holds(p, m, b, Cons(s, tl)) ensures b.boxes <= now {
        assert HoldsAt(p, m, b, s) && Holds(p, m, b, tl);
        assert Inner(b, cx.(boxes := between));
      }
    }

    method CheckStmt(ints: set<nat>, sg: Sigs, f: nat, s: Stmt)
      requires ProgOk(p) && f < |p.tabs|
      modifies this
      ensures Shrunk() && (boxes == old(boxes) ==> HoldsAt(p, m, Cx(sg, f, ints, boxes), s))
      ensures Spares(p, m, Cx(sg, f, ints, boxes), s, old(boxes), boxes)
      decreases s
    {
      match s
      case LocalVals(_, _, _) => CheckLocal(ints, sg, f, s);
      case Assign(_, _) => CheckAssign(ints, sg, f, s);
      case LocalFun(slot, _) => Drop((f, slot));
      case ForNum(slot, _, _, _, b) =>
        Drop((f, slot));
        ghost var between := boxes;
        Check(ints, sg, f, b);
        if boxes == old(boxes) { assert between == boxes; }
        SparesNest(Cx(sg, f, ints, boxes), s, b, old(boxes), between, boxes);
      case ForGen(slots, _, b) =>
        CheckSlots(f, slots);
        ghost var between := boxes;
        Check(ints, sg, f, b);
        if boxes == old(boxes) { assert between == boxes; }
        SparesNest(Cx(sg, f, ints, boxes), s, b, old(boxes), between, boxes);
      case If(_, thn, els) =>
        Check(ints, sg, f, thn);
        ghost var between := boxes;
        Check(ints, sg, f, els);
        if boxes == old(boxes) { assert between == boxes; }
        SparesIf(Cx(sg, f, ints, boxes), s, old(boxes), between, boxes);
      case While(_, b) => Check(ints, sg, f, b);
      case _ =>
    }

    /** A loop: its variables go, and then what its body contradicts. */
    lemma {:induction false} SparesNest(cx: Cx, s: Stmt, b: Stmts, was: set<Var>, between: set<Var>, now: set<Var>)
      requires ProgOk(p) && cx.f < |p.tabs| && SparesIn(p, m, cx, b, between, now)
      requires (s.ForNum? && b == s.body && between == was - {(cx.f, s.slot)})
        || (s.ForGen? && b == s.body && between == was - (set j | 0 <= j < |s.slots| :: (cx.f, s.slots[j])))
      ensures Spares(p, m, cx, s, was, now)
    {
      forall c: Cx | Inner(c, cx.(boxes := was)) && HoldsAt(p, m, c, s) ensures c.boxes <= now {
        assert Holds(p, m, c, b) && c.boxes <= between;
        assert Inner(c, cx.(boxes := between));
      }
    }

    lemma {:induction false} SparesIf(cx: Cx, s: Stmt, was: set<Var>, between: set<Var>, now: set<Var>)
      requires ProgOk(p) && cx.f < |p.tabs| && s.If?
      requires SparesIn(p, m, cx, s.thn, was, between) && SparesIn(p, m, cx, s.els, between, now)
      ensures Spares(p, m, cx, s, was, now)
    {
      forall c: Cx | Inner(c, cx.(boxes := was)) && HoldsAt(p, m, c, s) ensures c.boxes <= now {
        assert Holds(p, m, c, s.thn) && Holds(p, m, c, s.els);
        assert Inner(c, cx.(boxes := between));
      }
    }

    /** One round of ibox_settle: each body with boxed parameters, and with its
        signature's if it has direct calls. */
    method Round(sg: Sigs)
      requires ProgOk(p)
      modifies this
      ensures Shrunk() && (boxes == old(boxes) ==> Settled(p, m, t, boxes, sg))
      ensures Monotone(t) ==> Keeps(sg, old(boxes), boxes)
    {
      var f := 0;
      while f < |p.fns|
        invariant 0 <= f <= |p.fns| && Shrunk() && (Monotone(t) ==> Keeps(sg, old(boxes), boxes))
        invariant boxes == old(boxes) ==> forall g: nat | g < f :: SettledFn(p, m, t, boxes, sg, g)
      {
        ghost var was := boxes;
        Check(t.slots(boxes, sg, f, false), sg, f, p.fns[f].body);
        if Monotone(t) { KeepsMore(sg, f, false, old(boxes), was, boxes); }
        ghost var between := boxes;
        if HasSite(sg, f) {
          Check(t.slots(boxes, sg, f, true), sg, f, p.fns[f].body);
          if Monotone(t) { KeepsMore(sg, f, true, old(boxes), between, boxes); }
        }
        if boxes == old(boxes) { assert was == between == boxes; }
        f := f + 1;
      }
    }

    /** Every set of boxes in `was` that is settled is still there. */
    ghost predicate Keeps(sg: Sigs, was: set<Var>, now: set<Var>)
      requires ProgOk(p)
    {
      forall b: set<Var> | b <= was && Settled(p, m, t, b, sg) :: b <= now
    }

    lemma {:induction false} KeepsMore(sg: Sigs, f: nat, typed: bool, was: set<Var>, between: set<Var>, now: set<Var>)
      requires ProgOk(p) && f < |p.fns| && Monotone(t) && Keeps(sg, was, between) && now <= between
      requires typed ==> HasSite(sg, f)
      requires SparesIn(p, m, Cx(sg, f, t.slots(between, sg, f, typed), now), p.fns[f].body, between, now)
      ensures Keeps(sg, was, now)
    {
      var cx := Cx(sg, f, t.slots(between, sg, f, typed), now);
      forall b: set<Var> | b <= was && Settled(p, m, t, b, sg) ensures b <= now {
        assert SettledFn(p, m, t, b, sg, f) && b <= between;
        assert Holds(p, m, BodyCx(t, b, sg, f, typed), p.fns[f].body);
        assert Inner(BodyCx(t, b, sg, f, typed), cx.(boxes := between));
      }
    }

    /** ibox_settle. What is left is the greatest settled set among the boxes it starts with. */
    method Settle(sg: Sigs) returns (dropped: bool)
      requires ProgOk(p)
      modifies this
      ensures boxes <= old(boxes) && Settled(p, m, t, boxes, sg) && (dropped <==> boxes != old(boxes))
      ensures Monotone(t) ==> forall b: set<Var> | b <= old(boxes) && Settled(p, m, t, b, sg) :: b <= boxes
    {
      dropped := false;
      changed := true;
      while changed
        invariant boxes <= old(boxes) && (dropped <==> boxes != old(boxes))
        invariant !changed ==> Settled(p, m, t, boxes, sg)
        invariant Monotone(t) ==> Keeps(sg, old(boxes), boxes)
        decreases |boxes|, changed
      {
        changed := false;
        ghost var was := boxes;
        Round(sg);
        if changed { ProperSize(boxes, was); }
        dropped := dropped || changed;
      }
    }

    /** codegen_module: infer, settle, and infer again until settling drops nothing. Then
        every store into a surviving int box is int-typed, under both entries of its
        function, with the signatures inferred from just these boxes. */
    method Alternate() returns (sg: Sigs)
      requires ProgOk(p)
      modifies this
      ensures boxes <= old(boxes) && sg == t.infer(boxes) && Settled(p, m, t, boxes, sg)
    {
      sg := t.infer(boxes);
      var again := Settle(sg);
      while again
        invariant boxes <= old(boxes) && Settled(p, m, t, boxes, sg) && (!again ==> sg == t.infer(boxes))
        decreases |boxes|, again
      {
        sg := t.infer(boxes);
        ghost var was := boxes;
        again := Settle(sg);
        if again { ProperSize(boxes, was); }
      }
    }
  }
}
