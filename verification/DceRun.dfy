module DceRun {
  // The worklist that finds what survives, and the whole pruned module's behaviour
  // (src/wat2wasm.c, dce_mark, dce_scan and assemble).

  import opened Sets
  import opened Keep
  import opened Dce

  // ----- counting -----

  function Below(n: nat): (s: set<nat>)
    ensures |s| == n && forall e | e in s :: e < n
    ensures forall e: nat | e < n :: e in s
  {
    if n == 0 then {} else Below(n - 1) + {n - 1}
  }

  predicate InRange(s: set<nat>, n: nat) {
    forall e | e in s :: e < n
  }

  lemma {:induction false} InRangeParts(a: set<nat>, b: set<nat>, n: nat)
    requires InRange(a + b, n)
    ensures InRange(a, n) && InRange(b, n)
  {
    forall e | e in a || e in b ensures e < n { assert e in a + b; }
  }

  predicate Distinct(xs: seq<nat>) {
    forall i, j | 0 <= i < j < |xs| :: xs[i] != xs[j]
  }

  function Elems(xs: seq<nat>): set<nat> { set e | e in xs }

  lemma {:induction false} DistinctFits(xs: seq<nat>, n: nat)
    requires Distinct(xs) && forall e | e in xs :: e < n
    ensures |xs| <= n && |Elems(xs)| == |xs|
  {
    DistinctSize(xs);
    SubsetSize(Elems(xs), Below(n));
  }

  lemma {:induction false} DistinctSize(xs: seq<nat>)
    requires Distinct(xs)
    ensures |Elems(xs)| == |xs|
  {
    if xs != [] {
      var k := |xs| - 1;
      DistinctSize(xs[..k]);
      assert Elems(xs) == Elems(xs[..k]) + {xs[k]};
    }
  }

  lemma {:induction false} SubsetSize(a: set<nat>, b: set<nat>)
    requires a <= b
    ensures |a| <= |b|
    decreases |a|
  {
    if a != {} {
      var e :| e in a;
      SubsetSize(a - {e}, b - {e});
    }
  }

  lemma {:induction false} ElemsAppend(xs: seq<nat>, e: nat)
    ensures Elems(xs + [e]) == Elems(xs) + {e}
    ensures Distinct(xs) && e !in Elems(xs) ==> Distinct(xs + [e])
  {
    var ys := xs + [e];
    forall x ensures x in Elems(ys) <==> x in Elems(xs) + {e} {
      if x in xs { var i :| 0 <= i < |xs| && xs[i] == x; assert ys[i] == x; }
      assert ys[|xs|] == e;
    }
    if Distinct(xs) && e !in Elems(xs) {
      forall i, j | 0 <= i < j < |ys| ensures ys[i] != ys[j] {
        if j == |xs| { assert xs[i] in Elems(xs); }
      }
    }
  }

  // ----- the worklist -----

  function LiveSet(reach: seq<bool>): set<nat> { set e: nat | e < |reach| && reach[e] }

  /** What is on the stack is marked, and what was ever pushed is what is marked,
      each index once. */
  ghost predicate Sane(reach: seq<bool>, stack: seq<nat>, pushed: seq<nat>) {
    && Distinct(pushed) && Elems(pushed) == LiveSet(reach)
    && Distinct(stack) && Elems(stack) <= LiveSet(reach)
  }

  /** There is always room for an index not yet marked. */
  lemma {:induction false} MarkSane(reach: seq<bool>, stack: seq<nat>, pushed: seq<nat>, e: nat)
    requires Sane(reach, stack, pushed) && e < |reach| && !reach[e]
    ensures |stack| < |reach| && Sane(reach[e := true], stack + [e], pushed + [e])
    ensures LiveSet(reach[e := true]) == LiveSet(reach) + {e} && Elems(stack + [e]) == Elems(stack) + {e}
  {
    ElemsAppend(stack, e);
    ElemsAppend(pushed, e);
    forall x | x in stack + [e] ensures x < |reach| { assert x in Elems(stack + [e]); }
    DistinctFits(stack + [e], |reach|);
  }

  class Worklist {
    const size: nat
    var reach: array<bool>
    var stack: array<nat>
    var sp: nat
    ghost var pushed: seq<nat> // every index ever pushed, in order

    ghost predicate Valid()
      reads this, reach, stack
    {
      reach.Length == size && stack.Length == size && sp <= size && Sane(reach[..], stack[..sp], pushed)
    }

    ghost function Marked(): set<nat>
      reads this, reach
    {
      LiveSet(reach[..])
    }

    ghost function Pending(): set<nat>
      reads this, stack
      requires sp <= stack.Length
    {
      Elems(stack[..sp])
    }

    constructor (n: nat)
      ensures Valid() && size == n && Marked() == {} && sp == 0 && pushed == []
      ensures fresh(reach) && fresh(stack)
    {
      size, sp, pushed := n, 0, [];
      reach := new bool[n](_ => false);
      stack := new nat[n](_ => 0);
      new;
      assert stack[..sp] == [];
    }

    /** dce_mark: each index is pushed at most once, so the stack never overflows. */
    method Mark(e: nat)
      requires Valid() && e < size
      modifies this`sp, this`pushed, reach, stack
      ensures Valid() && Marked() == old(Marked()) + {e}
      ensures Pending() == old(Pending()) + ({e} - old(Marked()))
      ensures pushed == if e in old(Marked()) then old(pushed) else old(pushed) + [e]
    {
      if !reach[e] {
        ghost var was, set0 := stack[..sp], reach[..];
        MarkSane(set0, was, pushed, e);
        reach[e] := true;
        stack[sp] := e;
        sp := sp + 1;
        pushed := pushed + [e];
        assert stack[..sp] == was + [e] && reach[..] == set0[e := true];
      }
    }

    /** dce_scan. */
    method Scan(ns: Nodes, gbase: nat)
      requires Valid() && InRange(Refs(ns, gbase), size)
      modifies this`sp, this`pushed, reach, stack
      ensures Valid() && Marked() == old(Marked()) + Refs(ns, gbase)
      ensures Pending() == old(Pending()) + (Refs(ns, gbase) - old(Marked()))
      decreases ns, 0
    {
      match ns
      case Nil =>
      case Cons(n, tl) =>
        InRangeParts(NodeRefs(n, gbase), Refs(tl, gbase), size);
        ScanNode(n, gbase);
        Scan(tl, gbase);
    }

    method ScanNode(n: Node, gbase: nat)
      requires Valid() && InRange(NodeRefs(n, gbase), size)
      modifies this`sp, this`pushed, reach, stack
      ensures Valid() && Marked() == old(Marked()) + NodeRefs(n, gbase)
      ensures Pending() == old(Pending()) + (NodeRefs(n, gbase) - old(Marked()))
      decreases n, 1
    {
      match n
      case Plain(op, operands) =>
        InRangeParts(OpRefs(op, gbase), Refs(operands, gbase), size);
        MarkOp(op, gbase);
        Scan(operands, gbase);
      case Block(_, body) => Scan(body, gbase);
      case Loop(_, body) => Scan(body, gbase);
      case If(_, _, _, _) => ScanIf(n, gbase);
    }

    method ScanIf(n: Node, gbase: nat)
      requires Valid() && n.If? && InRange(NodeRefs(n, gbase), size)
      modifies this`sp, this`pushed, reach, stack
      ensures Valid() && Marked() == old(Marked()) + NodeRefs(n, gbase)
      ensures Pending() == old(Pending()) + (NodeRefs(n, gbase) - old(Marked()))
      decreases n, 0
    {
      ghost var a, b, c := Refs(n.cond, gbase), Refs(n.thn, gbase), Refs(n.els, gbase);
      InRangeParts(a + b, c, size);
      InRangeParts(a, b, size);
      Scan(n.cond, gbase);
      Scan(n.thn, gbase);
      assert Marked() == old(Marked()) + (a + b) && Pending() == old(Pending()) + (a + b - old(Marked()));
      Scan(n.els, gbase);
    }

    method MarkOp(op: Op, gbase: nat)
      requires Valid() && InRange(OpRefs(op, gbase), size)
      modifies this`sp, this`pushed, reach, stack
      ensures Valid() && Marked() == old(Marked()) + OpRefs(op, gbase)
      ensures Pending() == old(Pending()) + (OpRefs(op, gbase) - old(Marked()))
    {
      match op {
        case Call(f) => Mark(f);
        case ReturnCall(f) => Mark(f);
        case RefFunc(f) => Mark(f);
        case GlobalGet(g) => Mark(gbase + g);
        case GlobalSet(g) => Mark(gbase + g);
        case _ =>
      }
    }

    method Pop() returns (e: nat)
      requires Valid() && sp > 0
      modifies this`sp
      ensures Valid() && e < size && e in Marked() && e in old(Pending()) && Pending() == old(Pending()) - {e}
    {
      sp := sp - 1;
      e := stack[sp];
      assert stack[..sp + 1] == stack[..sp] + [e];
      assert e in stack[..sp + 1] && e in Elems(stack[..sp + 1]);
    }
  }

  /** Everything marked so far is in every closed set, and what is not pending has
      had its references marked. */
  ghost predicate Explored(m: Module, marked: set<nat>, pending: set<nat>) {
    && (forall e | e in marked && e !in pending && e < Size(m) :: EntityRefs(m, e) <= marked)
    && forall s: set<nat> | Closed(m, s) :: marked <= s
  }

  // ----- what is marked, in terms of the module's text -----

  predicate Exported(m: Module, e: nat) { exists i :: 0 <= i < |m.funcs| && m.funcs[i].exported && e == m.imports + i }

  /** An instruction among ns, or among their operands and bodies, is one of ops. */
  predicate Has(ns: Nodes, ops: set<Op>)
    decreases ns
  {
    ns.Cons? && (HasIn(ns.hd, ops) || Has(ns.tl, ops))
  }

  predicate HasIn(n: Node, ops: set<Op>)
    decreases n
  {
    match n
    case Plain(op, operands) => op in ops || Has(operands, ops)
    case Block(_, body) => Has(body, ops)
    case Loop(_, body) => Has(body, ops)
    case If(_, cond, thn, els) => Has(cond, ops) || Has(thn, ops) || Has(els, ops)
  }

  /** The instructions that call e, take its address, read it or write it. */
  function Uses(m: Module, e: nat): set<Op> {
    if e < GBase(m) then {Call(e), ReturnCall(e), RefFunc(e)}
    else {GlobalGet(e - GBase(m)), GlobalSet(e - GBase(m))}
  }

  /** Entity d's body or initializer names e. */
  predicate NamedBy(m: Module, d: nat, e: nat) {
    || (exists i :: 0 <= i < |m.funcs| && d == m.imports + i && Has(m.funcs[i].body, Uses(m, e)))
    || (exists g :: 0 <= g < |m.globals| && d == GBase(m) + g && Has(m.globals[g], Uses(m, e)))
  }

  lemma {:induction false} HasRefs(m: Module, ns: Nodes, e: nat)
    requires CodeResolved(m, ns)
    ensures Has(ns, Uses(m, e)) <==> e in Refs(ns, GBase(m))
    decreases ns
  {
    if ns.Cons? {
      HasRefsIn(m, ns.hd, e);
      HasRefs(m, ns.tl, e);
    }
  }

  lemma {:induction false} HasRefsIn(m: Module, n: Node, e: nat)
    requires NodeResolved(m, n)
    ensures HasIn(n, Uses(m, e)) <==> e in NodeRefs(n, GBase(m))
    decreases n
  {
    match n
    case Plain(op, operands) => HasRefs(m, operands, e);
    case Block(_, body) => HasRefs(m, body, e);
    case Loop(_, body) => HasRefs(m, body, e);
    case If(_, cond, thn, els) =>
      HasRefs(m, cond, e);
      HasRefs(m, thn, e);
      HasRefs(m, els, e);
  }

  lemma {:induction false} NamedRefs(m: Module, d: nat, e: nat)
    requires Resolved(m) && d < Size(m)
    ensures NamedBy(m, d, e) <==> e in EntityRefs(m, d)
  {
    assert CodeResolved(m, CodeOf(m, d));
    HasRefs(m, CodeOf(m, d), e);
    if m.imports <= d < GBase(m) { assert CodeOf(m, d) == m.funcs[d - m.imports].body; }
    if d >= GBase(m) { assert CodeOf(m, d) == m.globals[d - GBase(m)]; }
  }

  lemma {:induction false} ExportedRoot(m: Module, e: nat)
    ensures IsRoot(m, e) <==> Exported(m, e)
  {
    if m.imports <= e < GBase(m) { assert e == m.imports + (e - m.imports); }
  }

  /** Marked for a reason: e is exported, or something marked names it. */
  predicate Wanted(m: Module, reach: seq<bool>, e: nat) {
    Exported(m, e) || exists d: nat :: d < |reach| && reach[d] && NamedBy(m, d, e)
  }

  /** The least closed set holds what is wanted, and nothing else. */
  lemma {:induction false} LeastWanted(m: Module, reach: seq<bool>, e: nat)
    requires Resolved(m) && |reach| == Size(m) && e < Size(m)
    requires Closed(m, LiveSet(reach)) && forall s: set<nat> | Closed(m, s) :: LiveSet(reach) <= s
    ensures reach[e] <==> Wanted(m, reach, e)
  {
    var live := LiveSet(reach);
    ExportedRoot(m, e);
    forall d: nat | d < |reach| && reach[d] ensures NamedBy(m, d, e) <==> e in EntityRefs(m, d) { NamedRefs(m, d, e); }
    if Wanted(m, reach, e) {
      if !Exported(m, e) {
        var d: nat :| d < |reach| && reach[d] && NamedBy(m, d, e);
        assert d in live && EntityRefs(m, d) <= live;
      }
      assert e in live;
    } else {
      var fewer := live - {e};
      forall d | d in fewer && d < Size(m) ensures EntityRefs(m, d) <= fewer {
        assert reach[d] && !NamedBy(m, d, e);
      }
      assert Closed(m, fewer);
    }
  }

  /** The reachability loop: `reach` is exactly the least closed set. What is marked is what
      is exported or named by something marked. */
  method FindLive(m: Module) returns (reach: seq<bool>)
    requires Resolved(m)
    ensures |reach| == Size(m)
    ensures Closed(m, LiveSet(reach)) && forall s: set<nat> | Closed(m, s) :: LiveSet(reach) <= s
    ensures forall i | 0 <= i < |m.funcs| && m.funcs[i].exported :: reach[m.imports + i]
    ensures forall e: nat | e < |reach| :: reach[e] <==> Wanted(m, reach, e)
  {
    var w := new Worklist(Size(m));
    MarkRoots(m, w);
    Explore(m, w);
    reach := w.reach[..];
    forall e: nat | e < |reach| ensures reach[e] <==> Wanted(m, reach, e) { LeastWanted(m, reach, e); }
    forall i | 0 <= i < |m.funcs| && m.funcs[i].exported ensures reach[m.imports + i] {
      assert Exported(m, m.imports + i);
    }
  }

  lemma {:induction false} ExploreRoot(m: Module, marked: set<nat>, e: nat)
    requires Explored(m, marked, marked) && IsRoot(m, e)
    ensures Explored(m, marked + {e}, marked + {e})
  {
  }

  method MarkRoots(m: Module, w: Worklist)
    requires w.Valid() && w.size == Size(m) && w.Marked() == {} && w.sp == 0
    modifies w`sp, w`pushed, w.reach, w.stack
    ensures w.Valid() && Explored(m, w.Marked(), w.Pending())
    ensures forall e: nat | IsRoot(m, e) :: e in w.Marked()
  {
    var i := 0;
    assert w.Pending() == {};
    while i < |m.funcs|
      invariant 0 <= i <= |m.funcs| && w.Valid()
      invariant w.Pending() == w.Marked() && Explored(m, w.Marked(), w.Pending())
        && RootsBelow(m, w.Marked(), m.imports + i)
    {
      if m.funcs[i].exported { MarkRoot(m, w, m.imports + i); }
      i := i + 1;
    }
  }

  ghost predicate RootsBelow(m: Module, marked: set<nat>, n: nat) {
    forall e: nat | IsRoot(m, e) && e < n :: e in marked
  }

  method MarkRoot(m: Module, w: Worklist, e: nat)
    requires w.Valid() && w.size == Size(m) && IsRoot(m, e) && e < Size(m)
    requires w.Pending() == w.Marked() && Explored(m, w.Marked(), w.Pending())
    modifies w`sp, w`pushed, w.reach, w.stack
    ensures w.Valid() && w.Pending() == w.Marked() == old(w.Marked()) + {e} && Explored(m, w.Marked(), w.Pending())
  {
    ExploreRoot(m, w.Marked(), e);
    w.Mark(e);
  }

  /** Take an index off the stack and mark what it refers to. */
  method Visit(m: Module, w: Worklist) returns (ghost e: nat)
    requires Resolved(m) && w.Valid() && w.size == Size(m) && w.sp > 0
    modifies w`sp, w`pushed, w.reach, w.stack
    ensures w.Valid() && e < Size(m) && e in old(w.Marked()) && e in old(w.Pending())
    ensures w.Marked() == old(w.Marked()) + EntityRefs(m, e)
    ensures w.Pending() == old(w.Pending()) - {e} + (EntityRefs(m, e) - old(w.Marked()))
  {
    var i := w.Pop();
    e := i;
    CodeInRange(m, CodeOf(m, i));
    if i < GBase(m) {
      if i >= m.imports { w.Scan(m.funcs[i - m.imports].body, GBase(m)); }
    } else {
      w.Scan(m.globals[i - GBase(m)], GBase(m));
    }
  }

  lemma {:induction false} CodeInRange(m: Module, ns: Nodes)
    requires CodeResolved(m, ns)
    ensures InRange(Refs(ns, GBase(m)), Size(m))
    decreases ns
  {
    if ns.Cons? {
      NodeInRange(m, ns.hd);
      CodeInRange(m, ns.tl);
    }
  }

  lemma {:induction false} NodeInRange(m: Module, n: Node)
    requires NodeResolved(m, n)
    ensures InRange(NodeRefs(n, GBase(m)), Size(m))
    decreases n
  {
    match n
    case Plain(op, operands) => CodeInRange(m, operands);
    case Block(_, body) => CodeInRange(m, body);
    case Loop(_, body) => CodeInRange(m, body);
    case If(_, cond, thn, els) =>
      CodeInRange(m, cond);
      CodeInRange(m, thn);
      CodeInRange(m, els);
  }

  method Explore(m: Module, w: Worklist)
    requires Resolved(m) && w.Valid() && w.size == Size(m)
    requires Explored(m, w.Marked(), w.Pending()) && forall e: nat | IsRoot(m, e) :: e in w.Marked()
    modifies w`sp, w`pushed, w.reach, w.stack
    ensures w.Valid() && w.sp == 0 && Closed(m, w.Marked())
    ensures forall s: set<nat> | Closed(m, s) :: w.Marked() <= s
  {
    while w.sp > 0
      invariant w.Valid() && Explored(m, w.Marked(), w.Pending())
      invariant forall e: nat | IsRoot(m, e) :: e in w.Marked()
      decreases w.size - |w.Marked()|, |w.Pending()|
    {
      ghost var marked, pending := w.Marked(), w.Pending();
      MarkedFits(w.reach[..]);
      ghost var e := Visit(m, w);
      MarkedFits(w.reach[..]);
      ExploreStep(m, marked, pending, e);
      if w.Marked() != marked {
        ProperSize(marked, w.Marked());
      } else {
        assert w.Pending() == pending - {e};
      }
    }
    assert w.Pending() == {};
  }

  lemma {:induction false} MarkedFits(reach: seq<bool>)
    ensures |LiveSet(reach)| <= |reach|
  {
    SubsetSize(LiveSet(reach), Below(|reach|));
  }

  lemma {:induction false} ExploreStep(m: Module, marked: set<nat>, pending: set<nat>, e: nat)
    requires e in marked && e < Size(m) && e in pending && Explored(m, marked, pending)
    ensures Explored(m, marked + EntityRefs(m, e), pending - {e} + (EntityRefs(m, e) - marked))
  {
    forall s: set<nat> | Closed(m, s) ensures marked + EntityRefs(m, e) <= s {
      assert marked <= s && EntityRefs(m, e) <= s;
    }
  }

  // ----- the pruned module -----

  /** func_remap: imports first, then the live functions. */
  method RemapFuncs(p: Plan) returns (remap: array<int>)
    ensures remap.Length == p.imports + |p.funcs|
    ensures forall f | 0 <= f < remap.Length :: remap[f] == MapFunc(p, f)
  {
    remap := new int[p.imports + |p.funcs|];
    var n, i := 0, 0;
    while i < p.imports
      invariant 0 <= i == n <= p.imports && forall f | 0 <= f < i :: remap[f] == MapFunc(p, f)
    {
      remap[i] := n;
      n, i := n + 1, i + 1;
    }
    i := 0;
    while i < |p.funcs|
      invariant 0 <= i <= |p.funcs| && n == p.imports + Rank(p.funcs, i)
      invariant forall f | 0 <= f < p.imports + i :: remap[f] == MapFunc(p, f)
    {
      remap[p.imports + i] := if p.funcs[i] then n else DROPPED;
      if p.funcs[i] { n := n + 1; }
      i := i + 1;
    }
  }

  /** The pass as a whole: flags of the least closed set, and the remaps. */
  method Assemble(m: Module) returns (reach: seq<bool>, p: Plan, funcRemap: array<int>, globalRemap: array<int>)
    requires Resolved(m)
    ensures |reach| == Size(m) && p == PlanOf(m, reach) && Sound(m, p)
    ensures Closed(m, LiveSet(reach)) && forall s: set<nat> | Closed(m, s) :: LiveSet(reach) <= s
    ensures forall i | 0 <= i < |m.funcs| && m.funcs[i].exported :: reach[m.imports + i]
    ensures forall e: nat | e < |reach| :: reach[e] <==> Wanted(m, reach, e)
    ensures funcRemap.Length == GBase(m) && forall f | 0 <= f < GBase(m) :: funcRemap[f] == MapFunc(p, f)
    ensures globalRemap.Length == |m.globals| && forall g | 0 <= g < |m.globals| :: globalRemap[g] == MapGlobal(p, g)
  {
    reach := FindLive(m);
    p := PlanOf(m, reach);
    ClosedSound(m, reach);
    funcRemap := RemapFuncs(p);
    var n;
    globalRemap, n := Renumber(p.globals);
  }

  lemma {:induction false} CodeLive(m: Module, reach: seq<bool>, ns: Nodes)
    requires |reach| == Size(m) && CodeResolved(m, ns) && Refs(ns, GBase(m)) <= LiveSet(reach)
    ensures LiveCode(PlanOf(m, reach), ns)
    decreases ns
  {
    if ns.Cons? {
      NodeLive(m, reach, ns.hd);
      CodeLive(m, reach, ns.tl);
    }
  }

  lemma {:induction false} NodeLive(m: Module, reach: seq<bool>, n: Node)
    requires |reach| == Size(m) && NodeResolved(m, n) && NodeRefs(n, GBase(m)) <= LiveSet(reach)
    ensures LiveNode(PlanOf(m, reach), n)
    decreases n
  {
    match n
    case Plain(op, operands) =>
      assert OpRefs(op, GBase(m)) <= LiveSet(reach);
      OpLive(m, reach, op);
      CodeLive(m, reach, operands);
    case Block(_, body) => CodeLive(m, reach, body);
    case Loop(_, body) => CodeLive(m, reach, body);
    case If(_, cond, thn, els) =>
      CodeLive(m, reach, cond);
      CodeLive(m, reach, thn);
      CodeLive(m, reach, els);
  }

  lemma {:induction false} OpLive(m: Module, reach: seq<bool>, op: Op)
    requires |reach| == Size(m) && OpResolved(m, op) && OpRefs(op, GBase(m)) <= LiveSet(reach)
    ensures LiveOp(PlanOf(m, reach), op)
  {
    match op
    case Call(f) => assert f in LiveSet(reach);
    case ReturnCall(f) => assert f in LiveSet(reach);
    case RefFunc(f) => assert f in LiveSet(reach);
    case GlobalGet(g) => assert GBase(m) + g in LiveSet(reach);
    case GlobalSet(g) => assert GBase(m) + g in LiveSet(reach);
    case _ =>
  }

  /** A closed set of survivors refers to survivors only. */
  lemma {:induction false} ClosedSound(m: Module, reach: seq<bool>)
    requires Resolved(m) && |reach| == Size(m) && Closed(m, LiveSet(reach))
    ensures Sound(m, PlanOf(m, reach))
  {
    var p := PlanOf(m, reach);
    forall i | 0 <= i < |m.funcs| && p.funcs[i] ensures LiveCode(p, m.funcs[i].body) {
      var e := m.imports + i;
      assert e in LiveSet(reach) && EntityRefs(m, e) <= LiveSet(reach) && CodeResolved(m, CodeOf(m, e));
      CodeLive(m, reach, m.funcs[i].body);
    }
    forall g | 0 <= g < |m.globals| && p.globals[g] ensures LiveCode(p, m.globals[g]) {
      var e := GBase(m) + g;
      assert e in LiveSet(reach) && EntityRefs(m, e) <= LiveSet(reach) && CodeResolved(m, CodeOf(m, e));
      CodeLive(m, reach, m.globals[g]);
    }
  }

  /** The first n globals of the pruned module are the live ones of the original. */
  ghost predicate InitAlike(m: Module, p: Plan, w: World, n: nat, gs: seq<Value>, fuel: nat)
    requires Fits(m, p)
  {
    && n <= |m.globals| && |gs| == n && Rank(p.globals, n) <= |Prune(m, p).globals|
    && (forall g | 0 <= g < n && p.globals[g] :: LiveValue(p, gs[g]))
    && LiveValues(p, Kept(p.globals, gs, n))
    && InitGlobals(Prune(m, p), w, Rank(p.globals, n), fuel) == MapValues(p, Kept(p.globals, gs, n))
  }

  lemma {:induction false} InitMatches(m: Module, p: Plan, w: World, n: nat, fuel: nat)
    requires Sound(m, p) && n <= |m.globals|
    ensures InitAlike(m, p, w, n, InitGlobals(m, w, n, fuel), fuel)
    decreases n
  {
    if n > 0 {
      InitMatches(m, p, w, n - 1, fuel);
      InitGrown(m, p, w, n, InitGlobals(m, w, n - 1, fuel), fuel);
    }
  }

  lemma {:induction false} InitUnfold(m: Module, w: World, n: nat, fuel: nat)
    requires 0 < n <= |m.globals|
    ensures var gs := InitGlobals(m, w, n - 1, fuel);
      InitGlobals(m, w, n, fuel) == gs + [InitValue(m, w, m.globals[n - 1], gs, fuel)]
  {
  }

  lemma {:induction false} InitGrown(m: Module, p: Plan, w: World, n: nat, gs: seq<Value>, fuel: nat)
    requires Sound(m, p) && 0 < n <= |m.globals| && gs == InitGlobals(m, w, n - 1, fuel)
      && InitAlike(m, p, w, n - 1, gs, fuel)
    ensures InitAlike(m, p, w, n, InitGlobals(m, w, n, fuel), fuel)
  {
    InitUnfold(m, w, n, fuel);
    RankMonotone(p.globals, n, |m.globals|);
    var v := InitValue(m, w, m.globals[n - 1], gs, fuel);
    if p.globals[n - 1] { InitNext(m, p, w, n, gs, fuel); }
    GrownAlike(m, p, w, n, gs, v, fuel);
  }

  lemma {:induction false} GrownAlike(m: Module, p: Plan, w: World, n: nat, gs: seq<Value>, v: Value, fuel: nat)
    requires Fits(m, p) && 0 < n <= |m.globals| && InitAlike(m, p, w, n - 1, gs, fuel)
      && (p.globals[n - 1] ==> LiveValue(p, v))
    requires Rank(p.globals, n) <= |Prune(m, p).globals|
    requires p.globals[n - 1] ==>
      InitGlobals(Prune(m, p), w, Rank(p.globals, n), fuel) == MapValues(p, Kept(p.globals, gs, n - 1) + [v])
    ensures InitAlike(m, p, w, n, gs + [v], fuel)
  {
    KeptPrefix(p.globals, gs, v, n - 1);
    KeptLive(p, gs + [v], n);
  }

  lemma {:induction false} InitNext(m: Module, p: Plan, w: World, n: nat, gs: seq<Value>, fuel: nat)
    requires Sound(m, p) && 0 < n <= |m.globals| && p.globals[n - 1] && gs == InitGlobals(m, w, n - 1, fuel)
    requires |gs| == n - 1 && forall g | 0 <= g < n - 1 && p.globals[g] :: LiveValue(p, gs[g])
    requires Rank(p.globals, n) <= |Prune(m, p).globals|
    requires InitGlobals(Prune(m, p), w, Rank(p.globals, n - 1), fuel) == MapValues(p, Kept(p.globals, gs, n - 1))
    ensures var v := InitValue(m, w, m.globals[n - 1], gs, fuel);
            && LiveValue(p, v)
            && InitGlobals(Prune(m, p), w, Rank(p.globals, n), fuel) == MapValues(p, Kept(p.globals, gs, n - 1) + [v])
  {
    var v, k := InitValue(m, w, m.globals[n - 1], gs, fuel), Rank(p.globals, n - 1);
    InitLast(m, p, w, n, gs, fuel);
    InitUnfold(Prune(m, p), w, k + 1, fuel);
    MapLast(p, Kept(p.globals, gs, n - 1), v);
  }

  lemma {:induction false} MapLast(p: Plan, vs: seq<Value>, v: Value)
    requires LiveValues(p, vs) && LiveValue(p, v)
    ensures MapValues(p, vs + [v]) == MapValues(p, vs) + [MapValue(p, v)]
  {
    MapConcat(p, vs, [v]);
    assert MapValues(p, [v]) == [MapValue(p, v)];
  }

  lemma {:induction false} KeptLive(p: Plan, gs: seq<Value>, n: nat)
    requires n <= |gs| && n <= |p.globals| && forall g | 0 <= g < n && p.globals[g] :: LiveValue(p, gs[g])
    ensures LiveValues(p, Kept(p.globals, gs, n))
    decreases n
  {
    if n > 0 { KeptLive(p, gs, n - 1); }
  }

  lemma {:induction false} InitLast(m: Module, p: Plan, w: World, n: nat, gs: seq<Value>, fuel: nat)
    requires Sound(m, p) && 0 < n <= |m.globals| && p.globals[n - 1] && |gs| == n - 1
    requires forall g | 0 <= g < n - 1 && p.globals[g] :: LiveValue(p, gs[g])
    requires Rank(p.globals, n) <= |Prune(m, p).globals|
    ensures var v, k := InitValue(m, w, m.globals[n - 1], gs, fuel), Rank(p.globals, n - 1);
            && k + 1 == Rank(p.globals, n) && k < |Prune(m, p).globals|
            && LiveValues(p, Kept(p.globals, gs, n - 1)) && LiveValue(p, v)
            && InitValue(Prune(m, p), w, Prune(m, p).globals[k], MapValues(p, Kept(p.globals, gs, n - 1)), fuel) ==
              MapValue(p, v)
  {
    KeptLive(p, gs, n - 1);
    KeptAt(p.globals, m.globals, n - 1, |m.globals|);
    assert Prune(m, p).globals[Rank(p.globals, n - 1)] == MapInit(p)(m.globals[n - 1]);
    InitStep(m, p, w, m.globals[n - 1], gs, fuel);
  }

  lemma {:induction false} KeptPrefix<T>(live: seq<bool>, xs: seq<T>, x: T, n: nat)
    requires n <= |xs| && n <= |live|
    ensures Kept(live, xs + [x], n) == Kept(live, xs, n)
    decreases n
  {
    if n > 0 { KeptPrefix(live, xs, x, n - 1); }
  }

  lemma {:induction false} InitStep(m: Module, p: Plan, w: World, init: Nodes, gs: seq<Value>, fuel: nat)
    requires Sound(m, p) && LiveCode(p, init) && |gs| <= |m.globals|
    requires forall g | 0 <= g < |gs| && p.globals[g] :: LiveValue(p, gs[g])
    ensures LiveValue(p, InitValue(m, w, init, gs, fuel))
    ensures InitValue(Prune(m, p), w, MapCode(p, init), MapValues(p, Kept(p.globals, gs, |gs|)), fuel)
            == MapValue(p, InitValue(m, w, init, gs, fuel))
  {
    InstanceMatches(p, gs, []);
    ExecMatches(m, p, w, init, Instance(gs, []), fuel);
    assert MapValues(p, []) == [];
    ResultMatches(p, Exec(m, w, init, Instance(gs, []), fuel),
                  Exec(Prune(m, p), w, MapCode(p, init), MapState(p, Instance(gs, [])), fuel));
  }

  lemma {:induction false} ResultMatches(p: Plan, r: Result, r': Result)
    requires Matches(p, r, r')
    ensures LiveValue(p, ResultValue(r)) && ResultValue(r') == MapValue(p, ResultValue(r))
  {
  }

  lemma {:induction false} InstanceMatches(p: Plan, gs: seq<Value>, args: seq<Value>)
    requires |gs| <= |p.globals| && LiveValues(p, args)
    requires forall g | 0 <= g < |gs| && p.globals[g] :: LiveValue(p, gs[g])
    ensures LiveState(p, Instance(gs, args))
    ensures MapState(p, Instance(gs, args)) == Instance(MapValues(p, Kept(p.globals, gs, |gs|)), MapValues(p, args))
  {
    assert MapValues(p, []) == [];
  }

  function Nums(xs: seq<int>): seq<Value> { seq(|xs|, i requires 0 <= i < |xs| => Num(xs[i])) }

  /** The host calls function f with numbers, on a fresh instance. */
  function RunExport(m: Module, w: World, f: nat, args: seq<int>, fuel: nat): Result {
    Invoke(m, w, f, Instance(InitGlobals(m, w, |m.globals|, fuel), Nums(args)), fuel)
  }

  lemma {:induction false} InvokeEnds(m: Module, w: World, f: nat, s: State, fuel: nat)
    ensures var r := Invoke(m, w, f, s, fuel); r.out.Falls? || r.out.Traps? || r.out.OutOfFuel?
    decreases fuel
  {
    if fuel > 0 && m.imports <= f && Enters(m, f, s) {
      var r := BodyRun(m, w, f, s, fuel);
      InvokeEnters(m, w, f, s, fuel);
      if r.out.Tail? { InvokeEnds(m, w, r.out.f, Onto(m, f, s, r), fuel - 1); }
    }
  }

  /** Distinct live functions, and distinct live globals, stay distinct. */
  lemma {:induction false} RemapDistinct(p: Plan, i: nat, j: nat)
    ensures LiveFunc(p, i) && LiveFunc(p, j) ==> (MapFunc(p, i) == MapFunc(p, j) <==> i == j)
    ensures LiveGlobal(p, i) && LiveGlobal(p, j) ==> (MapGlobal(p, i) == MapGlobal(p, j) <==> i == j)
  {
    if LiveFunc(p, i) && LiveFunc(p, j) && i >= p.imports && j >= p.imports {
      RankInjective(p.funcs, i - p.imports, j - p.imports);
    }
    if LiveGlobal(p, i) && LiveGlobal(p, j) { RankInjective(p.globals, i, j); }
  }

  /** The new indices are used up: each is that of a live function, or of a live global. */
  lemma {:induction false} RemapOnto(m: Module, reach: seq<bool>, k: nat) returns (f: nat, g: nat)
    requires |reach| == Size(m)
    ensures var p, m' := PlanOf(m, reach), Prune(m, PlanOf(m, reach));
            && (k < GBase(m') ==> f < GBase(m) && LiveFunc(p, f) && MapFunc(p, f) == k)
            && (k < |m'.globals| ==> g < |m.globals| && LiveGlobal(p, g) && MapGlobal(p, g) == k)
  {
    var p, m' := PlanOf(m, reach), Prune(m, PlanOf(m, reach));
    f, g := k, 0;
    if m.imports <= k < GBase(m') {
      f := KeptFrom(p.funcs, k - m.imports, |p.funcs|);
      f := m.imports + f;
    }
    if k < |m'.globals| { g := KeptFrom(p.globals, k, |p.globals|); }
  }

  /** The function is there under its new index, exported and of the same type. */
  predicate StillExported(m: Module, p: Plan, f: nat)
    requires Fits(m, p) && m.imports <= f < GBase(m)
  {
    var fs, k := Prune(m, p).funcs, MapFunc(p, f) as int - m.imports;
    && 0 <= k < |fs| && fs[k].exported == m.funcs[f - m.imports].exported
    && fs[k].sig == m.funcs[f - m.imports].sig
  }

  lemma {:induction false} Exports(m: Module, p: Plan, f: nat)
    requires Fits(m, p) && m.imports <= f < GBase(m) && LiveFunc(p, f)
    ensures StillExported(m, p, f)
  {
    KeptAt(p.funcs, m.funcs, f - m.imports, |m.funcs|);
  }

  /** Every run of an exported function: the pruned module asks the host the same,
      ends the same, and hands back the same. */
  lemma {:induction false} ExportsAgree(m: Module, reach: seq<bool>, w: World, f: nat, args: seq<int>, fuel: nat)
    requires Resolved(m) && |reach| == Size(m) && Closed(m, LiveSet(reach))
    requires m.imports <= f < GBase(m) && m.funcs[f - m.imports].exported
    ensures var p := PlanOf(m, reach);
            var r, r' := RunExport(m, w, f, args, fuel), RunExport(Prune(m, p), w, MapFunc(p, f), args, fuel);
            && r'.s.store.tr == r.s.store.tr && Shapes(r'.s.stack) == Shapes(r.s.stack)
            && r'.out == r.out && Matches(p, r, r') && StillExported(m, p, f)
  {
    var p := PlanOf(m, reach);
    ClosedSound(m, reach);
    InitMatches(m, p, w, |m.globals|, fuel);
    assert IsRoot(m, f) && f in LiveSet(reach);
    Exports(m, p, f);
    RunMatches(m, p, w, f, args, fuel);
    SeenAlike(p, RunExport(m, w, f, args, fuel), RunExport(Prune(m, p), w, MapFunc(p, f), args, fuel));
  }

  lemma {:induction false} RunMatches(m: Module, p: Plan, w: World, f: nat, args: seq<int>, fuel: nat)
    requires Sound(m, p) && f < GBase(m) && LiveFunc(p, f)
    requires InitAlike(m, p, w, |m.globals|, InitGlobals(m, w, |m.globals|, fuel), fuel)
    ensures var r, r' := RunExport(m, w, f, args, fuel), RunExport(Prune(m, p), w, MapFunc(p, f), args, fuel);
            Matches(p, r, r') && !r.out.Tail?
  {
    var gs := InitGlobals(m, w, |m.globals|, fuel);
    assert MapValues(p, Nums(args)) == Nums(args);
    InstanceMatches(p, gs, Nums(args));
    InvokeMatches(m, p, w, f, Instance(gs, Nums(args)), fuel);
    InvokeEnds(m, w, f, Instance(gs, Nums(args)), fuel);
  }

  lemma {:induction false} SeenAlike(p: Plan, r: Result, r': Result)
    requires Matches(p, r, r') && !r.out.Tail?
    ensures r'.s.store.tr == r.s.store.tr && Shapes(r'.s.stack) == Shapes(r.s.stack) && r'.out == r.out
  {
    ShapesMatch(p, r.s.stack);
  }
}
