/** Name resolution. */
module Upvalues {
  // Name resolution (src/parser.c, resolve_in_frame) is lexical scoping: a use reaches the
  // innermost visible declaration, however many functions lie between, and closures carry that
  // variable's box (src/codegen/expr.c, emit_function_expr).

  import opened Options

  // ----- the parser's tables -----

  /** A declaration of a frame: a local, `global NAME`, or `global *`. */
  datatype Decl = Local(name: string, slot: nat) | Global(name: string, ro: bool) | GlobalAll(ro: bool)

  datatype Ref = FromLocal(idx: nat) | FromUpval(idx: nat)

  /** A function's frame, kept as its LuaFunc once it is closed. Function 0 is the chunk. */
  datatype Tab = Tab(parent: nat, decls: seq<Decl>, next: nat, upvals: seq<Ref>, captured: set<nat>)

  datatype Kind = VLocal(slot: nat) | VUpval(i: nat) | VGlobal(ro: bool) | Undeclared

  predicate RefOk(tabs: seq<Tab>, f: nat, r: Ref)
    requires f < |tabs|
  {
    && 0 < f && tabs[f].parent < f
    && match r
       case FromLocal(s) => s in tabs[tabs[f].parent].captured
       case FromUpval(i) => i < |tabs[tabs[f].parent].upvals|
  }

  ghost predicate TabOk(tabs: seq<Tab>, f: nat)
    requires f < |tabs|
  {
    && (f > 0 ==> tabs[f].parent < f)
    && (forall i | 0 <= i < |tabs[f].upvals| :: RefOk(tabs, f, tabs[f].upvals[i]))
    && (forall s | s in tabs[f].captured :: s < tabs[f].next)
    && (forall d | d in tabs[f].decls && d.Local? :: d.slot < tabs[f].next)
  }

  ghost predicate TabsOk(tabs: seq<Tab>) { forall f: nat | f < |tabs| :: TabOk(tabs, f) }

  /** The open functions, outermost first. */
  ghost predicate StackOk(tabs: seq<Tab>, stack: seq<nat>) {
    && stack != [] && stack[0] == 0 && (forall d | 0 <= d < |stack| :: stack[d] < |tabs|)
    && forall d | 0 < d < |stack| :: tabs[stack[d]].parent == stack[d - 1] && 0 < stack[d]
  }

  /** resolve_upval_origin: where an upvalue comes from, through every function between. */
  function Origin(tabs: seq<Tab>, f: nat, i: nat): (nat, nat)
    requires TabsOk(tabs) && f < |tabs| && i < |tabs[f].upvals|
    decreases f
  {
    assert TabOk(tabs, f);
    assert RefOk(tabs, f, tabs[f].upvals[i]);
    match tabs[f].upvals[i]
    case FromLocal(s) => (tabs[f].parent, s)
    case FromUpval(j) => Origin(tabs, tabs[f].parent, j)
  }

  /** The origin is a captured local of an enclosing function. */
  lemma {:induction false} OriginCaptured(tabs: seq<Tab>, f: nat, i: nat)
    requires TabsOk(tabs) && f < |tabs| && i < |tabs[f].upvals|
    ensures var (g, s) := Origin(tabs, f, i); g < f && s in tabs[g].captured && s < tabs[g].next
    decreases f
  {
    assert TabOk(tabs, f);
    assert RefOk(tabs, f, tabs[f].upvals[i]);
    var r := tabs[f].upvals[i];
    if r.FromUpval? { OriginCaptured(tabs, tabs[f].parent, r.idx); } else { assert TabOk(tabs, tabs[f].parent); }
  }

  // ----- lexical scoping -----

  /** A declaration in force, and the function it stands in. */
  datatype Seen = Seen(f: nat, d: Decl)

  function Tagged(f: nat, ds: seq<Decl>): (r: seq<Seen>)
    ensures |r| == |ds|
  {
    seq(|ds|, i requires 0 <= i < |ds| => Seen(f, ds[i]))
  }

  /** Everything in scope at depth d, in the order it was declared. */
  function InScope(tabs: seq<Tab>, stack: seq<nat>, d: nat): seq<Seen>
    requires d < |stack| && forall k | 0 <= k <= d :: stack[k] < |tabs|
    decreases d
  {
    (if d == 0 then [] else InScope(tabs, stack, d - 1)) + Tagged(stack[d], tabs[stack[d]].decls)
  }

  predicate Names(d: Decl, name: string) { !d.GlobalAll? && d.name == name }

  /** The innermost declaration of the name: the last one. */
  function Innermost(all: seq<Seen>, name: string): Option<Seen>
    decreases |all|
  {
    if all == [] then None
    else if Names(all[|all| - 1].d, name) then Some(all[|all| - 1])
    else Innermost(all[..|all| - 1], name)
  }

  /** The innermost `global *`, and whether it is read-only. */
  function Collective(all: seq<Seen>): Option<bool>
    decreases |all|
  {
    if all == [] then None
    else if all[|all| - 1].d.GlobalAll? then Some(all[|all| - 1].d.ro)
    else Collective(all[..|all| - 1])
  }

  predicate Voided(all: seq<Seen>) { exists i :: 0 <= i < |all| && all[i].d.Global? }

  /** A name no declaration binds: a global, unless a `global NAME` in scope without a
      `global *` voids the chunk's implicit one. _ENV is never free. */
  function Free(all: seq<Seen>, name: string): Kind {
    if name == "_ENV" then VGlobal(false)
    else
      match Collective(all)
      case Some(ro) => VGlobal(ro)
      case None => if Voided(all) then Undeclared else VGlobal(false)
  }

  /** The kind k found in function f for a name is what lexical scoping says, `above`
      being what is in scope inside f. */
  ghost predicate Lexical(tabs: seq<Tab>, f: nat, all: seq<Seen>, above: seq<Seen>, name: string, k: Kind)
    requires TabsOk(tabs) && f < |tabs|
  {
    match Innermost(all, name)
    case None => k == Free(all + above, name)
    case Some(x) =>
      match x.d
      case Global(_, ro) => k == VGlobal(ro)
      case Local(_, s) => if x.f == f then k == VLocal(s) else Through(tabs, f, k, x.f, s)
      case GlobalAll(_) => false
  }

  /** The same in plain words: among all that is in scope, outermost first, the last
      declaration of the name decides. */
  ghost predicate Scoped(tabs: seq<Tab>, f: nat, all: seq<Seen>, name: string, k: Kind)
    requires TabsOk(tabs) && f < |tabs|
  {
    && (forall i | 0 <= i < |all| && !all[i].d.GlobalAll? && all[i].d.name == name
          && (forall j | i < j < |all| :: all[j].d.GlobalAll? || all[j].d.name != name) :: Decides(tabs, f, all[i], k))
    && ((forall i | 0 <= i < |all| :: all[i].d.GlobalAll? || all[i].d.name != name) ==> Undecided(all, name, k))
  }

  /** What the deciding declaration x makes of a use in f. */
  ghost predicate Decides(tabs: seq<Tab>, f: nat, x: Seen, k: Kind)
    requires TabsOk(tabs) && f < |tabs|
  {
    match x.d
    case Local(_, s) => if x.f == f then k == VLocal(s) else Through(tabs, f, k, x.f, s)
    case Global(_, ro) => k == VGlobal(ro)
    case GlobalAll(_) => false
  }

  /** No declaration of the name: the last `global *` decides, and without one a `global NAME`
      of any other name makes it an error. */
  ghost predicate Undecided(all: seq<Seen>, name: string, k: Kind) {
    if name == "_ENV" then k == VGlobal(false)
    else
      && (forall i | 0 <= i < |all| && all[i].d.GlobalAll? && (forall j | i < j < |all| :: !all[j].d.GlobalAll?) ::
            k == VGlobal(all[i].d.ro))
      && ((forall i | 0 <= i < |all| :: !all[i].d.GlobalAll?) ==>
            k == if exists i :: 0 <= i < |all| && all[i].d.Global? then Undeclared else VGlobal(false))
  }

  lemma {:induction false} InnermostLast(all: seq<Seen>, name: string)
    ensures Innermost(all, name).None? <==> forall i | 0 <= i < |all| :: all[i].d.GlobalAll? || all[i].d.name != name
    ensures forall i | 0 <= i < |all| && !all[i].d.GlobalAll? && all[i].d.name == name
              && (forall j | i < j < |all| :: all[j].d.GlobalAll? || all[j].d.name != name) ::
              Innermost(all, name) == Some(all[i])
    decreases |all|
  {
    if all != [] {
      var n := |all| - 1;
      InnermostLast(all[..n], name);
      forall i | 0 <= i < n && !all[i].d.GlobalAll? && all[i].d.name == name
        && (forall j | i < j < |all| :: all[j].d.GlobalAll? || all[j].d.name != name)
        ensures Innermost(all, name) == Some(all[i])
      {
        assert all[..n][i] == all[i];
        assert all[n].d.GlobalAll? || all[n].d.name != name;
        forall j | i < j < n ensures all[..n][j].d.GlobalAll? || all[..n][j].d.name != name {
          assert all[j] == all[..n][j];
        }
      }
    }
  }

  lemma {:induction false} CollectiveLast(all: seq<Seen>)
    ensures Collective(all).None? <==> forall i | 0 <= i < |all| :: !all[i].d.GlobalAll?
    ensures forall i | 0 <= i < |all| && all[i].d.GlobalAll? && (forall j | i < j < |all| :: !all[j].d.GlobalAll?) ::
              Collective(all) == Some(all[i].d.ro)
    decreases |all|
  {
    if all != [] {
      var n := |all| - 1;
      CollectiveLast(all[..n]);
      forall i | 0 <= i < n && all[i].d.GlobalAll? && (forall j | i < j < |all| :: !all[j].d.GlobalAll?)
        ensures Collective(all) == Some(all[i].d.ro)
      {
        assert all[..n][i] == all[i];
        assert !all[n].d.GlobalAll?;
        forall j | i < j < n ensures !all[..n][j].d.GlobalAll? { assert all[j] == all[..n][j]; }
      }
    }
  }

  lemma {:induction false} LexicalScoped(tabs: seq<Tab>, f: nat, all: seq<Seen>, name: string, k: Kind)
    requires TabsOk(tabs) && f < |tabs| && Lexical(tabs, f, all, [], name, k)
    ensures Scoped(tabs, f, all, name, k)
  {
    assert all + [] == all;
    InnermostLast(all, name);
    CollectiveLast(all);
  }

  /** k is an upvalue of f that comes from slot s of function g, which is marked captured. */
  ghost predicate Through(tabs: seq<Tab>, f: nat, k: Kind, g: nat, s: nat)
    requires TabsOk(tabs) && f < |tabs|
  {
    k.VUpval? && k.i < |tabs[f].upvals| && Origin(tabs, f, k.i) == (g, s) && g < |tabs| && s in tabs[g].captured
  }

  lemma {:induction false} InnermostSplit(a: seq<Seen>, b: seq<Seen>, name: string)
    ensures Innermost(a + b, name) == if Innermost(b, name).Some? then Innermost(b, name) else Innermost(a, name)
    decreases |b|
  {
    if b == [] {
      assert a + b == a;
    } else {
      assert (a + b)[..|a + b| - 1] == a + b[..|b| - 1];
      InnermostSplit(a, b[..|b| - 1], name);
    }
  }

  lemma {:induction false} CollectiveSplit(a: seq<Seen>, b: seq<Seen>)
    ensures Collective(a + b) == if Collective(b).Some? then Collective(b) else Collective(a)
    decreases |b|
  {
    if b == [] {
      assert a + b == a;
    } else {
      assert (a + b)[..|a + b| - 1] == a + b[..|b| - 1];
      CollectiveSplit(a, b[..|b| - 1]);
    }
  }

  lemma {:induction false} VoidedSplit(a: seq<Seen>, b: seq<Seen>)
    ensures Voided(a + b) <==> Voided(a) || Voided(b)
  {
    if Voided(a) {
      var i :| 0 <= i < |a| && a[i].d.Global?;
      assert (a + b)[i].d.Global?;
    }
    if Voided(b) {
      var i :| 0 <= i < |b| && b[i].d.Global?;
      assert (a + b)[|a| + i].d.Global?;
    }
  }

  lemma {:induction false} InnermostIn(all: seq<Seen>, name: string)
    ensures Innermost(all, name).Some?
      ==> Innermost(all, name).value in all && Names(Innermost(all, name).value.d, name)
    decreases |all|
  {
    if all != [] { InnermostIn(all[..|all| - 1], name); }
  }

  // ----- what later parsing may change -----

  /** Tables only grow: upvalues are appended, captures are added. */
  ghost predicate Grown(a: seq<Tab>, b: seq<Tab>) {
    && |a| <= |b|
    && forall f: nat | f < |a| ::
         a[f].parent == b[f].parent && a[f].next <= b[f].next && a[f].upvals <= b[f].upvals
           && a[f].captured <= b[f].captured
  }

  /** A use keeps the variable it was resolved to, whatever is parsed later. */
  lemma {:induction false} OriginStays(a: seq<Tab>, b: seq<Tab>, f: nat, i: nat)
    requires TabsOk(a) && TabsOk(b) && Grown(a, b) && f < |a| && i < |a[f].upvals|
    ensures Origin(b, f, i) == Origin(a, f, i)
    decreases f
  {
    assert TabOk(a, f);
    assert RefOk(a, f, a[f].upvals[i]);
    assert a[f].upvals[i] == b[f].upvals[i];
    match a[f].upvals[i]
    case FromLocal(_) =>
    case FromUpval(j) => OriginStays(a, b, a[f].parent, j);
  }

  /** Growing one table keeps all of them in order. */
  lemma {:induction false} GrowOne(a: seq<Tab>, f: nat, t: Tab)
    requires TabsOk(a) && f < |a| && t.parent == a[f].parent && a[f].next <= t.next && a[f].upvals <= t.upvals
      && a[f].captured <= t.captured
    requires forall i | |a[f].upvals| <= i < |t.upvals| :: RefOk(a, f, t.upvals[i])
    requires (forall s | s in t.captured :: s < t.next) && forall d | d in t.decls && d.Local? :: d.slot < t.next
    ensures TabsOk(a[f := t]) && Grown(a, a[f := t])
  {
    var b := a[f := t];
    forall g: nat | g < |b| ensures TabOk(b, g) {
      assert TabOk(a, g);
      forall i | 0 <= i < |b[g].upvals| ensures RefOk(b, g, b[g].upvals[i]) {
        if g != f || i < |a[f].upvals| { assert RefOk(a, g, a[g].upvals[i]); }
      }
    }
  }

  lemma {:induction false} MoreTabs(a: seq<Tab>, t: Tab)
    requires TabsOk(a) && t.parent < |a| && t.upvals == [] && t.captured == {} && t.decls == []
    ensures TabsOk(a + [t]) && Grown(a, a + [t])
  {
    var b := a + [t];
    forall g: nat | g < |b| ensures TabOk(b, g) {
      if g < |a| {
        assert TabOk(a, g);
        forall i | 0 <= i < |b[g].upvals| ensures RefOk(b, g, b[g].upvals[i]) { assert RefOk(a, g, a[g].upvals[i]); }
      }
    }
  }

  // ----- the parser -----

  class Parser {
    var tabs: seq<Tab>
    var stack: seq<nat>

    ghost predicate Valid()
      reads this
    {
      TabsOk(tabs) && StackOk(tabs, stack)
    }

    ghost function All(): seq<Seen>
      requires Valid()
      reads this
    {
      InScope(tabs, stack, |stack| - 1)
    }

    constructor ()
      ensures Valid() && tabs == [Tab(0, [], 0, [], {})] && stack == [0]
    {
      tabs, stack := [Tab(0, [], 0, [], {})], [0];
    }

    /** frame_declare: a fresh slot. */
    method Declare(name: string) returns (slot: nat)
      requires Valid()
      modifies `tabs
      ensures Valid() && Grown(old(tabs), tabs) && |tabs| == |old(tabs)|
      ensures slot == old(tabs[stack[|stack| - 1]].next)
      ensures All() == old(All()) + [Seen(stack[|stack| - 1], Local(name, slot))]
    {
      var f := stack[|stack| - 1];
      assert TabOk(tabs, f);
      slot := tabs[f].next;
      Add(f, Local(name, slot), slot + 1);
    }

    /** frame_declare_global. */
    method DeclareGlobal(d: Decl)
      requires Valid() && !d.Local?
      modifies `tabs
      ensures Valid() && Grown(old(tabs), tabs) && |tabs| == |old(tabs)|
      ensures All() == old(All()) + [Seen(stack[|stack| - 1], d)]
    {
      assert TabOk(tabs, stack[|stack| - 1]);
      Add(stack[|stack| - 1], d, tabs[stack[|stack| - 1]].next);
    }

    method Add(f: nat, d: Decl, next: nat)
      requires Valid() && f == stack[|stack| - 1] && tabs[f].next <= next && (d.Local? ==> d.slot < next)
      modifies `tabs
      ensures Valid() && Grown(old(tabs), tabs) && |tabs| == |old(tabs)|
      ensures All() == old(All()) + [Seen(f, d)]
    {
      ghost var was := tabs;
      assert TabOk(tabs, f);
      var t := tabs[f].(decls := tabs[f].decls + [d], next := next);
      GrowOne(tabs, f, t);
      tabs := tabs[f := t];
      ScopeChanged(was, tabs, stack);
      assert Tagged(f, t.decls) == Tagged(f, was[f].decls) + [Seen(f, d)];
    }

    /** scope_rewind: the declarations since the mark go out of sight. */
    method Rewind(mark: nat)
      requires Valid() && mark <= |tabs[stack[|stack| - 1]].decls|
      modifies `tabs
      ensures Valid() && Grown(old(tabs), tabs) && |tabs| == |old(tabs)|
      ensures All() == old(All())[..|old(All())| - (|old(tabs)[stack[|stack| - 1]].decls| - mark)]
    {
      ghost var was := tabs;
      var f := stack[|stack| - 1];
      assert TabOk(tabs, f);
      var t := tabs[f].(decls := tabs[f].decls[..mark]);
      GrowOne(tabs, f, t);
      tabs := tabs[f := t];
      ScopeChanged(was, tabs, stack);
      assert Tagged(f, t.decls) == Tagged(f, was[f].decls)[..mark];
    }

    /** A function body begins: a new frame inside the current one. */
    method OpenFunction() returns (f: nat)
      requires Valid()
      modifies this
      ensures Valid() && Grown(old(tabs), tabs) && f == |old(tabs)| < |tabs| && stack == old(stack) + [f]
      ensures tabs[f].parent == old(stack)[|old(stack)| - 1]
      ensures All() == old(All())
    {
      Opens(tabs, stack, Tab(stack[|stack| - 1], [], 0, [], {}));
      f := |tabs|;
      tabs := tabs + [Tab(stack[|stack| - 1], [], 0, [], {})];
      stack := stack + [f];
    }

    /** It ends: its tables stay as they are. */
    method CloseFunction()
      requires Valid() && |stack| > 1
      modifies `stack
      ensures Valid() && stack == old(stack)[..|old(stack)| - 1]
      ensures All() == InScope(tabs, old(stack), |old(stack)| - 2)
    {
      ghost var st := stack;
      stack := stack[..|stack| - 1];
      SameStack(tabs, stack, st, |stack| - 1);
    }

    /** frame_add_upvalue: the existing entry, or a new one at the end. */
    method AddUpvalue(f: nat, r: Ref) returns (i: nat)
      requires Valid() && f < |tabs| && RefOk(tabs, f, r)
      modifies `tabs
      ensures Valid() && Grown(old(tabs), tabs) && |tabs| == |old(tabs)|
      ensures i < |tabs[f].upvals| && tabs[f].upvals[i] == r
      ensures forall g | 0 <= g < |tabs| :: tabs[g].decls == old(tabs)[g].decls && tabs[g].next == old(tabs)[g].next
      ensures r in old(tabs)[f].upvals ==> tabs == old(tabs) && r !in tabs[f].upvals[..i]
      ensures r !in old(tabs)[f].upvals ==>
                && i == |old(tabs)[f].upvals|
                && tabs == old(tabs)[f := old(tabs)[f].(upvals := old(tabs)[f].upvals + [r])]
    {
      i := 0;
      while i < |tabs[f].upvals|
        invariant 0 <= i <= |tabs[f].upvals| && r !in tabs[f].upvals[..i]
      {
        if tabs[f].upvals[i] == r { return; }
        i := i + 1;
      }
      assert TabOk(tabs, f);
      var t := tabs[f].(upvals := tabs[f].upvals + [r]);
      GrowOne(tabs, f, t);
      tabs := tabs[f := t];
    }

    method Capture(f: nat, s: nat)
      requires Valid() && f < |tabs| && s < tabs[f].next
      modifies `tabs
      ensures Valid() && Grown(old(tabs), tabs) && |tabs| == |old(tabs)| && s in tabs[f].captured
      ensures forall g | 0 <= g < |tabs| :: tabs[g].decls == old(tabs)[g].decls && tabs[g].next == old(tabs)[g].next
    {
      assert TabOk(tabs, f);
      var t := tabs[f].(captured := tabs[f].captured + {s});
      GrowOne(tabs, f, t);
      tabs := tabs[f := t];
    }

    /** frame_search: innermost first, noting the global declarations passed. */
    method Search(f: nat, name: string, free: (Option<bool>, bool), ghost above: seq<Seen>)
      returns (d: Option<Decl>, free': (Option<bool>, bool))
      requires f < |tabs| && free == (Collective(above), Voided(above))
      ensures var here := Tagged(f, tabs[f].decls);
              && (d.Some? <==> Innermost(here, name).Some?)
              && (d.Some? ==> Innermost(here, name) == Some(Seen(f, d.value)))
              && (d.None? ==> free' == (Collective(here + above), Voided(here + above)))
    {
      var ds := tabs[f].decls;
      free' := free;
      d := None;
      var i := |ds|;
      ghost var here := Tagged(f, ds);
      assert here[i..] + above == above;
      assert here[..i] == here;
      while i > 0
        invariant 0 <= i <= |ds| && free' == (Collective(here[i..] + above), Voided(here[i..] + above))
        invariant Innermost(here, name) == Innermost(here[..i], name) && d == None
      {
        i := i - 1;
        SearchStep(here, above, i, name);
        if Names(ds[i], name) { return Some(ds[i]), free'; }
        if ds[i].GlobalAll? {
          if free'.0.None? { free' := (Some(ds[i].ro), free'.1); }
        } else if ds[i].Global? {
          free' := (free'.0, true);
        }
      }
      assert here[..0] == [] && here[0..] == here;
    }

    /** resolve_in_frame at depth d. */
    method Resolve(d: nat, name: string, free: (Option<bool>, bool), ghost above: seq<Seen>) returns (k: Kind)
      requires Valid() && d < |stack| && Innermost(above, name) == None && free == (Collective(above), Voided(above))
      modifies `tabs
      ensures Valid() && Grown(old(tabs), tabs) && |tabs| == |old(tabs)|
      ensures forall g | 0 <= g < |tabs| :: tabs[g].decls == old(tabs)[g].decls && tabs[g].next == old(tabs)[g].next
      ensures Lexical(tabs, stack[d], InScope(old(tabs), stack, d), above, name, k)
      decreases d, 0
    {
      var f := stack[d];
      ghost var here := Tagged(f, tabs[f].decls);
      ghost var below := if d == 0 then [] else InScope(tabs, stack, d - 1);
      var x, free' := Search(f, name, free, above);
      if x.Some? {
        HereLexical(tabs, f, below, here, above, name, x.value);
        return if x.value.Local? then VLocal(x.value.slot) else VGlobal(x.value.ro);
      }
      InnermostSplit(here, above, name);
      if d == 0 {
        k := FreeKind(name, free');
        FreeLexical(tabs, f, here + above, name, free');
      } else {
        k := Inherit(d, name, free', here + above);
      }
      OuterLexical(tabs, f, below, here, above, name, k);
    }

    /** A name not found at depth d is looked for one function out. */
    method Inherit(d: nat, name: string, free: (Option<bool>, bool), ghost above: seq<Seen>) returns (k: Kind)
      requires Valid() && 0 < d < |stack|
      requires Innermost(above, name) == None && free == (Collective(above), Voided(above))
      modifies `tabs
      ensures Valid() && Grown(old(tabs), tabs) && |tabs| == |old(tabs)|
      ensures forall g | 0 <= g < |tabs| :: tabs[g].decls == old(tabs)[g].decls && tabs[g].next == old(tabs)[g].next
      ensures Lexical(tabs, stack[d], InScope(old(tabs), stack, d - 1), above, name, k)
      decreases d - 1, 1
    {
      ghost var was, below := tabs, InScope(tabs, stack, d - 1);
      k := Resolve(d - 1, name, free, above);
      if k.VLocal? || k.VUpval? {
        OnlyFound(tabs, stack[d - 1], below, above, [], name, k);
        k := Reach(d, name, k, was, below);
      } else {
        Elsewhere(tabs, stack, d, was, below, above, name, k);
      }
    }

    /** A name found in the enclosing function becomes an upvalue here. */
    method Reach(d: nat, name: string, pk: Kind, ghost was: seq<Tab>, ghost below: seq<Seen>) returns (k: Kind)
      requires Valid() && 0 < d < |stack| && (pk.VLocal? || pk.VUpval?) && |was| == |tabs|
      requires forall k | 0 <= k < |stack| :: stack[k] < |was| && was[stack[k]].decls == tabs[stack[k]].decls
      requires below == InScope(was, stack, d - 1) && Innermost(below, name).Some?
      requires Lexical(tabs, stack[d - 1], below, [], name, pk)
      modifies `tabs
      ensures Valid() && Grown(old(tabs), tabs) && |tabs| == |old(tabs)|
      ensures forall g | 0 <= g < |tabs| :: tabs[g].decls == old(tabs)[g].decls && tabs[g].next == old(tabs)[g].next
      ensures Innermost(below, name).value.d.Local?
      ensures Innermost(below, name).value.f != stack[d]
      ensures Through(tabs, stack[d], k, Innermost(below, name).value.f, Innermost(below, name).value.d.slot)
    {
      var f, g := stack[d], stack[d - 1];
      StackRises(tabs, stack);
      ghost var x := Innermost(below, name).value;
      InnermostIn(below, name);
      ScopeFrom(was, stack, d - 1, x);
      assert TabOk(tabs, f);
      if pk.VLocal? {
        assert TabOk(tabs, g);
        Capture(g, pk.slot);
      }
      ghost var mid := tabs;
      var i := AddUpvalue(f, if pk.VLocal? then FromLocal(pk.slot) else FromUpval(pk.i));
      k := VUpval(i);
      assert TabOk(tabs, f);
      if pk.VUpval? { OriginStays(mid, tabs, g, pk.i); }
    }

    method ResolveName(name: string) returns (k: Kind)
      requires Valid()
      modifies `tabs
      ensures Valid() && Grown(old(tabs), tabs) && All() == old(All())
      ensures Scoped(tabs, stack[|stack| - 1], All(), name, k)
    {
      ghost var was := tabs;
      k := Resolve(|stack| - 1, name, (None, false), []);
      SameScope(was, tabs, stack, |stack| - 1);
      LexicalScoped(tabs, stack[|stack| - 1], All(), name, k);
    }

    /** `global x` or `global<const> x`, and then a use of x. */
    method UseGlobal(x: string, ro: bool) returns (k: Kind)
      requires Valid()
      modifies `tabs
      ensures Valid() && k == VGlobal(ro)
    {
      DeclareGlobal(Global(x, ro));
      ghost var n := |All()| - 1;
      k := ResolveName(x);
      assert All()[n] == Seen(stack[|stack| - 1], Global(x, ro));
    }

    /** `local x`, and then a use of x in the same function. */
    method UseLocal(x: string) returns (slot: nat, k: Kind)
      requires Valid()
      modifies `tabs
      ensures Valid() && slot == old(tabs)[stack[|stack| - 1]].next && k == VLocal(slot)
    {
      slot := Declare(x);
      ghost var n := |All()| - 1;
      k := ResolveName(x);
      assert All()[n] == Seen(stack[|stack| - 1], Local(x, slot));
    }
  }

  function FreeKind(name: string, free: (Option<bool>, bool)): Kind {
    if name == "_ENV" then VGlobal(false)
    else if free.0.Some? then VGlobal(free.0.value)
    else if free.1 then Undeclared else VGlobal(false)
  }

  lemma {:induction false} HereLexical(tabs: seq<Tab>, f: nat, below: seq<Seen>, here: seq<Seen>, above: seq<Seen>,
        name: string, x: Decl)
    requires TabsOk(tabs) && f < |tabs| && Innermost(here, name) == Some(Seen(f, x))
    ensures !x.GlobalAll?
    ensures Lexical(tabs, f, below + here, above, name, if x.Local? then VLocal(x.slot) else VGlobal(x.ro))
  {
    InnermostSplit(below, here, name);
    InnermostIn(here, name);
  }

  lemma {:induction false} OuterLexical(tabs: seq<Tab>, f: nat, below: seq<Seen>, here: seq<Seen>, above: seq<Seen>,
        name: string, k: Kind)
    requires TabsOk(tabs) && f < |tabs| && Innermost(here, name) == None
      && Lexical(tabs, f, below, here + above, name, k)
    ensures Lexical(tabs, f, below + here, above, name, k)
  {
    InnermostSplit(below, here, name);
    assert (below + here) + above == below + (here + above);
  }

  lemma {:induction false} FreeLexical(tabs: seq<Tab>, f: nat, above: seq<Seen>, name: string, free: (Option<bool>,
        bool))
    requires TabsOk(tabs) && f < |tabs| && free == (Collective(above), Voided(above))
    ensures Lexical(tabs, f, [], above, name, FreeKind(name, free))
  {
    assert [] + above == above;
  }

  /** A local or an upvalue is found whatever is free. */
  lemma {:induction false} OnlyFound(tabs: seq<Tab>, f: nat, all: seq<Seen>, above: seq<Seen>, above': seq<Seen>,
        name: string, k: Kind)
    requires TabsOk(tabs) && f < |tabs| && Lexical(tabs, f, all, above, name, k) && (k.VLocal? || k.VUpval?)
    ensures Lexical(tabs, f, all, above', name, k) && Innermost(all, name).Some?
  {
  }

  lemma {:induction false} Elsewhere(tabs: seq<Tab>, stack: seq<nat>, d: nat, was: seq<Tab>, below: seq<Seen>,
        above: seq<Seen>,
      name: string, k: Kind)
    requires TabsOk(tabs) && 0 < d < |stack| && stack[d - 1] < |tabs| && stack[d] < |tabs|
    requires Lexical(tabs, stack[d - 1], below, above, name, k) && !k.VLocal? && !k.VUpval?
    ensures Lexical(tabs, stack[d], below, above, name, k)
  {
  }

  /** Everything in scope at depth d stands in a function open at depth at most d. */
  lemma {:induction false} ScopeFrom(tabs: seq<Tab>, stack: seq<nat>, d: nat, x: Seen)
    requires d < |stack| && (forall k | 0 <= k < |stack| :: stack[k] < |tabs|) && x in InScope(tabs, stack, d)
    ensures exists k :: 0 <= k <= d && stack[k] == x.f && x.d in tabs[x.f].decls
    decreases d
  {
    var here := Tagged(stack[d], tabs[stack[d]].decls);
    if x in here {
      assert stack[d] == x.f;
    } else {
      ScopeFrom(tabs, stack, d - 1, x);
    }
  }

  /** What is in scope outside the innermost function. */
  function Outer(tabs: seq<Tab>, stack: seq<nat>): seq<Seen>
    requires stack != [] && forall k | 0 <= k < |stack| :: stack[k] < |tabs|
  {
    if |stack| == 1 then [] else InScope(tabs, stack, |stack| - 2)
  }

  /** Only the innermost frame changed. */
  lemma {:induction false} ScopeChanged(was: seq<Tab>, tabs: seq<Tab>, stack: seq<nat>)
    requires TabsOk(was) && StackOk(was, stack) && |tabs| == |was|
    requires forall g | 0 <= g < |was| && g != stack[|stack| - 1] :: tabs[g].decls == was[g].decls
    ensures Outer(tabs, stack) == Outer(was, stack)
    ensures InScope(was, stack, |stack| - 1)
      == Outer(was, stack) + Tagged(stack[|stack| - 1], was[stack[|stack| - 1]].decls)
    ensures InScope(tabs, stack, |stack| - 1)
      == Outer(was, stack) + Tagged(stack[|stack| - 1], tabs[stack[|stack| - 1]].decls)
  {
    var n := |stack| - 1;
    if n > 0 {
      StackRises(was, stack);
      SameScope(was, tabs, stack, n - 1);
    }
  }

  /** The search passes one more declaration. */
  lemma {:induction false} SearchStep(here: seq<Seen>, above: seq<Seen>, i: nat, name: string)
    requires i < |here|
    ensures Innermost(here[..i + 1], name)
      == if Names(here[i].d, name) then Some(here[i]) else Innermost(here[..i], name)
    ensures Voided(here[i..] + above) <==> here[i].d.Global? || Voided(here[i + 1..] + above)
    ensures var all := Collective(here[i + 1..] + above);
            Collective(here[i..] + above)
            == if all.None? && here[i].d.GlobalAll? then Some(here[i].d.ro) else all
  {
    assert here[..i + 1][..i] == here[..i];
    assert here[i..] + above == [here[i]] + (here[i + 1..] + above);
    CollectiveSplit([here[i]], here[i + 1..] + above);
    VoidedSplit([here[i]], here[i + 1..] + above);
    OneSeen(here[i]);
  }

  lemma {:induction false} OneSeen(x: Seen)
    ensures Collective([x]) == if x.d.GlobalAll? then Some(x.d.ro) else None
    ensures Voided([x]) <==> x.d.Global?
  {
    assert [x][..0] == [];
    assert [x][0] == x;
  }

  /** Open functions are numbered in nesting order. */
  lemma {:induction false} StackRises(tabs: seq<Tab>, stack: seq<nat>)
    requires TabsOk(tabs) && StackOk(tabs, stack)
    ensures forall d, e | 0 <= d < e < |stack| :: stack[d] < stack[e]
  {
    forall d, e | 0 <= d < e < |stack| ensures stack[d] < stack[e] { Rises(tabs, stack, d, e); }
  }

  lemma {:induction false} Rises(tabs: seq<Tab>, stack: seq<nat>, d: nat, e: nat)
    requires TabsOk(tabs) && StackOk(tabs, stack) && d < e < |stack|
    ensures stack[d] < stack[e]
    decreases e
  {
    assert TabOk(tabs, stack[e]);
    if d < e - 1 { Rises(tabs, stack, d, e - 1); }
  }

  lemma {:induction false} SameScope(a: seq<Tab>, b: seq<Tab>, stack: seq<nat>, d: nat)
    requires d < |stack| && forall k | 0 <= k <= d ::
      stack[k] < |a| && stack[k] < |b| && a[stack[k]].decls == b[stack[k]].decls
    ensures InScope(a, stack, d) == InScope(b, stack, d)
    decreases d
  {
    if d > 0 { SameScope(a, b, stack, d - 1); }
  }

  lemma {:induction false} SameStack(tabs: seq<Tab>, a: seq<nat>, b: seq<nat>, d: nat)
    requires d < |a| && d < |b| && forall k | 0 <= k <= d :: a[k] == b[k] < |tabs|
    ensures InScope(tabs, a, d) == InScope(tabs, b, d)
    decreases d
  {
    if d > 0 { SameStack(tabs, a, b, d - 1); }
  }

  lemma {:induction false} ScopeBelow(tabs: seq<Tab>, stack: seq<nat>, f: nat, d: nat)
    requires d < |stack| && forall k | 0 <= k < |stack| :: stack[k] < |tabs|
    ensures InScope(tabs, stack + [f], d) == InScope(tabs, stack, d)
  {
    SameStack(tabs, stack + [f], stack, d);
  }

  /** A new innermost function, with nothing declared yet. */
  lemma {:induction false} Opens(tabs: seq<Tab>, stack: seq<nat>, t: Tab)
    requires TabsOk(tabs) && StackOk(tabs, stack)
    requires t.parent == stack[|stack| - 1] && t.upvals == [] && t.captured == {} && t.decls == []
    ensures TabsOk(tabs + [t]) && Grown(tabs, tabs + [t]) && StackOk(tabs + [t], stack + [|tabs|])
    ensures InScope(tabs + [t], stack + [|tabs|], |stack|) == InScope(tabs, stack, |stack| - 1)
  {
    MoreTabs(tabs, t);
    OpensStack(tabs, t, stack);
    OpensScope(tabs, tabs + [t], stack, stack + [|tabs|]);
  }

  lemma {:induction false} OpensStack(tabs: seq<Tab>, t: Tab, stack: seq<nat>)
    requires StackOk(tabs, stack) && t.parent == stack[|stack| - 1]
    ensures StackOk(tabs + [t], stack + [|tabs|])
  {
  }

  lemma {:induction false} OpensScope(a: seq<Tab>, b: seq<Tab>, was: seq<nat>, stack: seq<nat>)
    requires was != [] && (forall k | 0 <= k < |was| :: was[k] < |a|) && stack == was + [|a|]
    requires |a| < |b| && a == b[..|a|] && b[|a|].decls == []
    ensures InScope(b, stack, |was|) == InScope(a, was, |was| - 1)
  {
    var d := |was| - 1;
    assert InScope(b, stack, |was|) == InScope(b, stack, d) by {
      assert stack[|was|] == |a|;
      EmptyTop(b, stack, |was|);
    }
    assert InScope(b, stack, d) == InScope(b, was, d) by { ScopeBelow(b, was, |a|, d); }
    assert InScope(b, was, d) == InScope(a, was, d) by { SameScope(a, b, was, d); }
  }

  lemma {:induction false} EmptyTop(tabs: seq<Tab>, stack: seq<nat>, d: nat)
    requires 0 < d < |stack| && (forall k | 0 <= k <= d :: stack[k] < |tabs|) && tabs[stack[d]].decls == []
    ensures InScope(tabs, stack, d) == InScope(tabs, stack, d - 1)
  {
    assert Tagged(stack[d], tabs[stack[d]].decls) == [];
  }

  // ----- closures -----

  /** The box of every variable in force: by function and slot. */
  type Boxes = map<(nat, nat), int>

  /** A running function: the boxes in its slots, its closure's upvalue array, and what
      lexical scoping says was in force where the closure was made. */
  datatype Act = Act(f: nat, slots: map<nat, int>, clo: seq<int>, outer: Boxes)

  function Own(a: Act): Boxes { map s | s in a.slots :: (a.f, s) := a.slots[s] }

  function InForce(a: Act): Boxes { a.outer + Own(a) }

  /** Upvalue i is the box of the variable it stands for. */
  ghost predicate HoldsBoxes(tabs: seq<Tab>, f: nat, clo: seq<int>, boxes: Boxes)
    requires TabsOk(tabs) && f < |tabs|
  {
    |clo| == |tabs[f].upvals| && forall i | 0 <= i < |clo| ::
      Origin(tabs, f, i) in boxes && clo[i] == boxes[Origin(tabs, f, i)]
  }

  /** Boxed slots hold boxes from the start of the activation. */
  ghost predicate ActOk(tabs: seq<Tab>, a: Act)
    requires TabsOk(tabs)
  {
    a.f < |tabs| && HoldsBoxes(tabs, a.f, a.clo, a.outer) && forall s | s in tabs[a.f].captured :: s in a.slots
  }

  /** emit_function_expr: the closure made for function k holds, at i, the box its upvalue
      i has by lexical scoping where it is made. */
  method MakeClosure(tabs: seq<Tab>, a: Act, k: nat) returns (clo: seq<int>)
    requires TabsOk(tabs) && ActOk(tabs, a) && 0 < k < |tabs| && tabs[k].parent == a.f
    ensures HoldsBoxes(tabs, k, clo, InForce(a))
  {
    clo := [];
    var i := 0;
    assert TabOk(tabs, k);
    while i < |tabs[k].upvals|
      invariant 0 <= i <= |tabs[k].upvals| && |clo| == i
      invariant forall j | 0 <= j < i :: Origin(tabs, k, j) in InForce(a) && clo[j] == InForce(a)[Origin(tabs, k, j)]
    {
      var r := tabs[k].upvals[i];
      assert RefOk(tabs, k, r);
      BoxFound(tabs, a, k, i);
      clo := clo + [if r.FromLocal? then a.slots[r.idx] else a.clo[r.idx]];
      i := i + 1;
    }
  }

  lemma {:induction false} BoxFound(tabs: seq<Tab>, a: Act, k: nat, i: nat)
    requires TabsOk(tabs) && ActOk(tabs, a) && 0 < k < |tabs| && tabs[k].parent == a.f && i < |tabs[k].upvals|
    ensures RefOk(tabs, k, tabs[k].upvals[i]) && Origin(tabs, k, i) in InForce(a)
    ensures var r := tabs[k].upvals[i];
            InForce(a)[Origin(tabs, k, i)] == if r.FromLocal? then a.slots[r.idx] else a.clo[r.idx]
  {
    var r := tabs[k].upvals[i];
    assert TabOk(tabs, k);
    assert RefOk(tabs, k, r);
    if r.FromUpval? { OriginCaptured(tabs, a.f, r.idx); }
  }
}
