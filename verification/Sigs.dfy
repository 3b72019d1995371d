module Sigs {
  // The synthesized function signatures (src/wat2wasm.c): interned while the module is read,
  // pruned to those that live code uses, and renumbered.

  import opened Keep
  import opened Dce

  datatype Sig = Sig(params: seq<int>, results: seq<int>)

  /** A type use: a declared type, or a signature written out. */
  datatype TypeUse = Declared(k: nat) | Inline(sig: Sig)

  predicate NeedsSig(bt: BlockType) {
    !bt.hasType && (|bt.params| > 0 || |bt.results| > 1)
  }

  function SigsOf(bt: BlockType): seq<Sig> {
    if NeedsSig(bt) then [Sig(bt.params, bt.results)] else []
  }

  /** The signatures the block types of a piece of code need, in the order the
      encoder meets them. */
  function Needed(ns: Nodes): seq<Sig>
    decreases ns
  {
    match ns case Nil => [] case Cons(n, tl) => NeededAt(n) + Needed(tl)
  }

  function NeededAt(n: Node): seq<Sig>
    decreases n
  {
    match n
    case Plain(_, operands) => Needed(operands)
    case Block(bt, body) => SigsOf(bt) + Needed(body)
    case Loop(bt, body) => SigsOf(bt) + Needed(body)
    case If(bt, cond, thn, els) => SigsOf(bt) + (Needed(cond) + Needed(thn) + Needed(els))
  }

  /** A block, loop or if among ns, at any depth, has the block type bt. */
  predicate Occurs(ns: Nodes, bt: BlockType)
    decreases ns
  {
    ns.Cons? && (OccursAt(ns.hd, bt) || Occurs(ns.tl, bt))
  }

  predicate OccursAt(n: Node, bt: BlockType)
    decreases n
  {
    match n
    case Plain(_, operands) => Occurs(operands, bt)
    case Block(b, body) => b == bt || Occurs(body, bt)
    case Loop(b, body) => b == bt || Occurs(body, bt)
    case If(b, cond, thn, els) => b == bt || Occurs(cond, bt) || Occurs(thn, bt) || Occurs(els, bt)
  }

  /** The block type stands for s and has no shorter form: it names no declared type, and it
      is neither empty nor a single result. */
  predicate AsksFor(bt: BlockType, s: Sig) {
    !bt.hasType && s == Sig(bt.params, bt.results) && !(bt.params == [] && (bt.results == [] || |bt.results| == 1))
  }

  ghost predicate Asked(ns: Nodes, s: Sig) { exists bt :: Occurs(ns, bt) && AsksFor(bt, s) }

  lemma {:induction false} SigsAsked(bt: BlockType, s: Sig)
    ensures s in SigsOf(bt) <==> AsksFor(bt, s)
  {
  }

  lemma {:induction false} NeededAsked(ns: Nodes, s: Sig)
    ensures s in Needed(ns) <==> Asked(ns, s)
    decreases ns
  {
    if ns.Cons? {
      NeededAskedAt(ns.hd, s);
      NeededAsked(ns.tl, s);
      if Asked(ns, s) { var bt :| Occurs(ns, bt) && AsksFor(bt, s); }
      if s in NeededAt(ns.hd) {
        var bt :| OccursAt(ns.hd, bt) && AsksFor(bt, s);
        assert Occurs(ns, bt);
      } else if s in Needed(ns.tl) {
        var bt :| Occurs(ns.tl, bt) && AsksFor(bt, s);
        assert Occurs(ns, bt);
      }
    }
  }

  lemma {:induction false} NeededAskedAt(n: Node, s: Sig)
    ensures s in NeededAt(n) <==> exists bt :: OccursAt(n, bt) && AsksFor(bt, s)
    decreases n
  {
    match n
    case Plain(_, operands) =>
      NeededAsked(operands, s);
      Inside(n, operands, s);
    case Block(b, body) =>
      SigsAsked(b, s);
      NeededAsked(body, s);
      Inside(n, body, s);
      assert OccursAt(n, b);
    case Loop(b, body) =>
      SigsAsked(b, s);
      NeededAsked(body, s);
      Inside(n, body, s);
      assert OccursAt(n, b);
    case If(b, cond, thn, els) =>
      SigsAsked(b, s);
      NeededAsked(cond, s);
      NeededAsked(thn, s);
      NeededAsked(els, s);
      Inside(n, cond, s);
      Inside(n, thn, s);
      Inside(n, els, s);
      assert OccursAt(n, b);
  }

  lemma {:induction false} Inside(n: Node, ns: Nodes, s: Sig)
    requires forall bt | Occurs(ns, bt) :: OccursAt(n, bt)
    ensures Asked(ns, s) ==> exists bt :: OccursAt(n, bt) && AsksFor(bt, s)
  {
    if Asked(ns, s) {
      var bt :| Occurs(ns, bt) && AsksFor(bt, s);
      assert OccursAt(n, bt);
    }
  }

  predicate Distinct(sigs: seq<Sig>) {
    forall i, j | 0 <= i < j < |sigs| :: sigs[i] != sigs[j]
  }

  /** Index i of the table is signature s. */
  predicate Names(sigs: seq<Sig>, i: int, s: Sig) {
    0 <= i < |sigs| && sigs[i] == s
  }

  predicate NamesAll(sigs: seq<Sig>, idx: seq<nat>, ss: seq<Sig>) {
    |idx| == |ss| && forall j | 0 <= j < |idx| :: Names(sigs, idx[j], ss[j])
  }

  predicate Holds(sigs: seq<Sig>, ss: seq<Sig>) {
    forall s | s in ss :: s in sigs
  }

  class SigTable {
    var sigs: seq<Sig>

    constructor ()
      ensures sigs == []
    {
      sigs := [];
    }

    /** sig_intern. */
    method Intern(s: Sig) returns (i: nat)
      requires Distinct(sigs)
      modifies this
      ensures Distinct(sigs) && Names(sigs, i, s)
      ensures sigs == if s in old(sigs) then old(sigs) else old(sigs) + [s]
    {
      i := 0;
      while i < |sigs|
        invariant 0 <= i <= |sigs| && s !in sigs[..i]
      {
        if sigs[i] == s { return; }
        i := i + 1;
      }
      sigs := sigs + [s];
    }

    method InternUse(u: TypeUse, nDecls: nat) returns (t: nat)
      requires Distinct(sigs) && (u.Declared? ==> u.k < nDecls)
      modifies this
      ensures Distinct(sigs) && old(sigs) <= sigs && TypeIs(sigs, nDecls, t, u)
    {
      if u.Declared? { return u.k; }
      var i := Intern(u.sig);
      t := nDecls + i;
    }

    method InternUses(us: seq<TypeUse>, nDecls: nat) returns (ts: seq<nat>)
      requires Distinct(sigs) && forall i | 0 <= i < |us| :: us[i].Declared? ==> us[i].k < nDecls
      modifies this
      ensures Distinct(sigs) && old(sigs) <= sigs && TypesAre(sigs, nDecls, ts, us)
    {
      ts := [];
      var i := 0;
      while i < |us|
        invariant 0 <= i <= |us| && Distinct(sigs) && old(sigs) <= sigs && TypesAre(sigs, nDecls, ts, us[..i])
      {
        ghost var was, before := sigs, ts;
        var t := InternUse(us[i], nDecls);
        TypesStay(was, sigs, nDecls, ts, us[..i]);
        ts := ts + [t];
        assert us[..i + 1] == us[..i] + [us[i]];
        i := i + 1;
      }
      assert us[..i] == us;
    }

    /** prewalk_instr. */
    method Prewalk(ns: Nodes)
      requires Distinct(sigs)
      modifies this
      ensures Distinct(sigs) && old(sigs) <= sigs && Holds(sigs, Needed(ns))
      decreases ns
    {
      if ns.Cons? {
        PrewalkNode(ns.hd);
        Prewalk(ns.tl);
      }
    }

    method PrewalkNode(n: Node)
      requires Distinct(sigs)
      modifies this
      ensures Distinct(sigs) && old(sigs) <= sigs && Holds(sigs, NeededAt(n))
      decreases n
    {
      match n
      case Plain(_, operands) => Prewalk(operands);
      case Block(bt, body) =>
        PrewalkType(bt);
        Prewalk(body);
      case Loop(bt, body) =>
        PrewalkType(bt);
        Prewalk(body);
      case If(bt, cond, thn, els) =>
        PrewalkType(bt);
        Prewalk(cond);
        Prewalk(thn);
        Prewalk(els);
    }

    method PrewalkType(bt: BlockType)
      requires Distinct(sigs)
      modifies this
      ensures Distinct(sigs) && old(sigs) <= sigs && Holds(sigs, SigsOf(bt))
    {
      if NeedsSig(bt) { var i := Intern(Sig(bt.params, bt.results)); }
    }

    /** The encoder's walk, and that of sig_mark_blocks: every signature met is
        interned again, which only finds it. */
    method Indices(ns: Nodes) returns (idx: seq<nat>)
      requires Distinct(sigs) && Holds(sigs, Needed(ns))
      modifies this
      ensures sigs == old(sigs) && NamesAll(sigs, idx, Needed(ns))
      decreases ns
    {
      if ns.Nil? { return []; }
      HoldsParts(sigs, NeededAt(ns.hd), Needed(ns.tl));
      var a := IndicesAt(ns.hd);
      var b := Indices(ns.tl);
      idx := a + b;
    }

    method IndicesAt(n: Node) returns (idx: seq<nat>)
      requires Distinct(sigs) && Holds(sigs, NeededAt(n))
      modifies this
      ensures sigs == old(sigs) && NamesAll(sigs, idx, NeededAt(n))
      decreases n
    {
      match n
      case Plain(_, operands) => idx := Indices(operands);
      case Block(bt, body) =>
        HoldsParts(sigs, SigsOf(bt), Needed(body));
        var a := IndicesOf(bt);
        var b := Indices(body);
        idx := a + b;
      case Loop(bt, body) =>
        HoldsParts(sigs, SigsOf(bt), Needed(body));
        var a := IndicesOf(bt);
        var b := Indices(body);
        idx := a + b;
      case If(bt, cond, thn, els) =>
        HoldsParts(sigs, SigsOf(bt), Needed(cond) + Needed(thn) + Needed(els));
        HoldsParts(sigs, Needed(cond) + Needed(thn), Needed(els));
        HoldsParts(sigs, Needed(cond), Needed(thn));
        var a := IndicesOf(bt);
        var b := Indices(cond);
        var c := Indices(thn);
        var d := Indices(els);
        NamesJoin(sigs, b, Needed(cond), c, Needed(thn));
        NamesJoin(sigs, b + c, Needed(cond) + Needed(thn), d, Needed(els));
        NamesJoin(sigs, a, SigsOf(bt), b + c + d, Needed(cond) + Needed(thn) + Needed(els));
        idx := a + (b + c + d);
    }

    method IndicesOf(bt: BlockType) returns (idx: seq<nat>)
      requires Distinct(sigs) && Holds(sigs, SigsOf(bt))
      modifies this
      ensures sigs == old(sigs) && NamesAll(sigs, idx, SigsOf(bt))
    {
      if !NeedsSig(bt) { return []; }
      var i := Intern(Sig(bt.params, bt.results));
      idx := [i];
    }
  }

  lemma {:induction false} HoldsParts(sigs: seq<Sig>, a: seq<Sig>, b: seq<Sig>)
    ensures Holds(sigs, a + b) <==> Holds(sigs, a) && Holds(sigs, b)
  {
    if Holds(sigs, a + b) {
      forall s | s in a || s in b ensures s in sigs { assert s in a + b; }
    }
  }

  lemma {:induction false} NamesJoin(sigs: seq<Sig>, a: seq<nat>, ss: seq<Sig>, b: seq<nat>, ts: seq<Sig>)
    requires NamesAll(sigs, a, ss) && NamesAll(sigs, b, ts)
    ensures NamesAll(sigs, a + b, ss + ts)
  {
    forall j | 0 <= j < |a + b| ensures Names(sigs, (a + b)[j], (ss + ts)[j]) {
      if j < |a| { assert Names(sigs, a[j], ss[j]); } else { assert Names(sigs, b[j - |a|], ts[j - |a|]); }
    }
  }

  /** Type index t, of a module with nDecls declared types, is what u asked for. */
  predicate TypeIs(sigs: seq<Sig>, nDecls: nat, t: int, u: TypeUse) {
    if u.Declared? then t == u.k < nDecls else Names(sigs, t - nDecls, u.sig)
  }

  predicate TypesAre(sigs: seq<Sig>, nDecls: nat, ts: seq<nat>, us: seq<TypeUse>) {
    |ts| == |us| && forall i | 0 <= i < |ts| :: TypeIs(sigs, nDecls, ts[i], us[i])
  }

  lemma {:induction false} TypesStay(sigs: seq<Sig>, sigs': seq<Sig>, nDecls: nat, ts: seq<nat>, us: seq<TypeUse>)
    requires TypesAre(sigs, nDecls, ts, us) && sigs <= sigs'
    ensures TypesAre(sigs', nDecls, ts, us)
  {
    forall i | 0 <= i < |ts| ensures TypeIs(sigs', nDecls, ts[i], us[i]) { assert TypeIs(sigs, nDecls, ts[i], us[i]); }
  }

  // ----- pruning -----

  function SetOf(ss: seq<Sig>): set<Sig> { set s | s in ss }

  function UseSigs(us: seq<TypeUse>): set<Sig> {
    set u | u in us && u.Inline? :: u.sig
  }

  /** The signatures the first n functions ask for, if live. */
  function LiveSigs(funcs: seq<TypeUse>, bodies: seq<Nodes>, live: seq<bool>, n: nat): set<Sig>
    requires n <= |funcs| && n <= |bodies| && n <= |live|
  {
    if n == 0 then {}
    else LiveSigs(funcs, bodies, live, n - 1)
         + if live[n - 1] then UseSigs([funcs[n - 1]]) + SetOf(Needed(bodies[n - 1])) else {}
  }

  function Marked(sigs: seq<Sig>, flags: seq<bool>): set<Sig>
    requires |flags| == |sigs|
  {
    set i | 0 <= i < |sigs| && flags[i] :: sigs[i]
  }

  /** Flag the signature of each type index that is not a declared type. */
  method MarkTypes(flags: array<bool>, ts: seq<nat>, nDecls: nat, ghost sigs: seq<Sig>, ghost us: seq<TypeUse>)
    requires flags.Length == |sigs| && TypesAre(sigs, nDecls, ts, us)
    modifies flags
    ensures Marked(sigs, flags[..]) == Marked(sigs, old(flags[..])) + UseSigs(us)
    ensures forall i | 0 <= i < |sigs| && old(flags[i]) :: flags[i]
    ensures forall j | 0 <= j < |ts| && us[j].Inline? :: flags[ts[j] - nDecls]
  {
    var j := 0;
    while j < |ts|
      invariant 0 <= j <= |ts| && Marked(sigs, flags[..]) == Marked(sigs, old(flags[..])) + UseSigs(us[..j])
      invariant forall i | 0 <= i < |sigs| && old(flags[i]) :: flags[i]
      invariant forall k | 0 <= k < j && us[k].Inline? :: flags[ts[k] - nDecls]
    {
      assert TypeIs(sigs, nDecls, ts[j], us[j]);
      ghost var was := flags[..];
      UseSigsNext(us, j);
      if ts[j] >= nDecls {
        flags[ts[j] - nDecls] := true;
        MarkedNext(sigs, was, ts[j] - nDecls);
        assert flags[..] == was[ts[j] - nDecls := true];
      }
      j := j + 1;
    }
    assert us[..j] == us;
  }

  lemma {:induction false} UseSigsNext(us: seq<TypeUse>, j: nat)
    requires j < |us|
    ensures UseSigs(us[..j + 1]) == UseSigs(us[..j]) + if us[j].Inline? then {us[j].sig} else {}
  {
    assert us[..j + 1] == us[..j] + [us[j]];
    forall u | u in us[..j] ensures u in us[..j + 1] {}
    assert us[..j + 1][j] == us[j];
  }

  lemma {:induction false} MarkedNext(sigs: seq<Sig>, flags: seq<bool>, i: nat)
    requires |flags| == |sigs| && i < |sigs|
    ensures Marked(sigs, flags[i := true]) == Marked(sigs, flags) + {sigs[i]}
  {
    var flags' := flags[i := true];
    forall s | s in Marked(sigs, flags) + {sigs[i]} ensures s in Marked(sigs, flags') {
      if s != sigs[i] {
        var k :| 0 <= k < |sigs| && flags[k] && sigs[k] == s;
        assert flags'[k];
      } else {
        assert flags'[i];
      }
    }
  }

  method MarkIndices(flags: array<bool>, idx: seq<nat>, ghost sigs: seq<Sig>, ghost ss: seq<Sig>)
    requires flags.Length == |sigs| && NamesAll(sigs, idx, ss)
    modifies flags
    ensures Marked(sigs, flags[..]) == Marked(sigs, old(flags[..])) + SetOf(ss)
    ensures forall i | 0 <= i < |sigs| && old(flags[i]) :: flags[i]
    ensures forall j | 0 <= j < |idx| :: flags[idx[j]]
  {
    var j := 0;
    while j < |idx|
      invariant 0 <= j <= |idx| && Marked(sigs, flags[..]) == Marked(sigs, old(flags[..])) + SetOf(ss[..j])
      invariant forall i | 0 <= i < |sigs| && old(flags[i]) :: flags[i]
      invariant forall k | 0 <= k < j :: flags[idx[k]]
    {
      assert Names(sigs, idx[j], ss[j]);
      ghost var was := flags[..];
      flags[idx[j]] := true;
      MarkedNext(sigs, was, idx[j]);
      assert flags[..] == was[idx[j] := true] && ss[..j + 1] == ss[..j] + [ss[j]];
      j := j + 1;
    }
    assert ss[..j] == ss;
  }

  /** What is written for a function. */
  datatype Written = Skipped | Written(typ: nat, blocks: seq<nat>)

  /** map_typeidx: declared types keep their slots. */
  function MapType(flags: seq<bool>, nDecls: nat, t: nat): nat {
    if t < nDecls then t
    else nDecls + if t - nDecls < |flags| && flags[t - nDecls] then Rank(flags, t - nDecls) else DROPPED
  }

  predicate BlocksAre(types: seq<Sig>, nDecls: nat, blocks: seq<nat>, ss: seq<Sig>) {
    |blocks| == |ss| && forall j | 0 <= j < |ss| :: Names(types, blocks[j] - nDecls, ss[j])
  }

  /** A live type index still names its signature after pruning. */
  lemma {:induction false} MapTypeIs(sigs: seq<Sig>, flags: seq<bool>, nDecls: nat, t: nat, u: TypeUse)
    requires |flags| == |sigs| && TypeIs(sigs, nDecls, t, u) && (u.Inline? ==> flags[t - nDecls])
    ensures TypeIs(Kept(flags, sigs, |sigs|), nDecls, MapType(flags, nDecls, t), u)
  {
    if u.Inline? { KeptAt(flags, sigs, t - nDecls, |sigs|); }
  }

  method WriteTypes(flags: seq<bool>, nDecls: nat, ts: seq<nat>, ghost sigs: seq<Sig>, ghost us: seq<TypeUse>)
    returns (out: seq<nat>)
    requires |flags| == |sigs| && TypesAre(sigs, nDecls, ts, us)
    requires forall j | 0 <= j < |ts| && us[j].Inline? :: flags[ts[j] - nDecls]
    ensures TypesAre(Kept(flags, sigs, |sigs|), nDecls, out, us)
  {
    out := [];
    var i := 0;
    while i < |ts|
      invariant 0 <= i <= |ts| == |us| && |out| == i
      invariant forall j | 0 <= j < i :: TypeIs(Kept(flags, sigs, |sigs|), nDecls, out[j], us[j])
    {
      assert TypeIs(sigs, nDecls, ts[i], us[i]);
      MapTypeIs(sigs, flags, nDecls, ts[i], us[i]);
      out := out + [MapType(flags, nDecls, ts[i])];
      i := i + 1;
    }
  }

  method WriteBlocks(flags: seq<bool>, nDecls: nat, idx: seq<nat>, ghost sigs: seq<Sig>, ghost ss: seq<Sig>)
    returns (out: seq<nat>)
    requires |flags| == |sigs| && NamesAll(sigs, idx, ss) && forall j | 0 <= j < |idx| :: flags[idx[j]]
    ensures BlocksAre(Kept(flags, sigs, |sigs|), nDecls, out, ss)
  {
    out := [];
    var i := 0;
    while i < |idx|
      invariant 0 <= i <= |idx| == |ss| && |out| == i
      invariant forall j | 0 <= j < i :: Names(Kept(flags, sigs, |sigs|), out[j] - nDecls, ss[j])
    {
      assert Names(sigs, idx[i], ss[i]);
      KeptAt(flags, sigs, idx[i], |sigs|);
      out := out + [MapType(flags, nDecls, nDecls + idx[i])];
      i := i + 1;
    }
  }

  /** The type section: the flagged signatures. */
  method EmitTypes(sigs: seq<Sig>, flags: seq<bool>) returns (types: seq<Sig>)
    requires |flags| == |sigs|
    ensures types == Kept(flags, sigs, |sigs|)
  {
    types := [];
    var i := 0;
    while i < |sigs|
      invariant 0 <= i <= |sigs| && types == Kept(flags, sigs, i)
    {
      if flags[i] { types := types + [sigs[i]]; }
      i := i + 1;
    }
  }

  /** What a type section says of the uses written against it. */
  ghost predicate FuncRight(types: seq<Sig>, nDecls: nat, w: Written, u: TypeUse, body: Nodes) {
    w.Written? && TypeIs(types, nDecls, w.typ, u) && BlocksAre(types, nDecls, w.blocks, Needed(body))
  }

  /** Every signature that the prewalk over all functions, dead or not, must find. */
  ghost predicate AllHeld(sigs: seq<Sig>, bodies: seq<Nodes>, n: nat) {
    n <= |bodies| && forall i | 0 <= i < n :: Holds(sigs, Needed(bodies[i]))
  }

  method PrewalkAll(table: SigTable, bodies: seq<Nodes>)
    requires Distinct(table.sigs)
    modifies table
    ensures Distinct(table.sigs) && old(table.sigs) <= table.sigs && AllHeld(table.sigs, bodies, |bodies|)
  {
    var i := 0;
    while i < |bodies|
      invariant 0 <= i <= |bodies| && Distinct(table.sigs) && old(table.sigs) <= table.sigs
        && AllHeld(table.sigs, bodies, i)
    {
      ghost var was := table.sigs;
      table.Prewalk(bodies[i]);
      forall k | 0 <= k <= i ensures Holds(table.sigs, Needed(bodies[k])) {
        assert k < i ==> Holds(was, Needed(bodies[k]));
      }
      i := i + 1;
    }
  }

  /** Flag what the live functions use: their types, and their blocks' types. */
  method MarkFuncs(table: SigTable, flags: array<bool>, ts: seq<nat>, nDecls: nat, funcs: seq<TypeUse>,
      bodies: seq<Nodes>, live: seq<bool>)
    requires Distinct(table.sigs) && flags.Length == |table.sigs| && TypesAre(table.sigs, nDecls, ts, funcs)
    requires |bodies| == |funcs| == |live| && AllHeld(table.sigs, bodies, |bodies|)
    modifies table, flags
    ensures table.sigs == old(table.sigs)
    ensures Marked(table.sigs, flags[..]) == Marked(table.sigs, old(flags[..])) + LiveSigs(funcs, bodies, live, |live|)
    ensures forall i | 0 <= i < flags.Length && old(flags[i]) :: flags[i]
  {
    var i := 0;
    while i < |live|
      invariant 0 <= i <= |live| && table.sigs == old(table.sigs)
      invariant Marked(table.sigs, flags[..]) == Marked(table.sigs, old(flags[..])) + LiveSigs(funcs, bodies, live, i)
      invariant forall i | 0 <= i < flags.Length && old(flags[i]) :: flags[i]
    {
      if live[i] {
        assert TypeIs(table.sigs, nDecls, ts[i], funcs[i]);
        MarkTypes(flags, [ts[i]], nDecls, table.sigs, [funcs[i]]);
        assert Holds(table.sigs, Needed(bodies[i]));
        var idx := table.Indices(bodies[i]);
        MarkIndices(flags, idx, table.sigs, Needed(bodies[i]));
      }
      i := i + 1;
    }
  }

  /** A flagged signature set holds a name: its index is flagged. */
  lemma {:induction false} FlaggedName(sigs: seq<Sig>, flags: seq<bool>, i: nat)
    requires |flags| == |sigs| && Distinct(sigs) && i < |sigs| && sigs[i] in Marked(sigs, flags)
    ensures flags[i]
  {
    var k :| 0 <= k < |sigs| && flags[k] && sigs[k] == sigs[i];
    assert k == i;
  }

  lemma {:induction false} LiveSigsHold(funcs: seq<TypeUse>, bodies: seq<Nodes>, live: seq<bool>, n: nat, i: nat)
    requires i < n <= |funcs| && n <= |bodies| && n <= |live| && live[i]
    ensures UseSigs([funcs[i]]) + SetOf(Needed(bodies[i])) <= LiveSigs(funcs, bodies, live, n)
    decreases n
  {
    if i < n - 1 { LiveSigsHold(funcs, bodies, live, n - 1, i); }
  }

  /** The code section's walk over function i. */
  method WriteFunc(table: SigTable, flags: array<bool>, t: nat, nDecls: nat, u: TypeUse, body: Nodes)
    returns (w: Written)
    requires Distinct(table.sigs) && flags.Length == |table.sigs| && TypeIs(table.sigs, nDecls, t, u)
      && Holds(table.sigs, Needed(body))
    requires UseSigs([u]) + SetOf(Needed(body)) <= Marked(table.sigs, flags[..])
    modifies table
    ensures table.sigs == old(table.sigs)
    ensures FuncRight(Kept(flags[..], table.sigs, |table.sigs|), nDecls, w, u, body)
  {
    var idx := table.Indices(body);
    forall j | 0 <= j < |idx| ensures flags[..][idx[j]] {
      assert Names(table.sigs, idx[j], Needed(body)[j]) && Needed(body)[j] in SetOf(Needed(body));
      FlaggedName(table.sigs, flags[..], idx[j]);
    }
    if u.Inline? {
      assert [u][0] == u && u.sig in UseSigs([u]);
      FlaggedName(table.sigs, flags[..], t - nDecls);
    }
    MapTypeIs(table.sigs, flags[..], nDecls, t, u);
    var blocks := WriteBlocks(flags[..], nDecls, idx, table.sigs, Needed(body));
    w := Written(MapType(flags[..], nDecls, t), blocks);
  }

  /** Something that is written uses s: an import, a tag, or a live function by its type or by
      a block in it. */
  ghost predicate Used(imports: seq<TypeUse>, tags: seq<TypeUse>, funcs: seq<TypeUse>, bodies: seq<Nodes>,
      live: seq<bool>, s: Sig)
    requires |bodies| == |funcs| == |live|
  {
    || Inline(s) in imports || Inline(s) in tags
    || exists i :: 0 <= i < |live| && live[i] && (funcs[i] == Inline(s) || Asked(bodies[i], s))
  }

  lemma {:induction false} LiveSigsAsked(funcs: seq<TypeUse>, bodies: seq<Nodes>, live: seq<bool>, n: nat, s: Sig)
    requires n <= |funcs| && n <= |bodies| && n <= |live|
    ensures s in LiveSigs(funcs, bodies, live, n)
            <==> exists i :: 0 <= i < n && live[i] && (funcs[i] == Inline(s) || Asked(bodies[i], s))
    decreases n
  {
    if n > 0 {
      LiveSigsAsked(funcs, bodies, live, n - 1, s);
      NeededAsked(bodies[n - 1], s);
      assert Inline(s) in [funcs[n - 1]] <==> funcs[n - 1] == Inline(s);
      UsesInline([funcs[n - 1]], s);
    }
  }

  lemma {:induction false} UsesInline(us: seq<TypeUse>, s: Sig)
    ensures s in UseSigs(us) <==> Inline(s) in us
  {
  }

  /** assemble, as far as types go: intern, prewalk, prune, emit the type section,
      then write every use against it. */
  method AssembleTypes(nDecls: nat, imports: seq<TypeUse>, tags: seq<TypeUse>, funcs: seq<TypeUse>,
      bodies: seq<Nodes>, live: seq<bool>)
    returns (types: seq<Sig>, importTypes: seq<nat>, tagTypes: seq<nat>, code: seq<Written>)
    requires |bodies| == |funcs| == |live|
    requires forall u | u in imports + tags + funcs :: u.Declared? ==> u.k < nDecls
    ensures TypesAre(types, nDecls, importTypes, imports) && TypesAre(types, nDecls, tagTypes, tags)
    ensures |code| == |live|
    ensures forall i | 0 <= i < |live| :: if live[i] then FuncRight(types, nDecls, code[i], funcs[i], bodies[i])
      else code[i] == Skipped
    ensures Distinct(types) && forall s :: s in types <==> Used(imports, tags, funcs, bodies, live, s)
  {
    var table := new SigTable();
    forall i | 0 <= i < |imports| ensures imports[i] in imports + tags + funcs {}
    forall i | 0 <= i < |tags| ensures tags[i] in imports + tags + funcs {}
    forall i | 0 <= i < |funcs| ensures funcs[i] in imports + tags + funcs {}
    var its := table.InternUses(imports, nDecls);
    ghost var s1 := table.sigs;
    var tts := table.InternUses(tags, nDecls);
    ghost var s2 := table.sigs;
    var fts := table.InternUses(funcs, nDecls);
    ghost var s3 := table.sigs;
    PrewalkAll(table, bodies);
    ghost var sigs := table.sigs;
    TypesStay(s1, sigs, nDecls, its, imports);
    TypesStay(s2, sigs, nDecls, tts, tags);
    TypesStay(s3, sigs, nDecls, fts, funcs);
    types, importTypes, tagTypes, code := PruneAndWrite(table, nDecls, its, imports, tts, tags, fts, funcs, bodies,
      live);
    forall s ensures s in types <==> Used(imports, tags, funcs, bodies, live, s) {
      assert s in types <==> s in SetOf(types);
      UsesInline(imports, s);
      UsesInline(tags, s);
      LiveSigsAsked(funcs, bodies, live, |live|, s);
    }
  }

  method PruneAndWrite(table: SigTable, nDecls: nat, its: seq<nat>, imports: seq<TypeUse>, tts: seq<nat>,
      tags: seq<TypeUse>, fts: seq<nat>, funcs: seq<TypeUse>, bodies: seq<Nodes>, live: seq<bool>)
    returns (types: seq<Sig>, importTypes: seq<nat>, tagTypes: seq<nat>, code: seq<Written>)
    requires |bodies| == |funcs| == |live| && Distinct(table.sigs) && AllHeld(table.sigs, bodies, |bodies|)
    requires TypesAre(table.sigs, nDecls, its, imports) && TypesAre(table.sigs, nDecls, tts, tags)
      && TypesAre(table.sigs, nDecls, fts, funcs)
    modifies table
    ensures table.sigs == old(table.sigs)
    ensures TypesAre(types, nDecls, importTypes, imports) && TypesAre(types, nDecls, tagTypes, tags)
    ensures |code| == |live|
    ensures forall i | 0 <= i < |live| :: if live[i] then FuncRight(types, nDecls, code[i], funcs[i], bodies[i])
      else code[i] == Skipped
    ensures SetOf(types) == UseSigs(imports) + UseSigs(tags) + LiveSigs(funcs, bodies, live, |live|) && Distinct(types)
  {
    var flags := new bool[|table.sigs|](_ => false);
    assert Marked(table.sigs, flags[..]) == {};
    MarkTypes(flags, its, nDecls, table.sigs, imports);
    ghost var f1 := flags[..];
    MarkTypes(flags, tts, nDecls, table.sigs, tags);
    ghost var f2 := flags[..];
    MarkFuncs(table, flags, fts, nDecls, funcs, bodies, live);
    forall j | 0 <= j < |its| && imports[j].Inline? ensures flags[its[j] - nDecls] { assert f1[its[j] - nDecls]; }
    forall j | 0 <= j < |tts| && tags[j].Inline? ensures flags[tts[j] - nDecls] { assert f2[tts[j] - nDecls]; }
    types := EmitTypes(table.sigs, flags[..]);
    KeptSet(table.sigs, flags[..], |table.sigs|);
    importTypes := WriteTypes(flags[..], nDecls, its, table.sigs, imports);
    tagTypes := WriteTypes(flags[..], nDecls, tts, table.sigs, tags);
    code := WriteCode(table, flags, fts, nDecls, funcs, bodies, live);
  }

  method WriteCode(table: SigTable, flags: array<bool>, fts: seq<nat>, nDecls: nat, funcs: seq<TypeUse>,
      bodies: seq<Nodes>, live: seq<bool>)
    returns (code: seq<Written>)
    requires Distinct(table.sigs) && flags.Length == |table.sigs| && TypesAre(table.sigs, nDecls, fts, funcs)
    requires |bodies| == |funcs| == |live| && AllHeld(table.sigs, bodies, |bodies|)
    requires LiveSigs(funcs, bodies, live, |live|) <= Marked(table.sigs, flags[..])
    modifies table
    ensures table.sigs == old(table.sigs) && |code| == |live|
    ensures forall i | 0 <= i < |live| ::
              if live[i] then FuncRight(Kept(flags[..], table.sigs, |table.sigs|), nDecls, code[i], funcs[i],
                bodies[i]) else code[i] == Skipped
  {
    code := [];
    var i := 0;
    while i < |live|
      invariant 0 <= i <= |live| && table.sigs == old(table.sigs) && |code| == i
      invariant forall k | 0 <= k < i ::
                  if live[k] then FuncRight(Kept(flags[..], table.sigs, |table.sigs|), nDecls, code[k], funcs[k],
                    bodies[k]) else code[k] == Skipped
    {
      var w := Skipped;
      if live[i] {
        LiveSigsHold(funcs, bodies, live, |live|, i);
        assert TypeIs(table.sigs, nDecls, fts[i], funcs[i]) && Holds(table.sigs, Needed(bodies[i]));
        w := WriteFunc(table, flags, fts[i], nDecls, funcs[i], bodies[i]);
      }
      code := code + [w];
      i := i + 1;
    }
  }

  lemma {:induction false} KeptSet(sigs: seq<Sig>, flags: seq<bool>, n: nat)
    requires |flags| == |sigs| && n <= |sigs| && Distinct(sigs)
    ensures Distinct(Kept(flags, sigs, n))
    ensures SetOf(Kept(flags, sigs, n)) == set i | 0 <= i < n && flags[i] :: sigs[i]
    decreases n
  {
    if n > 0 {
      KeptSet(sigs, flags, n - 1);
      var was, now := Kept(flags, sigs, n - 1), Kept(flags, sigs, n);
      if flags[n - 1] {
        assert now == was + [sigs[n - 1]] && SetOf(now) == SetOf(was) + {sigs[n - 1]};
        assert forall s | s in was :: s in SetOf(was);
      }
      var low := set i | 0 <= i < n - 1 && flags[i] :: sigs[i];
      assert (set i | 0 <= i < n && flags[i] :: sigs[i]) == low + if flags[n - 1] then {sigs[n - 1]} else {};
    }
  }
}
