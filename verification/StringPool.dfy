module StringPool {
  // The string-literal pool (src/codegen/strings.c): a byte array into which runs are interned,
  // with an open-addressing index of the runs already asked for in front of a brute-force
  // substring scan. Everything is proved for every hash function, FNV-1a being one.

  import opened Options

  type Byte = b: int | 0 <= b < 256

  datatype StrRef = StrRef(offset: nat, len: nat)

  // ----- what the pool does, as a function of its bytes and of the runs recorded -----

  datatype Pool = Pool(bytes: seq<Byte>, dict: map<seq<Byte>, nat>)

  predicate OccursAt(bytes: seq<Byte>, s: seq<Byte>, i: int) {
    0 <= i && i + |s| <= |bytes| && bytes[i..i + |s|] == s
  }

  /** i is the lowest offset at which s occurs. */
  ghost predicate Lowest(bytes: seq<Byte>, s: seq<Byte>, i: int) {
    OccursAt(bytes, s, i) && forall j | 0 <= j < i :: !OccursAt(bytes, s, j)
  }

  /** strpool_scan from offset i on. */
  function Scan(bytes: seq<Byte>, s: seq<Byte>, i: nat): (r: Option<nat>)
    requires i <= |bytes|
    ensures r.Some? ==> OccursAt(bytes, s, r.value) && r.value >= i
    ensures forall j | i <= j < (if r.Some? then r.value else |bytes| + 1) :: !OccursAt(bytes, s, j)
    decreases |bytes| - i
  {
    if i + |s| > |bytes| then None
    else if bytes[i..i + |s|] == s then Some(i)
    else if i == |bytes| then None
    else Scan(bytes, s, i + 1)
  }

  function Add(p: Pool, s: seq<Byte>): (Pool, StrRef) {
    if s == [] then (p, StrRef(0, 0))
    else if s in p.dict then (p, StrRef(p.dict[s], |s|))
    else
      match Scan(p.bytes, s, 0)
      case Some(o) => (p.(dict := p.dict[s := o]), StrRef(o, |s|))
      case None => (Pool(p.bytes + s, p.dict[s := |p.bytes|]), StrRef(|p.bytes|, |s|))
  }

  /** The index-free pool: scan, and append what is not there. */
  function BruteAdd(bytes: seq<Byte>, s: seq<Byte>): seq<Byte> {
    if s == [] || Scan(bytes, s, 0).Some? then bytes else bytes + s
  }

  /** Every recorded run is where the record says. */
  ghost predicate Sound(p: Pool) {
    forall s | s in p.dict :: s != [] && OccursAt(p.bytes, s, p.dict[s])
  }

  lemma {:induction false} OccursStable(bytes: seq<Byte>, more: seq<Byte>, s: seq<Byte>, i: nat)
    requires i + |s| <= |bytes|
    ensures OccursAt(bytes + more, s, i) <==> OccursAt(bytes, s, i)
  {
    assert (bytes + more)[i..i + |s|] == bytes[i..i + |s|];
  }

  /** One add: the range returned holds the run, the bytes only grow, and they
      grow exactly as the brute-force pool's do. */
  lemma {:induction false} AddKeeps(p: Pool, s: seq<Byte>)
    requires Sound(p)
    ensures Sound(Add(p, s).0)
    ensures p.bytes <= Add(p, s).0.bytes && Add(p, s).0.bytes == BruteAdd(p.bytes, s)
    ensures OccursAt(Add(p, s).0.bytes, s, Add(p, s).1.offset) && Add(p, s).1.len == |s|
    ensures forall t | t in p.dict :: t in Add(p, s).0.dict && Add(p, s).0.dict[t] == p.dict[t]
    ensures s != [] ==> s in Add(p, s).0.dict && Add(p, s).0.dict[s] == Add(p, s).1.offset
  {
    if s != [] && s !in p.dict && Scan(p.bytes, s, 0).None? {
      forall t | t in p.dict ensures OccursAt(p.bytes + s, t, p.dict[t]) {
        OccursStable(p.bytes, s, t, p.dict[t]);
      }
    } else if s in p.dict {
      var r := Scan(p.bytes, s, 0);
      assert OccursAt(p.bytes, s, p.dict[s]);
      assert r.Some?;
    }
  }

  function Run(p: Pool, adds: seq<seq<Byte>>): (Pool, seq<StrRef>)
    decreases |adds|
  {
    if adds == [] then (p, [])
    else
      var (p', r) := Add(p, adds[0]);
      var (q, rs) := Run(p', adds[1..]);
      (q, [r] + rs)
  }

  function BruteRun(bytes: seq<Byte>, adds: seq<seq<Byte>>): seq<Byte>
    decreases |adds|
  {
    if adds == [] then bytes else BruteRun(BruteAdd(bytes, adds[0]), adds[1..])
  }

  /** The range r holds exactly the bytes of s, at the place recorded for s. */
  ghost predicate Holds(p: Pool, s: seq<Byte>, r: StrRef) {
    && r.len == |s| && OccursAt(p.bytes, s, r.offset)
    && if s == [] then r.offset == 0 else s in p.dict && p.dict[s] == r.offset
  }

  /** Any sequence of adds: the i-th range still holds the i-th run at the end,
      a recorded run keeps its place, and the bytes are the brute-force ones. */
  lemma {:induction false} RunKeeps(p: Pool, adds: seq<seq<Byte>>)
    requires Sound(p)
    ensures var (q, rs) := Run(p, adds);
            && Sound(q) && |rs| == |adds| && p.bytes <= q.bytes && q.bytes == BruteRun(p.bytes, adds)
            && (forall t | t in p.dict :: t in q.dict && q.dict[t] == p.dict[t])
            && (forall i | 0 <= i < |adds| :: Holds(q, adds[i], rs[i]))
    decreases |adds|
  {
    if adds != [] {
      var (p', r) := Add(p, adds[0]);
      var (q, rs) := Run(p', adds[1..]);
      AddKeeps(p, adds[0]);
      RunKeeps(p', adds[1..]);
      assert Run(p, adds).1 == [r] + rs;
      HoldsStays(p', q, adds[0], r);
      forall i | 0 <= i < |adds| ensures Holds(q, adds[i], ([r] + rs)[i]) {
        if i > 0 { assert Holds(q, adds[1..][i - 1], rs[i - 1]); }
      }
    }
  }

  lemma {:induction false} HoldsStays(p: Pool, q: Pool, s: seq<Byte>, r: StrRef)
    requires Holds(p, s, r) && p.bytes <= q.bytes
    requires s in p.dict ==> s in q.dict && q.dict[s] == p.dict[s]
    ensures Holds(q, s, r)
  {
    assert q.bytes == p.bytes + q.bytes[|p.bytes|..];
    OccursStable(p.bytes, q.bytes[|p.bytes|..], s, r.offset);
  }

  /** Two adds return the same range exactly when they added the same bytes, so
      a constant's global is one object per spelling (kstr_name). */
  lemma {:induction false} SameBytesSameRef(p: Pool, adds: seq<seq<Byte>>, i: nat, j: nat)
    requires Sound(p) && i < |adds| && j < |adds|
    ensures |Run(p, adds).1| == |adds|
    ensures Run(p, adds).1[i] == Run(p, adds).1[j] <==> adds[i] == adds[j]
  {
    RunKeeps(p, adds);
    var (q, rs) := Run(p, adds);
    assert Holds(q, adds[i], rs[i]) && Holds(q, adds[j], rs[j]);
    if rs[i] == rs[j] {
      assert adds[i] == q.bytes[rs[i].offset..rs[i].offset + rs[i].len] == adds[j];
    }
  }

  // ----- when the offset returned is the lowest one -----

  /** A copy of s would begin inside `bytes`, k bytes before its end, once s is appended. */
  predicate Straddles(bytes: seq<Byte>, s: seq<Byte>, k: int) {
    0 < k < |s| && k <= |bytes| && bytes[|bytes| - k..] == s[..k] && s[k..] == s[..|s| - k]
  }

  lemma {:induction false} StraddleOccurs(bytes: seq<Byte>, s: seq<Byte>, k: int)
    requires 0 < k < |s| && k <= |bytes|
    ensures OccursAt(bytes + s, s, |bytes| - k) <==> Straddles(bytes, s, k)
  {
    var all, i := bytes + s, |bytes| - k;
    assert all[i..i + |s|] == bytes[i..] + s[..|s| - k];
    assert s == s[..k] + s[k..];
    if all[i..i + |s|] == s {
      assert bytes[i..] == all[i..i + |s|][..k] && s[..|s| - k] == all[i..i + |s|][k..];
    }
  }

  /** The first add of s returns its lowest offset exactly when s was already in
      the pool or no copy of s straddles the point where it is appended. */
  lemma {:induction false} LowestExactly(p: Pool, s: seq<Byte>)
    requires s != [] && s !in p.dict
    ensures Lowest(Add(p, s).0.bytes, s, Add(p, s).1.offset)
            <==> Scan(p.bytes, s, 0).Some? || !exists k :: Straddles(p.bytes, s, k)
  {
    if Scan(p.bytes, s, 0).None? {
      var all, n := p.bytes + s, |p.bytes|;
      assert all[n..] == s;
      forall j | 0 <= j < n
        ensures OccursAt(all, s, j) <==> Straddles(p.bytes, s, n - j)
      {
        if j + |s| <= n {
          OccursStable(p.bytes, s, s, j);
        } else {
          StraddleOccurs(p.bytes, s, n - j);
        }
      }
      if k :| Straddles(p.bytes, s, k) {
        assert OccursAt(all, s, n - k);
      }
    }
  }

  /** Later adds change neither: whether a recorded offset is the lowest is
      settled when it is recorded. */
  lemma {:induction false} LowestSettled(bytes: seq<Byte>, more: seq<Byte>, s: seq<Byte>, i: nat)
    requires OccursAt(bytes, s, i)
    ensures Lowest(bytes + more, s, i) <==> Lowest(bytes, s, i)
  {
    OccursStable(bytes, more, s, i);
    forall j | 0 <= j < i ensures OccursAt(bytes + more, s, j) <==> OccursAt(bytes, s, j) {
      OccursStable(bytes, more, s, j);
    }
  }

  /** "ab" then "abab": the second offset is 2, though the run also starts at 0. */
  lemma {:induction false} NotAlwaysLowest()
    ensures var (q, rs) := Run(Pool([], map[]), [[97, 98], [97, 98, 97, 98]]);
            |rs| == 2 && rs[1] == StrRef(2, 4) && OccursAt(q.bytes, [97, 98, 97, 98], 0)
  {
    var ab: seq<Byte>, abab: seq<Byte> := [97, 98], [97, 98, 97, 98];
    var p0 := Pool([], map[]);
    var p1 := Pool(ab, map[ab := 0]);
    assert [] + ab == ab && map[][ab := 0] == p1.dict;
    assert Add(p0, ab) == (p1, StrRef(0, 2));
    assert Add(p1, abab) == (Pool(ab + abab, p1.dict[abab := 2]), StrRef(2, 4));
    assert (ab + abab)[0..4] == abab;
    assert [ab, abab][1..] == [abab] && [abab][1..] == [];
    assert Run(p1, [abab]).1 == [StrRef(2, 4)] && Run(p1, [abab]).0 == Add(p1, abab).0;
    assert Run(p0, [ab, abab]).1 == [StrRef(0, 2)] + [StrRef(2, 4)];
  }

  // ----- the open-addressing index -----

  datatype Slot = Slot(hash: nat, offset: nat, len: nat, used: bool)

  /** The slot d probes after h. */
  function At(h: nat, d: nat, cap: nat): (i: nat)
    requires h < cap && d < cap
    ensures i < cap
  {
    if h + d < cap then h + d else h + d - cap
  }

  lemma {:induction false} AtDistance(h: nat, i: nat, cap: nat) returns (d: nat)
    requires h < cap && i < cap
    ensures d < cap && At(h, d, cap) == i
  {
    d := if h <= i then i - h else i + cap - h;
  }

  function RunOf(bytes: seq<Byte>, e: Slot): seq<Byte>
    requires e.offset + e.len <= |bytes|
  {
    bytes[e.offset..e.offset + e.len]
  }

  /** Slot d probes from the hash of s holds s, and no slot on the way is free. */
  ghost predicate HeldAt(table: seq<Slot>, hash: nat, offset: nat, len: nat, d: nat)
    requires 0 < |table|
  {
    && d < |table|
    && table[At(hash % |table|, d, |table|)] == Slot(hash, offset, len, true)
    && forall e | 0 <= e < d :: table[At(hash % |table|, e, |table|)].used
  }

  /** How many slots are occupied. */
  ghost function CountUsed(table: seq<Slot>): (n: nat)
    ensures n <= |table|
  {
    if table == [] then 0
    else CountUsed(table[..|table| - 1]) + (if table[|table| - 1].used then 1 else 0)
  }

  lemma {:induction false} SomeSlotFree(table: seq<Slot>) returns (i: nat)
    requires CountUsed(table) < |table|
    ensures i < |table| && !table[i].used
  {
    if table[|table| - 1].used {
      i := SomeSlotFree(table[..|table| - 1]);
    } else {
      i := |table| - 1;
    }
  }

  lemma {:induction false} CountAfterFill(table: seq<Slot>, i: nat, e: Slot)
    requires i < |table| && !table[i].used && e.used
    ensures CountUsed(table[i := e]) == CountUsed(table) + 1
  {
    var n := |table| - 1;
    if i < n {
      CountAfterFill(table[..n], i, e);
      assert table[i := e][..n] == table[..n][i := e];
    } else {
      assert table[i := e][..n] == table[..n];
    }
  }

  lemma {:induction false} CountOfFree(table: seq<Slot>)
    requires forall i | 0 <= i < |table| :: !table[i].used
    ensures CountUsed(table) == 0
  {
    if table != [] {
      CountOfFree(table[..|table| - 1]);
    }
  }

  lemma {:induction false} CountMonotone(table: seq<Slot>, i: nat)
    requires i <= |table|
    ensures CountUsed(table[..i]) <= CountUsed(table)
  {
    var n := |table| - 1;
    if i <= n {
      CountMonotone(table[..n], i);
      assert table[..n][..i] == table[..i];
    } else {
      assert table[..i] == table;
    }
  }

  /** A probe that meets a free slot after d slots none of which holds the run
      shows that the run is nowhere. */
  lemma {:induction false} ProbeMiss(table: seq<Slot>, hash: nat, offset: nat, len: nat, d: nat, f: nat)
    requires 0 < |table| && d < |table| && !table[At(hash % |table|, d, |table|)].used
    requires forall e | 0 <= e < d :: table[At(hash % |table|, e, |table|)] != Slot(hash, offset, len, true)
    ensures !HeldAt(table, hash, offset, len, f)
  {
  }

  ghost predicate Recorded(hash: seq<Byte> -> nat, p: Pool, e: Slot) {
    && e.offset + e.len <= |p.bytes| && e.hash == hash(RunOf(p.bytes, e))
    && RunOf(p.bytes, e) in p.dict && p.dict[RunOf(p.bytes, e)] == e.offset
  }

  ghost predicate Reachable(hash: seq<Byte> -> nat, p: Pool, table: seq<Slot>, s: seq<Byte>)
    requires |table| > 0 && s in p.dict
  {
    exists d :: HeldAt(table, hash(s), p.dict[s], |s|, d)
  }

  /** The table holds exactly the recorded runs, each reachable from its hash. */
  ghost predicate Indexed(hash: seq<Byte> -> nat, p: Pool, table: seq<Slot>) {
    && (forall i {:trigger Recorded(hash, p, table[i])} | 0 <= i < |table| && table[i].used ::
      Recorded(hash, p, table[i]))
    && (|table| == 0 ==> p.dict == map[])
    && (|table| > 0 ==> forall s {:trigger Reachable(hash, p, table, s)} | s in p.dict :: Reachable(hash, p, table, s))
  }

  /** Filling the free slot that ends the probe for s records s. */
  lemma {:induction false} PutIndexed(hash: seq<Byte> -> nat, p: Pool, table: seq<Slot>, i: nat, d: nat,
        s: seq<Byte>, offset: nat)
    requires Indexed(hash, p, table) && d < |table| && s !in p.dict && OccursAt(p.bytes, s, offset)
    requires i == At(hash(s) % |table|, d, |table|) && !table[i].used
    requires forall e | 0 <= e < d :: table[At(hash(s) % |table|, e, |table|)].used
    ensures Indexed(hash, p.(dict := p.dict[s := offset]), table[i := Slot(hash(s), offset, |s|, true)])
  {
    var p', table' := p.(dict := p.dict[s := offset]), table[i := Slot(hash(s), offset, |s|, true)];
    forall j | 0 <= j < |table'| && table'[j].used ensures Recorded(hash, p', table'[j]) {
      if j != i { assert Recorded(hash, p, table[j]); } else { assert RunOf(p.bytes, table'[j]) == s; }
    }
    forall t | t in p'.dict ensures Reachable(hash, p', table', t) {
      if t == s {
        assert HeldAt(table', hash(s), offset, |s|, d);
      } else {
        assert Reachable(hash, p, table, t);
        var f :| HeldAt(table, hash(t), p.dict[t], |t|, f);
        assert HeldAt(table', hash(t), p'.dict[t], |t|, f);
      }
    }
  }

  /** The runs of all used slots of `table` are in `dict` again. */
  ghost predicate Rehashed(p: Pool, table: seq<Slot>, dict: map<seq<Byte>, nat>) {
    forall e {:trigger e in table} | e in table && e.used && e.offset + e.len <= |p.bytes| :: RunOf(p.bytes, e) in dict
  }

  lemma {:induction false} RehashedNext(p: Pool, table: seq<Slot>, e: Slot, dict: map<seq<Byte>, nat>)
    requires Rehashed(p, table, dict)
    requires e.used && e.offset + e.len <= |p.bytes| ==> RunOf(p.bytes, e) in dict
    ensures Rehashed(p, table + [e], dict)
  {
  }

  lemma {:induction false} AllRehashed(hash: seq<Byte> -> nat, p: Pool, table: seq<Slot>, dict: map<seq<Byte>, nat>)
    requires Sound(p) && Indexed(hash, p, table) && |table| > 0 && Rehashed(p, table, dict)
    requires forall t | t in dict :: t in p.dict && dict[t] == p.dict[t]
    ensures dict == p.dict
  {
    forall t | t in p.dict ensures t in dict {
      assert Reachable(hash, p, table, t) && OccursAt(p.bytes, t, p.dict[t]);
      var f :| HeldAt(table, hash(t), p.dict[t], |t|, f);
      var e := table[At(hash(t) % |table|, f, |table|)];
      assert e in table && RunOf(p.bytes, e) == t;
    }
  }

  /** Appending bytes disturbs neither the records nor the table. */
  lemma {:induction false} Grown(hash: seq<Byte> -> nat, p: Pool, table: seq<Slot>, more: seq<Byte>)
    requires Sound(p) && Indexed(hash, p, table)
    ensures Sound(p.(bytes := p.bytes + more)) && Indexed(hash, p.(bytes := p.bytes + more), table)
  {
    var q := p.(bytes := p.bytes + more);
    forall t | t in q.dict ensures OccursAt(q.bytes, t, q.dict[t]) {
      OccursStable(p.bytes, more, t, p.dict[t]);
    }
    forall i | 0 <= i < |table| && table[i].used ensures Recorded(hash, q, table[i]) {
      assert Recorded(hash, p, table[i]) && RunOf(q.bytes, table[i]) == RunOf(p.bytes, table[i]);
    }
    if |table| > 0 {
      forall t | t in q.dict ensures Reachable(hash, q, table, t) { assert Reachable(hash, p, table, t); }
    }
  }

  lemma {:induction false} CountTaken(table: seq<Slot>, i: nat)
    requires i < |table|
    ensures table[..i + 1] == table[..i] + [table[i]]
    ensures CountUsed(table[..i]) <= CountUsed(table[..i] + [table[i]]) <= CountUsed(table)
    ensures CountUsed(table[..i] + [table[i]]) == CountUsed(table[..i]) + if table[i].used then 1 else 0
  {
    assert table[..i + 1][..i] == table[..i] && table[..i + 1] == table[..i] + [table[i]];
    CountMonotone(table, i + 1);
  }

  /** The first d probes for a run meet other runs. */
  ghost predicate MissedBefore(table: seq<Slot>, h: nat, offset: nat, len: nat, d: nat)
    requires 0 < |table|
  {
    forall e | 0 <= e < d <= |table| ::
      table[At(h % |table|, e, |table|)].used && table[At(h % |table|, e, |table|)] != Slot(h, offset, len, true)
  }

  class StrPool {
    const hash: seq<Byte> -> nat
    var bytes: seq<Byte>
    var idx: array<Slot>
    var count: nat
    ghost var dict: map<seq<Byte>, nat>

    ghost predicate Valid()
      reads this, idx
    {
      && Sound(Pool(bytes, dict))
      && Indexed(hash, Pool(bytes, dict), idx[..])
      && CountUsed(idx[..]) == count
      && (if idx.Length == 0 then count == 0 else idx.Length >= 64 && count * 10 < idx.Length * 7)
    }

    ghost function View(): Pool
      reads this
    {
      Pool(bytes, dict)
    }

    constructor (h: seq<Byte> -> nat)
      ensures Valid() && View() == Pool([], map[]) && fresh(idx)
    {
      hash := h;
      bytes := [];
      idx := new Slot[0];
      count := 0;
      dict := map[];
    }

    /** strpool_index_get: probe for s. */
    method IndexGet(s: seq<Byte>) returns (r: Option<nat>)
      requires Valid()
      ensures r == if s in dict then Some(dict[s]) else None
    {
      if idx.Length == 0 { return None; }
      var cap := idx.Length;
      var h := hash(s);
      var i := h % cap;
      ghost var d := 0;
      ghost var gap := SomeSlotFree(idx[..]);
      gap := AtDistance(h % cap, gap, cap);
      ghost var table := idx[..];
      while idx[i].used
        invariant d <= gap < cap && i == At(h % cap, d, cap)
        invariant s in dict ==> forall e | 0 <= e < d :: table[At(h % cap, e, cap)] != Slot(h, dict[s], |s|, true)
        decreases gap - d
      {
        var e := idx[i];
        assert Recorded(hash, View(), table[i]) && e == table[i];
        if e.hash == h && e.len == |s| && bytes[e.offset..e.offset + e.len] == s {
          assert RunOf(bytes, e) == s;
          return Some(e.offset);
        }
        assert s in dict ==> OccursAt(bytes, s, dict[s]);
        i := if i + 1 == cap then 0 else i + 1;
        d := d + 1;
      }
      if s in dict {
        assert Reachable(hash, View(), table, s);
        ghost var f :| HeldAt(table, h, dict[s], |s|, f);
        ProbeMiss(table, h, dict[s], |s|, d, f);
      }
      r := None;
    }

    predicate NeedsGrow()
      reads this
    {
      idx.Length == 0 || (count + 1) * 10 >= idx.Length * 7
    }

    /** strpool_index_put: record the run s, at `offset`, unless it is there. */
    method IndexPut(h: nat, offset: nat, len: nat, ghost s: seq<Byte>)
      requires Valid() && s != [] && h == hash(s) && len == |s| && OccursAt(bytes, s, offset)
      requires s in dict ==> dict[s] == offset
      modifies this, idx
      ensures Valid() && bytes == old(bytes) && dict == old(dict)[s := offset]
      ensures old(NeedsGrow()) ==> fresh(idx)
      ensures !old(NeedsGrow()) ==> idx == old(idx) && count <= old(count) + 1
      decreases if NeedsGrow() then 3 else 0
    {
      if NeedsGrow() {
        IndexGrow();
      }
      ghost var d;
      var i, hit;
      i, d, hit := FindSlot(h, offset, len);
      if hit {
        assert Recorded(hash, View(), idx[..][i]) && RunOf(bytes, idx[i]) == s;
      } else {
        FillSlot(i, d, h, offset, len, s);
      }
    }

    /** Probe for the slot that holds the run, or the free one where it goes. */
    method FindSlot(h: nat, offset: nat, len: nat) returns (i: nat, ghost d: nat, hit: bool)
      requires Valid() && idx.Length > 0
      ensures d < idx.Length && i == At(h % idx.Length, d, idx.Length) < idx.Length
      ensures hit ==> idx[i] == Slot(h, offset, len, true)
      ensures !hit ==> !idx[i].used && MissedBefore(idx[..], h, offset, len, d)
    {
      var cap := idx.Length;
      i, d, hit := h % cap, 0, false;
      ghost var table := idx[..];
      ghost var gap := SomeSlotFree(table);
      gap := AtDistance(h % cap, gap, cap);
      while idx[i].used
        invariant d <= gap < cap && i == At(h % cap, d, cap)
        invariant MissedBefore(table, h, offset, len, d)
        decreases gap - d
      {
        if idx[i] == Slot(h, offset, len, true) { return i, d, true; }
        i := if i + 1 == cap then 0 else i + 1;
        d := d + 1;
      }
    }

    /** Record a run in a free slot. */
    method FillSlot(i: nat, ghost d: nat, h: nat, offset: nat, len: nat, ghost s: seq<Byte>)
      requires Valid() && !NeedsGrow() && s != [] && h == hash(s) && len == |s| && OccursAt(bytes, s, offset)
      requires s in dict ==> dict[s] == offset
      requires d < idx.Length && i == At(h % idx.Length, d, idx.Length) < idx.Length && !idx[i].used
      requires MissedBefore(idx[..], h, offset, len, d)
      modifies this, idx
      ensures Valid() && bytes == old(bytes) && dict == old(dict)[s := offset]
      ensures idx == old(idx) && count == old(count) + 1
    {
      ghost var table := idx[..];
      if s in dict {
        assert Reachable(hash, View(), table, s);
        ghost var f :| HeldAt(table, h, offset, len, f);
        ProbeMiss(table, h, offset, len, d, f);
      }
      PutIndexed(hash, View(), table, i, d, s, offset);
      CountAfterFill(table, i, Slot(h, offset, len, true));
      idx[i] := Slot(h, offset, len, true);
      assert idx[..] == table[i := Slot(h, offset, len, true)];
      count := count + 1;
      dict := dict[s := offset];
    }

    /** An empty table of `cap` slots. */
    method Clear(cap: nat)
      requires cap >= 64
      modifies this
      ensures Valid() && bytes == old(bytes) && dict == map[] && count == 0
      ensures fresh(idx) && idx.Length == cap
    {
      idx := new Slot[cap](_ => Slot(0, 0, 0, false));
      count := 0;
      dict := map[];
      CountOfFree(idx[..]);
    }

    /** strpool_index_grow: double the table and record every run again. */
    method IndexGrow()
      requires Valid() && NeedsGrow()
      modifies this
      ensures Valid() && bytes == old(bytes) && dict == old(dict)
      ensures fresh(idx) && !NeedsGrow() && count <= old(count)
      decreases 2
    {
      var was := idx;
      ghost var table, all := idx[..], View();
      var cap := if idx.Length == 0 then 64 else idx.Length * 2;
      Clear(cap);
      var i := 0;
      while i < was.Length
        invariant 0 <= i <= was.Length && was[..] == table && fresh(idx) && idx.Length == cap
        invariant Regrowing(all, table[..i])
      {
        CountTaken(table, i);
        assert table[i].used ==> Recorded(hash, all, table[i]);
        PutAgain(was[i], all, table[..i]);
        i := i + 1;
      }
      assert table[..i] == table;
      if was.Length > 0 {
        AllRehashed(hash, all, table, dict);
      }
    }

    /** The slots `done` of the old table have been recorded again. */
    ghost predicate Regrowing(all: Pool, done: seq<Slot>)
      reads this, idx
    {
      && Valid() && bytes == all.bytes && count <= CountUsed(done)
      && (forall t | t in dict :: t in all.dict && dict[t] == all.dict[t])
      && Rehashed(all, done, dict)
    }

    method PutAgain(e: Slot, ghost all: Pool, ghost done: seq<Slot>)
      requires Regrowing(all, done) && Sound(all) && (e.used ==> Recorded(hash, all, e) && e.len > 0)
      requires idx.Length >= 64 && (e.used ==> (CountUsed(done) + 1) * 10 < idx.Length * 7)
      requires CountUsed(done + [e]) == CountUsed(done) + if e.used then 1 else 0
      modifies this, idx
      ensures idx == old(idx) && Regrowing(all, done + [e])
      decreases 1
    {
      ghost var s := if e.used then RunOf(bytes, e) else [];
      if e.used {
        IndexPut(e.hash, e.offset, e.len, s);
      }
      RehashedNext(all, done, e, dict);
    }

    /** strpool_scan. */
    method ScanPool(s: seq<Byte>) returns (r: Option<nat>)
      requires s != []
      ensures r == Scan(bytes, s, 0)
    {
      if |s| > |bytes| { return None; }
      var i := 0;
      while i + |s| <= |bytes|
        invariant i <= |bytes| && Scan(bytes, s, 0) == Scan(bytes, s, i)
      {
        if bytes[i..i + |s|] == s { return Some(i); }
        i := i + 1;
      }
      r := None;
    }

    /** strpool_add. */
    method Intern(s: seq<Byte>) returns (r: StrRef)
      requires Valid()
      modifies this, idx
      ensures Valid() && (idx == old(idx) || fresh(idx))
      ensures (View(), r) == Add(old(View()), s)
    {
      if s == [] { return StrRef(0, 0); }
      AddKeeps(View(), s);
      var h := hash(s);
      var found := IndexGet(s);
      if found.None? {
        found := ScanPool(s);
      }
      if found.Some? {
        IndexPut(h, found.value, |s|, s);
        assert s in old(dict) ==> dict == old(dict);
        return StrRef(found.value, |s|);
      }
      r := StrRef(|bytes|, |s|);
      Grown(hash, View(), idx[..], s);
      bytes := bytes + s;
      assert bytes[r.offset..] == s;
      IndexPut(h, r.offset, |s|, s);
    }
  }
}
