/** Keeping the live entries of a table: where they go, and that they get there. */
module Keep {

  /** How many entries before i are live: the new index of entry i. */
  function Rank(live: seq<bool>, i: nat): (n: nat)
    requires i <= |live|
    ensures n <= i
  {
    if i == 0 then 0 else Rank(live, i - 1) + if live[i - 1] then 1 else 0
  }

  /** The first i entries, without the dead ones. */
  function Kept<T>(live: seq<bool>, xs: seq<T>, i: nat): (r: seq<T>)
    requires i <= |live| && i <= |xs|
    ensures |r| == Rank(live, i)
  {
    if i == 0 then [] else Kept(live, xs, i - 1) + if live[i - 1] then [xs[i - 1]] else []
  }

  lemma {:induction false} RankMonotone(live: seq<bool>, i: nat, j: nat)
    requires i <= j <= |live|
    ensures Rank(live, i) <= Rank(live, j)
    ensures i < j && live[i] ==> Rank(live, i) < Rank(live, j)
    decreases j
  {
    if i < j { RankMonotone(live, i, j - 1); }
  }

  /** Distinct live entries get distinct new indices, in the old order. */
  lemma {:induction false} RankInjective(live: seq<bool>, i: nat, j: nat)
    requires i < |live| && j < |live| && live[i] && live[j]
    ensures Rank(live, i) < Rank(live, j) <==> i < j
    ensures Rank(live, i) == Rank(live, j) <==> i == j
  {
    if i < j {
      RankMonotone(live, i, j);
    } else if j < i {
      RankMonotone(live, j, i);
    }
  }

  /** A live entry is found at its new index. */
  lemma {:induction false} KeptAt<T>(live: seq<bool>, xs: seq<T>, i: nat, n: nat)
    requires i < n <= |live| && n <= |xs| && live[i]
    ensures Rank(live, i) < Rank(live, n) && Kept(live, xs, n)[Rank(live, i)] == xs[i]
    decreases n
  {
    if i < n - 1 { KeptAt(live, xs, i, n - 1); }
  }

  /** Every new index is that of a live entry. */
  lemma {:induction false} KeptFrom(live: seq<bool>, k: nat, n: nat) returns (i: nat)
    requires n <= |live| && k < Rank(live, n)
    ensures i < n && live[i] && Rank(live, i) == k
    decreases n
  {
    if live[n - 1] && k == Rank(live, n - 1) {
      i := n - 1;
    } else {
      i := KeptFrom(live, k, n - 1);
    }
  }

  /** Storing into a live entry stores at its new index. */
  lemma {:induction false} KeptUpdate<T>(live: seq<bool>, xs: seq<T>, i: nat, v: T, n: nat)
    requires i < |xs| && i < |live| && live[i] && n <= |live| && n <= |xs|
    ensures i < n ==> Rank(live, i) < Rank(live, n)
    ensures Kept(live, xs[i := v], n) == if i < n then Kept(live, xs, n)[Rank(live, i) := v] else Kept(live, xs, n)
    decreases n
  {
    if n > 0 {
      KeptUpdate(live, xs, i, v, n - 1);
      if i < n { KeptAt(live, xs, i, n); }
    }
  }

  const DROPPED := 0xffff_ffff

  /** The renumbering loop: the remap array of a table of liveness flags. */
  method Renumber(live: seq<bool>) returns (remap: array<int>, n: nat)
    ensures fresh(remap) && remap.Length == |live| && n == Rank(live, |live|)
    ensures forall i | 0 <= i < |live| :: remap[i] == if live[i] then Rank(live, i) else DROPPED
  {
    remap := new int[|live|];
    n := 0;
    var i := 0;
    while i < |live|
      invariant 0 <= i <= |live| && n == Rank(live, i)
      invariant forall j | 0 <= j < i :: remap[j] == if live[j] then Rank(live, j) else DROPPED
    {
      remap[i] := if live[i] then n else DROPPED;
      if live[i] { n := n + 1; }
      i := i + 1;
    }
  }
}
