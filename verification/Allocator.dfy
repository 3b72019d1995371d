/** The freestanding wasm32 heap (src/freestanding/alloc.c): boundary-tagged
    blocks in linear memory, first fit over a doubly linked free list, splitting,
    and two-sided coalescing.

    Linear memory is a map from 4-aligned addresses to 32-bit words. The ghost
    fields `blocks` and `list` name what the words encode: which blocks tile the
    heap, and in which order the free list visits the free ones. */
module Allocator {

  const LIMIT: int := 0x1_0000_0000
  const HDR := 8
  const FTR := 8
  const MIN_PAYLOAD := 16
  const MIN_BLOCK := 32
  const PAGE := 65536
  const NULL := 0
  /** The largest request the size guard of `malloc` lets through. */
  const MAX_REQUEST := 0xffff_fff0

  type Word = w: int | 0 <= w < LIMIT

  datatype Block = Block(size: int, used: bool)

  // ----- sizes -----

  function AlignUp(x: int): int {
    (x + 7) / 8 * 8
  }

  /** The payload capacity `malloc` asks for. */
  function Need(req: int): int {
    var r := AlignUp(if req == 0 then 1 else req);
    if r < MIN_PAYLOAD then MIN_PAYLOAD else r
  }

  /** The least multiple of 8 that holds the request and the two free-list pointers. */
  lemma {:induction false} NeedExact(req: int)
    requires req >= 0
    ensures Need(req) % 8 == 0 && Need(req) >= req && Need(req) >= MIN_PAYLOAD
    ensures forall n | n % 8 == 0 && n >= req && n >= MIN_PAYLOAD :: Need(req) <= n
  {
  }

  /** The block size `malloc` computes, in 32-bit arithmetic. */
  function Total(req: int): int {
    (HDR + Need(req) + FTR) % LIMIT
  }

  /** The guard rejects too little: the block size is the true one exactly up to
      0xffffffe8, although requests up to MAX_REQUEST get past the guard. */
  lemma {:induction false} SizeGuardExact(req: int)
    requires 0 <= req <= MAX_REQUEST
    ensures Total(req) == HDR + Need(req) + FTR <==> req <= 0xffff_ffe8
    ensures req > 0xffff_ffe8 ==> Total(req) == 0
  {
    if req > 0xffff_ffe8 {
      assert (req + 7) / 8 == 0x1fff_fffe;
    } else {
      assert (req + 7) / 8 <= 0x1fff_fffd;
    }
  }

  // ----- the break -----

  /** g_brk + n as heap_extend computes it, in 32 bits. */
  function Sum(brk: int, n: int): Word { (brk + n) % LIMIT }

  /** No memory for n bytes at the break: more is needed and refused; `grant` is whether the
      host would grow memory. `end` is how much is committed, up to all 4 GiB; then the
      program's g_end, its low 32 bits, is 0, and the break is past it whatever room is left. */
  predicate NoMemory(brk: int, n: int, end: int, grant: bool) {
    if end < LIMIT then end < brk + n < LIMIT && !grant
    else brk + n != LIMIT && !(grant && (brk + n) % LIMIT > LIMIT - PAGE)
  }

  /** A small request with all memory committed and most of it unused. */
  lemma {:induction false} FullRefuses()
    ensures NoMemory(0x2_0000, Total(16), LIMIT, true)
  {
    SizeGuardExact(16);
  }

  /** For every request past the guard: a fresh block at the break has the new break above
      it, and then at its true end, exactly when neither the block size nor the break wraps. */
  lemma {:induction false} FreshExact(brk: int, req: int)
    requires 0 < brk < LIMIT && 0 <= req <= MAX_REQUEST
    ensures Sum(brk, Total(req)) > brk <==> req <= 0xffff_ffe8 && brk + Total(req) < LIMIT
    ensures Sum(brk, Total(req)) > brk ==> Sum(brk, Total(req)) == brk + HDR + Need(req) + FTR
  {
    SizeGuardExact(req);
    var t := Total(req);
    if req <= 0xffff_ffe8 { AlignedTotal(req); }
    if brk + t < LIMIT {
      assert Sum(brk, t) == brk + t;
    } else {
      assert Sum(brk, t) == brk + t - LIMIT;
    }
  }

  /** A request that keeps its size: with the break at 0x20000 in three pages, memory is not
      grown, the break moves down, and the block's footer lies below the block. */
  lemma {:induction false} BreakWraps()
    ensures var brk, end, t := 0x2_0000, 0x3_0000, Total(0xffff_ffe8);
            && t == HDR + Need(0xffff_ffe8) + FTR == 0xffff_fff8
            && !NoMemory(brk, t, end, false) && Sum(brk, t) == 0x1_fff8 < brk <= end
            && Sum(brk, t - FTR) == brk - 16
  {
    SizeGuardExact(0xffff_ffe8);
    assert (0xffff_ffe8 + 7) / 8 == 0x1fff_fffd;
  }

  predicate Told(x: int) { true }

  /** A multiple of 8; what that means for remainders is seen only where Told is
      mentioned (AlignedMod), which keeps modular arithmetic out of the proofs
      about blocks. */
  ghost predicate Aligned(x: int) {
    x >= 0 && forall z {:trigger Told(z)} :: Told(z) ==> x % 8 == 0
  }

  lemma {:induction false} AlignedMod(x: int)
    requires x >= 0
    ensures Aligned(x) <==> x % 8 == 0
  {
    assert Told(0);
  }

  lemma {:induction false} AlignedSum(x: int, y: int)
    requires Aligned(x) && Aligned(y)
    ensures Aligned(x + y)
  {
    AlignedMod(x);
    AlignedMod(y);
    AlignedMod(x + y);
  }

  lemma {:induction false} AlignedPos(x: int)
    requires Aligned(x)
    ensures x >= 0
  {
  }

  lemma {:induction false} AlignedRest(x: int, y: int)
    requires Aligned(x) && Aligned(y) && x >= y
    ensures Aligned(x - y)
  {
    AlignedMod(x);
    AlignedMod(y);
    AlignedMod(x - y);
  }

  lemma {:induction false} Quartered(x: int)
    requires Aligned(x)
    ensures (x - HDR - FTR) % 4 == 0
  {
    AlignedMod(x);
  }

  /** The header of a multiple-of-8 block starts a word, and so do the words after it. */
  lemma {:induction false} AlignedWord(x: int, o: int)
    requires Aligned(x) && o % 4 == 0
    ensures (x + o) % 4 == 0
  {
    AlignedPos(x);
    AlignedMod(x);
  }

  lemma {:induction false} Low8(q: int)
    ensures (8 * q) % 8 == 0 && (8 * q + 1) % 8 == 1
  {
  }

  lemma {:induction false} Low2(q: int)
    ensures (2 * q) % 2 == 0 && (2 * q + 1) % 2 == 1
  {
  }

  lemma {:induction false} AlignUpBounds(x: int, t: int)
    requires 0 <= x <= 8 * t
    ensures Aligned(AlignUp(x)) && x <= AlignUp(x) <= 8 * t
  {
    var q := (x + 7) / 8;
    assert 8 * q <= x + 7 < 8 * q + 8;
    Low8(q);
    AlignedMod(8 * q);
  }

  lemma {:induction false} WholePages(pages: int)
    ensures pages * PAGE == 8 * (pages * 8192) && (pages * PAGE) % 4 == 0
  {
    assert pages * PAGE == 4 * (pages * 16384);
    assert (4 * (pages * 16384)) % 4 == 0;
  }

  lemma {:induction false} AlignedTotal(req: int)
    requires 0 <= req <= 0xffff_ffe8
    ensures Aligned(Total(req)) && Total(req) == HDR + Need(req) + FTR && MIN_BLOCK <= Total(req) < LIMIT
  {
    SizeGuardExact(req);
    AlignedMod(Total(req));
  }

  // ----- what the words encode -----

  function Tag(b: Block): int {
    b.size + (if b.used then 1 else 0)
  }

  ghost predicate Adjacent(bs: map<int, Block>, b: int, hi: int)
    requires b in bs
  {
    b + bs[b].size == hi || b + bs[b].size in bs
  }

  ghost predicate Below(bs: map<int, Block>, b: int, c: int)
    requires b in bs
  {
    b + bs[b].size <= c
  }

  ghost predicate Fits(b: int, size: int, lo: int, hi: int) {
    lo <= b && Aligned(b) && size >= MIN_BLOCK && Aligned(size) && b + size <= hi
  }

  /** The blocks tile [lo, hi): they start at lo, each is followed by another or
      by hi, and they do not overlap. */
  ghost predicate Tiled(bs: map<int, Block>, lo: int, hi: int) {
    && lo <= hi
    && (lo < hi <==> lo in bs)
    && (forall b {:trigger b in bs} | b in bs :: Fits(b, bs[b].size, lo, hi))
    && (forall b {:trigger Adjacent(bs, b, hi)} | b in bs :: Adjacent(bs, b, hi))
    && (forall b, c {:trigger Below(bs, b, c)} | b in bs && c in bs && b < c :: Below(bs, b, c))
  }

  ghost predicate NoFreePair(bs: map<int, Block>, b: int)
    requires b in bs
  {
    !bs[b].used && b + bs[b].size in bs ==> bs[b + bs[b].size].used
  }

  /** No free block is followed by a free block. */
  ghost predicate Coalesced(bs: map<int, Block>) {
    forall b {:trigger NoFreePair(bs, b)} | b in bs :: NoFreePair(bs, b)
  }

  /** A tag's low three bits are free for the use bit. */
  lemma {:induction false} TagReads(k: Block)
    requires Aligned(k.size)
    ensures Tag(k) - Tag(k) % 8 == k.size && (Tag(k) % 2 == 1 <==> k.used)
  {
    AlignedMod(k.size);
    var q := k.size / 8;
    assert k.size == 8 * q && 8 * q == 2 * (4 * q);
    Low8(q);
    Low2(4 * q);
  }

  ghost predicate TagsAt(mem: map<int, Word>, b: int, k: Block) {
    && b in mem && b + k.size - FTR in mem
    && mem[b] == Tag(k) && mem[b + k.size - FTR] == Tag(k)
  }

  /** The headers and footers of all blocks but `skip` hold size and use bit. */
  ghost predicate Tagged(mem: map<int, Word>, bs: map<int, Block>, skip: int) {
    forall b {:trigger TagsAt(mem, b, bs[b])} | b in bs && b != skip :: TagsAt(mem, b, bs[b])
  }

  predicate Far(fl: seq<int>, i: int, j: int)
    requires 0 <= i < |fl| && 0 <= j < |fl|
  {
    fl[i] + MIN_BLOCK <= fl[j] || fl[j] + MIN_BLOCK <= fl[i]
  }

  ghost predicate Apart(fl: seq<int>) {
    forall i, j {:trigger Far(fl, i, j)} | 0 <= i < |fl| && 0 <= j < |fl| && i != j :: Far(fl, i, j)
  }

  function NodeAt(fl: seq<int>, i: int): int {
    if 0 <= i < |fl| then fl[i] + HDR else NULL
  }

  ghost predicate NodeLinked(mem: map<int, Word>, fl: seq<int>, i: int)
    requires 0 <= i < |fl|
  {
    && fl[i] > 0
    && fl[i] + 8 in mem && fl[i] + 12 in mem
    && mem[fl[i] + 8] == NodeAt(fl, i + 1)
    && mem[fl[i] + 12] == NodeAt(fl, i - 1)
  }

  /** The free-list words (two per node) thread `fl` in both directions. */
  ghost predicate Linked(mem: map<int, Word>, fl: seq<int>, head: int) {
    && head == NodeAt(fl, 0)
    && forall i {:trigger NodeLinked(mem, fl, i)} | 0 <= i < |fl| :: NodeLinked(mem, fl, i)
  }

  ghost predicate IsLink(a: int, fl: seq<int>) {
    exists i :: 0 <= i < |fl| && (a == fl[i] + 8 || a == fl[i] + 12)
  }

  /** `m'` differs from `m` in link words of `fl` only. */
  ghost predicate SameButLinks(m: map<int, Word>, m': map<int, Word>, fl: seq<int>) {
    && m'.Keys == m.Keys
    && forall a | a in m && !IsLink(a, fl) :: m'[a] == m[a]
  }

  /** The list holds exactly the free blocks, each once. */
  ghost predicate ListsFree(bs: map<int, Block>, fl: seq<int>) {
    && (forall i, j | 0 <= i < j < |fl| :: fl[i] != fl[j])
    && (forall i | 0 <= i < |fl| :: fl[i] in bs && !bs[fl[i]].used)
    && (forall b | b in bs && !bs[b].used :: b in fl)
  }

  function Without(fl: seq<int>, k: int): seq<int>
    requires 0 <= k < |fl|
  {
    fl[..k] + fl[k + 1..]
  }

  /** Redirecting the neighbours of node k unlinks it. */
  lemma {:induction false} Unlink(m: map<int, Word>, m1: map<int, Word>, m2: map<int, Word>, fl: seq<int>, head: int,
        k: int)
    requires Linked(m, fl, head) && Apart(fl) && 0 <= k < |fl|
    requires 0 <= NodeAt(fl, k - 1) < LIMIT && 0 <= NodeAt(fl, k + 1) < LIMIT
    requires m1 == if k > 0 then m[fl[k - 1] + 8 := NodeAt(fl, k + 1)] else m
    requires m2 == if k + 1 < |fl| then m1[fl[k + 1] + 12 := NodeAt(fl, k - 1)] else m1
    ensures Linked(m2, Without(fl, k), if k > 0 then head else NodeAt(fl, k + 1))
    ensures SameButLinks(m, m2, fl)
  {
    var g := Without(fl, k);
    forall i | 0 <= i < |g|
      ensures NodeLinked(m2, g, i)
    {
      var j := if i < k then i else i + 1;
      UnlinkNode(m, m1, m2, fl, head, k, j);
      assert g[i] == fl[j];
      assert i > 0 ==> g[i - 1] == fl[if i - 1 < k then i - 1 else i];
      assert i + 1 < |g| ==> g[i + 1] == fl[if i + 1 < k then i + 1 else i + 2];
    }
    if k > 0 { assert NodeLinked(m, fl, k - 1) && IsLink(fl[k - 1] + 8, fl); }
    if k + 1 < |fl| { assert NodeLinked(m, fl, k + 1) && IsLink(fl[k + 1] + 12, fl); }
  }

  /** What the two writes leave in the link words of another node j. */
  lemma {:induction false} UnlinkNode(m: map<int, Word>, m1: map<int, Word>, m2: map<int, Word>, fl: seq<int>,
        head: int, k: int, j: int)
    requires Linked(m, fl, head) && Apart(fl) && 0 <= k < |fl| && 0 <= j < |fl| && j != k
    requires 0 <= NodeAt(fl, k - 1) < LIMIT && 0 <= NodeAt(fl, k + 1) < LIMIT
    requires m1 == if k > 0 then m[fl[k - 1] + 8 := NodeAt(fl, k + 1)] else m
    requires m2 == if k + 1 < |fl| then m1[fl[k + 1] + 12 := NodeAt(fl, k - 1)] else m1
    ensures fl[j] > 0 && fl[j] + 8 in m2 && fl[j] + 12 in m2
    ensures m2[fl[j] + 8] == NodeAt(fl, if j + 1 == k then k + 1 else j + 1)
    ensures m2[fl[j] + 12] == NodeAt(fl, if j - 1 == k then k - 1 else j - 1)
  {
    assert NodeLinked(m, fl, j);
    if k > 0 && j != k - 1 { assert Far(fl, j, k - 1); }
    if k + 1 < |fl| && j != k + 1 { assert Far(fl, j, k + 1); }
  }

  /** Writing the new node's words and the old head's back link inserts b. */
  lemma {:induction false} LinkFront(m: map<int, Word>, m1: map<int, Word>, m2: map<int, Word>, fl: seq<int>, b: int)
    requires Linked(m, fl, NodeAt(fl, 0)) && Apart([b] + fl)
    requires 0 < b < LIMIT - 16 && b + 8 in m && b + 12 in m && NodeAt(fl, 0) < LIMIT
    requires m1 == m[b + 12 := NULL][b + 8 := NodeAt(fl, 0)]
    requires m2 == if |fl| > 0 then m1[fl[0] + 12 := b + HDR] else m1
    ensures Linked(m2, [b] + fl, b + HDR)
    ensures SameButLinks(m, m2, [b] + fl)
  {
    var g := [b] + fl;
    forall i | 0 <= i < |g|
      ensures NodeLinked(m2, g, i)
    {
      if i == 0 {
        if |fl| > 0 { assert g[1] == fl[0] && Far(g, 0, 1); }
      } else {
        assert g[i] == fl[i - 1] && NodeLinked(m, fl, i - 1) && Far(g, 0, i);
        assert NodeAt(g, i + 1) == NodeAt(fl, i);
        if i > 1 {
          assert g[1] == fl[0] && Far(g, 1, i) && g[i - 1] == fl[i - 2];
          assert NodeAt(g, i - 1) == NodeAt(fl, i - 2);
        }
      }
    }
    if |fl| > 0 { assert g[1] == fl[0] && NodeLinked(m, fl, 0) && IsLink(g[1] + 12, g); }
    assert g[0] == b && IsLink(g[0] + 8, g) && IsLink(g[0] + 12, g);
  }

  ghost predicate WordAt(mem: map<int, Word>, end: int, a: int) {
    a in mem <==> 0 <= a < end && a % 4 == 0
  }

  /** Memory holds the words at the 4-aligned addresses below `end`. */
  ghost predicate Committed(mem: map<int, Word>, end: int) {
    forall a {:trigger WordAt(mem, end, a)} :: WordAt(mem, end, a)
  }

  /** The payload words of the allocations `live` are the same in both memories. */
  ghost predicate Keeps(m: map<int, Word>, m': map<int, Word>, live: map<int, int>) {
    && m.Keys <= m'.Keys
    && forall c, a | c in live && a in m && c + HDR <= a < c + HDR + live[c] :: m'[a] == m[a]
  }

  lemma {:induction false} KeepsTrans(m: map<int, Word>, m1: map<int, Word>, m2: map<int, Word>, live: map<int, int>,
        live1: map<int, int>)
    requires Keeps(m, m1, live) && Keeps(m1, m2, live1)
    requires forall c | c in live :: c in live1 && live1[c] == live[c]
    ensures Keeps(m, m2, live)
  {
  }

  lemma {:induction false} KeepsFewer(m: map<int, Word>, m': map<int, Word>, live: map<int, int>, fewer: map<int, int>)
    requires Keeps(m, m', live) && forall c | c in fewer :: c in live && live[c] == fewer[c]
    ensures Keeps(m, m', fewer)
  {
  }

  /** `live` names blocks of the tiling, with their payload capacities. */
  ghost predicate Within(live: map<int, int>, bs: map<int, Block>) {
    forall c | c in live :: c in bs && live[c] == bs[c].size - HDR - FTR
  }

  // ----- consequences of tiling -----

  /** Every heap address lies in a block. */
  lemma {:induction false} Covered(bs: map<int, Block>, lo: int, hi: int, from: int, x: int) returns (b: int)
    requires Tiled(bs, lo, hi) && from in bs && from <= x < hi
    ensures b in bs && b <= x < b + bs[b].size
    decreases hi - from
  {
    b := from;
    if from + bs[from].size <= x {
      assert Adjacent(bs, from, hi);
      b := Covered(bs, lo, hi, from + bs[from].size, x);
    }
  }

  /** Two blocks that share an address are one. */
  lemma {:induction false} SameBlock(bs: map<int, Block>, lo: int, hi: int, b: int, c: int, x: int)
    requires Tiled(bs, lo, hi) && b in bs && c in bs
    requires b <= x < b + bs[b].size && c <= x < c + bs[c].size
    ensures b == c
  {
    assert b < c ==> Below(bs, b, c);
    assert c < b ==> Below(bs, c, b);
  }

  /** Every heap address lies in exactly one block. */
  lemma {:induction false} TilesExactly(bs: map<int, Block>, lo: int, hi: int, x: int)
    requires Tiled(bs, lo, hi)
    ensures lo <= x < hi <==> exists b :: b in bs && b <= x < b + bs[b].size
    ensures forall b, c | b in bs && c in bs && b <= x < b + bs[b].size && c <= x < c + bs[c].size :: b == c
  {
    if lo <= x < hi {
      var b := Covered(bs, lo, hi, lo, x);
    }
    forall b, c | b in bs && c in bs && b <= x < b + bs[b].size && c <= x < c + bs[c].size
      ensures b == c
    {
      SameBlock(bs, lo, hi, b, c, x);
    }
  }

  /** A block that is not the first has a block right before it. */
  lemma {:induction false} Predecessor(bs: map<int, Block>, lo: int, hi: int, b: int) returns (p: int)
    requires Tiled(bs, lo, hi) && b in bs && b > lo
    ensures p in bs && p + bs[p].size == b
  {
    p := Covered(bs, lo, hi, lo, b - 1);
    assert Below(bs, p, b);
  }

  /** Payloads of distinct blocks are disjoint and 8-aligned. */
  lemma {:induction false} PayloadsDisjoint(bs: map<int, Block>, lo: int, hi: int, b: int, c: int, x: int)
    requires Tiled(bs, lo, hi) && b in bs && c in bs && b != c
    ensures (b + HDR) % 8 == 0
    ensures !(b + HDR <= x < b + bs[b].size - FTR && c + HDR <= x < c + bs[c].size - FTR)
  {
    if b < c { assert Below(bs, b, c); } else { assert Below(bs, c, b); }
    assert Fits(b, bs[b].size, lo, hi);
    AlignedMod(b);
  }

  // ----- what each change does to the tiling -----

  lemma {:induction false} FreeApart(bs: map<int, Block>, lo: int, hi: int, fl: seq<int>)
    requires Tiled(bs, lo, hi)
    requires forall i | 0 <= i < |fl| :: fl[i] in bs
    requires forall i, j | 0 <= i < j < |fl| :: fl[i] != fl[j]
    ensures Apart(fl)
  {
    forall i, j | 0 <= i < |fl| && 0 <= j < |fl| && i != j
      ensures Far(fl, i, j)
    {
      if fl[i] < fl[j] { assert Below(bs, fl[i], fl[j]); } else { assert fl[j] < fl[i] && Below(bs, fl[j], fl[i]); }
    }
  }

  lemma {:induction false} Retag(bs: map<int, Block>, lo: int, hi: int, b: int, used: bool)
    requires Tiled(bs, lo, hi) && b in bs
    ensures Tiled(bs[b := Block(bs[b].size, used)], lo, hi)
    ensures used && Coalesced(bs) ==> Coalesced(bs[b := Block(bs[b].size, used)])
  {
    var bs' := bs[b := Block(bs[b].size, used)];
    forall c | c in bs' ensures Fits(c, bs'[c].size, lo, hi) { assert Fits(c, bs[c].size, lo, hi); }
    forall c | c in bs' ensures Adjacent(bs', c, hi) { assert Adjacent(bs, c, hi); }
    forall c, d | c in bs' && d in bs' && c < d ensures Below(bs', c, d) { assert Below(bs, c, d); }
    if used && Coalesced(bs) {
      forall c | c in bs' ensures NoFreePair(bs', c) { assert NoFreePair(bs, c); }
    }
  }

  ghost function Halves(bs: map<int, Block>, b: int, t: int): map<int, Block>
    requires b in bs
  {
    bs[b := Block(t, true)][b + t := Block(bs[b].size - t, false)]
  }

  lemma {:induction false} SplitBelow(bs: map<int, Block>, lo: int, hi: int, b: int, t: int, c: int, d: int)
    requires Tiled(bs, lo, hi) && b in bs && MIN_BLOCK <= t && t + MIN_BLOCK <= bs[b].size && b + t !in bs
    requires c in Halves(bs, b, t) && d in Halves(bs, b, t) && c < d
    ensures Below(Halves(bs, b, t), c, d)
  {
    if c in bs && d in bs {
      assert Below(bs, c, d);
    } else if c == b + t {
      assert Below(bs, b, d);
    } else if c < b {
      assert Below(bs, c, b);
    } else {
      assert b < c ==> Below(bs, b, c);
    }
  }

  lemma {:induction false} Split(bs: map<int, Block>, lo: int, hi: int, b: int, t: int)
    requires Tiled(bs, lo, hi) && b in bs && Aligned(t) && MIN_BLOCK <= t && t + MIN_BLOCK <= bs[b].size
    ensures Tiled(Halves(bs, b, t), lo, hi) && b + t !in bs
  {
    var bs' := Halves(bs, b, t);
    assert b + t !in bs by {
      assert b + t in bs ==> Below(bs, b, b + t);
    }
    AlignedSum(b, t);
    AlignedRest(bs[b].size, t);
    forall c | c in bs' ensures Fits(c, bs'[c].size, lo, hi) {
      assert Fits(b, bs[b].size, lo, hi);
      assert c in bs ==> Fits(c, bs[c].size, lo, hi);
    }
    forall c | c in bs' ensures Adjacent(bs', c, hi) {
      assert Adjacent(bs, b, hi);
      if c in bs { assert Adjacent(bs, c, hi); }
    }
    forall c, d | c in bs' && d in bs' && c < d ensures Below(bs', c, d) {
      SplitBelow(bs, lo, hi, b, t, c, d);
    }
  }

  lemma {:induction false} SplitCoalesced(bs: map<int, Block>, lo: int, hi: int, b: int, t: int)
    requires Tiled(bs, lo, hi) && b in bs && MIN_BLOCK <= t && t + MIN_BLOCK <= bs[b].size && b + t !in bs
    requires Coalesced(bs) && !bs[b].used
    ensures Coalesced(Halves(bs, b, t))
  {
    var bs' := Halves(bs, b, t);
    forall c | c in bs' ensures NoFreePair(bs', c) {
      assert NoFreePair(bs, b);
      if c in bs {
        assert NoFreePair(bs, c);
        assert c + bs[c].size != b + t by {
          assert c < b ==> Below(bs, c, b);
          assert b < c ==> Below(bs, b, c);
        }
      }
    }
  }

  ghost function Merged(bs: map<int, Block>, b: int, used: bool): map<int, Block>
    requires b in bs && b + bs[b].size in bs
  {
    (bs - {b + bs[b].size})[b := Block(bs[b].size + bs[b + bs[b].size].size, used)]
  }

  lemma {:induction false} MergeBelow(bs: map<int, Block>, lo: int, hi: int, b: int, used: bool, d: int, e: int)
    requires Tiled(bs, lo, hi) && b in bs && b + bs[b].size in bs
    requires d in Merged(bs, b, used) && e in Merged(bs, b, used) && d < e
    ensures Below(Merged(bs, b, used), d, e)
  {
    var c := b + bs[b].size;
    assert Below(bs, d, e);
    if d == b {
      assert e != c;
      assert c < e ==> Below(bs, c, e);
    }
  }

  lemma {:induction false} Merge(bs: map<int, Block>, lo: int, hi: int, b: int, used: bool)
    requires Tiled(bs, lo, hi) && b in bs && b + bs[b].size in bs
    ensures Tiled(Merged(bs, b, used), lo, hi)
  {
    var c := b + bs[b].size;
    var bs' := Merged(bs, b, used);
    AlignedSum(bs[b].size, bs[c].size);
    forall d | d in bs' ensures Fits(d, bs'[d].size, lo, hi) {
      assert Fits(b, bs[b].size, lo, hi) && Fits(c, bs[c].size, lo, hi) && Fits(d, bs[d].size, lo, hi);
    }
    forall d | d in bs' ensures Adjacent(bs', d, hi) {
      assert Adjacent(bs, c, hi) && Adjacent(bs, d, hi);
      if d != b && d + bs[d].size == c { SameBlock(bs, lo, hi, b, d, c - 1); }
    }
    forall d, e | d in bs' && e in bs' && d < e ensures Below(bs', d, e) {
      MergeBelow(bs, lo, hi, b, used, d, e);
    }
  }

  lemma {:induction false} Extend(bs: map<int, Block>, lo: int, hi: int, n: int)
    requires Tiled(bs, lo, hi) && Aligned(hi) && Aligned(n) && MIN_BLOCK <= n
    ensures Tiled(bs[hi := Block(n, true)], lo, hi + n) && hi !in bs
    ensures Coalesced(bs) ==> Coalesced(bs[hi := Block(n, true)])
  {
    var bs' := bs[hi := Block(n, true)];
    assert hi !in bs by {
      assert hi in bs ==> Fits(hi, bs[hi].size, lo, hi);
    }
    forall c | c in bs' ensures Fits(c, bs'[c].size, lo, hi + n) {
      if c in bs { assert Fits(c, bs[c].size, lo, hi); }
    }
    forall c | c in bs' ensures Adjacent(bs', c, hi + n) {
      if c in bs { assert Adjacent(bs, c, hi); }
    }
    forall c, d | c in bs' && d in bs' && c < d ensures Below(bs', c, d) {
      if d in bs { assert Below(bs, c, d); }
    }
    if Coalesced(bs) { ExtendCoalesced(bs, hi, n); }
  }

  lemma {:induction false} ExtendCoalesced(bs: map<int, Block>, hi: int, n: int)
    requires Coalesced(bs) && hi !in bs
    ensures Coalesced(bs[hi := Block(n, true)])
  {
    var bs' := bs[hi := Block(n, true)];
    forall c | c in bs' ensures NoFreePair(bs', c) {
      if c in bs { assert NoFreePair(bs, c); }
    }
  }

  /** The break of a tiling is 8-aligned. */
  lemma {:induction false} BreakAligned(bs: map<int, Block>, lo: int, hi: int)
    requires Tiled(bs, lo, hi) && Aligned(lo)
    ensures Aligned(hi)
  {
    if lo < hi {
      var b := Covered(bs, lo, hi, lo, hi - 1);
      assert Fits(b, bs[b].size, lo, hi);
      AlignedSum(b, bs[b].size);
    }
  }

  lemma {:induction false} SameKeys(m: map<int, Word>, m': map<int, Word>, end: int)
    requires m.Keys == m'.Keys && Committed(m, end)
    ensures Committed(m', end)
  {
    forall a ensures WordAt(m', end, a) { assert WordAt(m, end, a) && (a in m <==> a in m.Keys); }
  }

  /** The words the heap code touches in a block exist. */
  lemma {:induction false} BlockWords(m: map<int, Word>, end: int, bs: map<int, Block>, lo: int, hi: int, b: int)
    requires Tiled(bs, lo, hi) && 0 < lo && hi <= end && Committed(m, end) && b in bs
    ensures b in m && b + 8 in m && b + 12 in m && b + bs[b].size - FTR in m
  {
    assert Fits(b, bs[b].size, lo, hi);
    AlignedWord(b, 0);
    AlignedWord(b, 8);
    AlignedWord(b, 12);
    AlignedSum(b, bs[b].size);
    AlignedWord(b + bs[b].size, -FTR);
    assert WordAt(m, end, b) && WordAt(m, end, b + 8) && WordAt(m, end, b + 12) && WordAt(m, end, b + bs[b].size - FTR);
  }

  /** Writes to free-list links reach neither tags nor live payloads. */
  lemma {:induction false} LinksFrame(bs: map<int, Block>, lo: int, hi: int, m: map<int, Word>, m': map<int, Word>,
        fl: seq<int>,
                   live: map<int, int>, skip: int)
    requires Tiled(bs, lo, hi) && SameButLinks(m, m', fl) && Within(live, bs)
    requires forall i | 0 <= i < |fl| :: fl[i] in bs && fl[i] !in live
    ensures Keeps(m, m', live)
    ensures Tagged(m, bs, skip) ==> Tagged(m', bs, skip)
  {
    forall c, a | c in bs && a in m && (a == c || a == c + bs[c].size - FTR || (c in live && c <= a < c + bs[c].size))
      ensures m'[a] == m[a]
    {
      if IsLink(a, fl) {
        var i :| 0 <= i < |fl| && (a == fl[i] + 8 || a == fl[i] + 12);
        SameBlock(bs, lo, hi, c, fl[i], a);
      }
    }
    if Tagged(m, bs, skip) {
      forall c | c in bs && c != skip ensures TagsAt(m', c, bs[c]) { assert TagsAt(m, c, bs[c]); }
    }
  }

  /** Writes inside block b reach no other block and no free-list link. */
  lemma {:induction false} WriteFrame(bs: map<int, Block>, lo: int, hi: int, m: map<int, Word>, m': map<int, Word>,
        b: int,
                   live: map<int, int>, fl: seq<int>, head: int)
    requires Tiled(bs, lo, hi) && 0 < lo && Within(live, bs) && b in bs && b !in live
    requires m'.Keys == m.Keys && forall a | a in m && !(b <= a < b + bs[b].size) :: m'[a] == m[a]
    requires Linked(m, fl, head) && forall i | 0 <= i < |fl| :: fl[i] in bs && fl[i] != b
    ensures Keeps(m, m', live) && Linked(m', fl, head)
    ensures Tagged(m, bs, NULL) || Tagged(m, bs, b) ==> Tagged(m', bs, b)
  {
    forall c, a | c in bs && c != b && a in m && c <= a < c + bs[c].size
      ensures m'[a] == m[a]
    {
      if b <= a < b + bs[b].size {
        SameBlock(bs, lo, hi, b, c, a);
      }
    }
    if Tagged(m, bs, NULL) || Tagged(m, bs, b) {
      forall c | c in bs && c != b ensures TagsAt(m', c, bs[c]) { assert TagsAt(m, c, bs[c]); }
    }
    forall i | 0 <= i < |fl| ensures NodeLinked(m', fl, i) { assert NodeLinked(m, fl, i); }
  }

  ghost function Taken(bs: map<int, Block>, b: int): map<int, Block>
    requires b in bs
  {
    bs[b := Block(bs[b].size, true)]
  }

  /** Putting the one missing free block on the list makes the list exact. */
  lemma {:induction false} ListsInsert(bs: map<int, Block>, fl: seq<int>, b: int)
    requires b in bs && !bs[b].used && ListsFree(Taken(bs, b), fl)
    ensures ListsFree(bs, [b] + fl)
  {
    var g := [b] + fl;
    ListsOthers(bs, fl, b);
    forall c | c in bs && !bs[c].used
      ensures c in g
    {
      if c == b { assert g[0] == b; } else { assert c in Taken(bs, b) && c in fl; }
    }
  }

  /** Taking block k of the list off it leaves the list exact but for k. */
  lemma {:induction false} ListsRemove(bs: map<int, Block>, fl: seq<int>, k: int)
    requires ListsFree(bs, fl) && 0 <= k < |fl|
    ensures fl[k] in bs && ListsFree(Taken(bs, fl[k]), Without(fl, k))
  {
    var b, g := fl[k], Without(fl, k);
    assert b in bs;
    forall c | c in bs && !bs[c].used && c != b
      ensures c in g
    {
      var i :| 0 <= i < |fl| && fl[i] == c;
      assert g[if i < k then i else i - 1] == c;
    }
  }

  lemma {:induction false} ListsOthers(bs: map<int, Block>, fl: seq<int>, b: int)
    requires b in bs && ListsFree(Taken(bs, b), fl)
    ensures forall i | 0 <= i < |fl| :: fl[i] in bs && fl[i] != b && !bs[fl[i]].used
  {
    forall i | 0 <= i < |fl|
      ensures fl[i] in bs && fl[i] != b && !bs[fl[i]].used
    {
      assert fl[i] in Taken(bs, b) && !Taken(bs, b)[fl[i]].used;
    }
  }

  lemma {:induction false} ListsSplit(bs: map<int, Block>, fl: seq<int>, b: int, t: int)
    requires b in bs && !bs[b].used && b + t !in bs && t > 0 && ListsFree(Taken(bs, b), fl)
    ensures ListsFree(Taken(Halves(bs, b, t), b + t), fl)
  {
    var bs' := Taken(Halves(bs, b, t), b + t);
    forall i | 0 <= i < |fl|
      ensures fl[i] in bs' && !bs'[fl[i]].used
    {
      assert fl[i] in Taken(bs, b) && !Taken(bs, b)[fl[i]].used;
    }
    forall c | c in bs' && !bs'[c].used
      ensures c in fl
    {
      assert c in Taken(bs, b) && !Taken(bs, b)[c].used;
    }
  }

  lemma {:induction false} TagHalves(m: map<int, Word>, bs: map<int, Block>, b: int, t: int)
    requires b in bs && Tagged(m, bs, b) && b + t !in bs
    requires TagsAt(m, b, Block(t, true)) && TagsAt(m, b + t, Block(bs[b].size - t, false))
    ensures Tagged(m, Halves(bs, b, t), NULL)
  {
    var bs' := Halves(bs, b, t);
    forall c | c in bs' ensures TagsAt(m, c, bs'[c]) {
      assert c in bs && c != b ==> TagsAt(m, c, bs[c]);
    }
  }

  /** The live allocations: block address to payload capacity. */
  ghost function LiveOf(bs: map<int, Block>): map<int, int> {
    map b | b in bs && bs[b].used :: bs[b].size - HDR - FTR
  }

  lemma {:induction false} TagWritten(m: map<int, Word>, m': map<int, Word>, b: int, k: Block)
    requires 0 <= Tag(k) < LIMIT && m' == m[b := Tag(k)][b + k.size - FTR := Tag(k)]
    ensures TagsAt(m', b, k)
  {
  }

  /** Memory that only grew holds the same tags, links and payloads. */
  lemma {:induction false} GrownFrame(m: map<int, Word>, m': map<int, Word>, bs: map<int, Block>, fl: seq<int>,
        head: int,
      live: map<int, int>)
    requires m.Keys <= m'.Keys && forall a | a in m :: m'[a] == m[a]
    requires Tagged(m, bs, NULL) && Linked(m, fl, head)
    ensures Tagged(m', bs, NULL) && Linked(m', fl, head) && Keeps(m, m', live)
  {
    forall c | c in bs && c != NULL ensures TagsAt(m', c, bs[c]) { assert TagsAt(m, c, bs[c]); }
    forall i | 0 <= i < |fl| ensures NodeLinked(m', fl, i) { assert NodeLinked(m, fl, i); }
  }

  lemma {:induction false} TagsExtended(m: map<int, Word>, bs: map<int, Block>, b: int, k: Block)
    requires Tagged(m, bs, NULL) && NULL !in bs
    ensures Tagged(m, bs[b := k], b)
  {
    var bs' := bs[b := k];
    forall c | c in bs' && c != b ensures TagsAt(m, c, bs'[c]) { assert TagsAt(m, c, bs[c]); }
  }

  lemma {:induction false} TagsOthers(m: map<int, Word>, bs: map<int, Block>, b: int, k: Block)
    requires Tagged(m, bs, b)
    ensures Tagged(m, bs[b := k], b)
  {
    var bs' := bs[b := k];
    forall c | c in bs' && c != b ensures TagsAt(m, c, bs'[c]) { assert TagsAt(m, c, bs[c]); }
  }

  lemma {:induction false} TagsMerged(m: map<int, Word>, bs: map<int, Block>, b: int, skip: int)
    requires b in bs && b + bs[b].size in bs && bs[b].size > 0 && Tagged(m, bs, skip)
    requires skip == b + bs[b].size || skip !in bs
    ensures Tagged(m, Merged(bs, b, true), b)
  {
    var bs' := Merged(bs, b, true);
    forall c | c in bs' && c != b ensures TagsAt(m, c, bs'[c]) { assert TagsAt(m, c, bs[c]); }
  }

  lemma {:induction false} TagsComplete(m: map<int, Word>, bs: map<int, Block>, b: int)
    requires b in bs && Tagged(m, bs, b) && TagsAt(m, b, bs[b])
    ensures Tagged(m, bs, NULL)
  {
    forall c | c in bs ensures TagsAt(m, c, bs[c]) {
      assert c != b ==> TagsAt(m, c, bs[c]);
    }
  }

  lemma {:induction false} Retagged(m: map<int, Word>, bs: map<int, Block>, b: int)
    requires b in bs && Tagged(m, bs, b) && TagsAt(m, b, Block(bs[b].size, true))
    ensures Tagged(m, Taken(bs, b), NULL)
  {
    forall c | c in Taken(bs, b) ensures TagsAt(m, c, Taken(bs, b)[c]) {
      assert c != b ==> TagsAt(m, c, bs[c]);
    }
  }

  lemma {:induction false} LiveUsed(bs: map<int, Block>, b: int, size: int)
    requires b in bs ==> !bs[b].used
    ensures LiveOf(bs[b := Block(size, true)]) == LiveOf(bs)[b := size - HDR - FTR]
  {
  }

  lemma {:induction false} LiveHalves(bs: map<int, Block>, b: int, t: int)
    requires b in bs && !bs[b].used && b + t !in bs && t != 0
    ensures LiveOf(Halves(bs, b, t)) == LiveOf(bs)[b := t - HDR - FTR]
  {
  }

  /** All that splitting the free block b, off the list, changes. */
  lemma {:induction false} SplitFree(bs: map<int, Block>, lo: int, hi: int, b: int, t: int, fl: seq<int>)
    requires Tiled(bs, lo, hi) && Coalesced(bs) && 0 < lo && b in bs && !bs[b].used && ListsFree(Taken(bs, b), fl)
    requires Aligned(t) && MIN_BLOCK <= t && t + MIN_BLOCK <= bs[b].size
    ensures b + t !in bs && Aligned(bs[b].size - t)
    ensures Tiled(Halves(bs, b, t), lo, hi) && Coalesced(Halves(bs, b, t))
    ensures ListsFree(Taken(Halves(bs, b, t), b + t), fl)
    ensures LiveOf(Halves(bs, b, t)) == LiveOf(bs)[b := t - HDR - FTR]
    ensures forall i | 0 <= i < |fl| :: fl[i] in bs && fl[i] != b
  {
    assert Fits(b, bs[b].size, lo, hi);
    Split(bs, lo, hi, b, t);
    SplitCoalesced(bs, lo, hi, b, t);
    ListsSplit(bs, fl, b, t);
    AlignedRest(bs[b].size, t);
    LiveHalves(bs, b, t);
    ListsOthers(bs, fl, b);
  }

  /** Absorbing the free block after b keeps the heap coalesced, with a used
      block (or the break) after b. */
  lemma {:induction false} MergeNext(bs: map<int, Block>, lo: int, hi: int, b: int, fl: seq<int>)
    requires Tiled(bs, lo, hi) && Coalesced(bs) && b in bs && bs[b].used
    requires b + bs[b].size in bs && !bs[b + bs[b].size].used && ListsFree(Taken(bs, b + bs[b].size), fl)
    ensures Tiled(Merged(bs, b, true), lo, hi) && Coalesced(Merged(bs, b, true)) && ListsFree(Merged(bs, b, true), fl)
    ensures NextUsed(Merged(bs, b, true), b)
    ensures LiveOf(Merged(bs, b, true)) - {b} == LiveOf(bs) - {b}
  {
    var c, bs' := b + bs[b].size, Merged(bs, b, true);
    Merge(bs, lo, hi, b, true);
    assert NoFreePair(bs, c);
    forall d | d in bs' ensures NoFreePair(bs', d) { assert NoFreePair(bs, d); }
    ListsMerged(bs, b, fl);
  }

  /** The list of free blocks after one of two neighbours, off the list, has
      merged with the other, used, one. */
  lemma {:induction false} ListsMerged(bs: map<int, Block>, b: int, fl: seq<int>)
    requires b in bs && b + bs[b].size in bs && bs[b].size > 0
    requires if bs[b].used then ListsFree(Taken(bs, b + bs[b].size), fl)
             else bs[b + bs[b].size].used && ListsFree(Taken(bs, b), fl)
    ensures ListsFree(Merged(bs, b, true), fl)
  {
    var c, bs' := b + bs[b].size, Merged(bs, b, true);
    var t := if bs[b].used then Taken(bs, c) else Taken(bs, b);
    forall i | 0 <= i < |fl| ensures fl[i] in bs' && !bs'[fl[i]].used {
      assert fl[i] in t && !t[fl[i]].used;
    }
    forall d | d in bs' && !bs'[d].used ensures d in fl {
      assert d in t && !t[d].used;
    }
  }

  ghost predicate NextUsed(bs: map<int, Block>, b: int)
    requires b in bs
  {
    b + bs[b].size in bs ==> bs[b + bs[b].size].used
  }

  ghost predicate PrevUsed(bs: map<int, Block>, b: int) {
    forall p | p in bs && p + bs[p].size == b :: bs[p].used
  }

  /** Absorbing b into the free block p before it. */
  lemma {:induction false} MergePrev(bs: map<int, Block>, lo: int, hi: int, p: int, fl: seq<int>)
    requires Tiled(bs, lo, hi) && Coalesced(bs) && p in bs && !bs[p].used
    requires p + bs[p].size in bs && bs[p + bs[p].size].used && NextUsed(bs, p + bs[p].size)
      && ListsFree(Taken(bs, p), fl)
    ensures Tiled(Merged(bs, p, true), lo, hi) && Coalesced(Merged(bs, p, true)) && ListsFree(Merged(bs, p, true), fl)
    ensures NextUsed(Merged(bs, p, true), p) && PrevUsed(Merged(bs, p, true), p)
    ensures LiveOf(Merged(bs, p, true)) - {p} == LiveOf(bs) - {p + bs[p].size}
  {
    var b, bs' := p + bs[p].size, Merged(bs, p, true);
    Merge(bs, lo, hi, p, true);
    forall d | d in bs' ensures NoFreePair(bs', d) { assert NoFreePair(bs, d); }
    forall d | d in bs' && d + bs'[d].size == p ensures bs'[d].used { assert NoFreePair(bs, d); }
    ListsMerged(bs, p, fl);
  }

  lemma {:induction false} PrevUnique(bs: map<int, Block>, lo: int, hi: int, p: int, b: int)
    requires Tiled(bs, lo, hi) && p in bs && p + bs[p].size == b
    ensures PrevUsed(bs, b) <==> bs[p].used
  {
    forall q | q in bs && q + bs[q].size == b ensures q == p {
      assert Fits(q, bs[q].size, lo, hi) && Fits(p, bs[p].size, lo, hi);
      SameBlock(bs, lo, hi, p, q, b - 1);
    }
  }

  lemma {:induction false} FirstHasNoPrev(bs: map<int, Block>, lo: int, hi: int)
    requires Tiled(bs, lo, hi)
    ensures PrevUsed(bs, lo)
  {
    forall q | q in bs ensures q + bs[q].size != lo {
      assert Fits(q, bs[q].size, lo, hi);
    }
  }

  /** Once both neighbours are used, b can become free. */
  lemma {:induction false} Release(bs: map<int, Block>, lo: int, hi: int, b: int, fl: seq<int>)
    requires Tiled(bs, lo, hi) && Coalesced(bs) && b in bs && bs[b].used && ListsFree(bs, fl)
    requires NextUsed(bs, b) && PrevUsed(bs, b)
    ensures var bs' := bs[b := Block(bs[b].size, false)];
            && Tiled(bs', lo, hi) && Coalesced(bs') && Taken(bs', b) == bs && LiveOf(bs') == LiveOf(bs) - {b}
  {
    var bs' := bs[b := Block(bs[b].size, false)];
    Retag(bs, lo, hi, b, false);
    forall d | d in bs' ensures NoFreePair(bs', d) { assert NoFreePair(bs, d); }
    assert Taken(bs', b) == bs;
  }

  /** The payload word of block b at byte offset o (0 outside memory). */
  function PayloadWord(m: map<int, Word>, b: int, o: int): Word {
    if b + HDR + o in m then m[b + HDR + o] else 0
  }

  lemma {:induction false} PayloadWords(m: map<int, Word>, m0: map<int, Word>, end: int, bs: map<int, Block>,
        lo: int, hi: int, b: int,
      c: int, o: int)
    requires Tiled(bs, lo, hi) && 0 < lo && hi <= end && Committed(m, end) && b in bs && c in bs && b != c
    requires bs[b].used && bs[c].used && Keeps(m0, m, LiveOf(bs) - {b}) && m0.Keys == m.Keys
    requires o % 4 == 0 && 0 <= o < bs[b].size - HDR - FTR && o < bs[c].size - HDR - FTR
    ensures b + HDR + o in m && c + HDR + o in m && m[c + HDR + o] == PayloadWord(m0, c, o)
  {
    assert Fits(b, bs[b].size, lo, hi) && Fits(c, bs[c].size, lo, hi);
    AlignedWord(b, HDR + o);
    AlignedWord(c, HDR + o);
    assert WordAt(m, end, b + HDR + o) && WordAt(m, end, c + HDR + o);
    assert c in LiveOf(bs) - {b} && c + HDR + o in m0.Keys;
  }

  /** The first n payload bytes of b in m' are those of c in m. */
  ghost predicate Copied(m: map<int, Word>, m': map<int, Word>, b: int, c: int, n: int) {
    forall o {:trigger PayloadWord(m', b, o)} | 0 <= o < n && o % 4 == 0 ::
      c + HDR + o in m && b + HDR + o in m' && PayloadWord(m', b, o) == PayloadWord(m, c, o)
  }

  lemma {:induction false} CopiedStep(m: map<int, Word>, m1: map<int, Word>, m2: map<int, Word>, b: int, c: int, n: int)
    requires n >= 4 && n % 4 == 0 && Copied(m, m1, b, c, n - 4)
    requires c + HDR + n - 4 in m && b + HDR + n - 4 in m1
    requires m2 == m1[b + HDR + n - 4 := PayloadWord(m, c, n - 4)]
    ensures Copied(m, m2, b, c, n)
  {
    forall o | 0 <= o < n && o % 4 == 0
      ensures c + HDR + o in m && b + HDR + o in m2 && PayloadWord(m2, b, o) == PayloadWord(m, c, o)
    {
      assert o < n - 4 ==> PayloadWord(m1, b, o) == PayloadWord(m, c, o);
    }
  }

  ghost predicate PayloadIn(m: map<int, Word>, c: int, n: int) {
    forall o | 0 <= o < n && o % 4 == 0 :: c + HDR + o in m
  }

  lemma {:induction false} PayloadInMemory(m: map<int, Word>, end: int, bs: map<int, Block>, lo: int, hi: int, c: int)
    requires Tiled(bs, lo, hi) && 0 < lo && hi <= end && Committed(m, end) && c in bs
    ensures PayloadIn(m, c, bs[c].size - HDR - FTR)
  {
    assert Fits(c, bs[c].size, lo, hi);
    forall o | 0 <= o < bs[c].size - HDR - FTR && o % 4 == 0 ensures c + HDR + o in m {
      AlignedWord(c, HDR + o);
      assert WordAt(m, end, c + HDR + o);
    }
  }

  /** A word copied from c to b survives freeing c. */
  lemma {:induction false} CopyKept(m: map<int, Word>, m1: map<int, Word>, m2: map<int, Word>, m3: map<int, Word>,
                 live: map<int, int>, live3: map<int, int>, b: int, c: int, n: int)
    requires Keeps(m, m1, live) && c in live && n == live[c] && b in live3 && n <= live3[b]
    requires Copied(m1, m2, b, c, n) && Keeps(m2, m3, live3)
    requires PayloadIn(m, c, n)
    ensures Copied(m, m3, b, c, n)
  {
    forall o | 0 <= o < n && o % 4 == 0
      ensures c + HDR + o in m && b + HDR + o in m3 && PayloadWord(m3, b, o) == PayloadWord(m, c, o)
    {
      assert PayloadWord(m2, b, o) == PayloadWord(m1, c, o);
    }
  }

  /** A copy made after other allocations is a copy of what was there before. */
  lemma {:induction false} CopiedSince(m: map<int, Word>, m1: map<int, Word>, m2: map<int, Word>, live: map<int,
        int>, b: int, c: int,
      n: int)
    requires Keeps(m, m1, live) && c in live && n == live[c] && Copied(m1, m2, b, c, n)
    requires PayloadIn(m, c, n)
    ensures Copied(m, m2, b, c, n)
  {
    forall o | 0 <= o < n && o % 4 == 0
      ensures c + HDR + o in m && b + HDR + o in m2 && PayloadWord(m2, b, o) == PayloadWord(m, c, o)
    {
      assert PayloadWord(m2, b, o) == PayloadWord(m1, c, o);
    }
  }

  /** The old payload moves and the others stay. */
  lemma {:induction false} Moved(m: map<int, Word>, m1: map<int, Word>, m2: map<int, Word>, live: map<int, int>,
        live2: map<int, int>,
      b: int, c: int, n: int)
    requires Keeps(m, m1, live) && Keeps(m1, m2, live2 - {b}) && Copied(m1, m2, b, c, n)
    requires b !in live && c in live && n == live[c]
    requires forall x | x in live && x != c :: x in live2 && live2[x] == live[x]
    requires PayloadIn(m, c, n)
    ensures Keeps(m, m2, live - {c}) && Copied(m, m2, b, c, n)
  {
    KeepsTrans(m, m1, m2, live - {c}, live2 - {b});
    CopiedSince(m, m1, m2, live, b, c, n);
  }

  // ----- the heap -----

  function Zeros(end: int): (m: map<int, Word>)
    ensures Committed(m, end)
  {
    map a: int | 0 <= a < end && a % 4 == 0 :: 0
  }

  lemma {:induction false} MorePages(end: int, pages: int)
    requires end % PAGE == 0
    ensures (end + pages * PAGE) % PAGE == 0
  {
    var q := end / PAGE;
    assert end + pages * PAGE == (q + pages) * PAGE;
    assert ((q + pages) * PAGE) % PAGE == 0;
  }

  lemma {:induction false} SumIs(brk: int, n: int)
    requires 0 <= brk < LIMIT && 0 <= n < LIMIT
    ensures Sum(brk, n) == if brk + n < LIMIT then brk + n else brk + n - LIMIT
  {
  }

  lemma {:induction false} Pages(need: int, pages: int)
    requires need > 0 && pages == (need + PAGE - 1) / PAGE
    ensures pages > 0 && (pages - 1) * PAGE < need <= pages * PAGE
  {
  }

  /** Below 4 GiB: memory is asked for when the break does not wrap and passes the end, and
      then the fewest pages that reach it, which are within 4 GiB. */
  lemma {:induction false} AsksLeast(brk: int, n: int, end: int, pages: int)
    requires 0 < brk < LIMIT && 0 <= n < LIMIT && brk <= end < LIMIT && end % PAGE == 0
    requires pages == (Sum(brk, n) - end + PAGE - 1) % LIMIT / PAGE
    ensures Sum(brk, n) > end <==> end < brk + n < LIMIT
    ensures Sum(brk, n) > end ==>
      pages > 0 && end + pages * PAGE - PAGE < brk + n <= end + pages * PAGE <= LIMIT
  {
    SumIs(brk, n);
    if Sum(brk, n) > end {
      Pages(brk + n - end, pages);
      var top := end / PAGE + pages;
      assert end + pages * PAGE == top * PAGE && LIMIT == 65536 * PAGE;
      assert top * PAGE - PAGE < LIMIT;
    }
  }

  /** With all 4 GiB committed only growing by no page can succeed. */
  lemma {:induction false} AsksFull(brk: int, n: int, pages: int)
    requires 0 < brk < LIMIT && 0 <= n < LIMIT && pages == (Sum(brk, n) + PAGE - 1) % LIMIT / PAGE
    ensures 0 <= pages && (Sum(brk, n) > 0 <==> brk + n != LIMIT)
    ensures Sum(brk, n) > 0 ==> (pages == 0 <==> Sum(brk, n) > LIMIT - PAGE)
  {
    SumIs(brk, n);
  }

  class Heap {
    var mem: map<int, Word>
    const heapStart: int
    var brk: int
    var end: int
    var head: Word
    ghost var blocks: map<int, Block>
    ghost var list: seq<int>

    ghost predicate Valid()
      reads this
    {
      Inv(NULL)
    }

    /** The invariant, except that block `skip` (if any) has stale tags. */
    ghost predicate Inv(skip: int)
      reads this
    {
      && Shape(skip)
      && ListsFree(blocks, list)
    }

    /** The invariant while free block b is off the free list. */
    ghost predicate OffList(b: int, skip: int)
      reads this
    {
      && Shape(skip)
      && b in blocks && !blocks[b].used && ListsFree(Taken(blocks, b), list)
    }

    ghost predicate Shape(skip: int)
      reads this
    {
      && 0 < heapStart && Aligned(heapStart)
      && brk <= end <= LIMIT && brk < LIMIT && end % PAGE == 0
      && Committed(mem, end)
      && Tiled(blocks, heapStart, brk)
      && Coalesced(blocks)
      && Tagged(mem, blocks, skip)
      && Linked(mem, list, head)
    }

    ghost function Live(): map<int, int>
      reads this
    {
      LiveOf(blocks)
    }

    /** ensure_init: an empty heap above `heapBase` in `pages` pages of memory. */
    constructor (heapBase: int, pages: int)
      requires 0 < heapBase <= pages * PAGE <= LIMIT && heapBase <= LIMIT - 8
      ensures Valid() && blocks == map[] && list == [] && brk == heapStart
    {
      AlignUpBounds(heapBase, pages * 8192);
      WholePages(pages);
      heapStart := AlignUp(heapBase);
      brk := AlignUp(heapBase);
      end := pages * PAGE;
      head := NULL;
      mem := Zeros(pages * PAGE);
      blocks := map[];
      list := [];
    }

    function BlkSize(b: int): int
      requires b in mem
      reads this
    {
      mem[b] - mem[b] % 8
    }

    predicate BlkUsed(b: int)
      requires b in mem
      reads this
    {
      mem[b] % 2 == 1
    }

    method BlkSet(b: int, size: int, used: bool)
      requires b in mem && b + size - FTR in mem && Aligned(size) && MIN_BLOCK <= size < LIMIT - 1
      modifies `mem
      ensures mem == old(mem)[b := Tag(Block(size, used))][b + size - FTR := Tag(Block(size, used))]
    {
      var v: Word := size + (if used then 1 else 0);
      mem := mem[b := v];
      mem := mem[b + size - FTR := v];
    }

    method FlInsert(b: int)
      requires Linked(mem, list, head) && Apart([b] + list) && 0 < b < LIMIT - 16
      requires b + 8 in mem && b + 12 in mem
      modifies `mem, `head, `list
      ensures list == [b] + old(list) && Linked(mem, list, head)
      ensures SameButLinks(old(mem), mem, list)
    {
      ghost var m := mem;
      mem := mem[b + 12 := NULL];
      mem := mem[b + 8 := head];
      ghost var m1 := mem;
      if head != NULL {
        mem := mem[head + 4 := b + HDR];
      }
      if |list| > 0 { assert NodeLinked(m, list, 0); }
      LinkFront(m, m1, mem, list, b);
      head := b + HDR;
      list := [b] + list;
    }

    method FlRemove(b: int, ghost k: int)
      requires Linked(mem, list, head) && Apart(list) && 0 <= k < |list| && list[k] == b
      modifies `mem, `head, `list
      ensures list == Without(old(list), k) && Linked(mem, list, head)
      ensures SameButLinks(old(mem), mem, old(list))
    {
      assert NodeLinked(mem, list, k);
      var next: Word, prev: Word := mem[b + 8], mem[b + 12];
      if k > 0 { assert NodeLinked(mem, list, k - 1); }
      if k + 1 < |list| { assert NodeLinked(mem, list, k + 1); }
      ghost var m := mem;
      if prev != NULL {
        mem := mem[prev := next];
      } else {
        head := next;
      }
      ghost var m1 := mem;
      if next != NULL {
        mem := mem[next + 4 := prev];
      }
      Unlink(m, m1, mem, list, old(head), k);
      list := Without(list, k);
    }

    /** memory.grow: nothing past 4 GiB, and otherwise as the host grants. */
    method MemoryGrow(pages: int, grant: bool) returns (ok: bool)
      requires 0 <= pages && 0 <= end && end % PAGE == 0 && Committed(mem, end)
      modifies `mem, `end
      ensures ok == (grant && old(end) + pages * PAGE <= LIMIT)
      ensures end == old(end) + (if ok then pages * PAGE else 0) && end % PAGE == 0 && Committed(mem, end)
      ensures old(mem).Keys <= mem.Keys && forall a | a in old(mem) :: mem[a] == old(mem)[a]
      ensures !ok ==> mem == old(mem)
    {
      ok := grant && end + pages * PAGE <= LIMIT;
      if ok {
        ghost var m, e := mem, end;
        MorePages(end, pages);
        mem := Zeros(end + pages * PAGE) + mem;
        end := end + pages * PAGE;
        forall a ensures WordAt(mem, end, a) { assert WordAt(m, e, a) && WordAt(Zeros(end), end, a); }
      }
    }

    /** heap_extend: the break moves by n in 32 bits, upward if and only if it does not wrap,
        and memory is committed as far as it got. */
    method HeapExtend(n: int, grant: bool) returns (b: int)
      requires 0 <= n < LIMIT && 0 < brk < LIMIT && brk <= end <= LIMIT && end % PAGE == 0 && Committed(mem, end)
      modifies `mem, `brk, `end
      ensures b == NULL <==> NoMemory(old(brk), n, old(end), grant)
      ensures b == NULL ==> brk == old(brk) && mem == old(mem)
      ensures old(brk) + n <= old(end) < LIMIT ==> b != NULL
      ensures b != NULL && old(end) < old(brk) + n < LIMIT ==> end - PAGE < old(brk) + n <= end
      ensures b == NULL || !(old(end) < old(brk) + n < LIMIT) ==> end == old(end)
      ensures b != NULL ==> b == old(brk) && brk == Sum(b, n) && (brk > b <==> 0 < n && b + n < LIMIT)
      ensures b != NULL && b + n < LIMIT ==> brk == b + n <= end
      ensures end <= LIMIT && end % PAGE == 0 && Committed(mem, end)
      ensures old(mem).Keys <= mem.Keys && forall a | a in old(mem) :: mem[a] == old(mem)[a]
    {
      SumIs(brk, n);
      var pages := (Sum(brk, n) - end % LIMIT + PAGE - 1) % LIMIT / PAGE;
      if end < LIMIT { AsksLeast(brk, n, end, pages); } else { AsksFull(brk, n, pages); }
      if Sum(brk, n) > end % LIMIT {
        var ok := MemoryGrow(pages, grant);
        if !ok { return NULL; }
      }
      b := brk;
      brk := Sum(brk, n);
    }

    /** The first list entry that fits, or the list's length. */
    ghost predicate FirstFit(bs: map<int, Block>, fl: seq<int>, total: int, k: int) {
      && 0 <= k <= |fl|
      && (forall j | 0 <= j < k && fl[j] in bs :: bs[fl[j]].size < total)
      && (k < |fl| ==> fl[k] in bs && bs[fl[k]].size >= total)
    }

    /** Put the free block b, off the list so far, on the list. */
    method InsertFree(b: int)
      requires OffList(b, NULL)
      modifies `mem, `head, `list
      ensures Valid() && list == [b] + old(list)
      ensures Keeps(old(mem), mem, Live())
    {
      ghost var m := mem;
      ListsInsert(blocks, list, b);
      BlockWords(mem, end, blocks, heapStart, brk, b);
      FreeApart(blocks, heapStart, brk, [b] + list);
      FlInsert(b);
      LinksFrame(blocks, heapStart, brk, m, mem, list, Live(), NULL);
      SameKeys(m, mem, end);
    }

    /** Take entry k, block b, off the list. */
    method TakeOff(b: int, ghost k: int, ghost skip: int)
      requires Inv(skip) && 0 <= k < |list| && list[k] == b
      modifies `mem, `head, `list
      ensures OffList(b, skip) && list == Without(old(list), k)
      ensures Keeps(old(mem), mem, Live())
    {
      ghost var m, fl := mem, list;
      ListsRemove(blocks, list, k);
      FreeApart(blocks, heapStart, brk, list);
      FlRemove(b, k);
      LinksFrame(blocks, heapStart, brk, m, mem, fl, Live(), skip);
      SameKeys(m, mem, end);
    }

    method WriteHalves(b: int, bs: int, total: int)
      requires b in blocks && blocks[b].size == bs && 0 < heapStart && brk <= end && Committed(mem, end)
      requires Tiled(Halves(blocks, b, total), heapStart, brk)
      requires Aligned(total) && Aligned(bs - total) && MIN_BLOCK <= total <= bs - MIN_BLOCK && bs < LIMIT
      modifies `mem
      ensures mem.Keys == old(mem).Keys
      ensures forall a | a in mem && !(b <= a < b + bs) :: mem[a] == old(mem)[a]
      ensures TagsAt(mem, b, Block(total, true)) && TagsAt(mem, b + total, Block(bs - total, false))
    {
      ghost var bs' := Halves(blocks, b, total);
      BlockWords(mem, end, bs', heapStart, brk, b);
      BlockWords(mem, end, bs', heapStart, brk, b + total);
      BlkSet(b, total, true);
      BlkSet(b + total, bs - total, false);
    }

    /** Tag the first `total` bytes of block b as used and the rest as free. */
    method TagHead(b: int, bs: int, total: int)
      requires OffList(b, NULL) && b in blocks && blocks[b] == Block(bs, false)
      requires Aligned(total) && MIN_BLOCK <= total <= bs - MIN_BLOCK
      modifies `mem, `blocks
      ensures OffList(b + total, NULL) && list == old(list) && b + total !in old(blocks)
      ensures Live() == old(Live())[b := total - HDR - FTR]
      ensures blocks == Halves(old(blocks), b, total)
      ensures Keeps(old(mem), mem, old(Live()))
    {
      ghost var m, live := mem, Live();
      SplitFree(blocks, heapStart, brk, b, total, list);
      WriteHalves(b, bs, total);
      WriteFrame(blocks, heapStart, brk, m, mem, b, live, list, head);
      TagHalves(mem, blocks, b, total);
      SameKeys(m, mem, end);
      blocks := Halves(blocks, b, total);
    }

    /** Allocate block b, already off the list: all of it, or its first `total`
        bytes when the rest can stand alone. */
    method Carve(b: int, bs: int, total: int)
      requires OffList(b, NULL) && b in blocks && blocks[b] == Block(bs, false)
      requires Aligned(total) && MIN_BLOCK <= total <= bs
      modifies `mem, `head, `blocks, `list
      ensures Valid()
      ensures Live() == old(Live())[b := (if bs - total >= MIN_BLOCK then total else bs) - HDR - FTR]
      ensures Keeps(old(mem), mem, old(Live()))
    {
      var rem := bs - total;
      if rem >= HDR + MIN_PAYLOAD + FTR {
        ghost var m, live := mem, Live();
        TagHead(b, bs, total);
        ghost var m1 := mem;
        InsertFree(b + total);
        KeepsTrans(m, m1, mem, live, Live());
      } else {
        TagWhole(b, bs);
      }
    }

    /** Tag all of block b as used. */
    method TagWhole(b: int, bs: int)
      requires OffList(b, NULL) && b in blocks && blocks[b] == Block(bs, false)
      modifies `mem, `blocks
      ensures Valid() && Live() == old(Live())[b := bs - HDR - FTR]
      ensures Keeps(old(mem), mem, old(Live()))
    {
      ghost var m, was, live := mem, blocks, Live();
      assert Fits(b, bs, heapStart, brk);
      Retag(blocks, heapStart, brk, b, true);
      BlockWords(mem, end, blocks, heapStart, brk, b);
      BlkSet(b, bs, true);
      TagWritten(m, mem, b, Block(bs, true));
      ListsOthers(blocks, list, b);
      WriteFrame(blocks, heapStart, brk, m, mem, b, live, list, head);
      SameKeys(m, mem, end);
      Retagged(mem, was, b);
      LiveUsed(was, b, bs);
      blocks := Taken(blocks, b);
    }

    /** Allocate list entry k, block b. */
    method AllocFound(b: int, ghost k: int, bs: int, total: int)
      requires Valid() && 0 <= k < |list| && list[k] == b && b in blocks && blocks[b].size == bs
      requires Aligned(total) && MIN_BLOCK <= total <= bs
      modifies `mem, `head, `blocks, `list
      ensures Valid() && b !in old(Live())
      ensures Live() == old(Live())[b := (if bs - total >= MIN_BLOCK then total else bs) - HDR - FTR]
      ensures Keeps(old(mem), mem, old(Live()))
    {
      ghost var m, live := mem, Live();
      TakeOff(b, k, NULL);
      ghost var m1 := mem;
      Carve(b, bs, total);
      KeepsTrans(m, m1, mem, live, live);
    }

    /** blk_size of a block that exists. */
    method SizeOf(b: int) returns (bs: int)
      requires Valid() && b in blocks
      ensures bs == blocks[b].size && (bs - HDR - FTR) % 4 == 0
    {
      BlockWords(mem, end, blocks, heapStart, brk, b);
      assert TagsAt(mem, b, blocks[b]) && Fits(b, blocks[b].size, heapStart, brk);
      TagReads(blocks[b]);
      Quartered(blocks[b].size);
      bs := BlkSize(b);
    }

    /** The break has moved up by total from b, and the blocks are still as they were in m. */
    ghost predicate Raised(m: map<int, Word>, b: int, total: int)
      reads this
    {
      && 0 < heapStart && Aligned(heapStart)
      && brk == b + total <= end <= LIMIT && brk < LIMIT && end % PAGE == 0
      && Committed(mem, end)
      && Tiled(blocks, heapStart, b) && Coalesced(blocks) && ListsFree(blocks, list)
      && Tagged(m, blocks, NULL) && Linked(m, list, head)
      && m.Keys <= mem.Keys && forall a | a in m :: mem[a] == m[a]
    }

    /** blk_set of the new block. */
    method FillIn(b: int, total: int, ghost m: map<int, Word>, ghost live: map<int, int>)
      requires Raised(m, b, total) && Aligned(total) && MIN_BLOCK <= total < LIMIT && live == Live()
      modifies `mem, `blocks
      ensures Valid() && b !in live && Live() == live[b := total - HDR - FTR] && Keeps(m, mem, live)
    {
      BreakAligned(blocks, heapStart, b);
      Extend(blocks, heapStart, b, total);
      ghost var m1, bs' := mem, blocks[b := Block(total, true)];
      BlockWords(mem, end, bs', heapStart, brk, b);
      GrownFrame(m, mem, blocks, list, head, live);
      TagsExtended(mem, blocks, b, Block(total, true));
      BlkSet(b, total, true);
      TagWritten(m1, mem, b, Block(total, true));
      WriteFrame(bs', heapStart, brk, m1, mem, b, live, list, head);
      SameKeys(m1, mem, end);
      TagsComplete(mem, bs', b);
      LiveUsed(blocks, b, total);
      KeepsTrans(m, m1, mem, live, live);
      blocks := bs';
    }

    /** Allocate a block of `total` bytes at the break. */
    method AllocFresh(total: int, grant: bool) returns (p: int)
      requires Valid() && Aligned(total) && MIN_BLOCK <= total < LIMIT
      requires NoMemory(brk, total, end, grant) || brk + total < LIMIT
      modifies this
      ensures Valid() && list == old(list)
      ensures p == NULL <==> NoMemory(old(brk), total, old(end), grant)
      ensures end == old(end) || (p != NULL && old(end) < old(brk) + total && end - PAGE < old(brk) + total <= end)
      ensures p == NULL ==> blocks == old(blocks) && mem == old(mem) && brk == old(brk)
      ensures p != NULL ==> p == old(brk) + HDR && old(brk) !in old(Live())
      ensures p != NULL ==> Live() == old(Live())[old(brk) := total - HDR - FTR]
      ensures Keeps(old(mem), mem, old(Live()))
    {
      ghost var m, live := mem, Live();
      var b := HeapExtend(total, grant);
      if b == NULL { return NULL; }
      FillIn(b, total, m, live);
      p := b + HDR;
    }

    /** What a request must meet: no wrap of the block size, and none of the break unless
        a listed block fits or memory is refused. */
    ghost predicate Ready(req: int, grant: bool)
      reads this
    {
      req > MAX_REQUEST
      || (req <= 0xffff_ffe8
          && (Listed(Total(req)) || NoMemory(brk, Total(req), end, grant) || brk + Total(req) < LIMIT))
    }

    ghost predicate Listed(total: int)
      reads this
    {
      exists j :: 0 <= j < |list| && list[j] in blocks && blocks[list[j]].size >= total
    }

    /** Exactly that: any other request that reaches heap_extend leaves the break at or
        below the block it hands out, or has a block size of 0. */
    lemma {:induction false} ReadyExact(req: int, grant: bool)
      requires Valid() && 0 <= req <= MAX_REQUEST
      ensures Ready(req, grant)
              <==> Total(req) > 0 && (Listed(Total(req)) || NoMemory(brk, Total(req), end, grant)
                                      || Sum(brk, Total(req)) > brk)
    {
      SizeGuardExact(req);
      if req <= 0xffff_ffe8 {
        AlignedTotal(req);
        BrkPositive();
        FreshExact(brk, req);
      }
    }

    lemma {:induction false} BrkPositive()
      requires Valid()
      ensures 0 < brk < LIMIT
    {
    }

    /** malloc's walk over the free list. */
    method FindFit(total: int) returns (b: int, bs: int, ghost k: int)
      requires Valid()
      ensures FirstFit(blocks, list, total, k) && (k < |list| <==> Listed(total))
      ensures b == if k < |list| then list[k] else NULL
      ensures k < |list| ==> b in blocks && bs == blocks[b].size >= total && b != NULL
    {
      k := 0;
      var n := head;
      while n != NULL
        invariant 0 <= k <= |list| && n == NodeAt(list, k)
        invariant forall j | 0 <= j < k :: blocks[list[j]].size < total
        decreases |list| - k
      {
        b := n - HDR;
        assert b == list[k] && NodeLinked(mem, list, k);
        bs := SizeOf(b);
        if bs >= total { return; }
        n := mem[n];
        k := k + 1;
      }
      b, bs := NULL, 0;
    }

    method Malloc(req: int, grant: bool) returns (p: int, ghost k: int)
      requires Valid() && 0 <= req < LIMIT && Ready(req, grant)
      modifies this
      ensures Valid()
      ensures req <= MAX_REQUEST ==> FirstFit(old(blocks), old(list), Total(req), k)
      ensures req <= MAX_REQUEST ==> (k < |old(list)| <==> old(Listed(Total(req))))
      ensures p == NULL
        <==> req > MAX_REQUEST || (k == |old(list)| && NoMemory(old(brk), Total(req), old(end), grant))
      ensures req <= 0xffff_ffe8 && old(brk) + Total(req) <= old(end) < LIMIT ==> p != NULL && end == old(end)
      ensures end == old(end)
        || (p == old(brk) + HDR && k == |old(list)| && end - PAGE < old(brk) + Total(req) <= end)
      ensures p == NULL ==> blocks == old(blocks) && list == old(list) && mem == old(mem) && brk == old(brk)
      ensures p != NULL ==>
                && p == (if k < |old(list)| then old(list)[k] else old(brk)) + HDR
                && p - HDR !in old(Live()) && p - HDR in Live() && Live() == old(Live())[p - HDR := Live()[p - HDR]]
                && req <= Need(req) <= Live()[p - HDR] < Need(req) + MIN_BLOCK
      ensures Keeps(old(mem), mem, old(Live()))
    {
      if req > MAX_REQUEST { return NULL, 0; }
      AlignedTotal(req);
      var total := Total(req);
      var b, bs;
      b, bs, k := FindFit(total);
      if b != NULL {
        AllocFound(b, k, bs, total);
        return b + HDR, k;
      }
      p := AllocFresh(total, grant);
    }

    /** If the block after b is free, absorb it. */
    method AbsorbNext(b: int) returns (bs: int)
      requires Valid() && b in blocks && blocks[b].used
      modifies `mem, `head, `list, `blocks
      ensures Inv(b) && b in blocks && blocks[b] == Block(bs, true) && NextUsed(blocks, b)
      ensures Live() - {b} == old(Live()) - {b}
      ensures Keeps(old(mem), mem, old(Live()))
    {
      BlockWords(mem, end, blocks, heapStart, brk, b);
      assert TagsAt(mem, b, blocks[b]) && Fits(b, blocks[b].size, heapStart, brk) && Adjacent(blocks, b, brk);
      TagReads(blocks[b]);
      bs := BlkSize(b);
      var next := b + bs;
      if next < brk {
        BlockWords(mem, end, blocks, heapStart, brk, next);
        assert TagsAt(mem, next, blocks[next]) && Fits(next, blocks[next].size, heapStart, brk);
        TagReads(blocks[next]);
        if !BlkUsed(next) {
          var rest := BlkSize(next);
          JoinNext(b, next, bs);
          bs := bs + rest;
        }
      }
    }

    /** Block b takes over the free block after it. */
    method JoinNext(b: int, next: int, ghost bs: int)
      requires Valid() && b in blocks && blocks[b] == Block(bs, true) && next == b + bs && next in blocks
        && !blocks[next].used
      modifies `mem, `head, `list, `blocks
      ensures Inv(b) && blocks == Merged(old(blocks), b, true) && NextUsed(blocks, b)
      ensures Live() - {b} == old(Live()) - {b}
      ensures Keeps(old(mem), mem, old(Live()))
    {
      assert Fits(b, bs, heapStart, brk);
      assert next in list;
      ghost var k :| 0 <= k < |list| && list[k] == next;
      TakeOff(next, k, NULL);
      MergeNext(blocks, heapStart, brk, b, list);
      TagsMerged(mem, blocks, b, NULL);
      blocks := Merged(blocks, b, true);
    }

    /** If the block before b is free, let it absorb b. */
    method AbsorbPrev(b: int, bs: int) returns (b': int, bs': int)
      requires Inv(b) && b in blocks && blocks[b] == Block(bs, true) && NextUsed(blocks, b)
      modifies `mem, `head, `list, `blocks
      ensures Inv(b') && b' in blocks && blocks[b'] == Block(bs', true)
      ensures NextUsed(blocks, b') && PrevUsed(blocks, b')
      ensures Live() - {b'} == old(Live()) - {b}
      ensures Keeps(old(mem), mem, old(Live()))
    {
      b', bs' := b, bs;
      assert Fits(b, bs, heapStart, brk);
      if b > heapStart {
        ghost var p := Predecessor(blocks, heapStart, brk, b);
        BlockWords(mem, end, blocks, heapStart, brk, p);
        assert TagsAt(mem, p, blocks[p]) && Fits(p, blocks[p].size, heapStart, brk);
        TagReads(blocks[p]);
        var pfoot := mem[b - FTR];
        PrevUnique(blocks, heapStart, brk, p, b);
        if pfoot % 2 == 0 {
          var ps := pfoot - pfoot % 8;
          var prev := b - ps;
          JoinPrev(prev, b, ps);
          b', bs' := prev, bs + ps;
        }
      } else {
        FirstHasNoPrev(blocks, heapStart, brk);
      }
    }

    /** Block b, used and with stale tags, joins the free block before it. */
    method JoinPrev(prev: int, b: int, ghost ps: int)
      requires Inv(b) && b in blocks && blocks[b].used && NextUsed(blocks, b)
      requires prev in blocks && blocks[prev] == Block(ps, false) && prev + ps == b
      modifies `mem, `head, `list, `blocks
      ensures Inv(prev) && blocks == Merged(old(blocks), prev, true)
      ensures NextUsed(blocks, prev) && PrevUsed(blocks, prev)
      ensures Live() - {prev} == old(Live()) - {b}
      ensures Keeps(old(mem), mem, old(Live()))
    {
      assert Fits(prev, ps, heapStart, brk);
      assert prev in list;
      ghost var k :| 0 <= k < |list| && list[k] == prev;
      TakeOff(prev, k, b);
      MergePrev(blocks, heapStart, brk, prev, list);
      TagsMerged(mem, blocks, prev, b);
      blocks := Merged(blocks, prev, true);
    }

    /** Mark the block b, between used neighbours, free, and list it. */
    method GiveBack(b: int, bs: int, ghost live: map<int, int>)
      requires Inv(b) && b in blocks && blocks[b] == Block(bs, true) && NextUsed(blocks, b) && PrevUsed(blocks, b)
      requires live == Live() - {b}
      modifies `mem, `head, `list, `blocks
      ensures Valid() && Live() == live && Keeps(old(mem), mem, live)
    {
      ghost var m := mem;
      MarkFree(b, bs, live);
      ghost var m1 := mem;
      InsertFree(b);
      KeepsTrans(m, m1, mem, live, live);
    }

    method MarkFree(b: int, bs: int, ghost live: map<int, int>)
      requires Inv(b) && b in blocks && blocks[b] == Block(bs, true) && NextUsed(blocks, b) && PrevUsed(blocks, b)
      requires live == Live() - {b}
      modifies `mem, `blocks
      ensures OffList(b, NULL) && Live() == live && Keeps(old(mem), mem, live)
    {
      ghost var m, bs' := mem, blocks[b := Block(bs, false)];
      Release(blocks, heapStart, brk, b, list);
      BlockWords(mem, end, blocks, heapStart, brk, b);
      assert Fits(b, bs, heapStart, brk);
      assert b !in list;
      forall i | 0 <= i < |list| ensures list[i] in blocks && list[i] != b {}
      BlkSet(b, bs, false);
      WriteFrame(blocks, heapStart, brk, m, mem, b, live, list, head);
      SameKeys(m, mem, end);
      TagWritten(m, mem, b, Block(bs, false));
      TagsOthers(mem, blocks, b, Block(bs, false));
      TagsComplete(mem, bs', b);
      blocks := bs';
    }

    method Free(p: int)
      requires Valid() && (p == NULL || p - HDR in Live())
      modifies this
      ensures Valid() && Live() == old(Live()) - {p - HDR}
      ensures Keeps(old(mem), mem, Live())
      ensures p == NULL ==> mem == old(mem) && blocks == old(blocks) && list == old(list)
      ensures brk == old(brk)
    {
      if p == NULL { return; }
      ghost var m, live := mem, Live() - {p - HDR};
      var b := p - HDR;
      var bs := AbsorbNext(b);
      ghost var m1 := mem;
      b, bs := AbsorbPrev(b, bs);
      ghost var m2 := mem;
      KeepsTrans(m, m1, m2, live, live);
      GiveBack(b, bs, live);
      KeepsTrans(m, m2, mem, live, live);
    }

    /** A client's store into a payload it owns. */
    method Poke(b: int, a: int, w: Word)
      requires Valid() && b in Live() && b + HDR <= a < b + HDR + Live()[b] && a in mem
      modifies `mem
      ensures Valid() && mem == old(mem)[a := w] && Keeps(old(mem), mem, Live() - {b})
    {
      ghost var m := mem;
      mem := mem[a := w];
      assert TagsAt(m, b, blocks[b]) && b !in list;
      forall i | 0 <= i < |list| ensures list[i] in blocks && list[i] != b {}
      WriteFrame(blocks, heapStart, brk, m, mem, b, Live() - {b}, list, head);
      SameKeys(m, mem, end);
      TagsComplete(mem, blocks, b);
    }

    /** Copy the payload of block c, `n` bytes, to the start of that of block b. */
    method MemCopy(b: int, c: int, n: int)
      requires Valid() && b in Live() && c in Live() && b != c && n % 4 == 0 && 0 <= n <= Live()[b] && n <= Live()[c]
      modifies `mem
      ensures Valid() && mem.Keys == old(mem).Keys && Keeps(old(mem), mem, Live() - {b})
      ensures Copied(old(mem), mem, b, c, n)
    {
      ghost var m, live := mem, Live() - {b};
      var i := 0;
      while i < n
        invariant 0 <= i <= n && i % 4 == 0
        invariant Valid() && mem.Keys == m.Keys && Keeps(m, mem, live)
        invariant Copied(m, mem, b, c, i)
      {
        PayloadWords(mem, m, end, blocks, heapStart, brk, b, c, i);
        ghost var m1 := mem;
        Poke(b, b + HDR + i, mem[c + HDR + i]);
        KeepsTrans(m, m1, mem, live, live);
        i := i + 4;
        CopiedStep(m, m1, mem, b, c, i);
      }
    }

    /** The moving case of realloc: p's contents go to a new block. */
    method Move(p: int, n: int, avail: int, grant: bool) returns (q: int)
      requires Valid() && p - HDR in Live() && avail == Live()[p - HDR] < n < LIMIT && avail % 4 == 0
      requires Ready(n, grant)
      modifies this
      ensures Valid()
      ensures q == NULL ==> Live() == old(Live()) && mem == old(mem)
      ensures q == NULL
        <==> n > MAX_REQUEST || (!old(Listed(Total(n))) && NoMemory(old(brk), Total(n), old(end), grant))
      ensures q != NULL ==>
                && q != p && q - HDR !in old(Live()) && q - HDR in Live() && Live()[q - HDR] >= n
                && Live() == old(Live())[q - HDR := Live()[q - HDR]] - {p - HDR}
                && Copied(old(mem), mem, q - HDR, p - HDR, avail)
      ensures Keeps(old(mem), mem, old(Live()) - {p - HDR})
    {
      ghost var m, live, c := mem, Live(), p - HDR;
      PayloadInMemory(mem, end, blocks, heapStart, brk, c);
      ghost var k;
      q, k := Malloc(n, grant);
      if q == NULL { return NULL; }
      Relocate(p, q, avail, m, live);
    }

    /** The new block, at q, is there; m and live are from before. */
    method Relocate(p: int, q: int, n: int, ghost m: map<int, Word>, ghost live: map<int, int>)
      requires Valid() && q - HDR !in live && p - HDR in live && n == live[p - HDR] && n % 4 == 0
      requires q - HDR in Live() && Live()[q - HDR] >= n && Live() == live[q - HDR := Live()[q - HDR]]
      requires Keeps(m, mem, live) && PayloadIn(m, p - HDR, n)
      modifies this
      ensures Valid() && Live() == old(Live()) - {p - HDR}
      ensures Keeps(m, mem, live - {p - HDR}) && Copied(m, mem, q - HDR, p - HDR, n)
    {
      ghost var m1 := mem;
      Transfer(p, q, n);
      Moved(m, m1, mem, live, Live(), q - HDR, p - HDR, n);
    }

    /** Copy p's payload to q and free p. */
    method Transfer(p: int, q: int, n: int)
      requires Valid() && p - HDR in Live() && q - HDR in Live() && p != q
      requires n % 4 == 0 && n == Live()[p - HDR] <= Live()[q - HDR]
      modifies this
      ensures Valid() && Live() == old(Live()) - {p - HDR} && brk == old(brk)
      ensures Keeps(old(mem), mem, Live() - {q - HDR})
      ensures Copied(old(mem), mem, q - HDR, p - HDR, n)
    {
      ghost var m, live, c, b := mem, Live(), p - HDR, q - HDR;
      PayloadInMemory(mem, end, blocks, heapStart, brk, c);
      MemCopy(q - HDR, p - HDR, n);
      ghost var m2 := mem;
      Free(p);
      KeepsFewer(m, m2, live - {b}, live - {c} - {b});
      KeepsTrans(m, m2, mem, live - {c} - {b}, Live());
      CopyKept(m, m, m2, mem, live, Live(), b, c, n);
    }

    method Realloc(p: int, n: int, grant: bool) returns (q: int)
      requires Valid() && (p == NULL || p - HDR in Live()) && 0 <= n < LIMIT
      requires p == NULL || n > Live()[p - HDR] ==> Ready(n, grant)
      modifies this
      ensures Valid()
      ensures p != NULL && n == 0 ==> q == NULL && Live() == old(Live()) - {p - HDR}
      ensures p != NULL && 0 < n <= old(Live())[p - HDR] ==> q == p && Live() == old(Live()) && mem == old(mem)
      ensures q == NULL && (p == NULL || n > 0) ==> Live() == old(Live()) && mem == old(mem)
      ensures p == NULL || n > old(Live())[p - HDR] ==>
        (q == NULL <==> n > MAX_REQUEST || (!old(Listed(Total(n))) && NoMemory(old(brk), Total(n), old(end), grant)))
      ensures q != NULL && q != p ==>
                && q - HDR !in old(Live()) && q - HDR in Live() && Live()[q - HDR] >= n
                && Live() == old(Live())[q - HDR := Live()[q - HDR]] - {p - HDR}
      ensures q != NULL && q != p && p != NULL ==>
                && old(Live())[p - HDR] < n
                && Copied(old(mem), mem, q - HDR, p - HDR, old(Live())[p - HDR])
      ensures Keeps(old(mem), mem, old(Live()) - {p - HDR})
    {
      if p == NULL {
        ghost var k;
        q, k := Malloc(n, grant);
        return;
      }
      if n == 0 {
        Free(p);
        return NULL;
      }
      var bs := SizeOf(p - HDR);
      var avail := bs - HDR - FTR;
      if n <= avail { return p; }
      q := Move(p, n, avail, grant);
    }
  }
}
