module IntFor {
  // The unboxed integer loop (src/codegen/stmt.c, emit_for_num_int) against what section 3.3.5
  // of the Lua 5.5 Reference Manual says it runs over.

  import opened Numbers

  // ----- the reference -----

  predicate Within(i: int, stop: I64, step: I64) { if step > 0 then i <= stop else i >= stop }

  predicate Fits(n: int) { MIN64 <= n <= MAX64 }

  function Gap(start: I64, stop: I64, step: I64): nat {
    if !Within(start, stop, step) then 0 else if step > 0 then stop - start + 1 else start - stop + 1
  }

  /** How many of start, start + step, ... come before the limit is passed or the
      64-bit range is left. */
  function Trips(start: I64, stop: I64, step: I64): nat
    requires step != 0
    decreases Gap(start, stop, step)
  {
    if !Within(start, stop, step) then 0
    else if Fits(start + step) then 1 + Trips(start + step, stop, step)
    else 1
  }

  /** The control variable in turn k. */
  function ValueAt(start: I64, stop: I64, step: I64, k: nat): I64
    requires step != 0 && k < Trips(start, stop, step)
    decreases k
  {
    if k == 0 then start else ValueAt(start + step, stop, step, k - 1)
  }

  lemma {:induction false} Later(start: int, step: int, k: nat)
    requires k > 0
    ensures start + step + (k - 1) * step == start + k * step
    ensures step > 0 ==> start + k * step >= start + step
    ensures step < 0 ==> start + k * step <= start + step
  {
    if step > 0 {
      assert (k - 1) * step >= 0;
    } else if step < 0 {
      assert (k - 1) * step <= 0;
    }
  }

  /** It is never a wrapped value. */
  lemma {:induction false} ValueIs(start: I64, stop: I64, step: I64, k: nat)
    requires step != 0 && k < Trips(start, stop, step)
    ensures ValueAt(start, stop, step, k) == start + k * step && Within(start + k * step, stop, step)
    decreases k
  {
    if k > 0 {
      ValueIs(start + step, stop, step, k - 1);
      Later(start, step, k);
    }
  }

  /** There is a turn k exactly when start + k * step is within the limit. */
  lemma {:induction false} TripsExact(start: I64, stop: I64, step: I64, k: nat)
    requires step != 0
    ensures k < Trips(start, stop, step) <==> Within(start + k * step, stop, step)
    decreases k
  {
    if k > 0 {
      Later(start, step, k);
      if Within(start, stop, step) && Fits(start + step) { TripsExact(start + step, stop, step, k - 1); }
    }
  }

  /** There is a next turn exactly when the next value neither leaves the 64-bit range
      nor passes the limit, and then it is that turn's. */
  lemma {:induction false} TripsStep(start: I64, stop: I64, step: I64, k: nat)
    requires step != 0 && k < Trips(start, stop, step)
    ensures var n := ValueAt(start, stop, step, k) + step;
            && (k + 1 < Trips(start, stop, step) <==> Fits(n) && Within(n, stop, step))
            && (k + 1 < Trips(start, stop, step) ==> ValueAt(start, stop, step, k + 1) == n)
    decreases k
  {
    if k > 0 { TripsStep(start + step, stop, step, k - 1); }
  }

  function Values(start: I64, stop: I64, step: I64): (vs: seq<I64>)
    requires step != 0
    ensures |vs| == Trips(start, stop, step)
  {
    seq(Trips(start, stop, step), k requires 0 <= k < Trips(start, stop, step) => ValueAt(start, stop, step, k))
  }

  /** The loop runs on each value start + k * step within the limit, and on no other. */
  lemma {:induction false} ValuesExact(start: I64, stop: I64, step: I64, v: int)
    requires step != 0
    ensures v in Values(start, stop, step) <==> exists k: nat :: v == start + k * step && Within(v, stop, step)
  {
    var vs := Values(start, stop, step);
    if v in vs {
      var k: nat :| k < |vs| && vs[k] == v;
      ValueIs(start, stop, step, k);
      assert v == start + k * step && Within(v, stop, step);
    }
    if k: nat :| v == start + k * step && Within(v, stop, step) {
      TripsExact(start, stop, step, k);
      ValueIs(start, stop, step, k);
      assert vs[k] == v;
    }
  }

  // ----- the emitted code -----

  /** emit_int_for_exit: the sign of the step as known at compile time, 0 when it is
      tested at run time. */
  predicate Exit(sign: int, step: I64, asc: bool, desc: bool) {
    if sign > 0 then asc else if sign < 0 then desc else if step > 0 then asc else desc
  }

  predicate SignOf(sign: int, step: I64) { sign == 0 || (sign > 0 && step > 0) || (sign < 0 && step < 0) }

  /** The test at the loop's header: the counter has passed the limit. */
  predicate Past(sign: int, i: I64, stop: I64, step: I64) { Exit(sign, step, i > stop, i < stop) }

  /** The test after i64.add: the step wrapped. */
  predicate Wrapped(sign: int, next: I64, i: I64, step: I64) { Exit(sign, step, next < i, next > i) }

  lemma {:induction false} PastExact(sign: int, i: I64, stop: I64, step: I64)
    requires step != 0 && SignOf(sign, step)
    ensures Past(sign, i, stop, step) <==> !Within(i, stop, step)
  {
  }

  /** i64.add wraps exactly when the sum is out of range, and then the test sees it. */
  lemma {:induction false} WrapSeen(sign: int, i: I64, step: I64)
    requires step != 0 && SignOf(sign, step)
    ensures Wrapped(sign, Wrap(i + step), i, step) <==> !Fits(i + step)
  {
    var n := i + step;
    if n > MAX64 {
      WrapIs(n, n - 0x1_0000_0000_0000_0000);
    } else if n < MIN64 {
      WrapIs(n, n + 0x1_0000_0000_0000_0000);
    }
  }

  lemma {:induction false} WrapIs(n: int, r: I64)
    requires n - r == 0x1_0000_0000_0000_0000 || r - n == 0x1_0000_0000_0000_0000
    ensures Wrap(n) == r
  {
  }

  /** One turn: after value k the loop goes on exactly when there is a turn k + 1, and
      to its value. */
  lemma {:induction false} NextTurn(sign: int, start: I64, stop: I64, step: I64, k: nat)
    requires step != 0 && SignOf(sign, step) && k < Trips(start, stop, step)
    ensures var i := ValueAt(start, stop, step, k);
            var next := Wrap(i + step);
            && !Past(sign, i, stop, step)
            && if k + 1 < Trips(start, stop, step)
               then !Wrapped(sign, next, i, step) && !Past(sign, next, stop, step)
                 && next == ValueAt(start, stop, step, k + 1)
               else Wrapped(sign, next, i, step) || Past(sign, next, stop, step)
  {
    var i := ValueAt(start, stop, step, k);
    ValueIs(start, stop, step, k);
    PastExact(sign, i, stop, step);
    WrapSeen(sign, i, step);
    TripsStep(start, stop, step, k);
    if Fits(i + step) { PastExact(sign, i + step, stop, step); }
  }

  /** The loop as emitted, keeping what each turn's body saw in $L. It ends for every
      start, stop and nonzero step. */
  method Visit(sign: int, start: I64, stop: I64, step: I64) returns (seen: seq<I64>)
    requires step != 0 && SignOf(sign, step)
    ensures seen == Values(start, stop, step)
  {
    seen := [];
    var i: I64 := start;
    ghost var n := Trips(start, stop, step);
    PastExact(sign, i, stop, step);
    while !Past(sign, i, stop, step)
      invariant |seen| <= n && seen == Values(start, stop, step)[..|seen|]
      invariant Past(sign, i, stop, step) <==> |seen| == n
      invariant |seen| < n ==> i == ValueAt(start, stop, step, |seen|)
      decreases n - |seen|
    {
      NextTurn(sign, start, stop, step, |seen|);
      seen := seen + [i];
      var next := Wrap(i + step);
      if Wrapped(sign, next, i, step) { break; }
      i := next;
    }
    assert |seen| == n;
  }
}
