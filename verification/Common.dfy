/** What several models share. */
module Options {

  datatype Option<+T> = None | Some(value: T)
}

module Sets {

  lemma {:induction false} ProperSize<T>(a: set<T>, b: set<T>)
    requires a < b
    ensures |a| < |b|
  {
    var rest := b - a;
    assert b == a + rest && a !! rest && |rest| > 0;
  }
}

/** Lua's 64-bit integers, opaque doubles, and operators. */
module Numbers {

  const MIN64 := -0x8000_0000_0000_0000
  const MAX64 := 0x7fff_ffff_ffff_ffff

  /** A Lua integer: a 64-bit two's complement number. */
  type I64 = n: int | -0x8000_0000_0000_0000 <= n <= 0x7fff_ffff_ffff_ffff

  /** A double, by its bits: what operations do to it is left open. */
  datatype Flt = Flt(bits: int)

  datatype Op = Add | Sub | Mul | Div | FDiv | Mod | BAnd | BOr | BXor

  /** A 64-bit result wraps. */
  function Wrap(n: int): (r: I64)
    ensures MIN64 <= n <= MAX64 ==> r == n
  {
    (n + 0x8000_0000_0000_0000) % 0x1_0000_0000_0000_0000 - 0x8000_0000_0000_0000
  }

  /** Rounding down: what $idiv_floor gives for a nonzero divisor. */
  function FloorDiv(a: int, b: int): int
    requires b != 0
  {
    if b > 0 then a / b else (-a) / (-b)
  }

  /** The same 64 bits. */
  predicate Congruent(x: int, y: int) { MIN64 <= x <= MAX64 && (x - y) % 0x1_0000_0000_0000_0000 == 0 }

  predicate Floors(q: int, a: int, b: int) {
    (b > 0 ==> q * b <= a < q * b + b) && (b < 0 ==> q * b + b < a <= q * b)
  }

  /** r is what section 3.4.1 of the Lua manual says: sums, differences and products modulo
      2^64, the floor of the quotient, and the remainder that has the divisor's sign. */
  ghost predicate Exact(op: Op, a: int, b: int, r: int) {
    match op
    case Add => Congruent(r, a + b)
    case Sub => Congruent(r, a - b)
    case Mul => Congruent(r, a * b)
    case FDiv => exists q :: Floors(q, a, b) && Congruent(r, q)
    case Mod => (b > 0 ==> 0 <= r < b) && (b < 0 ==> b < r <= 0) && exists q :: Floors(q, a, b) && a == q * b + r
    case _ => true
  }

  lemma {:induction false} WrapExact(n: int)
    ensures Congruent(Wrap(n), n)
  {
    var m := n + 0x8000_0000_0000_0000;
    assert n - Wrap(n) == m - m % 0x1_0000_0000_0000_0000;
    assert m == 0x1_0000_0000_0000_0000 * (m / 0x1_0000_0000_0000_0000) + m % 0x1_0000_0000_0000_0000;
    Multiple(m / 0x1_0000_0000_0000_0000);
  }

  lemma {:induction false} Multiple(k: int)
    ensures (0x1_0000_0000_0000_0000 * k) % 0x1_0000_0000_0000_0000 == 0
    ensures (-(0x1_0000_0000_0000_0000 * k)) % 0x1_0000_0000_0000_0000 == 0
  {
  }

  lemma {:induction false} FloorDivExact(a: int, b: int)
    requires b != 0
    ensures Floors(FloorDiv(a, b), a, b)
    ensures var r := a - FloorDiv(a, b) * b; (b > 0 ==> 0 <= r < b) && (b < 0 ==> b < r <= 0)
  {
    var q := FloorDiv(a, b);
    if b > 0 {
      assert a == q * b + a % b;
    } else {
      assert -a == q * (-b) + (-a) % (-b);
      assert q * (-b) == -(q * b);
    }
  }

  lemma {:induction false} SumExact(op: Op, a: I64, b: I64)
    requires !op.FDiv? && !op.Mod?
    ensures Exact(op, a, b, Wrap(if op.Add? then a + b else if op.Sub? then a - b else a * b))
  {
    WrapExact(if op.Add? then a + b else if op.Sub? then a - b else a * b);
  }

  lemma {:induction false} DivExact(a: I64, b: I64)
    requires b != 0
    ensures Exact(FDiv, a, b, Wrap(FloorDiv(a, b)))
  {
    FloorDivExact(a, b);
    WrapExact(FloorDiv(a, b));
  }

  lemma {:induction false} ModExact(a: I64, b: I64)
    requires b != 0
    ensures var r := a - FloorDiv(a, b) * b; Wrap(r) == r && Exact(Mod, a, b, r)
  {
    FloorDivExact(a, b);
  }
}
