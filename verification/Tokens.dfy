/** The binary form of single instructions (src/wat2wasm.c, encode_instr; section
    5.4 of the WebAssembly Core Specification): every one reads back. */
module Tokens {
  import opened Leb

  /** A catch clause: kinds 0 and 1 (catch, catch_ref) name a tag. */
  datatype Catch = Catch(kind: nat, tag: nat, depth: nat)

  datatype Tok =
    | Zero(op: Byte)
    | Idx(op: Byte, imm: nat)
    | Gc(sub: nat, imms: seq<nat>)
    | ConstOp(op: Byte, v: int)
    | Br(depth: nat)
    | BrIf(depth: nat)
    | BrTable(depths: seq<nat>, default: nat)
    | Block(bt: int)
    | Loop(bt: int)
    | If(bt: int)
    | Try(bt: int, catches: seq<Catch>)
    | Else
    | End

  predicate IsZero(op: Byte) {
    op == 0 || op == 1 || op == 0x0a || op == 0x0f || op == 0x1a || op == 0x1b
    || 0x45 <= op <= 0xc4 || op == 0xd1 || op == 0xd3 || op == 0xd4
  }

  predicate IsIdx(op: Byte) {
    op == 0x08 || op == 0x10 || op == 0x12 || op == 0x14 || op == 0x15 || 0x20 <= op <= 0x24 || op == 0xd2
  }

  /** Immediates after the 0xfb prefix, or -1 if there is no such instruction. */
  function GcArity(sub: nat): int {
    if sub == 0x0f || 0x1c <= sub <= 0x1e then 0
    else if sub <= 1 || 6 <= sub <= 7 || 0x0b <= sub <= 0x0e || sub == 0x10 then 1
    else if 2 <= sub <= 5 || 8 <= sub <= 9 || sub == 0x11 then 2
    else -1
  }

  predicate Valid(t: Tok) {
    match t
    case Zero(op) => IsZero(op)
    case Idx(op, _) => IsIdx(op)
    case Gc(sub, imms) => GcArity(sub) == |imms|
    case ConstOp(op, _) => op == 0x41 || op == 0x42
    case Try(_, catches) => forall i | 0 <= i < |catches| :: ValidCatch(catches[i])
    case _ => true
  }

  predicate ValidCatch(c: Catch) {
    c.kind <= 3 && (c.kind >= 2 ==> c.tag == 0)
  }

  // ----- writing -----

  function Ulebs(vs: seq<nat>): seq<Byte> {
    if vs == [] then [] else Uleb(vs[0]) + Ulebs(vs[1..])
  }

  function CatchBytes(c: Catch): seq<Byte>
    requires ValidCatch(c)
  {
    [c.kind] + (if c.kind <= 1 then Uleb(c.tag) else []) + Uleb(c.depth)
  }

  function CatchesBytes(cs: seq<Catch>): seq<Byte>
    requires forall i | 0 <= i < |cs| :: ValidCatch(cs[i])
  {
    if cs == [] then [] else CatchBytes(cs[0]) + CatchesBytes(cs[1..])
  }

  function Bytes(t: Tok): (bs: seq<Byte>)
    requires Valid(t)
    ensures |bs| > 0
  {
    match t
    case Zero(op) => [op]
    case Idx(op, imm) => [op] + Uleb(imm)
    case Gc(sub, imms) => [0xfb] + (Uleb(sub) + Ulebs(imms))
    case ConstOp(op, v) => [op] + Sleb(v)
    case Br(d) => [0x0c] + Uleb(d)
    case BrIf(d) => [0x0d] + Uleb(d)
    case BrTable(ds, d) => [0x0e] + (Uleb(|ds|) + (Ulebs(ds) + Uleb(d)))
    case Block(bt) => [0x02] + Sleb(bt)
    case Loop(bt) => [0x03] + Sleb(bt)
    case If(bt) => [0x04] + Sleb(bt)
    case Try(bt, cs) => [0x1f] + (Sleb(bt) + (Uleb(|cs|) + CatchesBytes(cs)))
    case Else => [0x05]
    case End => [0x0b]
  }

  /** The opcodes of section 5.4 of the WebAssembly specification. */
  lemma {:induction false} Opcodes(t: Tok)
    requires Valid(t)
    ensures (t.Block? ==> Bytes(t)[0] == 0x02) && (t.Loop? ==> Bytes(t)[0] == 0x03) && (t.If? ==> Bytes(t)[0] == 0x04)
    ensures (t.Else? ==> Bytes(t)[0] == 0x05) && (t.End? ==> Bytes(t)[0] == 0x0b) && (t.Try? ==> Bytes(t)[0] == 0x1f)
    ensures (t.Br? ==> Bytes(t)[0] == 0x0c) && (t.BrIf? ==> Bytes(t)[0] == 0x0d)
    ensures (t.BrTable? ==> Bytes(t)[0] == 0x0e) && (t.Gc? ==> Bytes(t)[0] == 0xfb)
  {
  }

  predicate AllValid(ts: seq<Tok>) {
    forall i | 0 <= i < |ts| :: Valid(ts[i])
  }

  function AllBytes(ts: seq<Tok>): seq<Byte>
    requires AllValid(ts)
  {
    if ts == [] then [] else Bytes(ts[0]) + AllBytes(ts[1..])
  }

  // ----- reading -----

  function ReadMany(bs: seq<Byte>, n: nat): Read<seq<nat>>
    decreases n
  {
    if n == 0 then Good([], bs)
    else
      match ReadU(bs)
      case Bad => Bad
      case Good(v, rest) =>
        match ReadMany(rest, n - 1)
        case Bad => Bad
        case Good(vs, rest') => Good([v] + vs, rest')
  }

  function ReadCatch(bs: seq<Byte>): Read<Catch> {
    if bs == [] || bs[0] > 3 then Bad
    else if bs[0] <= 1 then
      match ReadMany(bs[1..], 2)
      case Bad => Bad
      case Good(vs, rest) => if |vs| == 2 then Good(Catch(bs[0], vs[0], vs[1]), rest) else Bad
    else
      match ReadU(bs[1..])
      case Bad => Bad
      case Good(d, rest) => Good(Catch(bs[0], 0, d), rest)
  }

  function ReadCatches(bs: seq<Byte>, n: nat): Read<seq<Catch>>
    decreases n
  {
    if n == 0 then Good([], bs)
    else
      match ReadCatch(bs)
      case Bad => Bad
      case Good(c, rest) =>
        match ReadCatches(rest, n - 1)
        case Bad => Bad
        case Good(cs, rest') => Good([c] + cs, rest')
  }

  function With<T, U>(r: Read<T>, f: T -> U): Read<U> {
    match r case Bad => Bad case Good(v, rest) => Good(f(v), rest)
  }

  function ReadTable(bs: seq<Byte>): Read<Tok> {
    match ReadU(bs)
    case Bad => Bad
    case Good(n, rest) =>
      match ReadMany(rest, n)
      case Bad => Bad
      case Good(ds, rest') => With(ReadU(rest'), d => BrTable(ds, d))
  }

  function ReadTry(bs: seq<Byte>): Read<Tok> {
    match ReadS(bs)
    case Bad => Bad
    case Good(bt, rest) =>
      match ReadU(rest)
      case Bad => Bad
      case Good(n, rest') => With(ReadCatches(rest', n), cs => Try(bt, cs))
  }

  function ReadGc(bs: seq<Byte>): Read<Tok> {
    match ReadU(bs)
    case Bad => Bad
    case Good(sub, rest) => if GcArity(sub) < 0 then Bad else With(ReadMany(rest, GcArity(sub)), imms => Gc(sub, imms))
  }

  function ReadTok(bs: seq<Byte>): Read<Tok> {
    if bs == [] then Bad
    else
      var op, rest := bs[0], bs[1..];
      if IsZero(op) then Good(Zero(op), rest)
      else if IsIdx(op) then With(ReadU(rest), imm => Idx(op, imm))
      else if op == 0x41 || op == 0x42 then With(ReadS(rest), v => ConstOp(op, v))
      else if op == 0x0c then With(ReadU(rest), d => Br(d))
      else if op == 0x0d then With(ReadU(rest), d => BrIf(d))
      else if op == 0x0e then ReadTable(rest)
      else if op == 0x02 then With(ReadS(rest), bt => Block(bt))
      else if op == 0x03 then With(ReadS(rest), bt => Loop(bt))
      else if op == 0x04 then With(ReadS(rest), bt => If(bt))
      else if op == 0x1f then ReadTry(rest)
      else if op == 0x05 then Good(Else, rest)
      else if op == 0x0b then Good(End, rest)
      else if op == 0xfb then ReadGc(rest)
      else Bad
  }

  function ReadAll(bs: seq<Byte>, n: nat): Read<seq<Tok>>
    decreases n
  {
    if n == 0 then Good([], bs)
    else
      match ReadTok(bs)
      case Bad => Bad
      case Good(t, rest) =>
        match ReadAll(rest, n - 1)
        case Bad => Bad
        case Good(ts, rest') => Good([t] + ts, rest')
  }

  // ----- what is written reads back -----

  lemma {:induction false} Assoc(a: seq<Byte>, b: seq<Byte>, c: seq<Byte>)
    ensures (a + b) + c == a + (b + c)
  {
  }

  lemma {:induction false} After(op: Byte, x: seq<Byte>, rest: seq<Byte>)
    ensures var bs := [op] + x + rest; bs != [] && bs[0] == op && bs[1..] == x + rest
  {
  }

  lemma {:induction false} UlebsRead(vs: seq<nat>, rest: seq<Byte>)
    ensures ReadMany(Ulebs(vs) + rest, |vs|) == Good(vs, rest)
    decreases |vs|
  {
    if vs == [] {
      assert Ulebs(vs) + rest == rest;
    } else {
      var more := Ulebs(vs[1..]) + rest;
      Assoc(Uleb(vs[0]), Ulebs(vs[1..]), rest);
      UlebReads(vs[0], more);
      UlebsRead(vs[1..], rest);
      assert [vs[0]] + vs[1..] == vs;
    }
  }

  lemma {:induction false} CatchReads(c: Catch, rest: seq<Byte>)
    requires ValidCatch(c)
    ensures ReadCatch(CatchBytes(c) + rest) == Good(c, rest)
  {
    var d := Uleb(c.depth);
    if c.kind <= 1 {
      Assoc([c.kind], Uleb(c.tag), d);
      After(c.kind, Uleb(c.tag) + d, rest);
      Assoc(Uleb(c.tag), d, rest);
      UlebReads(c.tag, d + rest);
      UlebReads(c.depth, rest);
      TwoRead(Uleb(c.tag) + (d + rest), c.tag, d + rest, c.depth, rest);
    } else {
      assert [c.kind] + [] == [c.kind];
      After(c.kind, d, rest);
      UlebReads(c.depth, rest);
    }
  }

  lemma {:induction false} TwoRead(bs: seq<Byte>, u: nat, more: seq<Byte>, v: nat, rest: seq<Byte>)
    requires ReadU(bs) == Good(u, more) && ReadU(more) == Good(v, rest)
    ensures ReadMany(bs, 2) == Good([u, v], rest)
  {
    assert ReadMany(rest, 0) == Good([], rest) && [v] + [] == [v];
    assert ReadMany(more, 1) == Good([v], rest);
    assert [u] + [v] == [u, v];
  }

  lemma {:induction false} CatchesRead(cs: seq<Catch>, rest: seq<Byte>)
    requires forall i | 0 <= i < |cs| :: ValidCatch(cs[i])
    ensures ReadCatches(CatchesBytes(cs) + rest, |cs|) == Good(cs, rest)
    decreases |cs|
  {
    if cs == [] {
      assert CatchesBytes(cs) + rest == rest;
    } else {
      var more := CatchesBytes(cs[1..]) + rest;
      Assoc(CatchBytes(cs[0]), CatchesBytes(cs[1..]), rest);
      CatchReads(cs[0], more);
      CatchesRead(cs[1..], rest);
      assert [cs[0]] + cs[1..] == cs;
    }
  }

  lemma {:induction false} TableReads(ds: seq<nat>, d: nat, rest: seq<Byte>)
    ensures ReadTable(Uleb(|ds|) + (Ulebs(ds) + Uleb(d)) + rest) == Good(BrTable(ds, d), rest)
  {
    Assoc(Uleb(|ds|), Ulebs(ds) + Uleb(d), rest);
    Assoc(Ulebs(ds), Uleb(d), rest);
    UlebReads(|ds|, Ulebs(ds) + (Uleb(d) + rest));
    UlebsRead(ds, Uleb(d) + rest);
    UlebReads(d, rest);
  }

  lemma {:induction false} TryReads(bt: int, cs: seq<Catch>, rest: seq<Byte>)
    requires forall i | 0 <= i < |cs| :: ValidCatch(cs[i])
    ensures ReadTry(Sleb(bt) + (Uleb(|cs|) + CatchesBytes(cs)) + rest) == Good(Try(bt, cs), rest)
  {
    Assoc(Sleb(bt), Uleb(|cs|) + CatchesBytes(cs), rest);
    Assoc(Uleb(|cs|), CatchesBytes(cs), rest);
    SlebReads(bt, Uleb(|cs|) + (CatchesBytes(cs) + rest));
    UlebReads(|cs|, CatchesBytes(cs) + rest);
    CatchesRead(cs, rest);
  }

  lemma {:induction false} GcReads(sub: nat, imms: seq<nat>, rest: seq<Byte>)
    requires GcArity(sub) == |imms|
    ensures ReadGc(Uleb(sub) + Ulebs(imms) + rest) == Good(Gc(sub, imms), rest)
  {
    Assoc(Uleb(sub), Ulebs(imms), rest);
    UlebReads(sub, Ulebs(imms) + rest);
    UlebsRead(imms, rest);
  }

  lemma {:induction false} UnsignedReads(op: Byte, v: nat, rest: seq<Byte>)
    ensures IsIdx(op) ==> ReadTok([op] + Uleb(v) + rest) == Good(Idx(op, v), rest)
    ensures op == 0x0c ==> ReadTok([op] + Uleb(v) + rest) == Good(Br(v), rest)
    ensures op == 0x0d ==> ReadTok([op] + Uleb(v) + rest) == Good(BrIf(v), rest)
  {
    After(op, Uleb(v), rest);
    UlebReads(v, rest);
  }

  lemma {:induction false} SignedReads(op: Byte, v: int, rest: seq<Byte>)
    ensures op == 0x41 || op == 0x42 ==> ReadTok([op] + Sleb(v) + rest) == Good(ConstOp(op, v), rest)
    ensures op == 0x02 ==> ReadTok([op] + Sleb(v) + rest) == Good(Block(v), rest)
    ensures op == 0x03 ==> ReadTok([op] + Sleb(v) + rest) == Good(Loop(v), rest)
    ensures op == 0x04 ==> ReadTok([op] + Sleb(v) + rest) == Good(If(v), rest)
  {
    After(op, Sleb(v), rest);
    SlebReads(v, rest);
  }

  lemma {:induction false} BareReads(op: Byte, rest: seq<Byte>)
    ensures IsZero(op) ==> ReadTok([op] + rest) == Good(Zero(op), rest)
    ensures op == 0x05 ==> ReadTok([op] + rest) == Good(Else, rest)
    ensures op == 0x0b ==> ReadTok([op] + rest) == Good(End, rest)
  {
    assert ([op] + rest)[1..] == rest;
  }

  lemma {:induction false} TokReads(t: Tok, rest: seq<Byte>)
    requires Valid(t)
    ensures ReadTok(Bytes(t) + rest) == Good(t, rest)
  {
    match t
    case Zero(op) => BareReads(op, rest);
    case Else => BareReads(0x05, rest);
    case End => BareReads(0x0b, rest);
    case Idx(op, imm) => UnsignedReads(op, imm, rest);
    case Br(d) => UnsignedReads(0x0c, d, rest);
    case BrIf(d) => UnsignedReads(0x0d, d, rest);
    case ConstOp(op, v) => SignedReads(op, v, rest);
    case Block(bt) => SignedReads(0x02, bt, rest);
    case Loop(bt) => SignedReads(0x03, bt, rest);
    case If(bt) => SignedReads(0x04, bt, rest);
    case _ => LongReads(t, rest);
  }

  lemma {:induction false} LongReads(t: Tok, rest: seq<Byte>)
    requires Valid(t) && (t.Gc? || t.BrTable? || t.Try?)
    ensures ReadTok(Bytes(t) + rest) == Good(t, rest)
  {
    match t
    case Gc(sub, imms) => GcBack(sub, imms, rest);
    case BrTable(ds, d) => TableBack(ds, d, rest);
    case Try(bt, cs) => TryBack(bt, cs, rest);
  }

  lemma {:induction false} GcBack(sub: nat, imms: seq<nat>, rest: seq<Byte>)
    requires GcArity(sub) == |imms|
    ensures ReadTok(Bytes(Gc(sub, imms)) + rest) == Good(Gc(sub, imms), rest)
  {
    After(0xfb, Uleb(sub) + Ulebs(imms), rest);
    GcReads(sub, imms, rest);
    ReadsByOpcode(Bytes(Gc(sub, imms)) + rest);
  }

  lemma {:induction false} TableBack(ds: seq<nat>, d: nat, rest: seq<Byte>)
    ensures ReadTok(Bytes(BrTable(ds, d)) + rest) == Good(BrTable(ds, d), rest)
  {
    After(0x0e, Uleb(|ds|) + (Ulebs(ds) + Uleb(d)), rest);
    TableReads(ds, d, rest);
    ReadsByOpcode(Bytes(BrTable(ds, d)) + rest);
  }

  lemma {:induction false} TryBack(bt: int, cs: seq<Catch>, rest: seq<Byte>)
    requires forall i | 0 <= i < |cs| :: ValidCatch(cs[i])
    ensures ReadTok(Bytes(Try(bt, cs)) + rest) == Good(Try(bt, cs), rest)
  {
    After(0x1f, Sleb(bt) + (Uleb(|cs|) + CatchesBytes(cs)), rest);
    TryReads(bt, cs, rest);
    ReadsByOpcode(Bytes(Try(bt, cs)) + rest);
  }

  lemma {:induction false} ReadsByOpcode(bs: seq<Byte>)
    requires bs != []
    ensures bs[0] == 0xfb ==> ReadTok(bs) == ReadGc(bs[1..])
    ensures bs[0] == 0x0e ==> ReadTok(bs) == ReadTable(bs[1..])
    ensures bs[0] == 0x1f ==> ReadTok(bs) == ReadTry(bs[1..])
  {
  }

  lemma {:induction false} AllRead(ts: seq<Tok>, rest: seq<Byte>)
    requires AllValid(ts)
    ensures ReadAll(AllBytes(ts) + rest, |ts|) == Good(ts, rest)
    decreases |ts|
  {
    if ts == [] {
      assert AllBytes(ts) + rest == rest;
    } else {
      var more := AllBytes(ts[1..]) + rest;
      Assoc(Bytes(ts[0]), AllBytes(ts[1..]), rest);
      TokReads(ts[0], more);
      AllRead(ts[1..], rest);
      assert [ts[0]] + ts[1..] == ts;
    }
  }

  lemma {:induction false} BytesApp(a: seq<Tok>, b: seq<Tok>)
    requires AllValid(a) && AllValid(b)
    ensures AllValid(a + b) && AllBytes(a + b) == AllBytes(a) + AllBytes(b)
    decreases |a|
  {
    if a == [] {
      assert a + b == b;
    } else {
      assert (a + b)[1..] == a[1..] + b && (a + b)[0] == a[0];
      BytesApp(a[1..], b);
      Assoc(Bytes(a[0]), AllBytes(a[1..]), AllBytes(b));
    }
  }
}
