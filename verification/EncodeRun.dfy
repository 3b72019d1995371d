module EncodeRun {
  // The encoder at work: a label stack and a growing byte buffer (src/wat2wasm.c, encode_instr,
  // encode_seq, encode_block_body, resolve_label).

  import opened Options
  import opened Leb
  import opened Tokens
  import opened Encode
  import opened EncodeSim

  // ----- the bytes of a piece of code -----

  lemma {:induction false} FlatValid(c: Code)
    requires Sound(c)
    ensures AllValid(Flat(c))
    decreases c
  {
    if c.CCons? {
      FlatAtValid(c.i);
      FlatValid(c.rest);
    }
  }

  lemma {:induction false} FlatAtValid(i: Instr)
    requires SoundAt(i)
    ensures AllValid(FlatAt(i))
    decreases i
  {
    match i
    case Basic(t) =>
    case Blk(bt, body) => FlatValid(body);
    case Lp(bt, body) => FlatValid(body);
    case Tr(bt, cs, body) => FlatValid(body);
    case Iff(bt, thn, els) =>
      FlatValid(thn);
      if els.Some? { FlatValid(els.value); }
  }

  function CodeBytes(c: Code): seq<Byte>
    requires Sound(c)
  {
    FlatValid(c);
    AllBytes(Flat(c))
  }

  lemma {:induction false} FlatApp(a: Code, b: Code)
    ensures Flat(App(a, b)) == Flat(a) + Flat(b)
    decreases a
  {
    if a.CCons? {
      FlatApp(a.rest, b);
      TokAssoc(FlatAt(a.i), Flat(a.rest), Flat(b));
    }
  }

  lemma {:induction false} BytesOfApp(a: Code, b: Code)
    requires Sound(a) && Sound(b)
    ensures Sound(App(a, b)) && CodeBytes(App(a, b)) == CodeBytes(a) + CodeBytes(b)
  {
    SoundApp(a, b);
    FlatApp(a, b);
    FlatValid(a);
    FlatValid(b);
    BytesApp(Flat(a), Flat(b));
  }

  lemma {:induction false} BytesOfTok(t: Tok)
    requires Valid(t)
    ensures AllBytes([t]) == Bytes(t)
  {
    assert AllBytes([t]) == Bytes(t) + AllBytes([]);
  }

  lemma {:induction false} BytesOfOne(t: Tok)
    requires Valid(t) && Straight(t)
    ensures Sound(One(t)) && CodeBytes(One(t)) == Bytes(t)
  {
    assert Flat(One(t)) == [t];
    BytesOfTok(t);
  }

  /** Opening, body, end. */
  lemma {:induction false} BytesOfConstruct(t: Tok, body: Code)
    requires Valid(t) && (t.Block? || t.Loop? || t.Try? || t.If?) && Sound(body)
    ensures var c := CCons(Construct(t, body), CNil);
            Sound(c) && CodeBytes(c) == Bytes(t) + CodeBytes(body) + Bytes(End)
  {
    FlatValid(body);
    BytesOfTok(t);
    BytesOfTok(End);
    BytesApp([t], Flat(body));
    BytesApp([t] + Flat(body), [End]);
    assert Flat(CCons(Construct(t, body), CNil)) == [t] + Flat(body) + [End];
  }

  lemma {:induction false} BytesOfElse(bt: int, thn: Code, els: Code)
    requires Sound(thn) && Sound(els)
    ensures var c := CCons(Iff(bt, thn, Some(els)), CNil);
            Sound(c) && CodeBytes(c) == Bytes(If(bt)) + CodeBytes(thn) + (Bytes(Else) + CodeBytes(els) + Bytes(End))
  {
    FlatValid(thn);
    FlatValid(els);
    BytesOfTok(If(bt));
    BytesOfTok(Else);
    BytesOfTok(End);
    BytesApp([If(bt)], Flat(thn));
    BytesApp([Else], Flat(els));
    BytesApp([Else] + Flat(els), [End]);
    BytesApp([If(bt)] + Flat(thn), [Else] + Flat(els) + [End]);
    assert Flat(CCons(Iff(bt, thn, Some(els)), CNil)) == [If(bt)] + Flat(thn) + ([Else] + Flat(els) + [End]);
  }

  lemma {:induction false} Joined(was: seq<Byte>, op: Byte, a: seq<Byte>, b: seq<Byte>, c: seq<Byte>)
    ensures was + ([op] + a) + b + c == was + ([op] + (a + (b + c)))
  {
    Assoc(was + ([op] + a), b, c);
    Assoc(was, [op] + a, b + c);
    Assoc([op], a, b + c);
  }

  lemma {:induction false} ElseJoined(was: seq<Byte>, a: seq<Byte>, b: seq<Byte>, c: seq<Byte>, d: seq<Byte>,
        e: seq<Byte>)
    ensures was + a + b + c + d + e == was + (a + b + (c + d + e))
  {
    Assoc(was, a, b);
    Assoc(was + (a + b) + c, d, e);
    Assoc(was + (a + b), c, d + e);
    Assoc(c, d, e);
    Assoc(was, a + b, c + d + e);
  }

  lemma {:induction false} CatchWritten(was: seq<Byte>, c: Catch, now: seq<Byte>)
    requires ValidCatch(c)
    requires now == (if c.kind <= 1 then was + [c.kind] + Uleb(c.tag) else was + [c.kind]) + Uleb(c.depth)
    ensures now == was + CatchBytes(c)
  {
    if c.kind <= 1 {
      Assoc(was, [c.kind], Uleb(c.tag));
      Assoc(was, [c.kind] + Uleb(c.tag), Uleb(c.depth));
    } else {
      assert [c.kind] + [] == [c.kind];
      Assoc(was, [c.kind], Uleb(c.depth));
    }
  }

  // ----- the encoder -----

  class Encoder {
    const out: Buf
    var labels: Scope

    constructor ()
      ensures labels == [] && fresh(out) && out.data == []
    {
      out := new Buf();
      labels := [];
    }

    /** resolve_label: from the innermost frame outwards. */
    method ResolveLabel(l: Label) returns (d: nat)
      requires Visible(labels, l)
      ensures d == Resolve(labels, l)
    {
      match l
      case Depth(n) => d := n;
      case Name(s) =>
        var i := |labels|;
        assert labels[..i] == labels;
        while i > 0
          invariant 0 <= i <= |labels| && Find(labels[..i], s).Some?
          invariant Find(labels, s).value == Find(labels[..i], s).value + (|labels| - i)
          invariant Find(labels, s).Some?
        {
          if labels[i - 1] == Some(s) { return |labels| - i; }
          assert labels[..i][..i - 1] == labels[..i - 1];
          i := i - 1;
        }
    }

    method PutUlebs(vs: seq<nat>)
      modifies out
      ensures out.data == old(out.data) + Ulebs(vs)
    {
      var i := 0;
      while i < |vs|
        invariant 0 <= i <= |vs| && out.data + Ulebs(vs[i..]) == old(out.data) + Ulebs(vs)
      {
        Assoc(out.data, Uleb(vs[i]), Ulebs(vs[i + 1..]));
        assert vs[i..][1..] == vs[i + 1..];
        out.PutUleb(vs[i]);
        i := i + 1;
      }
      assert vs[i..] == [] && out.data + [] == out.data;
    }

    method PutCatches(cs: seq<Catch>)
      requires forall i | 0 <= i < |cs| :: ValidCatch(cs[i])
      modifies out
      ensures out.data == old(out.data) + CatchesBytes(cs)
    {
      var i := 0;
      while i < |cs|
        invariant 0 <= i <= |cs| && out.data + CatchesBytes(cs[i..]) == old(out.data) + CatchesBytes(cs)
      {
        ghost var was := out.data;
        assert cs[i..][1..] == cs[i + 1..];
        out.PutByte(cs[i].kind);
        if cs[i].kind <= 1 { out.PutUleb(cs[i].tag); }
        out.PutUleb(cs[i].depth);
        CatchWritten(was, cs[i], out.data);
        Assoc(was, CatchBytes(cs[i]), CatchesBytes(cs[i + 1..]));
        i := i + 1;
      }
      assert cs[i..] == [] && out.data + [] == out.data;
    }

    method PutTok(t: Tok)
      requires Valid(t)
      modifies out
      ensures out.data == old(out.data) + Bytes(t)
    {
      ghost var was := out.data;
      match t
      case Zero(op) => out.PutByte(op);
      case Else => out.PutByte(0x05);
      case End => out.PutByte(0x0b);
      case Idx(op, imm) => PutOpU(op, imm);
      case Br(d) => PutOpU(0x0c, d);
      case BrIf(d) => PutOpU(0x0d, d);
      case ConstOp(op, v) => PutOpS(op, v);
      case Block(bt) => PutOpS(0x02, bt);
      case Loop(bt) => PutOpS(0x03, bt);
      case If(bt) => PutOpS(0x04, bt);
      case Gc(sub, imms) =>
        PutOpU(0xfb, sub);
        PutUlebs(imms);
        Assoc(was, [0xfb] + Uleb(sub), Ulebs(imms));
        Assoc([0xfb], Uleb(sub), Ulebs(imms));
      case BrTable(ds, d) =>
        PutOpU(0x0e, |ds|);
        PutUlebs(ds);
        out.PutUleb(d);
        Joined(was, 0x0e, Uleb(|ds|), Ulebs(ds), Uleb(d));
      case Try(bt, cs) =>
        PutOpS(0x1f, bt);
        out.PutUleb(|cs|);
        PutCatches(cs);
        Joined(was, 0x1f, Sleb(bt), Uleb(|cs|), CatchesBytes(cs));
    }

    method PutOpU(op: Byte, v: nat)
      modifies out
      ensures out.data == old(out.data) + ([op] + Uleb(v))
    {
      Assoc(out.data, [op], Uleb(v));
      out.PutByte(op);
      out.PutUleb(v);
    }

    method PutOpS(op: Byte, v: int)
      modifies out
      ensures out.data == old(out.data) + ([op] + Sleb(v))
    {
      Assoc(out.data, [op], Sleb(v));
      out.PutByte(op);
      out.PutSleb(v);
    }

    /** encode_seq. */
    method EncodeSeq(ns: Nodes)
      requires Scoped(ns, labels)
      modifies this, out
      ensures labels == old(labels) && Sound(Lower(ns, labels))
      ensures out.data == old(out.data) + CodeBytes(Lower(ns, labels))
      decreases ns, 0
    {
      if ns.Nil? {
        assert out.data + [] == out.data;
        return;
      }
      ghost var was := out.data;
      EncodeInstr(ns.hd);
      EncodeSeq(ns.tl);
      BytesOfApp(LowerAt(ns.hd, labels), Lower(ns.tl, labels));
      Assoc(was, CodeBytes(LowerAt(ns.hd, labels)), CodeBytes(Lower(ns.tl, labels)));
    }

    /** encode_block_body. */
    method EncodeBody(ns: Nodes)
      requires Scoped(ns, labels)
      modifies this, out
      ensures labels == old(labels) && Sound(LowerBody(ns, labels))
      ensures out.data == old(out.data) + CodeBytes(LowerBody(ns, labels))
      decreases ns, 1
    {
      ghost var was := out.data;
      EncodeSeq(ns);
      if LastUnreachable(ns) {
        out.PutByte(0x00);
        BytesOfOne(Zero(0x00));
        BytesOfApp(Lower(ns, labels), One(Zero(0x00)));
        Assoc(was, CodeBytes(Lower(ns, labels)), [0x00]);
      } else {
        BytesOfApp(Lower(ns, labels), CNil);
        assert CodeBytes(Lower(ns, labels)) + [] == CodeBytes(Lower(ns, labels));
      }
    }

    /** Operands, then an instruction without a body. */
    method EncodeFolded(operands: Nodes, t: Tok)
      requires Scoped(operands, labels) && Straight(t) && Valid(t)
      modifies this, out
      ensures labels == old(labels) && Sound(App(Lower(operands, labels), One(t)))
      ensures out.data == old(out.data) + CodeBytes(App(Lower(operands, labels), One(t)))
      decreases operands, 2
    {
      ghost var was := out.data;
      EncodeSeq(operands);
      PutTok(t);
      BytesOfOne(t);
      BytesOfApp(Lower(operands, labels), One(t));
      Assoc(was, CodeBytes(Lower(operands, labels)), Bytes(t));
    }

    /** An opening, a body under one more label, an end. */
    method EncodeConstruct(t: Tok, name: Option<string>, body: Nodes)
      requires Valid(t) && (t.Block? || t.Loop? || t.Try?) && Scoped(body, labels + [name])
      modifies this, out
      ensures labels == old(labels) && Sound(CCons(Construct(t, LowerBody(body, labels + [name])), CNil))
      ensures out.data == old(out.data) + CodeBytes(CCons(Construct(t, LowerBody(body, labels + [name])), CNil))
      decreases body, 2
    {
      ghost var was := out.data;
      PutTok(t);
      labels := labels + [name];
      EncodeBody(body);
      ghost var c := LowerBody(body, labels);
      labels := labels[..|labels| - 1];
      PutTok(End);
      BytesOfConstruct(t, c);
      Assoc(was, Bytes(t), CodeBytes(c));
      Assoc(was, Bytes(t) + CodeBytes(c), Bytes(End));
    }

    method EncodeInstr(n: Node)
      requires ScopedAt(n, labels)
      modifies this, out
      ensures labels == old(labels) && Sound(LowerAt(n, labels))
      ensures out.data == old(out.data) + CodeBytes(LowerAt(n, labels))
      decreases n, 1
    {
      match n
      case Plain(_, t, operands) => EncodeFolded(operands, t);
      case BrTo(_, l, operands) =>
        var d := ResolveLabel(l);
        EncodeFolded(operands, Br(d));
      case BrIfTo(l, operands) =>
        var d := ResolveLabel(l);
        EncodeFolded(operands, BrIf(d));
      case Table(ls, default, operands) =>
        var ds := ResolveLabels(ls);
        var d := ResolveLabel(default);
        EncodeFolded(operands, BrTable(ds, d));
      case BlockOf(name, bt, body) => EncodeConstruct(Block(bt), name, body);
      case LoopOf(name, bt, body) => EncodeConstruct(Loop(bt), name, body);
      case TryOf(name, bt, clauses, body) =>
        var cs := ResolveCatches(clauses);
        EncodeConstruct(Try(bt, cs), name, body);
      case IfOf(_, _, _, _, _) => EncodeIf(n);
    }

    method ResolveLabels(ls: seq<Label>) returns (ds: seq<nat>)
      requires VisibleAll(labels, ls)
      ensures ds == ResolveAll(labels, ls)
    {
      ds := [];
      var i := 0;
      while i < |ls|
        invariant 0 <= i <= |ls| && |ds| == i && forall j | 0 <= j < i :: ds[j] == Resolve(labels, ls[j])
      {
        var d := ResolveLabel(ls[i]);
        ds := ds + [d];
        i := i + 1;
      }
    }

    method ResolveCatches(cs: seq<Clause>) returns (out: seq<Catch>)
      requires VisibleAll(labels, Labels(cs))
      ensures out == ResolveClauses(labels, cs)
    {
      out := [];
      var i := 0;
      while i < |cs|
        invariant 0 <= i <= |cs| && |out| == i
        invariant forall j | 0 <= j < i :: out[j] == ResolveClauses(labels, cs)[j]
      {
        assert Visible(labels, Labels(cs)[i]) && Labels(cs)[i] == cs[i].l;
        var d := ResolveLabel(cs[i].l);
        out := out + [Catch(cs[i].kind, cs[i].tag, d)];
        i := i + 1;
      }
    }

    /** A folded if: the condition first, outside the if's own label. */
    method EncodeIf(n: Node)
      requires n.IfOf? && ScopedAt(n, labels)
      modifies this, out
      ensures labels == old(labels) && Sound(LowerAt(n, labels))
      ensures out.data == old(out.data) + CodeBytes(LowerAt(n, labels))
      decreases n, 0
    {
      ghost var was := out.data;
      EncodeSeq(n.cond);
      ghost var mid := out.data;
      ghost var sc := labels;
      PutTok(If(n.bt));
      labels := labels + [n.name];
      EncodeBody(n.thn);
      ghost var t := LowerBody(n.thn, labels);
      ghost var c;
      if n.els.Some? {
        PutTok(Else);
        EncodeBody(n.els.value);
        ghost var e := LowerBody(n.els.value, labels);
        PutTok(End);
        BytesOfElse(n.bt, t, e);
        c := CCons(Iff(n.bt, t, Some(e)), CNil);
        ElseJoined(mid, Bytes(If(n.bt)), CodeBytes(t), Bytes(Else), CodeBytes(e), Bytes(End));
      } else {
        PutTok(End);
        BytesOfConstruct(If(n.bt), t);
        c := CCons(Iff(n.bt, t, None), CNil);
        Assoc(mid, Bytes(If(n.bt)), CodeBytes(t));
        Assoc(mid, Bytes(If(n.bt)) + CodeBytes(t), Bytes(End));
      }
      Assoc(was, CodeBytes(Lower(n.cond, sc)), CodeBytes(c));
      labels := labels[..|labels| - 1];
      BytesOfApp(Lower(n.cond, sc), c);
    }
  }

  /** The bytes of a function body read back as the instructions that were written,
      and these as the structured code they stand for. */
  lemma {:induction false} BodyDecodes(ns: Nodes, rest: seq<Byte>)
    requires Scoped(ns, [])
    ensures var c := LowerBody(ns, []);
            && Sound(c) && AllValid(Flat(c) + [End])
            && ReadAll(CodeBytes(c) + Bytes(End) + rest, |Flat(c)| + 1) == Good(Flat(c) + [End], rest)
            && Decode(Flat(c) + [End]) == Got(c, [End])
  {
    LowerBodySound(ns, []);
    CodeDecodes(LowerBody(ns, []), rest);
  }

  lemma {:induction false} CodeDecodes(c: Code, rest: seq<Byte>)
    requires Sound(c)
    ensures AllValid(Flat(c) + [End])
    ensures ReadAll(CodeBytes(c) + Bytes(End) + rest, |Flat(c)| + 1) == Good(Flat(c) + [End], rest)
    ensures Decode(Flat(c) + [End]) == Got(c, [End])
  {
    EndReads(c, rest);
    DecodeFlat(c, [End]);
  }

  lemma {:induction false} EndReads(c: Code, rest: seq<Byte>)
    requires Sound(c)
    ensures AllValid(Flat(c) + [End])
    ensures ReadAll(CodeBytes(c) + Bytes(End) + rest, |Flat(c)| + 1) == Good(Flat(c) + [End], rest)
  {
    FlatValid(c);
    BytesOfTok(End);
    BytesApp(Flat(c), [End]);
    AllRead(Flat(c) + [End], rest);
  }

  /** That code runs as the text does, whatever single instructions do: operands
      once and in order, a branch to the nearest frame of its name, and the added
      `unreachable` never. */
  lemma {:induction false} BodyMeans(w: World, ns: Nodes, st: St, f: nat)
    requires Scoped(ns, [])
    ensures Run(w, LowerBody(ns, []), st, f) == Exec(w, ns, st, f)
  {
    BodySame(w, ns, [], st, f);
  }

  /** Labels the encoder resolves are the nearest frames of that name. */
  lemma {:induction false} FindNearest(sc: Scope, s: string)
    ensures var d := Find(sc, s);
            && (d.None? <==> Some(s) !in sc)
            && (d.Some? ==> d.value < |sc| && sc[|sc| - 1 - d.value] == Some(s)
                            && forall k | |sc| - 1 - d.value < k < |sc| :: sc[k] != Some(s))
    decreases |sc|
  {
    if sc != [] {
      var k := |sc| - 1;
      assert sc == sc[..k] + [sc[k]];
      FindNearest(sc[..k], s);
    }
  }
}
