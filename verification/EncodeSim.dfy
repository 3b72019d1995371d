/** The encoding of Encode is faithful: it decodes, and it runs as the text does. */
module EncodeSim {
  import opened Options
  import opened Leb
  import opened Tokens
  import opened Encode

  // ----- decoding -----

  predicate Ends(rest: seq<Tok>) { rest == [] || rest[0].End? || rest[0].Else? }

  lemma {:induction false} TokAssoc(a: seq<Tok>, b: seq<Tok>, c: seq<Tok>)
    ensures (a + b) + c == a + (b + c)
  {
  }

  lemma {:induction false} TokAfter(t: Tok, rest: seq<Tok>)
    ensures ([t] + rest)[0] == t && ([t] + rest)[1..] == rest
  {
  }

  lemma {:induction false} DecodeFlat(c: Code, rest: seq<Tok>)
    requires Sound(c) && Ends(rest)
    ensures Decode(Flat(c) + rest) == Got(c, rest)
    decreases c, 0
  {
    match c
    case CNil => assert Flat(c) + rest == rest;
    case CCons(i, more) =>
      DecodeFlat(more, rest);
      TokAssoc(FlatAt(i), Flat(more), rest);
      DecodeAt(i, more, rest);
  }

  lemma {:induction false} DecodeAt(i: Instr, more: Code, rest: seq<Tok>)
    requires SoundAt(i) && Decode(Flat(more) + rest) == Got(more, rest)
    ensures Decode(FlatAt(i) + (Flat(more) + rest)) == Got(CCons(i, more), rest)
    decreases i, 2
  {
    match i
    case Basic(t) => DecodeBasic(i, more, rest);
    case Blk(bt, body) => DecodeBody(i, Block(bt), body, more, rest);
    case Lp(bt, body) => DecodeBody(i, Loop(bt), body, more, rest);
    case Tr(bt, cs, body) => DecodeBody(i, Try(bt, cs), body, more, rest);
    case Iff(bt, thn, els) =>
      if els.Some? { DecodeElse(i, more, rest); } else { DecodeBody(i, If(bt), thn, more, rest); }
  }

  lemma {:induction false} DecodeBasic(i: Instr, more: Code, rest: seq<Tok>)
    requires i.Basic? && SoundAt(i) && Decode(Flat(more) + rest) == Got(more, rest)
    ensures Decode(FlatAt(i) + (Flat(more) + rest)) == Got(CCons(i, more), rest)
  {
    var tail := Flat(more) + rest;
    TokAfter(i.tok, tail);
    BasicReads([i.tok] + tail, i.tok, more, rest);
  }

  lemma {:induction false} DecodeBody(i: Instr, t: Tok, body: Code, more: Code, rest: seq<Tok>)
    requires Sound(body) && Decode(Flat(more) + rest) == Got(more, rest)
    requires t.Block? || t.Loop? || t.Try? || t.If?
    requires FlatAt(i) == [t] + Flat(body) + [End] && i == Construct(t, body)
    ensures Decode(FlatAt(i) + (Flat(more) + rest)) == Got(CCons(i, more), rest)
    decreases body, 1
  {
    var tail := Flat(more) + rest;
    TokAssoc([t] + Flat(body), [End], tail);
    TokAssoc([t], Flat(body), [End] + tail);
    TokAfter(t, Flat(body) + ([End] + tail));
    TokAfter(End, tail);
    DecodeFlat(body, [End] + tail);
    BodyReads([t] + (Flat(body) + ([End] + tail)), t, body, [End] + tail, more, rest);
  }

  lemma {:induction false} BodyReads(ts: seq<Tok>, t: Tok, body: Code, ends: seq<Tok>, more: Code, rest: seq<Tok>)
    requires ts != [] && ts[0] == t && (t.Block? || t.Loop? || t.Try? || t.If?) && Decode(ts[1..]) == Got(body, ends)
    requires ends != [] && ends[0] == End && Decode(ends[1..]) == Got(more, rest)
    ensures Decode(ts) == Got(CCons(Construct(t, body), more), rest)
  {
  }

  lemma {:induction false} BasicReads(ts: seq<Tok>, t: Tok, more: Code, rest: seq<Tok>)
    requires ts != [] && ts[0] == t && Straight(t) && Decode(ts[1..]) == Got(more, rest)
    ensures Decode(ts) == Got(CCons(Basic(t), more), rest)
  {
  }

  lemma {:induction false} DecodeElse(i: Instr, more: Code, rest: seq<Tok>)
    requires i.Iff? && i.els.Some? && SoundAt(i) && Decode(Flat(more) + rest) == Got(more, rest)
    ensures Decode(FlatAt(i) + (Flat(more) + rest)) == Got(CCons(i, more), rest)
    decreases i, 1
  {
    var bt, thn, els := i.bt, i.thn, i.els.value;
    var tail := Flat(more) + rest;
    var ends := [End] + tail;
    var mid := [Else] + (Flat(els) + ends);
    TokAssoc([If(bt)] + Flat(thn), [Else] + Flat(els) + [End], tail);
    TokAssoc([Else] + Flat(els), [End], tail);
    TokAssoc([Else], Flat(els), ends);
    TokAssoc([If(bt)], Flat(thn), mid);
    TokAfter(If(bt), Flat(thn) + mid);
    TokAfter(Else, Flat(els) + ends);
    TokAfter(End, tail);
    DecodeFlat(thn, mid);
    DecodeFlat(els, ends);
    IfReads([If(bt)] + (Flat(thn) + mid), bt, thn, mid, els, ends, more, rest);
  }

  lemma {:induction false} IfReads(ts: seq<Tok>, bt: int, thn: Code, mid: seq<Tok>, els: Code, ends: seq<Tok>,
        more: Code, rest: seq<Tok>)
    requires ts != [] && ts[0] == If(bt) && Decode(ts[1..]) == Got(thn, mid)
    requires mid != [] && mid[0] == Else && Decode(mid[1..]) == Got(els, ends)
    requires ends != [] && ends[0] == End && Decode(ends[1..]) == Got(more, rest)
    ensures Decode(ts) == Got(CCons(Iff(bt, thn, Some(els)), more), rest)
  {
  }

  // ----- the lowered code is sound -----

  lemma {:induction false} SoundApp(a: Code, b: Code)
    ensures Sound(App(a, b)) <==> Sound(a) && Sound(b)
    decreases a
  {
    if a.CCons? { SoundApp(a.rest, b); }
  }

  lemma {:induction false} SoundOne(t: Tok)
    ensures Sound(One(t)) <==> Straight(t) && Valid(t)
  {
  }

  lemma {:induction false} LowerSound(ns: Nodes, sc: Scope)
    requires Scoped(ns, sc)
    ensures Sound(Lower(ns, sc))
    decreases ns, 0
  {
    if ns.Cons? {
      LowerAtSound(ns.hd, sc);
      LowerSound(ns.tl, sc);
      SoundApp(LowerAt(ns.hd, sc), Lower(ns.tl, sc));
    }
  }

  lemma {:induction false} LowerBodySound(ns: Nodes, sc: Scope)
    requires Scoped(ns, sc)
    ensures Sound(LowerBody(ns, sc))
    decreases ns, 1
  {
    LowerSound(ns, sc);
    SoundOne(Zero(0x00));
    SoundApp(Lower(ns, sc), if LastUnreachable(ns) then One(Zero(0x00)) else CNil);
  }

  lemma {:induction false} OperandsSound(ops: Code, t: Tok)
    requires Sound(ops) && Straight(t) && Valid(t)
    ensures Sound(App(ops, One(t)))
  {
    SoundOne(t);
    SoundApp(ops, One(t));
  }

  lemma {:induction false} LowerAtSound(n: Node, sc: Scope)
    requires ScopedAt(n, sc)
    ensures Sound(LowerAt(n, sc))
    decreases n
  {
    match n
    case Plain(_, t, operands) =>
      LowerSound(operands, sc);
      OperandsSound(Lower(operands, sc), t);
    case BrTo(_, l, operands) =>
      LowerSound(operands, sc);
      OperandsSound(Lower(operands, sc), Br(Resolve(sc, l)));
    case BrIfTo(l, operands) =>
      LowerSound(operands, sc);
      OperandsSound(Lower(operands, sc), BrIf(Resolve(sc, l)));
    case Table(ls, default, operands) =>
      LowerSound(operands, sc);
      OperandsSound(Lower(operands, sc), BrTable(ResolveAll(sc, ls), Resolve(sc, default)));
    case BlockOf(name, bt, body) => LowerBodySound(body, sc + [name]);
    case LoopOf(name, bt, body) => LowerBodySound(body, sc + [name]);
    case IfOf(name, bt, cond, thn, els) =>
      LowerSound(cond, sc);
      LowerBodySound(thn, sc + [name]);
      if els.Some? { LowerBodySound(els.value, sc + [name]); }
      var e := if els.Some? then Some(LowerBody(els.value, sc + [name])) else None;
      SoundApp(Lower(cond, sc), CCons(Iff(bt, LowerBody(thn, sc + [name]), e), CNil));
    case TryOf(name, bt, clauses, body) => LowerBodySound(body, sc + [name]);
  }

  // ----- meaning -----

  lemma {:induction false} RunApp(w: World, a: Code, b: Code, st: St, f: nat)
    ensures Run(w, App(a, b), st, f)
            == var r := Run(w, a, st, f); if r.out.Falls? then Run(w, b, r.st, f) else r
    decreases a
  {
    if a.CCons? {
      var r := RunAt(w, a.i, st, f);
      if r.out.Falls? { RunApp(w, a.rest, b, r.st, f); }
    }
  }

  lemma {:induction false} RunOne(w: World, i: Instr, st: St, f: nat)
    ensures Run(w, CCons(i, CNil), st, f) == RunAt(w, i, st, f)
  {
  }

  predicate VisibleOut(sc: Scope, r: Result) { r.out.Jump? ==> Visible(sc, r.out.l) }

  function Mapped(sc: Scope, r: Result): Result
    requires VisibleOut(sc, r)
  {
    if r.out.Jump? then r.(out := Jump(Depth(Resolve(sc, r.out.l)))) else r
  }

  ghost predicate Same(sc: Scope, r: Result, t: Result) {
    VisibleOut(sc, r) && t == Mapped(sc, r)
  }

  lemma {:induction false} FindInner(sc: Scope, name: Option<string>, s: string)
    ensures Find(sc + [name], s) == if name == Some(s) then Some(0) else
              match Find(sc, s) { case None => None case Some(d) => Some(d + 1) }
  {
    assert (sc + [name])[..|sc|] == sc;
  }

  /** A named construct and its frame are left alike. */
  lemma {:induction false} CloseSame(sc: Scope, name: Option<string>, r: Result, t: Result)
    requires Same(sc + [name], r, t)
    ensures Same(sc, Close(name, r), Close(None, t))
    ensures Hits(name, r.out) <==> Hits(None, t.out)
  {
    if r.out.Jump? && r.out.l.Name? { FindInner(sc, name, r.out.l.s); }
  }

  lemma {:induction false} HandlerSame(sc: Scope, cs: seq<Clause>, tag: nat)
    requires VisibleAll(sc, Labels(cs))
    ensures var h, h' := Handler(cs, tag), HandlerOf(ResolveClauses(sc, cs), tag);
            if h.None? then h'.None?
            else Visible(sc, h.value.l) && h' == Some(Catch(h.value.kind, h.value.tag, Resolve(sc, h.value.l)))
    decreases |cs|
  {
    if cs != [] {
      assert Labels(cs)[0] == cs[0].l;
      forall i | 0 <= i < |cs[1..]| ensures Visible(sc, Labels(cs[1..])[i]) {
        assert Labels(cs)[i + 1] == Labels(cs[1..])[i];
      }
      HandlerSame(sc, cs[1..], tag);
      assert ResolveClauses(sc, cs)[1..] == ResolveClauses(sc, cs[1..]);
    }
  }

  lemma {:induction false} RescueSame(w: World, sc: Scope, cs: seq<Clause>, r: Result, t: Result)
    requires Same(sc, r, t) && VisibleAll(sc, Labels(cs))
    ensures Same(sc, Rescue(w, cs, r), RescueAt(w, ResolveClauses(sc, cs), t))
  {
    if r.out.Throws? { HandlerSame(sc, cs, r.out.tag); }
  }

  /** flow_unreachable is right: nothing falls through such an instruction. */
  lemma {:induction false} NeverFalls(w: World, n: Node, st: St, f: nat)
    requires FlowUnreachable(n)
    ensures !ExecNode(w, n, st, f).out.Falls?
    decreases f, n, 1
  {
    if n.LoopOf? {
      BodyNeverFalls(w, n.body, st, f);
      var r := Exec(w, n.body, st, f);
      if Hits(n.name, r.out) && f > 0 { NeverFalls(w, n, r.st, f - 1); }
    }
  }

  lemma {:induction false} BodyNeverFalls(w: World, ns: Nodes, st: St, f: nat)
    requires LastUnreachable(ns)
    ensures !Exec(w, ns, st, f).out.Falls?
    decreases f, ns, 0
  {
    if ns.tl.Nil? {
      NeverFalls(w, ns.hd, st, f);
    } else {
      var r := ExecNode(w, ns.hd, st, f);
      if r.out.Falls? { BodyNeverFalls(w, ns.tl, r.st, f); }
    }
  }

  // ----- when the trailing `unreachable` is there -----

  predicate Added(ns: Nodes, sc: Scope)
    requires Scoped(ns, sc)
  {
    LowerBody(ns, sc) == App(Lower(ns, sc), One(Zero(0x00)))
  }

  function LastOf(ns: Nodes): Node
    requires ns.Cons?
  {
    if ns.tl.Nil? then ns.hd else LastOf(ns.tl)
  }

  predicate FlatImmediate(n: Node) { (n.Plain? && !n.folded && !n.tok.Zero?) || (n.BrTo? && !n.folded) }

  lemma {:induction false} AppAdds(c: Code, t: Tok)
    ensures App(c, CNil) == c && App(c, One(t)) != c
    decreases c
  {
    if c.CCons? { AppAdds(c.rest, t); }
  }

  lemma {:induction false} AddedIs(ns: Nodes, sc: Scope)
    requires Scoped(ns, sc)
    ensures Added(ns, sc) <==> LastUnreachable(ns)
  {
    AppAdds(Lower(ns, sc), Zero(0x00));
  }

  lemma {:induction false} LastIs(ns: Nodes, sc: Scope)
    requires ns.Cons? && Scoped(ns, sc)
    ensures LastUnreachable(ns) == FlowUnreachable(LastOf(ns)) && ScopedAt(LastOf(ns), sc)
    ensures EndsInAtom(ns) <==> FlatImmediate(LastOf(ns))
    decreases ns
  {
    if ns.tl.Cons? { LastIs(ns.tl, sc); }
  }

  /** By the last instruction of a body: after unreachable, return, throw_ref, throw,
      return_call, return_call_ref and the two unconditional branches; after a loop when its
      own body has one and does not end in an immediate of a flat instruction; otherwise never. */
  lemma {:induction false} AddedExactly(ns: Nodes, sc: Scope)
    requires ns.Cons? && Scoped(ns, sc)
    ensures ScopedAt(LastOf(ns), sc)
    ensures var n := LastOf(ns);
            && (n.Plain? ==> (Added(ns, sc) <==> (n.tok.Zero? && n.tok.op in {0x00, 0x0f, 0x0a})
                                                 || (n.tok.Idx? && n.tok.op in {0x08, 0x12, 0x15})))
            && (n.BrTo? || n.Table? ==> Added(ns, sc))
            && (n.LoopOf? ==> (Added(ns, sc) <==> n.body.Cons? && Added(n.body, sc + [n.name])
                                                  && !FlatImmediate(LastOf(n.body))))
            && (!n.Plain? && !n.BrTo? && !n.Table? && !n.LoopOf? ==> !Added(ns, sc))
  {
    AddedIs(ns, sc);
    LastIs(ns, sc);
    var n := LastOf(ns);
    if n.LoopOf? {
      AddedIs(n.body, sc + [n.name]);
      if n.body.Cons? { LastIs(n.body, sc + [n.name]); }
    }
  }

  lemma {:induction false} RunSame(w: World, ns: Nodes, sc: Scope, st: St, f: nat)
    requires Scoped(ns, sc)
    ensures Same(sc, Exec(w, ns, st, f), Run(w, Lower(ns, sc), st, f))
    decreases f, ns, 1
  {
    if ns.Cons? {
      NodeSame(w, ns.hd, sc, st, f);
      RunApp(w, LowerAt(ns.hd, sc), Lower(ns.tl, sc), st, f);
      var r := ExecNode(w, ns.hd, st, f);
      if r.out.Falls? { RunSame(w, ns.tl, sc, r.st, f); }
    }
  }

  /** The added `unreachable` is never reached. */
  lemma {:induction false} BodySame(w: World, ns: Nodes, sc: Scope, st: St, f: nat)
    requires Scoped(ns, sc)
    ensures Same(sc, Exec(w, ns, st, f), Run(w, LowerBody(ns, sc), st, f))
    decreases f, ns, 2
  {
    RunSame(w, ns, sc, st, f);
    var extra := if LastUnreachable(ns) then One(Zero(0x00)) else CNil;
    RunApp(w, Lower(ns, sc), extra, st, f);
    if LastUnreachable(ns) { BodyNeverFalls(w, ns, st, f); }
  }

  lemma {:induction false} NodeSame(w: World, n: Node, sc: Scope, st: St, f: nat)
    requires ScopedAt(n, sc)
    ensures Same(sc, ExecNode(w, n, st, f), Run(w, LowerAt(n, sc), st, f))
    decreases f, n, 1
  {
    match n
    case Plain(_, t, operands) => OperandsSame(w, operands, sc, t, st, f);
    case BrTo(_, l, operands) => OperandsSame(w, operands, sc, Br(Resolve(sc, l)), st, f);
    case BrIfTo(l, operands) => OperandsSame(w, operands, sc, BrIf(Resolve(sc, l)), st, f);
    case Table(ls, default, operands) =>
      OperandsSame(w, operands, sc, BrTable(ResolveAll(sc, ls), Resolve(sc, default)), st, f);
      var c := w.pop(Exec(w, operands, st, f).st).0;
      if c < |ls| { assert Visible(sc, ls[c]); }
    case BlockOf(name, bt, body) =>
      BodySame(w, body, sc + [name], st, f);
      CloseSame(sc, name, Exec(w, body, st, f), Run(w, LowerBody(body, sc + [name]), st, f));
      RunOne(w, Blk(bt, LowerBody(body, sc + [name])), st, f);
    case LoopOf(_, _, _) => LoopSame(w, n, sc, st, f);
    case IfOf(_, _, _, _, _) => IfSame(w, n, sc, st, f);
    case TryOf(name, bt, clauses, body) =>
      BodySame(w, body, sc + [name], st, f);
      CloseSame(sc, name, Exec(w, body, st, f), Run(w, LowerBody(body, sc + [name]), st, f));
      RescueSame(w, sc, clauses, Close(name, Exec(w, body, st, f)),
        Close(None, Run(w, LowerBody(body, sc + [name]), st, f)));
      RunOne(w, Tr(bt, ResolveClauses(sc, clauses), LowerBody(body, sc + [name])), st, f);
  }

  /** Operands, then the instruction: what the two sides do up to there. */
  lemma {:induction false} OperandsSame(w: World, operands: Nodes, sc: Scope, t: Tok, st: St, f: nat)
    requires Scoped(operands, sc)
    ensures var r, all := Exec(w, operands, st, f), Run(w, App(Lower(operands, sc), One(t)), st, f);
            if r.out.Falls? then all == RunAt(w, Basic(t), r.st, f) else Same(sc, r, all)
    decreases f, operands, 3
  {
    RunSame(w, operands, sc, st, f);
    RunApp(w, Lower(operands, sc), One(t), st, f);
    RunOne(w, Basic(t), Exec(w, operands, st, f).st, f);
  }

  lemma {:induction false} LoopSame(w: World, n: Node, sc: Scope, st: St, f: nat)
    requires n.LoopOf? && ScopedAt(n, sc)
    ensures Same(sc, ExecNode(w, n, st, f), Run(w, LowerAt(n, sc), st, f))
    decreases f, n.body, 4
  {
    var body := LowerBody(n.body, sc + [n.name]);
    BodySame(w, n.body, sc + [n.name], st, f);
    var r, t := Exec(w, n.body, st, f), Run(w, body, st, f);
    CloseSame(sc, n.name, r, t);
    RunOne(w, Lp(n.bt, body), st, f);
    if Hits(n.name, r.out) && f > 0 {
      LoopSame(w, n, sc, r.st, f - 1);
      RunOne(w, Lp(n.bt, body), r.st, f - 1);
    }
  }

  lemma {:induction false} IfSame(w: World, n: Node, sc: Scope, st: St, f: nat)
    requires n.IfOf? && ScopedAt(n, sc)
    ensures Same(sc, ExecNode(w, n, st, f), Run(w, LowerAt(n, sc), st, f))
    decreases f, n, 0
  {
    var inner := sc + [n.name];
    var e := if n.els.Some? then Some(LowerBody(n.els.value, inner)) else None;
    var i := Iff(n.bt, LowerBody(n.thn, inner), e);
    RunSame(w, n.cond, sc, st, f);
    RunApp(w, Lower(n.cond, sc), CCons(i, CNil), st, f);
    var r := Exec(w, n.cond, st, f);
    if r.out.Falls? {
      RunOne(w, i, r.st, f);
      var (c, st') := w.pop(r.st);
      if c != 0 {
        BodySame(w, n.thn, inner, st', f);
        CloseSame(sc, n.name, Exec(w, n.thn, st', f), Run(w, LowerBody(n.thn, inner), st', f));
      } else if n.els.Some? {
        BodySame(w, n.els.value, inner, st', f);
        CloseSame(sc, n.name, Exec(w, n.els.value, st', f), Run(w, e.value, st', f));
      }
    }
  }
}
