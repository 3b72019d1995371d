/** Encoding folded code with named labels (src/wat2wasm.c, encode_instr,
    encode_seq, encode_block_body): what the flat, depth-labelled code does is what
    the text does. */
module Encode {
  import opened Options
  import opened Leb
  import opened Tokens

  // ----- the text -----

  /** A branch label: $name, or a number of frames out. */
  datatype Label = Name(s: string) | Depth(n: nat)

  datatype Clause = Clause(kind: nat, tag: nat, l: Label)

  datatype Nodes = Nil | Cons(hd: Node, tl: Nodes)

  /** folded: written (op ...), not as an opcode and its immediates among the siblings. */
  datatype Node =
    | Plain(folded: bool, tok: Tok, operands: Nodes)
    | BrTo(folded: bool, l: Label, operands: Nodes)
    | BrIfTo(l: Label, operands: Nodes)
    | Table(ls: seq<Label>, default: Label, operands: Nodes)
    | BlockOf(name: Option<string>, bt: int, body: Nodes)
    | LoopOf(name: Option<string>, bt: int, body: Nodes)
    | IfOf(name: Option<string>, bt: int, cond: Nodes, thn: Nodes, els: Option<Nodes>)
    | TryOf(name: Option<string>, bt: int, clauses: seq<Clause>, body: Nodes)

  predicate IsBasic(t: Tok) { t.Zero? || t.Idx? || t.Gc? || t.ConstOp? }

  /** unreachable, return, return_call, return_call_ref, throw, throw_ref. */
  predicate Transfers(t: Tok) {
    (t.Zero? && (t.op == 0x00 || t.op == 0x0f || t.op == 0x0a))
    || (t.Idx? && (t.op == 0x12 || t.op == 0x15 || t.op == 0x08))
  }

  /** flow_unreachable. The last node of a loop written flat is its last immediate, which
      says nothing. */
  predicate FlowUnreachable(n: Node)
    decreases n, 1
  {
    match n
    case Plain(_, t, _) => Transfers(t)
    case BrTo(_, _, _) => true
    case Table(_, _, _) => true
    case LoopOf(_, _, body) => LastUnreachable(body) && !EndsInAtom(body)
    case _ => false
  }

  predicate LastUnreachable(ns: Nodes)
    decreases ns, 0
  {
    ns.Cons? && if ns.tl.Nil? then FlowUnreachable(ns.hd) else LastUnreachable(ns.tl)
  }

  /** Ends in an immediate of a flat instruction. */
  predicate EndsInAtom(ns: Nodes)
    requires ns.Cons?
  {
    if ns.tl.Cons? then EndsInAtom(ns.tl)
    else
      match ns.hd
      case Plain(folded, t, _) => !folded && !t.Zero?
      case BrTo(folded, _, _) => !folded
      case _ => false
  }

  // ----- what the text means -----

  type St = seq<int>

  datatype Eff = Ok(st: St) | Stop(st: St) | Raise(tag: nat, st: St)

  /** What single instructions do to the machine's state: any functions will do. */
  datatype World = World(op: (Tok, St) -> Eff, pop: St -> (nat, St), caught: (nat, nat, St) -> St)

  datatype Outcome = Falls | Jump(l: Label) | Throws(tag: nat) | Stops | Timeout

  datatype Result = Result(out: Outcome, st: St)

  function Do(w: World, t: Tok, st: St): Result {
    match w.op(t, st)
    case Ok(st') => Result(if Transfers(t) then Stops else Falls, st')
    case Stop(st') => Result(Stops, st')
    case Raise(tag, st') => Result(Throws(tag), st')
  }

  predicate Hits(name: Option<string>, out: Outcome) {
    out == Jump(Depth(0)) || (name.Some? && out == Jump(Name(name.value)))
  }

  /** A construct with this label, left by r. */
  function Close(name: Option<string>, r: Result): Result {
    if Hits(name, r.out) then r.(out := Falls)
    else if r.out.Jump? && r.out.l.Depth? && r.out.l.n > 0 then r.(out := Jump(Depth(r.out.l.n - 1)))
    else r
  }

  predicate Catches(kind: nat, ctag: nat, tag: nat) {
    kind >= 2 || ctag == tag
  }

  /** The first clause that takes the exception, if any. */
  function Handler(cs: seq<Clause>, tag: nat): Option<Clause> {
    if cs == [] then None
    else if Catches(cs[0].kind, cs[0].tag, tag) then Some(cs[0])
    else Handler(cs[1..], tag)
  }

  function Exec(w: World, ns: Nodes, st: St, f: nat): Result
    decreases f, ns, 1
  {
    match ns
    case Nil => Result(Falls, st)
    case Cons(n, tl) =>
      var r := ExecNode(w, n, st, f);
      if r.out.Falls? then Exec(w, tl, r.st, f) else r
  }

  /** The name of a label hides the same name further out; a catch clause's label
      is looked for outside its try_table, a condition's outside its if. */
  function ExecNode(w: World, n: Node, st: St, f: nat): Result
    decreases f, n, 0
  {
    match n
    case Plain(_, t, operands) =>
      var r := Exec(w, operands, st, f);
      if r.out.Falls? then Do(w, t, r.st) else r
    case BrTo(_, l, operands) =>
      var r := Exec(w, operands, st, f);
      if r.out.Falls? then r.(out := Jump(l)) else r
    case BrIfTo(l, operands) =>
      var r := Exec(w, operands, st, f);
      if r.out.Falls? then
        var (c, st') := w.pop(r.st);
        Result(if c != 0 then Jump(l) else Falls, st')
      else r
    case Table(ls, default, operands) =>
      var r := Exec(w, operands, st, f);
      if r.out.Falls? then
        var (c, st') := w.pop(r.st);
        Result(Jump(if c < |ls| then ls[c] else default), st')
      else r
    case BlockOf(name, _, body) => Close(name, Exec(w, body, st, f))
    case LoopOf(name, _, body) =>
      var r := Exec(w, body, st, f);
      if !Hits(name, r.out) then Close(name, r)
      else if f == 0 then r.(out := Timeout)
      else ExecNode(w, n, r.st, f - 1)
    case IfOf(name, _, cond, thn, els) =>
      var r := Exec(w, cond, st, f);
      if r.out.Falls? then
        var (c, st') := w.pop(r.st);
        if c != 0 then Close(name, Exec(w, thn, st', f))
        else if els.Some? then Close(name, Exec(w, els.value, st', f))
        else Result(Falls, st')
      else r
    case TryOf(name, _, clauses, body) => Rescue(w, clauses, Close(name, Exec(w, body, st, f)))
  }

  function Rescue(w: World, cs: seq<Clause>, r: Result): Result {
    if !r.out.Throws? then r
    else
      match Handler(cs, r.out.tag)
      case None => r
      case Some(c) => Result(Jump(c.l), w.caught(c.kind, r.out.tag, r.st))
  }

  // ----- the flat code, as a validator reads it -----

  datatype Code = CNil | CCons(i: Instr, rest: Code)

  datatype Instr =
    | Basic(tok: Tok)
    | Blk(bt: int, body: Code)
    | Lp(bt: int, body: Code)
    | Iff(bt: int, thn: Code, els: Option<Code>)
    | Tr(bt: int, catches: seq<Catch>, body: Code)

  function App(a: Code, b: Code): Code {
    match a case CNil => b case CCons(i, rest) => CCons(i, App(rest, b))
  }

  function One(t: Tok): Code { CCons(Basic(t), CNil) }

  function Flat(c: Code): seq<Tok>
    decreases c
  {
    match c case CNil => [] case CCons(i, rest) => FlatAt(i) + Flat(rest)
  }

  function FlatAt(i: Instr): seq<Tok>
    decreases i
  {
    match i
    case Basic(t) => [t]
    case Blk(bt, body) => [Block(bt)] + Flat(body) + [End]
    case Lp(bt, body) => [Loop(bt)] + Flat(body) + [End]
    case Iff(bt, thn, None) => [If(bt)] + Flat(thn) + [End]
    case Iff(bt, thn, Some(els)) => [If(bt)] + Flat(thn) + ([Else] + Flat(els) + [End])
    case Tr(bt, cs, body) => [Try(bt, cs)] + Flat(body) + [End]
  }

  predicate Straight(t: Tok) { IsBasic(t) || t.Br? || t.BrIf? || t.BrTable? }

  predicate Sound(c: Code)
    decreases c
  {
    match c case CNil => true case CCons(i, rest) => SoundAt(i) && Sound(rest)
  }

  predicate SoundAt(i: Instr)
    decreases i
  {
    match i
    case Basic(t) => Straight(t) && Valid(t)
    case Blk(_, body) => Sound(body)
    case Lp(_, body) => Sound(body)
    case Iff(_, thn, els) => Sound(thn) && (els.Some? ==> Sound(els.value))
    case Tr(bt, cs, body) => Valid(Try(bt, cs)) && Sound(body)
  }

  datatype Parsed = Fail | Got(c: Code, rest: seq<Tok>)

  /** Read instructions up to an unmatched end or else, or the end of input. */
  function Decode(ts: seq<Tok>): (p: Parsed)
    ensures p.Got? ==> |p.rest| <= |ts|
    decreases |ts|
  {
    if ts == [] || ts[0].End? || ts[0].Else? then Got(CNil, ts)
    else
      var t, more := ts[0], ts[1..];
      if Straight(t) then Then(Basic(t), Decode(more))
      else
        match Decode(more)
        case Fail => Fail
        case Got(body, rest) =>
          if rest == [] then Fail
          else if t.If? && rest[0].Else? then
            match Decode(rest[1..])
            case Fail => Fail
            case Got(els, rest') =>
              if rest' == [] || !rest'[0].End? then Fail
              else Then(Iff(t.bt, body, Some(els)), Decode(rest'[1..]))
          else if !rest[0].End? then Fail
          else Then(Construct(t, body), Decode(rest[1..]))
  }

  function Then(i: Instr, p: Parsed): Parsed {
    match p case Fail => Fail case Got(c, rest) => Got(CCons(i, c), rest)
  }

  function Construct(t: Tok, body: Code): Instr {
    match t
    case Block(bt) => Blk(bt, body)
    case Loop(bt) => Lp(bt, body)
    case If(bt) => Iff(bt, body, None)
    case Try(bt, cs) => Tr(bt, cs, body)
    case _ => Basic(t)
  }

  // ----- what the flat code means -----

  function HandlerOf(cs: seq<Catch>, tag: nat): Option<Catch> {
    if cs == [] then None
    else if Catches(cs[0].kind, cs[0].tag, tag) then Some(cs[0])
    else HandlerOf(cs[1..], tag)
  }

  function Run(w: World, c: Code, st: St, f: nat): Result
    decreases f, c, 1
  {
    match c
    case CNil => Result(Falls, st)
    case CCons(i, rest) =>
      var r := RunAt(w, i, st, f);
      if r.out.Falls? then Run(w, rest, r.st, f) else r
  }

  function RunAt(w: World, i: Instr, st: St, f: nat): Result
    decreases f, i, 0
  {
    match i
    case Basic(Br(d)) => Result(Jump(Depth(d)), st)
    case Basic(BrIf(d)) =>
      var (c, st') := w.pop(st);
      Result(if c != 0 then Jump(Depth(d)) else Falls, st')
    case Basic(BrTable(ds, d)) =>
      var (c, st') := w.pop(st);
      Result(Jump(Depth(if c < |ds| then ds[c] else d)), st')
    case Basic(t) => Do(w, t, st)
    case Blk(_, body) => Close(None, Run(w, body, st, f))
    case Lp(_, body) =>
      var r := Run(w, body, st, f);
      if !Hits(None, r.out) then Close(None, r)
      else if f == 0 then r.(out := Timeout)
      else RunAt(w, i, r.st, f - 1)
    case Iff(_, thn, els) =>
      var (c, st') := w.pop(st);
      if c != 0 then Close(None, Run(w, thn, st', f))
      else if els.Some? then Close(None, Run(w, els.value, st', f))
      else Result(Falls, st')
    case Tr(_, cs, body) => RescueAt(w, cs, Close(None, Run(w, body, st, f)))
  }

  function RescueAt(w: World, cs: seq<Catch>, r: Result): Result {
    if !r.out.Throws? then r
    else
      match HandlerOf(cs, r.out.tag)
      case None => r
      case Some(c) => Result(Jump(Depth(c.depth)), w.caught(c.kind, r.out.tag, r.st))
  }

  // ----- the encoding -----

  type Scope = seq<Option<string>>

  /** resolve_label: the nearest frame of that name, counted from the inside. */
  function Find(sc: Scope, s: string): Option<nat> {
    if sc == [] then None
    else if sc[|sc| - 1] == Some(s) then Some(0)
    else
      match Find(sc[..|sc| - 1], s)
      case None => None
      case Some(d) => Some(d + 1)
  }

  predicate Visible(sc: Scope, l: Label) { l.Name? ==> Find(sc, l.s).Some? }

  function Resolve(sc: Scope, l: Label): nat
    requires Visible(sc, l)
  {
    match l case Depth(n) => n case Name(s) => Find(sc, s).value
  }

  predicate VisibleAll(sc: Scope, ls: seq<Label>) {
    forall i | 0 <= i < |ls| :: Visible(sc, ls[i])
  }

  function Labels(cs: seq<Clause>): seq<Label> {
    seq(|cs|, i requires 0 <= i < |cs| => cs[i].l)
  }

  /** The text names only labels in scope, and instructions that have a binary form. */
  predicate Scoped(ns: Nodes, sc: Scope)
    decreases ns
  {
    match ns case Nil => true case Cons(n, tl) => ScopedAt(n, sc) && Scoped(tl, sc)
  }

  predicate ScopedAt(n: Node, sc: Scope)
    decreases n
  {
    match n
    case Plain(folded, t, operands) => IsBasic(t) && Valid(t) && Scoped(operands, sc) && (folded || operands.Nil?)
    case BrTo(folded, l, operands) => Visible(sc, l) && Scoped(operands, sc) && (folded || operands.Nil?)
    case BrIfTo(l, operands) => Visible(sc, l) && Scoped(operands, sc)
    case Table(ls, default, operands) => VisibleAll(sc, ls) && Visible(sc, default) && Scoped(operands, sc)
    case BlockOf(name, _, body) => Scoped(body, sc + [name])
    case LoopOf(name, _, body) => Scoped(body, sc + [name])
    case IfOf(name, _, cond, thn, els) =>
      Scoped(cond, sc) && Scoped(thn, sc + [name]) && (els.Some? ==> Scoped(els.value, sc + [name]))
    case TryOf(name, _, clauses, body) =>
      && VisibleAll(sc, Labels(clauses)) && Scoped(body, sc + [name])
      && forall i | 0 <= i < |clauses| :: clauses[i].kind <= 3 && (clauses[i].kind >= 2 ==> clauses[i].tag == 0)
  }

  function ResolveAll(sc: Scope, ls: seq<Label>): (ds: seq<nat>)
    requires VisibleAll(sc, ls)
    ensures |ds| == |ls| && forall i | 0 <= i < |ls| :: ds[i] == Resolve(sc, ls[i])
  {
    seq(|ls|, i requires 0 <= i < |ls| => Resolve(sc, ls[i]))
  }

  function ResolveClauses(sc: Scope, cs: seq<Clause>): (ds: seq<Catch>)
    requires VisibleAll(sc, Labels(cs))
    ensures |ds| == |cs|
    ensures forall i | 0 <= i < |cs| ::
              Visible(sc, Labels(cs)[i]) && ds[i] == Catch(cs[i].kind, cs[i].tag, Resolve(sc, Labels(cs)[i]))
  {
    seq(|cs|, i requires 0 <= i < |cs| => Catch(cs[i].kind, cs[i].tag, Resolve(sc, Labels(cs)[i])))
  }

  /** Operands first, labels as depths. */
  function Lower(ns: Nodes, sc: Scope): Code
    requires Scoped(ns, sc)
    decreases ns, 0
  {
    match ns case Nil => CNil case Cons(n, tl) => App(LowerAt(n, sc), Lower(tl, sc))
  }

  /** A body gets an `unreachable` when its last instruction does not fall through. */
  function LowerBody(ns: Nodes, sc: Scope): Code
    requires Scoped(ns, sc)
    decreases ns, 1
  {
    App(Lower(ns, sc), if LastUnreachable(ns) then One(Zero(0x00)) else CNil)
  }

  function LowerAt(n: Node, sc: Scope): Code
    requires ScopedAt(n, sc)
    decreases n
  {
    match n
    case Plain(_, t, operands) => App(Lower(operands, sc), One(t))
    case BrTo(_, l, operands) => App(Lower(operands, sc), One(Br(Resolve(sc, l))))
    case BrIfTo(l, operands) => App(Lower(operands, sc), One(BrIf(Resolve(sc, l))))
    case Table(ls, default, operands) =>
      App(Lower(operands, sc), One(BrTable(ResolveAll(sc, ls), Resolve(sc, default))))
    case BlockOf(name, bt, body) => CCons(Blk(bt, LowerBody(body, sc + [name])), CNil)
    case LoopOf(name, bt, body) => CCons(Lp(bt, LowerBody(body, sc + [name])), CNil)
    case IfOf(name, bt, cond, thn, els) =>
      var e := if els.Some? then Some(LowerBody(els.value, sc + [name])) else None;
      App(Lower(cond, sc), CCons(Iff(bt, LowerBody(thn, sc + [name]), e), CNil))
    case TryOf(name, bt, clauses, body) =>
      CCons(Tr(bt, ResolveClauses(sc, clauses), LowerBody(body, sc + [name])), CNil)
  }
}
