/** Parsing. */
module Pratt {
  // Expression parsing by precedence climbing (src/parser.c, parse_prec): printed with the
  // parentheses the precedence table asks for, every expression parses back.

  datatype BinOp =
    | Or | And | Eq | Neq | Lt | Le | Gt | Ge | BOr | BXor | BAnd | Shl | Shr | Concat
    | Add | Sub | Mul | Div | FDiv | Mod | Pow

  datatype UnOp = Neg | Not | Len | BNot

  /** `-` and `~` are one token each, unary or binary by position. Atom stands for names,
      literals and whatever else is one primary expression. */
  datatype Tok =
    | Atom(k: int) | LPar | RPar | LBracket | RBracket | Comma
    | TOr | TAnd | TEq | TNeq | TLt | TLe | TGt | TGe | TPipe | TTilde | TAmp | TShl | TShr | TConcat
    | TPlus | TMinus | TStar | TSlash | TDSlash | TPercent | TCaret | TNot | THash

  datatype Expr =
    | Leaf(k: int) | Un(uop: UnOp, x: Expr) | Bin(op: BinOp, l: Expr, r: Expr)
    | Index(t: Expr, key: Expr) | Call(f: Expr, args: Exprs)

  datatype Exprs = ENil | ECons(e: Expr, es: Exprs)

  // ----- the tables -----

  const PREC_OR := 1
  const PREC_UNARY := 11
  const PREC_POW := 12
  const PREC_ATOM := 13

  /** prec_of; 0 for what is no binary operator. */
  function PrecOf(t: Tok): nat {
    match t
    case TOr => 1
    case TAnd => 2
    case TEq => 3
    case TNeq => 3
    case TLt => 3
    case TLe => 3
    case TGt => 3
    case TGe => 3
    case TPipe => 4
    case TTilde => 5
    case TAmp => 6
    case TShl => 7
    case TShr => 7
    case TConcat => 8
    case TPlus => 9
    case TMinus => 9
    case TStar => 10
    case TSlash => 10
    case TDSlash => 10
    case TPercent => 10
    case TCaret => 12
    case _ => 0
  }

  /** binop_of. */
  function OpOf(t: Tok): BinOp
    requires PrecOf(t) > 0
  {
    match t
    case TOr => Or
    case TAnd => And
    case TEq => Eq
    case TNeq => Neq
    case TLt => Lt
    case TLe => Le
    case TGt => Gt
    case TGe => Ge
    case TPipe => BOr
    case TTilde => BXor
    case TAmp => BAnd
    case TShl => Shl
    case TShr => Shr
    case TConcat => Concat
    case TPlus => Add
    case TMinus => Sub
    case TStar => Mul
    case TSlash => Div
    case TDSlash => FDiv
    case TPercent => Mod
    case TCaret => Pow
  }

  function TokOf(op: BinOp): (t: Tok)
    ensures PrecOf(t) > 0 && OpOf(t) == op
  {
    match op
    case Or => TOr
    case And => TAnd
    case Eq => TEq
    case Neq => TNeq
    case Lt => TLt
    case Le => TLe
    case Gt => TGt
    case Ge => TGe
    case BOr => TPipe
    case BXor => TTilde
    case BAnd => TAmp
    case Shl => TShl
    case Shr => TShr
    case Concat => TConcat
    case Add => TPlus
    case Sub => TMinus
    case Mul => TStar
    case Div => TSlash
    case FDiv => TDSlash
    case Mod => TPercent
    case Pow => TCaret
  }

  predicate IsUnary(t: Tok) { t.TMinus? || t.TNot? || t.THash? || t.TTilde? }

  function UnOf(t: Tok): UnOp
    requires IsUnary(t)
  {
    match t case TMinus => Neg case TNot => Not case THash => Len case TTilde => BNot
  }

  function UnTok(u: UnOp): (t: Tok)
    ensures IsUnary(t) && UnOf(t) == u
  {
    match u case Neg => TMinus case Not => TNot case Len => THash case BNot => TTilde
  }

  predicate RightAssoc(t: Tok) { t.TConcat? || t.TCaret? }

  /** next_min: the least operator the right operand may hold. */
  function NextMin(t: Tok): nat { if RightAssoc(t) then PrecOf(t) else PrecOf(t) + 1 }

  // ----- what the parser computes -----

  datatype Res<T> = Good(v: T, rest: seq<Tok>) | Bad

  function ParsePrec(ts: seq<Tok>, min: nat): (r: Res<Expr>)
    requires min >= 1
    ensures r.Good? ==> |r.rest| < |ts|
    decreases |ts|, 5
  {
    match ParseUnary(ts)
    case Bad => Bad
    case Good(lhs, rest) => Climb(lhs, rest, min)
  }

  /** The loop of parse_prec. */
  function Climb(lhs: Expr, ts: seq<Tok>, min: nat): (r: Res<Expr>)
    requires min >= 1
    ensures r.Good? ==> |r.rest| <= |ts|
    decreases |ts|, 0
  {
    if ts == [] || PrecOf(ts[0]) < min then Good(lhs, ts)
    else
      match ParsePrec(ts[1..], NextMin(ts[0]))
      case Bad => Bad
      case Good(rhs, rest) => Climb(Bin(OpOf(ts[0]), lhs, rhs), rest, min)
  }

  function ParseUnary(ts: seq<Tok>): (r: Res<Expr>)
    ensures r.Good? ==> |r.rest| < |ts|
    decreases |ts|, 4
  {
    if ts != [] && IsUnary(ts[0]) then
      match ParsePrec(ts[1..], PREC_UNARY)
      case Bad => Bad
      case Good(x, rest) => Good(Un(UnOf(ts[0]), x), rest)
    else ParseChain(ts)
  }

  function ParseChain(ts: seq<Tok>): (r: Res<Expr>)
    ensures r.Good? ==> |r.rest| < |ts|
    decreases |ts|, 3
  {
    match ParsePrimary(ts)
    case Bad => Bad
    case Good(e, rest) => Suffixes(e, rest)
  }

  /** The loop of parse_prefix_chain. */
  function Suffixes(e: Expr, ts: seq<Tok>): (r: Res<Expr>)
    ensures r.Good? ==> |r.rest| <= |ts|
    decreases |ts|, 1
  {
    if ts != [] && ts[0].LPar? then
      match ParseArgs(ts[1..])
      case Bad => Bad
      case Good(args, rest) => Suffixes(Call(e, args), rest)
    else if ts != [] && ts[0].LBracket? then
      match ParsePrec(ts[1..], PREC_OR)
      case Bad => Bad
      case Good(key, rest) => if rest != [] && rest[0].RBracket? then Suffixes(Index(e, key), rest[1..]) else Bad
    else Good(e, ts)
  }

  /** Arguments up to the closing parenthesis. */
  function ParseArgs(ts: seq<Tok>): (r: Res<Exprs>)
    ensures r.Good? ==> |r.rest| < |ts|
    decreases |ts|, 7
  {
    if ts != [] && ts[0].RPar? then Good(ENil, ts[1..]) else ParseMore(ts)
  }

  function ParseMore(ts: seq<Tok>): (r: Res<Exprs>)
    ensures r.Good? ==> |r.rest| < |ts|
    decreases |ts|, 6
  {
    match ParsePrec(ts, PREC_OR)
    case Bad => Bad
    case Good(e, rest) =>
      if rest != [] && rest[0].Comma? then
        match ParseMore(rest[1..])
        case Bad => Bad
        case Good(es, rest') => Good(ECons(e, es), rest')
      else if rest != [] && rest[0].RPar? then Good(ECons(e, ENil), rest[1..])
      else Bad
  }

  function ParsePrimary(ts: seq<Tok>): (r: Res<Expr>)
    ensures r.Good? ==> |r.rest| < |ts|
    decreases |ts|, 2
  {
    if ts == [] then Bad
    else if ts[0].Atom? then Good(Leaf(ts[0].k), ts[1..])
    else if ts[0].LPar? then
      match ParsePrec(ts[1..], PREC_OR)
      case Bad => Bad
      case Good(e, rest) => if rest != [] && rest[0].RPar? then Good(e, rest[1..]) else Bad
    else Bad
  }

  // ----- printing -----

  predicate IsAtom(e: Expr) { e.Leaf? || e.Index? || e.Call? }

  /** How tightly an expression binds. */
  function Level(e: Expr): nat { if e.Bin? then PrecOf(TokOf(e.op)) else if e.Un? then PREC_UNARY else PREC_ATOM }

  /** The least level the left operand may have bare. */
  function LeftMin(t: Tok): nat { if RightAssoc(t) then PrecOf(t) + 1 else PrecOf(t) }

  function Wrapped(e: Expr, bare: bool): seq<Tok>
    decreases e, 1
  {
    if bare then Print(e) else [LPar] + (Print(e) + [RPar])
  }

  /** Parentheses only around a left operand that binds less than its operator needs, a
      binary right operand that does, a binary operand of a unary operator other than
      `^`, and the base of a chain that is no chain. */
  function Print(e: Expr): seq<Tok>
    decreases e, 0
  {
    match e
    case Leaf(k) => [Atom(k)]
    case Un(u, x) => [UnTok(u)] + Wrapped(x, BareRight(x, PREC_UNARY))
    case Bin(op, l, r) =>
      Wrapped(l, Level(l) >= LeftMin(TokOf(op))) + ([TokOf(op)] + Wrapped(r, BareRight(r, NextMin(TokOf(op)))))
    case Index(t, key) => Wrapped(t, IsAtom(t)) + ([LBracket] + (Print(key) + [RBracket]))
    case Call(f, args) => Wrapped(f, IsAtom(f)) + ([LPar] + PrintArgs(args))
  }

  function PrintArgs(es: Exprs): seq<Tok>
    decreases es, 1
  {
    if es.ENil? then [RPar] else PrintMore(es)
  }

  function PrintMore(es: Exprs): seq<Tok>
    requires es.ECons?
    decreases es, 0
  {
    Print(es.e) + if es.es.ENil? then [RPar] else [Comma] + PrintMore(es.es)
  }

  /** A unary operator may stand bare wherever an operand may begin. */
  predicate BareRight(e: Expr, min: nat) { e.Bin? ==> PrecOf(TokOf(e.op)) >= min }

  // ----- what may follow -----

  predicate NoSuffix(rest: seq<Tok>) { rest != [] ==> !rest[0].LPar? && !rest[0].LBracket? }

  function PrecAt(rest: seq<Tok>): nat { if rest == [] then 0 else PrecOf(rest[0]) }

  /** rest does not take e's right edge away from it. */
  predicate Closes(e: Expr, rest: seq<Tok>) {
    && NoSuffix(rest)
    && (e.Bin? ==> PrecAt(rest) < NextMin(TokOf(e.op))) && (e.Un? ==> PrecAt(rest) < PREC_UNARY)
  }

  lemma {:induction false} Assoc(a: seq<Tok>, b: seq<Tok>, c: seq<Tok>)
    ensures (a + b) + c == a + (b + c)
  {
  }

  lemma {:induction false} Head(t: Tok, ts: seq<Tok>)
    ensures var s := [t] + ts; s != [] && s[0] == t && s[1..] == ts
  {
  }

  lemma {:induction false} Levels(t: Tok)
    ensures PrecOf(t) <= PREC_POW && PrecOf(t) != PREC_UNARY
    ensures RightAssoc(t) <==> PrecOf(t) == 8 || PrecOf(t) == PREC_POW
  {
  }

  // ----- printing and parsing -----

  /** Printed e is taken in as a left operand, and climbing goes on behind it. */
  lemma {:induction false} PrintParses(e: Expr, rest: seq<Tok>, min: nat)
    requires 1 <= min && Closes(e, rest) && (e.Bin? ==> min <= PrecOf(TokOf(e.op)))
    ensures ParsePrec(Print(e) + rest, min) == Climb(e, rest, min)
    decreases e, 4
  {
    match e
    case Un(u, x) => UnaryParses(u, x, rest, min);
    case Bin(op, l, r) => BinaryParses(op, l, r, rest, min);
    case _ =>
      ChainParses(e, rest);
      AtomStarts(e, rest);
  }

  /** Nothing printed for an atom starts with a unary operator. */
  lemma {:induction false} AtomStarts(e: Expr, rest: seq<Tok>)
    requires IsAtom(e)
    ensures Print(e) != [] && !IsUnary(Print(e)[0]) && Print(e) + rest != [] && !IsUnary((Print(e) + rest)[0])
    decreases e
  {
    match e
    case Leaf(_) =>
    case Index(t, _) => if IsAtom(t) { AtomStarts(t, []); }
    case Call(f, _) => if IsAtom(f) { AtomStarts(f, []); }
  }

  lemma {:induction false} WrappedParses(e: Expr, bare: bool, rest: seq<Tok>, min: nat)
    requires 1 <= min && NoSuffix(rest)
    requires bare ==> Closes(e, rest) && (e.Bin? ==> min <= PrecOf(TokOf(e.op)))
    ensures ParsePrec(Wrapped(e, bare) + rest, min) == Climb(e, rest, min)
    decreases e, 7
  {
    if bare {
      PrintParses(e, rest, min);
    } else {
      ParenParses(e, rest);
      var ts := [LPar] + (Print(e) + [RPar]) + rest;
      assert ts[0] == LPar;
      assert ParseUnary(ts) == ParseChain(ts) == Suffixes(e, rest) == Good(e, rest);
    }
  }

  /** Parenthesized, e is a primary expression. */
  lemma {:induction false} ParenParses(e: Expr, rest: seq<Tok>)
    ensures ParsePrimary([LPar] + (Print(e) + [RPar]) + rest) == Good(e, rest)
    decreases e, 6
  {
    Assoc([LPar], Print(e) + [RPar], rest);
    Assoc(Print(e), [RPar], rest);
    Head(LPar, Print(e) + ([RPar] + rest));
    Head(RPar, rest);
    WholeParses(e, [RPar] + rest);
  }

  /** Up to a token that is neither an operator nor a suffix, e is all there is. */
  lemma {:induction false} WholeParses(e: Expr, rest: seq<Tok>)
    requires NoSuffix(rest) && PrecAt(rest) == 0
    ensures ParsePrec(Print(e) + rest, PREC_OR) == Good(e, rest)
    decreases e, 5
  {
    PrintParses(e, rest, PREC_OR);
  }

  lemma {:induction false} UnaryParses(u: UnOp, x: Expr, rest: seq<Tok>, min: nat)
    requires 1 <= min && Closes(Un(u, x), rest)
    ensures ParsePrec(Print(Un(u, x)) + rest, min) == Climb(Un(u, x), rest, min)
    decreases Un(u, x), 0
  {
    var w := Wrapped(x, BareRight(x, PREC_UNARY));
    Assoc([UnTok(u)], w, rest);
    Head(UnTok(u), w + rest);
    WrappedParses(x, BareRight(x, PREC_UNARY), rest, PREC_UNARY);
  }

  lemma {:induction false} BinaryParses(op: BinOp, l: Expr, r: Expr, rest: seq<Tok>, min: nat)
    requires 1 <= min <= PrecOf(TokOf(op)) && Closes(Bin(op, l, r), rest)
    ensures ParsePrec(Print(Bin(op, l, r)) + rest, min) == Climb(Bin(op, l, r), rest, min)
    decreases Bin(op, l, r), 0
  {
    var t := TokOf(op);
    var bl, br := Level(l) >= LeftMin(t), BareRight(r, NextMin(t));
    var wl, wr := Wrapped(l, bl), Wrapped(r, br);
    Assoc(wl, [t] + wr, rest);
    Assoc([t], wr, rest);
    Head(t, wr + rest);
    LeftCloses(op, l, wr + rest);
    WrappedParses(l, bl, [t] + (wr + rest), min);
    RightCloses(op, l, r, rest);
    WrappedParses(r, br, rest, NextMin(t));
  }

  lemma {:induction false} LeftCloses(op: BinOp, l: Expr, rest: seq<Tok>)
    ensures var t := TokOf(op);
            && NoSuffix([t] + rest)
            && (Level(l) >= LeftMin(t) ==> Closes(l, [t] + rest) && (l.Bin? ==> PrecOf(t) <= PrecOf(TokOf(l.op))))
  {
    Levels(TokOf(op));
    if l.Bin? { Levels(TokOf(l.op)); }
  }

  lemma {:induction false} RightCloses(op: BinOp, l: Expr, r: Expr, rest: seq<Tok>)
    requires Closes(Bin(op, l, r), rest)
    ensures BareRight(r, NextMin(TokOf(op))) ==> Closes(r, rest)
    ensures PrecAt(rest) < NextMin(TokOf(op))
  {
    Levels(TokOf(op));
    if r.Bin? { Levels(TokOf(r.op)); }
    if rest != [] { Levels(rest[0]); }
  }

  /** A chain printed is a chain parsed, and suffixes go on behind it. */
  lemma {:induction false} ChainParses(e: Expr, rest: seq<Tok>)
    requires IsAtom(e)
    ensures ParseChain(Print(e) + rest) == Suffixes(e, rest)
    decreases e, 3
  {
    match e
    case Leaf(k) => Head(Atom(k), rest);
    case Index(t, key) =>
      var tail := [LBracket] + (Print(key) + [RBracket]);
      Assoc(Wrapped(t, IsAtom(t)), tail, rest);
      Assoc([LBracket], Print(key) + [RBracket], rest);
      Assoc(Print(key), [RBracket], rest);
      BaseParses(t, tail + rest);
      Head(LBracket, Print(key) + ([RBracket] + rest));
      Head(RBracket, rest);
      WholeParses(key, [RBracket] + rest);
    case Call(f, args) =>
      var tail := [LPar] + PrintArgs(args);
      Assoc(Wrapped(f, IsAtom(f)), tail, rest);
      Assoc([LPar], PrintArgs(args), rest);
      BaseParses(f, tail + rest);
      Head(LPar, PrintArgs(args) + rest);
      ArgsParse(args, rest);
  }

  lemma {:induction false} BaseParses(e: Expr, rest: seq<Tok>)
    ensures ParseChain(Wrapped(e, IsAtom(e)) + rest) == Suffixes(e, rest)
    decreases e, 7
  {
    if IsAtom(e) { ChainParses(e, rest); } else { ParenParses(e, rest); }
  }

  lemma {:induction false} ArgsParse(es: Exprs, rest: seq<Tok>)
    ensures ParseArgs(PrintArgs(es) + rest) == Good(es, rest)
    decreases es, 1
  {
    if es.ENil? {
      Head(RPar, rest);
    } else {
      MoreStarts(es, rest);
      MoreParse(es, rest);
    }
  }

  /** An argument does not start with a closing parenthesis. */
  lemma {:induction false} MoreStarts(es: Exprs, rest: seq<Tok>)
    requires es.ECons?
    ensures PrintMore(es) + rest != [] && !(PrintMore(es) + rest)[0].RPar?
  {
    Starts(es.e);
  }

  lemma {:induction false} Starts(e: Expr)
    ensures Print(e) != [] && !Print(e)[0].RPar?
    decreases e
  {
    match e
    case Bin(_, l, _) => Starts(l);
    case Index(t, _) => Starts(t);
    case Call(f, _) => Starts(f);
    case _ =>
  }

  lemma {:induction false} MoreParse(es: Exprs, rest: seq<Tok>)
    requires es.ECons?
    ensures ParseMore(PrintMore(es) + rest) == Good(es, rest)
    decreases es, 0
  {
    if es.es.ENil? {
      Assoc(Print(es.e), [RPar], rest);
      Head(RPar, rest);
      WholeParses(es.e, [RPar] + rest);
    } else {
      Assoc(Print(es.e), [Comma] + PrintMore(es.es), rest);
      Assoc([Comma], PrintMore(es.es), rest);
      Head(Comma, PrintMore(es.es) + rest);
      WholeParses(es.e, [Comma] + (PrintMore(es.es) + rest));
      MoreParse(es.es, rest);
    }
  }

  /** The round trip: the printed tokens, and no others, are consumed. */
  lemma {:induction false} RoundTrip(e: Expr, rest: seq<Tok>)
    requires NoSuffix(rest) && PrecAt(rest) == 0
    ensures ParsePrec(Print(e) + rest, PREC_OR) == Good(e, rest)
  {
    WholeParses(e, rest);
  }

  /** No two expressions print alike. */
  lemma {:induction false} PrintsApart(a: Expr, b: Expr)
    ensures Print(a) == Print(b) <==> a == b
  {
    if Print(a) == Print(b) {
      RoundTrip(a, []);
      RoundTrip(b, []);
      assert Print(a) + [] == Print(b) + [];
    }
  }

  // ----- the manual's order -----

  /** The binary operators of section 3.4.8 of the Lua manual, loosest first, each with the
      operation it stands for. Unary operators stand above the arithmetic ones, below `^`. */
  function Manual(i: nat): set<(Tok, BinOp)> {
    match i
    case 0 => {(TOr, Or)}
    case 1 => {(TAnd, And)}
    case 2 => {(TLt, Lt), (TGt, Gt), (TLe, Le), (TGe, Ge), (TNeq, Neq), (TEq, Eq)}
    case 3 => {(TPipe, BOr)}
    case 4 => {(TTilde, BXor)}
    case 5 => {(TAmp, BAnd)}
    case 6 => {(TShl, Shl), (TShr, Shr)}
    case 7 => {(TConcat, Concat)}
    case 8 => {(TPlus, Add), (TMinus, Sub)}
    case 9 => {(TStar, Mul), (TSlash, Div), (TDSlash, FDiv), (TPercent, Mod)}
    case 10 => {(TCaret, Pow)}
    case _ => {}
  }

  const UNARY: set<(Tok, UnOp)> := {(TMinus, Neg), (TNot, Not), (THash, Len), (TTilde, BNot)}

  predicate Stands(i: nat, t: Tok, op: BinOp) { (t, op) in Manual(i) }

  lemma {:induction false} TableIs(i: nat, t: Tok, op: BinOp)
    requires Stands(i, t, op)
    ensures t == TokOf(op) && PrecOf(t) == (if i < 10 then i + 1 else PREC_POW)
    ensures RightAssoc(t) <==> op.Concat? || op.Pow?
    ensures i < 11 && (op.Concat? ==> i == 7) && (op.Pow? <==> i == 10)
  {
    if i == 2 {
      Comparisons(t, op);
    } else if i >= 8 {
      Arithmetic(i, t, op);
    }
  }

  lemma {:induction false} Comparisons(t: Tok, op: BinOp)
    requires Stands(2, t, op)
    ensures t == TokOf(op) && PrecOf(t) == 3 && !RightAssoc(t) && !op.Concat? && !op.Pow?
  {
  }

  lemma {:induction false} Arithmetic(i: nat, t: Tok, op: BinOp)
    requires i >= 8 && Stands(i, t, op)
    ensures t == TokOf(op) && PrecOf(t) == (if i < 10 then i + 1 else PREC_POW) && i < 11
    ensures (RightAssoc(t) <==> op.Pow?) && (op.Pow? <==> i == 10) && !op.Concat?
  {
  }

  /** Of two operators the one in the tighter set takes its operands first; within a set the
      left one does, except that `..` and `^` group to the right. */
  lemma {:induction false} Groups(a: int, b: int, c: int, i: nat, s: Tok, op1: BinOp, j: nat, t: Tok, op2: BinOp)
    requires Stands(i, s, op1) && Stands(j, t, op2)
    ensures ParsePrec([Atom(a), s, Atom(b), t, Atom(c)], PREC_OR)
            == Good(if i > j || (i == j && !op1.Concat? && !op1.Pow?) then Bin(op2, Bin(op1, Leaf(a), Leaf(b)), Leaf(c))
                    else Bin(op1, Leaf(a), Bin(op2, Leaf(b), Leaf(c))), [])
  {
    var x, y, z := Leaf(a), Leaf(b), Leaf(c);
    TableIs(i, s, op1);
    TableIs(j, t, op2);
    if i > j || (i == j && !op1.Concat? && !op1.Pow?) {
      PrintTwo(op1, a, b);
      PrintBin(op2, Bin(op1, x, y), z, true, true);
      Reads(Bin(op2, Bin(op1, x, y), z), [Atom(a), s, Atom(b), t, Atom(c)]);
    } else {
      PrintTwo(op2, b, c);
      PrintBin(op1, x, Bin(op2, y, z), true, true);
      Reads(Bin(op1, x, Bin(op2, y, z)), [Atom(a), s, Atom(b), t, Atom(c)]);
    }
  }

  /** A unary operator takes its operand before any binary one but `^`, and may stand to the
      right of any. */
  lemma {:induction false} UnaryBetween(a: int, b: int, ut: Tok, u: UnOp, i: nat, t: Tok, op: BinOp)
    requires (ut, u) in UNARY && Stands(i, t, op)
    ensures ParsePrec([ut, Atom(a), t, Atom(b)], PREC_OR)
            == Good(if op.Pow? then Un(u, Bin(op, Leaf(a), Leaf(b))) else Bin(op, Un(u, Leaf(a)), Leaf(b)), [])
    ensures ParsePrec([Atom(a), t, ut, Atom(b)], PREC_OR) == Good(Bin(op, Leaf(a), Un(u, Leaf(b))), [])
  {
    var x, y := Leaf(a), Leaf(b);
    TableIs(i, t, op);
    PrintUnary(u, x, true);
    PrintUnary(u, y, true);
    PrintBin(op, x, Un(u, y), true, true);
    Reads(Bin(op, x, Un(u, y)), [Atom(a), t, ut, Atom(b)]);
    if op.Pow? {
      PrintTwo(op, a, b);
      PrintUnary(u, Bin(op, x, y), true);
      Reads(Un(u, Bin(op, x, y)), [ut, Atom(a), t, Atom(b)]);
    } else {
      PrintBin(op, Un(u, x), y, true, true);
      Reads(Bin(op, Un(u, x), y), [ut, Atom(a), t, Atom(b)]);
    }
  }

  /** No other token continues an expression as an operator, and every operation has one. */
  lemma {:induction false} NoOthers(a: int, t: Tok, rest: seq<Tok>, op: BinOp)
    requires !t.LPar? && !t.LBracket? && forall i: nat, o: BinOp :: !Stands(i, t, o)
    ensures ParsePrec([Atom(a), t] + rest, PREC_OR) == Good(Leaf(a), [t] + rest)
    ensures exists i: nat, s :: Stands(i, s, op)
  {
    assert PrecOf(t) == 0 by { if PrecOf(t) > 0 { HasPlace(t); } }
    HasPlace(TokOf(op));
    assert [Atom(a), t] + rest == [Atom(a)] + ([t] + rest);
    PrintParses(Leaf(a), [t] + rest, PREC_OR);
  }

  lemma {:induction false} HasPlace(t: Tok)
    requires PrecOf(t) > 0
    ensures Stands(if PrecOf(t) == PREC_POW then 10 else PrecOf(t) - 1, t, OpOf(t))
  {
  }

  lemma {:induction false} PrintBin(op: BinOp, l: Expr, r: Expr, bl: bool, br: bool)
    requires bl == (Level(l) >= LeftMin(TokOf(op))) && br == BareRight(r, NextMin(TokOf(op)))
    ensures Print(Bin(op, l, r)) == Wrapped(l, bl) + ([TokOf(op)] + Wrapped(r, br))
  {
  }

  lemma {:induction false} PrintUnary(u: UnOp, x: Expr, bare: bool)
    requires bare == BareRight(x, PREC_UNARY)
    ensures Print(Un(u, x)) == [UnTok(u)] + Wrapped(x, bare)
  {
  }

  lemma {:induction false} PrintTwo(op: BinOp, a: int, b: int)
    ensures Print(Bin(op, Leaf(a), Leaf(b))) == [Atom(a), TokOf(op), Atom(b)]
  {
    Levels(TokOf(op));
    PrintBin(op, Leaf(a), Leaf(b), true, true);
  }

  lemma {:induction false} Reads(e: Expr, ts: seq<Tok>)
    requires Print(e) == ts
    ensures ParsePrec(ts, PREC_OR) == Good(e, [])
  {
    RoundTrip(e, []);
    assert ts + [] == ts;
  }

  // ----- the parser -----

  class Parser {
    const toks: seq<Tok>
    var pos: nat
    var ok: bool

    constructor (toks: seq<Tok>)
      ensures this.toks == toks && pos == 0 && ok
    {
      this.toks, pos, ok := toks, 0, true;
    }

    ghost function Left(): seq<Tok>
      requires pos <= |toks|
      reads this
    {
      toks[pos..]
    }

    /** The method has computed r: the value and the position behind it, or an error. */
    ghost predicate Did<T(!new)>(r: Res<T>, v: T)
      reads this
    {
      match r case Good(w, rest) => ok && pos <= |toks| && Left() == rest && v == w case Bad => !ok
    }

    /** expect. */
    method Expect(t: Tok)
      requires ok && pos <= |toks|
      modifies `pos, `ok
      ensures if old(pos) < |toks| && toks[old(pos)] == t then ok && pos == old(pos) + 1 else !ok
    {
      if pos < |toks| && toks[pos] == t { pos := pos + 1; } else { ok := false; }
    }

    method Prec(min: nat) returns (e: Expr)
      requires ok && pos <= |toks| && min >= 1
      modifies `pos, `ok
      ensures Did(ParsePrec(old(Left()), min), e)
      decreases |toks| - pos, 5
    {
      ghost var start := Left();
      e := Unary();
      if !ok { return; }
      while true
        invariant ok && pos <= |toks| && |Left()| < |start|
        invariant ParsePrec(start, min) == Climb(e, Left(), min)
        decreases |toks| - pos
      {
        if pos == |toks| || PrecOf(toks[pos]) < min { return; }
        var t := toks[pos];
        pos := pos + 1;
        var rhs := Prec(NextMin(t));
        if !ok { return; }
        e := Bin(OpOf(t), e, rhs);
      }
    }

    method Unary() returns (e: Expr)
      requires ok && pos <= |toks|
      modifies `pos, `ok
      ensures Did(ParseUnary(old(Left())), e)
      decreases |toks| - pos, 4
    {
      if pos < |toks| && IsUnary(toks[pos]) {
        var t := toks[pos];
        pos := pos + 1;
        e := Prec(PREC_UNARY);
        if !ok { return; }
        e := Un(UnOf(t), e);
      } else {
        e := Chain();
      }
    }

    method Chain() returns (e: Expr)
      requires ok && pos <= |toks|
      modifies `pos, `ok
      ensures Did(ParseChain(old(Left())), e)
      decreases |toks| - pos, 3
    {
      ghost var start := Left();
      e := Primary();
      if !ok { return; }
      while pos < |toks| && (toks[pos].LPar? || toks[pos].LBracket?)
        invariant ok && pos <= |toks| && |Left()| < |start|
        invariant ParseChain(start) == Suffixes(e, Left())
        decreases |toks| - pos
      {
        e := Suffix(e);
        if !ok { return; }
      }
    }

    /** One call or index. */
    method Suffix(e: Expr) returns (e': Expr)
      requires ok && pos < |toks| && (toks[pos].LPar? || toks[pos].LBracket?)
      modifies `pos, `ok
      ensures if ok then old(pos) < pos <= |toks| && Suffixes(e, old(Left())) == Suffixes(e', Left())
        else Suffixes(e, old(Left())) == Bad
      decreases |toks| - pos, 1
    {
      e' := e;
      if toks[pos].LPar? {
        pos := pos + 1;
        var args := Args();
        if !ok { return; }
        e' := Call(e, args);
      } else {
        pos := pos + 1;
        var key := Prec(PREC_OR);
        if !ok { return; }
        Expect(RBracket);
        if !ok { return; }
        e' := Index(e, key);
      }
    }

    method Args() returns (es: Exprs)
      requires ok && pos <= |toks|
      modifies `pos, `ok
      ensures Did(ParseArgs(old(Left())), es)
      decreases |toks| - pos, 7
    {
      if pos < |toks| && toks[pos].RPar? {
        pos := pos + 1;
        es := ENil;
      } else {
        es := More();
      }
    }

    method More() returns (es: Exprs)
      requires ok && pos <= |toks|
      modifies `pos, `ok
      ensures Did(ParseMore(old(Left())), es)
      decreases |toks| - pos, 6
    {
      es := ENil;
      var e := Prec(PREC_OR);
      if !ok { return; }
      if pos < |toks| && toks[pos].Comma? {
        pos := pos + 1;
        es := More();
      } else {
        Expect(RPar);
      }
      es := ECons(e, es);
    }

    method Primary() returns (e: Expr)
      requires ok && pos <= |toks|
      modifies `pos, `ok
      ensures Did(ParsePrimary(old(Left())), e)
      decreases |toks| - pos, 2
    {
      e := Leaf(0);
      if pos == |toks| {
        ok := false;
      } else if toks[pos].Atom? {
        e := Leaf(toks[pos].k);
        pos := pos + 1;
      } else if toks[pos].LPar? {
        pos := pos + 1;
        e := Prec(PREC_OR);
        if !ok { return; }
        Expect(RPar);
      } else {
        ok := false;
      }
    }
  }

  /** parse_expr on a printed expression gives it back and stops behind it. */
  method ParseBack(e: Expr, rest: seq<Tok>) returns (back: Expr, used: nat)
    requires NoSuffix(rest) && PrecAt(rest) == 0
    ensures back == e && used == |Print(e)|
  {
    var p := new Parser(Print(e) + rest);
    RoundTrip(e, rest);
    assert p.Left() == Print(e) + rest;
    back := p.Prec(PREC_OR);
    used := p.pos;
  }
}
