/** Control flow and to-be-closed variables (src/codegen/stmt.c): blocks with
    labels and gotos, loops, break, return and `local x <close>`, and the
    WebAssembly-shaped code they are lowered to. */
module Control {
  import opened Options

  // ----- the outside world -----

  /** What a program asks of the world. `QClose` calls a value's __close, with
      the error in flight if there is one. */
  datatype Query =
    | QAct(k: int) | QCond(k: int) | QDecl(k: int) | QReturn(k: int) | QInit(k: int, closing: bool) | QNext(k: int)
    | QClose(v: int, err: Option<int>)

  /** 0 stands for nil and false. */
  datatype Reply = Value(v: int) | Raise(e: int)

  datatype Event = Event(q: Query, r: Reply)

  /** The world answers from everything that happened so far. */
  type World = (seq<Event>, Query) -> Reply

  /** The trace so far and the activation's to-be-closed stack. */
  datatype State = State(tr: seq<Event>, tbc: seq<int>)

  function Ask(w: World, st: State, q: Query): (State, Reply) {
    (st.(tr := st.tr + [Event(q, w(st.tr, q))]), w(st.tr, q))
  }

  /** Close every entry from height `to` up, last declared first: nil and false
      are dropped, an error raised by a __close replaces the one in flight. */
  function Unwind(w: World, st: State, to: nat, err: Option<int>): (State, Option<int>)
    decreases |st.tbc|
  {
    if |st.tbc| <= to then (st, err)
    else
      var v, st' := st.tbc[|st.tbc| - 1], st.(tbc := st.tbc[..|st.tbc| - 1]);
      if v == 0 then Unwind(w, st', to, err)
      else
        var (st'', r) := Ask(w, st', QClose(v, err));
        Unwind(w, st'', to, if r.Raise? then Some(r.e) else err)
  }

  // ----- source programs -----

  datatype Stmts = Nil | Cons(hd: Stmt, tl: Stmts)

  datatype Stmt =
    | Act(k: int)
    | LocalClose(k: int)
    | Do(body: Stmts)
    | If(k: int, thn: Stmts, els: Stmts)
    | While(k: int, body: Stmts)
    | Repeat(body: Stmts, k: int)
    | ForGen(k: int, closing: bool, body: Stmts)
    | Break
    | Return(k: int)
    | Goto(name: string)
    | Label(name: string)

  function Len(b: Stmts): nat {
    match b case Nil => 0 case Cons(_, tl) => 1 + Len(tl)
  }

  /** <close> declarations at this block level. */
  function CountClose(b: Stmts): nat {
    match b case Nil => 0 case Cons(s, tl) => (if s.LocalClose? then 1 else 0) + CountClose(tl)
  }

  function Labels(b: Stmts): set<string> {
    match b case Nil => {} case Cons(s, tl) => (if s.Label? then {s.name} else {}) + Labels(tl)
  }

  /** The statements that follow the label. */
  function After(b: Stmts, name: string): Stmts
    requires name in Labels(b)
  {
    if b.hd == Label(name) then b.tl else After(b.tl, name)
  }

  // ----- source meaning -----

  datatype Outcome = Normal | Breaks | Returns | Jumps(name: string) | Error(e: int) | Timeout

  datatype Result = Result(out: Outcome, st: State)

  function Truthy(v: int): bool { v != 0 }

  /** Leave a scope by falling through, break, return or error: its variables
      are closed down to `base`. A goto leaves all scopes up to that of its label
      at once, in ExecIn. */
  function Leave(w: World, r: Result, base: nat): Result {
    if r.out.Timeout? || r.out.Jumps? then r
    else
      var (st, err) := Unwind(w, r.st, base, if r.out.Error? then Some(r.out.e) else None);
      Result(if err.Some? then Error(err.value) else r.out, st)
  }

  function CatchBreak(r: Result): Result {
    if r.out.Breaks? then r.(out := Normal) else r
  }

  /** How many of the block's open variables were declared before the point with
      `rest` statements left: marks hold, per open variable, the statements left
      at its declaration. */
  function Kept(marks: seq<nat>, rest: nat): (n: nat)
    ensures n <= |marks|
  {
    if marks == [] then 0
    else if marks[|marks| - 1] > rest then |marks|
    else Kept(marks[..|marks| - 1], rest)
  }

  /** Run the rest `ss` of block b. A goto whose label b declares closes the
      variables declared after the label and resumes there. Fuel pays for each
      label reached and each turn of a loop. */
  function ExecIn(w: World, b: Stmts, ss: Stmts, base: nat, marks: seq<nat>, st: State, f: nat): Result
    decreases f, ss, 0
  {
    match ss
    case Nil => Result(Normal, st)
    case Cons(Label(_), tl) =>
      if f == 0 then Result(Timeout, st) else ExecIn(w, b, tl, base, marks, st, f - 1)
    case Cons(LocalClose(k), tl) =>
      var (st', r) := Ask(w, st, QDecl(k));
      if r.Raise? then Result(Error(r.e), st')
      else ExecIn(w, b, tl, base, marks + [Len(ss)], st'.(tbc := st'.tbc + [r.v]), f)
    case Cons(s, tl) =>
      var r := ExecStmt(w, s, st, f);
      if r.out.Normal? then ExecIn(w, b, tl, base, marks, r.st, f)
      else if r.out.Jumps? && r.out.name in Labels(b) then
        var to := After(b, r.out.name);
        var kept := Kept(marks, Len(to));
        var c := Leave(w, r.(out := Normal), base + kept);
        if c.out.Error? then c
        else if f == 0 then Result(Timeout, c.st)
        else ExecIn(w, b, to, base, marks[..kept], c.st, f - 1)
      else r
  }

  function ExecBlock(w: World, b: Stmts, st: State, f: nat): Result
    decreases f, b, 1
  {
    Leave(w, ExecIn(w, b, b, |st.tbc|, [], st, f), |st.tbc|)
  }

  function ExecStmt(w: World, s: Stmt, st: State, f: nat): Result
    decreases f, s, 0
  {
    match s
    case Act(k) =>
      var (st', r) := Ask(w, st, QAct(k));
      Result(if r.Raise? then Error(r.e) else Normal, st')
    case LocalClose(_) => Result(Normal, st) // run by ExecIn, which owns the scope
    case Label(_) => Result(Normal, st)
    case Do(b) => ExecBlock(w, b, st, f)
    case If(k, thn, els) =>
      var (st', r) := Ask(w, st, QCond(k));
      if r.Raise? then Result(Error(r.e), st')
      else if Truthy(r.v) then ExecBlock(w, thn, st', f)
      else ExecBlock(w, els, st', f)
    case While(k, b) => CatchBreak(ExecLoop(w, QCond(k), b, st, f))
    case Repeat(b, k) => CatchBreak(ExecRepeat(w, b, k, st, f))
    case ForGen(k, closing, b) =>
      var (st', r) := Ask(w, st, QInit(k, closing));
      if r.Raise? then Result(Error(r.e), st')
      else
        var st'' := if closing then st'.(tbc := st'.tbc + [r.v]) else st';
        Leave(w, CatchBreak(ExecLoop(w, QNext(k), b, st'', f)), |st.tbc|)
    case Break => Result(Breaks, st)
    case Return(k) =>
      var (st', r) := Ask(w, st, QReturn(k));
      Result(if r.Raise? then Error(r.e) else Returns, st')
    case Goto(name) => Result(Jumps(name), st)
  }

  /** while, and a generic for once set up: test, body, again. */
  function ExecLoop(w: World, q: Query, b: Stmts, st: State, f: nat): Result
    decreases f, b, 2
  {
    var (st', r) := Ask(w, st, q);
    if r.Raise? then Result(Error(r.e), st')
    else if !Truthy(r.v) then Result(Normal, st')
    else
      var r := ExecBlock(w, b, st', f);
      if !r.out.Normal? then r
      else if f == 0 then Result(Timeout, r.st)
      else ExecLoop(w, q, b, r.st, f - 1)
  }

  /** The body's variables stay open for the condition. */
  function ExecRepeat(w: World, b: Stmts, k: int, st: State, f: nat): Result
    decreases f, b, 2
  {
    var r := ExecIn(w, b, b, |st.tbc|, [], st, f);
    if !r.out.Normal? then Leave(w, r, |st.tbc|)
    else
      var (st', v) := Ask(w, r.st, QCond(k));
      if v.Raise? then Leave(w, Result(Error(v.e), st'), |st.tbc|)
      else
        var c := Leave(w, Result(Normal, st'), |st.tbc|);
        if c.out.Error? || Truthy(v.v) then c
        else if f == 0 then Result(Timeout, c.st)
        else ExecRepeat(w, b, k, c.st, f - 1)
  }

  // ----- target programs -----

  datatype Lbl =
    | LBrk(n: int) | LCont(n: int) | LIfEnd(n: int)
    | LExit(bid: int) | LDispatch(bid: int) | LSeg(bid: int, k: int)

  datatype Code = WNil | WCons(w: Instr, rest: Code)

  /** The flag stands for the i32 on top of the operand stack. */
  datatype Instr =
    | WAsk(q: Query)             // ask, drop the answer
    | WTest(q: Query)            // ask, leave the truth of the answer
    | WPush(q: Query)            // ask, $tbc_push the answer
    | WEqz
    | WCloseUpto(to: nat)
    | WBlock(l: Lbl, body: Code)
    | WLoop(l: Lbl, body: Code)
    | WIf(thn: Code)
    | WBr(l: Lbl)
    | WBrIf(l: Lbl)
    | WBrTable(bid: int, n: nat) // $seg_0 .. $seg_n, default $exit, on $next_bid
    | WSetNext(bid: int, k: nat)
    | WReturn

  datatype WState = WState(st: State, next: map<int, nat>, flag: bool)

  datatype WOutcome = Falls | Branches(l: Lbl) | Leaves | Throws(e: int) | WTimeout

  datatype WResult = WResult(out: WOutcome, s: WState)

  function Exec(w: World, c: Code, s: WState, f: nat): WResult
    decreases f, c
  {
    match c
    case WNil => WResult(Falls, s)
    case WCons(i, rest) =>
      var r := ExecInstr(w, i, s, f);
      if r.out.Falls? then Exec(w, rest, r.s, f) else r
  }

  function ExecInstr(w: World, i: Instr, s: WState, f: nat): WResult
    decreases f, i
  {
    match i
    case WAsk(q) =>
      var (st, r) := Ask(w, s.st, q);
      WResult(if r.Raise? then Throws(r.e) else Falls, s.(st := st))
    case WTest(q) =>
      var (st, r) := Ask(w, s.st, q);
      if r.Raise? then WResult(Throws(r.e), s.(st := st))
      else WResult(Falls, s.(st := st, flag := Truthy(r.v)))
    case WPush(q) =>
      var (st, r) := Ask(w, s.st, q);
      if r.Raise? then WResult(Throws(r.e), s.(st := st))
      else WResult(Falls, s.(st := st.(tbc := st.tbc + [r.v])))
    case WEqz => WResult(Falls, s.(flag := !s.flag))
    case WCloseUpto(to) =>
      var (st, err) := Unwind(w, s.st, to, None);
      WResult(if err.Some? then Throws(err.value) else Falls, s.(st := st))
    case WBlock(l, body) => CatchBranch(Exec(w, body, s, f), l)
    case WLoop(l, body) =>
      var r := Exec(w, body, s, f);
      if r.out != Branches(l) then r
      else if f == 0 then WResult(WTimeout, r.s)
      else ExecInstr(w, i, r.s, f - 1)
    case WIf(thn) => if s.flag then Exec(w, thn, s, f) else WResult(Falls, s)
    case WBr(l) => WResult(Branches(l), s)
    case WBrIf(l) => WResult(if s.flag then Branches(l) else Falls, s)
    case WBrTable(bid, n) =>
      var k := if bid in s.next then s.next[bid] else 0;
      WResult(Branches(if k <= n then LSeg(bid, k) else LExit(bid)), s)
    case WSetNext(bid, k) => WResult(Falls, s.(next := s.next[bid := k]))
    case WReturn => WResult(Leaves, s)
  }

  function CatchBranch(r: WResult, l: Lbl): WResult {
    if r.out == Branches(l) then r.(out := Falls) else r
  }

  function App(a: Code, b: Code): Code {
    match a case WNil => b case WCons(i, rest) => WCons(i, App(rest, b))
  }

  function One(i: Instr): Code { WCons(i, WNil) }

  lemma {:induction false} ExecApp(w: World, a: Code, b: Code, s: WState, f: nat)
    ensures Exec(w, App(a, b), s, f)
            == var r := Exec(w, a, s, f); if r.out.Falls? then Exec(w, b, r.s, f) else r
    decreases a
  {
    match a
    case WNil =>
    case WCons(i, rest) =>
      var r := ExecInstr(w, i, s, f);
      if r.out.Falls? { ExecApp(w, rest, b, r.s, f); }
  }

  // ----- the lowering -----

  /** A block with labels: its dispatch id, and how many variables were open,
      statically, where it began. */
  datatype Frame = Frame(b: Stmts, bid: int, base: nat)

  type Scope = seq<Frame>

  datatype Target = Target(bid: int, seg: nat, base: nat)

  /** Labels up to and including `name`, counted from 1. */
  function SegIndex(b: Stmts, name: string): (k: nat)
    requires name in Labels(b)
    ensures k > 0
  {
    if b.hd == Label(name) then 1 else (if b.hd.Label? then 1 else 0) + SegIndex(b.tl, name)
  }

  /** la_lookup: the nearest enclosing block that declares the label. The label's
      close base (la_close_bases) counts the variables declared before it. */
  function Lookup(sc: Scope, name: string): Option<Target> {
    if sc == [] then None
    else if name in Labels(sc[0].b) then
      var fr := sc[0];
      Some(Target(fr.bid, SegIndex(fr.b, name), LabelBase(fr.b, name, fr.base)))
    else Lookup(sc[1..], name)
  }

  function LabelBase(b: Stmts, name: string, base: nat): nat
    requires name in Labels(b)
  {
    if b.hd == Label(name) then base
    else LabelBase(b.tl, name, base + if b.hd.LocalClose? then 1 else 0)
  }

  function CountLabels(b: Stmts): nat {
    match b case Nil => 0 case Cons(s, tl) => (if s.Label? then 1 else 0) + CountLabels(tl)
  }

  /** next_label and next_label_id. */
  datatype Ctr = Ctr(n: int, id: int)

  /** The innermost loop's break label, and close_count at its entry. */
  datatype Loop = Loop(n: int, base: nat)

  datatype Env = Env(sc: Scope, loop: Option<Loop>)

  function CloseIf(cond: bool, to: nat, rest: Code): Code {
    if cond then WCons(WCloseUpto(to), rest) else rest
  }

  function InLoop(env: Env, n: int, cc: nat): Env {
    env.(loop := Some(Loop(n, cc)))
  }

  /** (block $brk_n (loop $cont_n body)) */
  function LoopShell(n: int, body: Code): Code {
    var inner := One(WLoop(LCont(n), body));
    One(WBlock(LBrk(n), inner))
  }

  /** Leave the loop unless the test holds, run the body, go round again. */
  function Guarded(n: int, q: Query, body: Code): Code {
    var again := App(body, One(WBr(LCont(n))));
    WCons(WTest(q), WCons(WEqz, WCons(WBrIf(LBrk(n)), again)))
  }

  /** A repeat's condition, with the body's variables closed after it. */
  function Until(n: int, k: int, closes: bool, cc: nat): Code {
    var again := CloseIf(closes, cc, One(WBrIf(LCont(n))));
    WCons(WTest(QCond(k)), WCons(WEqz, again))
  }

  /** $next := k, then to the dispatch loop. */
  function GotoSeg(bid: int, k: nat): Code {
    WCons(WSetNext(bid, k), One(WBr(LDispatch(bid))))
  }

  function EmitStmt(s: Stmt, env: Env, cc: nat, g: Ctr): (Code, Ctr)
    decreases s, 0
  {
    match s
    case Act(k) => (One(WAsk(QAct(k))), g)
    case LocalClose(k) => (One(WPush(QDecl(k))), g)
    case Label(_) => (WNil, g)
    case Do(b) => EmitBlock(b, env, cc, g)
    case If(k, thn, els) =>
      var end := LIfEnd(g.n);
      var (t, g1) := EmitBlock(thn, env, cc, g.(n := g.n + 1));
      var (e, g2) := EmitBlock(els, env, cc, g1);
      var arm := WIf(App(t, One(WBr(end))));
      var body := WCons(WTest(QCond(k)), WCons(arm, e));
      (One(WBlock(end, body)), g2)
    case While(k, b) =>
      var (c, g1) := EmitBlock(b, InLoop(env, g.n, cc), cc, g.(n := g.n + 1));
      (LoopShell(g.n, Guarded(g.n, QCond(k), c)), g1)
    case Repeat(b, k) =>
      var (c, g1) := EmitStmts(b, InLoop(env, g.n, cc), cc, g.(n := g.n + 1));
      (LoopShell(g.n, App(c, Until(g.n, k, CountClose(b) > 0, cc))), g1)
    case ForGen(k, closing, b) =>
      var (c, g1) := EmitBlock(b, InLoop(env, g.n, cc), if closing then cc + 1 else cc, g.(n := g.n + 1));
      var loop := LoopShell(g.n, Guarded(g.n, QNext(k), c));
      (WCons(if closing then WPush(QInit(k, closing))
        else WAsk(QInit(k, closing)), App(loop, CloseIf(closing, cc, WNil))), g1)
    case Break =>
      if env.loop.None? then (WNil, g) // "break outside loop"
      else (CloseIf(cc > env.loop.value.base, env.loop.value.base, One(WBr(LBrk(env.loop.value.n)))), g)
    case Return(k) => (WCons(WAsk(QReturn(k)), CloseIf(cc > 0, 0, One(WReturn))), g)
    case Goto(name) =>
      match Lookup(env.sc, name)
      case None => (WNil, g) // "no visible label"
      case Some(t) =>
        (CloseIf(cc > t.base, t.base, GotoSeg(t.bid, t.seg)), g)
  }

  function Bump(s: Stmt, cc: nat): nat {
    if s.LocalClose? then cc + 1 else cc
  }

  /** A block without labels, statement by statement. */
  function EmitSeq(ss: Stmts, env: Env, cc: nat, g: Ctr): (Code, Ctr)
    decreases ss, 0
  {
    match ss
    case Nil => (WNil, g)
    case Cons(s, tl) =>
      var (c, g1) := EmitStmt(s, env, cc, g);
      var (d, g2) := EmitSeq(tl, env, Bump(s, cc), g1);
      (App(c, d), g2)
  }

  /** The dispatch loop's body: `acc` is what the innermost open $seg block holds
      so far, k the segment being emitted. */
  function EmitSegs(ss: Stmts, bid: int, k: nat, acc: Code, env: Env, cc: nat, g: Ctr): (Code, Ctr)
    decreases ss, 0
  {
    match ss
    case Nil => (App(acc, One(WBr(LExit(bid)))), g)
    case Cons(Label(_), tl) =>
      EmitSegs(tl, bid, k + 1, One(WBlock(LSeg(bid, k + 1), App(acc, GotoSeg(bid, k + 1)))), env, cc, g)
    case Cons(s, tl) =>
      var (c, g1) := EmitStmt(s, env, cc, g);
      EmitSegs(tl, bid, k, App(acc, c), env, Bump(s, cc), g1)
  }

  function Opened(b: Stmts, env: Env, cc: nat, g: Ctr): Env {
    env.(sc := [Frame(b, g.id, cc)] + env.sc)
  }

  function Numbered(b: Stmts, g: Ctr): Ctr {
    g.(id := g.id + CountLabels(b))
  }

  function Table(bid: int, n: nat): Code {
    One(WBlock(LSeg(bid, 0), One(WBrTable(bid, n))))
  }

  /** emit_block_stmts. */
  function EmitStmts(b: Stmts, env: Env, cc: nat, g: Ctr): (Code, Ctr)
    decreases b, 1
  {
    if CountLabels(b) == 0 then EmitSeq(b, env, cc, g)
    else
      var bid := g.id;
      var (c, g1) := EmitSegs(b, bid, 0, Table(bid, CountLabels(b)), Opened(b, env, cc, g), cc, Numbered(b, g));
      (WCons(WSetNext(bid, 0), One(WBlock(LExit(bid), One(WLoop(LDispatch(bid), c))))), g1)
  }

  /** emit_block. */
  function EmitBlock(b: Stmts, env: Env, cc: nat, g: Ctr): (Code, Ctr)
    decreases b, 2
  {
    var (c, g1) := EmitStmts(b, env, cc, g);
    (App(c, CloseIf(CountClose(b) > 0, cc, WNil)), g1)
  }

  // ----- which programs the front end lets through -----

  const MAX_BLOCK_LABELS := 64

  predicate OnlyLabels(ss: Stmts) {
    match ss case Nil => true case Cons(s, tl) => s.Label? && OnlyLabels(tl)
  }

  /** Labels a statement's gotos leave it for. */
  function Gotos(s: Stmt): set<string>
    decreases s, 0
  {
    match s
    case Goto(name) => {name}
    case Do(b) => BlockGotos(b)
    case If(_, thn, els) => BlockGotos(thn) + BlockGotos(els)
    case While(_, b) => BlockGotos(b)
    case Repeat(b, _) => BlockGotos(b)
    case ForGen(_, _, b) => BlockGotos(b)
    case _ => {}
  }

  function SeqGotos(ss: Stmts): set<string>
    decreases ss, 0
  {
    match ss case Nil => {} case Cons(s, tl) => Gotos(s) + SeqGotos(tl)
  }

  function BlockGotos(b: Stmts): set<string>
    decreases b, 1
  {
    SeqGotos(b) - Labels(b)
  }

  /** A goto among the statements `ss` of block b may not jump forward over a
      <close> declaration, unless only labels follow its label to the block's
      end (`soft`: not in a repeat body, whose condition follows). */
  predicate MayJump(b: Stmts, ss: Stmts, name: string, soft: bool) {
    name in Labels(b) ==>
      var to := After(b, name);
      Len(to) >= Len(ss) || CountClose(to) == CountClose(ss) || (soft && OnlyLabels(to))
  }

  ghost predicate LegalStmt(s: Stmt, inLoop: bool)
    decreases s, 0
  {
    match s
    case Do(b) => LegalBlock(b, inLoop, true)
    case If(_, thn, els) => LegalBlock(thn, inLoop, true) && LegalBlock(els, inLoop, true)
    case While(_, b) => LegalBlock(b, true, true)
    case Repeat(b, _) => LegalBlock(b, true, false)
    case ForGen(_, _, b) => LegalBlock(b, true, true)
    case Break => inLoop
    case _ => true
  }

  ghost predicate LegalSeq(b: Stmts, ss: Stmts, inLoop: bool, soft: bool)
    decreases ss, 0
  {
    match ss
    case Nil => true
    case Cons(s, tl) =>
      && LegalStmt(s, inLoop)
      && (forall name | name in Gotos(s) :: MayJump(b, ss, name, soft))
      && LegalSeq(b, tl, inLoop, soft)
  }

  predicate DistinctLabels(b: Stmts) {
    match b case Nil => true case Cons(s, tl) => (s.Label? ==> s.name !in Labels(tl)) && DistinctLabels(tl)
  }

  ghost predicate LegalBlock(b: Stmts, inLoop: bool, soft: bool)
    decreases b, 1
  {
    DistinctLabels(b) && CountLabels(b) < MAX_BLOCK_LABELS && LegalSeq(b, b, inLoop, soft)
  }
}
