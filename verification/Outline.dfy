/** Loop outlining (src/codegen/outline.c and the loop emitters of stmt.c): the code a
    loop is emitted as, run in place or in a function of its own that is called again
    for every budget of iterations. */
module Outline {
  import opened Options
  import opened Numbers
  import opened IntFor

  // ----- values and the world -----

  /** A captured local's slot holds a reference to its box. */
  datatype V = Nil | Val(k: I64) | BoxAt(a: nat)

  datatype Query = QOp(k: int, args: seq<V>) | QClosure(k: int, boxes: seq<V>) | QIter(it: V, state: V, key: V)

  /** Calls may write any box. */
  datatype Reply = Value(vs: seq<V>, heap: seq<V>) | Raise(e: int, heap: seq<V>)

  datatype Event = Event(q: Query, r: Reply)

  type Trace = seq<Event>

  /** What $for_prep / $for_limit settle at a numeric loop's entry. */
  datatype Prep = Refused(e: int) | Ready(cur: V, stop: V, step: V, skip: bool)

  /** prep: $for_prep, and $for_limit for an integer loop. next: the generic loop's next
      counter, or None when it ends there. boxed: the captured slots. */
  datatype Code = Code(
    ask: (Trace, Query, seq<V>) -> Reply, truthy: V -> bool,
    prep: (bool, V, V, V) -> Prep, next: (V, V, V) -> Option<V>, boxed: set<nat>)

  // ----- the language -----

  datatype Exprs = ENil | ECons(e: Expr, es: Exprs)

  datatype Expr = Const(k: I64) | Get(slot: nat) | Op(o: int, args: Exprs) | Closure(o: int, caps: seq<nat>)

  datatype Stmts = SNil | SCons(hd: Stmt, tl: Stmts)

  datatype Stmt =
    | Local(slots: seq<nat>, es: Exprs)
    | Assign(slots: seq<nat>, es: Exprs)
    | LocalFun(slot: nat, k: int, caps: seq<nat>)
    | Do(body: Stmts)
    | If(c: Expr, thn: Stmts, els: Stmts)
    | While(c: Expr, body: Stmts)
    | Repeat(body: Stmts, c: Expr)
    | ForNum(isInt: bool, slot: nat, start: Expr, stop: Expr, step: Expr, body: Stmts)
    | ForGen(slots: seq<nat>, es: Exprs, body: Stmts)
    | Break
    | Return(e: Expr)
    | Do1(e: Expr)

  predicate IsLoop(s: Stmt) { s.While? || s.Repeat? || s.ForNum? || s.ForGen? }

  // ----- the machine -----

  /** The control locals of a for loop at one nesting level. */
  datatype Ctl = Ctl(cur: V, stop: V, step: V, iter: V, state: V, k: V, skip: bool)

  const NO_CTL := Ctl(Nil, Nil, Nil, Nil, Nil, Nil, false)

  /** One activation: slots, control locals by level, boxes, the trace, how many more
      iterations may run at all, and $ol_budget. */
  datatype M = M(env: seq<V>, ctl: map<nat, Ctl>, heap: seq<V>, tr: Trace, fuel: nat, bud: int)

  datatype Res<T> = Ok(v: T, heap: seq<V>, tr: Trace) | Bad(e: int, heap: seq<V>, tr: Trace)

  function CtlAt(m: M, fd: nat): Ctl { if fd in m.ctl then m.ctl[fd] else NO_CTL }

  function Raw(env: seq<V>, s: nat): V { if s < |env| then env[s] else Nil }

  function ReadSlot(c: Code, env: seq<V>, heap: seq<V>, s: nat): V {
    var v := Raw(env, s);
    if s !in c.boxed then v else if v.BoxAt? && v.a < |heap| then heap[v.a] else Nil
  }

  function Refs(env: seq<V>, caps: seq<nat>): (r: seq<V>)
    ensures |r| == |caps|
  {
    seq(|caps|, i requires 0 <= i < |caps| => Raw(env, caps[i]))
  }

  function Asked(c: Code, q: Query, heap: seq<V>, tr: Trace): Res<seq<V>> {
    var r := c.ask(tr, q, heap);
    var tr' := tr + [Event(q, r)];
    if r.Raise? then Bad(r.e, r.heap, tr') else Ok(r.vs, r.heap, tr')
  }

  function First(vs: seq<V>): V { if vs == [] then Nil else vs[0] }

  function One(r: Res<seq<V>>): Res<V> {
    match r case Ok(vs, h, tr) => Ok(First(vs), h, tr) case Bad(e, h, tr) => Bad(e, h, tr)
  }

  function Eval(c: Code, e: Expr, env: seq<V>, heap: seq<V>, tr: Trace): Res<V>
    decreases e
  {
    match e
    case Const(k) => Ok(Val(k), heap, tr)
    case Get(s) => Ok(ReadSlot(c, env, heap, s), heap, tr)
    case Op(k, args) =>
      var vs := EvalAll(c, args, env, heap, tr);
      if vs.Bad? then Bad(vs.e, vs.heap, vs.tr) else One(Asked(c, QOp(k, vs.v), vs.heap, vs.tr))
    case Closure(k, caps) => One(Asked(c, QClosure(k, Refs(env, caps)), heap, tr))
  }

  function EvalAll(c: Code, es: Exprs, env: seq<V>, heap: seq<V>, tr: Trace): Res<seq<V>>
    decreases es
  {
    match es
    case ENil => Ok([], heap, tr)
    case ECons(e, tl) =>
      var a := Eval(c, e, env, heap, tr);
      if a.Bad? then Bad(a.e, a.heap, a.tr)
      else
        var vs := EvalAll(c, tl, env, a.heap, a.tr);
        if vs.Bad? then vs else Ok([a.v] + vs.v, vs.heap, vs.tr)
  }

  /** A declaration binds a fresh box; an assignment writes through it. */
  function Store(c: Code, s: nat, v: V, bind: bool, m: M): (r: M)
    ensures |r.env| == |m.env| && r.fuel == m.fuel && r.tr == m.tr && r.bud == m.bud && r.ctl == m.ctl
  {
    if s >= |m.env| then m
    else if s !in c.boxed then m.(env := m.env[s := v])
    else if bind then m.(env := m.env[s := BoxAt(|m.heap|)], heap := m.heap + [v])
    else if m.env[s].BoxAt? && m.env[s].a < |m.heap| then m.(heap := m.heap[m.env[s].a := v])
    else m
  }

  function StoreAll(c: Code, slots: seq<nat>, vs: seq<V>, bind: bool, m: M): (r: M)
    ensures |r.env| == |m.env| && r.fuel == m.fuel && r.tr == m.tr && r.bud == m.bud && r.ctl == m.ctl
    decreases |slots|
  {
    if slots == [] then m
    else StoreAll(c, slots[1..], if vs == [] then [] else vs[1..], bind, Store(c, slots[0], First(vs), bind, m))
  }

  /** Where a loop goes next. */
  datatype Turn = Go(m: M) | Stop(m: M) | Fail(e: int, m: M)

  datatype Out = Norm(m: M) | Brk(m: M) | Ret(v: V, m: M) | Err(e: int, m: M) | Timeout(m: M) | Susp(m: M)

  /** Inline: not outlined. Inner: a loop inside an outlined one. Self: the outlined one. */
  datatype Mode = Inline | Inner | Self

  function Within(mode: Mode): Mode { if mode.Inline? then Inline else Inner }

  /** i32.sub by one. */
  function Dec32(n: int): int { if n == -0x8000_0000 then 0x7fff_ffff else n - 1 }

  // ----- the emitted loops -----

  /** A statement that only evaluates and stores. */
  function Put<T>(r: Res<T>, m: M): M { m.(heap := r.heap, tr := r.tr) }

  /** The setup, between ol_init_open and ol_init_close: Stop when the loop is skipped. */
  function Setup(c: Code, s: Stmt, fd: nat, m: M): (t: Turn)
    requires IsLoop(s)
    ensures t.m.fuel == m.fuel && |t.m.env| == |m.env| && t.m.bud == m.bud
  {
    match s
    case ForNum(isInt, slot, a, z, d, _) =>
      var x := Eval(c, a, m.env, m.heap, m.tr);
      if x.Bad? then Fail(x.e, Put(x, m))
      else
        var y := Eval(c, z, m.env, x.heap, x.tr);
        if y.Bad? then Fail(y.e, Put(y, m))
        else
          var u := Eval(c, d, m.env, y.heap, y.tr);
          if u.Bad? then Fail(u.e, Put(u, m)) else Prepared(c, isInt, slot, fd, c.prep(isInt, x.v, y.v, u.v), Put(u, m))
    case ForGen(slots, es, _) =>
      var vs := EvalAll(c, es, m.env, m.heap, m.tr);
      if vs.Bad? then Fail(vs.e, Put(vs, m))
      else
        var k := NO_CTL.(iter := Nth(vs.v, 0), state := Nth(vs.v, 1), k := Nth(vs.v, 2));
        Go(Put(vs, m).(ctl := m.ctl[fd := k]))
    case _ => Go(m)
  }

  function Nth(vs: seq<V>, i: nat): V { if i < |vs| then vs[i] else Nil }

  /** The counter lives in the slot itself unless that is captured. */
  function Prepared(c: Code, isInt: bool, slot: nat, fd: nat, p: Prep, m: M): (t: Turn)
    ensures t.m.fuel == m.fuel && |t.m.env| == |m.env| && t.m.bud == m.bud
  {
    match p
    case Refused(e) => Fail(e, m)
    case Ready(cur, stop, step, skip) =>
      var m' := SetCur(c, slot, fd, cur, m.(ctl := m.ctl[fd := NO_CTL.(stop := stop, step := step, skip := skip)]));
      if skip then Stop(m') else Go(m')
  }

  function SetCur(c: Code, slot: nat, fd: nat, cur: V, m: M): (r: M)
    ensures |r.env| == |m.env| && r.fuel == m.fuel && r.heap == m.heap && r.tr == m.tr && r.bud == m.bud
  {
    if slot in c.boxed then m.(ctl := m.ctl[fd := CtlAt(m, fd).(cur := cur)])
    else if slot < |m.env| then m.(env := m.env[slot := cur])
    else m
  }

  function Cur(c: Code, slot: nat, fd: nat, m: M): V {
    if slot in c.boxed then CtlAt(m, fd).cur else Raw(m.env, slot)
  }

  /** The integer loop's exit tests (IntFor). */
  predicate IntPast(cur: V, stop: V, step: V) { cur.Val? && stop.Val? && step.Val? && Past(0, cur.k, stop.k, step.k) }

  function IntNext(cur: V, step: V): Option<V> {
    if !cur.Val? || !step.Val? || Wrapped(0, Wrap(cur.k + step.k), cur.k, step.k) then None
      else Some(Val(Wrap(cur.k + step.k)))
  }

  /** From the header to the body. */
  function Enter(c: Code, s: Stmt, fd: nat, m: M): (t: Turn)
    requires IsLoop(s)
    ensures t.m.fuel == m.fuel && |t.m.env| == |m.env|
  {
    match s
    case While(e, _) =>
      var v := Eval(c, e, m.env, m.heap, m.tr);
      if v.Bad? then Fail(v.e, Put(v, m)) else if c.truthy(v.v) then Go(Put(v, m)) else Stop(Put(v, m))
    case ForNum(isInt, slot, _, _, _, _) =>
      var cur, k := Cur(c, slot, fd, m), CtlAt(m, fd);
      if isInt && IntPast(cur, k.stop, k.step) then Stop(m)
      else if slot in c.boxed then Go(Store(c, slot, cur, true, m))
      else Go(m)
    case ForGen(slots, _, _) =>
      var k := CtlAt(m, fd);
      var r := Asked(c, QIter(k.iter, k.state, k.k), m.heap, m.tr);
      if r.Bad? then Fail(r.e, Put(r, m))
      else
        var m' := Put(r, m).(ctl := m.ctl[fd := k.(k := First(r.v))]);
        if First(r.v).Nil? then Stop(m') else Go(StoreAll(c, slots, r.v, true, m'))
    case _ => Go(m)
  }

  /** From the body back to the header. */
  function After(c: Code, s: Stmt, fd: nat, m: M): (t: Turn)
    requires IsLoop(s)
    ensures t.m.fuel == m.fuel && |t.m.env| == |m.env|
  {
    match s
    case Repeat(_, e) =>
      var v := Eval(c, e, m.env, m.heap, m.tr);
      if v.Bad? then Fail(v.e, Put(v, m)) else if c.truthy(v.v) then Stop(Put(v, m)) else Go(Put(v, m))
    case ForNum(isInt, slot, _, _, _, _) =>
      var k := CtlAt(m, fd);
      var cur := Cur(c, slot, fd, m);
      var n := if isInt then IntNext(cur, k.step) else c.next(cur, k.stop, k.step);
      if n.None? then Stop(m) else Go(SetCur(c, slot, fd, n.value, m))
    case _ => Go(m)
  }

  function Ends(t: Turn): Out
    requires !t.Go?
  {
    match t case Stop(m) => Norm(m) case Fail(e, m) => Err(e, m)
  }

  function BodyLevel(s: Stmt, fd: nat): nat { if s.ForNum? || s.ForGen? then fd + 1 else fd }

  /** One pass of a loop: from its header to its header again, or out. */
  datatype Pass = Again(m: M) | Left(o: Out)

  function Turned(c: Code, s: Stmt, fd: nat, mode: Mode, m: M): (p: Pass)
    requires IsLoop(s)
    ensures p.Again? ==> p.m.fuel <= m.fuel && |p.m.env| == |m.env|
    ensures p.Left? ==> p.o.m.fuel <= m.fuel && |p.o.m.env| == |m.env| && !p.o.Susp?
    decreases m.fuel, s, 0
  {
    var t := Enter(c, s, fd, m);
    if !t.Go? then Left(Ends(t))
    else
      Bodied(c, s, fd, Run(c, s.body, BodyLevel(s, fd), Within(mode), t.m))
  }

  /** After the body. */
  function Bodied(c: Code, s: Stmt, fd: nat, o: Out): (p: Pass)
    requires IsLoop(s) && !o.Susp?
    ensures p.Again? ==> p.m.fuel <= o.m.fuel && |p.m.env| == |o.m.env|
    ensures p.Left? ==> p.o.m.fuel <= o.m.fuel && |p.o.m.env| == |o.m.env| && !p.o.Susp?
  {
    if o.Brk? then Left(Norm(o.m))
    else if !o.Norm? then Left(o)
    else
      var u := After(c, s, fd, o.m);
      if u.Go? then Again(u.m) else Left(Ends(u))
  }

  /** ol_loop_header: every header counts down; only the outlined loop's suspends. */
  function Counted(mode: Mode, m: M): M { if mode.Inline? then m else m.(bud := Dec32(m.bud)) }

  /** A loop from its header on. */
  function Loop(c: Code, s: Stmt, fd: nat, mode: Mode, m: M): (o: Out)
    requires IsLoop(s)
    ensures o.m.fuel <= m.fuel && |o.m.env| == |m.env| && (o.Susp? ==> mode.Self?)
    ensures o.Susp? && m.bud >= 1 ==> o.m.fuel < m.fuel
    decreases m.fuel, s, 1
  {
    var m0 := Counted(mode, m);
    if mode.Self? && m0.bud < 0 then Susp(m0)
    else if m0.fuel == 0 then Timeout(m0)
    else
      var p := PassOf(c, s, fd, mode, m);
      if p.Again? then Loop(c, s, fd, mode, p.m) else p.o
  }

  /** A pass, its header counted and paid for. */
  function PassOf(c: Code, s: Stmt, fd: nat, mode: Mode, m: M): (p: Pass)
    requires IsLoop(s) && m.fuel > 0
    ensures p.Again? ==> p.m.fuel < m.fuel && |p.m.env| == |m.env|
    ensures p.Left? ==> p.o.m.fuel < m.fuel && |p.o.m.env| == |m.env| && !p.o.Susp?
    decreases m.fuel, s, 0
  {
    Turned(c, s, fd, mode, Counted(mode, m).(fuel := m.fuel - 1))
  }

  function Run(c: Code, ss: Stmts, fd: nat, mode: Mode, m: M): (o: Out)
    requires !mode.Self?
    ensures o.m.fuel <= m.fuel && |o.m.env| == |m.env| && !o.Susp?
    decreases m.fuel, ss, 4
  {
    match ss
    case SNil => Norm(m)
    case SCons(s, tl) =>
      var o := Step(c, s, fd, mode, m);
      if o.Norm? then Run(c, tl, fd, mode, o.m) else o
  }

  function Step(c: Code, s: Stmt, fd: nat, mode: Mode, m: M): (o: Out)
    requires !mode.Self?
    ensures o.m.fuel <= m.fuel && |o.m.env| == |m.env| && !o.Susp?
    decreases m.fuel, s, 3
  {
    match s
    case Local(slots, es) =>
      var vs := EvalAll(c, es, m.env, m.heap, m.tr);
      if vs.Bad? then Err(vs.e, Put(vs, m)) else Norm(StoreAll(c, slots, vs.v, true, Put(vs, m)))
    case Assign(slots, es) =>
      var vs := EvalAll(c, es, m.env, m.heap, m.tr);
      if vs.Bad? then Err(vs.e, Put(vs, m)) else Norm(StoreAll(c, slots, vs.v, false, Put(vs, m)))
    case LocalFun(slot, k, caps) =>
      // the closure may capture its own box
      var m1 := Store(c, slot, Nil, true, m);
      var v := Eval(c, Closure(k, caps), m1.env, m1.heap, m1.tr);
      if v.Bad? then Err(v.e, Put(v, m1)) else Norm(Store(c, slot, v.v, false, Put(v, m1)))
    case Do(b) => Run(c, b, fd, mode, m)
    case If(e, thn, els) =>
      var v := Eval(c, e, m.env, m.heap, m.tr);
      if v.Bad? then Err(v.e, Put(v, m)) else Run(c, if c.truthy(v.v) then thn else els, fd, mode, Put(v, m))
    case Break => Brk(m)
    case Return(e) =>
      var v := Eval(c, e, m.env, m.heap, m.tr);
      if v.Bad? then Err(v.e, Put(v, m)) else Ret(v.v, Put(v, m))
    case Do1(e) =>
      var v := Eval(c, e, m.env, m.heap, m.tr);
      if v.Bad? then Err(v.e, Put(v, m)) else Norm(Put(v, m))
    case _ =>
      Started(c, s, fd, mode, Setup(c, s, fd, m))
  }

  /** A loop after its setup. */
  function Started(c: Code, s: Stmt, fd: nat, mode: Mode, t: Turn): (o: Out)
    requires IsLoop(s)
    ensures o.m.fuel <= t.m.fuel && |o.m.env| == |t.m.env| && (o.Susp? ==> mode.Self?)
    ensures o.Susp? && t.m.bud >= 1 ==> o.m.fuel < t.m.fuel
    decreases t.m.fuel, s, 2
  {
    if t.Go? then Loop(c, s, fd, mode, t.m) else Ends(t)
  }

  /** The loop where it stands; resume skips the setup. */
  function InPlace(c: Code, s: Stmt, fd: nat, resume: bool, m: M): (o: Out)
    requires IsLoop(s)
  {
    Started(c, s, fd, Inline, if resume then Go(m) else Setup(c, s, fd, m))
  }

  // ----- what the loop touches: scan_loop -----

  function SetOf(s: seq<nat>): set<nat> { set i | i in s }

  function RefE(e: Expr): set<nat>
    decreases e
  {
    match e
    case Const(_) => {}
    case Get(s) => {s}
    case Op(_, es) => RefEs(es)
    case Closure(_, caps) => SetOf(caps)
  }

  function RefEs(es: Exprs): set<nat>
    decreases es
  {
    match es case ENil => {} case ECons(e, tl) => RefE(e) + RefEs(tl)
  }

  function RefS(ss: Stmts): set<nat>
    decreases ss
  {
    match ss case SNil => {} case SCons(s, tl) => Ref(s) + RefS(tl)
  }

  /** scan_stmt's ref: slots read, written, declared or captured. */
  function Ref(s: Stmt): set<nat>
    decreases s
  {
    match s
    case Local(slots, es) => SetOf(slots) + RefEs(es)
    case Assign(slots, es) => SetOf(slots) + RefEs(es)
    case LocalFun(slot, _, caps) => {slot} + SetOf(caps)
    case Do(b) => RefS(b)
    case If(e, thn, els) => RefE(e) + RefS(thn) + RefS(els)
    case While(e, b) => RefE(e) + RefS(b)
    case Repeat(b, e) => RefS(b) + RefE(e)
    case ForNum(_, slot, a, z, d, b) => {slot} + RefE(a) + RefE(z) + RefE(d) + RefS(b)
    case ForGen(slots, es, b) => SetOf(slots) + RefEs(es) + RefS(b)
    case Break => {}
    case Return(e) => RefE(e)
    case Do1(e) => RefE(e)
  }

  function DeclS(ss: Stmts): set<nat>
    decreases ss
  {
    match ss case SNil => {} case SCons(s, tl) => Decl(s) + DeclS(tl)
  }

  /** scan_stmt's decl. */
  function Decl(s: Stmt): set<nat>
    decreases s
  {
    match s
    case Local(slots, _) => SetOf(slots)
    case LocalFun(slot, _, _) => {slot}
    case Do(b) => DeclS(b)
    case If(_, thn, els) => DeclS(thn) + DeclS(els)
    case While(_, b) => DeclS(b)
    case Repeat(b, _) => DeclS(b)
    case ForNum(_, slot, _, _, _, b) => {slot} + DeclS(b)
    case ForGen(slots, _, b) => SetOf(slots) + DeclS(b)
    case _ => {}
  }

  /** loop_state: the slots handed from call to call. */
  function Carried(c: Code, s: Stmt): set<nat>
    requires IsLoop(s)
  {
    (Ref(s) - Decl(s)) + if s.ForNum? && s.slot !in c.boxed then {s.slot} else {}
  }

  /** The control locals handed from call to call; the skip flag is not among them. */
  function Handed(s: Stmt, fd: nat, m: M): map<nat, Ctl> {
    if s.ForNum? || s.ForGen? then map[fd := CtlAt(m, fd).(skip := false)] else map[]
  }

  // ----- the outlined function and its caller -----

  /** $ol_N: a new activation holding nothing but the state. */
  function FrameOf(c: Code, s: Stmt, fd: nat, m: M, budget: nat): (r: M)
    requires IsLoop(s)
    ensures |r.env| == |m.env| && r.fuel == m.fuel && r.bud == budget
  {
    var state := Carried(c, s);
    M(seq(|m.env|, i requires 0 <= i < |m.env| => if i in state then m.env[i] else Nil), Handed(s, fd, m), m.heap,
      m.tr, m.fuel, budget)
  }

  function Called(c: Code, s: Stmt, fd: nat, resume: bool, m: M, budget: nat): (o: Out)
    requires IsLoop(s) && budget >= 1
    ensures |o.m.env| == |m.env| && o.m.fuel <= m.fuel && (o.Susp? ==> o.m.fuel < m.fuel)
  {
    var n := FrameOf(c, s, fd, m, budget);
    Started(c, s, fd, Self, if resume then Go(n) else Setup(c, s, fd, n))
  }

  /** The results, back in the caller's locals. */
  function Back(c: Code, s: Stmt, fd: nat, m: M, n: M): (r: M)
    requires IsLoop(s) && |m.env| == |n.env|
    ensures |r.env| == |m.env| && r.fuel == n.fuel
  {
    var state := Carried(c, s);
    M(seq(|m.env|, i requires 0 <= i < |m.env| => if i in state then n.env[i] else m.env[i]),
      m.ctl + Handed(s, fd, n), n.heap, n.tr, n.fuel, m.bud)
  }

  /** What the caller makes of a status other than SUSPENDED. */
  function Returned(c: Code, s: Stmt, fd: nat, m: M, o: Out): (r: Out)
    requires IsLoop(s) && !o.Susp? && |o.m.env| == |m.env|
    ensures !r.Susp?
  {
    var m' := Back(c, s, fd, m, o.m);
    match o
    case Norm(_) => Norm(m')
    case Brk(_) => Brk(m')
    case Ret(v, _) => Ret(v, m')
    case Err(e, _) => Err(e, m')
    case Timeout(_) => Timeout(m')
  }

  /** emit_loop_call: call until the status is not SUSPENDED. */
  function CallLoop(c: Code, s: Stmt, fd: nat, resume: bool, m: M, budget: nat): (o: Out)
    requires IsLoop(s) && budget >= 1
    ensures !o.Susp?
    decreases m.fuel
  {
    var o := Called(c, s, fd, resume, m, budget);
    if o.Susp? then CallLoop(c, s, fd, true, Back(c, s, fd, m, o.m), budget) else Returned(c, s, fd, m, o)
  }
}
