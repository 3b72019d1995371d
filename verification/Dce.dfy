/** Dead-code elimination in the assembler (src/wat2wasm.c): what a pruned and
    renumbered module does is what the module did. */
module Dce {
  import opened Keep

  // ----- modules -----

  /** A multi-value block type is a synthesized signature; the others need none. */
  datatype BlockType = BlockType(hasType: bool, params: seq<int>, results: seq<int>)

  datatype Op =
    | Const(n: int) | LocalGet(i: nat) | LocalSet(i: nat)
    | GlobalGet(g: nat) | GlobalSet(g: nat)
    | Call(f: nat) | ReturnCall(f: nat) | RefFunc(f: nat) | CallRef
    | MkPair | Fst | Snd | GetMem | PutMem
    | Host(k: int, args: nat)
    | Br(d: nat) | BrIf(d: nat) | Return

  datatype Nodes = Nil | Cons(hd: Node, tl: Nodes)

  /** A folded instruction: its operands first. */
  datatype Node =
    | Plain(op: Op, operands: Nodes)
    | Block(bt: BlockType, body: Nodes)
    | Loop(bt: BlockType, body: Nodes)
    | If(bt: BlockType, cond: Nodes, thn: Nodes, els: Nodes)

  datatype Func = Func(params: nat, locals: nat, results: nat, exported: bool, sig: nat, body: Nodes)

  /** Functions are numbered from 0, imports first. A global's initial value is
      what its initializer leaves on the stack. */
  datatype Module = Module(imports: nat, importArgs: seq<nat>, funcs: seq<Func>, globals: seq<Nodes>)

  function Size(m: Module): nat { m.imports + |m.funcs| + |m.globals| }

  // ----- what refers to what -----

  /** dce_scan: the joint indices (functions, then globals from `gbase`) that a
      piece of code refers to. */
  function OpRefs(op: Op, gbase: nat): set<nat> {
    match op
    case Call(f) => {f}
    case ReturnCall(f) => {f}
    case RefFunc(f) => {f}
    case GlobalGet(g) => {gbase + g}
    case GlobalSet(g) => {gbase + g}
    case _ => {}
  }

  function Refs(ns: Nodes, gbase: nat): set<nat>
    decreases ns
  {
    match ns case Nil => {} case Cons(n, tl) => NodeRefs(n, gbase) + Refs(tl, gbase)
  }

  function NodeRefs(n: Node, gbase: nat): set<nat>
    decreases n
  {
    match n
    case Plain(op, operands) => OpRefs(op, gbase) + Refs(operands, gbase)
    case Block(_, body) => Refs(body, gbase)
    case Loop(_, body) => Refs(body, gbase)
    case If(_, cond, thn, els) => Refs(cond, gbase) + Refs(thn, gbase) + Refs(els, gbase)
  }

  function GBase(m: Module): nat { m.imports + |m.funcs| }

  predicate IsRoot(m: Module, e: nat) {
    m.imports <= e < GBase(m) && m.funcs[e - m.imports].exported
  }

  /** What resolve_index guarantees: every reference names something. */
  predicate OpResolved(m: Module, op: Op) {
    match op
    case Call(f) => f < GBase(m)
    case ReturnCall(f) => f < GBase(m)
    case RefFunc(f) => f < GBase(m)
    case GlobalGet(g) => g < |m.globals|
    case GlobalSet(g) => g < |m.globals|
    case _ => true
  }

  predicate CodeResolved(m: Module, ns: Nodes)
    decreases ns
  {
    match ns case Nil => true case Cons(n, tl) => NodeResolved(m, n) && CodeResolved(m, tl)
  }

  predicate NodeResolved(m: Module, n: Node)
    decreases n
  {
    match n
    case Plain(op, operands) => OpResolved(m, op) && CodeResolved(m, operands)
    case Block(_, body) => CodeResolved(m, body)
    case Loop(_, body) => CodeResolved(m, body)
    case If(_, cond, thn, els) => CodeResolved(m, cond) && CodeResolved(m, thn) && CodeResolved(m, els)
  }

  function CodeOf(m: Module, e: nat): Nodes
    requires e < Size(m)
  {
    if e < m.imports then Nil
    else if e < GBase(m) then m.funcs[e - m.imports].body
    else m.globals[e - GBase(m)]
  }

  ghost predicate Resolved(m: Module) {
    forall e | 0 <= e < Size(m) :: CodeResolved(m, CodeOf(m, e))
  }

  /** The references of entity e: an import has none. */
  function EntityRefs(m: Module, e: nat): set<nat>
    requires e < Size(m)
  {
    Refs(CodeOf(m, e), GBase(m))
  }

  ghost predicate Closed(m: Module, s: set<nat>) {
    && (forall e: nat | IsRoot(m, e) :: e in s)
    && forall e | e in s && e < Size(m) :: EntityRefs(m, e) <= s
  }

  // ----- running a module -----

  datatype Value = Num(n: int) | Ref(f: nat) | Pair(a: Value, b: Value)

  /** The host sees numbers; references reach it as opaque values. */
  datatype Shape = ANum(n: int) | AnOpaque

  datatype Event = Event(k: int, args: seq<Shape>)

  type World = seq<Event> -> int

  datatype Store = Heap(globals: seq<Value>, mem: map<int, Value>, tr: seq<Event>)

  datatype State = State(stack: seq<Value>, locals: seq<Value>, store: Store)

  datatype Outcome = Falls | Branches(d: nat) | Returns | Tail(f: nat) | Traps | OutOfFuel

  datatype Result = Result(out: Outcome, s: State)

  function ShapeOf(v: Value): Shape { if v.Num? then ANum(v.n) else AnOpaque }

  function Shapes(vs: seq<Value>): seq<Shape> { seq(|vs|, i requires 0 <= i < |vs| => ShapeOf(vs[i])) }

  function Trap(s: State): Result { Result(Traps, s) }

  function Push(s: State, v: Value): Result { Result(Falls, s.(stack := s.stack + [v])) }

  function Drop(s: State, n: nat): State
    requires n <= |s.stack|
  {
    s.(stack := s.stack[..|s.stack| - n])
  }

  function Top(s: State, n: nat): seq<Value>
    requires n <= |s.stack|
  {
    s.stack[|s.stack| - n..]
  }

  /** Ask the host: it gets the shapes of the arguments and answers a number. */
  function AskHost(w: World, s: State, k: int, args: nat): Result {
    if |s.stack| < args then Trap(s)
    else
      var tr := s.store.tr + [Event(k, Shapes(Top(s, args)))];
      Push(Drop(s, args).(store := s.store.(tr := tr)), Num(w(tr)))
  }

  /** Everything but calls. */
  function Step(w: World, op: Op, s: State): Result {
    var n := |s.stack|;
    match op
    case Const(k) => Push(s, Num(k))
    case LocalGet(i) => if i < |s.locals| then Push(s, s.locals[i]) else Trap(s)
    case LocalSet(i) =>
      if i < |s.locals| && n > 0 then Result(Falls, Drop(s, 1).(locals := s.locals[i := s.stack[n - 1]])) else Trap(s)
    case GlobalGet(g) => if g < |s.store.globals| then Push(s, s.store.globals[g]) else Trap(s)
    case GlobalSet(g) =>
      if g < |s.store.globals| && n > 0
      then Result(Falls, Drop(s, 1).(store := s.store.(globals := s.store.globals[g := s.stack[n - 1]])))
      else Trap(s)
    case RefFunc(f) => Push(s, Ref(f))
    case MkPair => if n > 1 then Push(Drop(s, 2), Pair(s.stack[n - 2], s.stack[n - 1])) else Trap(s)
    case Fst => if n > 0 && s.stack[n - 1].Pair? then Push(Drop(s, 1), s.stack[n - 1].a) else Trap(s)
    case Snd => if n > 0 && s.stack[n - 1].Pair? then Push(Drop(s, 1), s.stack[n - 1].b) else Trap(s)
    case GetMem =>
      if n > 0 && s.stack[n - 1].Num? && s.stack[n - 1].n in s.store.mem
      then Push(Drop(s, 1), s.store.mem[s.stack[n - 1].n]) else Trap(s)
    case PutMem =>
      if n > 1 && s.stack[n - 2].Num?
      then Result(Falls, Drop(s, 2).(store := s.store.(mem := s.store.mem[s.stack[n - 2].n := s.stack[n - 1]])))
      else Trap(s)
    case Host(k, args) => AskHost(w, s, k, args)
    case Br(d) => Result(Branches(d), s)
    case BrIf(d) =>
      if n > 0 && s.stack[n - 1].Num? then Result(if s.stack[n - 1].n != 0 then Branches(d) else Falls, Drop(s, 1))
        else Trap(s)
    case Return => Result(Returns, s)
    case ReturnCall(f) => Result(Tail(f), s)
    case _ => Trap(s)
  }

  function Exec(m: Module, w: World, ns: Nodes, s: State, fuel: nat): Result
    decreases fuel, 1, ns, 1
  {
    match ns
    case Nil => Result(Falls, s)
    case Cons(n, tl) =>
      var r := ExecNode(m, w, n, s, fuel);
      if r.out.Falls? then Exec(m, w, tl, r.s, fuel) else r
  }

  function ExecNode(m: Module, w: World, n: Node, s: State, fuel: nat): Result
    decreases fuel, 1, n, 0
  {
    match n
    case Plain(op, operands) =>
      var r := Exec(m, w, operands, s, fuel);
      if r.out.Falls? then Apply(m, w, op, r.s, fuel) else r
    case Block(_, body) => Leave(Exec(m, w, body, s, fuel))
    case Loop(_, body) =>
      var r := Exec(m, w, body, s, fuel);
      if r.out != Branches(0) then Leave(r)
      else if fuel == 0 then Result(OutOfFuel, r.s)
      else ExecNode(m, w, n, r.s, fuel - 1)
    case If(_, cond, thn, els) =>
      var r := Exec(m, w, cond, s, fuel);
      if !r.out.Falls? then r
      else if |r.s.stack| == 0 || !r.s.stack[|r.s.stack| - 1].Num? then Trap(r.s)
      else
        var t := r.s.stack[|r.s.stack| - 1].n;
        Leave(Exec(m, w, if t != 0 then thn else els, Drop(r.s, 1), fuel))
  }

  /** An instruction whose operands are on the stack. */
  function Apply(m: Module, w: World, op: Op, s: State, fuel: nat): Result
    decreases fuel, 0, 2
  {
    if op.Call? then Invoke(m, w, op.f, s, fuel)
    else if !op.CallRef? then Step(w, op, s)
    else if |s.stack| > 0 && s.stack[|s.stack| - 1].Ref? then Invoke(m, w, s.stack[|s.stack| - 1].f, Drop(s, 1), fuel)
    else Trap(s)
  }

  /** A branch out of a construct counts one level less outside it. */
  function Leave(r: Result): Result {
    if !r.out.Branches? then r
    else r.(out := if r.out.d == 0 then Falls else Branches(r.out.d - 1))
  }

  function Zeros(n: nat): seq<Value> { seq(n, i => Num(0)) }

  /** Call f with the arguments on the stack; only the results come back. */
  function Invoke(m: Module, w: World, f: nat, s: State, fuel: nat): Result
    decreases fuel, 0, 1
  {
    if fuel == 0 then Result(OutOfFuel, s)
    else if f < m.imports then
      if f < |m.importArgs| then AskHost(w, s, -1 - f, m.importArgs[f]) else Trap(s)
    else if !Enters(m, f, s) then Trap(s)
    else Ended(m, w, f, s, BodyRun(m, w, f, s, fuel), fuel)
  }

  /** After the body: a tail call goes on, anything else comes back. */
  function Ended(m: Module, w: World, f: nat, s: State, r: Result, fuel: nat): Result
    requires fuel > 0 && Enters(m, f, s)
    decreases fuel, 0, 0
  {
    if r.out.Tail? then Invoke(m, w, r.out.f, Onto(m, f, s, r), fuel - 1)
    else Finish(m.funcs[f - m.imports], Drop(s, m.funcs[f - m.imports].params), r)
  }

  /** A defined function, and enough operands for it. */
  predicate Enters(m: Module, f: nat, s: State) {
    m.imports <= f && f - m.imports < |m.funcs| && m.funcs[f - m.imports].params <= |s.stack|
  }

  function BodyRun(m: Module, w: World, f: nat, s: State, fuel: nat): Result
    requires fuel > 0 && Enters(m, f, s)
    decreases fuel, 0, 0
  {
    var fn := m.funcs[f - m.imports];
    Exec(m, w, fn.body, State([], Top(s, fn.params) + Zeros(fn.locals), s.store), fuel - 1)
  }

  /** The operands a tail call leaves in place of the caller. */
  function Onto(m: Module, f: nat, s: State, r: Result): State
    requires Enters(m, f, s)
  {
    var rest := Drop(s, m.funcs[f - m.imports].params);
    rest.(stack := rest.stack + r.s.stack, store := r.s.store)
  }

  /** Back in the caller. */
  function Finish(fn: Func, s: State, r: Result): Result {
    if r.out.Falls? || r.out.Returns? then Returned(fn, s, r.s)
    else Result(if r.out.OutOfFuel? then OutOfFuel else Traps, s.(store := r.s.store))
  }

  function Returned(fn: Func, s: State, callee: State): Result {
    if |callee.stack| < fn.results then Trap(s.(store := callee.store))
    else Result(Falls, s.(stack := s.stack + Top(callee, fn.results), store := callee.store))
  }

  /** Globals get their values in order; an initializer sees the earlier ones. */
  function InitGlobals(m: Module, w: World, n: nat, fuel: nat): seq<Value>
    requires n <= |m.globals|
  {
    if n == 0 then []
    else
      var gs := InitGlobals(m, w, n - 1, fuel);
      gs + [InitValue(m, w, m.globals[n - 1], gs, fuel)]
  }

  function InitValue(m: Module, w: World, init: Nodes, gs: seq<Value>, fuel: nat): Value {
    ResultValue(Exec(m, w, init, Instance(gs, []), fuel))
  }

  /** A fresh instance with the given globals, and operands from the host. */
  function Instance(gs: seq<Value>, args: seq<Value>): State {
    State(args, [], Heap(gs, map[], []))
  }

  function ResultValue(r: Result): Value {
    if r.out.Falls? && |r.s.stack| > 0 then r.s.stack[|r.s.stack| - 1] else Num(0)
  }

  // ----- pruning -----

  /** Which defined functions and which globals survive. */
  datatype Plan = Plan(imports: nat, funcs: seq<bool>, globals: seq<bool>)

  function PlanOf(m: Module, reach: seq<bool>): Plan
    requires |reach| == Size(m)
  {
    Plan(m.imports, reach[m.imports..GBase(m)], reach[GBase(m)..])
  }

  predicate LiveFunc(p: Plan, f: nat) {
    f < p.imports || (f - p.imports < |p.funcs| && p.funcs[f - p.imports])
  }

  predicate LiveGlobal(p: Plan, g: nat) {
    g < |p.globals| && p.globals[g]
  }

  /** map_func: imports are all kept. */
  function MapFunc(p: Plan, f: nat): nat {
    if f < p.imports then f
    else if LiveFunc(p, f) then p.imports + Rank(p.funcs, f - p.imports) else DROPPED
  }

  function MapGlobal(p: Plan, g: nat): nat {
    if LiveGlobal(p, g) then Rank(p.globals, g) else DROPPED
  }

  function MapOp(p: Plan, op: Op): Op {
    match op
    case Call(f) => Call(MapFunc(p, f))
    case ReturnCall(f) => ReturnCall(MapFunc(p, f))
    case RefFunc(f) => RefFunc(MapFunc(p, f))
    case GlobalGet(g) => GlobalGet(MapGlobal(p, g))
    case GlobalSet(g) => GlobalSet(MapGlobal(p, g))
    case _ => op
  }

  function MapCode(p: Plan, ns: Nodes): Nodes
    decreases ns
  {
    match ns case Nil => Nil case Cons(n, tl) => Cons(MapNode(p, n), MapCode(p, tl))
  }

  function MapNode(p: Plan, n: Node): Node
    decreases n
  {
    match n
    case Plain(op, operands) => Plain(MapOp(p, op), MapCode(p, operands))
    case Block(bt, body) => Block(bt, MapCode(p, body))
    case Loop(bt, body) => Loop(bt, MapCode(p, body))
    case If(bt, cond, thn, els) => If(bt, MapCode(p, cond), MapCode(p, thn), MapCode(p, els))
  }

  function MapBody(p: Plan): Func -> Func {
    (fn: Func) => fn.(body := MapCode(p, fn.body))
  }

  function MapInit(p: Plan): Nodes -> Nodes {
    (ns: Nodes) => MapCode(p, ns)
  }

  function Map<T, U>(xs: seq<T>, f: T -> U): (r: seq<U>)
    ensures |r| == |xs| && forall i | 0 <= i < |xs| :: r[i] == f(xs[i])
  {
    seq(|xs|, i requires 0 <= i < |xs| => f(xs[i]))
  }

  predicate Fits(m: Module, p: Plan) {
    p.imports == m.imports && |p.funcs| == |m.funcs| && |p.globals| == |m.globals|
  }

  /** The module that is written: survivors, renumbered. */
  function Prune(m: Module, p: Plan): Module
    requires Fits(m, p)
  {
    Module(m.imports, m.importArgs, Map(Kept(p.funcs, m.funcs, |m.funcs|), MapBody(p)),
           Map(Kept(p.globals, m.globals, |m.globals|), MapInit(p)))
  }

  // ----- lockstep -----

  predicate LiveOp(p: Plan, op: Op) {
    match op
    case Call(f) => LiveFunc(p, f)
    case ReturnCall(f) => LiveFunc(p, f)
    case RefFunc(f) => LiveFunc(p, f)
    case GlobalGet(g) => LiveGlobal(p, g)
    case GlobalSet(g) => LiveGlobal(p, g)
    case _ => true
  }

  predicate LiveCode(p: Plan, ns: Nodes)
    decreases ns
  {
    match ns case Nil => true case Cons(n, tl) => LiveNode(p, n) && LiveCode(p, tl)
  }

  predicate LiveNode(p: Plan, n: Node)
    decreases n
  {
    match n
    case Plain(op, operands) => LiveOp(p, op) && LiveCode(p, operands)
    case Block(_, body) => LiveCode(p, body)
    case Loop(_, body) => LiveCode(p, body)
    case If(_, cond, thn, els) => LiveCode(p, cond) && LiveCode(p, thn) && LiveCode(p, els)
  }

  /** Survivors refer to survivors only. */
  ghost predicate Sound(m: Module, p: Plan) {
    && Fits(m, p)
    && (forall i | 0 <= i < |m.funcs| && p.funcs[i] :: LiveCode(p, m.funcs[i].body))
    && forall g | 0 <= g < |m.globals| && p.globals[g] :: LiveCode(p, m.globals[g])
  }

  function MapValue(p: Plan, v: Value): Value {
    match v
    case Num(_) => v
    case Ref(f) => Ref(MapFunc(p, f))
    case Pair(a, b) => Pair(MapValue(p, a), MapValue(p, b))
  }

  predicate LiveValue(p: Plan, v: Value) {
    match v
    case Num(_) => true
    case Ref(f) => LiveFunc(p, f)
    case Pair(a, b) => LiveValue(p, a) && LiveValue(p, b)
  }

  function MapValues(p: Plan, vs: seq<Value>): (r: seq<Value>)
    ensures |r| == |vs| && forall i | 0 <= i < |vs| :: r[i] == MapValue(p, vs[i])
  {
    seq(|vs|, i requires 0 <= i < |vs| => MapValue(p, vs[i]))
  }

  predicate LiveValues(p: Plan, vs: seq<Value>) {
    forall i | 0 <= i < |vs| :: LiveValue(p, vs[i])
  }

  function MapStore(p: Plan, h: Store): Store
    requires |h.globals| <= |p.globals|
  {
    Heap(MapValues(p, Kept(p.globals, h.globals, |h.globals|)), map a | a in h.mem :: MapValue(p, h.mem[a]), h.tr)
  }

  /** Only live references are in reach: no dropped global is looked at. */
  predicate LiveStore(p: Plan, h: Store) {
    && |h.globals| <= |p.globals|
    && (forall g | 0 <= g < |h.globals| && p.globals[g] :: LiveValue(p, h.globals[g]))
    && forall a | a in h.mem :: LiveValue(p, h.mem[a])
  }

  predicate LiveState(p: Plan, s: State) {
    LiveValues(p, s.stack) && LiveValues(p, s.locals) && LiveStore(p, s.store)
  }

  function MapState(p: Plan, s: State): State
    requires LiveState(p, s)
  {
    State(MapValues(p, s.stack), MapValues(p, s.locals), MapStore(p, s.store))
  }

  predicate LiveResult(p: Plan, r: Result) {
    LiveState(p, r.s) && (r.out.Tail? ==> LiveFunc(p, r.out.f))
  }

  function MapResult(p: Plan, r: Result): Result
    requires LiveResult(p, r)
  {
    Result(if r.out.Tail? then Tail(MapFunc(p, r.out.f)) else r.out, MapState(p, r.s))
  }

  ghost predicate Matches(p: Plan, r: Result, r': Result) {
    LiveResult(p, r) && r' == MapResult(p, r)
  }

  lemma {:induction false} PushMatches(p: Plan, s: State, v: Value)
    requires LiveState(p, s) && LiveValue(p, v)
    ensures Matches(p, Push(s, v), Push(MapState(p, s), MapValue(p, v)))
  {
    assert MapValues(p, s.stack + [v]) == MapValues(p, s.stack) + [MapValue(p, v)];
  }

  lemma {:induction false} DropMatches(p: Plan, s: State, n: nat)
    requires LiveState(p, s) && n <= |s.stack|
    ensures LiveState(p, Drop(s, n)) && Drop(MapState(p, s), n) == MapState(p, Drop(s, n))
    ensures MapValues(p, Top(s, n)) == Top(MapState(p, s), n) && LiveValues(p, Top(s, n))
  {
    var k := |s.stack| - n;
    assert MapValues(p, s.stack)[..k] == MapValues(p, s.stack[..k]);
    assert MapValues(p, s.stack)[k..] == MapValues(p, s.stack[k..]);
  }

  lemma {:induction false} ShapesMatch(p: Plan, vs: seq<Value>)
    ensures Shapes(MapValues(p, vs)) == Shapes(vs)
  {
  }

  lemma {:induction false} HostMatches(p: Plan, w: World, s: State, k: int, args: nat)
    requires LiveState(p, s)
    ensures Matches(p, AskHost(w, s, k, args), AskHost(w, MapState(p, s), k, args))
  {
    if args <= |s.stack| {
      DropMatches(p, s, args);
      ShapesMatch(p, Top(s, args));
      var tr := s.store.tr + [Event(k, Shapes(Top(s, args)))];
      var t := Drop(s, args).(store := s.store.(tr := tr));
      PushMatches(p, t, Num(w(tr)));
    }
  }

  lemma {:induction false} GetMatches(p: Plan, s: State, g: nat)
    requires LiveState(p, s) && LiveGlobal(p, g)
    ensures g < |s.store.globals| <==> Rank(p.globals, g) < |MapStore(p, s.store).globals|
    ensures g < |s.store.globals|
      ==> MapStore(p, s.store).globals[Rank(p.globals, g)] == MapValue(p, s.store.globals[g])
  {
    var n := |s.store.globals|;
    if g < n {
      KeptAt(p.globals, s.store.globals, g, n);
    } else {
      RankMonotone(p.globals, n, g);
    }
  }

  lemma {:induction false} SetMatches(p: Plan, h: Store, g: nat, v: Value)
    requires LiveStore(p, h) && LiveGlobal(p, g) && g < |h.globals| && LiveValue(p, v)
    ensures LiveStore(p, h.(globals := h.globals[g := v]))
    ensures Rank(p.globals, g) < |MapStore(p, h).globals|
    ensures MapStore(p, h.(globals := h.globals[g := v]))
            == MapStore(p, h).(globals := MapStore(p, h).globals[Rank(p.globals, g) := MapValue(p, v)])
  {
    KeptUpdate(p.globals, h.globals, g, v, |h.globals|);
    KeptAt(p.globals, h.globals, g, |h.globals|);
    var k, was := Rank(p.globals, g), Kept(p.globals, h.globals, |h.globals|);
    assert MapValues(p, was[k := v]) == MapValues(p, was)[k := MapValue(p, v)];
  }

  lemma {:induction false} MapConcat(p: Plan, a: seq<Value>, b: seq<Value>)
    ensures MapValues(p, a + b) == MapValues(p, a) + MapValues(p, b)
    ensures LiveValues(p, a) && LiveValues(p, b) ==> LiveValues(p, a + b)
  {
  }

  /** Replace the top n operands, live ones, by a live value. */
  lemma {:induction false} ReplaceMatches(p: Plan, s: State, n: nat, v: Value)
    requires LiveState(p, s) && n <= |s.stack| && LiveValue(p, v)
    ensures Matches(p, Push(Drop(s, n), v), Push(Drop(MapState(p, s), n), MapValue(p, v)))
  {
    DropMatches(p, s, n);
    PushMatches(p, Drop(s, n), v);
  }

  lemma {:induction false} StepMatches(p: Plan, w: World, op: Op, s: State)
    requires LiveState(p, s) && LiveOp(p, op)
    ensures Matches(p, Step(w, op, s), Step(w, MapOp(p, op), MapState(p, s)))
  {
    var n := |s.stack|;
    match op
    case Const(k) => PushMatches(p, s, Num(k));
    case LocalGet(i) => if i < |s.locals| { PushMatches(p, s, s.locals[i]); }
    case LocalSet(i) => if i < |s.locals| && n > 0 { LocalSetMatches(p, s, i); }
    case GlobalGet(g) =>
      GetMatches(p, s, g);
      if g < |s.store.globals| { PushMatches(p, s, s.store.globals[g]); }
    case GlobalSet(g) =>
      GetMatches(p, s, g);
      if g < |s.store.globals| && n > 0 { GlobalSetMatches(p, s, g); }
    case RefFunc(f) => PushMatches(p, s, Ref(f));
    case Host(k, args) => HostMatches(p, w, s, k, args);
    case Call(_) =>
    case ReturnCall(_) =>
    case BrIf(d) => if n > 0 { DropMatches(p, s, 1); }
    case _ => DataMatches(p, w, op, s);
  }

  lemma {:induction false} DataMatches(p: Plan, w: World, op: Op, s: State)
    requires LiveState(p, s)
    requires op.MkPair? || op.Fst? || op.Snd? || op.GetMem? || op.PutMem? || op.Br? || op.Return? || op.CallRef?
    ensures Matches(p, Step(w, op, s), Step(w, op, MapState(p, s)))
  {
    var n := |s.stack|;
    match op
    case MkPair => if n > 1 { ReplaceMatches(p, s, 2, Pair(s.stack[n - 2], s.stack[n - 1])); }
    case Fst => if n > 0 && s.stack[n - 1].Pair? { ReplaceMatches(p, s, 1, s.stack[n - 1].a); }
    case Snd => if n > 0 && s.stack[n - 1].Pair? { ReplaceMatches(p, s, 1, s.stack[n - 1].b); }
    case _ => MemMatches(p, w, op, s);
  }

  lemma {:induction false} MemMatches(p: Plan, w: World, op: Op, s: State)
    requires LiveState(p, s) && (op.GetMem? || op.PutMem? || op.Br? || op.Return? || op.CallRef?)
    ensures Matches(p, Step(w, op, s), Step(w, op, MapState(p, s)))
  {
    var n := |s.stack|;
    if op.GetMem? && n > 0 && s.stack[n - 1].Num? && s.stack[n - 1].n in s.store.mem {
      ReplaceMatches(p, s, 1, s.store.mem[s.stack[n - 1].n]);
    } else if op.PutMem? && n > 1 && s.stack[n - 2].Num? {
      PutMatches(p, s);
    }
  }

  lemma {:induction false} LocalSetMatches(p: Plan, s: State, i: nat)
    requires LiveState(p, s) && i < |s.locals| && |s.stack| > 0
    ensures var v := s.stack[|s.stack| - 1];
            Matches(p, Result(Falls, Drop(s, 1).(locals := s.locals[i := v])),
                    Result(Falls, Drop(MapState(p, s), 1).(locals := MapState(p, s).locals[i := MapValue(p, v)])))
  {
    var v := s.stack[|s.stack| - 1];
    DropMatches(p, s, 1);
    assert MapValues(p, s.locals[i := v]) == MapValues(p, s.locals)[i := MapValue(p, v)];
  }

  lemma {:induction false} GlobalSetMatches(p: Plan, s: State, g: nat)
    requires LiveState(p, s) && LiveGlobal(p, g) && g < |s.store.globals| && |s.stack| > 0
    ensures var v, h := s.stack[|s.stack| - 1], MapStore(p, s.store);
            && Rank(p.globals, g) < |h.globals|
            && Matches(p, Result(Falls, Drop(s, 1).(store := s.store.(globals := s.store.globals[g := v]))),
                       Result(Falls, Drop(MapState(p, s), 1).(store :=
                         h.(globals := h.globals[Rank(p.globals, g) := MapValue(p, v)]))))
  {
    DropMatches(p, s, 1);
    SetMatches(p, s.store, g, s.stack[|s.stack| - 1]);
  }

  lemma {:induction false} PutMatches(p: Plan, s: State)
    requires LiveState(p, s) && |s.stack| > 1 && s.stack[|s.stack| - 2].Num?
    ensures var a, v, h := s.stack[|s.stack| - 2].n, s.stack[|s.stack| - 1], MapStore(p, s.store);
            Matches(p, Result(Falls, Drop(s, 2).(store := s.store.(mem := s.store.mem[a := v]))),
                    Result(Falls, Drop(MapState(p, s), 2).(store := h.(mem := h.mem[a := MapValue(p, v)]))))
  {
    DropMatches(p, s, 2);
    var mem, a, v := s.store.mem, s.stack[|s.stack| - 2].n, s.stack[|s.stack| - 1];
    assert MapStore(p, s.store.(mem := mem[a := v])).mem == MapStore(p, s.store).mem[a := MapValue(p, v)];
  }

  lemma {:induction false} LeaveMatches(p: Plan, r: Result, r': Result)
    requires Matches(p, r, r')
    ensures Matches(p, Leave(r), Leave(r'))
  {
  }

  lemma {:induction false} ExecMatches(m: Module, p: Plan, w: World, ns: Nodes, s: State, fuel: nat)
    requires Sound(m, p) && LiveCode(p, ns) && LiveState(p, s)
    ensures Matches(p, Exec(m, w, ns, s, fuel), Exec(Prune(m, p), w, MapCode(p, ns), MapState(p, s), fuel))
    decreases fuel, 1, ns, 2
  {
    match ns
    case Nil =>
    case Cons(n, tl) =>
      NodeMatches(m, p, w, n, s, fuel);
      var r := ExecNode(m, w, n, s, fuel);
      if r.out.Falls? { ExecMatches(m, p, w, tl, r.s, fuel); }
  }

  lemma {:induction false} NodeMatches(m: Module, p: Plan, w: World, n: Node, s: State, fuel: nat)
    requires Sound(m, p) && LiveNode(p, n) && LiveState(p, s)
    ensures Matches(p, ExecNode(m, w, n, s, fuel), ExecNode(Prune(m, p), w, MapNode(p, n), MapState(p, s), fuel))
    decreases fuel, 1, n, 1
  {
    match n
    case Plain(op, operands) =>
      ExecMatches(m, p, w, operands, s, fuel);
      var r := Exec(m, w, operands, s, fuel);
      if r.out.Falls? { ApplyMatches(m, p, w, op, r.s, fuel); }
    case Block(_, body) =>
      ExecMatches(m, p, w, body, s, fuel);
    case Loop(_, body) =>
      ExecMatches(m, p, w, body, s, fuel);
      var r := Exec(m, w, body, s, fuel);
      if r.out == Branches(0) && fuel > 0 { NodeMatches(m, p, w, n, r.s, fuel - 1); }
    case If(_, _, _, _) => IfMatches(m, p, w, n, s, fuel);
  }

  lemma {:induction false} IfMatches(m: Module, p: Plan, w: World, n: Node, s: State, fuel: nat)
    requires Sound(m, p) && n.If? && LiveNode(p, n) && LiveState(p, s)
    ensures Matches(p, ExecNode(m, w, n, s, fuel), ExecNode(Prune(m, p), w, MapNode(p, n), MapState(p, s), fuel))
    decreases fuel, 1, n, 0
  {
    var m', n', s' := Prune(m, p), MapNode(p, n), MapState(p, s);
    var r, r' := Exec(m, w, n.cond, s, fuel), Exec(m', w, n'.cond, s', fuel);
    ExecMatches(m, p, w, n.cond, s, fuel);
    if !r.out.Falls? {
      assert ExecNode(m, w, n, s, fuel) == r && ExecNode(m', w, n', s', fuel) == r';
    } else if |r.s.stack| == 0 || !r.s.stack[|r.s.stack| - 1].Num? {
      assert ExecNode(m, w, n, s, fuel) == Trap(r.s) && ExecNode(m', w, n', s', fuel) == Trap(r'.s);
    } else {
      var arm, t := if r.s.stack[|r.s.stack| - 1].n != 0 then n.thn else n.els, Drop(r.s, 1);
      DropMatches(p, r.s, 1);
      ExecMatches(m, p, w, arm, t, fuel);
      LeaveMatches(p, Exec(m, w, arm, t, fuel), Exec(m', w, MapCode(p, arm), MapState(p, t), fuel));
      assert ExecNode(m, w, n, s, fuel) == Leave(Exec(m, w, arm, t, fuel));
      assert ExecNode(m', w, n', s', fuel) == Leave(Exec(m', w, MapCode(p, arm), MapState(p, t), fuel));
    }
  }

  lemma {:induction false} ApplyMatches(m: Module, p: Plan, w: World, op: Op, s: State, fuel: nat)
    requires Sound(m, p) && LiveOp(p, op) && LiveState(p, s)
    ensures Matches(p, Apply(m, w, op, s, fuel), Apply(Prune(m, p), w, MapOp(p, op), MapState(p, s), fuel))
    decreases fuel, 0, 4
  {
    if op.Call? {
      InvokeMatches(m, p, w, op.f, s, fuel);
    } else if !op.CallRef? {
      StepMatches(p, w, op, s);
    } else if |s.stack| > 0 && s.stack[|s.stack| - 1].Ref? {
      DropMatches(p, s, 1);
      InvokeMatches(m, p, w, s.stack[|s.stack| - 1].f, Drop(s, 1), fuel);
    }
  }

  /** A live function is found, with its code renumbered, at its new index. */
  lemma {:induction false} FuncAt(m: Module, p: Plan, f: nat)
    requires Fits(m, p) && m.imports <= f && LiveFunc(p, f)
    ensures var i := Rank(p.funcs, f - m.imports);
            i < |Prune(m, p).funcs| && Prune(m, p).funcs[i] == MapBody(p)(m.funcs[f - m.imports])
  {
    KeptAt(p.funcs, m.funcs, f - m.imports, |m.funcs|);
  }

  lemma {:induction false} ReturnedMatches(p: Plan, fn: Func, s: State, callee: State)
    requires LiveState(p, s) && LiveState(p, callee)
    ensures Matches(p, Returned(fn, s, callee), Returned(MapBody(p)(fn), MapState(p, s), MapState(p, callee)))
  {
    if fn.results <= |callee.stack| {
      DropMatches(p, callee, fn.results);
      MapConcat(p, s.stack, Top(callee, fn.results));
    }
  }

  lemma {:induction false} InvokeMatches(m: Module, p: Plan, w: World, f: nat, s: State, fuel: nat)
    requires Sound(m, p) && LiveFunc(p, f) && LiveState(p, s)
    ensures Matches(p, Invoke(m, w, f, s, fuel), Invoke(Prune(m, p), w, MapFunc(p, f), MapState(p, s), fuel))
    decreases fuel, 0, 3
  {
    if fuel == 0 {
    } else if f < m.imports {
      if f < |m.importArgs| { HostMatches(p, w, s, -1 - f, m.importArgs[f]); }
    } else {
      EntersMatches(m, p, f, s);
      if Enters(m, f, s) { BodyMatches(m, p, w, f, s, fuel); }
    }
  }

  lemma {:induction false} EntersMatches(m: Module, p: Plan, f: nat, s: State)
    requires Fits(m, p) && m.imports <= f && LiveFunc(p, f) && LiveState(p, s)
    ensures Enters(Prune(m, p), MapFunc(p, f), MapState(p, s)) == Enters(m, f, s)
      && MapFunc(p, f) >= Prune(m, p).imports
    ensures Enters(m, f, s)
      ==> Prune(m, p).funcs[MapFunc(p, f) - Prune(m, p).imports] == MapBody(p)(m.funcs[f - m.imports])
  {
    FuncAt(m, p, f);
  }

  lemma {:induction false} RunMatches(m: Module, p: Plan, w: World, f: nat, s: State, fuel: nat)
    requires Sound(m, p) && LiveFunc(p, f) && LiveState(p, s) && fuel > 0 && m.imports <= f && Enters(m, f, s)
    requires Enters(Prune(m, p), MapFunc(p, f), MapState(p, s))
    ensures Matches(p, BodyRun(m, w, f, s, fuel), BodyRun(Prune(m, p), w, MapFunc(p, f), MapState(p, s), fuel))
    decreases fuel, 0, 0
  {
    EntersMatches(m, p, f, s);
    var fn := m.funcs[f - m.imports];
    var callee := State([], Top(s, fn.params) + Zeros(fn.locals), s.store);
    DropMatches(p, s, fn.params);
    MapConcat(p, Top(s, fn.params), Zeros(fn.locals));
    assert MapValues(p, Zeros(fn.locals)) == Zeros(fn.locals);
    assert MapState(p, callee) == State([], Top(MapState(p, s), fn.params) + Zeros(fn.locals), MapState(p, s).store);
    ExecMatches(m, p, w, fn.body, callee, fuel - 1);
  }

  lemma {:induction false} OntoMatches(m: Module, p: Plan, f: nat, s: State, r: Result)
    requires Fits(m, p) && m.imports <= f && LiveFunc(p, f) && LiveState(p, s) && LiveResult(p, r) && Enters(m, f, s)
    requires Enters(Prune(m, p), MapFunc(p, f), MapState(p, s))
    ensures LiveState(p, Onto(m, f, s, r))
    ensures Onto(Prune(m, p), MapFunc(p, f), MapState(p, s), MapResult(p, r)) == MapState(p, Onto(m, f, s, r))
  {
    EntersMatches(m, p, f, s);
    var n := m.funcs[f - m.imports].params;
    DropMatches(p, s, n);
    TailMatches(p, Drop(s, n), r.s);
  }

  lemma {:induction false} BodyMatches(m: Module, p: Plan, w: World, f: nat, s: State, fuel: nat)
    requires Sound(m, p) && LiveFunc(p, f) && LiveState(p, s) && fuel > 0 && m.imports <= f && Enters(m, f, s)
    ensures Matches(p, Invoke(m, w, f, s, fuel), Invoke(Prune(m, p), w, MapFunc(p, f), MapState(p, s), fuel))
    decreases fuel, 0, 2
  {
    var m', f', s' := Prune(m, p), MapFunc(p, f), MapState(p, s);
    EntersMatches(m, p, f, s);
    RunMatches(m, p, w, f, s, fuel);
    var r, r' := BodyRun(m, w, f, s, fuel), BodyRun(m', w, f', s', fuel);
    EndedMatches(m, p, w, f, s, r, fuel);
    InvokeEnters(m, w, f, s, fuel);
    InvokeEnters(m', w, f', s', fuel);
    SameMatches(p, Ended(m, w, f, s, r, fuel), Ended(m', w, f', s', r', fuel), Invoke(m, w, f, s, fuel),
      Invoke(m', w, f', s', fuel));
  }

  lemma {:induction false} EndedMatches(m: Module, p: Plan, w: World, f: nat, s: State, r: Result, fuel: nat)
    requires Sound(m, p) && LiveFunc(p, f) && LiveState(p, s) && fuel > 0 && m.imports <= f && Enters(m, f, s)
      && LiveResult(p, r)
    requires Enters(Prune(m, p), MapFunc(p, f), MapState(p, s))
    ensures Matches(p, Ended(m, w, f, s, r, fuel),
      Ended(Prune(m, p), w, MapFunc(p, f), MapState(p, s), MapResult(p, r), fuel))
    decreases fuel, 0, 1
  {
    if r.out.Tail? { TailEnds(m, p, w, f, s, r, fuel); } else { BackEnds(m, p, w, f, s, r, fuel); }
  }

  lemma {:induction false} TailEnds(m: Module, p: Plan, w: World, f: nat, s: State, r: Result, fuel: nat)
    requires Sound(m, p) && LiveFunc(p, f) && LiveState(p, s) && fuel > 0 && m.imports <= f && Enters(m, f, s)
      && LiveResult(p, r)
    requires Enters(Prune(m, p), MapFunc(p, f), MapState(p, s)) && r.out.Tail?
    ensures Matches(p, Ended(m, w, f, s, r, fuel),
      Ended(Prune(m, p), w, MapFunc(p, f), MapState(p, s), MapResult(p, r), fuel))
    decreases fuel, 0, 0
  {
    OntoMatches(m, p, f, s, r);
    InvokeMatches(m, p, w, r.out.f, Onto(m, f, s, r), fuel - 1);
  }

  lemma {:induction false} BackEnds(m: Module, p: Plan, w: World, f: nat, s: State, r: Result, fuel: nat)
    requires Fits(m, p) && LiveFunc(p, f) && LiveState(p, s) && fuel > 0 && m.imports <= f && Enters(m, f, s)
      && LiveResult(p, r)
    requires Enters(Prune(m, p), MapFunc(p, f), MapState(p, s)) && !r.out.Tail?
    ensures Matches(p, Ended(m, w, f, s, r, fuel),
      Ended(Prune(m, p), w, MapFunc(p, f), MapState(p, s), MapResult(p, r), fuel))
  {
    EntersMatches(m, p, f, s);
    var fn, m', f', s', r' := m.funcs[f - m.imports], Prune(m, p), MapFunc(p, f), MapState(p, s), MapResult(p, r);
    DropMatches(p, s, fn.params);
    FinishMatches(p, fn, Drop(s, fn.params), r);
    EndedBack(m, w, f, s, r, fuel);
    EndedBack(m', w, f', s', r', fuel);
  }

  lemma {:induction false} EndedBack(m: Module, w: World, f: nat, s: State, r: Result, fuel: nat)
    requires fuel > 0 && Enters(m, f, s) && !r.out.Tail?
    ensures Ended(m, w, f, s, r, fuel) == Finish(m.funcs[f - m.imports], Drop(s, m.funcs[f - m.imports].params), r)
  {
  }

  lemma {:induction false} InvokeEnters(m: Module, w: World, f: nat, s: State, fuel: nat)
    requires fuel > 0 && m.imports <= f && Enters(m, f, s)
    ensures Invoke(m, w, f, s, fuel) == Ended(m, w, f, s, BodyRun(m, w, f, s, fuel), fuel)
  {
  }

  lemma {:induction false} SameMatches(p: Plan, r: Result, r': Result, all: Result, all': Result)
    requires Matches(p, r, r') && all == r && all' == r'
    ensures Matches(p, all, all')
  {
  }

  lemma {:induction false} TailMatches(p: Plan, s: State, callee: State)
    requires LiveState(p, s) && LiveState(p, callee)
    ensures var t := s.(stack := s.stack + callee.stack, store := callee.store);
            && LiveState(p, t)
            && MapState(p, t) == MapState(p, s).(stack := MapState(p, s).stack + MapState(p, callee).stack, store :=
              MapState(p, callee).store)
  {
    MapConcat(p, s.stack, callee.stack);
  }

  lemma {:induction false} FinishMatches(p: Plan, fn: Func, s: State, r: Result)
    requires LiveState(p, s) && LiveResult(p, r) && !r.out.Tail?
    ensures Matches(p, Finish(fn, s, r), Finish(MapBody(p)(fn), MapState(p, s), MapResult(p, r)))
  {
    if r.out.Falls? || r.out.Returns? { ReturnedMatches(p, fn, s, r.s); }
  }
}
