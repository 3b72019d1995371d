/** Function bindings. */
module Bindings {
  // Function bindings (src/codegen/analysis.c, compute_func_bindings): what they say of a slot
  // or an upvalue is true on every run, so a direct call enters the function that dynamic
  // dispatch would.

  import opened Options
  import opened Numbers
  import opened Upvalues

  // ----- programs -----

  datatype Exprs = ENil | ECons(e: Expr, es: Exprs)

  /** GetGlobal and SetGlobal stand for every place a value can be kept outside locals. */
  datatype Expr =
    | Const(k: int) | GetLocal(s: nat) | GetUpval(i: nat) | GetGlobal(g: int) | Fun(f: nat)
    | Call(callee: Expr, args: Exprs)
    | Int(n: int) | Arith(op: Op, l: Expr, r: Expr) | Unary(bits: bool, x: Expr)

  datatype Target = ToLocal(s: nat) | ToUpval(i: nat) | ToGlobal(g: int)

  datatype Stmts = Nil | Cons(hd: Stmt, tl: Stmts)

  datatype Stmt =
    | LocalFun(slot: nat, f: nat)
    | LocalVals(slots: seq<nat>, close: seq<bool>, es: Exprs)
    | Assign(targets: seq<Target>, es: Exprs)
    | If(c: Expr, thn: Stmts, els: Stmts)
    | While(c: Expr, body: Stmts)
    | ForNum(slot: nat, a: Expr, z: Expr, d: Expr, body: Stmts)
    | ForGen(slots: seq<nat>, it: Expr, body: Stmts)
    | Return(e: Expr)
    | Do(e: Expr)

  datatype Fn = Fn(params: nat, locals: nat, body: Stmts)

  /** Bitwise operators, what an operator gives on other operands than ints (a float, or what
      a metamethod makes of it), and how often a numeric for runs: any functions. */
  datatype World = World(bits: (Op, int, int) -> int, other: (Op, V, V) -> int, un: (bool, V) -> int,
                         turns: (V, V, V) -> nat)

  /** The functions, with the tables name resolution left. */
  datatype Prog = Prog(fns: seq<Fn>, tabs: seq<Tab>, w: World)

  function Count(es: Exprs): nat { match es case ENil => 0 case ECons(_, tl) => 1 + Count(tl) }

  function Nth(es: Exprs, j: nat): Expr
    requires j < Count(es)
  {
    if j == 0 then es.e else Nth(es.es, j - 1)
  }

  // ----- running them -----

  /** VNone is a local before its declaration: scoping rules out reading it. */
  datatype V = VNone | VNil | VConst(k: int) | VInt(i: int) | VClo(f: nat, boxes: seq<nat>)

  /** A box, and the variable it was made for. */
  datatype Box = Box(of: (nat, nat), v: V)

  datatype Slot = Plain(v: V) | Boxed(b: nat)

  /** An activation: the function, its slots, its closure's boxes. */
  datatype Frame = Frame(f: nat, slots: seq<Slot>, clo: seq<nat>)

  datatype St = St(heap: seq<Box>, globals: map<int, V>)

  datatype Res<T> = Ok(v: T, st: St) | Err(e: int, st: St)

  datatype Flow = Next(fr: Frame, st: St) | Ret(v: V, st: St) | Fail(e: int, st: St)

  const STUCK := 1
  const NOT_CALLABLE := 2
  const TIMEOUT := 3
  const DIV_BY_ZERO := 4

  function Truthy(v: V): bool { !v.VNil? && v != VConst(0) }

  function Got(v: V, st: St): Res<V> { if v.VNone? then Err(STUCK, st) else Ok(v, st) }

  function ReadBox(st: St, b: nat): V { if b < |st.heap| then st.heap[b].v else VNone }

  function ReadSlot(fr: Frame, st: St, s: nat): V {
    if s >= |fr.slots| then VNone else match fr.slots[s] case Plain(v) => v case Boxed(b) => ReadBox(st, b)
  }

  function SetBox(st: St, b: nat, v: V): St {
    if b < |st.heap| then st.(heap := st.heap[b := st.heap[b].(v := v)]) else st
  }

  /** emit_box_ref for every entry of the upvalue table. */
  function Caught(fr: Frame, refs: seq<Ref>): Option<seq<nat>>
    decreases |refs|
  {
    if refs == [] then Some([])
    else
      var rest := Caught(fr, refs[..|refs| - 1]);
      var r := refs[|refs| - 1];
      if rest.None? then None
      else
        match r
        case FromLocal(s) => if s < |fr.slots| && fr.slots[s].Boxed? then Some(rest.value + [fr.slots[s].b]) else None
        case FromUpval(i) => if i < |fr.clo| then Some(rest.value + [fr.clo[i]]) else None
  }

  function Eval(p: Prog, e: Expr, fr: Frame, st: St, fuel: nat): Res<V>
    decreases fuel, 1, e
  {
    match e
    case Const(k) => Ok(VConst(k), st)
    case GetLocal(s) => Got(ReadSlot(fr, st, s), st)
    case GetUpval(i) => if i < |fr.clo| then Got(ReadBox(st, fr.clo[i]), st) else Err(STUCK, st)
    case GetGlobal(g) => Ok(if g in st.globals && !st.globals[g].VNone? then st.globals[g] else VNil, st)
    case Fun(f) =>
      if f >= |p.tabs| then Err(STUCK, st)
      else
        var bs := Caught(fr, p.tabs[f].upvals);
        if bs.None? then Err(STUCK, st) else Ok(VClo(f, bs.value), st)
    case Call(callee, args) =>
      var c := Eval(p, callee, fr, st, fuel);
      if c.Err? then c
      else
        var vs := EvalAll(p, args, fr, c.st, fuel);
        if vs.Err? then Err(vs.e, vs.st)
        else if !c.v.VClo? then Err(NOT_CALLABLE, vs.st)
        else Invoke(p, c.v.f, c.v.boxes, vs.v, vs.st, fuel)
    case Int(n) => Ok(VInt(n), st)
    case Arith(op, l, r) =>
      var a := Eval(p, l, fr, st, fuel);
      if a.Err? then a
      else
        var b := Eval(p, r, fr, a.st, fuel);
        if b.Err? then b else Compute(p.w, op, a.v, b.v, b.st)
    case Unary(bits, x) =>
      var a := Eval(p, x, fr, st, fuel);
      if a.Err? then a else Ok(ComputeUn(p.w, bits, a.v), a.st)
  }

  function Compute(w: World, op: Op, a: V, b: V, st: St): Res<V> {
    if !a.VInt? || !b.VInt? then Ok(VConst(w.other(op, a, b)), st)
    else
      match op
      case Add => Ok(VInt(Wrap(a.i + b.i)), st)
      case Sub => Ok(VInt(Wrap(a.i - b.i)), st)
      case Mul => Ok(VInt(Wrap(a.i * b.i)), st)
      case Div => Ok(VConst(w.other(op, a, b)), st)
      case FDiv => if b.i == 0 then Err(DIV_BY_ZERO, st) else Ok(VInt(Wrap(FloorDiv(a.i, b.i))), st)
      case Mod => if b.i == 0 then Err(DIV_BY_ZERO, st) else Ok(VInt(Wrap(a.i - FloorDiv(a.i, b.i) * b.i)), st)
      case _ => Ok(VInt(w.bits(op, a.i, b.i)), st)
  }

  function ComputeUn(w: World, bits: bool, a: V): V {
    if !a.VInt? then VConst(w.un(bits, a)) else if bits then VInt(-1 - a.i) else VInt(Wrap(0 - a.i))
  }

  function EvalAll(p: Prog, es: Exprs, fr: Frame, st: St, fuel: nat): Res<seq<V>>
    decreases fuel, 1, es
  {
    match es
    case ENil => Ok([], st)
    case ECons(e, tl) =>
      var a := Eval(p, e, fr, st, fuel);
      if a.Err? then Err(a.e, a.st)
      else
        var vs := EvalAll(p, tl, fr, a.st, fuel);
        if vs.Err? then vs else Ok([a.v] + vs.v, vs.st)
  }

  /** A declaration: a fresh box for a captured slot. */
  function Bind(p: Prog, fr: Frame, s: nat, v: V, st: St): (Frame, St) {
    if s >= |fr.slots| then (fr, st)
    else if fr.f < |p.tabs| && s in p.tabs[fr.f].captured then
      (fr.(slots := fr.slots[s := Boxed(|st.heap|)]), st.(heap := st.heap + [Box((fr.f, s), v)]))
    else (fr.(slots := fr.slots[s := Plain(v)]), st)
  }

  function BindAll(p: Prog, fr: Frame, slots: seq<nat>, vs: seq<V>, st: St): (Frame, St)
    decreases |slots|
  {
    if slots == [] then (fr, st)
    else
      var (fr', st') := Bind(p, fr, slots[0], if vs == [] then VNil else vs[0], st);
      BindAll(p, fr', slots[1..], if vs == [] then [] else vs[1..], st')
  }

  function Store(fr: Frame, t: Target, v: V, st: St): (Frame, St) {
    match t
    case ToLocal(s) =>
      if s >= |fr.slots| then (fr, st)
      else if fr.slots[s].Plain? then (fr.(slots := fr.slots[s := Plain(v)]), st)
      else (fr, SetBox(st, fr.slots[s].b, v))
    case ToUpval(i) => if i < |fr.clo| then (fr, SetBox(st, fr.clo[i], v)) else (fr, st)
    case ToGlobal(g) => (fr, st.(globals := st.globals[g := v]))
  }

  function StoreAll(fr: Frame, ts: seq<Target>, vs: seq<V>, st: St): (Frame, St)
    decreases |ts|
  {
    if ts == [] then (fr, st)
    else
      var (fr', st') := Store(fr, ts[0], if vs == [] then VNil else vs[0], st);
      StoreAll(fr', ts[1..], if vs == [] then [] else vs[1..], st')
  }

  /** The slots of a new activation, before its parameters are bound: captured ones hold
      placeholder boxes. */
  function Blank(p: Prog, f: nat, n: nat, st: St): (seq<Slot>, St)
    decreases n
  {
    if n == 0 then ([], st)
    else
      var (slots, st') := Blank(p, f, n - 1, st);
      if f < |p.tabs| && n - 1 in p.tabs[f].captured then
        (slots + [Boxed(|st'.heap|)], st'.(heap := st'.heap + [Box((f, n - 1), VNone)]))
      else (slots + [Plain(VNone)], st')
  }

  function Upto(n: nat): seq<nat> { seq(n, i requires 0 <= i < n => i) }

  function Invoke(p: Prog, f: nat, clo: seq<nat>, args: seq<V>, st: St, fuel: nat): Res<V>
    decreases fuel, 0
  {
    if fuel == 0 then Err(TIMEOUT, st)
    else if f >= |p.fns| then Err(STUCK, st)
    else
      var (slots, st1) := Blank(p, f, p.fns[f].params + p.fns[f].locals, st);
      var (fr, st2) := BindAll(p, Frame(f, slots, clo), Upto(p.fns[f].params), args, st1);
      match Run(p, p.fns[f].body, fr, st2, fuel - 1)
      case Next(_, st') => Ok(VNil, st')
      case Ret(v, st') => Ok(v, st')
      case Fail(e, st') => Err(e, st')
  }

  function Run(p: Prog, ss: Stmts, fr: Frame, st: St, fuel: nat): Flow
    decreases fuel, 2, ss, 1
  {
    match ss
    case Nil => Next(fr, st)
    case Cons(s, tl) =>
      var r := Step(p, s, fr, st, fuel);
      if r.Next? then Run(p, tl, r.fr, r.st, fuel) else r
  }

  function Step(p: Prog, s: Stmt, fr: Frame, st: St, fuel: nat): Flow
    decreases fuel, 2, s, 1
  {
    match s
    case LocalFun(slot, f) =>
      // its own box first, so that the closure can hold it
      var (fr1, st1) := Bind(p, fr, slot, VNone, st);
      var v := Eval(p, Fun(f), fr1, st1, fuel);
      if v.Err? then Fail(v.e, v.st)
      else
        var (fr2, st2) := Store(fr1, ToLocal(slot), v.v, v.st);
        Next(fr2, st2)
    case LocalVals(slots, _, es) =>
      var vs := EvalAll(p, es, fr, st, fuel);
      if vs.Err? then Fail(vs.e, vs.st)
      else
        var (fr', st') := BindAll(p, fr, slots, vs.v, vs.st);
        Next(fr', st')
    case Assign(ts, es) =>
      var vs := EvalAll(p, es, fr, st, fuel);
      if vs.Err? then Fail(vs.e, vs.st)
      else
        var (fr', st') := StoreAll(fr, ts, vs.v, vs.st);
        Next(fr', st')
    case If(c, thn, els) =>
      var v := Eval(p, c, fr, st, fuel);
      if v.Err? then Fail(v.e, v.st) else Run(p, if Truthy(v.v) then thn else els, fr, v.st, fuel)
    case While(c, b) =>
      var v := Eval(p, c, fr, st, fuel);
      if v.Err? then Fail(v.e, v.st)
      else if !Truthy(v.v) then Next(fr, v.st)
      else
        var r := Run(p, b, fr, v.st, fuel);
        if !r.Next? then r else if fuel == 0 then Fail(TIMEOUT, r.st) else Step(p, s, r.fr, r.st, fuel - 1)
    case ForNum(_, a, z, d, _) =>
      var vs := EvalAll(p, ECons(a, ECons(z, ECons(d, ENil))), fr, st, fuel);
      if vs.Err? || |vs.v| != 3 then Fail(if vs.Err? then vs.e else STUCK, vs.st)
      else Turns(p, s, vs.v[0], vs.v[2], p.w.turns(vs.v[0], vs.v[1], vs.v[2]), 0, fr, vs.st, fuel)
    case ForGen(_, it, _) =>
      var v := Eval(p, it, fr, st, fuel);
      if v.Err? then Fail(v.e, v.st) else Iterate(p, s, v.v, fr, v.st, fuel)
    case Return(e) =>
      var v := Eval(p, e, fr, st, fuel);
      if v.Err? then Fail(v.e, v.st) else Ret(v.v, v.st)
    case Do(e) =>
      var v := Eval(p, e, fr, st, fuel);
      if v.Err? then Fail(v.e, v.st) else Next(fr, v.st)
  }

  /** The control variable in turn k: an int if start and step are. */
  function Control(a: V, d: V, k: nat): V {
    if a.VInt? && d.VInt? then VInt(Wrap(a.i + k * d.i)) else VConst(k)
  }

  /** A numeric for from turn k on; each turn declares the variable anew. */
  function Turns(p: Prog, s: Stmt, a: V, d: V, n: nat, k: nat, fr: Frame, st: St, fuel: nat): Flow
    requires s.ForNum?
    decreases fuel, 2, s, 0
  {
    if k >= n then Next(fr, st)
    else
      var (fr1, st1) := Bind(p, fr, s.slot, Control(a, d, k), st);
      var r := Run(p, s.body, fr1, st1, fuel);
      if !r.Next? then r
      else if fuel == 0 then Fail(TIMEOUT, r.st)
      else Turns(p, s, a, d, n, k + 1, r.fr, r.st, fuel - 1)
  }

  /** A generic for: the iterator is called until it gives nil. */
  function Iterate(p: Prog, s: Stmt, it: V, fr: Frame, st: St, fuel: nat): Flow
    requires s.ForGen?
    decreases fuel, 2, s, 0
  {
    if fuel == 0 then Fail(TIMEOUT, st)
    else if !it.VClo? then Fail(NOT_CALLABLE, st)
    else
      var v := Invoke(p, it.f, it.boxes, [], st, fuel - 1);
      if v.Err? then Fail(v.e, v.st)
      else if v.v.VNil? then Next(fr, v.st)
      else
        var r := Pass(p, s, v.v, fr, v.st, fuel - 1);
        if !r.Next? then r else Iterate(p, s, it, r.fr, r.st, fuel - 1)
  }

  /** One turn of a generic for, its names declared anew. */
  function Pass(p: Prog, s: Stmt, v: V, fr: Frame, st: St, fuel: nat): Flow
    requires s.ForGen?
    decreases fuel, 2, s, 0
  {
    var (fr1, st1) := BindAll(p, fr, s.slots, [v], st);
    Run(p, s.body, fr1, st1, fuel)
  }

  // ----- what a binding map says -----

  type Binds = map<(nat, nat), nat>

  /** The variable an assignment writes, unless it is no local. */
  function Written(p: Prog, f: nat, t: Target): Option<(nat, nat)>
    requires TabsOk(p.tabs) && f < |p.tabs|
  {
    match t
    case ToLocal(s) => Some((f, s))
    case ToUpval(i) => if i < |p.tabs[f].upvals| then Some(Origin(p.tabs, f, i)) else None
    case ToGlobal(_) => None
  }

  /** No statement of f's body contradicts the map. */
  ghost predicate Respects(p: Prog, m: Binds, f: nat, ss: Stmts)
    requires TabsOk(p.tabs) && f < |p.tabs|
    decreases ss
  {
    match ss case Nil => true case Cons(s, tl) => RespectsAt(p, m, f, s) && Respects(p, m, f, tl)
  }

  ghost predicate RespectsAt(p: Prog, m: Binds, f: nat, s: Stmt)
    requires TabsOk(p.tabs) && f < |p.tabs|
    decreases s
  {
    match s
    case LocalFun(slot, k) => (f, slot) in m ==> m[(f, slot)] == k
    case LocalVals(slots, _, es) =>
      forall j | 0 <= j < |slots| && (f, slots[j]) in m :: Count(es) == |slots| && Nth(es, j) == Fun(m[(f, slots[j])])
    case Assign(ts, _) => forall j | 0 <= j < |ts| && Written(p, f, ts[j]).Some? :: Written(p, f, ts[j]).value !in m
    case If(_, thn, els) => Respects(p, m, f, thn) && Respects(p, m, f, els)
    case While(_, b) => Respects(p, m, f, b)
    case ForNum(slot, _, _, _, b) => (f, slot) !in m && Respects(p, m, f, b)
    case ForGen(slots, _, b) => (forall j | 0 <= j < |slots| :: (f, slots[j]) !in m) && Respects(p, m, f, b)
    case _ => true
  }

  /** Every function literal stands in its parent. */
  predicate Nested(p: Prog, f: nat, e: Expr)
    decreases e
  {
    match e
    case Fun(k) => 0 < k < |p.tabs| && p.tabs[k].parent == f
    case Call(c, args) => Nested(p, f, c) && NestedAll(p, f, args)
    case Arith(_, l, r) => Nested(p, f, l) && Nested(p, f, r)
    case Unary(_, x) => Nested(p, f, x)
    case _ => true
  }

  predicate NestedAll(p: Prog, f: nat, es: Exprs)
    decreases es
  {
    match es case ENil => true case ECons(e, tl) => Nested(p, f, e) && NestedAll(p, f, tl)
  }

  predicate NestedIn(p: Prog, f: nat, ss: Stmts)
    decreases ss
  {
    match ss case Nil => true case Cons(s, tl) => NestedAt(p, f, s) && NestedIn(p, f, tl)
  }

  predicate NestedAt(p: Prog, f: nat, s: Stmt)
    decreases s
  {
    match s
    case LocalFun(_, k) => Nested(p, f, Fun(k))
    case LocalVals(_, _, es) => NestedAll(p, f, es)
    case Assign(_, es) => NestedAll(p, f, es)
    case If(c, thn, els) => Nested(p, f, c) && NestedIn(p, f, thn) && NestedIn(p, f, els)
    case While(c, b) => Nested(p, f, c) && NestedIn(p, f, b)
    case ForNum(_, a, z, d, b) => Nested(p, f, a) && Nested(p, f, z) && Nested(p, f, d) && NestedIn(p, f, b)
    case ForGen(_, it, b) => Nested(p, f, it) && NestedIn(p, f, b)
    case Return(e) => Nested(p, f, e)
    case Do(e) => Nested(p, f, e)
  }

  ghost predicate ProgOk(p: Prog) {
    TabsOk(p.tabs) && |p.fns| == |p.tabs| && forall f: nat | f < |p.fns| :: NestedIn(p, f, p.fns[f].body)
  }

  ghost predicate MapOk(p: Prog, m: Binds)
    requires ProgOk(p)
  {
    && (forall f: nat | f < |p.fns| :: Respects(p, m, f, p.fns[f].body))
    && forall f: nat, s: nat | f < |p.fns| && s < p.fns[f].params :: (f, s) !in m
  }

  // ----- what holds on every run -----

  predicate Says(m: Binds, x: (nat, nat), v: V) { x in m ==> v.VNone? || (v.VClo? && v.f == m[x]) }

  /** A closure's boxes are those of the variables its upvalues come from. */
  ghost predicate ValOk(p: Prog, heap: seq<Box>, v: V)
    requires TabsOk(p.tabs)
  {
    v.VClo? ==> v.f < |p.tabs| && CloOk(p, heap, v.f, v.boxes)
  }

  ghost predicate CloOk(p: Prog, heap: seq<Box>, f: nat, bs: seq<nat>)
    requires TabsOk(p.tabs) && f < |p.tabs|
  {
    |bs| == |p.tabs[f].upvals| && forall i | 0 <= i < |bs| :: bs[i] < |heap| && heap[bs[i]].of == Origin(p.tabs, f, i)
  }

  ghost predicate StOk(p: Prog, m: Binds, st: St)
    requires TabsOk(p.tabs)
  {
    && (forall b | 0 <= b < |st.heap| :: ValOk(p, st.heap, st.heap[b].v) && Says(m, st.heap[b].of, st.heap[b].v))
    && forall g | g in st.globals :: ValOk(p, st.heap, st.globals[g])
  }

  ghost predicate SlotOk(p: Prog, m: Binds, heap: seq<Box>, f: nat, s: nat, c: Slot)
    requires TabsOk(p.tabs)
  {
    match c case Plain(v) => ValOk(p, heap, v) && Says(m, (f, s), v) case Boxed(b) => b < |heap| && heap[b].of == (f, s)
  }

  ghost predicate FrameOk(p: Prog, m: Binds, heap: seq<Box>, fr: Frame)
    requires TabsOk(p.tabs)
  {
    && fr.f < |p.tabs| && CloOk(p, heap, fr.f, fr.clo)
    && forall s: nat | s < |fr.slots| :: SlotOk(p, m, heap, fr.f, s, fr.slots[s])
  }

  /** Boxes stay the boxes of their variables. */
  ghost predicate Kept(a: seq<Box>, b: seq<Box>) {
    |a| <= |b| && forall i | 0 <= i < |a| :: b[i].of == a[i].of
  }

  lemma {:induction false} FrameKept(p: Prog, m: Binds, a: seq<Box>, b: seq<Box>, fr: Frame)
    requires TabsOk(p.tabs) && FrameOk(p, m, a, fr) && Kept(a, b)
    ensures FrameOk(p, m, b, fr)
  {
    forall s: nat | s < |fr.slots| ensures SlotOk(p, m, b, fr.f, s, fr.slots[s]) {
      assert SlotOk(p, m, a, fr.f, s, fr.slots[s]);
    }
  }

  lemma {:induction false} ValKept(p: Prog, a: seq<Box>, b: seq<Box>, v: V)
    requires TabsOk(p.tabs) && ValOk(p, a, v) && Kept(a, b)
    ensures ValOk(p, b, v)
  {
  }

  /** A box written with a value its variable may have, or a new one. */
  lemma {:induction false} HeapSet(p: Prog, m: Binds, st: St, b: nat, v: V)
    requires TabsOk(p.tabs) && StOk(p, m, st) && b < |st.heap| && ValOk(p, st.heap, v) && Says(m, st.heap[b].of, v)
    ensures StOk(p, m, SetBox(st, b, v)) && Kept(st.heap, SetBox(st, b, v).heap)
  {
    var st' := SetBox(st, b, v);
    forall c | 0 <= c < |st'.heap| ensures ValOk(p, st'.heap, st'.heap[c].v) && Says(m, st'.heap[c].of, st'.heap[c].v) {
      ValKept(p, st.heap, st'.heap, if c == b then v else st.heap[c].v);
    }
    forall g | g in st'.globals ensures ValOk(p, st'.heap, st'.globals[g]) {
      ValKept(p, st.heap, st'.heap, st.globals[g]);
    }
  }

  lemma {:induction false} HeapNew(p: Prog, m: Binds, st: St, x: (nat, nat), v: V)
    requires TabsOk(p.tabs) && StOk(p, m, st) && ValOk(p, st.heap, v) && Says(m, x, v)
    ensures var st' := st.(heap := st.heap + [Box(x, v)]); StOk(p, m, st') && Kept(st.heap, st'.heap)
  {
    var st' := st.(heap := st.heap + [Box(x, v)]);
    forall c | 0 <= c < |st'.heap| ensures ValOk(p, st'.heap, st'.heap[c].v) && Says(m, st'.heap[c].of, st'.heap[c].v) {
      ValKept(p, st.heap, st'.heap, if c == |st.heap| then v else st.heap[c].v);
    }
    forall g | g in st'.globals ensures ValOk(p, st'.heap, st'.globals[g]) {
      ValKept(p, st.heap, st'.heap, st.globals[g]);
    }
  }

  lemma {:induction false} BindOk(p: Prog, m: Binds, fr: Frame, s: nat, v: V, st: St)
    requires TabsOk(p.tabs) && StOk(p, m, st) && FrameOk(p, m, st.heap, fr) && ValOk(p, st.heap, v)
      && Says(m, (fr.f, s), v)
    ensures var (fr', st') := Bind(p, fr, s, v, st);
            fr'.f == fr.f && StOk(p, m, st') && FrameOk(p, m, st'.heap, fr') && Kept(st.heap, st'.heap)
  {
    var (fr', st') := Bind(p, fr, s, v, st);
    if s < |fr.slots| && s in p.tabs[fr.f].captured {
      HeapNew(p, m, st, (fr.f, s), v);
      FrameKept(p, m, st.heap, st'.heap, fr);
    }
    forall t: nat | t < |fr'.slots| ensures SlotOk(p, m, st'.heap, fr'.f, t, fr'.slots[t]) {
      if t != s { assert SlotOk(p, m, st'.heap, fr.f, t, fr.slots[t]); }
    }
  }

  /** Values for slots: each is one its slot may have. */
  ghost predicate Fit(p: Prog, m: Binds, heap: seq<Box>, f: nat, slots: seq<nat>, vs: seq<V>)
    requires TabsOk(p.tabs)
  {
    && (forall j | 0 <= j < |vs| :: ValOk(p, heap, vs[j]))
    && forall j | 0 <= j < |slots| && (f, slots[j]) in m :: j < |vs| && Says(m, (f, slots[j]), vs[j])
  }

  lemma {:induction false} BindAllOk(p: Prog, m: Binds, fr: Frame, slots: seq<nat>, vs: seq<V>, st: St)
    requires TabsOk(p.tabs) && StOk(p, m, st) && FrameOk(p, m, st.heap, fr) && Fit(p, m, st.heap, fr.f, slots, vs)
    ensures var (fr', st') := BindAll(p, fr, slots, vs, st);
            fr'.f == fr.f && StOk(p, m, st') && FrameOk(p, m, st'.heap, fr') && Kept(st.heap, st'.heap)
    decreases |slots|
  {
    if slots != [] {
      var v := if vs == [] then VNil else vs[0];
      BindOk(p, m, fr, slots[0], v, st);
      var (fr', st') := Bind(p, fr, slots[0], v, st);
      FitTail(p, m, st.heap, st'.heap, fr.f, slots, vs);
      BindAllOk(p, m, fr', slots[1..], if vs == [] then [] else vs[1..], st');
    }
  }

  lemma {:induction false} FitTail(p: Prog, m: Binds, a: seq<Box>, b: seq<Box>, f: nat, slots: seq<nat>, vs: seq<V>)
    requires TabsOk(p.tabs) && Fit(p, m, a, f, slots, vs) && slots != [] && Kept(a, b)
    ensures Fit(p, m, b, f, slots[1..], if vs == [] then [] else vs[1..])
  {
    if vs != [] {
      forall j | 0 <= j < |vs[1..]| ensures ValOk(p, b, vs[1..][j]) { ValKept(p, a, b, vs[j + 1]); }
    }
    forall j | 0 <= j < |slots[1..]| && (f, slots[1..][j]) in m
      ensures vs != [] && j < |vs[1..]| && Says(m, (f, slots[1..][j]), vs[1..][j])
    {
      assert slots[1..][j] == slots[j + 1];
    }
  }

  lemma {:induction false} StoreOk(p: Prog, m: Binds, fr: Frame, t: Target, v: V, st: St)
    requires TabsOk(p.tabs) && StOk(p, m, st) && FrameOk(p, m, st.heap, fr) && ValOk(p, st.heap, v)
    requires Written(p, fr.f, t).Some? ==> Says(m, Written(p, fr.f, t).value, v)
    ensures var (fr', st') := Store(fr, t, v, st);
            fr'.f == fr.f && StOk(p, m, st') && FrameOk(p, m, st'.heap, fr') && Kept(st.heap, st'.heap)
  {
    var (fr', st') := Store(fr, t, v, st);
    match t
    case ToLocal(s) =>
      if s < |fr.slots| {
        assert SlotOk(p, m, st.heap, fr.f, s, fr.slots[s]);
        if fr.slots[s].Boxed? {
          HeapSet(p, m, st, fr.slots[s].b, v);
          FrameKept(p, m, st.heap, st'.heap, fr);
        } else {
          forall u: nat | u < |fr'.slots| ensures SlotOk(p, m, st'.heap, fr'.f, u, fr'.slots[u]) {
            if u != s { assert SlotOk(p, m, st.heap, fr.f, u, fr.slots[u]); }
          }
        }
      }
    case ToUpval(i) =>
      if i < |fr.clo| {
        HeapSet(p, m, st, fr.clo[i], v);
        FrameKept(p, m, st.heap, st'.heap, fr);
      }
    case ToGlobal(_) =>
  }

  lemma {:induction false} StoreAllOk(p: Prog, m: Binds, fr: Frame, ts: seq<Target>, vs: seq<V>, st: St)
    requires TabsOk(p.tabs) && StOk(p, m, st) && FrameOk(p, m, st.heap, fr)
    requires forall j | 0 <= j < |vs| :: ValOk(p, st.heap, vs[j])
    requires forall j | 0 <= j < |ts| && Written(p, fr.f, ts[j]).Some? :: Written(p, fr.f, ts[j]).value !in m
    ensures var (fr', st') := StoreAll(fr, ts, vs, st);
            fr'.f == fr.f && StOk(p, m, st') && FrameOk(p, m, st'.heap, fr') && Kept(st.heap, st'.heap)
    decreases |ts|
  {
    if ts != [] {
      var v := if vs == [] then VNil else vs[0];
      StoreOk(p, m, fr, ts[0], v, st);
      var (fr', st') := Store(fr, ts[0], v, st);
      var rest := if vs == [] then [] else vs[1..];
      forall j | 0 <= j < |rest| ensures ValOk(p, st'.heap, rest[j]) { ValKept(p, st.heap, st'.heap, vs[j + 1]); }
      forall j | 0 <= j < |ts[1..]| && Written(p, fr'.f, ts[1..][j]).Some?
        ensures Written(p, fr'.f, ts[1..][j]).value !in m {
        assert ts[1..][j] == ts[j + 1];
      }
      StoreAllOk(p, m, fr', ts[1..], rest, st');
    }
  }

  lemma {:induction false} CaughtOk(p: Prog, m: Binds, fr: Frame, heap: seq<Box>, k: nat, n: nat)
    requires TabsOk(p.tabs) && FrameOk(p, m, heap, fr) && 0 < k < |p.tabs| && p.tabs[k].parent == fr.f
      && n <= |p.tabs[k].upvals|
    ensures var c := Caught(fr, p.tabs[k].upvals[..n]);
            c.Some? ==> |c.value| == n && forall i | 0 <= i < n ::
              c.value[i] < |heap| && heap[c.value[i]].of == Origin(p.tabs, k, i)
    decreases n
  {
    if n > 0 {
      CaughtOk(p, m, fr, heap, k, n - 1);
      var refs := p.tabs[k].upvals[..n];
      assert refs[..n - 1] == p.tabs[k].upvals[..n - 1];
      assert TabOk(p.tabs, k);
      assert RefOk(p.tabs, k, p.tabs[k].upvals[n - 1]);
      var r := refs[n - 1];
      if r.FromLocal? && r.idx < |fr.slots| { assert SlotOk(p, m, heap, fr.f, r.idx, fr.slots[r.idx]); }
    }
  }

  lemma {:induction false} BlankOk(p: Prog, m: Binds, f: nat, n: nat, st: St)
    requires TabsOk(p.tabs) && f < |p.tabs| && StOk(p, m, st)
    ensures var (slots, st') := Blank(p, f, n, st);
            && |slots| == n && StOk(p, m, st') && Kept(st.heap, st'.heap)
            && forall s: nat | s < n :: SlotOk(p, m, st'.heap, f, s, slots[s])
    decreases n
  {
    if n > 0 {
      BlankOk(p, m, f, n - 1, st);
      var (slots, st1) := Blank(p, f, n - 1, st);
      HeapNew(p, m, st1, (f, n - 1), VNone);
    }
  }

  ghost predicate ResOk(p: Prog, m: Binds, st: St, r: Res<V>)
    requires TabsOk(p.tabs)
  {
    StOk(p, m, r.st) && Kept(st.heap, r.st.heap) && (r.Ok? ==> ValOk(p, r.st.heap, r.v))
  }

  ghost predicate FlowOk(p: Prog, m: Binds, f: nat, st: St, r: Flow)
    requires TabsOk(p.tabs)
  {
    && StOk(p, m, r.st) && Kept(st.heap, r.st.heap)
    && (r.Next? ==> r.fr.f == f && FrameOk(p, m, r.st.heap, r.fr)) && (r.Ret? ==> ValOk(p, r.st.heap, r.v))
  }

  lemma {:induction false} EvalOk(p: Prog, m: Binds, e: Expr, fr: Frame, st: St, fuel: nat)
    requires ProgOk(p) && MapOk(p, m) && Nested(p, fr.f, e) && StOk(p, m, st) && FrameOk(p, m, st.heap, fr)
    ensures ResOk(p, m, st, Eval(p, e, fr, st, fuel))
    decreases fuel, 1, e, 1
  {
    match e
    case GetLocal(s) => if s < |fr.slots| { assert SlotOk(p, m, st.heap, fr.f, s, fr.slots[s]); }
    case Fun(k) =>
      CaughtOk(p, m, fr, st.heap, k, |p.tabs[k].upvals|);
      assert p.tabs[k].upvals[..|p.tabs[k].upvals|] == p.tabs[k].upvals;
    case Call(callee, args) => CallOk(p, m, callee, args, fr, st, fuel);
    case Arith(op, l, r) =>
      EvalOk(p, m, l, fr, st, fuel);
      var a := Eval(p, l, fr, st, fuel);
      if a.Ok? {
        FrameKept(p, m, st.heap, a.st.heap, fr);
        EvalOk(p, m, r, fr, a.st, fuel);
      }
    case Unary(_, x) => EvalOk(p, m, x, fr, st, fuel);
    case _ =>
  }

  lemma {:induction false} CallOk(p: Prog, m: Binds, callee: Expr, args: Exprs, fr: Frame, st: St, fuel: nat)
    requires ProgOk(p) && MapOk(p, m) && Nested(p, fr.f, Call(callee, args)) && StOk(p, m, st)
      && FrameOk(p, m, st.heap, fr)
    ensures ResOk(p, m, st, Eval(p, Call(callee, args), fr, st, fuel))
    decreases fuel, 1, Call(callee, args), 0
  {
    EvalOk(p, m, callee, fr, st, fuel);
    var c := Eval(p, callee, fr, st, fuel);
    if c.Ok? {
      FrameKept(p, m, st.heap, c.st.heap, fr);
      AllOk(p, m, args, fr, c.st, fuel);
      var vs := EvalAll(p, args, fr, c.st, fuel);
      if vs.Ok? && c.v.VClo? {
        ValKept(p, c.st.heap, vs.st.heap, c.v);
        InvokeOk(p, m, c.v.f, c.v.boxes, vs.v, vs.st, fuel);
      }
    }
  }

  lemma {:induction false} AllOk(p: Prog, m: Binds, es: Exprs, fr: Frame, st: St, fuel: nat)
    requires ProgOk(p) && MapOk(p, m) && NestedAll(p, fr.f, es) && StOk(p, m, st) && FrameOk(p, m, st.heap, fr)
    ensures var vs := EvalAll(p, es, fr, st, fuel);
            && StOk(p, m, vs.st) && Kept(st.heap, vs.st.heap)
            && (vs.Ok? ==> |vs.v| == Count(es) && (forall j | 0 <= j < |vs.v| :: ValOk(p, vs.st.heap, vs.v[j]))
                           && forall j | 0 <= j < |vs.v| && Nth(es, j).Fun? ::
                             vs.v[j].VClo? && vs.v[j].f == Nth(es, j).f)
    decreases fuel, 1, es
  {
    if es.ECons? {
      EvalOk(p, m, es.e, fr, st, fuel);
      var a := Eval(p, es.e, fr, st, fuel);
      if a.Ok? {
        FrameKept(p, m, st.heap, a.st.heap, fr);
        AllOk(p, m, es.es, fr, a.st, fuel);
        var vs := EvalAll(p, es.es, fr, a.st, fuel);
        if vs.Ok? { ValKept(p, a.st.heap, vs.st.heap, a.v); }
      }
    }
  }

  lemma {:induction false} InvokeOk(p: Prog, m: Binds, f: nat, clo: seq<nat>, args: seq<V>, st: St, fuel: nat)
    requires ProgOk(p) && MapOk(p, m) && StOk(p, m, st) && f < |p.tabs| && CloOk(p, st.heap, f, clo)
    requires forall j | 0 <= j < |args| :: ValOk(p, st.heap, args[j])
    ensures ResOk(p, m, st, Invoke(p, f, clo, args, st, fuel))
    decreases fuel, 0
  {
    if fuel > 0 {
      EntryOk(p, m, f, clo, args, st);
      var (slots, st1) := Blank(p, f, p.fns[f].params + p.fns[f].locals, st);
      var (fr, st2) := BindAll(p, Frame(f, slots, clo), Upto(p.fns[f].params), args, st1);
      RunOk(p, m, p.fns[f].body, fr, st2, fuel - 1);
    }
  }

  lemma {:induction false} EntryOk(p: Prog, m: Binds, f: nat, clo: seq<nat>, args: seq<V>, st: St)
    requires ProgOk(p) && MapOk(p, m) && StOk(p, m, st) && f < |p.tabs| && CloOk(p, st.heap, f, clo)
    requires forall j | 0 <= j < |args| :: ValOk(p, st.heap, args[j])
    ensures var (slots, st1) := Blank(p, f, p.fns[f].params + p.fns[f].locals, st);
            var (fr, st2) := BindAll(p, Frame(f, slots, clo), Upto(p.fns[f].params), args, st1);
            fr.f == f && StOk(p, m, st2) && FrameOk(p, m, st2.heap, fr) && Kept(st.heap, st2.heap)
  {
    BlankOk(p, m, f, p.fns[f].params + p.fns[f].locals, st);
    var (slots, st1) := Blank(p, f, p.fns[f].params + p.fns[f].locals, st);
    ParamsFit(p, m, f, args, st.heap, st1.heap);
    BlankFrame(p, m, f, clo, slots, st.heap, st1.heap);
    BindAllOk(p, m, Frame(f, slots, clo), Upto(p.fns[f].params), args, st1);
  }

  lemma {:induction false} ParamsFit(p: Prog, m: Binds, f: nat, args: seq<V>, a: seq<Box>, b: seq<Box>)
    requires ProgOk(p) && MapOk(p, m) && f < |p.fns| && Kept(a, b) && forall j | 0 <= j < |args| :: ValOk(p, a, args[j])
    ensures Fit(p, m, b, f, Upto(p.fns[f].params), args)
  {
    forall j | 0 <= j < |args| ensures ValOk(p, b, args[j]) { ValKept(p, a, b, args[j]); }
  }

  lemma {:induction false} BlankFrame(p: Prog, m: Binds, f: nat, clo: seq<nat>, slots: seq<Slot>, a: seq<Box>,
        b: seq<Box>)
    requires TabsOk(p.tabs) && f < |p.tabs| && CloOk(p, a, f, clo) && Kept(a, b)
    requires forall s: nat | s < |slots| :: SlotOk(p, m, b, f, s, slots[s])
    ensures FrameOk(p, m, b, Frame(f, slots, clo))
  {
  }

  lemma {:induction false} RunOk(p: Prog, m: Binds, ss: Stmts, fr: Frame, st: St, fuel: nat)
    requires ProgOk(p) && MapOk(p, m) && StOk(p, m, st) && FrameOk(p, m, st.heap, fr)
    requires NestedIn(p, fr.f, ss) && Respects(p, m, fr.f, ss)
    ensures FlowOk(p, m, fr.f, st, Run(p, ss, fr, st, fuel))
    decreases fuel, 2, ss, 3
  {
    if ss.Cons? {
      StepOk(p, m, ss.hd, fr, st, fuel);
      var r := Step(p, ss.hd, fr, st, fuel);
      if r.Next? { RunOk(p, m, ss.tl, r.fr, r.st, fuel); }
    }
  }

  lemma {:induction false} StepOk(p: Prog, m: Binds, s: Stmt, fr: Frame, st: St, fuel: nat)
    requires ProgOk(p) && MapOk(p, m) && StOk(p, m, st) && FrameOk(p, m, st.heap, fr)
    requires NestedAt(p, fr.f, s) && RespectsAt(p, m, fr.f, s)
    ensures FlowOk(p, m, fr.f, st, Step(p, s, fr, st, fuel))
    decreases fuel, 2, s, 2
  {
    match s
    case LocalFun(slot, k) => LocalFunOk(p, m, slot, k, fr, st, fuel);
    case LocalVals(slots, _, es) =>
      AllOk(p, m, es, fr, st, fuel);
      var vs := EvalAll(p, es, fr, st, fuel);
      if vs.Ok? {
        FrameKept(p, m, st.heap, vs.st.heap, fr);
        BindAllOk(p, m, fr, slots, vs.v, vs.st);
      }
    case Assign(ts, es) =>
      AllOk(p, m, es, fr, st, fuel);
      var vs := EvalAll(p, es, fr, st, fuel);
      if vs.Ok? {
        FrameKept(p, m, st.heap, vs.st.heap, fr);
        StoreAllOk(p, m, fr, ts, vs.v, vs.st);
      }
    case ForNum(_, _, _, _, _) => ForNumOk(p, m, s, fr, st, fuel);
    case ForGen(_, it, _) =>
      EvalOk(p, m, it, fr, st, fuel);
      var v := Eval(p, it, fr, st, fuel);
      if v.Ok? {
        FrameKept(p, m, st.heap, v.st.heap, fr);
        IterateOk(p, m, s, v.v, fr, v.st, fuel);
      }
    case _ => BranchOk(p, m, s, fr, st, fuel);
  }

  lemma {:induction false} ForNumOk(p: Prog, m: Binds, s: Stmt, fr: Frame, st: St, fuel: nat)
    requires ProgOk(p) && MapOk(p, m) && StOk(p, m, st) && FrameOk(p, m, st.heap, fr)
    requires s.ForNum? && NestedAt(p, fr.f, s) && RespectsAt(p, m, fr.f, s)
    ensures FlowOk(p, m, fr.f, st, Step(p, s, fr, st, fuel))
    decreases fuel, 2, s, 1
  {
    var last := ECons(s.d, ENil);
    var es := ECons(s.a, ECons(s.z, last));
    assert NestedAll(p, fr.f, last) && NestedAll(p, fr.f, ECons(s.z, last));
    AllOk(p, m, es, fr, st, fuel);
    var vs := EvalAll(p, es, fr, st, fuel);
    if vs.Ok? && |vs.v| == 3 {
      FrameKept(p, m, st.heap, vs.st.heap, fr);
      TurnsOk(p, m, s, vs.v[0], vs.v[2], p.w.turns(vs.v[0], vs.v[1], vs.v[2]), 0, fr, vs.st, fuel);
    }
  }

  lemma {:induction false} TurnsOk(p: Prog, m: Binds, s: Stmt, a: V, d: V, n: nat, k: nat, fr: Frame, st: St, fuel: nat)
    requires ProgOk(p) && MapOk(p, m) && StOk(p, m, st) && FrameOk(p, m, st.heap, fr)
    requires s.ForNum? && NestedAt(p, fr.f, s) && RespectsAt(p, m, fr.f, s)
    ensures FlowOk(p, m, fr.f, st, Turns(p, s, a, d, n, k, fr, st, fuel))
    decreases fuel, 2, s, 0
  {
    if k < n {
      BindOk(p, m, fr, s.slot, Control(a, d, k), st);
      var (fr1, st1) := Bind(p, fr, s.slot, Control(a, d, k), st);
      RunOk(p, m, s.body, fr1, st1, fuel);
      var r := Run(p, s.body, fr1, st1, fuel);
      if r.Next? && fuel > 0 { TurnsOk(p, m, s, a, d, n, k + 1, r.fr, r.st, fuel - 1); }
    }
  }

  lemma {:induction false} IterateOk(p: Prog, m: Binds, s: Stmt, it: V, fr: Frame, st: St, fuel: nat)
    requires ProgOk(p) && MapOk(p, m) && StOk(p, m, st) && FrameOk(p, m, st.heap, fr) && ValOk(p, st.heap, it)
    requires s.ForGen? && NestedAt(p, fr.f, s) && RespectsAt(p, m, fr.f, s)
    ensures FlowOk(p, m, fr.f, st, Iterate(p, s, it, fr, st, fuel))
    decreases fuel, 2, s, 0
  {
    if fuel > 0 && it.VClo? {
      InvokeOk(p, m, it.f, it.boxes, [], st, fuel - 1);
      var v := Invoke(p, it.f, it.boxes, [], st, fuel - 1);
      if v.Ok? && !v.v.VNil? {
        FrameKept(p, m, st.heap, v.st.heap, fr);
        PassOk(p, m, s, v.v, fr, v.st, fuel - 1);
        var r := Pass(p, s, v.v, fr, v.st, fuel - 1);
        if r.Next? {
          ValKept(p, st.heap, r.st.heap, it);
          IterateOk(p, m, s, it, r.fr, r.st, fuel - 1);
        }
      }
    }
  }

  lemma {:induction false} PassOk(p: Prog, m: Binds, s: Stmt, v: V, fr: Frame, st: St, fuel: nat)
    requires ProgOk(p) && MapOk(p, m) && StOk(p, m, st) && FrameOk(p, m, st.heap, fr) && ValOk(p, st.heap, v)
    requires s.ForGen? && NestedAt(p, fr.f, s) && RespectsAt(p, m, fr.f, s)
    ensures FlowOk(p, m, fr.f, st, Pass(p, s, v, fr, st, fuel))
    decreases fuel, 2, s, 0
  {
    BindAllOk(p, m, fr, s.slots, [v], st);
    var (fr1, st1) := BindAll(p, fr, s.slots, [v], st);
    RunOk(p, m, s.body, fr1, st1, fuel);
  }

  lemma {:induction false} LocalFunOk(p: Prog, m: Binds, slot: nat, k: nat, fr: Frame, st: St, fuel: nat)
    requires ProgOk(p) && MapOk(p, m) && StOk(p, m, st) && FrameOk(p, m, st.heap, fr)
    requires Nested(p, fr.f, Fun(k)) && RespectsAt(p, m, fr.f, LocalFun(slot, k))
    ensures FlowOk(p, m, fr.f, st, Step(p, LocalFun(slot, k), fr, st, fuel))
  {
    BindOk(p, m, fr, slot, VNone, st);
    var (fr1, st1) := Bind(p, fr, slot, VNone, st);
    CaughtOk(p, m, fr1, st1.heap, k, |p.tabs[k].upvals|);
    assert p.tabs[k].upvals[..|p.tabs[k].upvals|] == p.tabs[k].upvals;
    var v := Eval(p, Fun(k), fr1, st1, fuel);
    if v.Ok? { StoreOk(p, m, fr1, ToLocal(slot), v.v, v.st); }
  }

  lemma {:induction false} BranchOk(p: Prog, m: Binds, s: Stmt, fr: Frame, st: St, fuel: nat)
    requires ProgOk(p) && MapOk(p, m) && StOk(p, m, st) && FrameOk(p, m, st.heap, fr)
    requires NestedAt(p, fr.f, s) && RespectsAt(p, m, fr.f, s) && (s.If? || s.While? || s.Return? || s.Do?)
    ensures FlowOk(p, m, fr.f, st, Step(p, s, fr, st, fuel))
    decreases fuel, 2, s, 0
  {
    var c := if s.If? || s.While? then s.c else s.e;
    EvalOk(p, m, c, fr, st, fuel);
    var v := Eval(p, c, fr, st, fuel);
    if v.Ok? {
      FrameKept(p, m, st.heap, v.st.heap, fr);
      if s.If? {
        RunOk(p, m, if Truthy(v.v) then s.thn else s.els, fr, v.st, fuel);
      } else if s.While? && Truthy(v.v) {
        RunOk(p, m, s.body, fr, v.st, fuel);
        var r := Run(p, s.body, fr, v.st, fuel);
        if r.Next? && fuel > 0 { StepOk(p, m, s, r.fr, r.st, fuel - 1); }
      }
    }
  }

  /** A read of a bound slot or upvalue that gives a value gives a closure over the bound
      function, so a direct call enters what the call through the closure would. */
  lemma {:induction false} CalleeIs(p: Prog, m: Binds, callee: Expr, fr: Frame, st: St, fuel: nat)
    requires ProgOk(p) && MapOk(p, m) && StOk(p, m, st) && FrameOk(p, m, st.heap, fr)
    requires callee.GetLocal? || (callee.GetUpval? && callee.i < |p.tabs[fr.f].upvals|)
    requires var x := if callee.GetLocal? then (fr.f, callee.s) else Origin(p.tabs, fr.f, callee.i); x in m
    ensures var x := if callee.GetLocal? then (fr.f, callee.s) else Origin(p.tabs, fr.f, callee.i);
            var r := Eval(p, callee, fr, st, fuel);
            r.Ok? ==> r.v.VClo? && r.v.f == m[x] && r.st == st
  {
    if callee.GetLocal? && callee.s < |fr.slots| { assert SlotOk(p, m, st.heap, fr.f, callee.s, fr.slots[callee.s]); }
  }

  /** From the start of the chunk on, whatever runs keeps this so. */
  lemma {:induction false} ChunkOk(p: Prog, m: Binds, args: seq<V>, fuel: nat)
    requires ProgOk(p) && MapOk(p, m) && |p.fns| > 0 && p.tabs[0].upvals == []
      && forall j | 0 <= j < |args| :: !args[j].VClo?
    ensures StOk(p, m, Invoke(p, 0, [], args, St([], map[]), fuel).st)
  {
    InvokeOk(p, m, 0, [], args, St([], map[]), fuel);
  }

  // ----- computing the map -----

  function DeclS(ss: Stmts): set<nat>
    decreases ss
  {
    match ss case Nil => {} case Cons(s, tl) => DeclAt(s) + DeclS(tl)
  }

  /** The slots a statement declares. */
  function DeclAt(s: Stmt): set<nat>
    decreases s
  {
    match s
    case LocalFun(slot, _) => {slot}
    case LocalVals(slots, _, _) => set x | x in slots
    case If(_, thn, els) => DeclS(thn) + DeclS(els)
    case While(_, b) => DeclS(b)
    case ForNum(slot, _, _, _, b) => {slot} + DeclS(b)
    case ForGen(slots, _, b) => (set x | x in slots) + DeclS(b)
    case _ => {}
  }

  /** No slot is declared twice: slot numbers are never reused. */
  predicate Once(ss: Stmts)
    decreases ss
  {
    match ss case Nil => true case Cons(s, tl) => OnceAt(s) && Once(tl) && DeclAt(s) !! DeclS(tl)
  }

  predicate OnceAt(s: Stmt)
    decreases s
  {
    match s
    case LocalVals(slots, _, _) => forall i, j | 0 <= i < j < |slots| :: slots[i] != slots[j]
    case If(_, thn, els) => Once(thn) && Once(els) && DeclS(thn) !! DeclS(els)
    case While(_, b) => Once(b)
    case ForNum(slot, _, _, _, b) => Once(b) && slot !in DeclS(b)
    case ForGen(slots, _, b) => Once(b) && (set x | x in slots) !! DeclS(b)
    case _ => true
  }

  function WrittenS(p: Prog, f: nat, ss: Stmts): set<(nat, nat)>
    requires TabsOk(p.tabs) && f < |p.tabs|
    decreases ss
  {
    match ss case Nil => {} case Cons(s, tl) => WrittenAt(p, f, s) + WrittenS(p, f, tl)
  }

  /** The variables a statement assigns to. */
  function WrittenAt(p: Prog, f: nat, s: Stmt): set<(nat, nat)>
    requires TabsOk(p.tabs) && f < |p.tabs|
    decreases s
  {
    match s
    case Assign(ts, _) => set j | 0 <= j < |ts| && Written(p, f, ts[j]).Some? :: Written(p, f, ts[j]).value
    case If(_, thn, els) => WrittenS(p, f, thn) + WrittenS(p, f, els)
    case While(_, b) => WrittenS(p, f, b)
    case ForNum(_, _, _, _, b) => WrittenS(p, f, b)
    case ForGen(_, _, b) => WrittenS(p, f, b)
    case _ => {}
  }

  /** What the declarations in ss bind. */
  function BoundS(f: nat, ss: Stmts): Binds
    decreases ss
  {
    match ss case Nil => map[] case Cons(s, tl) => BoundAt(f, s) + BoundS(f, tl)
  }

  function BoundAt(f: nat, s: Stmt): Binds
    decreases s
  {
    match s
    case LocalFun(slot, k) => map[(f, slot) := k]
    case LocalVals(slots, _, es) => if Count(es) != |slots| then map[] else BoundVals(f, slots, es, |slots|)
    case If(_, thn, els) => BoundS(f, thn) + BoundS(f, els)
    case While(_, b) => BoundS(f, b)
    case ForNum(_, _, _, _, b) => BoundS(f, b)
    case ForGen(_, _, b) => BoundS(f, b)
    case _ => map[]
  }

  /** The first n names, each with its own value. */
  function BoundVals(f: nat, slots: seq<nat>, es: Exprs, n: nat): Binds
    requires n <= |slots| == Count(es)
  {
    if n == 0 then map[] else BoundVals(f, slots, es, n - 1) + BoundVal(f, slots[n - 1], Nth(es, n - 1))
  }

  function BoundVal(f: nat, slot: nat, e: Expr): Binds { if e.Fun? then map[(f, slot) := e.f] else map[] }

  lemma {:induction false} ValsBound(f: nat, slots: seq<nat>, es: Exprs, n: nat)
    requires n <= |slots| == Count(es) && forall i, j | 0 <= i < j < |slots| :: slots[i] != slots[j]
    ensures forall x | x in BoundVals(f, slots, es, n) :: x.0 == f && x.1 in slots[..n]
    ensures forall j | 0 <= j < n ::
              if Nth(es, j).Fun?
              then (f, slots[j]) in BoundVals(f, slots, es, n)
                   && BoundVals(f, slots, es, n)[(f, slots[j])] == Nth(es, j).f
              else (f, slots[j]) !in BoundVals(f, slots, es, n)
  {
    if n > 0 { ValsBound(f, slots, es, n - 1); }
  }

  lemma {:induction false} BoundDeclared(f: nat, ss: Stmts)
    requires Once(ss)
    ensures forall x | x in BoundS(f, ss) :: x.0 == f && x.1 in DeclS(ss)
    decreases ss
  {
    if ss.Cons? {
      BoundDeclaredAt(f, ss.hd);
      BoundDeclared(f, ss.tl);
    }
  }

  lemma {:induction false} BoundDeclaredAt(f: nat, s: Stmt)
    requires OnceAt(s)
    ensures forall x | x in BoundAt(f, s) :: x.0 == f && x.1 in DeclAt(s)
    decreases s
  {
    match s
    case LocalVals(slots, _, es) => if Count(es) == |slots| { ValsBound(f, slots, es, |slots|); }
    case If(_, thn, els) =>
      BoundDeclared(f, thn);
      BoundDeclared(f, els);
    case While(_, b) => BoundDeclared(f, b);
    case ForNum(_, _, _, _, b) => BoundDeclared(f, b);
    case ForGen(_, _, b) => BoundDeclared(f, b);
    case _ =>
  }

  /** Of the slots ss declares, m says only what ss binds. */
  ghost predicate Only(m: Binds, f: nat, ds: set<nat>, bound: Binds) {
    forall s | s in ds && (f, s) in m :: (f, s) in bound && bound[(f, s)] == m[(f, s)]
  }

  /** A map that says only that, and nothing of what is assigned, is respected. */
  lemma {:induction false} RespectsFrom(p: Prog, m: Binds, f: nat, ss: Stmts)
    requires TabsOk(p.tabs) && f < |p.tabs| && Once(ss) && Only(m, f, DeclS(ss), BoundS(f, ss))
    requires forall x | x in WrittenS(p, f, ss) :: x !in m
    ensures Respects(p, m, f, ss)
    decreases ss
  {
    if ss.Cons? {
      BoundDeclaredAt(f, ss.hd);
      BoundDeclared(f, ss.tl);
      RespectsFromAt(p, m, f, ss.hd);
      RespectsFrom(p, m, f, ss.tl);
    }
  }

  lemma {:induction false} RespectsFromAt(p: Prog, m: Binds, f: nat, s: Stmt)
    requires TabsOk(p.tabs) && f < |p.tabs| && OnceAt(s) && Only(m, f, DeclAt(s), BoundAt(f, s))
    requires forall x | x in WrittenAt(p, f, s) :: x !in m
    ensures RespectsAt(p, m, f, s)
    decreases s
  {
    match s
    case LocalVals(slots, _, es) =>
      if Count(es) == |slots| { ValsBound(f, slots, es, |slots|); }
      forall j | 0 <= j < |slots| && (f, slots[j]) in m
        ensures Count(es) == |slots| && Nth(es, j) == Fun(m[(f, slots[j])]) {
        assert slots[j] in DeclAt(s);
      }
    case Assign(ts, _) =>
      forall j | 0 <= j < |ts| && Written(p, f, ts[j]).Some? ensures Written(p, f, ts[j]).value !in m {
        assert Written(p, f, ts[j]).value in WrittenAt(p, f, s);
      }
    case If(_, thn, els) =>
      BoundDeclared(f, thn);
      BoundDeclared(f, els);
      RespectsFrom(p, m, f, thn);
      RespectsFrom(p, m, f, els);
    case While(_, b) => RespectsFrom(p, m, f, b);
    case ForNum(_, _, _, _, b) =>
      BoundDeclared(f, b);
      RespectsFrom(p, m, f, b);
    case ForGen(slots, _, b) =>
      BoundDeclared(f, b);
      RespectsFrom(p, m, f, b);
      forall j | 0 <= j < |slots| ensures (f, slots[j]) !in m { assert slots[j] in DeclAt(s); }
    case _ =>
  }

  /** And conversely. */
  lemma {:induction false} RespectsOnly(p: Prog, m: Binds, f: nat, ss: Stmts)
    requires TabsOk(p.tabs) && f < |p.tabs| && Once(ss) && Respects(p, m, f, ss)
    ensures Only(m, f, DeclS(ss), BoundS(f, ss)) && forall x | x in WrittenS(p, f, ss) :: x !in m
    decreases ss
  {
    if ss.Cons? {
      BoundDeclared(f, ss.tl);
      RespectsOnlyAt(p, m, f, ss.hd);
      RespectsOnly(p, m, f, ss.tl);
    }
  }

  lemma {:induction false} RespectsOnlyAt(p: Prog, m: Binds, f: nat, s: Stmt)
    requires TabsOk(p.tabs) && f < |p.tabs| && OnceAt(s) && RespectsAt(p, m, f, s)
    ensures Only(m, f, DeclAt(s), BoundAt(f, s)) && forall x | x in WrittenAt(p, f, s) :: x !in m
    decreases s
  {
    match s
    case LocalVals(slots, _, es) => if Count(es) == |slots| { ValsBound(f, slots, es, |slots|); }
    case If(_, thn, els) =>
      BoundDeclared(f, els);
      RespectsOnly(p, m, f, thn);
      RespectsOnly(p, m, f, els);
    case While(_, b) => RespectsOnly(p, m, f, b);
    case ForNum(_, _, _, _, b) => RespectsOnly(p, m, f, b);
    case ForGen(_, _, b) => RespectsOnly(p, m, f, b);
    case _ =>
  }

  predicate Inside(p: Prog, f: nat, m: Binds) {
    forall x | x in m :: 0 < m[x] < |p.tabs| && p.tabs[m[x]].parent == f
  }

  /** A function bound to a local is declared in that local's function. */
  lemma {:induction false} BoundInside(p: Prog, f: nat, ss: Stmts)
    requires Once(ss) && NestedIn(p, f, ss)
    ensures Inside(p, f, BoundS(f, ss))
    decreases ss
  {
    if ss.Cons? {
      BoundInsideAt(p, f, ss.hd);
      BoundInside(p, f, ss.tl);
    }
  }

  lemma {:induction false} BoundInsideAt(p: Prog, f: nat, s: Stmt)
    requires OnceAt(s) && NestedAt(p, f, s)
    ensures Inside(p, f, BoundAt(f, s))
    decreases s
  {
    match s
    case LocalVals(slots, _, es) => if Count(es) == |slots| { ValsInside(p, f, slots, es, |slots|); }
    case If(_, thn, els) =>
      BoundInside(p, f, thn);
      BoundInside(p, f, els);
    case While(_, b) => BoundInside(p, f, b);
    case ForNum(_, _, _, _, b) => BoundInside(p, f, b);
    case ForGen(_, _, b) => BoundInside(p, f, b);
    case _ =>
  }

  lemma {:induction false} ValsInside(p: Prog, f: nat, slots: seq<nat>, es: Exprs, n: nat)
    requires n <= |slots| == Count(es) && NestedAll(p, f, es)
    ensures Inside(p, f, BoundVals(f, slots, es, n))
  {
    if n > 0 {
      ValsInside(p, f, slots, es, n - 1);
      NthNested(p, f, es, n - 1);
    }
  }

  lemma {:induction false} NthNested(p: Prog, f: nat, es: Exprs, n: nat)
    requires n < Count(es) && NestedAll(p, f, es)
    ensures Nested(p, f, Nth(es, n))
    decreases n
  {
    if n > 0 { NthNested(p, f, es.es, n - 1); }
  }

  /** What the first n functions declare, and what they assign. */
  function AllBound(p: Prog, n: nat): Binds
    requires n <= |p.fns|
  {
    if n == 0 then map[] else AllBound(p, n - 1) + BoundS(n - 1, p.fns[n - 1].body)
  }

  function AllWritten(p: Prog, n: nat): set<(nat, nat)>
    requires TabsOk(p.tabs) && n <= |p.fns| == |p.tabs|
  {
    if n == 0 then {} else AllWritten(p, n - 1) + WrittenS(p, n - 1, p.fns[n - 1].body)
  }

  /** A local that is bound when declared and assigned nowhere. */
  function Stable(p: Prog): Binds
    requires ProgOk(p)
  {
    map x | x in AllBound(p, |p.fns|) && x !in AllWritten(p, |p.fns|) :: AllBound(p, |p.fns|)[x]
  }

  lemma {:induction false} AllDeclared(p: Prog, n: nat)
    requires SlotsOnce(p) && n <= |p.fns|
    ensures forall x | x in AllBound(p, n) :: x.0 < n && x.1 in DeclS(p.fns[x.0].body)
  {
    if n > 0 {
      AllDeclared(p, n - 1);
      BoundDeclared(n - 1, p.fns[n - 1].body);
    }
  }

  lemma {:induction false} AllBoundAt(p: Prog, n: nat, g: nat, s: nat)
    requires SlotsOnce(p) && g < n <= |p.fns|
    ensures var all, b := AllBound(p, n), BoundS(g, p.fns[g].body);
            ((g, s) in all <==> (g, s) in b) && ((g, s) in b ==> all[(g, s)] == b[(g, s)])
  {
    AllDeclared(p, n - 1);
    BoundDeclared(n - 1, p.fns[n - 1].body);
    assert (g, s).0 == g;
    if g < n - 1 { AllBoundAt(p, n - 1, g, s); }
  }

  lemma {:induction false} AllWrittenHas(p: Prog, n: nat, g: nat)
    requires TabsOk(p.tabs) && g < n <= |p.fns| == |p.tabs|
    ensures WrittenS(p, g, p.fns[g].body) <= AllWritten(p, n)
  {
    if g < n - 1 { AllWrittenHas(p, n - 1, g); }
  }

  lemma {:induction false} WrittenSome(p: Prog, n: nat, x: (nat, nat)) returns (g: nat)
    requires TabsOk(p.tabs) && n <= |p.fns| == |p.tabs| && x in AllWritten(p, n)
    ensures g < n && x in WrittenS(p, g, p.fns[g].body)
  {
    if x in WrittenS(p, n - 1, p.fns[n - 1].body) { g := n - 1; } else { g := WrittenSome(p, n - 1, x); }
  }

  lemma {:induction false} StableOnly(p: Prog, g: nat)
    requires ProgOk(p) && SlotsOnce(p) && g < |p.fns|
    ensures Only(Stable(p), g, DeclS(p.fns[g].body), BoundS(g, p.fns[g].body))
  {
    var m, b := Stable(p), BoundS(g, p.fns[g].body);
    forall s | s in DeclS(p.fns[g].body) && (g, s) in m ensures (g, s) in b && b[(g, s)] == m[(g, s)] {
      AllBoundAt(p, |p.fns|, g, s);
    }
  }

  /** The stable locals are right, and their functions stand just inside: a direct call
      through a local goes inwards. */
  lemma {:induction false} StableOk(p: Prog)
    requires ProgOk(p) && SlotsOnce(p)
    ensures MapOk(p, Stable(p))
    ensures forall x | x in Stable(p) :: x.0 < Stable(p)[x] < |p.tabs| && p.tabs[Stable(p)[x]].parent == x.0
  {
    var m := Stable(p);
    AllDeclared(p, |p.fns|);
    forall g: nat | g < |p.fns| ensures Respects(p, m, g, p.fns[g].body) {
      AllWrittenHas(p, |p.fns|, g);
      StableOnly(p, g);
      RespectsFrom(p, m, g, p.fns[g].body);
    }
    forall x | x in m ensures x.0 < m[x] < |p.tabs| && p.tabs[m[x]].parent == x.0 {
      assert x == (x.0, x.1);
      AllBoundAt(p, |p.fns|, x.0, x.1);
      BoundInside(p, x.0, p.fns[x.0].body);
      assert TabOk(p.tabs, m[x]);
    }
  }

  /** No map that is right binds any other declared local, or binds one otherwise. */
  lemma {:induction false} StableMost(p: Prog, m: Binds, x: (nat, nat))
    requires ProgOk(p) && SlotsOnce(p) && MapOk(p, m)
    requires x in m && x.0 < |p.fns| && x.1 in DeclS(p.fns[x.0].body)
    ensures x in Stable(p) && Stable(p)[x] == m[x]
  {
    AllBoundAt(p, |p.fns|, x.0, x.1);
    RespectsOnly(p, m, x.0, p.fns[x.0].body);
    assert (x.0, x.1) == x;
    if x in AllWritten(p, |p.fns|) {
      var g := WrittenSome(p, |p.fns|, x);
      RespectsOnly(p, m, g, p.fns[g].body);
    }
  }

  /** Slots numbered once each, parameters first. */
  ghost predicate SlotsOnce(p: Prog) {
    forall f: nat | f < |p.fns| :: Once(p.fns[f].body) && forall s | s in DeclS(p.fns[f].body) :: s >= p.fns[f].params
  }

  // ----- the map in terms of the program's text -----

  /** A declaration among ss gives slot the function k: `local function`, or `local` with as
      many values as names. */
  predicate Gives(ss: Stmts, slot: nat, k: nat)
    decreases ss
  {
    ss.Cons? && (GivesAt(ss.hd, slot, k) || Gives(ss.tl, slot, k))
  }

  predicate GivesAt(s: Stmt, slot: nat, k: nat)
    decreases s
  {
    match s
    case LocalFun(x, f) => x == slot && f == k
    case LocalVals(slots, _, es) =>
      Count(es) == |slots| && exists j :: 0 <= j < |slots| && slots[j] == slot && Nth(es, j) == Fun(k)
    case If(_, thn, els) => Gives(thn, slot, k) || Gives(els, slot, k)
    case While(_, b) => Gives(b, slot, k)
    case ForNum(_, _, _, _, b) => Gives(b, slot, k)
    case ForGen(_, _, b) => Gives(b, slot, k)
    case _ => false
  }

  /** An assignment among ss, a body's of function f, has x as a target. */
  predicate Assigns(p: Prog, f: nat, ss: Stmts, x: (nat, nat))
    requires TabsOk(p.tabs) && f < |p.tabs|
    decreases ss
  {
    ss.Cons? && (AssignsAt(p, f, ss.hd, x) || Assigns(p, f, ss.tl, x))
  }

  predicate AssignsAt(p: Prog, f: nat, s: Stmt, x: (nat, nat))
    requires TabsOk(p.tabs) && f < |p.tabs|
    decreases s
  {
    match s
    case Assign(ts, _) => exists j :: 0 <= j < |ts| && IsVar(p, f, ts[j], x)
    case If(_, thn, els) => Assigns(p, f, thn, x) || Assigns(p, f, els, x)
    case While(_, b) => Assigns(p, f, b, x)
    case ForNum(_, _, _, _, b) => Assigns(p, f, b, x)
    case ForGen(_, _, b) => Assigns(p, f, b, x)
    case _ => false
  }

  /** The target is x itself, or an upvalue that comes from x. */
  predicate IsVar(p: Prog, f: nat, tg: Target, x: (nat, nat))
    requires TabsOk(p.tabs) && f < |p.tabs|
  {
    (tg.ToLocal? && x == (f, tg.s)) || (tg.ToUpval? && tg.i < |p.tabs[f].upvals| && x == Origin(p.tabs, f, tg.i))
  }

  lemma {:induction false} BoundGives(f: nat, ss: Stmts, slot: nat, k: nat)
    requires Once(ss)
    ensures (f, slot) in BoundS(f, ss) && BoundS(f, ss)[(f, slot)] == k <==> Gives(ss, slot, k)
    ensures Gives(ss, slot, k) ==> slot in DeclS(ss)
    decreases ss
  {
    if ss.Cons? {
      BoundGivesAt(f, ss.hd, slot, k);
      BoundGives(f, ss.tl, slot, k);
      BoundDeclaredAt(f, ss.hd);
      BoundDeclared(f, ss.tl);
      assert (f, slot).1 == slot;
    }
  }

  lemma {:induction false} BoundGivesAt(f: nat, s: Stmt, slot: nat, k: nat)
    requires OnceAt(s)
    ensures (f, slot) in BoundAt(f, s) && BoundAt(f, s)[(f, slot)] == k <==> GivesAt(s, slot, k)
    ensures GivesAt(s, slot, k) ==> slot in DeclAt(s)
    decreases s
  {
    match s
    case LocalVals(slots, _, es) => if Count(es) == |slots| { ValsGive(f, slots, es, slot, k); }
    case If(_, thn, els) =>
      BoundGives(f, thn, slot, k);
      BoundGives(f, els, slot, k);
      BoundDeclared(f, thn);
      BoundDeclared(f, els);
      assert (f, slot).1 == slot;
    case While(_, b) => BoundGives(f, b, slot, k);
    case ForNum(_, _, _, _, b) => BoundGives(f, b, slot, k);
    case ForGen(_, _, b) => BoundGives(f, b, slot, k);
    case _ =>
  }

  lemma {:induction false} ValsGive(f: nat, slots: seq<nat>, es: Exprs, slot: nat, k: nat)
    requires Count(es) == |slots| && forall i, j | 0 <= i < j < |slots| :: slots[i] != slots[j]
    ensures var b := BoundVals(f, slots, es, |slots|);
            (f, slot) in b && b[(f, slot)] == k
            <==> exists j :: 0 <= j < |slots| && slots[j] == slot && Nth(es, j) == Fun(k)
  {
    ValsBound(f, slots, es, |slots|);
    assert (f, slot).1 == slot && slots[..|slots|] == slots;
    if (f, slot) in BoundVals(f, slots, es, |slots|) {
      var j :| 0 <= j < |slots| && slots[j] == slot;
      assert Nth(es, j).Fun?;
    }
  }

  lemma {:induction false} WrittenAssigns(p: Prog, f: nat, ss: Stmts, x: (nat, nat))
    requires TabsOk(p.tabs) && f < |p.tabs|
    ensures x in WrittenS(p, f, ss) <==> Assigns(p, f, ss, x)
    decreases ss
  {
    if ss.Cons? {
      WrittenAssignsAt(p, f, ss.hd, x);
      WrittenAssigns(p, f, ss.tl, x);
    }
  }

  lemma {:induction false} WrittenAssignsAt(p: Prog, f: nat, s: Stmt, x: (nat, nat))
    requires TabsOk(p.tabs) && f < |p.tabs|
    ensures x in WrittenAt(p, f, s) <==> AssignsAt(p, f, s, x)
    decreases s
  {
    match s
    case Assign(ts, _) =>
      forall j | 0 <= j < |ts| ensures IsVar(p, f, ts[j], x) <==> Written(p, f, ts[j]) == Some(x) {}
    case If(_, thn, els) =>
      WrittenAssigns(p, f, thn, x);
      WrittenAssigns(p, f, els, x);
    case While(_, b) => WrittenAssigns(p, f, b, x);
    case ForNum(_, _, _, _, b) => WrittenAssigns(p, f, b, x);
    case ForGen(_, _, b) => WrittenAssigns(p, f, b, x);
    case _ =>
  }

  /** Slot s of function f is bound to function k if and only if a declaration gives it k and
      no assignment in the whole program, its own function's or a closure's, has it as a target. */
  lemma {:induction false} StableIs(p: Prog, f: nat, s: nat, k: nat)
    requires ProgOk(p) && SlotsOnce(p) && f < |p.fns|
    ensures (f, s) in Stable(p) && Stable(p)[(f, s)] == k
            <==> Gives(p.fns[f].body, s, k)
                 && forall g: nat | g < |p.fns| :: !Assigns(p, g, p.fns[g].body, (f, s))
  {
    AllBoundAt(p, |p.fns|, f, s);
    BoundGives(f, p.fns[f].body, s, k);
    forall g: nat | g < |p.fns|
      ensures Assigns(p, g, p.fns[g].body, (f, s)) ==> (f, s) in AllWritten(p, |p.fns|)
    {
      WrittenAssigns(p, g, p.fns[g].body, (f, s));
      AllWrittenHas(p, |p.fns|, g);
    }
    if (f, s) in AllWritten(p, |p.fns|) {
      var g := WrittenSome(p, |p.fns|, (f, s));
      WrittenAssigns(p, g, p.fns[g].body, (f, s));
    }
  }

  function OriginOf(p: Prog, x: (nat, nat)): (nat, nat)
    requires TabsOk(p.tabs)
  {
    if x.0 < |p.tabs| && x.1 < |p.tabs[x.0].upvals| then Origin(p.tabs, x.0, x.1) else (0, 0)
  }

  function Origins(p: Prog, xs: set<(nat, nat)>): set<(nat, nat)>
    requires TabsOk(p.tabs)
  {
    set x | x in xs :: OriginOf(p, x)
  }

  lemma {:induction false} OneOrigin(p: Prog, xs: set<(nat, nat)>, x: (nat, nat))
    requires TabsOk(p.tabs)
    ensures Origins(p, xs + {x}) == Origins(p, xs) + {OriginOf(p, x)}
  {
  }

  /** The variables the first n targets name. */
  function WrittenBy(p: Prog, f: nat, ts: seq<Target>, n: nat): set<(nat, nat)>
    requires TabsOk(p.tabs) && f < |p.tabs| && n <= |ts|
  {
    set j | 0 <= j < n && Written(p, f, ts[j]).Some? :: Written(p, f, ts[j]).value
  }

  function WrittenOne(p: Prog, f: nat, t: Target): set<(nat, nat)>
    requires TabsOk(p.tabs) && f < |p.tabs|
  {
    match Written(p, f, t) case Some(x) => {x} case None => {}
  }

  lemma {:induction false} WrittenNext(p: Prog, f: nat, ts: seq<Target>, n: nat)
    requires TabsOk(p.tabs) && f < |p.tabs| && n < |ts|
    ensures WrittenBy(p, f, ts, n + 1) == WrittenBy(p, f, ts, n) + WrittenOne(p, f, ts[n])
  {
    assert Written(p, f, ts[n]).Some? ==> Written(p, f, ts[n]).value in WrittenBy(p, f, ts, n + 1);
  }

  lemma {:induction false} Joined(a: Binds, b: Binds, c: Binds)
    ensures a + b + c == a + (b + c)
  {
  }

  class Binder {
    const p: Prog
    var slotFunc: Binds
    var reassLocal: set<(nat, nat)>
    var reassUpval: set<(nat, nat)>

    constructor (p: Prog)
      ensures this.p == p && slotFunc == map[] && reassLocal == {} && reassUpval == {}
    {
      this.p, slotFunc, reassLocal, reassUpval := p, map[], {}, {};
    }

    /** The variables the assignments seen so far write. */
    ghost function Seen(): set<(nat, nat)>
      requires TabsOk(p.tabs) && UpvalsExist()
      reads this
    {
      reassLocal + Origins(p, reassUpval)
    }

    ghost predicate UpvalsExist()
      reads this
    {
      forall x | x in reassUpval :: x.0 < |p.tabs| && x.1 < |p.tabs[x.0].upvals|
    }

    /** bind_visit over a body. */
    method Visit(f: nat, ss: Stmts)
      requires TabsOk(p.tabs) && f < |p.tabs| && UpvalsExist()
      modifies this
      ensures UpvalsExist() && slotFunc == old(slotFunc) + BoundS(f, ss) && Seen() == old(Seen()) + WrittenS(p, f, ss)
      decreases ss
    {
      if ss.Nil? { return; }
      VisitStmt(f, ss.hd);
      Visit(f, ss.tl);
      Joined(old(slotFunc), BoundAt(f, ss.hd), BoundS(f, ss.tl));
    }

    method VisitStmt(f: nat, s: Stmt)
      requires TabsOk(p.tabs) && f < |p.tabs| && UpvalsExist()
      modifies this
      ensures UpvalsExist() && slotFunc == old(slotFunc) + BoundAt(f, s) && Seen() == old(Seen()) + WrittenAt(p, f, s)
      decreases s
    {
      match s
      case LocalFun(slot, k) => slotFunc := slotFunc[(f, slot) := k];
      case LocalVals(slots, _, es) => VisitLocal(f, slots, es);
      case Assign(ts, es) => VisitAssign(f, ts);
      case If(_, thn, els) =>
        Visit(f, thn);
        Visit(f, els);
        Joined(old(slotFunc), BoundS(f, thn), BoundS(f, els));
      case While(_, b) => Visit(f, b);
      case ForNum(_, _, _, _, b) => Visit(f, b);
      case ForGen(_, _, b) => Visit(f, b);
      case _ =>
    }

    method VisitLocal(f: nat, slots: seq<nat>, es: Exprs)
      modifies `slotFunc
      ensures slotFunc == old(slotFunc) + BoundAt(f, LocalVals(slots, [], es))
    {
      if Count(es) != |slots| { return; }
      var j := 0;
      while j < |slots|
        invariant 0 <= j <= |slots| && slotFunc == old(slotFunc) + BoundVals(f, slots, es, j)
      {
        var e := Nth(es, j);
        Joined(old(slotFunc), BoundVals(f, slots, es, j), BoundVal(f, slots[j], e));
        if e.Fun? { slotFunc := slotFunc[(f, slots[j]) := e.f]; }
        j := j + 1;
      }
    }

    method VisitAssign(f: nat, ts: seq<Target>)
      requires TabsOk(p.tabs) && f < |p.tabs| && UpvalsExist()
      modifies `reassLocal, `reassUpval
      ensures UpvalsExist() && Seen() == old(Seen()) + WrittenBy(p, f, ts, |ts|)
    {
      var j := 0;
      while j < |ts|
        invariant 0 <= j <= |ts| && UpvalsExist() && Seen() == old(Seen()) + WrittenBy(p, f, ts, j)
      {
        VisitTarget(f, ts[j]);
        WrittenNext(p, f, ts, j);
        j := j + 1;
      }
    }

    method VisitTarget(f: nat, t: Target)
      requires TabsOk(p.tabs) && f < |p.tabs| && UpvalsExist()
      modifies `reassLocal, `reassUpval
      ensures UpvalsExist() && Seen() == old(Seen()) + WrittenOne(p, f, t)
    {
      match t
      case ToLocal(s) => reassLocal := reassLocal + {(f, s)};
      case ToUpval(i) =>
        if i < |p.tabs[f].upvals| {
          OneOrigin(p, reassUpval, (f, i));
          reassUpval := reassUpval + {(f, i)};
        }
      case ToGlobal(_) =>
    }
  }

  /** resolve_upval_origin. */
  method FindOrigin(p: Prog, f: nat, u: nat) returns (g: nat, s: nat)
    requires TabsOk(p.tabs) && f < |p.tabs| && u < |p.tabs[f].upvals|
    ensures (g, s) == Origin(p.tabs, f, u)
    decreases f
  {
    assert TabOk(p.tabs, f);
    assert RefOk(p.tabs, f, p.tabs[f].upvals[u]);
    match p.tabs[f].upvals[u]
    case FromLocal(i) => g, s := p.tabs[f].parent, i;
    case FromUpval(i) => g, s := FindOrigin(p, p.tabs[f].parent, i);
  }

  /** Passes 1 and 2 over the bodies: what they declare and what they assign. */
  method VisitAll(p: Prog) returns (b: Binder)
    requires ProgOk(p)
    ensures fresh(b) && b.p == p && b.UpvalsExist()
    ensures b.slotFunc == AllBound(p, |p.fns|) && b.Seen() == AllWritten(p, |p.fns|)
  {
    b := new Binder(p);
    var f := 0;
    while f < |p.fns|
      invariant 0 <= f <= |p.fns| && fresh(b) && b.p == p && b.UpvalsExist()
      invariant b.slotFunc == AllBound(p, f) && b.Seen() == AllWritten(p, f)
    {
      b.Visit(f, p.fns[f].body);
      f := f + 1;
    }
  }

  /** compute_func_bindings: declarations, less what is assigned directly, less what is
      assigned through an upvalue anywhere. */
  method ComputeBindings(p: Prog) returns (m: Binds)
    requires ProgOk(p)
    ensures m == Stable(p)
  {
    var b := VisitAll(p);
    m := DropUpvals(p, b.slotFunc - b.reassLocal, b.reassUpval);
    LeftOver(b.slotFunc, b.reassLocal, Origins(p, b.reassUpval));
  }

  method DropUpvals(p: Prog, bound: Binds, upvals: set<(nat, nat)>) returns (m: Binds)
    requires TabsOk(p.tabs) && forall x | x in upvals :: x.0 < |p.tabs| && x.1 < |p.tabs[x.0].upvals|
    ensures m == bound - Origins(p, upvals)
  {
    m := bound;
    var todo := upvals;
    ghost var done: set<(nat, nat)> := {};
    assert Origins(p, done) == {};
    while todo != {}
      invariant upvals == done + todo && m == bound - Origins(p, done)
      decreases |todo|
    {
      var x :| x in todo;
      var g, s := FindOrigin(p, x.0, x.1);
      OneOrigin(p, done, x);
      Fewer(bound, Origins(p, done), (g, s));
      m := m - {(g, s)};
      todo, done := todo - {x}, done + {x};
    }
  }

  lemma {:induction false} Fewer(m: Binds, gone: set<(nat, nat)>, x: (nat, nat))
    ensures m - gone - {x} == m - (gone + {x})
  {
  }

  lemma {:induction false} LeftOver(all: Binds, direct: set<(nat, nat)>, gone: set<(nat, nat)>)
    ensures all - direct - gone == map x | x in all && x !in direct + gone :: all[x]
  {
  }
}
