/** The lowering as it works, taking and giving back temporaries (src/codegen/maybe.c,
    mt_alloc, emit_maybe_operands, emit_maybe_lower): the internal error is never
    raised. */
module MaybeEmit {
  import opened Options
  import opened Numbers
  import opened Maybe
  import opened MaybeMain

  class CG {
    const mtMax: nat
    var mtDepth: nat
    var ok: bool

    constructor (max: nat)
      ensures mtMax == max && mtDepth == 0 && ok
    {
      mtMax, mtDepth, ok := max, 0, true;
    }

    /** mt_alloc: past the bound is an internal error. */
    method MtAlloc(n: nat) returns (k: nat)
      modifies this
      ensures k == old(mtDepth) && mtDepth == old(mtDepth) + n && ok == (old(ok) && mtDepth <= mtMax)
    {
      k := mtDepth;
      mtDepth := mtDepth + n;
      if mtDepth > mtMax { ok := false; }
    }

    /** emit_maybe_operands: the code of both operands, and where they are read. */
    method EmitOperands(ks: Kinds, e: Expr) returns (k: nat, first: S, second: S, a: MCell, b: MCell)
      requires e.Bin? && MaybeOp(e.op) && !IsInt(ks, e) && !IsFlt(ks, e)
      requires ok && mtDepth + LNeed(ks, e) <= mtMax
      modifies this
      ensures ok && k == old(mtDepth)
      ensures var il, ir := OperandImm(ks, e.l, Some(e.r)), OperandImm(ks, e.r, None);
              var kr := if il.Some? then k else k + 1;
              var next := if ir.Some? then kr else kr + 1;
              && a == (if il.Some? then il.value else CellOf(Tmp(k)))
                && b == (if ir.Some? then ir.value else CellOf(Tmp(kr)))
              && first == (if il.Some? then Skip else Lower(ks, e.l, Tmp(k), next))
              && second == (if ir.Some? then Skip else Lower(ks, e.r, Tmp(kr), next))
      decreases e, 0
    {
      var l, r := e.l, e.r;
      k := mtDepth;
      var il, ir := OperandImm(ks, l, Some(r)), OperandImm(ks, r, None);
      var next := k;
      var ta, tb := k, k;
      if il.Some? {
        a := il.value;
      } else {
        a := CellOf(Tmp(next));
        next := next + 1;
      }
      tb := next;
      if ir.Some? {
        b := ir.value;
      } else {
        b := CellOf(Tmp(next));
        next := next + 1;
      }
      var taken := MtAlloc(next - k);
      first, second := Skip, Skip;
      if il.None? { first := EmitLower(ks, l, Tmp(ta)); }
      if ir.None? { second := EmitLower(ks, r, Tmp(tb)); }
    }

    /** emit_maybe_lower. */
    method EmitLower(ks: Kinds, e: Expr, d: Base) returns (code: S)
      requires ok && mtDepth + LNeed(ks, e) <= mtMax
      modifies this
      ensures ok && mtDepth == old(mtDepth) && code == Lower(ks, e, d, mtDepth)
      decreases e, 2
    {
      if IsInt(ks, e) { return SetInt(d, IntX(ks, e)); }
      if IsFlt(ks, e) { return SetFlt(d, FltX(ks, e)); }
      if e.Local? && KindOf(ks, e.s) == KMaybe {
        return if d == Slot(e.s) then Skip else CopyS(d, Slot(e.s));
      }
      if e.Bin? && MaybeOp(e.op) {
        code := EmitArith(ks, e, d);
      } else if e.Neg? {
        var k, im := mtDepth, OperandImm(ks, e.e, None);
        if im.Some? {
          code := NegS(im.value, d);
        } else {
          var t := MtAlloc(1);
          var operand := EmitLower(ks, e.e, Tmp(k));
          code := Seq(operand, NegS(CellOf(Tmp(k)), d));
        }
        mtDepth := k;
      } else if Inlined(e) {
        code := EmitMathCall(ks, e, d);
      } else {
        var x := EmitPlainX(ks, e);
        code := Reclassify(d, x);
      }
    }

    method EmitArith(ks: Kinds, e: Expr, d: Base) returns (code: S)
      requires e.Bin? && MaybeOp(e.op) && !IsInt(ks, e) && !IsFlt(ks, e)
      requires ok && mtDepth + LNeed(ks, e) <= mtMax
      modifies this
      ensures ok && mtDepth == old(mtDepth) && code == Lower(ks, e, d, mtDepth)
      decreases e, 1
    {
      BinShape(ks, e, d, mtDepth);
      var k, first, second, a, b := EmitOperands(ks, e);
      code := Seq(first, Seq(second, ArithS(e.op, a, b, d)));
      mtDepth := k;
    }

    /** emit_maybe_math_call: the callee's cell, then the argument's. */
    method EmitMathCall(ks: Kinds, e: Expr, d: Base) returns (code: S)
      requires Inlined(e) && ok && mtDepth + LNeed(ks, e) <= mtMax
      modifies this
      ensures ok && mtDepth == old(mtDepth) && code == Lower(ks, e, d, mtDepth)
      decreases e, 1
    {
      MathShape(ks, e, d, mtDepth);
      var k := MtAlloc(1);
      var x := EmitExpr(ks, e.callee);
      var im, arg := OperandImm(ks, e.args.hd, None), Skip;
      var a := if im.Some? then im.value else CellOf(Tmp(k + 1));
      if im.None? {
        var t := MtAlloc(1);
        arg := EmitLower(ks, e.args.hd, Tmp(k + 1));
      }
      code := Seq(Set(Tmp(k), PB, x), Seq(arg, GuardedS(e.math.value, Tmp(k), a, d)));
      mtDepth := k;
    }

    /** emit_expr. */
    method EmitExpr(ks: Kinds, e: Expr) returns (x: X)
      requires ok && mtDepth + XNeed(ks, e) <= mtMax
      modifies this
      ensures ok && mtDepth == old(mtDepth) && x == EmitX(ks, e, mtDepth)
      decreases e, 3
    {
      if !e.Int? && IsInt(ks, e) { return Un(MakeInt, IntX(ks, e)); }
      if !e.Float? && IsFlt(ks, e) { return Un(MakeFloat, FltX(ks, e)); }
      if Lowered(ks, e) {
        OpaqueUntyped(ks, e);
        var k := MtAlloc(1);
        var code := EmitLower(ks, e, Tmp(k));
        x := BlockX(code, BoxCell(CellOf(Tmp(k))));
        mtDepth := k;
      } else {
        x := EmitPlainX(ks, e);
      }
    }

    method EmitPlainX(ks: Kinds, e: Expr) returns (x: X)
      requires ok && mtDepth + PNeed(ks, e) <= mtMax
      modifies this
      ensures ok && mtDepth == old(mtDepth) && x == EmitPlain(ks, e, mtDepth)
      decreases e, 1
    {
      match e
      case Int(n) => x := Const(WR(VInt(n)));
      case Float(f) => x := Const(WR(VFlt(f)));
      case Lit(n) => x := Const(WR(VObj(n)));
      case Local(s) => x := if KindOf(ks, s) == KMaybe then BoxCell(CellOf(Slot(s))) else Get(Slot(s), PB);
      case Bin(op, l, r) =>
        var a := EmitExpr(ks, l);
        var b := EmitExpr(ks, r);
        x := Two(Helper(op), a, b);
      case Neg(y) =>
        var a := EmitExpr(ks, y);
        x := Un(HelperNeg, a);
      case Call(_, callee, args) =>
        var f := EmitExpr(ks, callee);
        var xs := EmitAll(ks, args);
        x := CallX(f, xs);
      case Other(q, _, args) =>
        var xs := EmitAll(ks, args);
        x := AskX(q, xs);
    }

    method EmitAll(ks: Kinds, es: Exprs) returns (xs: Xs)
      requires ok && mtDepth + XsNeed(ks, es) <= mtMax
      modifies this
      ensures ok && mtDepth == old(mtDepth) && xs == EmitXs(ks, es, mtDepth)
      decreases es
    {
      if es.Nil? { return XNil; }
      var x := EmitExpr(ks, es.hd);
      var rest := EmitAll(ks, es.tl);
      xs := XCons(x, rest);
    }

    /** A store into a maybe slot, with at least what the pre-pass counted for it. */
    method EmitStore(ks: Kinds, slot: nat, e: Expr) returns (code: S)
      requires ok && Guesses(ks, e) && mtDepth + Bound(ks, e) <= mtMax
      modifies this
      ensures ok && mtDepth == old(mtDepth) && code == Lower(ks, e, Slot(slot), mtDepth)
    {
      NeedBounded(ks, e);
      code := EmitLower(ks, e, Slot(slot));
    }
  }
}
