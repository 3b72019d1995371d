/** The emitter as it works, with its counters and its break stack updated on the
    way (src/codegen/stmt.c): it produces the code the functions of Control give,
    and leaves close_count and the break stack as it found them. */
module ControlEmit {
  import opened Options
  import opened Control

  class CG {
    var closeCount: nat
    var nextLabel: int
    var nextLabelId: int
    var breaks: seq<Loop> // break_labels with break_close_count

    constructor ()
      ensures closeCount == 0 && nextLabel == 0 && nextLabelId == 0 && breaks == []
    {
      closeCount, nextLabel, nextLabelId, breaks := 0, 0, 0, [];
    }

    function Counters(): Ctr
      reads this
    {
      Ctr(nextLabel, nextLabelId)
    }

    function Around(sc: Scope): Env
      reads this
    {
      Env(sc, if breaks == [] then None else Some(breaks[|breaks| - 1]))
    }

    /** push_break_label. */
    method PushBreak(lab: int)
      modifies this`breaks
      ensures breaks == old(breaks) + [Loop(lab, closeCount)]
    {
      breaks := breaks + [Loop(lab, closeCount)];
    }

    method PopBreak()
      requires breaks != []
      modifies this`breaks
      ensures breaks == old(breaks)[..|old(breaks)| - 1]
    {
      breaks := breaks[..|breaks| - 1];
    }

    method NewLabel() returns (lab: int)
      modifies this`nextLabel
      ensures lab == old(nextLabel) && nextLabel == old(nextLabel) + 1
    {
      lab := nextLabel;
      nextLabel := nextLabel + 1;
    }

    method EmitStmt(s: Stmt, sc: Scope) returns (c: Code)
      modifies this
      ensures (c, Counters()) == Control.EmitStmt(s, old(Around(sc)), old(closeCount), old(Counters()))
      ensures closeCount == Bump(s, old(closeCount)) && breaks == old(breaks)
      decreases s, 1
    {
      match s
      case Act(k) => c := One(WAsk(QAct(k)));
      case LocalClose(k) =>
        c := One(WPush(QDecl(k)));
        closeCount := closeCount + 1;
      case Label(_) => c := WNil;
      case Do(b) => c := EmitBlock(b, sc);
      case If(k, thn, els) => c := EmitIf(k, thn, els, sc);
      case While(k, b) => c := EmitWhile(k, b, sc);
      case Repeat(b, k) => c := EmitRepeat(b, k, sc);
      case ForGen(k, closing, b) =>
        c := EmitForGen(k, closing, b, sc);
      case Break => c := EmitBreak(sc);
      case Return(k) => c := WCons(WAsk(QReturn(k)), CloseIf(closeCount > 0, 0, One(WReturn)));
      case Goto(name) => c := EmitGoto(name, sc);
    }

    method EmitIf(k: int, thn: Stmts, els: Stmts, sc: Scope) returns (c: Code)
      modifies this
      ensures (c, Counters()) == Control.EmitStmt(If(k, thn, els), old(Around(sc)), old(closeCount), old(Counters()))
      ensures closeCount == old(closeCount) && breaks == old(breaks)
      decreases If(k, thn, els), 0
    {
      var lab := NewLabel();
      var t := EmitBlock(thn, sc);
      var e := EmitBlock(els, sc);
      var arm := WIf(App(t, One(WBr(LIfEnd(lab)))));
      var body := WCons(WTest(QCond(k)), WCons(arm, e));
      c := One(WBlock(LIfEnd(lab), body));
    }

    method EmitWhile(k: int, b: Stmts, sc: Scope) returns (c: Code)
      modifies this
      ensures (c, Counters()) == Control.EmitStmt(While(k, b), old(Around(sc)), old(closeCount), old(Counters()))
      ensures closeCount == old(closeCount) && breaks == old(breaks)
      decreases b, 3
    {
      var lab := NewLabel();
      PushBreak(lab);
      var d := EmitBlock(b, sc);
      PopBreak();
      c := LoopShell(lab, Guarded(lab, QCond(k), d));
    }

    method EmitRepeat(b: Stmts, k: int, sc: Scope) returns (c: Code)
      modifies this
      ensures (c, Counters()) == Control.EmitStmt(Repeat(b, k), old(Around(sc)), old(closeCount), old(Counters()))
      ensures closeCount == old(closeCount) && breaks == old(breaks)
      decreases b, 3
    {
      var lab := NewLabel();
      PushBreak(lab);
      var base := closeCount;
      var d := EmitStmts(b, sc);
      c := LoopShell(lab, App(d, Until(lab, k, closeCount > base, base)));
      closeCount := base;
      PopBreak();
    }

    method EmitForGen(k: int, closing: bool, b: Stmts, sc: Scope) returns (c: Code)
      modifies this
      ensures (c, Counters()) == Control.EmitStmt(ForGen(k, closing, b), old(Around(sc)), old(closeCount),
        old(Counters()))
      ensures closeCount == old(closeCount) && breaks == old(breaks)
      decreases b, 3
    {
      var lab := NewLabel();
      PushBreak(lab);
      var base := closeCount;
      if closing { closeCount := closeCount + 1; }
      var d := EmitBlock(b, sc);
      var loop := LoopShell(lab, Guarded(lab, QNext(k), d));
      var init := if closing then WPush(QInit(k, closing)) else WAsk(QInit(k, closing));
      c := WCons(init, App(loop, CloseIf(closing, base, WNil)));
      closeCount := base;
      PopBreak();
    }

    method EmitBreak(ghost sc: Scope) returns (c: Code)
      ensures (c, Counters()) == Control.EmitStmt(Break, Around(sc), closeCount, Counters())
    {
      if breaks == [] { return WNil; }
      var l := breaks[|breaks| - 1];
      c := CloseIf(closeCount > l.base, l.base, One(WBr(LBrk(l.n))));
    }

    method EmitGoto(name: string, sc: Scope) returns (c: Code)
      ensures (c, Counters()) == Control.EmitStmt(Goto(name), Around(sc), closeCount, Counters())
    {
      match Lookup(sc, name)
      case None => c := WNil;
      case Some(t) => c := CloseIf(closeCount > t.base, t.base, GotoSeg(t.bid, t.seg));
    }

    /** The fast path of emit_block_stmts: no labels. */
    method EmitSeq(ss: Stmts, sc: Scope) returns (c: Code)
      modifies this
      ensures (c, Counters()) == Control.EmitSeq(ss, old(Around(sc)), old(closeCount), old(Counters()))
      ensures closeCount == old(closeCount) + CountClose(ss) && breaks == old(breaks)
      decreases ss, 0
    {
      var rest := ss;
      c := WNil;
      while rest.Cons?
        invariant rest == ss || rest < ss
        invariant breaks == old(breaks) && closeCount + CountClose(rest) == old(closeCount) + CountClose(ss)
        invariant var (d, g) := Control.EmitSeq(rest, Around(sc), closeCount, Counters());
                  (App(c, d), g) == Control.EmitSeq(ss, old(Around(sc)), old(closeCount), old(Counters()))
        decreases rest
      {
        var d := EmitStmt(rest.hd, sc);
        AppAssoc(c, d, Control.EmitSeq(rest.tl, Around(sc), closeCount, Counters()).0);
        c := App(c, d);
        rest := rest.tl;
      }
      AppNil(c);
    }

    /** The dispatch loop's body, segment after segment. */
    method EmitSegs(ss: Stmts, bid: int, n: nat, sc: Scope) returns (c: Code)
      modifies this
      ensures (c, Counters()) == Control.EmitSegs(ss, bid, 0, Table(bid, n), old(Around(sc)), old(closeCount),
        old(Counters()))
      ensures closeCount == old(closeCount) + CountClose(ss) && breaks == old(breaks)
      decreases ss, 0
    {
      var rest, k := ss, 0;
      c := Table(bid, n);
      while rest.Cons?
        invariant rest == ss || rest < ss
        invariant breaks == old(breaks) && closeCount + CountClose(rest) == old(closeCount) + CountClose(ss)
        invariant Control.EmitSegs(rest, bid, k, c, Around(sc), closeCount, Counters())
               == Control.EmitSegs(ss, bid, 0, Table(bid, n), old(Around(sc)), old(closeCount), old(Counters()))
        decreases rest
      {
        if rest.hd.Label? {
          c := One(WBlock(LSeg(bid, k + 1), App(c, GotoSeg(bid, k + 1))));
          k := k + 1;
        } else {
          var d := EmitStmt(rest.hd, sc);
          c := App(c, d);
        }
        rest := rest.tl;
      }
      c := App(c, One(WBr(LExit(bid))));
    }

    method EmitStmts(b: Stmts, sc: Scope) returns (c: Code)
      modifies this
      ensures (c, Counters()) == Control.EmitStmts(b, old(Around(sc)), old(closeCount), old(Counters()))
      ensures closeCount == old(closeCount) + CountClose(b) && breaks == old(breaks)
      decreases b, 1
    {
      var n := CountLabels(b);
      if n == 0 {
        c := EmitSeq(b, sc);
      } else {
        var bid := nextLabelId;
        nextLabelId := nextLabelId + n;
        c := EmitSegs(b, bid, n, [Frame(b, bid, closeCount)] + sc);
        c := WCons(WSetNext(bid, 0), One(WBlock(LExit(bid), One(WLoop(LDispatch(bid), c)))));
      }
    }

    method EmitBlock(b: Stmts, sc: Scope) returns (c: Code)
      modifies this
      ensures (c, Counters()) == Control.EmitBlock(b, old(Around(sc)), old(closeCount), old(Counters()))
      ensures closeCount == old(closeCount) && breaks == old(breaks)
      decreases b, 2
    {
      var base := closeCount;
      c := EmitStmts(b, sc);
      c := App(c, CloseIf(closeCount > base, base, WNil));
      closeCount := base;
    }
  }

  lemma {:induction false} AppNil(a: Code)
    ensures App(a, WNil) == a
    decreases a
  {
    if a.WCons? { AppNil(a.rest); }
  }

  lemma {:induction false} AppAssoc(a: Code, b: Code, c: Code)
    ensures App(App(a, b), c) == App(a, App(b, c))
    decreases a
  {
    if a.WCons? { AppAssoc(a.rest, b, c); }
  }
}
