/** Which <close> declarations of a block precede a point in it. */
module ControlMarks {
  import opened Control

  predicate IsSuffix(b: Stmts, ss: Stmts) {
    b == ss || (b.Cons? && IsSuffix(b.tl, ss))
  }

  lemma {:induction false} SuffixTail(b: Stmts, ss: Stmts)
    requires IsSuffix(b, ss) && ss.Cons?
    ensures IsSuffix(b, ss.tl)
    decreases b
  {
    if b != ss { SuffixTail(b.tl, ss); }
  }

  lemma {:induction false} AfterSuffix(b: Stmts, name: string)
    requires name in Labels(b)
    ensures IsSuffix(b, After(b, name)) && Len(After(b, name)) < Len(b)
    decreases b
  {
    if b.hd != Label(name) { AfterSuffix(b.tl, name); }
  }

  lemma {:induction false} SuffixLess(b: Stmts, ss: Stmts)
    requires IsSuffix(b, ss)
    ensures CountClose(ss) <= CountClose(b) && Len(ss) <= Len(b) && CountLabels(ss) <= CountLabels(b)
    decreases b
  {
    if b != ss { SuffixLess(b.tl, ss); }
  }

  /** Two suffixes of a block: the shorter is a suffix of the longer. */
  lemma {:induction false} SuffixOrder(b: Stmts, xs: Stmts, ys: Stmts)
    requires IsSuffix(b, xs) && IsSuffix(b, ys) && Len(xs) >= Len(ys)
    ensures IsSuffix(xs, ys)
    decreases b
  {
    if b != xs {
      SuffixLess(b.tl, xs);
      if b != ys { SuffixOrder(b.tl, xs, ys); }
    }
  }

  lemma {:induction false} OnlyLabelsLen(ss: Stmts)
    requires OnlyLabels(ss)
    ensures Len(ss) == CountLabels(ss) && CountClose(ss) == 0
    decreases ss
  {
    if ss.Cons? { OnlyLabelsLen(ss.tl); }
  }

  /** For each <close> declaration of b before ss, the statements left there. */
  function FullMarks(b: Stmts, ss: Stmts): seq<nat>
    decreases b
  {
    if b == ss || b.Nil? then []
    else (if b.hd.LocalClose? then [Len(b)] else []) + FullMarks(b.tl, ss)
  }

  lemma {:induction false} MarksStep(b: Stmts, ss: Stmts)
    requires IsSuffix(b, ss) && ss.Cons?
    ensures FullMarks(b, ss.tl) == FullMarks(b, ss) + if ss.hd.LocalClose? then [Len(ss)] else []
    decreases b
  {
    if b == ss {
      LenShrinks(ss);
      assert FullMarks(ss.tl, ss.tl) == [];
    } else {
      MarksStep(b.tl, ss);
      SuffixLess(b.tl, ss);
    }
  }

  lemma {:induction false} LenShrinks(ss: Stmts)
    requires ss.Cons?
    ensures ss != ss.tl
  {
    assert Len(ss) == 1 + Len(ss.tl);
  }

  lemma {:induction false} MarksCount(b: Stmts, ss: Stmts)
    requires IsSuffix(b, ss)
    ensures |FullMarks(b, ss)| == CountClose(b) - CountClose(ss)
    ensures forall i | 0 <= i < |FullMarks(b, ss)| :: Len(ss) < FullMarks(b, ss)[i] <= Len(b)
    decreases b
  {
    if b != ss {
      MarksCount(b.tl, ss);
      SuffixLess(b.tl, ss);
    }
  }

  lemma {:induction false} MarksSplit(b: Stmts, xs: Stmts, ys: Stmts)
    requires IsSuffix(b, xs) && IsSuffix(xs, ys)
    ensures FullMarks(b, ys) == FullMarks(b, xs) + FullMarks(xs, ys)
    decreases b
  {
    SuffixLess(b, xs);
    SuffixLess(xs, ys);
    if b != xs {
      MarksSplit(b.tl, xs, ys);
      SuffixLess(b.tl, xs);
    }
  }

  lemma {:induction false} KeptPrefix(a: seq<nat>, c: seq<nat>, rest: nat)
    requires forall i | 0 <= i < |a| :: a[i] > rest
    requires forall i | 0 <= i < |c| :: c[i] <= rest
    ensures Kept(a + c, rest) == |a|
    decreases |c|
  {
    if c == [] {
      assert a + c == a;
    } else {
      assert (a + c)[..|a + c| - 1] == a + c[..|c| - 1];
      KeptPrefix(a, c[..|c| - 1], rest);
    }
  }

  /** A goto back to `to` keeps the variables declared before it. */
  lemma {:induction false} KeptBackward(b: Stmts, ss: Stmts, to: Stmts)
    requires IsSuffix(b, ss) && IsSuffix(b, to) && Len(to) >= Len(ss)
    ensures var marks := FullMarks(b, ss);
            var kept := Kept(marks, Len(to));
            marks[..kept] == FullMarks(b, to) && kept == |FullMarks(b, to)|
  {
    SuffixOrder(b, to, ss);
    MarksSplit(b, to, ss);
    MarksCount(b, to);
    MarksCount(to, ss);
    KeptPrefix(FullMarks(b, to), FullMarks(to, ss), Len(to));
  }

  /** A goto forward keeps all of them. */
  lemma {:induction false} KeptForward(b: Stmts, ss: Stmts, to: Stmts)
    requires IsSuffix(b, ss) && IsSuffix(b, to) && Len(to) < Len(ss)
    ensures Kept(FullMarks(b, ss), Len(to)) == |FullMarks(b, ss)|
    ensures CountClose(to) == CountClose(ss) ==> FullMarks(b, to) == FullMarks(b, ss)
    ensures |FullMarks(b, ss)| <= |FullMarks(b, to)|
  {
    SuffixOrder(b, ss, to);
    MarksSplit(b, ss, to);
    MarksCount(b, ss);
    MarksCount(ss, to);
    MarksCount(b, to);
    KeptPrefix(FullMarks(b, ss), [], Len(to));
    assert FullMarks(b, ss) + [] == FullMarks(b, ss);
  }

  lemma {:induction false} BaseCounts(b: Stmts, name: string, base: nat)
    requires name in Labels(b)
    ensures LabelBase(b, name, base) == base + CountClose(b) - CountClose(After(b, name))
    decreases b
  {
    AfterSuffix(b, name);
    SuffixLess(b, After(b, name));
    if b.hd != Label(name) {
      BaseCounts(b.tl, name, base + if b.hd.LocalClose? then 1 else 0);
    }
  }
}
