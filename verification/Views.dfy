/**
 Views as the config and rsm modules use them: the text of a view, majorities of
 a view, the next view, and the choice of the primary along a chain of views.
 */
module Views {
  import opened Basics
  import opened Text

  type View = seq<string>

  predicate Names(m: View) {
    forall i | 0 <= i < |m| :: IsWord(m[i])
  }

  // ------------------------------------------------------------- view strings

  /** The words of a text, in order: what repeated `ist >> m` yields. */
  function Words(s: string): (ws: View)
    ensures Names(ws)
    decreases |s|
  {
    match ReadWord(s)
    case None => []
    case Some((w, rest)) => [w] + Words(rest)
  }

  /** The text of a view: every name followed by one blank. */
  function ViewText(m: View): string {
    if m == [] then "" else m[0] + (" " + ViewText(m[1..]))
  }

  lemma {:induction false} ViewTextSnoc(m: View, x: string)
    ensures ViewText(m + [x]) == ViewText(m) + (x + " ")
  {
    if m == [] {
      assert [x][1..] == [];
      assert ViewText([]) == "";
      assert m + [x] == [x];
      assert ViewText([x]) == x + (" " + "");
    } else {
      ViewTextSnoc(m[1..], x);
      assert (m + [x])[1..] == m[1..] + [x];
    }
  }

  method Members(value: string) returns (view: View)
    ensures view == Words(value)
  {
    view := [];
    var ist := value;
    var read := ReadWord(ist);
    while read.Some?
      invariant read == ReadWord(ist)
      invariant view + Words(ist) == Words(value)
      decreases |ist|
    {
      view := view + [read.value.0];
      ist := read.value.1;
      read := ReadWord(ist);
    }
  }

  method Value(m: View) returns (s: string)
    ensures s == ViewText(m)
  {
    s := "";
    for i := 0 to |m|
      invariant s == ViewText(m[..i])
    {
      ViewTextSnoc(m[..i], m[i]);
      assert m[..i + 1] == m[..i] + [m[i]];
      s := s + m[i] + " ";
    }
    assert m[..|m|] == m;
  }

  lemma {:induction false} WordsAfterSpace(m: View)
    requires Names(m)
    ensures Words(" " + ViewText(m)) == m
  {
    var s := " " + ViewText(m);
    if m == [] {
      assert s[1..] == "";
      assert SkipSpace(s) == "";
    } else {
      var rest := " " + ViewText(m[1..]);
      ReadWordAfter(' ', m[0], rest);
      assert s == [' '] + (m[0] + rest);
      WordsAfterSpace(m[1..]);
    }
  }

  /** A view survives being written as a Paxos value and read back. */
  lemma MembersOfValue(m: View)
    requires Names(m)
    ensures Words(ViewText(m)) == m
  {
    if m != [] {
      ReadWordBack(m[0], " " + ViewText(m[1..]));
      WordsAfterSpace(m[1..]);
    }
  }

  // --------------------------------------------------------------- majorities

  method IsAMember(m: string, nodes: View) returns (r: bool)
    ensures r <==> m in nodes
  {
    for i := 0 to |nodes|
      invariant m !in nodes[..i]
    {
      if nodes[i] == m { return true; }
    }
    return false;
  }

  /** The positions of `l1` whose node occurs in `l2`. */
  ghost function Hits(l1: View, l2: View): set<nat> {
    set i: nat | i < |l1| && l1[i] in l2
  }

  /** How many positions of `l1` hold a node of `l2`. */
  function HitCount(l1: View, l2: View): nat {
    if l1 == [] then 0
    else HitCount(l1[..|l1| - 1], l2) + if l1[|l1| - 1] in l2 then 1 else 0
  }

  predicate IsMajority(l1: View, l2: View) {
    HitCount(l1, l2) >= |l1| / 2 + 1
  }

  lemma {:induction false} HitCountIsSize(l1: View, l2: View)
    ensures HitCount(l1, l2) == |Hits(l1, l2)|
  {
    if l1 == [] {
      assert Hits(l1, l2) == {};
    } else {
      var k := |l1| - 1;
      HitCountIsSize(l1[..k], l2);
      var h := Hits(l1[..k], l2);
      if l1[k] in l2 {
        assert Hits(l1, l2) == h + {k};
      } else {
        assert Hits(l1, l2) == h;
      }
    }
  }

  method Majority(l1: View, l2: View) returns (r: bool)
    ensures r <==> 2 * |Hits(l1, l2)| > |l1|
    ensures r <==> IsMajority(l1, l2)
  {
    var n := 0;
    for i := 0 to |l1|
      invariant n == HitCount(l1[..i], l2)
    {
      assert l1[..i + 1][..i] == l1[..i];
      var member := IsAMember(l1[i], l2);
      if member { n := n + 1; }
    }
    assert l1[..|l1|] == l1;
    HitCountIsSize(l1, l2);
    r := n >= |l1| / 2 + 1;
  }

  ghost function Below(n: nat): (r: set<nat>)
    ensures |r| == n
    ensures forall i: nat :: i in r <==> i < n
  {
    if n == 0 then {} else Below(n - 1) + {n - 1}
  }

  lemma SubsetSize<T>(a: set<T>, b: set<T>)
    requires a <= b
    ensures |a| <= |b|
  {
    assert b == a + (b - a);
  }

  /** Two subsets that are together larger than the whole have a common element. */
  lemma Pigeonhole<T>(a: set<T>, b: set<T>, all: set<T>) returns (x: T)
    requires a <= all && b <= all && |a| + |b| > |all|
    ensures x in a && x in b
  {
    SubsetSize(a + b, all);
    assert |a + b| == |a| + |b| - |a * b|;
    x :| x in a * b;
  }

  /** Two majorities of one view, duplicates or not, share a node of that view. */
  lemma MajoritiesMeet(view: View, q1: View, q2: View) returns (x: string)
    requires IsMajority(view, q1) && IsMajority(view, q2)
    ensures x in view && x in q1 && x in q2
  {
    HitCountIsSize(view, q1);
    HitCountIsSize(view, q2);
    var i := Pigeonhole(Hits(view, q1), Hits(view, q2), Below(|view|));
    x := view[i];
  }

  // ----------------------------------------------------------- the next view

  /** The view without a node, as remove_wo builds it. */
  function Without(mems: View, m: string): (n: View)
    ensures forall x :: x in n <==> x in mems && x != m
    ensures |n| <= |mems|
  {
    if mems == [] then []
    else
      var front := Without(mems[..|mems| - 1], m);
      if mems[|mems| - 1] == m then front else front + [mems[|mems| - 1]]
  }

  method RemoveMember(mems: View, m: string) returns (n: View)
    ensures n == Without(mems, m)
  {
    n := [];
    for i := 0 to |mems|
      invariant n == Without(mems[..i], m)
    {
      assert mems[..i + 1][..i] == mems[..i];
      if mems[i] != m { n := n + [mems[i]]; }
    }
    assert mems[..|mems|] == mems;
  }

  /** `next` is `mems` with a node added at the end, as add does without looking whether it is there, or without one. */
  ghost predicate Successor(mems: View, next: View) {
    || (exists m :: next == mems + [m])
    || (exists m :: next == Without(mems, m))
  }

  lemma {:induction false} WithoutHits(mems: View, m: string, q: View)
    ensures HitCount(mems, q) - HitCount(Without(mems, m), q) <= |mems| - |Without(mems, m)|
    ensures HitCount(mems, q) >= HitCount(Without(mems, m), q)
  {
    if mems != [] {
      WithoutHits(mems[..|mems| - 1], m, q);
      var front := Without(mems[..|mems| - 1], m);
      assert (front + [mems[|mems| - 1]])[..|front|] == front;
    }
  }

  lemma {:induction false} DistinctWithout(mems: View, m: string)
    requires Distinct(mems)
    ensures |Without(mems, m)| >= |mems| - 1 && (m !in mems ==> Without(mems, m) == mems)
  {
    if mems != [] {
      var k := |mems| - 1;
      assert mems == mems[..k] + [mems[k]];
      assert mems[k] !in mems[..k];
      DistinctWithout(mems[..k], m);
    }
  }

  /** Majorities of consecutive views share a node of both, so no decision is lost by a view change, whenever the change
      takes one position away or adds one. */
  lemma ConsecutiveMajoritiesMeet(view: View, next: View, q1: View, q2: View) returns (x: string)
    requires Successor(view, next) && |next| + 1 >= |view|
    requires IsMajority(view, q1) && IsMajority(next, q2)
    ensures x in view && x in next && x in q1 && x in q2
  {
    var common := view;
    if m :| next == view + [m] {
      assert next[..|view|] == view;
    } else {
      var m :| next == Without(view, m);
      WithoutHits(view, m, q1);
      common := next;
    }
    HitCountIsSize(common, q1);
    HitCountIsSize(common, q2);
    var i := Pigeonhole(Hits(common, q1), Hits(common, q2), Below(|common|));
    x := common[i];
  }

  /** A change of a view without duplicates is always such a change. */
  lemma DistinctChangesByOne(view: View, next: View)
    requires Distinct(view) && Successor(view, next)
    ensures |next| + 1 >= |view|
  {
    if m :| next == Without(view, m) { DistinctWithout(view, m); }
  }

  /** A node added twice and then removed takes two positions away, and the majorities need not meet. */
  lemma DuplicateSplitsMajorities(a: string, b: string)
    requires a != b
    ensures Successor([a, b], [a, b, b]) && Successor([a, b, b], [a])
    ensures IsMajority([a, b, b], [b]) && IsMajority([a], [a]) && forall x :: !(x in [b] && x in [a])
  {
    assert [a, b, b] == [a, b] + [b];
    assert [a, b, b][..2] == [a, b] && [a, b][..1] == [a] && [a][..0] == [];
    assert Without([a], b) == [a] && Without([a, b], b) == [a] && Without([a, b, b], b) == [a];
    assert HitCount([], [b]) == 0 && HitCount([], [a]) == 0;
    assert HitCount([a], [b]) == 0 && HitCount([a], [a]) == 1;
    assert HitCount([a, b], [b]) == 1;
    assert HitCount([a, b, b], [b]) == 2;
  }
}
