/** The choice of the primary of the replicated state machine when the view changes. */
module Primary {
  import opened Basics
  import opened Text
  import opened Views

  /** `ist >> mem` into an unsigned 64-bit number: 0 when there is no number, the maximum when it is too large. */
  function NameNumber(name: string): nat {
    var t := SkipSpace(name);
    var digits := t[..DigitsLength(t)];
    if digits == "" then 0
    else if DigitsValue(digits) >= UINT64_LIMIT then UINT64_LIMIT - 1
    else DigitsValue(digits)
  }

  /** A node name as the port numbers used by the system print. */
  ghost predicate Canonical(name: string) {
    exists k: nat :: k < UINT64_LIMIT && name == PrintNat(k)
  }

  lemma CanonicalNumber(name: string)
    requires Canonical(name)
    ensures PrintNat(NameNumber(name)) == name
  {
    var k: nat :| k < UINT64_LIMIT && name == PrintNat(k);
    PrintedValue(k);
    PrintIsWord(k);
    DigitsLengthOf(name, "");
    assert name + "" == name;
    assert name[..|name|] == name;
  }

  // ------------------------------------------------------------------ sorting

  function Insert(x: nat, s: seq<nat>): (r: seq<nat>)
    ensures forall y :: y in r <==> y == x || y in s
  {
    if s == [] || x <= s[0] then [x] + s
    else
      assert s == [s[0]] + s[1..];
      [s[0]] + Insert(x, s[1..])
  }

  /** What `std::sort` computes: the same numbers in ascending order. */
  function Sort(s: seq<nat>): (r: seq<nat>)
    ensures forall y :: y in r <==> y in s
  {
    if s == [] then []
    else
      assert s == [s[0]] + s[1..];
      Insert(s[0], Sort(s[1..]))
  }

  lemma {:induction false} InsertSorts(x: nat, s: seq<nat>)
    requires Sorted(s)
    ensures Sorted(Insert(x, s))
  {
    if s != [] && x > s[0] {
      var t := Insert(x, s[1..]);
      InsertSorts(x, s[1..]);
      forall i | 0 <= i < |t| ensures s[0] <= t[i] {
        assert t[i] in t;
      }
      SortedCons(s[0], t);
    } else {
      SortedCons(x, s);
    }
  }

  lemma SortedCons(x: nat, t: seq<nat>)
    requires Sorted(t) && forall i | 0 <= i < |t| :: x <= t[i]
    ensures Sorted([x] + t)
  {}

  lemma {:induction false} InsertCounts(x: nat, s: seq<nat>)
    ensures multiset(Insert(x, s)) == multiset(s) + multiset{x}
  {
    if s != [] && x > s[0] {
      InsertCounts(x, s[1..]);
      assert s == [s[0]] + s[1..];
    }
  }

  lemma {:induction false} SortSorts(s: seq<nat>)
    ensures Sorted(Sort(s))
    ensures multiset(Sort(s)) == multiset(s)
  {
    if s != [] {
      SortSorts(s[1..]);
      InsertSorts(s[0], Sort(s[1..]));
      InsertCounts(s[0], Sort(s[1..]));
      assert s == [s[0]] + s[1..];
    }
  }

  // ------------------------------------------------------------- set_primary

  function Numbers(p: View): (r: seq<nat>)
    ensures |r| == |p|
    ensures forall i | 0 <= i < |p| :: r[i] == NameNumber(p[i])
  {
    seq(|p|, i requires 0 <= i < |p| => NameNumber(p[i]))
  }

  /** The first number, in the order given, that names a node of `c`. */
  function FirstIn(nums: seq<nat>, c: View): Option<string> {
    if nums == [] then None
    else if PrintNat(nums[0]) in c then Some(PrintNat(nums[0]))
    else FirstIn(nums[1..], c)
  }

  /** The new primary, or nothing where the code fails one of its assertions. */
  function NextPrimary(primary: string, c: View, p: View): Option<string> {
    if c == [] then None
    else if primary in c then Some(primary)
    else FirstIn(Sort(Numbers(p)), c)
  }

  class Rsm {
    var primary: string

    constructor (first: string)
      ensures primary == first
    {
      primary := first;
    }

    /** `ok` is false where an assertion of the code fails. */
    method SetPrimary(c: View, p: View) returns (ok: bool)
      modifies this
      ensures ok == NextPrimary(old(primary), c, p).Some?
      ensures primary == if ok then NextPrimary(old(primary), c, p).value else old(primary)
    {
      if c == [] { return false; }
      var stays := IsAMember(primary, c);
      if stays { return true; }
      if p == [] { return false; }
      var memsi: seq<nat> := [];
      for i := 0 to |p|
        invariant memsi == Numbers(p[..i])
        invariant unchanged(this)
      {
        assert p[..i + 1][..i] == p[..i];
        memsi := memsi + [NameNumber(p[i])];
      }
      assert p[..|p|] == p;
      memsi := Sort(memsi);
      for i := 0 to |memsi|
        invariant unchanged(this)
        invariant FirstIn(memsi, c) == FirstIn(memsi[i..], c)
      {
        assert memsi[i..][1..] == memsi[i + 1..];
        var member := IsAMember(PrintNat(memsi[i]), c);
        if member {
          primary := PrintNat(memsi[i]);
          return true;
        }
      }
      return false;
    }
  }

  /** `x` is a node of both views and no node of both views has a smaller number. */
  ghost predicate LowestCommon(x: string, c: View, p: View) {
    && x in c && x in p
    && forall y | y in c && y in p :: NameNumber(x) <= NameNumber(y)
  }

  lemma {:induction false} FirstInSorted(nums: seq<nat>, c: View)
    requires Sorted(nums)
    ensures FirstIn(nums, c).None? <==> forall k | k in nums :: PrintNat(k) !in c
    ensures FirstIn(nums, c).Some? ==>
              exists k | k in nums :: FirstIn(nums, c).value == PrintNat(k) && PrintNat(k) in c
                                      && forall j | j in nums && PrintNat(j) in c :: k <= j
  {
    if nums != [] {
      FirstInSorted(nums[1..], c);
      assert nums == [nums[0]] + nums[1..];
      if PrintNat(nums[0]) in c {
        assert nums[0] in nums && FirstIn(nums, c).value == PrintNat(nums[0]);
      }
    }
  }

  ghost predicate CanonicalView(v: View) {
    v != [] && forall x | x in v :: Canonical(x)
  }

  /** When the old primary left, the new one is the lowest numbered node of both views; the code
      reaches its last assertion exactly when the two views share no node. */
  lemma NewPrimary(primary: string, c: View, p: View)
    requires CanonicalView(c) && CanonicalView(p)
    requires primary !in c
    ensures NextPrimary(primary, c, p).None? <==> forall x | x in p :: x !in c
    ensures NextPrimary(primary, c, p).Some? ==> LowestCommon(NextPrimary(primary, c, p).value, c, p)
  {
    var nums := Sort(Numbers(p));
    SortSorts(Numbers(p));
    FirstInSorted(nums, c);
    forall k | k in nums ensures PrintNat(k) in p {
      assert k in Numbers(p);
      var i :| 0 <= i < |p| && Numbers(p)[i] == k;
      assert p[i] in p;
      CanonicalNumber(p[i]);
    }
    forall x | x in p ensures NameNumber(x) in nums && PrintNat(NameNumber(x)) == x {
      var i :| 0 <= i < |p| && p[i] == x;
      assert Numbers(p)[i] in Numbers(p);
      CanonicalNumber(x);
    }
    if FirstIn(nums, c).Some? {
      var k :| k in nums && FirstIn(nums, c).value == PrintNat(k) && PrintNat(k) in c
               && forall j | j in nums && PrintNat(j) in c :: k <= j;
      CanonicalNumber(PrintNat(k));
      PrintInjective(k, NameNumber(PrintNat(k)));
    }
  }

  // ----------------------------------------------------------- chains of views

  ghost predicate Chain(views: seq<View>) {
    && views != []
    && (forall k | 0 <= k < |views| :: CanonicalView(views[k]))
    && forall k | 0 <= k < |views| - 1 :: Successor(views[k], views[k + 1])
  }

  /** The primary after the view changes up to `views[k]`. */
  ghost function PrimaryAt(first: string, views: seq<View>, k: nat): Option<string>
    requires k < |views|
  {
    if k == 0 then Some(first)
    else
      var previous := PrimaryAt(first, views, k - 1);
      if previous.None? then None else NextPrimary(previous.value, views[k], views[k - 1])
  }

  /** Along every chain of views no assertion of set_primary fails, and every primary is a node of
      its own view and of the view before it: the old primary if it is still there, else the lowest. */
  lemma {:induction false} PrimaryAlongChain(first: string, views: seq<View>, k: nat)
    requires Chain(views) && k < |views|
    requires first in views[0]
    ensures PrimaryAt(first, views, k).Some?
    ensures PrimaryAt(first, views, k).value in views[k]
    ensures k > 0 ==>
              var old_ := PrimaryAt(first, views, k - 1);
              var new_ := PrimaryAt(first, views, k);
              && old_.Some? && new_.value in views[k - 1]
              && if old_.value in views[k] then new_ == old_
                 else LowestCommon(new_.value, views[k], views[k - 1])
  {
    if k > 0 {
      PrimaryAlongChain(first, views, k - 1);
      var previous := PrimaryAt(first, views, k - 1).value;
      var c, p := views[k], views[k - 1];
      assert Successor(views[k - 1], views[k - 1 + 1]);
      if previous !in c {
        NewPrimary(previous, c, p);
        assert c[0] in c;
        forall m ensures c != p + [m] {
          assert previous in p + [m];
        }
        var m :| c == Without(p, m);
        assert c[0] in p;
      }
    }
  }
}
