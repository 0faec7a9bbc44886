/** Directories: a directory is one extent, a line of text with an inode number and a name for every entry. */
module Directory {
  import opened Basics
  import opened Text

  type Inum = n: nat | n < UINT64_LIMIT

  datatype Dirent = Dirent(inum: Inum, name: string)

  // ------------------------------------------------------------------ reading the text

  /** Two words, as the stream gives them. */
  function ReadPair(s: string): (r: Option<(string, string, string)>)
    ensures r.Some? ==> |r.value.2| < |s| && IsWord(r.value.0) && IsWord(r.value.1)
  {
    match ReadWord(s)
    case None => None
    case Some((w, rest)) =>
      match ReadWord(rest)
      case None => None
      case Some((name, rest')) => Some((w, name, rest'))
  }

  /** A number and a word. */
  function ReadEntry(s: string): (r: Option<(Inum, string, string)>)
    ensures r.Some? ==> |r.value.2| < |s| && IsWord(r.value.1)
  {
    match ReadNat(s, UINT64_LIMIT)
    case None => None
    case Some((n, rest)) =>
      match ReadWord(rest)
      case None => None
      case Some((name, rest')) => Some((n, name, rest'))
  }

  /** What extraction stores from a text: the number at its beginning, 0 if it does not begin with one, the greatest
      number if that is too big. From an empty text nothing is extracted and the variable keeps what it had. */
  function N2I(w: string): (r: Option<Inum>)
    ensures IsWord(w) ==> r.Some?
  {
    var t := SkipSpace(w);
    var k := DigitsLength(t);
    if t == "" then None
    else if k == 0 then Some(0)
    else if DigitsValue(t[..k]) < UINT64_LIMIT then Some(DigitsValue(t[..k]))
    else Some(UINT64_LIMIT - 1)
  }

  /** What readdir reports. */
  function Listing(s: string): (r: seq<Dirent>)
    ensures forall e | e in r :: IsWord(e.name)
    decreases |s|
  {
    match ReadPair(s)
    case None => []
    case Some((w, name, rest)) => [Dirent(N2I(w).value, name)] + Listing(rest)
  }

  lemma ListingStep(es: seq<Dirent>, e: Dirent, ist: string)
    requires ReadPair(ist).Some? && e == Dirent(N2I(ReadPair(ist).value.0).value, ReadPair(ist).value.1)
    ensures es + Listing(ist) == es + [e] + Listing(ReadPair(ist).value.2)
  {
    var rest := Listing(ReadPair(ist).value.2);
    assert Listing(ist) == [e] + rest;
    assert es + ([e] + rest) == es + [e] + rest;
  }

  /** What lookup finds: the first entry with the name, or 0. */
  function Lookup(s: string, name: string): Inum
    decreases |s|
  {
    match ReadEntry(s)
    case None => 0
    case Some((n, m, rest)) => if m == name then n else Lookup(rest, name)
  }

  /** What unlink writes back. */
  function Unlinked(s: string, name: string): string
    decreases |s|
  {
    match ReadPair(s)
    case None => ""
    case Some((w, m, rest)) =>
      if m == name then Unlinked(rest, name) else w + " " + m + "\n" + Unlinked(rest, name)
  }

  /** The number of the last entry with the name, as text; empty if there is none. */
  function Victim(s: string, name: string): string
    decreases |s|
  {
    match ReadPair(s)
    case None => ""
    case Some((w, m, rest)) =>
      var v := Victim(rest, name);
      if m == name && v == "" then w else v
  }

  // ----------------------------------------------------------------------- operations

  /** The line that creating a file or a directory appends. */
  function Line(e: Dirent): string {
    PrintNat(e.inum) + " " + e.name + "\n"
  }

  method ILookup(buf: string, name: string) returns (inum: Inum)
    ensures inum == Lookup(buf, name)
  {
    var ist := buf;
    inum := 0;
    var e := ReadEntry(ist);
    while e.Some?
      invariant e == ReadEntry(ist) && inum == 0 && Lookup(buf, name) == Lookup(ist, name)
      decreases |ist|
    {
      if e.value.1 == name { return e.value.0; }
      ist := e.value.2;
      e := ReadEntry(ist);
    }
  }

  method Readdir(buf: string) returns (es: seq<Dirent>)
    ensures es == Listing(buf)
  {
    var ist := buf;
    es := [];
    var p := ReadPair(ist);
    while p.Some?
      invariant p == ReadPair(ist) && Listing(buf) == es + Listing(ist)
      decreases |ist|
    {
      var e := Dirent(N2I(p.value.0).value, p.value.1);
      ListingStep(es, e, ist);
      es := es + [e];
      ist := p.value.2;
      p := ReadPair(ist);
    }
  }

  datatype Status = OK | RPCERR | NOENT | IOERR | FBIG

  /** The status of an unlink, the text it put back, the inode it removed, and the one it unlocked. */
  datatype Outcome = Outcome(ret: Status, written: Option<string>, removed: Option<Inum>, unlocked: Inum)

  /** What unlink does, given the answers of the extent client and what its unset variables happen to hold. */
  function Unlinking(got: Status, buf: string, name: string, put: Status, remove: Inum -> Status,
      unset: Inum): Outcome {
    if got != OK then Outcome(got, None, None, unset)
    else
      var n := N2I(Victim(buf, name)).UnwrapOr(unset);
      if put != OK then Outcome(put, Some(Unlinked(buf, name)), None, n)
      else Outcome(remove(n), Some(Unlinked(buf, name)), Some(n), n)
  }

  /** The loop of unlink. */
  method Scan(buf: string, name: string) returns (out: string, found: bool, victim: string)
    ensures out == Unlinked(buf, name) && victim == Victim(buf, name) && found == (victim != "")
  {
    var ist := buf;
    out, found, victim := "", false, "";
    var p := ReadPair(ist);
    while p.Some?
      invariant p == ReadPair(ist) && Unlinked(buf, name) == out + Unlinked(ist, name)
      invariant Victim(buf, name) == if Victim(ist, name) != "" then Victim(ist, name) else victim
      invariant found == (victim != "")
      decreases |ist|
    {
      if p.value.1 == name {
        found, victim := true, p.value.0;
      } else {
        out := out + (p.value.0 + " " + p.value.1 + "\n");
      }
      ist := p.value.2;
      p := ReadPair(ist);
    }
  }

  /** unlink; the name need not be there. */
  method Unlink(got: Status, buf: string, name: string, put: Status, remove: Inum -> Status, unset: Inum)
    returns (o: Outcome)
    ensures o == Unlinking(got, buf, name, put, remove, unset)
  {
    var ret := got;
    if ret != OK { return Outcome(ret, None, None, unset); }
    var out, found, victim := Scan(buf, name);
    var inum := N2I(victim).UnwrapOr(unset);
    if !found { ret := NOENT; }
    ret := put;
    if ret != OK { return Outcome(ret, Some(out), None, inum); }
    ret := remove(inum);
    return Outcome(ret, Some(out), Some(inum), inum);
  }

  // --------------------------------------------------------- directories as entry lists

  function DirText(es: seq<Dirent>): string {
    if es == [] then "" else Line(es[0]) + DirText(es[1..])
  }

  ghost predicate Named(es: seq<Dirent>) {
    forall i | 0 <= i < |es| :: IsWord(es[i].name)
  }

  function FirstMatch(es: seq<Dirent>, name: string): Inum {
    if es == [] then 0 else if es[0].name == name then es[0].inum else FirstMatch(es[1..], name)
  }

  function LastMatch(es: seq<Dirent>, name: string): Option<Inum> {
    if es == [] then None
    else if es[|es| - 1].name == name then Some(es[|es| - 1].inum)
    else LastMatch(es[..|es| - 1], name)
  }

  function WithoutName(es: seq<Dirent>, name: string): (r: seq<Dirent>)
    ensures forall e :: e in r <==> e in es && e.name != name
  {
    if es == [] then []
    else
      assert es == [es[0]] + es[1..];
      if es[0].name == name then WithoutName(es[1..], name) else [es[0]] + WithoutName(es[1..], name)
  }

  lemma N2IBack(n: Inum)
    ensures N2I(PrintNat(n)) == Some(n)
  {
    PrintIsWord(n);
    ReadNatBack(n, "", UINT64_LIMIT);
    PrintedValue(n);
    DigitsLengthOf(PrintNat(n), "");
    assert PrintNat(n) + "" == PrintNat(n);
    assert SkipSpace(PrintNat(n)) == PrintNat(n);
  }

  /** What a reader still has before it: the entries `es`, perhaps behind the end of a line. */
  function Left(es: seq<Dirent>, newline: bool): string {
    if newline then ['\n'] + DirText(es) else DirText(es)
  }

  lemma LeftSplit(es: seq<Dirent>, newline: bool)
    requires es != []
    ensures var n, name, rest := PrintNat(es[0].inum), es[0].name, Left(es[1..], true);
            Left(es, newline) == if newline then ['\n'] + (n + ([' '] + (name + rest))) else n + ([' '] + (name + rest))
  {
    var n, name := PrintNat(es[0].inum), es[0].name;
    assert Line(es[0]) + DirText(es[1..]) == n + ([' '] + (name + (['\n'] + DirText(es[1..]))));
  }

  lemma ReadOne(es: seq<Dirent>, newline: bool)
    requires es != [] && IsWord(es[0].name)
    ensures var rest := Left(es[1..], true);
            && ReadPair(Left(es, newline)) == Some((PrintNat(es[0].inum), es[0].name, rest))
            && ReadEntry(Left(es, newline)) == Some((es[0].inum, es[0].name, rest))
  {
    var inum, name, rest := es[0].inum, es[0].name, Left(es[1..], true);
    var second := [' '] + (name + rest);
    LeftSplit(es, newline);
    PrintIsWord(inum);
    if newline {
      ReadWordAfter('\n', PrintNat(inum), second);
      ReadNatAfter('\n', inum, second, UINT64_LIMIT);
    } else {
      ReadWordBack(PrintNat(inum), second);
      ReadNatBack(inum, second, UINT64_LIMIT);
    }
    ReadWordAfter(' ', name, rest);
  }

  lemma ReadNone(newline: bool)
    ensures ReadPair(Left([], newline)) == None && ReadEntry(Left([], newline)) == None
  {
    assert Left([], true) == "\n";
  }

  lemma {:induction false} ListingLeft(es: seq<Dirent>, newline: bool)
    requires Named(es)
    ensures Listing(Left(es, newline)) == es
    decreases |es|
  {
    if es == [] {
      ReadNone(newline);
    } else {
      ListingLeft(es[1..], true);
      ListingOne(es, newline);
    }
  }

  lemma ListingOne(es: seq<Dirent>, newline: bool)
    requires es != [] && IsWord(es[0].name) && Listing(Left(es[1..], true)) == es[1..]
    ensures Listing(Left(es, newline)) == es
  {
    ReadOne(es, newline);
    N2IBack(es[0].inum);
    ListingStep([], es[0], Left(es, newline));
    assert [] + [es[0]] + es[1..] == es;
    assert [] + Listing(Left(es, newline)) == Listing(Left(es, newline));
  }

  lemma {:induction false} LookupLeft(es: seq<Dirent>, newline: bool, name: string)
    requires Named(es)
    ensures Lookup(Left(es, newline), name) == FirstMatch(es, name)
    decreases |es|
  {
    if es == [] {
      ReadNone(newline);
    } else {
      ReadOne(es, newline);
      LookupLeft(es[1..], true, name);
    }
  }

  lemma {:induction false} UnlinkedLeft(es: seq<Dirent>, newline: bool, name: string)
    requires Named(es)
    ensures Unlinked(Left(es, newline), name) == DirText(WithoutName(es, name))
    decreases |es|
  {
    if es == [] {
      ReadNone(newline);
    } else {
      ReadOne(es, newline);
      UnlinkedLeft(es[1..], true, name);
    }
  }

  lemma {:induction false} LastMatchFirst(es: seq<Dirent>, name: string)
    requires es != []
    ensures LastMatch(es, name) == if LastMatch(es[1..], name).Some? then LastMatch(es[1..], name)
                                   else if es[0].name == name then Some(es[0].inum) else None
    decreases |es|
  {
    var k := |es| - 1;
    if k > 0 && es[k].name != name {
      LastMatchFirst(es[..k], name);
      assert es[..k][1..] == es[1..][..k - 1];
    }
  }

  lemma {:induction false} VictimLeft(es: seq<Dirent>, newline: bool, name: string)
    requires Named(es)
    ensures var v := LastMatch(es, name); Victim(Left(es, newline), name) == if v.Some? then PrintNat(v.value) else ""
    decreases |es|
  {
    if es == [] {
      ReadNone(newline);
    } else {
      ReadOne(es, newline);
      VictimLeft(es[1..], true, name);
      LastMatchFirst(es, name);
    }
  }

  // ---------------------------------------------------------------------- main results

  /** The text of a directory means its list of entries, for each operation that reads it. */
  lemma TextMeansEntries(es: seq<Dirent>, name: string)
    requires Named(es)
    ensures Listing(DirText(es)) == es
    ensures Lookup(DirText(es), name) == FirstMatch(es, name)
    ensures Unlinked(DirText(es), name) == DirText(WithoutName(es, name))
    ensures N2I(Victim(DirText(es), name)) == LastMatch(es, name)
  {
    ListingLeft(es, false);
    LookupLeft(es, false, name);
    UnlinkedLeft(es, false, name);
    VictimLeft(es, false, name);
    var v := LastMatch(es, name);
    if v.Some? { N2IBack(v.value); }
  }

  ghost predicate Listed(es: seq<Dirent>, name: string) {
    exists e :: e in es && e.name == name
  }

  lemma {:induction false} LastMatchListed(es: seq<Dirent>, name: string)
    ensures LastMatch(es, name).Some? <==> Listed(es, name)
    ensures !Listed(es, name) ==> WithoutName(es, name) == es
    decreases |es|
  {
    if es != [] {
      LastMatchFirst(es, name);
      LastMatchListed(es[1..], name);
      assert es == [es[0]] + es[1..];
      assert Listed(es, name) <==> es[0].name == name || Listed(es[1..], name) by {
        if Listed(es[1..], name) {
          var e :| e in es[1..] && e.name == name;
          assert e in es;
        }
        assert es[0] in es;
      }
    }
  }

  /** unlink of a listed name removes the inode of its last entry, and all its entries from the text. For a name that is
      not listed it puts the text back as it was and goes on to remove whatever inode its unset variable names; it
      answers with the status of that removal, or of the put if that fails, in either case. */
  lemma UnlinkMeans(es: seq<Dirent>, name: string, put: Status, remove: Inum -> Status, unset: Inum)
    requires Named(es)
    ensures var o := Unlinking(OK, DirText(es), name, put, remove, unset);
            var n := if Listed(es, name) then LastMatch(es, name).UnwrapOr(0) else unset;
            && (Listed(es, name) ==> LastMatch(es, name).Some?)
            && o.written == Some(DirText(if Listed(es, name) then WithoutName(es, name) else es))
            && o.removed == (if put == OK then Some(n) else None)
            && o.ret == if put == OK then remove(n) else put
  {
    TextMeansEntries(es, name);
    LastMatchListed(es, name);
  }

  ghost predicate Determinate(s: string, name: string, remove: Inum -> Status) {
    forall j: Inum, k: Inum ::
      Unlinking(OK, s, name, OK, remove, j).removed == Unlinking(OK, s, name, OK, remove, k).removed
  }

  /** What unlink removes is determined by its inputs exactly when the name is listed. */
  lemma RemovalDeterminate(es: seq<Dirent>, name: string, remove: Inum -> Status)
    requires Named(es)
    ensures Determinate(DirText(es), name, remove) <==> Listed(es, name)
  {
    forall k: Inum ensures Unlinking(OK, DirText(es), name, OK, remove, k).removed
                           == Some(if Listed(es, name) then LastMatch(es, name).UnwrapOr(0) else k) {
      UnlinkMeans(es, name, OK, remove, k);
    }
    if Determinate(DirText(es), name, remove) {
      assert Unlinking(OK, DirText(es), name, OK, remove, 0).removed
          == Unlinking(OK, DirText(es), name, OK, remove, 1).removed;
    }
  }

  /** Every entry with the name has the inode. */
  ghost predicate AllHave(es: seq<Dirent>, name: string, n: Option<Inum>) {
    forall e | e in es && e.name == name :: n == Some(e.inum)
  }

  ghost predicate OneInode(es: seq<Dirent>, name: string) {
    forall e, f | e in es && f in es && e.name == f.name == name :: e.inum == f.inum
  }

  lemma {:induction false} LastMatchIsEntry(es: seq<Dirent>, name: string)
    ensures LastMatch(es, name).Some? ==> Dirent(LastMatch(es, name).value, name) in es
    decreases |es|
  {
    if es != [] && es[|es| - 1].name != name { LastMatchIsEntry(es[..|es| - 1], name); }
  }

  /** A name may be listed more than once. unlink, which drops all its entries, removes the inodes of all of them
      exactly if they are one. */
  lemma UnlinkRemovesExactly(es: seq<Dirent>, name: string, remove: Inum -> Status, unset: Inum)
    requires Named(es)
    ensures AllHave(es, name, Unlinking(OK, DirText(es), name, OK, remove, unset).removed) <==> OneInode(es, name)
  {
    UnlinkMeans(es, name, OK, remove, unset);
    LastMatchIsEntry(es, name);
    if Listed(es, name) {
      assert Dirent(LastMatch(es, name).value, name) in es;
    }
  }

  lemma {:induction false} DirTextSnoc(es: seq<Dirent>, e: Dirent)
    ensures DirText(es + [e]) == DirText(es) + Line(e)
  {
    if es == [] {
      assert es + [e] == [e] && [e][1..] == [];
    } else {
      DirTextSnoc(es[1..], e);
      assert (es + [e])[0] == es[0] && (es + [e])[1..] == es[1..] + [e];
    }
  }

  /** Adding an entry is read back as that entry exactly when its name is a word: not empty and without white space. */
  lemma AddedIsListed(es: seq<Dirent>, e: Dirent)
    requires Named(es)
    ensures Listing(DirText(es) + Line(e)) == es + [e] <==> IsWord(e.name)
  {
    DirTextSnoc(es, e);
    if IsWord(e.name) {
      ListingLeft(es + [e], false);
    } else {
      var r := Listing(DirText(es) + Line(e));
      assert forall x | x in r :: IsWord(x.name);
      assert e in es + [e];
    }
  }

  /** Removed names are gone, others are found as before. */
  lemma {:induction false} WithoutMatch(es: seq<Dirent>, name: string, other: string)
    ensures FirstMatch(WithoutName(es, name), other) == if other == name then 0 else FirstMatch(es, other)
  {
    if es != [] { WithoutMatch(es[1..], name, other); }
  }

  datatype Op = Add(e: Dirent) | Remove(name: string)

  function TextAfter(s: string, ops: seq<Op>): string
    decreases |ops|
  {
    if ops == [] then s
    else TextAfter(match ops[0] case Add(e) => s + Line(e) case Remove(name) => Unlinked(s, name), ops[1..])
  }

  function EntriesAfter(es: seq<Dirent>, ops: seq<Op>): seq<Dirent>
    decreases |ops|
  {
    if ops == [] then es
    else EntriesAfter(match ops[0] case Add(e) => es + [e] case Remove(name) => WithoutName(es, name), ops[1..])
  }

  /** After any creations of well-named entries and removals of any names, the text is that of the entry list. */
  lemma {:induction false} TextFollowsEntries(es: seq<Dirent>, ops: seq<Op>)
    requires Named(es) && forall i | 0 <= i < |ops| && ops[i].Add? :: IsWord(ops[i].e.name)
    ensures TextAfter(DirText(es), ops) == DirText(EntriesAfter(es, ops)) && Named(EntriesAfter(es, ops))
    decreases |ops|
  {
    if ops != [] {
      assert forall i | 0 <= i < |ops[1..]| :: ops[1..][i] == ops[i + 1];
      match ops[0]
      case Add(e) =>
        DirTextSnoc(es, e);
        TextFollowsEntries(es + [e], ops[1..]);
      case Remove(name) =>
        UnlinkedLeft(es, false, name);
        var r := WithoutName(es, name);
        forall i | 0 <= i < |r| ensures IsWord(r[i].name) { assert r[i] in r; }
        TextFollowsEntries(r, ops[1..]);
    }
  }

  lemma {:induction false} FirstMatchSnoc(es: seq<Dirent>, e: Dirent, name: string)
    ensures FirstMatch(es + [e], name)
            == if Listed(es, name) then FirstMatch(es, name) else if e.name == name then e.inum else 0
  {
    if es == [] {
      assert es + [e] == [e] && [e][1..] == [];
    } else {
      FirstMatchSnoc(es[1..], e, name);
      assert (es + [e])[0] == es[0] && (es + [e])[1..] == es[1..] + [e];
      assert es == [es[0]] + es[1..];
      assert es[0] in es;
    }
  }

  lemma {:induction false} WithoutSnoc(es: seq<Dirent>, e: Dirent)
    ensures WithoutName(es + [e], e.name) == WithoutName(es, e.name)
  {
    if es == [] {
      assert es + [e] == [e] && [e][1..] == [];
    } else {
      WithoutSnoc(es[1..], e);
      assert (es + [e])[0] == es[0] && (es + [e])[1..] == es[1..] + [e];
    }
  }

  /** Two creations of one name, as the test for an existing entry is commented out: lookup finds the first inode, and
      then unlink removes the second, drops both entries and leaves the first inode behind. */
  lemma CreatedTwice(es: seq<Dirent>, name: string, i: Inum, j: Inum, remove: Inum -> Status, unset: Inum)
    requires Named(es) && IsWord(name) && !Listed(es, name)
    ensures var text := TextAfter(DirText(es), [Add(Dirent(i, name)), Add(Dirent(j, name))]);
            var o := Unlinking(OK, text, name, OK, remove, unset);
            Lookup(text, name) == i && o.removed == Some(j) && o.written == Some(DirText(es))
  {
    var e, f := Dirent(i, name), Dirent(j, name);
    var one, two := es + [e], es + [e] + [f];
    DirTextSnoc(es, e);
    DirTextSnoc(one, f);
    assert [Add(e), Add(f)][1..] == [Add(f)] && [Add(f)][1..] == [];
    assert TextAfter(DirText(es), [Add(e), Add(f)]) == TextAfter(DirText(one), [Add(f)]) == DirText(two);
    assert two[|two| - 1] == f && f in two && e in one;
    FirstMatchSnoc(es, e, name);
    FirstMatchSnoc(one, f, name);
    WithoutSnoc(es, e);
    WithoutSnoc(one, f);
    LastMatchListed(es, name);
    TextMeansEntries(two, name);
    UnlinkMeans(two, name, OK, remove, unset);
  }
}
