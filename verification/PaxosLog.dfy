/** Proposal numbers, the durable log of an acceptor, and the text of that log. */
module PaxosLog {
  import opened Basics
  import opened Text

  // --------------------------------------------------------- proposal numbers

  datatype Prop = Prop(n: nat, m: string)

  /** `std::string` order: by the first differing character, a proper prefix first. */
  predicate StringLess(a: string, b: string) {
    if b == "" then false
    else if a == "" then true
    else a[0] < b[0] || (a[0] == b[0] && StringLess(a[1..], b[1..]))
  }

  predicate Gt(a: Prop, b: Prop) {
    a.n > b.n || (a.n == b.n && StringLess(b.m, a.m))
  }

  predicate Ge(a: Prop, b: Prop) {
    a.n > b.n || (a.n == b.n && !StringLess(a.m, b.m))
  }

  lemma {:induction false} StringIrreflexive(a: string)
    ensures !StringLess(a, a)
  {
    if a != "" { StringIrreflexive(a[1..]); }
  }

  lemma {:induction false} StringTotal(a: string, b: string)
    ensures StringLess(a, b) || StringLess(b, a) || a == b
    ensures StringLess(a, b) ==> !StringLess(b, a)
  {
    if a != "" && b != "" {
      StringTotal(a[1..], b[1..]);
      assert a == [a[0]] + a[1..] && b == [b[0]] + b[1..];
    }
  }

  lemma {:induction false} StringTransitive(a: string, b: string, c: string)
    requires StringLess(a, b) && StringLess(b, c)
    ensures StringLess(a, c)
  {
    if a != "" && a[0] == b[0] == c[0] {
      StringTransitive(a[1..], b[1..], c[1..]);
    }
  }

  /** The proposal numbers are totally ordered by `operator>`, and `operator>=` is its reflexive closure. */
  lemma PropOrder(a: Prop, b: Prop, c: Prop)
    ensures !Gt(a, a)
    ensures Gt(a, b) || Gt(b, a) || a == b
    ensures Ge(a, b) <==> Gt(a, b) || a == b
    ensures Gt(a, b) ==> !Gt(b, a)
    ensures Gt(a, b) && Gt(b, c) ==> Gt(a, c)
  {
    StringIrreflexive(a.m);
    StringTotal(a.m, b.m);
    if StringLess(c.m, b.m) && StringLess(b.m, a.m) {
      StringTransitive(c.m, b.m, a.m);
    }
  }

  // -------------------------------------------------------------- log records

  datatype Record = Done(instance: nat, v: string) | High(n: Prop) | Accepted(n: Prop, v: string)

  /** The text of one record, as loginstance, loghigh and logprop write it, in front of `rest`. */
  function Put(r: Record, rest: string): string {
    match r
    case Done(i, v) => "done" + (" " + (PrintNat(i) + (" " + (v + ("\n" + rest)))))
    case High(n) => "high" + (" " + (PrintNat(n.n) + (" " + (n.m + ("\n" + rest)))))
    case Accepted(n, v) => "prop" + (" " + (PrintNat(n.n) + (" " + (n.m + (" " + (v + ("\n" + rest)))))))
  }

  function LogText(log: seq<Record>): string {
    if log == [] then "" else Put(log[0], LogText(log[1..]))
  }

  lemma Assoc(a: string, b: string, c: string)
    ensures (a + b) + c == a + (b + c)
  {}

  lemma PutAppend(r: Record, s: string, t: string)
    ensures Put(r, s + t) == Put(r, s) + t
  {
    match r
    case Done(i, v) =>
      var i := PrintNat(i);
      Assoc("\n", s, t);
      Assoc(v, "\n" + s, t);
      Assoc(" ", v + ("\n" + s), t);
      Assoc(i, " " + (v + ("\n" + s)), t);
      Assoc(" ", i + (" " + (v + ("\n" + s))), t);
      Assoc("done", " " + (i + (" " + (v + ("\n" + s)))), t);
    case High(n) =>
      var i := PrintNat(n.n);
      Assoc("\n", s, t);
      Assoc(n.m, "\n" + s, t);
      Assoc(" ", n.m + ("\n" + s), t);
      Assoc(i, " " + (n.m + ("\n" + s)), t);
      Assoc(" ", i + (" " + (n.m + ("\n" + s))), t);
      Assoc("high", " " + (i + (" " + (n.m + ("\n" + s)))), t);
    case Accepted(n, v) =>
      var i := PrintNat(n.n);
      var u := v + ("\n" + s);
      Assoc("\n", s, t);
      Assoc(v, "\n" + s, t);
      Assoc(" ", u, t);
      Assoc(n.m, " " + u, t);
      Assoc(" ", n.m + (" " + u), t);
      Assoc(i, " " + (n.m + (" " + u)), t);
      Assoc(" ", i + (" " + (n.m + (" " + u))), t);
      Assoc("prop", " " + (i + (" " + (n.m + (" " + u)))), t);
  }

  /** Appending a record to the file appends it to the log. */
  lemma {:induction false} LogTextSnoc(log: seq<Record>, r: Record)
    ensures LogText(log + [r]) == LogText(log) + Put(r, "")
  {
    if log == [] {
      assert LogText([]) == "" && [r][1..] == [];
      assert log + [r] == [r];
    } else {
      assert (log + [r])[1..] == log[1..] + [r];
      LogTextSnoc(log[1..], r);
      PutAppend(log[0], LogText(log[1..]), Put(r, ""));
    }
  }

  /** A record whose fields fit the file format and the unsigned fields of the program. */
  predicate Printable(r: Record) {
    match r
    case Done(i, v) => i < UINT32_LIMIT && '\n' !in v
    case High(n) => n.n < UINT32_LIMIT && IsWord(n.m)
    case Accepted(n, v) => n.n < UINT32_LIMIT && IsWord(n.m) && '\n' !in v
  }

  // ------------------------------------------------------------------ parsing

  /** One record from the front of the text; nothing where the code aborts or its stream fails. */
  function ParseRecord(s: string): (r: Option<(Record, string)>)
    ensures r.Some? ==> |r.value.1| < |s|
  {
    match ReadWord(s)
    case None => None
    case Some((kind, s1)) =>
      match ReadNat(s1, UINT32_LIMIT)
      case None => None
      case Some((n, s2)) =>
        if kind == "done" then
          var line := ReadLine(DropOne(s2));
          Some((Done(n, line.0), line.1))
        else if kind == "high" || kind == "prop" then
          match ReadWord(s2)
          case None => None
          case Some((m, s3)) =>
            if kind == "high" then Some((High(Prop(n, m)), s3))
            else
              var line := ReadLine(DropOne(s3));
              Some((Accepted(Prop(n, m), line.0), line.1))
        else None
  }

  /** The whole log, or nothing if some record cannot be read. */
  function ParseLog(s: string): Option<seq<Record>>
    decreases |s|
  {
    if SkipSpace(s) == "" then Some([])
    else
      match ParseRecord(s)
      case None => None
      case Some((r, rest)) =>
        var more := ParseLog(rest);
        if more.None? then None else Some([r] + more.value)
  }

  lemma ParseDone(i: nat, v: string, rest: string)
    requires Printable(Done(i, v))
    ensures ParseRecord(Put(Done(i, v), rest)) == Some((Done(i, v), rest))
  {
    var s2 := " " + (v + ("\n" + rest));
    ReadWordBack("done", " " + (PrintNat(i) + s2));
    ReadNatAfter(' ', i, s2, UINT32_LIMIT);
    assert DropOne(s2) == v + ("\n" + rest);
    ReadLineBack(v, rest);
  }

  lemma ParseHigh(n: Prop, rest: string)
    requires Printable(High(n))
    ensures ParseRecord(Put(High(n), rest)) == Some((High(n), "\n" + rest))
  {
    var s2 := " " + (n.m + ("\n" + rest));
    ReadWordBack("high", " " + (PrintNat(n.n) + s2));
    ReadNatAfter(' ', n.n, s2, UINT32_LIMIT);
    ReadWordAfter(' ', n.m, "\n" + rest);
  }

  lemma ParseAccepted(n: Prop, v: string, rest: string)
    requires Printable(Accepted(n, v))
    ensures ParseRecord(Put(Accepted(n, v), rest)) == Some((Accepted(n, v), rest))
  {
    var s3 := " " + (v + ("\n" + rest));
    var s2 := " " + (n.m + s3);
    ReadWordBack("prop", " " + (PrintNat(n.n) + s2));
    ReadNatAfter(' ', n.n, s2, UINT32_LIMIT);
    ReadWordAfter(' ', n.m, s3);
    assert DropOne(s3) == v + ("\n" + rest);
    ReadLineBack(v, rest);
  }

  lemma PutNotBlank(r: Record, rest: string)
    ensures SkipSpace(Put(r, rest)) != ""
  {
    var c := Put(r, rest)[0];
    assert c == 'd' || c == 'h' || c == 'p';
  }

  lemma LeadingNewline(s: string)
    ensures ReadWord("\n" + s) == ReadWord(s)
    ensures SkipSpace("\n" + s) == SkipSpace(s)
  {
    assert ("\n" + s)[1..] == s;
  }

  lemma ParseLogNewline(s: string)
    ensures ParseLog("\n" + s) == ParseLog(s)
  {
    LeadingNewline(s);
  }

  lemma ParsePut(r: Record, rest: string)
    requires Printable(r)
    ensures ParseRecord(Put(r, rest)).Some?
    ensures ParseRecord(Put(r, rest)).value.0 == r
    ensures ParseLog(ParseRecord(Put(r, rest)).value.1) == ParseLog(rest)
  {
    match r
    case Done(i, v) => ParseDone(i, v, rest);
    case High(n) =>
      ParseHigh(n, rest);
      ParseLogNewline(rest);
    case Accepted(n, v) => ParseAccepted(n, v, rest);
  }

  lemma ParseLogPut(r: Record, rest: string, log: seq<Record>)
    requires Printable(r) && ParseLog(rest) == Some(log)
    ensures ParseLog(Put(r, rest)) == Some([r] + log)
  {
    ParsePut(r, rest);
    PutNotBlank(r, rest);
  }

  /** Every log of printable records is read back exactly. */
  lemma {:induction false} LogRoundTrip(log: seq<Record>)
    requires forall r | r in log :: Printable(r)
    ensures ParseLog(LogText(log)) == Some(log)
  {
    if log != [] {
      assert log == [log[0]] + log[1..];
      LogRoundTrip(log[1..]);
      ParseLogPut(log[0], LogText(log[1..]), log[1..]);
    }
  }

  // ----------------------------------------------------------- dump and restore

  /** The lines of a file joined again, each ended by a newline: what dump returns. */
  function Relined(s: string): string
    decreases |s|
  {
    if s == "" then ""
    else
      var n := LineLength(s);
      if n < |s| then s[..n] + "\n" + Relined(s[n + 1..]) else s + "\n"
  }

  /** The log file. */
  class Log {
    var file: string

    constructor ()
      ensures file == ""
    {
      file := "";
    }

    method LogInstance(instance: nat, v: string)
      modifies this
      ensures file == old(file) + Put(Done(instance, v), "")
    {
      file := file + "done" + " " + PrintNat(instance) + " " + v + "\n";
    }

    method LogHigh(n: Prop)
      modifies this
      ensures file == old(file) + Put(High(n), "")
    {
      file := file + "high" + " " + PrintNat(n.n) + " " + n.m + "\n";
    }

    method LogProp(n: Prop, v: string)
      modifies this
      ensures file == old(file) + Put(Accepted(n, v), "")
    {
      file := file + "prop" + " " + PrintNat(n.n) + " " + n.m + " " + v + "\n";
    }

    method Dump() returns (res: string)
      ensures res == Relined(file)
    {
      res := "";
      var from := file;
      while from != ""
        invariant res + Relined(from) == Relined(file)
        decreases |from|
      {
        var line := ReadLine(from);
        ghost var left := Relined(line.1);
        assert Relined(from) == line.0 + "\n" + left;
        assert res + (line.0 + "\n" + left) == (res + line.0 + "\n") + left;
        res := res + line.0 + "\n";
        from := line.1;
      }
    }

    method Restore(s: string)
      modifies this
      ensures file == s
    {
      file := s;
    }
  }

  lemma {:induction false} RelinedLine(s: string)
    requires s != "" ==> s[|s| - 1] == '\n'
    ensures Relined(s) == s
    decreases |s|
  {
    if s != "" {
      var n := LineLength(s);
      assert n < |s| by {
        assert s[|s| - 1] in s;
        assert s[..|s|] == s;
      }
      var t := s[n + 1..];
      assert s == s[..n] + "\n" + t;
      assert t != "" ==> t[|t| - 1] == s[|s| - 1];
      RelinedLine(t);
    }
  }

  ghost predicate EndsLine(s: string) {
    s != "" ==> s[|s| - 1] == '\n'
  }

  lemma PutEnds(r: Record, rest: string)
    requires EndsLine(rest)
    ensures EndsLine(Put(r, rest))
  {
    var line := Put(r, "");
    assert |line| > 0 && line[|line| - 1] == '\n';
    assert "" + rest == rest;
    PutAppend(r, "", rest);
  }

  lemma {:induction false} LogTextEnds(log: seq<Record>)
    ensures EndsLine(LogText(log))
  {
    if log != [] {
      LogTextEnds(log[1..]);
      PutEnds(log[0], LogText(log[1..]));
    }
  }

  /** Restoring what dump returned leaves a log file unchanged, and its records readable. */
  lemma DumpRestore(log: seq<Record>)
    ensures Relined(LogText(log)) == LogText(log)
    ensures (forall r | r in log :: Printable(r)) ==> ParseLog(Relined(LogText(log))) == Some(log)
  {
    LogTextEnds(log);
    RelinedLine(LogText(log));
    if forall r | r in log :: Printable(r) {
      LogRoundTrip(log);
    }
  }
}
