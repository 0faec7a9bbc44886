/** One Paxos node: the acceptor with its durable log, and the loops of the proposer. */
module PaxosNode {
  import opened Basics
  import opened Text
  import opened Views
  import opened PaxosLog

  // ------------------------------------------------------ acceptor: state and steps

  datatype Acc = Acc(me: string, instanceH: nat, nH: Prop, nA: Prop, vA: string, values: map<nat, string>)

  datatype PrepRes = PrepRes(oldInstance: bool, accept: bool, nA: Prop, vA: string)

  function Fresh(me: string): Acc {
    Acc(me, 0, Prop(0, me), Prop(0, me), "", map[])
  }

  /** `values[instance]`: a missing entry reads as the empty string. */
  function ValueAt(a: Acc, instance: nat): string {
    if instance in a.values then a.values[instance] else ""
  }

  function OnPrepare(a: Acc, instance: nat, n: Prop): (Acc, PrepRes) {
    if instance <= a.instanceH then
      (a.(values := a.values[instance := ValueAt(a, instance)]), PrepRes(true, false, a.nA, ValueAt(a, instance)))
    else if Gt(n, a.nH) then (a.(nH := n), PrepRes(false, true, a.nA, a.vA))
    else (a, PrepRes(false, false, a.nA, a.vA))
  }

  function OnAccept(a: Acc, instance: nat, n: Prop, v: string): (Acc, bool) {
    if instance <= a.instanceH then (a, false)
    else if Ge(n, a.nH) then (a.(nH := n, nA := n, vA := v), true)
    else (a, false)
  }

  function Commit(a: Acc, instance: nat, v: string): Acc {
    if instance <= a.instanceH then a
    else Acc(a.me, instance, Prop(0, a.me), Prop(0, a.me), "", a.values[instance := v])
  }

  // -------------------------------------------------------------- what is logged

  function PrepareLog(a: Acc, instance: nat, n: Prop): seq<Record> {
    if OnPrepare(a, instance, n).1.accept then [High(n)] else []
  }

  function AcceptLog(a: Acc, instance: nat, n: Prop, v: string): seq<Record> {
    if OnAccept(a, instance, n, v).1 then [Accepted(n, v)] else []
  }

  function CommitLog(a: Acc, instance: nat, v: string): seq<Record> {
    if instance > a.instanceH then [Done(instance, v)] else []
  }

  function ReplayRecord(a: Acc, r: Record): Acc {
    match r
    case Done(i, v) => a.(values := a.values[i := v], instanceH := i, vA := "", nH := a.nH.(n := 0),
        nA := a.nA.(n := 0))
    case High(n) => a.(nH := n)
    case Accepted(n, v) => a.(nA := n, vA := v)
  }

  /** The effect of logread on a state. */
  function ReplayFrom(a: Acc, log: seq<Record>): Acc
    decreases |log|
  {
    if log == [] then a else ReplayFrom(ReplayRecord(a, log[0]), log[1..])
  }

  /** The state rebuilt from a log by a restarting node. */
  function Replay(me: string, log: seq<Record>): Acc {
    ReplayFrom(Fresh(me), log)
  }

  lemma {:induction false} ReplayAppend(a: Acc, log: seq<Record>, r: Record)
    ensures ReplayFrom(a, log + [r]) == ReplayRecord(ReplayFrom(a, log), r)
    decreases |log|
  {
    if log == [] {
      assert log + [r] == [r] && [r][1..] == [];
    } else {
      assert (log + [r])[1..] == log[1..] + [r];
      ReplayAppend(ReplayRecord(a, log[0]), log[1..], r);
    }
  }

  lemma ReplaySnoc(me: string, log: seq<Record>, r: Record)
    ensures Replay(me, log + [r]) == ReplayRecord(Replay(me, log), r)
  {
    ReplayAppend(Fresh(me), log, r);
  }

  /** The first node of the system decides instance 1 by itself when its log is empty. */
  function Started(a: Acc, first: bool, value: string): Acc {
    if first && a.instanceH == 0 then a.(values := a.values[1 := value], instanceH := 1) else a
  }

  class Acceptor {
    const me: string
    const l: Log
    var instanceH: nat
    var nH: Prop
    var nA: Prop
    var vA: string
    var values: map<nat, string>
    /** The records behind the text of the log file. */
    ghost var records: seq<Record>

    ghost predicate Valid()
      reads this, l
    {
      l.file == LogText(records)
    }

    function State(): Acc
      reads this
    {
      Acc(me, instanceH, nH, nA, vA, values)
    }

    /** Starts or restarts a node on its log file. */
    constructor (me: string, l: Log, first: bool, value: string, ghost log: seq<Record>)
      requires l.file == LogText(log) && ParseLog(l.file) == Some(log)
      modifies l
      ensures Valid() && this.me == me && this.l == l
      ensures State() == Started(Replay(me, log), first, value)
      ensures records == log + if first && Replay(me, log).instanceH == 0 then [Done(1, value)] else []
    {
      this.me, this.l, this.instanceH, this.nH, this.nA, this.vA, this.values, this.records :=
        me, l, 0, Prop(0, me), Prop(0, me), "", map[], log;
      new;
      var ok := LogRead();
      if instanceH == 0 && first {
        values := values[1 := value];
        LogTextSnoc(records, Done(1, value));
        l.LogInstance(1, value);
        records := records + [Done(1, value)];
        instanceH := 1;
      }
    }

    method Redo(r: Record)
      modifies `instanceH, `nH, `nA, `vA, `values
      ensures State() == ReplayRecord(old(State()), r)
    {
      match r {
        case Done(i, v) =>
          values := values[i := v];
          instanceH := i;
          vA := "";
          nH := nH.(n := 0);
          nA := nA.(n := 0);
        case High(n) => nH := n;
        case Accepted(n, v) =>
          nA := n;
          vA := v;
      }
    }

    /** `ok` is false where reading the file aborts. */
    method LogRead() returns (ok: bool)
      modifies `instanceH, `nH, `nA, `vA, `values
      ensures ok <==> ParseLog(l.file).Some?
      ensures ok ==> State() == ReplayFrom(old(State()), ParseLog(l.file).value)
    {
      var from := l.file;
      while SkipSpace(from) != ""
        invariant ParseLog(l.file).Some? <==> ParseLog(from).Some?
        invariant ParseLog(from).Some? ==>
            ReplayFrom(State(), ParseLog(from).value) == ReplayFrom(old(State()), ParseLog(l.file).value)
        decreases |from|
      {
        var parsed := ParseRecord(from);
        if parsed.None? { return false; }
        Redo(parsed.value.0);
        from := parsed.value.1;
      }
      return true;
    }

    method PrepareReq(instance: nat, n: Prop) returns (r: PrepRes)
      requires Valid()
      modifies this, l
      ensures Valid()
      ensures (State(), r) == OnPrepare(old(State()), instance, n)
      ensures records == old(records) + PrepareLog(old(State()), instance, n)
    {
      r := PrepRes(false, false, nA, vA);
      if instance <= instanceH {
        if instance !in values { values := values[instance := ""]; }
        r := r.(oldInstance := true, vA := values[instance]);
      } else if Gt(n, nH) {
        nH := n;
        LogTextSnoc(records, High(n));
        l.LogHigh(nH);
        records := records + [High(n)];
        r := r.(accept := true);
      }
      assert instance <= old(instanceH) ==> values == old(State()).values[instance := ValueAt(old(State()), instance)];
    }

    method AcceptReq(instance: nat, n: Prop, v: string) returns (r: bool)
      requires Valid()
      modifies this, l
      ensures Valid()
      ensures (State(), r) == OnAccept(old(State()), instance, n, v)
      ensures records == old(records) + AcceptLog(old(State()), instance, n, v)
    {
      r := false;
      if instance > instanceH && Ge(n, nH) {
        nH, nA, vA := n, n, v;
        r := true;
        LogTextSnoc(records, Accepted(n, v));
        l.LogProp(nA, vA);
        records := records + [Accepted(n, v)];
      }
    }

    method CommitWo(instance: nat, value: string)
      requires Valid()
      modifies this, l
      ensures Valid()
      ensures State() == Commit(old(State()), instance, value)
      ensures records == old(records) + CommitLog(old(State()), instance, value)
    {
      if instance > instanceH {
        values := values[instance := value];
        LogTextSnoc(records, Done(instance, value));
        l.LogInstance(instance, value);
        records := records + [Done(instance, value)];
        instanceH := instance;
        nH, nA, vA := Prop(0, me), Prop(0, me), "";
      }
    }

    method DecideReq(instance: nat, v: string) returns (r: bool)
      requires Valid()
      modifies this, l
      ensures Valid()
      ensures r == (instance > old(instanceH))
      ensures State() == Commit(old(State()), instance, v)
      ensures records == old(records) + CommitLog(old(State()), instance, v)
    {
      r := instance > instanceH;
      if r { CommitWo(instance, v); }
    }
  }

  // ------------------------------------------------------------------ crash safety

  /** Equal, or both of round zero: the tag of round zero is not logged and never compared with a live round. */
  predicate SameRound(p: Prop, q: Prop) {
    p == q || (p.n == 0 && q.n == 0)
  }

  predicate SameAcc(a: Acc, b: Acc) {
    && a.me == b.me && a.instanceH == b.instanceH && a.vA == b.vA && a.values == b.values
    && SameRound(a.nH, b.nH) && SameRound(a.nA, b.nA)
  }

  datatype Request = Prepare(instance: nat, n: Prop) | Accept(instance: nat, n: Prop,
      v: string) | Decide(instance: nat, v: string)

  function Handle(a: Acc, q: Request): Acc {
    match q
    case Prepare(i, n) => OnPrepare(a, i, n).0
    case Accept(i, n, v) => OnAccept(a, i, n, v).0
    case Decide(i, v) => Commit(a, i, v)
  }

  function HandleLog(a: Acc, q: Request): seq<Record> {
    match q
    case Prepare(i, n) => PrepareLog(a, i, n)
    case Accept(i, n, v) => AcceptLog(a, i, n, v)
    case Decide(i, v) => CommitLog(a, i, v)
  }

  /** State and log of a fresh acceptor after handling requests. */
  function Run(me: string, qs: seq<Request>): (r: (Acc, seq<Record>))
    ensures r.0.me == me
  {
    if qs == [] then (Fresh(me), [])
    else
      var (a, log) := Run(me, qs[..|qs| - 1]);
      (Handle(a, qs[|qs| - 1]), log + HandleLog(a, qs[|qs| - 1]))
  }

  /** A request that names a round, as setn always does. */
  predicate LiveRequest(q: Request) {
    match q
    case Prepare(_, n) => n.n > 0
    case Accept(_, n, _) => n.n > 0
    case Decide(_, _) => true
  }

  /** The promise now held came with an accept that outran its prepare: acceptreq raises `n_h` without
      logging it. The next promise or commit makes the log complete again. */
  function Unlogged(me: string, qs: seq<Request>): bool {
    if qs == [] then false
    else
      var a := Run(me, qs[..|qs| - 1]).0;
      match qs[|qs| - 1]
      case Prepare(i, n) => Unlogged(me, qs[..|qs| - 1]) && !OnPrepare(a, i, n).1.accept
      case Accept(i, n, v) => if OnAccept(a, i, n, v).1 && n != a.nH then true else Unlogged(me, qs[..|qs| - 1])
      case Decide(i, _) => Unlogged(me, qs[..|qs| - 1]) && i <= a.instanceH
  }

  /** Requests at the next instance or at instances already decided. */
  predicate InOrder(me: string, qs: seq<Request>) {
    forall k | 0 <= k < |qs| :: qs[k].instance > 0 && qs[k].instance <= Run(me, qs[..k]).0.instanceH + 1
  }

  lemma {:induction false} ValuesDense(me: string, qs: seq<Request>)
    requires InOrder(me, qs)
    ensures forall i :: i in Run(me, qs).0.values <==> 0 < i <= Run(me, qs).0.instanceH
  {
    if qs != [] {
      InOrderFront(me, qs);
      ValuesDense(me, qs[..|qs| - 1]);
    }
  }

  lemma InOrderFront(me: string, qs: seq<Request>)
    requires InOrder(me, qs) && qs != []
    ensures InOrder(me, qs[..|qs| - 1])
    ensures 0 < qs[|qs| - 1].instance <= Run(me, qs[..|qs| - 1]).0.instanceH + 1
  {
    var front := qs[..|qs| - 1];
    forall k | 0 <= k < |front|
      ensures front[k].instance > 0 && front[k].instance <= Run(me, front[..k]).0.instanceH + 1
    {
      assert front[..k] == qs[..k] && front[k] == qs[k];
    }
  }

  /** One step from related states; the promise may only be lost by an accept that outran its prepare. */
  lemma ReplayStep(a: Acc, b: Acc, q: Request)
    requires a.me == b.me && a.instanceH == b.instanceH && a.vA == b.vA && a.values == b.values && SameRound(a.nA, b.nA)
    requires LiveRequest(q)
    requires q.Prepare? && q.instance <= a.instanceH ==> q.instance in a.values
    ensures var a' := Handle(a, q);
            var log := HandleLog(a, q);
            var b' := if log == [] then b else ReplayRecord(b, log[0]);
            && |log| <= 1
            && a'.me == b'.me && a'.instanceH == b'.instanceH && a'.vA == b'.vA && a'.values == b'.values
            && SameRound(a'.nA, b'.nA)
            && (log == [] ==> a' == a)
  {
    assert q.Prepare? && q.instance <= a.instanceH ==> a.values[q.instance := a.values[q.instance]] == a.values;
  }

  /** Replaying the log after any requests rebuilds everything except possibly the promise, and the
      promise too exactly when it is not an unlogged one. */
  lemma {:induction false} CrashSafety(me: string, qs: seq<Request>)
    requires InOrder(me, qs)
    requires forall q | q in qs :: LiveRequest(q)
    ensures var (a, log) := Run(me, qs);
            var b := Replay(me, log);
            && b.me == a.me && b.instanceH == a.instanceH && b.vA == a.vA && b.values == a.values
            && SameRound(b.nA, a.nA)
            && (SameRound(b.nH, a.nH) <==> !Unlogged(me, qs))
            && (Unlogged(me, qs) ==> a.nH == a.nA && Gt(a.nH, b.nH))
  {
    var (a', log') := Run(me, qs);
    if qs != [] {
      var front, q := qs[..|qs| - 1], qs[|qs| - 1];
      assert forall x | x in front :: x in qs;
      assert q in qs;
      InOrderFront(me, qs);
      CrashSafety(me, front);
      ValuesDense(me, front);
      var (a, log) := Run(me, front);
      var b := Replay(me, log);
      ReplayStep(a, b, q);
      if HandleLog(a, q) == [] {
        assert log' == log;
      } else {
        ReplaySnoc(me, log, HandleLog(a, q)[0]);
        assert log' == log + [HandleLog(a, q)[0]];
      }
      CrashPromise(a, b, q, Unlogged(me, front));
    }
  }

  lemma CrashPromise(a: Acc, b: Acc, q: Request, u: bool)
    requires LiveRequest(q)
    requires SameRound(b.nH, a.nH) <==> !u
    requires u ==> a.nH == a.nA && Gt(a.nH, b.nH)
    ensures var a' := Handle(a, q);
            var log := HandleLog(a, q);
            var b' := if log == [] then b else ReplayRecord(b, log[0]);
            var u' := match q
                      case Prepare(i, n) => u && !OnPrepare(a, i, n).1.accept
                      case Accept(i, n, v) => if OnAccept(a, i, n, v).1 && n != a.nH then true else u
                      case Decide(i, _) => u && i <= a.instanceH;
            && (SameRound(b'.nH, a'.nH) <==> !u')
            && (u' ==> a'.nH == a'.nA && Gt(a'.nH, b'.nH))
  {
    if q.Accept? && OnAccept(a, q.instance, q.n, q.v).1 {
      PropOrder(q.n, a.nH, b.nH);
    }
  }

  // ------------------------------------------------------------- proposer loops

  /** The result of calling one node in the prepare phase: no answer, or its reply. */
  datatype Outcome = Failed | Got(res: PrepRes)

  predicate Promise(o: Outcome) {
    o.Got? && !o.res.oldInstance && o.res.accept
  }

  /** The nodes among the first `|outs|` that promised, in order. */
  function Promisers(nodes: View, outs: seq<Outcome>): View
    requires |outs| <= |nodes|
  {
    if outs == [] then []
    else
      var k := |outs| - 1;
      Promisers(nodes, outs[..k]) + if Promise(outs[k]) then [nodes[k]] else []
  }

  /** The round and the value that the loop of prepare has kept. */
  function Pick(outs: seq<Outcome>, cv: string): (nat, string) {
    if outs == [] then (0, cv)
    else
      var k := |outs| - 1;
      var (h, v) := Pick(outs[..k], cv);
      if Promise(outs[k]) && outs[k].res.nA.n > h && outs[k].res.vA != "" then (outs[k].res.nA.n, outs[k].res.vA)
      else (h, v)
  }

  /** Where the loop of prepare stops: at the first reply that is not a promise. */
  function StopAt(outs: seq<Outcome>): (k: nat)
    ensures k <= |outs|
    ensures forall i | 0 <= i < k :: outs[i].Failed? || Promise(outs[i])
    ensures k < |outs| ==> outs[k].Got? && !Promise(outs[k])
  {
    if outs == [] || (outs[0].Got? && !Promise(outs[0])) then 0 else 1 + StopAt(outs[1..])
  }

  /** The loop of proposer::prepare; `replies[i]` is what calling `nodes[i]` would yield. */
  method PrepareLoop(nodes: View, replies: seq<Outcome>, cv: string)
    returns (result: bool, accepts: View, v: string, commit: Option<string>)
    requires |replies| == |nodes|
    ensures result <==> StopAt(replies) == |nodes|
    ensures accepts == Promisers(nodes, replies[..StopAt(replies)])
    ensures v == Pick(replies[..StopAt(replies)], cv).1
    ensures commit == if !result && replies[StopAt(replies)].res.oldInstance
                      then Some(replies[StopAt(replies)].res.vA) else None
  {
    var highestN := 0;
    result, accepts, v, commit := true, [], cv, None;
    for i := 0 to |nodes|
      invariant result && commit == None
      invariant accepts == Promisers(nodes, replies[..i])
      invariant (highestN, v) == Pick(replies[..i], cv)
      invariant StopAt(replies) == i + StopAt(replies[i..])
    {
      assert replies[i..][1..] == replies[i + 1..];
      assert replies[..i + 1][..i] == replies[..i];
      if replies[i].Failed? { continue; }
      var r := replies[i].res;
      if r.oldInstance {
        result := false;
        commit := Some(r.vA);
        break;
      } else if r.accept {
        accepts := accepts + [nodes[i]];
        if r.nA.n > highestN && r.vA != "" {
          highestN := r.nA.n;
          v := r.vA;
        }
      } else {
        result := false;
        break;
      }
    }
  }

  /** The nodes whose accept call returned 1. */
  function Accepters(nodes: View, oks: seq<bool>): View
    requires |oks| <= |nodes|
  {
    if oks == [] then []
    else
      var k := |oks| - 1;
      Accepters(nodes, oks[..k]) + if oks[k] then [nodes[k]] else []
  }

  method AcceptLoop(nodes: View, oks: seq<bool>) returns (accepts: View)
    requires |oks| == |nodes|
    ensures accepts == Accepters(nodes, oks)
    ensures forall x :: x in accepts <==> exists i :: 0 <= i < |nodes| && nodes[i] == x && oks[i]
  {
    accepts := [];
    for i := 0 to |nodes|
      invariant accepts == Accepters(nodes, oks[..i])
      invariant forall x :: x in accepts <==> exists j :: 0 <= j < i && nodes[j] == x && oks[j]
    {
      assert oks[..i + 1][..i] == oks[..i];
      if oks[i] { accepts := accepts + [nodes[i]]; }
    }
    assert oks[..|oks|] == oks;
  }

  lemma {:induction false} PromiserAt(nodes: View, outs: seq<Outcome>, x: string)
    requires |outs| <= |nodes|
    ensures x in Promisers(nodes, outs) <==> exists k :: 0 <= k < |outs| && nodes[k] == x && Promise(outs[k])
  {
    if outs != [] {
      var k := |outs| - 1;
      PromiserAt(nodes, outs[..k], x);
      if x in Promisers(nodes, outs[..k]) {
        var j :| 0 <= j < k && nodes[j] == x && Promise(outs[..k][j]);
        assert Promise(outs[j]);
      }
      if j :| 0 <= j < |outs| && nodes[j] == x && Promise(outs[j]) {
        assert j < k ==> Promise(outs[..k][j]);
      }
    }
  }

  /** The kept round bounds every reported round, and the kept value was reported with the kept round. */
  lemma {:induction false} PickIsHighest(outs: seq<Outcome>, cv: string)
    ensures forall k | 0 <= k < |outs| && Promise(outs[k]) && outs[k].res.vA != "" ::
            outs[k].res.nA.n <= Pick(outs, cv).0
    ensures if Pick(outs, cv).0 == 0 then Pick(outs, cv).1 == cv
            else exists k :: 0 <= k < |outs| && Promise(outs[k])
                             && outs[k].res.nA.n == Pick(outs, cv).0 && outs[k].res.vA == Pick(outs, cv).1 != ""
  {
    if outs != [] {
      var k := |outs| - 1;
      PickIsHighest(outs[..k], cv);
      var front := Pick(outs[..k], cv);
      if front.0 != 0 {
        var j :| 0 <= j < k && Promise(outs[..k][j]) && outs[..k][j].res.nA.n == front.0
            && outs[..k][j].res.vA == front.1;
        assert Promise(outs[j]) && outs[j].res.nA.n == front.0;
      }
      forall j | 0 <= j < |outs| && Promise(outs[j]) && outs[j].res.vA != ""
        ensures outs[j].res.nA.n <= Pick(outs, cv).0
      {
        assert j < k ==> outs[..k][j] == outs[j];
      }
      if Pick(outs, cv).0 != front.0 {
        assert Promise(outs[k]) && outs[k].res.nA.n == Pick(outs, cv).0;
      }
    }
  }

  /** A promise that reports an accepted proposal. */
  predicate Reports(o: Outcome) {
    Promise(o) && o.res.vA != "" && o.res.nA.n > 0
  }

  ghost predicate Greatest(outs: seq<Outcome>, t: Outcome) {
    t in outs && Reports(t) && forall o | o in outs && Reports(o) :: Ge(t.res.nA, o.res.nA)
  }

  /** A report that no later one exceeds in round is kept. */
  lemma {:induction false} FirstStays(o: Outcome, rest: seq<Outcome>, cv: string)
    requires Reports(o) && forall r | r in rest && Promise(r) && r.res.vA != "" :: r.res.nA.n <= o.res.nA.n
    ensures Pick([o] + rest, cv) == (o.res.nA.n, o.res.vA)
  {
    if rest == [] {
      assert [o] + rest == [o] && [o][..0] == [];
    } else {
      var k := |rest| - 1;
      FirstStays(o, rest[..k], cv);
      assert ([o] + rest)[..k + 1] == [o] + rest[..k];
      assert rest[k] in rest;
    }
  }

  lemma MovedToFront(outs: seq<Outcome>, i: nat)
    requires i < |outs|
    ensures multiset([outs[i]] + (outs[..i] + outs[i + 1..])) == multiset(outs)
  {
    assert outs == outs[..i] + [outs[i]] + outs[i + 1..];
  }

  /** Prepare keeps the value of the greatest reported proposal, whatever the order of the replies, exactly
      when all reports of the top round carry that value: the loop compares rounds without the tie-breaker. */
  lemma PickFollowsOrder(outs: seq<Outcome>, t: Outcome, cv: string)
    requires Greatest(outs, t)
    ensures (forall other: seq<Outcome> | multiset(other) == multiset(outs) :: Pick(other, cv).1 == t.res.vA)
            <==> (forall o | o in outs && Reports(o) && o.res.nA.n == t.res.nA.n :: o.res.vA == t.res.vA)
  {
    if forall o | o in outs && Reports(o) && o.res.nA.n == t.res.nA.n :: o.res.vA == t.res.vA {
      forall other: seq<Outcome> | multiset(other) == multiset(outs) ensures Pick(other, cv).1 == t.res.vA {
        SameElements(other, outs);
        PickIsHighest(other, cv);
        var i :| 0 <= i < |other| && other[i] == t;
        var k :| 0 <= k < |other| && Promise(other[k]) && other[k].res.nA.n == Pick(other, cv).0
                 && other[k].res.vA == Pick(other, cv).1 && other[k].res.vA != "";
        assert other[k] in outs && Reports(other[k]);
      }
    } else {
      var o :| o in outs && Reports(o) && o.res.nA.n == t.res.nA.n && o.res.vA != t.res.vA;
      var i :| 0 <= i < |outs| && outs[i] == o;
      var rest := outs[..i] + outs[i + 1..];
      MovedToFront(outs, i);
      forall r | r in rest && Promise(r) && r.res.vA != "" ensures r.res.nA.n <= o.res.nA.n {
        assert r in outs;
        if r.res.nA.n > 0 { assert Reports(r); }
      }
      FirstStays(o, rest, cv);
      assert multiset([o] + rest) == multiset(outs) && Pick([o] + rest, cv).1 != t.res.vA;
    }
  }

  lemma SameElements(a: seq<Outcome>, b: seq<Outcome>)
    requires multiset(a) == multiset(b)
    ensures forall o :: o in a <==> o in b
  {
    assert forall o :: o in a <==> o in multiset(a);
    assert forall o :: o in b <==> o in multiset(b);
  }

  /** setn: above the promise of the own acceptor and above the last round used. */
  function NextRound(nH: Prop, myN: nat): nat {
    if nH.n + 1 > myN + 1 then nH.n + 1 else myN + 1
  }
}
