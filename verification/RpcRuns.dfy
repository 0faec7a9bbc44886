/**
 Why calls must end with their reply and replies must be sent in time. A reply sent late is read from memory that was
 freed, or that another client's reply has taken since. A call that its deadline ends is acknowledged although its
 handler still runs: the reply recorded later is freed by a repeated request while the entry goes on referring to it.
 */
module RpcRuns {
  import opened Basics
  import opened Rpc
  import opened RpcSystem

  /** Runs in which every call ends with its reply, or runs in which every reply is sent in time. */
  datatype Kind = AllPatient | AllTimely

  ghost predicate Allowed(k: Kind, s: Sys, act: Action)
    requires Possible(s, act)
  {
    match k
    case AllPatient => Patient(s, act)
    case AllTimely => Timely(s, act)
  }

  ghost predicate Run(k: Kind, s: Sys, acts: seq<Action>) {
    match k
    case AllPatient => PatientRun(s, acts)
    case AllTimely => TimelyRun(s, acts)
  }

  lemma {:induction false} RunSnoc(k: Kind, s: Sys, acts: seq<Action>, act: Action)
    requires Run(k, s, acts) && Possible(After(s, acts), act) && Allowed(k, After(s, acts), act)
    ensures Run(k, s, acts + [act]) && After(s, acts + [act]) == Apply(After(s, acts), act)
    decreases |acts|
  {
    if acts == [] {
      assert acts + [act] == [act] && [act][1..] == [];
    } else {
      RunSnoc(k, Apply(s, acts[0]), acts[1..], act);
      assert (acts + [act])[0] == acts[0] && (acts + [act])[1..] == acts[1..] + [act];
    }
  }

  ghost predicate Reaches(k: Kind, s: Sys, t: Sys) {
    exists acts :: Run(k, s, acts) && After(s, acts) == t
  }

  lemma Go(k: Kind, s: Sys, t: Sys, act: Action, t': Sys)
    requires Reaches(k, s, t) && Possible(t, act) && Allowed(k, t, act) && t' == Apply(t, act)
    ensures Reaches(k, s, t')
  {
    var acts :| Run(k, s, acts) && After(s, acts) == t;
    RunSnoc(k, s, acts, act);
  }

  /** The given memory and clients, with one of them changed. */
  function With(peers: map<Nonce, Peer>, n: Nonce, p: Peer, h: Heap): Sys {
    Sys(h, peers[n := p], false)
  }

  lemma Move(k: Kind, s: Sys, peers: map<Nonce, Peer>, n: Nonce, p: Peer, h: Heap, act: Action, p': Peer, h': Heap)
    requires act.n == n && Reaches(k, s, With(peers, n, p, h))
    requires Possible(With(peers, n, p, h), act) && Allowed(k, With(peers, n, p, h), act)
    requires Apply(With(peers, n, p, h), act) == With(With(peers, n, p, h).peers, n, p', h')
    ensures Reaches(k, s, With(peers, n, p', h'))
  {
    assert peers[n := p][n := p'] == peers[n := p'];
    Go(k, s, With(peers, n, p, h), act, With(peers, n, p', h'));
  }

  const EMPTY := Heap(map[], false)

  /** What a send would deliver if its memory held no recorded reply. */
  const NOISE := Reply(0, AtMostOnceFailure)

  function Holding(a: Addr, b: Buffer): Heap {
    Heap(map[a := b], false)
  }

  lemma Start(k: Kind, s: Sys, n: Nonce)
    requires Init(s) && n in s.peers
    ensures Reaches(k, s, With(s.peers, n, NEW_PEER, EMPTY))
  {
    assert s.peers[n := NEW_PEER] == s.peers;
    assert Run(k, s, []) && After(s, []) == s;
  }

  lemma UpdateOne()
    ensures UpdateWindow([0], 1) == [1]
  {
    assert Insert([0], 1) == [0, 1];
    assert [0, 1][1..] == [1];
  }

  // -------------------------------------------------------------- another client's call

  function OneCall(): Peer {
    NEW_PEER.(clt := Client(2, [0], map[1 := None]), acks := map[1 := 0])
  }

  function Executing(): Peer {
    OneCall().(list := [Entry(1, false, None)], jobs := {1}, execs := [1])
  }

  function TwoCalls(): Peer {
    NEW_PEER.(clt := Client(3, [0], map[1 := None, 2 := None]), acks := map[1 := 0, 2 := 0])
  }

  /** The second call of this client has been executed; its reply is at `a`. */
  function Second(w: Value, a: Addr): Peer {
    TwoCalls().(list := [Entry(2, true, Some(a))], execs := [2], results := map[2 := w], sends := [Sending(2, a)])
  }

  lemma SecondFrom(w: Value, a: Addr)
    ensures Called(Called(NEW_PEER)) == TwoCalls()
    ensures Finished(Requested(TwoCalls(), 2), 2, w, a) == Second(w, a) && 2 in Requested(TwoCalls(), 2).jobs
  {
    assert map[1 := 0][2 := 0] == map[1 := 0, 2 := 0];
    assert Called(Called(NEW_PEER)).clt.calls == map[1 := None, 2 := None];
    var q := Requested(TwoCalls(), 2);
    assert q == TwoCalls().(list := [Entry(2, false, None)], jobs := {2}, execs := [2]) by {
      assert Trim([], 0) == [];
      assert [] + [2] == [2] && [] + [Entry(2, false, None)] == [Entry(2, false, None)];
      assert {} + {2} == {2};
    }
    assert AddReply(q.list, 2, a) == [Entry(2, true, Some(a))] by {
      assert q.list[1..] == [];
    }
    assert q.jobs - {2} == {} && map[][2 := w] == map[2 := w] && [] + [Sending(2, a)] == [Sending(2, a)];
  }

  lemma ReachSecond(k: Kind, s: Sys, n: Nonce, p: Peer, m: Nonce, w: Value, a: Addr)
    requires Init(s) && n in s.peers && m in s.peers && m != n && Reaches(k, s, With(s.peers, n, p, EMPTY))
    ensures Reaches(k, s, With(s.peers[n := p], m, Second(w, a), Holding(a, Buffer(m, 2, w))))
  {
    var peers := s.peers[n := p];
    assert peers[m := NEW_PEER] == peers;
    assert With(s.peers, n, p, EMPTY) == With(peers, m, NEW_PEER, EMPTY);
    SecondFrom(w, a);
    var q := Requested(TwoCalls(), 2);
    Move(k, s, peers, m, NEW_PEER, EMPTY, Call(m), Called(NEW_PEER), EMPTY);
    Move(k, s, peers, m, Called(NEW_PEER), EMPTY, Call(m), TwoCalls(), EMPTY);
    Move(k, s, peers, m, TwoCalls(), EMPTY, Request(m, 2), q, EMPTY);
    Move(k, s, peers, m, q, EMPTY, Finish(m, 2, w, a), Second(w, a), Holding(a, Buffer(m, 2, w)));
  }

  /** A send by client `n` from `a` delivers the other client's reply, and the caller of the second call takes it. */
  lemma TakesSecond(k: Kind, s: Sys, n: Nonce, p: Peer, m: Nonce, w: Value, a: Addr, i: nat)
    requires Init(s) && n in s.peers && m in s.peers && m != n && Reaches(k, s, With(s.peers, n, p, EMPTY))
    requires i < |p.sends| && p.sends[i].addr == a && (k == AllTimely ==> p.sends[i].xid > p.trimmed)
    requires p.clt.window != [] && 2 in p.clt.calls && p.clt.calls[2] == None
    ensures exists t :: Reaches(k, s, t) && !t.heap.fault && !t.misread && n in t.peers
              && 2 in t.peers[n].answers && t.peers[n].answers[2] == Ok(w) && t.peers[n].results == p.results
  {
    ReachSecond(k, s, n, p, m, w, a);
    var h := Holding(a, Buffer(m, 2, w));
    var peers := s.peers[m := Second(w, a)];
    assert s.peers[n := p][m := Second(w, a)] == peers[n := p];
    var p1 := Sent(p, h, i, NOISE);
    var p2 := Received(p1, Reply(2, Ok(w)));
    Move(k, s, peers, n, p, h, SendReply(n, i, NOISE), p1, h);
    Move(k, s, peers, n, p1, h, Got(n, Reply(2, Ok(w))), p2, h);
    assert n in With(peers, n, p2, h).peers;
  }

  // -------------------------------------------------- patient callers and a late send

  /** The first call has been answered by a repetition; the thread that executed it has yet to send. */
  function Slow(v: Value, a: Addr): Peer {
    OneCall().(list := [Entry(1, true, Some(a))], execs := [1], results := map[1 := v],
        sends := [Sending(1, a), Sending(1, a)])
  }

  function Answered(v: Value, a: Addr): Peer {
    Slow(v, a).(sends := [Sending(1, a)], replies := {Reply(1, Ok(v))}, clt := Client(2, [1], map[1 := Some(Ok(v))]),
                done := {1}, answers := map[1 := Ok(v)])
  }

  /** The second call has acknowledged the first. */
  function Trimmed(v: Value, a: Addr): Peer {
    Answered(v, a).(clt := Client(3, [1], map[1 := Some(Ok(v)), 2 := None]), acks := map[1 := 0, 2 := 1],
                    list := [Entry(1, false, None), Entry(2, false, None)], jobs := {2}, execs := [1, 2], trimmed := 1)
  }

  lemma ExecutingFrom()
    ensures Called(NEW_PEER) == OneCall() && Requested(OneCall(), 1) == Executing()
  {
    assert Trim([], 0) == [] && [] + [1] == [1] && [] + [Entry(1, false, None)] == [Entry(1, false, None)]
        && {} + {1} == {1};
    assert map[][1 := 0] == map[1 := 0];
    assert Called(NEW_PEER).clt.calls == map[1 := None];
  }

  lemma ReachExecuting(k: Kind, s: Sys, n: Nonce)
    requires Init(s) && n in s.peers
    ensures Reaches(k, s, With(s.peers, n, Executing(), EMPTY))
  {
    Start(k, s, n);
    ExecutingFrom();
    Move(k, s, s.peers, n, NEW_PEER, EMPTY, Call(n), OneCall(), EMPTY);
    Move(k, s, s.peers, n, OneCall(), EMPTY, Request(n, 1), Executing(), EMPTY);
  }

  lemma SlowFrom(v: Value, a: Addr, h: Heap)
    ensures var p := Finished(Executing(), 1, v, a);
            1 in p.acks && p.acks[1] == 0 && FreeAcked(h, p.list, 0) == h && Requested(p, 1) == Slow(v, a)
  {
    var p := Finished(Executing(), 1, v, a);
    assert Executing().list[1..] == [];
    assert p.list == [Entry(1, true, Some(a))];
    FreeNothing(p.list, h, 0);
    assert Trim(p.list, 0) == p.list;
    assert p.jobs == {} && map[][1 := v] == map[1 := v];
    assert p.sends == [Sending(1, a)] && p.sends + [Sending(1, a)] == [Sending(1, a), Sending(1, a)];
  }

  lemma ReachSlow(s: Sys, n: Nonce, v: Value, a: Addr)
    requires Init(s) && n in s.peers
    ensures Reaches(AllPatient, s, With(s.peers, n, Slow(v, a), Holding(a, Buffer(n, 1, v))))
  {
    var k, h := AllPatient, Holding(a, Buffer(n, 1, v));
    ReachExecuting(k, s, n);
    SlowFrom(v, a, h);
    var p := Finished(Executing(), 1, v, a);
    Move(k, s, s.peers, n, Executing(), EMPTY, Finish(n, 1, v, a), p, h);
    Move(k, s, s.peers, n, p, h, Request(n, 1), Slow(v, a), h);
  }

  lemma AnsweredFrom(n: Nonce, v: Value, a: Addr)
    ensures Received(Sent(Slow(v, a), Holding(a, Buffer(n, 1, v)), 0, NOISE), Reply(1, Ok(v))) == Answered(v, a)
  {
    var p := Sent(Slow(v, a), Holding(a, Buffer(n, 1, v)), 0, NOISE);
    assert p.sends == [Sending(1, a)] && p.replies == {Reply(1, Ok(v))};
    UpdateOne();
    assert map[1 := None][1 := Some(Ok(v))] == map[1 := Some(Ok(v))];
    assert {} + {1} == {1} && map[][1 := Ok(v)] == map[1 := Ok(v)];
  }

  lemma ReachAnswered(s: Sys, n: Nonce, v: Value, a: Addr)
    requires Init(s) && n in s.peers
    ensures Reaches(AllPatient, s, With(s.peers, n, Answered(v, a), Holding(a, Buffer(n, 1, v))))
  {
    var k, h := AllPatient, Holding(a, Buffer(n, 1, v));
    ReachSlow(s, n, v, a);
    AnsweredFrom(n, v, a);
    var p := Sent(Slow(v, a), h, 0, NOISE);
    Move(k, s, s.peers, n, Slow(v, a), h, SendReply(n, 0, NOISE), p, h);
    Move(k, s, s.peers, n, p, h, Got(n, Reply(1, Ok(v))), Answered(v, a), h);
  }

  lemma TrimmedFrom(n: Nonce, v: Value, a: Addr)
    ensures var p := Called(Answered(v, a));
            2 in p.acks && p.acks[2] == 1 && Requested(p, 2) == Trimmed(v, a)
            && FreeAcked(Holding(a, Buffer(n, 1, v)), p.list, 1) == EMPTY
  {
    var p, h := Called(Answered(v, a)), Holding(a, Buffer(n, 1, v));
    assert p.acks == map[1 := 0, 2 := 1] && p.clt.calls == map[1 := Some(Ok(v)), 2 := None];
    assert p.list == [Entry(1, true, Some(a))] && p.list[1..] == [];
    assert Trim(p.list, 1) == [Entry(1, false, None)];
    assert Find(Trim(p.list, 1), 2) == None by { FindAt(Trim(p.list, 1), 2, 1); }
    assert [Entry(1, false, None)] + [Entry(2, false, None)] == [Entry(1, false, None), Entry(2, false, None)];
    assert {} + {2} == {2} && [1] + [2] == [1, 2];
    assert Free(h, Some(a)) == EMPTY by { assert h.live - {a} == map[]; }
    FreeNothing([], EMPTY, 1);
  }

  lemma ReachTrimmed(s: Sys, n: Nonce, v: Value, a: Addr)
    requires Init(s) && n in s.peers
    ensures Reaches(AllPatient, s, With(s.peers, n, Trimmed(v, a), EMPTY))
  {
    var k, h := AllPatient, Holding(a, Buffer(n, 1, v));
    ReachAnswered(s, n, v, a);
    TrimmedFrom(n, v, a);
    var p := Called(Answered(v, a));
    Move(k, s, s.peers, n, Answered(v, a), h, Call(n), p, h);
    Move(k, s, s.peers, n, p, h, Request(n, 2), Trimmed(v, a), EMPTY);
  }

  /** Every call ends with its reply, and yet a reply is sent from memory that was freed: the first request is answered
      by a repetition, the second request frees the reply, and the thread that executed the first one sends it then. */
  lemma LateSendReadsFreedMemory(s: Sys, n: Nonce, v: Value, a: Addr)
    requires Init(s) && n in s.peers
    ensures exists t :: Reaches(AllPatient, s, t) && t.misread
  {
    ReachTrimmed(s, n, v, a);
    var t := With(s.peers, n, Trimmed(v, a), EMPTY);
    Go(AllPatient, s, t, SendReply(n, 0, NOISE), Apply(t, SendReply(n, 0, NOISE)));
    assert Apply(t, SendReply(n, 0, NOISE)).misread;
  }

  /** What such memory holds may look like any reply: the caller of the second call can take any value, which no handler
      of any client produced for a call with this id. */
  lemma MisreadGivesAnyAnswer(s: Sys, n: Nonce, v: Value, z: Value, a: Addr)
    requires Init(s) && n in s.peers
    ensures exists t :: Reaches(AllPatient, s, t) && t.misread && n in t.peers
              && 2 in t.peers[n].answers && t.peers[n].answers[2] == Ok(z) && !SomeProduced(t, 2, z)
  {
    ReachTrimmed(s, n, v, a);
    var t := With(s.peers, n, Trimmed(v, a), EMPTY);
    var u := Apply(t, SendReply(n, 0, Reply(2, Ok(z))));
    Go(AllPatient, s, t, SendReply(n, 0, Reply(2, Ok(z))), u);
    Go(AllPatient, s, u, Got(n, Reply(2, Ok(z))), Apply(u, Got(n, Reply(2, Ok(z)))));
    assert n in Apply(u, Got(n, Reply(2, Ok(z)))).peers;
  }

  /** If another client's second reply takes that memory in between, the caller of the second call takes a value that
      was produced for the other client, before its own handler has returned. */
  lemma LateSendGivesWrongAnswer(s: Sys, n: Nonce, m: Nonce, v: Value, w: Value, a: Addr)
    requires Init(s) && n in s.peers && m in s.peers && m != n
    ensures exists t :: Reaches(AllPatient, s, t) && !t.heap.fault && !t.misread && n in t.peers
              && 2 in t.peers[n].answers && t.peers[n].answers[2] == Ok(w) && 2 !in t.peers[n].results
  {
    ReachTrimmed(s, n, v, a);
    TakesSecond(AllPatient, s, n, Trimmed(v, a), m, w, a, 0);
  }

  // ---------------------------------------- a reply to a call that was not yet made

  function ThreeCalls(): Peer {
    NEW_PEER.(clt := Client(4, [0], map[1 := None, 2 := None, 3 := None]), acks := map[1 := 0, 2 := 0, 3 := 0])
  }

  /** The third call of this client has been executed; its reply is at `a`. */
  function Third(w: Value, a: Addr): Peer {
    ThreeCalls().(list := [Entry(3, true, Some(a))], execs := [3], results := map[3 := w], sends := [Sending(3, a)])
  }

  lemma ThirdFrom(w: Value, a: Addr)
    ensures Called(TwoCalls()) == ThreeCalls()
    ensures Finished(Requested(ThreeCalls(), 3), 3, w, a) == Third(w, a) && 3 in Requested(ThreeCalls(), 3).jobs
  {
    assert map[1 := 0, 2 := 0][3 := 0] == map[1 := 0, 2 := 0, 3 := 0];
    assert Called(TwoCalls()).clt.calls == map[1 := None, 2 := None, 3 := None];
    var q := Requested(ThreeCalls(), 3);
    assert q == ThreeCalls().(list := [Entry(3, false, None)], jobs := {3}, execs := [3]) by {
      assert Trim([], 0) == [];
      assert [] + [3] == [3] && [] + [Entry(3, false, None)] == [Entry(3, false, None)];
      assert {} + {3} == {3};
    }
    assert AddReply(q.list, 3, a) == [Entry(3, true, Some(a))] by {
      assert q.list[1..] == [];
    }
    assert q.jobs - {3} == {} && map[][3 := w] == map[3 := w] && [] + [Sending(3, a)] == [Sending(3, a)];
  }

  lemma ReachThird(k: Kind, s: Sys, n: Nonce, p: Peer, m: Nonce, w: Value, a: Addr)
    requires Init(s) && n in s.peers && m in s.peers && m != n && Reaches(k, s, With(s.peers, n, p, EMPTY))
    ensures Reaches(k, s, With(s.peers[n := p], m, Third(w, a), Holding(a, Buffer(m, 3, w))))
  {
    var peers := s.peers[n := p];
    assert peers[m := NEW_PEER] == peers;
    assert With(s.peers, n, p, EMPTY) == With(peers, m, NEW_PEER, EMPTY);
    SecondFrom(w, a);
    ThirdFrom(w, a);
    var q := Requested(ThreeCalls(), 3);
    Move(k, s, peers, m, NEW_PEER, EMPTY, Call(m), Called(NEW_PEER), EMPTY);
    Move(k, s, peers, m, Called(NEW_PEER), EMPTY, Call(m), TwoCalls(), EMPTY);
    Move(k, s, peers, m, TwoCalls(), EMPTY, Call(m), ThreeCalls(), EMPTY);
    Move(k, s, peers, m, ThreeCalls(), EMPTY, Request(m, 3), q, EMPTY);
    Move(k, s, peers, m, q, EMPTY, Finish(m, 3, w, a), Third(w, a), Holding(a, Buffer(m, 3, w)));
  }

  lemma WindowSkips()
    ensures UpdateWindow([1], 3) == [1, 3] && UpdateWindow([1, 3], 2) == [3]
  {
    assert Insert([], 3) == [3] && Insert([1], 3) == [1] + [3] == [1, 3];
    assert [1, 3][1..] == [3];
    assert Compress([1, 3]) == [1, 3];
    assert Insert([3], 2) == [2] + [3] && Insert([1, 3], 2) == [1] + [2, 3] == [1, 2, 3];
    assert [1, 2, 3][1..] == [2, 3] && [2, 3][1..] == [3];
    assert 2 in [2, 3] && 3 in [3];
    assert Compress([1, 2, 3]) == Compress([2, 3]) == Compress([3]) == [3];
  }

  /** The client of the late send has taken the other's third reply, and then made its own third call. */
  function Ahead(v: Value, w: Value, a: Addr): Peer {
    Trimmed(v, a).(clt := Client(4, [1, 3], map[1 := Some(Ok(v)), 2 := None, 3 := None]), sends := [],
                   acks := map[1 := 0, 2 := 1, 3 := 1], replies := {Reply(1, Ok(v)), Reply(3, Ok(w))}, done := {1, 3})
  }

  lemma AheadFrom(m: Nonce, v: Value, w: Value, a: Addr)
    ensures var p := Sent(Trimmed(v, a), Holding(a, Buffer(m, 3, w)), 0, NOISE);
            Called(Received(p, Reply(3, Ok(w)))) == Ahead(v, w, a)
  {
    WindowSkips();
    var p := Sent(Trimmed(v, a), Holding(a, Buffer(m, 3, w)), 0, NOISE);
    assert p.sends == [] && p.replies == {Reply(1, Ok(v)), Reply(3, Ok(w))};
    var q := Received(p, Reply(3, Ok(w)));
    assert q.clt == Client(3, [1, 3], map[1 := Some(Ok(v)), 2 := None]) && q.done == {1, 3};
    assert Called(q).acks == map[1 := 0, 2 := 1, 3 := 1];
    assert Called(q).clt.calls == map[1 := Some(Ok(v)), 2 := None, 3 := None];
  }

  lemma ReachAhead(s: Sys, n: Nonce, m: Nonce, v: Value, w: Value, a: Addr)
    requires Init(s) && n in s.peers && m in s.peers && m != n
    ensures Reaches(AllPatient, s, With(s.peers[m := Third(w, a)], n, Ahead(v, w, a), Holding(a, Buffer(m, 3, w))))
  {
    var k, h, p := AllPatient, Holding(a, Buffer(m, 3, w)), Trimmed(v, a);
    var peers := s.peers[m := Third(w, a)];
    ReachTrimmed(s, n, v, a);
    ReachThird(k, s, n, p, m, w, a);
    assert s.peers[n := p][m := Third(w, a)] == peers[n := p];
    AheadFrom(m, v, w, a);
    var p1 := Sent(p, h, 0, NOISE);
    var p2 := Received(p1, Reply(3, Ok(w)));
    Move(k, s, peers, n, p, h, SendReply(n, 0, NOISE), p1, h);
    Move(k, s, peers, n, p1, h, Got(n, Reply(3, Ok(w))), p2, h);
    Move(k, s, peers, n, p2, h, Call(n), Ahead(v, w, a), h);
  }

  lemma SecondCompletes(n: Nonce, v: Value, w: Value, u: Value, a: Addr, b: Addr, h: Heap)
    requires b in h.live && h.live[b] == Buffer(n, 2, u)
    ensures var p := Finished(Ahead(v, w, a), 2, u, b);
            && |p.sends| == 1 && p.sends[0].addr == b && Reply(2, Ok(u)) in Sent(p, h, 0, NOISE).replies
            && Sent(p, h, 0, NOISE).clt.window == [1, 3]
            && var q := Called(Received(Sent(p, h, 0, NOISE), Reply(2, Ok(u))));
               4 in q.acks && q.acks[4] == 3 && 3 in q.clt.calls && q.clt.calls[3] == None
  {
    WindowSkips();
    var p := Finished(Ahead(v, w, a), 2, u, b);
    assert p.sends == [Sending(2, b)];
    var q := Received(Sent(p, h, 0, NOISE), Reply(2, Ok(u)));
    assert q.clt.window == [3] && q.clt.next == 4;
  }

  /** Every call ends with its reply, and yet a request acknowledges a call that still waits: the late send has
      delivered another client's reply to a call that this client had not made yet. */
  lemma LateSendAcknowledgesWaiting(s: Sys, n: Nonce, m: Nonce, v: Value, w: Value, u: Value, a: Addr, b: Addr)
    requires Init(s) && n in s.peers && m in s.peers && m != n && a != b
    ensures exists t :: Reaches(AllPatient, s, t) && n in t.peers
              && 4 in t.peers[n].acks && t.peers[n].acks[4] == 3
              && 3 in t.peers[n].clt.calls && t.peers[n].clt.calls[3] == None
  {
    var k, h, p := AllPatient, Holding(a, Buffer(m, 3, w)), Ahead(v, w, a);
    var peers := s.peers[m := Third(w, a)];
    ReachAhead(s, n, m, v, w, a);
    var h' := h.(live := h.live[b := Buffer(n, 2, u)]);
    SecondCompletes(n, v, w, u, a, b, h');
    var p1 := Finished(p, 2, u, b);
    Move(k, s, peers, n, p, h, Finish(n, 2, u, b), p1, h');
    var p2 := Sent(p1, h', 0, NOISE);
    Move(k, s, peers, n, p1, h', SendReply(n, 0, NOISE), p2, h');
    var p3 := Received(p2, Reply(2, Ok(u)));
    Move(k, s, peers, n, p2, h', Got(n, Reply(2, Ok(u))), p3, h');
    Move(k, s, peers, n, p3, h', Call(n), Called(p3), h');
    assert n in With(peers, n, Called(p3), h').peers;
  }

  // --------------------------------------------- a deadline, with every send in time

  /** The first call is being executed when its deadline passes, and the second one acknowledges it. */
  function Acknowledged(): Peer {
    NEW_PEER.(clt := Client(3, [1], map[2 := None]), acks := map[1 := 0, 2 := 1], done := {1}, trimmed := 1,
              list := [Entry(1, false, None), Entry(2, false, None)], jobs := {1, 2}, execs := [1, 2])
  }

  /** Then the first one returns. */
  function Returned(v: Value, a: Addr): Peer {
    Acknowledged().(list := [Entry(1, true, Some(a)), Entry(2, false, None)], jobs := {2}, results := map[1 := v],
                    sends := [Sending(1, a)])
  }

  lemma AcknowledgedFrom()
    ensures var p := Called(Ended(Executing(), 1));
            2 in p.acks && p.acks[2] == 1 && Requested(p, 2) == Acknowledged() && FreeAcked(EMPTY, p.list, 1) == EMPTY
  {
    UpdateOne();
    var p := Called(Ended(Executing(), 1));
    assert Ended(Executing(), 1).clt.calls == map[];
    assert {} + {1} == {1};
    assert p.acks == map[1 := 0, 2 := 1] && p.clt.calls == map[2 := None];
    assert p.list == [Entry(1, false, None)];
    assert Trim(p.list, 1) == p.list;
    assert Find(p.list, 2) == None by { FindAt(p.list, 2, 1); }
    assert p.list + [Entry(2, false, None)] == [Entry(1, false, None), Entry(2, false, None)];
    assert {1} + {2} == {1, 2} && [1] + [2] == [1, 2];
    FreeNothing(p.list, EMPTY, 1);
  }

  lemma ReachAcknowledged(s: Sys, n: Nonce)
    requires Init(s) && n in s.peers
    ensures Reaches(AllTimely, s, With(s.peers, n, Acknowledged(), EMPTY))
  {
    var k, p := AllTimely, Ended(Executing(), 1);
    ReachExecuting(k, s, n);
    AcknowledgedFrom();
    Move(k, s, s.peers, n, Executing(), EMPTY, End(n, 1), p, EMPTY);
    Move(k, s, s.peers, n, p, EMPTY, Call(n), Called(p), EMPTY);
    Move(k, s, s.peers, n, Called(p), EMPTY, Request(n, 2), Acknowledged(), EMPTY);
  }

  lemma ReachReturned(s: Sys, n: Nonce, v: Value, a: Addr)
    requires Init(s) && n in s.peers
    ensures Reaches(AllTimely, s, With(s.peers, n, Returned(v, a), Holding(a, Buffer(n, 1, v))))
  {
    ReachAcknowledged(s, n);
    assert Finished(Acknowledged(), 1, v, a) == Returned(v, a) by {
      AddReplyAt(Acknowledged().list, 1, a, 0);
      assert {1, 2} - {1} == {2} && map[][1 := v] == map[1 := v] && [] + [Sending(1, a)] == [Sending(1, a)];
    }
    Move(AllTimely, s, s.peers, n, Acknowledged(), EMPTY, Finish(n, 1, v, a), Returned(v, a),
        Holding(a, Buffer(n, 1, v)));
  }

  lemma FreeReturned(n: Nonce, v: Value, a: Addr)
    ensures var p := Returned(v, a);
            && FreeAcked(Holding(a, Buffer(n, 1, v)), p.list, 1) == EMPTY
                && FreeAcked(EMPTY, p.list, 1) == Heap(map[], true)
            && Requested(p, 2) == p
  {
    var p, h := Returned(v, a), Holding(a, Buffer(n, 1, v));
    assert p.list[1..] == [Entry(2, false, None)];
    assert Free(h, Some(a)) == EMPTY by { assert h.live - {a} == map[]; }
    FreeNothing(p.list[1..], EMPTY, 1);
    FreeNothing(p.list[1..], Heap(map[], true), 1);
    assert Trim(p.list, 1) == [Entry(1, false, None), Entry(2, false, None)];
    FindAt(Trim(p.list, 1), 2, 1);
  }

  /** The request of the second call arrives again: the first reply is freed and the entry still refers to it. */
  lemma ReachDangling(s: Sys, n: Nonce, v: Value, a: Addr)
    requires Init(s) && n in s.peers
    ensures Reaches(AllTimely, s, With(s.peers, n, Returned(v, a), EMPTY))
  {
    ReachReturned(s, n, v, a);
    FreeReturned(n, v, a);
    Move(AllTimely, s, s.peers, n, Returned(v, a), Holding(a, Buffer(n, 1, v)), Request(n, 2), Returned(v, a), EMPTY);
  }

  /** A call that its deadline ends makes the server refer to memory that was freed, and free it twice, although every
      reply is sent in time. */
  lemma DeadlineFreesTwice(s: Sys, n: Nonce, v: Value, a: Addr)
    requires Init(s) && n in s.peers
    ensures exists t :: Reaches(AllTimely, s, t) && !t.heap.fault && n in t.peers && !Sound(t.peers[n].list, t.heap)
    ensures exists t :: Reaches(AllTimely, s, t) && t.heap.fault
  {
    ReachDangling(s, n, v, a);
    FreeReturned(n, v, a);
    var t := With(s.peers, n, Returned(v, a), EMPTY);
    assert n in t.peers && !Sound(t.peers[n].list, t.heap) by { assert t.peers[n].list[0].buf.value !in t.heap.live; }
    Go(AllTimely, s, t, Request(n, 2), Apply(t, Request(n, 2)));
    assert Apply(t, Request(n, 2)).heap.fault;
  }

  /** The second reply has taken the memory of the first, and the third request has freed it through the first entry. */
  function Shared(v: Value, u: Value, a: Addr): Peer {
    Returned(v, a).(clt := Client(4, [1], map[2 := None, 3 := None]), acks := map[1 := 0, 2 := 1, 3 := 1],
                    list := [Entry(1, false, None), Entry(2, true, Some(a)), Entry(3, false, None)], jobs := {3},
                    execs := [1, 2, 3], results := map[1 := v, 2 := u], sends := [Sending(1, a), Sending(2, a)])
  }

  lemma SharedFrom(n: Nonce, v: Value, u: Value, a: Addr)
    ensures var p := Called(Finished(Returned(v, a), 2, u, a));
            3 in p.acks && p.acks[3] == 1 && Requested(p, 3) == Shared(v, u, a)
            && FreeAcked(Holding(a, Buffer(n, 2, u)), p.list, 1) == EMPTY
  {
    var p, h := Called(Finished(Returned(v, a), 2, u, a)), Holding(a, Buffer(n, 2, u));
    var e1, e2 := Entry(1, true, Some(a)), Entry(2, true, Some(a));
    AddReplyAt(Returned(v, a).list, 2, a, 1);
    assert p.list == [e1, e2] && p.list[1..] == [e2];
    assert p.acks == map[1 := 0, 2 := 1, 3 := 1] && p.clt.calls == map[2 := None, 3 := None];
    assert p.jobs == {} && {} + {3} == {3} && p.execs + [3] == [1, 2, 3];
    assert p.results == map[1 := v, 2 := u] && p.sends == [Sending(1, a), Sending(2, a)];
    assert Trim(p.list, 1) == [Entry(1, false, None), e2];
    FindAt(Trim(p.list, 1), 3, 2);
    assert Trim(p.list, 1) + [Entry(3, false, None)] == Shared(v, u, a).list;
    assert Free(h, Some(a)) == EMPTY by { assert h.live - {a} == map[]; }
    FreeNothing([e2], EMPTY, 1);
  }

  lemma ReachShared(s: Sys, n: Nonce, v: Value, u: Value, a: Addr)
    requires Init(s) && n in s.peers
    ensures Reaches(AllTimely, s, With(s.peers, n, Shared(v, u, a), EMPTY))
  {
    var k, h := AllTimely, Holding(a, Buffer(n, 2, u));
    ReachDangling(s, n, v, a);
    SharedFrom(n, v, u, a);
    var p := Finished(Returned(v, a), 2, u, a);
    Move(k, s, s.peers, n, Returned(v, a), EMPTY, Finish(n, 2, u, a), p, h);
    Move(k, s, s.peers, n, p, h, Call(n), Called(p), h);
    Move(k, s, s.peers, n, Called(p), h, Request(n, 3), Shared(v, u, a), EMPTY);
  }

  /** After a deadline of its client's first call, the caller of the second one takes what another client's second call
      produced instead of what its own did. Nothing is freed twice or read after it was freed, and every reply is sent
      in time. */
  lemma DeadlineGivesWrongAnswer(s: Sys, n: Nonce, m: Nonce, v: Value, u: Value, w: Value, a: Addr)
    requires Init(s) && n in s.peers && m in s.peers && m != n
    ensures exists t :: Reaches(AllTimely, s, t) && !t.heap.fault && !t.misread && n in t.peers
              && 2 in t.peers[n].answers && t.peers[n].answers[2] == Ok(w)
              && 2 in t.peers[n].results && t.peers[n].results[2] == u
  {
    ReachShared(s, n, v, u, a);
    TakesSecond(AllTimely, s, n, Shared(v, u, a), m, w, a, 1);
  }
}
