/**
 Remote calls from end to end: any number of clients with distinct non-zero nonces, one server, and a network that
 loses, repeats and reorders. A request once sent may arrive any number of times, at any later moment; so may a reply.
 A server thread looks up or records a reply in one step and sends it in a later one, without the mutex.
 */
module RpcSystem {
  import opened Basics
  import opened Rpc

  type Nonce = nat

  datatype Reply = Reply(xid: Xid, ret: Ret)

  /** A server thread is about to send the reply of a call from this buffer. */
  datatype Sending = Sending(xid: Xid, addr: Addr)

  /** Everything about one client: the client itself, its messages, and what the server does for it. `trimmed` is the
      greatest acknowledgement in a request handled as new. `done` are the calls the client has completed, `execs` the
      handlers started for it, `results` what finished handlers produced and `answers` what its callers took; they
      only record what happened. */
  datatype Peer = Peer(
    clt: Client,
    acks: map<Xid, Xid>,
    replies: set<Reply>,
    list: seq<Entry>,
    jobs: set<Xid>,
    sends: seq<Sending>,
    trimmed: Xid,
    done: set<Xid>,
    execs: seq<Xid>,
    results: map<Xid, Value>,
    answers: map<Xid, Ret>)

  /** `misread` says that a reply was sent from memory that held no recorded reply: memory that was freed, or that
      has been given since to something else, such as a reply that a handler is still writing. */
  datatype Sys = Sys(heap: Heap, peers: map<Nonce, Peer>, misread: bool)

  datatype Action =
    | Call(n: Nonce)
    | Request(n: Nonce, xid: Xid)
    | Finish(n: Nonce, xid: Xid, v: Value, a: Addr)
    | SendReply(n: Nonce, i: nat, noise: Reply)
    | Got(n: Nonce, reply: Reply)
    | End(n: Nonce, xid: Xid)

  /** What the code allows: a request that was sent reaches the server, a handler returns and its reply is put into
      unused memory, a thread sends, a reply that was sent reaches the client, a call ends. */
  predicate Possible(s: Sys, act: Action) {
    && act.n in s.peers
    && var p := s.peers[act.n];
       match act
       case Call(_) => p.clt.window != []
       case Request(_, x) => x in p.acks
       case Finish(_, x, _, a) => x in p.jobs && a !in s.heap.live
       case SendReply(_, i, _) => i < |p.sends|
       case Got(_, r) => r in p.replies && p.clt.window != []
       case End(_, x) => x in p.clt.calls && p.clt.window != []
  }

  /** A call ends with its reply, not by a deadline or a cancel. */
  predicate Patient(s: Sys, act: Action)
    requires Possible(s, act)
  {
    act.End? ==> s.peers[act.n].clt.calls[act.xid].Some?
  }

  /** A reply is sent before a request that acknowledges it is handled as new. */
  predicate Timely(s: Sys, act: Action)
    requires Possible(s, act)
  {
    act.SendReply? ==> s.peers[act.n].sends[act.i].xid > s.peers[act.n].trimmed
  }

  /** A handler returns before a request that acknowledges its call is handled as new. */
  predicate Prompt(s: Sys, act: Action)
    requires Possible(s, act)
  {
    act.Finish? ==> act.xid > s.peers[act.n].trimmed
  }

  /** A client is sent replies only to calls it has made. */
  predicate Sane(s: Sys, act: Action)
    requires Possible(s, act)
  {
    act.Got? ==> act.reply.xid in s.peers[act.n].acks
  }

  // ------------------------------------------------------------------ steps of one peer

  function Called(p: Peer): Peer
    requires p.clt.window != []
  {
    p.(clt := Begun(p.clt), acks := p.acks[p.clt.next := p.clt.window[0]])
  }

  function Max(a: Xid, b: Xid): Xid {
    if a < b then b else a
  }

  function Requested(p: Peer, x: Xid): Peer
    requires x in p.acks
  {
    var ack := p.acks[x];
    var b := Handed(p.list, x, ack);
    var q := p.(list := Checked(p.list, x, ack));
    match Check(p.list, x, ack)
    case NEW => q.(jobs := p.jobs + {x}, execs := p.execs + [x], trimmed := Max(p.trimmed, ack))
    case INPROGRESS => q
    case DONE => if b.Some? then q.(sends := p.sends + [Sending(x, b.value)]) else q
    case FORGOTTEN => q.(replies := p.replies + {Reply(x, AtMostOnceFailure)})
  }

  function Finished(p: Peer, x: Xid, v: Value, a: Addr): Peer {
    p.(list := AddReply(p.list, x, a), jobs := p.jobs - {x}, results := p.results[x := v],
        sends := p.sends + [Sending(x, a)])
  }

  /** The bytes of the buffer, whatever they are now, with the id that its header has: where no recorded reply is, any
      reply at all. */
  function Sent(p: Peer, h: Heap, i: nat, noise: Reply): Peer
    requires i < |p.sends|
  {
    var a := p.sends[i].addr;
    p.(sends := RemoveAt(p.sends, i),
       replies := p.replies + {if a in h.live then Reply(h.live[a].xid, Ok(h.live[a].value)) else noise})
  }

  function Received(p: Peer, r: Reply): Peer
    requires p.clt.window != []
  {
    p.(clt := Taken(p.clt, r.xid, r.ret), done := p.done + {r.xid},
       answers := if r.xid in p.clt.calls && p.clt.calls[r.xid].None? then p.answers[r.xid := r.ret] else p.answers)
  }

  function Ended(p: Peer, x: Xid): Peer
    requires p.clt.window != []
  {
    p.(clt := Left(p.clt, x), done := p.done + {x})
  }

  function Apply(s: Sys, act: Action): Sys
    requires Possible(s, act)
  {
    var n := act.n;
    var p := s.peers[n];
    match act
    case Call(_) => s.(peers := s.peers[n := Called(p)])
    case Request(_, x) => s.(heap := FreeAcked(s.heap, p.list, p.acks[x]), peers := s.peers[n := Requested(p, x)])
    case Finish(_, x, v, a) =>
      s.(heap := s.heap.(live := s.heap.live[a := Buffer(n, x, v)]), peers := s.peers[n := Finished(p, x, v, a)])
    case SendReply(_, i, noise) =>
      s.(peers := s.peers[n := Sent(p, s.heap, i, noise)], misread := s.misread || p.sends[i].addr !in s.heap.live)
    case Got(_, r) => s.(peers := s.peers[n := Received(p, r)])
    case End(_, x) => s.(peers := s.peers[n := Ended(p, x)])
  }

  const NEW_PEER := Peer(Client(1, [0], map[]), map[], {}, [], {}, [], 0, {}, [], map[], map[])

  ghost predicate Init(s: Sys) {
    s.heap == Heap(map[], false) && !s.misread && forall n | n in s.peers :: s.peers[n] == NEW_PEER
  }

  ghost predicate PossibleRun(s: Sys, acts: seq<Action>)
    decreases |acts|
  {
    acts == [] || (Possible(s, acts[0]) && PossibleRun(Apply(s, acts[0]), acts[1..]))
  }

  ghost predicate SaneRun(s: Sys, acts: seq<Action>)
    decreases |acts|
  {
    acts == [] || (Possible(s, acts[0]) && Sane(s, acts[0]) && SaneRun(Apply(s, acts[0]), acts[1..]))
  }

  ghost predicate PatientRun(s: Sys, acts: seq<Action>)
    decreases |acts|
  {
    acts == [] || (Possible(s, acts[0]) && Patient(s, acts[0]) && PatientRun(Apply(s, acts[0]), acts[1..]))
  }

  ghost predicate TimelyRun(s: Sys, acts: seq<Action>)
    decreases |acts|
  {
    acts == [] || (Possible(s, acts[0]) && Timely(s, acts[0]) && TimelyRun(Apply(s, acts[0]), acts[1..]))
  }

  ghost predicate PromptRun(s: Sys, acts: seq<Action>)
    decreases |acts|
  {
    acts == [] || (Possible(s, acts[0]) && Prompt(s, acts[0]) && PromptRun(Apply(s, acts[0]), acts[1..]))
  }

  ghost function After(s: Sys, acts: seq<Action>): Sys
    decreases |acts|
  {
    if acts == [] || !Possible(s, acts[0]) then s else After(Apply(s, acts[0]), acts[1..])
  }

  // ------------------------------------------------------------- looking up the list

  lemma {:induction false} FindTrim(q: seq<Entry>, ack: Xid, x: Xid)
    ensures Find(Trim(q, ack), x) == match Find(q, x) case None => None case Some(e) => Some(TrimEntry(e, ack))
  {
    if q != [] {
      FindTrim(q[1..], ack, x);
      assert Trim(q, ack)[1..] == Trim(q[1..], ack);
    }
  }

  lemma {:induction false} FindSnoc(q: seq<Entry>, e: Entry, x: Xid)
    ensures Find(q + [e], x) == if Find(q, x).Some? then Find(q, x) else if e.xid == x then Some(e) else None
  {
    if q != [] {
      FindSnoc(q[1..], e, x);
      assert (q + [e])[0] == q[0] && (q + [e])[1..] == q[1..] + [e];
    }
  }

  lemma {:induction false} FindAdded(q: seq<Entry>, y: Xid, a: Addr, x: Xid)
    ensures Find(AddReply(q, y, a), x)
            == if x == y && Find(q, x).Some? then Some(Entry(x, true, Some(a))) else Find(q, x)
  {
    if q != [] {
      FindAdded(q[1..], y, a, x);
      assert q[0].xid != y ==> AddReply(q, y, a)[1..] == AddReply(q[1..], y, a);
    }
  }

  ghost predicate DistinctXids(q: seq<Entry>) {
    forall i, j | 0 <= i < j < |q| :: q[i].xid != q[j].xid
  }

  lemma {:induction false} AddedXids(q: seq<Entry>, y: Xid, a: Addr)
    ensures var r := AddReply(q, y, a); |r| == |q| && forall i | 0 <= i < |q| :: r[i].xid == q[i].xid
  {
    if q != [] { AddedXids(q[1..], y, a); }
  }

  lemma FindDistinct(q: seq<Entry>, i: nat)
    requires DistinctXids(q) && i < |q|
    ensures Find(q, q[i].xid) == Some(q[i])
  {
    FindAt(q, q[i].xid, i);
  }

  /** What the check answers and leaves, by lookups. */
  lemma CheckBy(q: seq<Entry>, x: Xid, ack: Xid, y: Xid)
    ensures Check(q, x, ack).NEW? <==> Find(q, x) == None
    ensures Find(q, x).Some? && ack < x ==> Check(q, x, ack) == if Find(q, x).value.present then DONE else INPROGRESS
    ensures ack < x ==> Handed(q, x, ack) == if Find(q, x).Some?
            && Find(q, x).value.present then Find(q, x).value.buf else None
    ensures Find(Checked(q, x, ack), y) ==
            if Find(q, x).Some? then Find(q, y)
            else if y == x then Some(Entry(x, false, None))
            else match Find(q, y) case None => None case Some(e) => Some(TrimEntry(e, ack))
  {
    FindTrim(q, ack, x);
    FindTrim(q, ack, y);
    FindSnoc(Trim(q, ack), Entry(x, false, None), y);
  }

  // ------------------------------------------------------------- what every run keeps

  /** The list, the handlers started and running, and their results agree about the call `x`. */
  ghost predicate EntryOk(p: Peer, x: Xid) {
    match Find(p.list, x)
    case None => x !in p.jobs && x !in p.results && x !in p.execs
    case Some(e) =>
      && x in p.execs && x in p.acks && e.present == e.buf.Some?
      && (x in p.jobs <==> x !in p.results) && (x in p.jobs ==> !e.present)
  }

  ghost predicate Core(p: Peer) {
    DistinctXids(p.list) && Distinct(p.execs) && forall x :: EntryOk(p, x)
  }

  lemma CheckedDistinct(q: seq<Entry>, x: Xid, ack: Xid)
    requires DistinctXids(q) && Find(q, x) == None
    ensures DistinctXids(Trim(q, ack) + [Entry(x, false, None)])
  {
    forall i | 0 <= i < |q| ensures q[i].xid != x {
      assert q[i] in q;
    }
  }

  lemma StartedEntries(p: Peer, q: Peer, x: Xid, y: Xid)
    requires x in p.acks && Find(p.list, x) == None && EntryOk(p, x) && EntryOk(p, y)
    requires q.list == Checked(p.list, x, p.acks[x]) && q.jobs == p.jobs + {x} && q.execs == p.execs + [x]
    requires q.results == p.results && q.acks == p.acks
    ensures EntryOk(q, y)
  {
    CheckBy(p.list, x, p.acks[x], y);
  }

  lemma RequestedCore(p: Peer, x: Xid)
    requires Core(p) && x in p.acks
    ensures Core(Requested(p, x))
  {
    var q := Requested(p, x);
    assert EntryOk(p, x);
    CheckBy(p.list, x, p.acks[x], x);
    if Find(p.list, x) == None {
      forall y ensures EntryOk(q, y) {
        assert EntryOk(p, y);
        StartedEntries(p, q, x, y);
      }
      CheckedDistinct(p.list, x, p.acks[x]);
    } else {
      forall y ensures EntryOk(q, y) { assert EntryOk(p, y); }
    }
  }

  lemma FinishedCore(p: Peer, x: Xid, v: Value, a: Addr)
    requires Core(p) && x in p.jobs
    ensures Core(Finished(p, x, v, a))
  {
    var q := Finished(p, x, v, a);
    assert EntryOk(p, x);
    AddedXids(p.list, x, a);
    forall y ensures EntryOk(q, y) {
      assert EntryOk(p, y);
      FindAdded(p.list, x, a, y);
    }
  }

  lemma SameCore(p: Peer, q: Peer)
    requires Core(p) && q.list == p.list && q.jobs == p.jobs && q.execs == p.execs && q.results == p.results
    requires p.acks.Keys <= q.acks.Keys
    ensures Core(q)
  {
    forall x ensures EntryOk(q, x) { assert EntryOk(p, x); }
  }

  /** Some handler for a call with this id, of any client, produced the value. */
  ghost predicate SomeProduced(s: Sys, x: Xid, v: Value) {
    exists m :: m in s.peers && x in s.peers[m].results && s.peers[m].results[x] == v
  }

  /** Every buffer has what a handler produced for the call it names; so does every reply sent and taken. */
  ghost predicate Truthful(s: Sys) {
    TruthfulHeap(s) && TruthfulReplies(s) && TruthfulAnswers(s)
  }

  ghost predicate TruthfulHeap(s: Sys) {
    forall a | a in s.heap.live :: SomeProduced(s, s.heap.live[a].xid, s.heap.live[a].value)
  }

  ghost predicate TruthfulReplies(s: Sys) {
    forall n, r | n in s.peers && r in s.peers[n].replies && r.ret.Ok? :: SomeProduced(s, r.xid, r.ret.v)
  }

  ghost predicate TruthfulAnswers(s: Sys) {
    forall n, x | n in s.peers && x in s.peers[n].answers && s.peers[n].answers[x].Ok? ::
        SomeProduced(s, x, s.peers[n].answers[x].v)
  }

  ghost predicate AllCore(s: Sys) {
    (forall n | n in s.peers :: Core(s.peers[n])) && (!s.misread ==> Truthful(s))
  }

  lemma {:induction false} FreeShrinks(q: seq<Entry>, h: Heap, ack: Xid)
    ensures var h' := FreeAcked(h, q, ack); forall a: Addr | a in h'.live :: a in h.live && h'.live[a] == h.live[a]
    decreases |q|
  {
    if q != [] { FreeShrinks(q[1..], if q[0].xid <= ack then Free(h, q[0].buf) else h, ack); }
  }

  /** Results are never lost or changed. */
  ghost predicate Grows(s: Sys, t: Sys) {
    forall m | m in s.peers :: m in t.peers
      && forall x | x in s.peers[m].results :: x in t.peers[m].results && t.peers[m].results[x] == s.peers[m].results[x]
  }

  lemma SomeGrows(s: Sys, t: Sys, x: Xid, v: Value)
    requires Grows(s, t) && SomeProduced(s, x, v)
    ensures SomeProduced(t, x, v)
  {
    var m :| m in s.peers && x in s.peers[m].results && s.peers[m].results[x] == v;
    assert m in t.peers;
  }

  lemma StepGrows(s: Sys, act: Action)
    requires AllCore(s) && Possible(s, act)
    ensures Grows(s, Apply(s, act))
  {
    if act.Finish? { assert EntryOk(s.peers[act.n], act.xid); }
  }

  lemma HeapKept(s: Sys, t: Sys)
    requires TruthfulHeap(s) && Grows(s, t)
    requires forall a | a in t.heap.live :: a in s.heap.live && t.heap.live[a] == s.heap.live[a]
    ensures TruthfulHeap(t)
  {
    forall a | a in t.heap.live ensures SomeProduced(t, t.heap.live[a].xid, t.heap.live[a].value) {
      SomeGrows(s, t, s.heap.live[a].xid, s.heap.live[a].value);
    }
  }

  lemma RepliesKept(s: Sys, t: Sys)
    requires TruthfulReplies(s) && Grows(s, t) && t.peers.Keys == s.peers.Keys
    requires forall n, r | n in s.peers && r in t.peers[n].replies && r.ret.Ok? ::
               r in s.peers[n].replies || SomeProduced(s, r.xid, r.ret.v)
    ensures TruthfulReplies(t)
  {
    forall n, r | n in t.peers && r in t.peers[n].replies && r.ret.Ok? ensures SomeProduced(t, r.xid, r.ret.v) {
      SomeGrows(s, t, r.xid, r.ret.v);
    }
  }

  lemma AnswersKept(s: Sys, t: Sys)
    requires TruthfulAnswers(s) && Grows(s, t) && t.peers.Keys == s.peers.Keys
    requires forall n | n in s.peers :: t.peers[n].answers == s.peers[n].answers
    ensures TruthfulAnswers(t)
  {
    forall n, x | n in t.peers && x in t.peers[n].answers && t.peers[n].answers[x].Ok?
      ensures SomeProduced(t, x, t.peers[n].answers[x].v)
    {
      SomeGrows(s, t, x, s.peers[n].answers[x].v);
    }
  }

  lemma RequestedReplies(p: Peer, x: Xid)
    requires x in p.acks
    ensures Requested(p, x).answers == p.answers
    ensures forall r | r in Requested(p, x).replies && r.ret.Ok? :: r in p.replies
  {}

  lemma TruthfulRequest(s: Sys, n: Nonce, x: Xid)
    requires Truthful(s) && Possible(s, Request(n, x)) && Grows(s, Apply(s, Request(n, x)))
    ensures Truthful(Apply(s, Request(n, x)))
  {
    var t := Apply(s, Request(n, x));
    RequestedReplies(s.peers[n], x);
    FreeShrinks(s.peers[n].list, s.heap, s.peers[n].acks[x]);
    HeapKept(s, t);
    RepliesKept(s, t);
    AnswersKept(s, t);
  }

  lemma TruthfulFinish(s: Sys, n: Nonce, x: Xid, v: Value, a: Addr)
    requires Truthful(s) && Possible(s, Finish(n, x, v, a)) && Grows(s, Apply(s, Finish(n, x, v, a)))
    ensures Truthful(Apply(s, Finish(n, x, v, a)))
  {
    var t := Apply(s, Finish(n, x, v, a));
    assert SomeProduced(t, x, v) by { assert n in t.peers && x in t.peers[n].results; }
    forall b | b in t.heap.live ensures SomeProduced(t, t.heap.live[b].xid, t.heap.live[b].value) {
      if b != a { SomeGrows(s, t, s.heap.live[b].xid, s.heap.live[b].value); }
    }
    RepliesKept(s, t);
    AnswersKept(s, t);
  }

  lemma TruthfulSend(s: Sys, n: Nonce, i: nat, noise: Reply)
    requires Truthful(s) && Possible(s, SendReply(n, i, noise)) && Grows(s, Apply(s, SendReply(n, i, noise)))
    requires s.peers[n].sends[i].addr in s.heap.live
    ensures Truthful(Apply(s, SendReply(n, i, noise)))
  {
    var t := Apply(s, SendReply(n, i, noise));
    HeapKept(s, t);
    RepliesKept(s, t);
    AnswersKept(s, t);
  }

  lemma AnswerTaken(s: Sys, t: Sys, n: Nonce, r: Reply)
    requires TruthfulAnswers(s) && TruthfulReplies(s) && Grows(s, t) && n in s.peers && r in s.peers[n].replies
    requires t.peers.Keys == s.peers.Keys && forall m | m in s.peers
             && m != n :: t.peers[m].answers == s.peers[m].answers
    requires t.peers[n].answers == s.peers[n].answers || t.peers[n].answers == s.peers[n].answers[r.xid := r.ret]
    ensures TruthfulAnswers(t)
  {
    forall m, x | m in t.peers && x in t.peers[m].answers && t.peers[m].answers[x].Ok?
      ensures SomeProduced(t, x, t.peers[m].answers[x].v)
    {
      SomeGrows(s, t, x, t.peers[m].answers[x].v);
    }
  }

  lemma TruthfulGot(s: Sys, n: Nonce, r: Reply)
    requires Truthful(s) && Possible(s, Got(n, r)) && Grows(s, Apply(s, Got(n, r)))
    ensures Truthful(Apply(s, Got(n, r)))
  {
    var t := Apply(s, Got(n, r));
    HeapKept(s, t);
    RepliesKept(s, t);
    AnswerTaken(s, t, n, r);
  }

  lemma TruthfulCaller(s: Sys, act: Action)
    requires Truthful(s) && Possible(s, act) && (act.Call? || act.End?) && Grows(s, Apply(s, act))
    ensures Truthful(Apply(s, act))
  {
    var t := Apply(s, act);
    HeapKept(s, t);
    RepliesKept(s, t);
    AnswersKept(s, t);
  }

  lemma StepTruthful(s: Sys, act: Action)
    requires AllCore(s) && Possible(s, act) && !Apply(s, act).misread
    ensures Truthful(Apply(s, act))
  {
    StepGrows(s, act);
    match act
    case Request(n, x) => TruthfulRequest(s, n, x);
    case Finish(n, x, v, a) => TruthfulFinish(s, n, x, v, a);
    case SendReply(n, i, noise) => TruthfulSend(s, n, i, noise);
    case Got(n, r) => TruthfulGot(s, n, r);
    case Call(_) => TruthfulCaller(s, act);
    case End(_, _) => TruthfulCaller(s, act);
  }

  lemma StepCore(s: Sys, act: Action)
    requires AllCore(s) && Possible(s, act)
    ensures AllCore(Apply(s, act))
  {
    var p := s.peers[act.n];
    if !Apply(s, act).misread { StepTruthful(s, act); }
    assert Core(p);
    match act
    case Request(_, x) => RequestedCore(p, x);
    case Finish(_, x, v, a) => FinishedCore(p, x, v, a);
    case Call(_) => SameCore(p, Called(p));
    case SendReply(_, i, noise) => SameCore(p, Sent(p, s.heap, i, noise));
    case Got(_, r) => SameCore(p, Received(p, r));
    case End(_, x) => SameCore(p, Ended(p, x));
  }

  lemma InitCore(s: Sys)
    requires Init(s)
    ensures AllCore(s)
  {}

  lemma {:induction false} RunCore(s: Sys, acts: seq<Action>)
    requires AllCore(s)
    ensures AllCore(After(s, acts))
    decreases |acts|
  {
    if acts != [] && Possible(s, acts[0]) {
      StepCore(s, acts[0]);
      RunCore(Apply(s, acts[0]), acts[1..]);
    }
  }

  /** In every run, whatever the network, the callers and the server's threads do, each call is executed at most once,
      and the assertion of `add_reply` holds when its handler returns. */
  lemma AtMostOnce(s: Sys, acts: seq<Action>, n: Nonce, i: nat, j: nat, x: Xid)
    requires Init(s) && n in After(s, acts).peers
    ensures var p := After(s, acts).peers[n];
            && (i < |p.execs| && j < |p.execs| && p.execs[i] == p.execs[j] ==> i == j)
            && (x in p.jobs ==> Find(p.list, x).Some? && Unanswered(p.list, x))
  {
    InitCore(s);
    RunCore(s, acts);
    assert EntryOk(After(s, acts).peers[n], x);
  }

  /** In every run whose sends all read some recorded reply, a value that a caller takes was produced by a handler for
      a call with its id, of this client or of another: only calls whose id another client uses too can get a wrong
      answer. */
  lemma AnswersHaveTheirId(s: Sys, acts: seq<Action>, n: Nonce, x: Xid)
    requires Init(s) && !After(s, acts).misread
    requires n in After(s, acts).peers && x in After(s, acts).peers[n].answers && After(s, acts).peers[n].answers[x].Ok?
    ensures SomeProduced(After(s, acts), x, After(s, acts).peers[n].answers[x].v)
  {
    InitCore(s);
    RunCore(s, acts);
  }

  // ---- the window, whatever replies arrive

  ghost predicate AllDone(done: set<Xid>, ack: Xid) {
    forall y | 0 < y <= ack :: y in done
  }

  ghost predicate WindowOk(p: Peer) {
    WindowFor(p.clt.window, p.done) && forall x | x in p.acks :: AllDone(p.done, p.acks[x])
  }

  lemma AnyUpdate(w: seq<Xid>, done: set<Xid>, x: Xid)
    requires WindowFor(w, done)
    ensures WindowFor(UpdateWindow(w, x), done + {x})
  {
    if x > 0 { WindowUpdated(w, done, x); }
  }

  lemma CompletedWindow(p: Peer, q: Peer, x: Xid)
    requires WindowOk(p) && q.acks == p.acks && q.done == p.done + {x}
    requires q.clt.window == UpdateWindow(p.clt.window, x)
    ensures WindowOk(q)
  {
    AnyUpdate(p.clt.window, p.done, x);
    forall z | z in q.acks ensures AllDone(q.done, q.acks[z]) { assert AllDone(p.done, p.acks[z]); }
  }

  lemma CalledWindow(p: Peer)
    requires WindowOk(p)
    ensures WindowOk(Called(p))
  {
    assert AllDone(p.done, p.clt.window[0]);
  }

  lemma StepWindow(s: Sys, act: Action)
    requires Possible(s, act) && WindowOk(s.peers[act.n])
    ensures WindowOk(Apply(s, act).peers[act.n])
  {
    var p := s.peers[act.n];
    match act
    case Call(_) => CalledWindow(p);
    case Got(_, r) => CompletedWindow(p, Received(p, r), r.xid);
    case End(_, x) => CompletedWindow(p, Ended(p, x), x);
    case Request(_, x) => assert Requested(p, x).done == p.done && Requested(p, x).acks == p.acks;
    case Finish(_, _, _, _) =>
    case SendReply(_, _, _) =>
  }

  lemma {:induction false} RunWindow(s: Sys, acts: seq<Action>)
    requires forall n | n in s.peers :: WindowOk(s.peers[n])
    ensures forall n | n in After(s, acts).peers :: WindowOk(After(s, acts).peers[n])
    decreases |acts|
  {
    if acts != [] && Possible(s, acts[0]) {
      StepWindow(s, acts[0]);
      RunWindow(Apply(s, acts[0]), acts[1..]);
    }
  }

  /** In every run a request acknowledges only ids that the client has completed or been sent a reply to. */
  lemma AcknowledgesSeen(s: Sys, acts: seq<Action>, n: Nonce, x: Xid, y: Xid)
    requires Init(s) && n in After(s, acts).peers && x in After(s, acts).peers[n].acks
    ensures 0 < y <= After(s, acts).peers[n].acks[x] ==> y in After(s, acts).peers[n].done
  {
    assert forall m | m in s.peers :: WindowOk(s.peers[m]);
    RunWindow(s, acts);
    assert WindowOk(After(s, acts).peers[n]);
    assert AllDone(After(s, acts).peers[n].done, After(s, acts).peers[n].acks[x]);
  }

  // ------------------------------------------------------- what runs with sane replies keep

  ghost predicate ClientOk(p: Peer) {
    var c := p.clt;
    && WindowFor(c.window, p.done) && 0 !in p.done && c.next > 0
    && (forall x :: x in p.acks <==> 0 < x < c.next)
    && (forall x | x in p.done :: x < c.next)
    && (forall x | x in p.acks :: p.acks[x] < x && p.acks[x] <= c.window[0])
    && (forall x | x in c.calls :: x in p.acks && (c.calls[x].None? ==> x !in p.done))
  }

  lemma CalledClient(p: Peer)
    requires ClientOk(p)
    ensures ClientOk(Called(p))
  {
    assert p.clt.window[0] < p.clt.next by { assert p.clt.window[0] > 0 ==> p.clt.window[0] in p.done; }
  }

  lemma CompletedClient(p: Peer, q: Peer, x: Xid)
    requires ClientOk(p) && x in p.acks && q.acks == p.acks && q.done == p.done + {x}
    requires q.clt.next == p.clt.next && q.clt.window == UpdateWindow(p.clt.window, x)
    requires forall y | y in q.clt.calls ::
               y in p.clt.calls && (q.clt.calls[y].None? ==> p.clt.calls[y].None? && y != x)
    ensures ClientOk(q)
  {
    WindowUpdated(p.clt.window, p.done, x);
  }

  ghost predicate AllClient(s: Sys) {
    forall n | n in s.peers :: ClientOk(s.peers[n])
  }

  lemma SameClient(p: Peer, q: Peer)
    requires ClientOk(p) && q.clt == p.clt && q.acks == p.acks && q.done == p.done
    ensures ClientOk(q)
  {}

  lemma PeerClient(p: Peer, s: Sys, act: Action)
    requires ClientOk(p) && Possible(s, act) && Sane(s, act) && p == s.peers[act.n]
    ensures ClientOk(Apply(s, act).peers[act.n])
  {
    match act
    case Call(_) => CalledClient(p);
    case Got(_, r) => CompletedClient(p, Received(p, r), r.xid);
    case End(_, x) => CompletedClient(p, Ended(p, x), x);
    case Request(_, x) => SameClient(p, Requested(p, x));
    case Finish(_, x, v, a) => SameClient(p, Finished(p, x, v, a));
    case SendReply(_, i, noise) => SameClient(p, Sent(p, s.heap, i, noise));
  }

  lemma StepClient(s: Sys, act: Action)
    requires AllClient(s) && Possible(s, act) && Sane(s, act)
    ensures AllClient(Apply(s, act))
  {
    PeerClient(s.peers[act.n], s, act);
  }

  lemma {:induction false} RunClient(s: Sys, acts: seq<Action>)
    requires AllClient(s) && SaneRun(s, acts)
    ensures AllClient(After(s, acts))
    decreases |acts|
  {
    if acts != [] {
      StepClient(s, acts[0]);
      RunClient(Apply(s, acts[0]), acts[1..]);
    }
  }

  /** If clients are sent replies only to calls they made, a request acknowledges less than its own id, less than every
      call that still waits, and only completed calls; so no request is answered with the at-most-once failure. */
  lemma AcknowledgesCompleted(s: Sys, acts: seq<Action>, n: Nonce, x: Xid, y: Xid)
    requires Init(s) && SaneRun(s, acts) && n in After(s, acts).peers && x in After(s, acts).peers[n].acks
    ensures var p := After(s, acts).peers[n];
            && p.acks[x] < x
            && (y in p.clt.calls && p.clt.calls[y].None? ==> p.acks[x] < y)
            && (0 < y <= p.acks[x] ==> y in p.done)
            && Check(p.list, x, p.acks[x]) != FORGOTTEN
  {
    assert AllClient(s);
    RunClient(s, acts);
    var p := After(s, acts).peers[n];
    assert ClientOk(p);
    CheckBy(p.list, x, p.acks[x], x);
  }

  // -------------------------------------------------- what runs with prompt handlers keep

  /** The reply of a finished call is kept exactly while it is not trimmed, in allocated memory, as produced. */
  ghost predicate KeptOk(n: Nonce, p: Peer, h: Heap, x: Xid) {
    && (x in p.results && Find(p.list, x).Some? ==> (Find(p.list, x).value.present <==> x > p.trimmed))
    && (x in p.results && Find(p.list, x).Some? && Find(p.list, x).value.buf.Some? ==>
          var a := Find(p.list, x).value.buf.value;
          a in h.live && h.live[a] == Buffer(n, x, p.results[x]))
  }

  /** What a request already executed acknowledges has been trimmed. */
  ghost predicate AckTrimmed(p: Peer, x: Xid) {
    x in p.acks && Find(p.list, x).Some? ==> p.acks[x] <= p.trimmed
  }

  /** An allocated buffer with a reply for this client is the one its entry refers to. */
  ghost predicate Referred(n: Nonce, p: Peer, h: Heap, a: Addr) {
    a in h.live && h.live[a].nonce == n ==> Find(p.list, h.live[a].xid) == Some(Entry(h.live[a].xid, true, Some(a)))
  }

  /** A thread about to send has the buffer of the entry, unless that was trimmed. */
  ghost predicate SendOk(p: Peer, d: Sending) {
    d.xid in p.results && (d.xid > p.trimmed ==> Find(p.list, d.xid) == Some(Entry(d.xid, true, Some(d.addr))))
  }

  /** What the server has for a client: the replies it keeps, their memory, and the threads about to send. */
  ghost predicate Stored(n: Nonce, p: Peer, h: Heap) {
    && Core(p)
    && (forall x | x in p.acks :: x < p.clt.next)
    && (forall x :: KeptOk(n, p, h, x) && AckTrimmed(p, x))
    && (forall a :: Referred(n, p, h, a))
    && (forall i | 0 <= i < |p.sends| :: SendOk(p, p.sends[i]))
  }

  /** The buffers for client `m` are the same. */
  ghost predicate SameFor(m: Nonce, h: Heap, h': Heap) {
    forall a: Addr :: (a in h.live && h.live[a].nonce == m <==> a in h'.live && h'.live[a].nonce == m)
                      && (a in h.live && h.live[a].nonce == m ==> h'.live[a] == h.live[a])
  }

  lemma OthersStored(m: Nonce, p: Peer, h: Heap, h': Heap)
    requires Stored(m, p, h) && SameFor(m, h, h')
    ensures Stored(m, p, h')
  {
    forall x ensures KeptOk(m, p, h', x) && AckTrimmed(p, x) { assert KeptOk(m, p, h, x); }
    forall a ensures Referred(m, p, h', a) { assert Referred(m, p, h, a); }
  }

  /** A step of the client, whatever replies it is given, keeps what the server has. */
  lemma ClientStored(n: Nonce, p: Peer, q: Peer, h: Heap)
    requires Stored(n, p, h) && q.list == p.list && q.jobs == p.jobs && q.execs == p.execs && q.results == p.results
    requires q.trimmed == p.trimmed && q.sends == p.sends && forall x | x in q.acks :: x < q.clt.next
    requires forall x | x in p.acks :: x in q.acks && q.acks[x] == p.acks[x]
    ensures Stored(n, q, h)
  {
    SameCore(p, q);
    forall x ensures KeptOk(n, q, h, x) && AckTrimmed(q, x) {
      assert KeptOk(n, p, h, x) && AckTrimmed(p, x) && EntryOk(p, x);
    }
    forall a ensures Referred(n, q, h, a) { assert Referred(n, p, h, a); }
    forall i | 0 <= i < |q.sends| ensures SendOk(q, q.sends[i]) { assert SendOk(p, p.sends[i]); }
  }

  /** A send reads its own reply exactly when the reply has not been trimmed. */
  lemma SendReads(n: Nonce, p: Peer, h: Heap, i: nat)
    requires Stored(n, p, h) && i < |p.sends|
    ensures var d := p.sends[i];
            && d.xid in p.results
            && (d.xid > p.trimmed <==> d.addr in h.live && h.live[d.addr] == Buffer(n, d.xid, p.results[d.xid]))
  {
    var d := p.sends[i];
    assert SendOk(p, d) && KeptOk(n, p, h, d.xid) && EntryOk(p, d.xid) && Referred(n, p, h, d.addr);
  }

  lemma SentStored(n: Nonce, p: Peer, h: Heap, i: nat, noise: Reply)
    requires Stored(n, p, h) && i < |p.sends|
    ensures Stored(n, Sent(p, h, i, noise), h)
  {
    var q := Sent(p, h, i, noise);
    SameCore(p, q);
    forall x ensures KeptOk(n, q, h, x) && AckTrimmed(q, x) { assert KeptOk(n, p, h, x) && AckTrimmed(p, x); }
    forall a ensures Referred(n, q, h, a) { assert Referred(n, p, h, a); }
    forall j | 0 <= j < |q.sends| ensures SendOk(q, q.sends[j]) {
      assert SendOk(p, p.sends[if j < i then j else j + 1]);
    }
  }

  // ---- a handler returns

  lemma FinishedKept(n: Nonce, p: Peer, h: Heap, x: Xid, v: Value, a: Addr, y: Xid)
    requires KeptOk(n, p, h, y) && AckTrimmed(p, y)
    requires x > p.trimmed && x !in p.results && Find(p.list, x).Some? && a !in h.live
    ensures KeptOk(n, Finished(p, x, v, a), h.(live := h.live[a := Buffer(n, x, v)]), y)
            && AckTrimmed(Finished(p, x, v, a), y)
  {
    FindAdded(p.list, x, a, y);
  }

  lemma FinishedStored(n: Nonce, p: Peer, h: Heap, x: Xid, v: Value, a: Addr)
    requires Stored(n, p, h) && x in p.jobs && x > p.trimmed && a !in h.live
    ensures Stored(n, Finished(p, x, v, a), h.(live := h.live[a := Buffer(n, x, v)]))
  {
    var q, h' := Finished(p, x, v, a), h.(live := h.live[a := Buffer(n, x, v)]);
    assert EntryOk(p, x);
    FinishedCore(p, x, v, a);
    forall y ensures KeptOk(n, q, h', y) && AckTrimmed(q, y) {
      assert KeptOk(n, p, h, y) && AckTrimmed(p, y);
      FinishedKept(n, p, h, x, v, a, y);
    }
    forall b ensures Referred(n, q, h', b) {
      assert Referred(n, p, h, b);
      if b in h'.live { FindAdded(p.list, x, a, h'.live[b].xid); }
    }
    forall i | 0 <= i < |q.sends| ensures SendOk(q, q.sends[i]) {
      assert i < |p.sends| ==> SendOk(p, p.sends[i]);
      FindAdded(p.list, x, a, q.sends[i].xid);
    }
  }

  // ---- a request at the server

  lemma {:induction false} FreeNothing(q: seq<Entry>, h: Heap, ack: Xid)
    requires NoneUpTo(q, ack)
    ensures FreeAcked(h, q, ack) == h
    decreases |q|
  {
    if q != [] {
      assert forall i | 0 <= i < |q[1..]| :: q[1..][i] == q[i + 1];
      FreeNothing(q[1..], h, ack);
    }
  }

  lemma StoredTrims(n: Nonce, p: Peer, h: Heap, ack: Xid)
    requires Stored(n, p, h) && ack <= p.trimmed
    ensures NoneUpTo(p.list, ack)
  {
    forall i | 0 <= i < |p.list| && p.list[i].xid <= ack ensures p.list[i].buf == None {
      FindDistinct(p.list, i);
      assert EntryOk(p, p.list[i].xid) && KeptOk(n, p, h, p.list[i].xid);
    }
  }

  /** Whatever the repeated request acknowledges, a buffer is handed out only while the reply is kept. */
  lemma HandedKept(p: Peer, x: Xid)
    requires x in p.acks && Find(p.list, x).Some? && Handed(p.list, x, p.acks[x]).Some?
    ensures Find(p.list, x).value.present && Handed(p.list, x, p.acks[x]) == Find(p.list, x).value.buf
  {
    FindTrim(p.list, p.acks[x], x);
  }

  lemma DuplicateStored(n: Nonce, p: Peer, h: Heap, x: Xid)
    requires Stored(n, p, h) && x in p.acks && Find(p.list, x).Some?
    ensures Stored(n, Requested(p, x), h) && FreeAcked(h, p.list, p.acks[x]) == h
  {
    var q := Requested(p, x);
    assert AckTrimmed(p, x) && EntryOk(p, x) && KeptOk(n, p, h, x);
    StoredTrims(n, p, h, p.acks[x]);
    FreeNothing(p.list, h, p.acks[x]);
    RequestedCore(p, x);
    CheckBy(p.list, x, p.acks[x], x);
    if Handed(p.list, x, p.acks[x]).Some? { HandedKept(p, x); }
    forall y ensures KeptOk(n, q, h, y) && AckTrimmed(q, y) { assert KeptOk(n, p, h, y) && AckTrimmed(p, y); }
    forall a ensures Referred(n, q, h, a) { assert Referred(n, p, h, a); }
    forall i | 0 <= i < |q.sends| ensures SendOk(q, q.sends[i]) {
      assert i < |p.sends| ==> SendOk(p, p.sends[i]);
    }
  }

  lemma StoredSound(n: Nonce, p: Peer, h: Heap)
    requires Stored(n, p, h)
    ensures Sound(p.list, h)
    ensures forall i | 0 <= i < |p.list| && p.list[i].buf.Some? ::
              h.live[p.list[i].buf.value].nonce == n && h.live[p.list[i].buf.value].xid == p.list[i].xid
  {
    forall i | 0 <= i < |p.list| && p.list[i].buf.Some?
      ensures var a := p.list[i].buf.value; a in h.live && h.live[a].nonce == n && h.live[a].xid == p.list[i].xid
    {
      FindDistinct(p.list, i);
      assert EntryOk(p, p.list[i].xid) && KeptOk(n, p, h, p.list[i].xid);
    }
  }

  /** Trimming for a client touches exactly its acknowledged buffers. */
  lemma TrimByTag(n: Nonce, p: Peer, h: Heap, ack: Xid)
    requires Stored(n, p, h)
    ensures var h' := FreeAcked(h, p.list, ack);
            && h'.fault == h.fault
            && forall a: Addr :: (a in h'.live <==> a in h.live && !(h.live[a].nonce == n && h.live[a].xid <= ack))
                                 && (a in h'.live ==> h'.live[a] == h.live[a])
  {
    StoredSound(n, p, h);
    TrimFrees(p.list, h, ack);
    forall a: Addr | a in h.live ensures Acked(p.list, ack, a) <==> h.live[a].nonce == n && h.live[a].xid <= ack {
      assert Referred(n, p, h, a);
      if h.live[a].nonce == n && h.live[a].xid <= ack {
        assert Entry(h.live[a].xid, true, Some(a)) in p.list;
      }
    }
  }

  lemma StartedKept(n: Nonce, p: Peer, h: Heap, h': Heap, x: Xid, y: Xid)
    requires x in p.acks && Find(p.list, x) == None && EntryOk(p, x) && EntryOk(p, y) && KeptOk(n, p, h, y)
             && AckTrimmed(p, y)
    requires forall a: Addr :: (a in h'.live <==> a in h.live && !(h.live[a].nonce == n && h.live[a].xid <= p.acks[x]))
                               && (a in h'.live ==> h'.live[a] == h.live[a])
    ensures KeptOk(n, Requested(p, x), h', y) && AckTrimmed(Requested(p, x), y)
  {
    CheckBy(p.list, x, p.acks[x], y);
  }

  lemma StartedStored(n: Nonce, p: Peer, h: Heap, x: Xid)
    requires Stored(n, p, h) && x in p.acks && Find(p.list, x) == None
    ensures var h' := FreeAcked(h, p.list, p.acks[x]); Stored(n, Requested(p, x), h') && h'.fault == h.fault
  {
    var q, ack := Requested(p, x), p.acks[x];
    var h' := FreeAcked(h, p.list, ack);
    RequestedCore(p, x);
    TrimByTag(n, p, h, ack);
    assert EntryOk(p, x);
    forall y ensures KeptOk(n, q, h', y) && AckTrimmed(q, y) {
      assert KeptOk(n, p, h, y) && AckTrimmed(p, y) && EntryOk(p, y);
      StartedKept(n, p, h, h', x, y);
    }
    forall a ensures Referred(n, q, h', a) {
      assert Referred(n, p, h, a);
      if a in h.live { CheckBy(p.list, x, ack, h.live[a].xid); }
    }
    forall i | 0 <= i < |q.sends| ensures SendOk(q, q.sends[i]) {
      assert SendOk(p, p.sends[i]) && EntryOk(p, p.sends[i].xid);
      CheckBy(p.list, x, ack, p.sends[i].xid);
    }
  }

  // ---- all peers together

  ghost predicate AllStored(s: Sys) {
    && !s.heap.fault
    && (forall n | n in s.peers :: Stored(n, s.peers[n], s.heap))
    && (forall a | a in s.heap.live :: s.heap.live[a].nonce in s.peers)
  }

  lemma ByPeer(s: Sys, t: Sys, n: Nonce, p: Peer)
    requires AllStored(s) && n in s.peers && t.peers == s.peers[n := p] && !t.heap.fault && Stored(n, p, t.heap)
    requires forall m | m in s.peers && m != n :: SameFor(m, s.heap, t.heap)
    requires forall a | a in t.heap.live :: t.heap.live[a].nonce in s.peers
    ensures AllStored(t)
  {
    forall m | m in t.peers ensures Stored(m, t.peers[m], t.heap) {
      if m != n { OthersStored(m, s.peers[m], s.heap, t.heap); }
    }
  }

  lemma StepDuplicate(s: Sys, n: Nonce, x: Xid)
    requires AllStored(s) && Possible(s, Request(n, x)) && Find(s.peers[n].list, x).Some?
    ensures AllStored(Apply(s, Request(n, x)))
  {
    var p := s.peers[n];
    DuplicateStored(n, p, s.heap, x) by { assert Stored(n, p, s.heap); }
    ByPeer(s, Apply(s, Request(n, x)), n, Requested(p, x));
  }

  lemma TrimSameFor(n: Nonce, p: Peer, h: Heap, ack: Xid, m: Nonce)
    requires Stored(n, p, h) && m != n
    ensures SameFor(m, h, FreeAcked(h, p.list, ack))
  {
    TrimByTag(n, p, h, ack);
  }

  lemma AllocSameFor(h: Heap, a: Addr, b: Buffer, m: Nonce)
    requires a !in h.live && b.nonce != m
    ensures SameFor(m, h, h.(live := h.live[a := b]))
  {}

  lemma StepStart(s: Sys, n: Nonce, x: Xid)
    requires AllStored(s) && Possible(s, Request(n, x)) && Find(s.peers[n].list, x) == None
    ensures AllStored(Apply(s, Request(n, x)))
  {
    var p := s.peers[n];
    var h' := FreeAcked(s.heap, p.list, p.acks[x]);
    StartedStored(n, p, s.heap, x) by { assert Stored(n, p, s.heap); }
    forall m | m in s.peers && m != n ensures SameFor(m, s.heap, h') {
      TrimSameFor(n, p, s.heap, p.acks[x], m);
    }
    forall a | a in h'.live ensures h'.live[a].nonce in s.peers {
      TrimByTag(n, p, s.heap, p.acks[x]);
    }
    ByPeer(s, Sys(h', s.peers[n := Requested(p, x)], s.misread), n, Requested(p, x));
  }

  lemma StepFinish(s: Sys, n: Nonce, x: Xid, v: Value, a: Addr)
    requires AllStored(s) && Possible(s, Finish(n, x, v, a)) && Prompt(s, Finish(n, x, v, a))
    ensures AllStored(Apply(s, Finish(n, x, v, a)))
  {
    var p := s.peers[n];
    var h' := s.heap.(live := s.heap.live[a := Buffer(n, x, v)]);
    FinishedStored(n, p, s.heap, x, v, a) by { assert Stored(n, p, s.heap); }
    forall m | m in s.peers && m != n ensures SameFor(m, s.heap, h') {
      AllocSameFor(s.heap, a, Buffer(n, x, v), m);
    }
    ByPeer(s, Sys(h', s.peers[n := Finished(p, x, v, a)], s.misread), n, Finished(p, x, v, a));
  }

  lemma StepSend(s: Sys, n: Nonce, i: nat, noise: Reply)
    requires AllStored(s) && Possible(s, SendReply(n, i, noise))
    ensures AllStored(Apply(s, SendReply(n, i, noise)))
  {
    var p := s.peers[n];
    SentStored(n, p, s.heap, i, noise) by { assert Stored(n, p, s.heap); }
    ByPeer(s, Apply(s, SendReply(n, i, noise)), n, Sent(p, s.heap, i, noise));
  }

  lemma StepStored(s: Sys, act: Action)
    requires AllStored(s) && Possible(s, act) && Prompt(s, act)
    ensures AllStored(Apply(s, act))
  {
    var n, t := act.n, Apply(s, act);
    var p := s.peers[n];
    match act
    case Call(_) =>
      ClientStored(n, p, Called(p), s.heap);
      ByPeer(s, t, n, Called(p));
    case Request(_, x) =>
      if Find(p.list, x).Some? { StepDuplicate(s, n, x); } else { StepStart(s, n, x); }
    case Finish(_, x, v, a) => StepFinish(s, n, x, v, a);
    case SendReply(_, i, noise) => StepSend(s, n, i, noise);
    case Got(_, r) =>
      ClientStored(n, p, Received(p, r), s.heap);
      ByPeer(s, t, n, Received(p, r));
    case End(_, x) =>
      ClientStored(n, p, Ended(p, x), s.heap);
      ByPeer(s, t, n, Ended(p, x));
  }

  lemma InitStored(s: Sys)
    requires Init(s)
    ensures AllStored(s)
  {}

  lemma {:induction false} RunStored(s: Sys, acts: seq<Action>)
    requires AllStored(s) && PromptRun(s, acts)
    ensures AllStored(After(s, acts))
    decreases |acts|
  {
    if acts != [] {
      StepStored(s, acts[0]);
      RunStored(Apply(s, acts[0]), acts[1..]);
    }
  }

  /** The server keeps no reply that a request handled as new has acknowledged. */
  ghost predicate KeepsUnacknowledged(s: Sys) {
    forall n | n in s.peers :: NoneUpTo(s.peers[n].list, s.peers[n].trimmed)
  }

  lemma StoredKeeps(s: Sys)
    requires AllStored(s)
    ensures KeepsUnacknowledged(s)
  {
    forall n | n in s.peers ensures NoneUpTo(s.peers[n].list, s.peers[n].trimmed) {
      StoredTrims(n, s.peers[n], s.heap, s.peers[n].trimmed);
    }
  }

  /** If every handler returns before a request that acknowledges its call is handled as new, then whatever callers,
      senders and the network do no buffer is freed twice; every kept reply is in memory of its own, as produced; only
      replies not yet acknowledged are kept; and nothing else is allocated. */
  lemma BuffersStayValid(s: Sys, acts: seq<Action>)
    requires Init(s) && PromptRun(s, acts)
    ensures var t := After(s, acts);
            && !t.heap.fault && KeepsUnacknowledged(t)
            && (forall n | n in t.peers :: Sound(t.peers[n].list, t.heap))
            && (forall n, x | n in t.peers :: KeptOk(n, t.peers[n], t.heap, x))
            && (forall a | a in t.heap.live :: t.heap.live[a].nonce in t.peers
                  && Find(t.peers[t.heap.live[a].nonce].list, t.heap.live[a].xid)
                     == Some(Entry(t.heap.live[a].xid, true, Some(a))))
  {
    InitStored(s);
    RunStored(s, acts);
    var t := After(s, acts);
    StoredKeeps(t);
    forall n | n in t.peers ensures Sound(t.peers[n].list, t.heap) {
      StoredSound(n, t.peers[n], t.heap);
    }
    forall a | a in t.heap.live ensures Referred(t.heap.live[a].nonce, t.peers[t.heap.live[a].nonce], t.heap, a) {
      assert Stored(t.heap.live[a].nonce, t.peers[t.heap.live[a].nonce], t.heap);
    }
  }

  // ------------------------------------------------------------ the exact conditions

  /** A send reads the reply it was given, still allocated and as produced. */
  ghost predicate ReadsItsReply(s: Sys, act: Action)
    requires Possible(s, act)
  {
    act.SendReply? ==>
      var p := s.peers[act.n];
      var d := p.sends[act.i];
      d.xid in p.results && d.addr in s.heap.live && s.heap.live[d.addr] == Buffer(act.n, d.xid, p.results[d.xid])
  }

  /** Every send of the run reads the reply it was given. */
  ghost predicate ReadsRun(s: Sys, acts: seq<Action>)
    decreases |acts|
  {
    acts == [] || (Possible(s, acts[0]) && ReadsItsReply(s, acts[0]) && ReadsRun(Apply(s, acts[0]), acts[1..]))
  }

  /** After every step of the run no acknowledged reply is kept. */
  ghost predicate KeepsRun(s: Sys, acts: seq<Action>)
    decreases |acts|
  {
    acts == [] || (Possible(s, acts[0]) && KeepsUnacknowledged(Apply(s, acts[0]))
                   && KeepsRun(Apply(s, acts[0]), acts[1..]))
  }

  lemma LateIsKept(s: Sys, n: Nonce, x: Xid, v: Value, a: Addr)
    requires AllStored(s) && Possible(s, Finish(n, x, v, a)) && x <= s.peers[n].trimmed
    ensures !KeepsUnacknowledged(Apply(s, Finish(n, x, v, a)))
  {
    var p := s.peers[n];
    assert Find(p.list, x).Some? by { assert Stored(n, p, s.heap) && EntryOk(p, x); }
    FindAdded(p.list, x, a, x);
    var e := Entry(x, true, Some(a));
    var i :| 0 <= i < |AddReply(p.list, x, a)| && AddReply(p.list, x, a)[i] == e;
    assert Apply(s, Finish(n, x, v, a)).peers[n].list[i] == e;
  }

  lemma {:induction false} RunKeepsExactly(s: Sys, acts: seq<Action>)
    requires AllStored(s) && PossibleRun(s, acts)
    ensures KeepsRun(s, acts) <==> PromptRun(s, acts)
    decreases |acts|
  {
    if acts != [] {
      var act := acts[0];
      if Prompt(s, act) {
        StepStored(s, act);
        StoredKeeps(Apply(s, act));
        RunKeepsExactly(Apply(s, act), acts[1..]);
      } else {
        LateIsKept(s, act.n, act.xid, act.v, act.a);
      }
    }
  }

  lemma {:induction false} RunReadsExactly(s: Sys, acts: seq<Action>)
    requires AllStored(s) && PromptRun(s, acts)
    ensures ReadsRun(s, acts) <==> TimelyRun(s, acts)
    decreases |acts|
  {
    if acts != [] {
      var act := acts[0];
      if act.SendReply? { SendReads(act.n, s.peers[act.n], s.heap, act.i); }
      StepStored(s, act);
      RunReadsExactly(Apply(s, act), acts[1..]);
    }
  }

  /** In every run: after each step no acknowledged reply is kept, if and only if every handler returns before a request
      that acknowledges its call is handled as new. */
  lemma KeepsExactly(s: Sys, acts: seq<Action>)
    requires Init(s) && PossibleRun(s, acts)
    ensures KeepsRun(s, acts) <==> PromptRun(s, acts)
  {
    InitStored(s);
    RunKeepsExactly(s, acts);
  }

  /** If handlers return so, each send reads the reply it was given if and only if every reply is sent before a request
      that acknowledges the call is handled as new. */
  lemma ReadsExactly(s: Sys, acts: seq<Action>)
    requires Init(s) && PromptRun(s, acts)
    ensures ReadsRun(s, acts) <==> TimelyRun(s, acts)
  {
    InitStored(s);
    RunReadsExactly(s, acts);
  }

  /** So in every run both are so if and only if both conditions hold. */
  lemma RepliesSafeExactly(s: Sys, acts: seq<Action>)
    requires Init(s) && PossibleRun(s, acts)
    ensures KeepsRun(s, acts) && ReadsRun(s, acts) <==> PromptRun(s, acts) && TimelyRun(s, acts)
  {
    KeepsExactly(s, acts);
    if PromptRun(s, acts) { ReadsExactly(s, acts); }
  }

  // ----------------------------- what runs with prompt handlers and timely sends keep

  ghost predicate Produced(p: Peer, x: Xid, ret: Ret) {
    x in p.results && ret == Ok(p.results[x])
  }

  ghost predicate MessagesOk(p: Peer) {
    && (forall r | r in p.replies :: Produced(p, r.xid, r.ret))
    && (forall x | x in p.clt.calls && p.clt.calls[x].Some? :: Produced(p, x, p.clt.calls[x].value))
    && (forall x | x in p.answers :: Produced(p, x, p.answers[x]))
  }

  /** The client's side: it has been sent only what was produced for it, and what is trimmed it has completed. */
  ghost predicate Served(p: Peer) {
    ClientOk(p) && MessagesOk(p) && p.trimmed <= p.clt.window[0]
  }

  ghost predicate AllServed(s: Sys) {
    forall n | n in s.peers :: Served(s.peers[n])
  }

  ghost predicate AllTidy(s: Sys) {
    AllStored(s) && AllServed(s) && !s.misread
  }

  lemma CalledServed(p: Peer)
    requires Served(p)
    ensures Served(Called(p))
  {
    CalledClient(p);
  }

  lemma RequestedServed(p: Peer, x: Xid)
    requires Served(p) && x in p.acks
    ensures Served(Requested(p, x))
  {
    CheckBy(p.list, x, p.acks[x], x);
    SameClient(p, Requested(p, x));
  }

  lemma FinishedServed(p: Peer, x: Xid, v: Value, a: Addr)
    requires Served(p) && x !in p.results
    ensures Served(Finished(p, x, v, a))
  {
    SameClient(p, Finished(p, x, v, a));
  }

  lemma SentServed(n: Nonce, p: Peer, h: Heap, i: nat, noise: Reply)
    requires Served(p) && Stored(n, p, h) && i < |p.sends| && p.sends[i].xid > p.trimmed
    ensures Served(Sent(p, h, i, noise)) && p.sends[i].addr in h.live
  {
    SendReads(n, p, h, i);
    SameClient(p, Sent(p, h, i, noise));
  }

  /** A reply that was sent is to a call that was made. */
  lemma RepliesSane(p: Peer, r: Reply)
    requires Served(p) && Core(p) && r in p.replies
    ensures r.xid in p.acks && Produced(p, r.xid, r.ret)
  {
    assert EntryOk(p, r.xid);
  }

  lemma ReceivedServed(p: Peer, r: Reply)
    requires Served(p) && Core(p) && r in p.replies
    ensures Served(Received(p, r))
  {
    RepliesSane(p, r);
    CompletedClient(p, Received(p, r), r.xid);
    WindowUpdated(p.clt.window, p.done, r.xid);
  }

  lemma EndedServed(p: Peer, x: Xid)
    requires Served(p) && x in p.clt.calls
    ensures Served(Ended(p, x))
  {
    CompletedClient(p, Ended(p, x), x);
    WindowUpdated(p.clt.window, p.done, x);
  }

  lemma StepServed(n: Nonce, p: Peer, s: Sys, act: Action)
    requires Stored(n, p, s.heap) && Served(p) && Possible(s, act) && Timely(s, act) && n == act.n && p == s.peers[n]
    ensures Served(Apply(s, act).peers[n]) && Apply(s, act).misread == s.misread
  {
    match act
    case Call(_) => CalledServed(p);
    case Request(_, x) => RequestedServed(p, x);
    case Finish(_, x, v, a) =>
      assert EntryOk(p, x);
      FinishedServed(p, x, v, a);
    case SendReply(_, i, noise) => SentServed(n, p, s.heap, i, noise);
    case Got(_, r) => ReceivedServed(p, r);
    case End(_, x) => EndedServed(p, x);
  }

  lemma ServedByPeer(s: Sys, act: Action)
    requires AllServed(s) && Possible(s, act) && Served(Apply(s, act).peers[act.n])
    ensures AllServed(Apply(s, act))
  {
    var t := Apply(s, act);
    assert t.peers == s.peers[act.n := t.peers[act.n]];
  }

  lemma StepTidy(s: Sys, act: Action)
    requires AllTidy(s) && Possible(s, act) && Prompt(s, act) && Timely(s, act)
    ensures AllTidy(Apply(s, act))
  {
    StepServed(act.n, s.peers[act.n], s, act);
    ServedByPeer(s, act);
    StepStored(s, act);
  }

  lemma InitTidy(s: Sys)
    requires Init(s)
    ensures AllTidy(s)
  {}

  lemma {:induction false} RunTidy(s: Sys, acts: seq<Action>)
    requires AllTidy(s) && PromptRun(s, acts) && TimelyRun(s, acts)
    ensures AllTidy(After(s, acts)) && SaneRun(s, acts)
    decreases |acts|
  {
    if acts != [] {
      var act := acts[0];
      if act.Got? {
        RepliesSane(s.peers[act.n], act.reply) by { assert Stored(act.n, s.peers[act.n], s.heap); }
      }
      StepTidy(s, act);
      RunTidy(Apply(s, act), acts[1..]);
    }
  }

  /** In such runs every send reads a recorded reply, and clients are sent replies only to calls they made. */
  lemma TimelyIsSane(s: Sys, acts: seq<Action>)
    requires Init(s) && PromptRun(s, acts) && TimelyRun(s, acts)
    ensures SaneRun(s, acts) && !After(s, acts).misread
  {
    InitTidy(s);
    RunTidy(s, acts);
  }

  /** If replies are recorded and sent before a new request acknowledges them, every reply a caller takes is what the
      one execution of its call produced. */
  lemma AnswersAreProduced(s: Sys, acts: seq<Action>, n: Nonce, x: Xid)
    requires Init(s) && PromptRun(s, acts) && TimelyRun(s, acts)
    requires n in After(s, acts).peers && x in After(s, acts).peers[n].answers
    ensures var p := After(s, acts).peers[n];
            && x in p.results && p.answers[x] == Ok(p.results[x])
            && exists i :: 0 <= i < |p.execs| && p.execs[i] == x && forall j | 0 <= j < |p.execs|
                && j != i :: p.execs[j] != x
  {
    InitTidy(s);
    RunTidy(s, acts);
    var p := After(s, acts).peers[n];
    assert Stored(n, p, After(s, acts).heap) && Served(p);
    assert EntryOk(p, x);
  }

  // --------------------------------------------------------------- patient callers

  /** A client has completed only calls whose handlers have returned. */
  ghost predicate DoneProduced(s: Sys) {
    forall n, x | n in s.peers && x in s.peers[n].done :: x in s.peers[n].results
  }

  lemma RunningUntrimmed(p: Peer, x: Xid)
    requires Core(p) && Served(p) && x in p.jobs && (x in p.done ==> x in p.results)
    ensures x > p.trimmed
  {
    assert EntryOk(p, x);
  }

  /** What the step completes, if anything, has been produced. */
  lemma PatientDone(n: Nonce, p: Peer, s: Sys, act: Action, x: Xid)
    requires Served(p) && n == act.n && n in s.peers && p == s.peers[n] && Possible(s, act) && Patient(s, act)
    requires x in Apply(s, act).peers[n].done && x !in p.done
    ensures x in p.results
  {
    match act
    case Got(_, r) => assert Produced(p, r.xid, r.ret);
    case End(_, y) => assert Produced(p, y, p.clt.calls[y].value);
    case Call(_) =>
    case Request(_, _) =>
    case SendReply(_, _, _) =>
    case Finish(_, _, _, _) =>
  }

  lemma PatientDoneProduced(s: Sys, act: Action)
    requires Possible(s, act) && Served(s.peers[act.n]) && DoneProduced(s) && Patient(s, act) && Grows(s, Apply(s, act))
    ensures DoneProduced(Apply(s, act))
  {
    var n, t := act.n, Apply(s, act);
    assert t.peers == s.peers[n := t.peers[n]];
    forall m, x | m in t.peers && x in t.peers[m].done ensures x in t.peers[m].results {
      if m == n && x !in s.peers[m].done { PatientDone(n, s.peers[n], s, act, x); }
    }
  }

  lemma PatientStep(s: Sys, act: Action)
    requires AllServed(s) && AllCore(s) && DoneProduced(s) && Possible(s, act) && Patient(s, act)
    ensures Prompt(s, act) && DoneProduced(Apply(s, act))
  {
    if act.Finish? { RunningUntrimmed(s.peers[act.n], act.xid); }
    StepGrows(s, act);
    PatientDoneProduced(s, act);
  }

  lemma {:induction false} RunPatient(s: Sys, acts: seq<Action>)
    requires AllTidy(s) && AllCore(s) && DoneProduced(s) && PatientRun(s, acts) && TimelyRun(s, acts)
    ensures PromptRun(s, acts)
    decreases |acts|
  {
    if acts != [] {
      PatientStep(s, acts[0]);
      StepTidy(s, acts[0]);
      StepCore(s, acts[0]);
      RunPatient(Apply(s, acts[0]), acts[1..]);
    }
  }

  lemma {:induction false} PatientPossible(s: Sys, acts: seq<Action>)
    requires PatientRun(s, acts)
    ensures PossibleRun(s, acts)
    decreases |acts|
  {
    if acts != [] { PatientPossible(Apply(s, acts[0]), acts[1..]); }
  }

  /** If every call ends with its reply, not by a deadline, handlers return in time; so then replies are safe exactly
      if each one is sent before a request that acknowledges its call is handled as new. */
  lemma PatientCallersSafeExactly(s: Sys, acts: seq<Action>)
    requires Init(s) && PatientRun(s, acts)
    ensures KeepsRun(s, acts) && ReadsRun(s, acts) <==> TimelyRun(s, acts)
  {
    InitTidy(s);
    InitCore(s);
    PatientPossible(s, acts);
    RepliesSafeExactly(s, acts);
    if TimelyRun(s, acts) { RunPatient(s, acts); }
  }
}
