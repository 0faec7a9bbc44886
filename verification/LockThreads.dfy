/**
 The threads of one client at one of its locks, interleaved at the points where the mutex is dropped, together with the
 releaser and the server's callbacks. `acquire` may be anywhere between its loop, its call to the server and its wait
 for a retry.
 */
module LockThreads {
  import opened Basics
  import opened LockClient

  /** Where a thread inside acquire stands: before a round of the loop, in the call, or waiting for a retry. */
  datatype Pc = Looping | Calling | Retrying

  datatype Event = Joined(t: Tid) | Asked(t: Tid) | Obtained(t: Tid) | RetryCame

  /** The lock, whether the cache has it, the threads inside acquire, whether the releaser is returning the lock, and
      what happened. */
  datatype View = View(l: LockInfo, known: bool, pcs: map<Tid, Pc>, giving: bool, log: seq<Event>)

  datatype Action =
    | Enter(t: Tid)
    | Round(t: Tid)
    | Answer(t: Tid, r: Reply)
    | Recheck(t: Tid)
    | Leave(t: Tid)
    | StartGiving
    | EndGiving(r: Reply)
    | RevokeCall
    | RetryCall

  const BOOT := View(NEW_LOCK, false, map[], false, [])

  /** A thread is in one call at a time; there is one releaser. */
  predicate Possible(s: View, act: Action) {
    match act
    case Enter(t) => t !in s.pcs
    case Round(t) => t in s.pcs && s.pcs[t] == Looping
    case Answer(t, _) => t in s.pcs && s.pcs[t] == Calling
    case Recheck(t) => t in s.pcs && s.pcs[t] == Retrying
    case Leave(t) => t !in s.pcs
    case StartGiving => !s.giving && Takes(s.l)
    case EndGiving(_) => s.giving
    case RevokeCall => true
    case RetryCall => true
  }

  function Rounded(s: View, t: Tid): View {
    match LoopMove(s.l, t)
    case Wait => s
    case CallServer => s.(l := LoopStep(s.l, t), pcs := s.pcs[t := Calling], log := s.log + [Asked(t)])
    case Got => s.(l := LoopStep(s.l, t), pcs := s.pcs - {t}, log := s.log + [Obtained(t)])
  }

  function Answered(s: View, t: Tid, r: Reply): View {
    match r
    case OK => s.(l := AcquireReply(s.l, r), pcs := s.pcs - {t}, log := s.log + [Obtained(t)])
    case RETRY => s.(l := AcquireReply(s.l, r), pcs := s.pcs[t := Retrying])
    case ERROR => s.(pcs := s.pcs[t := Looping])
  }

  function Apply(s: View, act: Action): View {
    match act
    case Enter(t) => s.(l := Join(s.l, t), known := true, pcs := s.pcs[t := Looping], log := s.log + [Joined(t)])
    case Round(t) => Rounded(s, t)
    case Answer(t, r) => Answered(s, t, r)
    case Recheck(t) => if s.l.retryReceived then s.(pcs := s.pcs[t := Looping]) else s
    case Leave(t) => s.(l := Release(s.l, t), known := true)
    case StartGiving => s.(l := Take(s.l), giving := true)
    case EndGiving(r) => s.(l := ReleaseReply(s.l, r), giving := false)
    case RevokeCall => s.(l := s.l.(toBeRevoked := true), known := true)
    case RetryCall => if s.known then s.(l := s.l.(retryReceived := true), log := s.log + [RetryCame]) else s
  }

  ghost function After(s: View, acts: seq<Action>): View
    decreases |acts|
  {
    if acts == [] || !Possible(s, acts[0]) then s else After(Apply(s, acts[0]), acts[1..])
  }

  /** The threads that joined, and those that obtained the lock, each in order. */
  ghost function Joins(log: seq<Event>): seq<Tid> {
    if log == [] then []
    else Joins(log[..|log| - 1]) + (match log[|log| - 1] case Joined(t) => [t] case _ => [])
  }

  ghost function Obtains(log: seq<Event>): seq<Tid> {
    if log == [] then []
    else Obtains(log[..|log| - 1]) + (match log[|log| - 1] case Obtained(t) => [t] case _ => [])
  }

  lemma Logged(log: seq<Event>, e: Event)
    ensures Joins(log + [e]) == Joins(log) + (match e case Joined(t) => [t] case _ => [])
    ensures Obtains(log + [e]) == Obtains(log) + (match e case Obtained(t) => [t] case _ => [])
  {
    assert (log + [e])[..|log|] == log;
  }

  /** The call of thread `t` is the last one made, as event `k`, and a retry has come since then or not. */
  ghost predicate AskedAt(log: seq<Event>, t: Tid, retried: bool, k: int) {
    && 0 <= k < |log| && log[k] == Asked(t)
    && (forall j | k < j < |log| :: !log[j].Asked?)
    && (retried <==> exists j :: k < j < |log| && log[j] == RetryCame)
  }

  ghost predicate InCharge(log: seq<Event>, t: Tid, retried: bool) {
    exists k :: AskedAt(log, t, retried, k)
  }

  lemma ChargeKept(log: seq<Event>, t: Tid, retried: bool, e: Event)
    requires InCharge(log, t, retried) && !e.Asked?
    ensures InCharge(log + [e], t, retried || e == RetryCame)
  {
    var k :| AskedAt(log, t, retried, k);
    var next := log + [e];
    assert forall j | 0 <= j < |log| :: next[j] == log[j];
    assert next[|log|] == e;
    if retried {
      var j :| k < j < |log| && log[j] == RetryCame;
      assert next[j] == RetryCame;
    }
    assert AskedAt(next, t, retried || e == RetryCame, k);
  }

  /** Threads inside acquire are queued in the order they joined, behind those that obtained the lock; one that called
      the server is at the front, and the flag says whether a retry has come since its call. */
  ghost predicate Inv(s: View) {
    && Joins(s.log) == Obtains(s.log) + s.l.waiting
    && Distinct(s.l.waiting)
    && (forall t :: t in s.l.waiting <==> t in s.pcs)
    && (s.l.waiting != [] ==> s.known)
    && (forall t | t in s.pcs && s.pcs[t] != Looping ::
          s.l.waiting != [] && s.l.waiting[0] == t && InCharge(s.log, t, s.l.retryReceived))
  }

  lemma {:induction false} RemoveAbsent(q: seq<Tid>, t: Tid)
    requires t !in q
    ensures Remove(q, t) == q
  {
    if q != [] {
      assert q == [q[0]] + q[1..];
      RemoveAbsent(q[1..], t);
    }
  }

  lemma EnterKeeps(s: View, t: Tid)
    requires Inv(s) && t !in s.pcs
    ensures Inv(Apply(s, Enter(t)))
  {
    var s' := Apply(s, Enter(t));
    Logged(s.log, Joined(t));
    assert s'.l.waiting == s.l.waiting + [t];
    assert Joins(s'.log) == Obtains(s'.log) + s'.l.waiting;
    forall u | u in s'.pcs && s'.pcs[u] != Looping ensures s'.l.waiting[0] == u
        && InCharge(s'.log, u, s'.l.retryReceived) {
      ChargeKept(s.log, u, s.l.retryReceived, Joined(t));
    }
  }

  lemma TailDistinct(q: seq<Tid>, r: seq<Tid>)
    requires Distinct(q) && q != [] && r == q[1..]
    ensures Distinct(r) && q == [q[0]] + r && forall t :: t in r <==> t in q && t != q[0]
  {
    assert q == [q[0]] + r;
    assert forall i | 0 <= i < |r| :: r[i] == q[i + 1];
  }

  /** The front thread leaves the queue with the lock. */
  lemma ObtainKeeps(s: View, s': View, t: Tid)
    requires Inv(s) && s.l.waiting != [] && s.l.waiting[0] == t
    requires s'.l.waiting == s.l.waiting[1..] && s'.pcs == s.pcs - {t} && s'.log == s.log + [Obtained(t)]
             && s'.known == s.known
    ensures Inv(s')
  {
    Logged(s.log, Obtained(t));
    TailDistinct(s.l.waiting, s'.l.waiting);
    assert Obtains(s.log) + ([t] + s'.l.waiting) == Obtains(s.log) + [t] + s'.l.waiting;
  }

  lemma AskKeeps(s: View, t: Tid)
    requires Inv(s) && t in s.pcs && LoopMove(s.l, t).CallServer?
    ensures Inv(Rounded(s, t))
  {
    var s' := Rounded(s, t);
    Logged(s.log, Asked(t));
    assert AskedAt(s'.log, t, false, |s.log|);
  }

  lemma QuietKeeps(s: View, s': View)
    requires Inv(s) && s'.l.waiting == s.l.waiting && s'.l.retryReceived == s.l.retryReceived && s'.log == s.log
    requires s'.pcs.Keys == s.pcs.Keys && (s.known ==> s'.known)
    requires forall t | t in s.pcs && s'.pcs[t] != Looping :: s.pcs[t] != Looping
    ensures Inv(s')
  {
    assert forall t :: t in s'.pcs <==> t in s'.pcs.Keys;
  }

  lemma RetryKeeps(s: View)
    requires Inv(s)
    ensures Inv(Apply(s, RetryCall))
  {
    if s.known {
      var s' := Apply(s, RetryCall);
      Logged(s.log, RetryCame);
      forall t | t in s'.pcs && s'.pcs[t] != Looping ensures InCharge(s'.log, t, true) {
        ChargeKept(s.log, t, s.l.retryReceived, RetryCame);
      }
    }
  }

  lemma StepKeeps(s: View, act: Action)
    requires Inv(s) && Possible(s, act)
    ensures Inv(Apply(s, act))
  {
    match act
    case Enter(t) => EnterKeeps(s, t);
    case Round(t) =>
      match LoopMove(s.l, t) {
        case Wait =>
        case CallServer => AskKeeps(s, t);
        case Got => ObtainKeeps(s, Rounded(s, t), t);
      }
    case Answer(t, r) =>
      if r == OK { ObtainKeeps(s, Answered(s, t, r), t); } else { QuietKeeps(s, Answered(s, t, r)); }
    case Recheck(t) => QuietKeeps(s, Apply(s, act));
    case Leave(t) =>
      RemoveAbsent(s.l.waiting, t);
      QuietKeeps(s, Apply(s, act));
    case StartGiving => QuietKeeps(s, Apply(s, act));
    case EndGiving(_) => QuietKeeps(s, Apply(s, act));
    case RevokeCall => QuietKeeps(s, Apply(s, act));
    case RetryCall => RetryKeeps(s);
  }

  lemma {:induction false} RunKeeps(s: View, acts: seq<Action>)
    requires Inv(s)
    ensures Inv(After(s, acts))
    decreases |acts|
  {
    if acts != [] && Possible(s, acts[0]) {
      StepKeeps(s, acts[0]);
      RunKeeps(Apply(s, acts[0]), acts[1..]);
    }
  }

  /** In every run the threads obtain the lock in the order in which they joined, and none is passed over: those that
      joined are those that obtained it followed by those that wait. */
  lemma ObtainedInOrder(acts: seq<Action>, i: nat)
    ensures var s := After(BOOT, acts);
            && Joins(s.log) == Obtains(s.log) + s.l.waiting
            && (i < |Obtains(s.log)| ==> i < |Joins(s.log)| && Obtains(s.log)[i] == Joins(s.log)[i])
            && (forall t :: t in s.l.waiting <==> t in s.pcs)
  {
    RunKeeps(BOOT, acts);
  }

  /** In every run a thread that asked the server is the front one and the last to have asked, and it is held up by the
      wait for a retry exactly if none has come since it asked: a retry that overtakes the answer is not lost, and one
      that came earlier does not count. */
  lemma RetryNeverLost(acts: seq<Action>, t: Tid)
    requires t in After(BOOT, acts).pcs && After(BOOT, acts).pcs[t] != Looping
    ensures var s := After(BOOT, acts);
            && s.l.waiting != [] && s.l.waiting[0] == t
            && exists k :: 0 <= k < |s.log| && s.log[k] == Asked(t)
                 && (forall j | k < j < |s.log| :: !s.log[j].Asked?)
                 && (s.pcs[t] == Retrying ==>
                       (Apply(s, Recheck(t)) == s <==> forall j | k < j < |s.log| :: s.log[j] != RetryCame))
  {
    RunKeeps(BOOT, acts);
    var s := After(BOOT, acts);
    var k :| AskedAt(s.log, t, s.l.retryReceived, k);
    assert s.pcs[t] == Retrying ==> (Apply(s, Recheck(t)) == s <==> !s.l.retryReceived) by {
      if s.pcs[t] == Retrying && s.l.retryReceived { assert Apply(s, Recheck(t)).pcs[t] == Looping; }
    }
  }
}
