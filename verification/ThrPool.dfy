/**
 The thread pool: a bounded queue of jobs, worker threads that take from it, and a destructor that queues one pill
 per worker and waits until all have taken one.
 */
module ThrPool {

  /** A queue with this bound, or with none if that is 0, has space for one more. */
  predicate Fits<T>(q: seq<T>, max: nat) {
    max == 0 || |q| < max
  }

  /** The queue after a try to append. */
  function Queued<T>(q: seq<T>, max: nat, e: T): seq<T> {
    if Fits(q, max) then q + [e] else q
  }

  class Fifo<T> {
    var q: seq<T>
    const max: nat   // 0 for no bound

    constructor (max: nat)
      ensures q == [] && this.max == max
    {
      q := [];
      this.max := max;
    }

    /** `enq` without blocking; a blocking one waits until this would succeed. */
    method Enq(e: T) returns (ok: bool)
      modifies `q
      ensures ok == Fits(old(q), max)
      ensures q == Queued(old(q), max, e)
    {
      ok := max == 0 || |q| < max;
      if ok { q := q + [e]; }
    }

    /** `deq`, once the queue is not empty. */
    method Deq() returns (e: T)
      requires q != []
      modifies `q
      ensures [e] + q == old(q)
    {
      e := q[0];
      q := q[1..];
    }
  }

  type Job = nat
  type Worker = nat

  datatype Item = Run(job: Job) | Pill

  /** `accepted` and `taken` record the jobs that were queued and those that workers took. `pills` counts the pills
      queued, `closing` says that the destructor has begun. */
  datatype Sys = Sys(
    n: nat,
    q: seq<Item>,
    running: map<Worker, Job>,
    exited: set<Worker>,
    closing: bool,
    pills: nat,
    accepted: seq<Job>,
    taken: seq<Job>)

  datatype Action = Add(job: Job) | Take(w: Worker) | Finish(w: Worker) | Close | QueuePill

  /** The queue of a pool has a bound of 100 items for each worker, so none at all if there is no worker. */
  predicate HasSpace(s: Sys) {
    Fits(s.q, 100 * s.n)
  }

  /** Jobs come only before the destructor; workers take when there is something to take; pills wait for space. */
  predicate Possible(s: Sys, act: Action) {
    match act
    case Add(_) => !s.closing
    case Take(w) => w < s.n && w !in s.running && w !in s.exited && s.q != []
    case Finish(w) => w in s.running
    case Close => !s.closing
    case QueuePill => s.closing && s.pills < s.n && HasSpace(s)
  }

  function Apply(s: Sys, act: Action): Sys
    requires Possible(s, act)
  {
    match act
    case Add(j) =>
      s.(q := Queued(s.q, 100 * s.n, Run(j)), accepted := if HasSpace(s) then s.accepted + [j] else s.accepted)
    case Take(w) =>
      (match s.q[0]
       case Run(j) => s.(q := s.q[1..], running := s.running[w := j], taken := s.taken + [j])
       case Pill => s.(q := s.q[1..], exited := s.exited + {w}))
    case Finish(w) => s.(running := s.running - {w})
    case Close => s.(closing := true)
    case QueuePill => s.(q := Queued(s.q, 100 * s.n, Pill), pills := s.pills + 1)
  }

  function Start(n: nat): Sys {
    Sys(n, [], map[], {}, false, 0, [], [])
  }

  ghost predicate IsRun(s: Sys, acts: seq<Action>)
    decreases |acts|
  {
    acts == [] || (Possible(s, acts[0]) && IsRun(Apply(s, acts[0]), acts[1..]))
  }

  ghost function After(s: Sys, acts: seq<Action>): Sys
    requires IsRun(s, acts)
    decreases |acts|
  {
    if acts == [] then s else After(Apply(s, acts[0]), acts[1..])
  }

  // ------------------------------------------------------------------------ invariant

  function Jobs(q: seq<Item>): seq<Job> {
    if q == [] then [] else (if q[0].Run? then [q[0].job] else []) + Jobs(q[1..])
  }

  function Pills(q: seq<Item>): nat {
    if q == [] then 0 else (if q[0].Pill? then 1 else 0) + Pills(q[1..])
  }

  lemma {:induction false} Snoc(q: seq<Item>, e: Item)
    ensures Jobs(q + [e]) == Jobs(q) + if e.Run? then [e.job] else []
    ensures Pills(q + [e]) == Pills(q) + if e.Pill? then 1 else 0
  {
    if q == [] {
      assert q + [e] == [e] && [e][1..] == [];
    } else {
      Snoc(q[1..], e);
      assert (q + [e])[0] == q[0] && (q + [e])[1..] == q[1..] + [e];
    }
  }

  /** Behind a pill there are only pills. */
  ghost predicate JobsFirst(q: seq<Item>) {
    forall i, j | 0 <= i < j < |q| && q[i].Pill? :: q[j].Pill?
  }

  lemma {:induction false} OnlyPills(q: seq<Item>)
    requires forall i | 0 <= i < |q| :: q[i].Pill?
    ensures Jobs(q) == [] && Pills(q) == |q|
  {
    if q != [] { OnlyPills(q[1..]); }
  }

  ghost predicate Inv(s: Sys) {
    && (if s.n > 0 then |s.q| <= 100 * s.n else s.taken == []) && s.pills <= s.n
    && s.accepted == s.taken + Jobs(s.q)
    && JobsFirst(s.q) && Pills(s.q) + |s.exited| == s.pills
    && (s.pills > 0 ==> s.closing) && (s.exited != {} ==> Jobs(s.q) == [])
    && (forall w | w in s.exited :: w < s.n && w !in s.running)
    && (forall w | w in s.running :: w < s.n)
  }

  lemma StepTake(s: Sys, w: Worker)
    requires Inv(s) && Possible(s, Take(w))
    ensures Inv(Apply(s, Take(w)))
  {
    var t := Apply(s, Take(w));
    match s.q[0]
    case Run(j) =>
      assert s.taken + ([j] + Jobs(t.q)) == t.taken + Jobs(t.q);
    case Pill =>
      forall i | 0 <= i < |t.q| ensures t.q[i].Pill? { assert s.q[0].Pill? && s.q[i + 1].Pill?; }
      OnlyPills(t.q);
      assert Jobs(s.q) == [] + Jobs(t.q) == Jobs(t.q);
  }

  lemma StepKeeps(s: Sys, act: Action)
    requires Inv(s) && Possible(s, act)
    ensures Inv(Apply(s, act))
  {
    match act
    case Add(j) =>
      Snoc(s.q, Run(j));
      NoPills(s.q);
      assert s.taken + (Jobs(s.q) + [j]) == s.accepted + [j];
    case Take(w) => StepTake(s, w);
    case Finish(_) =>
    case Close =>
    case QueuePill =>
      Snoc(s.q, Pill);
      assert Jobs(s.q) + [] == Jobs(s.q);
  }

  lemma {:induction false} NoPills(q: seq<Item>)
    ensures Pills(q) == 0 ==> forall i | 0 <= i < |q| :: q[i].Run?
  {
    if q != [] { NoPills(q[1..]); }
  }

  lemma {:induction false} RunKeeps(s: Sys, acts: seq<Action>)
    requires Inv(s) && IsRun(s, acts)
    ensures Inv(After(s, acts)) && After(s, acts).n == s.n
    decreases |acts|
  {
    if acts != [] {
      StepKeeps(s, acts[0]);
      RunKeeps(Apply(s, acts[0]), acts[1..]);
    }
  }

  /** In every run the queue keeps its bound and the jobs taken are the first of those accepted, in order, each once:
      together with those still queued they are all of them. */
  lemma TakenInOrder(n: nat, acts: seq<Action>)
    requires IsRun(Start(n), acts)
    ensures var s := After(Start(n), acts); (n > 0 ==> |s.q| <= 100 * n) && s.accepted == s.taken + Jobs(s.q)
  {
    RunKeeps(Start(n), acts);
  }

  function Workers(n: nat): (r: set<Worker>)
    ensures |r| == n && forall w: Worker :: w in r <==> w < n
  {
    if n == 0 then {} else Workers(n - 1) + {n - 1}
  }

  lemma SubsetSize(a: set<Worker>, b: set<Worker>)
    requires a <= b
    ensures |a| <= |b|
    decreases |a|
  {
    if a != {} {
      var x :| x in a;
      SubsetSize(a - {x}, b - {x});
    }
  }

  lemma ProperSmaller(a: set<Worker>, b: set<Worker>)
    requires a < b
    ensures |a| < |b|
  {
    var x :| x in b && x !in a;
    SubsetSize(a, b - {x});
  }

  /** When all pills are queued, there is one for each worker that has not left, so that none waits for ever; a worker
      leaves only after all jobs were taken; and when all have left, the queue is empty, unless the pool had no worker
      and jobs were queued. */
  lemma ShutdownDrains(n: nat, acts: seq<Action>)
    requires IsRun(Start(n), acts)
    ensures var s := After(Start(n), acts);
            && (s.exited != {} ==> s.taken == s.accepted)
            && (s.pills == n ==> Pills(s.q) == n - |s.exited| && (s.exited < Workers(n) ==> s.q != []))
            && (s.pills == n && s.exited == Workers(n) ==>
                  s.running == map[] && (s.q == [] <==> n > 0 || s.accepted == []))
  {
    RunKeeps(Start(n), acts);
    var s := After(Start(n), acts);
    assert s.exited != {} ==> s.taken + [] == s.taken;
    if s.exited < Workers(n) { ProperSmaller(s.exited, Workers(n)); }
    if s.pills == n && s.exited == Workers(n) { Drained(s); }
  }

  lemma Drained(s: Sys)
    requires Inv(s) && s.pills == s.n && s.exited == Workers(s.n)
    ensures s.running == map[] && (s.q == [] <==> s.n > 0 || s.accepted == [])
  {
    NoPills(s.q);
    assert forall w | w in s.running :: w in s.exited;
    assert s.n > 0 ==> s.exited != {} by { assert s.n > 0 ==> 0 in Workers(s.n); }
    assert s.taken == [] ==> s.taken + Jobs(s.q) == Jobs(s.q);
    assert s.q != [] && s.q[0].Run? ==> Jobs(s.q) != [];
  }
}
