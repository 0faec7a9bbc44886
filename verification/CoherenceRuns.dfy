/**
 What the hypotheses of coherence are needed for. A run that breaks one of them, in one way, and meets all others is
 built step by step, on a system with two clients. Here: the releaser may only give back a lock that is free, although
 the code lets it take any lock that no thread has locked.
 */
module CoherenceRuns {
  import opened Basics
  import LS = LockServer
  import LC = LockClient
  import opened ExtentCache
  import opened Coherence

  /** Ways to break a hypothesis: to take a lock in another state, to release one that the thread does not hold, a
      remote put or remove of a flush that does not return, to remove an extent that is not cached here or one that is
      not at the server, and to read an extent whose removal is pending. */
  datatype Fault =
    | TakeIn(st: LC.State)
    | UnlockByOther
    | PutEnds(p: Call)
    | RemoveEnds(q: Call)
    | DeleteUncached
    | DeleteUnflushed
    | ReadRemoved

  /** Callbacks come from the server's threads while these call the client. */
  predicate Genuine(s: Sys, a: Action) {
    && (a.Revoke? ==> s.srv.revoker.Calling? && s.srv.revoker.lid == a.lid && s.srv.revoker.clt == a.c)
    && (a.Retry? ==> s.srv.retryer.Calling? && s.srv.retryer.lid == a.lid && s.srv.retryer.clt == a.c)
  }

  predicate ByHolder(s: Sys, c: Cid, t: Tid, id: Id)
    requires c in s.clients
  {
    id in s.clients[c].holder && s.clients[c].holder[id] == t
  }

  /** The step breaks a hypothesis in this way and in no other. */
  predicate Commits(s: Sys, a: Action, v: Fault)
    requires Possible(s, a)
  {
    match v
    case TakeIn(st) => a.Take? && Lock(s.clients[a.c], a.lid).state == st
    case UnlockByOther => a.Unlock?
    case PutEnds(p) =>
      && a.FlushTaken? && a.p == p
      && (s.clients[a.c].releaser.lid in s.clients[a.c].ec.removed ==> a.q == Returned)
    case RemoveEnds(q) =>
      && a.FlushTaken? && a.q == q
      && (s.clients[a.c].releaser.lid in s.clients[a.c].ec.modified ==> a.p == Returned)
    case DeleteUncached => a.Delete? && ByHolder(s, a.c, a.t, a.id) && a.id !in s.clients[a.c].ec.local.extents
    case DeleteUnflushed => a.Delete? && ByHolder(s, a.c, a.t, a.id) && a.id in s.clients[a.c].ec.local.extents
    case ReadRemoved => a.Read? && ByHolder(s, a.c, a.t, a.id)
  }

  /** A step that meets every hypothesis, or commits this fault. */
  predicate Nearly(s: Sys, a: Action, v: Fault)
    requires Possible(s, a)
  {
    Genuine(s, a) && (Orderly(s, a) || Commits(s, a, v))
  }

  ghost predicate Run(s: Sys, acts: seq<Action>, v: Fault)
    decreases |acts|
  {
    acts == [] || (Possible(s, acts[0]) && Nearly(s, acts[0], v) && Run(Apply(s, acts[0]), acts[1..], v))
  }

  lemma {:induction false} RunSnoc(s: Sys, acts: seq<Action>, a: Action, v: Fault)
    requires Run(s, acts, v) && Possible(After(s, acts), a) && Nearly(After(s, acts), a, v)
    ensures Run(s, acts + [a], v) && After(s, acts + [a]) == Apply(After(s, acts), a)
    decreases |acts|
  {
    if acts == [] {
      assert acts + [a] == [a] && [a][1..] == [];
    } else {
      RunSnoc(Apply(s, acts[0]), acts[1..], a, v);
      assert (acts + [a])[0] == acts[0] && (acts + [a])[1..] == acts[1..] + [a];
    }
  }

  /** Where a run starts, and the fault it may commit. */
  datatype Origin = Origin(s: Sys, v: Fault)

  ghost predicate Reaches(f: Origin, w: Sys) {
    exists acts :: Run(f.s, acts, f.v) && After(f.s, acts) == w
  }

  lemma Go(f: Origin, w: Sys, a: Action, w': Sys)
    requires Reaches(f, w) && Possible(w, a) && Nearly(w, a, f.v) && w' == Apply(w, a)
    ensures Reaches(f, w')
  {
    var acts :| Run(f.s, acts, f.v) && After(f.s, acts) == w;
    RunSnoc(f.s, acts, a, f.v);
  }

  const NO_CACHE := Cache(Store(map[], map[]), [], [], [])
  const FRESH := Client(NO_CACHE, map[], [], map[], map[], map[], map[], Resting, multiset{})

  // ------------------------------------------- clients that only ever dealt with one lock

  /** The lock, whether it is queued for the releaser, where thread 0 is, the two calls, the releaser, whether the
      thread holds the lock, how many releases were given up, and what is cached. */
  datatype Part = Part(
    l: LC.LockInfo, queued: bool, pc: ThreadPc, acq: Flight, rel: Flight, r: Releaser, held: bool, strays: nat,
    ec: Cache := NO_CACHE)

  function Strays(lid: Id, n: nat): multiset<Id> {
    if n == 0 then multiset{} else Strays(lid, n - 1) + multiset{lid}
  }

  function Slot(lid: Id, f: Flight): map<Id, Flight> {
    if f.NoCall? then map[] else map[lid := f]
  }

  function Cl(lid: Id, p: Part): Client {
    Client(p.ec, map[lid := p.l], if p.queued then [lid] else [], map[0 := p.pc],
           if p.held then map[lid := 0] else map[],
           Slot(lid, p.acq), Slot(lid, p.rel), p.r, Strays(lid, p.strays))
  }

  function Two(s: Sys, srv: LS.Server, a: Cid, d: Client, b: Cid, e: Client): Sys {
    Sys(srv, s.store, s.clients[a := d][b := e], s.truth)
  }

  /** The two clients are as described, and so is the server. */
  ghost predicate At2(s: Sys, f: Origin, lid: Id, srv: LS.Server, a: Cid, p: Part, b: Cid, q: Part) {
    a != b && Reaches(f, Two(s, srv, a, Cl(lid, p), b, Cl(lid, q)))
  }

  lemma Swap(s: Sys, f: Origin, lid: Id, srv: LS.Server, a: Cid, p: Part, b: Cid, q: Part)
    requires At2(s, f, lid, srv, a, p, b, q)
    ensures At2(s, f, lid, srv, b, q, a, p)
  {
    assert s.clients[a := Cl(lid, p)][b := Cl(lid, q)] == s.clients[b := Cl(lid, q)][a := Cl(lid, p)];
  }

  /** A step of the second client. */
  lemma Step(s: Sys, f: Origin, lid: Id, srv: LS.Server, a: Cid, p: Part, b: Cid, q: Part, act: Action,
      srv': LS.Server, q': Part)
    requires At2(s, f, lid, srv, a, p, b, q)
    requires var w := Two(s, srv, a, Cl(lid, p), b, Cl(lid, q));
             && Possible(w, act) && Nearly(w, act, f.v)
             && Apply(w, act) == Sys(srv', s.store, w.clients[b := Cl(lid, q')], s.truth)
    ensures At2(s, f, lid, srv', a, p, b, q')
  {
    var w := Two(s, srv, a, Cl(lid, p), b, Cl(lid, q));
    assert s.clients[a := Cl(lid, p)][b := Cl(lid, q)][b := Cl(lid, q')]
        == s.clients[a := Cl(lid, p)][b := Cl(lid, q')];
    Go(f, w, act, Two(s, srv', a, Cl(lid, p), b, Cl(lid, q')));
  }

  lemma MapPut<K, V>(k: K, v: V, w: V)
    ensures map[k := v][k := w] == map[k := w] && map[][k := w] == map[k := w] && map[k := v] - {k} == map[]
  {}

  // ------------------------------------------------ one lemma per kind of step, on the second client

  lemma DoEnter(s: Sys, f: Origin, lid: Id, srv: LS.Server, a: Cid, p: Part, b: Cid, q: Part)
    requires At2(s, f, lid, srv, a, p, b, q) && q.pc.Out?
    ensures At2(s, f, lid, srv, a, p, b, q.(l := LC.Join(q.l, 0), pc := Looping(lid)))
  {
    MapPut(lid, q.l, LC.Join(q.l, 0));
    MapPut(0 as Tid, q.pc, Looping(lid));
    Step(s, f, lid, srv, a, p, b, q, Enter(b, 0, lid), srv, q.(l := LC.Join(q.l, 0), pc := Looping(lid)));
  }

  lemma DoAsk(s: Sys, f: Origin, lid: Id, srv: LS.Server, a: Cid, p: Part, b: Cid, q: Part)
    requires At2(s, f, lid, srv, a, p, b, q) && q.pc == Looping(lid) && q.acq.NoCall? && LC.LoopMove(q.l, 0).CallServer?
    ensures At2(s, f, lid, srv, a, p, b, q.(l := LC.LoopStep(q.l, 0), pc := Calling(lid), acq := Asked))
  {
    MapPut(lid, q.l, LC.LoopStep(q.l, 0));
    MapPut(0 as Tid, q.pc, Calling(lid));
    MapPut(lid, Asked, Asked);
    Step(s, f, lid, srv, a, p, b, q, Loop(b, 0), srv, q.(l := LC.LoopStep(q.l, 0), pc := Calling(lid), acq := Asked));
  }

  lemma DoServe(s: Sys, f: Origin, lid: Id, srv: LS.Server, a: Cid, p: Part, b: Cid, q: Part)
    requires At2(s, f, lid, srv, a, p, b, q) && q.acq == Asked
    ensures At2(s, f, lid, LS.AcquireStep(srv, b, q.l.seqNum - 1, lid).0, a, p, b,
            q.(acq := Answered(LS.Grants(LS.Info(srv, lid), b))))
  {
    MapPut(lid, q.acq, Answered(LS.Grants(LS.Info(srv, lid), b)));
    Step(s, f, lid, srv, a, p, b, q, ServeAcquire(b, lid), LS.AcquireStep(srv, b, q.l.seqNum - 1, lid).0,
        q.(acq := Answered(LS.Grants(LS.Info(srv, lid), b))));
  }

  lemma DoGranted(s: Sys, f: Origin, lid: Id, srv: LS.Server, a: Cid, p: Part, b: Cid, q: Part)
    requires At2(s, f, lid, srv, a, p, b, q) && q.pc == Calling(lid) && q.acq == Answered(true)
    ensures At2(s, f, lid, srv, a, p, b, q.(l := LC.AcquireReply(q.l, LC.OK), pc := Out, acq := NoCall, held := true))
  {
    MapPut(lid, q.l, LC.AcquireReply(q.l, LC.OK));
    MapPut(0 as Tid, q.pc, Out);
    MapPut(lid, q.acq, q.acq);
    MapPut(lid, 0 as Tid, 0 as Tid);
    Step(s, f, lid, srv, a, p, b, q, AcquireAnswered(b, 0), srv,
        q.(l := LC.AcquireReply(q.l, LC.OK), pc := Out, acq := NoCall, held := true));
  }

  lemma DoRefused(s: Sys, f: Origin, lid: Id, srv: LS.Server, a: Cid, p: Part, b: Cid, q: Part)
    requires At2(s, f, lid, srv, a, p, b, q) && q.pc == Calling(lid) && q.acq == Answered(false)
    ensures At2(s, f, lid, srv, a, p, b, q.(l := LC.AcquireReply(q.l, LC.RETRY), pc := AwaitRetry(lid), acq := NoCall))
  {
    MapPut(lid, q.l, LC.AcquireReply(q.l, LC.RETRY));
    MapPut(0 as Tid, q.pc, AwaitRetry(lid));
    MapPut(lid, q.acq, q.acq);
    Step(s, f, lid, srv, a, p, b, q, AcquireAnswered(b, 0), srv,
        q.(l := LC.AcquireReply(q.l, LC.RETRY), pc := AwaitRetry(lid), acq := NoCall));
  }

  lemma DoUnlock(s: Sys, f: Origin, lid: Id, srv: LS.Server, a: Cid, p: Part, b: Cid, q: Part)
    requires At2(s, f, lid, srv, a, p, b, q) && q.held
    ensures At2(s, f, lid, srv, a, p, b, q.(l := LC.Release(q.l, 0), held := false))
  {
    MapPut(lid, q.l, LC.Release(q.l, 0));
    MapPut(lid, 0 as Tid, 0 as Tid);
    Step(s, f, lid, srv, a, p, b, q, Unlock(b, 0, lid), srv, q.(l := LC.Release(q.l, 0), held := false));
  }

  /** Thread 1 releases the lock, which it does not hold. */
  lemma DoWrongUnlock(s: Sys, f: Origin, lid: Id, srv: LS.Server, a: Cid, p: Part, b: Cid, q: Part)
    requires At2(s, f, lid, srv, a, p, b, q) && !q.held && f.v == UnlockByOther && 1 !in q.l.waiting
    ensures At2(s, f, lid, srv, a, p, b, q.(l := q.l.(state := LC.FREE)))
  {
    NothingRemoved(q.l.waiting, 1);
    MapPut(lid, q.l, q.l.(state := LC.FREE));
    Step(s, f, lid, srv, a, p, b, q, Unlock(b, 1, lid), srv, q.(l := q.l.(state := LC.FREE)));
  }

  lemma {:induction false} NothingRemoved(q: seq<Tid>, t: Tid)
    requires t !in q
    ensures LC.Remove(q, t) == q
  {
    if q != [] { NothingRemoved(q[1..], t); }
  }

  lemma DoGot(s: Sys, f: Origin, lid: Id, srv: LS.Server, a: Cid, p: Part, b: Cid, q: Part)
    requires At2(s, f, lid, srv, a, p, b, q) && q.pc == Looping(lid) && LC.LoopMove(q.l, 0).Got?
    ensures At2(s, f, lid, srv, a, p, b, q.(l := LC.LoopStep(q.l, 0), pc := Out, held := true))
  {
    MapPut(lid, q.l, LC.LoopStep(q.l, 0));
    MapPut(0 as Tid, q.pc, Out);
    MapPut(lid, 0 as Tid, 0 as Tid);
    Step(s, f, lid, srv, a, p, b, q, Loop(b, 0), srv, q.(l := LC.LoopStep(q.l, 0), pc := Out, held := true));
  }

  lemma DoRevoke(s: Sys, f: Origin, lid: Id, srv: LS.Server, a: Cid, p: Part, b: Cid, q: Part)
    requires At2(s, f, lid, srv, a, p, b, q) && srv.revoker.Calling? && srv.revoker.lid == lid && srv.revoker.clt == b
    ensures At2(s, f, lid, srv, a, p, b, q.(l := q.l.(toBeRevoked := true), queued := true))
  {
    MapPut(lid, q.l, q.l.(toBeRevoked := true));
    assert [] + [lid] == [lid] && lid in [lid];
    Step(s, f, lid, srv, a, p, b, q, Revoke(b, lid), srv, q.(l := q.l.(toBeRevoked := true), queued := true));
  }

  lemma DoTake(s: Sys, f: Origin, lid: Id, srv: LS.Server, a: Cid, p: Part, b: Cid, q: Part)
    requires At2(s, f, lid, srv, a, p, b, q) && q.r.Resting? && q.queued && LC.Takes(q.l)
             && (q.l.state == LC.FREE || f.v == TakeIn(q.l.state))
    ensures At2(s, f, lid, srv, a, p, b, q.(l := LC.Take(q.l), r := Taken(lid)))
  {
    MapPut(lid, q.l, LC.Take(q.l));
    Step(s, f, lid, srv, a, p, b, q, Take(b, lid), srv, q.(l := LC.Take(q.l), r := Taken(lid)));
  }

  lemma DoFlush(s: Sys, f: Origin, lid: Id, srv: LS.Server, a: Cid, p: Part, b: Cid, q: Part)
    requires At2(s, f, lid, srv, a, p, b, q) && q.r == Taken(lid) && q.ec == NO_CACHE
    ensures At2(s, f, lid, srv, a, p, b, q.(r := Waiting(lid), rel := Asked, strays := if q.rel == Asked then
            q.strays + 1 else q.strays))
  {
    MapPut(lid, q.rel, Asked);
    Step(s, f, lid, srv, a, p, b, q, FlushTaken(b, Returned, Returned), srv,
        q.(r := Waiting(lid), rel := Asked, strays := if q.rel == Asked then q.strays + 1 else q.strays));
  }

  lemma DoServeRelease(s: Sys, f: Origin, lid: Id, srv: LS.Server, a: Cid, p: Part, b: Cid, q: Part)
    requires At2(s, f, lid, srv, a, p, b, q) && q.rel == Asked
    ensures At2(s, f, lid, LS.ReleaseStep(srv, b, lid).0, a, p, b,
            q.(rel := Answered(LS.ReleaseStep(srv, b, lid).1 == LS.OK)))
  {
    MapPut(lid, q.rel, Answered(LS.ReleaseStep(srv, b, lid).1 == LS.OK));
    Step(s, f, lid, srv, a, p, b, q, ServeRelease(b, lid), LS.ReleaseStep(srv, b, lid).0,
        q.(rel := Answered(LS.ReleaseStep(srv, b, lid).1 == LS.OK)));
  }

  lemma DoGiveBack(s: Sys, f: Origin, lid: Id, srv: LS.Server, a: Cid, p: Part, b: Cid, q: Part)
    requires At2(s, f, lid, srv, a, p, b, q) && q.r == Waiting(lid) && q.rel == Answered(true)
    ensures At2(s, f, lid, srv, a, p, b, q.(l := LC.ReleaseReply(q.l, LC.OK), rel := NoCall, r := Resting,
            queued := false))
  {
    MapPut(lid, q.l, LC.ReleaseReply(q.l, LC.OK));
    MapPut(lid, q.rel, q.rel);
    assert Erase([lid], lid) == [] && Erase([], lid) == [];
    Step(s, f, lid, srv, a, p, b, q, ReleaseAnswered(b), srv,
        q.(l := LC.ReleaseReply(q.l, LC.OK), rel := NoCall, r := Resting, queued := false));
  }

  lemma DoGiveUp(s: Sys, f: Origin, lid: Id, srv: LS.Server, a: Cid, p: Part, b: Cid, q: Part)
    requires At2(s, f, lid, srv, a, p, b, q) && q.r.Waiting?
    ensures At2(s, f, lid, srv, a, p, b, q.(r := Resting))
  {
    Step(s, f, lid, srv, a, p, b, q, ReleaseFails(b), srv, q.(r := Resting));
  }

  lemma DoStray(s: Sys, f: Origin, lid: Id, srv: LS.Server, a: Cid, p: Part, b: Cid, q: Part)
    requires At2(s, f, lid, srv, a, p, b, q) && q.strays > 0
    ensures At2(s, f, lid, LS.ReleaseStep(srv, b, lid).0, a, p, b, q.(strays := q.strays - 1))
  {
    assert Strays(lid, q.strays) - multiset{lid} == Strays(lid, q.strays - 1);
    Step(s, f, lid, srv, a, p, b, q, ServeStray(b, lid), LS.ReleaseStep(srv, b, lid).0, q.(strays := q.strays - 1));
  }

  lemma DoRetry(s: Sys, f: Origin, lid: Id, srv: LS.Server, a: Cid, p: Part, b: Cid, q: Part)
    requires At2(s, f, lid, srv, a, p, b, q) && srv.retryer.Calling? && srv.retryer.lid == lid && srv.retryer.clt == b
    ensures At2(s, f, lid, srv, a, p, b, q.(l := q.l.(retryReceived := true)))
  {
    MapPut(lid, q.l, q.l.(retryReceived := true));
    Step(s, f, lid, srv, a, p, b, q, Retry(b, lid), srv, q.(l := q.l.(retryReceived := true)));
  }

  lemma DoWake(s: Sys, f: Origin, lid: Id, srv: LS.Server, a: Cid, p: Part, b: Cid, q: Part)
    requires At2(s, f, lid, srv, a, p, b, q) && q.pc == AwaitRetry(lid) && q.l.retryReceived
    ensures At2(s, f, lid, srv, a, p, b, q.(pc := Looping(lid)))
  {
    MapPut(0 as Tid, q.pc, Looping(lid));
    Step(s, f, lid, srv, a, p, b, q, Wake(b, 0), srv, q.(pc := Looping(lid)));
  }

  lemma DoThread(s: Sys, f: Origin, lid: Id, srv: LS.Server, a: Cid, p: Part, b: Cid, q: Part, act: LS.Action)
    requires At2(s, f, lid, srv, a, p, b, q) && LS.ThreadCan(srv, act)
    ensures At2(s, f, lid, LS.ThreadStep(srv, act), a, p, b, q)
  {
    var w := Two(s, srv, a, Cl(lid, p), b, Cl(lid, q));
    Go(f, w, ServerThread(act), w.(srv := LS.ThreadStep(srv, act)));
  }

  // ------------------------------------------------------------------------- the server

  function Srv(lid: Id, l: LS.LockInfo, revokes: seq<(Id, Cid)>, free: seq<Id>, retryer: LS.Place,
      revoker: LS.Place): LS.Server {
    LS.Server(map[lid := l], revokes, free, retryer, revoker)
  }

  lemma Acquires(lid: Id, l: LS.LockInfo, revokes: seq<(Id, Cid)>, free: seq<Id>, rt: LS.Place, rv: LS.Place, c: Cid,
      n: int)
    ensures var t := LS.AcquireStep(Srv(lid, l, revokes, free, rt, rv), c, n, lid).0;
            t == Srv(lid, LS.AcquireLock(l, c, n),
                     if !LS.Grants(l, c) && l.state == LS.ACQUIRED then LS.Append(revokes, (lid, l.owner))
                         else revokes, free, rt, rv)
  {
    MapPut(lid, l, LS.AcquireLock(l, c, n));
  }

  lemma Releases(lid: Id, l: LS.LockInfo, revokes: seq<(Id, Cid)>, free: seq<Id>, rt: LS.Place, rv: LS.Place, c: Cid)
    requires LS.AcceptsRelease(l, c)
    ensures LS.ReleaseStep(Srv(lid, l, revokes, free, rt, rv), c, lid)
            == (Srv(lid, LS.ReleaseLock(l), revokes, free + [lid], rt, rv), LS.OK)
  {
    MapPut(lid, l, LS.ReleaseLock(l));
  }

  lemma Invites(lid: Id, l: LS.LockInfo, revokes: seq<(Id, Cid)>, free: seq<Id>, rv: LS.Place)
    requires free != [] && free[0] == lid && LS.Invites(l)
    ensures LS.RetryerVisit(Srv(lid, l, revokes, free, LS.At(0), rv))
            == Srv(lid, LS.InviteFirst(l), revokes, free, LS.Calling(0, lid, l.waiting[0]), rv)
  {
    MapPut(lid, l, LS.InviteFirst(l));
  }

  // ------------------------------------------------------------------ pieces of the runs

  function Begun(lid: Id): Part {
    Part(LC.LockInfo(LC.NONE, 0, [0], false, false), false, Looping(lid), NoCall, NoCall, Resting, false, 0)
  }

  function Holder(n: int): Part {
    Part(LC.LockInfo(LC.LOCKED, n, [], false, false), false, Out, NoCall, NoCall, Resting, true, 0)
  }

  /** Refused, and waiting for the callback. */
  function Waiter(lid: Id, n: int, k: nat): Part {
    Part(LC.LockInfo(LC.NONE, n, [0], false, false), false, AwaitRetry(lid), NoCall, NoCall, Resting, false, k)
  }

  /** Has asked and not yet heard. */
  function Asker(lid: Id, n: int, f: Flight): Part {
    Part(LC.LockInfo(LC.ACQUIRING, n, [0], false, false), false, Calling(lid), f, NoCall, Resting, false, 0)
  }

  /** The releaser has flushed the extent and called the server. */
  function Leaver(lid: Id, n: int, k: nat): Part {
    Part(LC.LockInfo(LC.RELEASING, n, [], true, false), true, Out, NoCall, Asked, Waiting(lid), false, k)
  }

  lemma Start(s: Sys, f: Origin, lid: Id, a: Cid, b: Cid)
    requires Init(s) && f.s == s && a in s.clients && b in s.clients && a != b
    ensures At2(s, f, lid, LS.BOOT.srv, a, Begun(lid), b, Begun(lid))
  {
    var boot, e := LS.BOOT.srv, Entered(FRESH, 0, lid);
    assert e == Cl(lid, Begun(lid)) by {
      MapPut(lid, Begun(lid).l, Begun(lid).l);
      MapPut(0 as Tid, Looping(lid), Looping(lid));
      assert [] + [0 as Tid] == [0 as Tid];
    }
    assert Run(s, [], f.v) && After(s, []) == s;
    var w1 := Two(s, boot, a, e, b, FRESH);
    assert s.clients[a := e][b := FRESH] == s.clients[a := e];
    Go(f, s, Enter(a, 0, lid), w1);
    assert w1.clients[b := e] == s.clients[a := e][b := e];
    Go(f, w1, Enter(b, 0, lid), Two(s, boot, a, e, b, e));
  }

  /** A thread that waits for its callback is called and asks again. */
  lemma AskAgain(s: Sys, f: Origin, lid: Id, srv: LS.Server, a: Cid, p: Part, b: Cid, n: int, k: nat)
    requires At2(s, f, lid, srv, a, p, b, Waiter(lid, n, k))
    requires srv.retryer.Calling? && srv.retryer.lid == lid && srv.retryer.clt == b
    ensures At2(s, f, lid, srv, a, p, b, Asker(lid, n + 1, Asked).(strays := k))
  {
    var q := Waiter(lid, n, k);
    DoRetry(s, f, lid, srv, a, p, b, q);
    q := q.(l := q.l.(retryReceived := true));
    DoWake(s, f, lid, srv, a, p, b, q);
    DoAsk(s, f, lid, srv, a, p, b, q.(pc := Looping(lid)));
  }

  /** `o` has had the lock and left it free; `h` is refused. */
  lemma Contend(s: Sys, f: Origin, lid: Id, h: Cid, o: Cid)
    requires Init(s) && f.s == s && h in s.clients && o in s.clients && h != o
    ensures var srv := Srv(lid, LS.LockInfo(o, 0, LS.ACQUIRED, [h], ""), [(lid, o)], [], LS.At(0), LS.At(0));
            At2(s, f, lid, srv, o, Holder(1).(l := LC.LockInfo(LC.FREE, 1, [], false, false), held := false), h,
                Waiter(lid, 1, 0))
  {
    var boot := LS.BOOT.srv;
    Start(s, f, lid, h, o);
    DoAsk(s, f, lid, boot, h, Begun(lid), o, Begun(lid));
    DoServe(s, f, lid, boot, h, Begun(lid), o, Asker(lid, 1, Asked));
    var l1 := LS.LockInfo(o, 0, LS.ACQUIRED, [], "");
    var srv1 := Srv(lid, l1, [], [], LS.At(0), LS.At(0));
    assert LS.AcquireStep(boot, o, 0, lid).0 == srv1 by { MapPut(lid, l1, l1); }
    DoGranted(s, f, lid, srv1, h, Begun(lid), o, Asker(lid, 1, Answered(true)));
    assert [0 as Tid][1..] == [];
    DoUnlock(s, f, lid, srv1, h, Begun(lid), o, Holder(1));
    var p := Holder(1).(l := LC.LockInfo(LC.FREE, 1, [], false, false), held := false);
    Swap(s, f, lid, srv1, h, Begun(lid), o, p);
    DoAsk(s, f, lid, srv1, o, p, h, Begun(lid));
    DoServe(s, f, lid, srv1, o, p, h, Asker(lid, 1, Asked));
    Acquires(lid, l1, [], [], LS.At(0), LS.At(0), h, 0);
    assert [] + [h] == [h] && [] + [(lid, o)] == [(lid, o)];
    var srv2 := Srv(lid, LS.LockInfo(o, 0, LS.ACQUIRED, [h], ""), [(lid, o)], [], LS.At(0), LS.At(0));
    DoRefused(s, f, lid, srv2, o, p, h, Asker(lid, 1, Answered(false)));
  }

  /** `o` is revoked, and its releaser flushes and calls the server. */
  lemma Leave(s: Sys, f: Origin, lid: Id, h: Cid, o: Cid)
    requires Init(s) && f.s == s && h in s.clients && o in s.clients && h != o
    ensures var srv := Srv(lid, LS.LockInfo(o, 0, LS.ACQUIRED, [h], ""), [], [], LS.At(0), LS.At(0));
            At2(s, f, lid, srv, h, Waiter(lid, 1, 0), o, Leaver(lid, 2, 0))
  {
    var l := LS.LockInfo(o, 0, LS.ACQUIRED, [h], "");
    var p, q := Waiter(lid, 1, 0), Holder(1).(l := LC.LockInfo(LC.FREE, 1, [], false, false), held := false);
    var srv0 := Srv(lid, l, [(lid, o)], [], LS.At(0), LS.At(0));
    Contend(s, f, lid, h, o);
    Swap(s, f, lid, srv0, o, q, h, p);
    DoThread(s, f, lid, srv0, h, p, o, q, LS.Revoke);
    var srv1 := srv0.(revoker := LS.Calling(0, lid, o));
    DoRevoke(s, f, lid, srv1, h, p, o, q);
    q := q.(l := q.l.(toBeRevoked := true), queued := true);
    DoThread(s, f, lid, srv1, h, p, o, q, LS.Revoked(true));
    var srv2 := Srv(lid, l, [], [], LS.At(0), LS.At(0));
    assert LS.ThreadStep(srv1, LS.Revoked(true)) == srv2;
    DoTake(s, f, lid, srv2, h, p, o, q);
    DoFlush(s, f, lid, srv2, h, p, o, q.(l := LC.Take(q.l), r := Taken(lid)));
  }

  /** A client that has given the lock back. */
  function Idle(n: int, k: nat): Part {
    Part(LC.LockInfo(LC.NONE, n, [], false, false), false, Out, NoCall, NoCall, Resting, false, k)
  }

  /** The server takes the lock back from `o` and invites `h`. */
  lemma HandBack(s: Sys, f: Origin, lid: Id, h: Cid, o: Cid, n: int, k: nat)
    requires h != o
    requires var srv := Srv(lid, LS.LockInfo(o, 0, LS.ACQUIRED, [h], ""), [], [], LS.At(0), LS.At(0));
             At2(s, f, lid, srv, h, Waiter(lid, 1, 0), o, Leaver(lid, n, k))
    ensures var srv := Srv(lid, LS.LockInfo("", 0, LS.FREE, [], h), [], [lid], LS.Calling(0, lid, h), LS.At(0));
            At2(s, f, lid, srv, o, Idle(n, k), h, Waiter(lid, 1, 0))
  {
    var l0, l1 := LS.LockInfo(o, 0, LS.ACQUIRED, [h], ""), LS.LockInfo("", 0, LS.FREE, [h], "");
    var srv0 := Srv(lid, l0, [], [], LS.At(0), LS.At(0));
    var p := Waiter(lid, 1, 0);
    DoServeRelease(s, f, lid, srv0, h, p, o, Leaver(lid, n, k));
    Releases(lid, l0, [], [], LS.At(0), LS.At(0), o);
    assert [] + [lid] == [lid] && [h][1..] == [];
    var srv1 := Srv(lid, l1, [], [lid], LS.At(0), LS.At(0));
    DoGiveBack(s, f, lid, srv1, h, p, o, Leaver(lid, n, k).(rel := Answered(true)));
    DoThread(s, f, lid, srv1, h, p, o, Idle(n, k), LS.Visit);
    Invites(lid, l1, [], [lid], LS.At(0));
    var srv2 := Srv(lid, LS.LockInfo("", 0, LS.FREE, [], h), [], [lid], LS.Calling(0, lid, h), LS.At(0));
    Swap(s, f, lid, srv2, h, p, o, Idle(n, k));
  }

  /** `h` takes the lock; the retryer's list keeps it, as the answer to its callback is lost. */
  lemma PassOn(s: Sys, f: Origin, lid: Id, h: Cid, o: Cid, n: int, k: nat)
    requires h != o
    requires var srv := Srv(lid, LS.LockInfo("", 0, LS.FREE, [], h), [], [lid], LS.Calling(0, lid, h), LS.At(0));
             At2(s, f, lid, srv, o, Idle(n, k), h, Waiter(lid, 1, 0))
    ensures var srv := Srv(lid, LS.LockInfo(h, 1, LS.ACQUIRED, [], ""), [], [lid], LS.At(1), LS.At(0));
            At2(s, f, lid, srv, h, Holder(2), o, Idle(n, k))
  {
    var l2, q := LS.LockInfo("", 0, LS.FREE, [], h), Idle(n, k);
    var srv2 := Srv(lid, l2, [], [lid], LS.Calling(0, lid, h), LS.At(0));
    AskAgain(s, f, lid, srv2, o, q, h, 1, 0);
    DoServe(s, f, lid, srv2, o, q, h, Asker(lid, 2, Asked));
    Acquires(lid, l2, [], [lid], LS.Calling(0, lid, h), LS.At(0), h, 1);
    var srv3 := Srv(lid, LS.LockInfo(h, 1, LS.ACQUIRED, [], ""), [], [lid], LS.Calling(0, lid, h), LS.At(0));
    DoGranted(s, f, lid, srv3, o, q, h, Asker(lid, 2, Answered(true)));
    assert [0 as Tid][1..] == [];
    Swap(s, f, lid, srv3, o, q, h, Holder(2));
    DoThread(s, f, lid, srv3, h, Holder(2), o, q, LS.Return(false));
  }

  /** `o` asks for the lock again and is refused. */
  lemma AskBehind(s: Sys, f: Origin, lid: Id, h: Cid, o: Cid, n: int, k: nat)
    requires h != o
    requires var srv := Srv(lid, LS.LockInfo(h, 1, LS.ACQUIRED, [], ""), [], [lid], LS.At(1), LS.At(0));
             At2(s, f, lid, srv, h, Holder(2), o, Idle(n, k))
    ensures var srv := Srv(lid, LS.LockInfo(h, 1, LS.ACQUIRED, [o], ""), [(lid, h)], [lid], LS.At(1), LS.At(0));
            At2(s, f, lid, srv, h, Holder(2), o, Waiter(lid, n + 1, k))
  {
    var l0 := LS.LockInfo(h, 1, LS.ACQUIRED, [], "");
    var srv0 := Srv(lid, l0, [], [lid], LS.At(1), LS.At(0));
    var q0 := Part(LC.LockInfo(LC.NONE, n, [0], false, false), false, Looping(lid), NoCall, NoCall, Resting, false, k);
    assert At2(s, f, lid, srv0, h, Holder(2), o, q0) by {
      DoEnter(s, f, lid, srv0, h, Holder(2), o, Idle(n, k));
      assert [] + [0 as Tid] == [0 as Tid];
      assert LC.Join(Idle(n, k).l, 0) == q0.l;
    }
    var q := Asker(lid, n + 1, Asked).(strays := k);
    assert At2(s, f, lid, srv0, h, Holder(2), o, q) by { DoAsk(s, f, lid, srv0, h, Holder(2), o, q0); }
    DoServe(s, f, lid, srv0, h, Holder(2), o, q);
    Acquires(lid, l0, [], [lid], LS.At(1), LS.At(0), o, n);
    assert [] + [o] == [o] && [] + [(lid, h)] == [(lid, h)];
    var srv1 := Srv(lid, LS.LockInfo(h, 1, LS.ACQUIRED, [o], ""), [(lid, h)], [lid], LS.At(1), LS.At(0));
    DoRefused(s, f, lid, srv1, h, Holder(2), o, q.(acq := Answered(false)));
  }

  /** The retryer invites `o` although `h` holds the lock. */
  lemma InvitedWhileHeld(s: Sys, f: Origin, lid: Id, h: Cid, o: Cid, n: int, k: nat)
    requires h != o
    requires var srv := Srv(lid, LS.LockInfo(h, 1, LS.ACQUIRED, [], ""), [], [lid], LS.At(1), LS.At(0));
             At2(s, f, lid, srv, h, Holder(2), o, Idle(n, k))
    ensures var srv := Srv(lid, LS.LockInfo(h, 1, LS.ACQUIRED, [], o), [(lid, h)], [lid], LS.Calling(0, lid, o),
            LS.At(0));
            At2(s, f, lid, srv, h, Holder(2), o, Waiter(lid, n + 1, k))
  {
    AskBehind(s, f, lid, h, o, n, k);
    var l1, q := LS.LockInfo(h, 1, LS.ACQUIRED, [o], ""), Waiter(lid, n + 1, k);
    var srv1 := Srv(lid, l1, [(lid, h)], [lid], LS.At(1), LS.At(0));
    DoThread(s, f, lid, srv1, h, Holder(2), o, q, LS.Visit);
    var srv2 := srv1.(retryer := LS.At(0));
    DoThread(s, f, lid, srv2, h, Holder(2), o, q, LS.Visit);
    Invites(lid, l1, [(lid, h)], [lid], LS.At(0));
    assert [o][1..] == [];
  }

  // ------------------------------------------------------------------- how the runs end

  ghost predicate BothHold(w: Sys, s: Sys, a: Cid, b: Cid, lid: Id) {
    && a in w.clients && b in w.clients && a != b && w.store == s.store && w.truth == s.truth
    && w.clients[a].ec == NO_CACHE && w.clients[a].holder == map[lid := 0]
    && w.clients[b].ec == NO_CACHE && w.clients[b].holder == map[lid := 0]
  }

  lemma BothAt(s: Sys, f: Origin, lid: Id, srv: LS.Server, a: Cid, p: Part, b: Cid, q: Part)
    requires At2(s, f, lid, srv, a, p, b, q) && p.held && q.held && p.ec == q.ec == NO_CACHE
    ensures exists w :: Reaches(f, w) && BothHold(w, s, a, b, lid)
  {
    var w := Two(s, srv, a, Cl(lid, p), b, Cl(lid, q));
    assert w.clients[a] == Cl(lid, p) && w.clients[b] == Cl(lid, q);
  }

  /** A client that is served last obtains the lock. */
  lemma Obtain(s: Sys, f: Origin, lid: Id, l: LS.LockInfo, revokes: seq<(Id, Cid)>, free: seq<Id>, rv: LS.Place,
      h: Cid, p: Part,
               o: Cid, n: int, k: nat)
    requires var srv := Srv(lid, l, revokes, free, LS.Calling(0, lid, o), rv); At2(s, f, lid, srv, h, p, o,
             Waiter(lid, n, k))
    requires LS.Grants(l, o) && p.held && p.ec == NO_CACHE
    ensures exists w :: Reaches(f, w) && BothHold(w, s, h, o, lid)
  {
    var rt := LS.Calling(0, lid, o);
    var srv := Srv(lid, l, revokes, free, rt, rv);
    var q := Asker(lid, n + 1, Asked).(strays := k);
    AskAgain(s, f, lid, srv, h, p, o, n, k);
    DoServe(s, f, lid, srv, h, p, o, q);
    Acquires(lid, l, revokes, free, rt, rv, o, n);
    var srv1 := Srv(lid, LS.AcquireLock(l, o, n), revokes, free, rt, rv);
    DoGranted(s, f, lid, srv1, h, p, o, q.(acq := Answered(true)));
    BothAt(s, f, lid, srv1, h, p, o, q.(acq := NoCall, l := LC.AcquireReply(q.l, LC.OK), pc := Out, held := true));
  }

  /** Taken again after a release that was given up: that release is executed when `o` is invited, and frees the lock
      that `h` holds. */
  lemma TakenReleasing(s: Sys, lid: Id, h: Cid, o: Cid)
    requires Init(s) && h in s.clients && o in s.clients && h != o && h != ""
    ensures exists w :: Reaches(Origin(s, TakeIn(LC.RELEASING)), w) && BothHold(w, s, h, o, lid)
  {
    var f := Origin(s, TakeIn(LC.RELEASING));
    var srv0 := Srv(lid, LS.LockInfo(o, 0, LS.ACQUIRED, [h], ""), [], [], LS.At(0), LS.At(0));
    Leave(s, f, lid, h, o);
    DoGiveUp(s, f, lid, srv0, h, Waiter(lid, 1, 0), o, Leaver(lid, 2, 0));
    var q := Leaver(lid, 2, 0).(r := Resting);
    DoTake(s, f, lid, srv0, h, Waiter(lid, 1, 0), o, q);
    DoFlush(s, f, lid, srv0, h, Waiter(lid, 1, 0), o, q.(l := LC.Take(q.l), r := Taken(lid)));
    HandBack(s, f, lid, h, o, 3, 1);
    PassOn(s, f, lid, h, o, 3, 1);
    InvitedWhileHeld(s, f, lid, h, o, 3, 1);
    var l := LS.LockInfo(h, 1, LS.ACQUIRED, [], o);
    var srv1 := Srv(lid, l, [(lid, h)], [lid], LS.Calling(0, lid, o), LS.At(0));
    DoStray(s, f, lid, srv1, h, Holder(2), o, Waiter(lid, 4, 1));
    Releases(lid, l, [(lid, h)], [lid], LS.Calling(0, lid, o), LS.At(0), o);
    Obtain(s, f, lid, LS.ReleaseLock(l), [(lid, h)], [lid] + [lid], LS.At(0), h, Holder(2), o, 4, 0);
  }

  lemma InvitedOnce(s: Sys, f: Origin, lid: Id, h: Cid, o: Cid)
    requires Init(s) && f.s == s && h in s.clients && o in s.clients && h != o
    ensures var l, rt := LS.LockInfo(h, 1, LS.ACQUIRED, [], o), LS.Calling(0, lid, o);
            var srv := Srv(lid, l, [(lid, h)], [lid], rt, LS.At(0));
            At2(s, f, lid, srv, h, Holder(2), o, Waiter(lid, 3, 0))
  {
    Leave(s, f, lid, h, o);
    HandBack(s, f, lid, h, o, 2, 0);
    PassOn(s, f, lid, h, o, 2, 0);
    InvitedWhileHeld(s, f, lid, h, o, 2, 0);
  }

  /** Invited while `h` holds the lock, `o` asks and is refused; as it waits again, the retryer queues a revoke. */
  lemma RevokedWaiter(s: Sys, f: Origin, lid: Id, h: Cid, o: Cid)
    requires Init(s) && f.s == s && h in s.clients && o in s.clients && h != o && h != ""
    ensures var srv := Srv(lid, LS.LockInfo(h, 1, LS.ACQUIRED, [o], o), [(lid, h), (lid, o)], [], LS.At(0), LS.At(0));
            At2(s, f, lid, srv, h, Holder(2), o, Waiter(lid, 4, 0))
  {
    InvitedOnce(s, f, lid, h, o);
    var l, rt := LS.LockInfo(h, 1, LS.ACQUIRED, [], o), LS.Calling(0, lid, o);
    var srv0 := Srv(lid, l, [(lid, h)], [lid], rt, LS.At(0));
    AskAgain(s, f, lid, srv0, h, Holder(2), o, 3, 0);
    DoServe(s, f, lid, srv0, h, Holder(2), o, Asker(lid, 4, Asked));
    Acquires(lid, l, [(lid, h)], [lid], rt, LS.At(0), o, 3);
    assert [] + [o] == [o];
    var srv1 := Srv(lid, l.(waiting := [o]), [(lid, h)], [lid], rt, LS.At(0));
    DoRefused(s, f, lid, srv1, h, Holder(2), o, Asker(lid, 4, Answered(false)));
    DoThread(s, f, lid, srv1, h, Holder(2), o, Waiter(lid, 4, 0), LS.Return(true));
    assert [(lid, h)] + [(lid, o)] == [(lid, h), (lid, o)];
  }

  /** The revoke reaches `o`, whose releaser takes the lock it does not have and calls the server. */
  lemma TakesNothing(s: Sys, lid: Id, h: Cid, o: Cid) returns (q: Part)
    requires Init(s) && h in s.clients && o in s.clients && h != o && h != ""
    ensures var srv := Srv(lid, LS.LockInfo(h, 1, LS.ACQUIRED, [o], o), [(lid, h), (lid, o)], [], LS.At(0),
            LS.Calling(1, lid, o));
            At2(s, Origin(s, TakeIn(LC.NONE)), lid, srv, h, Holder(2), o, q)
    ensures q == Part(LC.LockInfo(LC.RELEASING, 5, [0], true, false), true, AwaitRetry(lid), NoCall, Asked,
            Waiting(lid), false, 0)
  {
    var f, l := Origin(s, TakeIn(LC.NONE)), LS.LockInfo(h, 1, LS.ACQUIRED, [o], o);
    var queue := [(lid, h), (lid, o)];
    var srv0 := Srv(lid, l, queue, [], LS.At(0), LS.At(0));
    q := Waiter(lid, 4, 0);
    RevokedWaiter(s, f, lid, h, o);
    DoThread(s, f, lid, srv0, h, Holder(2), o, q, LS.Revoke);
    var srv1 := srv0.(revoker := LS.Calling(0, lid, h));
    DoThread(s, f, lid, srv1, h, Holder(2), o, q, LS.Revoked(false));
    var srv2 := srv0.(revoker := LS.At(1));
    DoThread(s, f, lid, srv2, h, Holder(2), o, q, LS.Revoke);
    var srv3 := srv0.(revoker := LS.Calling(1, lid, o));
    DoRevoke(s, f, lid, srv3, h, Holder(2), o, q);
    q := q.(l := q.l.(toBeRevoked := true), queued := true);
    DoTake(s, f, lid, srv3, h, Holder(2), o, q);
    q := q.(l := LC.Take(q.l), r := Taken(lid));
    DoFlush(s, f, lid, srv3, h, Holder(2), o, q);
    q := q.(r := Waiting(lid), rel := Asked);
  }

  /** Taken when it has no lock: the server accepts the release from the invited `o` and frees the lock of `h`. */
  lemma TakenNone(s: Sys, lid: Id, h: Cid, o: Cid)
    requires Init(s) && h in s.clients && o in s.clients && h != o && h != ""
    ensures exists w :: Reaches(Origin(s, TakeIn(LC.NONE)), w) && BothHold(w, s, h, o, lid)
  {
    var f, l, rv := Origin(s, TakeIn(LC.NONE)), LS.LockInfo(h, 1, LS.ACQUIRED, [o], o), LS.Calling(1, lid, o);
    var queue := [(lid, h), (lid, o)];
    var q := TakesNothing(s, lid, h, o);
    var srv0 := Srv(lid, l, queue, [], LS.At(0), rv);
    DoServeRelease(s, f, lid, srv0, h, Holder(2), o, q);
    Releases(lid, l, queue, [], LS.At(0), rv, o);
    assert [] + [lid] == [lid] && [o][1..] == [];
    var l1 := LS.ReleaseLock(l);
    var srv1 := Srv(lid, l1, queue, [lid], LS.At(0), rv);
    DoGiveBack(s, f, lid, srv1, h, Holder(2), o, q.(rel := Answered(true)));
    DoThread(s, f, lid, srv1, h, Holder(2), o, Waiter(lid, 5, 0), LS.Visit);
    Invites(lid, l1, queue, [lid], rv);
    Obtain(s, f, lid, LS.InviteFirst(l1), queue, [lid], rv, h, Holder(2), o, 5, 0);
  }

  /** `a` has been granted the lock and has not heard of it; `b` was refused, and the revoker calls `a`. */
  lemma GrantUnheard(s: Sys, f: Origin, lid: Id, a: Cid, b: Cid)
    requires Init(s) && f.s == s && a in s.clients && b in s.clients && a != b
    ensures var l, rv := LS.LockInfo(a, 0, LS.ACQUIRED, [b], ""), LS.Calling(0, lid, a);
            var srv := Srv(lid, l, [(lid, a)], [], LS.At(0), rv);
            At2(s, f, lid, srv, b, Waiter(lid, 1, 0), a, Asker(lid, 1, Answered(true)))
  {
    var boot, l1 := LS.BOOT.srv, LS.LockInfo(a, 0, LS.ACQUIRED, [], "");
    Start(s, f, lid, b, a);
    DoAsk(s, f, lid, boot, b, Begun(lid), a, Begun(lid));
    DoServe(s, f, lid, boot, b, Begun(lid), a, Asker(lid, 1, Asked));
    var srv1, q := Srv(lid, l1, [], [], LS.At(0), LS.At(0)), Asker(lid, 1, Answered(true));
    assert LS.AcquireStep(boot, a, 0, lid).0 == srv1 by { MapPut(lid, l1, l1); }
    Swap(s, f, lid, srv1, b, Begun(lid), a, q);
    DoAsk(s, f, lid, srv1, a, q, b, Begun(lid));
    DoServe(s, f, lid, srv1, a, q, b, Asker(lid, 1, Asked));
    Acquires(lid, l1, [], [], LS.At(0), LS.At(0), b, 0);
    assert [] + [b] == [b] && [] + [(lid, a)] == [(lid, a)];
    var srv2 := Srv(lid, l1.(waiting := [b]), [(lid, a)], [], LS.At(0), LS.At(0));
    DoRefused(s, f, lid, srv2, a, q, b, Asker(lid, 1, Answered(false)));
    Swap(s, f, lid, srv2, a, q, b, Waiter(lid, 1, 0));
    DoThread(s, f, lid, srv2, b, Waiter(lid, 1, 0), a, q, LS.Revoke);
  }

  /** Taken while its grant is on its way: the lock goes to `b`, and then the old answer reaches `a`. */
  lemma TakenAcquiring(s: Sys, lid: Id, a: Cid, b: Cid)
    requires Init(s) && a in s.clients && b in s.clients && a != b && b != ""
    ensures exists w :: Reaches(Origin(s, TakeIn(LC.ACQUIRING)), w) && BothHold(w, s, b, a, lid)
  {
    var f, rv, p := Origin(s, TakeIn(LC.ACQUIRING)), LS.Calling(0, lid, a), Waiter(lid, 1, 0);
    var l0, queue := LS.LockInfo(a, 0, LS.ACQUIRED, [b], ""), [(lid, a)];
    var srv0, q := Srv(lid, l0, queue, [], LS.At(0), rv), Asker(lid, 1, Answered(true));
    GrantUnheard(s, f, lid, a, b);
    DoRevoke(s, f, lid, srv0, b, p, a, q);
    q := q.(l := q.l.(toBeRevoked := true), queued := true);
    DoTake(s, f, lid, srv0, b, p, a, q);
    q := q.(l := LC.Take(q.l), r := Taken(lid));
    DoFlush(s, f, lid, srv0, b, p, a, q);
    q := q.(r := Waiting(lid), rel := Asked);
    DoServeRelease(s, f, lid, srv0, b, p, a, q);
    Releases(lid, l0, queue, [], LS.At(0), rv, a);
    assert [] + [lid] == [lid] && [b][1..] == [];
    var l1 := LS.ReleaseLock(l0);
    var srv1 := Srv(lid, l1, queue, [lid], LS.At(0), rv);
    DoGiveBack(s, f, lid, srv1, b, p, a, q.(rel := Answered(true)));
    OldGrantArrives(s, lid, a, b);
  }

  lemma OldGrantArrives(s: Sys, lid: Id, a: Cid, b: Cid)
    requires a != b && b != ""
    requires var srv := Srv(lid, LS.LockInfo("", 0, LS.FREE, [b], ""), [(lid, a)], [lid], LS.At(0),
             LS.Calling(0, lid, a));
             At2(s, Origin(s, TakeIn(LC.ACQUIRING)), lid, srv, b, Waiter(lid, 1, 0), a,
                 Part(LC.LockInfo(LC.NONE, 2, [0], false, false), false, Calling(lid), Answered(true), NoCall,
                     Resting, false, 0))
    ensures exists w :: Reaches(Origin(s, TakeIn(LC.ACQUIRING)), w) && BothHold(w, s, b, a, lid)
  {
    var f, rv, l1, queue := Origin(s, TakeIn(LC.ACQUIRING)), LS.Calling(0, lid, a),
        LS.LockInfo("", 0, LS.FREE, [b], ""), [(lid, a)];
    var srv1 := Srv(lid, l1, queue, [lid], LS.At(0), rv);
    var q := Part(LC.LockInfo(LC.NONE, 2, [0], false, false), false, Calling(lid), Answered(true), NoCall, Resting,
        false, 0);
    DoThread(s, f, lid, srv1, b, Waiter(lid, 1, 0), a, q, LS.Visit);
    Invites(lid, l1, queue, [lid], rv);
    var l2, rt := LS.InviteFirst(l1), LS.Calling(0, lid, b);
    var srv2 := Srv(lid, l2, queue, [lid], rt, rv);
    DoGranted(s, f, lid, srv2, b, Waiter(lid, 1, 0), a, q);
    q := q.(l := LC.AcquireReply(q.l, LC.OK), pc := Out, acq := NoCall, held := true);
    Swap(s, f, lid, srv2, b, Waiter(lid, 1, 0), a, q);
    Obtain(s, f, lid, l2, queue, [lid], rv, a, q, b, 1, 0);
    var w :| Reaches(f, w) && BothHold(w, s, a, b, lid);
    assert BothHold(w, s, b, a, lid);
  }

  /** A thread that does not hold the lock releases it, and another thread of that client, which waits for the lock,
      takes it to be free. */
  lemma UnlockedByOther(s: Sys, lid: Id, a: Cid, b: Cid)
    requires Init(s) && a in s.clients && b in s.clients && a != b
    ensures exists w :: Reaches(Origin(s, UnlockByOther), w) && BothHold(w, s, a, b, lid)
  {
    var f, boot, l1 := Origin(s, UnlockByOther), LS.BOOT.srv, LS.LockInfo(a, 0, LS.ACQUIRED, [], "");
    var srv, q := Srv(lid, l1, [], [], LS.At(0), LS.At(0)), Begun(lid);
    Start(s, f, lid, b, a);
    DoAsk(s, f, lid, boot, b, q, a, q);
    DoServe(s, f, lid, boot, b, q, a, Asker(lid, 1, Asked));
    assert LS.AcquireStep(boot, a, 0, lid).0 == srv by { MapPut(lid, l1, l1); }
    DoGranted(s, f, lid, srv, b, q, a, Asker(lid, 1, Answered(true)));
    assert [0 as Tid][1..] == [];
    Swap(s, f, lid, srv, b, q, a, Holder(1));
    DoWrongUnlock(s, f, lid, srv, a, Holder(1), b, q);
    q := q.(l := q.l.(state := LC.FREE));
    DoGot(s, f, lid, srv, a, Holder(1), b, q);
    BothAt(s, f, lid, srv, a, Holder(1), b, q.(l := LC.LoopStep(q.l, 0), pc := Out, held := true));
  }

  // --------------------------------------------------------------------- the guard is exact

  /** Whatever state but FREE the releaser may also take a lock in, and the code lets it take all but LOCKED: there is
      a run after which two clients hold the lock. With FREE alone there is none, by MutualExclusion. */
  lemma TwoHolders(s: Sys, lid: Id, a: Cid, b: Cid, l: LC.LockInfo)
    requires Init(s) && a in s.clients && b in s.clients && a != b && a != "" && b != ""
    requires LC.Takes(l) && l.state != LC.FREE
    ensures exists w :: Reaches(Origin(s, TakeIn(l.state)), w) && BothHold(w, s, a, b, lid)
  {
    match l.state
    case NONE => TakenNone(s, lid, a, b);
    case ACQUIRING => TakenAcquiring(s, lid, b, a);
    case RELEASING => TakenReleasing(s, lid, a, b);
  }

  lemma WriteAt(w: Sys, b: Cid, lid: Id, buf: string, now: nat)
    requires b in w.clients && w.clients[b].holder == map[lid := 0]
    ensures Possible(w, Write(b, 0, lid, buf, now)) && Orderly(w, Write(b, 0, lid, buf, now))
    ensures var w' := Apply(w, Write(b, 0, lid, buf, now));
            && w'.clients.Keys == w.clients.Keys && w'.store == w.store
                && w'.truth == w.truth[lid := File(buf, now, now, |buf|)]
            && (forall c | c in w.clients && c != b :: w'.clients[c] == w.clients[c])
  {}

  /** The read of a holder is allowed and does not return the truth. */
  ghost predicate Stale(w: Sys, a: Cid, lid: Id, now: nat) {
    && Possible(w, Read(a, 0, lid, now, true, true)) && Orderly(w, Read(a, 0, lid, now, true, true))
    && GetAnswer(w.clients[a].ec, w.store, lid) != Lookup(w.truth, lid)
  }

  lemma StaleAt(w: Sys, a: Cid, lid: Id, now: nat)
    requires a in w.clients && w.clients[a].ec == NO_CACHE && w.clients[a].holder == map[lid := 0]
    requires InStore(w.store, lid) != Lookup(w.truth, lid)
    ensures Stale(w, a, lid, now)
  {}

  /** When two clients hold the lock, the read of one does not return what the other wrote last. */
  lemma StaleFromBoth(f: Origin, lid: Id, a: Cid, b: Cid, buf: string, now: nat)
    requires Init(f.s) && Lookup(f.s.truth, lid) != Some(File(buf, now, now, |buf|))
    requires exists w :: Reaches(f, w) && BothHold(w, f.s, a, b, lid)
    ensures exists w :: Reaches(f, w) && Stale(w, a, lid, now)
  {
    var w :| Reaches(f, w) && BothHold(w, f.s, a, b, lid);
    WriteAt(w, b, lid, buf, now);
    var w' := Apply(w, Write(b, 0, lid, buf, now));
    Go(f, w, Write(b, 0, lid, buf, now), w');
    assert InStore(w'.store, lid) != Lookup(w'.truth, lid) by {
      assert InStore(f.s.store, lid) == Lookup(f.s.truth, lid);
    }
    StaleAt(w', a, lid, now);
  }

  /** And then the read of one, as a holder of the lock, does not return what the other wrote last. */
  lemma StaleRead(s: Sys, lid: Id, a: Cid, b: Cid, l: LC.LockInfo, buf: string, now: nat)
    requires Init(s) && a in s.clients && b in s.clients && a != b && a != "" && b != ""
    requires LC.Takes(l) && l.state != LC.FREE && Lookup(s.truth, lid) != Some(File(buf, now, now, |buf|))
    ensures exists w :: Reaches(Origin(s, TakeIn(l.state)), w) && Stale(w, a, lid, now)
  {
    TwoHolders(s, lid, a, b, l);
    StaleFromBoth(Origin(s, TakeIn(l.state)), lid, a, b, buf, now);
  }
}
