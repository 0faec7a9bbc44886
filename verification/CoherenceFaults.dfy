/**
 Each hypothesis of coherence is needed: for every way to break one there is a run that breaks it, in that way only, and
 ends with a lock holder reading something else than the last write or removal. The runs hand the lock back and forth
 between two clients.
 */
module CoherenceFaults {
  import opened Basics
  import LS = LockServer
  import LC = LockClient
  import opened ExtentCache
  import opened Coherence
  import opened CoherenceRuns

  // ------------------------------------------------------------------ steps that use the extent

  /** A step of the second client that may change the extent server and the truth. */
  lemma StepTo(s: Sys, s': Sys, f: Origin, lid: Id, srv: LS.Server, a: Cid, p: Part, b: Cid, q: Part, act: Action,
      q': Part)
    requires At2(s, f, lid, srv, a, p, b, q) && s'.clients == s.clients
    requires var w := Two(s, srv, a, Cl(lid, p), b, Cl(lid, q));
             && Possible(w, act) && Nearly(w, act, f.v)
             && Apply(w, act) == Sys(srv, s'.store, w.clients[b := Cl(lid, q')], s'.truth)
    ensures At2(s', f, lid, srv, a, p, b, q')
  {
    var w := Two(s, srv, a, Cl(lid, p), b, Cl(lid, q));
    assert s.clients[a := Cl(lid, p)][b := Cl(lid, q)][b := Cl(lid, q')]
        == s.clients[a := Cl(lid, p)][b := Cl(lid, q')];
    Go(f, w, act, Two(s', srv, a, Cl(lid, p), b, Cl(lid, q')));
  }

  lemma DoWrite(s: Sys, f: Origin, lid: Id, srv: LS.Server, a: Cid, p: Part, b: Cid, q: Part, buf: string, now: nat)
    requires At2(s, f, lid, srv, a, p, b, q) && q.held
    ensures At2(s.(truth := s.truth[lid := File(buf, now, now, |buf|)]), f, lid, srv, a, p, b,
                q.(ec := PutStep(q.ec, lid, buf, now)))
  {
    StepTo(s, s.(truth := s.truth[lid := File(buf, now, now, |buf|)]), f, lid, srv, a, p, b, q,
           Write(b, 0, lid, buf, now), q.(ec := PutStep(q.ec, lid, buf, now)));
  }

  /** The removal meets the hypothesis, or is the fault. */
  predicate MayDelete(ec: Cache, store: Store, lid: Id, v: Fault) {
    if lid in ec.local.extents then lid in store.extents || v.DeleteUnflushed?
    else Seen(ec, store, lid) == None || v.DeleteUncached?
  }

  lemma DoDelete(s: Sys, f: Origin, lid: Id, srv: LS.Server, a: Cid, p: Part, b: Cid, q: Part)
    requires At2(s, f, lid, srv, a, p, b, q) && q.held && MayDelete(q.ec, s.store, lid, f.v)
    ensures At2(s.(truth := s.truth - {lid}), f, lid, srv, a, p, b, q.(ec := RemoveStep(q.ec, lid)))
  {
    StepTo(s, s.(truth := s.truth - {lid}), f, lid, srv, a, p, b, q, Delete(b, 0, lid),
        q.(ec := RemoveStep(q.ec, lid)));
  }

  /** The outcome of the flush meets the hypothesis, or is the fault. */
  predicate MayFlush(ec: Cache, lid: Id, pu: Call, re: Call, v: Fault) {
    || FlushReturns(ec, lid, pu, re)
    || (v == PutEnds(pu) && (lid in ec.removed ==> re == Returned))
    || (v == RemoveEnds(re) && (lid in ec.modified ==> pu == Returned))
  }

  lemma DoFlushAs(s: Sys, f: Origin, lid: Id, srv: LS.Server, a: Cid, p: Part, b: Cid, q: Part, pu: Call, re: Call)
    requires At2(s, f, lid, srv, a, p, b, q) && q.r == Taken(lid) && q.rel.NoCall?
    requires (lid in q.ec.modified ==> Has(q.ec.local, lid)) && MayFlush(q.ec, lid, pu, re, f.v)
    ensures var (ec, store) := FlushStep(q.ec, s.store, lid, pu, re);
            At2(s.(store := store), f, lid, srv, a, p, b, q.(ec := ec, r := Waiting(lid), rel := Asked))
  {
    var (ec, store) := FlushStep(q.ec, s.store, lid, pu, re);
    MapPut(lid, q.rel, Asked);
    StepTo(s, s.(store := store), f, lid, srv, a, p, b, q, FlushTaken(b, pu, re),
           q.(ec := ec, r := Waiting(lid), rel := Asked));
  }

  // ------------------------------------------------------------- the lock changes hands

  /** A thread that is about to ask the server for the lock. */
  function Comer(lid: Id, n: int, ec: Cache): Part {
    Part(LC.LockInfo(LC.NONE, n, [0], false, false), false, Looping(lid), NoCall, NoCall, Resting, false, 0, ec)
  }

  function Freed(n: int, ec: Cache): Part {
    Part(LC.LockInfo(LC.FREE, n, [], false, false), false, Out, NoCall, NoCall, Resting, false, 0, ec)
  }

  /** `x` holds the lock, with the number `n` of its call, and `y` is about to ask for it. */
  ghost predicate TurnAt(s: Sys, f: Origin, lid: Id, x: Cid, y: Cid, n: int, m: int, ecx: Cache, ecy: Cache) {
    var srv := Srv(lid, LS.LockInfo(x, n - 1, LS.ACQUIRED, [], ""), [], [], LS.At(0), LS.At(0));
    At2(s, f, lid, srv, y, Comer(lid, m, ecy), x, Holder(n).(ec := ecx))
  }

  /** The holder unlocks, and the other asks and is refused. */
  lemma Refuse(s: Sys, f: Origin, lid: Id, x: Cid, y: Cid, n: int, m: int, ecx: Cache, ecy: Cache)
    requires TurnAt(s, f, lid, x, y, n, m, ecx, ecy)
    ensures var srv := Srv(lid, LS.LockInfo(x, n - 1, LS.ACQUIRED, [y], ""), [(lid, x)], [], LS.At(0), LS.At(0));
            At2(s, f, lid, srv, y, Waiter(lid, m + 1, 0).(ec := ecy), x, Freed(n, ecx))
  {
    var l := LS.LockInfo(x, n - 1, LS.ACQUIRED, [], "");
    var srv := Srv(lid, l, [], [], LS.At(0), LS.At(0));
    var q := Comer(lid, m, ecy);
    DoUnlock(s, f, lid, srv, y, q, x, Holder(n).(ec := ecx));
    Swap(s, f, lid, srv, y, q, x, Freed(n, ecx));
    DoAsk(s, f, lid, srv, x, Freed(n, ecx), y, q);
    q := Asker(lid, m + 1, Asked).(ec := ecy);
    DoServe(s, f, lid, srv, x, Freed(n, ecx), y, q);
    Acquires(lid, l, [], [], LS.At(0), LS.At(0), y, m);
    assert [] + [y] == [y] && [] + [(lid, x)] == [(lid, x)];
    var srv' := Srv(lid, LS.LockInfo(x, n - 1, LS.ACQUIRED, [y], ""), [(lid, x)], [], LS.At(0), LS.At(0));
    DoRefused(s, f, lid, srv', x, Freed(n, ecx), y, q.(acq := Answered(false)));
    Swap(s, f, lid, srv', x, Freed(n, ecx), y, Waiter(lid, m + 1, 0).(ec := ecy));
  }

  /** A client whose releaser is about to flush. */
  function Emptying(lid: Id, n: int, ec: Cache): Part {
    Part(LC.LockInfo(LC.RELEASING, n, [], true, false), true, Out, NoCall, NoCall, Taken(lid), false, 0, ec)
  }

  /** The owner of the free lock is asked for it. */
  lemma RevokeFreed(s: Sys, f: Origin, lid: Id, x: Cid, y: Cid, n: int, p: Part, q: Part)
    requires var srv := Srv(lid, LS.LockInfo(x, n - 1, LS.ACQUIRED, [y], ""), [(lid, x)], [], LS.At(0), LS.At(0));
             At2(s, f, lid, srv, y, p, x, q)
    ensures var srv := Srv(lid, LS.LockInfo(x, n - 1, LS.ACQUIRED, [y], ""), [], [], LS.At(0), LS.At(0));
            At2(s, f, lid, srv, y, p, x, q.(l := q.l.(toBeRevoked := true), queued := true))
  {
    var l := LS.LockInfo(x, n - 1, LS.ACQUIRED, [y], "");
    var srv0 := Srv(lid, l, [(lid, x)], [], LS.At(0), LS.At(0));
    DoThread(s, f, lid, srv0, y, p, x, q, LS.Revoke);
    var srv1 := srv0.(revoker := LS.Calling(0, lid, x));
    DoRevoke(s, f, lid, srv1, y, p, x, q);
    DoThread(s, f, lid, srv1, y, p, x, q.(l := q.l.(toBeRevoked := true), queued := true), LS.Revoked(true));
    assert LS.ThreadStep(srv1, LS.Revoked(true)) == Srv(lid, l, [], [], LS.At(0), LS.At(0));
  }

  /** Its releaser takes the lock. */
  lemma TakeFreed(s: Sys, f: Origin, lid: Id, x: Cid, y: Cid, n: int, p: Part, ecx: Cache)
    requires var srv := Srv(lid, LS.LockInfo(x, n - 1, LS.ACQUIRED, [y], ""), [(lid, x)], [], LS.At(0), LS.At(0));
             At2(s, f, lid, srv, y, p, x, Freed(n, ecx))
    ensures var srv := Srv(lid, LS.LockInfo(x, n - 1, LS.ACQUIRED, [y], ""), [], [], LS.At(0), LS.At(0));
            At2(s, f, lid, srv, y, p, x, Emptying(lid, n + 1, ecx))
  {
    var srv := Srv(lid, LS.LockInfo(x, n - 1, LS.ACQUIRED, [y], ""), [], [], LS.At(0), LS.At(0));
    var q := Freed(n, ecx);
    RevokeFreed(s, f, lid, x, y, n, p, q);
    q := q.(l := q.l.(toBeRevoked := true), queued := true);
    DoTake(s, f, lid, srv, y, p, x, q);
  }

  /** And then it flushes. */
  lemma FlushOut(s: Sys, f: Origin, lid: Id, x: Cid, y: Cid, n: int, p: Part, ecx: Cache, pu: Call, re: Call)
    requires var srv := Srv(lid, LS.LockInfo(x, n - 1, LS.ACQUIRED, [y], ""), [(lid, x)], [], LS.At(0), LS.At(0));
             At2(s, f, lid, srv, y, p, x, Freed(n, ecx))
    requires (lid in ecx.modified ==> Has(ecx.local, lid)) && MayFlush(ecx, lid, pu, re, f.v)
    ensures var srv := Srv(lid, LS.LockInfo(x, n - 1, LS.ACQUIRED, [y], ""), [], [], LS.At(0), LS.At(0));
            var (ec, store) := FlushStep(ecx, s.store, lid, pu, re);
            At2(s.(store := store), f, lid, srv, y, p, x, Leaver(lid, n + 1, 0).(ec := ec))
  {
    var srv := Srv(lid, LS.LockInfo(x, n - 1, LS.ACQUIRED, [y], ""), [], [], LS.At(0), LS.At(0));
    TakeFreed(s, f, lid, x, y, n, p, ecx);
    DoFlushAs(s, f, lid, srv, y, p, x, Emptying(lid, n + 1, ecx), pu, re);
  }

  /** The server takes the lock back and invites the other. */
  lemma GiveOver(s: Sys, f: Origin, lid: Id, x: Cid, y: Cid, k: int, n: int, p: Part, ecx: Cache)
    requires var srv := Srv(lid, LS.LockInfo(x, k, LS.ACQUIRED, [y], ""), [], [], LS.At(0), LS.At(0));
             At2(s, f, lid, srv, y, p, x, Leaver(lid, n, 0).(ec := ecx))
    ensures var srv := Srv(lid, LS.LockInfo("", k, LS.FREE, [], y), [], [lid], LS.Calling(0, lid, y), LS.At(0));
            At2(s, f, lid, srv, x, Idle(n, 0).(ec := ecx), y, p)
  {
    var l0, l1 := LS.LockInfo(x, k, LS.ACQUIRED, [y], ""), LS.LockInfo("", k, LS.FREE, [y], "");
    var srv0, q := Srv(lid, l0, [], [], LS.At(0), LS.At(0)), Leaver(lid, n, 0).(ec := ecx);
    DoServeRelease(s, f, lid, srv0, y, p, x, q);
    Releases(lid, l0, [], [], LS.At(0), LS.At(0), x);
    assert [] + [lid] == [lid] && [y][1..] == [];
    var srv1 := Srv(lid, l1, [], [lid], LS.At(0), LS.At(0));
    DoGiveBack(s, f, lid, srv1, y, p, x, q.(rel := Answered(true)));
    DoThread(s, f, lid, srv1, y, p, x, Idle(n, 0).(ec := ecx), LS.Visit);
    Invites(lid, l1, [], [lid], LS.At(0));
    var srv2 := Srv(lid, LS.LockInfo("", k, LS.FREE, [], y), [], [lid], LS.Calling(0, lid, y), LS.At(0));
    Swap(s, f, lid, srv2, y, p, x, Idle(n, 0).(ec := ecx));
  }

  /** The invited client is called back and asks again. */
  lemma CallBack(s: Sys, f: Origin, lid: Id, srv: LS.Server, x: Cid, p: Part, y: Cid, m: int, ecy: Cache)
    requires At2(s, f, lid, srv, x, p, y, Waiter(lid, m, 0).(ec := ecy))
    requires srv.retryer.Calling? && srv.retryer.lid == lid && srv.retryer.clt == y
    ensures At2(s, f, lid, srv, x, p, y, Asker(lid, m + 1, Asked).(ec := ecy))
  {
    var q := Waiter(lid, m, 0).(ec := ecy);
    DoRetry(s, f, lid, srv, x, p, y, q);
    q := q.(l := q.l.(retryReceived := true));
    DoWake(s, f, lid, srv, x, p, y, q);
    DoAsk(s, f, lid, srv, x, p, y, q.(pc := Looping(lid)));
  }

  /** The invited client obtains the lock. */
  lemma TakeOver(s: Sys, f: Origin, lid: Id, x: Cid, y: Cid, k: int, p: Part, m: int, ecy: Cache)
    requires var srv := Srv(lid, LS.LockInfo("", k, LS.FREE, [], y), [], [lid], LS.Calling(0, lid, y), LS.At(0));
             At2(s, f, lid, srv, x, p, y, Waiter(lid, m, 0).(ec := ecy))
    ensures var srv := Srv(lid, LS.LockInfo(y, m, LS.ACQUIRED, [], ""), [], [], LS.At(0), LS.At(0));
            At2(s, f, lid, srv, y, Holder(m + 1).(ec := ecy), x, p)
  {
    var l, rt := LS.LockInfo("", k, LS.FREE, [], y), LS.Calling(0, lid, y);
    var srv := Srv(lid, l, [], [lid], rt, LS.At(0));
    CallBack(s, f, lid, srv, x, p, y, m, ecy);
    DoServe(s, f, lid, srv, x, p, y, Asker(lid, m + 1, Asked).(ec := ecy));
    Acquires(lid, l, [], [lid], rt, LS.At(0), y, m);
    var srv1 := Srv(lid, LS.LockInfo(y, m, LS.ACQUIRED, [], ""), [], [lid], rt, LS.At(0));
    DoGranted(s, f, lid, srv1, x, p, y, Asker(lid, m + 1, Answered(true)).(ec := ecy));
    assert [0 as Tid][1..] == [];
    DoThread(s, f, lid, srv1, x, p, y, Holder(m + 1).(ec := ecy), LS.Return(true));
    var srv2 := Srv(lid, LS.LockInfo(y, m, LS.ACQUIRED, [], ""), [], [], LS.At(0), LS.At(0));
    assert LS.ThreadStep(srv1, LS.Return(true)) == srv2;
    Swap(s, f, lid, srv2, x, p, y, Holder(m + 1).(ec := ecy));
  }

  /** The holder gives the lock up, with a flush that ends as told, and the other gets it. */
  lemma HandoffAt(s: Sys, f: Origin, lid: Id, x: Cid, y: Cid, n: int, m: int, ecx: Cache, ecy: Cache, pu: Call,
      re: Call)
    requires TurnAt(s, f, lid, x, y, n, m, ecx, ecy)
    requires (lid in ecx.modified ==> Has(ecx.local, lid)) && MayFlush(ecx, lid, pu, re, f.v)
    ensures var (ec, store) := FlushStep(ecx, s.store, lid, pu, re);
            TurnAt(s.(store := store), f, lid, y, x, m + 2, n + 1, ecy, ec)
  {
    var (ec, store) := FlushStep(ecx, s.store, lid, pu, re);
    var s' := s.(store := store);
    Refuse(s, f, lid, x, y, n, m, ecx, ecy);
    FlushOut(s, f, lid, x, y, n, Waiter(lid, m + 1, 0).(ec := ecy), ecx, pu, re);
    GiveOver(s', f, lid, x, y, n - 1, n + 1, Waiter(lid, m + 1, 0).(ec := ecy), ec);
    TakeOver(s', f, lid, x, y, n - 1, Idle(n + 1, 0).(ec := ec), m + 1, ecy);
    var srv := Srv(lid, LS.LockInfo(y, m + 1, LS.ACQUIRED, [], ""), [], [], LS.At(0), LS.At(0));
    DoEnter(s', f, lid, srv, y, Holder(m + 2).(ec := ecy), x, Idle(n + 1, 0).(ec := ec));
    assert [] + [0 as Tid] == [0 as Tid];
    assert LC.Join(Idle(n + 1, 0).l, 0) == Comer(lid, n + 1, ec).l;
    Swap(s', f, lid, srv, y, Holder(m + 2).(ec := ecy), x, Comer(lid, n + 1, ec));
  }

  // ------------------------------------------------------------------------ turns

  /** `x` holds the lock with `ecx` in its cache, `y` comes with `ecy` in its own; the extent server has `store` and the
      last write or removal left `truth`. */
  ghost predicate Turn(f: Origin, lid: Id, x: Cid, y: Cid, ecx: Cache, ecy: Cache, store: Store, truth: Plain) {
    exists n, m :: TurnAt(f.s.(store := store, truth := truth), f, lid, x, y, n, m, ecx, ecy)
  }

  lemma Begin(f: Origin, lid: Id, x: Cid, y: Cid)
    requires Init(f.s) && x in f.s.clients && y in f.s.clients && x != y
    ensures Turn(f, lid, x, y, NO_CACHE, NO_CACHE, f.s.store, f.s.truth)
  {
    var s, boot := f.s, LS.BOOT.srv;
    Start(s, f, lid, y, x);
    DoAsk(s, f, lid, boot, y, Begun(lid), x, Begun(lid));
    DoServe(s, f, lid, boot, y, Begun(lid), x, Asker(lid, 1, Asked));
    var l := LS.LockInfo(x, 0, LS.ACQUIRED, [], "");
    var srv := Srv(lid, l, [], [], LS.At(0), LS.At(0));
    assert LS.AcquireStep(boot, x, 0, lid).0 == srv by { MapPut(lid, l, l); }
    DoGranted(s, f, lid, srv, y, Begun(lid), x, Asker(lid, 1, Answered(true)));
    assert [0 as Tid][1..] == [];
    assert TurnAt(s, f, lid, x, y, 1, 0, NO_CACHE, NO_CACHE);
    assert s.(store := s.store, truth := s.truth) == s;
  }

  lemma Handoff(f: Origin, lid: Id, x: Cid, y: Cid, ecx: Cache, ecy: Cache, store: Store, truth: Plain, pu: Call,
      re: Call)
    requires Turn(f, lid, x, y, ecx, ecy, store, truth)
    requires (lid in ecx.modified ==> Has(ecx.local, lid)) && MayFlush(ecx, lid, pu, re, f.v)
    ensures var (ec, store') := FlushStep(ecx, store, lid, pu, re); Turn(f, lid, y, x, ecy, ec, store', truth)
  {
    var s := f.s.(store := store, truth := truth);
    var n, m :| TurnAt(s, f, lid, x, y, n, m, ecx, ecy);
    HandoffAt(s, f, lid, x, y, n, m, ecx, ecy, pu, re);
    var (ec, store') := FlushStep(ecx, store, lid, pu, re);
    assert s.(store := store') == f.s.(store := store', truth := truth);
  }

  lemma Writes(f: Origin, lid: Id, x: Cid, y: Cid, ecx: Cache, ecy: Cache, store: Store, truth: Plain, buf: string,
      now: nat)
    requires Turn(f, lid, x, y, ecx, ecy, store, truth)
    ensures Turn(f, lid, x, y, PutStep(ecx, lid, buf, now), ecy, store, truth[lid := File(buf, now, now, |buf|)])
  {
    var s := f.s.(store := store, truth := truth);
    var n, m :| TurnAt(s, f, lid, x, y, n, m, ecx, ecy);
    var srv := Srv(lid, LS.LockInfo(x, n - 1, LS.ACQUIRED, [], ""), [], [], LS.At(0), LS.At(0));
    DoWrite(s, f, lid, srv, y, Comer(lid, m, ecy), x, Holder(n).(ec := ecx), buf, now);
    var truth' := truth[lid := File(buf, now, now, |buf|)];
    assert s.(truth := truth') == f.s.(store := store, truth := truth');
    assert TurnAt(s.(truth := truth'), f, lid, x, y, n, m, PutStep(ecx, lid, buf, now), ecy);
  }

  lemma Deletes(f: Origin, lid: Id, x: Cid, y: Cid, ecx: Cache, ecy: Cache, store: Store, truth: Plain)
    requires Turn(f, lid, x, y, ecx, ecy, store, truth) && MayDelete(ecx, store, lid, f.v)
    ensures Turn(f, lid, x, y, RemoveStep(ecx, lid), ecy, store, truth - {lid})
  {
    var s := f.s.(store := store, truth := truth);
    var n, m :| TurnAt(s, f, lid, x, y, n, m, ecx, ecy);
    var srv := Srv(lid, LS.LockInfo(x, n - 1, LS.ACQUIRED, [], ""), [], [], LS.At(0), LS.At(0));
    DoDelete(s, f, lid, srv, y, Comer(lid, m, ecy), x, Holder(n).(ec := ecx));
    assert s.(truth := truth - {lid}) == f.s.(store := store, truth := truth - {lid});
    assert TurnAt(s.(truth := truth - {lid}), f, lid, x, y, n, m, RemoveStep(ecx, lid), ecy);
  }

  // ------------------------------------------------------------------ caches of the runs

  /** Only `lid`, just written. */
  function Full(lid: Id, buf: string, now: nat): Cache {
    Cache(Store(map[lid := buf], map[lid := Attr(now, now, now, |buf|)]), [lid], [lid], [])
  }

  /** Only a queued removal of `lid`. */
  function Gone(lid: Id): Cache {
    Cache(Store(map[], map[]), [], [], [lid])
  }

  function Stored(store: Store, lid: Id, buf: string, now: nat): Store {
    StorePut(store, lid, buf, Attr(now, now, now, |buf|))
  }

  lemma Filled(lid: Id, buf: string, now: nat)
    ensures PutStep(NO_CACHE, lid, buf, now) == Full(lid, buf, now)
  {
    MapPut(lid, buf, buf);
    MapPut(lid, Attr(now, now, now, |buf|), Attr(now, now, now, |buf|));
    assert [] + [lid] == [lid];
  }

  lemma Removed(lid: Id, buf: string, now: nat)
    ensures RemoveStep(Full(lid, buf, now), lid) == Gone(lid)
  {
    MapPut(lid, buf, buf);
    MapPut(lid, Attr(now, now, now, |buf|), Attr(now, now, now, |buf|));
    assert [] + [lid] == [lid] && [lid][1..] == [];
  }

  lemma FlushFull(store: Store, lid: Id, buf: string, now: nat, pu: Call)
    ensures FlushStep(Full(lid, buf, now), store, lid, pu, Returned)
            == (if pu == Returned then NO_CACHE else Full(lid, buf, now),
                if pu == Lost then store else Stored(store, lid, buf, now))
  {
    MapPut(lid, buf, buf);
    MapPut(lid, Attr(now, now, now, |buf|), Attr(now, now, now, |buf|));
    assert [lid][1..] == [] && EraseAll([lid], lid) == EraseAll([], lid) == [];
  }

  lemma FlushGone(store: Store, lid: Id, re: Call)
    ensures FlushStep(Gone(lid), store, lid, Returned, re)
            == (if re == Returned && lid in store.extents then NO_CACHE else Gone(lid),
                if re == Lost then store else StoreRemove(store, lid))
  {
    assert [lid][1..] == [] && EraseAll([lid], lid) == EraseAll([], lid) == [];
  }

  // ------------------------------------------------------------------- parts of the runs

  lemma Fills(f: Origin, lid: Id, x: Cid, y: Cid, ecy: Cache, store: Store, truth: Plain, buf: string, now: nat)
    requires Turn(f, lid, x, y, NO_CACHE, ecy, store, truth)
    ensures Turn(f, lid, x, y, Full(lid, buf, now), ecy, store, truth[lid := File(buf, now, now, |buf|)])
  {
    Writes(f, lid, x, y, NO_CACHE, ecy, store, truth, buf, now);
    Filled(lid, buf, now);
  }

  lemma Empties(f: Origin, lid: Id, x: Cid, y: Cid, buf: string, now: nat, ecy: Cache, store: Store, truth: Plain)
    requires Turn(f, lid, x, y, Full(lid, buf, now), ecy, store, truth)
    requires lid in store.extents || f.v.DeleteUnflushed?
    ensures Turn(f, lid, x, y, Gone(lid), ecy, store, truth - {lid})
  {
    Deletes(f, lid, x, y, Full(lid, buf, now), ecy, store, truth);
    Removed(lid, buf, now);
  }

  /** The holder writes and hands the lock over with a flush whose put ends as told. */
  lemma WriteAndPass(f: Origin, lid: Id, x: Cid, y: Cid, ecy: Cache, store: Store, truth: Plain, buf: string,
      now: nat, pu: Call)
    requires Turn(f, lid, x, y, NO_CACHE, ecy, store, truth) && (pu == Returned || f.v == PutEnds(pu))
    ensures Turn(f, lid, y, x, ecy, if pu == Returned then NO_CACHE else Full(lid, buf, now),
                 if pu == Lost then store else Stored(store, lid, buf, now), truth[lid := File(buf, now, now, |buf|)])
  {
    Fills(f, lid, x, y, ecy, store, truth, buf, now);
    Handoff(f, lid, x, y, Full(lid, buf, now), ecy, store, truth[lid := File(buf, now, now, |buf|)], pu, Returned);
    FlushFull(store, lid, buf, now, pu);
  }

  /** The holder writes and removes the extent. */
  lemma WriteAndDelete(f: Origin, lid: Id, x: Cid, y: Cid, ecy: Cache, store: Store, truth: Plain)
    requires Turn(f, lid, x, y, NO_CACHE, ecy, store, truth) && (lid in store.extents || f.v.DeleteUnflushed?)
    ensures Turn(f, lid, x, y, Gone(lid), ecy, store, truth - {lid})
  {
    var truth' := truth[lid := File("a", 0, 0, 1)];
    Fills(f, lid, x, y, ecy, store, truth, "a", 0);
    Empties(f, lid, x, y, "a", 0, ecy, store, truth');
    assert truth' - {lid} == truth - {lid};
  }

  /** The holder can read, or commits the fault by reading, and gets something else than the truth. */
  ghost predicate Misreads(w: Sys, c: Cid, lid: Id, v: Fault) {
    && Possible(w, Read(c, 0, lid, 0, true, true)) && Nearly(w, Read(c, 0, lid, 0, true, true), v)
    && GetAnswer(w.clients[c].ec, w.store, lid) != Lookup(w.truth, lid)
  }

  ghost predicate GoesWrong(f: Origin, lid: Id, c: Cid) {
    exists w :: Reaches(f, w) && Misreads(w, c, lid, f.v)
  }

  lemma ReadIsWrong(w: Sys, c: Cid, lid: Id, v: Fault)
    requires c in w.clients && w.clients[c].holder == map[lid := 0]
    requires GetAnswer(w.clients[c].ec, w.store, lid) != Lookup(w.truth, lid)
    requires RemovalPending(w.clients[c].ec, w.store, lid) ==> v.ReadRemoved?
    ensures Misreads(w, c, lid, v)
  {
    assert lid in w.clients[c].holder && w.clients[c].holder[lid] == 0;
  }

  lemma Ends(f: Origin, lid: Id, x: Cid, y: Cid, ecx: Cache, ecy: Cache, store: Store, truth: Plain)
    requires Turn(f, lid, x, y, ecx, ecy, store, truth)
    requires GetAnswer(ecx, store, lid) != Lookup(truth, lid) && (RemovalPending(ecx, store, lid) ==> f.v.ReadRemoved?)
    ensures GoesWrong(f, lid, x)
  {
    var s := f.s.(store := store, truth := truth);
    var n, m :| TurnAt(s, f, lid, x, y, n, m, ecx, ecy);
    var srv := Srv(lid, LS.LockInfo(x, n - 1, LS.ACQUIRED, [], ""), [], [], LS.At(0), LS.At(0));
    var d := Cl(lid, Holder(n).(ec := ecx));
    var w := Two(s, srv, y, Cl(lid, Comer(lid, m, ecy)), x, d);
    assert w.clients[x] == d && d.holder == map[lid := 0] && d.ec == ecx;
    ReadIsWrong(w, x, lid, f.v);
  }

  /** One client has a removal queued that the server knows nothing of: what the other writes is lost when the first is
      asked for the lock once more. */
  lemma LeftoverBites(f: Origin, lid: Id, x: Cid, y: Cid, store: Store, truth: Plain)
    requires Turn(f, lid, x, y, NO_CACHE, Gone(lid), store, truth)
    ensures GoesWrong(f, lid, x)
  {
    var truth' := truth[lid := File("a", 0, 0, 1)];
    WriteAndPass(f, lid, x, y, Gone(lid), store, truth, "a", 0, Returned);
    var store' := Stored(store, lid, "a", 0);
    Handoff(f, lid, y, x, Gone(lid), NO_CACHE, store', truth', Returned, Returned);
    FlushGone(store', lid, Returned);
    Ends(f, lid, x, y, NO_CACHE, NO_CACHE, StoreRemove(store', lid), truth');
  }

  // ----------------------------------------------------------------------- one fault each

  lemma PutFails(f: Origin, lid: Id, x: Cid, y: Cid, buf: string)
    requires Init(f.s) && x in f.s.clients && y in f.s.clients && x != y
    requires f.v.PutEnds? && f.v.p != Returned && Lookup(f.s.truth, lid) != Some(File(buf, 0, 0, |buf|))
    ensures GoesWrong(f, lid, y) || GoesWrong(f, lid, x)
  {
    var s, pu := f.s, f.v.p;
    Begin(f, lid, x, y);
    WriteAndPass(f, lid, x, y, NO_CACHE, s.store, s.truth, buf, 0, pu);
    var truth := s.truth[lid := File(buf, 0, 0, |buf|)];
    if pu == Lost {
      assert InStore(s.store, lid) == Lookup(s.truth, lid);
      Ends(f, lid, y, x, NO_CACHE, Full(lid, buf, 0), s.store, truth);
    } else {
      var store, more := Stored(s.store, lid, buf, 0), buf + "a";
      WriteAndPass(f, lid, y, x, Full(lid, buf, 0), store, truth, more, 0, Returned);
      Ends(f, lid, x, y, Full(lid, buf, 0), NO_CACHE, Stored(store, lid, more, 0),
          truth[lid := File(more, 0, 0, |more|)]);
    }
  }

  /** `x` writes the extent and hands the lock to `y`, so that it is at the server and nobody caches it. */
  lemma Settle(f: Origin, lid: Id, x: Cid, y: Cid)
    requires Init(f.s) && x in f.s.clients && y in f.s.clients && x != y
    ensures Turn(f, lid, y, x, NO_CACHE, NO_CACHE, Stored(f.s.store, lid, "a", 0), f.s.truth[lid := File("a", 0, 0, 1)])
  {
    Begin(f, lid, x, y);
    WriteAndPass(f, lid, x, y, NO_CACHE, f.s.store, f.s.truth, "a", 0, Returned);
  }

  lemma RemoveFails(f: Origin, lid: Id, x: Cid, y: Cid)
    requires Init(f.s) && x in f.s.clients && y in f.s.clients && x != y && f.v.RemoveEnds? && f.v.q != Returned
    ensures GoesWrong(f, lid, x)
  {
    Settle(f, lid, x, y);
    var store, truth := Stored(f.s.store, lid, "a", 0), f.s.truth[lid := File("a", 0, 0, 1)];
    WriteAndDelete(f, lid, y, x, NO_CACHE, store, truth);
    Handoff(f, lid, y, x, Gone(lid), NO_CACHE, store, truth - {lid}, Returned, f.v.q);
    FlushGone(store, lid, f.v.q);
    if f.v.q == Lost {
      Ends(f, lid, x, y, NO_CACHE, Gone(lid), store, truth - {lid});
    } else {
      LeftoverBites(f, lid, x, y, StoreRemove(store, lid), truth - {lid});
    }
  }

  lemma UnflushedDeleted(f: Origin, lid: Id, x: Cid, y: Cid)
    requires Init(f.s) && x in f.s.clients && y in f.s.clients && x != y && f.v.DeleteUnflushed?
    ensures GoesWrong(f, lid, y)
  {
    Settle(f, lid, x, y);
    var store, truth := Stored(f.s.store, lid, "a", 0), f.s.truth[lid := File("a", 0, 0, 1)];
    WriteAndDelete(f, lid, y, x, NO_CACHE, store, truth);
    Handoff(f, lid, y, x, Gone(lid), NO_CACHE, store, truth - {lid}, Returned, Returned);
    FlushGone(store, lid, Returned);
    var store', truth' := StoreRemove(store, lid), truth - {lid};
    WriteAndDelete(f, lid, x, y, NO_CACHE, store', truth');
    Handoff(f, lid, x, y, Gone(lid), NO_CACHE, store', truth' - {lid}, Returned, Returned);
    FlushGone(store', lid, Returned);
    LeftoverBites(f, lid, y, x, store', truth' - {lid});
  }

  lemma UncachedDeleted(f: Origin, lid: Id, x: Cid, y: Cid)
    requires Init(f.s) && x in f.s.clients && y in f.s.clients && x != y && f.v.DeleteUncached?
    ensures GoesWrong(f, lid, y)
  {
    Settle(f, lid, x, y);
    var store, truth := Stored(f.s.store, lid, "a", 0), f.s.truth[lid := File("a", 0, 0, 1)];
    Deletes(f, lid, y, x, NO_CACHE, NO_CACHE, store, truth);
    Ends(f, lid, y, x, NO_CACHE, NO_CACHE, store, truth - {lid});
  }

  lemma RemovedRead(f: Origin, lid: Id, x: Cid, y: Cid)
    requires Init(f.s) && x in f.s.clients && y in f.s.clients && x != y && f.v.ReadRemoved?
    ensures GoesWrong(f, lid, y)
  {
    Settle(f, lid, x, y);
    var store, truth := Stored(f.s.store, lid, "a", 0), f.s.truth[lid := File("a", 0, 0, 1)];
    WriteAndDelete(f, lid, y, x, NO_CACHE, store, truth);
    Ends(f, lid, y, x, Gone(lid), NO_CACHE, store, truth - {lid});
  }

  lemma WrongTake(f: Origin, lid: Id, x: Cid, y: Cid, buf: string)
    requires Init(f.s) && x in f.s.clients && y in f.s.clients && x != y && x != "" && y != ""
    requires f.v.TakeIn? && f.v.st != LC.FREE && f.v.st != LC.LOCKED
    requires Lookup(f.s.truth, lid) != Some(File(buf, 0, 0, |buf|))
    ensures GoesWrong(f, lid, x)
  {
    StaleRead(f.s, lid, x, y, LC.NEW_LOCK.(state := f.v.st), buf, 0);
    assert f == Origin(f.s, TakeIn(f.v.st));
    var w :| Reaches(f, w) && Stale(w, x, lid, 0);
    assert Misreads(w, x, lid, f.v);
  }

  lemma WrongUnlock(f: Origin, lid: Id, x: Cid, y: Cid, buf: string)
    requires Init(f.s) && x in f.s.clients && y in f.s.clients && x != y && f.v == UnlockByOther
    requires Lookup(f.s.truth, lid) != Some(File(buf, 0, 0, |buf|))
    ensures GoesWrong(f, lid, x)
  {
    assert f == Origin(f.s, UnlockByOther);
    UnlockedByOther(f.s, lid, x, y);
    StaleFromBoth(f, lid, x, y, buf, 0);
    var w :| Reaches(f, w) && Stale(w, x, lid, 0);
    assert Misreads(w, x, lid, f.v);
  }

  /** The code allows the fault: a lock that a thread has locked is never taken, and a call that returns is no fault. */
  predicate Real(v: Fault) {
    match v
    case TakeIn(st) => st != LC.FREE && st != LC.LOCKED
    case PutEnds(p) => p != Returned
    case RemoveEnds(q) => q != Returned
    case _ => true
  }

  /** Whatever hypothesis is broken, and in whatever way, in a system with two clients there is a run with no other
      fault in which a lock holder's read does not return the last write or removal. */
  lemma HypothesesNeeded(s: Sys, lid: Id, x: Cid, y: Cid, v: Fault)
    requires Init(s) && x in s.clients && y in s.clients && x != y && x != "" && y != "" && Real(v)
    ensures GoesWrong(Origin(s, v), lid, x) || GoesWrong(Origin(s, v), lid, y)
  {
    var f := Origin(s, v);
    var buf := if Lookup(s.truth, lid) == Some(File("a", 0, 0, 1)) then "" else "a";
    match v
    case TakeIn(_) => WrongTake(f, lid, x, y, buf);
    case UnlockByOther => WrongUnlock(f, lid, x, y, buf);
    case PutEnds(_) => PutFails(f, lid, x, y, buf);
    case RemoveEnds(_) => RemoveFails(f, lid, x, y);
    case DeleteUncached => UncachedDeleted(f, lid, x, y);
    case DeleteUnflushed => UnflushedDeleted(f, lid, x, y);
    case ReadRemoved => RemovedRead(f, lid, x, y);
  }
}
