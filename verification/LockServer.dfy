/**
 The caching lock server: its two request handlers and its retryer and revoker threads. The threads drop the
 mutex while they call a client, so each of their rounds is two steps with anything in between.
 */
module LockServer {
  import opened Basics

  datatype LockState = FREE | ACQUIRED

  datatype Status = OK | RETRY | RPCERR

  type ClientId = string
  type LockId = nat

  datatype LockInfo = LockInfo(owner: ClientId, seqNum: int, state: LockState, waiting: seq<ClientId>, sentTo: ClientId)

  const NEW_LOCK := LockInfo("", 0, FREE, [], "")

  // ------------------------------------------------------- one lock: grant, queue, release

  /** The lock is granted to the invited client, or to anyone when nobody is invited or waits. */
  predicate Grants(li: LockInfo, clt: ClientId) {
    li.state == FREE && ((li.sentTo == "" && li.waiting == []) || li.sentTo == clt)
  }

  function AcquireLock(li: LockInfo, clt: ClientId, seqNum: int): LockInfo {
    if Grants(li, clt) then li.(owner := clt, state := ACQUIRED, seqNum := seqNum, sentTo := "")
    else if clt in li.waiting then li
    else li.(waiting := li.waiting + [clt])
  }

  predicate AcceptsRelease(li: LockInfo, clt: ClientId) {
    li.owner == clt || li.sentTo == clt
  }

  function ReleaseLock(li: LockInfo): LockInfo {
    li.(state := FREE, owner := "", sentTo := "")
  }

  /** The retryer invites the first waiting client. */
  predicate Invites(li: LockInfo) {
    li.waiting != [] && li.sentTo == ""
  }

  function InviteFirst(li: LockInfo): LockInfo
    requires Invites(li)
  {
    li.(waiting := li.waiting[1..], sentTo := li.waiting[0])
  }

  // ------------------------------------------------------------------ the whole server

  /** Where a thread is in its list; while calling it does not hold the mutex. */
  datatype Place = At(it: nat) | Calling(it: nat, lid: LockId, clt: ClientId)

  datatype Server = Server(
    locks: map<LockId, LockInfo>,
    revokes: seq<(LockId, ClientId)>,
    freeLocks: seq<LockId>,
    retryer: Place,
    revoker: Place)

  function Info(s: Server, lid: LockId): LockInfo {
    if lid in s.locks then s.locks[lid] else NEW_LOCK
  }

  function Append<T(==)>(q: seq<T>, x: T): seq<T> {
    if x in q then q else q + [x]
  }

  function AcquireStep(s: Server, clt: ClientId, seqNum: int, lid: LockId): (Server, Status) {
    var li := Info(s, lid);
    var t := s.(locks := s.locks[lid := AcquireLock(li, clt, seqNum)]);
    if Grants(li, clt) then (t, OK)
    else if li.state == ACQUIRED then (t.(revokes := Append(s.revokes, (lid, li.owner))), RETRY)
    else (t, RETRY)
  }

  function ReleaseStep(s: Server, clt: ClientId, lid: LockId): (Server, Status) {
    var li := Info(s, lid);
    if AcceptsRelease(li, clt) then
      (s.(locks := s.locks[lid := ReleaseLock(li)], freeLocks := s.freeLocks + [lid]), OK)
    else (s.(locks := s.locks[lid := li]), RPCERR)
  }

  /** The retryer looks at the lock its iterator stands on. */
  function RetryerVisit(s: Server): Server
    requires s.retryer.At?
  {
    var it := s.retryer.it;
    if it >= |s.freeLocks| then s.(retryer := At(0))
    else
      var lid := s.freeLocks[it];
      var li := Info(s, lid);
      if Invites(li) then
        s.(locks := s.locks[lid := InviteFirst(li)], retryer := Calling(it, lid, li.waiting[0]))
      else s.(locks := s.locks[lid := li], retryer := At(it + 1))
  }

  /** The retry call of the retryer has returned. */
  function RetryerReturn(s: Server, ok: bool): Server
    requires s.retryer.Calling? && s.retryer.it < |s.freeLocks|
  {
    var Calling(it, lid, clt) := s.retryer;
    var revokes := if Info(s, lid).waiting != [] then Append(s.revokes, (lid, clt)) else s.revokes;
    if ok then s.(revokes := revokes, freeLocks := RemoveAt(s.freeLocks, it), retryer := At(it))
    else s.(revokes := revokes, retryer := At(it + 1))
  }

  function RevokerVisit(s: Server): Server
    requires s.revoker.At?
  {
    var it := s.revoker.it;
    if it >= |s.revokes| then s.(revoker := At(0))
    else s.(revoker := Calling(it, s.revokes[it].0, s.revokes[it].1))
  }

  function RevokerReturn(s: Server, ok: bool): Server
    requires s.revoker.Calling? && s.revoker.it < |s.revokes|
  {
    var it := s.revoker.it;
    if ok then s.(revokes := RemoveAt(s.revokes, it), revoker := At(it)) else s.(revoker := At(it + 1))
  }

  class LockServerCache {
    var locks: map<LockId, LockInfo>
    var revokes: seq<(LockId, ClientId)>
    var freeLocks: seq<LockId>
    var retryer: Place
    var revoker: Place

    constructor ()
      ensures State() == Server(map[], [], [], At(0), At(0))
    {
      locks, revokes, freeLocks, retryer, revoker := map[], [], [], At(0), At(0);
    }

    function State(): Server
      reads this
    {
      Server(locks, revokes, freeLocks, retryer, revoker)
    }

    method Acquire(clt: ClientId, seqNum: int, lid: LockId) returns (r: Status)
      modifies this
      ensures (State(), r) == AcquireStep(old(State()), clt, seqNum, lid)
    {
      if lid !in locks { locks := locks[lid := NEW_LOCK]; }
      var li := locks[lid];
      if li.state == FREE && ((li.sentTo == "" && li.waiting == []) || li.sentTo == clt) {
        locks := locks[lid := li.(owner := clt, state := ACQUIRED, seqNum := seqNum, sentTo := "")];
        assert locks == old(locks)[lid := AcquireLock(li, clt, seqNum)];
        return OK;
      }
      if clt !in li.waiting {
        locks := locks[lid := li.(waiting := li.waiting + [clt])];
      }
      assert locks == old(locks)[lid := AcquireLock(li, clt, seqNum)];
      if li.state == ACQUIRED && (lid, li.owner) !in revokes {
        revokes := revokes + [(lid, li.owner)];
      }
      return RETRY;
    }

    method Release(clt: ClientId, seqNum: int, lid: LockId) returns (r: Status)
      modifies this
      ensures (State(), r) == ReleaseStep(old(State()), clt, lid)
    {
      if lid !in locks { locks := locks[lid := NEW_LOCK]; }
      var li := locks[lid];
      assert locks == old(locks)[lid := li];
      if li.owner != clt && li.sentTo != clt { return RPCERR; }
      locks := locks[lid := li.(state := FREE, owner := "", sentTo := "")];
      freeLocks := freeLocks + [lid];
      assert locks == old(locks)[lid := ReleaseLock(li)];
      return OK;
    }

    /** The retryer up to its call; `call` says whether it calls a client. */
    method Visit() returns (call: bool)
      requires retryer.At?
      modifies this
      ensures State() == RetryerVisit(old(State()))
      ensures call <==> retryer.Calling?
    {
      var it := retryer.it;
      if it >= |freeLocks| {
        retryer := At(0);
        return false;
      }
      var lid := freeLocks[it];
      if lid !in locks { locks := locks[lid := NEW_LOCK]; }
      var li := locks[lid];
      assert locks == old(locks)[lid := li];
      if li.waiting != [] && li.sentTo == "" {
        var clt := li.waiting[0];
        locks := locks[lid := li.(waiting := li.waiting[1..], sentTo := clt)];
        retryer := Calling(it, lid, clt);
        return true;
      }
      retryer := At(it + 1);
      return false;
    }

    /** The retryer after its call. */
    method Returned(ok: bool)
      requires retryer.Calling? && retryer.it < |freeLocks|
      modifies this
      ensures State() == RetryerReturn(old(State()), ok)
    {
      var Calling(it, lid, clt) := retryer;
      if lid in locks && locks[lid].waiting != [] && (lid, clt) !in revokes {
        revokes := revokes + [(lid, clt)];
      }
      if ok {
        freeLocks := freeLocks[..it] + freeLocks[it + 1..];
        retryer := At(it);
      } else {
        retryer := At(it + 1);
      }
    }

    /** The revoker up to its call and after it. */
    method VisitRevokes() returns (call: bool)
      requires revoker.At?
      modifies this
      ensures State() == RevokerVisit(old(State()))
      ensures call <==> revoker.Calling?
    {
      call := revoker.it < |revokes|;
      if call {
        revoker := Calling(revoker.it, revokes[revoker.it].0, revokes[revoker.it].1);
      } else {
        revoker := At(0);
      }
    }

    method ReturnedRevoke(ok: bool)
      requires revoker.Calling? && revoker.it < |revokes|
      modifies this
      ensures State() == RevokerReturn(old(State()), ok)
    {
      var it := revoker.it;
      if ok {
        revokes := revokes[..it] + revokes[it + 1..];
        revoker := At(it);
      } else {
        revoker := At(it + 1);
      }
    }
  }

  // ------------------------------------------------------------------------- runs

  /** A grant, or an accepted release with the client that had the lock then, if any. */
  datatype Event = Granted(lid: LockId, clt: ClientId) | Released(lid: LockId, clt: ClientId, owner: ClientId)

  /** The server with its history: grants and accepted releases; the clients that were told to retry later and have
      neither been called back nor been granted the lock since; the owners that a revoke has reached since their
      grant; and whether the revoke under way was sent before its lock was last granted. */
  datatype World = World(srv: Server, events: seq<Event>, owed: set<(LockId, ClientId)>,
      told: set<(LockId, ClientId)>, stale: bool)

  datatype Action =
    | Acquire(clt: ClientId, seqNum: int, lid: LockId)
    | Release(clt: ClientId, lid: LockId)
    | Visit
    | Return(ok: bool)
    | Revoke
    | Revoked(ok: bool)

  const BOOT := World(Server(map[], [], [], At(0), At(0)), [], {}, {}, false)

  predicate ThreadCan(s: Server, act: Action) {
    match act
    case Visit => s.retryer.At?
    case Return(_) => s.retryer.Calling? && s.retryer.it < |s.freeLocks|
    case Revoke => s.revoker.At?
    case Revoked(_) => s.revoker.Calling? && s.revoker.it < |s.revokes|
    case _ => false
  }

  function ThreadStep(s: Server, act: Action): Server
    requires ThreadCan(s, act)
  {
    match act
    case Visit => RetryerVisit(s)
    case Return(ok) => RetryerReturn(s, ok)
    case Revoke => RevokerVisit(s)
    case Revoked(ok) => RevokerReturn(s, ok)
  }

  predicate Possible(w: World, act: Action) {
    match act
    case Acquire(clt, _, _) => clt != ""
    case Release(clt, _) => clt != ""
    case _ => ThreadCan(w.srv, act)
  }

  /** The revoker is calling about `lid`. */
  predicate RevokingLock(s: Server, lid: LockId) {
    s.revoker.Calling? && s.revoker.lid == lid
  }

  function Apply(w: World, act: Action): World
    requires Possible(w, act)
  {
    match act
    case Acquire(clt, seqNum, lid) =>
      var (t, r) := AcquireStep(w.srv, clt, seqNum, lid);
      if r == OK then
        World(t, w.events + [Granted(lid, clt)], w.owed - {(lid, clt)}, w.told - {(lid, clt)}, w.stale
            || RevokingLock(w.srv, lid))
      else w.(srv := t, owed := w.owed + {(lid, clt)})
    case Release(clt, lid) =>
      var (t, r) := ReleaseStep(w.srv, clt, lid);
      w.(srv := t, events := if r == OK then w.events + [Released(lid, clt, Info(w.srv, lid).owner)] else w.events)
    case Visit => w.(srv := ThreadStep(w.srv, act))
    case Return(ok) =>
      w.(srv := ThreadStep(w.srv, act), owed := if ok then w.owed - {(w.srv.retryer.lid, w.srv.retryer.clt)}
          else w.owed)
    case Revoke => w.(srv := ThreadStep(w.srv, act), stale := false)
    case Revoked(ok) =>
      w.(srv := ThreadStep(w.srv, act),
         told := if ok && !w.stale then w.told + {(w.srv.revoker.lid, w.srv.revoker.clt)} else w.told)
  }

  ghost predicate IsRun(w: World, acts: seq<Action>)
    decreases |acts|
  {
    acts == [] || (Possible(w, acts[0]) && IsRun(Apply(w, acts[0]), acts[1..]))
  }

  ghost function After(w: World, acts: seq<Action>): World
    requires IsRun(w, acts)
    decreases |acts|
  {
    if acts == [] then w else After(Apply(w, acts[0]), acts[1..])
  }

  // -------------------------------------------------------------------- invariants

  /** A free lock is one without an owner; the waiting list names each client once. */
  ghost predicate LockOk(li: LockInfo) {
    (li.state == FREE <==> li.owner == "") && Distinct(li.waiting) && "" !in li.waiting
  }

  /** The lock is in the list of free locks at a place other than the one the retryer is about to erase. */
  ghost predicate Listed(s: Server, lid: LockId) {
    exists j :: 0 <= j < |s.freeLocks| && s.freeLocks[j] == lid && !(s.retryer.Calling? && s.retryer.it == j)
  }

  /** Somebody is responsible for the clients that wait for `lid`. */
  ghost predicate Attended(s: Server, lid: LockId) {
    var li := Info(s, lid);
    li.waiting != [] ==> li.state == ACQUIRED || li.sentTo != "" || Listed(s, lid)
  }

  ghost predicate PlaceOk(s: Server) {
    && (s.retryer.Calling? ==> s.retryer.it < |s.freeLocks| && s.freeLocks[s.retryer.it] == s.retryer.lid)
    && (s.revoker.Calling? ==> s.revoker.it < |s.revokes| && s.revokes[s.revoker.it] == (s.revoker.lid, s.revoker.clt))
  }

  /** The place after the last grant or accepted release of `lid`; 0 if there is none. */
  ghost function LastOf(events: seq<Event>, lid: LockId): (k: nat)
    ensures k <= |events|
    ensures k > 0 ==> events[k - 1].lid == lid
    ensures forall i | k <= i < |events| :: events[i].lid != lid
  {
    if events == [] then 0
    else if events[|events| - 1].lid == lid then |events|
    else LastOf(events[..|events| - 1], lid)
  }

  /** The last event of `lid` is a grant to `clt`. */
  ghost predicate Holds(events: seq<Event>, lid: LockId, clt: ClientId) {
    LastOf(events, lid) > 0 && events[LastOf(events, lid) - 1] == Granted(lid, clt)
  }

  ghost predicate LastIsGrant(events: seq<Event>, lid: LockId) {
    LastOf(events, lid) > 0 && events[LastOf(events, lid) - 1].Granted?
  }

  /** The release event names the client that held the lock, by the events before it. */
  ghost predicate OwnerNamed(before: seq<Event>, e: Event) {
    e.Released? ==> if e.owner == "" then !LastIsGrant(before, e.lid) else Holds(before, e.lid, e.owner)
  }

  ghost predicate OwnersNamed(events: seq<Event>) {
    forall k | 0 <= k < |events| :: OwnerNamed(events[..k], events[k])
  }

  ghost predicate Separated(events: seq<Event>) {
    forall i, j | 0 <= i < j < |events| && events[i].Granted? && events[j].Granted? && events[i].lid == events[j].lid ::
      exists k :: i < k < j && events[k].Released? && events[k].lid == events[i].lid
  }

  ghost predicate ServerOk(s: Server) {
    && (forall lid: LockId :: LockOk(Info(s, lid)) && Attended(s, lid))
    && PlaceOk(s)
  }

  /** A lock is held exactly when its last event is a grant, and then by the client it was granted to. */
  ghost predicate HistoryAt(w: World, lid: LockId) {
    var li := Info(w.srv, lid);
    && (LastIsGrant(w.events, lid) <==> li.state == ACQUIRED)
    && (li.state == ACQUIRED ==> Holds(w.events, lid, li.owner))
  }

  ghost predicate HistoryOk(w: World) {
    (forall lid: LockId :: HistoryAt(w, lid)) && Separated(w.events) && OwnersNamed(w.events)
  }

  ghost predicate Inv(w: World) {
    ServerOk(w.srv) && HistoryOk(w) && forall lid: LockId :: (lid, "") !in w.owed
  }

  // ------------------------------------------------------------- history of one lock

  lemma LastSnoc(events: seq<Event>, e: Event, lid: LockId)
    ensures LastOf(events + [e], lid) == if e.lid == lid then |events| + 1 else LastOf(events, lid)
  {
    assert (events + [e])[..|events|] == events;
  }

  lemma EventAdded(events: seq<Event>, e: Event)
    requires Separated(events) && OwnersNamed(events) && OwnerNamed(events, e)
    requires e.Granted? ==> !LastIsGrant(events, e.lid)
    ensures Separated(events + [e]) && OwnersNamed(events + [e])
  {
    var t := events + [e];
    SeparatedAdded(events, e);
    forall k | 0 <= k < |t| ensures OwnerNamed(t[..k], t[k]) {
      assert t[..k] == events[..k];
      if k == |events| { assert events[..k] == events; }
    }
  }

  lemma SeparatedAdded(events: seq<Event>, e: Event)
    requires Separated(events) && (e.Granted? ==> !LastIsGrant(events, e.lid))
    ensures Separated(events + [e])
  {
    var t := events + [e];
    forall i, j | 0 <= i < j < |t| && t[i].Granted? && t[j].Granted? && t[i].lid == t[j].lid
      ensures exists k :: i < k < j && t[k].Released? && t[k].lid == t[i].lid
    {
      if j == |events| {
        var k := LastOf(events, e.lid) - 1;
        assert i <= k && t[k].Released?;
      } else {
        var k :| i < k < j && events[k].Released? && events[k].lid == events[i].lid;
        assert t[k].Released?;
      }
    }
  }

  /** A release of a held lock comes from its owner. */
  predicate Fair(e: Event) {
    e.Released? ==> e.owner == "" || e.owner == e.clt
  }

  lemma OwnerHeld(events: seq<Event>, i: nat, m: nat)
    requires OwnersNamed(events) && (forall e | e in events :: Fair(e))
    requires i < m < |events| && events[i].Granted? && events[m].Released? && events[i].lid == events[m].lid
    requires forall l | i < l < m :: events[l].lid != events[i].lid
    ensures events[m] == Released(events[i].lid, events[i].clt, events[i].clt)
  {
    assert events[m] in events;
    var k := LastOf(events[..m], events[i].lid);
    assert events[..m][i].lid == events[i].lid;
    assert k == i + 1;
    assert OwnerNamed(events[..m], events[m]);
  }

  lemma {:induction false} FirstRelease(events: seq<Event>, i: nat, m: nat) returns (k: nat)
    requires Separated(events) && i < m < |events| && events[i].Granted? && events[m].Released?
             && events[i].lid == events[m].lid
    ensures i < k <= m && events[k].Released? && events[k].lid == events[i].lid
    ensures forall l | i < l < k :: events[l].lid != events[i].lid
    decreases m
  {
    var lid := events[i].lid;
    k := m;
    if l: nat :| i < l < m && events[l].lid == lid {
      if events[l].Granted? {
        var r: nat :| i < r < l && events[r].Released? && events[r].lid == lid;
        k := FirstRelease(events, i, r);
      } else {
        k := FirstRelease(events, i, l);
      }
    }
  }

  lemma ReleasedBetween(events: seq<Event>, i: nat, j: nat) returns (k: nat)
    requires Separated(events) && OwnersNamed(events) && forall e | e in events :: Fair(e)
    requires i < j < |events| && events[i].Granted? && events[j].Granted? && events[i].lid == events[j].lid
    ensures i < k < j && events[k] == Released(events[i].lid, events[i].clt, events[i].clt)
  {
    var m: nat :| i < m < j && events[m].Released? && events[m].lid == events[i].lid;
    k := FirstRelease(events, i, m);
    OwnerHeld(events, i, k);
  }

  // ------------------------------------------------------------- lists of the threads

  lemma ListedGrows(s: Server, t: Server, lid: LockId)
    requires Listed(s, lid) && |s.freeLocks| <= |t.freeLocks| && t.freeLocks[..|s.freeLocks|] == s.freeLocks
    requires t.retryer == s.retryer || t.retryer.At?
    ensures Listed(t, lid)
  {
    var j :| 0 <= j < |s.freeLocks| && s.freeLocks[j] == lid && !(s.retryer.Calling? && s.retryer.it == j);
    assert t.freeLocks[..|s.freeLocks|][j] == lid;
  }

  /** Erasing the entry the retryer stands on keeps every other entry. */
  lemma ListedErase(s: Server, t: Server, lid: LockId)
    requires s.retryer.Calling? && s.retryer.it < |s.freeLocks| && Listed(s, lid)
    requires t.freeLocks == RemoveAt(s.freeLocks, s.retryer.it) && t.retryer.At?
    ensures Listed(t, lid)
  {
    var it := s.retryer.it;
    var j :| 0 <= j < |s.freeLocks| && s.freeLocks[j] == lid && !(s.retryer.Calling? && s.retryer.it == j);
    var k := if j < it then j else j - 1;
    assert t.freeLocks[k] == lid;
  }

  // ---------------------------------------------------------------------- the steps

  lemma ServerAcquire(s: Server, clt: ClientId, seqNum: int, lid: LockId)
    requires ServerOk(s) && clt != ""
    ensures ServerOk(AcquireStep(s, clt, seqNum, lid).0)
  {
    var t := AcquireStep(s, clt, seqNum, lid).0;
    assert LockOk(Info(s, lid)) && Attended(s, lid);
    forall l: LockId ensures LockOk(Info(t, l)) && Attended(t, l) {
      assert LockOk(Info(s, l)) && Attended(s, l);
      if Listed(s, l) { ListedGrows(s, t, l); }
    }
  }

  lemma HistoryAdded(w: World, u: World, e: Event, lid: LockId)
    requires HistoryAt(w, lid) && u.events == w.events + [e]
    requires lid != e.lid ==> Info(u.srv, lid) == Info(w.srv, lid)
    requires lid == e.lid && e.Granted? ==> Info(u.srv, lid).state == ACQUIRED && Info(u.srv, lid).owner == e.clt
    requires lid == e.lid && e.Released? ==> Info(u.srv, lid).state == FREE
    ensures HistoryAt(u, lid)
  {
    LastSnoc(w.events, e, lid);
  }

  lemma HistoryAcquire(w: World, clt: ClientId, seqNum: int, lid: LockId)
    requires HistoryOk(w) && clt != ""
    ensures HistoryOk(Apply(w, Acquire(clt, seqNum, lid)))
  {
    var u := Apply(w, Acquire(clt, seqNum, lid));
    if Grants(Info(w.srv, lid), clt) {
      assert HistoryAt(w, lid);
      EventAdded(w.events, Granted(lid, clt));
      forall l: LockId ensures HistoryAt(u, l) {
        HistoryAdded(w, u, Granted(lid, clt), l);
      }
    } else {
      HistoryKept(w, u);
    }
  }

  lemma StepAcquire(w: World, clt: ClientId, seqNum: int, lid: LockId)
    requires Inv(w) && Possible(w, Acquire(clt, seqNum, lid))
    ensures Inv(Apply(w, Acquire(clt, seqNum, lid)))
  {
    ServerAcquire(w.srv, clt, seqNum, lid);
    HistoryAcquire(w, clt, seqNum, lid);
  }

  lemma ServerRelease(s: Server, clt: ClientId, lid: LockId)
    requires ServerOk(s)
    ensures ServerOk(ReleaseStep(s, clt, lid).0)
  {
    var t := ReleaseStep(s, clt, lid).0;
    forall l: LockId ensures LockOk(Info(t, l)) && Attended(t, l) {
      assert LockOk(Info(s, l)) && Attended(s, l);
      if Listed(s, l) { ListedGrows(s, t, l); }
      if l == lid && AcceptsRelease(Info(s, lid), clt) {
        assert t.freeLocks[|s.freeLocks|] == lid;
      }
    }
  }

  lemma HistoryRelease(w: World, clt: ClientId, lid: LockId)
    requires HistoryOk(w) && clt != "" && LockOk(Info(w.srv, lid))
    ensures HistoryOk(Apply(w, Release(clt, lid)))
  {
    var u, li := Apply(w, Release(clt, lid)), Info(w.srv, lid);
    var e := Released(lid, clt, li.owner);
    if AcceptsRelease(li, clt) {
      assert HistoryAt(w, lid);
      EventAdded(w.events, e);
      forall l: LockId ensures HistoryAt(u, l) {
        HistoryAdded(w, u, e, l);
      }
    } else {
      HistoryKept(w, u);
    }
  }

  lemma HistoryKept(w: World, u: World)
    requires HistoryOk(w) && u.events == w.events
    requires forall l: LockId ::
               Info(u.srv, l).state == Info(w.srv, l).state && Info(u.srv, l).owner == Info(w.srv, l).owner
    ensures HistoryOk(u)
  {
    forall l: LockId ensures HistoryAt(u, l) {
      assert HistoryAt(w, l);
    }
  }

  lemma StepRelease(w: World, clt: ClientId, lid: LockId)
    requires Inv(w) && Possible(w, Release(clt, lid))
    ensures Inv(Apply(w, Release(clt, lid)))
  {
    ServerRelease(w.srv, clt, lid);
    HistoryRelease(w, clt, lid);
  }

  lemma ServerVisit(s: Server)
    requires ServerOk(s) && s.retryer.At?
    ensures ServerOk(RetryerVisit(s))
  {
    var t := RetryerVisit(s);
    forall l: LockId ensures LockOk(Info(t, l)) && Attended(t, l) {
      assert LockOk(Info(s, l)) && Attended(s, l);
      if Listed(s, l) && t.retryer.At? { ListedGrows(s, t, l); }
      if Listed(s, l) && t.retryer.Calling? && l != t.retryer.lid { ListedCalling(s, t, l); }
    }
  }

  lemma StepVisit(w: World)
    requires Inv(w) && Possible(w, Visit)
    ensures Inv(Apply(w, Visit))
  {
    ServerVisit(w.srv);
    HistoryKept(w, Apply(w, Visit));
  }

  lemma ListedCalling(s: Server, t: Server, lid: LockId)
    requires Listed(s, lid) && t.freeLocks == s.freeLocks && t.retryer.Calling? && t.retryer.it < |s.freeLocks|
    requires s.freeLocks[t.retryer.it] != lid
    ensures Listed(t, lid)
  {
    var j :| 0 <= j < |s.freeLocks| && s.freeLocks[j] == lid && !(s.retryer.Calling? && s.retryer.it == j);
    assert t.freeLocks[j] == lid;
  }

  lemma ServerReturn(s: Server, ok: bool)
    requires ServerOk(s) && s.retryer.Calling? && s.retryer.it < |s.freeLocks|
    ensures ServerOk(RetryerReturn(s, ok))
  {
    var t := RetryerReturn(s, ok);
    forall l: LockId ensures LockOk(Info(t, l)) && Attended(t, l) {
      assert LockOk(Info(s, l)) && Attended(s, l);
      if Listed(s, l) {
        if ok { ListedErase(s, t, l); } else { ListedGrows(s, t, l); }
      }
    }
  }

  lemma StepReturn(w: World, ok: bool)
    requires Inv(w) && Possible(w, Return(ok))
    ensures Inv(Apply(w, Return(ok)))
  {
    ServerReturn(w.srv, ok);
    HistoryKept(w, Apply(w, Return(ok)));
  }

  lemma ServerRevoker(s: Server, t: Server)
    requires ServerOk(s) && PlaceOk(t)
    requires t.locks == s.locks && t.freeLocks == s.freeLocks && t.retryer == s.retryer
    ensures ServerOk(t)
  {
    forall l: LockId ensures LockOk(Info(t, l)) && Attended(t, l) {
      assert LockOk(Info(s, l)) && Attended(s, l);
      if Listed(s, l) { ListedGrows(s, t, l); }
    }
  }

  lemma StepRevoker(w: World, act: Action)
    requires Inv(w) && Possible(w, act) && (act.Revoke? || act.Revoked?)
    ensures Inv(Apply(w, act))
  {
    ServerRevoker(w.srv, Apply(w, act).srv);
    HistoryKept(w, Apply(w, act));
  }

  lemma StepKeeps(w: World, act: Action)
    requires Inv(w) && Possible(w, act)
    ensures Inv(Apply(w, act))
  {
    match act
    case Acquire(clt, seqNum, lid) => StepAcquire(w, clt, seqNum, lid);
    case Release(clt, lid) => StepRelease(w, clt, lid);
    case Visit => StepVisit(w);
    case Return(ok) => StepReturn(w, ok);
    case Revoke => StepRevoker(w, act);
    case Revoked(ok) => StepRevoker(w, act);
  }

  /** In every interleaving of requests, of any clients, with both halves of the two threads. */
  lemma {:induction false} RunKeeps(w: World, acts: seq<Action>)
    requires Inv(w) && IsRun(w, acts)
    ensures Inv(After(w, acts))
    decreases |acts|
  {
    if acts != [] {
      StepKeeps(w, acts[0]);
      RunKeeps(Apply(w, acts[0]), acts[1..]);
    }
  }

  lemma BootHolds()
    ensures Inv(BOOT)
  {}

  /** In every run waiting clients are attended, waiting lists name each client once, a lock is free exactly when it
      has no owner, and two grants of a lock have an accepted release of it between them. */
  lemma NoLostWaiter(acts: seq<Action>, lid: LockId)
    requires IsRun(BOOT, acts)
    ensures var w := After(BOOT, acts);
            var li := Info(w.srv, lid);
            && (li.waiting != [] ==> li.state == ACQUIRED || li.sentTo != "" || lid in w.srv.freeLocks)
            && Distinct(li.waiting) && (li.state == FREE <==> li.owner == "")
            && Separated(w.events)
  {
    BootHolds();
    RunKeeps(BOOT, acts);
    var w := After(BOOT, acts);
    assert LockOk(Info(w.srv, lid)) && Attended(w.srv, lid);
  }

  /** Mutual exclusion over runs: if no held lock was released by another than its owner, a lock is granted again
      only after its holder released it. */
  lemma HolderReleases(acts: seq<Action>, i: nat, j: nat) returns (k: nat)
    requires IsRun(BOOT, acts) && forall e | e in After(BOOT, acts).events :: Fair(e)
    requires var es := After(BOOT, acts).events;
             i < j < |es| && es[i].Granted? && es[j].Granted? && es[i].lid == es[j].lid
    ensures var es := After(BOOT, acts).events; i < k < j && es[k] == Released(es[i].lid, es[i].clt, es[i].clt)
  {
    BootHolds();
    RunKeeps(BOOT, acts);
    k := ReleasedBetween(After(BOOT, acts).events, i, j);
  }

  // --------------------------------------- three promises, and exactly when they are kept

  /** A client told to retry is not forgotten; an owner for whose lock others wait is asked to give it back; and a
      lock stays with the client it was granted to until that client releases it. */
  datatype Promise = CallBack | Summons | Possession

  predicate BeingCalled(s: Server, lid: LockId, clt: ClientId) {
    s.retryer.Calling? && s.retryer.lid == lid && s.retryer.clt == clt
  }

  /** The client waits, is invited, or is just being called back. */
  predicate Remembered(s: Server, lid: LockId, clt: ClientId) {
    clt in Info(s, lid).waiting || Info(s, lid).sentTo == clt || BeingCalled(s, lid, clt)
  }

  /** A revoke for this owner is queued, or has reached it since its grant. One that was sent before the grant and has
      not returned does not count. */
  predicate Summoned(w: World, lid: LockId, clt: ClientId) {
    || (lid, clt) in w.told
    || ((lid, clt) in w.srv.revokes && !(RevokingLock(w.srv, lid) && w.srv.revoker.clt == clt && w.stale))
  }

  /** The client that was granted the lock last and has not released it since. */
  function HeldBy(events: seq<Event>, lid: LockId): ClientId {
    if events == [] then ""
    else
      var e, h := events[|events| - 1], HeldBy(events[..|events| - 1], lid);
      if e.lid != lid then h
      else if e.Granted? then e.clt
      else if e.clt == h then "" else h
  }

  ghost predicate KeptFor(w: World, p: Promise, lid: LockId) {
    var li := Info(w.srv, lid);
    match p
    case CallBack => forall clt | (lid, clt) in w.owed :: Remembered(w.srv, lid, clt)
    case Summons => li.state == ACQUIRED && li.waiting != [] ==> Summoned(w, lid, li.owner)
    case Possession => HeldBy(w.events, lid) == li.owner
  }

  ghost predicate Kept(w: World, p: Promise) {
    forall lid: LockId :: KeptFor(w, p, lid)
  }

  /** The steps that break a promise, as one can tell before the step. */
  predicate Breaks(w: World, act: Action, p: Promise)
    requires Possible(w, act)
  {
    match p
    case CallBack =>
      (match act
       // an invited client whose callback failed is uninvited by a release
       case Release(clt, lid) =>
         var li := Info(w.srv, lid);
         && AcceptsRelease(li, clt) && li.sentTo != "" && (lid, li.sentTo) in w.owed
         && li.sentTo !in li.waiting && !BeingCalled(w.srv, lid, li.sentTo)
       // or the callback fails after the release
       case Return(ok) =>
         var li := Info(w.srv, w.srv.retryer.lid);
         !ok && (w.srv.retryer.lid, w.srv.retryer.clt) in w.owed && w.srv.retryer.clt !in li.waiting
             && li.sentTo != w.srv.retryer.clt
       case _ => false)
    case Summons =>
      act.Acquire? && var li := Info(w.srv, act.lid);
         if Grants(li, act.clt) then
           // the invited client is granted a lock others wait for, with no revoke queued for it
           li.waiting != [] && ((act.lid, act.clt) !in w.srv.revokes
               || (RevokingLock(w.srv, act.lid) && w.srv.revoker.clt == act.clt))
         else
           // a revoke from an earlier tenure of the owner, still under way, keeps a new one from being queued
           && li.state == ACQUIRED && li.waiting == [] && (act.lid, li.owner) !in w.told
           && (act.lid, li.owner) in w.srv.revokes && RevokingLock(w.srv, act.lid) && w.srv.revoker.clt == li.owner
               && w.stale
    case Possession =>
      // an invited client releases a lock that another has
      act.Release? && var li := Info(w.srv, act.lid);
         AcceptsRelease(li, act.clt) && li.owner != "" && li.owner != act.clt
  }

  /** The lock the step is about. */
  function Touched(w: World, act: Action): LockId
    requires Possible(w, act)
  {
    match act
    case Acquire(_, _, lid) => lid
    case Release(_, lid) => lid
    case Return(_) => w.srv.retryer.lid
    case _ => 0
  }

  lemma CallBackAt(w: World, act: Action, lid: LockId)
    requires Possible(w, act) && KeptFor(w, CallBack, lid) && (lid, "") !in w.owed
    ensures KeptFor(Apply(w, act), CallBack, lid) <==> !(Breaks(w, act, CallBack) && lid == Touched(w, act))
  {
    var u := Apply(w, act);
    if Breaks(w, act, CallBack) && lid == Touched(w, act) {
      var clt := if act.Release? then Info(w.srv, lid).sentTo else w.srv.retryer.clt;
      assert (lid, clt) in u.owed && !Remembered(u.srv, lid, clt);
    } else {
      forall clt | (lid, clt) in u.owed ensures Remembered(u.srv, lid, clt) {
        assert (lid, clt) in w.owed ==> Remembered(w.srv, lid, clt);
      }
    }
  }

  lemma SummonsAt(w: World, act: Action, lid: LockId)
    requires Possible(w, act) && PlaceOk(w.srv) && KeptFor(w, Summons, lid)
    ensures KeptFor(Apply(w, act), Summons, lid) <==> !(Breaks(w, act, Summons) && lid == Touched(w, act))
  {
  }

  lemma PossessionAt(w: World, act: Action, lid: LockId)
    requires Possible(w, act) && LockOk(Info(w.srv, lid)) && KeptFor(w, Possession, lid)
    ensures KeptFor(Apply(w, act), Possession, lid) <==> !(Breaks(w, act, Possession) && lid == Touched(w, act))
  {
    var u := Apply(w, act);
    if u.events != w.events {
      assert u.events[..|w.events|] == w.events;
    }
  }

  /** A step keeps a promise exactly when it is not one of the steps that break it. */
  lemma StepExact(w: World, act: Action, p: Promise)
    requires Inv(w) && Possible(w, act) && Kept(w, p)
    ensures Kept(Apply(w, act), p) <==> !Breaks(w, act, p)
  {
    forall lid: LockId ensures KeptFor(Apply(w, act), p, lid) <==> !(Breaks(w, act, p) && lid == Touched(w, act)) {
      assert KeptFor(w, p, lid);
      match p
      case CallBack => CallBackAt(w, act, lid);
      case Summons => SummonsAt(w, act, lid);
      case Possession =>
        assert LockOk(Info(w.srv, lid));
        PossessionAt(w, act, lid);
    }
    assert KeptFor(Apply(w, act), p, Touched(w, act)) <==> !Breaks(w, act, p);
  }

  ghost predicate KeptThroughout(w: World, acts: seq<Action>, p: Promise)
    requires IsRun(w, acts)
    decreases |acts|
  {
    Kept(w, p) && (acts != [] ==> KeptThroughout(Apply(w, acts[0]), acts[1..], p))
  }

  ghost predicate NeverBroken(w: World, acts: seq<Action>, p: Promise)
    requires IsRun(w, acts)
    decreases |acts|
  {
    acts == [] || (!Breaks(w, acts[0], p) && NeverBroken(Apply(w, acts[0]), acts[1..], p))
  }

  lemma {:induction false} RunExact(w: World, acts: seq<Action>, p: Promise)
    requires Inv(w) && IsRun(w, acts) && Kept(w, p)
    ensures KeptThroughout(w, acts, p) <==> NeverBroken(w, acts, p)
    decreases |acts|
  {
    if acts != [] {
      var u := Apply(w, acts[0]);
      StepExact(w, acts[0], p);
      StepKeeps(w, acts[0]);
      if Kept(u, p) { RunExact(u, acts[1..], p); }
    }
  }

  /** Each promise is kept at every point of a run exactly if the run has no step that breaks it. */
  lemma PromisesExactly(acts: seq<Action>, p: Promise)
    requires IsRun(BOOT, acts)
    ensures KeptThroughout(BOOT, acts, p) <==> NeverBroken(BOOT, acts, p)
  {
    BootHolds();
    assert Kept(BOOT, p);
    RunExact(BOOT, acts, p);
  }
}
