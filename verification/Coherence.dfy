/**
 The whole file system cache: any number of clients, each with a lock cache, a releaser and a write-back
 extent cache, one lock server with its threads, and one extent server. Remote calls are separate steps for
 the request, its execution and the answer, so callbacks may overtake answers.
 */
module Coherence {
  import opened Basics
  import LS = LockServer
  import LC = LockClient
  import opened ExtentCache

  type Cid = string
  type Tid = nat
  type Id = nat   // a lock and the extent it protects have the same id

  /** A remote call of the lock client: not made, under way, or executed with this result. */
  datatype Flight = NoCall | Asked | Answered(ok: bool)

  datatype ThreadPc = Out | Looping(lid: Id) | Calling(lid: Id) | AwaitRetry(lid: Id)

  /** The releaser has marked a lock RELEASING and is about to flush, or waits for the server. */
  datatype Releaser = Resting | Taken(lid: Id) | Waiting(lid: Id)

  datatype Client = Client(
    ec: Cache,
    locks: map<Id, LC.LockInfo>,
    queue: seq<Id>,
    pcs: map<Tid, ThreadPc>,
    holder: map<Id, Tid>,
    acq: map<Id, Flight>,
    rel: map<Id, Flight>,
    releaser: Releaser,
    strays: multiset<Id>)   // release calls that were given up and may still be executed

  /** `truth` is what a single store would hold: the last put of any client, less what was removed. */
  datatype Sys = Sys(srv: LS.Server, store: Store, clients: map<Cid, Client>, truth: Plain)

  datatype Action =
    | Enter(c: Cid, t: Tid, lid: Id)
    | Loop(c: Cid, t: Tid)
    | ServeAcquire(c: Cid, lid: Id)
    | AcquireAnswered(c: Cid, t: Tid)
    | AcquireFails(c: Cid, t: Tid)
    | Wake(c: Cid, t: Tid)
    | Unlock(c: Cid, t: Tid, lid: Id)
    | Take(c: Cid, lid: Id)
    | FlushTaken(c: Cid, p: Call, q: Call)   // how the remote put and the remote remove of the flush end
    | ServeRelease(c: Cid, lid: Id)
    | ServeStray(c: Cid, lid: Id)
    | ReleaseAnswered(c: Cid)
    | ReleaseFails(c: Cid)
    | Revoke(c: Cid, lid: Id)
    | Retry(c: Cid, lid: Id)
    | ServerThread(act: LS.Action)
    | Read(c: Cid, t: Tid, id: Id, now: nat, g: bool, h: bool)   // whether the two calls of a miss return
    | Write(c: Cid, t: Tid, id: Id, buf: string, now: nat)
    | Delete(c: Cid, t: Tid, id: Id)

  // ----------------------------------------------------------------------- lookups

  function Lock(d: Client, lid: Id): LC.LockInfo {
    if lid in d.locks then d.locks[lid] else LC.NEW_LOCK
  }

  function FlightAt(m: map<Id, Flight>, lid: Id): Flight {
    if lid in m then m[lid] else NoCall
  }

  function Pc(d: Client, t: Tid): ThreadPc {
    if t in d.pcs then d.pcs[t] else Out
  }

  function SetLock(d: Client, lid: Id, l: LC.LockInfo): Client {
    d.(locks := d.locks[lid := l])
  }

  function SetPc(d: Client, t: Tid, pc: ThreadPc): Client {
    d.(pcs := d.pcs[t := pc])
  }

  function SetClient(s: Sys, c: Cid, d: Client): Sys {
    s.(clients := s.clients[c := d])
  }

  // -------------------------------------------------------------------------- steps

  /** What the code allows. */
  predicate Possible(s: Sys, a: Action) {
    if a.ServerThread? then LS.ThreadCan(s.srv, a.act)
    else
      && a.c in s.clients
      && var d := s.clients[a.c];
         match a
         case Enter(_, t, _) => Pc(d, t).Out?
         case Loop(_, t) => Pc(d, t).Looping?
         case ServeAcquire(_, lid) => FlightAt(d.acq, lid) == Asked
         case AcquireAnswered(_, t) => Pc(d, t).Calling? && FlightAt(d.acq, Pc(d, t).lid).Answered?
         case AcquireFails(_, t) => Pc(d, t).Calling?
         case Wake(_, t) => Pc(d, t).AwaitRetry? && Lock(d, Pc(d, t).lid).retryReceived
         case Unlock(_, _, _) => true
         case Take(_, lid) => d.releaser.Resting? && lid in d.queue && LC.Takes(Lock(d, lid))
         case FlushTaken(_, _, _) =>
           d.releaser.Taken? && (d.releaser.lid in d.ec.modified ==> Has(d.ec.local, d.releaser.lid))
         case ServeRelease(_, lid) => FlightAt(d.rel, lid) == Asked
         case ServeStray(_, lid) => lid in d.strays
         case ReleaseAnswered(_) => d.releaser.Waiting? && FlightAt(d.rel, d.releaser.lid).Answered?
         case ReleaseFails(_) => d.releaser.Waiting?
         case _ => true
  }

  /** The calls that a flush makes return. */
  predicate FlushReturns(c: Cache, id: Id, p: Call, q: Call) {
    (id in c.modified ==> p == Returned) && (id in c.removed ==> q == Returned)
  }

  /** The hypotheses about locks: they are released by the thread that holds them, and the releaser gives back only a
      lock that the client owns and no thread has. */
  predicate LockOrderly(s: Sys, a: Action)
    requires Possible(s, a)
  {
    match a
    case Unlock(c, t, lid) => lid in s.clients[c].holder && s.clients[c].holder[lid] == t
    case Take(c, lid) => Lock(s.clients[c], lid).state == LC.FREE
    case _ => true
  }

  /** The hypotheses about extents: they are used by the thread that holds the lock; the calls of a flush return; a
      removal concerns an extent that is cached here and at the server, or nowhere, and the extent is not read before
      it is flushed. */
  predicate ExtentOrderly(s: Sys, a: Action)
    requires Possible(s, a)
  {
    match a
    case FlushTaken(c, p, q) => FlushReturns(s.clients[c].ec, s.clients[c].releaser.lid, p, q)
    case Read(c, t, id, _, g, h) =>
      && id in s.clients[c].holder && s.clients[c].holder[id] == t
      && (g && h ==> !RemovalPending(s.clients[c].ec, s.store, id))
    case Write(c, t, id, _, _) => id in s.clients[c].holder && s.clients[c].holder[id] == t
    case Delete(c, t, id) =>
      && id in s.clients[c].holder && s.clients[c].holder[id] == t
      && if id in s.clients[c].ec.local.extents then id in s.store.extents
         else Seen(s.clients[c].ec, s.store, id) == None
    case _ => true
  }

  predicate Orderly(s: Sys, a: Action)
    requires Possible(s, a)
  {
    LockOrderly(s, a) && ExtentOrderly(s, a)
  }

  function Entered(d: Client, t: Tid, lid: Id): Client {
    SetPc(SetLock(d, lid, LC.Join(Lock(d, lid), t)), t, Looping(lid))
  }

  /** One round of the loop of acquire. */
  function Looped(d: Client, t: Tid, lid: Id): Client {
    var e := SetLock(d, lid, LC.LoopStep(Lock(d, lid), t));
    match LC.LoopMove(Lock(d, lid), t)
    case Wait => e
    case CallServer => SetPc(e, t, Calling(lid)).(acq := d.acq[lid := Asked])
    case Got => SetPc(e, t, Out).(holder := d.holder[lid := t])
  }

  function Told(d: Client, t: Tid, lid: Id, granted: bool): Client {
    var e := SetLock(d, lid, LC.AcquireReply(Lock(d, lid), if granted then LC.OK else LC.RETRY)).(acq := d.acq - {lid});
    if granted then SetPc(e, t, Out).(holder := d.holder[lid := t]) else SetPc(e, t, AwaitRetry(lid))
  }

  function Unlocked(d: Client, t: Tid, lid: Id): Client {
    SetLock(d, lid, LC.Release(Lock(d, lid), t)).(holder := d.holder - {lid})
  }

  function Taking(d: Client, lid: Id): Client {
    SetLock(d, lid, LC.Take(Lock(d, lid))).(releaser := Taken(lid))
  }

  function Flushed(d: Client, lid: Id, ec: Cache): Client {
    d.(ec := ec, releaser := Waiting(lid), rel := d.rel[lid := Asked],
       strays := if FlightAt(d.rel, lid) == Asked then d.strays + multiset{lid} else d.strays)
  }

  function GivenBack(d: Client, lid: Id, ok: bool): Client {
    SetLock(d, lid, LC.ReleaseReply(Lock(d, lid), if ok then LC.OK else LC.ERROR))
    .(rel := d.rel - {lid}, releaser := Resting, queue := if ok then Erase(d.queue, lid) else d.queue)
  }

  function Revoked(d: Client, lid: Id): Client {
    SetLock(d, lid, Lock(d, lid).(toBeRevoked := true)).(queue := if lid in d.queue then d.queue else d.queue + [lid])
  }

  function Retried(d: Client, lid: Id): Client {
    if lid in d.locks then SetLock(d, lid, Lock(d, lid).(retryReceived := true)) else d
  }

  function Apply(s: Sys, a: Action): Sys
    requires Possible(s, a)
  {
    if a.ServerThread? then s.(srv := LS.ThreadStep(s.srv, a.act))
    else
      var d := s.clients[a.c];
      match a
      case Enter(c, t, lid) => SetClient(s, c, Entered(d, t, lid))
      case Loop(c, t) => SetClient(s, c, Looped(d, t, Pc(d, t).lid))
      case ServeAcquire(c, lid) =>
        var (srv, r) := LS.AcquireStep(s.srv, c, Lock(d, lid).seqNum - 1, lid);
        SetClient(s, c, d.(acq := d.acq[lid := Answered(r == LS.OK)])).(srv := srv)
      case AcquireAnswered(c, t) => SetClient(s, c, Told(d, t, Pc(d, t).lid, d.acq[Pc(d, t).lid].ok))
      case AcquireFails(c, t) => SetClient(s, c, SetPc(d, t, Looping(Pc(d, t).lid)))
      case Wake(c, t) => SetClient(s, c, SetPc(d, t, Looping(Pc(d, t).lid)))
      case Unlock(c, t, lid) => SetClient(s, c, Unlocked(d, t, lid))
      case Take(c, lid) => SetClient(s, c, Taking(d, lid))
      case FlushTaken(c, p, q) =>
        var (ec, store) := FlushStep(d.ec, s.store, d.releaser.lid, p, q);
        SetClient(s, c, Flushed(d, d.releaser.lid, ec)).(store := store)
      case ServeRelease(c, lid) =>
        var (srv, r) := LS.ReleaseStep(s.srv, c, lid);
        SetClient(s, c, d.(rel := d.rel[lid := Answered(r == LS.OK)])).(srv := srv)
      case ServeStray(c, lid) =>
        SetClient(s, c, d.(strays := d.strays - multiset{lid})).(srv := LS.ReleaseStep(s.srv, c, lid).0)
      case ReleaseAnswered(c) => SetClient(s, c, GivenBack(d, d.releaser.lid, d.rel[d.releaser.lid].ok))
      case ReleaseFails(c) => SetClient(s, c, d.(releaser := Resting))
      case Revoke(c, lid) => SetClient(s, c, Revoked(d, lid))
      case Retry(c, lid) => SetClient(s, c, Retried(d, lid))
      case Read(c, _, id, now, g, h) =>
        var (ec, store) := GetStep(d.ec, s.store, id, now, g, h);
        SetClient(s, c, d.(ec := ec)).(store := store)
      case Write(c, _, id, buf, now) =>
        SetClient(s, c, d.(ec := PutStep(d.ec, id, buf, now))).(truth := s.truth[id := File(buf, now, now, |buf|)])
      case Delete(c, _, id) =>
        SetClient(s, c, d.(ec := RemoveStep(d.ec, id))).(truth := s.truth - {id})
  }

  ghost predicate Init(s: Sys) {
    && StoreOk(s.store) && (forall id :: InStore(s.store, id) == Lookup(s.truth, id))
    && s.srv == LS.BOOT.srv
    && forall c | c in s.clients ::
         s.clients[c] == Client(Cache(Store(map[], map[]), [], [], []), map[], [], map[], map[], map[], map[],
             Resting, multiset{})
  }

  /** A run in which locks are used as they should be, whatever happens to the extents. */
  ghost predicate LockRun(s: Sys, acts: seq<Action>)
    decreases |acts|
  {
    acts == [] || (Possible(s, acts[0]) && LockOrderly(s, acts[0]) && LockRun(Apply(s, acts[0]), acts[1..]))
  }

  ghost predicate OrderlyRun(s: Sys, acts: seq<Action>)
    decreases |acts|
  {
    acts == [] || (Possible(s, acts[0]) && Orderly(s, acts[0]) && OrderlyRun(Apply(s, acts[0]), acts[1..]))
  }

  ghost predicate PossibleRun(s: Sys, acts: seq<Action>)
    decreases |acts|
  {
    acts == [] || (Possible(s, acts[0]) && PossibleRun(Apply(s, acts[0]), acts[1..]))
  }

  ghost function After(s: Sys, acts: seq<Action>): Sys
    decreases |acts|
  {
    if acts == [] || !Possible(s, acts[0]) then s else After(Apply(s, acts[0]), acts[1..])
  }

  // ------------------------------------------------------- everything about one id

  datatype ClientSlice = ClientSlice(
    state: LC.State, acq: Flight, rel: Flight, taken: bool, held: bool, cached: Option<File>, pending: bool)

  datatype Slice = Slice(
    acquired: bool, owner: Cid, file: Option<File>, truth: Option<File>, clients: map<Cid, ClientSlice>)

  function ClientAt(d: Client, id: Id): ClientSlice {
    ClientSlice(Lock(d, id).state, FlightAt(d.acq, id), FlightAt(d.rel, id), d.releaser == Taken(id), id in d.holder,
                InStore(d.ec.local, id), id in d.ec.removed)
  }

  function At(s: Sys, id: Id): Slice {
    Slice(LS.Info(s.srv, id).state == LS.ACQUIRED, LS.Info(s.srv, id).owner, InStore(s.store, id), Lookup(s.truth, id),
          map c | c in s.clients :: ClientAt(s.clients[c], id))
  }

  /** The client owns the lock, as far as it is concerned or as its answered call will tell it. */
  predicate Token(x: ClientSlice) {
    || x.state == LC.FREE || x.state == LC.LOCKED
    || (x.state == LC.RELEASING && (x.taken || x.rel == Asked))
    || x.acq == Answered(true)
  }

  /** The client may have the extent in its cache. */
  predicate MayCache(x: ClientSlice) {
    x.state == LC.FREE || x.state == LC.LOCKED || (x.state == LC.RELEASING && x.taken)
  }

  function SeenBy(x: ClientSlice, file: Option<File>): Option<File> {
    if x.cached.Some? then x.cached else if x.pending then None else file
  }

  /** The state of the lock fits the calls under way, the releaser and the holder. */
  ghost predicate LockOk(x: ClientSlice) {
    && (x.acq != NoCall ==> x.state == LC.ACQUIRING)
    && (x.rel != NoCall ==> x.state == LC.RELEASING && !x.taken)
    && (x.taken ==> x.state == LC.RELEASING)
    && (x.held ==> x.state == LC.LOCKED)
  }

  ghost predicate ClientOk(x: ClientSlice) {
    && LockOk(x)
    && (!MayCache(x) ==> x.cached == None && !x.pending)
    && (x.pending ==> x.cached == None)
  }

  ghost predicate InPlace(l: Slice, c: Cid)
    requires c in l.clients
  {
    var x := l.clients[c];
    && ClientOk(x)
    && (Token(x) ==> l.acquired && l.owner == c)
    && (MayCache(x) ==> SeenBy(x, l.file) == l.truth)
    && (x.pending ==> l.file.Some?)
  }

  ghost predicate SliceOk(l: Slice) {
    && (forall c | c in l.clients :: InPlace(l, c))
    && ((forall c | c in l.clients :: !MayCache(l.clients[c])) ==> l.file == l.truth)
  }

  ghost predicate Inv(s: Sys) {
    && StoreOk(s.store) && (forall c | c in s.clients :: CacheOk(s.clients[c].ec) && s.clients[c].strays == multiset{})
    && forall id :: SliceOk(At(s, id))
  }

  // ------------------------------------------------------------- steps of one slice

  /** A client that does not gain the token, and keeps what it sees while it may cache. */
  lemma SliceStays(l: Slice, c: Cid, y: ClientSlice)
    requires SliceOk(l) && c in l.clients
    requires var x := l.clients[c];
             && ClientOk(y) && (Token(y) ==> Token(x)) && MayCache(y) == MayCache(x)
             && y.cached == x.cached && y.pending == x.pending
    ensures SliceOk(l.(clients := l.clients[c := y]))
  {
    var m := l.(clients := l.clients[c := y]);
    assert InPlace(l, c);
    forall b | b in m.clients ensures InPlace(m, b) {
      assert InPlace(l, b);
    }
    if forall b | b in m.clients :: !MayCache(m.clients[b]) {
      forall b | b in l.clients ensures !MayCache(l.clients[b]) {
        assert b in m.clients && !MayCache(m.clients[b]);
      }
    }
  }

  /** A granted client takes possession: nobody else may cache, so the store is up to date. */
  lemma SliceGranted(l: Slice, c: Cid)
    requires SliceOk(l) && c in l.clients && l.clients[c].acq == Answered(true)
    ensures SliceOk(l.(clients := l.clients[c := l.clients[c].(state := LC.LOCKED, acq := NoCall, held := true)]))
  {
    var m := l.(clients := l.clients[c := l.clients[c].(state := LC.LOCKED, acq := NoCall, held := true)]);
    assert InPlace(l, c);
    forall b | b in l.clients ensures !MayCache(l.clients[b]) {
      assert InPlace(l, b);
    }
    forall b | b in m.clients ensures InPlace(m, b) {
      assert InPlace(l, b);
    }
    assert MayCache(m.clients[c]);
  }

  /** The server executes an acquire. */
  lemma SliceServed(l: Slice, c: Cid, granted: bool)
    requires SliceOk(l) && c in l.clients && l.clients[c].acq == Asked
    requires granted ==> !l.acquired
    ensures var y := l.clients[c].(acq := Answered(granted));
            SliceOk(l.(acquired := l.acquired || granted, owner := if granted then c else l.owner,
                       clients := l.clients[c := y]))
  {
    var y := l.clients[c].(acq := Answered(granted));
    var m := l.(acquired := l.acquired || granted, owner := if granted then c else l.owner,
                clients := l.clients[c := y]);
    assert InPlace(l, c);
    forall b | b in m.clients ensures InPlace(m, b) {
      assert InPlace(l, b);
    }
    if forall b | b in m.clients :: !MayCache(m.clients[b]) {
      forall b | b in l.clients ensures !MayCache(l.clients[b]) {
        assert !MayCache(m.clients[b]);
      }
    }
  }

  /** The flush before the release: the store takes over what the client had. */
  lemma SliceFlushed(l: Slice, c: Cid)
    requires SliceOk(l) && c in l.clients && l.clients[c].taken
    ensures var x := l.clients[c];
            SliceOk(l.(file := SeenBy(x, l.file),
                       clients := l.clients[c := x.(taken := false, rel := Asked, cached := None, pending := false)]))
  {
    var x := l.clients[c];
    var m := l.(file := SeenBy(x, l.file),
                clients := l.clients[c := x.(taken := false, rel := Asked, cached := None, pending := false)]);
    assert InPlace(l, c);
    forall b | b in m.clients ensures InPlace(m, b) {
      assert InPlace(l, b);
    }
  }

  /** The server executes the release of the owner. */
  lemma SliceReleased(l: Slice, c: Cid)
    requires SliceOk(l) && c in l.clients && l.clients[c].rel == Asked
    ensures l.acquired && l.owner == c
    ensures SliceOk(l.(acquired := false, owner := "", clients := l.clients[c := l.clients[c].(rel := Answered(true))]))
  {
    var m := l.(acquired := false, owner := "", clients := l.clients[c := l.clients[c].(rel := Answered(true))]);
    assert InPlace(l, c);
    forall b | b in m.clients ensures InPlace(m, b) {
      assert InPlace(l, b);
    }
    forall b | b in l.clients ensures MayCache(l.clients[b]) == MayCache(m.clients[b]) {
      assert b in m.clients;
    }
  }

  /** The holder uses the extent. */
  lemma SliceUsed(l: Slice, c: Cid, cached: Option<File>, pending: bool, truth: Option<File>)
    requires SliceOk(l) && c in l.clients && l.clients[c].held
    requires pending ==> cached == None && l.file.Some?
    requires SeenBy(l.clients[c].(cached := cached, pending := pending), l.file) == truth
    ensures SliceOk(l.(truth := truth, clients := l.clients[c := l.clients[c].(cached := cached, pending := pending)]))
  {
    var m := l.(truth := truth, clients := l.clients[c := l.clients[c].(cached := cached, pending := pending)]);
    assert InPlace(l, c);
    forall b | b in m.clients ensures InPlace(m, b) {
      assert InPlace(l, b);
    }
    assert MayCache(m.clients[c]);
  }

  // --------------------------------------------------------- steps of the whole system

  lemma SliceUpdate(s: Sys, t: Sys, c: Cid, d: Client, id: Id)
    requires c in s.clients && t.clients == s.clients[c := d]
    ensures At(t, id).clients == At(s, id).clients[c := ClientAt(d, id)]
  {}

  /** Nothing about `id` but possibly client `c` differs. */
  ghost predicate Elsewhere(s: Sys, t: Sys, c: Cid, d: Client, id: Id)
    requires c in s.clients
  {
    && LS.Info(t.srv, id).state == LS.Info(s.srv, id).state && LS.Info(t.srv, id).owner == LS.Info(s.srv, id).owner
    && InStore(t.store, id) == InStore(s.store, id) && Lookup(t.truth, id) == Lookup(s.truth, id)
    && ClientAt(d, id) == ClientAt(s.clients[c], id)
  }

  lemma ElsewhereSame(s: Sys, t: Sys, c: Cid, d: Client, id: Id)
    requires c in s.clients && t.clients == s.clients[c := d] && Elsewhere(s, t, c, d, id)
    ensures At(t, id) == At(s, id)
  {
    SliceUpdate(s, t, c, d, id);
  }

  /** A step of client `c` about the id `lid` keeps the invariant if it keeps it for that id. */
  lemma ByOneSlice(s: Sys, t: Sys, c: Cid, d: Client, lid: Id)
    requires Inv(s) && c in s.clients && t.clients == s.clients[c := d]
    requires StoreOk(t.store) && CacheOk(d.ec) && d.strays == multiset{}
    requires forall id | id != lid :: Elsewhere(s, t, c, d, id)
    requires SliceOk(At(t, lid))
    ensures Inv(t)
  {
    forall id ensures SliceOk(At(t, id)) {
      if id != lid { ElsewhereSame(s, t, c, d, id); }
    }
  }

  /** Steps of a client that leave the servers and all caches alone. */
  lemma ByClient(s: Sys, c: Cid, d: Client, lid: Id)
    requires Inv(s) && c in s.clients && d.ec == s.clients[c].ec && d.strays == s.clients[c].strays
    requires forall id | id != lid :: ClientAt(d, id) == ClientAt(s.clients[c], id)
    requires SliceOk(At(s, lid).(clients := At(s, lid).clients[c := ClientAt(d, lid)]))
    ensures Inv(SetClient(s, c, d))
  {
    var t := SetClient(s, c, d);
    SliceUpdate(s, t, c, d, lid);
    assert At(t, lid) == At(s, lid).(clients := At(s, lid).clients[c := ClientAt(d, lid)]);
    ByOneSlice(s, t, c, d, lid);
  }

  /** A change of the client that concerns only `lid`, gives it no token and leaves its cache alone. */
  ghost predicate Stays(d: Client, e: Client, lid: Id) {
    && e.ec == d.ec && e.strays == d.strays
    && (forall id | id != lid :: ClientAt(e, id) == ClientAt(d, id))
    && var x, y := ClientAt(d, lid), ClientAt(e, lid);
       LockOk(x) ==> LockOk(y) && (Token(y) ==> Token(x)) && MayCache(y) == MayCache(x)
  }

  lemma SliceOf(s: Sys, c: Cid, id: Id)
    requires Inv(s) && c in s.clients
    ensures SliceOk(At(s, id)) && c in At(s, id).clients
    ensures At(s, id).clients[c] == ClientAt(s.clients[c], id) && ClientOk(ClientAt(s.clients[c], id))
    ensures StoreOk(s.store) && CacheOk(s.clients[c].ec) && s.clients[c].strays == multiset{}
  {
    assert c in At(s, id).clients;
    assert InPlace(At(s, id), c);
  }

  lemma ByStaying(s: Sys, c: Cid, e: Client, lid: Id)
    requires Inv(s) && c in s.clients && Stays(s.clients[c], e, lid)
    ensures Inv(SetClient(s, c, e))
  {
    SliceOf(s, c, lid);
    SliceStays(At(s, lid), c, ClientAt(e, lid));
    ByClient(s, c, e, lid);
  }

  lemma EnteredStays(d: Client, t: Tid, lid: Id)
    ensures Stays(d, Entered(d, t, lid), lid)
  {}

  lemma LoopedWaits(d: Client, t: Tid, lid: Id)
    requires LC.LoopMove(Lock(d, lid), t).Wait?
    ensures Stays(d, Looped(d, t, lid), lid)
  {}

  lemma LoopedCalls(d: Client, t: Tid, lid: Id)
    requires LC.LoopMove(Lock(d, lid), t).CallServer?
    ensures Stays(d, Looped(d, t, lid), lid)
  {
    assert Lock(d, lid).state == LC.NONE;
  }

  lemma LoopedGets(d: Client, t: Tid, lid: Id)
    requires LC.LoopMove(Lock(d, lid), t).Got?
    ensures Stays(d, Looped(d, t, lid), lid)
  {
    assert Lock(d, lid).state == LC.FREE;
  }

  lemma LoopedStays(d: Client, t: Tid, lid: Id)
    ensures Stays(d, Looped(d, t, lid), lid)
  {
    match LC.LoopMove(Lock(d, lid), t)
    case Wait => LoopedWaits(d, t, lid);
    case CallServer => LoopedCalls(d, t, lid);
    case Got => LoopedGets(d, t, lid);
  }

  lemma PcStays(d: Client, t: Tid, pc: ThreadPc)
    ensures Stays(d, SetPc(d, t, pc), 0)
  {}

  lemma RefusedStays(d: Client, t: Tid, lid: Id)
    requires lid in d.acq && d.acq[lid].Answered? && !d.acq[lid].ok
    ensures Stays(d, Told(d, t, lid, false), lid)
  {}

  lemma UnlockedStays(d: Client, t: Tid, lid: Id)
    requires lid in d.holder
    ensures Stays(d, Unlocked(d, t, lid), lid)
  {}

  lemma TakingStays(d: Client, lid: Id)
    requires Lock(d, lid).state == LC.FREE && d.releaser.Resting?
    ensures Stays(d, Taking(d, lid), lid)
  {}

  lemma GivenBackStays(d: Client, lid: Id)
    requires lid in d.rel && d.rel[lid].Answered? && d.releaser == Waiting(lid)
    ensures Stays(d, GivenBack(d, lid, d.rel[lid].ok), lid)
  {}

  lemma FailedStays(d: Client)
    requires d.releaser.Waiting?
    ensures Stays(d, d.(releaser := Resting), 0)
  {}

  lemma RevokedStays(d: Client, lid: Id)
    ensures Stays(d, Revoked(d, lid), lid)
  {}

  lemma RetriedStays(d: Client, lid: Id)
    ensures Stays(d, Retried(d, lid), lid)
  {}

  /** The steps of a client's threads that do not talk to the servers. */
  lemma StepOfThread(s: Sys, a: Action)
    requires Inv(s) && Possible(s, a) && Orderly(s, a) && (a.Enter? || a.Loop? || a.Unlock?)
    ensures Inv(Apply(s, a))
  {
    var d := s.clients[a.c];
    match a
    case Enter(c, t, lid) =>
      EnteredStays(d, t, lid);
      ByStaying(s, c, Entered(d, t, lid), lid);
    case Loop(c, t) =>
      LoopedStays(d, t, Pc(d, t).lid);
      ByStaying(s, c, Looped(d, t, Pc(d, t).lid), Pc(d, t).lid);
    case Unlock(c, t, lid) =>
      UnlockedStays(d, t, lid);
      ByStaying(s, c, Unlocked(d, t, lid), lid);
  }

  lemma StepBackToLoop(s: Sys, a: Action)
    requires Inv(s) && Possible(s, a) && Orderly(s, a) && (a.AcquireFails? || a.Wake?)
    ensures Inv(Apply(s, a))
  {
    var d := s.clients[a.c];
    match a
    case AcquireFails(c, t) =>
      PcStays(d, t, Looping(Pc(d, t).lid));
      ByStaying(s, c, SetPc(d, t, Looping(Pc(d, t).lid)), 0);
    case Wake(c, t) =>
      PcStays(d, t, Looping(Pc(d, t).lid));
      ByStaying(s, c, SetPc(d, t, Looping(Pc(d, t).lid)), 0);
  }

  /** The steps of the releaser and of the callbacks. */
  lemma StepOfReleaser(s: Sys, a: Action)
    requires Inv(s) && Possible(s, a) && Orderly(s, a) && (a.ReleaseAnswered? || a.ReleaseFails?)
    ensures Inv(Apply(s, a))
  {
    var d := s.clients[a.c];
    match a
    case ReleaseAnswered(c) =>
      GivenBackStays(d, d.releaser.lid);
      ByStaying(s, c, GivenBack(d, d.releaser.lid, d.rel[d.releaser.lid].ok), d.releaser.lid);
    case ReleaseFails(c) =>
      FailedStays(d);
      ByStaying(s, c, d.(releaser := Resting), 0);
  }

  lemma StepOfCallback(s: Sys, a: Action)
    requires Inv(s) && Possible(s, a) && Orderly(s, a) && (a.Take? || a.Revoke? || a.Retry?)
    ensures Inv(Apply(s, a))
  {
    var d := s.clients[a.c];
    match a
    case Take(c, lid) =>
      TakingStays(d, lid);
      ByStaying(s, c, Taking(d, lid), lid);
    case Revoke(c, lid) =>
      RevokedStays(d, lid);
      ByStaying(s, c, Revoked(d, lid), lid);
    case Retry(c, lid) =>
      RetriedStays(d, lid);
      ByStaying(s, c, Retried(d, lid), lid);
  }

  lemma ToldIs(d: Client, t: Tid, lid: Id)
    requires lid in d.acq && d.acq[lid] == Answered(true)
    ensures Told(d, t, lid, true).ec == d.ec && Told(d, t, lid, true).strays == d.strays
    ensures ClientAt(Told(d, t, lid, true), lid) == ClientAt(d, lid).(state := LC.LOCKED, acq := NoCall, held := true)
    ensures forall id | id != lid :: ClientAt(Told(d, t, lid, true), id) == ClientAt(d, id)
  {}

  lemma StepAcquireAnswered(s: Sys, c: Cid, t: Tid)
    requires Inv(s) && Possible(s, AcquireAnswered(c, t))
    ensures Inv(Apply(s, AcquireAnswered(c, t)))
  {
    var d := s.clients[c];
    var lid := Pc(d, t).lid;
    if d.acq[lid].ok {
      SliceOf(s, c, lid);
      ToldIs(d, t, lid);
      SliceGranted(At(s, lid), c);
      ByClient(s, c, Told(d, t, lid, true), lid);
    } else {
      RefusedStays(d, t, lid);
      ByStaying(s, c, Told(d, t, lid, false), lid);
    }
  }

  // ---- calls executed by the lock server

  lemma ServedIs(s: Sys, t: Sys, c: Cid, lid: Id)
    requires c in s.clients && FlightAt(s.clients[c].acq, lid) == Asked
    requires Possible(s, ServeAcquire(c, lid)) && t == Apply(s, ServeAcquire(c, lid))
    ensures var granted := LS.Grants(LS.Info(s.srv, lid), c);
            var e := s.clients[c].(acq := s.clients[c].acq[lid := Answered(granted)]);
            && t.clients == s.clients[c := e] && t.store == s.store && t.truth == s.truth
            && (forall id | id != lid :: Elsewhere(s, t, c, e, id))
            && ClientAt(e, lid) == ClientAt(s.clients[c], lid).(acq := Answered(granted))
            && var i, j := LS.Info(s.srv, lid), LS.Info(t.srv, lid);
               && (granted ==> i.state == LS.FREE && j.state == LS.ACQUIRED && j.owner == c)
               && (!granted ==> j.state == i.state && j.owner == i.owner)
  {}

  lemma StepServeAcquire(s: Sys, c: Cid, lid: Id)
    requires Inv(s) && Possible(s, ServeAcquire(c, lid))
    ensures Inv(Apply(s, ServeAcquire(c, lid)))
  {
    var t := Apply(s, ServeAcquire(c, lid));
    var granted := LS.Grants(LS.Info(s.srv, lid), c);
    var e := s.clients[c].(acq := s.clients[c].acq[lid := Answered(granted)]);
    ServedIs(s, t, c, lid);
    SliceOf(s, c, lid);
    SliceServed(At(s, lid), c, granted);
    SliceUpdate(s, t, c, e, lid);
    ByOneSlice(s, t, c, e, lid);
  }

  lemma ReleasedIs(s: Sys, t: Sys, c: Cid, lid: Id, e: Client)
    requires Possible(s, ServeRelease(c, lid)) && t == Apply(s, ServeRelease(c, lid))
    requires LS.Info(s.srv, lid).owner == c && e == s.clients[c].(rel := s.clients[c].rel[lid := Answered(true)])
    ensures t.clients == s.clients[c := e] && t.store == s.store
    ensures forall id | id != lid :: Elsewhere(s, t, c, e, id)
    ensures At(t, lid) == At(s, lid).(acquired := false, owner := "",
                                      clients := At(s, lid).clients[c := At(s, lid).clients[c].(rel := Answered(true))])
  {
    SliceUpdate(s, t, c, e, lid);
  }

  lemma StepServeRelease(s: Sys, c: Cid, lid: Id)
    requires Inv(s) && Possible(s, ServeRelease(c, lid))
    ensures Inv(Apply(s, ServeRelease(c, lid)))
  {
    var e := s.clients[c].(rel := s.clients[c].rel[lid := Answered(true)]);
    SliceOf(s, c, lid);
    SliceReleased(At(s, lid), c);
    ReleasedIs(s, Apply(s, ServeRelease(c, lid)), c, lid, e);
    ByOneSlice(s, Apply(s, ServeRelease(c, lid)), c, e, lid);
  }

  lemma ThreadKeepsOwner(srv: LS.Server, act: LS.Action, id: Id)
    requires LS.ThreadCan(srv, act)
    ensures var i, j := LS.Info(srv, id), LS.Info(LS.ThreadStep(srv, act), id); j.state == i.state && j.owner == i.owner
  {}

  lemma SliceSame(s: Sys, srv: LS.Server, id: Id)
    requires LS.Info(srv, id).state == LS.Info(s.srv, id).state && LS.Info(srv, id).owner == LS.Info(s.srv, id).owner
    ensures At(s.(srv := srv), id) == At(s, id)
  {}

  lemma StepServerThread(s: Sys, act: LS.Action)
    requires Inv(s) && Possible(s, ServerThread(act))
    ensures Inv(Apply(s, ServerThread(act)))
  {
    var srv := LS.ThreadStep(s.srv, act);
    forall id ensures SliceOk(At(s.(srv := srv), id)) {
      ThreadKeepsOwner(s.srv, act, id);
      SliceSame(s, srv, id);
    }
  }

  // ---- the caches

  /** Outside its own id a flush, a read, a write or a removal changes nothing. */
  lemma FlushElsewhere(c: Cache, s: Store, lid: Id, id: Id)
    requires CacheOk(c) && StoreOk(s) && id != lid
    ensures var (c', s') := FlushStep(c, s, lid, Returned, Returned);
            InStore(s', id) == InStore(s, id) && InStore(c'.local, id) == InStore(c.local, id)
                && (id in c'.removed <==> id in c.removed)
  {}

  lemma FlushKeepsOk(c: Cache, s: Store, lid: Id)
    requires CacheOk(c) && StoreOk(s)
    ensures var (c', s') := FlushStep(c, s, lid, Returned, Returned); CacheOk(c') && StoreOk(s')
  {
    FlushPutOk(c, s, lid, Returned);
    FlushRemoveOk(FlushPut(c, s, lid, Returned).0, FlushPut(c, s, lid, Returned).1, lid, Returned);
  }

  lemma FlushedIs(s: Sys, t: Sys, c: Cid, e: Client)
    requires Possible(s, FlushTaken(c, Returned, Returned)) && t == Apply(s, FlushTaken(c, Returned, Returned))
             && e == t.clients[c]
    requires StoreOk(s.store) && CacheOk(s.clients[c].ec)
    requires var lid := s.clients[c].releaser.lid; ClientAt(s.clients[c], lid).pending ==> InStore(s.store, lid).Some?
    requires FlightAt(s.clients[c].rel, s.clients[c].releaser.lid) == NoCall && s.clients[c].strays == multiset{}
    ensures var d := s.clients[c]; var lid := d.releaser.lid; var x := ClientAt(d, lid);
            && t.clients == s.clients[c := e] && t.srv == s.srv && t.truth == s.truth
            && StoreOk(t.store) && CacheOk(e.ec) && e.strays == multiset{}
            && (forall id | id != lid :: Elsewhere(s, t, c, e, id))
            && InStore(t.store, lid) == SeenBy(x, InStore(s.store, lid))
            && ClientAt(e, lid) == x.(taken := false, rel := Asked, cached := None, pending := false)
  {
    var d := s.clients[c];
    var lid := d.releaser.lid;
    FlushKeepsOk(d.ec, s.store, lid);
    FlushCleans(d.ec, s.store, lid);
    forall id | id != lid ensures Elsewhere(s, t, c, e, id) {
      FlushElsewhere(d.ec, s.store, lid, id);
    }
  }

  lemma StepFlushTaken(s: Sys, c: Cid, p: Call, q: Call)
    requires Inv(s) && Possible(s, FlushTaken(c, p, q)) && Orderly(s, FlushTaken(c, p, q))
    ensures Inv(Apply(s, FlushTaken(c, p, q)))
  {
    var lid := s.clients[c].releaser.lid;
    var t := Apply(s, FlushTaken(c, Returned, Returned));
    assert Apply(s, FlushTaken(c, p, q)) == t;
    var e := t.clients[c];
    SliceOf(s, c, lid);
    assert InPlace(At(s, lid), c);
    FlushedIs(s, t, c, e);
    SliceFlushed(At(s, lid), c);
    SliceUpdate(s, t, c, e, lid);
    ByOneSlice(s, t, c, e, lid);
  }

  /** The holder of the lock has used the extent `id`. */
  ghost predicate Uses(s: Sys, t: Sys, c: Cid, e: Client, id: Id) {
    && c in s.clients && t.clients == s.clients[c := e] && t.srv == s.srv
    && StoreOk(t.store) && CacheOk(e.ec) && e.strays == s.clients[c].strays
    && (forall x | x != id :: Elsewhere(s, t, c, e, x))
    && InStore(t.store, id) == InStore(s.store, id)
    && ClientAt(e, id) == ClientAt(s.clients[c], id).(cached := InStore(e.ec.local, id), pending := id in e.ec.removed)
    && (id in e.ec.removed ==> InStore(e.ec.local, id) == None && InStore(s.store, id).Some?)
    && SeenBy(ClientAt(e, id), InStore(s.store, id)) == Lookup(t.truth, id)
  }

  lemma StepUse(s: Sys, t: Sys, c: Cid, e: Client, id: Id)
    requires Inv(s) && Uses(s, t, c, e, id) && id in s.clients[c].holder
    ensures Inv(t)
  {
    SliceOf(s, c, id);
    SliceUsed(At(s, id), c, InStore(e.ec.local, id), id in e.ec.removed, Lookup(t.truth, id));
    SliceUpdate(s, t, c, e, id);
    ByOneSlice(s, t, c, e, id);
  }

  lemma ReadElsewhere(c: Cache, s: Store, lid: Id, now: nat, g: bool, h: bool, id: Id)
    requires CacheOk(c) && StoreOk(s)
    ensures var (c', s') := GetStep(c, s, lid, now, g, h);
            && InStore(s', id) == InStore(s, id)
            && (id != lid ==> InStore(c'.local, id) == InStore(c.local, id) && (id in c'.removed <==> id in c.removed))
  {}

  lemma ReadHere(c: Cache, s: Store, id: Id, now: nat, g: bool, h: bool)
    requires CacheOk(c) && StoreOk(s) && (g && h ==> !RemovalPending(c, s, id))
    ensures var (c', s') := GetStep(c, s, id, now, g, h);
            && InStore(c'.local, id)
               == (if id in c.local.extents || !(g && h) then InStore(c.local, id) else InStore(s, id))
            && (id in c'.removed <==> id in c.removed)
  {
    EraseDistinct(c.removed, id);
  }

  /** The cache `c'` treats `x` as `c` does. */
  ghost predicate SameAt(c: Cache, c': Cache, x: Id) {
    InStore(c'.local, x) == InStore(c.local, x) && (x in c'.removed <==> x in c.removed)
  }

  lemma UsesBy(s: Sys, c: Cid, ec: Cache, store: Store, truth: Plain, id: Id)
    requires c in s.clients && StoreOk(store) && CacheOk(ec)
    requires forall x | x != id :: SameAt(s.clients[c].ec, ec, x) && Lookup(truth, x) == Lookup(s.truth, x)
    requires forall x :: InStore(store, x) == InStore(s.store, x)
    requires id in ec.removed ==> InStore(ec.local, id) == None && InStore(store, id).Some?
    requires (if InStore(ec.local, id).Some? then InStore(ec.local, id)
              else if id in ec.removed then None
              else InStore(store, id))
             == Lookup(truth, id)
    ensures var e := s.clients[c].(ec := ec); Uses(s, Sys(s.srv, store, s.clients[c := e], truth), c, e, id)
  {
    var e := s.clients[c].(ec := ec);
    var t := Sys(s.srv, store, s.clients[c := e], truth);
    forall x | x != id ensures Elsewhere(s, t, c, e, x) {
      assert SameAt(s.clients[c].ec, ec, x);
    }
  }

  lemma ReadUses(s: Sys, c: Cid, id: Id, now: nat, g: bool, h: bool)
    requires c in s.clients && StoreOk(s.store) && CacheOk(s.clients[c].ec)
    requires g && h ==> !RemovalPending(s.clients[c].ec, s.store, id)
    requires SeenBy(ClientAt(s.clients[c], id), InStore(s.store, id)) == Lookup(s.truth, id)
    requires id in s.clients[c].ec.removed ==> InStore(s.store, id).Some?
    ensures var (ec, store) := GetStep(s.clients[c].ec, s.store, id, now, g, h);
            var e := s.clients[c].(ec := ec);
            Uses(s, Sys(s.srv, store, s.clients[c := e], s.truth), c, e, id)
  {
    var d := s.clients[c];
    var (ec, store) := GetStep(d.ec, s.store, id, now, g, h);
    GetOk(d.ec, s.store, id, now, g, h);
    ReadHere(d.ec, s.store, id, now, g, h);
    forall x ensures InStore(store, x) == InStore(s.store, x) && (x != id ==> SameAt(d.ec, ec, x)) {
      ReadElsewhere(d.ec, s.store, id, now, g, h, x);
    }
    UsesBy(s, c, ec, store, s.truth, id);
  }

  lemma WriteThere(c: Cache, id: Id, buf: string, now: nat, x: Id)
    requires CacheOk(c)
    ensures var c' := PutStep(c, id, buf, now);
            if x == id then InStore(c'.local, x) == Some(File(buf, now, now, |buf|)) && x !in c'.removed
            else InStore(c'.local, x) == InStore(c.local, x) && (x in c'.removed <==> x in c.removed)
  {
    EraseDistinct(c.removed, id);
  }

  lemma RemoveThere(c: Cache, id: Id, x: Id)
    requires CacheOk(c)
    ensures var c' := RemoveStep(c, id);
            if x == id then
              InStore(c'.local, x) == None && (x in c'.removed <==> id in c.local.extents || id in c.removed)
            else InStore(c'.local, x) == InStore(c.local, x) && (x in c'.removed <==> x in c.removed)
  {}

  lemma WriteUses(s: Sys, c: Cid, id: Id, buf: string, now: nat)
    requires c in s.clients && StoreOk(s.store) && CacheOk(s.clients[c].ec)
    ensures var e := s.clients[c].(ec := PutStep(s.clients[c].ec, id, buf, now));
            Uses(s, Sys(s.srv, s.store, s.clients[c := e], s.truth[id := File(buf, now, now, |buf|)]), c, e, id)
  {
    var ec := s.clients[c].ec;
    PutOk(ec, id, buf, now);
    WriteThere(ec, id, buf, now, id);
    forall x | x != id ensures SameAt(ec, PutStep(ec, id, buf, now), x) {
      WriteThere(ec, id, buf, now, x);
    }
    UsesBy(s, c, PutStep(ec, id, buf, now), s.store, s.truth[id := File(buf, now, now, |buf|)], id);
  }

  lemma DeleteUses(s: Sys, c: Cid, id: Id)
    requires c in s.clients && StoreOk(s.store) && CacheOk(s.clients[c].ec)
    requires var ec := s.clients[c].ec;
             if id in ec.local.extents then id in s.store.extents else Seen(ec, s.store, id) == None
    requires id in s.clients[c].ec.removed ==> InStore(s.store, id).Some?
    ensures var e := s.clients[c].(ec := RemoveStep(s.clients[c].ec, id));
            Uses(s, Sys(s.srv, s.store, s.clients[c := e], s.truth - {id}), c, e, id)
  {
    var ec := s.clients[c].ec;
    RemoveOk(ec, id);
    RemoveThere(ec, id, id);
    forall x | x != id ensures SameAt(ec, RemoveStep(ec, id), x) {
      RemoveThere(ec, id, x);
    }
    UsesBy(s, c, RemoveStep(ec, id), s.store, s.truth - {id}, id);
  }

  /** What the holder of a lock sees of the extent is the truth. */
  lemma HolderSeesTruth(s: Sys, c: Cid, id: Id)
    requires Inv(s) && c in s.clients && id in s.clients[c].holder
    ensures SeenBy(ClientAt(s.clients[c], id), InStore(s.store, id)) == Lookup(s.truth, id)
    ensures id in s.clients[c].ec.removed ==> InStore(s.store, id).Some?
  {
    SliceOf(s, c, id);
    assert InPlace(At(s, id), c);
  }

  lemma StepRead(s: Sys, c: Cid, t: Tid, id: Id, now: nat, g: bool, h: bool)
    requires Inv(s) && Possible(s, Read(c, t, id, now, g, h)) && Orderly(s, Read(c, t, id, now, g, h))
    ensures Inv(Apply(s, Read(c, t, id, now, g, h)))
  {
    HolderSeesTruth(s, c, id);
    ReadUses(s, c, id, now, g, h) by { SliceOf(s, c, id); }
    var w := Apply(s, Read(c, t, id, now, g, h));
    StepUse(s, w, c, w.clients[c], id);
  }

  lemma StepWrite(s: Sys, c: Cid, t: Tid, id: Id, buf: string, now: nat)
    requires Inv(s) && Possible(s, Write(c, t, id, buf, now)) && Orderly(s, Write(c, t, id, buf, now))
    ensures Inv(Apply(s, Write(c, t, id, buf, now)))
  {
    WriteUses(s, c, id, buf, now) by { SliceOf(s, c, id); }
    var w := Apply(s, Write(c, t, id, buf, now));
    StepUse(s, w, c, w.clients[c], id);
  }

  lemma StepDelete(s: Sys, c: Cid, t: Tid, id: Id)
    requires Inv(s) && Possible(s, Delete(c, t, id)) && Orderly(s, Delete(c, t, id))
    ensures Inv(Apply(s, Delete(c, t, id)))
  {
    HolderSeesTruth(s, c, id);
    DeleteUses(s, c, id) by { SliceOf(s, c, id); }
    var w := Apply(s, Delete(c, t, id));
    StepUse(s, w, c, w.clients[c], id);
  }

  // ----------------------------------------------------------------- main theorems

  lemma StepOfHolder(s: Sys, a: Action)
    requires Inv(s) && Possible(s, a) && Orderly(s, a) && (a.Read? || a.Write? || a.Delete?)
    ensures Inv(Apply(s, a))
  {
    if a.Read? { StepRead(s, a.c, a.t, a.id, a.now, a.g, a.h); }
    else if a.Write? { StepWrite(s, a.c, a.t, a.id, a.buf, a.now); }
    else { StepDelete(s, a.c, a.t, a.id); }
  }

  lemma StepOfServer(s: Sys, a: Action)
    requires Inv(s) && Possible(s, a) && Orderly(s, a)
    requires a.ServeAcquire? || a.AcquireAnswered? || a.FlushTaken? || a.ServeRelease?
    ensures Inv(Apply(s, a))
  {
    if a.ServeAcquire? { StepServeAcquire(s, a.c, a.lid); }
    else if a.AcquireAnswered? { StepAcquireAnswered(s, a.c, a.t); }
    else if a.FlushTaken? { StepFlushTaken(s, a.c, a.p, a.q); }
    else { StepServeRelease(s, a.c, a.lid); }
  }

  lemma StepKeeps(s: Sys, a: Action)
    requires Inv(s) && Possible(s, a) && Orderly(s, a)
    ensures Inv(Apply(s, a))
  {
    if a.ServerThread? { StepServerThread(s, a.act); }
    else if a.ServeStray? { }
    else if a.Read? || a.Write? || a.Delete? { StepOfHolder(s, a); }
    else if a.ServeAcquire? || a.AcquireAnswered? || a.FlushTaken? || a.ServeRelease? { StepOfServer(s, a); }
    else { StepOfClient(s, a); }
  }

  lemma StepOfClient(s: Sys, a: Action)
    requires Inv(s) && Possible(s, a) && Orderly(s, a)
    requires !a.ServerThread? && !a.Read? && !a.Write? && !a.Delete?
    requires !a.ServeAcquire? && !a.AcquireAnswered? && !a.FlushTaken? && !a.ServeRelease? && !a.ServeStray?
    ensures Inv(Apply(s, a))
  {
    if a.Enter? || a.Loop? || a.Unlock? { StepOfThread(s, a); }
    else if a.AcquireFails? || a.Wake? { StepBackToLoop(s, a); }
    else if a.ReleaseAnswered? || a.ReleaseFails? { StepOfReleaser(s, a); }
    else { StepOfCallback(s, a); }
  }

  lemma InitHolds(s: Sys)
    requires Init(s)
    ensures Inv(s)
  {}

  lemma {:induction false} RunKeeps(s: Sys, acts: seq<Action>)
    requires Inv(s) && OrderlyRun(s, acts)
    ensures Inv(After(s, acts))
    decreases |acts|
  {
    if acts != [] {
      StepKeeps(s, acts[0]);
      RunKeeps(Apply(s, acts[0]), acts[1..]);
    }
  }

  /** What the writes and removals of a run leave in one plain map, wherever they were made. */
  function PlainAfter(m: Plain, acts: seq<Action>): Plain
    decreases |acts|
  {
    if acts == [] then m
    else
      var rest := acts[1..];
      match acts[0]
      case Write(_, _, id, buf, now) => PlainAfter(PlainStep(m, Put(id, buf), now).0, rest)
      case Delete(_, _, id) => PlainAfter(PlainStep(m, Remove(id), 0).0, rest)
      case _ => PlainAfter(m, rest)
  }

  lemma {:induction false} TruthIsPlain(s: Sys, acts: seq<Action>)
    requires PossibleRun(s, acts)
    ensures After(s, acts).truth == PlainAfter(s.truth, acts)
    decreases |acts|
  {
    if acts != [] { TruthIsPlain(Apply(s, acts[0]), acts[1..]); }
  }

  lemma {:induction false} OrderlyIsPossible(s: Sys, acts: seq<Action>)
    requires OrderlyRun(s, acts)
    ensures PossibleRun(s, acts)
    decreases |acts|
  {
    if acts != [] { OrderlyIsPossible(Apply(s, acts[0]), acts[1..]); }
  }

  lemma AnswerIsSeen(d: Client, store: Store, id: Id)
    requires CacheOk(d.ec) && !RemovalPending(d.ec, store, id) && (id in d.ec.removed ==> InStore(store, id).Some?)
    ensures GetAnswer(d.ec, store, id) == SeenBy(ClientAt(d, id), InStore(store, id))
  {}

  /** Every read of every run returns what one plain map would hold after the same writes and removals, although
      each went through its own client's write-back cache. */
  lemma ReadsAreCoherent(s: Sys, acts: seq<Action>, c: Cid, t: Tid, id: Id, now: nat)
    requires Init(s) && OrderlyRun(s, acts)
    requires var read := Read(c, t, id, now, true, true);
             Possible(After(s, acts), read) && Orderly(After(s, acts), read)
    ensures var w := After(s, acts);
            GetAnswer(w.clients[c].ec, w.store, id) == Lookup(PlainAfter(s.truth, acts), id)
  {
    var w := After(s, acts);
    assert Inv(w) by { InitHolds(s); RunKeeps(s, acts); }
    OrderlyIsPossible(s, acts);
    TruthIsPlain(s, acts);
    HolderSeesTruth(w, c, id);
    AnswerIsSeen(w.clients[c], w.store, id) by { SliceOf(w, c, id); }
  }

  /** A client that caches anything of an extent is the owner of its lock at the server. */
  lemma CachedByOwner(s: Sys, acts: seq<Action>, c: Cid, id: Id)
    requires Init(s) && OrderlyRun(s, acts) && c in After(s, acts).clients
    requires var d := After(s, acts).clients[c]; id in d.ec.local.extents || id in d.ec.removed
    ensures var i := LS.Info(After(s, acts).srv, id); i.state == LS.ACQUIRED && i.owner == c
  {
    var w := After(s, acts);
    assert Inv(w) by { InitHolds(s); RunKeeps(s, acts); }
    SliceOf(w, c, id);
    assert InPlace(At(w, id), c);
    assert id in w.clients[c].ec.local.extents ==> InStore(w.clients[c].ec.local, id).Some?;
  }

  // ------------------------------------ the locks alone, whatever happens to the extents

  /** The client's view of the lock is in order, and if it has the token the server agrees. */
  ghost predicate Owned(s: Sys, c: Cid, id: Id)
    requires c in s.clients
  {
    var x := ClientAt(s.clients[c], id);
    LockOk(x) && (Token(x) ==> LS.Info(s.srv, id).state == LS.ACQUIRED && LS.Info(s.srv, id).owner == c)
  }

  ghost predicate LockInv(s: Sys) {
    && (forall c | c in s.clients :: s.clients[c].strays == multiset{})
    && forall c, id | c in s.clients :: Owned(s, c, id)
  }

  ghost predicate GainsNothing(d: Client, e: Client, id: Id) {
    var x, y := ClientAt(d, id), ClientAt(e, id);
    LockOk(x) ==> LockOk(y) && (Token(y) ==> Token(x))
  }

  /** A change of one client that gives it no token. */
  lemma LockByClient(s: Sys, t: Sys, c: Cid, e: Client)
    requires LockInv(s) && c in s.clients && t.clients == s.clients[c := e] && t.srv == s.srv
    requires e.strays == multiset{} && forall id :: GainsNothing(s.clients[c], e, id)
    ensures LockInv(t)
  {
    forall b, id | b in t.clients ensures Owned(t, b, id) {
      assert Owned(s, b, id) && GainsNothing(s.clients[c], e, id);
    }
  }

  lemma StayingGainsNothing(d: Client, e: Client, lid: Id, id: Id)
    requires Stays(d, e, lid)
    ensures GainsNothing(d, e, id)
  {
    assert id != lid ==> ClientAt(e, id) == ClientAt(d, id);
  }

  lemma LockByStaying(s: Sys, c: Cid, e: Client, lid: Id)
    requires LockInv(s) && c in s.clients && Stays(s.clients[c], e, lid)
    ensures LockInv(SetClient(s, c, e))
  {
    forall id ensures GainsNothing(s.clients[c], e, id) { StayingGainsNothing(s.clients[c], e, lid, id); }
    LockByClient(s, SetClient(s, c, e), c, e);
  }

  lemma LockOfThread(s: Sys, a: Action)
    requires LockInv(s) && Possible(s, a) && LockOrderly(s, a) && (a.Enter? || a.Loop? || a.Unlock?)
    ensures LockInv(Apply(s, a))
  {
    var d := s.clients[a.c];
    match a
    case Enter(c, t, lid) =>
      EnteredStays(d, t, lid);
      LockByStaying(s, c, Entered(d, t, lid), lid);
    case Loop(c, t) =>
      LoopedStays(d, t, Pc(d, t).lid);
      LockByStaying(s, c, Looped(d, t, Pc(d, t).lid), Pc(d, t).lid);
    case Unlock(c, t, lid) =>
      UnlockedStays(d, t, lid);
      LockByStaying(s, c, Unlocked(d, t, lid), lid);
  }

  lemma LockOfCall(s: Sys, a: Action)
    requires LockInv(s) && Possible(s, a) && (a.AcquireFails? || a.Wake? || a.ReleaseAnswered? || a.ReleaseFails?)
    ensures LockInv(Apply(s, a))
  {
    var d := s.clients[a.c];
    if a.AcquireFails? || a.Wake? {
      PcStays(d, a.t, Looping(Pc(d, a.t).lid));
      LockByStaying(s, a.c, SetPc(d, a.t, Looping(Pc(d, a.t).lid)), 0);
    } else if a.ReleaseAnswered? {
      GivenBackStays(d, d.releaser.lid);
      LockByStaying(s, a.c, GivenBack(d, d.releaser.lid, d.rel[d.releaser.lid].ok), d.releaser.lid);
    } else {
      FailedStays(d);
      LockByStaying(s, a.c, d.(releaser := Resting), 0);
    }
  }

  lemma LockOfCallback(s: Sys, a: Action)
    requires LockInv(s) && Possible(s, a) && LockOrderly(s, a) && (a.Take? || a.Revoke? || a.Retry?)
    ensures LockInv(Apply(s, a))
  {
    var d := s.clients[a.c];
    match a
    case Take(c, lid) =>
      TakingStays(d, lid);
      LockByStaying(s, c, Taking(d, lid), lid);
    case Revoke(c, lid) =>
      RevokedStays(d, lid);
      LockByStaying(s, c, Revoked(d, lid), lid);
    case Retry(c, lid) =>
      RetriedStays(d, lid);
      LockByStaying(s, c, Retried(d, lid), lid);
  }

  lemma ToldGainsNothing(d: Client, t: Tid, lid: Id, id: Id)
    requires lid in d.acq && d.acq[lid] == Answered(true)
    ensures GainsNothing(d, Told(d, t, lid, true), id)
  {
    ToldIs(d, t, lid);
  }

  lemma LockAnswered(s: Sys, c: Cid, t: Tid)
    requires LockInv(s) && Possible(s, AcquireAnswered(c, t))
    ensures LockInv(Apply(s, AcquireAnswered(c, t)))
  {
    var d := s.clients[c];
    var lid := Pc(d, t).lid;
    if d.acq[lid].ok {
      forall id ensures GainsNothing(d, Told(d, t, lid, true), id) { ToldGainsNothing(d, t, lid, id); }
      LockByClient(s, Apply(s, AcquireAnswered(c, t)), c, Told(d, t, lid, true));
    } else {
      RefusedStays(d, t, lid);
      LockByStaying(s, c, Told(d, t, lid, false), lid);
    }
  }

  /** However the calls of the flush end, the client goes on to release the lock it has taken. */
  lemma FlushedGainsNothing(d: Client, ec: Cache, id: Id)
    requires d.releaser.Taken?
    ensures GainsNothing(d, Flushed(d, d.releaser.lid, ec), id)
  {}

  lemma LockFlushed(s: Sys, c: Cid, p: Call, q: Call)
    requires LockInv(s) && Possible(s, FlushTaken(c, p, q))
    ensures LockInv(Apply(s, FlushTaken(c, p, q)))
  {
    var t, d := Apply(s, FlushTaken(c, p, q)), s.clients[c];
    var e := t.clients[c];
    forall id ensures GainsNothing(d, e, id) { FlushedGainsNothing(d, e.ec, id); }
    assert Owned(s, c, d.releaser.lid);
    LockByClient(s, t, c, e);
  }

  lemma LockUsed(s: Sys, a: Action)
    requires LockInv(s) && Possible(s, a) && (a.Read? || a.Write? || a.Delete?)
    ensures LockInv(Apply(s, a))
  {
    var t := Apply(s, a);
    var e := t.clients[a.c];
    forall id ensures GainsNothing(s.clients[a.c], e, id) {
      assert e == s.clients[a.c].(ec := e.ec);
    }
    LockByClient(s, t, a.c, e);
  }

  lemma LockServed(s: Sys, c: Cid, lid: Id)
    requires LockInv(s) && Possible(s, ServeAcquire(c, lid))
    ensures LockInv(Apply(s, ServeAcquire(c, lid)))
  {
    var t := Apply(s, ServeAcquire(c, lid));
    ServedIs(s, t, c, lid);
    forall b, id | b in t.clients ensures Owned(t, b, id) {
      assert Owned(s, b, id);
    }
  }

  lemma LockGivenUp(s: Sys, c: Cid, lid: Id)
    requires LockInv(s) && Possible(s, ServeRelease(c, lid))
    ensures LockInv(Apply(s, ServeRelease(c, lid)))
  {
    var t := Apply(s, ServeRelease(c, lid));
    assert Owned(s, c, lid);
    forall b, id | b in t.clients ensures Owned(t, b, id) {
      assert Owned(s, b, id);
    }
  }

  lemma LockServerThread(s: Sys, act: LS.Action)
    requires LockInv(s) && Possible(s, ServerThread(act))
    ensures LockInv(Apply(s, ServerThread(act)))
  {
    var t := Apply(s, ServerThread(act));
    forall b, id | b in t.clients ensures Owned(t, b, id) {
      ThreadKeepsOwner(s.srv, act, id);
      assert Owned(s, b, id);
    }
  }

  lemma LockStep(s: Sys, a: Action)
    requires LockInv(s) && Possible(s, a) && LockOrderly(s, a)
    ensures LockInv(Apply(s, a))
  {
    if a.ServerThread? { LockServerThread(s, a.act); }
    else if a.ServeStray? { }
    else if a.ServeAcquire? { LockServed(s, a.c, a.lid); }
    else if a.ServeRelease? { LockGivenUp(s, a.c, a.lid); }
    else if a.AcquireAnswered? { LockAnswered(s, a.c, a.t); }
    else if a.FlushTaken? { LockFlushed(s, a.c, a.p, a.q); }
    else { LockOfClient(s, a); }
  }

  lemma LockOfClient(s: Sys, a: Action)
    requires LockInv(s) && Possible(s, a) && LockOrderly(s, a) && !a.ServerThread? && !a.ServeStray?
    requires !a.ServeAcquire? && !a.ServeRelease? && !a.AcquireAnswered? && !a.FlushTaken?
    ensures LockInv(Apply(s, a))
  {
    if a.Enter? || a.Loop? || a.Unlock? { LockOfThread(s, a); }
    else if a.Take? || a.Revoke? || a.Retry? { LockOfCallback(s, a); }
    else if a.Read? || a.Write? || a.Delete? { LockUsed(s, a); }
    else { LockOfCall(s, a); }
  }

  lemma {:induction false} RunLocks(s: Sys, acts: seq<Action>)
    requires LockInv(s) && LockRun(s, acts)
    ensures LockInv(After(s, acts))
    decreases |acts|
  {
    if acts != [] {
      LockStep(s, acts[0]);
      RunLocks(Apply(s, acts[0]), acts[1..]);
    }
  }

  lemma InitLocks(s: Sys)
    requires Init(s)
    ensures LockInv(s)
  {}

  /** A client one of whose threads holds a lock is its owner at the server. */
  lemma HolderIsOwner(s: Sys, acts: seq<Action>, c: Cid, id: Id)
    requires Init(s) && LockRun(s, acts) && c in After(s, acts).clients && id in After(s, acts).clients[c].holder
    ensures var i := LS.Info(After(s, acts).srv, id); i.state == LS.ACQUIRED && i.owner == c
  {
    assert LockInv(After(s, acts)) by { InitLocks(s); RunLocks(s, acts); }
    assert Owned(After(s, acts), c, id);
  }

  /** No two clients hold one lock. */
  lemma MutualExclusion(s: Sys, acts: seq<Action>, b: Cid, c: Cid, id: Id)
    requires Init(s) && LockRun(s, acts) && b in After(s, acts).clients && c in After(s, acts).clients
    requires id in After(s, acts).clients[b].holder && id in After(s, acts).clients[c].holder
    ensures b == c
  {
    HolderIsOwner(s, acts, b, id);
    HolderIsOwner(s, acts, c, id);
  }

  lemma {:induction false} OrderlyLocks(s: Sys, acts: seq<Action>)
    requires OrderlyRun(s, acts)
    ensures LockRun(s, acts)
    decreases |acts|
  {
    if acts != [] { OrderlyLocks(Apply(s, acts[0]), acts[1..]); }
  }

  /** If extents are used as they should be too, no client caches one that another caches or whose lock it holds. */
  lemma CachedAlone(s: Sys, acts: seq<Action>, b: Cid, c: Cid, id: Id)
    requires Init(s) && OrderlyRun(s, acts) && b in After(s, acts).clients && c in After(s, acts).clients
    requires var d := After(s, acts).clients[b]; id in d.ec.local.extents || id in d.ec.removed
    requires var e := After(s, acts).clients[c]; id in e.holder || id in e.ec.local.extents || id in e.ec.removed
    ensures b == c
  {
    CachedByOwner(s, acts, b, id);
    if id in After(s, acts).clients[c].holder {
      OrderlyLocks(s, acts);
      HolderIsOwner(s, acts, c, id);
    } else {
      CachedByOwner(s, acts, c, id);
    }
  }

  /** The step lets thread `t` of client `c` return from acquire with the lock `lid`. */
  predicate Obtains(s: Sys, a: Action, lid: Id)
    requires Possible(s, a)
  {
    || (a.Loop? && Pc(s.clients[a.c], a.t).lid == lid && LC.LoopMove(Lock(s.clients[a.c], lid), a.t).Got?)
    || (a.AcquireAnswered? && Pc(s.clients[a.c], a.t).lid == lid && s.clients[a.c].acq[lid].ok)
  }

  lemma ObtainsAsOwner(d: Client, t: Tid, lid: Id)
    requires LockOk(ClientAt(d, lid))
    requires LC.LoopMove(Lock(d, lid), t).Got? || FlightAt(d.acq, lid) == Answered(true)
    ensures Token(ClientAt(d, lid)) && lid !in d.holder
  {}

  /** A thread returns from acquire only when no thread of any client holds the lock. */
  lemma ObtainedAlone(s: Sys, acts: seq<Action>, a: Action, lid: Id, b: Cid)
    requires Init(s) && LockRun(s, acts) && Possible(After(s, acts), a) && Obtains(After(s, acts), a, lid)
    requires b in After(s, acts).clients
    ensures lid !in After(s, acts).clients[b].holder
  {
    var w := After(s, acts);
    assert LockInv(w) by { InitLocks(s); RunLocks(s, acts); }
    assert Owned(w, a.c, lid) && Owned(w, b, lid);
    ObtainsAsOwner(w.clients[a.c], a.t, lid);
  }
}
