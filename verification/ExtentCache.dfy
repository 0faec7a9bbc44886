/**
 The extent server, a plain store of extents with attributes, and the write-back cache of one client
 in front of it.
 */
module ExtentCache {
  import opened Basics

  type ExtentId = nat
  datatype Attr = Attr(atime: nat, mtime: nat, ctime: nat, size: nat)
  datatype Status = OK | NOENT | FAILED   // FAILED: the remote call did not return

  // -------------------------------------------------------------------- the plain store

  datatype Store = Store(extents: map<ExtentId, string>, attrs: map<ExtentId, Attr>)

  function StorePut(s: Store, id: ExtentId, buf: string, a: Attr): Store {
    Store(s.extents[id := buf], s.attrs[id := a])
  }

  predicate Has(s: Store, id: ExtentId) {
    id in s.extents && id in s.attrs
  }

  /** A read stamps the access time. */
  function StoreTouch(s: Store, id: ExtentId, now: nat): Store {
    if Has(s, id) then s.(attrs := s.attrs[id := s.attrs[id].(atime := now)]) else s
  }

  function StoreRemove(s: Store, id: ExtentId): Store {
    if id in s.extents then Store(s.extents - {id}, s.attrs - {id}) else s
  }

  /** Every extent has attributes that give its length. */
  ghost predicate StoreOk(s: Store) {
    s.extents.Keys == s.attrs.Keys && forall id | id in s.extents :: s.attrs[id].size == |s.extents[id]|
  }

  class ExtentServer {
    var extents: map<ExtentId, string>
    var attrs: map<ExtentId, Attr>

    constructor ()
      ensures State() == Store(map[], map[])
    {
      extents, attrs := map[], map[];
    }

    function State(): Store
      reads this
    {
      Store(extents, attrs)
    }

    method Put(id: ExtentId, buf: string, a: Attr) returns (r: Status)
      modifies this
      ensures r == OK && State() == StorePut(old(State()), id, buf, a)
    {
      extents := extents[id := buf];
      attrs := attrs[id := a];
      return OK;
    }

    method Get(id: ExtentId, now: nat) returns (r: Status, buf: string)
      modifies this
      ensures State() == StoreTouch(old(State()), id, now)
      ensures r == if Has(old(State()), id) then OK else NOENT
      ensures r == OK ==> buf == old(extents)[id]
    {
      if id in extents && id in attrs {
        attrs := attrs[id := attrs[id].(atime := now)];
        return OK, extents[id];
      }
      return NOENT, "";
    }

    method GetAttr(id: ExtentId) returns (r: Status, a: Attr)
      ensures r == if id in attrs then OK else NOENT
      ensures r == OK ==> a == attrs[id]
    {
      if id in attrs { return OK, attrs[id]; }
      return NOENT, Attr(0, 0, 0, 0);
    }

    method Remove(id: ExtentId) returns (r: Status)
      modifies this
      ensures State() == StoreRemove(old(State()), id)
      ensures r == if id in old(extents) then OK else NOENT
    {
      if id in extents {
        extents := extents - {id};
        attrs := attrs - {id};
        return OK;
      }
      return NOENT;
    }
  }

  // ------------------------------------------------------------------------- the cache

  /** The cached extents and the ids to write back or to remove at the server. */
  datatype Cache = Cache(
    local: Store,
    modified: seq<ExtentId>,
    modifiedAttrs: seq<ExtentId>,
    removed: seq<ExtentId>)

  function Add(q: seq<ExtentId>, id: ExtentId): seq<ExtentId> {
    if id in q then q else q + [id]
  }

  /** Erases the first occurrence. */
  function Erase(q: seq<ExtentId>, id: ExtentId): (r: seq<ExtentId>)
    ensures forall x :: x != id ==> (x in r <==> x in q)
    ensures id !in q ==> r == q
  {
    if q == [] then []
    else if q[0] == id then
      assert q == [q[0]] + q[1..];
      q[1..]
    else
      assert q == [q[0]] + q[1..];
      [q[0]] + Erase(q[1..], id)
  }

  /** Erases all occurrences. */
  function EraseAll(q: seq<ExtentId>, id: ExtentId): (r: seq<ExtentId>)
    ensures forall x :: x in r <==> x in q && x != id
  {
    if q == [] then []
    else
      assert q == [q[0]] + q[1..];
      if q[0] == id then EraseAll(q[1..], id) else [q[0]] + EraseAll(q[1..], id)
  }

  function Track(c: Cache, id: ExtentId): Cache {
    c.(modified := Add(c.modified, id), modifiedAttrs := Add(c.modifiedAttrs, id), removed := Erase(c.removed, id))
  }

  /** A miss: fetch contents and attributes; `g` and `h` say whether the two calls return. */
  function Fetch(c: Cache, s: Store, id: ExtentId, now: nat, g: bool, h: bool): (Cache, Store) {
    var s' := if g then StoreTouch(s, id, now) else s;
    if g && h && Has(s, id) then
      (Track(c.(local := StorePut(c.local, id, s.extents[id], s'.attrs[id])), id), s')
    else (c, s')
  }

  function FetchStatus(s: Store, id: ExtentId, g: bool, h: bool): Status {
    if !g then FAILED else if !Has(s, id) then NOENT else if !h then FAILED else OK
  }

  function GetStep(c: Cache, s: Store, id: ExtentId, now: nat, g: bool, h: bool): (Cache, Store) {
    if id in c.local.extents then (c.(local := StoreTouch(c.local, id, now)), s) else Fetch(c, s, id, now, g, h)
  }

  function PutStep(c: Cache, id: ExtentId, buf: string, now: nat): Cache {
    Track(c.(local := StorePut(c.local, id, buf, Attr(now, now, now, |buf|))), id)
  }

  function RemoveStep(c: Cache, id: ExtentId): Cache {
    if id in c.local.extents then
      Cache(StoreRemove(c.local, id), Erase(c.modified, id), Erase(c.modifiedAttrs, id), c.removed + [id])
    else c
  }

  function RemoveStatus(c: Cache, id: ExtentId): Status {
    if id in c.local.extents then OK else NOENT
  }

  /** How a remote call ended: it was lost, it was executed but the answer was lost, or it returned. */
  datatype Call = Lost | NoAnswer | Returned

  function FlushPut(c: Cache, s: Store, id: ExtentId, p: Call): (Cache, Store)
    requires id in c.modified ==> Has(c.local, id)
  {
    if id !in c.modified || p == Lost then (c, s)
    else
      var s' := StorePut(s, id, c.local.extents[id], c.local.attrs[id]);
      if p == NoAnswer then (c, s')
      else
        (Cache(Store(c.local.extents - {id}, c.local.attrs - {id}), EraseAll(c.modified, id),
               EraseAll(c.modifiedAttrs, id), c.removed), s')
  }

  function FlushRemove(c: Cache, s: Store, id: ExtentId, r: Call): (Cache, Store) {
    if id !in c.removed || r == Lost then (c, s)
    else
      var s' := StoreRemove(s, id);
      (if r == Returned && id in s.extents then c.(removed := EraseAll(c.removed, id)) else c, s')
  }

  function FlushStep(c: Cache, s: Store, id: ExtentId, p: Call, r: Call): (Cache, Store)
    requires id in c.modified ==> Has(c.local, id)
  {
    var (c', s') := FlushPut(c, s, id, p);
    FlushRemove(c', s', id, r)
  }

  // ------------------------------------------------------------------------- invariant

  /** Cached contents, cached attributes and both modified lists have the same ids, no removed id is among
      them, no list repeats an id, and attributes give the length. */
  ghost predicate CacheOk(c: Cache) {
    && StoreOk(c.local)
    && (forall id :: id in c.modified <==> id in c.local.extents)
    && (forall id :: id in c.modifiedAttrs <==> id in c.local.extents)
    && (forall id | id in c.removed :: id !in c.local.extents)
    && Distinct(c.modified) && Distinct(c.modifiedAttrs) && Distinct(c.removed)
  }

  lemma {:induction false} EraseDistinct(q: seq<ExtentId>, id: ExtentId)
    requires Distinct(q)
    ensures Distinct(Erase(q, id)) && id !in Erase(q, id)
  {
    if q != [] && q[0] == id {
      forall i | 0 <= i < |q[1..]| ensures q[1..][i] != id {
        assert q[i + 1] != q[0];
      }
    } else if q != [] {
      EraseDistinct(q[1..], id);
      var r := Erase(q[1..], id);
      forall i | 0 <= i < |r| ensures r[i] != q[0] {
        assert r[i] in r;
        assert r[i] in q[1..];
      }
    }
  }

  lemma {:induction false} EraseAllDistinct(q: seq<ExtentId>, id: ExtentId)
    requires Distinct(q)
    ensures Distinct(EraseAll(q, id))
  {
    if q != [] {
      EraseAllDistinct(q[1..], id);
      var r := EraseAll(q[1..], id);
      forall i | 0 <= i < |r| ensures r[i] != q[0] {
        assert r[i] in r;
        assert r[i] in q[1..];
      }
    }
  }

  lemma TrackOk(c: Cache, id: ExtentId)
    requires StoreOk(c.local) && id in c.local.extents
    requires forall x :: x in c.modified + [id] <==> x in c.local.extents
    requires forall x :: x in c.modifiedAttrs + [id] <==> x in c.local.extents
    requires forall x | x in c.removed :: x == id || x !in c.local.extents
    requires Distinct(c.modified) && Distinct(c.modifiedAttrs) && Distinct(c.removed)
    ensures CacheOk(Track(c, id))
  {
    EraseDistinct(c.removed, id);
  }

  lemma PutOk(c: Cache, id: ExtentId, buf: string, now: nat)
    requires CacheOk(c)
    ensures CacheOk(PutStep(c, id, buf, now))
  {
    var d := c.(local := StorePut(c.local, id, buf, Attr(now, now, now, |buf|)));
    TrackOk(d, id);
  }

  lemma GetOk(c: Cache, s: Store, id: ExtentId, now: nat, g: bool, h: bool)
    requires CacheOk(c) && StoreOk(s)
    ensures CacheOk(GetStep(c, s, id, now, g, h).0) && StoreOk(GetStep(c, s, id, now, g, h).1)
  {
    if id !in c.local.extents && g && h && Has(s, id) {
      var s' := StoreTouch(s, id, now);
      TrackOk(c.(local := StorePut(c.local, id, s.extents[id], s'.attrs[id])), id);
    }
  }

  lemma RemoveOk(c: Cache, id: ExtentId)
    requires CacheOk(c)
    ensures CacheOk(RemoveStep(c, id))
  {
    EraseDistinct(c.modified, id);
    EraseDistinct(c.modifiedAttrs, id);
  }

  lemma FlushPutOk(c: Cache, s: Store, id: ExtentId, p: Call)
    requires CacheOk(c) && StoreOk(s)
    ensures CacheOk(FlushPut(c, s, id, p).0) && StoreOk(FlushPut(c, s, id, p).1)
  {
    EraseAllDistinct(c.modified, id);
    EraseAllDistinct(c.modifiedAttrs, id);
  }

  lemma FlushRemoveOk(c: Cache, s: Store, id: ExtentId, r: Call)
    requires CacheOk(c) && StoreOk(s)
    ensures CacheOk(FlushRemove(c, s, id, r).0) && StoreOk(FlushRemove(c, s, id, r).1)
  {
    EraseAllDistinct(c.removed, id);
  }

  // -------------------------------------------------------------- what a client sees

  /** An extent with its attributes; the access time is not part of what is kept. */
  datatype File = File(content: string, mtime: nat, ctime: nat, size: nat)

  datatype Answer = Contents(buf: string) | Attributes(mtime: nat, ctime: nat, size: nat) | Missing | Done | Failure

  function AttrOf(f: File): Answer {
    Attributes(f.mtime, f.ctime, f.size)
  }

  function FileAt(s: Store, id: ExtentId): File
    requires Has(s, id)
  {
    File(s.extents[id], s.attrs[id].mtime, s.attrs[id].ctime, s.attrs[id].size)
  }

  function InStore(s: Store, id: ExtentId): Option<File> {
    if Has(s, id) then Some(FileAt(s, id)) else None
  }

  /** The extent as the client means it: its cached copy, else nothing if it is to be removed, else the server's. */
  function Seen(c: Cache, s: Store, id: ExtentId): Option<File> {
    if Has(c.local, id) then Some(FileAt(c.local, id))
    else if id in c.removed then None
    else InStore(s, id)
  }

  /** What get hands to its caller when its remote calls return. */
  function GetAnswer(c: Cache, s: Store, id: ExtentId): Option<File> {
    if id in c.local.extents && id in c.local.attrs then Some(FileAt(c.local, id)) else InStore(s, id)
  }

  /** A removal is waiting for the flush while the server still has the extent. */
  predicate RemovalPending(c: Cache, s: Store, id: ExtentId) {
    id in c.removed && id in s.extents
  }

  /** get and getattr give what the client means, and change nothing it means, exactly when no removal of that
      extent is pending: with one pending they bring the removed extent back. */
  lemma GetRefines(c: Cache, s: Store, id: ExtentId, now: nat, x: ExtentId)
    requires CacheOk(c) && StoreOk(s)
    ensures GetAnswer(c, s, id) == Seen(c, s, id) <==> !RemovalPending(c, s, id)
    ensures var (c', s') := GetStep(c, s, id, now, true, true);
            Seen(c', s', x) == Seen(c, s, x) <==> !(x == id && RemovalPending(c, s, id))
  {
    EraseDistinct(c.removed, id);
  }

  /** A get whose remote calls fail changes nothing the client means. */
  lemma FailedGet(c: Cache, s: Store, id: ExtentId, now: nat, g: bool, h: bool, x: ExtentId)
    requires CacheOk(c) && StoreOk(s) && !(g && h)
    ensures var (c', s') := GetStep(c, s, id, now, g, h); Seen(c', s', x) == Seen(c, s, x)
  {
    assert Has(c.local, id) <==> id in c.local.extents;
  }

  lemma PutRefines(c: Cache, s: Store, id: ExtentId, buf: string, now: nat, x: ExtentId)
    requires CacheOk(c) && StoreOk(s)
    ensures Seen(PutStep(c, id, buf, now), s, x) == if x == id then Some(File(buf, now, now, |buf|)) else Seen(c, s, x)
  {
    assert x in PutStep(c, id, buf, now).removed ==> x in c.removed;
  }

  /** remove does what it does on a plain store exactly when the extent is cached or does not exist: an extent
      that only the server has is reported missing and stays. */
  lemma RemoveRefines(c: Cache, s: Store, id: ExtentId, x: ExtentId)
    requires CacheOk(c) && StoreOk(s)
    ensures x != id ==> Seen(RemoveStep(c, id), s, x) == Seen(c, s, x)
    ensures Seen(RemoveStep(c, id), s, id) == None <==> id in c.local.extents || Seen(c, s, id) == None
    ensures RemoveStatus(c, id) == (if Seen(c, s, id).Some? then OK else NOENT)
            <==> (id in c.local.extents || Seen(c, s, id) == None)
  {}

  /** A flush changes nothing the client means, however its remote calls end. */
  lemma FlushRefines(c: Cache, s: Store, id: ExtentId, p: Call, r: Call, x: ExtentId)
    requires CacheOk(c) && StoreOk(s)
    ensures var (c', s') := FlushStep(c, s, id, p, r); Seen(c', s', x) == Seen(c, s, x)
  {
    var (c1, s1) := FlushPut(c, s, id, p);
    FlushPutOk(c, s, id, p);
    FlushPutRefines(c, s, id, p, x);
    FlushRemoveRefines(c1, s1, id, r, x);
  }

  lemma FlushPutRefines(c: Cache, s: Store, id: ExtentId, p: Call, x: ExtentId)
    requires CacheOk(c) && StoreOk(s)
    ensures var (c', s') := FlushPut(c, s, id, p); Seen(c', s', x) == Seen(c, s, x)
  {}

  lemma FlushRemoveRefines(c: Cache, s: Store, id: ExtentId, r: Call, x: ExtentId)
    requires CacheOk(c) && StoreOk(s)
    ensures var (c', s') := FlushRemove(c, s, id, r); Seen(c', s', x) == Seen(c, s, x)
  {}

  /** After a flush whose calls return, the client keeps nothing of the extent, and the server has what the client
      meant; a removal stays queued exactly when the server never had the extent. */
  lemma FlushCleans(c: Cache, s: Store, id: ExtentId)
    requires CacheOk(c) && StoreOk(s)
    ensures var (c', s') := FlushStep(c, s, id, Returned, Returned);
            && id !in c'.local.extents && InStore(s', id) == Seen(c, s, id)
            && (id in c'.removed <==> id in c.removed && id !in s.extents)
  {
    var (c1, s1) := FlushPut(c, s, id, Returned);
    FlushPutOk(c, s, id, Returned);
  }

  /** A flush deletes what the server has exactly if this client has a removal queued and the call gets there. */
  lemma FlushDeletesExactly(c: Cache, s: Store, id: ExtentId, p: Call, r: Call)
    requires CacheOk(c) && StoreOk(s) && id in s.extents
    ensures id !in FlushStep(c, s, id, p, r).1.extents <==> id in c.removed && r != Lost
  {
    FlushPutOk(c, s, id, p);
  }

  /** An extent put and removed before its first flush leaves its removal queued, also after a flush whose calls return;
      whatever another client has stored under the number by the next flush is then deleted. */
  lemma QueuedRemovalOutlives(c: Cache, s: Store, id: ExtentId, buf: string, now: nat, later: Store)
    requires CacheOk(c) && StoreOk(s) && StoreOk(later) && id !in s.extents && id in later.extents
    ensures CacheOk(RemoveStep(PutStep(c, id, buf, now), id))
    ensures var (c', s') := FlushStep(RemoveStep(PutStep(c, id, buf, now), id), s, id, Returned, Returned);
            && CacheOk(c') && s' == s && id in c'.removed
            && id !in FlushStep(c', later, id, Returned, Returned).1.extents
  {
    var c1 := PutStep(c, id, buf, now);
    PutOk(c, id, buf, now);
    RemoveOk(c1, id);
    var c2 := RemoveStep(c1, id);
    assert id in c2.removed && id !in c2.modified;
    FlushRemoveOk(c2, s, id, Returned);
    FlushDeletesExactly(FlushStep(c2, s, id, Returned, Returned).0, later, id, Returned, Returned);
  }

  class ExtentClient {
    const cl: ExtentServer
    var extents: map<ExtentId, string>
    var attrs: map<ExtentId, Attr>
    var modified: seq<ExtentId>
    var modifiedAttrs: seq<ExtentId>
    var removed: seq<ExtentId>

    constructor (cl: ExtentServer)
      ensures this.cl == cl && State() == Cache(Store(map[], map[]), [], [], []) && CacheOk(State())
    {
      this.cl := cl;
      extents, attrs, modified, modifiedAttrs, removed := map[], map[], [], [], [];
    }

    function State(): Cache
      reads this
    {
      Cache(Store(extents, attrs), modified, modifiedAttrs, removed)
    }

    method AddToQueues(id: ExtentId)
      modifies `modified, `modifiedAttrs, `removed
      ensures State() == Track(old(State()), id)
    {
      if id !in modified { modified := modified + [id]; }
      if id !in modifiedAttrs { modifiedAttrs := modifiedAttrs + [id]; }
      removed := Erase(removed, id);
    }

    /** `g` and `h` say whether the two remote calls return. */
    method FetchAndCache(id: ExtentId, now: nat, g: bool, h: bool) returns (r: Status, buf: string, a: Attr)
      modifies this, cl
      ensures (State(), cl.State()) == Fetch(old(State()), old(cl.State()), id, now, g, h)
      ensures r == FetchStatus(old(cl.State()), id, g, h)
      ensures r == OK ==> buf == old(cl.State()).extents[id] && a == cl.attrs[id]
    {
      r, buf, a := FAILED, "", Attr(0, 0, 0, 0);
      if !g { return; }
      r, buf := cl.Get(id, now);
      if r == OK {
        if !h {
          r := FAILED;
          return;
        }
        r, a := cl.GetAttr(id);
        extents := extents[id := buf];
        attrs := attrs[id := a];
        AddToQueues(id);
      }
    }

    method Get(id: ExtentId, now: nat, g: bool, h: bool) returns (r: Status, buf: string)
      requires CacheOk(State()) && StoreOk(cl.State())
      modifies this, cl
      ensures CacheOk(State()) && StoreOk(cl.State())
      ensures (State(), cl.State()) == GetStep(old(State()), old(cl.State()), id, now, g, h)
      ensures var seen := GetAnswer(old(State()), old(cl.State()), id);
              && r == (if id in old(extents) then OK else FetchStatus(old(cl.State()), id, g, h))
              && (r == OK ==> seen.Some? && buf == seen.value.content) && (r == NOENT ==> seen == None)
    {
      GetOk(State(), cl.State(), id, now, g, h);
      if id in extents {
        attrs := attrs[id := attrs[id].(atime := now)];
        return OK, extents[id];
      }
      var a;
      r, buf, a := FetchAndCache(id, now, g, h);
    }

    method GetAttr(id: ExtentId, now: nat, g: bool, h: bool) returns (r: Status, a: Attr)
      requires CacheOk(State()) && StoreOk(cl.State())
      modifies this, cl
      ensures CacheOk(State()) && StoreOk(cl.State())
      ensures id in old(attrs) ==> State() == old(State()) && cl.State() == old(cl.State())
      ensures id !in old(attrs) ==> (State(), cl.State()) == GetStep(old(State()), old(cl.State()), id, now, g, h)
      ensures var seen := GetAnswer(old(State()), old(cl.State()), id);
              && r == (if id in old(extents) then OK else FetchStatus(old(cl.State()), id, g, h))
              && (r == OK ==> seen.Some? && AttrOf(seen.value) == Attributes(a.mtime, a.ctime, a.size))
              && (r == NOENT ==> seen == None)
    {
      GetOk(State(), cl.State(), id, now, g, h);
      if id in attrs { return OK, attrs[id]; }
      var buf;
      r, buf, a := FetchAndCache(id, now, g, h);
    }

    method Put(id: ExtentId, buf: string, now: nat) returns (r: Status)
      requires CacheOk(State())
      modifies this
      ensures CacheOk(State()) && r == OK && State() == PutStep(old(State()), id, buf, now)
    {
      PutOk(State(), id, buf, now);
      extents := extents[id := buf];
      attrs := attrs[id := Attr(now, now, now, |buf|)];
      AddToQueues(id);
      return OK;
    }

    method Remove(id: ExtentId) returns (r: Status)
      requires CacheOk(State())
      modifies this
      ensures CacheOk(State()) && State() == RemoveStep(old(State()), id) && r == RemoveStatus(old(State()), id)
    {
      RemoveOk(State(), id);
      if id !in extents { return NOENT; }
      extents := extents - {id};
      attrs := attrs - {id};
      removed := removed + [id];
      modified := Erase(modified, id);
      modifiedAttrs := Erase(modifiedAttrs, id);
      return OK;
    }

    /** `p` and `q` say how the remote put and the remote remove end. */
    method Flush(id: ExtentId, p: Call, q: Call)
      requires CacheOk(State()) && StoreOk(cl.State())
      modifies this, cl
      ensures CacheOk(State()) && StoreOk(cl.State())
      ensures (State(), cl.State()) == FlushStep(old(State()), old(cl.State()), id, p, q)
    {
      FlushPutOk(State(), cl.State(), id, p);
      var mid := FlushPut(State(), cl.State(), id, p);
      FlushRemoveOk(mid.0, mid.1, id, q);
      if id in modified && p != Lost {
        var r := cl.Put(id, extents[id], attrs[id]);
        if p == Returned {
          modified := EraseAll(modified, id);
          extents := extents - {id};
          modifiedAttrs := EraseAll(modifiedAttrs, id);
          attrs := attrs - {id};
        }
      }
      assert (State(), cl.State()) == mid;
      if id in removed && q != Lost {
        var r := cl.Remove(id);
        if q == Returned && r == OK {
          removed := EraseAll(removed, id);
        }
      }
    }
  }

  // ------------------------------------------------- one client against a plain map

  /** `g` and `h` say whether the two remote calls of a miss return, `p` and `q` how those of a flush end. */
  datatype Op =
    | Get(id: ExtentId, g: bool, h: bool)
    | GetAttr(id: ExtentId, g: bool, h: bool)
    | Put(id: ExtentId, buf: string)
    | Remove(id: ExtentId)
    | Flush(id: ExtentId, p: Call, q: Call)

  type Plain = map<ExtentId, File>

  function Lookup(m: Plain, id: ExtentId): Option<File> {
    if id in m then Some(m[id]) else None
  }

  /** The answers of get, getattr and remove for what the caller means by an extent. */
  function Report(op: Op, f: Option<File>): Answer {
    match op
    case Get(_, _, _) => if f.Some? then Contents(f.value.content) else Missing
    case GetAttr(_, _, _) => if f.Some? then AttrOf(f.value) else Missing
    case Remove(_) => if f.Some? then Done else Missing
    case _ => Done
  }

  function PlainStep(m: Plain, op: Op, now: nat): (Plain, Answer) {
    match op
    case Put(id, buf) => (m[id := File(buf, now, now, |buf|)], Done)
    case Remove(id) => (m - {id}, Report(op, Lookup(m, id)))
    case _ => (m, Report(op, Lookup(m, op.id)))
  }

  /** What get and getattr answer; a miss may fail. */
  function Fetched(c: Cache, s: Store, op: Op): Answer
    requires op.Get? || op.GetAttr?
  {
    if op.id in c.local.extents || FetchStatus(s, op.id, op.g, op.h) == OK then Report(op, GetAnswer(c, s, op.id))
    else if FetchStatus(s, op.id, op.g, op.h) == NOENT then Missing
    else Failure
  }

  function CachedStep(c: Cache, s: Store, op: Op, now: nat): (Cache, Store, Answer)
    requires op.Flush? && op.id in c.modified ==> Has(c.local, op.id)
  {
    match op
    case Get(id, g, h) =>
      var (c', s') := GetStep(c, s, id, now, g, h);
      (c', s', Fetched(c, s, op))
    case GetAttr(id, g, h) =>
      var (c', s') := if id in c.local.attrs then (c, s) else GetStep(c, s, id, now, g, h);
      (c', s', Fetched(c, s, op))
    case Put(id, buf) => (PutStep(c, id, buf, now), s, Done)
    case Remove(id) => (RemoveStep(c, id), s, if RemoveStatus(c, id) == OK then Done else Missing)
    case Flush(id, p, q) =>
      var (c', s') := FlushStep(c, s, id, p, q);
      (c', s', Done)
  }

  /** The guards under which the cache acts as a plain map; both can be checked before the call. */
  predicate Guarded(c: Cache, s: Store, op: Op) {
    match op
    case Get(id, g, h) => g && h ==> !RemovalPending(c, s, id)
    case GetAttr(id, g, h) => g && h ==> !RemovalPending(c, s, id)
    case Remove(id) => id in c.local.extents || Seen(c, s, id) == None
    case _ => true
  }

  ghost predicate Simulates(c: Cache, s: Store, m: Plain) {
    CacheOk(c) && StoreOk(s) && forall x :: Seen(c, s, x) == Lookup(m, x)
  }

  lemma StepOk(c: Cache, s: Store, op: Op, now: nat)
    requires CacheOk(c) && StoreOk(s)
    ensures CacheOk(CachedStep(c, s, op, now).0) && StoreOk(CachedStep(c, s, op, now).1)
  {
    match op
    case Get(id, g, h) => GetOk(c, s, id, now, g, h);
    case GetAttr(id, g, h) => GetOk(c, s, id, now, g, h);
    case Put(id, buf) => PutOk(c, id, buf, now);
    case Remove(id) => RemoveOk(c, id);
    case Flush(id, p, q) =>
      FlushPutOk(c, s, id, p);
      FlushRemoveOk(FlushPut(c, s, id, p).0, FlushPut(c, s, id, p).1, id, q);
  }

  lemma GetSeen(c: Cache, s: Store, id: ExtentId, now: nat, g: bool, h: bool, x: ExtentId)
    requires CacheOk(c) && StoreOk(s) && (g && h ==> !RemovalPending(c, s, id))
    ensures var (c', s') := GetStep(c, s, id, now, g, h); Seen(c', s', x) == Seen(c, s, x)
  {
    if g && h { GetRefines(c, s, id, now, x); } else { FailedGet(c, s, id, now, g, h, x); }
  }

  lemma StepSeen(c: Cache, s: Store, op: Op, now: nat, x: ExtentId)
    requires CacheOk(c) && StoreOk(s) && Guarded(c, s, op)
    ensures var (c', s', out) := CachedStep(c, s, op, now);
            Seen(c', s', x) == if op.Put? && op.id == x then Some(File(op.buf, now, now, |op.buf|))
                               else if op.Remove? && op.id == x then None
                               else Seen(c, s, x)
  {
    match op
    case Get(id, g, h) => GetSeen(c, s, id, now, g, h, x);
    case GetAttr(id, g, h) => GetSeen(c, s, id, now, g, h, x);
    case Put(id, buf) => PutRefines(c, s, id, buf, now, x);
    case Remove(id) => RemoveRefines(c, s, id, x);
    case Flush(id, p, q) => FlushRefines(c, s, id, p, q, x);
  }

  /** The answer is the expected one; only a get or getattr with a lost remote call may fail instead. */
  predicate Matches(op: Op, out: Answer, expected: Answer) {
    out == expected || (out == Failure && (op.Get? || op.GetAttr?) && !(op.g && op.h))
  }

  /** A guarded operation answers as on a plain map. */
  lemma StepAnswer(c: Cache, s: Store, op: Op, now: nat)
    requires CacheOk(c) && StoreOk(s) && Guarded(c, s, op)
    ensures Matches(op, CachedStep(c, s, op, now).2, Report(op, Seen(c, s, op.id)))
  {}

  lemma StepRefines(c: Cache, s: Store, m: Plain, op: Op, now: nat)
    requires Simulates(c, s, m) && Guarded(c, s, op)
    ensures var (c', s', out) := CachedStep(c, s, op, now);
            var (m', expected) := PlainStep(m, op, now);
            Simulates(c', s', m') && Matches(op, out, expected)
  {
    var (c', s', out) := CachedStep(c, s, op, now);
    var (m', expected) := PlainStep(m, op, now);
    StepOk(c, s, op, now);
    StepAnswer(c, s, op, now);
    assert Seen(c, s, op.id) == Lookup(m, op.id);
    forall x ensures Seen(c', s', x) == Lookup(m', x) {
      assert Seen(c, s, x) == Lookup(m, x);
      StepSeen(c, s, op, now, x);
    }
  }

  /** The answers of a whole run against the cache and against the plain map. */
  ghost predicate RunRefines(c: Cache, s: Store, m: Plain, ops: seq<Op>, now: nat)
    requires CacheOk(c) && StoreOk(s)
    decreases |ops|
  {
    ops == [] ||
    var (c', s', out) := CachedStep(c, s, ops[0], now);
    var (m', expected) := PlainStep(m, ops[0], now);
    Guarded(c, s, ops[0]) ==>
      Matches(ops[0], out, expected) && CacheOk(c') && StoreOk(s') && RunRefines(c', s', m', ops[1..], now + 1)
  }

  /** One client: along every run, up to the first unguarded operation, every answer is that of a plain map, however
      flushes are placed and whatever happens to the remote calls; a get or getattr may fail only if its call did. */
  lemma {:induction false} CacheRefinesStore(c: Cache, s: Store, m: Plain, ops: seq<Op>, now: nat)
    requires Simulates(c, s, m)
    ensures RunRefines(c, s, m, ops, now)
    decreases |ops|
  {
    if ops != [] && Guarded(c, s, ops[0]) {
      StepRefines(c, s, m, ops[0], now);
      var (c', s', out) := CachedStep(c, s, ops[0], now);
      var (m', expected) := PlainStep(m, ops[0], now);
      CacheRefinesStore(c', s', m', ops[1..], now + 1);
    }
  }
}
