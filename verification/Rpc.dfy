/**
 The two windows of the remote procedure call library. The client keeps the list of answered transaction ids whose
 front it acknowledges with each request; the server keeps, per client, the replies not yet acknowledged.
 */
module Rpc {
  import opened Basics

  type Xid = nat
  type Addr = nat
  type Value = string

  // ---------------------------------------------------- the client: update_xid_rep

  /** Insertion before the first greater element. */
  function Insert(w: seq<Xid>, x: Xid): (r: seq<Xid>)
    ensures |r| == |w| + 1 && forall y :: y in r <==> y in w || y == x
    ensures w != [] && w[0] < x ==> r[0] == w[0]
  {
    if w == [] then [x]
    else
      assert w == [w[0]] + w[1..];
      if w[0] > x then [x] + w else [w[0]] + Insert(w[1..], x)
  }

  /** Drops the front while its successor is in the window. */
  function Compress(w: seq<Xid>): (r: seq<Xid>)
    ensures w != [] ==> r != []
    decreases |w|
  {
    if |w| >= 2 && w[0] + 1 in w[1..] then Compress(w[1..]) else w
  }

  function UpdateWindow(w: seq<Xid>, x: Xid): seq<Xid>
    requires w != []
  {
    if x <= w[0] then w else Compress(Insert(w, x))
  }

  lemma {:induction false} InsertSorted(w: seq<Xid>, x: Xid)
    requires Sorted(w)
    ensures Sorted(Insert(w, x))
  {
    if w != [] && w[0] <= x {
      var r := Insert(w[1..], x);
      InsertSorted(w[1..], x);
      forall j | 0 <= j < |r| ensures w[0] <= r[j] { assert r[j] in r; }
      assert Insert(w, x) == [w[0]] + r;
    }
  }

  /** The window `w` stands for the set of completed calls: those up to its front, and its elements. */
  ghost predicate WindowFor(w: seq<Xid>, done: set<Xid>) {
    && w != [] && Sorted(w) && w[0] + 1 !in w
    && forall x | x > 0 :: x in done <==> x <= w[0] || x in w
  }

  lemma {:induction false} CompressWindow(w: seq<Xid>, done: set<Xid>)
    requires w != [] && Sorted(w) && forall x | x > 0 :: x in done <==> x <= w[0] || x in w
    ensures WindowFor(Compress(w), done) && Compress(w)[0] >= w[0]
    decreases |w|
  {
    if |w| >= 2 && w[0] + 1 in w[1..] {
      var v := w[1..];
      assert v[0] <= w[0] + 1 by {
        var i :| 1 <= i < |w| && w[i] == w[0] + 1;
        assert v[0] == w[1] && w[1] <= w[i];
      }
      assert w == [w[0]] + v;
      CompressWindow(v, done);
    } else {
      assert w[0] + 1 !in w;
    }
  }

  /** Completing `x` adds it to the set the window stands for, and the front never goes back. */
  lemma WindowUpdated(w: seq<Xid>, done: set<Xid>, x: Xid)
    requires WindowFor(w, done) && x > 0
    ensures WindowFor(UpdateWindow(w, x), done + {x}) && UpdateWindow(w, x)[0] >= w[0]
  {
    if x > w[0] {
      InsertSorted(w, x);
      CompressWindow(Insert(w, x), done + {x});
    }
  }

  lemma {:induction false} CompressSorted(w: seq<Xid>)
    requires Sorted(w)
    ensures Sorted(Compress(w))
    decreases |w|
  {
    if |w| >= 2 { CompressSorted(w[1..]); }
  }

  lemma UpdateSorted(w: seq<Xid>, x: Xid)
    requires w != [] && Sorted(w)
    ensures UpdateWindow(w, x) != [] && Sorted(UpdateWindow(w, x))
  {
    InsertSorted(w, x);
    CompressSorted(Insert(w, x));
  }

  /** The window after completions in any order and with any repetition. */
  function Completions(w: seq<Xid>, xs: seq<Xid>): seq<Xid>
    requires w != []
    decreases |xs|
  {
    if xs == [] then w else Completions(UpdateWindow(w, xs[0]), xs[1..])
  }

  ghost predicate AllPositive(xs: seq<Xid>) {
    forall i | 0 <= i < |xs| :: xs[i] > 0
  }

  ghost predicate Joined(all: set<Xid>, done: set<Xid>, xs: seq<Xid>) {
    forall x :: x in all <==> x in done || x in xs
  }

  lemma JoinedStep(all: set<Xid>, done: set<Xid>, xs: seq<Xid>)
    requires xs != [] && Joined(all, done + {xs[0]}, xs[1..])
    ensures Joined(all, done, xs)
  {
    assert xs == [xs[0]] + xs[1..];
  }

  lemma {:induction false} CompletionsWindow(w: seq<Xid>, done: set<Xid>, xs: seq<Xid>) returns (all: set<Xid>)
    requires WindowFor(w, done) && AllPositive(xs)
    ensures WindowFor(Completions(w, xs), all) && Joined(all, done, xs)
    decreases |xs|
  {
    all := done;
    if xs != [] {
      WindowUpdated(w, done, xs[0]);
      all := CompletionsWindow(UpdateWindow(w, xs[0]), done + {xs[0]}, xs[1..]);
      JoinedStep(all, done, xs);
    }
  }

  /** The acknowledged id is exact: everything up to it has completed and the next one has not. */
  lemma AcknowledgesExactly(xs: seq<Xid>, k: Xid)
    requires AllPositive(xs)
    ensures var w := Completions([0], xs);
            w != [] && Sorted(w) && (k == w[0] <==> ((forall x | 0 < x <= k :: x in xs) && k + 1 !in xs))
  {
    var done := CompletionsWindow([0], {}, xs);
    var w := Completions([0], xs);
    assert w[0] + 1 !in done;
    assert k < w[0] ==> k + 1 in done;
  }

  lemma PopKeepsCompress(w: seq<Xid>, k: nat)
    requires 0 < k < |w| && w[0] + 1 == w[k]
    ensures Compress(w) == Compress(w[1..])
  {
    assert w[k] == w[1..][k - 1];
  }

  lemma {:induction false} InsertAt(w: seq<Xid>, x: Xid, k: nat)
    requires k <= |w| && (forall i | 0 <= i < k :: w[i] <= x) && (k == |w| || w[k] > x)
    ensures Insert(w, x) == w[..k] + [x] + w[k..]
  {
    if k > 0 {
      InsertAt(w[1..], x, k - 1);
      assert w[..k] + [x] + w[k..] == [w[0]] + (w[1..][..k - 1] + [x] + w[1..][k - 1..]);
    }
  }

  // ------------------------------------------------- the client: a call and its reply

  datatype Ret = Ok(v: Value) | AtMostOnceFailure

  /** The next id, the window, and the pending calls, each with its reply once that has arrived. */
  datatype Client = Client(next: Xid, window: seq<Xid>, calls: map<Xid, Option<Ret>>)

  function Begun(c: Client): Client {
    Client(c.next + 1, c.window, c.calls[c.next := None])
  }

  function Taken(c: Client, x: Xid, ret: Ret): Client
    requires c.window != []
  {
    Client(c.next, UpdateWindow(c.window, x),
           if x in c.calls && c.calls[x].None? then c.calls[x := Some(ret)] else c.calls)
  }

  function Left(c: Client, x: Xid): Client
    requires c.window != []
  {
    Client(c.next, UpdateWindow(c.window, x), c.calls - {x})
  }

  class Rpcc {
    var next: Xid
    var window: seq<Xid>
    var calls: map<Xid, Option<Ret>>

    ghost predicate Valid()
      reads this
    {
      window != [] && Sorted(window)
    }

    constructor ()
      ensures Valid() && State() == Client(1, [0], map[])
    {
      next, window, calls := 1, [0], map[];
    }

    function State(): Client
      reads this
    {
      Client(next, window, calls)
    }

    /** The start of `call1`: the id of the call and the acknowledgement its header carries. */
    method Begin() returns (x: Xid, ack: Xid)
      requires Valid()
      modifies this
      ensures Valid() && State() == Begun(old(State())) && x == old(next) && ack == old(window)[0]
    {
      x, ack := next, window[0];
      next, calls := next + 1, calls[x := None];
    }

    method GotPdu(x: Xid, ret: Ret)
      requires Valid()
      modifies this
      ensures Valid() && State() == Taken(old(State()), x, ret)
    {
      UpdateXidRep(x);
      if x in calls && calls[x].None? { calls := calls[x := Some(ret)]; }
    }

    /** The end of `call1`, with or without a reply. */
    method Leave(x: Xid) returns (r: Option<Ret>)
      requires Valid() && x in calls
      modifies this
      ensures Valid() && State() == Left(old(State()), x) && r == old(calls)[x]
    {
      r := calls[x];
      calls := calls - {x};
      UpdateXidRep(x);
    }

    /** The first half of `update_xid_rep`: the id takes its place in the list. */
    method Place(x: Xid)
      requires window != []
      modifies `window
      ensures window == Insert(old(window), x)
    {
      var it := 0;
      while it < |window| && window[it] <= x
        invariant 0 <= it <= |window| && window == old(window)
        invariant forall j | 0 <= j < it :: window[j] <= x
      {
        it := it + 1;
      }
      InsertAt(window, x, it);
      window := window[..it] + [x] + window[it..];
    }

    /** Its second half. The pops at the front never reach the element the iterator stands on. */
    method PopFronts()
      requires Valid()
      modifies `window
      ensures window == Compress(old(window))
    {
      var it := 1;
      while it < |window|
        invariant 1 <= it <= |window| && Sorted(window)
        invariant Compress(window) == Compress(old(window))
        invariant forall j | 0 <= j < it :: window[j] != window[0] + 1
        decreases |window| - it
      {
        ghost var ahead := |window| - it;
        while window[0] + 1 == window[it]
          invariant 0 <= it < |window| && Sorted(window)
          invariant Compress(window) == Compress(old(window))
          invariant forall j | 0 <= j < it :: window[j] != window[0] + 1
          invariant |window| - it == ahead
          decreases it
        {
          PopKeepsCompress(window, it);
          assert forall j | 0 <= j < it :: window[j] == window[0];
          window := window[1..];
          it := it - 1;
        }
        it := it + 1;
      }
    }

    /** `update_xid_rep`. */
    method UpdateXidRep(x: Xid)
      requires Valid()
      modifies `window
      ensures Valid() && window == UpdateWindow(old(window), x)
    {
      UpdateSorted(window, x);
      if x <= window[0] { return; }
      InsertSorted(window, x);
      Place(x);
      PopFronts();
    }
  }

  // ------------------------------------------ the server: the replies kept for one client

  datatype Entry = Entry(xid: Xid, present: bool, buf: Option<Addr>)

  /** A reply buffer, with the call it answers. */
  datatype Buffer = Buffer(nonce: nat, xid: Xid, value: Value)

  /** The allocated buffers; freeing one that is not allocated is a fault. */
  datatype Heap = Heap(live: map<Addr, Buffer>, fault: bool)

  datatype State = NEW | INPROGRESS | DONE | FORGOTTEN

  function Free(h: Heap, b: Option<Addr>): Heap {
    match b
    case None => h
    case Some(a) => if a in h.live then h.(live := h.live - {a}) else h.(fault := true)
  }

  function TrimEntry(e: Entry, ack: Xid): Entry {
    if e.xid <= ack then Entry(e.xid, false, None) else e
  }

  /** The list with the acknowledged replies dropped. */
  function Trim(q: seq<Entry>, ack: Xid): (r: seq<Entry>)
    ensures |r| == |q| && forall i | 0 <= i < |q| :: r[i] == TrimEntry(q[i], ack)
  {
    if q == [] then [] else [TrimEntry(q[0], ack)] + Trim(q[1..], ack)
  }

  function FreeAcked(h: Heap, q: seq<Entry>, ack: Xid): Heap
    decreases |q|
  {
    if q == [] then h else FreeAcked(if q[0].xid <= ack then Free(h, q[0].buf) else h, q[1..], ack)
  }

  function Find(q: seq<Entry>, x: Xid): (r: Option<Entry>)
    ensures r.Some? ==> r.value in q && r.value.xid == x
    ensures r.None? ==> forall e | e in q :: e.xid != x
  {
    if q == [] then None
    else
      assert q == [q[0]] + q[1..];
      if q[0].xid == x then Some(q[0]) else Find(q[1..], x)
  }

  /** What `checkduplicate_and_update` answers, which buffer it hands out, and the list it leaves. */
  function Check(q: seq<Entry>, x: Xid, ack: Xid): State {
    match Find(Trim(q, ack), x)
    case None => NEW
    case Some(e) => if e.present then DONE else if x > ack then INPROGRESS else FORGOTTEN
  }

  function Handed(q: seq<Entry>, x: Xid, ack: Xid): Option<Addr> {
    if Check(q, x, ack).DONE? then Find(Trim(q, ack), x).value.buf else None
  }

  function Checked(q: seq<Entry>, x: Xid, ack: Xid): seq<Entry> {
    if Check(q, x, ack).NEW? then Trim(q, ack) + [Entry(x, false, None)] else q
  }

  /** The assertion of `add_reply`: the entry of this call has no reply yet. */
  predicate Unanswered(q: seq<Entry>, x: Xid) {
    Find(q, x).Some? ==> !Find(q, x).value.present && Find(q, x).value.buf == None
  }

  function AddReply(q: seq<Entry>, x: Xid, a: Addr): (r: seq<Entry>)
    ensures |r| == |q|
  {
    if q == [] then []
    else if q[0].xid == x then [Entry(x, true, Some(a))] + q[1..]
    else [q[0]] + AddReply(q[1..], x, a)
  }

  lemma {:induction false} FreeAckedSnoc(h: Heap, q: seq<Entry>, e: Entry, ack: Xid)
    ensures FreeAcked(h, q + [e], ack) == (var h' := FreeAcked(h, q, ack); if e.xid <= ack then Free(h', e.buf) else h')
    decreases |q|
  {
    if q != [] {
      FreeAckedSnoc(if q[0].xid <= ack then Free(h, q[0].buf) else h, q[1..], e, ack);
      assert (q + [e])[0] == q[0] && (q + [e])[1..] == q[1..] + [e];
    } else {
      assert q + [e] == [e] && [e][1..] == [];
    }
  }

  lemma {:induction false} FindAt(q: seq<Entry>, x: Xid, k: nat)
    requires k <= |q| && (forall i | 0 <= i < k :: q[i].xid != x)
    ensures k == |q| ==> Find(q, x) == None
    ensures k < |q| && q[k].xid == x ==> Find(q, x) == Some(q[k])
  {
    if k > 0 { FindAt(q[1..], x, k - 1); }
  }

  lemma {:induction false} AddReplyAt(q: seq<Entry>, x: Xid, a: Addr, k: nat)
    requires k <= |q| && (forall i | 0 <= i < k :: q[i].xid != x) && (k == |q| || q[k].xid == x)
    ensures AddReply(q, x, a) == if k < |q| then q[k := Entry(x, true, Some(a))] else q
  {
    if k > 0 { AddReplyAt(q[1..], x, a, k - 1); }
  }

  // ------------------------------------------------ what trimming does to the buffers

  /** Every buffer of the list is allocated, and no two entries share one. */
  ghost predicate Sound(q: seq<Entry>, h: Heap) {
    && (forall i | 0 <= i < |q| && q[i].buf.Some? :: q[i].buf.value in h.live)
    && (forall i, j | 0 <= i < j < |q| && q[i].buf.Some? :: q[i].buf != q[j].buf)
  }

  /** The buffer `a` belongs to an acknowledged entry. */
  ghost predicate Acked(q: seq<Entry>, ack: Xid, a: Addr) {
    exists i :: 0 <= i < |q| && q[i].xid <= ack && q[i].buf == Some(a)
  }

  lemma FreeFirst(q: seq<Entry>, h: Heap, ack: Xid)
    requires Sound(q, h) && q != []
    ensures var h' := if q[0].xid <= ack then Free(h, q[0].buf) else h;
            && Sound(q[1..], h') && h'.fault == h.fault
            && (forall a: Addr :: a in h'.live <==> a in h.live && !(q[0].xid <= ack && q[0].buf == Some(a)))
            && (forall a | a in h'.live :: h'.live[a] == h.live[a])
  {
    var h' := if q[0].xid <= ack then Free(h, q[0].buf) else h;
    forall i | 0 <= i < |q[1..]| && q[1..][i].buf.Some? ensures q[1..][i].buf.value in h'.live {
      assert q[1..][i] == q[i + 1] && q[0].buf != q[i + 1].buf;
    }
  }

  /** Trimming a sound list frees exactly the acknowledged buffers, each once. */
  lemma {:induction false} TrimFrees(q: seq<Entry>, h: Heap, ack: Xid)
    requires Sound(q, h)
    ensures var h' := FreeAcked(h, q, ack);
            && h'.fault == h.fault
            && (forall a: Addr :: a in h'.live <==> a in h.live && !Acked(q, ack, a))
            && (forall a | a in h'.live :: h'.live[a] == h.live[a])
    decreases |q|
  {
    if q != [] {
      var h1 := if q[0].xid <= ack then Free(h, q[0].buf) else h;
      FreeFirst(q, h, ack);
      TrimFrees(q[1..], h1, ack);
      forall a: Addr ensures Acked(q, ack, a) <==> (q[0].xid <= ack && q[0].buf == Some(a)) || Acked(q[1..], ack, a) {
        AckedSplits(q, ack, a);
      }
    }
  }

  lemma AckedSplits(q: seq<Entry>, ack: Xid, a: Addr)
    requires q != []
    ensures Acked(q, ack, a) <==> (q[0].xid <= ack && q[0].buf == Some(a)) || Acked(q[1..], ack, a)
  {
    if Acked(q[1..], ack, a) {
      var i :| 0 <= i < |q[1..]| && q[1..][i].xid <= ack && q[1..][i].buf == Some(a);
      assert q[i + 1].buf == Some(a);
    }
    if Acked(q, ack, a) {
      var i :| 0 <= i < |q| && q[i].xid <= ack && q[i].buf == Some(a);
      assert i > 0 ==> q[1..][i - 1].buf == Some(a);
    }
  }

  /** No entry up to `ack` has a buffer. */
  ghost predicate NoneUpTo(q: seq<Entry>, ack: Xid) {
    forall i | 0 <= i < |q| && q[i].xid <= ack :: q[i].buf == None
  }

  /** The stored list stays in step with the allocated buffers exactly when the trimmed copy is written back, for a
      new request, or there was nothing to trim: on the other branches the trimmed copy is thrown away. */
  lemma CheckKeepsSound(q: seq<Entry>, h: Heap, x: Xid, ack: Xid)
    requires Sound(q, h)
    ensures Sound(Checked(q, x, ack), FreeAcked(h, q, ack)) <==> Check(q, x, ack).NEW? || NoneUpTo(q, ack)
  {
    TrimFrees(q, h, ack);
    var h' := FreeAcked(h, q, ack);
    if Check(q, x, ack).NEW? {
      var r := Trim(q, ack);
      forall i | 0 <= i < |r| && r[i].buf.Some? ensures r[i].buf.value in h'.live {
        NotAcked(q, ack, i);
      }
      assert Sound(r, h');
      assert Sound(r + [Entry(x, false, None)], h');
    } else if NoneUpTo(q, ack) {
      assert forall a: Addr :: !Acked(q, ack, a);
    } else {
      var i :| 0 <= i < |q| && q[i].xid <= ack && q[i].buf != None;
      assert Acked(q, ack, q[i].buf.value);
    }
  }

  lemma NotAcked(q: seq<Entry>, ack: Xid, i: nat)
    requires i < |q| && q[i].xid > ack && q[i].buf.Some?
    requires forall i, j | 0 <= i < j < |q| && q[i].buf.Some? :: q[i].buf != q[j].buf
    ensures !Acked(q, ack, q[i].buf.value)
  {
    forall j | 0 <= j < |q| && q[j].xid <= ack ensures q[j].buf != q[i].buf {
      assert i != j;
    }
  }

  class Rpcs {
    var window: map<nat, seq<Entry>>
    var heap: Heap

    constructor ()
      ensures window == map[] && heap == Heap(map[], false)
    {
      window, heap := map[], Heap(map[], false);
    }

    function List(n: nat): seq<Entry>
      reads this
    {
      if n in window then window[n] else []
    }

    method FreeBuf(b: Option<Addr>)
      modifies `heap
      ensures heap == Free(old(heap), b)
    {
      if b.Some? {
        if b.value in heap.live { heap := heap.(live := heap.live - {b.value}); } else { heap := heap.(fault := true); }
      }
    }

    /** The first loop of `checkduplicate_and_update`, on its own copy of the list. */
    method TrimCopy(q: seq<Entry>, ack: Xid) returns (r: seq<Entry>)
      modifies `heap
      ensures heap == FreeAcked(old(heap), q, ack) && r == Trim(q, ack)
    {
      r := q;
      var i := 0;
      while i < |r|
        invariant 0 <= i <= |r| == |q|
        invariant forall j | 0 <= j < |q| :: r[j] == if j < i then TrimEntry(q[j], ack) else q[j]
        invariant heap == FreeAcked(old(heap), q[..i], ack)
      {
        FreeAckedSnoc(old(heap), q[..i], q[i], ack);
        assert q[..i + 1] == q[..i] + [q[i]];
        if r[i].xid <= ack {
          FreeBuf(r[i].buf);
          r := r[i := r[i].(buf := None, present := false)];
        }
        i := i + 1;
      }
      assert q[..i] == q;
    }

    /** Its second loop: the place of the call in the list, or the end. */
    method Search(list: seq<Entry>, x: Xid) returns (i: nat)
      ensures i <= |list|
      ensures if i == |list| then Find(list, x) == None else Find(list, x) == Some(list[i]) && list[i].xid == x
    {
      i := 0;
      while i < |list| && list[i].xid != x
        invariant i <= |list| && forall j | 0 <= j < i :: list[j].xid != x
      {
        i := i + 1;
      }
      FindAt(list, x, i);
    }

    method CheckDuplicateAndUpdate(n: nat, x: Xid, ack: Xid) returns (st: State, b: Option<Addr>)
      modifies this
      ensures st == Check(old(List(n)), x, ack) && b == Handed(old(List(n)), x, ack)
      ensures window == old(window)[n := Checked(old(List(n)), x, ack)]
      ensures heap == FreeAcked(old(heap), old(List(n)), ack)
    {
      var q := List(n);
      window := window[n := q];
      var list := TrimCopy(q, ack);
      var i := Search(list, x);
      b := None;
      if i == |list| {
        list := list + [Entry(x, false, None)];
        window := window[n := list];
        st := NEW;
      } else if list[i].present {
        b := list[i].buf;
        st := DONE;
      } else if x > ack {
        st := INPROGRESS;
      } else {
        st := FORGOTTEN;
      }
    }

    /** `add_reply`; `held` is the value of the assertion, without which the server stops. */
    method RecordReply(n: nat, x: Xid, a: Addr) returns (held: bool)
      modifies `window
      ensures held == Unanswered(old(List(n)), x)
      ensures held ==> window == old(window)[n := AddReply(old(List(n)), x, a)]
    {
      var list := List(n);
      var i := 0;
      while i < |list| && list[i].xid != x
        invariant 0 <= i <= |list| && forall j | 0 <= j < i :: list[j].xid != x
      {
        i := i + 1;
      }
      FindAt(list, x, i);
      AddReplyAt(list, x, a, i);
      held := true;
      if i < |list| {
        if list[i].present || list[i].buf.Some? { held := false; return; }
        list := list[i := Entry(list[i].xid, true, Some(a))];
      }
      window := window[n := list];
    }
  }
}
