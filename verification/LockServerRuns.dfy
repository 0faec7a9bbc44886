/** Runs of the lock server that break its promises, one for each kind of step that can. */
module LockServerRuns {
  import opened LockServer

  lemma {:induction false} RunSnoc(w: World, acts: seq<Action>, act: Action)
    requires IsRun(w, acts) && Possible(After(w, acts), act)
    ensures IsRun(w, acts + [act]) && After(w, acts + [act]) == Apply(After(w, acts), act)
    decreases |acts|
  {
    if acts == [] {
      assert acts + [act] == [act] && [act][1..] == [];
    } else {
      RunSnoc(Apply(w, acts[0]), acts[1..], act);
      assert (acts + [act])[0] == acts[0] && (acts + [act])[1..] == acts[1..] + [act];
    }
  }

  ghost predicate Reached(w: World) {
    exists acts :: IsRun(BOOT, acts) && After(BOOT, acts) == w
  }

  lemma Go(w: World, act: Action, u: World)
    requires Reached(w) && Possible(w, act) && u == Apply(w, act)
    ensures Reached(u)
  {
    var acts :| IsRun(BOOT, acts) && After(BOOT, acts) == w;
    RunSnoc(BOOT, acts, act);
  }

  /** A server that knows one lock. */
  function One(lid: LockId, li: LockInfo, revokes: seq<(LockId, ClientId)>, free: seq<LockId>, retryer: Place,
      revoker: Place): Server {
    Server(map[lid := li], revokes, free, retryer, revoker)
  }

  lemma Again(lid: LockId, li: LockInfo, next: LockInfo)
    ensures map[lid := li][lid := next] == map[lid := next] && map[][lid := next] == map[lid := next]
  {}

  // ------------------------------------------------ a client invited while another holds

  /** `a` got the lock, gave it back and got it again; the retryer's list still has it. */
  function Regained(a: ClientId, lid: LockId): World {
    World(One(lid, LockInfo(a, 1, ACQUIRED, [], ""), [], [lid], At(0), At(0)),
          [Granted(lid, a), Released(lid, a, a), Granted(lid, a)], {}, {}, false)
  }

  /** Then `b` asked, and the retryer invites it although `a` has the lock. */
  function Invited(a: ClientId, b: ClientId, lid: LockId): World {
    World(One(lid, LockInfo(a, 1, ACQUIRED, [], b), [(lid, a)], [lid], Calling(0, lid, b), At(0)),
          [Granted(lid, a), Released(lid, a, a), Granted(lid, a)], {(lid, b)}, {}, false)
  }

  lemma ReachRegained(a: ClientId, lid: LockId)
    requires a != ""
    ensures Reached(Regained(a, lid))
  {
    assert IsRun(BOOT, []) && After(BOOT, []) == BOOT;
    var l1, l2, l3 := LockInfo(a, 0, ACQUIRED, [], ""), LockInfo("", 0, FREE, [], ""), LockInfo(a, 1, ACQUIRED, [], "");
    var none: set<(LockId, ClientId)> := {};
    assert none - {(lid, a)} == none;
    Again(lid, l1, l1);
    Again(lid, l1, l2);
    Again(lid, l2, l3);
    var w1 := World(One(lid, l1, [], [], At(0), At(0)), [Granted(lid, a)], {}, {}, false);
    Go(BOOT, Acquire(a, 0, lid), w1);
    var w2 := World(One(lid, l2, [], [lid], At(0), At(0)), [Granted(lid, a), Released(lid, a, a)], {}, {}, false);
    Go(w1, Release(a, lid), w2);
    Go(w2, Acquire(a, 1, lid), Regained(a, lid));
  }

  lemma ReachInvited(a: ClientId, b: ClientId, lid: LockId)
    requires a != "" && b != "" && a != b
    ensures Reached(Invited(a, b, lid))
  {
    ReachRegained(a, lid);
    var l3, l4, l5 := LockInfo(a, 1, ACQUIRED, [], ""), LockInfo(a, 1, ACQUIRED, [b], ""),
        LockInfo(a, 1, ACQUIRED, [], b);
    Again(lid, l3, l4);
    Again(lid, l4, l5);
    var none: set<(LockId, ClientId)> := {};
    assert none + {(lid, b)} == {(lid, b)} && [] + [b] == [b] && [b][1..] == [] && [] + [(lid, a)] == [(lid, a)];
    var w := Regained(a, lid).(srv := One(lid, l4, [(lid, a)], [lid], At(0), At(0)), owed := {(lid, b)});
    Go(Regained(a, lid), Acquire(b, 0, lid), w);
    Go(w, Visit, Invited(a, b, lid));
  }

  /** The callback of `b` fails, and the release of `a` takes the invitation back: `b` was told to retry and nothing
      remembers it. */
  lemma ClientForgotten(a: ClientId, b: ClientId, lid: LockId) returns (w: World)
    requires a != "" && b != "" && a != b
    ensures Reached(w) && (lid, b) in w.owed && !Remembered(w.srv, lid, b) && !Kept(w, CallBack)
    ensures Info(w.srv, lid).waiting == [] && w.srv.retryer.At?
  {
    ReachInvited(a, b, lid);
    var u := Apply(Invited(a, b, lid), Return(false));
    Go(Invited(a, b, lid), Return(false), u);
    w := Apply(u, Release(a, lid));
    Go(u, Release(a, lid), w);
    assert (lid, b) in w.owed && !Remembered(w.srv, lid, b);
    assert !KeptFor(w, CallBack, lid);
  }

  /** The other order: `a` releases while `b` is being called, which takes the invitation back; then the call fails. */
  lemma FailedCallForgets(a: ClientId, b: ClientId, lid: LockId) returns (w: World)
    requires a != "" && b != "" && a != b
    ensures Reached(w) && (lid, b) in w.owed && !Remembered(w.srv, lid, b) && !Kept(w, CallBack)
    ensures Info(w.srv, lid).waiting == [] && w.srv.retryer.At?
  {
    ReachInvited(a, b, lid);
    var u := Apply(Invited(a, b, lid), Release(a, lid));
    Go(Invited(a, b, lid), Release(a, lid), u);
    assert BeingCalled(u.srv, lid, b) && Info(u.srv, lid) == LockInfo("", 1, FREE, [], "");
    w := Apply(u, Return(false));
    Go(u, Return(false), w);
    assert (lid, b) in w.owed && !Remembered(w.srv, lid, b);
    assert !KeptFor(w, CallBack, lid);
  }

  /** The invited `b` releases a lock that `a` holds, and `c` is granted it. */
  lemma HolderIntruded(a: ClientId, b: ClientId, c: ClientId, lid: LockId) returns (w: World)
    requires a != "" && b != "" && c != "" && a != b && c != a
    ensures Reached(w) && Info(w.srv, lid).state == ACQUIRED && Info(w.srv, lid).owner == c
    ensures w.events == [Granted(lid, a), Released(lid, a, a), Granted(lid, a), Released(lid, b, a), Granted(lid, c)]
  {
    ReachInvited(a, b, lid);
    var u := Apply(Invited(a, b, lid), Release(b, lid));
    Go(Invited(a, b, lid), Release(b, lid), u);
    w := Apply(u, Acquire(c, 0, lid));
    Go(u, Acquire(c, 0, lid), w);
  }

  // ----------------------------------------------------------------- owners not summoned

  /** `a` holds the lock, `b` waits for it, and the revoker is calling `a`. */
  function Contended(a: ClientId, b: ClientId, lid: LockId): World {
    World(One(lid, LockInfo(a, 0, ACQUIRED, [b], ""), [(lid, a)], [], At(0), Calling(0, lid, a)), [Granted(lid, a)],
        {(lid, b)}, {}, false)
  }

  lemma ReachContended(a: ClientId, b: ClientId, lid: LockId)
    requires a != "" && b != "" && a != b
    ensures Reached(Contended(a, b, lid))
  {
    assert IsRun(BOOT, []) && After(BOOT, []) == BOOT;
    var l1, l2 := LockInfo(a, 0, ACQUIRED, [], ""), LockInfo(a, 0, ACQUIRED, [b], "");
    var none: set<(LockId, ClientId)> := {};
    assert none - {(lid, a)} == none && none + {(lid, b)} == {(lid, b)} && [] + [b] == [b]
        && [] + [(lid, a)] == [(lid, a)];
    Again(lid, l1, l1);
    Again(lid, l1, l2);
    var w1 := World(One(lid, l1, [], [], At(0), At(0)), [Granted(lid, a)], {}, {}, false);
    Go(BOOT, Acquire(a, 0, lid), w1);
    var w2 := World(One(lid, l2, [(lid, a)], [], At(0), At(0)), [Granted(lid, a)], {(lid, b)}, {}, false);
    Go(w1, Acquire(b, 0, lid), w2);
    Go(w2, Revoke, Contended(a, b, lid));
  }

  /** `a` gives the lock back and the retryer invites `b`, whatever the revoker does. */
  lemma Offered(w: World, a: ClientId, b: ClientId, lid: LockId) returns (u: World)
    requires a != "" && b != "" && Reached(w) && w.owed == {(lid, b)}
    requires w.srv == One(lid, LockInfo(a, 0, ACQUIRED, [b], ""), w.srv.revokes, [], At(0), w.srv.revoker)
    ensures Reached(u) && u.owed == {} && u.stale == w.stale && u.told == w.told
    ensures u.srv == One(lid, LockInfo("", 0, FREE, [], b), w.srv.revokes, [], At(0), w.srv.revoker)
  {
    var l2, l3, l4 := LockInfo(a, 0, ACQUIRED, [b], ""), LockInfo("", 0, FREE, [b], ""), LockInfo("", 0, FREE, [], b);
    Again(lid, l2, l3);
    Again(lid, l3, l4);
    assert [] + [lid] == [lid] && [b][1..] == [] && {(lid, b)} - {(lid, b)} == {};
    var w1 := Apply(w, Release(a, lid));
    Go(w, Release(a, lid), w1);
    assert w1.srv == One(lid, l3, w.srv.revokes, [lid], At(0), w.srv.revoker);
    var w2 := Apply(w1, Visit);
    Go(w1, Visit, w2);
    assert w2.srv == One(lid, l4, w.srv.revokes, [lid], Calling(0, lid, b), w.srv.revoker);
    u := Apply(w2, Return(true));
    Go(w2, Return(true), u);
  }

  /** `c` asks and waits, and then the invited `b` is granted the lock. */
  lemma Overtaken(w: World, b: ClientId, c: ClientId, lid: LockId) returns (u: World)
    requires b != "" && c != "" && b != c && Reached(w) && (lid, b) !in w.told
    requires w.srv == One(lid, LockInfo("", 0, FREE, [], b), [], [], At(0), At(0))
    ensures Reached(u) && u.srv == One(lid, LockInfo(b, 1, ACQUIRED, [c], ""), [], [], At(0), At(0))
    ensures !Kept(u, Summons)
  {
    var l1, l2, l3 := LockInfo("", 0, FREE, [], b), LockInfo("", 0, FREE, [c], b), LockInfo(b, 1, ACQUIRED, [c], "");
    Again(lid, l1, l2);
    Again(lid, l2, l3);
    assert [] + [c] == [c];
    var v := Apply(w, Acquire(c, 0, lid));
    Go(w, Acquire(c, 0, lid), v);
    assert v.srv == One(lid, l2, [], [], At(0), At(0));
    u := Apply(v, Acquire(b, 1, lid));
    Go(v, Acquire(b, 1, lid), u);
    assert u.srv == One(lid, l3, [], [], At(0), At(0)) && (lid, b) !in u.told;
    assert !KeptFor(u, Summons, lid);
  }

  /** The invited client is granted the lock while another waits: no thread has anything left to do, and nobody asks
      the owner to give it back. */
  lemma WaiterStranded(a: ClientId, b: ClientId, c: ClientId, lid: LockId) returns (w: World)
    requires a != "" && b != "" && c != "" && a != b && b != c
    ensures Reached(w) && !Kept(w, Summons)
    ensures Info(w.srv, lid).state == ACQUIRED && Info(w.srv, lid).owner == b && Info(w.srv, lid).waiting == [c]
    ensures w.srv.revokes == [] && w.srv.freeLocks == [] && w.srv.retryer.At? && w.srv.revoker.At?
  {
    ReachContended(a, b, lid);
    var w0 := Apply(Contended(a, b, lid), Revoked(true));
    Go(Contended(a, b, lid), Revoked(true), w0);
    assert w0.srv == One(lid, LockInfo(a, 0, ACQUIRED, [b], ""), [], [], At(0), At(0)) && (lid, b) !in w0.told;
    var w1 := Offered(w0, a, b, lid);
    w := Overtaken(w1, b, c, lid);
  }

  /** `b` takes the lock and gives it back, and `a` has it again. */
  lemma PassesBack(w: World, a: ClientId, b: ClientId, lid: LockId) returns (u: World)
    requires a != "" && b != "" && a != b && Reached(w)
    requires w.srv == One(lid, LockInfo("", 0, FREE, [], b), [(lid, a)], [], At(0), Calling(0, lid, a))
    ensures Reached(u) && u.stale && (lid, a) !in u.told
    ensures u.srv == One(lid, LockInfo(a, 1, ACQUIRED, [], ""), [(lid, a)], [lid], At(0), Calling(0, lid, a))
  {
    var l4, l5 := LockInfo("", 0, FREE, [], b), LockInfo(b, 1, ACQUIRED, [], "");
    var l6, l7 := LockInfo("", 1, FREE, [], ""), LockInfo(a, 1, ACQUIRED, [], "");
    Again(lid, l4, l5);
    Again(lid, l5, l6);
    Again(lid, l6, l7);
    assert [] + [lid] == [lid];
    var w2 := Apply(w, Acquire(b, 1, lid));
    Go(w, Acquire(b, 1, lid), w2);
    assert w2.srv == One(lid, l5, [(lid, a)], [], At(0), Calling(0, lid, a));
    var w3 := Apply(w2, Release(b, lid));
    Go(w2, Release(b, lid), w3);
    assert w3.srv == One(lid, l6, [(lid, a)], [lid], At(0), Calling(0, lid, a));
    u := Apply(w3, Acquire(a, 1, lid));
    Go(w3, Acquire(a, 1, lid), u);
  }

  /** A revoke that reached `a` in an earlier tenure, and whose answer is late, keeps the server from queueing one for
      the present tenure. */
  lemma LateAnswerHidesRevoke(a: ClientId, b: ClientId, c: ClientId, lid: LockId) returns (w: World)
    requires a != "" && b != "" && c != "" && a != b && c != a
    ensures Reached(w) && !Kept(w, Summons)
    ensures Info(w.srv, lid).state == ACQUIRED && Info(w.srv, lid).owner == a && Info(w.srv, lid).waiting == [c]
    ensures w.srv.revokes == [] && w.srv.revoker.At?
  {
    ReachContended(a, b, lid);
    var w1 := Offered(Contended(a, b, lid), a, b, lid);
    var w4 := PassesBack(w1, a, b, lid);
    var w5 := Apply(w4, Acquire(c, 0, lid));
    Go(w4, Acquire(c, 0, lid), w5);
    w := Apply(w5, Revoked(true));
    Go(w5, Revoked(true), w);
    assert !KeptFor(w, Summons, lid);
  }
}
