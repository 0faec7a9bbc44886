/** The lock cache of a client: what its threads, its releaser and the server's callbacks do to one lock. */
module LockClient {

  datatype State = NONE | FREE | LOCKED | ACQUIRING | RELEASING

  type LockId = nat
  type Tid = nat

  datatype Reply = OK | RETRY | ERROR

  datatype LockInfo = LockInfo(state: State, seqNum: int, waiting: seq<Tid>, toBeRevoked: bool, retryReceived: bool)

  const NEW_LOCK := LockInfo(NONE, 0, [], false, false)

  /** What a thread in the loop of acquire does next. */
  datatype Move = Wait | CallServer | Got

  function Join(l: LockInfo, t: Tid): LockInfo {
    if t in l.waiting then l else l.(waiting := l.waiting + [t])
  }

  function LoopMove(l: LockInfo, t: Tid): Move {
    if l.toBeRevoked || l.waiting == [] || l.waiting[0] != t then Wait
    else match l.state
         case NONE => CallServer
         case FREE => Got
         case _ => Wait
  }

  function PopFront(q: seq<Tid>): seq<Tid> {
    if q == [] then [] else q[1..]
  }

  function LoopStep(l: LockInfo, t: Tid): LockInfo {
    match LoopMove(l, t)
    case Wait => l
    case CallServer => l.(state := ACQUIRING, retryReceived := false, seqNum := l.seqNum + 1)
    case Got => l.(state := LOCKED, waiting := PopFront(l.waiting))
  }

  function AcquireReply(l: LockInfo, r: Reply): LockInfo {
    match r
    case OK => l.(state := LOCKED, waiting := PopFront(l.waiting))
    case RETRY => l.(state := NONE)
    case ERROR => l
  }

  function Remove(q: seq<Tid>, t: Tid): (r: seq<Tid>)
    ensures forall x :: x in r <==> x in q && x != t
  {
    if q == [] then []
    else
      assert q == [q[0]] + q[1..];
      if q[0] == t then Remove(q[1..], t) else [q[0]] + Remove(q[1..], t)
  }

  function Release(l: LockInfo, t: Tid): LockInfo {
    l.(state := FREE, waiting := Remove(l.waiting, t))
  }

  /** The releaser gives the lock back if no thread has it: the test of the code. */
  predicate Takes(l: LockInfo) {
    l.state != LOCKED
  }

  /** Taken by the releaser, which numbers its call to the server. */
  function Take(l: LockInfo): LockInfo {
    l.(state := RELEASING, seqNum := l.seqNum + 1)
  }

  function ReleaseReply(l: LockInfo, r: Reply): LockInfo {
    if r == OK then l.(toBeRevoked := false, state := NONE) else l
  }

  class LockClientCache {
    var lockCache: map<LockId, LockInfo>
    var revokeQueue: seq<LockId>

    constructor ()
      ensures lockCache == map[] && revokeQueue == []
    {
      lockCache, revokeQueue := map[], [];
    }

    function Info(lid: LockId): LockInfo
      reads this
    {
      if lid in lockCache then lockCache[lid] else NEW_LOCK
    }

    /** acquire up to the loop: the thread queues up. */
    method Enter(lid: LockId, t: Tid)
      modifies `lockCache
      ensures lockCache == old(lockCache)[lid := Join(old(Info(lid)), t)]
    {
      var li := Info(lid);
      if t !in li.waiting { li := li.(waiting := li.waiting + [t]); }
      lockCache := lockCache[lid := li];
    }

    /** One round of the loop of acquire, up to a wait, a return or the call to the server. */
    method Round(lid: LockId, t: Tid) returns (m: Move)
      modifies `lockCache
      ensures m == LoopMove(old(Info(lid)), t)
      ensures lockCache == old(lockCache)[lid := LoopStep(old(Info(lid)), t)]
    {
      var li := Info(lid);
      m := Wait;
      if li.toBeRevoked || li.waiting == [] || li.waiting[0] != t {
      } else if li.state == NONE {
        li := li.(state := ACQUIRING, retryReceived := false, seqNum := li.seqNum + 1);
        m := CallServer;
      } else if li.state == FREE {
        li := li.(state := LOCKED, waiting := li.waiting[1..]);
        m := Got;
      }
      lockCache := lockCache[lid := li];
    }

    method Answered(lid: LockId, r: Reply)
      modifies `lockCache
      ensures lockCache == old(lockCache)[lid := AcquireReply(old(Info(lid)), r)]
    {
      var li := Info(lid);
      if r == OK {
        li := li.(state := LOCKED, waiting := PopFront(li.waiting));
      } else if r == RETRY {
        li := li.(state := NONE);
      }
      lockCache := lockCache[lid := li];
    }

    method ReleaseLock(lid: LockId, t: Tid)
      modifies `lockCache
      ensures lockCache == old(lockCache)[lid := Release(old(Info(lid)), t)]
    {
      var li := Info(lid);
      lockCache := lockCache[lid := li.(state := FREE, waiting := Remove(li.waiting, t))];
    }

    /** The releaser at one entry of its queue, up to the flush. */
    method Consider(lid: LockId) returns (go: bool)
      modifies `lockCache
      ensures go <==> Takes(old(Info(lid)))
      ensures lockCache == old(lockCache)[lid := if go then Take(old(Info(lid))) else old(Info(lid))]
    {
      var li := Info(lid);
      go := li.state != LOCKED;
      lockCache := lockCache[lid := if go then li.(state := RELEASING, seqNum := li.seqNum + 1) else li];
    }

    /** The releaser after the server answered its release; `k` is where it stands in its queue. */
    method Released(lid: LockId, k: nat, r: Reply)
      requires k < |revokeQueue| && revokeQueue[k] == lid
      modifies this
      ensures lockCache == old(lockCache)[lid := ReleaseReply(old(Info(lid)), r)]
      ensures revokeQueue == if r == OK then old(revokeQueue)[..k] + old(revokeQueue)[k + 1..] else old(revokeQueue)
    {
      var li := Info(lid);
      lockCache := lockCache[lid := ReleaseReply(li, r)];
      if r == OK { revokeQueue := revokeQueue[..k] + revokeQueue[k + 1..]; }
    }

    method Revoke(lid: LockId)
      modifies this
      ensures lockCache == old(lockCache)[lid := old(Info(lid)).(toBeRevoked := true)]
      ensures revokeQueue == if lid in old(revokeQueue) then old(revokeQueue) else old(revokeQueue) + [lid]
    {
      var li := Info(lid);
      lockCache := lockCache[lid := li.(toBeRevoked := true)];
      if lid !in revokeQueue { revokeQueue := revokeQueue + [lid]; }
    }

    method Retry(lid: LockId) returns (r: Reply)
      modifies `lockCache
      ensures r == if lid in old(lockCache) then OK else ERROR
      ensures lockCache == if r == OK then old(lockCache)[lid := old(lockCache)[lid].(retryReceived := true)]
              else old(lockCache)
    {
      if lid !in lockCache { return ERROR; }
      lockCache := lockCache[lid := lockCache[lid].(retryReceived := true)];
      return OK;
    }
  }
}
