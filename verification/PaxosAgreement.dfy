/** The main theorems about runs of the Paxos system. */
module PaxosAgreement {
  import opened Text
  import opened Views
  import opened PaxosLog
  import opened PaxosNode
  import opened PaxosSystem
  import opened PaxosProof

  // --------------------------------------------------------------- every run

  lemma StepKeeps(s: Sys, act: Action)
    requires Inv(s) && Possible(s, act) && Orderly(s, act)
    ensures Inv(Apply(s, act))
  {
    match act
    case Start(x, cv) => StepStart(s, x, cv);
    case SendPrepare(x) => StepSendPrepare(s, x);
    case PrepareFails(x) => StepPrepareFails(s, x);
    case PrepareReply(x, res) => if res.oldInstance { StepOldInstance(s, x, res); } else { StepPromise(s, x, res); }
    case EndPrepare(x) => StepEndPrepare(s, x);
    case SendAccept(x) => StepSendAccept(s, x);
    case AcceptFails(x) => StepAcceptFails(s, x);
    case AcceptReply(x, ok) => StepAcceptReply(s, x, ok);
    case EndAccept(x) => StepEndAccept(s, x);
    case SendDecide(x) => StepSendDecide(s, x);
    case EndDecide(x) => StepEndDecide(s, x);
    case DeliverPrepare(run, x, i, n) => StepDeliverPrepare(s, run, x, i, n);
    case DeliverAccept(x, i, n, v) => StepDeliverAccept(s, x, i, n, v);
    case DeliverDecide(x, i, v) => StepDeliverDecide(s, x, i, v);
    case Crash(x, myN) => StepCrash(s, x, myN);
  }

  lemma {:induction false} BaseReplay(x: string, base: seq<string>)
    ensures SameAcc(Replay(x, BaseLog(base)), Acc(x, |base|, Prop(0, x), Prop(0, x), "", BaseValues(base)))
  {
    if base == [] {
      assert BaseLog(base) == [];
    } else {
      var k := |base| - 1;
      BaseReplay(x, base[..k]);
      assert BaseLog(base) == BaseLog(base[..k]) + [Done(k + 1, base[k])];
      ReplaySnoc(x, BaseLog(base[..k]), Done(k + 1, base[k]));
    }
  }

  lemma InitHolds(s: Sys)
    requires Init(s)
    ensures Inv(s)
  {
    forall x | x in s.nodes ensures LogOk(s, x) {
      BaseReplay(x, s.base);
    }
  }

  /** Every state of every orderly run satisfies the invariant, whatever is lost, repeated, reordered or restarted. */
  lemma {:induction false} RunKeeps(s: Sys, acts: seq<Action>)
    requires Inv(s) && PossibleRun(s, acts) && OrderlyRun(s, acts)
    ensures Inv(After(s, acts))
    decreases |acts|
  {
    if acts != [] {
      StepKeeps(s, acts[0]);
      RunKeeps(Apply(s, acts[0]), acts[1..]);
    }
  }

  // --------------------------------------------------------------- agreement

  ghost function EntriesBelow(s: Sys, e: Entry): set<Entry> {
    set f | f in s.entries && Gt(e.n, f.n)
  }

  lemma BelowShrinks(s: Sys, e: Entry, f: Entry)
    requires f in s.entries && Gt(e.n, f.n)
    ensures |EntriesBelow(s, f)| < |EntriesBelow(s, e)|
  {
    forall g | g in EntriesBelow(s, f) ensures g in EntriesBelow(s, e) {
      PropOrder(e.n, f.n, g.n);
    }
    PropOrder(f.n, f.n, f.n);
    SubsetSize(EntriesBelow(s, f), EntriesBelow(s, e) - {f});
  }

  /** A node common to both majorities reported the chosen proposal or a later one to a later round. */
  lemma LaterRoundSees(s: Sys, b: Entry, q: View, e: Entry)
    requires InvReplies(s) && EntryOk(s, e) && EntryOk(s, b) && ChosenBy(s, b, q)
    requires e.inst == b.inst && e.view == b.view && e.n.n > b.n.n
    ensures Pick(e.outs, e.cv).0 >= b.n.n
  {
    var x := MajoritiesMeet(e.view, Promisers(e.view, e.outs), q);
    PromiserAt(e.view, e.outs, x);
    var j :| 0 <= j < |e.outs| && e.view[j] == x && Promise(e.outs[j]);
    var res := e.outs[j].res;
    assert PrepOk(s, x, e.run, e.inst, e.n, res);
    assert Acked(s, x, b.inst, b.n, b.v);
    assert AckOk(s, x, e.inst, res.nA, res.vA);
    PickIsHighest(e.outs, e.cv);
  }

  /** The value taken from a promise is that of an earlier proposal. */
  lemma PickedEntry(s: Sys, e: Entry) returns (f: Entry)
    requires InvReplies(s) && EntryOk(s, e) && Pick(e.outs, e.cv).0 > 0
    ensures f in s.entries && f.inst == e.inst && f.n.n == Pick(e.outs, e.cv).0 && Gt(e.n, f.n) && f.v == e.v
  {
    PickIsHighest(e.outs, e.cv);
    var k :| 0 <= k < |e.outs| && Promise(e.outs[k]) && e.outs[k].res.nA.n == Pick(e.outs, e.cv).0
             && e.outs[k].res.vA == Pick(e.outs, e.cv).1;
    var r := e.outs[k].res;
    assert PrepOk(s, e.view[k], e.run, e.inst, e.n, r);
    assert AckOk(s, e.view[k], e.inst, r.nA, r.vA);
    f :| f in s.entries && f.inst == e.inst && f.n == r.nA && f.v == r.vA;
  }

  /** Once a proposal is chosen, every proposal of its round or a later one carries its value. */
  lemma {:induction false} ChosenIsLocked(s: Sys, b: Entry, q: View, e: Entry)
    requires InvReplies(s) && InvEntries(s) && RoundsCarryOneValue(s) && ChosenBy(s, b, q) && e in s.entries
    requires e.inst == b.inst && e.n.n >= b.n.n
    requires forall f | f in s.entries && f.inst == b.inst :: f.view == b.view
    ensures e.v == b.v
    decreases |EntriesBelow(s, e)|
  {
    if e.n.n > b.n.n {
      assert EntryOk(s, e) && EntryOk(s, b);
      LaterRoundSees(s, b, q, e);
      var f := PickedEntry(s, e);
      BelowShrinks(s, e, f);
      ChosenIsLocked(s, b, q, f);
    }
  }

  /** `v` is the only value held for instance `i`. */
  ghost predicate Only(s: Sys, i: nat, v: string) {
    forall x | Decided(s, i, x) :: s.nodes[x].acc.values[i] == v
  }

  ghost predicate Decided(s: Sys, i: nat, x: string) {
    x in s.nodes && i in s.nodes[x].acc.values
  }

  /** Agreement on one instance makes one electorate for the next. */
  lemma Electorate(s: Sys, e: Entry, v: string)
    requires EntryOk(s, e) && AccOk(s, e.who) && Only(s, e.inst - 1, v)
    ensures e.view == Words(if e.inst == 1 then "" else v)
  {}

  lemma OneElectorate(s: Sys, i: nat, v: string)
    requires InvNodes(s) && InvEntries(s) && i > 0 && Only(s, i - 1, v)
    ensures forall f | f in s.entries && f.inst == i :: f.view == Words(if i == 1 then "" else v)
  {
    forall f | f in s.entries && f.inst == i ensures f.view == Words(if i == 1 then "" else v) {
      assert EntryOk(s, f);
      Electorate(s, f, v);
    }
  }

  lemma ChosenOnce(s: Sys, i: nat, u: string, v: string, w: string)
    requires Inv(s) && RoundsCarryOneValue(s) && i > 0 && Only(s, i - 1, u)
    requires Chosen(s, i, v) && Chosen(s, i, w)
    ensures v == w
  {
    var b, q :| ChosenBy(s, b, q) && b.inst == i && b.v == v;
    var c, r :| ChosenBy(s, c, r) && c.inst == i && c.v == w;
    OneElectorate(s, i, u);
    if b.n.n <= c.n.n {
      ChosenIsLocked(s, b, q, c);
    } else {
      ChosenIsLocked(s, c, r, b);
    }
  }

  lemma DecidedIs(s: Sys, i: nat, x: string)
    requires InvNodes(s) && x in s.nodes && i in s.nodes[x].acc.values
    ensures i > 0
    ensures if i > |s.base| then Chosen(s, i, s.nodes[x].acc.values[i]) else s.nodes[x].acc.values[i] == s.base[i - 1]
  {
    assert AccOk(s, x);
  }

  lemma DecidedAlike(s: Sys, i: nat, u: string, x: string, y: string)
    requires Inv(s) && RoundsCarryOneValue(s) && i > 0 && Only(s, i - 1, u)
    requires x in s.nodes && i in s.nodes[x].acc.values && y in s.nodes && i in s.nodes[y].acc.values
    ensures s.nodes[x].acc.values[i] == s.nodes[y].acc.values[i]
  {
    DecidedIs(s, i, x);
    DecidedIs(s, i, y);
    if i > |s.base| {
      ChosenOnce(s, i, u, s.nodes[x].acc.values[i], s.nodes[y].acc.values[i]);
    }
  }

  /** Agreement on an instance carries over to the next. */
  ghost predicate CarriesOver(s: Sys, i: nat) {
    forall u, x, y | Only(s, i, u) && Decided(s, i + 1, x) && Decided(s, i + 1, y) ::
      s.nodes[x].acc.values[i + 1] == s.nodes[y].acc.values[i + 1]
  }

  lemma NextAgrees(s: Sys, i: nat)
    requires Inv(s) && RoundsCarryOneValue(s)
    ensures CarriesOver(s, i) && Only(s, 0, "")
  {
    forall u, x, y | Only(s, i, u) && Decided(s, i + 1, x) && Decided(s, i + 1, y)
      ensures s.nodes[x].acc.values[i + 1] == s.nodes[y].acc.values[i + 1]
    {
      DecidedAlike(s, i + 1, u, x, y);
    }
    forall x | x in s.nodes ensures 0 !in s.nodes[x].acc.values { assert AccOk(s, x); }
  }

  /** So there is agreement on all of them. */
  lemma {:induction false} InstanceAgrees(s: Sys, i: nat) returns (v: string)
    requires (forall k: nat :: CarriesOver(s, k)) && Only(s, 0, "")
    ensures Only(s, i, v)
  {
    v := "";
    if i > 0 {
      var u := InstanceAgrees(s, i - 1);
      assert CarriesOver(s, i - 1);
      if x :| Decided(s, i, x) {
        v := s.nodes[x].acc.values[i];
      }
    }
  }

  /** Agreement: in every orderly run, with any number of proposers, crashes and message faults, if proposals
      that share a round carry one value then no two nodes ever hold different values for an instance. */
  lemma PaxosAgrees(s: Sys, acts: seq<Action>)
    requires Init(s) && PossibleRun(s, acts) && OrderlyRun(s, acts)
    requires RoundsCarryOneValue(After(s, acts))
    ensures Agreement(After(s, acts))
  {
    var t := After(s, acts);
    forall k: nat ensures CarriesOver(t, k) && Only(t, 0, "") {
      InitHolds(s);
      RunKeeps(s, acts);
      NextAgrees(t, k);
    }
    assert CarriesOver(t, 0) && Only(t, 0, "");
    forall x, y, i: nat | x in t.nodes && y in t.nodes && i in t.nodes[x].acc.values && i in t.nodes[y].acc.values
      ensures t.nodes[x].acc.values[i] == t.nodes[y].acc.values[i]
    {
      var v := InstanceAgrees(t, i);
      assert Decided(t, i, x) && Decided(t, i, y);
    }
  }

  // ------------------------------------------------------- decisions are final

  /** No decision of `a` is missing or different in `b`. */
  ghost predicate Extends(a: Acc, b: Acc) {
    a.instanceH <= b.instanceH && forall i | i in a.values :: i in b.values && b.values[i] == a.values[i]
  }

  lemma StepShape(s: Sys, act: Action)
    requires Possible(s, act)
    ensures var t := Apply(s, act);
            && act.x in t.nodes && t.nodes == s.nodes[act.x := t.nodes[act.x]]
            && s.net <= t.net && s.entries <= t.entries && s.base == t.base && s.nextRun <= t.nextRun
  {
    assert s.nodes[act.x := s.nodes[act.x]] == s.nodes;
  }

  lemma StepExtends(s: Sys, act: Action)
    requires Possible(s, act) && AccOk(s, act.x) && LogOk(s, act.x)
    requires act.DeliverPrepare? ==> act.inst > 0
    ensures Extends(s.nodes[act.x].acc, Apply(s, act).nodes[act.x].acc)
  {
    var a := s.nodes[act.x].acc;
    match act
    case DeliverPrepare(run, x, i, n) => assert Extends(a, OnPrepare(a, i, n).0);
    case DeliverAccept(x, i, n, v) => assert Extends(a, OnAccept(a, i, n, v).0);
    case DeliverDecide(x, i, v) => assert Extends(a, Commit(a, i, v));
    case PrepareReply(x, res) => assert Extends(a, Commit(a, s.nodes[x].phase.inst, res.vA));
    case Crash(x, myN) => assert Extends(a, Replay(x, s.nodes[x].log));
    case _ =>
  }

  lemma GrowsBy(s: Sys, t: Sys, x: string)
    requires x in s.nodes && x in t.nodes && t.nodes == s.nodes[x := t.nodes[x]]
             && Extends(s.nodes[x].acc, t.nodes[x].acc)
    requires s.net <= t.net && s.entries <= t.entries && s.base == t.base && s.nextRun <= t.nextRun
    ensures Grows(s, t)
  {}

  lemma StepGrowsAt(s: Sys, act: Action)
    requires Possible(s, act) && AccOk(s, act.x) && LogOk(s, act.x)
    requires act.DeliverPrepare? ==> act.inst > 0
    ensures Grows(s, Apply(s, act))
  {
    StepShape(s, act);
    StepExtends(s, act);
    GrowsBy(s, Apply(s, act), act.x);
  }

  lemma StepGrows(s: Sys, act: Action)
    requires Inv(s) && Possible(s, act) && Orderly(s, act)
    ensures Grows(s, Apply(s, act))
  {
    StepGrowsAt(s, act) by { assert AccOk(s, act.x) && LogOk(s, act.x); }
  }

  /** A value once held for an instance is held for ever, across restarts too. */
  lemma {:induction false} DecisionsLast(s: Sys, acts: seq<Action>)
    requires Inv(s) && PossibleRun(s, acts) && OrderlyRun(s, acts)
    ensures Grows(s, After(s, acts))
    decreases |acts|
  {
    if acts != [] {
      StepGrows(s, acts[0]);
      StepKeeps(s, acts[0]);
      DecisionsLast(Apply(s, acts[0]), acts[1..]);
      GrowsTransitive(s, Apply(s, acts[0]), After(s, acts));
    }
  }

  lemma GrowsTransitive(s: Sys, t: Sys, u: Sys)
    requires Grows(s, t) && Grows(t, u)
    ensures Grows(s, u)
  {
    forall x | x in s.nodes
      ensures forall i | i in s.nodes[x].acc.values ::
                i in u.nodes[x].acc.values && u.nodes[x].acc.values[i] == s.nodes[x].acc.values[i]
    {
      assert x in t.nodes;
    }
  }

  /** A run is its first part and the rest. */
  lemma {:induction false} RunSplit(s: Sys, acts: seq<Action>, k: nat)
    requires PossibleRun(s, acts) && OrderlyRun(s, acts) && k <= |acts|
    ensures PossibleRun(s, acts[..k]) && OrderlyRun(s, acts[..k])
    ensures var t := After(s, acts[..k]);
            PossibleRun(t, acts[k..]) && OrderlyRun(t, acts[k..]) && After(t, acts[k..]) == After(s, acts)
    decreases k
  {
    if k == 0 {
      assert acts[..0] == [] && acts[0..] == acts;
    } else {
      var first, t := acts[..k], Apply(s, acts[0]);
      RunSplit(t, acts[1..], k - 1);
      assert first[1..] == acts[1..][..k - 1] && first[0] == acts[0] && acts[1..][k - 1..] == acts[k..];
    }
  }

  lemma PrefixOf(s: Sys, acts: seq<Action>, k: nat)
    requires Inv(s) && PossibleRun(s, acts) && OrderlyRun(s, acts) && k <= |acts|
    ensures PossibleRun(s, acts[..k]) && Grows(After(s, acts[..k]), After(s, acts))
  {
    RunSplit(s, acts, k);
    RunKeeps(s, acts[..k]);
    DecisionsLast(After(s, acts[..k]), acts[k..]);
  }

  /** Agreement at all times: what any node commits at any point of a run equals what any node commits for that
      instance at any other point. */
  lemma PaxosAgreesOverTime(s: Sys, acts: seq<Action>, k: nat, l: nat, x: string, y: string, i: nat)
    requires Init(s) && PossibleRun(s, acts) && OrderlyRun(s, acts) && RoundsCarryOneValue(After(s, acts))
    requires k <= |acts| && l <= |acts| && PossibleRun(s, acts[..k]) && PossibleRun(s, acts[..l])
    requires var t := After(s, acts[..k]); x in t.nodes && i in t.nodes[x].acc.values
    requires var u := After(s, acts[..l]); y in u.nodes && i in u.nodes[y].acc.values
    ensures After(s, acts[..k]).nodes[x].acc.values[i] == After(s, acts[..l]).nodes[y].acc.values[i]
  {
    InitHolds(s);
    PrefixOf(s, acts, k);
    PrefixOf(s, acts, l);
    PaxosAgrees(s, acts);
  }

  // -------------------------------------------------- proposal numbers are not reused

  /** The proposer of `e` counted a promise of its own acceptor. */
  ghost predicate OwnPromise(e: Entry) {
    |e.outs| <= |e.view| && e.who in Promisers(e.view, e.outs)
  }

  /** A node that counts its own promise never enters the accept phase of an instance twice with one round,
      for any value of `my_n` it restarts with. */
  lemma RoundNotReused(s: Sys, e: Entry, f: Entry)
    requires Inv(s) && e in s.entries && f in s.entries
    requires e.inst == f.inst && e.who == f.who && OwnPromise(e) && OwnPromise(f)
    ensures e.n.n == f.n.n ==> e == f
  {
    if e.n.n == f.n.n {
      assert EntryOk(s, e) && EntryOk(s, f);
      var x := e.who;
      PromiserAt(e.view, e.outs, x);
      PromiserAt(f.view, f.outs, x);
      var j :| 0 <= j < |e.outs| && e.view[j] == x && Promise(e.outs[j]);
      var k :| 0 <= k < |f.outs| && f.view[k] == x && Promise(f.outs[k]);
      assert PrepRep(x, e.run, e.inst, e.n, e.outs[j].res) in s.net;
      assert PrepRep(x, f.run, e.inst, e.n, f.outs[k].res) in s.net;
    }
  }

  /** So in every run: neither a restart nor a lost counter makes such a node propose twice with one round. */
  lemma RoundNotReusedInRuns(s: Sys, acts: seq<Action>, e: Entry, f: Entry)
    requires Init(s) && PossibleRun(s, acts) && OrderlyRun(s, acts)
    requires e in After(s, acts).entries && f in After(s, acts).entries
    requires e.inst == f.inst && e.who == f.who && OwnPromise(e) && OwnPromise(f)
    ensures e.n.n == f.n.n ==> e == f
  {
    InitHolds(s);
    RunKeeps(s, acts);
    RoundNotReused(After(s, acts), e, f);
  }

  ghost predicate CountsItself(t: Sys) {
    forall e | e in t.entries :: OwnPromise(e)
  }

  /** Different nodes do not meet on a round. */
  ghost predicate RoundsApart(t: Sys) {
    forall e, f | e in t.entries && f in t.entries && e.inst == f.inst && e.who != f.who :: e.n.n != f.n.n
  }

  lemma ApartIsDistinct(t: Sys)
    requires Inv(t) && CountsItself(t) && RoundsApart(t)
    ensures RoundsDistinct(t)
  {
    forall e, f | e in t.entries && f in t.entries && e.inst == f.inst && e.n.n == f.n.n ensures e == f {
      RoundNotReused(t, e, f);
    }
  }

  /** Agreement again, from what a deployment can arrange: proposers count their own promise and
      different nodes do not meet on a round. */
  lemma PaxosAgreesDistinct(s: Sys, acts: seq<Action>)
    requires Init(s) && PossibleRun(s, acts) && OrderlyRun(s, acts)
    requires CountsItself(After(s, acts)) && RoundsApart(After(s, acts))
    ensures RoundsDistinct(After(s, acts)) && Agreement(After(s, acts))
  {
    ApartIsDistinct(After(s, acts)) by {
      InitHolds(s);
      RunKeeps(s, acts);
    }
    PaxosAgrees(s, acts);
  }
}
