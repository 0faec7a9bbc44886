/** What every step of the Paxos system keeps. */
module PaxosProof {
  import opened Text
  import opened Views
  import opened PaxosLog
  import opened PaxosNode
  import opened PaxosSystem

  // ------------------------------------------------------------------- vocabulary

  /** Node `a` has accepted proposal `p` with value `v`. */
  ghost predicate Acked(s: Sys, a: string, i: nat, p: Prop, v: string) {
    AccRep(a, i, p, v, true) in s.net
  }

  ghost predicate HasEntry(s: Sys, i: nat, p: Prop, v: string) {
    exists e :: e in s.entries && e.inst == i && e.n == p && e.v == v
  }

  /** A majority of the voters of `e` has accepted it. */
  ghost predicate ChosenBy(s: Sys, e: Entry, q: View) {
    e in s.entries && IsMajority(e.view, q) && forall a | a in q :: Acked(s, a, e.inst, e.n, e.v)
  }

  ghost predicate Chosen(s: Sys, i: nat, v: string) {
    exists e, q :: ChosenBy(s, e, q) && e.inst == i && e.v == v
  }

  /** `a` promised `p` to the proposer that then entered its accept phase. */
  ghost predicate Granted(s: Sys, a: string, i: nat, p: Prop, v: string) {
    exists e :: e in s.entries && e.inst == i && e.n == p && e.v == v
                && |e.outs| <= |e.view| && a in Promisers(e.view, e.outs)
  }

  ghost predicate OutsOk(s: Sys, view: View, run: nat, inst: nat, n: Prop, outs: seq<Outcome>)
    requires |outs| <= |view|
  {
    forall k | 0 <= k < |outs| && outs[k].Got? ::
      Promise(outs[k]) && PrepRep(view[k], run, inst, n, outs[k].res) in s.net
  }

  // ------------------------------------------------------------------- invariants

  ghost predicate AccOk(s: Sys, x: string)
    requires x in s.nodes
  {
    var a := s.nodes[x].acc;
    && a.me == x && a.instanceH >= |s.base|
    && (forall i :: i in a.values <==> 1 <= i <= a.instanceH)
    && (forall i | 1 <= i <= |s.base| :: a.values[i] == s.base[i - 1])
    && (forall i | |s.base| < i <= a.instanceH :: Chosen(s, i, a.values[i]))
    && (a.nA.n > 0 ==> Acked(s, x, a.instanceH + 1, a.nA, a.vA) && Ge(a.nH, a.nA))
  }

  ghost predicate LogOk(s: Sys, x: string)
    requires x in s.nodes
  {
    SameAcc(Replay(x, s.nodes[x].log), s.nodes[x].acc)
  }

  /** The last proposal that the promise reports, and no accepted proposal below `p` is above it. */
  ghost predicate Report(s: Sys, a: string, i: nat, p: Prop, res: PrepRes) {
    && (res.nA.n > 0 ==> Acked(s, a, i, res.nA, res.vA) && Gt(p, res.nA))
    && forall q, w | Acked(s, a, i, q, w) && Gt(p, q) :: res.nA.n > 0 && Ge(res.nA, q)
  }

  ghost predicate PrepOk(s: Sys, a: string, r: nat, i: nat, p: Prop, res: PrepRes) {
    && a in s.nodes && i > |s.base| && p.n > 0 && r < s.nextRun
    && var acc := s.nodes[a].acc;
       && i <= acc.instanceH + 1
       && (res.oldInstance ==> i in acc.values && res.vA == acc.values[i])
       && (Promise(Got(res)) ==> (acc.instanceH + 1 == i ==> Ge(acc.nH, p)) && Report(s, a, i, p, res))
  }

  ghost predicate AckOk(s: Sys, a: string, i: nat, q: Prop, w: string) {
    && a in s.nodes && q.n > 0 && w != "" && HasEntry(s, i, q, w)
    && var acc := s.nodes[a].acc;
       && i <= acc.instanceH + 1
       && (acc.instanceH + 1 == i ==> acc.nA.n > 0 && Ge(acc.nA, q))
  }

  ghost predicate EntryOk(s: Sys, e: Entry) {
    && e.run < s.nextRun && e.n.n > 0 && e.n.m == e.who && e.v != "" && e.inst > |s.base|
    && |e.outs| == |e.view|
    && OutsOk(s, e.view, e.run, e.inst, e.n, e.outs)
    && IsMajority(e.view, Promisers(e.view, e.outs))
    && e.v == Pick(e.outs, e.cv).1
    && e.who in s.nodes && e.inst <= s.nodes[e.who].acc.instanceH + 1
    && e.view == Words(ValueAt(s.nodes[e.who].acc, e.inst - 1))
  }

  /** The accept phase of `n` addresses exactly the nodes that promised it. */
  ghost predicate AcceptTargets(s: Sys, inst: nat, view: View, nodes1: View, n: Prop, v: string) {
    exists e :: e in s.entries && e.inst == inst && e.n == n && e.v == v && e.view == view
                && |e.outs| <= |e.view| && nodes1 == Promisers(e.view, e.outs)
  }

  ghost predicate PhaseOk(s: Sys, x: string)
    requires x in s.nodes
  {
    var d := s.nodes[x];
    match d.phase
    case Idle => true
    case Preparing(run, inst, view, cv, outs) =>
      && run < s.nextRun && inst > |s.base| && inst <= d.acc.instanceH + 1 && cv != ""
      && d.myN.n > 0 && d.myN.m == x
      && view == Words(ValueAt(d.acc, inst - 1))
      && |outs| <= |view| && OutsOk(s, view, run, inst, d.myN, outs)
      && (forall e | e in s.entries :: e.run != run)
    case Accepting(run, inst, view, nodes1, v, oks) =>
      && AcceptTargets(s, inst, view, nodes1, d.myN, v)
      && |oks| <= |nodes1|
      && forall k | 0 <= k < |oks| && oks[k] :: Acked(s, nodes1[k], inst, d.myN, v)
    case Deciding(inst, accepts, v, sent) => inst > |s.base| && Chosen(s, inst, v)
  }

  ghost predicate InvNodes(s: Sys) {
    forall x | x in s.nodes :: AccOk(s, x) && LogOk(s, x) && PhaseOk(s, x)
  }

  ghost predicate InvReplies(s: Sys) {
    && (forall a, r: nat, i: nat, p, res | PrepRep(a, r, i, p, res) in s.net :: PrepOk(s, a, r, i, p, res))
    && (forall a, i: nat, q, w | Acked(s, a, i, q, w) :: AckOk(s, a, i, q, w))
  }

  ghost predicate InvRequests(s: Sys) {
    && (forall a, r: nat, i: nat, p | PrepReq(a, r, i, p) in s.net :: i > |s.base| && p.n > 0 && r < s.nextRun)
    && (forall a, i: nat, p, v | AccReq(a, i, p, v) in s.net :: p.n > 0 && v != "" && Granted(s, a, i, p, v))
    && (forall a, i: nat, v | DecReq(a, i, v) in s.net :: i > |s.base| && Chosen(s, i, v))
  }

  ghost predicate InvEntries(s: Sys) {
    forall e | e in s.entries :: EntryOk(s, e)
  }

  /** An acceptor promises a proposal once. */
  ghost predicate PromisesOnce(s: Sys) {
    forall a, r1: nat, r2: nat, i: nat, p, res1, res2 |
      && PrepRep(a, r1, i, p, res1) in s.net && PrepRep(a, r2, i, p, res2) in s.net
      && Promise(Got(res1)) && Promise(Got(res2)) :: r1 == r2
  }

  /** A run enters its accept phase once. */
  ghost predicate EntersOnce(s: Sys) {
    forall e, f | e in s.entries && f in s.entries && e.run == f.run :: e == f
  }

  ghost predicate RunsApart(s: Sys) {
    forall x, y | x in s.nodes && y in s.nodes && s.nodes[x].phase.Preparing? && s.nodes[y].phase.Preparing?
                  && s.nodes[x].phase.run == s.nodes[y].phase.run :: x == y
  }

  ghost predicate InvUnique(s: Sys) {
    PromisesOnce(s) && EntersOnce(s) && RunsApart(s)
  }

  ghost predicate Inv(s: Sys) {
    InvNodes(s) && InvReplies(s) && InvRequests(s) && InvEntries(s) && InvUnique(s)
  }

  // -------------------------------------------------------------- what only grows

  /** History, messages and decisions of `s` are still there in `t`. */
  ghost predicate Grows(s: Sys, t: Sys) {
    && s.nodes.Keys == t.nodes.Keys && s.net <= t.net && s.entries <= t.entries
    && s.base == t.base && s.nextRun <= t.nextRun
    && forall x | x in s.nodes ::
         && s.nodes[x].acc.instanceH <= t.nodes[x].acc.instanceH
         && forall i | i in s.nodes[x].acc.values ::
              i in t.nodes[x].acc.values && t.nodes[x].acc.values[i] == s.nodes[x].acc.values[i]
  }

  lemma ChosenGrows(s: Sys, t: Sys, i: nat, v: string)
    requires Grows(s, t) && Chosen(s, i, v)
    ensures Chosen(t, i, v)
  {
    var e, q :| ChosenBy(s, e, q) && e.inst == i && e.v == v;
    assert ChosenBy(t, e, q);
  }

  lemma HasEntryGrows(s: Sys, t: Sys, i: nat, p: Prop, v: string)
    requires Grows(s, t) && HasEntry(s, i, p, v)
    ensures HasEntry(t, i, p, v)
  {}

  lemma GrantedGrows(s: Sys, t: Sys, a: string, i: nat, p: Prop, v: string)
    requires Grows(s, t) && Granted(s, a, i, p, v)
    ensures Granted(t, a, i, p, v)
  {
    var e :| e in s.entries && e.inst == i && e.n == p && e.v == v
             && |e.outs| <= |e.view| && a in Promisers(e.view, e.outs);
    assert e in t.entries;
  }

  lemma ValueGrows(s: Sys, t: Sys, x: string, i: nat)
    requires Grows(s, t) && x in s.nodes && AccOk(s, x) && i <= s.nodes[x].acc.instanceH
    requires i == 0 ==> 0 !in t.nodes[x].acc.values
    ensures ValueAt(t.nodes[x].acc, i) == ValueAt(s.nodes[x].acc, i)
  {}

  lemma EntryGrows(s: Sys, t: Sys, e: Entry)
    requires Grows(s, t) && EntryOk(s, e) && AccOk(s, e.who)
    requires 0 !in t.nodes[e.who].acc.values
    ensures EntryOk(t, e)
  {
    ValueGrows(s, t, e.who, e.inst - 1);
  }

  lemma TargetsGrow(s: Sys, t: Sys, inst: nat, view: View, nodes1: View, n: Prop, v: string)
    requires Grows(s, t) && AcceptTargets(s, inst, view, nodes1, n, v)
    ensures AcceptTargets(t, inst, view, nodes1, n, v)
  {
    var e :| e in s.entries && e.inst == inst && e.n == n && e.v == v && e.view == view
             && |e.outs| <= |e.view| && nodes1 == Promisers(e.view, e.outs);
    assert e in t.entries;
  }

  lemma PhaseGrows(s: Sys, t: Sys, x: string)
    requires Grows(s, t) && x in s.nodes && PhaseOk(s, x) && AccOk(s, x)
    requires 0 !in t.nodes[x].acc.values
    requires t.nodes[x].phase == s.nodes[x].phase && t.nodes[x].myN == s.nodes[x].myN
    requires s.nodes[x].phase.Preparing? ==> forall e | e in t.entries
             && e !in s.entries :: e.run != s.nodes[x].phase.run
    ensures PhaseOk(t, x)
  {
    match s.nodes[x].phase
    case Idle =>
    case Preparing(run, inst, view, cv, outs) => ValueGrows(s, t, x, inst - 1);
    case Accepting(run, inst, view, nodes1, v, oks) => TargetsGrow(s, t, inst, view, nodes1, s.nodes[x].myN, v);
    case Deciding(inst, accepts, v, sent) => ChosenGrows(s, t, inst, v);
  }

  /** Requests of `s` stay justified. */
  lemma RequestsGrow(s: Sys, t: Sys)
    requires Grows(s, t) && InvRequests(s)
    requires forall m | m in t.net && m !in s.net :: m.PrepRep? || m.AccRep?
    ensures InvRequests(t)
  {
    forall a, i: nat, p, v | AccReq(a, i, p, v) in t.net ensures p.n > 0 && v != "" && Granted(t, a, i, p, v) {
      GrantedGrows(s, t, a, i, p, v);
    }
    forall a, i: nat, v | DecReq(a, i, v) in t.net ensures i > |t.base| && Chosen(t, i, v) {
      ChosenGrows(s, t, i, v);
    }
  }

  // ------------------------------------------------------------ proposer steps

  /** A step of the proposer of `x` that touches no acceptor and produces no reply. */
  ghost predicate Quiet(s: Sys, t: Sys, x: string) {
    && Grows(s, t) && x in s.nodes
    && (forall y | y in s.nodes :: t.nodes[y].acc == s.nodes[y].acc && t.nodes[y].log == s.nodes[y].log)
    && (forall y | y in s.nodes && y != x :: t.nodes[y] == s.nodes[y])
    && (forall m | m in t.net && m !in s.net :: !m.PrepRep? && !m.AccRep?)
    && (forall e | e in t.entries && e !in s.entries :: s.nodes[x].phase.Preparing? && e.run == s.nodes[x].phase.run)
  }

  lemma QuietAcc(s: Sys, t: Sys, x: string, y: string)
    requires Quiet(s, t, x) && y in s.nodes && AccOk(s, y) && LogOk(s, y)
    ensures AccOk(t, y) && LogOk(t, y)
  {
    var a := s.nodes[y].acc;
    forall i | |s.base| < i <= a.instanceH ensures Chosen(t, i, a.values[i]) {
      ChosenGrows(s, t, i, a.values[i]);
    }
  }

  lemma QuietPhase(s: Sys, t: Sys, x: string, y: string)
    requires Quiet(s, t, x) && y in s.nodes && y != x && AccOk(s, y) && PhaseOk(s, y)
    requires s.nodes[x].phase.Preparing? && s.nodes[y].phase.Preparing? ==> s.nodes[x].phase.run != s.nodes[y].phase.run
    ensures PhaseOk(t, y)
  {
    PhaseGrows(s, t, y);
  }

  lemma QuietNodes(s: Sys, t: Sys, x: string)
    requires InvNodes(s) && RunsApart(s) && Quiet(s, t, x)
    ensures forall y | y in t.nodes :: AccOk(t, y) && LogOk(t, y) && (y != x ==> PhaseOk(t, y))
  {
    forall y | y in t.nodes ensures AccOk(t, y) && LogOk(t, y) && (y != x ==> PhaseOk(t, y)) {
      QuietAcc(s, t, x, y);
      if y != x { QuietPhase(s, t, x, y); }
    }
  }

  lemma QuietReplies(s: Sys, t: Sys, x: string)
    requires Inv(s) && Quiet(s, t, x)
    ensures InvReplies(t)
  {
    forall a, i: nat, q, w | Acked(t, a, i, q, w) ensures AckOk(t, a, i, q, w) {
      assert Acked(s, a, i, q, w);
      assert AckOk(s, a, i, q, w);
      HasEntryGrows(s, t, i, q, w);
    }
    forall a, r: nat, i: nat, p, res | PrepRep(a, r, i, p, res) in t.net ensures PrepOk(t, a, r, i, p, res) {
      assert PrepRep(a, r, i, p, res) in s.net;
      assert PrepOk(s, a, r, i, p, res);
      if Promise(Got(res)) {
        assert Report(s, a, i, p, res);
        forall q, w | Acked(t, a, i, q, w) && Gt(p, q) ensures res.nA.n > 0 && Ge(res.nA, q) {
          assert Acked(s, a, i, q, w);
        }
      }
    }
  }

  lemma QuietEntries(s: Sys, t: Sys, x: string)
    requires Inv(s) && Quiet(s, t, x)
    ensures forall e | e in s.entries :: EntryOk(t, e)
  {
    forall e | e in s.entries ensures EntryOk(t, e) {
      assert EntryOk(s, e);
      assert AccOk(s, e.who);
      EntryGrows(s, t, e);
    }
  }

  lemma SamePromises(s: Sys, t: Sys)
    requires PromisesOnce(s) && forall m | m in t.net && m !in s.net :: !m.PrepRep?
    ensures PromisesOnce(t)
  {
    forall a, r1: nat, r2: nat, i: nat, p, res1, res2 |
      && PrepRep(a, r1, i, p, res1) in t.net && PrepRep(a, r2, i, p, res2) in t.net
      && Promise(Got(res1)) && Promise(Got(res2))
      ensures r1 == r2
    {
      assert PrepRep(a, r1, i, p, res1) in s.net && PrepRep(a, r2, i, p, res2) in s.net;
    }
  }

  lemma SendPromises(s: Sys, t: Sys, m: Msg)
    requires PromisesOnce(s) && t.net == s.net + {m} && !m.PrepRep?
    ensures PromisesOnce(t)
  {
    SamePromises(s, t);
  }

  lemma QuietRuns(s: Sys, t: Sys, x: string)
    requires InvNodes(s) && RunsApart(s) && Quiet(s, t, x)
    requires t.nodes[x].phase.Preparing? ==>
               || t.nodes[x].phase.run >= s.nextRun
               || (s.nodes[x].phase.Preparing? && t.nodes[x].phase.run == s.nodes[x].phase.run)
    ensures RunsApart(t)
  {
    forall y | y in t.nodes && y != x && t.nodes[y].phase.Preparing?
      ensures t.nodes[y].phase.run < s.nextRun && t.nodes[y].phase == s.nodes[y].phase
    {
      assert PhaseOk(s, y);
    }
  }

  /** A quiet step that adds no entry and no request keeps everything if the new phase is justified. */
  lemma QuietStep(s: Sys, t: Sys, x: string)
    requires Inv(s) && Quiet(s, t, x)
    requires t.entries == s.entries && InvRequests(t) && PhaseOk(t, x)
    requires t.nodes[x].phase.Preparing? ==>
               || t.nodes[x].phase.run >= s.nextRun
               || (s.nodes[x].phase.Preparing? && t.nodes[x].phase.run == s.nodes[x].phase.run)
    ensures Inv(t)
  {
    QuietNodes(s, t, x);
    QuietReplies(s, t, x);
    QuietEntries(s, t, x);
    SamePromises(s, t);
    QuietRuns(s, t, x);
  }

  lemma SetPhaseQuiet(s: Sys, x: string, p: Phase)
    requires x in s.nodes
    ensures Quiet(s, SetPhase(s, x, p), x)
  {}

  /** Moving the proposer of `x` to a justified phase keeps everything. */
  lemma KeepPhase(s: Sys, x: string, p: Phase)
    requires Inv(s) && x in s.nodes && PhaseOk(SetPhase(s, x, p), x)
    requires p.Preparing? ==> s.nodes[x].phase.Preparing? && p.run == s.nodes[x].phase.run
    ensures Inv(SetPhase(s, x, p))
  {
    var t := SetPhase(s, x, p);
    SetPhaseQuiet(s, x, p);
    RequestsGrow(s, t);
    QuietStep(s, t, x);
  }

  ghost predicate RequestOk(s: Sys, m: Msg) {
    match m
    case PrepReq(a, r, i, p) => i > |s.base| && p.n > 0 && r < s.nextRun
    case AccReq(a, i, p, v) => p.n > 0 && v != "" && Granted(s, a, i, p, v)
    case DecReq(a, i, v) => i > |s.base| && Chosen(s, i, v)
    case _ => false
  }

  lemma SendRequests(s: Sys, m: Msg)
    requires InvRequests(s) && RequestOk(s, m)
    ensures InvRequests(Send(s, m))
  {
    var t := Send(s, m);
    forall a, i: nat, q, v | AccReq(a, i, q, v) in t.net ensures q.n > 0 && v != "" && Granted(t, a, i, q, v) {
      GrantedGrows(s, t, a, i, q, v);
    }
    forall a, i: nat, v | DecReq(a, i, v) in t.net ensures i > |t.base| && Chosen(t, i, v) {
      ChosenGrows(s, t, i, v);
    }
  }

  /** Sending a justified request keeps everything. */
  lemma KeepSend(s: Sys, x: string, m: Msg)
    requires Inv(s) && x in s.nodes && RequestOk(s, m)
    ensures Inv(Send(s, m))
  {
    var t := Send(s, m);
    assert Quiet(s, t, x);
    SendRequests(s, m);
    assert AccOk(s, x) && PhaseOk(s, x);
    PhaseGrows(s, t, x);
    QuietStep(s, t, x);
  }

  lemma StartQuiet(s: Sys, t: Sys, x: string, cv: string)
    requires x in s.nodes && Possible(s, Start(x, cv)) && t == Apply(s, Start(x, cv))
    ensures Quiet(s, t, x) && t.entries == s.entries && t.net == s.net
    ensures t.nodes[x].phase.Preparing? && t.nodes[x].phase.run >= s.nextRun
  {}

  lemma StartPhase(s: Sys, t: Sys, x: string, cv: string)
    requires x in s.nodes && AccOk(s, x) && s.nodes[x].phase.Idle? && cv != ""
    requires InvEntries(s)
    requires t == Apply(s, Start(x, cv))
    ensures PhaseOk(t, x)
  {
    forall e | e in t.entries ensures e.run != s.nextRun {
      assert EntryOk(s, e);
    }
  }

  lemma StepStart(s: Sys, x: string, cv: string)
    requires Inv(s) && Possible(s, Start(x, cv)) && cv != ""
    ensures Inv(Apply(s, Start(x, cv)))
  {
    var t := Apply(s, Start(x, cv));
    StartPhase(s, t, x, cv) by { assert AccOk(s, x); }
    StartQuiet(s, t, x, cv);
    RequestsGrow(s, t);
    QuietStep(s, t, x);
  }

  lemma StepSendPrepare(s: Sys, x: string)
    requires Inv(s) && Possible(s, SendPrepare(x))
    ensures Inv(Apply(s, SendPrepare(x)))
  {
    var p := s.nodes[x].phase;
    assert PhaseOk(s, x);
    KeepSend(s, x, PrepReq(p.view[|p.outs|], p.run, p.inst, s.nodes[x].myN));
  }

  lemma OutcomeOk(s: Sys, x: string, o: Outcome)
    requires x in s.nodes && PhaseOk(s, x) && s.nodes[x].phase.Preparing?
    requires |s.nodes[x].phase.outs| < |s.nodes[x].phase.view|
    requires var p := s.nodes[x].phase;
             o.Got? ==> Promise(o) && PrepRep(p.view[|p.outs|], p.run, p.inst, s.nodes[x].myN, o.res) in s.net
    ensures var p := s.nodes[x].phase; PhaseOk(SetPhase(s, x, p.(outs := p.outs + [o])), x)
  {}

  lemma StepPrepareFails(s: Sys, x: string)
    requires Inv(s) && Possible(s, PrepareFails(x))
    ensures Inv(Apply(s, PrepareFails(x)))
  {
    var p := s.nodes[x].phase;
    assert PhaseOk(s, x);
    OutcomeOk(s, x, Failed);
    KeepPhase(s, x, p.(outs := p.outs + [Failed]));
  }

  lemma StepPromise(s: Sys, x: string, res: PrepRes)
    requires Inv(s) && Possible(s, PrepareReply(x, res)) && !res.oldInstance
    ensures Inv(Apply(s, PrepareReply(x, res)))
  {
    var p := s.nodes[x].phase;
    assert PhaseOk(s, x);
    if res.accept {
      OutcomeOk(s, x, Got(res));
      KeepPhase(s, x, p.(outs := p.outs + [Got(res)]));
    } else {
      KeepPhase(s, x, Idle);
    }
  }

  /** The state in which the proposer of `x` has entered its accept phase. */
  ghost function Entered(s: Sys, x: string, e: Entry): Sys
    requires x in s.nodes && s.nodes[x].phase.Preparing? && |e.outs| <= |e.view|
  {
    var p := s.nodes[x].phase;
    SetPhase(s, x, Accepting(p.run, p.inst, p.view, Promisers(e.view, e.outs), e.v, []))
    .(entries := s.entries + {e})
  }

  ghost function EntryOf(s: Sys, x: string): Entry
    requires x in s.nodes && s.nodes[x].phase.Preparing?
  {
    var p := s.nodes[x].phase;
    Entry(p.run, x, p.inst, s.nodes[x].myN, Pick(p.outs, p.cv).1, p.view, p.cv, p.outs)
  }

  lemma EnteredEntry(s: Sys, x: string)
    requires x in s.nodes && s.nodes[x].phase.Preparing? && PhaseOk(s, x) && AccOk(s, x)
    requires var p := s.nodes[x].phase;
             |p.outs| == |p.view| && IsMajority(p.view, Promisers(p.view, p.outs))
    ensures var t := Entered(s, x, EntryOf(s, x)); EntryOk(t, EntryOf(s, x))
  {
    PickIsHighest(s.nodes[x].phase.outs, s.nodes[x].phase.cv);
  }

  lemma EnteredPhase(s: Sys, x: string)
    requires x in s.nodes && s.nodes[x].phase.Preparing? && |s.nodes[x].phase.outs| == |s.nodes[x].phase.view|
    ensures var t := Entered(s, x, EntryOf(s, x)); PhaseOk(t, x) && Quiet(s, t, x)
  {
    var e := EntryOf(s, x);
    var t := Entered(s, x, e);
    assert e in t.entries;
    assert AcceptTargets(t, e.inst, e.view, Promisers(e.view, e.outs), e.n, e.v);
  }

  lemma EntryUnique(s: Sys, t: Sys, x: string, e: Entry)
    requires x in s.nodes && PhaseOk(s, x) && EntersOnce(s)
    requires s.nodes[x].phase.Preparing? && e.run == s.nodes[x].phase.run
    requires t.entries == s.entries + {e}
    ensures EntersOnce(t)
  {}

  lemma StepEndPrepare(s: Sys, x: string)
    requires Inv(s) && Possible(s, EndPrepare(x))
    ensures Inv(Apply(s, EndPrepare(x)))
  {
    var d := s.nodes[x];
    var p := d.phase;
    assert PhaseOk(s, x);
    PickIsHighest(p.outs, p.cv);
    if !IsMajority(p.view, Promisers(p.view, p.outs)) {
      KeepPhase(s, x, Idle);
    } else {
      assert AccOk(s, x);
      EnteredEntry(s, x);
      EnteredPhase(s, x);
      EnterAcceptStep(s, Entered(s, x, EntryOf(s, x)), x, EntryOf(s, x));
    }
  }

  lemma EnterAcceptStep(s: Sys, t: Sys, x: string, e: Entry)
    requires Inv(s) && Quiet(s, t, x) && EntryOk(t, e) && PhaseOk(t, x)
    requires s.nodes[x].phase.Preparing? && e.run == s.nodes[x].phase.run
    requires t.entries == s.entries + {e} && t.net == s.net && !t.nodes[x].phase.Preparing?
    ensures Inv(t)
  {
    RequestsGrow(s, t);
    QuietNodes(s, t, x);
    QuietReplies(s, t, x);
    QuietEntries(s, t, x);
    assert PhaseOk(s, x);
    EntryUnique(s, t, x, e);
    SamePromises(s, t);
    QuietRuns(s, t, x);
  }

  lemma AcceptTarget(s: Sys, x: string, k: nat)
    requires x in s.nodes && PhaseOk(s, x) && s.nodes[x].phase.Accepting? && k < |s.nodes[x].phase.nodes1|
    requires InvEntries(s)
    ensures var p := s.nodes[x].phase; RequestOk(s, AccReq(p.nodes1[k], p.inst, s.nodes[x].myN, p.v))
  {
    var d := s.nodes[x];
    var p := d.phase;
    var e :| e in s.entries && e.inst == p.inst && e.n == d.myN && e.v == p.v && e.view == p.view
             && |e.outs| <= |e.view| && p.nodes1 == Promisers(e.view, e.outs);
    assert EntryOk(s, e);
  }

  lemma StepSendAccept(s: Sys, x: string)
    requires Inv(s) && Possible(s, SendAccept(x))
    ensures Inv(Apply(s, SendAccept(x)))
  {
    var p := s.nodes[x].phase;
    assert PhaseOk(s, x);
    AcceptTarget(s, x, |p.oks|);
    KeepSend(s, x, AccReq(p.nodes1[|p.oks|], p.inst, s.nodes[x].myN, p.v));
  }

  lemma AckNoted(s: Sys, x: string, ok: bool)
    requires x in s.nodes && PhaseOk(s, x) && s.nodes[x].phase.Accepting?
    requires |s.nodes[x].phase.oks| < |s.nodes[x].phase.nodes1|
    requires var p := s.nodes[x].phase; ok ==> Acked(s, p.nodes1[|p.oks|], p.inst, s.nodes[x].myN, p.v)
    ensures var p := s.nodes[x].phase; PhaseOk(SetPhase(s, x, p.(oks := p.oks + [ok])), x)
  {
    var p := s.nodes[x].phase;
    var t := SetPhase(s, x, p.(oks := p.oks + [ok]));
    SetPhaseQuiet(s, x, p.(oks := p.oks + [ok]));
    TargetsGrow(s, t, p.inst, p.view, p.nodes1, s.nodes[x].myN, p.v);
  }

  lemma NoteAck(s: Sys, x: string, ok: bool)
    requires Inv(s) && x in s.nodes && s.nodes[x].phase.Accepting?
    requires |s.nodes[x].phase.oks| < |s.nodes[x].phase.nodes1|
    requires var p := s.nodes[x].phase; ok ==> Acked(s, p.nodes1[|p.oks|], p.inst, s.nodes[x].myN, p.v)
    ensures var p := s.nodes[x].phase; Inv(SetPhase(s, x, p.(oks := p.oks + [ok])))
  {
    var p := s.nodes[x].phase;
    assert PhaseOk(s, x);
    AckNoted(s, x, ok);
    KeepPhase(s, x, p.(oks := p.oks + [ok]));
  }

  lemma StepAcceptReply(s: Sys, x: string, ok: bool)
    requires Inv(s) && Possible(s, AcceptReply(x, ok))
    ensures Inv(Apply(s, AcceptReply(x, ok)))
  {
    NoteAck(s, x, ok);
  }

  lemma StepAcceptFails(s: Sys, x: string)
    requires Inv(s) && Possible(s, AcceptFails(x))
    ensures Inv(Apply(s, AcceptFails(x)))
  {
    NoteAck(s, x, false);
  }

  lemma {:induction false} AccepterAt(nodes: View, oks: seq<bool>, x: string) returns (k: nat)
    requires |oks| <= |nodes| && x in Accepters(nodes, oks)
    ensures k < |oks| && nodes[k] == x && oks[k]
    decreases |oks|
  {
    var j := |oks| - 1;
    if x in Accepters(nodes, oks[..j]) {
      k := AccepterAt(nodes, oks[..j], x);
    } else {
      k := j;
    }
  }

  lemma MajorityAccepted(s: Sys, x: string)
    requires x in s.nodes && PhaseOk(s, x) && s.nodes[x].phase.Accepting?
    requires InvEntries(s)
    requires var p := s.nodes[x].phase; IsMajority(p.view, Accepters(p.nodes1, p.oks))
    ensures var p := s.nodes[x].phase; p.inst > |s.base| && Chosen(s, p.inst, p.v)
  {
    var d := s.nodes[x];
    var p := d.phase;
    var accepts := Accepters(p.nodes1, p.oks);
    var e :| e in s.entries && e.inst == p.inst && e.n == d.myN && e.v == p.v && e.view == p.view
             && |e.outs| <= |e.view| && p.nodes1 == Promisers(e.view, e.outs);
    assert EntryOk(s, e);
    forall a | a in accepts ensures Acked(s, a, e.inst, e.n, e.v) {
      var k := AccepterAt(p.nodes1, p.oks, a);
    }
    assert ChosenBy(s, e, accepts);
  }

  lemma DecidingOk(s: Sys, x: string, inst: nat, accepts: View, v: string, sent: nat)
    requires x in s.nodes && inst > |s.base| && Chosen(s, inst, v)
    ensures PhaseOk(SetPhase(s, x, Deciding(inst, accepts, v, sent)), x)
  {
    var p := Deciding(inst, accepts, v, sent);
    SetPhaseQuiet(s, x, p);
    ChosenGrows(s, SetPhase(s, x, p), inst, v);
  }

  lemma StepEndAccept(s: Sys, x: string)
    requires Inv(s) && Possible(s, EndAccept(x))
    ensures Inv(Apply(s, EndAccept(x)))
  {
    var p := s.nodes[x].phase;
    assert PhaseOk(s, x);
    var accepts := Accepters(p.nodes1, p.oks);
    if IsMajority(p.view, accepts) {
      MajorityAccepted(s, x);
      DecidingOk(s, x, p.inst, accepts, p.v, 0);
      KeepPhase(s, x, Deciding(p.inst, accepts, p.v, 0));
    } else {
      KeepPhase(s, x, Idle);
    }
  }

  /** The phase after one more decide message. */
  ghost function SentOne(p: Phase): Phase
    requires p.Deciding?
  {
    Deciding(p.inst, p.accepts, p.v, p.sent + 1)
  }

  lemma DecidingPhase(s: Sys, x: string)
    requires x in s.nodes && PhaseOk(s, x) && s.nodes[x].phase.Deciding?
    ensures PhaseOk(SetPhase(s, x, SentOne(s.nodes[x].phase)), x)
  {
    var p := s.nodes[x].phase;
    DecidingOk(s, x, p.inst, p.accepts, p.v, p.sent + 1);
  }

  lemma KeepDeciding(s: Sys, x: string)
    requires Inv(s) && x in s.nodes && s.nodes[x].phase.Deciding?
    ensures Inv(SetPhase(s, x, SentOne(s.nodes[x].phase)))
  {
    DecidingPhase(s, x) by { assert PhaseOk(s, x); }
    KeepPhase(s, x, SentOne(s.nodes[x].phase));
  }

  lemma DecideRequest(s: Sys, x: string, a: string)
    requires x in s.nodes && PhaseOk(s, x) && s.nodes[x].phase.Deciding?
    ensures RequestOk(s, DecReq(a, s.nodes[x].phase.inst, s.nodes[x].phase.v))
  {}

  lemma SendDecideIs(s: Sys, x: string)
    requires Possible(s, SendDecide(x))
    ensures var p := s.nodes[x].phase;
            Apply(s, SendDecide(x)) == SetPhase(Send(s, DecReq(p.accepts[p.sent], p.inst, p.v)), x, SentOne(p))
  {}

  lemma StepSendDecide(s: Sys, x: string)
    requires Inv(s) && Possible(s, SendDecide(x))
    ensures Inv(Apply(s, SendDecide(x)))
  {
    var p := s.nodes[x].phase;
    var t := Send(s, DecReq(p.accepts[p.sent], p.inst, p.v));
    assert Inv(t) by {
      DecideRequest(s, x, p.accepts[p.sent]) by { assert PhaseOk(s, x); }
      KeepSend(s, x, DecReq(p.accepts[p.sent], p.inst, p.v));
    }
    assert Inv(SetPhase(t, x, SentOne(p))) by { KeepDeciding(t, x); }
    SendDecideIs(s, x);
  }

  lemma StepEndDecide(s: Sys, x: string)
    requires Inv(s) && Possible(s, EndDecide(x))
    ensures Inv(Apply(s, EndDecide(x)))
  {
    KeepPhase(s, x, Idle);
  }

  // ------------------------------------------------------------ acceptor steps

  /** A step of the acceptor of `x`: nothing else changes but for replies and an aborted proposer. */
  ghost predicate Local(s: Sys, t: Sys, x: string) {
    && Grows(s, t) && x in s.nodes && t.entries == s.entries && t.nextRun == s.nextRun
    && (forall y | y in s.nodes && y != x :: t.nodes[y] == s.nodes[y])
    && (forall m | m in t.net && m !in s.net :: m.PrepRep? || m.AccRep?)
    && (t.nodes[x].phase.Idle? || (t.nodes[x].phase == s.nodes[x].phase && t.nodes[x].myN == s.nodes[x].myN))
  }

  lemma LocalNode(s: Sys, t: Sys, x: string, y: string)
    requires Local(s, t, x) && y in s.nodes && y != x && AccOk(s, y) && LogOk(s, y) && PhaseOk(s, y)
    ensures AccOk(t, y) && LogOk(t, y) && PhaseOk(t, y)
  {
    var a := s.nodes[y].acc;
    forall i | |s.base| < i <= a.instanceH ensures Chosen(t, i, a.values[i]) {
      ChosenGrows(s, t, i, a.values[i]);
    }
    PhaseGrows(s, t, y);
  }

  lemma LocalNodes(s: Sys, t: Sys, x: string)
    requires InvNodes(s) && Local(s, t, x) && AccOk(t, x) && LogOk(t, x)
    ensures InvNodes(t)
  {
    forall y | y in t.nodes ensures AccOk(t, y) && LogOk(t, y) && PhaseOk(t, y) {
      assert AccOk(s, y) && LogOk(s, y) && PhaseOk(s, y);
      if y != x {
        LocalNode(s, t, x, y);
      } else if !t.nodes[x].phase.Idle? {
        PhaseGrows(s, t, x);
      }
    }
  }

  lemma LocalEntries(s: Sys, t: Sys, x: string)
    requires InvNodes(s) && InvEntries(s) && Local(s, t, x) && InvNodes(t)
    ensures InvEntries(t)
  {
    forall e | e in t.entries ensures EntryOk(t, e) {
      assert EntryOk(s, e);
      assert AccOk(s, e.who) && AccOk(t, e.who);
      EntryGrows(s, t, e);
    }
  }

  lemma LocalRuns(s: Sys, t: Sys, x: string)
    requires RunsApart(s) && Local(s, t, x)
    ensures RunsApart(t)
  {
    forall y, z | y in t.nodes && z in t.nodes && t.nodes[y].phase.Preparing? && t.nodes[z].phase.Preparing?
                  && t.nodes[y].phase.run == t.nodes[z].phase.run
      ensures y == z
    {
      assert s.nodes[y].phase == t.nodes[y].phase && s.nodes[z].phase == t.nodes[z].phase;
    }
  }

  lemma LocalStep(s: Sys, t: Sys, x: string)
    requires Inv(s) && Local(s, t, x)
    requires AccOk(t, x) && LogOk(t, x) && InvReplies(t) && PromisesOnce(t)
    ensures Inv(t)
  {
    LocalNodes(s, t, x);
    LocalEntries(s, t, x);
    RequestsGrow(s, t);
    LocalRuns(s, t, x);
  }

  // ---- prepare

  /** Decided values and the log survive a change of the promise. */
  lemma AccGrows(s: Sys, t: Sys, x: string)
    requires Grows(s, t) && x in s.nodes && AccOk(s, x)
    requires var a := s.nodes[x].acc; var b := t.nodes[x].acc;
             && b.me == a.me && b.instanceH == a.instanceH && b.values == a.values
             && (b.nA.n > 0 ==> Acked(t, x, b.instanceH + 1, b.nA, b.vA) && Ge(b.nH, b.nA))
    ensures AccOk(t, x)
  {
    var a := s.nodes[x].acc;
    forall i | |s.base| < i <= a.instanceH ensures Chosen(t, i, a.values[i]) {
      ChosenGrows(s, t, i, a.values[i]);
    }
  }

  /** Replies of `s` stay justified when the promise of `x` rises and nothing new is accepted. */
  lemma RepliesKept(s: Sys, t: Sys, x: string, a: string, r: nat, i: nat, p: Prop, res: PrepRes)
    requires Local(s, t, x) && PrepOk(s, a, r, i, p, res)
    requires forall b, j: nat, q, w | Acked(t, b, j, q, w) :: Acked(s, b, j, q, w)
    requires t.nodes[x].acc.instanceH + 1 == i ==>
               t.nodes[x].acc.instanceH == s.nodes[x].acc.instanceH
               && (Ge(s.nodes[x].acc.nH, p) ==> Ge(t.nodes[x].acc.nH, p))
    ensures PrepOk(t, a, r, i, p, res)
  {
    if Promise(Got(res)) {
      assert Report(s, a, i, p, res);
    }
  }

  lemma AcksKept(s: Sys, t: Sys, x: string, a: string, i: nat, q: Prop, w: string)
    requires Local(s, t, x) && AckOk(s, a, i, q, w)
    requires t.nodes[x].acc.instanceH + 1 == i ==>
               && t.nodes[x].acc.instanceH == s.nodes[x].acc.instanceH
               && (s.nodes[x].acc.nA.n > 0 && Ge(s.nodes[x].acc.nA, q) ==>
                     t.nodes[x].acc.nA.n > 0 && Ge(t.nodes[x].acc.nA, q))
    ensures AckOk(t, a, i, q, w)
  {
    HasEntryGrows(s, t, i, q, w);
  }

  /** What a prepare handled in order does to the acceptor. */
  lemma PrepareLocal(s: Sys, t: Sys, x: string, run: nat, i: nat, n: Prop)
    requires x in s.nodes && AccOk(s, x) && |s.base| < i <= s.nodes[x].acc.instanceH + 1
    requires PrepReq(x, run, i, n) in s.net && t == Apply(s, DeliverPrepare(run, x, i, n))
    ensures Local(s, t, x)
    ensures var a := s.nodes[x].acc; var b := t.nodes[x].acc;
            b == if i == a.instanceH + 1 && Gt(n, a.nH) then a.(nH := n) else a
    ensures t.net == s.net + {PrepRep(x, run, i, n, OnPrepare(s.nodes[x].acc, i, n).1)}
    ensures t.nodes[x].log == s.nodes[x].log + PrepareLog(s.nodes[x].acc, i, n)
  {
    var a := s.nodes[x].acc;
    assert i <= a.instanceH ==> a.values[i := ValueAt(a, i)] == a.values;
  }

  lemma PrepareAcc(s: Sys, t: Sys, x: string, run: nat, i: nat, n: Prop)
    requires x in s.nodes && AccOk(s, x) && LogOk(s, x) && |s.base| < i <= s.nodes[x].acc.instanceH + 1
    requires PrepReq(x, run, i, n) in s.net && t == Apply(s, DeliverPrepare(run, x, i, n))
    ensures AccOk(t, x) && LogOk(t, x)
  {
    PrepareLocal(s, t, x, run, i, n);
    var a := s.nodes[x].acc;
    PropOrder(n, a.nH, a.nA);
    PropOrder(a.nH, a.nA, a.nA);
    PropOrder(n, a.nA, a.nA);
    AccGrows(s, t, x);
    if PrepareLog(a, i, n) != [] {
      ReplaySnoc(x, s.nodes[x].log, High(n));
    } else {
      assert t.nodes[x].log == s.nodes[x].log;
    }
  }

  lemma NewPromise(s: Sys, t: Sys, x: string, run: nat, i: nat, n: Prop)
    requires x in s.nodes && AccOk(s, x) && |s.base| < i <= s.nodes[x].acc.instanceH + 1 && n.n > 0 && run < s.nextRun
    requires InvReplies(s)
    requires PrepReq(x, run, i, n) in s.net && t == Apply(s, DeliverPrepare(run, x, i, n))
    ensures PrepOk(t, x, run, i, n, OnPrepare(s.nodes[x].acc, i, n).1)
  {
    PrepareLocal(s, t, x, run, i, n);
    var a := s.nodes[x].acc;
    var res := OnPrepare(a, i, n).1;
    if Promise(Got(res)) {
      PropOrder(n, a.nH, a.nA);
      PropOrder(a.nH, a.nA, a.nA);
      PropOrder(n, n, n);
      forall q, w | Acked(t, x, i, q, w) && Gt(n, q) ensures res.nA.n > 0 && Ge(res.nA, q) {
        assert AckOk(s, x, i, q, w);
      }
    }
  }

  lemma PrepareReplies(s: Sys, t: Sys, x: string, run: nat, i: nat, n: Prop)
    requires x in s.nodes && AccOk(s, x) && |s.base| < i <= s.nodes[x].acc.instanceH + 1 && n.n > 0 && run < s.nextRun
    requires InvReplies(s)
    requires PrepReq(x, run, i, n) in s.net && t == Apply(s, DeliverPrepare(run, x, i, n))
    ensures InvReplies(t)
  {
    PrepareLocal(s, t, x, run, i, n);
    NewPromise(s, t, x, run, i, n);
    var acc := s.nodes[x].acc;
    forall a, r: nat, j: nat, p, res | PrepRep(a, r, j, p, res) in t.net ensures PrepOk(t, a, r, j, p, res) {
      if PrepRep(a, r, j, p, res) in s.net {
        PropOrder(n, acc.nH, p);
        PropOrder(acc.nH, p, p);
        PropOrder(n, p, p);
        RepliesKept(s, t, x, a, r, j, p, res);
      }
    }
    forall a, j: nat, q, w | Acked(t, a, j, q, w) ensures AckOk(t, a, j, q, w) {
      AcksKept(s, t, x, a, j, q, w);
    }
  }

  lemma PreparePromises(s: Sys, t: Sys, x: string, run: nat, i: nat, n: Prop)
    requires x in s.nodes && AccOk(s, x) && |s.base| < i <= s.nodes[x].acc.instanceH + 1
    requires InvReplies(s) && PromisesOnce(s)
    requires PrepReq(x, run, i, n) in s.net && t == Apply(s, DeliverPrepare(run, x, i, n))
    ensures PromisesOnce(t)
  {
    PrepareLocal(s, t, x, run, i, n);
    var new_ := OnPrepare(s.nodes[x].acc, i, n).1;
    forall r: nat, res | PrepRep(x, r, i, n, res) in s.net && Promise(Got(res)) && Promise(Got(new_)) ensures false {
      assert PrepOk(s, x, r, i, n, res);
      PropOrder(n, s.nodes[x].acc.nH, n);
      PropOrder(s.nodes[x].acc.nH, n, n);
    }
  }

  lemma StepDeliverPrepare(s: Sys, run: nat, x: string, i: nat, n: Prop)
    requires Inv(s) && Possible(s, DeliverPrepare(run, x, i, n)) && Orderly(s, DeliverPrepare(run, x, i, n))
    ensures Inv(Apply(s, DeliverPrepare(run, x, i, n)))
  {
    var t := Apply(s, DeliverPrepare(run, x, i, n));
    assert AccOk(s, x) && LogOk(s, x);
    PrepareLocal(s, t, x, run, i, n);
    PrepareAcc(s, t, x, run, i, n);
    PrepareReplies(s, t, x, run, i, n);
    PreparePromises(s, t, x, run, i, n);
    LocalStep(s, t, x);
  }

  // ---- accept

  /** An accept request only reaches nodes that promised the same proposal, so the promise on record equals it. */
  lemma AcceptMeetsPromise(s: Sys, x: string, i: nat, n: Prop, v: string)
    requires InvReplies(s) && InvEntries(s) && x in s.nodes && Granted(s, x, i, n, v)
    requires s.nodes[x].acc.instanceH + 1 == i
    ensures Ge(s.nodes[x].acc.nH, n)
    ensures Ge(n, s.nodes[x].acc.nH) ==> n == s.nodes[x].acc.nH
  {
    var e :| e in s.entries && e.inst == i && e.n == n && e.v == v
             && |e.outs| <= |e.view| && x in Promisers(e.view, e.outs);
    assert EntryOk(s, e);
    PromiserAt(e.view, e.outs, x);
    var k :| 0 <= k < |e.outs| && e.view[k] == x && Promise(e.outs[k]);
    assert PrepRep(x, e.run, i, n, e.outs[k].res) in s.net;
    assert PrepOk(s, x, e.run, i, n, e.outs[k].res);
    PropOrder(n, s.nodes[x].acc.nH, n);
    PropOrder(s.nodes[x].acc.nH, n, n);
  }

  /** The request is accepted and the acceptor knows it was promised. */
  ghost predicate Accepts(s: Sys, t: Sys, x: string, i: nat, n: Prop, v: string) {
    && x in s.nodes && AccOk(s, x) && LogOk(s, x) && i == s.nodes[x].acc.instanceH + 1
    && n == s.nodes[x].acc.nH && n.n > 0 && v != "" && HasEntry(s, i, n, v)
    && AccReq(x, i, n, v) in s.net && t == Apply(s, DeliverAccept(x, i, n, v))
  }

  lemma AcceptLocal(s: Sys, t: Sys, x: string, i: nat, n: Prop, v: string)
    requires Accepts(s, t, x, i, n, v)
    ensures Local(s, t, x)
    ensures t.nodes[x].acc == s.nodes[x].acc.(nA := n, vA := v)
    ensures t.net == s.net + {AccRep(x, i, n, v, true)}
    ensures t.nodes[x].log == s.nodes[x].log + [Accepted(n, v)]
  {
    PropOrder(n, n, n);
  }

  lemma AcceptAcc(s: Sys, t: Sys, x: string, i: nat, n: Prop, v: string)
    requires Accepts(s, t, x, i, n, v)
    ensures AccOk(t, x) && LogOk(t, x)
  {
    AcceptLocal(s, t, x, i, n, v);
    PropOrder(n, n, n);
    AccGrows(s, t, x);
    ReplaySnoc(x, s.nodes[x].log, Accepted(n, v));
  }

  lemma AcceptReport(s: Sys, t: Sys, x: string, i: nat, n: Prop, v: string, a: string, r: nat, j: nat, p: Prop,
      res: PrepRes)
    requires Accepts(s, t, x, i, n, v) && PrepOk(s, a, r, j, p, res)
    ensures PrepOk(t, a, r, j, p, res)
  {
    AcceptLocal(s, t, x, i, n, v);
    if Promise(Got(res)) {
      assert Report(s, a, j, p, res);
      forall q, w | Acked(t, a, j, q, w) && Gt(p, q) ensures res.nA.n > 0 && Ge(res.nA, q) {
        if !Acked(s, a, j, q, w) {
          PropOrder(n, p, n);
          PropOrder(p, n, n);
        }
      }
    }
  }

  lemma AcceptReplies(s: Sys, t: Sys, x: string, i: nat, n: Prop, v: string)
    requires Accepts(s, t, x, i, n, v) && InvReplies(s)
    ensures InvReplies(t)
  {
    AcceptLocal(s, t, x, i, n, v);
    forall a, r: nat, j: nat, p, res | PrepRep(a, r, j, p, res) in t.net ensures PrepOk(t, a, r, j, p, res) {
      AcceptReport(s, t, x, i, n, v, a, r, j, p, res);
    }
    var acc := s.nodes[x].acc;
    forall a, j: nat, q, w | Acked(t, a, j, q, w) ensures AckOk(t, a, j, q, w) {
      if Acked(s, a, j, q, w) {
        PropOrder(acc.nH, acc.nA, q);
        PropOrder(acc.nA, q, q);
        PropOrder(acc.nH, q, q);
        AcksKept(s, t, x, a, j, q, w);
      } else {
        PropOrder(n, n, n);
        HasEntryGrows(s, t, i, n, v);
      }
    }
  }

  /** A reply that promises nothing and reports no acceptance. */
  lemma RefusalReplies(s: Sys, x: string, m: Msg)
    requires InvReplies(s) && Local(s, Send(s, m), x) && m.AccRep? && !m.ok
    ensures InvReplies(Send(s, m))
  {
    var t := Send(s, m);
    forall a, r: nat, j: nat, p, res | PrepRep(a, r, j, p, res) in t.net ensures PrepOk(t, a, r, j, p, res) {
      RepliesKept(s, t, x, a, r, j, p, res);
    }
    forall a, j: nat, q, w | Acked(t, a, j, q, w) ensures AckOk(t, a, j, q, w) {
      AcksKept(s, t, x, a, j, q, w);
    }
  }

  lemma RefusalAcc(s: Sys, x: string, m: Msg)
    requires x in s.nodes && AccOk(s, x) && LogOk(s, x) && m.AccRep?
    ensures Local(s, Send(s, m), x) && AccOk(Send(s, m), x) && LogOk(Send(s, m), x)
  {
    AccGrows(s, Send(s, m), x);
  }

  lemma RefuseAccept(s: Sys, x: string, m: Msg)
    requires Inv(s) && x in s.nodes && m.AccRep? && !m.ok
    ensures Inv(Send(s, m))
  {
    var t := Send(s, m);
    RefusalAcc(s, x, m) by { assert AccOk(s, x) && LogOk(s, x); }
    RefusalReplies(s, x, m);
    SendPromises(s, t, m);
    LocalStep(s, t, x);
  }

  lemma GrantedEntry(s: Sys, x: string, i: nat, n: Prop, v: string)
    requires Granted(s, x, i, n, v)
    ensures HasEntry(s, i, n, v)
  {}

  lemma StepAccepted(s: Sys, t: Sys, x: string, i: nat, n: Prop, v: string)
    requires Inv(s) && Accepts(s, t, x, i, n, v)
    ensures Inv(t)
  {
    AcceptLocal(s, t, x, i, n, v);
    AcceptAcc(s, t, x, i, n, v);
    AcceptReplies(s, t, x, i, n, v);
    SendPromises(s, t, AccRep(x, i, n, v, true));
    LocalStep(s, t, x);
  }

  lemma StepDeliverAccept(s: Sys, x: string, i: nat, n: Prop, v: string)
    requires Inv(s) && Possible(s, DeliverAccept(x, i, n, v)) && Orderly(s, DeliverAccept(x, i, n, v))
    ensures Inv(Apply(s, DeliverAccept(x, i, n, v)))
  {
    if OnAccept(s.nodes[x].acc, i, n, v).1 {
      AcceptMeetsPromise(s, x, i, n, v);
      GrantedEntry(s, x, i, n, v);
      assert AccOk(s, x) && LogOk(s, x);
      StepAccepted(s, Apply(s, DeliverAccept(x, i, n, v)), x, i, n, v);
    } else {
      RefuseAccept(s, x, AccRep(x, i, n, v, false));
      RefuseIs(s, x, i, n, v);
    }
  }

  lemma RefuseIs(s: Sys, x: string, i: nat, n: Prop, v: string)
    requires Possible(s, DeliverAccept(x, i, n, v)) && !OnAccept(s.nodes[x].acc, i, n, v).1
    ensures Apply(s, DeliverAccept(x, i, n, v)) == Send(s, AccRep(x, i, n, v, false))
  {
    assert s.nodes[x].log + [] == s.nodes[x].log;
    assert s.nodes[x := s.nodes[x]] == s.nodes;
  }

  // ---- commit

  /** The state in which `x` has committed and its proposer is idle or unchanged. */
  ghost predicate Commits(s: Sys, t: Sys, x: string, i: nat, v: string) {
    && x in s.nodes && AccOk(s, x) && LogOk(s, x)
    && |s.base| < i <= s.nodes[x].acc.instanceH + 1 && Chosen(s, i, v)
    && (t == SetNode(s, x, Committed(s.nodes[x], i, v)) || t
        == SetNode(s, x, Committed(s.nodes[x], i, v).(phase := Idle)))
  }

  lemma CommitLocal(s: Sys, t: Sys, x: string, i: nat, v: string)
    requires Commits(s, t, x, i, v)
    ensures Local(s, t, x) && t.net == s.net
  {}

  lemma CommitAcc(s: Sys, t: Sys, x: string, i: nat, v: string)
    requires Commits(s, t, x, i, v)
    ensures AccOk(t, x)
  {
    CommitLocal(s, t, x, i, v);
    var b := t.nodes[x].acc;
    forall j | |s.base| < j <= b.instanceH ensures Chosen(t, j, b.values[j]) {
      ChosenGrows(s, t, j, b.values[j]);
    }
  }

  lemma CommitLogged(s: Sys, t: Sys, x: string, i: nat, v: string)
    requires Commits(s, t, x, i, v)
    ensures LogOk(t, x)
  {
    var d := s.nodes[x];
    if i > d.acc.instanceH {
      ReplaySnoc(x, d.log, Done(i, v));
      assert CommitLog(d.acc, i, v) == [Done(i, v)];
    } else {
      assert d.log + [] == d.log;
    }
  }

  lemma CommitReplies(s: Sys, t: Sys, x: string, i: nat, v: string)
    requires Commits(s, t, x, i, v) && InvReplies(s)
    ensures InvReplies(t)
  {
    CommitLocal(s, t, x, i, v);
    forall a, r: nat, j: nat, p, res | PrepRep(a, r, j, p, res) in t.net ensures PrepOk(t, a, r, j, p, res) {
      assert PrepOk(s, a, r, j, p, res);
      CommitReply(s, t, x, i, v, a, r, j, p, res);
    }
    forall a, j: nat, q, w | Acked(t, a, j, q, w) ensures AckOk(t, a, j, q, w) {
      assert AckOk(s, a, j, q, w);
      HasEntryGrows(s, t, j, q, w);
    }
  }

  lemma CommitReply(s: Sys, t: Sys, x: string, i: nat, v: string, a: string, r: nat, j: nat, p: Prop, res: PrepRes)
    requires Commits(s, t, x, i, v) && PrepOk(s, a, r, j, p, res)
    ensures PrepOk(t, a, r, j, p, res)
  {
    CommitLocal(s, t, x, i, v);
    if Promise(Got(res)) {
      assert Report(s, a, j, p, res);
      assert forall q, w | Acked(t, a, j, q, w) :: Acked(s, a, j, q, w);
    }
  }

  lemma StepCommit(s: Sys, t: Sys, x: string, i: nat, v: string)
    requires Inv(s) && Commits(s, t, x, i, v)
    ensures Inv(t)
  {
    CommitLocal(s, t, x, i, v);
    CommitAcc(s, t, x, i, v);
    CommitLogged(s, t, x, i, v);
    CommitReplies(s, t, x, i, v);
    LocalStep(s, t, x);
  }

  lemma StepDeliverDecide(s: Sys, x: string, i: nat, v: string)
    requires Inv(s) && Possible(s, DeliverDecide(x, i, v)) && Orderly(s, DeliverDecide(x, i, v))
    ensures Inv(Apply(s, DeliverDecide(x, i, v)))
  {
    var t := Apply(s, DeliverDecide(x, i, v));
    assert AccOk(s, x) && LogOk(s, x);
    StepCommit(s, t, x, i, v);
  }

  lemma OldIsChosen(s: Sys, a: string, r: nat, i: nat, p: Prop, res: PrepRes)
    requires InvNodes(s) && InvReplies(s) && PrepRep(a, r, i, p, res) in s.net && res.oldInstance
    ensures i > |s.base| && Chosen(s, i, res.vA)
  {
    assert PrepOk(s, a, r, i, p, res);
    assert AccOk(s, a);
  }

  lemma StepOldInstance(s: Sys, x: string, res: PrepRes)
    requires Inv(s) && Possible(s, PrepareReply(x, res)) && res.oldInstance
    ensures Inv(Apply(s, PrepareReply(x, res)))
  {
    var d := s.nodes[x];
    var p := d.phase;
    assert PhaseOk(s, x) && AccOk(s, x) && LogOk(s, x);
    OldIsChosen(s, p.view[|p.outs|], p.run, p.inst, d.myN, res);
    StepCommit(s, Apply(s, PrepareReply(x, res)), x, p.inst, res.vA);
  }

  // ---- crash

  lemma CrashLocal(s: Sys, t: Sys, x: string, myN: nat)
    requires x in s.nodes && AccOk(s, x) && LogOk(s, x) && t == Apply(s, Crash(x, myN))
    ensures Local(s, t, x) && AccOk(t, x) && LogOk(t, x) && t.net == s.net
    ensures SameAcc(t.nodes[x].acc, s.nodes[x].acc)
  {
    AccGrows(s, t, x);
  }

  lemma CrashReplies(s: Sys, t: Sys, x: string, myN: nat)
    requires x in s.nodes && AccOk(s, x) && LogOk(s, x) && t == Apply(s, Crash(x, myN)) && InvReplies(s)
    ensures InvReplies(t)
  {
    CrashLocal(s, t, x, myN);
    forall a, r: nat, j: nat, p, res | PrepRep(a, r, j, p, res) in t.net ensures PrepOk(t, a, r, j, p, res) {
      assert PrepOk(s, a, r, j, p, res);
      RepliesKept(s, t, x, a, r, j, p, res);
    }
    forall a, j: nat, q, w | Acked(t, a, j, q, w) ensures AckOk(t, a, j, q, w) {
      assert AckOk(s, a, j, q, w);
      AcksKept(s, t, x, a, j, q, w);
    }
  }

  lemma StepCrash(s: Sys, x: string, myN: nat)
    requires Inv(s) && Possible(s, Crash(x, myN))
    ensures Inv(Apply(s, Crash(x, myN)))
  {
    var t := Apply(s, Crash(x, myN));
    assert AccOk(s, x) && LogOk(s, x);
    CrashLocal(s, t, x, myN);
    CrashReplies(s, t, x, myN);
    LocalStep(s, t, x);
  }
}
