/** Runs of the Paxos system that show which hypotheses of the agreement theorem are needed. */
module PaxosRuns {
  import opened Text
  import opened Views
  import opened PaxosLog
  import opened PaxosNode
  import opened PaxosSystem

  ghost predicate Reaches(s: Sys, acts: seq<Action>, t: Sys) {
    PossibleRun(s, acts) && OrderlyRun(s, acts) && After(s, acts) == t
  }

  /** Some orderly run leads from `s` to `t`. */
  ghost predicate Reachable(s: Sys, t: Sys) {
    exists acts :: Reaches(s, acts, t)
  }

  lemma {:induction false} OneMore(s: Sys, acts: seq<Action>, t: Sys, act: Action)
    requires Reaches(s, acts, t) && Possible(t, act) && Orderly(t, act)
    ensures Reaches(s, acts + [act], Apply(t, act))
    decreases |acts|
  {
    if acts == [] {
      assert acts + [act] == [act] && [act][1..] == [];
      assert PossibleRun(Apply(s, act), []);
    } else {
      OneMore(Apply(s, acts[0]), acts[1..], t, act);
      assert (acts + [act])[1..] == acts[1..] + [act];
    }
  }

  lemma Do(s: Sys, t: Sys, act: Action)
    requires Reachable(s, t) && Possible(t, act) && Orderly(t, act)
    ensures Reachable(s, Apply(t, act))
  {
    var acts :| Reaches(s, acts, t);
    OneMore(s, acts, t, act);
  }

  /** What the runs below track of a node. */
  datatype Look = Look(acc: Acc, myN: Prop, phase: Phase)

  ghost predicate Is(s: Sys, x: string, l: Look) {
    x in s.nodes && s.nodes[x].acc == l.acc && s.nodes[x].myN == l.myN && s.nodes[x].phase == l.phase
  }

  /** A prepare call that is answered by a promise of another or the same node. */
  lemma Promised(s0: Sys, s: Sys, x: string, y: string, lx: Look, ly: Look, z: string, lz: Look, w: string,
      lw: Look) returns (t: Sys)
    requires z != x && z != y && w != x && w != y && Is(s, z, lz) && Is(s, w, lw)
    requires Reachable(s0, s) && Is(s, x, lx) && Is(s, y, ly) && (x == y ==> lx == ly)
    requires lx.phase.Preparing? && |lx.phase.outs| < |lx.phase.view| && lx.phase.view[|lx.phase.outs|] == y
    requires lx.phase.inst == ly.acc.instanceH + 1 && Gt(lx.myN, ly.acc.nH)
    ensures Reachable(s0, t) && t.nextRun == s.nextRun
    ensures var p := lx.phase.(outs := lx.phase.outs + [Got(PrepRes(false, true, ly.acc.nA, ly.acc.vA))]);
            && (x == y ==> Is(t, x, Look(lx.acc.(nH := lx.myN), lx.myN, p)))
            && (x != y ==> Is(t, x, lx.(phase := p)) && Is(t, y, ly.(acc := ly.acc.(nH := lx.myN))))
    ensures Is(t, z, lz) && Is(t, w, lw)
  {
    var p := lx.phase;
    var res := PrepRes(false, true, ly.acc.nA, ly.acc.vA);
    Do(s0, s, SendPrepare(x));
    var s1 := Apply(s, SendPrepare(x));
    Do(s0, s1, DeliverPrepare(p.run, y, p.inst, lx.myN));
    var s2 := Apply(s1, DeliverPrepare(p.run, y, p.inst, lx.myN));
    assert PrepRep(y, p.run, p.inst, lx.myN, res) in s2.net;
    Do(s0, s2, PrepareReply(x, res));
    t := Apply(s2, PrepareReply(x, res));
  }

  /** A prepare call without an answer. */
  lemma Unanswered(s0: Sys, s: Sys, x: string, lx: Look, z: string, lz: Look, w: string, lw: Look) returns (t: Sys)
    requires z != x && w != x && Is(s, z, lz) && Is(s, w, lw)
    requires Reachable(s0, s) && Is(s, x, lx)
    requires lx.phase.Preparing? && |lx.phase.outs| < |lx.phase.view|
    ensures Reachable(s0, t) && t.nextRun == s.nextRun
    ensures Is(t, x, lx.(phase := lx.phase.(outs := lx.phase.outs + [Failed])))
    ensures Is(t, z, lz) && Is(t, w, lw)
  {
    Do(s0, s, PrepareFails(x));
    t := Apply(s, PrepareFails(x));
  }

  lemma Begin(s0: Sys, s: Sys, x: string, lx: Look, cv: string, z: string, lz: Look, w: string,
      lw: Look) returns (t: Sys)
    requires z != x && w != x && Is(s, z, lz) && Is(s, w, lw)
    requires Reachable(s0, s) && Is(s, x, lx) && lx.phase.Idle? && cv != ""
    ensures Reachable(s0, t) && t.nextRun == s.nextRun + 1
    ensures Is(t, x, Look(lx.acc, Prop(NextRound(lx.acc.nH, lx.myN.n), x),
                          Preparing(s.nextRun, lx.acc.instanceH + 1, CurrentView(lx.acc), cv, [])))
    ensures Is(t, z, lz) && Is(t, w, lw)
  {
    Do(s0, s, Start(x, cv));
    t := Apply(s, Start(x, cv));
  }

  /** The prepare phase ends with a majority of promises. */
  lemma Elected(s0: Sys, s: Sys, x: string, lx: Look, z: string, lz: Look, w: string, lw: Look) returns (t: Sys)
    requires z != x && w != x && Is(s, z, lz) && Is(s, w, lw)
    requires Reachable(s0, s) && Is(s, x, lx)
    requires lx.phase.Preparing? && |lx.phase.outs| == |lx.phase.view|
    requires IsMajority(lx.phase.view, Promisers(lx.phase.view, lx.phase.outs))
             && Pick(lx.phase.outs, lx.phase.cv).1 != ""
    ensures Reachable(s0, t) && t.nextRun == s.nextRun
    ensures var p := lx.phase;
            Is(t, x, lx.(phase := Accepting(p.run, p.inst, p.view, Promisers(p.view, p.outs), Pick(p.outs, p.cv).1,
                [])))
    ensures Is(t, z, lz) && Is(t, w, lw)
  {
    Do(s0, s, EndPrepare(x));
    t := Apply(s, EndPrepare(x));
  }

  /** An accept call that is obeyed. */
  lemma Obeyed(s0: Sys, s: Sys, x: string, y: string, lx: Look, ly: Look, z: string, lz: Look, w: string,
      lw: Look) returns (t: Sys)
    requires z != x && z != y && w != x && w != y && Is(s, z, lz) && Is(s, w, lw)
    requires Reachable(s0, s) && Is(s, x, lx) && Is(s, y, ly) && (x == y ==> lx == ly)
    requires lx.phase.Accepting? && |lx.phase.oks| < |lx.phase.nodes1| && lx.phase.nodes1[|lx.phase.oks|] == y
    requires lx.phase.inst == ly.acc.instanceH + 1 && Ge(lx.myN, ly.acc.nH)
    ensures Reachable(s0, t) && t.nextRun == s.nextRun
    ensures var p := lx.phase.(oks := lx.phase.oks + [true]);
            var a := ly.acc.(nH := lx.myN, nA := lx.myN, vA := lx.phase.v);
            && (x == y ==> Is(t, x, Look(a, lx.myN, p)))
            && (x != y ==> Is(t, x, lx.(phase := p)) && Is(t, y, ly.(acc := a)))
    ensures Is(t, z, lz) && Is(t, w, lw)
  {
    var p := lx.phase;
    Do(s0, s, SendAccept(x));
    var s1 := Apply(s, SendAccept(x));
    Do(s0, s1, DeliverAccept(y, p.inst, lx.myN, p.v));
    var s2 := Apply(s1, DeliverAccept(y, p.inst, lx.myN, p.v));
    assert AccRep(y, p.inst, lx.myN, p.v, true) in s2.net;
    Do(s0, s2, AcceptReply(x, true));
    t := Apply(s2, AcceptReply(x, true));
  }

  lemma Disobeyed(s0: Sys, s: Sys, x: string, lx: Look, z: string, lz: Look, w: string, lw: Look) returns (t: Sys)
    requires z != x && w != x && Is(s, z, lz) && Is(s, w, lw)
    requires Reachable(s0, s) && Is(s, x, lx)
    requires lx.phase.Accepting? && |lx.phase.oks| < |lx.phase.nodes1|
    ensures Reachable(s0, t) && t.nextRun == s.nextRun
    ensures Is(t, x, lx.(phase := lx.phase.(oks := lx.phase.oks + [false])))
    ensures Is(t, z, lz) && Is(t, w, lw)
  {
    Do(s0, s, AcceptFails(x));
    t := Apply(s, AcceptFails(x));
  }

  lemma Voted(s0: Sys, s: Sys, x: string, lx: Look, z: string, lz: Look, w: string, lw: Look) returns (t: Sys)
    requires z != x && w != x && Is(s, z, lz) && Is(s, w, lw)
    requires Reachable(s0, s) && Is(s, x, lx)
    requires lx.phase.Accepting? && |lx.phase.oks| == |lx.phase.nodes1|
    ensures Reachable(s0, t) && t.nextRun == s.nextRun
    ensures var p := lx.phase;
            var accepts := Accepters(p.nodes1, p.oks);
            Is(t, x, lx.(phase := if IsMajority(p.view, accepts) then Deciding(p.inst, accepts, p.v, 0) else Idle))
    ensures Is(t, z, lz) && Is(t, w, lw)
  {
    Do(s0, s, EndAccept(x));
    t := Apply(s, EndAccept(x));
  }

  /** A decide request that is lost. */
  lemma DecideLost(s0: Sys, s: Sys, x: string, lx: Look, z: string, lz: Look, w: string, lw: Look) returns (t: Sys)
    requires z != x && w != x && Is(s, z, lz) && Is(s, w, lw)
    requires Reachable(s0, s) && Is(s, x, lx)
    requires lx.phase.Deciding? && lx.phase.sent < |lx.phase.accepts|
    ensures Reachable(s0, t) && t.nextRun == s.nextRun
    ensures Is(t, x, lx.(phase := lx.phase.(sent := lx.phase.sent + 1)))
    ensures Is(t, z, lz) && Is(t, w, lw)
  {
    Do(s0, s, SendDecide(x));
    t := Apply(s, SendDecide(x));
  }

  /** A decide request that arrives. */
  lemma Decided(s0: Sys, s: Sys, x: string, y: string, lx: Look, ly: Look, z: string, lz: Look, w: string,
      lw: Look) returns (t: Sys)
    requires z != x && z != y && w != x && w != y && Is(s, z, lz) && Is(s, w, lw)
    requires Reachable(s0, s) && Is(s, x, lx) && Is(s, y, ly) && (x == y ==> lx == ly)
    requires lx.phase.Deciding? && lx.phase.sent < |lx.phase.accepts| && lx.phase.accepts[lx.phase.sent] == y
    requires lx.phase.inst == ly.acc.instanceH + 1
    ensures Reachable(s0, t) && t.nextRun == s.nextRun
    ensures y in t.nodes && t.nodes[y].acc == Commit(ly.acc, lx.phase.inst, lx.phase.v)
    ensures x != y ==> x in t.nodes && t.nodes[x].acc == lx.acc
    ensures Is(t, z, lz) && Is(t, w, lw)
  {
    var p := lx.phase;
    Do(s0, s, SendDecide(x));
    var s1 := Apply(s, SendDecide(x));
    assert DecReq(y, p.inst, p.v) in s1.net;
    Do(s0, s1, DeliverDecide(y, p.inst, p.v));
    t := Apply(s1, DeliverDecide(y, p.inst, p.v));
  }

  // ------------------------------------------------- systems of three nodes

  ghost function PromiseOf(a: Acc): Outcome {
    Got(PrepRes(false, true, a.nA, a.vA))
  }

  lemma ThreeOutcomes(v: View, o: Outcome, p: Outcome)
    requires |v| == 3 && Promise(o) && Promise(p)
    ensures Promisers(v, [o, p, Failed]) == [v[0], v[1]]
    ensures Promisers(v, [Failed, o, p]) == [v[1], v[2]]
  {
    assert [o, p, Failed][..2] == [o, p] && [o, p][..1] == [o] && [o][..0] == [];
    assert Promisers(v, [o]) == [v[0]];
    assert Promisers(v, [o, p]) == [v[0], v[1]];
    assert [Failed, o, p][..2] == [Failed, o] && [Failed, o][..1] == [Failed] && [Failed][..0] == [];
    assert Promisers(v, [Failed]) == [];
    assert Promisers(v, [Failed, o]) == [v[1]];
  }

  lemma ThreePicks(o: Outcome, p: Outcome, cv: string)
    requires Promise(o) && Promise(p)
    ensures Pick([o, p, Failed], cv) == Pick([o, p], cv) == Pick([Failed, o, p], cv)
  {
    assert [o, p, Failed][..2] == [o, p] && [o, p][..1] == [o] && [o][..0] == [];
    assert [Failed, o, p][..2] == [Failed, o] && [Failed, o][..1] == [Failed] && [Failed][..0] == [];
    assert Pick([Failed], cv) == (0, cv);
    assert Pick([Failed, o], cv) == Pick([o], cv);
  }

  lemma TwoOfThree(a: string, b: string, c: string)
    requires a != b && b != c && a != c
    ensures IsMajority([a, b, c], [a, b]) && IsMajority([a, b, c], [b, c]) && !IsMajority([a, b, c], [a])
  {
    assert [a, b, c][..2] == [a, b] && [a, b][..1] == [a] && [a][..0] == [];
    forall q: View ensures HitCount([a, b, c], q) == (if a in q then 1 else 0) + (if b in q then 1 else 0)
        + if c in q then 1 else 0 {
      assert HitCount([a], q) == if a in q then 1 else 0;
      assert HitCount([a, b], q) == HitCount([a], q) + if b in q then 1 else 0;
    }
  }

  ghost predicate Ready(l: Look, v: View, inst: nat) {
    l.phase.Preparing? && l.phase.view == v && l.phase.outs == [] && l.phase.inst == inst
  }

  /** Node `a` is elected by itself and `b`; node `c` does not answer. */
  lemma ElectFirstTwo(s0: Sys, s: Sys, a: string, b: string, c: string, la: Look, lb: Look, lc: Look) returns (t: Sys)
    requires Reachable(s0, s) && Is(s, a, la) && Is(s, b, lb) && Is(s, c, lc) && a != b && b != c && a != c
    requires Ready(la, [a, b, c], la.acc.instanceH + 1) && lb.acc.instanceH == la.acc.instanceH
    requires Gt(la.myN, la.acc.nH) && Gt(la.myN, lb.acc.nH)
    requires Pick([PromiseOf(la.acc), PromiseOf(lb.acc)], la.phase.cv).1 != ""
    ensures Reachable(s0, t) && t.nextRun == s.nextRun
    ensures Is(t, a, Look(la.acc.(nH := la.myN), la.myN, Accepting(la.phase.run, la.phase.inst, [a, b, c], [a, b],
                          Pick([PromiseOf(la.acc), PromiseOf(lb.acc)], la.phase.cv).1, [])))
    ensures Is(t, b, lb.(acc := lb.acc.(nH := la.myN))) && Is(t, c, lc)
  {
    var p := la.phase;
    var o, q := PromiseOf(la.acc), PromiseOf(lb.acc);
    t := Promised(s0, s, a, a, la, la, b, lb, c, lc);
    assert [] + [o] == [o];
    var la1 := Look(la.acc.(nH := la.myN), la.myN, p.(outs := [o]));
    t := Promised(s0, t, a, b, la1, lb, c, lc, c, lc);
    assert [o] + [q] == [o, q];
    var lb1 := lb.(acc := lb.acc.(nH := la.myN));
    la1 := la1.(phase := p.(outs := [o, q]));
    t := Unanswered(s0, t, a, la1, b, lb1, c, lc);
    assert [o, q] + [Failed] == [o, q, Failed];
    la1 := la1.(phase := p.(outs := [o, q, Failed]));
    ThreeOutcomes([a, b, c], o, q);
    ThreePicks(o, q, p.cv);
    TwoOfThree(a, b, c);
    t := Elected(s0, t, a, la1, b, lb1, c, lc);
  }

  /** Node `b` is elected by itself and `c`; node `a` does not answer. */
  lemma ElectLastTwo(s0: Sys, s: Sys, a: string, b: string, c: string, la: Look, lb: Look, lc: Look) returns (t: Sys)
    requires Reachable(s0, s) && Is(s, a, la) && Is(s, b, lb) && Is(s, c, lc) && a != b && b != c && a != c
    requires Ready(lb, [a, b, c], lb.acc.instanceH + 1) && lc.acc.instanceH == lb.acc.instanceH
    requires Gt(lb.myN, lb.acc.nH) && Gt(lb.myN, lc.acc.nH)
    requires Pick([PromiseOf(lb.acc), PromiseOf(lc.acc)], lb.phase.cv).1 != ""
    ensures Reachable(s0, t) && t.nextRun == s.nextRun
    ensures Is(t, b, Look(lb.acc.(nH := lb.myN), lb.myN, Accepting(lb.phase.run, lb.phase.inst, [a, b, c], [b, c],
                          Pick([PromiseOf(lb.acc), PromiseOf(lc.acc)], lb.phase.cv).1, [])))
    ensures Is(t, a, la) && Is(t, c, lc.(acc := lc.acc.(nH := lb.myN)))
  {
    var p := lb.phase;
    var o, q := PromiseOf(lb.acc), PromiseOf(lc.acc);
    t := Unanswered(s0, s, b, lb, a, la, c, lc);
    assert [] + [Failed] == [Failed];
    var lb1 := lb.(phase := p.(outs := [Failed]));
    t := Promised(s0, t, b, b, lb1, lb1, a, la, c, lc);
    assert [Failed] + [o] == [Failed, o];
    lb1 := Look(lb.acc.(nH := lb.myN), lb.myN, p.(outs := [Failed, o]));
    t := Promised(s0, t, b, c, lb1, lc, a, la, a, la);
    assert [Failed, o] + [q] == [Failed, o, q];
    var lc1 := lc.(acc := lc.acc.(nH := lb.myN));
    lb1 := lb1.(phase := p.(outs := [Failed, o, q]));
    ThreeOutcomes([a, b, c], o, q);
    ThreePicks(o, q, p.cv);
    TwoOfThree(a, b, c);
    t := Elected(s0, t, b, lb1, a, la, c, lc1);
  }

  lemma TwoVotes(x: string, y: string)
    ensures Accepters([x, y], [true, true]) == [x, y] && Accepters([x, y], [true, false]) == [x]
  {
    assert [true, true][..1] == [true] && [true, false][..1] == [true] && [true][..0] == [];
    assert Accepters([x, y], [true]) == [x];
  }

  /** Node `x` has its proposal accepted by itself and `y` and decides. */
  lemma BothAccept(s0: Sys, s: Sys, x: string, y: string, z: string, lx: Look, ly: Look, lz: Look) returns (t: Sys)
    requires Reachable(s0, s) && Is(s, x, lx) && Is(s, y, ly) && Is(s, z, lz) && x != y && z != x && z != y
    requires lx.phase.Accepting? && lx.phase.nodes1 == [x, y] && lx.phase.oks == []
    requires lx.phase.inst == lx.acc.instanceH + 1 == ly.acc.instanceH + 1
    requires lx.acc.nH == lx.myN == ly.acc.nH && IsMajority(lx.phase.view, [x, y])
    ensures Reachable(s0, t) && t.nextRun == s.nextRun
    ensures var n, v := lx.myN, lx.phase.v;
            && Is(t, x, Look(lx.acc.(nA := n, vA := v), n, Deciding(lx.phase.inst, [x, y], v, 0)))
            && Is(t, y, ly.(acc := ly.acc.(nA := n, vA := v))) && Is(t, z, lz)
  {
    var p, n := lx.phase, lx.myN;
    PropOrder(n, n, n);
    t := Obeyed(s0, s, x, x, lx, lx, y, ly, z, lz);
    assert [] + [true] == [true];
    var lx1 := Look(lx.acc.(nA := n, vA := p.v), n, p.(oks := [true]));
    t := Obeyed(s0, t, x, y, lx1, ly, z, lz, z, lz);
    assert [true] + [true] == [true, true];
    lx1 := lx1.(phase := p.(oks := [true, true]));
    TwoVotes(x, y);
    t := Voted(s0, t, x, lx1, y, ly.(acc := ly.acc.(nA := n, vA := p.v)), z, lz);
  }

  /** Node `x` has its proposal accepted by itself only and gives up. */
  lemma OneAccepts(s0: Sys, s: Sys, x: string, y: string, z: string, lx: Look, ly: Look, lz: Look) returns (t: Sys)
    requires Reachable(s0, s) && Is(s, x, lx) && Is(s, y, ly) && Is(s, z, lz) && x != y && z != x && z != y
    requires lx.phase.Accepting? && lx.phase.nodes1 == [x, y] && lx.phase.oks == []
    requires lx.phase.inst == lx.acc.instanceH + 1
    requires lx.acc.nH == lx.myN && !IsMajority(lx.phase.view, [x])
    ensures Reachable(s0, t) && t.nextRun == s.nextRun
    ensures Is(t, x, Look(lx.acc.(nA := lx.myN, vA := lx.phase.v), lx.myN, Idle)) && Is(t, y, ly) && Is(t, z, lz)
  {
    var p, n := lx.phase, lx.myN;
    PropOrder(n, n, n);
    t := Obeyed(s0, s, x, x, lx, lx, y, ly, z, lz);
    assert [] + [true] == [true];
    var lx1 := Look(lx.acc.(nA := n, vA := p.v), n, p.(oks := [true]));
    t := Disobeyed(s0, t, x, lx1, y, ly, z, lz);
    assert [true] + [false] == [true, false];
    lx1 := lx1.(phase := p.(oks := [true, false]));
    TwoVotes(x, y);
    t := Voted(s0, t, x, lx1, y, ly, z, lz);
  }

  // ------------------------------------------------- two proposals, one round

  ghost function StartAcc(x: string, v: View): Acc {
    Acc(x, 1, Prop(0, x), Prop(0, x), "", map[1 := ViewText(v)])
  }

  ghost function StartLook(x: string, v: View): Look {
    Look(StartAcc(x, v), Prop(0, x), Idle)
  }

  ghost function StartSys(a: string, b: string, c: string): Sys {
    var v := [a, b, c];
    var log := BaseLog([ViewText(v)]);
    Sys(map[a := Node(StartAcc(a, v), log, Prop(0, a), Idle),
            b := Node(StartAcc(b, v), log, Prop(0, b), Idle),
            c := Node(StartAcc(c, v), log, Prop(0, c), Idle)], {}, {}, 0, [ViewText(v)])
  }

  lemma StartIsInit(a: string, b: string, c: string)
    requires a != b && b != c && a != c
    ensures var s, v := StartSys(a, b, c), [a, b, c];
            && Init(s) && Reachable(s, s)
            && Is(s, a, StartLook(a, v)) && Is(s, b, StartLook(b, v)) && Is(s, c, StartLook(c, v))
  {
    var s := StartSys(a, b, c);
    assert BaseValues(s.base) == map[1 := ViewText([a, b, c])];
    assert Reaches(s, [], s);
  }

  lemma StartView(x: string, v: View)
    requires Names(v)
    ensures CurrentView(StartAcc(x, v)) == v
  {
    MembersOfValue(v);
  }

  /** Nodes `b` and `a` start their proposals before either has heard of the other: both use round 1. */
  lemma BothStart(a: string, b: string, c: string, u: string, w: string) returns (t: Sys)
    requires IsWord(a) && IsWord(b) && IsWord(c) && a != b && b != c && a != c && u != "" && w != ""
    ensures var s, v := StartSys(a, b, c), [a, b, c];
            && Reachable(s, t)
            && Is(t, a, Look(StartAcc(a, v), Prop(1, a), Preparing(1, 2, v, u, [])))
            && Is(t, b, Look(StartAcc(b, v), Prop(1, b), Preparing(0, 2, v, w, [])))
            && Is(t, c, StartLook(c, v))
  {
    var s, v := StartSys(a, b, c), [a, b, c];
    StartIsInit(a, b, c);
    StartView(a, v);
    StartView(b, v);
    t := Begin(s, s, b, StartLook(b, v), w, a, StartLook(a, v), c, StartLook(c, v));
    t := Begin(s, t, a, StartLook(a, v), u, b, Look(StartAcc(b, v), Prop(1, b), Preparing(0, 2, v, w, [])), c,
        StartLook(c, v));
  }

  lemma NothingReported(x: string, y: string, v: View, cv: string)
    ensures Pick([PromiseOf(StartAcc(x, v)), PromiseOf(StartAcc(y, v))], cv).1 == cv
  {
    var o, p := PromiseOf(StartAcc(x, v)), PromiseOf(StartAcc(y, v));
    assert [o, p][..1] == [o] && [o][..0] == [];
    assert Pick([o], cv) == (0, cv);
  }

  /** Node `a` accepts its own proposal alone; nodes `b` and `c` choose the other one and `c` learns it. */
  lemma FirstTwoProposals(a: string, b: string, c: string, u: string, w: string) returns (t: Sys)
    requires IsWord(a) && IsWord(b) && IsWord(c) && StringLess(a, b) && a != b && b != c && a != c && u != "" && w != ""
    ensures var s, v := StartSys(a, b, c), [a, b, c];
            && Reachable(s, t)
            && Is(t, a, Look(StartAcc(a, v).(nH := Prop(1, a), nA := Prop(1, a), vA := u), Prop(1, a), Idle))
            && b in t.nodes && t.nodes[b].acc == StartAcc(b, v).(nH := Prop(1, b), nA := Prop(1, b), vA := w)
            && c in t.nodes && t.nodes[c].acc == Commit(StartAcc(c, v), 2, w)
  {
    var s, v := StartSys(a, b, c), [a, b, c];
    t := BothStart(a, b, c, u, w);
    var la := Look(StartAcc(a, v), Prop(1, a), Preparing(1, 2, v, u, []));
    var lb := Look(StartAcc(b, v), Prop(1, b), Preparing(0, 2, v, w, []));
    var lc := StartLook(c, v);
    NothingReported(a, b, v, u);
    NothingReported(b, c, v, w);
    TwoOfThree(a, b, c);
    t := ElectFirstTwo(s, t, a, b, c, la, lb, lc);
    la := Look(la.acc.(nH := Prop(1, a)), Prop(1, a), Accepting(1, 2, v, [a, b], u, []));
    lb := lb.(acc := lb.acc.(nH := Prop(1, a)));
    t := OneAccepts(s, t, a, b, c, la, lb, lc);
    la := Look(la.acc.(nA := Prop(1, a), vA := u), Prop(1, a), Idle);
    t := SecondProposal(s, t, a, b, c, w, la);
  }

  lemma SecondProposal(s: Sys, t0: Sys, a: string, b: string, c: string, w: string, la: Look) returns (t: Sys)
    requires StringLess(a, b) && a != b && b != c && a != c && w != "" && Reachable(s, t0)
    requires var v := [a, b, c];
             && Is(t0, a, la)
             && Is(t0, b, Look(StartAcc(b, v).(nH := Prop(1, a)), Prop(1, b), Preparing(0, 2, v, w, [])))
             && Is(t0, c, StartLook(c, v))
    ensures var v := [a, b, c];
            && Reachable(s, t) && Is(t, a, la)
            && b in t.nodes && t.nodes[b].acc == StartAcc(b, v).(nH := Prop(1, b), nA := Prop(1, b), vA := w)
            && c in t.nodes && t.nodes[c].acc == Commit(StartAcc(c, v), 2, w)
  {
    var v := [a, b, c];
    var lb := Look(StartAcc(b, v).(nH := Prop(1, a)), Prop(1, b), Preparing(0, 2, v, w, []));
    var lc := StartLook(c, v);
    NothingReported(b, c, v, w);
    TwoOfThree(a, b, c);
    t := ElectLastTwo(s, t0, a, b, c, la, lb, lc);
    lb := Look(lb.acc.(nH := Prop(1, b)), Prop(1, b), Accepting(0, 2, v, [b, c], w, []));
    lc := lc.(acc := lc.acc.(nH := Prop(1, b)));
    t := BothAccept(s, t, b, c, a, lb, lc, la);
    lb := Look(lb.acc.(nA := Prop(1, b), vA := w), Prop(1, b), Deciding(2, [b, c], w, 0));
    lc := lc.(acc := lc.acc.(nA := Prop(1, b), vA := w));
    t := DecideLost(s, t, b, lb, a, la, c, lc);
    t := Decided(s, t, b, c, lb.(phase := Deciding(2, [b, c], w, 1)), lc, a, la, a, la);
  }

  ghost function LookAt(s: Sys, x: string): Look
    requires x in s.nodes
  {
    Look(s.nodes[x].acc, s.nodes[x].myN, s.nodes[x].phase)
  }

  /** Of two reports of round 1 prepare keeps the first, whatever their tie-breakers. */
  lemma FirstReportWins(p: Acc, q: Acc, cv: string)
    requires p.nA.n == 1 && q.nA.n == 1 && p.vA != ""
    ensures Pick([PromiseOf(p), PromiseOf(q)], cv) == (1, p.vA)
  {
    assert [PromiseOf(p), PromiseOf(q)][..1] == [PromiseOf(p)] && [PromiseOf(p)][..0] == [];
    assert Pick([PromiseOf(p)], cv) == (1, p.vA);
  }

  /** The two values decided for instance 2 by nodes `a` and `c` differ, in an orderly run in which two
      proposals share a round: prepare compares rounds without the tie-breaker that acceptors use. */
  lemma SharedRoundSplitsDecision(a: string, b: string, c: string, u: string, w: string) returns (s: Sys, t: Sys)
    requires IsWord(a) && IsWord(b) && IsWord(c) && StringLess(a, b) && a != b && b != c && a != c && u != "" && w != ""
    ensures Init(s) && Reachable(s, t)
    ensures a in t.nodes && 2 in t.nodes[a].acc.values && t.nodes[a].acc.values[2] == u
    ensures c in t.nodes && 2 in t.nodes[c].acc.values && t.nodes[c].acc.values[2] == w
  {
    s := StartSys(a, b, c);
    StartIsInit(a, b, c);
    var t0 := FirstTwoProposals(a, b, c, u, w);
    t := ThirdProposal(s, t0, a, b, c, u, w);
  }

  lemma ThirdProposal(s: Sys, t0: Sys, a: string, b: string, c: string, u: string, w: string) returns (t: Sys)
    requires IsWord(a) && IsWord(b) && IsWord(c) && a != b && b != c && a != c && u != "" && Reachable(s, t0)
    requires var v := [a, b, c];
             && Is(t0, a, Look(StartAcc(a, v).(nH := Prop(1, a), nA := Prop(1, a), vA := u), Prop(1, a), Idle))
             && b in t0.nodes && t0.nodes[b].acc == StartAcc(b, v).(nH := Prop(1, b), nA := Prop(1, b), vA := w)
             && c in t0.nodes && t0.nodes[c].acc == Commit(StartAcc(c, v), 2, w)
    ensures Reachable(s, t)
    ensures a in t.nodes && 2 in t.nodes[a].acc.values && t.nodes[a].acc.values[2] == u
    ensures c in t.nodes && 2 in t.nodes[c].acc.values && t.nodes[c].acc.values[2] == w
  {
    var v := [a, b, c];
    var la := Look(StartAcc(a, v).(nH := Prop(1, a), nA := Prop(1, a), vA := u), Prop(1, a), Idle);
    var lb, lc := LookAt(t0, b), LookAt(t0, c);
    assert Names(v);
    MembersOfValue(v);
    assert CurrentView(la.acc) == v;
    FirstReportWins(la.acc, lb.acc, u);
    TwoOfThree(a, b, c);
    t := Begin(s, t0, a, la, u, b, lb, c, lc);
    la := Look(la.acc, Prop(2, a), Preparing(t0.nextRun, 2, v, u, []));
    t := ElectFirstTwo(s, t, a, b, c, la, lb, lc);
    la := Look(la.acc.(nH := Prop(2, a)), Prop(2, a), Accepting(t0.nextRun, 2, v, [a, b], u, []));
    lb := lb.(acc := lb.acc.(nH := Prop(2, a)));
    t := BothAccept(s, t, a, b, c, la, lb, lc);
    la := Look(la.acc.(nA := Prop(2, a)), Prop(2, a), Deciding(2, [a, b], u, 0));
    t := Decided(s, t, a, a, la, la, c, lc, c, lc);
  }

  /** The hypothesis that proposals of one round carry one value cannot be dropped from the agreement theorem. */
  lemma AgreementNeedsRounds() returns (s: Sys, t: Sys)
    ensures Init(s) && Reachable(s, t) && !Agreement(t)
  {
    assert IsWord("1") && IsWord("2") && IsWord("3") && StringLess("1", "2");
    s, t := SharedRoundSplitsDecision("1", "2", "3", "1 ", "2 ");
  }
}
