/**
 All nodes of a Paxos system together. Every message ever sent stays in the network, and any
 message in the network may be delivered any number of times and in any order, or never: this is a
 network that loses, duplicates and reorders. A node may crash at any point and restarts from its log.
 The members of the view decided by instance i vote on instance i + 1.
 */
module PaxosSystem {
  import opened Text
  import opened Views
  import opened PaxosLog
  import opened PaxosNode

  /** What the proposer of a node is doing. `run` identifies one call of proposer::run. */
  datatype Phase =
    | Idle
    | Preparing(run: nat, inst: nat, view: View, cv: string, outs: seq<Outcome>)
    | Accepting(run: nat, inst: nat, view: View, nodes1: View, v: string, oks: seq<bool>)
    | Deciding(inst: nat, accepts: View, v: string, sent: nat)

  datatype Node = Node(acc: Acc, log: seq<Record>, myN: Prop, phase: Phase)

  datatype Msg =
    | PrepReq(dst: string, run: nat, inst: nat, n: Prop)
    | PrepRep(src: string, run: nat, inst: nat, n: Prop, res: PrepRes)
    | AccReq(dst: string, inst: nat, n: Prop, v: string)
    | AccRep(src: string, inst: nat, n: Prop, v: string, ok: bool)
    | DecReq(dst: string, inst: nat, v: string)

  /** History: a proposer entered its accept phase, and on what grounds. */
  datatype Entry = Entry(run: nat, who: string, inst: nat, n: Prop, v: string, view: View, cv: string,
      outs: seq<Outcome>)

  /** `base` is the history of views every node starts from. */
  datatype Sys = Sys(nodes: map<string, Node>, net: set<Msg>, entries: set<Entry>, nextRun: nat, base: seq<string>)

  datatype Action =
    | Start(x: string, cv: string)
    | SendPrepare(x: string)
    | PrepareFails(x: string)
    | PrepareReply(x: string, res: PrepRes)
    | EndPrepare(x: string)
    | SendAccept(x: string)
    | AcceptFails(x: string)
    | AcceptReply(x: string, ok: bool)
    | EndAccept(x: string)
    | SendDecide(x: string)
    | EndDecide(x: string)
    | DeliverPrepare(run: nat, x: string, inst: nat, n: Prop)
    | DeliverAccept(x: string, inst: nat, n: Prop, v: string)
    | DeliverDecide(x: string, inst: nat, v: string)
    | Crash(x: string, myN: nat)

  // --------------------------------------------------------------------- start

  function BaseValues(base: seq<string>): (r: map<nat, string>)
    ensures forall i :: i in r <==> 1 <= i <= |base|
    ensures forall i | i in r :: r[i] == base[i - 1]
  {
    if base == [] then map[] else BaseValues(base[..|base| - 1])[|base| := base[|base| - 1]]
  }

  function BaseLog(base: seq<string>): seq<Record> {
    seq(|base|, i requires 0 <= i < |base| => Done(i + 1, base[i]))
  }

  ghost predicate Init(s: Sys) {
    && s.net == {} && s.entries == {}
    && forall x | x in s.nodes ::
         && s.nodes[x].acc == Acc(x, |s.base|, Prop(0, x), Prop(0, x), "", BaseValues(s.base))
         && s.nodes[x].log == BaseLog(s.base)
         && s.nodes[x].phase.Idle?
  }

  // --------------------------------------------------------------------- steps

  function SetNode(s: Sys, x: string, d: Node): Sys {
    s.(nodes := s.nodes[x := d])
  }

  function SetPhase(s: Sys, x: string, p: Phase): Sys
    requires x in s.nodes
  {
    SetNode(s, x, s.nodes[x].(phase := p))
  }

  function Send(s: Sys, m: Msg): Sys {
    s.(net := s.net + {m})
  }

  /** The nodes that vote on the instance after the last one this node has decided. */
  function CurrentView(a: Acc): View {
    Words(ValueAt(a, a.instanceH))
  }

  function Committed(d: Node, inst: nat, v: string): Node {
    d.(acc := Commit(d.acc, inst, v), log := d.log + CommitLog(d.acc, inst, v))
  }

  /** What the code allows. */
  predicate Possible(s: Sys, act: Action) {
    && act.x in s.nodes
    && var d := s.nodes[act.x];
       var p := d.phase;
       match act
       case Start(_, _) => p.Idle?
       case SendPrepare(_) => p.Preparing? && |p.outs| < |p.view|
       case PrepareFails(_) => p.Preparing? && |p.outs| < |p.view|
       case PrepareReply(_, res) =>
         p.Preparing? && |p.outs| < |p.view| && PrepRep(p.view[|p.outs|], p.run, p.inst, d.myN, res) in s.net
       case EndPrepare(_) => p.Preparing? && |p.outs| == |p.view|
       case SendAccept(_) => p.Accepting? && |p.oks| < |p.nodes1|
       case AcceptFails(_) => p.Accepting? && |p.oks| < |p.nodes1|
       case AcceptReply(_, ok) =>
         p.Accepting? && |p.oks| < |p.nodes1| && AccRep(p.nodes1[|p.oks|], p.inst, d.myN, p.v, ok) in s.net
       case EndAccept(_) => p.Accepting? && |p.oks| == |p.nodes1|
       case SendDecide(_) => p.Deciding? && p.sent < |p.accepts|
       case EndDecide(_) => p.Deciding? && p.sent == |p.accepts|
       case DeliverPrepare(run, x, inst, n) => PrepReq(x, run, inst, n) in s.net
       case DeliverAccept(x, inst, n, v) => AccReq(x, inst, n, v) in s.net
       case DeliverDecide(x, inst, v) => DecReq(x, inst, v) in s.net
       case Crash(_, _) => true
  }

  /** The hypotheses on a run: proposed values are not empty, and a node handles only requests for the
      instance it is about to decide or for instances it has decided. */
  predicate Orderly(s: Sys, act: Action)
    requires Possible(s, act)
  {
    match act
    case Start(_, cv) => cv != ""
    case DeliverPrepare(_, x, inst, _) => inst <= s.nodes[x].acc.instanceH + 1
    case DeliverAccept(x, inst, _, _) => inst <= s.nodes[x].acc.instanceH + 1
    case DeliverDecide(x, inst, _) => inst <= s.nodes[x].acc.instanceH + 1
    case _ => true
  }

  function Apply(s: Sys, act: Action): Sys
    requires Possible(s, act)
  {
    var x := act.x;
    var d := s.nodes[x];
    var p := d.phase;
    match act
    case Start(_, cv) =>
      SetNode(s, x, d.(myN := Prop(NextRound(d.acc.nH, d.myN.n), x),
                       phase := Preparing(s.nextRun, d.acc.instanceH + 1, CurrentView(d.acc), cv, [])))
      .(nextRun := s.nextRun + 1)
    case SendPrepare(_) => Send(s, PrepReq(p.view[|p.outs|], p.run, p.inst, d.myN))
    case PrepareFails(_) => SetPhase(s, x, p.(outs := p.outs + [Failed]))
    case PrepareReply(_, res) =>
      if res.oldInstance then SetNode(s, x, Committed(d, p.inst, res.vA).(phase := Idle))
      else if res.accept then SetPhase(s, x, p.(outs := p.outs + [Got(res)]))
      else SetPhase(s, x, Idle)
    case EndPrepare(_) =>
      var accepts := Promisers(p.view, p.outs);
      if !IsMajority(p.view, accepts) then SetPhase(s, x, Idle)
      else
        var picked := Pick(p.outs, p.cv).1;
        var v := if picked == "" then p.cv else picked;
        SetPhase(s, x, Accepting(p.run, p.inst, p.view, accepts, v, []))
        .(entries := s.entries + {Entry(p.run, x, p.inst, d.myN, v, p.view, p.cv, p.outs)})
    case SendAccept(_) => Send(s, AccReq(p.nodes1[|p.oks|], p.inst, d.myN, p.v))
    case AcceptFails(_) => SetPhase(s, x, p.(oks := p.oks + [false]))
    case AcceptReply(_, ok) => SetPhase(s, x, p.(oks := p.oks + [ok]))
    case EndAccept(_) =>
      var accepts := Accepters(p.nodes1, p.oks);
      SetPhase(s, x, if IsMajority(p.view, accepts) then Deciding(p.inst, accepts, p.v, 0) else Idle)
    case SendDecide(_) => Send(SetPhase(s, x, p.(sent := p.sent + 1)), DecReq(p.accepts[p.sent], p.inst, p.v))
    case EndDecide(_) => SetPhase(s, x, Idle)
    case DeliverPrepare(run, _, inst, n) =>
      Send(SetNode(s, x, d.(acc := OnPrepare(d.acc, inst, n).0, log := d.log + PrepareLog(d.acc, inst, n))),
           PrepRep(x, run, inst, n, OnPrepare(d.acc, inst, n).1))
    case DeliverAccept(_, inst, n, v) =>
      Send(SetNode(s, x, d.(acc := OnAccept(d.acc, inst, n, v).0, log := d.log + AcceptLog(d.acc, inst, n, v))),
           AccRep(x, inst, n, v, OnAccept(d.acc, inst, n, v).1))
    case DeliverDecide(_, inst, v) => SetNode(s, x, Committed(d, inst, v))
    case Crash(_, myN) => SetNode(s, x, Node(Replay(x, d.log), d.log, Prop(myN, x), Idle))
  }

  // ---------------------------------------------------------------------- runs

  /** Every action is possible where it is taken. */
  ghost predicate PossibleRun(s: Sys, acts: seq<Action>)
    decreases |acts|
  {
    acts == [] || (Possible(s, acts[0]) && PossibleRun(Apply(s, acts[0]), acts[1..]))
  }

  ghost predicate OrderlyRun(s: Sys, acts: seq<Action>)
    requires PossibleRun(s, acts)
    decreases |acts|
  {
    acts == [] || (Orderly(s, acts[0]) && OrderlyRun(Apply(s, acts[0]), acts[1..]))
  }

  ghost function After(s: Sys, acts: seq<Action>): Sys
    requires PossibleRun(s, acts)
    decreases |acts|
  {
    if acts == [] then s else After(Apply(s, acts[0]), acts[1..])
  }

  // ------------------------------------------------------------------- vocabulary

  /** No two nodes have committed different values for an instance. */
  ghost predicate Agreement(s: Sys) {
    forall x, y, i: nat | x in s.nodes && y in s.nodes && i in s.nodes[x].acc.values && i in s.nodes[y].acc.values ::
      s.nodes[x].acc.values[i] == s.nodes[y].acc.values[i]
  }

  /** Proposals of one instance that share a round number carry one value. */
  ghost predicate RoundsCarryOneValue(s: Sys) {
    forall e, f | e in s.entries && f in s.entries && e.inst == f.inst && e.n.n == f.n.n :: e.v == f.v
  }

  /** Different proposals of one instance have different round numbers. */
  ghost predicate RoundsDistinct(s: Sys) {
    forall e, f | e in s.entries && f in s.entries && e.inst == f.inst && e.n.n == f.n.n :: e == f
  }
}
