/**
 Messages on a stream: one end writes each message with its size in front, as much at a time as the socket takes; the
 other reads the size, then the rest in whatever pieces arrive, and hands the message on when its owner accepts it.
 */
module Framing {
  import opened Marshal

  const SIZE := 4
  const MAX_PDU := 10485760   // 10 << 20

  // ------------------------------------------------------------------------ one end

  /** The message being written; `solong` is -1 after a failure. */
  datatype Writer = Writer(busy: bool, buf: Bytes, sz: int, solong: int)

  datatype WriteResult = Wrote(n: nat) | WouldBlock | WriteFailed

  /** The size is put in front before the first byte is written. */
  function Framed(b: Bytes): (r: Bytes)
    requires |b| >= SIZE
    ensures |r| == |b| && r[..SIZE] == Digits(|b|, 4) && r[SIZE..] == b[SIZE..]
  {
    Digits(|b|, 4) + b[SIZE..]
  }

  predicate CanWrite(w: Writer, res: WriteResult) {
    && w.busy && 0 <= w.solong <= w.sz == |w.buf| && w.sz >= SIZE
    && (res.Wrote? ==> res.n <= w.sz - w.solong)
  }

  function WriteStep(w: Writer, res: WriteResult): (Writer, Bytes, bool)
    requires CanWrite(w, res)
  {
    var buf := if w.solong == 0 then Framed(w.buf) else w.buf;
    if w.solong == w.sz then (w, [], true)
    else match res
    case Wrote(n) => (w.(buf := buf, solong := w.solong + n), buf[w.solong..w.solong + n], true)
    case WouldBlock => (w.(buf := buf), [], true)
    case WriteFailed => (w.(buf := buf, solong := -1, sz := 0), [], false)
  }

  /** The message being read: `data` are the bytes so far, if there is a buffer. */
  datatype Reader = Reader(has: bool, sz: nat, data: Bytes)

  const NOTHING := Reader(false, 0, [])

  datatype ReadResult = Data(bs: Bytes) | Later | ReadFailed

  /** The size of the next message, if it was read whole and is not too big. */
  function TakeSize(res: ReadResult): (r: Reader)
    ensures r.has ==> res.Data? && |res.bs| == SIZE && r.data == res.bs && r.sz == Value(res.bs) <= MAX_PDU
    ensures !r.has ==> r == NOTHING
  {
    if res.Data? && |res.bs| == SIZE && Value(res.bs) <= MAX_PDU then Reader(true, Value(res.bs), res.bs) else NOTHING
  }

  /** `readpdu`; the reads return at most what was asked for. */
  function ReadStep(r: Reader, first: ReadResult, second: ReadResult): (Reader, bool) {
    var q := if r.sz == 0 then TakeSize(first) else r;
    if r.sz == 0 && !q.has then (NOTHING, false)
    else match second
         case Data(bs) => (q.(data := q.data + bs), true)
         case Later => (q, true)
         case ReadFailed => (NOTHING, false)
  }

  /** `read_cb` on a live connection: the reader, whether the connection lives on, and the message handed on. */
  function ReadCallback(r: Reader, first: ReadResult, second: ReadResult, accepts: bool): (Reader, bool, seq<Bytes>) {
    var (q, ok) := if !r.has || |r.data| < r.sz then ReadStep(r, first, second) else (r, true);
    if q.has && |q.data| == q.sz && accepts then (NOTHING, ok, [q.data]) else (q, ok, [])
  }

  class Connection {
    var w: Writer
    var r: Reader
    var dead: bool

    constructor ()
      ensures w == Writer(false, [], 0, 0) && r == NOTHING && !dead
    {
      w, r, dead := Writer(false, [], 0, 0), NOTHING, false;
    }

    /** send, up to the first write. */
    method Begin(b: Bytes) returns (ok: bool)
      requires !w.busy
      modifies `w
      ensures ok == !dead
      ensures w == if ok then Writer(true, b, |b|, 0) else old(w)
    {
      ok := !dead;
      if ok { w := Writer(true, b, |b|, 0); }
    }

    /** `writepdu`, with the outcome of the write and the bytes that went out. */
    method WritePdu(res: WriteResult) returns (out: Bytes, ok: bool)
      requires CanWrite(w, res)
      modifies `w
      ensures (w, out, ok) == WriteStep(old(w), res)
    {
      if w.solong == w.sz { return [], true; }
      if w.solong == 0 {
        w := w.(buf := Digits(w.sz, 4) + w.buf[SIZE..]);
      }
      out, ok := [], true;
      match res
      case Wrote(n) =>
        out := w.buf[w.solong..w.solong + n];
        w := w.(solong := w.solong + n);
      case WouldBlock =>
      case WriteFailed =>
        w := w.(solong := -1, sz := 0);
        ok := false;
    }

    /** `readpdu`, with the outcomes of its two reads. */
    method ReadPdu(first: ReadResult, second: ReadResult) returns (ok: bool)
      modifies `r
      ensures (r, ok) == ReadStep(old(r), first, second)
    {
      if r.sz == 0 {
        r := NOTHING;
        if !first.Data? || |first.bs| != SIZE { return false; }
        if Value(first.bs) > MAX_PDU { return false; }
        r := Reader(true, Value(first.bs), first.bs);
      }
      match second
      case Data(bs) =>
        r := r.(data := r.data + bs);
        ok := true;
      case Later => ok := true;
      case ReadFailed =>
        r := NOTHING;
        ok := false;
    }

    /** `read_cb`; `accepts` is what the owner answers when it is offered the message. */
    method ReadCb(first: ReadResult, second: ReadResult, accepts: bool) returns (handed: seq<Bytes>)
      modifies `r, `dead
      ensures old(dead) ==> dead && r == old(r) && handed == []
      ensures !old(dead) ==> (r, !dead, handed) == ReadCallback(old(r), first, second, accepts)
    {
      handed := [];
      if dead { return; }
      var ok := true;
      if !r.has || |r.data| < r.sz { ok := ReadPdu(first, second); }
      if !ok { dead := true; }
      if r.has && r.sz == |r.data| {
        if accepts {
          handed := [r.data];
          r := NOTHING;
        }
      }
    }
  }

  // ------------------------------------------------------------- both ends and the stream

  /** `sent` are the framed messages whose writing was begun, `wire` all bytes ever written, of which `pos` have been
      read, and `got` the messages handed on. */
  datatype Sys = Sys(w: Writer, wdead: bool, r: Reader, rdead: bool, sent: seq<Bytes>, wire: Bytes, pos: nat,
      got: seq<Bytes>)

  datatype Action =
    | Send(b: Bytes)
    | Write(res: WriteResult)
    | Sent
    | SenderDies
    | Read(first: ReadResult, second: ReadResult, accepts: bool)
    | ReceiverDies

  function BytesOf(res: ReadResult): Bytes {
    if res.Data? then res.bs else []
  }

  /** A read returns the next bytes of the stream, some but not more than asked for. */
  predicate Reads(s: Sys, pos: nat, res: ReadResult, asked: int) {
    res.Data? ==> 0 < |res.bs| <= asked && pos + |res.bs| <= |s.wire| && s.wire[pos..pos + |res.bs|] == res.bs
  }

  predicate Possible(s: Sys, act: Action) {
    match act
    case Send(b) => !s.wdead && !s.w.busy && 24 <= |b| < INT_LIMIT
    case Write(res) => !s.wdead && CanWrite(s.w, res)
    case Sent => s.w.busy && (s.wdead || s.w.solong == s.w.sz)
    case SenderDies => true
    case Read(first, second, _) =>
      && !s.rdead && s.pos <= |s.wire|
      && if s.r.has && |s.r.data| >= s.r.sz then first == second == Later
         else if s.r.sz == 0 then
           && Reads(s, s.pos, first, SIZE)
           && Reads(s, s.pos + |BytesOf(first)|, second, TakeSize(first).sz - SIZE)
           && (!TakeSize(first).has ==> second == Later)
         else first == Later && Reads(s, s.pos, second, s.r.sz - |s.r.data|)
    case ReceiverDies => true
  }

  function Apply(s: Sys, act: Action): Sys
    requires Possible(s, act)
  {
    match act
    case Send(b) => s.(w := Writer(true, b, |b|, 0), sent := s.sent + [Framed(b)])
    case Write(res) =>
      var (w, out, ok) := WriteStep(s.w, res);
      s.(w := w, wire := s.wire + out, wdead := !ok)
    case Sent => s.(w := Writer(false, [], 0, 0))
    case SenderDies => s.(wdead := true)
    case Read(first, second, accepts) =>
      var (r, ok, handed) := ReadCallback(s.r, first, second, accepts);
      s.(r := r, rdead := !ok, got := s.got + handed, pos := s.pos + |BytesOf(first)| + |BytesOf(second)|)
    case ReceiverDies => s.(rdead := true)
  }

  const START := Sys(Writer(false, [], 0, 0), false, NOTHING, false, [], [], 0, [])

  ghost predicate IsRun(s: Sys, acts: seq<Action>)
    decreases |acts|
  {
    acts == [] || (Possible(s, acts[0]) && IsRun(Apply(s, acts[0]), acts[1..]))
  }

  ghost function After(s: Sys, acts: seq<Action>): Sys
    requires IsRun(s, acts)
    decreases |acts|
  {
    if acts == [] then s else After(Apply(s, acts[0]), acts[1..])
  }

  // ------------------------------------------------------------------- the invariant

  function Flat(ps: seq<Bytes>): Bytes {
    if ps == [] then [] else ps[0] + Flat(ps[1..])
  }

  lemma {:induction false} FlatSnoc(ps: seq<Bytes>, p: Bytes)
    ensures Flat(ps + [p]) == Flat(ps) + p
  {
    if ps == [] {
      assert ps + [p] == [p] && [p][1..] == [];
    } else {
      FlatSnoc(ps[1..], p);
      assert (ps + [p])[0] == ps[0] && (ps + [p])[1..] == ps[1..] + [p];
    }
  }

  /** The stream is the messages before number `g`, that message, and the rest. */
  lemma {:induction false} FlatAt(ps: seq<Bytes>, g: nat)
    requires g < |ps|
    ensures Flat(ps) == Flat(ps[..g]) + ps[g] + Flat(ps[g + 1..])
  {
    if g == 0 {
      assert ps[..0] == [];
    } else {
      FlatAt(ps[1..], g - 1);
      assert ps[1..][..g - 1] == ps[..g][1..] && ps[1..][g..] == ps[g + 1..] && ps[..g][0] == ps[0];
    }
  }

  ghost predicate IsFrame(p: Bytes) {
    24 <= |p| < INT_LIMIT && p[..SIZE] == Digits(|p|, 4)
  }

  /** The bytes written are the messages begun, but for the rest of the last. */
  ghost predicate WriterOk(s: Sys) {
    && s.wire <= Flat(s.sent)
    && (!s.wdead ==> if s.w.busy then Writing(s) else s.wire == Flat(s.sent))
  }

  ghost predicate Writing(s: Sys) {
    && s.sent != []
    && var p := s.sent[|s.sent| - 1];
       && IsFrame(p) && 0 <= s.w.solong <= s.w.sz == |p| == |s.w.buf| && s.w.buf[SIZE..] == p[SIZE..]
           && (s.w.solong > 0 ==> s.w.buf == p)
       && s.wire == Flat(s.sent[..|s.sent| - 1]) + p[..s.w.solong]
  }

  /** The bytes read are the messages handed on and the part of the next that the reader has. */
  ghost predicate ReaderOk(s: Sys) {
    && s.got <= s.sent && s.pos <= |s.wire|
    && (!s.rdead ==>
          if s.r.has then
            && |s.got| < |s.sent|
            && var p := s.sent[|s.got|];
               s.r.sz == |p| && SIZE <= |s.r.data| && s.r.data <= p && s.pos == |Flat(s.got)| + |s.r.data|
          else s.r == NOTHING && s.pos == |Flat(s.got)|)
  }

  ghost predicate Inv(s: Sys) {
    && (forall i | 0 <= i < |s.sent| :: IsFrame(s.sent[i]))
    && WriterOk(s) && ReaderOk(s)
  }

  lemma FlatLast(ps: seq<Bytes>)
    requires ps != []
    ensures Flat(ps) == Flat(ps[..|ps| - 1]) + ps[|ps| - 1]
  {
    FlatSnoc(ps[..|ps| - 1], ps[|ps| - 1]);
    assert ps == ps[..|ps| - 1] + [ps[|ps| - 1]];
  }

  lemma StepSend(s: Sys, b: Bytes)
    requires Inv(s) && Possible(s, Send(b))
    ensures Inv(Apply(s, Send(b)))
  {
    var t := Apply(s, Send(b));
    FlatSnoc(s.sent, Framed(b));
    assert t.sent[..|t.sent| - 1] == s.sent;
    assert s.wire + Framed(b)[..0] == s.wire;
    assert Writing(t);
  }

  lemma FramedIs(b: Bytes, p: Bytes)
    requires |b| == |p| && IsFrame(p) && b[SIZE..] == p[SIZE..]
    ensures Framed(b) == p
  {
    assert p == p[..SIZE] + p[SIZE..];
  }

  lemma WroteOk(s: Sys, n: nat)
    requires Writing(s) && CanWrite(s.w, Wrote(n))
    ensures var (w, out, ok) := WriteStep(s.w, Wrote(n)); Writing(s.(w := w, wire := s.wire + out))
  {
    var p, k := s.sent[|s.sent| - 1], s.w.solong;
    if k == 0 { FramedIs(s.w.buf, p); }
    var before := Flat(s.sent[..|s.sent| - 1]);
    assert before + p[..k] + p[k..k + n] == before + p[..k + n];
  }

  lemma FramedBuffer(s: Sys, res: WriteResult)
    requires Writing(s) && CanWrite(s.w, res) && res.WouldBlock?
    ensures Writing(s.(w := WriteStep(s.w, res).0))
  {}

  lemma WritingPrefix(s: Sys)
    requires Writing(s)
    ensures s.wire <= Flat(s.sent)
  {
    FlatLast(s.sent);
  }

  lemma StepWrite(s: Sys, res: WriteResult)
    requires Inv(s) && Possible(s, Write(res))
    ensures Inv(Apply(s, Write(res)))
  {
    var t := Apply(s, Write(res));
    match res
    case Wrote(n) =>
      WroteOk(s, n);
      assert Writing(t);
      WritingPrefix(t);
    case WouldBlock =>
      FramedBuffer(s, res);
      assert t.wire == s.wire;
    case WriteFailed => assert t.wire == s.wire;
  }

  lemma StepSent(s: Sys)
    requires Inv(s) && Possible(s, Sent)
    ensures Inv(Apply(s, Sent))
  {
    if !s.wdead {
      FlatLast(s.sent);
      var p := s.sent[|s.sent| - 1];
      assert p[..|p|] == p;
    }
  }

  /** What the stream has at a place inside message `g`. */
  lemma NextBytes(s: Sys, g: nat, off: nat, k: nat)
    requires s.wire <= Flat(s.sent) && g <= |s.sent| && k > 0
    requires var pos := |Flat(s.sent[..g])| + off; pos + k <= |s.wire|
    requires off == 0 || g < |s.sent|
    ensures g < |s.sent|
    ensures off + k <= |s.sent[g]| ==>
              s.wire[|Flat(s.sent[..g])| + off..|Flat(s.sent[..g])| + off + k] == s.sent[g][off..off + k]
  {
    assert s.sent[..|s.sent|] == s.sent;
    if g < |s.sent| {
      FlatAt(s.sent, g);
      var before, p, rest := Flat(s.sent[..g]), s.sent[g], Flat(s.sent[g + 1..]);
      if off + k <= |p| {
        assert s.wire[|before| + off..|before| + off + k] == (before + p + rest)[|before| + off..|before| + off + k];
      }
    }
  }

  lemma SizeOf(p: Bytes)
    requires IsFrame(p)
    ensures Value(p[..SIZE]) == |p|
  {
    WordRange();
    DigitsBack(|p|, 4);
  }

  /** The reader has read `r.data` of message number `|got|`. */
  ghost predicate Reading(s: Sys, r: Reader, pos: nat) {
    && |s.got| < |s.sent|
    && var p := s.sent[|s.got|];
       r.has && r.sz == |p| && SIZE <= |r.data| && r.data <= p && pos == |Flat(s.got)| + |r.data|
  }

  lemma SizeRead(s: Sys, first: ReadResult)
    requires Inv(s) && !s.rdead && s.r == NOTHING && Reads(s, s.pos, first, SIZE) && TakeSize(first).has
    ensures Reading(s, TakeSize(first), s.pos + SIZE)
  {
    var g := |s.got|;
    assert s.got == s.sent[..g];
    NextBytes(s, g, 0, SIZE);
    assert IsFrame(s.sent[g]);
    SizeOf(s.sent[g]);
  }

  lemma MoreRead(s: Sys, r: Reader, pos: nat, bs: Bytes)
    requires Inv(s) && !s.rdead && Reading(s, r, pos) && Reads(s, pos, Data(bs), r.sz - |r.data|)
    ensures Reading(s, r.(data := r.data + bs), pos + |bs|)
  {
    var g := |s.got|;
    var p := s.sent[g];
    assert s.got == s.sent[..g];
    NextBytes(s, g, |r.data|, |bs|);
    assert p[..|r.data|] + p[|r.data|..|r.data| + |bs|] == p[..|r.data| + |bs|];
  }

  /** The reader offers what it has, if complete, and starts anew if that is accepted. */
  lemma Offered(s: Sys, r: Reader, pos: nat, accepts: bool)
    requires Inv(s) && Reading(s, r, pos) && pos <= |s.wire|
    ensures Inv(Offer(s, r, pos, accepts))
  {
    var p := s.sent[|s.got|];
    assert s.got + [] == s.got;
    if |r.data| == r.sz {
      assert r.data == p;
      FlatSnoc(s.got, p);
      assert s.got + [p] <= s.sent;
    }
  }

  function Offer(s: Sys, r: Reader, pos: nat, accepts: bool): Sys {
    var done := r.has && |r.data| == r.sz && accepts;
    s.(r := if done then NOTHING else r, rdead := false, got := s.got + (if done then [r.data] else []), pos := pos)
  }

  /** A callback in which the connection stays alive is an offer of what the reader has then. */
  lemma CallbackOffers(s: Sys, first: ReadResult, second: ReadResult, accepts: bool, r: Reader)
    requires Possible(s, Read(first, second, accepts)) && r.has
    requires if !s.r.has || |s.r.data| < s.r.sz then ReadStep(s.r, first, second) == (r, true) else r == s.r
    ensures Apply(s, Read(first, second, accepts)) == Offer(s, r, s.pos + |BytesOf(first)| + |BytesOf(second)|, accepts)
  {}

  lemma CallbackFails(s: Sys, first: ReadResult, second: ReadResult, accepts: bool)
    requires Inv(s) && Possible(s, Read(first, second, accepts)) && (!s.r.has || |s.r.data| < s.r.sz)
    requires !ReadStep(s.r, first, second).1 && !ReadStep(s.r, first, second).0.has
    ensures Inv(Apply(s, Read(first, second, accepts)))
  {
    assert s.got + [] == s.got;
  }

  lemma ReadStepMore(r: Reader, second: ReadResult)
    requires r.sz > 0 && !second.ReadFailed?
    ensures ReadStep(r, Later, second) == (r.(data := r.data + BytesOf(second)), true)
  {
    assert r.data + [] == r.data;
  }

  lemma ReadStepFirst(first: ReadResult, second: ReadResult)
    requires TakeSize(first).has && !second.ReadFailed?
    ensures var q := TakeSize(first); ReadStep(NOTHING, first, second) == (q.(data := q.data + BytesOf(second)), true)
  {
    assert TakeSize(first).data + [] == TakeSize(first).data;
  }

  lemma MoreOrSame(s: Sys, r: Reader, pos: nat, second: ReadResult)
    requires Inv(s) && !s.rdead && Reading(s, r, pos) && Reads(s, pos, second, r.sz - |r.data|)
    ensures Reading(s, r.(data := r.data + BytesOf(second)), pos + |BytesOf(second)|)
  {
    if second.Data? { MoreRead(s, r, pos, second.bs); } else { assert r.data + [] == r.data; }
  }

  /** What the reader has after a callback. */
  ghost predicate Has(s: Sys, first: ReadResult, second: ReadResult, r: Reader, pos: nat) {
    && ReadStep(s.r, first, second) == (r, true) && Reading(s, r, pos)
    && pos == s.pos + |BytesOf(first)| + |BytesOf(second)| <= |s.wire|
  }

  lemma FromHas(s: Sys, first: ReadResult, second: ReadResult, accepts: bool, r: Reader, pos: nat)
    requires Inv(s) && Possible(s, Read(first, second, accepts)) && (!s.r.has || |s.r.data| < s.r.sz)
    requires Has(s, first, second, r, pos)
    ensures Inv(Apply(s, Read(first, second, accepts)))
  {
    assert Inv(Offer(s, r, pos, accepts)) by { Offered(s, r, pos, accepts); }
    assert Apply(s, Read(first, second, accepts)) == Offer(s, r, pos, accepts) by {
      CallbackOffers(s, first, second, accepts, r);
    }
  }

  lemma MoreHas(s: Sys, second: ReadResult, accepts: bool)
    requires Inv(s) && Possible(s, Read(Later, second, accepts)) && s.r.has && |s.r.data| < s.r.sz
             && !second.ReadFailed?
    ensures Has(s, Later, second, s.r.(data := s.r.data + BytesOf(second)), s.pos + |BytesOf(second)|)
  {
    MoreOrSame(s, s.r, s.pos, second);
    ReadStepMore(s.r, second);
  }

  lemma FirstHas(s: Sys, first: ReadResult, second: ReadResult, accepts: bool)
    requires Inv(s) && Possible(s, Read(first, second, accepts)) && !s.r.has && TakeSize(first).has
             && !second.ReadFailed?
    ensures var q := TakeSize(first);
            Has(s, first, second, q.(data := q.data + BytesOf(second)), s.pos + SIZE + |BytesOf(second)|)
  {
    SizeRead(s, first);
    MoreOrSame(s, TakeSize(first), s.pos + SIZE, second);
    ReadStepFirst(first, second);
  }

  lemma StepMore(s: Sys, second: ReadResult, accepts: bool)
    requires Inv(s) && Possible(s, Read(Later, second, accepts)) && s.r.has && |s.r.data| < s.r.sz
    ensures Inv(Apply(s, Read(Later, second, accepts)))
  {
    if second.ReadFailed? {
      CallbackFails(s, Later, second, accepts);
    } else {
      MoreHas(s, second, accepts);
      FromHas(s, Later, second, accepts, s.r.(data := s.r.data + BytesOf(second)), s.pos + |BytesOf(second)|);
    }
  }

  lemma StepFirst(s: Sys, first: ReadResult, second: ReadResult, accepts: bool)
    requires Inv(s) && Possible(s, Read(first, second, accepts)) && !s.r.has
    ensures Inv(Apply(s, Read(first, second, accepts)))
  {
    var q := TakeSize(first);
    if !q.has || second.ReadFailed? {
      CallbackFails(s, first, second, accepts);
    } else {
      FirstHas(s, first, second, accepts);
      FromHas(s, first, second, accepts, q.(data := q.data + BytesOf(second)), s.pos + SIZE + |BytesOf(second)|);
    }
  }

  lemma StepRead(s: Sys, first: ReadResult, second: ReadResult, accepts: bool)
    requires Inv(s) && Possible(s, Read(first, second, accepts))
    ensures Inv(Apply(s, Read(first, second, accepts)))
  {
    if !s.r.has {
      StepFirst(s, first, second, accepts);
    } else if |s.r.data| < s.r.sz {
      StepMore(s, second, accepts);
    } else {
      StepOffer(s, accepts);
    }
  }

  lemma StepOffer(s: Sys, accepts: bool)
    requires Inv(s) && Possible(s, Read(Later, Later, accepts)) && s.r.has && |s.r.data| == s.r.sz
    ensures Inv(Apply(s, Read(Later, Later, accepts)))
  {
    assert Inv(Offer(s, s.r, s.pos, accepts)) by { Offered(s, s.r, s.pos, accepts); }
    assert Apply(s, Read(Later, Later, accepts)) == Offer(s, s.r, s.pos,
        accepts) by { CallbackOffers(s, Later, Later, accepts, s.r); }
  }

  lemma StepKeeps(s: Sys, act: Action)
    requires Inv(s) && Possible(s, act)
    ensures Inv(Apply(s, act))
  {
    match act
    case Send(b) => StepSend(s, b);
    case Write(res) => StepWrite(s, res);
    case Sent => StepSent(s);
    case SenderDies =>
    case Read(first, second, accepts) => StepRead(s, first, second, accepts);
    case ReceiverDies =>
  }

  lemma {:induction false} RunKeeps(s: Sys, acts: seq<Action>)
    requires Inv(s) && IsRun(s, acts)
    ensures Inv(After(s, acts))
    decreases |acts|
  {
    if acts != [] {
      StepKeeps(s, acts[0]);
      RunKeeps(Apply(s, acts[0]), acts[1..]);
    }
  }

  /** However the writes are cut short, the reads come in pieces and messages are refused, and wherever either end
      dies: the messages handed on are the first of those sent, in order, each once and byte for byte. */
  lemma DeliveredInOrder(acts: seq<Action>)
    requires IsRun(START, acts)
    ensures var s := After(START, acts); s.got <= s.sent
  {
    RunKeeps(START, acts);
  }

  /** And none is lost on a live connection: once everything written was read, all were handed on, but for one that
      the reader still offers. */
  lemma NothingLost(acts: seq<Action>)
    requires IsRun(START, acts)
    ensures var s := After(START, acts);
            !s.rdead && s.pos == |Flat(s.sent)| ==>
              s.got == s.sent || (s.r.has && |s.r.data| == s.r.sz && s.sent == s.got + [s.r.data])
  {
    RunKeeps(START, acts);
    var s := After(START, acts);
    if !s.rdead && s.pos == |Flat(s.sent)| {
      AllRead(s);
    }
  }

  lemma NoBytesNoMessages(ps: seq<Bytes>)
    requires forall i | 0 <= i < |ps| :: IsFrame(ps[i])
    ensures Flat(ps) == [] ==> ps == []
  {}

  lemma AllRead(s: Sys)
    requires Inv(s) && !s.rdead && s.pos == |Flat(s.sent)|
    ensures s.got == s.sent || (s.r.has && |s.r.data| == s.r.sz && s.sent == s.got + [s.r.data])
  {
    var g := |s.got|;
    assert s.got == s.sent[..g];
    if g < |s.sent| {
      var p := s.sent[g];
      FlatAt(s.sent, g);
      assert |Flat(s.sent)| == |Flat(s.got)| + |p| + |Flat(s.sent[g + 1..])|;
      assert IsFrame(p);
      NoBytesNoMessages(s.sent[g + 1..]);
      assert |s.r.data| == |p| && s.r.data == p;
      assert s.sent == s.got + [p];
    }
  }
}
