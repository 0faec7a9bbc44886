/** The buffers that messages are written into and read from, and the header in front of the arguments. */
module MarshalBuffers {
  import opened Marshal

  const SIZE_WORD := 4     // filled in by the connection
  const HEADER := 24
  const INITIAL := 1024

  const WORD_TY := Unsigned(4)
  const INT_TY := Signed(4)

  /** xid, procedure, client nonce, server nonce, acknowledged xid. */
  const REQUEST_TY := Then(INT_TY, Then(INT_TY, Then(WORD_TY, Then(WORD_TY, Then(INT_TY, Nil)))))
  /** xid, return value. */
  const REPLY_TY := Then(INT_TY, Then(INT_TY, Nil))

  lemma HeaderSizes(v: Val)
    ensures HasType(v, REQUEST_TY) ==> |Encode(v, REQUEST_TY)| == HEADER - SIZE_WORD
    ensures HasType(v, REPLY_TY) ==> |Encode(v, REPLY_TY)| == 8
  {
    if HasType(v, REQUEST_TY) {
      var v1 := v.b; var v2 := v1.b; var v3 := v2.b;
      assert |Encode(v3, Then(WORD_TY, Then(INT_TY, Nil)))| == 8;
      assert |Encode(v1, Then(INT_TY, Then(WORD_TY, Then(WORD_TY, Then(INT_TY, Nil)))))| == 16;
    }
  }

  function Overwrite(s: Bytes, pos: nat, a: Bytes): (r: Bytes)
    requires pos + |a| <= |s|
    ensures |r| == |s|
  {
    s[..pos] + a + s[pos + |a|..]
  }

  lemma OverwriteTwice(s: Bytes, pos: nat, a: Bytes, b: Bytes)
    requires pos + |a| + |b| <= |s|
    ensures Overwrite(Overwrite(s, pos, a), pos + |a|, b) == Overwrite(s, pos, a + b)
  {}

  lemma OverwriteStands(s: Bytes, pos: nat, a: Bytes)
    requires pos + |a| <= |s|
    ensures StandsAt(Overwrite(s, pos, a), pos, a)
  {}

  lemma OverwriteTake(s: Bytes, h: Bytes, n: nat)
    requires SIZE_WORD + |h| <= HEADER <= n <= |s|
    ensures Overwrite(s, SIZE_WORD, h)[..n] == Overwrite(s[..n], SIZE_WORD, h)
  {}

  function RequestVal(xid: int, op: int, clt: int, srv: int, ack: int): Val {
    Pair(Num(xid), Pair(Num(op), Pair(Num(clt), Pair(Num(srv), Pair(Num(ack), Unit)))))
  }

  function ReplyVal(xid: int, ret: int): Val {
    Pair(Num(xid), Pair(Num(ret), Unit))
  }

  function IntDigits(n: int): Bytes
    requires HasType(Num(n), INT_TY)
  {
    Digits(ToUnsigned(n, 4), 4)
  }

  lemma RequestDigits(xid: int, op: int, clt: int, srv: int, ack: int)
    requires HasType(RequestVal(xid, op, clt, srv, ack), REQUEST_TY)
    ensures Encode(RequestVal(xid, op, clt, srv, ack), REQUEST_TY)
            == IntDigits(xid) + IntDigits(op) + Digits(clt, 4) + Digits(srv, 4) + IntDigits(ack)
  {
    var v2 := Pair(Num(clt), Pair(Num(srv), Pair(Num(ack), Unit)));
    assert Encode(v2, Then(WORD_TY, Then(WORD_TY, Then(INT_TY, Nil))))
        == Digits(clt, 4) + (Digits(srv, 4) + (IntDigits(ack) + []));
  }

  class Marshall {
    var buf: array<Byte>
    var ind: nat

    predicate Valid()
      reads this
    {
      HEADER <= ind <= buf.Length
    }

    function Contents(): Bytes
      requires ind <= buf.Length
      reads this, buf
    {
      buf[..ind]
    }

    constructor ()
      ensures Valid() && ind == HEADER && fresh(buf)
    {
      buf := new Byte[INITIAL];
      ind := HEADER;
    }

    /** The realloc of both ways to grow. */
    method Grow(capa: nat)
      requires buf.Length <= capa
      modifies this`buf
      ensures fresh(buf) && buf.Length == capa && buf[..old(buf.Length)] == old(buf[..])
    {
      var b := new Byte[capa];
      forall i | 0 <= i < buf.Length { b[i] := buf[i]; }
      buf := b;
    }

    method PutByte(x: Byte)
      requires ind <= buf.Length && buf.Length > 0
      modifies this, buf
      ensures ind == old(ind) + 1 <= buf.Length && (buf == old(buf) || fresh(buf)) && buf.Length >= old(buf.Length)
      ensures old(ind) < old(buf.Length) ==> buf == old(buf) && buf[..] == old(buf[..])[old(ind) := x]
      ensures Contents() == old(Contents()) + [x]
    {
      if ind >= buf.Length { Grow(2 * buf.Length); }
      buf[ind] := x;
      ind := ind + 1;
    }

    /** The grown capacity is enough for all the bytes. */
    method PutBytes(p: Bytes)
      requires ind <= buf.Length
      modifies this, buf
      ensures ind == old(ind) + |p| <= buf.Length && (buf == old(buf) || fresh(buf)) && buf.Length >= old(buf.Length)
      ensures Contents() == old(Contents()) + p
    {
      if ind + |p| > buf.Length {
        Grow(if buf.Length > |p| then 2 * buf.Length else buf.Length + |p|);
      }
      forall i | 0 <= i < |p| { buf[ind + i] := p[i]; }
      ind := ind + |p|;
    }

    method PutNumber(n: nat, w: nat)
      requires ind <= buf.Length && buf.Length > 0
      modifies this, buf
      ensures ind == old(ind) + w <= buf.Length && (buf == old(buf) || fresh(buf)) && buf.Length >= old(buf.Length)
      ensures old(ind) + w <= old(buf.Length) ==>
                buf == old(buf) && buf[..] == old(buf[..ind]) + Digits(n, w) + old(buf[ind + w..])
      ensures Contents() == old(Contents()) + Digits(n, w)
    {
      var ds, i := Digits(n, w), 0;
      while i < w
        invariant 0 <= i <= w && ind == old(ind) + i <= buf.Length && (buf == old(buf) || fresh(buf))
        invariant buf.Length >= old(buf.Length)
        invariant old(ind) + w <= old(buf.Length) ==>
                    buf == old(buf) && buf[..] == old(buf[..ind]) + ds[..i] + old(buf[..])[old(ind) + i..]
        invariant Contents() == old(Contents()) + ds[..i]
      {
        PutByte(ds[i]);
        assert ds[..i + 1] == ds[..i] + [ds[i]];
        i := i + 1;
      }
    }
  
    /** Four bytes over what is there, behind `done` written before. */
    method OverwriteWord(n: nat, ghost s: Bytes, ghost pos: nat, ghost done: Bytes)
      requires ind + 4 <= buf.Length == |s| && ind == pos + |done| && buf[..] == Overwrite(s, pos, done)
      modifies this, buf
      ensures buf == old(buf) && ind == old(ind) + 4 && buf[..] == Overwrite(s, pos, done + Digits(n, 4))
    {
      PutNumber(n, 4);
      OverwriteTwice(s, pos, done, Digits(n, 4));
    }

    /** The header goes in front of the arguments and changes none of their bytes. */
    method PackRequestHeader(xid: int, op: int, clt: nat, srv: nat, ack: int)
      requires Valid() && HasType(RequestVal(xid, op, clt, srv, ack), REQUEST_TY)
      modifies this, buf
      ensures buf == old(buf) && ind == old(ind)
      ensures Contents() == Overwrite(old(Contents()), SIZE_WORD,
              Encode(RequestVal(xid, op, clt, srv, ack), REQUEST_TY))
    {
      var saved := ind;
      ghost var s, h := buf[..], IntDigits(xid);
      ind := SIZE_WORD;
      OverwriteWord(ToUnsigned(xid, 4), s, SIZE_WORD, []);
      assert [] + h == h;
      OverwriteWord(ToUnsigned(op, 4), s, SIZE_WORD, h);
      h := h + IntDigits(op);
      OverwriteWord(clt, s, SIZE_WORD, h);
      h := h + Digits(clt, 4);
      OverwriteWord(srv, s, SIZE_WORD, h);
      h := h + Digits(srv, 4);
      OverwriteWord(ToUnsigned(ack, 4), s, SIZE_WORD, h);
      h := h + IntDigits(ack);
      ind := saved;
      RequestDigits(xid, op, clt, srv, ack);
      OverwriteTake(s, h, ind);
    }

    method PackReplyHeader(xid: int, ret: int)
      requires Valid() && HasType(ReplyVal(xid, ret), REPLY_TY)
      modifies this, buf
      ensures buf == old(buf) && ind == old(ind)
      ensures Contents() == Overwrite(old(Contents()), SIZE_WORD, Encode(ReplyVal(xid, ret), REPLY_TY))
    {
      var saved := ind;
      ghost var s, h := buf[..], IntDigits(xid);
      ind := SIZE_WORD;
      OverwriteWord(ToUnsigned(xid, 4), s, SIZE_WORD, []);
      assert [] + h == h;
      OverwriteWord(ToUnsigned(ret, 4), s, SIZE_WORD, h);
      h := h + IntDigits(ret);
      ind := saved;
      assert Encode(ReplyVal(xid, ret), REPLY_TY) == h;
      OverwriteTake(s, h, ind);
    }

    method PutText(s: Bytes)
      requires Valid() && |s| < INT_LIMIT
      modifies this, buf
      ensures Valid() && (buf == old(buf) || fresh(buf))
      ensures Contents() == old(Contents()) + Encode(Str(s), Text)
    {
      PutNumber(|s|, 4);
      PutBytes(s);
    }

    method PutList(vs: seq<Val>, t: Ty)
      requires Valid() && AllHaveType(vs, t)
      modifies this, buf
      ensures Valid() && (buf == old(buf) || fresh(buf))
      ensures Contents() == old(Contents()) + (Digits(|vs|, 4) + EncodeAll(vs, t))
      decreases t, 3
    {
      PutNumber(|vs|, 4);
      PutAll(vs, t);
    }

    /** The operators `<<`, by type. */
    method Put(v: Val, ty: Ty)
      requires Valid() && HasType(v, ty)
      modifies this, buf
      ensures Valid() && (buf == old(buf) || fresh(buf))
      ensures Contents() == old(Contents()) + Encode(v, ty)
      decreases ty, 1
    {
      match ty
      case Unsigned(w) => PutNumber(v.n, w);
      case Signed(w) => PutNumber(ToUnsigned(v.n, w), w);
      case Text => PutText(v.s);
      case Vector(t) => PutList(v.vs, t);
      case Map(t) => PutList(v.vs, t);
      case Nil =>
      case Then(t, rest) => PutPair(v.a, t, v.b, rest);
    }

    method PutPair(a: Val, t: Ty, b: Val, rest: Ty)
      requires Valid() && HasType(a, t) && HasType(b, rest)
      modifies this, buf
      ensures Valid() && (buf == old(buf) || fresh(buf))
      ensures Contents() == old(Contents()) + (Encode(a, t) + Encode(b, rest))
      decreases Then(t, rest), 0
    {
      Put(a, t);
      Put(b, rest);
    }

    method PutAll(vs: seq<Val>, t: Ty)
      requires Valid() && AllHaveType(vs, t)
      modifies this, buf
      ensures Valid() && (buf == old(buf) || fresh(buf))
      ensures Contents() == old(Contents()) + EncodeAll(vs, t)
      decreases t, 2
    {
      var i := 0;
      while i < |vs|
        invariant 0 <= i <= |vs| && Valid() && (buf == old(buf) || fresh(buf)) && AllHaveType(vs[i..], t)
        invariant Contents() + EncodeAll(vs[i..], t) == old(Contents()) + EncodeAll(vs, t)
      {
        assert vs[i..][0] == vs[i] && vs[i..][1..] == vs[i + 1..];
        Put(vs[i], t);
        i := i + 1;
      }
    }
  }

  lemma ManyStep(vs: seq<Val>, t: Ty, buf: Bytes, d: Dec, n: nat)
    requires n > 0
    ensures var (v, d1) := Decode(t, buf, d);
            && vs + DecodeMany(t, buf, d, n).0 == vs + [v] + DecodeMany(t, buf, d1, n - 1).0
            && DecodeMany(t, buf, d, n).1 == DecodeMany(t, buf, d1, n - 1).1
  {
    var (v, d1) := Decode(t, buf, d);
    var rest := DecodeMany(t, buf, d1, n - 1).0;
    assert vs + ([v] + rest) == vs + [v] + rest;
  }

  class Unmarshall {
    const buf: Bytes
    var ind: nat
    var ok: bool
    var outside: bool

    constructor (b: Bytes)
      ensures buf == b && State() == At(0)
    {
      buf := b;
      ind, ok, outside := 0, true, false;
    }

    function State(): Dec
      reads this
    {
      Dec(ind, ok, outside)
    }

    method GetByte() returns (x: Byte)
      modifies this
      ensures (x, State()) == RawByte(buf, old(State()))
    {
      x := 0;
      if ind >= |buf| { ok := false; } else {
        x := buf[ind];
        ind := ind + 1;
      }
    }

    method GetNumber(w: nat) returns (bs: Bytes)
      modifies this
      ensures (bs, State()) == RawNumber(buf, old(State()), w)
      decreases w
    {
      if w == 0 { return []; }
      var x := GetByte();
      var rest := GetNumber(w - 1);
      bs := [x] + rest;
    }

    method GetBytes(n: nat) returns (s: Bytes)
      modifies this
      ensures (s, State()) == RawBytes(buf, old(State()), n)
    {
      s := [];
      if Sum32(ind, n) > |buf| { ok := false; }
      else if ind + n > |buf| { outside := true; }
      else {
        s := buf[ind..ind + n];
        ind := ind + n;
      }
    }

    /** The operators `>>`, by type. */
    method Get(ty: Ty) returns (v: Val)
      modifies this
      ensures (v, State()) == Decode(ty, buf, old(State()))
      decreases ty, 0
    {
      match ty
      case Unsigned(w) =>
        var bs := GetNumber(w);
        v := Num(Value(bs));
      case Signed(w) =>
        var bs := GetNumber(w);
        v := Num(ToSigned(Value(bs), w));
      case Text =>
        var bs := GetNumber(4);
        var s := [];
        if ok { s := GetBytes(Value(bs)); }
        v := Str(s);
      case Vector(t) =>
        var bs := GetNumber(4);
        var vs := GetMany(t, Value(bs));
        v := List(vs);
      case Map(t) =>
        var bs := GetNumber(4);
        if t.Then? {
          var m := GetMap(t, Value(bs));
          v := List(m);
        } else {
          var vs := GetMany(t, Value(bs));
          v := List(PutAll(vs));
        }
      case Nil => v := Unit;
      case Then(t, rest) =>
        var a := Get(t);
        var b := Get(rest);
        v := Pair(a, b);
    }

    method GetMany(t: Ty, n: nat) returns (vs: seq<Val>)
      modifies this
      ensures (vs, State()) == DecodeMany(t, buf, old(State()), n)
      decreases t, 1
    {
      vs := [];
      var i := 0;
      while i < n
        invariant 0 <= i <= n
        invariant DecodeMany(t, buf, old(State()), n).0 == vs + DecodeMany(t, buf, State(), n - i).0
        invariant DecodeMany(t, buf, old(State()), n).1 == DecodeMany(t, buf, State(), n - i).1
      {
        ghost var d := State();
        var v := Get(t);
        ManyStep(vs, t, buf, d, n - i);
        vs := vs + [v];
        i := i + 1;
      }
      assert vs + [] == vs;
    }

    method GetMap(t: Ty, n: nat) returns (m: seq<Val>)
      requires t.Then?
      modifies this
      ensures m == PutAll(DecodeMany(t, buf, old(State()), n).0) && State() == DecodeMany(t, buf, old(State()), n).1
      decreases t, 1
    {
      m := [];
      ghost var vs := [];
      var i := 0;
      while i < n
        invariant 0 <= i <= n && m == PutAll(vs)
        invariant DecodeMany(t, buf, old(State()), n).0 == vs + DecodeMany(t, buf, State(), n - i).0
        invariant DecodeMany(t, buf, old(State()), n).1 == DecodeMany(t, buf, State(), n - i).1
      {
        ghost var d := State();
        var v := Get(t);
        ManyStep(vs, t, buf, d, n - i);
        m := Marshal.Put(m, v.a, v.b);
        assert (vs + [v])[..|vs|] == vs;
        vs := vs + [v];
        i := i + 1;
      }
      assert vs + [] == vs;
    }
  }

  // ------------------------------------------------------------------ whole messages

  /** A message as sent: whatever was in the first bytes, the header over it, and the arguments. */
  function Message(junk: Bytes, h: Bytes, args: Bytes): Bytes
    requires |junk| == HEADER && SIZE_WORD + |h| <= HEADER
  {
    Overwrite(junk + args, SIZE_WORD, h)
  }

  lemma MessageParts(junk: Bytes, h: Bytes, args: Bytes)
    requires |junk| == HEADER && SIZE_WORD + |h| <= HEADER
    ensures var m := Message(junk, h, args); |m| == HEADER + |args| && StandsAt(m, SIZE_WORD, h) && m[HEADER..] == args
  {
    OverwriteStands(junk + args, SIZE_WORD, h);
  }

  /** The receiver of a message gets its header and its arguments, and has then read all of it. */
  lemma MessageRoundTrip(junk: Bytes, h: Val, hty: Ty, v: Val, ty: Ty)
    requires |junk| == HEADER && HasType(h, hty) && HasType(v, ty)
    requires HEADER + |Encode(v, ty)| < INT_LIMIT && SIZE_WORD + |Encode(h, hty)| <= HEADER
    ensures var m := Message(junk, Encode(h, hty), Encode(v, ty));
            && Decode(hty, m, At(SIZE_WORD)).0 == h && Decode(hty, m, At(SIZE_WORD)).1.ok
            && Decode(ty, m, At(HEADER)).0 == v && OkDone(m, Decode(ty, m, At(HEADER)).1)
  {
    var m := Message(junk, Encode(h, hty), Encode(v, ty));
    MessageParts(junk, Encode(h, hty), Encode(v, ty));
    DecodeEncode(h, hty, m, SIZE_WORD);
    assert StandsAt(m, HEADER, Encode(v, ty)) by { assert m[HEADER..|m|] == m[HEADER..]; }
    DecodeEncode(v, ty, m, HEADER);
  }

  /** With bytes too few or too many behind the header, it does not report a complete message. */
  lemma MessageDamaged(junk: Bytes, h: Bytes, v: Val, ty: Ty, m: Bytes)
    requires |junk| == HEADER && SIZE_WORD + |h| <= HEADER && HasType(v, ty) && HEADER <= |m| < INT_LIMIT
    requires var whole := Message(junk, h, Encode(v, ty)); m != whole && (m <= whole || whole <= m)
    ensures !OkDone(m, Decode(ty, m, At(HEADER)).1)
  {
    var whole := Message(junk, h, Encode(v, ty));
    MessageParts(junk, h, Encode(v, ty));
    if |m| < |whole| {
      assert CutAt(m, HEADER, Encode(v, ty)) by {
        assert m == whole[..|m|];
        assert m[HEADER..] == whole[HEADER..][..|m| - HEADER];
      }
      DecodeCut(v, ty, m, HEADER);
    } else {
      assert |m| > |whole| by { assert |m| == |whole| ==> m == whole; }
      assert m[HEADER..|whole|] == whole[HEADER..];
      DecodeEncode(v, ty, m, HEADER);
    }
  }

  // ---------------------------------------------------- the structs of the protocols

  datatype Prop = Prop(n: nat, m: Bytes)

  datatype Struct =
    | PrepareArg(instance: nat, prop: Prop, v: Bytes)
    | PrepareRes(oldinstance: int, accept: int, prop: Prop, v: Bytes)
    | AcceptArg(instance: nat, prop: Prop, v: Bytes)
    | DecideArg(instance: nat, v: Bytes)
    | Attr(atime: nat, mtime: nat, ctime: nat, size: nat)

  const PROP_TY := Then(WORD_TY, Then(Text, Nil))

  function StructTy(m: Struct): Ty {
    match m
    case PrepareArg(_, _, _) => Then(WORD_TY, Then(PROP_TY, Then(Text, Nil)))
    case PrepareRes(_, _, _, _) => Then(INT_TY, Then(INT_TY, Then(PROP_TY, Then(Text, Nil))))
    case AcceptArg(_, _, _) => Then(WORD_TY, Then(PROP_TY, Then(Text, Nil)))
    case DecideArg(_, _) => Then(WORD_TY, Then(Text, Nil))
    case Attr(_, _, _, _) => Then(WORD_TY, Then(WORD_TY, Then(WORD_TY, Then(WORD_TY, Nil))))
  }

  function PropVal(p: Prop): Val {
    Pair(Num(p.n), Pair(Str(p.m), Unit))
  }

  function StructVal(m: Struct): Val {
    match m
    case PrepareArg(i, p, v) => Pair(Num(i), Pair(PropVal(p), Pair(Str(v), Unit)))
    case PrepareRes(o, a, p, v) => Pair(Num(o), Pair(Num(a), Pair(PropVal(p), Pair(Str(v), Unit))))
    case AcceptArg(i, p, v) => Pair(Num(i), Pair(PropVal(p), Pair(Str(v), Unit)))
    case DecideArg(i, v) => Pair(Num(i), Pair(Str(v), Unit))
    case Attr(a, m, c, n) => Pair(Num(a), Pair(Num(m), Pair(Num(c), Pair(Num(n), Unit))))
  }

  /** No struct is mistaken for another one of its kind, not even with bytes missing at its end. */
  lemma StructsAreTold(m: Struct, k: Struct)
    requires HasType(StructVal(m), StructTy(m)) && HasType(StructVal(k), StructTy(k))
    requires m != k && ((m.PrepareArg? && k.PrepareArg?) || (m.PrepareRes? && k.PrepareRes?)
             || (m.AcceptArg? && k.AcceptArg?)
                        || (m.DecideArg? && k.DecideArg?) || (m.Attr? && k.Attr?))
    requires |Encode(StructVal(m), StructTy(m))| < INT_LIMIT && |Encode(StructVal(k), StructTy(k))| < INT_LIMIT
    ensures !(Encode(StructVal(m), StructTy(m)) <= Encode(StructVal(k), StructTy(k)))
  {
    assert StructVal(m) != StructVal(k);
    PrefixFree(StructVal(m), StructVal(k), StructTy(m));
  }

  /** No encoding is the beginning of another one of its type. */
  lemma PrefixFree(v: Val, w: Val, ty: Ty)
    requires HasType(v, ty) && HasType(w, ty) && v != w && |Encode(v, ty)| < INT_LIMIT && |Encode(w, ty)| < INT_LIMIT
    ensures !(Encode(v, ty) <= Encode(w, ty))
  {
    var a, b := Encode(v, ty), Encode(w, ty);
    if a <= b {
      DecodeEncode(v, ty, b, 0);
      assert b[0..|b|] == b;
      DecodeEncode(w, ty, b, 0);
    }
  }
}
