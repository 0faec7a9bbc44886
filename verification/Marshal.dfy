/**
 The wire format of arguments and replies. Types direct both ways: numbers are big-endian words, a string or a vector
 is its length and its elements, a map is the vector of its pairs in key order, a struct is its fields one after
 the other.
 */
module Marshal {
  type Byte = x: nat | x < 256
  type Bytes = seq<Byte>

  /** `Unsigned` and `Signed` have their width in bytes; structs and argument lists are nested pairs ended by `Nil`. */
  datatype Ty = Unsigned(w: nat) | Signed(w: nat) | Text | Vector(elem: Ty) | Map(entry: Ty) | Nil | Then(first: Ty,
      rest: Ty)

  datatype Val = Num(n: int) | Str(s: Bytes) | List(vs: seq<Val>) | Unit | Pair(a: Val, b: Val)

  const WORD := 0x1_0000_0000
  const INT_LIMIT := 0x8000_0000

  // ------------------------------------------------------------------------ numbers

  function Range(w: nat): (r: nat)
    ensures r > 0
  {
    if w == 0 then 1 else 256 * Range(w - 1)
  }

  lemma WordRange()
    ensures Range(4) == WORD
  {}

  function Digits(n: nat, w: nat): (r: Bytes)
    ensures |r| == w
  {
    if w == 0 then [] else Digits(n / 256, w - 1) + [n % 256]
  }

  function Value(bs: Bytes): nat {
    if bs == [] then 0 else Value(bs[..|bs| - 1]) * 256 + bs[|bs| - 1]
  }

  lemma {:induction false} DigitsBack(n: nat, w: nat)
    requires n < Range(w)
    ensures Value(Digits(n, w)) == n
  {
    if w > 0 {
      DigitsBack(n / 256, w - 1);
      assert Digits(n, w)[..w - 1] == Digits(n / 256, w - 1);
    }
  }

  function ToUnsigned(n: int, w: nat): int {
    if n < 0 then n + Range(w) else n
  }

  function ToSigned(u: nat, w: nat): int {
    if 2 * u >= Range(w) then u - Range(w) else u
  }

  // ------------------------------------------------------------------------ encoding

  /** The order of std::map keys that are numbers or strings. */
  predicate BytesLess(a: Bytes, b: Bytes) {
    if b == [] then false
    else if a == [] then true
    else a[0] < b[0] || (a[0] == b[0] && BytesLess(a[1..], b[1..]))
  }

  predicate KeyLess(a: Val, b: Val) {
    match (a, b)
    case (Num(m), Num(n)) => m < n
    case (Str(s), Str(t)) => BytesLess(s, t)
    case _ => false
  }

  predicate IsKey(ty: Ty) {
    ty.Unsigned? || ty.Signed? || ty.Text?
  }

  predicate Ordered(vs: seq<Val>) {
    && (forall i | 0 <= i < |vs| :: vs[i].Pair?)
    && (forall i, j | 0 <= i < j < |vs| :: KeyLess(vs[i].a, vs[j].a))
  }

  predicate HasType(v: Val, ty: Ty)
    decreases ty, 0
  {
    match ty
    case Unsigned(w) => v.Num? && 0 <= v.n < Range(w)
    case Signed(w) => v.Num? && 0 <= 2 * v.n + Range(w) < 2 * Range(w)
    case Text => v.Str? && |v.s| < INT_LIMIT
    case Vector(t) => v.List? && |v.vs| < WORD && AllHaveType(v.vs, t)
    case Map(t) => t.Then? && IsKey(t.first) && v.List? && |v.vs| < WORD && AllHaveType(v.vs, t) && Ordered(v.vs)
    case Nil => v.Unit?
    case Then(t, rest) => v.Pair? && HasType(v.a, t) && HasType(v.b, rest)
  }

  predicate AllHaveType(vs: seq<Val>, t: Ty)
    decreases t, |vs| + 1
  {
    vs == [] || (HasType(vs[0], t) && AllHaveType(vs[1..], t))
  }

  function Encode(v: Val, ty: Ty): Bytes
    requires HasType(v, ty)
    decreases ty, 0
  {
    match ty
    case Unsigned(w) => Digits(v.n, w)
    case Signed(w) => Digits(ToUnsigned(v.n, w), w)
    case Text => Digits(|v.s|, 4) + v.s
    case Vector(t) => Digits(|v.vs|, 4) + EncodeAll(v.vs, t)
    case Map(t) => Digits(|v.vs|, 4) + EncodeAll(v.vs, t)
    case Nil => []
    case Then(t, rest) => Encode(v.a, t) + Encode(v.b, rest)
  }

  function EncodeAll(vs: seq<Val>, t: Ty): Bytes
    requires AllHaveType(vs, t)
    decreases t, |vs| + 1
  {
    if vs == [] then [] else Encode(vs[0], t) + EncodeAll(vs[1..], t)
  }

  // ------------------------------------------------------------------------ decoding

  /** The reading position, whether everything so far was there, and whether a read went outside the buffer. */
  datatype Dec = Dec(pos: nat, ok: bool, outside: bool)

  function RawByte(buf: Bytes, d: Dec): (Byte, Dec) {
    if d.pos >= |buf| then (0, d.(ok := false)) else (buf[d.pos], d.(pos := d.pos + 1))
  }

  function RawNumber(buf: Bytes, d: Dec, w: nat): (r: (Bytes, Dec))
    ensures |r.0| == w
    decreases w
  {
    if w == 0 then ([], d)
    else
      var (b, d1) := RawByte(buf, d);
      var (bs, d2) := RawNumber(buf, d1, w - 1);
      ([b] + bs, d2)
  }

  /** The sum of two 32-bit numbers in 32 bits. */
  function Sum32(a: nat, b: nat): nat {
    if a + b >= WORD then a + b - WORD else a + b
  }

  function RawBytes(buf: Bytes, d: Dec, n: nat): (Bytes, Dec) {
    if Sum32(d.pos, n) > |buf| then ([], d.(ok := false))
    else if d.pos + n > |buf| then ([], d.(outside := true))
    else (buf[d.pos..d.pos + n], d.(pos := d.pos + n))
  }

  /** A length of `w` bytes. */
  function GetLength(buf: Bytes, d: Dec, w: nat): (nat, Dec) {
    var (bs, d1) := RawNumber(buf, d, w);
    (Value(bs), d1)
  }

  function GetText(buf: Bytes, d: Dec, w: nat): (Bytes, Dec) {
    var (n, d1) := GetLength(buf, d, w);
    if d1.ok then RawBytes(buf, d1, n) else ([], d1)
  }

  /** `d[a] = b` on the ordered pairs of a map. */
  function Put(vs: seq<Val>, a: Val, b: Val): seq<Val> {
    if vs == [] || !vs[0].Pair? then [Pair(a, b)] + vs
    else if vs[0].a == a then [Pair(a, b)] + vs[1..]
    else if KeyLess(a, vs[0].a) then [Pair(a, b)] + vs
    else [vs[0]] + Put(vs[1..], a, b)
  }

  /** The map built from the pairs read, in the order they were read. */
  function PutAll(vs: seq<Val>): seq<Val> {
    if vs == [] then []
    else
      var p := vs[|vs| - 1];
      if p.Pair? then Put(PutAll(vs[..|vs| - 1]), p.a, p.b) else PutAll(vs[..|vs| - 1])
  }

  function Decode(ty: Ty, buf: Bytes, d: Dec): (Val, Dec)
    decreases ty, 0
  {
    match ty
    case Unsigned(w) =>
      var (bs, d1) := RawNumber(buf, d, w);
      (Num(Value(bs)), d1)
    case Signed(w) =>
      var (bs, d1) := RawNumber(buf, d, w);
      (Num(ToSigned(Value(bs), w)), d1)
    case Text =>
      var (s, d1) := GetText(buf, d, 4);
      (Str(s), d1)
    case Vector(t) =>
      var (n, d1) := GetLength(buf, d, 4);
      var (vs, d2) := DecodeMany(t, buf, d1, n);
      (List(vs), d2)
    case Map(t) =>
      var (n, d1) := GetLength(buf, d, 4);
      var (vs, d2) := DecodeMany(t, buf, d1, n);
      (List(PutAll(vs)), d2)
    case Nil => (Unit, d)
    case Then(t, rest) =>
      var (a, d1) := Decode(t, buf, d);
      var (b, d2) := Decode(rest, buf, d1);
      (Pair(a, b), d2)
  }

  function DecodeMany(t: Ty, buf: Bytes, d: Dec, n: nat): (seq<Val>, Dec)
    decreases t, n + 1
  {
    if n == 0 then ([], d)
    else
      var (v, d1) := Decode(t, buf, d);
      var (vs, d2) := DecodeMany(t, buf, d1, n - 1);
      ([v] + vs, d2)
  }

  predicate OkDone(buf: Bytes, d: Dec) {
    d.ok && d.pos == |buf|
  }

  // ---------------------------------------------------------------------- round trip

  /** The bytes `bs` stand in the buffer at `pos`. */
  ghost predicate StandsAt(buf: Bytes, pos: nat, bs: Bytes) {
    pos + |bs| <= |buf| && forall i | 0 <= i < |bs| :: bs[i] == buf[pos + i]
  }

  function At(pos: nat): Dec {
    Dec(pos, true, false)
  }

  lemma StandsSplit(buf: Bytes, pos: nat, a: Bytes, b: Bytes)
    requires StandsAt(buf, pos, a + b)
    ensures StandsAt(buf, pos, a) && StandsAt(buf, pos + |a|, b)
  {
    forall i | 0 <= i < |a| ensures a[i] == buf[pos + i] { assert (a + b)[i] == a[i]; }
    forall i | 0 <= i < |b| ensures b[i] == buf[pos + |a| + i] { assert (a + b)[|a| + i] == b[i]; }
  }

  lemma {:induction false} NumberBack(buf: Bytes, pos: nat, bs: Bytes)
    requires StandsAt(buf, pos, bs)
    ensures RawNumber(buf, At(pos), |bs|) == (bs, At(pos + |bs|))
    decreases |bs|
  {
    if bs != [] {
      assert bs == [bs[0]] + bs[1..];
      StandsSplit(buf, pos, [bs[0]], bs[1..]);
      NumberBack(buf, pos + 1, bs[1..]);
    }
  }

  lemma LengthBack(buf: Bytes, pos: nat, n: nat, w: nat, rest: Bytes)
    requires n < Range(w) && StandsAt(buf, pos, Digits(n, w) + rest)
    ensures GetLength(buf, At(pos), w) == (n, At(pos + w)) && StandsAt(buf, pos + w, rest)
  {
    StandsSplit(buf, pos, Digits(n, w), rest);
    NumberBack(buf, pos, Digits(n, w));
    DigitsBack(n, w);
  }

  lemma {:induction false} BytesLessAsym(a: Bytes, b: Bytes)
    requires BytesLess(a, b)
    ensures !BytesLess(b, a) && a != b
  {
    if a != [] && a[0] == b[0] { BytesLessAsym(a[1..], b[1..]); }
  }

  lemma KeyLessAsym(a: Val, b: Val)
    requires KeyLess(a, b)
    ensures !KeyLess(b, a) && a != b
  {
    if a.Str? { BytesLessAsym(a.s, b.s); }
  }

  lemma {:induction false} PutLast(vs: seq<Val>, a: Val, b: Val)
    requires forall i | 0 <= i < |vs| :: vs[i].Pair? && KeyLess(vs[i].a, a)
    ensures Put(vs, a, b) == vs + [Pair(a, b)]
  {
    if vs != [] {
      KeyLessAsym(vs[0].a, a);
      PutLast(vs[1..], a, b);
    }
  }

  lemma {:induction false} PutAllOrdered(vs: seq<Val>)
    requires Ordered(vs)
    ensures PutAll(vs) == vs
  {
    if vs != [] {
      var k := |vs| - 1;
      var front := vs[..k];
      PutAllOrdered(front);
      assert PutAll(vs) == Put(front, vs[k].a, vs[k].b);
      PutLast(front, vs[k].a, vs[k].b);
    }
  }

  lemma SignBack(n: int, w: nat)
    requires 0 <= 2 * n + Range(w) < 2 * Range(w)
    ensures 0 <= ToUnsigned(n, w) < Range(w) && ToSigned(ToUnsigned(n, w), w) == n
  {}

  lemma UnsignedBack(buf: Bytes, pos: nat, n: nat, w: nat)
    requires n < Range(w) && StandsAt(buf, pos, Digits(n, w))
    ensures var (bs, d) := RawNumber(buf, At(pos), w); Value(bs) == n && d == At(pos + w)
  {
    NumberBack(buf, pos, Digits(n, w));
    DigitsBack(n, w);
  }

  lemma NumberRoundTrip(v: Val, ty: Ty, buf: Bytes, pos: nat)
    requires (ty.Unsigned? || ty.Signed?) && HasType(v, ty) && StandsAt(buf, pos, Encode(v, ty))
    ensures Decode(ty, buf, At(pos)) == (v, At(pos + |Encode(v, ty)|))
  {
    if ty.Signed? {
      SignBack(v.n, ty.w);
      UnsignedBack(buf, pos, ToUnsigned(v.n, ty.w), ty.w);
    } else {
      UnsignedBack(buf, pos, v.n, ty.w);
    }
  }

  lemma RawBytesBack(buf: Bytes, pos: nat, s: Bytes)
    requires StandsAt(buf, pos, s) && |buf| < INT_LIMIT
    ensures RawBytes(buf, At(pos), |s|) == (s, At(pos + |s|))
  {
    assert buf[pos..pos + |s|] == s;
  }

  lemma TextBack(buf: Bytes, pos: nat, w: nat, s: Bytes)
    requires GetLength(buf, At(pos), w) == (|s|, At(pos + w)) && StandsAt(buf, pos + w, s) && |buf| < INT_LIMIT
    ensures GetText(buf, At(pos), w) == (s, At(pos + w + |s|))
  {
    RawBytesBack(buf, pos + w, s);
  }

  lemma TextRoundTrip(v: Val, ty: Ty, buf: Bytes, pos: nat)
    requires ty.Text? && HasType(v, ty) && StandsAt(buf, pos, Encode(v, ty)) && |buf| < INT_LIMIT
    ensures Decode(ty, buf, At(pos)) == (v, At(pos + |Encode(v, ty)|))
  {
    TextStands(buf, pos, v.s);
    TextBack(buf, pos, 4, v.s);
  }

  lemma TextStands(buf: Bytes, pos: nat, s: Bytes)
    requires |s| < INT_LIMIT && StandsAt(buf, pos, Digits(|s|, 4) + s)
    ensures GetLength(buf, At(pos), 4) == (|s|, At(pos + 4)) && StandsAt(buf, pos + 4, s)
  {
    WordRange();
    LengthBack(buf, pos, |s|, 4, s);
  }

  lemma ListRoundTrip(v: Val, ty: Ty, t: Ty, buf: Bytes, pos: nat)
    requires (ty == Vector(t) || ty == Map(t)) && HasType(v, ty) && StandsAt(buf, pos, Encode(v, ty))
    requires StandsAt(buf, pos + 4, EncodeAll(v.vs, t)) ==>
               DecodeMany(t, buf, At(pos + 4), |v.vs|) == (v.vs, At(pos + 4 + |EncodeAll(v.vs, t)|))
    ensures Decode(ty, buf, At(pos)) == (v, At(pos + |Encode(v, ty)|))
  {
    WordRange();
    LengthBack(buf, pos, |v.vs|, 4, EncodeAll(v.vs, t));
    assert |Encode(v, ty)| == 4 + |EncodeAll(v.vs, t)|;
    ListFrom(v.vs, ty, t, buf, pos, pos + 4 + |EncodeAll(v.vs, t)|);
  }

  lemma ListFrom(vs: seq<Val>, ty: Ty, t: Ty, buf: Bytes, pos: nat, end: nat)
    requires ty == Vector(t) || (ty == Map(t) && Ordered(vs))
    requires GetLength(buf, At(pos), 4) == (|vs|, At(pos + 4))
    requires DecodeMany(t, buf, At(pos + 4), |vs|) == (vs, At(end))
    ensures Decode(ty, buf, At(pos)) == (List(vs), At(end))
  {
    if ty.Map? { PutAllOrdered(vs); }
  }

  /** What was encoded is decoded, wherever it stands, and the position is behind it. */
  lemma {:induction false} DecodeEncode(v: Val, ty: Ty, buf: Bytes, pos: nat)
    requires HasType(v, ty) && StandsAt(buf, pos, Encode(v, ty)) && |buf| < INT_LIMIT
    ensures Decode(ty, buf, At(pos)) == (v, At(pos + |Encode(v, ty)|))
    decreases ty, 1
  {
    if ty.Unsigned? || ty.Signed? {
      NumberRoundTrip(v, ty, buf, pos);
    } else if ty.Text? {
      TextRoundTrip(v, ty, buf, pos);
    } else if ty.Vector? {
      DecodeEncodeList(v, ty, ty.elem, buf, pos);
    } else if ty.Map? {
      DecodeEncodeList(v, ty, ty.entry, buf, pos);
    } else if ty.Then? {
      DecodeEncodePair(v, ty, buf, pos);
    }
  }

  lemma {:induction false} DecodeEncodeList(v: Val, ty: Ty, t: Ty, buf: Bytes, pos: nat)
    requires (ty == Vector(t) || ty == Map(t)) && HasType(v, ty) && StandsAt(buf, pos, Encode(v, ty))
             && |buf| < INT_LIMIT
    ensures Decode(ty, buf, At(pos)) == (v, At(pos + |Encode(v, ty)|))
    decreases ty, 0
  {
    if StandsAt(buf, pos + 4, EncodeAll(v.vs, t)) { DecodeEncodeAll(v.vs, t, buf, pos + 4); }
    ListRoundTrip(v, ty, t, buf, pos);
  }

  lemma {:induction false} DecodeEncodePair(v: Val, ty: Ty, buf: Bytes, pos: nat)
    requires ty.Then? && HasType(v, ty) && StandsAt(buf, pos, Encode(v, ty)) && |buf| < INT_LIMIT
    ensures Decode(ty, buf, At(pos)) == (v, At(pos + |Encode(v, ty)|))
    decreases ty, 0
  {
    var first := Encode(v.a, ty.first);
    StandsSplit(buf, pos, first, Encode(v.b, ty.rest));
    DecodeEncode(v.a, ty.first, buf, pos);
    DecodeEncode(v.b, ty.rest, buf, pos + |first|);
  }

  lemma {:induction false} DecodeEncodeAll(vs: seq<Val>, t: Ty, buf: Bytes, pos: nat)
    requires AllHaveType(vs, t) && StandsAt(buf, pos, EncodeAll(vs, t)) && |buf| < INT_LIMIT
    ensures DecodeMany(t, buf, At(pos), |vs|) == (vs, At(pos + |EncodeAll(vs, t)|))
    decreases t, |vs| + 1
  {
    if vs != [] {
      StandsSplit(buf, pos, Encode(vs[0], t), EncodeAll(vs[1..], t));
      DecodeEncode(vs[0], t, buf, pos);
      DecodeEncodeAll(vs[1..], t, buf, pos + |Encode(vs[0], t)|);
      assert [vs[0]] + vs[1..] == vs;
    }
  }

  // ------------------------------------------------------------- bytes that are missing

  lemma {:induction false} NumberFails(buf: Bytes, d: Dec, w: nat)
    ensures !d.ok || d.pos + w > |buf| ==> !RawNumber(buf, d, w).1.ok || w == 0
    ensures !d.ok ==> !RawNumber(buf, d, w).1.ok
    decreases w
  {
    if w > 0 { NumberFails(buf, RawByte(buf, d).1, w - 1); }
  }

  /** A failure is never forgotten. */
  lemma {:induction false} FailureStays(ty: Ty, buf: Bytes, d: Dec)
    requires !d.ok
    ensures !Decode(ty, buf, d).1.ok
    decreases ty, 0
  {
    match ty
    case Unsigned(w) => NumberFails(buf, d, w);
    case Signed(w) => NumberFails(buf, d, w);
    case Text => NumberFails(buf, d, 4);
    case Vector(t) =>
      var (n, d1) := GetLength(buf, d, 4);
      NumberFails(buf, d, 4);
      FailureStaysMany(t, buf, d1, n);
    case Map(t) =>
      var (n, d1) := GetLength(buf, d, 4);
      NumberFails(buf, d, 4);
      FailureStaysMany(t, buf, d1, n);
    case Nil =>
    case Then(t, rest) =>
      FailureStays(t, buf, d);
      FailureStays(rest, buf, Decode(t, buf, d).1);
  }

  lemma {:induction false} FailureStaysMany(t: Ty, buf: Bytes, d: Dec, n: nat)
    requires !d.ok
    ensures !DecodeMany(t, buf, d, n).1.ok
    decreases t, n + 1
  {
    if n > 0 {
      FailureStays(t, buf, d);
      FailureStaysMany(t, buf, Decode(t, buf, d).1, n - 1);
    }
  }

  /** From `pos` on the buffer has a part of `bs` and ends before it does. */
  ghost predicate CutAt(buf: Bytes, pos: nat, bs: Bytes) {
    pos <= |buf| < pos + |bs| && forall i | pos <= i < |buf| :: buf[i] == bs[i - pos]
  }

  /** Cut in the first part, or behind it. */
  lemma CutSplit(buf: Bytes, pos: nat, a: Bytes, b: Bytes)
    requires CutAt(buf, pos, a + b)
    ensures CutAt(buf, pos, a) || (StandsAt(buf, pos, a) && CutAt(buf, pos + |a|, b))
  {
    if pos + |a| <= |buf| {
      forall i | 0 <= i < |a| ensures a[i] == buf[pos + i] { assert (a + b)[i] == a[i]; }
      forall i | pos + |a| <= i < |buf| ensures buf[i] == b[i - (pos + |a|)] { assert buf[i] == (a + b)[i - pos]; }
    }
  }

  lemma LengthCut(buf: Bytes, pos: nat, n: nat, w: nat, rest: Bytes)
    requires n < Range(w) && CutAt(buf, pos, Digits(n, w) + rest)
    ensures !GetLength(buf, At(pos), w).1.ok
            || (GetLength(buf, At(pos), w) == (n, At(pos + w)) && CutAt(buf, pos + w, rest))
  {
    CutSplit(buf, pos, Digits(n, w), rest);
    NumberFails(buf, At(pos), w);
    if StandsAt(buf, pos, Digits(n, w)) { UnsignedBack(buf, pos, n, w); }
  }

  lemma RawBytesShort(buf: Bytes, pos: nat, n: nat)
    requires |buf| < pos + n < WORD
    ensures !RawBytes(buf, At(pos), n).1.ok
  {}

  lemma TextShort(buf: Bytes, pos: nat, n: nat, w: nat)
    requires !GetLength(buf, At(pos), w).1.ok || GetLength(buf, At(pos), w) == (n, At(pos + w))
    requires GetLength(buf, At(pos), w).1.ok ==> |buf| < pos + w + n < WORD
    ensures !GetText(buf, At(pos), w).1.ok
  {
    if GetLength(buf, At(pos), w).1.ok { RawBytesShort(buf, pos + w, n); }
  }

  lemma TextCut(buf: Bytes, pos: nat, s: Bytes, w: nat)
    requires |s| < Range(w) && |s| < INT_LIMIT
    requires CutAt(buf, pos, Digits(|s|, w) + s) && |buf| < INT_LIMIT
    ensures !GetText(buf, At(pos), w).1.ok
  {
    LengthCut(buf, pos, |s|, w, s);
    TextShort(buf, pos, |s|, w);
  }

  lemma LengthThenCut(v: Val, t: Ty, buf: Bytes, pos: nat, w: nat)
    requires v.List? && |v.vs| < Range(w) && AllHaveType(v.vs, t)
             && CutAt(buf, pos, Digits(|v.vs|, w) + EncodeAll(v.vs, t))
    requires CutAt(buf, pos + w, EncodeAll(v.vs, t)) ==> !DecodeMany(t, buf, At(pos + w), |v.vs|).1.ok
    ensures var (n, d1) := GetLength(buf, At(pos), w); !DecodeMany(t, buf, d1, n).1.ok
  {
    LengthCut(buf, pos, |v.vs|, w, EncodeAll(v.vs, t));
    var (n, d1) := GetLength(buf, At(pos), w);
    if !d1.ok { FailureStaysMany(t, buf, d1, n); }
  }

  /** An encoding that lost its end is noticed. */
  lemma {:induction false} DecodeCut(v: Val, ty: Ty, buf: Bytes, pos: nat)
    requires HasType(v, ty) && CutAt(buf, pos, Encode(v, ty)) && |buf| < INT_LIMIT
    ensures !Decode(ty, buf, At(pos)).1.ok
    decreases ty, 1
  {
    if ty.Unsigned? || ty.Signed? {
      NumberFails(buf, At(pos), ty.w);
    } else if ty.Text? {
      WordRange();
      TextCut(buf, pos, v.s, 4);
    } else if ty.Vector? {
      DecodeCutList(v, ty, ty.elem, buf, pos);
    } else if ty.Map? {
      DecodeCutList(v, ty, ty.entry, buf, pos);
    } else {
      DecodeCutPair(v, ty, buf, pos);
    }
  }

  lemma {:induction false} DecodeCutList(v: Val, ty: Ty, t: Ty, buf: Bytes, pos: nat)
    requires (ty == Vector(t) || ty == Map(t)) && HasType(v, ty) && CutAt(buf, pos, Encode(v, ty)) && |buf| < INT_LIMIT
    ensures !Decode(ty, buf, At(pos)).1.ok
    decreases ty, 0
  {
    if CutAt(buf, pos + 4, EncodeAll(v.vs, t)) { DecodeCutAll(v.vs, t, buf, pos + 4); }
    WordRange();
    LengthThenCut(v, t, buf, pos, 4);
  }

  lemma {:induction false} DecodeCutPair(v: Val, ty: Ty, buf: Bytes, pos: nat)
    requires ty.Then? && HasType(v, ty) && CutAt(buf, pos, Encode(v, ty)) && |buf| < INT_LIMIT
    ensures !Decode(ty, buf, At(pos)).1.ok
    decreases ty, 0
  {
    var first := Encode(v.a, ty.first);
    CutSplit(buf, pos, first, Encode(v.b, ty.rest));
    if CutAt(buf, pos, first) {
      DecodeCut(v.a, ty.first, buf, pos);
      FailureStays(ty.rest, buf, Decode(ty.first, buf, At(pos)).1);
    } else {
      DecodeEncode(v.a, ty.first, buf, pos);
      DecodeCut(v.b, ty.rest, buf, pos + |first|);
    }
  }

  lemma {:induction false} DecodeCutAll(vs: seq<Val>, t: Ty, buf: Bytes, pos: nat)
    requires AllHaveType(vs, t) && CutAt(buf, pos, EncodeAll(vs, t)) && |buf| < INT_LIMIT
    ensures !DecodeMany(t, buf, At(pos), |vs|).1.ok
    decreases t, |vs| + 1
  {
    var first, rest := Encode(vs[0], t), EncodeAll(vs[1..], t);
    CutSplit(buf, pos, first, rest);
    if CutAt(buf, pos, first) {
      DecodeCut(vs[0], t, buf, pos);
      FailureStaysMany(t, buf, Decode(t, buf, At(pos)).1, |vs| - 1);
    } else {
      DecodeEncode(vs[0], t, buf, pos);
      DecodeCutAll(vs[1..], t, buf, pos + |first|);
    }
  }

  // ----------------------------------------------------- when a read stays in the buffer

  /** The word at `p`, taken as a length, makes the sum of position and length wrap around. */
  ghost predicate WrapsAt(buf: Bytes, p: nat) {
    p + 4 <= |buf| && p + 4 + Value(buf[p..p + 4]) >= WORD
  }

  ghost predicate Wraps(buf: Bytes) {
    exists p :: WrapsAt(buf, p)
  }

  /** Nothing was read outside unless some word of the buffer wraps, and the position is in the buffer. */
  ghost predicate Confined(buf: Bytes, d: Dec) {
    Wraps(buf) || (!d.outside && d.pos <= |buf|)
  }

  /** What a number read tells: all its bytes were there if the reading is still good. */
  lemma {:induction false} NumberRead(buf: Bytes, d: Dec, w: nat)
    requires d.pos <= |buf|
    ensures var (bs, e) := RawNumber(buf, d, w);
            && e.outside == d.outside && e.pos <= |buf|
            && (e.ok ==> d.ok && e.pos == d.pos + w && bs == buf[d.pos..d.pos + w])
    decreases w
  {
    if w > 0 {
      NumberRead(buf, RawByte(buf, d).1, w - 1);
      assert d.pos + w <= |buf| ==> buf[d.pos..d.pos + w] == [buf[d.pos]] + buf[d.pos + 1..d.pos + w];
    }
  }

  lemma NumberConfined(buf: Bytes, d: Dec, w: nat)
    requires Confined(buf, d)
    ensures Confined(buf, RawNumber(buf, d, w).1)
  {
    if d.pos <= |buf| { NumberRead(buf, d, w); }
  }

  /** A string goes outside exactly if its length is there and wraps. */
  lemma TextOutside(buf: Bytes, d: Dec)
    requires !d.outside && d.pos <= |buf| < WORD
    ensures GetText(buf, d, 4).1.outside <==> d.ok && WrapsAt(buf, d.pos)
    ensures !GetText(buf, d, 4).1.outside ==> GetText(buf, d, 4).1.pos <= |buf|
  {
    var w := 4;
    NumberRead(buf, d, w);
    if d.ok && d.pos + w <= |buf| {
      var bs := buf[d.pos..d.pos + w];
      NumberBack(buf, d.pos, bs);
      WordRange();
      ValueBound(bs);
      assert d == At(d.pos);
    }
  }

  lemma {:induction false} ValueBound(bs: Bytes)
    ensures Value(bs) < Range(|bs|)
  {
    if bs != [] { ValueBound(bs[..|bs| - 1]); }
  }

  lemma TextConfined(buf: Bytes, d: Dec)
    requires Confined(buf, d) && |buf| < WORD
    ensures Confined(buf, GetText(buf, d, 4).1)
  {
    if !Wraps(buf) { TextOutside(buf, d); }
  }

  lemma {:induction false} DecodeConfined(ty: Ty, buf: Bytes, d: Dec)
    requires Confined(buf, d) && |buf| < WORD
    ensures Confined(buf, Decode(ty, buf, d).1)
    decreases ty, 0
  {
    match ty
    case Unsigned(w) => NumberConfined(buf, d, w);
    case Signed(w) => NumberConfined(buf, d, w);
    case Text => TextConfined(buf, d);
    case Vector(t) =>
      var w := 4;
      NumberConfined(buf, d, w);
      DecodeManyConfined(t, buf, GetLength(buf, d, w).1, GetLength(buf, d, w).0);
    case Map(t) =>
      var w := 4;
      NumberConfined(buf, d, w);
      DecodeManyConfined(t, buf, GetLength(buf, d, w).1, GetLength(buf, d, w).0);
    case Nil =>
    case Then(t, rest) =>
      DecodeConfined(t, buf, d);
      DecodeConfined(rest, buf, Decode(t, buf, d).1);
  }

  lemma {:induction false} DecodeManyConfined(t: Ty, buf: Bytes, d: Dec, n: nat)
    requires Confined(buf, d) && |buf| < WORD
    ensures Confined(buf, DecodeMany(t, buf, d, n).1)
    decreases t, n + 1
  {
    if n > 0 {
      DecodeConfined(t, buf, d);
      DecodeManyConfined(t, buf, Decode(t, buf, d).1, n - 1);
    }
  }

  /** Built from the number widths that the source has. */
  predicate Usable(ty: Ty) {
    match ty
    case Unsigned(w) => w in {1, 2, 4, 8}
    case Signed(w) => w in {1, 2, 4, 8}
    case Vector(t) => Usable(t)
    case Map(t) => Usable(t)
    case Then(t, rest) => Usable(t) && Usable(rest)
    case _ => true
  }

  ghost predicate OutsideFor(buf: Bytes, ty: Ty) {
    Usable(ty) && Decode(ty, buf, At(0)).1.outside
  }

  /** So many single bytes, and then a string. */
  function TextAfter(n: nat): Ty {
    if n == 0 then Text else Then(Unsigned(1), TextAfter(n - 1))
  }

  lemma {:induction false} WrapIsReached(buf: Bytes, p: nat, n: nat)
    requires |buf| < WORD && WrapsAt(buf, p) && n <= p
    ensures Usable(TextAfter(n)) && Decode(TextAfter(n), buf, At(p - n)).1.outside
  {
    if n == 0 {
      TextOutside(buf, At(p));
    } else {
      var pos := p - n;
      NumberBack(buf, pos, buf[pos..pos + 1]);
      WrapIsReached(buf, p, n - 1);
    }
  }

  /** Reading some types from received bytes goes outside the buffer exactly if they have, at some place, a word that
      as a length wraps around when the place behind it is added in 32 bits. */
  lemma OutsideExactly(buf: Bytes)
    requires |buf| < WORD
    ensures (exists ty :: OutsideFor(buf, ty)) <==> Wraps(buf)
  {
    if ty :| OutsideFor(buf, ty) { DecodeConfined(ty, buf, At(0)); }
    if p :| WrapsAt(buf, p) {
      WrapIsReached(buf, p, p);
      assert OutsideFor(buf, TextAfter(p));
    }
  }
}
