/** Files: the bytes of a file are one string, read, written and resized whole under the lock of the file. */
module FileBytes {

  const ZERO: char := '\0'

  function Zeros(n: nat): (r: string)
    ensures |r| == n && forall i | 0 <= i < n :: r[i] == ZERO
  {
    if n == 0 then "" else Zeros(n - 1) + [ZERO]
  }

  /** std::string::resize with zero bytes. */
  function Resized(s: string, n: nat): (r: string)
    ensures |r| == n
  {
    if n <= |s| then s[..n] else s + Zeros(n - |s|)
  }

  /** memcpy into the middle. */
  function Patched(s: string, off: nat, data: string): (r: string)
    requires off + |data| <= |s|
    ensures |r| == |s|
  {
    s[..off] + data + s[off + |data|..]
  }

  // ---------------------------------------------------------- the operations of the client

  method SetSize(buf: string, size: nat) returns (out: string)
    ensures out == Resized(buf, size)
    ensures |out| == size && forall i | 0 <= i < size :: out[i] == if i < |buf| then buf[i] else ZERO
  {
    if size > |buf| { out := buf + Zeros(size - |buf|); } else { out := buf[..size]; }
  }

  method Write(file: string, data: string, off: nat) returns (out: string, written: nat)
    ensures out == Patched(if off + |data| > |file| then Resized(file, off + |data|) else file, off, data)
    ensures written == |data|
    ensures |out| == if off + |data| > |file| then off + |data| else |file|
    ensures forall i | 0 <= i < |out| ::
              out[i] == if off <= i < off + |data| then data[i - off] else if i < |file| then file[i] else ZERO
  {
    out := file;
    if off + |data| > |out| { out := Resized(out, off + |data|); }
    out := out[..off] + data + out[off + |data|..];
    written := |data|;
  }

  method Read(file: string, size: nat, off: nat) returns (out: string)
    ensures out == Part(file, size, off)
    ensures |out| == if off >= |file| then 0 else if off + size > |file| then |file| - off else size
    ensures forall k | 0 <= k < |out| :: out[k] == file[off + k]
  {
    if off >= |file| { return ""; }
    var n := size;
    if off + n > |file| { n := |file| - off; }
    out := file[off..off + n];
  }

  function Part(s: string, size: nat, off: nat): string {
    if off >= |s| then "" else if off + size > |s| then s[off..] else s[off..off + size]
  }

  // ------------------------------------------------------------- a file as a sparse map

  /** Only the bytes that were written are there; the others below the size are zero. */
  datatype Sparse = Sparse(size: nat, bytes: map<nat, char>)

  function ByteAt(f: Sparse, i: nat): char {
    if i in f.bytes then f.bytes[i] else ZERO
  }

  ghost predicate Means(s: string, f: Sparse) {
    && |s| == f.size
    && (forall i | i in f.bytes :: i < f.size)
    && (forall i | 0 <= i < f.size :: s[i] == ByteAt(f, i))
  }

  /** Size changes forget what lies behind the new end. */
  function SparseResize(f: Sparse, n: nat): Sparse {
    Sparse(n, map i | i in f.bytes && i < n :: f.bytes[i])
  }

  /** Each byte at its place. */
  function PutBytes(m: map<nat, char>, off: nat, data: string): (r: map<nat, char>)
    ensures forall i: nat :: i in r <==> i in m || off <= i < off + |data|
    ensures forall i: nat | i in r :: r[i] == if off <= i < off + |data| then data[i - off] else m[i]
    decreases |data|
  {
    if data == "" then m else PutBytes(m[off := data[0]], off + 1, data[1..])
  }

  function SparseWrite(f: Sparse, off: nat, data: string): Sparse {
    Sparse(if off + |data| > f.size then off + |data| else f.size, PutBytes(f.bytes, off, data))
  }

  datatype Op = Resize(n: nat) | Put(off: nat, data: string) | Get(off: nat, size: nat)

  /** The new contents and what is read. */
  function Do(s: string, op: Op): (string, string) {
    match op
    case Resize(n) => (Resized(s, n), "")
    case Put(off, data) => (Patched(if off + |data| > |s| then Resized(s, off + |data|) else s, off, data), "")
    case Get(off, size) => (s, Part(s, size, off))
  }

  function SparseDo(f: Sparse, op: Op): Sparse {
    match op
    case Resize(n) => SparseResize(f, n)
    case Put(off, data) => SparseWrite(f, off, data)
    case Get(_, _) => f
  }

  /** What a read gives, byte by byte. */
  ghost predicate ReadsFrom(r: string, f: Sparse, off: nat, size: nat) {
    && |r| == (if off >= f.size then 0 else if off + size > f.size then f.size - off else size)
    && forall k | 0 <= k < |r| :: r[k] == ByteAt(f, off + k)
  }

  lemma ResizeMeans(s: string, f: Sparse, n: nat)
    requires Means(s, f)
    ensures Means(Resized(s, n), SparseResize(f, n))
  {}

  lemma PutMeans(s: string, f: Sparse, off: nat, data: string)
    requires Means(s, f)
    ensures Means(Do(s, Put(off, data)).0, SparseWrite(f, off, data))
  {
    var g := SparseWrite(f, off, data);
    var t := if off + |data| > |s| then Resized(s, off + |data|) else s;
    var r := Patched(t, off, data);
    forall i | 0 <= i < g.size ensures r[i] == ByteAt(g, i) {
      if off <= i < off + |data| {
        assert r[i] == data[i - off];
      } else {
        assert r[i] == t[i];
        assert i in g.bytes <==> i in f.bytes;
      }
    }
  }

  lemma StepMeans(s: string, f: Sparse, op: Op)
    requires Means(s, f)
    ensures Means(Do(s, op).0, SparseDo(f, op))
    ensures op.Get? ==> ReadsFrom(Do(s, op).1, f, op.off, op.size)
  {
    match op
    case Resize(n) => ResizeMeans(s, f, n);
    case Put(off, data) => PutMeans(s, f, off, data);
    case Get(_, _) =>
  }

  function After(s: string, ops: seq<Op>): string
    decreases |ops|
  {
    if ops == [] then s else After(Do(s, ops[0]).0, ops[1..])
  }

  function SparseAfter(f: Sparse, ops: seq<Op>): Sparse
    decreases |ops|
  {
    if ops == [] then f else SparseAfter(SparseDo(f, ops[0]), ops[1..])
  }

  lemma {:induction false} RunMeans(s: string, f: Sparse, ops: seq<Op>)
    requires Means(s, f)
    ensures Means(After(s, ops), SparseAfter(f, ops))
    decreases |ops|
  {
    if ops != [] {
      StepMeans(s, f, ops[0]);
      RunMeans(Do(s, ops[0]).0, SparseDo(f, ops[0]), ops[1..]);
    }
  }

  /** After any writes and size changes of a new file, a read returns, below the size, the byte written last and not
      cut off since, and zero where there is none. */
  lemma ReadsAreSparse(ops: seq<Op>, off: nat, size: nat)
    ensures ReadsFrom(Part(After("", ops), size, off), SparseAfter(Sparse(0, map[]), ops), off, size)
  {
    RunMeans("", Sparse(0, map[]), ops);
    StepMeans(After("", ops), SparseAfter(Sparse(0, map[]), ops), Get(off, size));
  }
}
