/**
 * Typed writes of uniform values into a byte buffer (src/shared.rs).
 *
 * A write threads a byte cursor and an alignment watermark: the value's slot
 * starts at the cursor rounded up to the value's alignment, the cursor moves
 * past the slot, and the watermark becomes the largest alignment seen. The
 * alignments and sizes are those of the "Alignment and Size" table in the
 * Memory Layout section of the WebGPU Shading Language (WGSL) specification.
 */
module Shared {
  import opened Common
  import Fields

  type Vector2 = s: seq<F32> | |s| == 2 witness [0, 0]

  /** Column-major: scalar 3c+r is row r of column c. */
  type Matrix3 = s: seq<F32> | |s| == 9 witness [0, 0, 0, 0, 0, 0, 0, 0, 0]

  /** Column-major, as nalgebra stores it. */
  type Matrix4 = s: seq<F32> | |s| == 16 witness seq(16, _ => 0)

  /** One value of each type that implements the writer. */
  datatype Value =
    | BoolValue(b: bool)
    | F32Value(f: F32)
    | U32Value(u: u32)
    | FieldValue(field: Fields.Field)
    | Matrix3Value(m3: Matrix3)
    | Matrix4Value(m4: Matrix4)
    | Vector2Value(v2: Vector2)

  datatype Kind = BoolKind | F32Kind | U32Kind | FieldKind | Matrix3Kind | Matrix4Kind | Vector2Kind

  function KindOf(v: Value): Kind {
    match v
    case BoolValue(_) => BoolKind
    case F32Value(_) => F32Kind
    case U32Value(_) => U32Kind
    case FieldValue(_) => FieldKind
    case Matrix3Value(_) => Matrix3Kind
    case Matrix4Value(_) => Matrix4Kind
    case Vector2Value(_) => Vector2Kind
  }

  /** `ALIGNMENT` of each implementation: 4, 8 or 16 bytes, never more than the 16 of a matrix. */
  function Alignment(k: Kind): (a: nat)
    ensures a == 4 || a == 8 || a == 16
  {
    match k
    case Matrix3Kind | Matrix4Kind => 16
    case Vector2Kind => 8
    case _ => 4
  }

  /** `SIZE` of each implementation. */
  function Size(k: Kind): nat {
    match k
    case Matrix3Kind => 48
    case Matrix4Kind => 64
    case Vector2Kind => 8
    case _ => 4
  }

  /**
   * The size column of the table: every size has room for the value's
   * scalars and is a whole number of its alignments, so a value also ends
   * on its own alignment.
   */
  lemma SizeIsAligned(k: Kind)
    ensures 4 * ScalarCount(k) <= Size(k)
    ensures Alignment(k) <= Size(k) && Size(k) % Alignment(k) == 0
  {
  }

  /** How many 32-bit scalars a value of the kind writes. */
  function ScalarCount(k: Kind): nat {
    match k
    case Matrix3Kind => 9
    case Matrix4Kind => 16
    case Vector2Kind => 2
    case _ => 1
  }

  /** The 32-bit scalars a value writes, in the order it writes them. A bool is `b as u32`, a field its discriminant. */
  function Scalars(v: Value): (xs: seq<u32>)
    ensures |xs| == ScalarCount(KindOf(v))
  {
    match v
    case BoolValue(b) => [if b then 1 else 0]
    case F32Value(f) => [f]
    case U32Value(u) => [u]
    case FieldValue(field) => [Fields.Code(field)]
    case Matrix3Value(m) => m
    case Matrix4Value(m) => m
    case Vector2Value(m) => m
  }

  /**
   * Where scalar s lands inside the slot. A 3x3 matrix is written as three
   * 16-byte column chunks of which only the first 12 bytes are filled; every
   * other kind is written as consecutive 4-byte chunks.
   */
  function ScalarOffset(k: Kind, s: nat): (r: nat)
    requires s < ScalarCount(k)
    ensures r + 4 <= Size(k)
  {
    if k == Matrix3Kind then 16 * Column(s) + 4 * (s - 3 * Column(s)) else 4 * s
  }

  /** The column of scalar s of a 3x3 matrix, s / 3: its scalars come column by column. */
  function Column(s: nat): (c: nat)
    requires s < 9
    ensures 3 * c <= s < 3 * c + 3
  {
    if s < 3 then 0 else if s < 6 then 1 else 2
  }

  /** Row r of column c of a 3x3 matrix sits at byte 16c + 4r of its slot. */
  lemma Matrix3Offset(c: nat, r: nat)
    requires c < 3 && r < 3
    ensures ScalarOffset(Matrix3Kind, 3 * c + r) == 16 * c + 4 * r
  {
  }

  /** The scalar chunks lie inside the slot, in increasing order, and do not overlap. */
  lemma ScalarOffsetsOrdered(k: Kind, s: nat, t: nat)
    requires s < t < ScalarCount(k)
    ensures ScalarOffset(k, s) + 4 <= ScalarOffset(k, t)
  {
  }

  /**
   * The smallest multiple of `a` that is at least `i`. The source's `pad`
   * is not part of this model; every use of it implies this rounding up,
   * and this model assumes exactly that.
   */
  function Pad(i: nat, a: nat): (r: nat)
    requires a > 0
    ensures i <= r < i + a && r % a == 0
  {
    var q, m := i / a, i % a;
    if m == 0 then i
    else
      DivModUnique(i + (a - m), a, q + 1, 0);
      i + (a - m)
  }

  /** No multiple of `a` lies in [i, Pad(i, a)): Pad rounds up to the nearest multiple. */
  lemma PadIsLeast(i: nat, a: nat, m: nat)
    requires a > 0 && m % a == 0 && m >= i
    ensures Pad(i, a) <= m
  {
    var r := Pad(i, a);
    if m < r {
      var q := r / a;
      assert r == a * q;
      assert a * (q - 1) == r - a;
      DivModUnique(m, a, q - 1, m - (r - a));
    }
  }

  /** The start of the slot of a value of kind k when the cursor is at i. */
  function SlotStart(k: Kind, i: nat): nat {
    Pad(i, Alignment(k))
  }

  /** The little-endian bytes of a 32-bit scalar (`to_le_bytes`). */
  function LeBytes(x: u32): (b: seq<byte>)
    ensures |b| == 4
  {
    [x % 0x100, (x / 0x100) % 0x100, (x / 0x1_0000) % 0x100, x / 0x100_0000]
  }

  /** Reads four little-endian bytes back as a 32-bit scalar. */
  function FromLe(b: seq<byte>): u32
    requires |b| == 4
  {
    b[0] as int + 0x100 * (b[1] as int) + 0x1_0000 * (b[2] as int) + 0x100_0000 * (b[3] as int)
  }

  lemma LeRoundTrip(x: u32)
    ensures FromLe(LeBytes(x)) == x
  {
    var b0, q1 := x % 0x100, x / 0x100;
    var b1, q2 := q1 % 0x100, q1 / 0x100;
    var b2, b3 := q2 % 0x100, q2 / 0x100;
    DivModUnique(x, 0x1_0000, q2, b0 + 0x100 * b1);
    DivModUnique(x, 0x100_0000, b3, b0 + 0x100 * b1 + 0x1_0000 * b2);
    assert LeBytes(x) == [b0, b1, b2, b3];
  }

  lemma LeInverse(b: seq<byte>)
    requires |b| == 4
    ensures LeBytes(FromLe(b)) == b
  {
    var x := FromLe(b);
    var hi1 := b[1] as int + 0x100 * (b[2] as int) + 0x1_0000 * (b[3] as int);
    DivModUnique(x, 0x100, hi1, b[0]);
    var hi2 := b[2] as int + 0x100 * (b[3] as int);
    DivModUnique(x, 0x1_0000, hi2, b[0] as int + 0x100 * (b[1] as int));
    DivModUnique(hi1, 0x100, hi2, b[1]);
    DivModUnique(x, 0x100_0000, b[3], b[0] as int + 0x100 * (b[1] as int) + 0x1_0000 * (b[2] as int));
    DivModUnique(hi2, 0x100, b[3], b[2]);
  }

  /** `buffer[at..at+4].copy_from_slice(&x.to_le_bytes())` on a byte sequence. */
  function PutU32(buf: seq<byte>, at: nat, x: u32): (r: seq<byte>)
    requires at + 4 <= |buf|
    ensures |r| == |buf|
  {
    seq(|buf|, j requires 0 <= j < |buf| => if at <= j < at + 4 then LeBytes(x)[j - at] else buf[j])
  }

  /** The slot at `start` after its first n scalars were written. */
  function PutScalars(buf: seq<byte>, start: nat, k: Kind, xs: seq<u32>, n: nat): (r: seq<byte>)
    requires |xs| == ScalarCount(k) && n <= |xs|
    requires start + Size(k) <= |buf|
    ensures |r| == |buf|
  {
    if n == 0 then buf
    else PutU32(PutScalars(buf, start, k, xs, n - 1), start + ScalarOffset(k, n - 1), xs[n - 1])
  }

  /** The buffer after value v was written into the slot at `start` (`write_aligned`). */
  function Overwrite(buf: seq<byte>, start: nat, v: Value): (r: seq<byte>)
    requires start + Size(KindOf(v)) <= |buf|
    ensures |r| == |buf|
  {
    PutScalars(buf, start, KindOf(v), Scalars(v), |Scalars(v)|)
  }

  /** A byte that none of the first n scalar chunks covers keeps its value. */
  lemma {:induction false} PutScalarsMiss(buf: seq<byte>, start: nat, k: Kind, xs: seq<u32>, n: nat, j: nat)
    requires |xs| == ScalarCount(k) && n <= |xs|
    requires start + Size(k) <= |buf| && j < |buf|
    requires forall s :: 0 <= s < n ==> !(start + ScalarOffset(k, s) <= j < start + ScalarOffset(k, s) + 4)
    ensures PutScalars(buf, start, k, xs, n)[j] == buf[j]
  {
    if n > 0 {
      PutScalarsMiss(buf, start, k, xs, n - 1, j);
      PutU32Miss(PutScalars(buf, start, k, xs, n - 1), start + ScalarOffset(k, n - 1), xs[n - 1], j);
    }
  }

  /** Writing a u32 at `at` leaves every byte outside its four alone. */
  lemma PutU32Miss(buf: seq<byte>, at: nat, x: u32, j: nat)
    requires at + 4 <= |buf| && j < |buf| && !(at <= j < at + 4)
    ensures PutU32(buf, at, x)[j] == buf[j]
  {
  }

  /** Writing a u32 at `at` puts its byte b at at + b. */
  lemma PutU32Hit(buf: seq<byte>, at: nat, x: u32, b: nat)
    requires at + 4 <= |buf| && b < 4
    ensures PutU32(buf, at, x)[at + b] == LeBytes(x)[b]
  {
  }

  /** Byte b of scalar s's chunk holds byte b of that scalar, once the scalar was written. */
  lemma PutScalarsHit(buf: seq<byte>, start: nat, k: Kind, xs: seq<u32>, n: nat, s: nat, b: nat)
    requires |xs| == ScalarCount(k) && s < n <= |xs|
    requires start + Size(k) <= |buf| && b < 4
    ensures PutScalars(buf, start, k, xs, n)[start + ScalarOffset(k, s) + b] == LeBytes(xs[s])[b]
  {
    if s + 1 < n {
      ScalarOffsetsOrdered(k, s, s + 1);
    }
    PutScalarsKeeps(buf, start, k, xs, s + 1, n, start + ScalarOffset(k, s) + b);
    PutU32Hit(PutScalars(buf, start, k, xs, s), start + ScalarOffset(k, s), xs[s], b);
  }

  /** The writes of scalars m to n - 1 leave every byte before chunk m alone. */
  lemma {:induction false} PutScalarsKeeps(buf: seq<byte>, start: nat, k: Kind, xs: seq<u32>, m: nat, n: nat, j: nat)
    requires |xs| == ScalarCount(k) && m <= n <= |xs|
    requires start + Size(k) <= |buf| && j < |buf|
    requires m < n ==> j < start + ScalarOffset(k, m)
    ensures PutScalars(buf, start, k, xs, n)[j] == PutScalars(buf, start, k, xs, m)[j]
    decreases n
  {
    if m < n {
      if m < n - 1 {
        ScalarOffsetsOrdered(k, m, n - 1);
      }
      PutScalarsKeeps(buf, start, k, xs, m, n - 1, j);
      PutU32Miss(PutScalars(buf, start, k, xs, n - 1), start + ScalarOffset(k, n - 1), xs[n - 1], j);
    }
  }

  /** A one-scalar value is a single little-endian u32 at the start of its slot. */
  lemma SingleScalar(buf: seq<byte>, start: nat, v: Value)
    requires ScalarCount(KindOf(v)) == 1 && start + Size(KindOf(v)) <= |buf|
    ensures Overwrite(buf, start, v) == PutU32(buf, start, Scalars(v)[0])
  {
    assert ScalarOffset(KindOf(v), 0) == 0;
    assert PutScalars(buf, start, KindOf(v), Scalars(v), 0) == buf;
  }

  /** Writing a value changes nothing outside its slot. */
  lemma OverwriteFrame(buf: seq<byte>, start: nat, v: Value, j: nat)
    requires start + Size(KindOf(v)) <= |buf| && j < |buf|
    requires j < start || start + Size(KindOf(v)) <= j
    ensures Overwrite(buf, start, v)[j] == buf[j]
  {
    var k := KindOf(v);
    forall s | 0 <= s < ScalarCount(k)
      ensures !(start + ScalarOffset(k, s) <= j < start + ScalarOffset(k, s) + 4)
    {
    }
    PutScalarsMiss(buf, start, k, Scalars(v), |Scalars(v)|, j);
  }

  /** Scalar s of v occupies the four bytes at start + ScalarOffset, little-endian. */
  lemma OverwriteScalar(buf: seq<byte>, start: nat, v: Value, s: nat)
    requires start + Size(KindOf(v)) <= |buf| && s < ScalarCount(KindOf(v))
    ensures start + ScalarOffset(KindOf(v), s) + 4 <= |buf|
    ensures Overwrite(buf, start, v)[start + ScalarOffset(KindOf(v), s)..start + ScalarOffset(KindOf(v), s) + 4]
            == LeBytes(Scalars(v)[s])
  {
    PutScalarsSlice(buf, start, KindOf(v), Scalars(v), s);
  }

  /** Once all scalars are written, chunk s holds scalar s's little-endian bytes. */
  lemma PutScalarsSlice(buf: seq<byte>, start: nat, k: Kind, xs: seq<u32>, s: nat)
    requires |xs| == ScalarCount(k) && s < |xs| && start + Size(k) <= |buf|
    ensures start + ScalarOffset(k, s) + 4 <= |buf|
    ensures PutScalars(buf, start, k, xs, |xs|)[start + ScalarOffset(k, s)..start + ScalarOffset(k, s) + 4] == LeBytes(xs[s])
  {
    PutScalarsHit(buf, start, k, xs, |xs|, s, 0);
    PutScalarsHit(buf, start, k, xs, |xs|, s, 1);
    PutScalarsHit(buf, start, k, xs, |xs|, s, 2);
    PutScalarsHit(buf, start, k, xs, |xs|, s, 3);
    FourBytes(PutScalars(buf, start, k, xs, |xs|), start + ScalarOffset(k, s), LeBytes(xs[s]));
  }

  /** Four bytes that agree one by one with w form w. */
  lemma FourBytes(b: seq<byte>, at: nat, w: seq<byte>)
    requires |w| == 4 && at + 4 <= |b|
    requires b[at] == w[0] && b[at + 1] == w[1] && b[at + 2] == w[2] && b[at + 3] == w[3]
    ensures b[at..at + 4] == w
  {
  }

  /** Reads the scalars of a slot of kind k back from the buffer. */
  function ReadScalars(buf: seq<byte>, start: nat, k: Kind): (xs: seq<u32>)
    requires start + Size(k) <= |buf|
    ensures |xs| == ScalarCount(k)
  {
    seq(ScalarCount(k), s requires 0 <= s < ScalarCount(k) =>
      FromLe(buf[start + ScalarOffset(k, s)..start + ScalarOffset(k, s) + 4]))
  }

  /** Round trip: reading a freshly written slot gives back the written bit patterns. */
  lemma ReadAfterOverwrite(buf: seq<byte>, start: nat, v: Value)
    requires start + Size(KindOf(v)) <= |buf|
    ensures ReadScalars(Overwrite(buf, start, v), start, KindOf(v)) == Scalars(v)
  {
    forall s | 0 <= s < ScalarCount(KindOf(v))
      ensures ReadScalars(Overwrite(buf, start, v), start, KindOf(v))[s] == Scalars(v)[s]
    {
      ReadScalarAfterOverwrite(buf, start, v, s);
    }
  }

  /** Scalar s of a freshly written slot reads back as written. */
  lemma ReadScalarAfterOverwrite(buf: seq<byte>, start: nat, v: Value, s: nat)
    requires start + Size(KindOf(v)) <= |buf| && s < ScalarCount(KindOf(v))
    ensures ReadScalars(Overwrite(buf, start, v), start, KindOf(v))[s] == Scalars(v)[s]
  {
    OverwriteScalar(buf, start, v, s);
    ReadScalarOf(Overwrite(buf, start, v), start, KindOf(v), s, Scalars(v)[s]);
  }

  /** A slot whose chunk s holds the little-endian bytes of x reads x back there. */
  lemma ReadScalarOf(b: seq<byte>, start: nat, k: Kind, s: nat, x: u32)
    requires start + Size(k) <= |b| && s < ScalarCount(k)
    requires b[start + ScalarOffset(k, s)..start + ScalarOffset(k, s) + 4] == LeBytes(x)
    ensures ReadScalars(b, start, k)[s] == x
  {
    LeRoundTrip(x);
  }

  /**
   * How the shader reads a slot's scalars back as a value of kind k: a bool is
   * 0 or 1 and a field one of the discriminants; anything else is no value.
   */
  function FromScalars(k: Kind, xs: seq<u32>): Option<Value>
    requires |xs| == ScalarCount(k)
  {
    match k
    case BoolKind => if xs[0] == 1 then Some(BoolValue(true)) else if xs[0] == 0 then Some(BoolValue(false)) else None
    case F32Kind => Some(F32Value(xs[0]))
    case U32Kind => Some(U32Value(xs[0]))
    case FieldKind => if Fields.FromCode(xs[0]).Some? then Some(FieldValue(Fields.FromCode(xs[0]).value)) else None
    case Matrix3Kind => Some(Matrix3Value(xs))
    case Matrix4Kind => Some(Matrix4Value(xs))
    case Vector2Kind => Some(Vector2Value(xs))
  }

  /** Every value's scalars read back as that value. */
  lemma FromScalarsOfScalars(v: Value)
    ensures FromScalars(KindOf(v), Scalars(v)) == Some(v)
  {
    if v.FieldValue? {
      Fields.FromCodeOfCode(v.field);
    }
  }

  /** Conversely, whatever reads back as a value is that value's scalars. */
  lemma ScalarsOfFromScalars(k: Kind, xs: seq<u32>)
    requires |xs| == ScalarCount(k) && FromScalars(k, xs).Some?
    ensures KindOf(FromScalars(k, xs).value) == k
    ensures Scalars(FromScalars(k, xs).value) == xs
  {
    if k == FieldKind {
      Fields.CodeOfFromCode(xs[0]);
    }
  }

  /** The value of kind k in the slot at start. */
  function ReadValue(buf: seq<byte>, start: nat, k: Kind): Option<Value>
    requires start + Size(k) <= |buf|
  {
    FromScalars(k, ReadScalars(buf, start, k))
  }

  /** Round trip: the shader reads back the value the packer wrote. */
  lemma ReadValueAfterOverwrite(buf: seq<byte>, start: nat, v: Value)
    requires start + Size(KindOf(v)) <= |buf|
    ensures ReadValue(Overwrite(buf, start, v), start, KindOf(v)) == Some(v)
  {
    ReadAfterOverwrite(buf, start, v);
    FromScalarsOfScalars(v);
  }

  /** Reading a slot looks at the slot's bytes only. */
  lemma ReadScalarsLocal(b1: seq<byte>, b2: seq<byte>, start: nat, k: Kind)
    requires start + Size(k) <= |b1| && start + Size(k) <= |b2|
    requires forall j :: start <= j < start + Size(k) ==> b1[j] == b2[j]
    ensures ReadScalars(b1, start, k) == ReadScalars(b2, start, k)
  {
    forall s | 0 <= s < ScalarCount(k)
      ensures ReadScalars(b1, start, k)[s] == ReadScalars(b2, start, k)[s]
    {
      var at := start + ScalarOffset(k, s);
      assert b1[at..at + 4] == b2[at..at + 4];
    }
  }

  /** A bool, u32 or field writes its little-endian u32 into all four slot bytes; true is 01 00 00 00 and false 00 00 00 00. */
  lemma FourByteSlot(buf: seq<byte>, start: nat, v: Value)
    requires v.BoolValue? || v.U32Value? || v.FieldValue? || v.F32Value?
    requires start + 4 <= |buf|
    ensures Alignment(KindOf(v)) == 4 && Size(KindOf(v)) == 4
    ensures Overwrite(buf, start, v)[start..start + 4] == LeBytes(Scalars(v)[0])
    ensures v == BoolValue(true) ==> Overwrite(buf, start, v)[start..start + 4] == [1, 0, 0, 0]
    ensures v == BoolValue(false) ==> Overwrite(buf, start, v)[start..start + 4] == [0, 0, 0, 0]
  {
    OverwriteScalar(buf, start, v, 0);
  }

  /** A 3x3 matrix: scalar r of column c lands at bytes 16c+4r to 16c+4r+3 of the slot. */
  lemma Matrix3Scalar(buf: seq<byte>, start: nat, m: Matrix3, c: nat, r: nat, b: nat)
    requires start + 48 <= |buf| && c < 3 && r < 3 && b < 4
    ensures Overwrite(buf, start, Matrix3Value(m))[start + 16 * c + 4 * r + b] == LeBytes(m[3 * c + r])[b]
  {
    Matrix3Offset(c, r);
    PutScalarsHit(buf, start, Matrix3Kind, m, 9, 3 * c + r, b);
  }

  /** A 3x3 matrix: the last four bytes of each 16-byte column keep their old values. */
  lemma Matrix3Padding(buf: seq<byte>, start: nat, m: Matrix3, c: nat, b: nat)
    requires start + 48 <= |buf| && c < 3 && b < 4
    ensures Overwrite(buf, start, Matrix3Value(m))[start + 16 * c + 12 + b] == buf[start + 16 * c + 12 + b]
  {
    var j := start + 16 * c + 12 + b;
    forall s | 0 <= s < 9
      ensures !(start + ScalarOffset(Matrix3Kind, s) <= j < start + ScalarOffset(Matrix3Kind, s) + 4)
    {
    }
    PutScalarsMiss(buf, start, Matrix3Kind, m, 9, j);
  }

  /** A 4x4 matrix puts scalar k at byte 4k; a 2-vector puts its scalars at bytes 0 and 4. */
  lemma PackedScalars(buf: seq<byte>, start: nat, v: Value, s: nat, b: nat)
    requires v.Matrix4Value? || v.Vector2Value?
    requires start + Size(KindOf(v)) <= |buf| && s < ScalarCount(KindOf(v)) && b < 4
    ensures Overwrite(buf, start, v)[start + 4 * s + b] == LeBytes(Scalars(v)[s])[b]
  {
    PutScalarsHit(buf, start, KindOf(v), Scalars(v), |Scalars(v)|, s, b);
  }

  /** `u32::write_aligned`: copies the four little-endian bytes into the slot. */
  method WriteU32(buffer: array<byte>, at: nat, x: u32)
    requires at + 4 <= buffer.Length
    modifies buffer
    ensures buffer[..] == PutU32(old(buffer[..]), at, x)
  {
    var bytes := LeBytes(x);
    buffer[at] := bytes[0];
    buffer[at + 1] := bytes[1];
    buffer[at + 2] := bytes[2];
    buffer[at + 3] := bytes[3];
    assert buffer[..] == PutU32(old(buffer[..]), at, x);
  }

  /** `write_aligned` of every implementation, on the slot that starts at `start`. */
  method WriteAligned(v: Value, buffer: array<byte>, start: nat)
    requires start + Size(KindOf(v)) <= buffer.Length
    modifies buffer
    ensures buffer[..] == Overwrite(old(buffer[..]), start, v)
  {
    ghost var before := buffer[..];
    match v
    case BoolValue(b) =>
      SingleScalar(before, start, v);
      WriteU32(buffer, start, if b then 1 else 0);
    case F32Value(f) =>
      SingleScalar(before, start, v);
      WriteU32(buffer, start, f);
    case U32Value(u) =>
      SingleScalar(before, start, v);
      WriteU32(buffer, start, u);
    case FieldValue(field) =>
      SingleScalar(before, start, v);
      WriteU32(buffer, start, Fields.Code(field));
    case Matrix3Value(m) =>
      WriteMatrix3(m, buffer, start);
    case Matrix4Value(m) =>
      WriteChunks(Matrix4Kind, m, buffer, start);
    case Vector2Value(m) =>
      WriteChunks(Vector2Kind, m, buffer, start);
  }

  /** `scalar.write_aligned(chunk)` for the chunk of scalar n, once the scalars before it are written. */
  method WriteScalar(k: Kind, xs: seq<u32>, n: nat, buffer: array<byte>, start: nat, at: nat, ghost before: seq<byte>)
    requires |xs| == ScalarCount(k) && n < |xs| && at == start + ScalarOffset(k, n)
    requires start + Size(k) <= |before| == buffer.Length
    requires buffer[..] == PutScalars(before, start, k, xs, n)
    modifies buffer
    ensures buffer[..] == PutScalars(before, start, k, xs, n + 1)
  {
    assert ScalarOffset(k, n) + 4 <= Size(k);
    WriteU32(buffer, at, xs[n]);
  }

  /** `Matrix3::write_aligned`: one 16-byte chunk per column, one 4-byte chunk per scalar of the column. */
  method WriteMatrix3(m: Matrix3, buffer: array<byte>, start: nat)
    requires start + 48 <= buffer.Length
    modifies buffer
    ensures buffer[..] == Overwrite(old(buffer[..]), start, Matrix3Value(m))
  {
    ghost var before := buffer[..];
    for c := 0 to 3
      invariant buffer[..] == PutScalars(before, start, Matrix3Kind, m, 3 * c)
    {
      for r := 0 to 3
        invariant buffer[..] == PutScalars(before, start, Matrix3Kind, m, 3 * c + r)
      {
        Matrix3Offset(c, r);
        WriteScalar(Matrix3Kind, m, 3 * c + r, buffer, start, start + 16 * c + 4 * r, before);
      }
    }
  }

  /** `Matrix4::write_aligned` and `Vector2::write_aligned`: the scalars in order, one 4-byte chunk each. */
  method WriteChunks(k: Kind, xs: seq<u32>, buffer: array<byte>, start: nat)
    requires k == Matrix4Kind || k == Vector2Kind
    requires |xs| == ScalarCount(k) && start + Size(k) <= buffer.Length
    modifies buffer
    ensures buffer[..] == PutScalars(old(buffer[..]), start, k, xs, |xs|)
  {
    ghost var before := buffer[..];
    for s := 0 to |xs|
      invariant buffer[..] == PutScalars(before, start, k, xs, s)
    {
      WriteScalar(k, xs, s, buffer, start, start + 4 * s, before);
    }
  }

  /** `slot`: the value's slot starts at the cursor rounded up to its alignment, and the cursor moves past the slot. */
  method Slot(k: Kind, i: nat) returns (start: nat, next: nat)
    ensures start == SlotStart(k, i)
    ensures i <= start < i + Alignment(k) && start % Alignment(k) == 0
    ensures next == start + Size(k)
  {
    start := Pad(i, Alignment(k));
    next := start + Size(k);
  }

  /**
   * `write`: raises the watermark to the value's alignment, takes the slot
   * and writes the value into it. The slice index panics when the buffer
   * ends before the slot does.
   */
  method Write(v: Value, buffer: array<byte>, i: nat, alignment: nat) returns (next: nat, watermark: nat)
    requires SlotStart(KindOf(v), i) + Size(KindOf(v)) <= buffer.Length
    modifies buffer
    ensures watermark == Max(alignment, Alignment(KindOf(v)))
    ensures next == SlotStart(KindOf(v), i) + Size(KindOf(v))
    ensures buffer[..] == Overwrite(old(buffer[..]), SlotStart(KindOf(v), i), v)
  {
    watermark := Max(alignment, Alignment(KindOf(v)));
    var start;
    start, next := Slot(KindOf(v), i);
    WriteAligned(v, buffer, start);
  }
}
