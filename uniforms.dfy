/**
 * The per-draw parameter record (src/uniforms.rs) and its byte layout: the
 * fields are written one after the other in declaration order, each at the
 * cursor the previous write left, and the record size is the final cursor
 * rounded up to the largest alignment written.
 */
module Uniforms {
  import opened Common
  import opened Shared
  import Fields

  datatype Uniforms = Uniforms(
    backRead: bool,
    color: Matrix4,
    coordinates: bool,
    field: Fields.Field,
    filters: u32,
    fit: bool,
    frequencyRange: F32,
    frontOffset: Vector2,
    frontRead: bool,
    gain: F32,
    index: u32,
    offset: Vector2,
    position: Matrix3,
    repeat: bool,
    resolution: Vector2,
    sampleRange: F32,
    tiling: u32,
    wrap: bool
  )

  /** The record's fields in declaration order, which is the order `write` writes them. */
  function Values(u: Uniforms): seq<Value> {
    [
     BoolValue(u.backRead),
     Matrix4Value(u.color),
     BoolValue(u.coordinates),
     FieldValue(u.field),
     U32Value(u.filters),
     BoolValue(u.fit),
     F32Value(u.frequencyRange),
     Vector2Value(u.frontOffset),
     BoolValue(u.frontRead),
     F32Value(u.gain),
     U32Value(u.index),
     Vector2Value(u.offset),
     Matrix3Value(u.position),
     BoolValue(u.repeat),
     Vector2Value(u.resolution),
     F32Value(u.sampleRange),
     U32Value(u.tiling),
     BoolValue(u.wrap)
    ]
  }

  /** The field types of the record, in declaration order. */
  ghost predicate UniformShape(ks: seq<Kind>) {
    |ks| == 18 &&
    ks[0] == BoolKind &&
    ks[1] == Matrix4Kind &&
    ks[2] == BoolKind &&
    ks[3] == FieldKind &&
    ks[4] == U32Kind &&
    ks[5] == BoolKind &&
    ks[6] == F32Kind &&
    ks[7] == Vector2Kind &&
    ks[8] == BoolKind &&
    ks[9] == F32Kind &&
    ks[10] == U32Kind &&
    ks[11] == Vector2Kind &&
    ks[12] == Matrix3Kind &&
    ks[13] == BoolKind &&
    ks[14] == Vector2Kind &&
    ks[15] == F32Kind &&
    ks[16] == U32Kind &&
    ks[17] == BoolKind
  }

  function KindsOf(vs: seq<Value>): (ks: seq<Kind>)
    ensures |ks| == |vs|
  {
    seq(|vs|, k requires 0 <= k < |vs| => KindOf(vs[k]))
  }

  lemma KindsFirst(u: Uniforms)
    ensures var ks := KindsOf(Values(u)); ks[0] == BoolKind && ks[1] == Matrix4Kind && ks[2] == BoolKind && ks[3] == FieldKind && ks[4] == U32Kind && ks[5] == BoolKind
  {
  }

  lemma KindsSecond(u: Uniforms)
    ensures var ks := KindsOf(Values(u)); ks[6] == F32Kind && ks[7] == Vector2Kind && ks[8] == BoolKind && ks[9] == F32Kind && ks[10] == U32Kind && ks[11] == Vector2Kind
  {
  }

  lemma KindsThird(u: Uniforms)
    ensures var ks := KindsOf(Values(u)); ks[12] == Matrix3Kind && ks[13] == BoolKind && ks[14] == Vector2Kind && ks[15] == F32Kind && ks[16] == U32Kind && ks[17] == BoolKind
  {
  }

  /** Every record has the same field types, whatever its field values. */
  lemma ValuesKinds(u: Uniforms)
    ensures UniformShape(KindsOf(Values(u)))
  {
    KindsFirst(u);
    KindsSecond(u);
    KindsThird(u);
  }

  /** The cursor after the first n fields of a record with field kinds ks, starting from 0. */
  function CursorAfter(ks: seq<Kind>, n: nat): nat
    requires n <= |ks|
  {
    if n == 0 then 0 else SlotStart(ks[n - 1], CursorAfter(ks, n - 1)) + Size(ks[n - 1])
  }

  /** Where field n starts. */
  function StartOf(ks: seq<Kind>, n: nat): nat
    requires n < |ks|
  {
    SlotStart(ks[n], CursorAfter(ks, n))
  }

  /** The alignment watermark after the first n fields, starting from 0. */
  function WatermarkAfter(ks: seq<Kind>, n: nat): nat
    requires n <= |ks|
  {
    if n == 0 then 0 else Max(WatermarkAfter(ks, n - 1), Alignment(ks[n - 1]))
  }

  /** The cursor only moves forward: each field ends where the next may start. */
  lemma {:induction false} CursorMonotone(ks: seq<Kind>, m: nat, n: nat)
    requires m <= n <= |ks|
    ensures CursorAfter(ks, m) <= CursorAfter(ks, n)
    ensures m < n ==> StartOf(ks, m) + Size(ks[m]) <= CursorAfter(ks, n)
    decreases n
  {
    if m < n {
      CursorMonotone(ks, m, n - 1);
    }
  }

  /** The buffer after the first n fields of vs were written, in a buffer that holds the whole record. */
  function Packed(vs: seq<Value>, n: nat, buf: seq<byte>): (r: seq<byte>)
    requires n <= |vs| && CursorAfter(KindsOf(vs), |vs|) <= |buf|
    ensures |r| == |buf|
  {
    if n == 0 then buf
    else
      CursorMonotone(KindsOf(vs), n - 1, |vs|);
      Overwrite(Packed(vs, n - 1, buf), StartOf(KindsOf(vs), n - 1), vs[n - 1])
  }

  /** A field's slot lies at or past the cursor the previous fields left. */
  lemma StartAfterCursor(ks: seq<Kind>, m: nat, n: nat)
    requires m <= n < |ks|
    ensures CursorAfter(ks, m) <= StartOf(ks, n)
  {
    CursorMonotone(ks, m, n);
  }

  /** Writing field n - 1 leaves a byte outside its slot alone. */
  lemma PackedStep(vs: seq<Value>, n: nat, buf: seq<byte>, j: nat)
    requires 0 < n <= |vs| && CursorAfter(KindsOf(vs), |vs|) <= |buf| && j < |buf|
    requires OutsideSlot(KindsOf(vs), n - 1, j)
    ensures Packed(vs, n, buf)[j] == Packed(vs, n - 1, buf)[j]
  {
    CursorMonotone(KindsOf(vs), n - 1, |vs|);
    OverwriteFrame(Packed(vs, n - 1, buf), StartOf(KindsOf(vs), n - 1), vs[n - 1], j);
  }

  /** Byte j lies outside the slot of field i. */
  ghost predicate OutsideSlot(ks: seq<Kind>, i: nat, j: nat)
    requires i < |ks|
  {
    j < StartOf(ks, i) || StartOf(ks, i) + Size(ks[i]) <= j
  }

  /** Byte j lies outside the slots of the first n fields. */
  ghost predicate OutsideSlots(ks: seq<Kind>, n: nat, j: nat)
    requires n <= |ks|
  {
    n == 0 || (OutsideSlots(ks, n - 1, j) && OutsideSlot(ks, n - 1, j))
  }

  /** A byte outside the slots of the first n fields keeps its old value. */
  lemma {:induction false} PackedUntouched(vs: seq<Value>, n: nat, buf: seq<byte>, j: nat)
    requires n <= |vs| && CursorAfter(KindsOf(vs), |vs|) <= |buf| && j < |buf|
    requires OutsideSlots(KindsOf(vs), n, j)
    ensures j < |Packed(vs, n, buf)| && Packed(vs, n, buf)[j] == buf[j]
  {
    if n > 0 {
      PackedUntouched(vs, n - 1, buf, j);
      PackedStep(vs, n, buf, j);
    }
  }

  /** Byte j lies before the slots of fields m to n - 1. */
  ghost predicate BeforeSlots(ks: seq<Kind>, m: nat, n: nat, j: nat)
    requires n <= |ks|
  {
    n <= m || (BeforeSlots(ks, m, n - 1, j) && j < StartOf(ks, n - 1))
  }

  /** A byte before the cursor the first m fields left lies before every later slot. */
  lemma {:induction false} BeforeLaterSlots(ks: seq<Kind>, m: nat, n: nat, j: nat)
    requires m <= n <= |ks| && j < CursorAfter(ks, m)
    ensures BeforeSlots(ks, m, n, j)
  {
    if n > m {
      BeforeLaterSlots(ks, m, n - 1, j);
      StartAfterCursor(ks, m, n - 1);
    }
  }

  /** The writes of fields m to n - 1 leave a byte before all their slots alone. */
  lemma {:induction false} PackedKeepsBefore(vs: seq<Value>, m: nat, n: nat, buf: seq<byte>, j: nat)
    requires m <= n <= |vs| && CursorAfter(KindsOf(vs), |vs|) <= |buf| && j < |buf|
    requires BeforeSlots(KindsOf(vs), m, n, j)
    ensures Packed(vs, n, buf)[j] == Packed(vs, m, buf)[j]
  {
    if n > m {
      PackedKeepsBefore(vs, m, n - 1, buf, j);
      PackedStep(vs, n, buf, j);
    }
  }

  /** The writes after the first m leave every byte before the cursor the first m left alone. */
  lemma PackedKeepsPrefix(vs: seq<Value>, m: nat, n: nat, buf: seq<byte>, j: nat)
    requires m <= n <= |vs| && CursorAfter(KindsOf(vs), |vs|) <= |buf|
    requires j < CursorAfter(KindsOf(vs), m) && j < |buf|
    ensures Packed(vs, n, buf)[j] == Packed(vs, m, buf)[j]
  {
    BeforeLaterSlots(KindsOf(vs), m, n, j);
    PackedKeepsBefore(vs, m, n, buf, j);
  }

  /** Once field k is written, the later writes leave its slot alone. */
  lemma PackedKeepsSlot(vs: seq<Value>, k: nat, n: nat, buf: seq<byte>, j: nat)
    requires k < n <= |vs| && CursorAfter(KindsOf(vs), |vs|) <= |buf|
    requires StartOf(KindsOf(vs), k) <= j < StartOf(KindsOf(vs), k) + Size(KindsOf(vs)[k]) && j < |buf|
    ensures Packed(vs, n, buf)[j] == Packed(vs, k + 1, buf)[j]
  {
    PackedKeepsPrefix(vs, k + 1, n, buf, j);
  }

  /** Slots come in field order. */
  lemma StartMonotone(ks: seq<Kind>, m: nat, n: nat)
    requires m <= n < |ks|
    ensures StartOf(ks, m) <= StartOf(ks, n)
  {
    if m < n {
      CursorMonotone(ks, m, n);
    }
  }

  /** A byte between the end of field m - 1 and the start of field m is outside every slot. */
  lemma {:induction false} GapOutside(ks: seq<Kind>, m: nat, n: nat, j: nat)
    requires 0 < m < |ks| && n <= |ks|
    requires StartOf(ks, m - 1) + Size(ks[m - 1]) <= j < StartOf(ks, m)
    ensures OutsideSlots(ks, n, j)
  {
    if n > 0 {
      GapOutside(ks, m, n - 1, j);
      if n - 1 < m {
        CursorMonotone(ks, n - 1, m);
      } else {
        StartMonotone(ks, m, n - 1);
      }
    }
  }

  /** A byte between the end of field m - 1 and the start of field m is never written. */
  lemma PackedGap(vs: seq<Value>, m: nat, buf: seq<byte>, j: nat)
    requires 0 < m < |vs| && CursorAfter(KindsOf(vs), |vs|) <= |buf| && j < |buf|
    requires StartOf(KindsOf(vs), m - 1) + Size(KindsOf(vs)[m - 1]) <= j < StartOf(KindsOf(vs), m)
    ensures Packed(vs, |vs|, buf)[j] == buf[j]
  {
    GapOutside(KindsOf(vs), m, |vs|, j);
    PackedUntouched(vs, |vs|, buf, j);
  }

  /** A byte from the cursor the first n writes left on is not written by them. */
  lemma {:induction false} PackedBeyond(vs: seq<Value>, n: nat, buf: seq<byte>, j: nat)
    requires n <= |vs| && CursorAfter(KindsOf(vs), |vs|) <= |buf|
    requires CursorAfter(KindsOf(vs), n) <= j < |buf|
    ensures Packed(vs, n, buf)[j] == buf[j]
  {
    if n > 0 {
      CursorMonotone(KindsOf(vs), n - 1, n);
      PackedBeyond(vs, n - 1, buf, j);
      PackedStep(vs, n, buf, j);
    }
  }

  /** Round trip: after the first n writes, every one of those fields reads back from its slot. */
  lemma ReadPackedField(vs: seq<Value>, n: nat, buf: seq<byte>, k: nat)
    requires k < n <= |vs| && CursorAfter(KindsOf(vs), |vs|) <= |buf|
    ensures StartOf(KindsOf(vs), k) + Size(KindOf(vs[k])) <= |buf|
    ensures ReadValue(Packed(vs, n, buf), StartOf(KindsOf(vs), k), KindOf(vs[k])) == Some(vs[k])
  {
    var ks := KindsOf(vs);
    CursorMonotone(ks, k, |vs|);
    var start := StartOf(ks, k);
    forall j | start <= j < start + Size(ks[k]) && j < |buf|
      ensures Packed(vs, n, buf)[j] == Packed(vs, k + 1, buf)[j]
    {
      PackedKeepsSlot(vs, k, n, buf, j);
    }
    ReadScalarsLocal(Packed(vs, n, buf), Packed(vs, k + 1, buf), start, ks[k]);
    ReadValueAfterOverwrite(Packed(vs, k, buf), start, vs[k]);
  }

  /** The buffer after a whole record was written. */
  function PackedRecord(u: Uniforms, buf: seq<byte>): (r: seq<byte>)
    requires |buf| >= 220
    ensures |r| == |buf|
  {
    ValuesKinds(u);
    Layout(KindsOf(Values(u)));
    Packed(Values(u), 18, buf)
  }

  /** The value `write` returns. */
  function Stride(u: Uniforms): nat {
    ValuesKinds(u);
    Layout(KindsOf(Values(u)));
    Pad(CursorAfter(KindsOf(Values(u)), 18), WatermarkAfter(KindsOf(Values(u)), 18))
  }

  /** The cursor after each prefix of the record. */
  const Ends: seq<nat> := [0, 4, 80, 84, 88, 92, 96, 100, 112, 116, 120, 124, 136, 192, 196, 208, 212, 216, 220]

  /** The start of each field in declaration order. */
  const Offsets: seq<nat> := [0, 16, 80, 84, 88, 92, 96, 104, 112, 116, 120, 128, 144, 192, 200, 208, 212, 216]

  /** One field of a layout: from the cursor and watermark before it to the ones after it. */
  lemma LayoutStep(ks: seq<Kind>, n: nat, c: nat, w: nat, o: nat)
    requires n < |ks| && CursorAfter(ks, n) == c && WatermarkAfter(ks, n) == w
    requires SlotStart(ks[n], c) == o
    ensures StartOf(ks, n) == o
    ensures CursorAfter(ks, n + 1) == o + Size(ks[n])
    ensures WatermarkAfter(ks, n + 1) == Max(w, Alignment(ks[n]))
  {
  }

  /** Fields 0 to 5 of the layout. */
  lemma LayoutFirst(ks: seq<Kind>)
    requires UniformShape(ks)
    ensures StartOf(ks, 0) == 0
    ensures StartOf(ks, 1) == 16
    ensures StartOf(ks, 2) == 80
    ensures StartOf(ks, 3) == 84
    ensures StartOf(ks, 4) == 88
    ensures StartOf(ks, 5) == 92
    ensures CursorAfter(ks, 6) == 96 && WatermarkAfter(ks, 6) == 16
  {
    LayoutStep(ks, 0, 0, 0, 0);
    LayoutStep(ks, 1, 4, 4, 16);
    LayoutStep(ks, 2, 80, 16, 80);
    LayoutStep(ks, 3, 84, 16, 84);
    LayoutStep(ks, 4, 88, 16, 88);
    LayoutStep(ks, 5, 92, 16, 92);
  }

  /** Fields 6 to 11 of the layout. */
  lemma LayoutSecond(ks: seq<Kind>)
    requires UniformShape(ks)
    requires CursorAfter(ks, 6) == 96 && WatermarkAfter(ks, 6) == 16
    ensures StartOf(ks, 6) == 96
    ensures StartOf(ks, 7) == 104
    ensures StartOf(ks, 8) == 112
    ensures StartOf(ks, 9) == 116
    ensures StartOf(ks, 10) == 120
    ensures StartOf(ks, 11) == 128
    ensures CursorAfter(ks, 12) == 136 && WatermarkAfter(ks, 12) == 16
  {
    LayoutStep(ks, 6, 96, 16, 96);
    LayoutStep(ks, 7, 100, 16, 104);
    LayoutStep(ks, 8, 112, 16, 112);
    LayoutStep(ks, 9, 116, 16, 116);
    LayoutStep(ks, 10, 120, 16, 120);
    LayoutStep(ks, 11, 124, 16, 128);
  }

  /** Fields 12 to 17 of the layout. */
  lemma LayoutThird(ks: seq<Kind>)
    requires UniformShape(ks)
    requires CursorAfter(ks, 12) == 136 && WatermarkAfter(ks, 12) == 16
    ensures StartOf(ks, 12) == 144
    ensures StartOf(ks, 13) == 192
    ensures StartOf(ks, 14) == 200
    ensures StartOf(ks, 15) == 208
    ensures StartOf(ks, 16) == 212
    ensures StartOf(ks, 17) == 216
    ensures CursorAfter(ks, 18) == 220 && WatermarkAfter(ks, 18) == 16
  {
    LayoutStep(ks, 12, 136, 16, 144);
    LayoutStep(ks, 13, 192, 16, 192);
    LayoutStep(ks, 14, 196, 16, 200);
    LayoutStep(ks, 15, 208, 16, 208);
    LayoutStep(ks, 16, 212, 16, 212);
    LayoutStep(ks, 17, 216, 16, 216);
  }

  /**
   * The layout the pad rule gives this record: the fields start at Offsets,
   * the final cursor is 220 and the largest alignment is 16 (the matrices).
   */
  lemma Layout(ks: seq<Kind>)
    requires UniformShape(ks)
    ensures forall k :: 0 <= k < 18 ==> StartOf(ks, k) == Offsets[k]
    ensures CursorAfter(ks, 18) == 220 && WatermarkAfter(ks, 18) == 16
    ensures Pad(220, 16) == 224
  {
    LayoutFirst(ks);
    LayoutSecond(ks);
    LayoutThird(ks);
  }

  /** Every record is 224 bytes apart from the next: the stride does not depend on the field values. */
  lemma StrideIs224(u: Uniforms)
    ensures Stride(u) == 224
  {
    ValuesKinds(u);
    Layout(KindsOf(Values(u)));
  }

  /**
   * After the first k fields of vs were written into a buffer that started as
   * d0 and holds the whole record: the buffer, cursor and watermark the k writes left.
   */
  ghost predicate Progress(vs: seq<Value>, k: nat, d0: seq<byte>, buf: seq<byte>, i: nat, a: nat) {
    k <= |vs| && |d0| == |buf| && CursorAfter(KindsOf(vs), |vs|) <= |buf|
    && i == CursorAfter(KindsOf(vs), k) && a == WatermarkAfter(KindsOf(vs), k)
    && buf == Packed(vs, k, d0)
  }

  /** Field k of the record starts at Offsets[k]. */
  lemma RecordStart(u: Uniforms, k: nat)
    requires k < 18
    ensures KindsOf(Values(u))[k] == KindOf(Values(u)[k])
    ensures StartOf(KindsOf(Values(u)), k) == Offsets[k]
  {
    ValuesKinds(u);
    Layout(KindsOf(Values(u)));
  }

  /** Round trip: every field of the record reads back from its offset in the table. */
  lemma ReadRecordField(u: Uniforms, buf: seq<byte>, k: nat)
    requires |buf| >= 220 && k < 18
    ensures Offsets[k] + Size(KindOf(Values(u)[k])) <= |buf|
    ensures ReadValue(PackedRecord(u, buf), Offsets[k], KindOf(Values(u)[k])) == Some(Values(u)[k])
  {
    RecordStart(u, k);
    ValuesKinds(u);
    Layout(KindsOf(Values(u)));
    ReadPackedField(Values(u), 18, buf, k);
  }

  /**
   * The bytes no field covers: the alignment gaps before color, frontOffset,
   * offset, position and resolution, and everything from the final cursor on.
   */
  predicate Gap(j: nat) {
    4 <= j < 16 || 100 <= j < 104 || 124 <= j < 128 || 136 <= j < 144 || 196 <= j < 200 || 220 <= j
  }

  /** A byte between the end of field m - 1 and the start of field m keeps whatever the buffer held. */
  lemma RecordGap(u: Uniforms, buf: seq<byte>, m: nat, j: nat)
    requires |buf| >= 220 && 0 < m < 18 && j < |buf|
    requires Offsets[m - 1] + Size(KindOf(Values(u)[m - 1])) <= j < Offsets[m]
    ensures PackedRecord(u, buf)[j] == buf[j]
  {
    RecordStart(u, m - 1);
    RecordStart(u, m);
    ValuesKinds(u);
    LayoutFirst(KindsOf(Values(u)));
    LayoutSecond(KindsOf(Values(u)));
    LayoutThird(KindsOf(Values(u)));
    PackedGap(Values(u), m, buf, j);
  }

  /** A byte past the final cursor keeps whatever the buffer held. */
  lemma RecordBeyond(u: Uniforms, buf: seq<byte>, j: nat)
    requires 220 <= j < |buf|
    ensures PackedRecord(u, buf)[j] == buf[j]
  {
    ValuesKinds(u);
    Layout(KindsOf(Values(u)));
    PackedBeyond(Values(u), 18, buf, j);
  }

  /** The packer never writes a gap byte: it keeps whatever the buffer held. */
  lemma GapsUntouched(u: Uniforms, buf: seq<byte>, j: nat)
    requires |buf| >= 220 && j < |buf| && Gap(j)
    ensures PackedRecord(u, buf)[j] == buf[j]
  {
    if j < 220 {
      var m := if j < 16 then 1 else if j < 104 then 7 else if j < 128 then 11 else if j < 144 then 12 else 14;
      RecordGap(u, buf, m, j);
    } else {
      RecordBeyond(u, buf, j);
    }
  }

  /** The last four bytes of each column of position keep whatever the buffer held. */
  lemma PositionPaddingUntouched(u: Uniforms, buf: seq<byte>, c: nat, b: nat)
    requires |buf| >= 220 && c < 3 && b < 4
    ensures PackedRecord(u, buf)[144 + 16 * c + 12 + b] == buf[144 + 16 * c + 12 + b]
  {
    var vs, j := Values(u), 144 + 16 * c + 12 + b;
    ValuesKinds(u);
    var ks := KindsOf(vs);
    Layout(ks);
    PackedKeepsSlot(vs, 12, 18, buf, j);
    Matrix3Padding(Packed(vs, 12, buf), 144, u.position, c, b);
    PackedBeyond(vs, 12, buf, j);
  }

  /**
   * One `self.<field>.write(dst, i, a)` line of `Uniforms::write`: field k
   * goes at the cursor the first k fields left.
   */
  method WriteField(vs: seq<Value>, k: nat, dst: array<byte>, i: nat, a: nat, ghost d0: seq<byte>)
    returns (next: nat, watermark: nat)
    requires k < |vs| && Progress(vs, k, d0, dst[..], i, a)
    modifies dst
    ensures Progress(vs, k + 1, d0, dst[..], next, watermark)
  {
    CursorMonotone(KindsOf(vs), k, |vs|);
    next, watermark := Shared.Write(vs[k], dst, i, a);
  }

  /**
   * The 18 `write` lines of `Uniforms::write`, one per field of vs in order:
   * field k goes at the cursor the first k writes left.
   */
  method WriteFields(vs: seq<Value>, dst: array<byte>) returns (i: nat, a: nat)
    requires CursorAfter(KindsOf(vs), |vs|) <= dst.Length
    modifies dst
    ensures Progress(vs, |vs|, old(dst[..]), dst[..], i, a)
  {
    ghost var d0 := dst[..];
    i, a := 0, 0;
    for k := 0 to |vs|
      invariant Progress(vs, k, d0, dst[..], i, a)
    {
      i, a := WriteField(vs, k, dst, i, a, d0);
    }
  }

  /**
   * `Uniforms::write`: the 18 fields in declaration order, each at the cursor
   * the previous write left, into a buffer of at least 220 bytes (a shorter
   * one panics on the slice index of a write).
   */
  method Write(u: Uniforms, dst: array<byte>) returns (size: nat)
    requires dst.Length >= 220
    modifies dst
    ensures dst[..] == PackedRecord(u, old(dst[..]))
    ensures size == Stride(u) == 224
  {
    ValuesKinds(u);
    Layout(KindsOf(Values(u)));
    var i, a := WriteFields(Values(u), dst);
    size := Pad(i, a);
    StrideIs224(u);
  }
}
