# A verified model of the byte-level core of `x`

`x` is an audio-reactive visualiser written in Rust. This project models, in
Dafny, the sequential logic that sits around its GPU, audio and video code,
and proves what that logic promises:

- **Uniform packer** (`Shared`, `Uniforms`, `Fields`). Each typed write pads a byte cursor
  up to the value's alignment, copies the value's little-endian scalars into its
  slot and raises an alignment watermark. The 18 fields of the per-draw record
  land at fixed offsets. The record is written into 220 bytes and its stride is
  224. Bytes outside the fields' slots are never written. Every field reads back
  from its slot as the value that was written.
- **Tiling** (`Tiling`): the cell offsets, the viewport, the source offset of the
  previous cell, and the two ping-pong parity flags.
- **Byte and buffer utilities**:
  - the BGRA→RGBA swizzle and the texture-format round trip (`Format`);
  - chained slice writes (`SliceExt`);
  - the one-byte bool codec (`Bool`);
  - image resizing (`Image`).
- **Recorders**:
  - the strided row upload and the timestamp/finish state machine of the H.264
    recorder (`Video`);
  - the frame naming and the `ffconcat` script of the PNG recorder (`Recorder`).
- **Sample buffering** of played and tapped audio files (`Track`, `Tap`).
- **Builders and presets** (`Chains`, `States`, `Filters`, `Programs`): the filter-list
  builders and the filter list of every preset program.
- **Small pure functions** (`Options`, `Tallies`, `Frame`, `Probe`): the render
  resolution, the pluralising tally, the HUD frame line, and the `probe` table cells.
- **Analyzer bookkeeping** (`Analyzer`): input draining, the lengths of the spectrum
  buffers, scratch growth, the power loop over the lower half of the spectrum,
  and the guarded smoothing of the level.

Each module corresponds to one source file. The code that changes state in
place is written as classes or methods over arrays, with loops and invariants:
- the packer's writes;
- the swizzle and slice writes;
- the image, recorders, track, tap and analyzer.

Each such method is proved against a specification function, whose properties
are proved as lemmas. The by-value builders and the pure formatting code are
functions and lemmas.

The source's `pad` helper is not part of this model. `Shared.Pad` assumes that
`pad(i, a)` is the smallest multiple of `a` that is at least `i`, which is what
every use of it implies.

## Model

| member | source | states |
|---|---|---|
| Fields.FromCodeOfCode | src/field.rs:2-8 | decoding a variant's `repr(u32)` discriminant gives the variant back |
| Fields.CodeOfFromCode | src/field.rs:2-8 | exactly the codes below 8 decode, and each decodes to the variant carrying that code |
| Fields.Default | src/field.rs:4-5 | the default field is a declared variant with code 0 (All) |
| Fields.DeclaredCodes | src/field.rs:2-8 | All = 0, Circle = 1, None = 2, X = 3 |
| Fields.CodeInjective | src/field.rs:5-8 | the declared variants have codes below 4 and distinct variants have distinct codes |
| Filters.Default | src/filter.rs:11-20 | the default filter has identity colour and position matrices, both flags off, and field All |
| Format.Swizzle | src/format.rs:9-17 | the destination pixel is the source pixel with red and blue exchanged; both pixels must be 4 bytes |
| Format.SwizzleMoves | src/format.rs:12-14 | red and blue trade places; green and alpha keep their positions |
| Format.SwizzleInvolution | src/format.rs:12-14 | swizzling twice gives the original pixel |
| Format.TryFrom | src/format.rs:23-28 | only Bgra8UnormSrgb converts; any other format is an UnsupportedTextureFormat error carrying that format |
| Format.TryFromOfFrom | src/format.rs:20-37 | converting a format to a texture format and back gives the format |
| Format.FromOfTryFrom | src/format.rs:20-37 | a texture format that converts converts back to itself |
| SliceExt.Overlay | src/slice_ext.rs:7 | the window's first bytes are the data, and every other byte is as before |
| SliceExt.Write | src/slice_ext.rs:6-9 | data that fits the window is copied to its front, and the remaining suffix of the window is returned |
| SliceExt.WriteChain | src/slice_ext.rs:6-9 | writing a and then b into the returned rest puts a ++ b at the front of the window |
| Bool.State.Write | src/bool.rs:14 | the serializer state's output grows by exactly the bytes written |
| Bool.BoolSerializer.constructor | src/bool.rs:52-56 | the serializer wraps the given state |
| Bool.BoolBitPattern | src/bool.rs:58-61 | a bool is stored as one byte, 0x01 exactly for true and 0x00 for false |
| Bool.Serialize | src/bool.rs:6-16 | serialising appends one byte, the value's bit pattern, to the state's output |
| Bool.Check | src/bool.rs:26-43 | a byte checks exactly when it is one of the two bit patterns, and any other byte is a `Bool` error carrying that byte |
| Bool.FromView | src/bool.rs:47-49 | `from_view` is the identity |
| Bool.CheckOfSerialized | src/bool.rs:12-42 | the byte `serialize` writes checks as the serialised value |
| Bool.SerializedOfCheck | src/bool.rs:36-42 | a byte that checks is the bit pattern of the value it checks as |
| Bool.Encoding | src/bool.rs:67-71 | false is 0x00 and true is 0x01, and every other byte is refused with itself as the error |
| Tallies.Tally | src/tally.rs:5-12 | the text is the decimal count, a space, the noun verbatim, and a trailing "s" when the count is not 1 |
| Tallies.CountReadBack | src/tally.rs:7 | the count can be parsed back from the front of the text |
| Tallies.PluralExactly | src/tally.rs:8-10 | the "s" is added exactly when the count is not 1 |
| Tallies.OneFilter | src/tally.rs:7-10 | one filter is written "1 filter" |
| Tallies.ZeroFilters | src/tally.rs:7-10 | zero filters are written "0 filters" |
| Frame.Head | src/frame.rs:11-16 | the line starts "frame ", then the decimal frame number, then " · " |
| Frame.Display | src/frame.rs:9-23 | the line is the head followed by the filter tally, and possibly more |
| Frame.NoRate | src/frame.rs:18-20 | without a frame rate nothing follows the tally |
| Frame.WithRate | src/frame.rs:18-20 | a frame rate adds " · {fps} fps" to the line shown without one |
| Frame.NumberReadBack | src/frame.rs:11-16 | the frame number can be parsed back from the line |
| Options.Resolution | src/options.rs:40-45 | the result is at least 1: a requested r ≥ 1 gives r, a request of 0 gives 1, and no request gives the larger window side raised to at least 1 |
| Options.RequestedIgnoresWindow | src/options.rs:41-44 | a requested resolution does not depend on the window size |
| Options.Default | src/options.rs:6 | the default options have every flag off and every value absent |
| Options.DefaultResolution | src/options.rs:6-45 | with the default options the resolution is the larger window side, at least 1 |
| Probe.From | src/subcommand/probe.rs:11-30 | channels and sample format are copied; the sample rate is one number when min equals max and "min–max" otherwise; the buffer size is "unknown" or always "min–max" |
| Probe.RangeReadBack | src/subcommand/probe.rs:22 | a "min–max" cell parses back as its two ends |
| Probe.SampleRateReadBack | src/subcommand/probe.rs:19-23 | the sample-rate cell parses back as the configuration's rate range |
| Probe.BufferSizeReadBack | src/subcommand/probe.rs:24-27 | the buffer-size cell parses back as the range, and "unknown" as no range |
| Probe.CellsDetermineRanges | src/subcommand/probe.rs:11-30 | two configurations with the same row have the same rate range and buffer size |
| Common.ChunkCount | src/track.rs:64 | `chunks(n)` makes ⌈len / n⌉ pieces |
| Common.FlattenChunks | src/track.rs:64 | the pieces of `chunks(n)`, concatenated, are the original sequence |
| Common.ChunkAt | src/track.rs:64 | piece i holds elements i·n up to (i+1)·n, cut at the end |
| Shared.Alignment | src/shared.rs:23-83 | every `ALIGNMENT` is 4, 8 or 16 bytes; 16, a matrix's, is the largest |
| Shared.SizeIsAligned | src/shared.rs:23-83 | every `SIZE` has room for the value's scalars and is a whole number of its alignments |
| Shared.ScalarOffset | src/shared.rs:58-90 | every scalar's 4-byte chunk lies inside the value's slot |
| Shared.Matrix3Offset | src/shared.rs:62-68 | row r of column c of a 3×3 matrix is written at byte 16c + 4r of the slot |
| Shared.ScalarOffsetsOrdered | src/shared.rs:58-90 | the scalar chunks come in increasing order and do not overlap |
| Shared.Pad | src/shared.rs:8 | the padded cursor is a multiple of the alignment, at least the cursor and less than an alignment past it |
| Shared.PadIsLeast | src/shared.rs:8 | no multiple of the alignment lies between the cursor and the padded cursor |
| Shared.SingleScalar | src/shared.rs:22-56 | a bool, f32, u32 or field is written as a single little-endian u32 at the start of its slot |
| Shared.LeRoundTrip | src/shared.rs:44-46 | the four `to_le_bytes` bytes of a u32 read back as that u32 |
| Shared.LeInverse | src/shared.rs:44-46 | four bytes read as a u32 give back the same bytes through `to_le_bytes` |
| Shared.OverwriteFrame | src/shared.rs:15-16 | writing a value changes no byte outside `buffer[start..start+SIZE]` |
| Shared.OverwriteScalar | src/shared.rs:58-90 | scalar s of a value occupies the four bytes at its chunk, little-endian |
| Shared.ReadAfterOverwrite | src/shared.rs:35-46 | reading a freshly written slot back gives the written 32-bit patterns |
| Shared.FromScalarsOfScalars | src/shared.rs:22-56 | the scalars a value writes decode back to that value |
| Shared.ScalarsOfFromScalars | src/shared.rs:22-56 | scalars that decode to a value are exactly that value's scalars |
| Shared.ReadValueAfterOverwrite | src/shared.rs:22-90 | the value read back from a freshly written slot is the written value |
| Shared.ReadScalarsLocal | src/shared.rs:16 | reading a slot back depends only on the slot's own bytes |
| Shared.FourByteSlot | src/shared.rs:22-56 | a bool, u32, f32 or field takes 4 bytes at 4-byte alignment and holds its little-endian u32; true is 01 00 00 00 and false 00 00 00 00 |
| Shared.Matrix3Scalar | src/shared.rs:62-68 | byte b of row r of column c of a 3×3 matrix is at byte 16c + 4r + b of its slot |
| Shared.Matrix3Padding | src/shared.rs:62-68 | the last four bytes of each 16-byte column keep their old values |
| Shared.PackedScalars | src/shared.rs:71-90 | a 4×4 matrix or 2-vector puts byte b of scalar k at byte 4k + b of its slot |
| Shared.WriteU32 | src/shared.rs:44-46 | `copy_from_slice(&x.to_le_bytes())` puts the u32's little-endian bytes in the slot and nothing else changes |
| Shared.WriteAligned | src/shared.rs:22-90 | every `write_aligned` leaves the buffer as the value's specification says |
| Shared.WriteScalar | src/shared.rs:65 | writing scalar n into its chunk extends the written prefix of the slot by that scalar |
| Shared.WriteMatrix3 | src/shared.rs:62-68 | the nested column and row loops write all nine scalars into their chunks |
| Shared.WriteChunks | src/shared.rs:75-79 | the scalar loop of Matrix4 and Vector2 writes every scalar into its chunk in order |
| Shared.Slot | src/shared.rs:7-11 | the slot starts at the cursor rounded up to a multiple of the alignment, and the cursor moves to start + SIZE |
| Shared.Write | src/shared.rs:13-17 | the watermark becomes max(old, ALIGNMENT), the cursor moves past the slot, and the buffer is written only inside the slot |
| Uniforms.ValuesKinds | src/uniforms.rs:4-23 | every record has the same field types in declaration order, whatever its values |
| Uniforms.CursorMonotone | src/uniforms.rs:29-46 | the cursor never moves back, and each field ends before the cursor of any later write |
| Uniforms.PackedUntouched | src/uniforms.rs:29-46 | a byte outside the slots of the first n fields keeps its old value |
| Uniforms.PackedKeepsPrefix | src/uniforms.rs:29-46 | later writes leave every byte before the current cursor alone |
| Uniforms.PackedKeepsSlot | src/uniforms.rs:29-46 | once a field is written, the later writes leave its slot alone |
| Uniforms.StartMonotone | src/uniforms.rs:29-46 | the fields' slots come in declaration order |
| Uniforms.PackedGap | src/uniforms.rs:29-46 | a byte in the alignment gap before a field is never written |
| Uniforms.PackedBeyond | src/uniforms.rs:29-46 | no byte from the final cursor on is written |
| Uniforms.ReadPackedField | src/uniforms.rs:29-46 | after the writes, each written field reads back from its slot as its value |
| Uniforms.LayoutFirst | src/uniforms.rs:29-34 | back_read, color, coordinates, field, filters and fit start at 0, 16, 80, 84, 88 and 92 |
| Uniforms.LayoutSecond | src/uniforms.rs:35-40 | frequency_range, front_offset, front_read, gain, index and offset start at 96, 104, 112, 116, 120 and 128 |
| Uniforms.LayoutThird | src/uniforms.rs:41-46 | position, repeat, resolution, sample_range, tiling and wrap start at 144, 192, 200, 208, 212 and 216; the final cursor is 220 and the watermark 16 |
| Uniforms.Layout | src/uniforms.rs:27-47 | the 18 fields start at the offsets of the layout table; the final cursor is 220, the largest alignment 16, and pad(220, 16) = 224 |
| Uniforms.StrideIs224 | src/uniforms.rs:47 | the returned size is 224 for every record |
| Uniforms.RecordStart | src/uniforms.rs:29-46 | field k of any record starts at its table offset |
| Uniforms.ReadRecordField | src/uniforms.rs:29-46 | every field reads back from its table offset as the value written |
| Uniforms.GapsUntouched | src/uniforms.rs:29-47 | bytes 4..16, 100..104, 124..128, 136..144, 196..200 and everything from 220 keep whatever the buffer held |
| Uniforms.PositionPaddingUntouched | src/uniforms.rs:41 | the last four bytes of each column of `position` keep whatever the buffer held |
| Uniforms.WriteField | src/uniforms.rs:29 | one `write` line puts field k at the cursor the first k writes left and advances cursor and watermark |
| Uniforms.WriteFields | src/uniforms.rs:29-46 | the writes in declaration order leave the buffer, cursor and watermark of the whole sequence |
| Uniforms.Write | src/uniforms.rs:26-48 | a buffer of at least 220 bytes holds the packed record afterwards, and the result is the record's stride, 224 |
| Tiling.Mul32 | src/tiling.rs:27 | a u32 product that fits is exact (the source's products wrap modulo 2^32 in release builds) |
| Tiling.ImageRead | src/tiling.rs:11-17 | a grid always reads the image; a single tile reads it exactly when the source is not read, on even filter counts |
| Tiling.SourceRead | src/tiling.rs:67-73 | a grid always reads the source; a single tile reads it exactly on odd filter counts |
| Tiling.Offset | src/tiling.rs:19-28 | both coordinates are whole, non-negative numbers below 2^32 (u32 pixel positions) |
| Tiling.Resolution | src/tiling.rs:30-32 | the cell extent is the tiling's width and height in whole pixels |
| Tiling.SetViewport | src/tiling.rs:34-50 | a viewport is set exactly when size ≠ 1, with the cell's resolution as extent and depth range 0..0 |
| Tiling.SourceOffset | src/tiling.rs:52-65 | filter 0 reads from the origin, whatever the size, because `checked_sub(1)` fails |
| Tiling.SingleTileParity | src/tiling.rs:11-73 | with one tile, image_read is k even and source_read is k odd, so exactly one holds |
| Tiling.GridReadsBoth | src/tiling.rs:11-73 | with any other size both reads hold |
| Tiling.SomeRead | src/tiling.rs:11-73 | for every size and count the two flags are never both false |
| Tiling.OffsetIsCell | src/tiling.rs:19-28 | on a grid, filter f's offset is (width·(f mod size), height·(f div size)) |
| Tiling.SingleTileOffset | src/tiling.rs:19-65 | with one tile the offset and source offset are the origin and no viewport is set |
| Tiling.ViewportIsCell | src/tiling.rs:34-50 | on a grid the viewport's origin is filter f's cell offset, so render and viewport agree |
| Tiling.SourceOffsetInUnit | src/tiling.rs:52-65 | the source offset's x lies in [0, 1) and its y is at least 0 |
| Tiling.SourceIsPreviousCell | src/tiling.rs:52-65 | on a grid, filter f's source offset times size is the column and row of filter f − 1's cell, and times the target's extent (size·width, size·height) it is that filter's offset |
| Image.ByteCount | src/image.rs:42 | width·height·4 as a u32: exact when it fits |
| Image.Image.Equals | src/image.rs:3 | the derived `PartialEq` holds exactly when the two images are equal as values (bytes, height, width) |
| Image.EqualsIsEquivalence | src/image.rs:3 | `PartialEq` is reflexive, symmetric and transitive, and equal images have equal bytes and dimensions |
| Image.Image.constructor | src/image.rs:3 | the default image is 0×0 with no data |
| Image.Image.SetData | src/image.rs:11-13 | writing through `data_mut` changes bytes but not the length or the dimensions |
| Image.Image.Resize | src/image.rs:39-43 | width and height are set, and the data is resized to width·height·4 bytes, zero-filled |
| Image.ResizedKeepsPrefix | src/image.rs:42 | resizing keeps the first min(old, new) bytes |
| Image.ResizedZeroFills | src/image.rs:42 | every byte past the old length is zero |
| Image.ResizedSameLength | src/image.rs:42 | resizing to the current length changes nothing |
| Image.ResizedIdempotent | src/image.rs:42 | resizing twice to the same length is resizing once |
| Image.ResizeToSame | src/image.rs:39-43 | resizing to the current dimensions, when the data already fits them, changes nothing |
| Video.UploadedRow | src/video.rs:127-133 | after n rows, byte b of frame row r is byte b of image row r |
| Video.UploadedKeeps | src/video.rs:132 | bytes from row_bytes up to the stride in each frame row, and bytes past the copied rows, are unchanged |
| Video.UploadedStep | src/video.rs:132 | copying image row n to the front of frame row n extends the upload by one row |
| Video.CopyRows | src/video.rs:127-133 | the row loop leaves the frame holding the first `rows` image rows at stride offsets |
| Video.CopyRow | src/video.rs:132 | one pass of the loop copies one more row |
| Video.DrainStopsAtFirst | src/video.rs:141-152 | the loop writes packets up to the first answer that is not a written packet, and succeeds exactly when that answer is Eof or EAGAIN |
| Video.VideoRecorder.constructor | src/video.rs:75-86 | a new recorder is unfinished with next_pts 0 |
| Video.VideoRecorder.Upload | src/video.rs:123-136 | the frame receives min(image rows, frame rows) rows, and the RGBA frame is stamped with next_pts |
| Video.VideoRecorder.WritePendingPackets | src/video.rs:138-155 | the packets written and the result are those the drain specification gives for the encoder's answers |
| Video.VideoRecorder.Encode | src/video.rs:89-108 | the image is uploaded and the RGBA frame stamped with the old next_pts; a scaler failure is an error that leaves next_pts; otherwise next_pts grows by 1 (timestamps run 0, 1, 2, …), and when the frame is sent the pending packets are drained into the output |
| Video.VideoRecorder.Finish | src/video.rs:110-121 | a finished recorder returns Ok without acting; otherwise finished is set only when end of stream, the packet drain and the trailer all succeed |
| Video.FinishTwice | src/video.rs:110-121 | after a successful finish, a second finish succeeds and changes nothing |
| Recorder.DurationSince | src/recorder.rs:47 | the duration is next − time, and 0 when next is earlier |
| Recorder.FramePathInjective | src/recorder.rs:17 | different frame numbers give different file names |
| Recorder.EntryCounts | src/recorder.rs:41-51 | each frame gives one file line, and one duration line exactly when a frame follows it |
| Recorder.EntryText | src/recorder.rs:42-50 | frame i's text is "file {i}.png\n", then "duration {d}us\n" when a frame follows |
| Recorder.ScriptStep | src/recorder.rs:40-51 | the script starts as the header and grows by one frame's lines per loop pass |
| Recorder.LinesShape | src/recorder.rs:41-51 | line 2i names frame i and line 2i + 1 gives the time from frame i to frame i + 1 |
| Recorder.LineCountsUpTo | src/recorder.rs:41-51 | the first k frames give k file lines and a duration line for each of them that has a successor |
| Recorder.LineCounts | src/recorder.rs:41-51 | n frames give n file lines and max(n − 1, 0) duration lines |
| Recorder.TextAppend | src/recorder.rs:41-51 | the text of two runs of lines is the text of the first and then of the second |
| Recorder.Recorder.constructor | src/recorder.rs:24-29 | a new recorder has no frames |
| Recorder.Recorder.Frame | src/recorder.rs:13-22 | the frame is saved as "{n}.png" with n the frames so far, and its time is appended only when the save succeeds |
| Recorder.Recorder.ConcatScript | src/recorder.rs:40-51 | the loop builds the header followed by every frame's lines |
| Recorder.Recorder.Save | src/recorder.rs:31-79 | the script is built, and the first failing step among write, ffmpeg invocation, ffmpeg status and rename decides the error |
| Recorder.AppendEntry | src/recorder.rs:42-50 | one loop pass appends frame i's file line and, when a frame follows, its duration line |
| Recorder.FileLinesNameFrames | src/recorder.rs:42 | the script's file lines name the files `frame` saved |
| Track.Track.constructor | src/track.rs:17-21 | a new track has an empty buffer and is not exhausted |
| Track.Track.Next | src/track.rs:79-92 | a decoded sample is appended to the buffer and returned; at the end the track is marked exhausted, returns None and keeps its buffer |
| Track.Track.Done | src/track.rs:52-55 | a done track has run its decoder dry and has nothing left to drain; DrainWhenExhausted shows a dry decoder gets there after one next and one drain |
| Track.Track.Drain | src/track.rs:57-69 | the caller's samples are kept, one mixed value per chunk of `channels` samples is appended in order, and the buffer is cleared |
| Track.DrainedValues | src/track.rs:61-66 | drain appends ⌈len / channels⌉ values, the i-th the mix of samples i·channels up to (i+1)·channels |
| Track.DrainWhenExhausted | src/track.rs:52-55 | once the decoder is dry, a `next` and a `drain` leave the track done |
| Tap.Tap.constructor | src/tap.rs:16-19 | a new tap has an empty buffer |
| Tap.Tap.Next | src/tap.rs:54-62 | a decoded sample is appended to the buffer and returned; at the end None is returned and the buffer is unchanged |
| Tap.Tap.Drain | src/tap.rs:42-44 | the whole buffer follows the caller's samples in order, and the buffer is left empty |
| Tap.NextThenDrain | src/tap.rs:42-62 | decoding, buffering and draining lose and duplicate nothing |
| Chains.Push | src/chain.rs:35-38 | the list grows by one, and its new last element is the template, which is unchanged |
| Chains.Default | src/chain.rs:3-7 | the default chain has the default template and converts to an empty list |
| Chains.Times | src/chain.rs:50-55 | the loop is n pushes in a row |
| Chains.RepeatAppends | src/chain.rs:50-55 | n pushes append exactly n copies of the template and leave the template as it was |
| Chains.IntoPush | src/chain.rs:68-72 | the converted list ends with each pushed filter, after the earlier ones |
| Chains.Bottom | src/chain.rs:10-13 | the template draws Bottom; its other parts and the list are unchanged |
| Chains.Circle | src/chain.rs:15-18 | the template draws Circle; its other parts and the list are unchanged |
| Chains.Frequencies | src/chain.rs:20-23 | the template draws Frequencies; its other parts and the list are unchanged |
| Chains.Samples | src/chain.rs:40-43 | the template draws Samples; its other parts and the list are unchanged |
| Chains.Top | src/chain.rs:57-60 | the template draws Top; its other parts and the list are unchanged |
| Chains.X | src/chain.rs:62-65 | the template draws X; its other parts and the list are unchanged |
| Chains.Invert | src/chain.rs:25-28 | the template's colour matrix becomes `invert_color()`; its other parts and the list are unchanged |
| Chains.InvertR | src/chain.rs:30-33 | the template's colour matrix becomes diag(−1, 1, 1, 1); its other parts and the list are unchanged |
| Chains.Scale | src/chain.rs:45-48 | the template's position matrix is multiplied by a scaling by n; its other parts and the list are unchanged |
| Chains.Into | src/chain.rs:68-72 | the conversion is the list of pushed filters, without the template; with IntoPush, each push lands at its end |
| States.Default | src/state.rs:3-11 | the default state has no filters, db 0, no text, and the default template |
| States.Push | src/state.rs:44-47 | the list grows by one, its new last element is the template, and db, text and template are unchanged |
| States.Times | src/state.rs:64-69 | the loop is n pushes in a row |
| States.RepeatAppends | src/state.rs:64-69 | n pushes append exactly n copies of the template and change nothing else |
| States.All | src/program.rs:22 | the template draws All; its other parts, the list, db and text are unchanged |
| States.Bottom | src/state.rs:14-17 | the template draws Bottom; its other parts, the list, db and text are unchanged |
| States.Circle | src/state.rs:19-22 | the template draws Circle; its other parts, the list, db and text are unchanged |
| States.Frequencies | src/state.rs:29-32 | the template draws Frequencies; its other parts, the list, db and text are unchanged |
| States.Samples | src/state.rs:49-52 | the template draws Samples; its other parts, the list, db and text are unchanged |
| States.Top | src/state.rs:71-74 | the template draws Top; its other parts, the list, db and text are unchanged |
| States.X | src/state.rs:76-79 | the template draws X; its other parts, the list, db and text are unchanged |
| States.Invert | src/state.rs:34-37 | the template's colour matrix becomes `invert_color()`; the rest of the state is unchanged |
| States.InvertR | src/state.rs:39-42 | the template's colour matrix becomes diag(−1, 1, 1, 1); the rest of the state is unchanged |
| States.Scale | src/state.rs:54-57 | the template's position matrix is multiplied by a scaling by n; the rest of the state is unchanged |
| States.Db | src/state.rs:24-27 | db becomes d, exactly, and nothing else changes |
| States.SetText | src/state.rs:59-62 | the text overlay becomes t and nothing else changes |
| Programs.State | src/program.rs:20-45 | every preset but None draws at least one filter, and every filter a preset draws inverts colours (all channels, or only red) |
| Programs.NoFilters | src/program.rs:39 | `None` yields the default state, with no filters |
| Programs.HighwaystarFilters | src/program.rs:37 | `Highwaystar` yields 8 identical inverted circle filters scaled by 2 |
| Programs.MiddleFields | src/program.rs:38 | `Middle` yields the fields Top, Bottom in that order |
| Programs.RipFields | src/program.rs:41 | `Rip` yields the fields Top, Samples in that order |
| Programs.SingleFilter | src/program.rs:22-43 | All, Bottom, Circle, Frequencies, RedX, Top and X each yield one filter with the matching field, and RedX has the red-inverting colour |
| Programs.HelloState | src/program.rs:26-36 | `Hello` sets db −40 and the "hello world" text at size 0.05, x 0.10, y −0.10, and yields one Frequencies filter |
| Programs.OnlyHelloHasText | src/program.rs:20-45 | every other preset keeps db 0 and no text |
| Analyzer.Input.constructor | src/analyzer.rs:41 | the capture queue starts empty |
| Analyzer.Input.Extend | src/analyzer.rs:48-50 | the callback's samples are queued behind the earlier ones |
| Analyzer.Input.Drain | src/analyzer.rs:69-72 | the old samples are cleared and the whole queue takes their place in FIFO order, leaving the queue empty |
| Analyzer.Smooth | src/analyzer.rs:147-151 | an infinite level leaves dba unchanged; a finite one moves dba 0.9 of the way to it, staying between the two |
| Analyzer.PowerFirstHalf | src/analyzer.rs:139-145 | bins from len / 2 on do not affect the power |
| Analyzer.BelowNyquist | src/analyzer.rs:140-143 | every bin the loop weights stands for a frequency in [0, rate / 2) |
| Analyzer.SteadyLevel | src/analyzer.rs:150 | a steady finite level is a fixed point of the smoothing |
| Analyzer.WeightedPower | src/analyzer.rs:139-145 | the loop sums norm_sqr · a_weight(i·rate/len) over exactly the first len / 2 bins |
| Analyzer.Spectrum | src/analyzer.rs:117-137 | the complex bins are the transformed samples, and the frequencies their magnitudes |
| Analyzer.Grown | src/analyzer.rs:123-125 | the scratch never shrinks, reaches the required length, and is extended with zeros |
| Analyzer.Analyzer.constructor | src/analyzer.rs:95-103 | a new analyzer has every buffer empty and dba 0 |
| Analyzer.Analyzer.Update | src/analyzer.rs:114-152 | samples come from the queue; complex bins and frequencies have the samples' length; the scratch is at least the plan's length and keeps its prefix; dba is smoothed unless the level is infinite |

## Left out

- **Shared.Pad:** `pad` is not part of this model. It is assumed to round up to the nearest multiple of a positive alignment; nothing else about it is known.
- **Shared**, f32 values: they are carried as their 32-bit patterns and never computed with, so the model does no floating point.
- **Uniforms.Write:** the 18 `write` lines are written as one loop over the record's fields in declaration order (`Uniforms.WriteFields`). The source's straight-line code makes the same calls in the same order.
- **Bool.State.Write:** `State` is not part of this model. Its `write` is assumed to append the given bytes to the serializer's output, and `Bool.Serialize` and its row rest on that assumption.
- **Bool.Serialize:** the continuation `C` that `serializer.state.continuation()` returns is dropped. The method states only what is written.
- **Fields:** Bottom, Top, Frequencies and Samples are used by the builders but are not in the enum as declared. They get the codes 4 to 7, which nothing relies on.
- **Filters, Chains, States:** matrices are symbolic (identity, `invert_color()`, diag(−1, 1, 1, 1), scaled by a factor). Their f32 contents and the product in `scale` are not modelled.
- **States:** the `alpha` and `parameter` fields (u7-to-f32 parameters) are left out.
- **States.All:** `State::all` is not part of this model. It is taken to be the field setter for All, like the other field setters.
- **Tiling.Offset, Tiling.SetViewport:** the `as f32` conversion is modelled as exact, so values above 2^24 are not rounded.
- **Tiling.SourceOffset:** `col as f32 / size as f32` is kept as the exact ratio of the two integers, not the rounded f32 quotient. So `Tiling.SourceIsPreviousCell`'s "times size gives the column" holds for the ratio, not necessarily for the f32 value.
- **Tiling.OffsetIsCell:** it is stated for products below 2^32. Beyond that, `Mul32` wraps as a release build does, where a debug build would panic.
- **Image.ByteCount:** the u32 product wraps modulo 2^32, as in a release build. A debug build would panic on overflow instead.
- **Image:** `Image::load` and `Image::save` (PNG decoding and encoding, file I/O) are left out. They are foreign codecs.
- **Video.VideoRecorder.Upload:** `CHANNELS` is not part of this model, so it is a parameter. The RGBA frame's stride is a constant of the recorder, because ffmpeg chooses it.
- **Video.VideoRecorder.Upload:** `UploadFits` is required, meaning every copied image chunk is a whole row and every frame row holds one. Otherwise the source panics.
- **Video.VideoRecorder.Encode:** `next_pts` is an unbounded integer, so i64 overflow is not modelled.
- **Video:** `VideoRecorder::new`'s ffmpeg setup is left out: codec lookup, stream parameters, frame rate conversion, header and scaler creation. The model starts from the state it returns.
- **Video:** the ffmpeg calls are outcomes given as parameters. The scaler, `send_frame`, `send_eof` and `write_trailer` succeed or fail. `receive_packet` answers from a script where the end of the script means EAGAIN. `Again` stands for every `Other { errno }` answer whose errno is EAGAIN, and `Failure` for any other error. `set_stream`, `rescale_ts` and the packet contents are not modelled.
- **Recorder:** the temporary directory, the `log` calls, the PNG save, `fs::write`, the ffmpeg process and `fs::rename` are outcomes given as parameters. Frame paths are the file names, without the directory.
- **Recorder:** capture times are natural numbers of microseconds.
- **Recorder.DurationSince:** it saturates at zero, as `Instant::duration_since` does.
- **Track, Tap:** the rodio decoder is the finite sequence of samples it still has to yield. Sharing through `Arc<RwLock>` is a shared class reference. Concurrent access is not modelled.
- **Track, Tap:** the `Source` pass-throughs (`channels`, `sample_rate`, `current_frame_len`, `total_duration`) are not modelled.
- **Track.Track.Drain:** the f32 average of a chunk is the parameter `mix`. A zero channel count panics in `chunks`, so it is required to be positive.
- **Frame:** the frame rate arrives already rounded to a whole number. The `{fps:.0}` formatting of an f32 is left out.
- **Probe:** `probe::run` (device lookup and table printing) is left out, because it is device I/O.
- **Options:** the clap attributes are left out, and so is every field other than `resolution`, which are only carried around.
- **Analyzer:** `Input::new`, `Input::play` and the cpal stream are left out; the model's `Input` is the queue that the callback extends.
- **Analyzer:** the FFT, its scratch length, `norm`, `norm_sqr`, `a_weight` and `10 · log10` are function parameters. The level is finite or infinite, and NaN is not modelled.
- **Analyzer:** the scratch contents after the transform are not modelled.
- **Analyzer.WeightedPower, Analyzer.Spectrum:** in the source the samples, the bins, the `power` sum and the bin frequency `i as f32 * sample_rate as f32 / len as f32` are f32. The model uses exact reals, so rounding and the order of f32 additions are not modelled.
- **Analyzer.Smooth:** it computes over reals, so `1.0 - ALPHA` is exactly 0.1 and f32 rounding is not modelled.
- Outside the core, nothing else is modelled: the renderer, GPU targets and bindings, the window and event loop, the MIDI hub, the CLI dispatch, error and message declarations, and value/parameter scaling. They are foreign-API plumbing, concurrency, or declarations without behaviour.
