/**
 * The H.264 recorder (src/video.rs): each rendered image is copied row by
 * row into an RGBA frame with its own row stride, converted, stamped with
 * the next presentation timestamp and handed to the encoder, whose pending
 * packets are then written out.
 *
 * ffmpeg is not modelled. Its answers come in as parameters: whether the
 * scaler, `send_frame`, `send_eof` and `write_trailer` succeed, and the
 * sequence of answers `receive_packet` gives over the recorder's life.
 */
module Video {
  import opened Common
  import SliceExt
  import Image

  /** The number of rows `upload` copies: `zip` stops at the shorter of the two chunk sequences. */
  function Rows(dataLen: nat, rowBytes: nat, frameLen: nat, stride: nat): nat
    requires rowBytes > 0 && stride > 0
  {
    Min((dataLen + rowBytes - 1) / rowBytes, (frameLen + stride - 1) / stride)
  }

  /**
   * What `upload` needs not to panic, for the rows it copies: every image
   * chunk is a whole row (`copy_from_slice` wants equal lengths), and every
   * frame chunk holds at least a row (`dst[..row_bytes]`). The last copied
   * row is the binding one.
   */
  predicate UploadFits(dataLen: nat, rowBytes: nat, frameLen: nat, stride: nat)
    requires rowBytes > 0 && stride > 0
  {
    RowsFit(dataLen, rowBytes, frameLen, stride, Rows(dataLen, rowBytes, frameLen, stride))
  }

  /** Rows 0 to n - 1 are whole in the image and their frame rows hold them. */
  predicate RowsFit(dataLen: nat, rowBytes: nat, frameLen: nat, stride: nat, n: nat) {
    n == 0 || (n * rowBytes <= dataLen && rowBytes <= stride && (n - 1) * stride + rowBytes <= frameLen)
  }

  /** Fewer rows fit whenever more do. */
  lemma RowsFitFewer(dataLen: nat, rowBytes: nat, frameLen: nat, stride: nat, m: nat, n: nat)
    requires m <= n && RowsFit(dataLen, rowBytes, frameLen, stride, n)
    ensures RowsFit(dataLen, rowBytes, frameLen, stride, m)
  {
    if 0 < m {
      MulMonotone(m, n, rowBytes);
      MulMonotone(m - 1, n - 1, stride);
    }
  }

  /** Column m of image row q lies within the image when q is one of n whole rows. */
  lemma InImage(rowBytes: nat, n: nat, q: nat, m: nat, dataLen: nat)
    requires q < n && m < rowBytes && n * rowBytes <= dataLen
    ensures q * rowBytes + m < dataLen
  {
    MulMonotone(q + 1, n, rowBytes);
    MulStep(q, rowBytes);
  }

  /**
   * The frame after the first n image rows were copied: byte j, at column
   * j % stride of frame row j / stride, holds the same column of the image
   * row with that number when the row is one of the n and the column is
   * within a row; every other byte is as it was.
   */
  function Uploaded(frame: seq<byte>, data: seq<byte>, rowBytes: nat, stride: nat, n: nat): (r: seq<byte>)
    requires stride > 0 && RowsFit(|data|, rowBytes, |frame|, stride, n)
    ensures |r| == |frame|
  {
    seq(|frame|, j requires 0 <= j < |frame| => UploadedByte(frame, data, rowBytes, stride, n, j))
  }

  /** Byte j of the frame after the first n image rows were copied. */
  function UploadedByte(frame: seq<byte>, data: seq<byte>, rowBytes: nat, stride: nat, n: nat, j: nat): byte
    requires stride > 0 && RowsFit(|data|, rowBytes, |frame|, stride, n) && j < |frame|
  {
    var q, m := j / stride, j % stride;
    if q < n && m < rowBytes then InImage(rowBytes, n, q, m, |data|); data[q * rowBytes + m] else frame[j]
  }

  /** After n rows, byte b of frame row r (r < n, b < rowBytes) is byte b of image row r. */
  lemma UploadedRow(frame: seq<byte>, data: seq<byte>, rowBytes: nat, stride: nat, n: nat, r: nat, b: nat)
    requires stride > 0 && RowsFit(|data|, rowBytes, |frame|, stride, n)
    requires r < n && b < rowBytes
    ensures r * stride + b < |frame| && r * rowBytes + b < |data|
    ensures Uploaded(frame, data, rowBytes, stride, n)[r * stride + b] == data[r * rowBytes + b]
  {
    MulMonotone(r, n - 1, stride);
    InImage(rowBytes, n, r, b, |data|);
    DivModUnique(r * stride + b, stride, r, b);
  }

  /**
   * Nothing else is written: a byte at or past rowBytes within its stride,
   * or past the first n frame rows, keeps its value.
   */
  lemma UploadedKeeps(frame: seq<byte>, data: seq<byte>, rowBytes: nat, stride: nat, n: nat, j: nat)
    requires stride > 0 && RowsFit(|data|, rowBytes, |frame|, stride, n)
    requires j < |frame| && (j % stride >= rowBytes || j >= n * stride)
    ensures Uploaded(frame, data, rowBytes, stride, n)[j] == frame[j]
  {
    var q, m := j / stride, j % stride;
    assert j == q * stride + m;
    if m < rowBytes && q < n {
      MulMonotone(q + 1, n, stride);
      MulStep(q, stride);
      assert false;
    }
    assert Uploaded(frame, data, rowBytes, stride, n)[j] == UploadedByte(frame, data, rowBytes, stride, n, j);
  }

  /** Copying image row n onto frame row n, byte j: the byte the frame holding n + 1 rows has. */
  lemma UploadedStepAt(frame: seq<byte>, data: seq<byte>, rowBytes: nat, stride: nat, n: nat, j: nat)
    requires stride > 0 && RowsFit(|data|, rowBytes, |frame|, stride, n + 1) && j < |frame|
    ensures RowsFit(|data|, rowBytes, |frame|, stride, n)
    ensures n * rowBytes + rowBytes <= |data| && n * stride + rowBytes <= |frame|
    ensures SliceExt.Overlay(Uploaded(frame, data, rowBytes, stride, n), n * stride, data[n * rowBytes..n * rowBytes + rowBytes])[j]
      == Uploaded(frame, data, rowBytes, stride, n + 1)[j]
  {
    RowsFitFewer(|data|, rowBytes, |frame|, stride, n, n + 1);
    MulStep(n, rowBytes);
    var q, m := j / stride, j % stride;
    assert j == q * stride + m;
    var lo := n * stride;
    if lo <= j < lo + rowBytes {
      DivModUnique(j, stride, n, j - lo);
    } else if q == n && m < rowBytes {
      assert false;
    }
  }

  /** Copying image row n onto frame row n turns the frame holding n rows into the one holding n + 1. */
  lemma UploadedStep(frame: seq<byte>, data: seq<byte>, rowBytes: nat, stride: nat, n: nat)
    requires stride > 0 && RowsFit(|data|, rowBytes, |frame|, stride, n + 1)
    ensures RowsFit(|data|, rowBytes, |frame|, stride, n)
    ensures n * rowBytes + rowBytes <= |data| && n * stride + rowBytes <= |frame|
    ensures SliceExt.Overlay(Uploaded(frame, data, rowBytes, stride, n), n * stride, data[n * rowBytes..n * rowBytes + rowBytes])
      == Uploaded(frame, data, rowBytes, stride, n + 1)
  {
    RowsFitFewer(|data|, rowBytes, |frame|, stride, n, n + 1);
    MulStep(n, rowBytes);
    if n > 0 {
      MulStep(n - 1, stride);
    }
    var after := SliceExt.Overlay(Uploaded(frame, data, rowBytes, stride, n), n * stride, data[n * rowBytes..n * rowBytes + rowBytes]);
    var next := Uploaded(frame, data, rowBytes, stride, n + 1);
    forall j | 0 <= j < |frame|
      ensures after[j] == next[j]
    {
      UploadedStepAt(frame, data, rowBytes, stride, n, j);
    }
  }

  /**
   * The loop of `upload`: image row r to the front of frame row r, each
   * through `SliceExt::write` on the frame row's window.
   */
  method CopyRows(frame: array<byte>, data: seq<byte>, rowBytes: nat, stride: nat, rows: nat)
    requires stride > 0 && RowsFit(|data|, rowBytes, frame.Length, stride, rows)
    modifies frame
    ensures frame[..] == Uploaded(old(frame[..]), data, rowBytes, stride, rows)
  {
    ghost var frame0 := frame[..];
    for r := 0 to rows
      invariant RowsFit(|data|, rowBytes, |frame0|, stride, r)
      invariant frame[..] == Uploaded(frame0, data, rowBytes, stride, r)
    {
      RowsFitFewer(|data|, rowBytes, frame.Length, stride, r + 1, rows);
      CopyRow(frame, data, rowBytes, stride, r, frame0);
    }
  }

  /** One pass of that loop: row r goes in, and the frame then holds r + 1 rows. */
  method CopyRow(frame: array<byte>, data: seq<byte>, rowBytes: nat, stride: nat, r: nat, ghost frame0: seq<byte>)
    requires stride > 0 && |frame0| == frame.Length && RowsFit(|data|, rowBytes, frame.Length, stride, r + 1)
    requires RowsFit(|data|, rowBytes, frame.Length, stride, r) && frame[..] == Uploaded(frame0, data, rowBytes, stride, r)
    modifies frame
    ensures frame[..] == Uploaded(frame0, data, rowBytes, stride, r + 1)
  {
    UploadedStep(frame0, data, rowBytes, stride, r);
    var lo, src := r * stride, r * rowBytes;
    var _, _ := SliceExt.Write(frame, lo, Min(lo + stride, frame.Length), data[src..src + rowBytes]);
  }

  /**
   * What `encoder.receive_packet` answers; for a packet, whether
   * `write_interleaved` then succeeds. `Again` stands for every
   * `Error::Other { errno }` with errno EAGAIN, so a `Failure` carries
   * any other error.
   */
  datatype Receive = Packet(id: nat, writeOk: bool) | Eof | Again | Failure(errno: int)

  /** The packets written, the answers not yet consumed, and whether the loop ended without error. */
  datatype Drained = Drained(written: seq<nat>, rest: seq<Receive>, ok: bool)

  /** A packet received and written: the loop goes on. */
  predicate Continues(a: Receive) { a.Packet? && a.writeOk }

  /**
   * The loop of `write_pending_packets` over the encoder's answers. An
   * encoder with nothing queued answers EAGAIN.
   */
  function Drain(answers: seq<Receive>): Drained
    decreases |answers|
  {
    if answers == [] then Drained([], [], true)
    else
      match answers[0]
      case Packet(id, writeOk) =>
        if writeOk then
          var d := Drain(answers[1..]);
          Drained([id] + d.written, d.rest, d.ok)
        else Drained([], answers[1..], false)
      case Eof => Drained([], answers[1..], true)
      case Again => Drained([], answers[1..], true)
      case Failure(_) => Drained([], answers[1..], false)
  }

  /**
   * The loop writes the packets up to the first answer that is not a written
   * packet, consumes that answer too, and succeeds exactly when it was Eof or
   * EAGAIN; every other error is passed on.
   */
  lemma {:induction false} DrainStopsAtFirst(answers: seq<Receive>)
    ensures var d, k := Drain(answers), |Drain(answers).written|;
      k <= |answers| &&
      (forall i :: 0 <= i < k ==> Continues(answers[i]) && d.written[i] == answers[i].id) &&
      (k < |answers| ==> !Continues(answers[k]) && d.rest == answers[k + 1..] && (d.ok <==> answers[k].Eof? || answers[k].Again?)) &&
      (k == |answers| ==> d.rest == [] && d.ok)
    decreases |answers|
  {
    if answers != [] && Continues(answers[0]) {
      DrainStopsAtFirst(answers[1..]);
      var d := Drain(answers);
      assert d.written == [answers[0].id] + Drain(answers[1..]).written;
    }
  }

  datatype VideoError = VideoEncode | VideoFinish

  class VideoRecorder {
    var finished: bool
    var nextPts: int
    /** The timestamps set on the YUV frames, in order. */
    var stamped: seq<int>
    /** The timestamp last set on the RGBA frame. */
    var rgbaPts: Option<int>
    /** Plane 0 of the RGBA frame. */
    const rgba: array<byte>
    /** Its row stride in bytes. */
    const stride: nat
    /** What `receive_packet` will answer from now on. */
    var answers: seq<Receive>
    /** The packets written to the output, in order. */
    var output: seq<nat>

    /** The timestamps run 0, 1, 2, … and `next_pts` is the next one. */
    ghost predicate Valid()
      reads this
    {
      nextPts == |stamped| && forall i :: 0 <= i < |stamped| ==> stamped[i] == i
    }

    /** The state `VideoRecorder::new` leaves once ffmpeg is set up. */
    constructor (frameBytes: nat, stride: nat, answers: seq<Receive>)
      ensures !finished && nextPts == 0 && stamped == [] && rgbaPts == None && output == []
      ensures this.answers == answers && this.stride == stride
      ensures fresh(rgba) && rgba.Length == frameBytes
      ensures Valid()
    {
      finished, nextPts, stamped, rgbaPts, output := false, 0, [], None, [];
      this.answers := answers;
      this.stride := stride;
      rgba := new byte[frameBytes](_ => 0);
    }

    /**
     * `upload`: image row r goes to the front of frame row r, for as many rows
     * as both have; `chunks` by a zero row size or stride panics.
     */
    method Upload(image: Image.Image, channels: nat)
      requires image.width * channels > 0 && stride > 0
      requires UploadFits(|image.data|, image.width * channels, rgba.Length, stride)
      modifies rgba, `rgbaPts
      ensures rgba[..] == Uploaded(old(rgba[..]), image.data, image.width * channels, stride, Rows(|image.data|, image.width * channels, rgba.Length, stride))
      ensures rgbaPts == Some(nextPts)
    {
      var rowBytes := image.width * channels;
      CopyRows(rgba, image.data, rowBytes, stride, Rows(|image.data|, rowBytes, rgba.Length, stride));
      rgbaPts := Some(nextPts);
    }

    /** `write_pending_packets` */
    method WritePendingPackets() returns (ok: bool)
      modifies `answers, `output
      ensures output == old(output) + Drain(old(answers)).written
      ensures answers == Drain(old(answers)).rest
      ensures ok == Drain(old(answers)).ok
    {
      ghost var a0, o0 := answers, output;
      ok := true;
      var going := true;
      while going
        invariant going ==> o0 + Drain(a0).written == output + Drain(answers).written
        invariant going ==> Drain(a0).rest == Drain(answers).rest && Drain(a0).ok == Drain(answers).ok && ok
        invariant !going ==> output == o0 + Drain(a0).written && answers == Drain(a0).rest && ok == Drain(a0).ok
        decreases going, |answers|
      {
        if answers == [] {
          going := false;
        } else {
          var answer := answers[0];
          ghost var before := answers;
          answers := answers[1..];
          match answer
          case Packet(id, writeOk) =>
            if writeOk {
              output := output + [id];
            } else {
              ok, going := false, false;
            }
          case Eof =>
            going := false;
          case Again =>
            going := false;
          case Failure(_) =>
            ok, going := false, false;
        }
      }
    }

    /**
     * `encode`: upload, run the scaler, stamp the next timestamp and count it,
     * send the frame, and write what the encoder has ready.
     */
    method Encode(image: Image.Image, channels: nat, scalerOk: bool, sendOk: bool) returns (result: Result<(), VideoError>)
      requires Valid()
      requires image.width * channels > 0 && stride > 0
      requires UploadFits(|image.data|, image.width * channels, rgba.Length, stride)
      modifies this, rgba
      ensures Valid()
      ensures rgba[..] == Uploaded(old(rgba[..]), image.data, image.width * channels, stride, Rows(|image.data|, image.width * channels, rgba.Length, stride))
      ensures rgbaPts == Some(old(nextPts)) && finished == old(finished)
      ensures !scalerOk ==> result == Err(VideoEncode) && nextPts == old(nextPts) && stamped == old(stamped)
      ensures scalerOk ==> nextPts == old(nextPts) + 1 && stamped == old(stamped) + [old(nextPts)]
      ensures !(scalerOk && sendOk) ==> output == old(output) && answers == old(answers)
      ensures scalerOk && !sendOk ==> result == Err(VideoEncode)
      ensures scalerOk && sendOk ==>
        output == old(output) + Drain(old(answers)).written && answers == Drain(old(answers)).rest &&
        (result.Ok? <==> Drain(old(answers)).ok) && (result.Err? ==> result.error == VideoEncode)
    {
      Upload(image, channels);
      if !scalerOk {
        return Err(VideoEncode);
      }
      var pts := nextPts;
      nextPts := nextPts + 1;
      stamped := stamped + [pts];
      if !sendOk {
        return Err(VideoEncode);
      }
      var ok := WritePendingPackets();
      if !ok {
        return Err(VideoEncode);
      }
      return Ok(());
    }

    /**
     * `finish`: once finished it does nothing; otherwise it sends end of
     * stream, writes the remaining packets and the trailer, and only when all
     * three succeed records that it is finished.
     */
    method Finish(eofOk: bool, trailerOk: bool) returns (result: Result<(), VideoError>)
      modifies `finished, `answers, `output
      ensures old(finished) ==> result == Ok(()) && finished && answers == old(answers) && output == old(output)
      ensures !old(finished) && !eofOk ==> result == Err(VideoFinish) && answers == old(answers) && output == old(output)
      ensures !old(finished) && eofOk ==> output == old(output) + Drain(old(answers)).written && answers == Drain(old(answers)).rest
      ensures finished <==> old(finished) || (eofOk && Drain(old(answers)).ok && trailerOk)
      ensures result.Ok? <==> finished
      ensures result.Err? ==> result.error == VideoFinish
    {
      if finished {
        return Ok(());
      }
      if !eofOk {
        return Err(VideoFinish);
      }
      var ok := WritePendingPackets();
      if !ok || !trailerOk {
        return Err(VideoFinish);
      }
      finished := true;
      return Ok(());
    }
  }

  /** Finishing twice: once the first call succeeds, the second finds the recorder finished and changes nothing. */
  method FinishTwice(v: VideoRecorder, eofOk: bool, trailerOk: bool, eofOk': bool, trailerOk': bool)
    returns (first: Result<(), VideoError>, second: Result<(), VideoError>)
    modifies v
    ensures first.Ok? ==> second == Ok(()) && v.finished
    ensures !old(v.finished) && first.Ok? ==> v.answers == Drain(old(v.answers)).rest && v.output == old(v.output) + Drain(old(v.answers)).written
  {
    first := v.Finish(eofOk, trailerOk);
    second := v.Finish(eofOk', trailerOk');
  }
}
