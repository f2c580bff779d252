/**
 * The frame recorder (src/recorder.rs): every captured frame is saved as a
 * numbered PNG and its capture time kept; saving the recording writes an
 * `ffconcat` script that lists the frames in order with the time each one
 * stays on screen, for ffmpeg to encode.
 *
 * Times are instants in microseconds. The temporary directory, the PNG
 * encoder, the file system and the ffmpeg process are not modelled: their
 * outcomes come in as parameters.
 */
module Recorder {
  import opened Common

  /** `Instant::duration_since` in microseconds: it saturates to zero when `next` is the earlier one. */
  function DurationSince(next: nat, time: nat): (d: nat)
    ensures time <= next ==> time + d == next
    ensures next < time ==> d == 0
  {
    if time <= next then next - time else 0
  }

  /** The file name frame n is saved under: "{n}.png". */
  function FramePath(n: nat): string {
    Decimal(n) + ".png"
  }

  /** Different frames are saved under different names. */
  lemma FramePathInjective(m: nat, n: nat)
    ensures FramePath(m) == FramePath(n) ==> m == n
  {
    if FramePath(m) == FramePath(n) {
      assert Decimal(m) == FramePath(m)[..|FramePath(m)| - 4];
      assert Decimal(n) == FramePath(n)[..|FramePath(n)| - 4];
      DecimalInjective(m, n);
    }
  }

  /** A line of the concat script, without its newline. */
  datatype Line = FileLine(index: nat) | DurationLine(micros: nat)

  function Render(l: Line): string {
    match l
    case FileLine(i) => "file " + FramePath(i)
    case DurationLine(d) => "duration " + Decimal(d) + "us"
  }

  const Header: string := "ffconcat version 1.0\n"

  /** The lines for frame i: its file, then its duration when a frame follows it. */
  function EntryLines(frames: seq<nat>, i: nat): seq<Line>
    requires i < |frames|
  {
    [FileLine(i)] + if i + 1 < |frames| then [DurationLine(DurationSince(frames[i + 1], frames[i]))] else []
  }

  /** Frame i contributes one file line, and one duration line when a frame follows it. */
  lemma EntryCounts(frames: seq<nat>, i: nat)
    requires i < |frames|
    ensures Count(EntryLines(frames, i), true) == 1
    ensures Count(EntryLines(frames, i), false) == if i + 1 < |frames| then 1 else 0
  {
    var e := EntryLines(frames, i);
    if i + 1 < |frames| {
      var rest := e[1..];
      assert rest[1..] == [];
      assert Count(rest, true) == 0 && Count(rest, false) == 1;
    } else {
      assert e[1..] == [];
    }
  }

  /** The text of frame i's lines. */
  lemma EntryText(frames: seq<nat>, i: nat)
    requires i < |frames|
    ensures Text(EntryLines(frames, i)) == Render(FileLine(i)) + "\n" +
      if i + 1 < |frames| then Render(DurationLine(DurationSince(frames[i + 1], frames[i]))) + "\n" else ""
  {
    var e := EntryLines(frames, i);
    var rendered := seq(|e|, j requires 0 <= j < |e| => Render(e[j]));
    assert rendered[0] == Render(FileLine(i));
    if i + 1 < |frames| {
      var rest := rendered[1..];
      assert rest[0] == Render(DurationLine(DurationSince(frames[i + 1], frames[i])));
      assert rest[1..] == [];
      assert Joined(rest) == rest[0] + "\n";
      assert Joined(rendered) == rendered[0] + "\n" + Joined(rest);
    } else {
      assert rendered[1..] == [];
      assert Joined(rendered) == rendered[0] + "\n" + Joined([]);
    }
  }

  /** The lines for frames 0 to k - 1, in order. */
  function LinesUpTo(frames: seq<nat>, k: nat): seq<Line>
    requires k <= |frames|
  {
    if k == 0 then [] else LinesUpTo(frames, k - 1) + EntryLines(frames, k - 1)
  }

  function Lines(frames: seq<nat>): seq<Line> {
    LinesUpTo(frames, |frames|)
  }

  /** Strings as successive `writeln!` calls put them: each one followed by a newline. */
  function Joined(ss: seq<string>): string {
    if ss == [] then "" else ss[0] + "\n" + Joined(ss[1..])
  }

  /** The rendered lines, each followed by a newline. */
  function Text(lines: seq<Line>): string {
    Joined(seq(|lines|, i requires 0 <= i < |lines| => Render(lines[i])))
  }

  /** The whole concat script for the recorded frames. */
  function Concat(frames: seq<nat>): string {
    Header + Text(Lines(frames))
  }

  /** The script as far as frame k - 1. */
  function ScriptUpTo(frames: seq<nat>, k: nat): string
    requires k <= |frames|
  {
    Header + Text(LinesUpTo(frames, k))
  }

  /** The script starts as the header alone and grows by one frame's lines at a time. */
  lemma ScriptStep(frames: seq<nat>, k: nat)
    requires k < |frames|
    ensures ScriptUpTo(frames, 0) == Header
    ensures ScriptUpTo(frames, k + 1) == ScriptUpTo(frames, k) + Text(EntryLines(frames, k))
  {
    assert Header + "" == Header;
    TextAppend(LinesUpTo(frames, k), EntryLines(frames, k));
    assert Header + (Text(LinesUpTo(frames, k)) + Text(EntryLines(frames, k))) ==
      (Header + Text(LinesUpTo(frames, k))) + Text(EntryLines(frames, k));
  }

  /**
   * The script's lines alternate: line 2i names frame i and line 2i + 1 gives
   * the time from frame i to frame i + 1. Frames 0 to k - 1 give 2k lines, or
   * 2k - 1 when k is the last frame, which has no duration line.
   */
  lemma {:induction false} LinesShape(frames: seq<nat>, k: nat)
    requires k <= |frames|
    ensures |LinesUpTo(frames, k)| == if k == |frames| && k > 0 then 2 * k - 1 else 2 * k
    ensures forall i :: 0 <= i < k ==> LinesUpTo(frames, k)[2 * i] == FileLine(i)
    ensures forall i :: 0 <= i < k && i + 1 < |frames| ==>
      LinesUpTo(frames, k)[2 * i + 1] == DurationLine(DurationSince(frames[i + 1], frames[i]))
  {
    if k > 0 {
      LinesShape(frames, k - 1);
      var prev := LinesUpTo(frames, k - 1);
      assert LinesUpTo(frames, k) == prev + EntryLines(frames, k - 1);
      assert |prev| == 2 * (k - 1);
    }
  }

  /** The number of file lines (file == true) or duration lines (file == false). */
  function Count(lines: seq<Line>, file: bool): nat {
    if lines == [] then 0 else (if lines[0].FileLine? == file then 1 else 0) + Count(lines[1..], file)
  }

  lemma {:induction false} CountAppend(a: seq<Line>, b: seq<Line>, file: bool)
    ensures Count(a + b, file) == Count(a, file) + Count(b, file)
  {
    if a != [] {
      assert (a + b)[1..] == a[1..] + b;
      CountAppend(a[1..], b, file);
    } else {
      assert a + b == b;
    }
  }

  /** Frames 0 to k - 1 give k file lines, and a duration line for each of them that has a successor. */
  lemma {:induction false} LineCountsUpTo(frames: seq<nat>, k: nat)
    requires k <= |frames|
    ensures Count(LinesUpTo(frames, k), true) == k
    ensures Count(LinesUpTo(frames, k), false) == Min(k, Max(|frames| - 1, 0))
  {
    if k > 0 {
      LineCountsUpTo(frames, k - 1);
      EntryCounts(frames, k - 1);
      CountAppend(LinesUpTo(frames, k - 1), EntryLines(frames, k - 1), true);
      CountAppend(LinesUpTo(frames, k - 1), EntryLines(frames, k - 1), false);
    }
  }

  /** n frames give n file lines and max(n - 1, 0) duration lines. */
  lemma LineCounts(frames: seq<nat>)
    ensures Count(Lines(frames), true) == |frames|
    ensures Count(Lines(frames), false) == Max(|frames| - 1, 0)
  {
    LineCountsUpTo(frames, |frames|);
  }

  /** Writing lines one after the other: the text of a + b is the text of a, then that of b. */
  lemma TextAppend(a: seq<Line>, b: seq<Line>)
    ensures Text(a + b) == Text(a) + Text(b)
  {
    var ra := seq(|a|, i requires 0 <= i < |a| => Render(a[i]));
    var rb := seq(|b|, i requires 0 <= i < |b| => Render(b[i]));
    assert seq(|a + b|, i requires 0 <= i < |a + b| => Render((a + b)[i])) == ra + rb;
    JoinedAppend(ra, rb);
  }

  lemma {:induction false} JoinedAppend(a: seq<string>, b: seq<string>)
    ensures Joined(a + b) == Joined(a) + Joined(b)
  {
    if a != [] {
      assert (a + b)[0] == a[0] && (a + b)[1..] == a[1..] + b;
      JoinedAppend(a[1..], b);
    } else {
      assert a + b == b;
    }
  }

  datatype RecorderError = FilesystemIo(path: string) | RecordingInvoke | RecordingStatus

  class Recorder {
    /** The capture times of the recorded frames, in order. */
    var frames: seq<nat>

    /** `Recorder::new`: no frames recorded. */
    constructor ()
      ensures frames == []
    {
      frames := [];
    }

    /**
     * `frame`: the image goes to "{n}.png", n the number of frames so far, and
     * only when the save succeeds is its time recorded.
     */
    method Frame(time: nat, saveOk: bool) returns (path: string, result: Result<(), ()>)
      modifies this
      ensures path == FramePath(|old(frames)|)
      ensures result.Ok? <==> saveOk
      ensures frames == if saveOk then old(frames) + [time] else old(frames)
    {
      path := FramePath(|frames|);
      if !saveOk {
        return path, Err(());
      }
      frames := frames + [time];
      result := Ok(());
    }

    /** The loop of `save` that builds the concat script. */
    method ConcatScript() returns (concat: string)
      ensures concat == Concat(frames)
    {
      concat := Header;
      for i := 0 to |frames|
        invariant concat == ScriptUpTo(frames, i)
      {
        ScriptStep(frames, i);
        concat := AppendEntry(frames, i, concat);
      }
    }

    /**
     * `save`: the script is written to frames.text, ffmpeg is run on it, and
     * its output is moved into place; the first step that fails decides the error.
     */
    method Save(writeOk: bool, invokeOk: bool, statusOk: bool, renameOk: bool) returns (concat: string, result: Result<(), RecorderError>)
      ensures concat == Concat(frames)
      ensures result.Ok? <==> writeOk && invokeOk && statusOk && renameOk
      ensures !writeOk ==> result == Err(FilesystemIo("frames.text"))
      ensures writeOk && !invokeOk ==> result == Err(RecordingInvoke)
      ensures writeOk && invokeOk && !statusOk ==> result == Err(RecordingStatus)
      ensures writeOk && invokeOk && statusOk && !renameOk ==> result == Err(FilesystemIo("recording.mp4"))
    {
      concat := ConcatScript();
      if !writeOk {
        return concat, Err(FilesystemIo("frames.text"));
      }
      if !invokeOk {
        return concat, Err(RecordingInvoke);
      }
      if !statusOk {
        return concat, Err(RecordingStatus);
      }
      if !renameOk {
        return concat, Err(FilesystemIo("recording.mp4"));
      }
      result := Ok(());
    }
  }

  /** One pass of the loop of `save`: the file line of frame i, then its duration line if a frame follows. */
  method AppendEntry(frames: seq<nat>, i: nat, concat: string) returns (concat': string)
    requires i < |frames|
    ensures concat' == concat + Text(EntryLines(frames, i))
  {
    EntryText(frames, i);
    ghost var entry := Text(EntryLines(frames, i));
    var file := Render(FileLine(i)) + "\n";
    concat' := concat + file;
    if i + 1 < |frames| {
      var next := frames[i + 1];
      var duration := Render(DurationLine(DurationSince(next, frames[i]))) + "\n";
      assert entry == file + duration;
      concat' := concat' + duration;
    } else {
      assert entry == file;
    }
  }

  /** The file lines name exactly the files `frame` saved the frames under. */
  lemma FileLinesNameFrames(frames: seq<nat>, i: nat)
    requires i < |frames|
    ensures 2 * i < |Lines(frames)| && Render(Lines(frames)[2 * i]) == "file " + FramePath(i)
  {
    LinesShape(frames, |frames|);
  }
}
