/**
 * The frame line of the heads-up display (src/frame.rs): the frame number,
 * the filter tally and, when known, the frame rate. The rate arrives
 * already rounded to a whole number, as `{fps:.0}` prints it.
 */
module Frame {
  import opened Common
  import opened Tallies

  datatype Frame = Frame(filters: nat, fps: Option<nat>, number: nat)

  const Separator: string := " · "

  /** "frame {number} · " — what every line starts with. */
  function Head(number: nat): (s: string)
    ensures |s| == 6 + |Decimal(number)| + 3
    ensures s[..6] == "frame " && s[6..6 + |Decimal(number)|] == Decimal(number)
  {
    "frame " + Decimal(number) + Separator
  }

  /** `Display for Frame` */
  function Display(frame: Frame): (s: string)
    ensures |s| >= |Head(frame.number)| + |Tally("filter", frame.filters)|
    ensures s[..|Head(frame.number)|] == Head(frame.number)
    ensures s[|Head(frame.number)|..|Head(frame.number)| + |Tally("filter", frame.filters)|] == Tally("filter", frame.filters)
  {
    Head(frame.number) + Tally("filter", frame.filters)
      + match frame.fps
        case None => ""
        case Some(fps) => Separator + Decimal(fps) + " fps"
  }

  /** Without a frame rate nothing follows the tally. */
  lemma NoRate(frame: Frame)
    requires frame.fps.None?
    ensures |Display(frame)| == |Head(frame.number)| + |Tally("filter", frame.filters)|
  {
  }

  /** A known rate adds " · {fps} fps" to the line shown without one. */
  lemma WithRate(frame: Frame, fps: nat)
    requires frame.fps == Some(fps)
    ensures Display(frame) == Display(frame.(fps := None)) + Separator + Decimal(fps) + " fps"
  {
  }

  /** The frame number can be read back from the line. */
  lemma NumberReadBack(frame: Frame)
    ensures AllDigits(Display(frame)[6..6 + |Decimal(frame.number)|])
    ensures ParseDecimal(Display(frame)[6..6 + |Decimal(frame.number)|]) == frame.number
  {
    var s, h := Display(frame), Head(frame.number);
    assert s[6..6 + |Decimal(frame.number)|] == h[6..6 + |Decimal(frame.number)|];
    ParseDecimalOfDecimal(frame.number);
  }
}
