/**
 * The command-line options (src/options.rs) and the render resolution they
 * choose.
 */
module Options {
  import opened Common
  import Programs

  datatype Options = Options(
    db: Option<int>,
    fit: bool,
    input: bool,
    program: Option<Programs.Program>,
    repeat: bool,
    resolution: Option<u32>,
    tile: bool,
    track: Option<string>,
    wrap: bool)

  /** The derived `Default`: every flag off and every value absent. */
  function Default(): (o: Options)
    ensures !o.fit && !o.input && !o.repeat && !o.tile && !o.wrap
    ensures o.db.None? && o.program.None? && o.resolution.None? && o.track.None?
  {
    Options(None, false, false, None, false, None, false, None, false)
  }

  /**
   * `Options::resolution`: the requested resolution, or else the larger
   * window dimension, and never less than 1.
   */
  function Resolution(options: Options, height: u32, width: u32): (r: u32)
    ensures r >= 1
    ensures options.resolution.Some? && options.resolution.value >= 1 ==> r == options.resolution.value
    ensures options.resolution == Some(0) ==> r == 1
    ensures options.resolution.None? ==> r == Max(Max(height, width), 1)
  {
    var requested := match options.resolution
      case Some(v) => v
      case None => Max(height, width);
    Max(requested, 1)
  }

  /** With the default options the resolution follows the window's larger side. */
  lemma DefaultResolution(height: u32, width: u32)
    ensures Resolution(Default(), height, width) == Max(Max(height, width), 1)
  {
  }

  /** A requested resolution does not depend on the window. */
  lemma RequestedIgnoresWindow(options: Options, height: u32, width: u32, height': u32, width': u32)
    requires options.resolution.Some?
    ensures Resolution(options, height, width) == Resolution(options, height', width')
  {
  }
}
