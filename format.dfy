/**
 * The pixel format of the captured frames (src/format.rs): the one supported
 * surface format, its conversion to and from the graphics API's texture
 * format, and the per-pixel byte swizzle from BGRA to RGBA.
 */
module Format {
  import opened Common

  datatype Format = Bgra8UnormSrgb

  /**
   * The graphics API's texture formats. Only Bgra8UnormSrgb matters here;
   * the others are represented by a few named ones and an open-ended rest.
   */
  datatype TextureFormat = Bgra8UnormSrgb | Bgra8Unorm | Rgba8UnormSrgb | Rgba8Unorm | OtherTexture(id: nat)

  datatype Error = UnsupportedTextureFormat(textureFormat: TextureFormat)

  /** [b, g, r, a] becomes [r, g, b, a]. */
  function SwizzleBytes(f: Format, p: seq<byte>): (q: seq<byte>)
    requires |p| == 4
    ensures |q| == 4
  {
    match f
    case Bgra8UnormSrgb => [p[2], p[1], p[0], p[3]]
  }

  /**
   * `Format::swizzle`: both pixels must be exactly four bytes, or an
   * `unwrap` panics. The source pixel is read in full before the destination
   * is written.
   */
  method Swizzle(f: Format, src: array<byte>, dst: array<byte>)
    requires src.Length == 4 && dst.Length == 4
    modifies dst
    ensures dst[..] == SwizzleBytes(f, old(src[..]))
  {
    match f
    case Bgra8UnormSrgb =>
      var b, g, r, a := src[0], src[1], src[2], src[3];
      dst[0], dst[1], dst[2], dst[3] := r, g, b, a;
      assert dst[..] == [r, g, b, a];
  }

  /** Red and blue trade places; green and alpha stay where they are. */
  lemma SwizzleMoves(f: Format, p: seq<byte>)
    requires |p| == 4
    ensures SwizzleBytes(f, p)[0] == p[2] && SwizzleBytes(f, p)[2] == p[0]
    ensures SwizzleBytes(f, p)[1] == p[1] && SwizzleBytes(f, p)[3] == p[3]
  {
  }

  /** Swizzling twice gives the original pixel back. */
  lemma SwizzleInvolution(f: Format, p: seq<byte>)
    requires |p| == 4
    ensures SwizzleBytes(f, SwizzleBytes(f, p)) == p
  {
  }

  /** `TryFrom<TextureFormat> for Format` */
  function TryFrom(t: TextureFormat): (r: Result<Format, Error>)
    ensures r.Ok? <==> t == TextureFormat.Bgra8UnormSrgb
    ensures r.Err? ==> r.error == UnsupportedTextureFormat(t)
  {
    match t
    case Bgra8UnormSrgb => Ok(Format.Bgra8UnormSrgb)
    case _ => Err(UnsupportedTextureFormat(t))
  }

  /** `From<Format> for TextureFormat` */
  function From(f: Format): TextureFormat {
    match f
    case Bgra8UnormSrgb => TextureFormat.Bgra8UnormSrgb
  }

  /** Converting to a texture format and back gives the format. */
  lemma TryFromOfFrom(f: Format)
    ensures TryFrom(From(f)) == Ok(f)
  {
  }

  /** Whatever converts converts back to the same texture format. */
  lemma FromOfTryFrom(t: TextureFormat)
    requires TryFrom(t).Ok?
    ensures From(TryFrom(t).value) == t
  {
  }
}
