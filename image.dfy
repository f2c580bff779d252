/**
 * An RGBA8 image held in memory (src/image.rs): a byte vector and its
 * dimensions, resized in place when the window changes size.
 */
module Image {
  import opened Common

  /** `len` bytes of `Vec::resize(len, 0)`: cut back, or extended with zeros. */
  function Resized(data: seq<byte>, len: nat): (r: seq<byte>)
    ensures |r| == len
  {
    if len <= |data| then data[..len] else data + seq(len - |data|, _ => 0)
  }

  /** The byte count `width * height * 4`, computed in u32 as release builds do (modulo 2^32). */
  function ByteCount(width: u32, height: u32): (n: nat)
    ensures width * height * 4 < 0x1_0000_0000 ==> n == width * height * 4
  {
    var bytes: int := width * height * 4;
    bytes % 0x1_0000_0000
  }

  /** `PartialEq` is an equivalence on images, and equal images have equal bytes and dimensions. */
  lemma EqualsIsEquivalence(a: Image, b: Image, c: Image)
    ensures a.Equals(a)
    ensures a.Equals(b) ==> b.Equals(a) && a.data == b.data && a.height == b.height && a.width == b.width
    ensures a.Equals(b) && b.Equals(c) ==> a.Equals(c)
  {
  }

  datatype ImageView = ImageView(data: seq<byte>, height: u32, width: u32)

  class Image {
    var data: seq<byte>
    var height: u32
    var width: u32

    /** `Default`: a 0 by 0 image with no data. */
    constructor ()
      ensures data == [] && height == 0 && width == 0
    {
      data, height, width := [], 0, 0;
    }

    /** The image as a value: its bytes and its dimensions. */
    function View(): ImageView
      reads this
    {
      ImageView(data, height, width)
    }

    /** The derived `PartialEq`: field by field, which is equality of the two images as values. */
    predicate Equals(other: Image)
      reads this, other
      ensures Equals(other) <==> View() == other.View()
    {
      data == other.data && height == other.height && width == other.width
    }

    /**
     * `Image::data_mut` hands out the bytes for writing in place: the caller
     * may change any byte but neither the length nor the dimensions.
     */
    method SetData(bytes: seq<byte>)
      requires |bytes| == |data|
      modifies this
      ensures data == bytes && height == old(height) && width == old(width)
    {
      data := bytes;
    }

    /** `Image::resize` */
    method Resize(width: u32, height: u32)
      modifies this
      ensures this.height == height && this.width == width
      ensures data == Resized(old(data), ByteCount(width, height))
    {
      this.height := height;
      this.width := width;
      data := Resized(data, ByteCount(width, height));
    }
  }

  /** Resizing keeps the first min(old, new) bytes. */
  lemma ResizedKeepsPrefix(data: seq<byte>, len: nat, j: nat)
    requires j < |data| && j < len
    ensures Resized(data, len)[j] == data[j]
  {
  }

  /** Resizing fills everything past the old length with zeros. */
  lemma ResizedZeroFills(data: seq<byte>, len: nat, j: nat)
    requires |data| <= j < len
    ensures Resized(data, len)[j] == 0
  {
  }

  /** Resizing to the length the data already has changes nothing. */
  lemma ResizedSameLength(data: seq<byte>)
    ensures Resized(data, |data|) == data
  {
  }

  /** Resizing twice to the same length is resizing once. */
  lemma ResizedIdempotent(data: seq<byte>, len: nat)
    ensures Resized(Resized(data, len), len) == Resized(data, len)
  {
  }

  /** Resizing to the current dimensions of an image whose data already fits them changes nothing. */
  method ResizeToSame(image: Image)
    requires |image.data| == ByteCount(image.width, image.height)
    modifies image
    ensures image.data == old(image.data) && image.width == old(image.width) && image.height == old(image.height)
  {
    ResizedSameLength(image.data);
    image.Resize(image.width, image.height);
  }
}
