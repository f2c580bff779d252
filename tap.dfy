/**
 * A tapped audio file (src/tap.rs): samples pass through to the audio
 * output as they are decoded, and a copy of each is buffered until the
 * analyzer drains them. Clones share one core, as a class reference does.
 *
 * The decoder is the finite sequence of samples it has still to yield.
 */
module Tap {
  import opened Common

  class Tap {
    /** Samples decoded and not yet drained, oldest first. */
    var buffer: seq<F32>
    /** What the decoder has still to yield. */
    var decoder: seq<F32>

    /** `Tap::new` once the file is open and its decoder made: nothing buffered. */
    constructor (decoder: seq<F32>)
      ensures buffer == [] && this.decoder == decoder
    {
      buffer := [];
      this.decoder := decoder;
    }

    /** `Iterator::next`: pass the next sample on, keeping a copy at the end of the buffer. */
    method Next() returns (sample: Option<F32>)
      modifies this
      ensures old(decoder) == [] ==> sample == None && buffer == old(buffer) && decoder == []
      ensures old(decoder) != [] ==>
        sample == Some(old(decoder)[0]) && buffer == old(buffer) + [old(decoder)[0]] && decoder == old(decoder)[1..]
    {
      if decoder == [] {
        return None;
      }
      var s := decoder[0];
      decoder := decoder[1..];
      buffer := buffer + [s];
      sample := Some(s);
    }

    /**
     * `Stream::drain`: `Vec::append` moves the whole buffer after the
     * caller's samples and leaves the buffer empty.
     */
    method Drain(samples: seq<F32>) returns (samples': seq<F32>)
      modifies this
      ensures samples' == samples + old(buffer)
      ensures buffer == [] && decoder == old(decoder)
    {
      samples' := samples + buffer;
      buffer := [];
    }
  }

  /**
   * Nothing is lost or duplicated: whatever was decoded, buffered and then
   * drained follows the caller's samples in decoding order, and the buffer
   * together with the decoder's rest is what the decoder started with.
   */
  method NextThenDrain(tap: Tap, samples: seq<F32>) returns (samples': seq<F32>)
    modifies tap
    ensures samples' + tap.decoder == samples + old(tap.buffer) + old(tap.decoder)
    ensures tap.buffer == []
  {
    var _ := tap.Next();
    samples' := tap.Drain(samples);
  }
}
