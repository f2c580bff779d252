/**
 * A played audio file (src/track.rs): decoded samples go to the audio
 * output and are buffered; draining mixes each frame of interleaved
 * channels down to one mono value for the analyzer. A track is done once
 * its decoder ran dry and its buffer was drained.
 *
 * The decoder is the finite sequence of samples it has still to yield,
 * with its channel count; the f32 averaging of a frame is the parameter
 * `mix`.
 */
module Track {
  import opened Common

  /** Each chunk mixed down to one value, in order. */
  function MapChunks(chunks: seq<seq<F32>>, mix: seq<F32> -> F32): (r: seq<F32>)
    ensures |r| == |chunks| && forall i :: 0 <= i < |chunks| ==> r[i] == mix(chunks[i])
  {
    seq(|chunks|, i requires 0 <= i < |chunks| => mix(chunks[i]))
  }

  class Track {
    /** Samples decoded and not yet drained, oldest first. */
    var buffer: seq<F32>
    /** What the decoder has still to yield. */
    var decoder: seq<F32>
    /** The decoder's channel count. */
    const channels: u16
    /** Set once the decoder has run dry. */
    var exhausted: bool

    /** `Track::new` once the file is open and its decoder made. */
    constructor (decoder: seq<F32>, channels: u16)
      ensures buffer == [] && this.decoder == decoder && this.channels == channels && !exhausted
    {
      buffer := [];
      this.decoder := decoder;
      this.channels := channels;
      exhausted := false;
    }

    /** `Stream::done`: the decoder has run dry and everything it gave has been drained. */
    predicate Done()
      reads this
      ensures Done() ==> buffer == [] && exhausted
    {
      exhausted && buffer == []
    }

    /** `Iterator::next`: the next sample is buffered and passed on; at the end the track notes it is exhausted. */
    method Next() returns (sample: Option<F32>)
      modifies this
      ensures old(decoder) == [] ==> sample == None && exhausted && buffer == old(buffer) && decoder == []
      ensures old(decoder) != [] ==>
        sample == Some(old(decoder)[0]) && buffer == old(buffer) + [old(decoder)[0]] &&
        decoder == old(decoder)[1..] && exhausted == old(exhausted)
    {
      if decoder == [] {
        exhausted := true;
        return None;
      }
      var s := decoder[0];
      decoder := decoder[1..];
      buffer := buffer + [s];
      sample := Some(s);
    }

    /**
     * `Stream::drain`: the buffer in chunks of `channels` samples, each mixed
     * down, after the caller's samples; then the buffer is cleared.
     * `chunks(0)` panics, so the decoder must report at least one channel.
     */
    method Drain(samples: seq<F32>, mix: seq<F32> -> F32) returns (samples': seq<F32>)
      requires channels > 0
      modifies this
      ensures samples' == samples + MapChunks(Chunks(old(buffer), channels), mix)
      ensures buffer == [] && decoder == old(decoder) && exhausted == old(exhausted)
    {
      samples' := samples + MapChunks(Chunks(buffer, channels), mix);
      buffer := [];
    }
  }

  /**
   * What drain adds: one value per frame of `channels` samples, the last
   * frame possibly short, each the mix of that frame, in buffer order.
   */
  lemma DrainedValues(buffer: seq<F32>, channels: nat, mix: seq<F32> -> F32, i: nat)
    requires channels > 0 && i < |MapChunks(Chunks(buffer, channels), mix)|
    ensures |MapChunks(Chunks(buffer, channels), mix)| == (|buffer| + channels - 1) / channels
    ensures i * channels < |buffer|
    ensures MapChunks(Chunks(buffer, channels), mix)[i] == mix(buffer[i * channels..Min((i + 1) * channels, |buffer|)])
  {
    ChunkCount(buffer, channels);
    ChunkAt(buffer, channels, i);
  }

  /** A track is done exactly after its decoder ran dry and a drain followed. */
  method DrainWhenExhausted(track: Track, samples: seq<F32>, mix: seq<F32> -> F32) returns (samples': seq<F32>)
    requires track.channels > 0 && track.decoder == []
    modifies track
    ensures track.Done()
  {
    var _ := track.Next();
    samples' := track.Drain(samples, mix);
  }
}
