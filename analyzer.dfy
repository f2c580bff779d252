/**
 * The audio analyzer (src/analyzer.rs): each update drains the input queue
 * into the sample buffer, transforms the samples to the frequency domain,
 * keeps their magnitudes, and folds the A-weighted power of the lower half
 * of the spectrum into a smoothed decibel level.
 *
 * The numerics belong to other libraries and are parameters here: the
 * transform (one output bin as a function of the input), the plan's
 * scratch length, `norm`, `norm_sqr`, `a_weight`, and `10 * log10` as a
 * level that is finite or infinite. Values are reals.
 */
module Analyzer {
  import opened Common

  /** ALPHA, the weight of the newest level. */
  const Alpha: real := 0.9

  datatype Complex = Complex(re: real, im: real)

  /** The result of `10.0 * power.log10()`, as far as the guard looks at it. */
  datatype Level = Finite(decibels: real) | Infinite

  /** The capture side of the input: the queue the audio callback fills. */
  class Input {
    var queue: seq<real>
    const sampleRate: u32

    constructor (sampleRate: u32)
      ensures queue == [] && this.sampleRate == sampleRate
    {
      queue := [];
      this.sampleRate := sampleRate;
    }

    /** The input callback: the samples of one callback are queued behind the earlier ones. */
    method Extend(data: seq<real>)
      modifies this
      ensures queue == old(queue) + data
    {
      queue := queue + data;
    }

    /** `Input::drain`: the old samples are cleared and everything queued takes their place, oldest first. */
    method Drain(samples: seq<real>) returns (samples': seq<real>)
      modifies this
      ensures samples' == old(queue) && queue == []
    {
      samples' := [];
      samples' := samples' + queue;
      queue := [];
    }
  }

  /** `Complex::from` on every sample: the sample as the real part. */
  function Complexes(samples: seq<real>): (r: seq<Complex>)
    ensures |r| == |samples|
    ensures forall i :: 0 <= i < |samples| ==> r[i] == Complex(samples[i], 0.0)
  {
    seq(|samples|, i requires 0 <= i < |samples| => Complex(samples[i], 0.0))
  }

  /** The in-place forward transform: one output bin per input bin. */
  function Transform(xs: seq<Complex>, bin: (seq<Complex>, nat) -> Complex): (r: seq<Complex>)
    ensures |r| == |xs|
    ensures forall k :: 0 <= k < |xs| ==> r[k] == bin(xs, k)
  {
    seq(|xs|, k requires 0 <= k < |xs| => bin(xs, k))
  }

  /** The magnitude of every bin. */
  function Norms(xs: seq<Complex>, norm: Complex -> real): (r: seq<real>)
    ensures |r| == |xs|
    ensures forall k :: 0 <= k < |xs| ==> r[k] == norm(xs[k])
  {
    seq(|xs|, k requires 0 <= k < |xs| => norm(xs[k]))
  }

  /** The frequency bin i of len stands for: i * rate / len. */
  function Frequency(i: nat, rate: nat, len: nat): real
    requires i < len
  {
    (i as real) * (rate as real) / (len as real)
  }

  /** The weighted power of the first k bins, summed in bin order. */
  function PowerUpTo(bins: seq<Complex>, k: nat, rate: nat, normSqr: Complex -> real, aWeight: real -> real): real
    requires k <= |bins|
  {
    if k == 0 then 0.0
    else PowerUpTo(bins, k - 1, rate, normSqr, aWeight) + normSqr(bins[k - 1]) * aWeight(Frequency(k - 1, rate, |bins|))
  }

  /** The weighted power of the lower half of the spectrum. */
  function Power(bins: seq<Complex>, rate: nat, normSqr: Complex -> real, aWeight: real -> real): real {
    PowerUpTo(bins, |bins| / 2, rate, normSqr, aWeight)
  }

  /** The smoothed level: an infinite new level is ignored, a finite one is mixed in with weight ALPHA. */
  function Smooth(dba: real, level: Level): (r: real)
    ensures level.Infinite? ==> r == dba
    ensures level.Finite? ==> r - dba == Alpha * (level.decibels - dba)
    ensures level.Finite? && dba <= level.decibels ==> dba <= r <= level.decibels
    ensures level.Finite? && level.decibels <= dba ==> level.decibels <= r <= dba
  {
    match level
    case Infinite => dba
    case Finite(d) => Alpha * d + (1.0 - Alpha) * dba
  }

  /** Only the lower half of the spectrum counts: bins from len / 2 on do not change the power. */
  lemma PowerFirstHalf(bins: seq<Complex>, bins': seq<Complex>, rate: nat, normSqr: Complex -> real, aWeight: real -> real)
    requires |bins| == |bins'| && bins[..|bins| / 2] == bins'[..|bins| / 2]
    ensures Power(bins, rate, normSqr, aWeight) == Power(bins', rate, normSqr, aWeight)
  {
    PowerUpToAgree(bins, bins', |bins| / 2, rate, normSqr, aWeight);
  }

  lemma {:induction false} PowerUpToAgree(bins: seq<Complex>, bins': seq<Complex>, k: nat, rate: nat, normSqr: Complex -> real, aWeight: real -> real)
    requires k <= |bins| == |bins'| && bins[..k] == bins'[..k]
    ensures PowerUpTo(bins, k, rate, normSqr, aWeight) == PowerUpTo(bins', k, rate, normSqr, aWeight)
    decreases k
  {
    if k > 0 {
      assert bins[..k - 1] == bins[..k][..k - 1] && bins'[..k - 1] == bins'[..k][..k - 1];
      assert bins[k - 1] == bins[..k][k - 1] && bins'[k - 1] == bins'[..k][k - 1];
      PowerUpToAgree(bins, bins', k - 1, rate, normSqr, aWeight);
    }
  }

  /** Bin i is weighted at frequency i * rate / len, which stays below the Nyquist frequency rate / 2. */
  lemma BelowNyquist(i: nat, rate: nat, len: nat)
    requires i < len / 2
    ensures 0.0 <= Frequency(i, rate, len) < (rate as real) / 2.0 || rate == 0
  {
    if rate > 0 {
      var x, r, l := i as real, rate as real, len as real;
      assert x * 2.0 < l;
      ScaleBelow(x * 2.0, l, r);
      assert x * r < (r / 2.0) * l;
      DivBelow(x * r, l, r / 2.0);
    }
  }

  /** Scaling by a positive factor keeps a strict order. */
  lemma ScaleBelow(a: real, b: real, k: real)
    requires a < b && k > 0.0
    ensures a * k < b * k
  {
  }

  /** A quotient by a positive divisor stays below c when the dividend stays below c times the divisor. */
  lemma DivBelow(x: real, l: real, c: real)
    requires l > 0.0 && 0.0 <= x < c * l
    ensures 0.0 <= x / l < c
  {
  }

  /** A steady finite level is a fixed point of the smoothing. */
  lemma SteadyLevel(d: real)
    ensures Smooth(d, Finite(d)) == d
  {
  }

  /** The power loop: `power += f.norm_sqr() * a_weight(frequency)` over the first len / 2 bins. */
  method WeightedPower(bins: seq<Complex>, rate: nat, normSqr: Complex -> real, aWeight: real -> real) returns (power: real)
    ensures power == Power(bins, rate, normSqr, aWeight)
  {
    power := 0.0;
    var n := |bins| / 2;
    for i := 0 to n
      invariant power == PowerUpTo(bins, i, rate, normSqr, aWeight)
    {
      var frequency := (i as real) * (rate as real) / (|bins| as real);
      power := power + normSqr(bins[i]) * aWeight(frequency);
    }
  }

  /**
   * The spectrum steps of `update`: the samples become complex bins, which
   * are transformed in place, and the magnitudes of the result replace the
   * old frequencies.
   */
  method Spectrum(samples: seq<real>, bin: (seq<Complex>, nat) -> Complex, norm: Complex -> real)
    returns (complexFrequencies: seq<Complex>, frequencies: seq<real>)
    ensures complexFrequencies == Transform(Complexes(samples), bin)
    ensures frequencies == Norms(complexFrequencies, norm)
  {
    complexFrequencies := [];
    complexFrequencies := complexFrequencies + Complexes(samples);
    assert complexFrequencies == Complexes(samples);
    complexFrequencies := Transform(complexFrequencies, bin);

    frequencies := [];
    frequencies := frequencies + Norms(complexFrequencies, norm);
    assert frequencies == Norms(complexFrequencies, norm);
  }

  /** The scratch after `if scratch.len() < scratch_len { scratch.resize(scratch_len, 0) }`: it never shrinks. */
  function Grown(scratch: seq<Complex>, required: nat): (r: seq<Complex>)
    ensures |r| == Max(|scratch|, required) && r[..|scratch|] == scratch
    ensures forall k :: |scratch| <= k < |r| ==> r[k] == Complex(0.0, 0.0)
  {
    if |scratch| < required then scratch + seq(required - |scratch|, _ => Complex(0.0, 0.0)) else scratch
  }

  class Analyzer {
    var complexFrequencies: seq<Complex>
    var dba: real
    var frequencies: seq<real>
    const input: Input
    var samples: seq<real>
    var scratch: seq<Complex>

    /** `Analyzer::new`, once the input is set up and playing: every buffer empty and a level of 0. */
    constructor (input: Input)
      ensures this.input == input
      ensures complexFrequencies == [] && frequencies == [] && samples == [] && scratch == []
      ensures dba == 0.0
    {
      this.input := input;
      complexFrequencies, dba, frequencies, samples, scratch := [], 0.0, [], [], [];
    }

    function Frequencies(): seq<real>
      reads this
    {
      frequencies
    }

    function Samples(): seq<real>
      reads this
    {
      samples
    }

    function Dba(): real
      reads this
    {
      dba
    }

    /**
     * `Analyzer::update`. `scratchLen(n)` is the scratch the plan for n bins
     * asks for; the transform's use of the scratch is not modelled, so its
     * contents are those of the resize.
     */
    method Update(bin: (seq<Complex>, nat) -> Complex, scratchLen: nat -> nat, norm: Complex -> real,
                  normSqr: Complex -> real, aWeight: real -> real, level: real -> Level)
      modifies this, input
      ensures input.queue == [] && samples == old(input.queue)
      ensures complexFrequencies == Transform(Complexes(samples), bin)
      ensures frequencies == Norms(complexFrequencies, norm)
      ensures |complexFrequencies| == |samples| && |frequencies| == |samples|
      ensures |scratch| == Max(|old(scratch)|, scratchLen(|samples|)) && |scratch| >= scratchLen(|samples|)
      ensures scratch[..|old(scratch)|] == old(scratch)
      ensures dba == Smooth(old(dba), level(Power(complexFrequencies, input.sampleRate, normSqr, aWeight)))
    {
      samples := input.Drain(samples);
      complexFrequencies, frequencies := Spectrum(samples, bin, norm);
      scratch := Grown(scratch, scratchLen(|samples|));

      var power := WeightedPower(complexFrequencies, input.sampleRate, normSqr, aWeight);
      var db := level(power);
      if !db.Infinite? {
        dba := Alpha * db.decibels + (1.0 - Alpha) * dba;
      }
    }
  }
}
