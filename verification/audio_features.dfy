/** The three per-frame audio features, as functions of the analyser's byte
    buffers (`computeAmplitude`, `computeBassEnergy`, `computeSpectrumTilt`
    on the live path) and of the idle-animation waves (their fallback path). */
module AudioFeatures {
  import opened MathUtil

  /** One analyser sample: an unsigned 8-bit value. */
  type Byte = b: int | 0 <= b < 256

  /** The zero point of a time-domain sample. */
  const Center: int := 128

  /** A buffer of time-domain samples all at the zero point. */
  predicate Silent(data: seq<Byte>) {
    forall i :: 0 <= i < |data| ==> data[i] == Center
  }

  /** A buffer of frequency magnitudes all zero. */
  predicate AllZero(freq: seq<Byte>) {
    forall i :: 0 <= i < |freq| ==> freq[i] == 0
  }

  lemma CenteredSquareBound(b: Byte)
    ensures 0 <= (b - Center) * (b - Center) <= 16384
  {
    var d := b - Center;
    var m := if d < 0 then -d else d;
    assert 0 <= m <= 128;
    var dd, mm, m128 := d * d, m * m, 128 * m;
    assert dd == mm;
    assert mm <= m128;
    assert m128 <= 128 * 128;
  }

  /** Sum over the buffer of each sample's squared distance from the zero
      point; each term is at most 128 * 128. */
  function SquareSum(data: seq<Byte>): (r: nat)
    ensures r <= 16384 * |data|
    decreases |data|
  {
    if data == [] then 0
    else
      var last := data[|data| - 1];
      CenteredSquareBound(last);
      SquareSum(data[..|data| - 1]) + (last - Center) * (last - Center)
  }

  /** Extending a prefix by one sample adds that sample's scaled square,
      ((b - 128) / 128)^2, to the scaled square sum. */
  lemma SquareSumStep(data: seq<Byte>, i: nat, val: real)
    requires i < |data| && val == (data[i] - Center) as real / 128.0
    ensures SquareSum(data[..i + 1]) as real / 16384.0 == SquareSum(data[..i]) as real / 16384.0 + val * val
  {
    assert data[..i + 1][..i] == data[..i];
    ScaledSquare(data[i] - Center);
  }

  /** The square sum is zero exactly on silence. */
  lemma {:induction false} SquareSumZeroIffSilent(data: seq<Byte>)
    ensures SquareSum(data) == 0 <==> Silent(data)
    decreases |data|
  {
    if data != [] {
      var front, last := data[..|data| - 1], data[|data| - 1];
      SquareSumZeroIffSilent(front);
      CenteredSquareBound(last);
      if SquareSum(data) == 0 {
        assert SquareSum(front) == 0 && (last - Center) * (last - Center) == 0;
        assert last == Center;
        forall i | 0 <= i < |data| ensures data[i] == Center {
          if i < |data| - 1 { assert data[i] == front[i]; }
        }
      }
    }
  }

  /** The mean of ((b - 128) / 128)^2 over the buffer: the square of the
      root-mean-square amplitude, always within [0, 1] and zero exactly on
      silence. */
  function MeanSquare(data: seq<Byte>): (ms: real)
    requires |data| > 0
    ensures 0.0 <= ms <= 1.0
    ensures ms == 0.0 <==> Silent(data)
  {
    var n := |data| as real;
    var s := SquareSum(data) as real / 16384.0;
    SquareSumZeroIffSilent(data);
    assert s <= 1.0 * n;
    QuotientBound(s, n, 1.0);
    s / n
  }

  lemma MeanSquareOfSum(data: seq<Byte>)
    requires |data| > 0
    ensures MeanSquare(data) == (SquareSum(data) as real / 16384.0) / |data| as real
  {
  }

  /** `Math.sqrt` on the non-negative reals: a host primitive, taken as a
      parameter and trusted to return the exact non-negative root. */
  ghost predicate IsSqrt(sqrt: real -> real) {
    forall x :: 0.0 <= x ==> 0.0 <= sqrt(x) && sqrt(x) * sqrt(x) == x
  }

  lemma RootBelowOne(r: real, x: real)
    requires 0.0 <= r && r * r == x && x <= 1.0
    ensures r <= 1.0
  {
    if r > 1.0 {
      SquareMono(1.0, r);
    }
  }

  lemma RootZeroIff(r: real, x: real)
    requires 0.0 <= r && r * r == x
    ensures r == 0.0 <==> x == 0.0
  {
    if x == 0.0 {
      RootUnique(r, 0.0);
    }
  }

  /** The live amplitude `clamp(sqrt(meanSquare), 0, 1)`: it is the
      non-negative root of the mean square itself, so the clamp never bites,
      and it is zero exactly on a silent buffer. */
  function LiveAmplitude(data: seq<Byte>, sqrt: real -> real): (amp: real)
    requires |data| > 0 && IsSqrt(sqrt)
    ensures 0.0 <= amp <= 1.0
    ensures amp * amp == MeanSquare(data)
    ensures amp == 0.0 <==> Silent(data)
  {
    var ms := MeanSquare(data);
    var root := sqrt(ms);
    assert 0.0 <= root && root * root == ms;
    RootBelowOne(root, ms);
    RootZeroIff(root, ms);
    Clamp(root, 0.0, 1.0)
  }

  lemma LiveAmplitudeOfRoot(data: seq<Byte>, sqrt: real -> real)
    requires |data| > 0 && IsSqrt(sqrt)
    ensures LiveAmplitude(data, sqrt) == Clamp(sqrt(MeanSquare(data)), 0.0, 1.0)
  {
  }

  /** Sum of the magnitudes of a frequency buffer (in byte units). */
  function Sum(s: seq<Byte>): (r: nat)
    ensures r <= 255 * |s|
    decreases |s|
  {
    if s == [] then 0 else Sum(s[..|s| - 1]) + s[|s| - 1]
  }

  /** Extending a prefix by one bin adds that bin's magnitude / 255. */
  lemma SumStep(s: seq<Byte>, i: nat)
    requires i < |s|
    ensures Sum(s[..i + 1]) as real / 255.0 == Sum(s[..i]) as real / 255.0 + s[i] as real / 255.0
  {
    assert s[..i + 1][..i] == s[..i];
  }

  /** The magnitudes sum to zero exactly when every bin is zero. */
  lemma {:induction false} SumZeroIffAllZero(s: seq<Byte>)
    ensures Sum(s) == 0 <==> AllZero(s)
    decreases |s|
  {
    if s != [] {
      var front := s[..|s| - 1];
      SumZeroIffAllZero(front);
      if Sum(s) == 0 {
        forall i | 0 <= i < |s| ensures s[i] == 0 {
          if i < |s| - 1 { assert s[i] == front[i]; }
        }
      }
    }
  }

  /** How many of the lowest bins count as bass: `max(1, floor(len * 0.08))`.
      Never zero, so the mean below never divides by zero, and never more
      than the buffer holds. */
  function BinCount(len: nat): (n: nat)
    ensures 1 <= n
    ensures 1 <= len ==> n <= len
    ensures len as real * 0.08 < 1.0 ==> n == 1
    ensures 1.0 <= len as real * 0.08 ==> n as real <= len as real * 0.08 < n as real + 1.0
  {
    var f := (len as real * 0.08).Floor;
    if f < 1 then 1 else f
  }

  /** Bass energy: the mean over the lowest `BinCount` bins of magnitude / 255. */
  function BassEnergy(freq: seq<Byte>): (r: real)
    requires |freq| > 0
    ensures 0.0 <= r <= 1.0
    ensures r == 0.0 <==> AllZero(freq[..BinCount(|freq|)])
  {
    var n := BinCount(|freq|);
    var low := freq[..n];
    SumZeroIffAllZero(low);
    var total := Sum(low) as real / 255.0;
    QuotientBound(total, n as real, 1.0);
    total / n as real
  }

  /** Sum of bin index times magnitude. */
  function WeightedSum(s: seq<Byte>): nat
    decreases |s|
  {
    if s == [] then 0 else WeightedSum(s[..|s| - 1]) + (|s| - 1) * s[|s| - 1]
  }

  /** The weighted sum vanishes whenever the plain sum does, so a silent
      spectrum gives no centroid to divide out. */
  lemma {:induction false} WeightedSumZero(s: seq<Byte>)
    requires Sum(s) == 0
    ensures WeightedSum(s) == 0
    decreases |s|
  {
    if s != [] {
      var front := s[..|s| - 1];
      assert Sum(s) == Sum(front) + s[|s| - 1];
      WeightedSumZero(front);
    }
  }

  /** Extending a prefix by one bin adds that bin's magnitude / 255 times
      its index. */
  lemma WeightedSumStep(s: seq<Byte>, i: nat, value: real)
    requires i < |s| && value == s[i] as real / 255.0
    ensures WeightedSum(s[..i + 1]) as real / 255.0 == WeightedSum(s[..i]) as real / 255.0 + value * i as real
  {
    assert s[..i + 1][..i] == s[..i];
    ScaledWeight(s[i], i);
  }

  /** No bin index exceeds |s| - 1, so neither does the weighted sum per
      unit of magnitude. */
  lemma {:induction false} WeightedSumBound(s: seq<Byte>)
    requires |s| > 0
    ensures WeightedSum(s) <= (|s| - 1) * Sum(s)
    decreases |s|
  {
    if |s| > 1 {
      var front, last := s[..|s| - 1], s[|s| - 1];
      var n := |s|;
      WeightedSumBound(front);
      IntMulMono(n - 2, n - 1, Sum(front));
      assert Sum(s) == Sum(front) + last;
      IntDistrib(n - 1, Sum(front), last);
      assert WeightedSum(s) == WeightedSum(front) + (n - 1) * last;
    }
  }

  /** The magnitude-weighted centroid lies among the bin indices [0, len - 1]. */
  function Centroid(freq: seq<Byte>): (c: real)
    requires Sum(freq) > 0
    ensures 0.0 <= c <= (|freq| - 1) as real
  {
    WeightedSumBound(freq);
    IntQuotientBound(WeightedSum(freq), Sum(freq), |freq| - 1);
    WeightedSum(freq) as real / Sum(freq) as real
  }

  /** Spectral tilt: the centroid as a fraction of the bin count, remapped from
      [0, 1] to [-1, 1] and clamped; exactly 0 when all magnitudes are zero. */
  function Tilt(freq: seq<Byte>): (r: real)
    ensures -1.0 <= r <= 1.0
    ensures AllZero(freq) ==> r == 0.0
  {
    SumZeroIffAllZero(freq);
    if Sum(freq) == 0 then 0.0
    else Clamp((Centroid(freq) / |freq| as real - 0.5) * 2.0, -1.0, 1.0)
  }

  /** The clamp in the tilt never changes a value: the remapped centroid is
      already at least -1 and stays strictly below 1. */
  lemma TiltNeedsNoClamp(freq: seq<Byte>)
    requires !AllZero(freq)
    ensures Sum(freq) > 0
    ensures Tilt(freq) == (Centroid(freq) / |freq| as real - 0.5) * 2.0
    ensures Tilt(freq) < 1.0
  {
    SumZeroIffAllZero(freq);
    var n := |freq| as real;
    var c := Centroid(freq);
    QuotientBelow(c, n);
  }

  lemma AllZeroPrefix(freq: seq<Byte>, n: nat)
    requires n <= |freq|
    ensures AllZero(freq) ==> AllZero(freq[..n])
  {
  }

  /** One frame's features. */
  datatype Features = Features(amplitude: real, bass: real, tilt: real)

  /** The ranges every feature is kept to before the mapping reads it. */
  predicate InRange(f: Features) {
    0.0 <= f.amplitude <= 1.0 && 0.0 <= f.bass <= 1.0 && -1.0 <= f.tilt <= 1.0
  }

  /** The features read from a live audio source. */
  function LiveFeatures(timeDomain: seq<Byte>, frequency: seq<Byte>, sqrt: real -> real): (f: Features)
    requires |timeDomain| > 0 && |frequency| > 0 && IsSqrt(sqrt)
    ensures InRange(f)
    ensures f.amplitude * f.amplitude == MeanSquare(timeDomain)
    ensures Silent(timeDomain) ==> f.amplitude == 0.0
    ensures AllZero(frequency) ==> f.bass == 0.0 && f.tilt == 0.0
  {
    var amplitude, bass, tilt := LiveAmplitude(timeDomain, sqrt), BassEnergy(frequency), Tilt(frequency);
    AllZeroPrefix(frequency, BinCount(|frequency|));
    Features(amplitude, bass, tilt)
  }

  /** Idle-animation amplitude `0.02 + wave * 0.01`, where `wave` is the
      host's `Math.sin(elapsed * 0.6)`. */
  function IdleAmplitude(wave: real): (amp: real)
    ensures -1.0 <= wave <= 1.0 ==> 0.01 <= amp <= 0.03
  {
    0.02 + wave * 0.01
  }

  /** Bass held constant when no live source is connected. */
  const IdleBass: real := 0.05

  /** Idle-animation tilt `wave * 0.2`, where `wave` is the host's
      `Math.sin(elapsed * 0.3)`. */
  function IdleTilt(wave: real): (tilt: real)
    ensures -1.0 <= wave <= 1.0 ==> -0.2 <= tilt <= 0.2
  {
    wave * 0.2
  }

  /** The substitute features of the idle animation. */
  function IdleFeatures(amplitudeWave: real, tiltWave: real): (f: Features)
    requires -1.0 <= amplitudeWave <= 1.0 && -1.0 <= tiltWave <= 1.0
    ensures InRange(f)
    ensures f.amplitude <= 0.03 && f.bass == 0.05
  {
    Features(IdleAmplitude(amplitudeWave), IdleBass, IdleTilt(tiltWave))
  }
}
