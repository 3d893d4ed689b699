/**
 * The waveform functions: the 0/1 step `squ`, the sine sample, the formant
 * gain `get_formant_coef`, the recursive harmonic sum `gen_harmonics_sample`,
 * and the duplication of one mono value into a left/right pair.
 *
 * Floating-point values are modelled as reals. The C math library's `sin`,
 * `cos` and `atan2` are left uninterpreted: they are the fields of a `Trig`
 * value supplied by the caller, and only the range of `atan2` is ever assumed.
 */
module Waveform {
  import opened CTypes

  /** `M_PI`. */
  const Pi: real := 3.14159265358979323846

  /** The trigonometric functions of the math library. */
  datatype Trig = Trig(sin: real -> real, cos: real -> real, atan2: (real, real) -> real)

  /** `atan2` returns a value in [-π, π], for every pair of arguments. */
  ghost predicate Atan2InRange(trig: Trig)
  {
    forall y: real, x: real :: -Pi <= trig.atan2(y, x) <= Pi
  }

  // ---------------------------------------------------------------------------
  // squ

  /** The phase fold of `squ`: a phase above 2π becomes atan2(sin x, cos x), once. */
  function Fold(trig: Trig, x: real): real
  {
    if x > 2.0 * Pi then trig.atan2(trig.sin(x), trig.cos(x)) else x
  }

  /**
   * `squ`: 0 for a negative (folded) phase, 1 otherwise. A phase in [0, 2π]
   * is not folded and gives 1; only a phase above 2π is folded, and then the
   * sign of the single atan2 result decides.
   */
  function Squ(trig: Trig, x: real): (r: real)
    ensures r == 0.0 || r == 1.0
    ensures x < 0.0 ==> r == 0.0
    ensures 0.0 <= x <= 2.0 * Pi ==> r == 1.0
    ensures x > 2.0 * Pi ==> (r == 0.0 <==> trig.atan2(trig.sin(x), trig.cos(x)) < 0.0)
  {
    var folded := Fold(trig, x);
    if folded < 0.0 then 0.0 else 1.0
  }

  /**
   * One fold suffices: a folded phase lies in [-π, π], so folding it again
   * changes nothing and `squ` of it is `squ` of the original phase.
   */
  lemma SquFoldsOnce(trig: Trig, x: real)
    requires Atan2InRange(trig)
    ensures x > 2.0 * Pi ==> -Pi <= Fold(trig, x) <= Pi
    ensures Fold(trig, Fold(trig, x)) == Fold(trig, x)
    ensures Squ(trig, Fold(trig, x)) == Squ(trig, x)
  {
    if x > 2.0 * Pi {
      Atan2Bounds(trig, trig.sin(x), trig.cos(x));
    }
  }

  lemma Atan2Bounds(trig: Trig, y: real, x: real)
    requires Atan2InRange(trig)
    ensures -Pi <= trig.atan2(y, x) <= Pi
  {
  }

  // ---------------------------------------------------------------------------
  // gen_sine_sample

  /** The phase of sample `x` of a tone of `freq` Hz at `sampleRate` samples per second. */
  function Phase(freq: real, sampleRate: real, x: real): real
    requires sampleRate != 0.0
  {
    2.0 * freq * Pi / sampleRate * x
  }

  /** `gen_sine_sample`: the sine of the phase of sample `x`. */
  function SineSample(trig: Trig, freq: real, sampleRate: real, x: real): real
    requires sampleRate != 0.0
  {
    trig.sin(Phase(freq, sampleRate, x))
  }

  /**
   * The phase starts at 0 and advancing the sample index by one period,
   * `sampleRate / freq` samples, advances the phase by exactly 2π.
   */
  lemma PhasePeriod(freq: real, sampleRate: real, x: real)
    requires freq != 0.0 && sampleRate != 0.0
    ensures Phase(freq, sampleRate, 0.0) == 0.0
    ensures Phase(freq, sampleRate, x + sampleRate / freq) == Phase(freq, sampleRate, x) + 2.0 * Pi
  {
    var k := 2.0 * freq * Pi / sampleRate;
    assert k * (sampleRate / freq) == 2.0 * Pi by {
      assert k * sampleRate == 2.0 * freq * Pi;
      assert (2.0 * freq * Pi) / freq == 2.0 * Pi;
    }
    assert k * (x + sampleRate / freq) == k * x + k * (sampleRate / freq);
  }

  // ---------------------------------------------------------------------------
  // between and get_formant_coef

  /** `between`: strictly between the two bounds. */
  function Between(x: real, a: real, b: real): bool
  {
    x > a && x < b
  }

  /** Both bounds of `between` are excluded. */
  lemma BetweenExcludesBounds(a: real, b: real, x: real)
    ensures Between(x, a, b) ==> a < b
    ensures !Between(a, a, b) && !Between(b, a, b)
    ensures Between(x, a, b) <==> a < x && x < b
  {
  }

  /** Neither `F - T` nor `F + T` wraps around. */
  predicate NoWrap(f: Uint, t: Uint)
  {
    t <= f && f + t < UintMod
  }

  /** `freq` is strictly within `t` of `f`. */
  predicate WithinBand(freq: real, f: int, t: int)
  {
    (f - t) as real < freq < (f + t) as real
  }

  /**
   * `get_formant_coef<F1, F2, T>`: the "two peaks, one floor" gain. It is
   * one of 1.0, 0.9 and 0.3: 1.0 strictly within T of F1, otherwise 0.9
   * strictly within T of F2, otherwise 0.3; the first band wins where they
   * overlap. The band limits are computed in `unsigned int`.
   */
  function FormantCoef(f1: Uint, f2: Uint, t: Uint, freq: real): (r: real)
    ensures r == 1.0 || r == 0.9 || r == 0.3
    ensures 0.0 < r <= 1.0
    ensures NoWrap(f1, t) ==> (r == 1.0 <==> WithinBand(freq, f1, t))
    ensures NoWrap(f1, t) && NoWrap(f2, t) ==>
              (r == 0.9 <==> !WithinBand(freq, f1, t) && WithinBand(freq, f2, t))
    ensures NoWrap(f1, t) && NoWrap(f2, t) ==>
              (r == 0.3 <==> !WithinBand(freq, f1, t) && !WithinBand(freq, f2, t))
  {
    if Between(freq, UintSub(f1, t) as real, UintAdd(f1, t) as real) then 1.0
    else if Between(freq, UintSub(f2, t) as real, UintAdd(f2, t) as real) then 0.9
    else 0.3
  }

  /**
   * When `F1 < T` (and `T < 2^31`) the unsigned `F1 - T` wraps to a huge
   * lower bound above `F1 + T`, so the first band is empty and the full gain
   * is never returned.
   */
  lemma FormantWrappedBandIsEmpty(f1: Uint, f2: Uint, t: Uint, freq: real)
    requires f1 < t && 2 * t < UintMod
    ensures FormantCoef(f1, f2, t, freq) != 1.0
  {
    assert UintSub(f1, t) == UintMod + f1 - t;
    assert UintAdd(f1, t) == f1 + t;
  }

  /** The vowel instances, all with T = 100. */
  function FormantI(freq: real): real { FormantCoef(240, 2400, 100, freq) }
  function FormantAe(freq: real): real { FormantCoef(585, 1710, 100, freq) }
  function FormantE(freq: real): real { FormantCoef(390, 2300, 100, freq) }
  function Formant3(freq: real): real { FormantCoef(610, 1900, 100, freq) }
  function FormantU(freq: real): real { FormantCoef(250, 595, 100, freq) }

  /**
   * The bands of the five vowel instances: no band limit wraps, so each
   * vowel has its full gain strictly within 100 Hz of F1 and 0.9 strictly
   * within 100 Hz of F2 (outside the F1 band).
   */
  lemma VowelBands(freq: real)
    ensures FormantI(freq) == 1.0 <==> 140.0 < freq < 340.0
    ensures FormantI(freq) == 0.9 <==> 2300.0 < freq < 2500.0
    ensures FormantAe(freq) == 1.0 <==> 485.0 < freq < 685.0
    ensures FormantAe(freq) == 0.9 <==> 1610.0 < freq < 1810.0
    ensures FormantE(freq) == 1.0 <==> 290.0 < freq < 490.0
    ensures FormantE(freq) == 0.9 <==> 2200.0 < freq < 2400.0
    ensures Formant3(freq) == 1.0 <==> 510.0 < freq < 710.0
    ensures Formant3(freq) == 0.9 <==> 1800.0 < freq < 2000.0
    ensures FormantU(freq) == 1.0 <==> 150.0 < freq < 350.0
    ensures FormantU(freq) == 0.9 <==> 495.0 < freq < 695.0
  {
  }

  // ---------------------------------------------------------------------------
  // gen_harmonics_sample

  /** `DEVICE_FREQUENCY` of main.cpp, the rate every harmonic is sampled at. */
  const DeviceFrequency: nat := 48000
  /** The highest harmonic frequency that is still summed. */
  const HarmonicCeiling: real := 4200.0

  /** Harmonic number `j` of the fundamental `freq` does not exceed the ceiling. */
  predicate BelowCeiling(freq: real, j: int)
  {
    freq * j as real <= HarmonicCeiling
  }

  /** The highest harmonic number `j` with `freq * j <= 4200`. */
  function Cutoff(freq: real): int
    requires freq > 0.0
  {
    (HarmonicCeiling / freq).Floor
  }

  /** Harmonic `j` is summed exactly when `j` is at most the cutoff. */
  lemma CutoffBounds(freq: real, j: nat)
    requires freq > 0.0
    ensures BelowCeiling(freq, j) <==> j <= Cutoff(freq)
    ensures Cutoff(freq) >= 0
  {
    var q := HarmonicCeiling / freq;
    assert q * freq == HarmonicCeiling;
    if freq * j as real <= HarmonicCeiling {
      assert j as real <= q;
    }
    if j <= Cutoff(freq) {
      assert j as real <= q;
      assert freq * j as real <= freq * q;
    }
  }

  /** One summand: twice the formant gain times the sine at the harmonic's frequency. */
  function HarmonicTerm(target: real, x: real, coef: real -> real, trig: Trig): real
  {
    2.0 * coef(target) * SineSample(trig, target, DeviceFrequency as real, x)
  }

  /**
   * `gen_harmonics_sample(freq, x, coef, i)`: 0 once `freq * i` exceeds
   * 4200 Hz, and otherwise harmonic `i`'s term plus the rest of the sum from
   * `i + 1`. It ends only for a positive fundamental.
   */
  function GenHarmonicsSample(freq: real, x: real, coef: real -> real, trig: Trig, i: nat): real
    requires freq > 0.0
    decreases Cutoff(freq) - i
  {
    var target := freq * i as real;
    if target > HarmonicCeiling then 0.0
    else
      CutoffBounds(freq, i);
      HarmonicTerm(target, x, coef, trig) + GenHarmonicsSample(freq, x, coef, trig, i + 1)
  }

  /** The term of harmonic number `j` of the fundamental `freq`. */
  function HarmonicTermAt(freq: real, j: int, x: real, coef: real -> real, trig: Trig): real
  {
    HarmonicTerm(freq * j as real, x, coef, trig)
  }

  /**
   * The terms that a sum from harmonic `i` adds up, lowest first: one for
   * each harmonic number `j >= i` whose frequency does not exceed the
   * ceiling, and none for any other.
   */
  function HarmonicTerms(freq: real, x: real, coef: real -> real, trig: Trig, i: nat): (terms: seq<real>)
    requires freq > 0.0
    ensures forall j: nat :: i <= j ==> (j - i < |terms| <==> BelowCeiling(freq, j))
    ensures |terms| == if i <= Cutoff(freq) then Cutoff(freq) - i + 1 else 0
    ensures forall k :: 0 <= k < |terms| ==> terms[k] == HarmonicTermAt(freq, i + k, x, coef, trig)
  {
    CutoffBoundsAll(freq);
    var n := if i <= Cutoff(freq) then Cutoff(freq) - i + 1 else 0;
    seq(n, k => HarmonicTermAt(freq, i + k, x, coef, trig))
  }

  /** `CutoffBounds` for every harmonic number at once. */
  lemma CutoffBoundsAll(freq: real)
    requires freq > 0.0
    ensures Cutoff(freq) >= 0
    ensures forall j: nat :: BelowCeiling(freq, j) <==> j <= Cutoff(freq)
  {
    CutoffBounds(freq, 0);
    forall j: nat
      ensures BelowCeiling(freq, j) <==> j <= Cutoff(freq)
    {
      CutoffBounds(freq, j);
    }
  }

  /**
   * Without a positive fundamental the recursion has no end: no harmonic
   * ever exceeds the ceiling, so the stopping test of `gen_harmonics_sample`
   * never fires, whichever harmonic it starts from.
   */
  lemma HarmonicsNeverStopWithoutPositiveFrequency(freq: real, i: nat)
    requires freq <= 0.0
    ensures forall j: nat :: i <= j ==> BelowCeiling(freq, j)
  {
    forall j: nat | i <= j
      ensures BelowCeiling(freq, j)
    {
      assert freq * j as real <= 0.0 by {
        assert -freq >= 0.0 && j as real >= 0.0;
        assert (-freq) * j as real >= 0.0;
      }
    }
  }

  function Sum(s: seq<real>): real
  {
    if s == [] then 0.0 else s[0] + Sum(s[1..])
  }

  /**
   * Once the harmonic frequency exceeds the ceiling the recursion stops:
   * the result is 0 and there is no term left to add.
   */
  lemma HarmonicsStopAboveCeiling(freq: real, x: real, coef: real -> real, trig: Trig, i: nat)
    requires freq > 0.0 && freq * i as real > HarmonicCeiling
    ensures GenHarmonicsSample(freq, x, coef, trig, i) == 0.0
    ensures HarmonicTerms(freq, x, coef, trig, i) == []
  {
    CutoffBounds(freq, i);
  }

  /**
   * For a positive fundamental, the recursion from harmonic `i` adds up
   * exactly the terms of the harmonics `j >= i` with `freq * j <= 4200`,
   * lowest first.
   */
  lemma {:induction false} HarmonicsIsSumOfTerms(freq: real, x: real, coef: real -> real, trig: Trig, i: nat)
    requires freq > 0.0
    ensures GenHarmonicsSample(freq, x, coef, trig, i) == Sum(HarmonicTerms(freq, x, coef, trig, i))
    decreases Cutoff(freq) - i
  {
    CutoffBounds(freq, i);
    var terms := HarmonicTerms(freq, x, coef, trig, i);
    if freq * i as real <= HarmonicCeiling {
      HarmonicsIsSumOfTerms(freq, x, coef, trig, i + 1);
      var rest := HarmonicTerms(freq, x, coef, trig, i + 1);
      assert terms[1..] == rest by {
        forall k | 0 <= k < |rest| ensures terms[1..][k] == rest[k] {
          assert i + (k + 1) == (i + 1) + k;
        }
      }
      assert terms[0] == HarmonicTermAt(freq, i, x, coef, trig);
    } else {
      assert terms == [];
    }
  }

  /**
   * The voices of main.cpp use the fundamental 120 Hz from harmonic 1: the
   * sum (see `HarmonicsIsSumOfTerms`) has exactly 35 terms, those of 120,
   * 240, ..., 4200 Hz.
   */
  lemma VoiceSumsThirtyFiveHarmonics(x: real, coef: real -> real, trig: Trig)
    ensures |HarmonicTerms(120.0, x, coef, trig, 1)| == 35
    ensures HarmonicTerms(120.0, x, coef, trig, 1)[0] == HarmonicTerm(120.0, x, coef, trig)
    ensures HarmonicTerms(120.0, x, coef, trig, 1)[34] == HarmonicTerm(4200.0, x, coef, trig)
  {
    assert HarmonicCeiling / 120.0 == 35.0;
  }

  // ---------------------------------------------------------------------------
  // Stereo interleaving

  /**
   * Each mono value written as a left/right pair: element `k` of the result
   * is value `k / 2`, so elements `2i` and `2i + 1` are both value `i`.
   */
  function Duplicated(mono: seq<real>): (r: seq<real>)
    ensures |r| == 2 * |mono|
    ensures forall k :: 0 <= k < |r| ==> r[k] == mono[k / 2]
  {
    if mono == [] then []
    else
      var last := mono[|mono| - 1];
      Duplicated(mono[..|mono| - 1]) + [last, last]
  }

  /** Appending one value appends one pair. */
  lemma DuplicatedSnoc(mono: seq<real>, v: real)
    ensures Duplicated(mono + [v]) == Duplicated(mono) + [v, v]
  {
    assert (mono + [v])[..|mono|] == mono;
  }
}
