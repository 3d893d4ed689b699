/**
 * The fixed-capacity, append-only sample buffer `struct wave` and its API
 * `newWave`, `add_sample` and `deleteWave`.
 */
module Generate {

  function Min(a: int, b: int): int
  {
    if a <= b then a else b
  }

  /**
   * `struct wave`: a block of `capacity` float slots of which the first
   * `size` hold samples. The storage pointer and the capacity are set by
   * `newWave` and never written again, so both are `const` here; `size` and
   * the slots are the only mutable state.
   */
  class Wave {
    const samples: array<real>
    var size: nat
    const capacity: nat

    ghost predicate Valid()
      reads this
    {
      size <= capacity && samples.Length == capacity
    }

    /** The live samples, oldest first. */
    ghost function Contents(): seq<real>
      requires Valid()
      reads this, samples
    {
      samples[..size]
    }

    /** `newWave(n)`: room for `n` samples, none of them live. */
    constructor (n: nat)
      ensures Valid() && fresh(samples)
      ensures size == 0 && capacity == n
      ensures Contents() == []
    {
      samples := new real[n];
      size := 0;
      capacity := n;
    }

    /**
     * `add_sample`: a full wave drops the sample and is left as it was;
     * otherwise the sample goes into slot `size`, no other slot changes, and
     * `size` grows by one.
     */
    method AddSample(sample: real)
      requires Valid()
      modifies this, samples
      ensures Valid()
      ensures old(size) >= capacity ==> size == old(size) && samples[..] == old(samples[..])
      ensures old(size) < capacity ==>
                size == old(size) + 1 && samples[..] == old(samples[..])[old(size) := sample]
      ensures Contents() == Appended(old(Contents()), capacity, sample)
    {
      if size >= capacity {
        return;
      }
      var index := size;
      samples[index] := sample;
      size := size + 1;
    }
  }

  /** The live samples after one `add_sample` of `sample` to a wave holding `live`. */
  function Appended(live: seq<real>, capacity: nat, sample: real): seq<real>
  {
    if |live| < capacity then live + [sample] else live
  }

  /** The live samples after appending every element of `input`, first to last. */
  function AppendedAll(live: seq<real>, capacity: nat, input: seq<real>): seq<real>
    decreases |input|
  {
    if input == [] then live
    else AppendedAll(Appended(live, capacity, input[0]), capacity, input[1..])
  }

  /**
   * Appending to a wave that is not over-full keeps the samples it has and
   * then takes new ones in order until it is full; the rest are dropped.
   */
  lemma {:induction false} AppendedAllTruncates(live: seq<real>, capacity: nat, input: seq<real>)
    requires |live| <= capacity
    ensures AppendedAll(live, capacity, input) == (live + input)[..Min(|live| + |input|, capacity)]
    decreases |input|
  {
    if input == [] {
      assert live + input == live;
    } else {
      var next := Appended(live, capacity, input[0]);
      AppendedAllTruncates(next, capacity, input[1..]);
      if |live| < capacity {
        assert next + input[1..] == live + input;
      } else {
        assert (next + input[1..])[..capacity] == live;
        assert (live + input)[..capacity] == live;
      }
    }
  }

  /**
   * After N appends to a fresh wave of capacity C it holds min(N, C) samples:
   * the first min(N, C) appended values, in the order they were appended.
   */
  lemma FreshWaveKeepsFirst(capacity: nat, input: seq<real>)
    ensures |AppendedAll([], capacity, input)| == Min(|input|, capacity)
    ensures AppendedAll([], capacity, input) == input[..Min(|input|, capacity)]
  {
    AppendedAllTruncates([], capacity, input);
    assert [] + input == input;
  }
}
