/** The one-bit conversion of WAV data in src/io/wav_reader.rs: samples
    are thresholded to bits, and bits are repeated to raise the sample rate. */
module WavReader {

  import opened Common
  import opened Arith

  const I16_MIN: int := -0x8000
  const I32_MIN: int := -0x8000_0000
  type i16 = x: int | I16_MIN <= x < 0x8000
  type i32 = x: int | I32_MIN <= x < 0x8000_0000

  /** The decoded samples of a WAV file, one variant per bit depth. */
  datatype BitDepth =
    | Eight(eight: seq<u8>)
    | Sixteen(sixteen: seq<i16>)
    | TwentyFour(twentyFour: seq<i32>)
    | ThirtyTwoFloat(thirtyTwo: seq<real>)
    | Empty

  /** An 8-bit sample (unsigned, centred on 128) is high above 129. */
  predicate HighEight(sample: u8)
  {
    sample > 129
  }

  /** A 16-bit sample (signed) is high above 50. */
  predicate HighSixteen(sample: i16)
  {
    sample > 50
  }

  /** `donwsample(data)`: one bit per sample, in order; any depth other than
      8 or 16 bits panics. */
  function Downsample(data: BitDepth): (r: Outcome<seq<bool>>)
    ensures r.Value? <==> data.Eight? || data.Sixteen?
    ensures data.Eight? ==>
      (|r.value| == |data.eight| && forall i :: 0 <= i < |data.eight| ==> (r.value[i] <==> HighEight(data.eight[i])))
    ensures data.Sixteen? ==>
      (|r.value| == |data.sixteen| && forall i :: 0 <= i < |data.sixteen| ==> (r.value[i] <==> HighSixteen(data.sixteen[i])))
  {
    match data
    case Eight(samples) => Value(seq(|samples|, i requires 0 <= i < |samples| => HighEight(samples[i])))
    case Sixteen(samples) => Value(seq(|samples|, i requires 0 <= i < |samples| => HighSixteen(samples[i])))
    case _ => Panic
  }

  /** `donwsample(data)`, pushing one bit per sample onto a vector. */
  method Donwsample(data: BitDepth) returns (status: Status, vec: seq<bool>)
    ensures match Downsample(data)
      case Panic => status == Panicked
      case Value(bits) => status == Returned && vec == bits
  {
    vec := [];
    match data {
      case Eight(samples) =>
        for i := 0 to |samples|
          invariant |vec| == i && forall j :: 0 <= j < i ==> (vec[j] <==> HighEight(samples[j]))
        {
          var bit := false;
          if samples[i] > 129 {
            bit := true;
          }
          vec := vec + [bit];
        }
      case Sixteen(samples) =>
        for i := 0 to |samples|
          invariant |vec| == i && forall j :: 0 <= j < i ==> (vec[j] <==> HighSixteen(samples[j]))
        {
          var bit := false;
          if samples[i] > 50 {
            bit := true;
          }
          vec := vec + [bit];
        }
      case _ =>
        return Panicked, [];
    }
    status := Returned;
  }

  /** Every bit of `samples`, repeated `k` times in a row. */
  function Repeat(samples: seq<bool>, k: nat): (r: seq<bool>)
    ensures |r| == |samples| * k
    decreases |samples|
  {
    if samples == [] then []
    else
      var n := |samples| - 1;
      assert |samples| * k == n * k + k;
      Repeat(samples[..n], k) + seq(k, _ => samples[n])
  }

  /** Output bit `i` of the repetition is input bit `i / k`: each input bit
      becomes `k` consecutive output bits, in input order. */
  lemma {:induction false} RepeatAt(samples: seq<bool>, k: nat, i: nat)
    requires k > 0 && i < |samples| * k
    ensures i / k < |samples| && Repeat(samples, k)[i] == samples[i / k]
    decreases |samples|
  {
    var n := |samples| - 1;
    var m := n * k;
    assert |samples| * k == m + k;
    if i < m {
      RepeatAt(samples[..n], k, i);
    } else {
      ModUnique(i, k, n, i - m);
    }
  }

  /** `resample(samples, in_rate, out_rate)`: the integer factor
      `out_rate / in_rate` (zero when the output rate is the lower one). A
      zero input rate is a division by zero. */
  function Factor(inRate: u32, outRate: u32): nat
    requires inRate != 0
  {
    outRate / inRate
  }

  /** `resample(samples, in_rate, out_rate)`. The factor is computed for
      every sample, inside the loop, so an empty input never divides and a
      zero input rate panics only when there is a sample to repeat. */
  method Resample(samples: seq<bool>, inRate: u32, outRate: u32) returns (outBuffer: seq<bool>)
    requires inRate != 0 || samples == []
    ensures samples == [] ==> outBuffer == []
    ensures samples != [] ==> outBuffer == Repeat(samples, Factor(inRate, outRate))
  {
    outBuffer := [];
    for i := 0 to |samples|
      invariant samples != [] ==> outBuffer == Repeat(samples[..i], Factor(inRate, outRate))
      invariant samples == [] ==> outBuffer == []
    {
      var k := outRate / inRate;
      ghost var before := outBuffer;
      for j := 0 to k
        invariant outBuffer == before + seq(j, _ => samples[i])
      {
        outBuffer := outBuffer + [samples[i]];
        assert seq(j + 1, _ => samples[i]) == seq(j, _ => samples[i]) + [samples[i]];
      }
      assert samples[..i + 1][..i] == samples[..i];
    }
    assert samples[..|samples|] == samples;
  }

  /** The length of the resampled signal is the input length times the factor,
      and a lower output rate gives an empty signal. */
  lemma ResampleLength(samples: seq<bool>, inRate: u32, outRate: u32)
    requires inRate != 0
    ensures |Repeat(samples, Factor(inRate, outRate))| == |samples| * (outRate / inRate)
    ensures outRate < inRate ==> Repeat(samples, Factor(inRate, outRate)) == []
  {
    if outRate < inRate {
      ModUnique(outRate, inRate, 0, outRate);
    }
  }
}
