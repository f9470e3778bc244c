/** The helpers of src/utils.rs (and their copies in src/main.rs): OR-mixing
    two sample buffers, mapping samples to output amplitudes, and splitting a
    score line into unsigned integers. */
module Utils {

  import opened Common

  /** The pointwise OR of two buffers of the same length. */
  function Or(b1: seq<bool>, b2: seq<bool>): (r: seq<bool>)
    requires |b1| == |b2|
  {
    seq(|b1|, i requires 0 <= i < |b1| => b1[i] || b2[i])
  }

  /** `buffer_or`: fills a fresh buffer with the OR of the two inputs. */
  method BufferOr(b1: seq<bool>, b2: seq<bool>) returns (r: seq<bool>)
    requires |b1| == |b2|
    ensures |r| == |b1|
    ensures forall i :: 0 <= i < |r| ==> r[i] == (b1[i] || b2[i])
  {
    var buffer := new bool[|b1|](_ => false);
    for i := 0 to |b1|
      invariant forall j :: 0 <= j < i ==> buffer[j] == (b1[j] || b2[j])
    {
      buffer[i] := b1[i] || b2[i];
    }
    r := buffer[..];
  }

  /** The buffer of the given length that is low everywhere. */
  function Quiet(n: nat): (r: seq<bool>)
  {
    seq(n, _ => false)
  }

  /** OR-mixing does not depend on the order of its inputs. */
  lemma OrCommutative(b1: seq<bool>, b2: seq<bool>)
    requires |b1| == |b2|
    ensures Or(b1, b2) == Or(b2, b1)
  {
  }

  /** Mixing a buffer with itself changes nothing. */
  lemma OrIdempotent(b: seq<bool>)
    ensures Or(b, b) == b
  {
  }

  /** The quiet buffer is the identity of OR-mixing. */
  lemma OrQuietIdentity(b: seq<bool>)
    ensures Or(b, Quiet(|b|)) == b && Or(Quiet(|b|), b) == b
  {
  }

  /** Mixing several buffers does not depend on how they are grouped. */
  lemma OrAssociative(b1: seq<bool>, b2: seq<bool>, b3: seq<bool>)
    requires |b1| == |b2| == |b3|
    ensures Or(Or(b1, b2), b3) == Or(b1, Or(b2, b3))
  {
  }

  /** The output level of one sample: `sample as u8 * amplitude`. */
  function Amplitude(sample: bool, amplitude: u8): u8
  {
    if sample then amplitude else 0
  }

  /** The bytes `write_buffer` hands to the device for a buffer. */
  function Amplitudes(buffer: seq<bool>, amplitude: u8): (out: seq<u8>)
  {
    seq(|buffer|, i requires 0 <= i < |buffer| => Amplitude(buffer[i], amplitude))
  }

  /** Everything written to the device for a sequence of buffers. */
  function AmplitudeLog(buffers: seq<seq<bool>>, amplitude: u8): (log: seq<seq<u8>>)
    ensures |log| == |buffers|
  {
    seq(|buffers|, i requires 0 <= i < |buffers| => Amplitudes(buffers[i], amplitude))
  }

  /** Writing one more buffer appends its conversion to the log. */
  lemma AmplitudeLogSnoc(buffers: seq<seq<bool>>, buffer: seq<bool>, amplitude: u8)
    ensures AmplitudeLog(buffers + [buffer], amplitude) == AmplitudeLog(buffers, amplitude) + [Amplitudes(buffer, amplitude)]
  {
  }

  /** The conversion loop of `write_buffer`: a high sample becomes `amplitude`,
      a low one 0, position by position. The device write is not modelled. */
  method WriteBuffer(buffer: seq<bool>, amplitude: u8) returns (out: seq<u8>)
    ensures |out| == |buffer|
    ensures forall i :: 0 <= i < |buffer| ==> (buffer[i] ==> out[i] == amplitude) && (!buffer[i] ==> out[i] == 0)
    ensures out == Amplitudes(buffer, amplitude)
  {
    var bufferOut := new u8[|buffer|](_ => 0);
    for i := 0 to |buffer|
      invariant forall j :: 0 <= j < i ==> bufferOut[j] == Amplitude(buffer[j], amplitude)
    {
      bufferOut[i] := if buffer[i] then amplitude else 0;
    }
    out := bufferOut[..];
  }

  /** Unicode White_Space, the separator of `str::split_whitespace`. */
  predicate IsWhitespace(c: char)
  {
    c == ' ' || ('\t' <= c <= '\r') || c == '\U{85}' || c == '\U{A0}' || c == '\U{1680}'
    || ('\U{2000}' <= c <= '\U{200A}') || c == '\U{2028}' || c == '\U{2029}' || c == '\U{202F}'
    || c == '\U{205F}' || c == '\U{3000}'
  }

  /** The length of the run of non-whitespace characters that starts `s`. */
  function TokenLength(s: string): (n: nat)
    ensures n <= |s|
    ensures forall i :: 0 <= i < n ==> !IsWhitespace(s[i])
    ensures n < |s| ==> IsWhitespace(s[n])
  {
    if s == [] || IsWhitespace(s[0]) then 0 else 1 + TokenLength(s[1..])
  }

  /** `split_whitespace`: the maximal runs of non-whitespace characters, in order. */
  function SplitWhitespace(s: string): seq<string>
    decreases |s|
  {
    if s == [] then []
    else if IsWhitespace(s[0]) then SplitWhitespace(s[1..])
    else
      var n := TokenLength(s);
      [s[..n]] + SplitWhitespace(s[n..])
  }

  /** `s` with its whitespace removed. */
  function Squeeze(s: string): string
  {
    if s == [] then [] else (if IsWhitespace(s[0]) then [] else [s[0]]) + Squeeze(s[1..])
  }

  function Concat(tokens: seq<string>): string
  {
    if tokens == [] then [] else tokens[0] + Concat(tokens[1..])
  }

  lemma {:induction false} SqueezeAppend(a: string, b: string)
    ensures Squeeze(a + b) == Squeeze(a) + Squeeze(b)
  {
    if a != [] {
      assert (a + b)[1..] == a[1..] + b;
      SqueezeAppend(a[1..], b);
    } else {
      assert a + b == b;
    }
  }

  lemma {:induction false} SqueezeToken(s: string)
    requires forall i :: 0 <= i < |s| ==> !IsWhitespace(s[i])
    ensures Squeeze(s) == s
  {
    if s != [] {
      SqueezeToken(s[1..]);
    }
  }

  /** The tokens are non-empty, contain no whitespace, and together are the
      line with its whitespace removed: nothing is lost, reordered or invented. */
  lemma {:induction false} SplitWhitespaceSound(s: string)
    ensures forall t :: t in SplitWhitespace(s) ==> t != [] && forall i :: 0 <= i < |t| ==> !IsWhitespace(t[i])
    ensures Concat(SplitWhitespace(s)) == Squeeze(s)
  {
    TokensAreWords(s);
    TokensCoverLine(s);
  }

  lemma {:induction false} TokensAreWords(s: string)
    ensures forall t :: t in SplitWhitespace(s) ==> t != [] && forall i :: 0 <= i < |t| ==> !IsWhitespace(t[i])
    decreases |s|
  {
    if s != [] {
      if IsWhitespace(s[0]) {
        TokensAreWords(s[1..]);
      } else {
        TokensAreWords(s[TokenLength(s)..]);
      }
    }
  }

  lemma {:induction false} TokensCoverLine(s: string)
    ensures Concat(SplitWhitespace(s)) == Squeeze(s)
    decreases |s|
  {
    if s != [] {
      if IsWhitespace(s[0]) {
        TokensCoverLine(s[1..]);
      } else {
        var n := TokenLength(s);
        TokensCoverLine(s[n..]);
        assert s == s[..n] + s[n..];
        SqueezeAppend(s[..n], s[n..]);
        SqueezeToken(s[..n]);
        var rest := SplitWhitespace(s[n..]);
        assert SplitWhitespace(s) == [s[..n]] + rest;
        assert ([s[..n]] + rest)[1..] == rest;
      }
    }
  }

  /** A line made only of whitespace, in particular the empty line read at
      the end of the input, has no tokens. */
  lemma {:induction false} BlankLineHasNoTokens(s: string)
    requires forall i :: 0 <= i < |s| ==> IsWhitespace(s[i])
    ensures SplitWhitespace(s) == []
    decreases |s|
  {
    if s != [] {
      BlankLineHasNoTokens(s[1..]);
    }
  }

  predicate IsDigit(c: char)
  {
    '0' <= c <= '9'
  }

  function DigitValue(c: char): nat
    requires IsDigit(c)
  {
    c as nat - '0' as nat
  }

  /** The value of a string of decimal digits, most significant first. */
  function DecimalValue(ds: string): nat
    requires forall i :: 0 <= i < |ds| ==> IsDigit(ds[i])
  {
    if ds == [] then 0 else 10 * DecimalValue(ds[..|ds| - 1]) + DigitValue(ds[|ds| - 1])
  }

  /** `str::parse::<u32>`: an optional `+`, then one or more ASCII digits whose
      value fits in 32 bits; anything else is an error. */
  function ParseU32(token: string): Option<u32>
  {
    var ds := if |token| > 0 && token[0] == '+' then token[1..] else token;
    if ds == [] || exists i :: 0 <= i < |ds| && !IsDigit(ds[i]) then None
    else if DecimalValue(ds) < U32_LIMIT then Some(DecimalValue(ds))
    else None
  }

  /** The decimal rendering of a natural number, without leading zeros. */
  function Decimal(n: nat): (ds: string)
    ensures ds != [] && forall i :: 0 <= i < |ds| ==> IsDigit(ds[i])
  {
    var d := ['0' + (n % 10) as char];
    if n < 10 then d else Decimal(n / 10) + d
  }

  /** Reading back a rendered number gives the number. */
  lemma {:induction false} DecimalRoundTrip(n: nat)
    ensures DecimalValue(Decimal(n)) == n
  {
    var ds := Decimal(n);
    if n >= 10 {
      DecimalRoundTrip(n / 10);
      assert ds[..|ds| - 1] == Decimal(n / 10);
    }
  }

  /** Every 32-bit value written in decimal parses back to itself. */
  lemma ParseU32RoundTrip(n: u32)
    ensures ParseU32(Decimal(n)) == Some(n)
  {
    DecimalRoundTrip(n);
  }

  /** The parsing loop of `read_message` over one line; the line read from
      the file is the input (at the end of the file it is empty). */
  method ReadMessage(line: string) returns (parts: Outcome<seq<u32>>)
    ensures parts.Value? <==> forall t :: t in SplitWhitespace(line) ==> ParseU32(t).Some?
    ensures parts.Value? ==> |parts.value| == |SplitWhitespace(line)|
    ensures parts.Value? ==> forall i :: 0 <= i < |parts.value| ==> ParseU32(SplitWhitespace(line)[i]) == Some(parts.value[i])
  {
    var tokens := SplitWhitespace(line);
    var values: seq<u32> := [];
    for i := 0 to |tokens|
      invariant |values| == i
      invariant forall j :: 0 <= j < i ==> ParseU32(tokens[j]) == Some(values[j])
    {
      var v := ParseU32(tokens[i]);
      if v.None? {
        return Panic;
      }
      values := values + [v.value];
    }
    parts := Value(values);
  }
}
