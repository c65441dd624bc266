/**
 Rejection sampling and the verifier built from it
 (internal/kuaifan/profile/profile.go).
 */
module Sampling {
  import opened Foundations
  import opened Streams

  const BYTE_SPACE: nat := 256
  const WORD_SPACE: nat := 0x1_0000_0000
  const MAX_FIELD: nat := 4096
  const ALPHABET: string := "ABCDEFGHIJKLMNOPQRSTUVWXYZabcdefghijklmnopqrstuvwxyz0123456789+/"

  datatype SampleError = InvalidInput | SourceFailed(cause: IoError)

  // ---------- samples ----------

  function Width(n: nat): nat {
    if n <= 256 then 1 else 4
  }

  function Space(n: nat): nat {
    if n <= 256 then BYTE_SPACE else WORD_SPACE
  }

  // Samples below the limit are accepted; the limit is a multiple of n.
  function Limit(n: nat): nat
    requires n > 0
  {
    Space(n) - Space(n) % n
  }

  function Value(s: seq<Byte>): nat {
    if s == [] then 0 else Value(s[..|s| - 1]) * 256 + s[|s| - 1] as nat
  }

  lemma ValueOfOne(s: seq<Byte>)
    requires |s| == 1
    ensures Value(s) == s[0] as nat
  {
    assert s[..0] == [];
  }

  // Four bytes, most significant first.
  lemma ValueOfFour(s: seq<Byte>)
    requires |s| == 4
    ensures Value(s) == (s[0] as nat) * 0x100_0000 + (s[1] as nat) * 0x1_0000 + (s[2] as nat) * 0x100 + s[3] as nat
  {
    assert s[..3][..2] == s[..2] && s[..2][..1] == s[..1];
    ValueOfOne(s[..1]);
    assert Value(s[..2]) == Value(s[..1]) * 256 + s[1] as nat;
    assert Value(s[..3]) == Value(s[..2]) * 256 + s[2] as nat;
  }

  // The first accepted sample of a stream decides; earlier ones are passed over.
  function Draw(s: seq<Byte>, n: nat): Option<(nat, seq<Byte>)>
    requires n > 0
    decreases |s|
  {
    var w := Width(n);
    if |s| < w then None
    else if Value(s[..w]) < Limit(n) then Some((Value(s[..w]) % n, s[w..]))
    else Draw(s[w..], n)
  }

  // ---------- no bias ----------

  predicate Falls(x: nat, n: nat, v: nat)
    requires n > 0
  {
    x % n == v
  }

  // Accepted samples that give v.
  function Hits(limit: nat, n: nat, v: nat): set<nat>
    requires n > 0
  {
    set x: nat | x < limit && Falls(x, n, v)
  }

  // A further stretch of n numbers behind a multiple of n holds one more hit.
  lemma HitsStep(m: nat, n: nat, k: nat, v: nat)
    requires n > 0 && v < n && m == k * n
    ensures Hits(m + n, n, v) == Hits(m, n, v) + {m + v} && m + v !in Hits(m, n, v)
  {
    QuotientUnique(m + v, n, k, v);
    var all := Hits(m + n, n, v);
    forall y | y in all
      ensures y in Hits(m, n, v) + {m + v}
    {
      if y >= m {
        QuotientUnique(y, n, k, y - m);
      }
    }
  }

  // Of the numbers below k times n, each remainder has k.
  lemma {:induction false} HitsCount(k: nat, n: nat, v: nat)
    requires n > 0 && v < n
    ensures |Hits(k * n, n, v)| == k
  {
    if k == 0 {
      assert Hits(0, n, v) == {};
    } else {
      var m := (k - 1) * n;
      HitsCount(k - 1, n, v);
      HitsStep(m, n, k - 1, v);
      assert k * n == m + n;
    }
  }

  lemma AtLeastOne(a: nat, n: nat)
    requires 0 < n <= a
    ensures a / n > 0
  {
  }

  // For every n up to the sample space all results have equally many accepted
  // samples, and at least one.
  lemma Unbiased(n: nat, v: nat)
    requires 0 < n <= WORD_SPACE && v < n
    ensures |Hits(Limit(n), n, v)| == Space(n) / n > 0
  {
    var k := Space(n) / n;
    assert Space(n) == k * n + Space(n) % n;
    assert Limit(n) == k * n;
    HitsCount(k, n, v);
    AtLeastOne(Space(n), n);
  }

  // Beyond the sample space nothing is ever accepted: such a draw would go on
  // until its source fails.
  lemma {:induction false} NothingBeyondSpace(s: seq<Byte>, n: nat)
    requires n > WORD_SPACE
    ensures Limit(n) == 0 && Draw(s, n).None?
    decreases |s|
  {
    QuotientUnique(WORD_SPACE, n, 0, WORD_SPACE);
    if |s| >= 4 {
      NothingBeyondSpace(s[4..], n);
    }
  }

  // Samples of one width and the numbers of their space correspond one to one.
  function Digits(x: nat, width: nat): seq<Byte> {
    if width == 0 then [] else Digits(x / 256, width - 1) + [x % 256]
  }

  function Power(width: nat): nat {
    if width == 0 then 1 else 256 * Power(width - 1)
  }

  lemma {:induction false} SampleOfValue(x: nat, width: nat)
    requires x < Power(width)
    ensures |Digits(x, width)| == width && Value(Digits(x, width)) == x
  {
    if width > 0 {
      SampleOfValue(x / 256, width - 1);
      assert Digits(x, width)[..width - 1] == Digits(x / 256, width - 1);
    }
  }

  lemma {:induction false} ValueOfSample(s: seq<Byte>)
    ensures Value(s) < Power(|s|) && Digits(Value(s), |s|) == s
  {
    if s != [] {
      ValueOfSample(s[..|s| - 1]);
      var last: nat := s[|s| - 1] as nat;
      assert Value(s) / 256 == Value(s[..|s| - 1]) && Value(s) % 256 == last;
      assert s == s[..|s| - 1] + [s[|s| - 1]];
    }
  }

  // ---------- drawing ----------

  method RandomInt(src: Source, n: int) returns (r: Result<nat, SampleError>)
    modifies src
    ensures n <= 0 ==> r == Err(InvalidInput) && src.chunks == old(src.chunks)
    ensures n > 0 && r.Ok? ==> r.value < n && Draw(old(Bytes(src.chunks)), n) == Some((r.value, Bytes(src.chunks)))
    ensures n > 0 && r.Err? ==>
              r.error.SourceFailed? && (Quiet(old(src.chunks)) ==> Draw(old(Bytes(src.chunks)), n).None?)
    ensures Quiet(old(src.chunks)) ==> Quiet(src.chunks)
  {
    if n <= 0 {
      return Err(InvalidInput);
    }
    var width := if n <= 256 then 1 else 4;
    var limit := if n <= 256 then 256 - 256 % n else WORD_SPACE - WORD_SPACE % n;
    var sample := new Byte[width](_ => 0);
    while true
      invariant fresh(sample) && sample.Length == width
      invariant Draw(old(Bytes(src.chunks)), n) == Draw(Bytes(src.chunks), n)
      invariant Quiet(old(src.chunks)) ==> Quiet(src.chunks)
      decreases |Bytes(src.chunks)|
    {
      ghost var s := Bytes(src.chunks);
      var got, failure := ReadFull(src, sample, width);
      if failure.Some? {
        return Err(SourceFailed(failure.value));
      }
      assert s[..width] == sample[..] && s[width..] == Bytes(src.chunks);
      var value: nat := sample[0];
      if width == 4 {
        value := (sample[0] as nat) * 0x100_0000 + (sample[1] as nat) * 0x1_0000 + (sample[2] as nat) * 0x100
            + sample[3] as nat;
        ValueOfFour(sample[..]);
      } else {
        ValueOfOne(sample[..]);
      }
      assert value == Value(sample[..]);
      if value < limit {
        return Ok(value % n);
      }
    }
  }

  // ---------- the verifier ----------

  function Split(half: nat, offset: nat): int {
    if offset % 2 == 1 then half - offset else half + offset
  }

  // Every draw splits strictly inside, so the checks for an empty side never fire.
  lemma SplitInside(length: nat, offset: nat)
    requires length >= 2 && offset < length / 2
    ensures 0 < Split(length / 2, offset) < length
  {
  }

  // Some draw splits past the alphabet exactly when the joined text has more
  // than 65 characters.
  lemma SplitPastAlphabet(length: nat)
    ensures (exists offset: nat :: offset < length / 2 && Split(length / 2, offset) > |ALPHABET|) <==> length > 65
  {
    if length > 65 {
      var half := length / 2;
      var offset := if half % 2 == 1 then half - 1 else half - 2;
      assert Split(half, offset) > |ALPHABET|;
    }
  }

  predicate AllDigits(s: string) {
    forall i | 0 <= i < |s| :: IsDigit(s[i])
  }

  // Four characters picked from both sides of the split by the last digits.
  function Picked(joined: string, split: nat, digits: string): string
    requires 0 < split < |joined| && |digits| == 4 && AllDigits(digits)
  {
    var left, right := joined[..split], joined[split..];
    [left[DigitValue(digits[0]) % |left|], left[|left| - 1 - DigitValue(digits[1]) % |left|],
     right[DigitValue(digits[2]) % |right|], right[|right| - 1 - DigitValue(digits[3]) % |right|]]
  }

  // The first and third digit count from the front of their side, the second and
  // fourth from its back, around and around.
  lemma PickedExactly(joined: string, split: nat, digits: string)
    requires 0 < split < |joined| && |digits| == 4 && AllDigits(digits)
    ensures var (picked, rest) := (Picked(joined, split, digits), |joined| - split);
            && |picked| == 4
            && picked[0] == joined[(digits[0] as int - 48) % split]
            && picked[1] == joined[split - 1 - (digits[1] as int - 48) % split]
            && picked[2] == joined[split + (digits[2] as int - 48) % rest]
            && picked[3] == joined[|joined| - 1 - (digits[3] as int - 48) % rest]
  {
  }

  predicate VerifyInput(subject: string, timestamp: string, validSubject: bool) {
    |timestamp| >= 4 && |timestamp| <= MAX_FIELD && validSubject && AllDigits(timestamp[|timestamp| - 4..])
  }

  // The encoded digest, opened up for three free characters and the split mark.
  function Verifier(digest: string -> string, joined: string, split: nat, digits: string, free: string): string
    requires 0 < split < |joined| && split <= |ALPHABET| && |digits| == 4 && AllDigits(digits)
    requires |digest(joined + Picked(joined, split, digits))| >= 10
  {
    var encoded := digest(joined + Picked(joined, split, digits));
    encoded[..10] + free + [ALPHABET[split - 1]] + encoded[10..]
  }

  // digest stands for the Base64 text of the hexadecimal MD5, whose length is 44.
  method ComputeVerify(digest: string -> string, subject: string, timestamp: string, validSubject: bool, src: Source)
    returns (r: Result<string, SampleError>)
    requires forall s: string :: |digest(s)| >= 10
    modifies src
    ensures !VerifyInput(subject, timestamp, validSubject) ==> r == Err(InvalidInput) && src.chunks == old(src.chunks)
    ensures r.Ok? ==> Computed(digest, subject + timestamp, timestamp[|timestamp| - 4..], old(Bytes(src.chunks)),
                               r.value, Bytes(src.chunks))
    // The one refusal that depends on the draw: a split beyond the alphabet.
    ensures VerifyInput(subject, timestamp, validSubject) && r == Err(InvalidInput) ==>
              var drawn := SplitDrawn(old(Bytes(src.chunks)), |subject + timestamp|);
              drawn.Some? && drawn.value.0 > |ALPHABET|
    ensures VerifyInput(subject, timestamp, validSubject) && |subject + timestamp| <= 65 ==> r != Err(InvalidInput)
    ensures VerifyInput(subject, timestamp, validSubject) && Quiet(old(src.chunks)) ==>
              var drawn := SplitDrawn(old(Bytes(src.chunks)), |subject + timestamp|);
              drawn.Some? && drawn.value.0 > |ALPHABET| ==> r == Err(InvalidInput)
  {
    if |timestamp| < 4 || |timestamp| > MAX_FIELD || !validSubject {
      return Err(InvalidInput);
    }
    var digits := timestamp[|timestamp| - 4..];
    for i := 0 to |digits|
      invariant forall j | 0 <= j < i :: '0' <= digits[j] <= '9'
    {
      if digits[i] < '0' || digits[i] > '9' {
        return Err(InvalidInput);
      }
    }
    r := Compose(digest, subject + timestamp, digits, src);
  }

  // The split drawn from a stream, and the stream behind it.
  function SplitDrawn(before: seq<Byte>, length: nat): Option<(int, seq<Byte>)>
    requires length >= 2
  {
    var drawn := Draw(before, length / 2);
    if drawn.None? then None else Some((Split(length / 2, drawn.value.0), drawn.value.1))
  }

  ghost predicate Computed(digest: string -> string, joined: string, digits: string, before: seq<Byte>, r: string,
                           after: seq<Byte>) {
    && |joined| >= 2 && |digits| == 4 && AllDigits(digits)
    && SplitDrawn(before, |joined|).Some?
    && var (split, rest) := SplitDrawn(before, |joined|).value;
    && 0 < split < |joined| && split <= |ALPHABET| && |rest| >= 3 && after == rest[3..]
    && |digest(joined + Picked(joined, split, digits))| >= 10
    && r == Verifier(digest, joined, split, digits, FreeCharacters(rest[..3]))
  }

  method DrawSplit(length: nat, src: Source) returns (r: Result<nat, SampleError>)
    requires length >= 4
    modifies src
    ensures r.Ok? ==>
              && 0 < r.value < length
              && SplitDrawn(old(Bytes(src.chunks)), length) == Some((r.value, Bytes(src.chunks)))
    ensures r.Err? ==> r.error.SourceFailed?
    ensures Quiet(old(src.chunks)) && SplitDrawn(old(Bytes(src.chunks)), length).Some? ==> r.Ok?
    ensures r.Ok? && r.value > |ALPHABET| ==> length > 65
  {
    var half := length / 2;
    var offset := RandomInt(src, half);
    if offset.Err? {
      return Err(offset.error);
    }
    SplitInside(length, offset.value);
    return Ok(if offset.value % 2 == 1 then half - offset.value else half + offset.value);
  }

  method Compose(digest: string -> string, joined: string, digits: string, src: Source)
    returns (r: Result<string, SampleError>)
    requires forall s: string :: |digest(s)| >= 10
    requires |joined| >= 4 && |digits| == 4 && AllDigits(digits)
    modifies src
    ensures r.Ok? ==> Computed(digest, joined, digits, old(Bytes(src.chunks)), r.value, Bytes(src.chunks))
    ensures r == Err(InvalidInput) ==>
              var drawn := SplitDrawn(old(Bytes(src.chunks)), |joined|);
              drawn.Some? && drawn.value.0 > |ALPHABET|
    ensures |joined| <= 65 ==> r != Err(InvalidInput)
    ensures Quiet(old(src.chunks)) ==>
              var drawn := SplitDrawn(old(Bytes(src.chunks)), |joined|);
              drawn.Some? && drawn.value.0 > |ALPHABET| ==> r == Err(InvalidInput)
  {
    var split := DrawSplit(|joined|, src);
    if split.Err? {
      return Err(split.error);
    }
    if split.value > |ALPHABET| {
      return Err(InvalidInput);
    }
    assert |digest(joined + Picked(joined, split.value, digits))| >= 10;
    r := Assemble(digest, joined, split.value, digits, src);
  }

  method Assemble(digest: string -> string, joined: string, split: nat, digits: string, src: Source)
    returns (r: Result<string, SampleError>)
    requires 0 < split < |joined| && split <= |ALPHABET| && |digits| == 4 && AllDigits(digits)
    requires |digest(joined + Picked(joined, split, digits))| >= 10
    modifies src
    ensures r.Err? ==> r.error.SourceFailed?
    ensures r.Ok? ==>
              var before := old(Bytes(src.chunks));
              && |before| >= 3 && Bytes(src.chunks) == before[3..]
              && r.value == Verifier(digest, joined, split, digits, FreeCharacters(before[..3]))
  {
    var left, right := joined[..split], joined[split..];
    var picked := [left[(digits[0] as int - 48) % |left|], left[|left| - 1 - (digits[1] as int - 48) % |left|],
                   right[(digits[2] as int - 48) % |right|], right[|right| - 1 - (digits[3] as int - 48) % |right|]];
    PickedExactly(joined, split, digits);
    assert picked == Picked(joined, split, digits);
    var encoded := digest(joined + picked);
    var free := DrawFree(src);
    if free.Err? {
      return Err(free.error);
    }
    return Ok(encoded[..10] + free.value + [ALPHABET[split - 1]] + encoded[10..]);
  }

  function FreeCharacters(s: seq<Byte>): string {
    seq(|s|, i requires 0 <= i < |s| => ALPHABET[(s[i] as nat) % 64])
  }

  lemma OneMore(start: seq<Byte>, i: nat, c: char, rest: seq<Byte>)
    requires i <= |start| && exists b: Byte :: start[i..] == [b] + rest && c == ALPHABET[(b as nat) % 64]
    ensures i < |start| && start[i + 1..] == rest && FreeCharacters(start[..i + 1]) == FreeCharacters(start[..i]) + [c]
  {
    var b: Byte :| start[i..] == [b] + rest && c == ALPHABET[(b as nat) % 64];
    assert start[i] == start[i..][0] == b;
    assert start[i + 1..] == start[i..][1..];
    assert start[..i + 1] == start[..i] + [b];
  }

  // One byte gives one character; 64 divides 256, so without bias.
  method DrawCharacter(src: Source) returns (r: Result<char, SampleError>)
    modifies src
    ensures r.Err? ==> r.error.SourceFailed?
    ensures r.Ok? ==> exists b: Byte ::
              old(Bytes(src.chunks)) == [b] + Bytes(src.chunks) && r.value == ALPHABET[(b as nat) % 64]
  {
    var sample := new Byte[1](_ => 0);
    ghost var s := Bytes(src.chunks);
    var got, failure := ReadFull(src, sample, 1);
    if failure.Some? {
      return Err(SourceFailed(failure.value));
    }
    assert sample[..1] == [sample[0]];
    return Ok(ALPHABET[(sample[0] as nat) % 64]);
  }

  method DrawFree(src: Source) returns (r: Result<string, SampleError>)
    modifies src
    ensures r.Err? ==> r.error.SourceFailed?
    ensures r.Ok? ==>
              && |old(Bytes(src.chunks))| >= 3 && Bytes(src.chunks) == old(Bytes(src.chunks))[3..]
              && r.value == FreeCharacters(old(Bytes(src.chunks))[..3])
  {
    var free := "";
    ghost var start := Bytes(src.chunks);
    for i := 0 to 3
      invariant i <= |start| && start[i..] == Bytes(src.chunks) && free == FreeCharacters(start[..i])
    {
      var c := DrawCharacter(src);
      if c.Err? {
        return Err(c.error);
      }
      OneMore(start, i, c.value, Bytes(src.chunks));
      free := free + [c.value];
    }
    return Ok(free);
  }
}
