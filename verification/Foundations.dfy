/**
 Small shared vocabulary: optional and failing results, clock readings,
 byte-wise string order, and the contract of an unstable sort.
 */
module Foundations {

  datatype Option<+T> = None | Some(value: T)

  datatype Result<+T, +E> = Ok(value: T) | Err(error: E)

  // Nanoseconds since the zero time. The zero time itself is "not set".
  type Time = nat

  const UNSET: Time := 0
  const SECOND: nat := 1_000_000_000
  const MINUTE: nat := 60 * SECOND
  const DAY: nat := 24 * 60 * MINUTE

  // Quotient and remainder are unique.
  lemma QuotientUnique(a: nat, n: nat, k: nat, r: nat)
    requires n > 0 && a == k * n + r && r < n
    ensures a / n == k && a % n == r
  {
    var q, s := a / n, a % n;
    assert a == q * n + s;
    assert q < k ==> (q + 1) * n <= k * n;
    assert k < q ==> (k + 1) * n <= q * n;
  }

  // ---------- numbers in decimal ----------

  const DIGITS: string := "0123456789"

  function Decimal(n: nat): string {
    (if n < 10 then "" else Decimal(n / 10)) + [DIGITS[n % 10]]
  }

  predicate IsDigit(c: char) {
    '0' <= c <= '9'
  }

  function DigitValue(c: char): nat
    requires IsDigit(c)
  {
    (c - '0') as nat
  }

  // The number that a row of digits stands for.
  function NumberOf(s: string): nat
    requires forall c | c in s :: IsDigit(c)
  {
    if s == "" then 0 else 10 * NumberOf(s[..|s| - 1]) + DigitValue(s[|s| - 1])
  }

  lemma DigitValues(k: nat)
    requires k < 10
    ensures IsDigit(DIGITS[k]) && DigitValue(DIGITS[k]) == k
  {
  }

  lemma DigitCharacters(c: char)
    ensures c in DIGITS <==> IsDigit(c)
  {
    if IsDigit(c) {
      DigitValues(DigitValue(c));
      assert DIGITS[DigitValue(c)] == c;
    }
    if k: nat :| k < 10 && DIGITS[k] == c {
      DigitValues(k);
    }
  }

  // Digits only, none too many in front, and they read back as the number.
  lemma {:induction false} DecimalBack(n: nat)
    ensures Decimal(n) != "" && (forall c | c in Decimal(n) :: IsDigit(c)) && NumberOf(Decimal(n)) == n
    ensures n > 0 ==> Decimal(n)[0] != '0'
  {
    DigitValues(n % 10);
    if n >= 10 {
      DecimalBack(n / 10);
      assert Decimal(n)[..|Decimal(n)| - 1] == Decimal(n / 10);
    } else {
      assert Decimal(n) == [DIGITS[n]];
      DigitValues(n);
    }
  }

  lemma {:induction false} NumberBelow(s: string)
    requires forall c | c in s :: IsDigit(c)
    ensures |s| > 0 && s[0] != '0' ==> NumberOf(s) > 0
  {
    if |s| > 1 {
      var front := s[..|s| - 1];
      assert front[0] == s[0];
      NumberBelow(front);
    } else if |s| == 1 {
      assert s[..0] == "" && NumberOf(s) == DigitValue(s[0]) == s[0] as int - 48;
    }
  }

  // There is one such row of digits for each number.
  lemma {:induction false} DecimalUnique(s: string)
    requires |s| > 0 && s[0] != '0' && forall c | c in s :: IsDigit(c)
    ensures s == Decimal(NumberOf(s))
  {
    var front, last := s[..|s| - 1], DigitValue(s[|s| - 1]);
    var n := NumberOf(s);
    assert s == front + [s[|s| - 1]] && n == 10 * NumberOf(front) + last;
    assert n / 10 == NumberOf(front) && n % 10 == last;
    DigitValues(last);
    assert DIGITS[last] == s[|s| - 1];
    if front != "" {
      NumberBelow(front);
      DecimalUnique(front);
    }
  }

  // ---------- texts joined by a separator ----------

  // A first piece without the separator can be told from the rest.
  lemma FirstPiece(a: string, x: string, b: string, y: string, separator: char)
    requires separator !in a && separator !in b && a + [separator] + x == b + [separator] + y
    ensures a == b && x == y
  {
    var s, t := a + [separator] + x, b + [separator] + y;
    assert |a| == |b| by {
      assert s[|a|] == separator && t[|b|] == separator;
      assert (forall i | 0 <= i < |a| :: s[i] == a[i]) && (forall i | 0 <= i < |b| :: t[i] == b[i]);
    }
    assert a == s[..|a|] && b == t[..|b|] && x == s[|a| + 1..] && y == t[|b| + 1..];
  }

  // ---------- byte-wise string order ----------

  // Characters stand for bytes, so this is the order of the < operator on strings.
  predicate StringLess(a: string, b: string) {
    if b == [] then false
    else if a == [] then true
    else if a[0] != b[0] then a[0] < b[0]
    else StringLess(a[1..], b[1..])
  }

  // The first character that differs decides, and a prefix comes first.
  ghost predicate DiffersAt(a: string, b: string, k: nat) {
    k <= |a| && k < |b| && a[..k] == b[..k] && (k < |a| ==> a[k] < b[k])
  }

  lemma {:induction false} StringLessExactly(a: string, b: string)
    ensures StringLess(a, b) <==> exists k :: DiffersAt(a, b, k)
  {
    if a != [] && b != [] && a[0] == b[0] {
      StringLessExactly(a[1..], b[1..]);
      if k: nat :| DiffersAt(a[1..], b[1..], k) {
        assert a[..k + 1] == [a[0]] + a[1..][..k] && b[..k + 1] == [b[0]] + b[1..][..k];
        assert DiffersAt(a, b, k + 1);
      }
      if k: nat :| DiffersAt(a, b, k) {
        assert k > 0 && a[1..][..k - 1] == a[..k][1..] && b[1..][..k - 1] == b[..k][1..];
        assert DiffersAt(a[1..], b[1..], k - 1);
      }
    } else if b != [] && (a == [] || a[0] < b[0]) {
      assert DiffersAt(a, b, 0);
    }
  }

  lemma {:induction false} StringLessIrreflexive(a: string)
    ensures !StringLess(a, a)
  {
    if a != [] {
      StringLessIrreflexive(a[1..]);
    }
  }

  lemma {:induction false} StringLessTransitive(a: string, b: string, c: string)
    requires StringLess(a, b) && StringLess(b, c)
    ensures StringLess(a, c)
  {
    if a != [] && a[0] == b[0] == c[0] {
      StringLessTransitive(a[1..], b[1..], c[1..]);
    }
  }

  lemma {:induction false} StringLessTotal(a: string, b: string)
    ensures a == b || StringLess(a, b) || StringLess(b, a)
  {
    if a != [] && b != [] && a[0] == b[0] {
      StringLessTotal(a[1..], b[1..]);
      assert a == [a[0]] + a[1..] && b == [b[0]] + b[1..];
    }
  }

  // ---------- sorting ----------

  ghost predicate Preorder<T(!new)>(le: (T, T) -> bool) {
    && (forall x, y :: le(x, y) || le(y, x))
    && (forall x, y, z :: le(x, y) && le(y, z) ==> le(x, z))
  }

  ghost predicate Sorted<T>(le: (T, T) -> bool, s: seq<T>) {
    forall i, j | 0 <= i < j < |s| :: le(s[i], s[j])
  }

  lemma InsertKeepsOrder<T(!new)>(le: (T, T) -> bool, r: seq<T>, k: nat, x: T)
    requires Preorder(le) && Sorted(le, r) && k <= |r|
    requires forall j | k <= j < |r| :: le(x, r[j])
    requires k > 0 ==> le(r[k - 1], x)
    ensures Sorted(le, r[..k] + [x] + r[k..])
  {
    var s := r[..k] + [x] + r[k..];
    forall i, j | 0 <= i < j < |s|
      ensures le(s[i], s[j])
    {
      if j < k {
        assert le(r[i], r[j]);
      } else if i > k {
        assert le(r[i - 1], r[j - 1]);
      } else if i == k {
        assert le(x, r[j - 1]);
      } else {
        assert i < k - 1 ==> le(r[i], r[k - 1]);
        assert le(r[i], x);
        assert j > k ==> le(x, r[j - 1]);
      }
    }
  }

  // The library sort promises a sorted rearrangement and nothing about ties.
  method SortSlice<T(==,!new)>(le: (T, T) -> bool, s: seq<T>) returns (r: seq<T>)
    requires Preorder(le)
    ensures Sorted(le, r)
    ensures multiset(r) == multiset(s)
  {
    r := [];
    for n := 0 to |s|
      invariant Sorted(le, r)
      invariant multiset(r) == multiset(s[..n])
    {
      var k := |r|;
      while k > 0 && !le(r[k - 1], s[n])
        invariant 0 <= k <= |r|
        invariant forall j | k <= j < |r| :: le(s[n], r[j])
      {
        k := k - 1;
      }
      InsertKeepsOrder(le, r, k, s[n]);
      assert r == r[..k] + r[k..];
      r := r[..k] + [s[n]] + r[k..];
      assert s[..n + 1] == s[..n] + [s[n]];
    }
    assert s[..|s|] == s;
  }

  lemma SortedHead<T(!new)>(le: (T, T) -> bool, s: seq<T>, x: T)
    requires Preorder(le) && Sorted(le, s) && x in s
    ensures le(s[0], x)
  {
    var k :| 0 <= k < |s| && s[k] == x;
    assert k == 0 || le(s[0], s[k]);
  }

  lemma DropHead<T>(s: seq<T>)
    requires s != []
    ensures multiset(s[1..]) == multiset(s) - multiset{s[0]}
  {
    assert s == [s[0]] + s[1..];
  }

  lemma SortedTail<T(!new)>(le: (T, T) -> bool, s: seq<T>)
    requires s != [] && Sorted(le, s)
    ensures Sorted(le, s[1..])
  {
    forall i, j | 0 <= i < j < |s[1..]|
      ensures le(s[1..][i], s[1..][j])
    {
      assert le(s[i + 1], s[j + 1]);
    }
  }

  ghost predicate TiesAreEqual<T(!new)>(le: (T, T) -> bool, s: multiset<T>) {
    forall x, y | x in s && y in s && le(x, y) && le(y, x) :: x == y
  }

  lemma SameHead<T(!new)>(le: (T, T) -> bool, a: seq<T>, b: seq<T>)
    requires Preorder(le) && Sorted(le, a) && Sorted(le, b) && a != []
    requires multiset(a) == multiset(b) && TiesAreEqual(le, multiset(a))
    ensures |a| == |b| && a[0] == b[0]
  {
    assert |a| == |multiset(a)| == |multiset(b)| == |b|;
    assert a[0] in multiset(a) && b[0] in multiset(b);
    SortedHead(le, a, b[0]);
    SortedHead(le, b, a[0]);
  }

  lemma SameTail<T>(a: seq<T>, b: seq<T>)
    requires a != [] && b != [] && a[0] == b[0] && multiset(a) == multiset(b)
    ensures multiset(a[1..]) == multiset(b[1..])
  {
    DropHead(a);
    DropHead(b);
  }

  lemma TiesInTail<T(!new)>(le: (T, T) -> bool, a: seq<T>)
    requires a != [] && TiesAreEqual(le, multiset(a))
    ensures TiesAreEqual(le, multiset(a[1..]))
  {
    forall x, y | x in multiset(a[1..]) && y in multiset(a[1..]) && le(x, y) && le(y, x)
      ensures x == y
    {
      assert x in a && y in a;
      assert x in multiset(a) && y in multiset(a);
    }
  }

  // Where ties are only between equal values, a sorted rearrangement is unique.
  lemma {:induction false} SortedUnique<T(!new)>(le: (T, T) -> bool, a: seq<T>, b: seq<T>)
    requires Preorder(le) && Sorted(le, a) && Sorted(le, b)
    requires multiset(a) == multiset(b) && TiesAreEqual(le, multiset(a))
    ensures a == b
    decreases |a|
  {
    if a == [] {
      assert |b| == |multiset(b)| == |multiset(a)|;
    } else {
      SameHead(le, a, b);
      SameTail(a, b);
      SortedTail(le, a);
      SortedTail(le, b);
      TiesInTail(le, a);
      SortedUnique(le, a[1..], b[1..]);
      assert a == [a[0]] + a[1..] && b == [b[0]] + b[1..];
    }
  }

  // ---------- runs of a state machine ----------

  ghost predicate Linked<W, S>(next: (W, S, W) -> bool, run: seq<W>, steps: seq<S>) {
    |run| == |steps| + 1 && forall i, j | 0 <= i < |steps| && j == i + 1 :: next(run[i], steps[i], run[j])
  }

  // What holds at first and is kept by every step holds throughout.
  lemma {:induction false} HoldsThroughout<W(!new),
      S(!new)>(next: (W, S, W) -> bool, inv: W -> bool, run: seq<W>, steps: seq<S>, i: nat)
    requires Linked(next, run, steps) && inv(run[0]) && i < |run|
    requires forall w, step, w' | inv(w) && next(w, step, w') :: inv(w')
    ensures inv(run[i])
  {
    if i > 0 {
      HoldsThroughout(next, inv, run, steps, i - 1);
      assert next(run[i - 1], steps[i - 1], run[i]);
    }
  }

  // ---------- sequences without repetition ----------

  ghost predicate Distinct<T>(s: seq<T>) {
    forall i, j | 0 <= i < j < |s| :: s[i] != s[j]
  }

  lemma {:induction false} DistinctCardinality<T>(s: seq<T>)
    requires Distinct(s)
    ensures |set x | x in s| == |s|
  {
    if s == [] {
      assert (set x | x in s) == {};
    } else {
      DistinctCardinality(s[1..]);
      assert s == [s[0]] + s[1..];
      assert (set x | x in s) == {s[0]} + (set x | x in s[1..]);
      assert s[0] !in s[1..];
    }
  }

  lemma SubsetCardinality<T>(a: set<T>, b: set<T>)
    requires a <= b
    ensures |a| <= |b|
  {
    assert b == a + (b - a);
  }
}
