/** The pieces of Go's standard library the core relies on for strings:
    strings.TrimSpace, strings.HasSuffix, strconv.Itoa, strconv.FormatBool,
    the byte-wise order of strings and sort.Strings, with readers in the
    manner of strconv.Atoi and strconv.ParseBool that state what the written
    text reads back as. Strings are sequences of Unicode code points; for the
    ASCII keys and parameters the core handles, comparing code points is
    comparing UTF-8 bytes. */
module Text {
  import opened Base

  // ---------------------------------------------------------------------------
  // Whitespace trimming
  // ---------------------------------------------------------------------------

  /** unicode.IsSpace: the six ASCII spaces, NEL, NBSP and the Unicode
      White_Space characters above Latin-1. */
  predicate IsSpace(c: char) {
    || c == '\t' || c == '\n' || c == '\U{000B}' || c == '\U{000C}' || c == '\r' || c == ' '
    || c == '\U{0085}' || c == '\U{00A0}' || c == '\U{1680}'
    || ('\U{2000}' <= c <= '\U{200A}')
    || c == '\U{2028}' || c == '\U{2029}' || c == '\U{202F}' || c == '\U{205F}' || c == '\U{3000}'
  }

  /** Drops the leading white space: what is dropped is all space and what is
      kept is a suffix of `s` that does not start with a space. */
  function TrimLeft(s: string): (r: string)
    ensures |r| <= |s| && r == s[|s| - |r|..]
    ensures forall k :: 0 <= k < |s| - |r| ==> IsSpace(s[k])
    ensures r == [] || !IsSpace(r[0])
  {
    if s != [] && IsSpace(s[0]) then TrimLeft(s[1..]) else s
  }

  /** Drops the trailing white space: what is dropped is all space and what is
      kept is a prefix of `s` that does not end with a space. */
  function TrimRight(s: string): (r: string)
    ensures |r| <= |s| && r == s[..|r|]
    ensures forall k :: |r| <= k < |s| ==> IsSpace(s[k])
    ensures r == [] || !IsSpace(r[|r| - 1])
  {
    if s != [] && IsSpace(s[|s| - 1]) then TrimRight(s[..|s| - 1]) else s
  }

  /** strings.TrimSpace: the result is a slice s[i..i+|r|] such that everything
      before and after it is white space and it neither starts nor ends with
      white space. */
  function TrimSpace(s: string): (r: string)
    ensures exists i :: TrimmedAt(s, r, i)
    ensures r == [] || (!IsSpace(r[0]) && !IsSpace(r[|r| - 1]))
  {
    var left := TrimLeft(s);
    var r := TrimRight(left);
    assert TrimmedAt(s, r, |s| - |left|);
    r
  }

  /** `r` is `s` with white space only removed before index `i` and after
      index `i + |r|`. */
  predicate TrimmedAt(s: string, r: string, i: int) {
    && 0 <= i <= |s| - |r| && r == s[i..i + |r|]
    && (forall k :: 0 <= k < i ==> IsSpace(s[k]))
    && (forall k :: i + |r| <= k < |s| ==> IsSpace(s[k]))
  }

  /** A string trims to "" exactly when it consists of white space only. */
  lemma TrimSpaceEmpty(s: string)
    ensures TrimSpace(s) == "" <==> forall k :: 0 <= k < |s| ==> IsSpace(s[k])
  {
    var r := TrimSpace(s);
    var i :| TrimmedAt(s, r, i);
    if r != "" {
      assert s[i] == r[0];
    }
  }

  /** Trimming twice is trimming once. */
  lemma TrimSpaceIdempotent(s: string)
    ensures TrimSpace(TrimSpace(s)) == TrimSpace(s)
  {
    var r := TrimSpace(s);
    assert TrimLeft(r) == r;
    assert TrimRight(r) == r;
  }

  // ---------------------------------------------------------------------------
  // Decimal integers: strconv.Itoa / fmt "%d" and strconv.Atoi
  // ---------------------------------------------------------------------------

  predicate IsDigit(c: char) {
    '0' <= c <= '9'
  }

  predicate AllDigits(s: string) {
    forall k :: 0 <= k < |s| ==> IsDigit(s[k])
  }

  function DigitValue(c: char): int
    requires IsDigit(c)
  {
    c as int - '0' as int
  }

  function DigitChar(d: int): (c: char)
    requires 0 <= d < 10
    ensures IsDigit(c) && DigitValue(c) == d
  {
    (d + '0' as int) as char
  }

  /** The number a string of decimal digits denotes (leading zeros allowed). */
  function DigitsValue(s: string): nat
    requires AllDigits(s)
  {
    if s == [] then 0 else DigitsValue(s[..|s| - 1]) * 10 + DigitValue(s[|s| - 1])
  }

  /** The shortest decimal rendering of a natural number: digits only, no
      leading zero unless the number is zero, and it reads back as `n`. */
  function NatDigits(n: nat): (r: string)
    ensures 1 <= |r| && AllDigits(r)
    ensures r[0] == '0' <==> n == 0
    ensures DigitsValue(r) == n
  {
    if n < 10 then [DigitChar(n)]
    else
      var r := NatDigits(n / 10) + [DigitChar(n % 10)];
      assert r[..|r| - 1] == NatDigits(n / 10);
      r
  }

  /** strconv.Itoa, and fmt.Sprintf("%d", n). */
  function Itoa(n: int): string {
    if n < 0 then "-" + NatDigits(-n) else NatDigits(n)
  }

  /** A reader in the manner of strconv.Atoi, used only to state round
      trips: an optional sign followed by at least one decimal digit,
      in the range of a 64-bit int; anything else is an error (None). */
  function ParseInt(s: string): (r: Option<Int64>)
    ensures r.Some? ==> |s| >= 1 && AllDigits(s[1..])
  {
    var signed := |s| > 0 && (s[0] == '-' || s[0] == '+');
    var digits := if signed then s[1..] else s;
    if digits == [] || !AllDigits(digits) then None
    else
      var v: int := if signed && s[0] == '-' then 0 - DigitsValue(digits) else 0 + DigitsValue(digits);
      if MinInt64 <= v <= MaxInt64 then Some(v) else None
  }

  /** Atoi reads back what Itoa writes. */
  lemma ItoaRoundTrip(n: Int64)
    ensures ParseInt(Itoa(n)) == Some(n)
  {
    var m: int := n;
    if m < 0 {
      var digits := NatDigits(-m);
      assert ("-" + digits)[1..] == digits;
      assert ParseInt("-" + digits) == Some(0 - DigitsValue(digits));
    } else {
      assert NatDigits(m)[0] != '-' && NatDigits(m)[0] != '+';
    }
  }

  /** Only the first character of a decimal rendering can be other than a
      digit (the minus sign). */
  lemma ItoaDigitsAfterSign(n: int, k: int)
    requires 0 < k < |Itoa(n)|
    ensures IsDigit(Itoa(n)[k])
  {
    if n < 0 {
      assert Itoa(n)[k] == NatDigits(-n)[k - 1];
    }
  }

  // ---------------------------------------------------------------------------
  // Booleans: strconv.FormatBool and strconv.ParseBool
  // ---------------------------------------------------------------------------

  function FormatBool(b: bool): string {
    if b then "true" else "false"
  }

  /** A reader in the manner of strconv.ParseBool, used only to state round
      trips: the six spellings of each truth value. */
  function ParseBool(s: string): Option<bool> {
    if s in {"1", "t", "T", "TRUE", "true", "True"} then Some(true)
    else if s in {"0", "f", "F", "FALSE", "false", "False"} then Some(false)
    else None
  }

  lemma BoolRoundTrip(b: bool)
    ensures ParseBool(FormatBool(b)) == Some(b)
  {
  }

  // ---------------------------------------------------------------------------
  // Suffixes
  // ---------------------------------------------------------------------------

  /** strings.HasSuffix */
  predicate HasSuffix(s: string, suffix: string) {
    |suffix| <= |s| && s[|s| - |suffix|..] == suffix
  }

  // ---------------------------------------------------------------------------
  // The order of Go strings, and sort.Strings
  // ---------------------------------------------------------------------------

  /** Go's `a < b` on strings: lexicographic, a proper prefix first. */
  predicate Less(a: string, b: string) {
    if a == [] then b != []
    else b != [] && (a[0] < b[0] || (a[0] == b[0] && Less(a[1..], b[1..])))
  }

  predicate LessEq(a: string, b: string) {
    a == b || Less(a, b)
  }

  lemma {:induction false} LessIrreflexive(a: string)
    ensures !Less(a, a)
  {
    if a != [] {
      LessIrreflexive(a[1..]);
    }
  }

  lemma {:induction false} LessAsymmetric(a: string, b: string)
    requires Less(a, b)
    ensures !Less(b, a)
  {
    if a != [] && a[0] == b[0] {
      LessAsymmetric(a[1..], b[1..]);
    }
  }

  lemma {:induction false} LessTransitive(a: string, b: string, c: string)
    requires Less(a, b) && Less(b, c)
    ensures Less(a, c)
  {
    if a != [] && a[0] == b[0] && b[0] == c[0] {
      LessTransitive(a[1..], b[1..], c[1..]);
    }
  }

  lemma {:induction false} LessTotal(a: string, b: string)
    ensures a == b || Less(a, b) || Less(b, a)
  {
    if a != [] && b != [] && a[0] == b[0] {
      LessTotal(a[1..], b[1..]);
      if a[1..] == b[1..] {
        assert a == [a[0]] + a[1..] && b == [b[0]] + b[1..];
      }
    }
  }

  /** Two strings that start with blocks of equal length compare by those
      blocks first, and by what follows only when the blocks are equal. */
  lemma {:induction false} LessConcat(a: string, x: string, b: string, y: string)
    requires |a| == |b|
    ensures Less(a + x, b + y) <==> Less(a, b) || (a == b && Less(x, y))
  {
    if a == [] {
      assert a + x == x && b + y == y;
    } else {
      assert (a + x)[0] == a[0] && (b + y)[0] == b[0];
      assert (a + x)[1..] == a[1..] + x && (b + y)[1..] == b[1..] + y;
      LessConcat(a[1..], x, b[1..], y);
      if a[0] == b[0] && a[1..] == b[1..] {
        assert a == [a[0]] + a[1..] && b == [b[0]] + b[1..];
      }
    }
  }

  /** Ascending in Go's string order. */
  ghost predicate Sorted(s: seq<string>) {
    forall i, j :: 0 <= i < j < |s| ==> LessEq(s[i], s[j])
  }

  /** Putting below a sorted sequence an element that is below all of it
      keeps it sorted. */
  lemma ConsSorted(h: string, t: seq<string>)
    requires Sorted(t)
    requires forall e :: e in t ==> LessEq(h, e)
    ensures Sorted([h] + t)
  {
    forall i, j | 0 <= i < j < |[h] + t| ensures LessEq(([h] + t)[i], ([h] + t)[j]) {
      if i > 0 {
        assert ([h] + t)[i] == t[i - 1] && ([h] + t)[j] == t[j - 1];
      } else {
        assert ([h] + t)[j] == t[j - 1];
      }
    }
  }

  /** What is at most the head of a sorted sequence is at most all of it. */
  lemma BelowHead(s: seq<string>, x: string)
    requires Sorted(s) && s != [] && LessEq(x, s[0])
    ensures forall e :: e in s ==> LessEq(x, e)
  {
    forall e | e in s ensures LessEq(x, e) {
      var j :| 0 <= j < |s| && s[j] == e;
      if x != s[0] && s[0] != e { LessTransitive(x, s[0], e); }
    }
  }

  /** The head of a sorted sequence is at most every element of the tail
      with a larger element inserted. */
  lemma HeadBelowInsert(s: seq<string>, x: string, tail: seq<string>)
    requires Sorted(s) && s != [] && !LessEq(x, s[0])
    requires multiset(tail) == multiset(s[1..]) + multiset{x}
    ensures forall e :: e in tail ==> LessEq(s[0], e)
  {
    LessTotal(x, s[0]);
    forall e | e in tail ensures LessEq(s[0], e) {
      assert e in multiset(tail);
      if e != x {
        assert e in multiset(s[1..]);
        var j :| 0 <= j < |s[1..]| && s[1..][j] == e;
        assert s[j + 1] == e;
      }
    }
  }

  /** Inserts `x` into a sorted sequence, keeping it sorted. */
  function Insert(s: seq<string>, x: string): (r: seq<string>)
    requires Sorted(s)
    ensures Sorted(r) && multiset(r) == multiset(s) + multiset{x}
  {
    if s == [] then [x]
    else if LessEq(x, s[0]) then
      BelowHead(s, x);
      ConsSorted(x, s);
      [x] + s
    else
      var tail := Insert(s[1..], x);
      HeadBelowInsert(s, x, tail);
      ConsSorted(s[0], tail);
      assert s == [s[0]] + s[1..];
      [s[0]] + tail
  }

  /** sort.Strings: the result is sorted and a permutation of the input. */
  method SortStrings(s: seq<string>) returns (r: seq<string>)
    ensures Sorted(r) && multiset(r) == multiset(s)
  {
    r := [];
    var i := 0;
    while i < |s|
      invariant 0 <= i <= |s|
      invariant Sorted(r) && multiset(r) == multiset(s[..i])
    {
      assert s[..i + 1] == s[..i] + [s[i]];
      r := Insert(r, s[i]);
      i := i + 1;
    }
    assert s[..|s|] == s;
  }
}
