/** Character classes and string helpers shared by the apps: whitespace stripping,
    case mapping, substring tests, slicing, joining, splitting on whitespace and
    decimal rendering of integers. Strings are sequences of Unicode scalar values. */
module Text {

  /** The characters Python's str.isspace() accepts (and str.strip() removes). */
  predicate IsSpace(c: char)
  {
    var k := c as int;
    k == 0x20 || (0x09 <= k <= 0x0d) || (0x1c <= k <= 0x1f) || k == 0x85 || k == 0xa0
    || k == 0x1680 || (0x2000 <= k <= 0x200a) || k == 0x2028 || k == 0x2029
    || k == 0x202f || k == 0x205f || k == 0x3000
  }

  predicate IsDigit(c: char) { '0' <= c <= '9' }

  /** Letters: ASCII, the Latin-1 letters and the Latin Extended-A/B blocks (which hold
      every Turkish letter). */
  predicate IsLetter(c: char)
  {
    ('a' <= c <= 'z') || ('A' <= c <= 'Z') || c == 'ª' || c == 'µ' || c == 'º'
    || ('À' <= c <= 'ɏ' && c != '×' && c != '÷')
  }

  /** A character of a regular-expression word: a letter, a digit or (for Python's \w) '_'. */
  predicate IsWordChar(c: char) { IsLetter(c) || IsDigit(c) || c == '_' }

  predicate IsUpperAscii(c: char) { 'A' <= c <= 'Z' }
  predicate IsLowerAscii(c: char) { 'a' <= c <= 'z' }

  /** Lower-casing of one character: ASCII, Latin-1 capitals and the Turkish
      capitals Ğ and Ş (the dotted capital İ is left as it is). */
  function LowerChar(c: char): (r: char)
    ensures IsUpperAscii(c) ==> IsLowerAscii(r) && r as int == c as int + 32
    ensures !IsUpperAscii(c) && c as int < 128 ==> r == c
  {
    if IsUpperAscii(c) || ('À' <= c <= 'Þ' && c != '×') then (c as int + 32) as char
    else if c == 'Ğ' || c == 'Ş' then (c as int + 1) as char
    else c
  }

  /** Upper-casing of one character, the inverse direction: ASCII, Latin-1 small
      letters, ğ, ş, and the dotless ı, which becomes I. */
  function UpperChar(c: char): (r: char)
    ensures IsLowerAscii(c) ==> IsUpperAscii(r) && r as int == c as int - 32
    ensures !IsLowerAscii(c) && c as int < 128 ==> r == c
  {
    if IsLowerAscii(c) || ('à' <= c <= 'þ' && c != '÷') then (c as int - 32) as char
    else if c == 'ğ' || c == 'ş' then (c as int - 1) as char
    else if c == 'ı' then 'I'
    else c
  }

  function Lower(s: string): (r: string)
    ensures |r| == |s| && forall i :: 0 <= i < |s| ==> r[i] == LowerChar(s[i])
  {
    if s == [] then [] else [LowerChar(s[0])] + Lower(s[1..])
  }

  function Upper(s: string): (r: string)
    ensures |r| == |s| && forall i :: 0 <= i < |s| ==> r[i] == UpperChar(s[i])
  {
    if s == [] then [] else [UpperChar(s[0])] + Upper(s[1..])
  }

  /** The first index at or after `i` that does not hold whitespace, or |s|. */
  function SkipSpaces(s: string, i: nat): (n: nat)
    requires i <= |s|
    ensures i <= n <= |s|
    ensures forall j :: i <= j < n ==> IsSpace(s[j])
    ensures n < |s| ==> !IsSpace(s[n])
    decreases |s| - i
  {
    if i == |s| || !IsSpace(s[i]) then i else SkipSpaces(s, i + 1)
  }

  /** The end of `s[..n]` once its trailing whitespace is dropped. */
  function TrimEnd(s: string, n: nat): (m: nat)
    requires n <= |s|
    ensures m <= n
    ensures forall j :: m <= j < n ==> IsSpace(s[j])
    ensures m > 0 ==> !IsSpace(s[m - 1])
  {
    if n == 0 || !IsSpace(s[n - 1]) then n else TrimEnd(s, n - 1)
  }

  /** Leading whitespace removed (Python lstrip / JS trimStart). */
  function StripLeft(s: string): (r: string)
    ensures |r| <= |s| && r == s[|s| - |r|..]
    ensures r == [] || !IsSpace(r[0])
    ensures forall i :: 0 <= i < |s| - |r| ==> IsSpace(s[i])
  {
    s[SkipSpaces(s, 0)..]
  }

  /** Trailing whitespace removed. */
  function StripRight(s: string): (r: string)
    ensures |r| <= |s| && r == s[..|r|]
    ensures r == [] || !IsSpace(r[|r| - 1])
    ensures forall i :: |r| <= i < |s| ==> IsSpace(s[i])
  {
    s[..TrimEnd(s, |s|)]
  }

  /** Python str.strip() with no argument. */
  function Strip(s: string): string
  {
    StripRight(StripLeft(s))
  }

  predicate AllSpace(s: string) { forall i :: 0 <= i < |s| ==> IsSpace(s[i]) }

  /** A stripped string is empty exactly when the input held only whitespace; otherwise
      it is a slice of the input that starts and ends with a non-space. */
  lemma StripProperties(s: string)
    ensures Strip(s) == [] <==> AllSpace(s)
    ensures Strip(s) != [] ==> !IsSpace(Strip(s)[0]) && !IsSpace(Strip(s)[|Strip(s)| - 1])
    ensures var k := |s| - |StripLeft(s)|; Strip(s) == s[k..k + |Strip(s)|]
  {
    var l := StripLeft(s);
    var r := StripRight(l);
    var k := |s| - |l|;
    assert r == s[k..k + |r|];
    if r == [] {
      assert l == [];
    }
    if r != [] {
      assert r[0] == l[0];
    }
  }

  /** Neither starts nor ends with whitespace. */
  predicate Trimmed(t: string)
  {
    t == [] || (!IsSpace(t[0]) && !IsSpace(t[|t| - 1]))
  }

  /** Already in lower case: lower-casing changes nothing. */
  predicate LowerFixed(t: string)
  {
    forall i :: 0 <= i < |t| ==> LowerChar(t[i]) == t[i]
  }

  /** A trimmed string is its own strip. */
  lemma StripTrimmed(t: string)
    requires Trimmed(t)
    ensures Strip(t) == t
  {
    if t != [] {
      assert SkipSpaces(t, 0) == 0;
      assert StripLeft(t) == t[0..] == t;
      assert TrimEnd(t, |t|) == |t|;
      assert t[..|t|] == t;
    }
  }

  /** Stripping twice is the same as stripping once. */
  lemma StripIdempotent(s: string)
    ensures Strip(Strip(s)) == Strip(s)
  {
    StripProperties(s);
    StripTrimmed(Strip(s));
  }

  predicate StartsWith(s: string, prefix: string)
  {
    |prefix| <= |s| && s[..|prefix|] == prefix
  }

  /** `sub` occurs in `s` as a contiguous substring (Python `sub in s`, JS includes). */
  predicate Contains(s: string, sub: string)
  {
    exists i :: 0 <= i <= |s| - |sub| && OccursAt(s, sub, i)
  }

  predicate OccursAt(s: string, sub: string, i: int)
    requires 0 <= i <= |s| - |sub|
  {
    s[i..i + |sub|] == sub
  }

  /** Python slicing s[:n] for n >= 0. */
  function Take<T>(s: seq<T>, n: nat): (r: seq<T>)
    ensures |r| == if n < |s| then n else |s|
    ensures r == s[..|r|]
  {
    if n < |s| then s[..n] else s
  }

  /** sep.join(parts). */
  function Join(parts: seq<string>, sep: string): (r: string)
    ensures parts == [] ==> r == []
    ensures |parts| == 1 ==> r == parts[0]
  {
    if parts == [] then []
    else if |parts| == 1 then parts[0]
    else parts[0] + sep + Join(parts[1..], sep)
  }

  lemma JoinLength(parts: seq<string>, sep: string)
    requires parts != []
    ensures |Join(parts, sep)| == SumLengths(parts) + (|parts| - 1) * |sep|
  {
    if |parts| > 1 {
      JoinLength(parts[1..], sep);
    }
  }

  /** Three parts joined: the separator between each neighbouring pair. */
  lemma JoinThree(parts: seq<string>, sep: string)
    requires |parts| == 3
    ensures Join(parts, sep) == parts[0] + sep + (parts[1] + sep + parts[2])
  {
    assert parts[1..] == [parts[1], parts[2]] && parts[1..][1..] == [parts[2]];
  }

  /** A string starts with its first part. */
  lemma StartsWithConcat(a: string, b: string)
    ensures StartsWith(a + b, a)
  {
    assert (a + b)[..|a|] == a;
  }

  /** A string contains each of its middle parts. */
  lemma ContainsMiddle(a: string, x: string, b: string)
    ensures Contains(a + x + b, x)
  {
    assert OccursAt(a + x + b, x, |a|) by {
      assert (a + x + b)[|a|..|a| + |x|] == x;
    }
  }

  function SumLengths(parts: seq<string>): nat
  {
    if parts == [] then 0 else |parts[0]| + SumLengths(parts[1..])
  }

  /** Python str.split() with no argument and JS split(/\s+/).filter(Boolean): the maximal
      runs of non-space characters, in order. */
  function Words(s: string): (r: seq<string>)
    ensures forall k :: 0 <= k < |r| ==> r[k] != []
    decreases |s|
  {
    var t := StripLeft(s);
    if t == [] then []
    else
      var n := WordEnd(t, 0);
      [t[..n]] + Words(t[n..])
  }

  /** When every non-space character of `s` has property P, so does every character of
      every word of `s`. */
  lemma {:induction false} WordsKeep(s: string, P: char -> bool)
    requires forall i :: 0 <= i < |s| ==> IsSpace(s[i]) || P(s[i])
    ensures forall w, i :: w in Words(s) && 0 <= i < |w| ==> P(w[i])
    decreases |s|
  {
    var t := StripLeft(s);
    if t != [] {
      var n := WordEnd(t, 0);
      var k := |s| - |t|;
      assert forall j :: 0 <= j < |t| ==> t[j] == s[k + j];
      WordsKeep(t[n..], P);
      assert Words(s) == [t[..n]] + Words(t[n..]);
      forall w, i | w in Words(s) && 0 <= i < |w| ensures P(w[i]) {
        if w == t[..n] {
          assert w[i] == s[k + i];
        }
      }
    }
  }

  /** The index of the first space at or after `i`, or |t|. */
  function WordEnd(t: string, i: nat): (n: nat)
    requires i <= |t|
    ensures i <= n <= |t|
    ensures forall j :: i <= j < n ==> !IsSpace(t[j])
    ensures n < |t| ==> IsSpace(t[n])
    decreases |t| - i
  {
    if i == |t| || IsSpace(t[i]) then i else WordEnd(t, i + 1)
  }

  /** Only whitespace has no words. */
  lemma {:induction false} WordsEmpty(s: string)
    ensures Words(s) == [] <==> AllSpace(s)
  {
    var t := StripLeft(s);
    if t == [] {
      assert AllSpace(s);
    } else {
      assert !IsSpace(s[|s| - |t|]);
    }
  }

  /** The concatenation of the parts: JavaScript `parts.join('')`. */
  function Concat(parts: seq<string>): (r: string)
    ensures |r| == SumLengths(parts)
  {
    if parts == [] then [] else parts[0] + Concat(parts[1..])
  }

  lemma {:induction false} ConcatAppend(a: seq<string>, b: seq<string>)
    ensures Concat(a + b) == Concat(a) + Concat(b)
  {
    if a != [] {
      ConcatAppend(a[1..], b);
      assert (a + b)[1..] == a[1..] + b;
    } else {
      assert a + b == b;
    }
  }

  /** A list whose first part is non-empty joins into a non-empty string. */
  lemma ConcatHead(parts: seq<string>)
    requires parts != [] && parts[0] != []
    ensures Concat(parts) != []
  {
  }

  /** The decimal digits of a natural number, most significant first. */
  function NatToDecimal(n: nat): (r: string)
    ensures r != [] && forall i :: 0 <= i < |r| ==> IsDigit(r[i])
    ensures |r| > 1 ==> r[0] != '0'
  {
    if n < 10 then [('0' as int + n) as char]
    else NatToDecimal(n / 10) + [('0' as int + n % 10) as char]
  }

  /** Python str() / JS String() of an integer. */
  function IntToDecimal(i: int): (r: string)
    ensures r != []
  {
    if i < 0 then "-" + NatToDecimal(-i) else NatToDecimal(i)
  }

  /** The value of a string of decimal digits. */
  function DecimalValue(s: string): nat
    requires forall i :: 0 <= i < |s| ==> IsDigit(s[i])
  {
    if s == [] then 0
    else
      assert IsDigit(s[|s| - 1]);
      DecimalValue(s[..|s| - 1]) * 10 + (s[|s| - 1] as int - '0' as int)
  }

  /** Reading back the decimal rendering gives the number. */
  lemma {:induction false} DecimalRoundTrip(n: nat)
    ensures DecimalValue(NatToDecimal(n)) == n
  {
    if n >= 10 {
      DecimalRoundTrip(n / 10);
      var s := NatToDecimal(n);
      assert s[..|s| - 1] == NatToDecimal(n / 10);
    }
  }

  /** Different numbers have different renderings. */
  lemma DecimalInjective(m: nat, n: nat)
    requires NatToDecimal(m) == NatToDecimal(n)
    ensures m == n
  {
    DecimalRoundTrip(m);
    DecimalRoundTrip(n);
  }
}
