/**
 * The page-number extraction that `count_tasks` applies to the JSON:API
 * `links.last` URL: `re.search(r'page\[number\]=(\d+)', last_link)` followed by
 * `int(match.group(1))`. A match is the leftmost position where the literal
 * `page[number]=` is followed by at least one digit; the digit run is greedy and
 * read as a decimal number (leading zeros allowed, as `int` allows them).
 */
module PageLink {
  import opened Wrappers

  /** The literal part of the pattern. */
  const Marker: string := "page[number]="

  predicate IsDigit(c: char)
  {
    '0' <= c <= '9'
  }

  predicate AllDigits(s: string)
  {
    forall k :: 0 <= k < |s| ==> IsDigit(s[k])
  }

  /** The pattern matches at position `i` of `s`: the literal, then at least one digit. */
  predicate MatchAt(s: string, i: int)
  {
    0 <= i && i + |Marker| < |s| && s[i..i + |Marker|] == Marker && IsDigit(s[i + |Marker|])
  }

  /** The greedy `\d+` run starting at `j`: every digit from `j` up to the first non-digit. */
  function DigitRun(s: string, j: nat): (r: string)
    requires j <= |s|
    ensures j + |r| <= |s| && s[j..j + |r|] == r
    ensures AllDigits(r)
    ensures j + |r| == |s| || !IsDigit(s[j + |r|])
    decreases |s| - j
  {
    if j < |s| && IsDigit(s[j]) then [s[j]] + DigitRun(s, j + 1) else []
  }

  /** The leftmost match at or after position `i`, as `re.search` scans left to right. */
  function FirstMatchFrom(s: string, i: nat): (r: Option<nat>)
    ensures r.Some? ==> i <= r.value && MatchAt(s, r.value)
    ensures r.Some? ==> forall j :: i <= j < r.value ==> !MatchAt(s, j)
    ensures r.None? <==> forall j :: i <= j ==> !MatchAt(s, j)
    decreases |s| - i
  {
    if i + |Marker| >= |s| then None
    else if MatchAt(s, i) then Some(i)
    else FirstMatchFrom(s, i + 1)
  }

  function DigitValue(c: char): nat
    requires IsDigit(c)
  {
    c as int - '0' as int
  }

  function DigitChar(d: nat): char
    requires d < 10
  {
    ('0' as int + d) as char
  }

  /** `int(digits)` for a string of ASCII digits. */
  function DecimalValue(digits: string): nat
    requires AllDigits(digits)
  {
    if digits == [] then 0
    else DecimalValue(digits[..|digits| - 1]) * 10 + DigitValue(digits[|digits| - 1])
  }

  /** `str(n)` for a non-negative integer: decimal digits, no leading zero. */
  function DecimalString(n: nat): (r: string)
    ensures AllDigits(r) && |r| >= 1
    ensures r[0] == '0' ==> n == 0
  {
    if n < 10 then [DigitChar(n)] else DecimalString(n / 10) + [DigitChar(n % 10)]
  }

  /** Reading back what `str` writes gives the number again. */
  lemma {:induction false} DecimalRoundTrip(n: nat)
    ensures DecimalValue(DecimalString(n)) == n
  {
    if n >= 10 {
      var prefix := DecimalString(n / 10);
      var s := DecimalString(n);
      assert s == prefix + [DigitChar(n % 10)];
      assert s[..|s| - 1] == prefix;
      DecimalRoundTrip(n / 10);
    }
  }

  /** The page number the pattern finds in `s`, or None when it does not match. */
  function PageNumberIn(s: string): (r: Option<nat>)
    ensures r.None? <==> forall j :: 0 <= j ==> !MatchAt(s, j)
  {
    match FirstMatchFrom(s, 0)
    case None => None
    case Some(i) => Some(DecimalValue(DigitRun(s, i + |Marker|)))
  }

  /** The number found is the one after the leftmost match, read greedily. */
  lemma PageNumberIsLeftmost(s: string)
    ensures PageNumberIn(s).Some? ==> exists i ::
      && MatchAt(s, i)
      && (forall j :: 0 <= j < i ==> !MatchAt(s, j))
      && PageNumberIn(s).value == DecimalValue(DigitRun(s, i + |Marker|))
  {
    if PageNumberIn(s).Some? {
      var i := FirstMatchFrom(s, 0).value;
      assert MatchAt(s, i);
    }
  }

  /** A maximal digit run is determined by where it starts. */
  lemma {:induction false} DigitRunIs(s: string, j: nat, d: string)
    requires j + |d| <= |s| && s[j..j + |d|] == d && AllDigits(d)
    requires j + |d| == |s| || !IsDigit(s[j + |d|])
    ensures DigitRun(s, j) == d
    decreases |d|
  {
    if d != [] {
      assert s[j] == d[0];
      assert s[j + 1..j + 1 + |d[1..]|] == d[1..];
      DigitRunIs(s, j + 1, d[1..]);
      assert d == [d[0]] + d[1..];
    }
  }

  /** `=` occurs in the literal only as its last character. */
  lemma MarkerEqualsSignIsLast(k: nat)
    requires k < |Marker| - 1
    ensures Marker[k] != '='
  {
  }

  /**
   * A match cannot start inside `prefix` and run into a following copy of the
   * literal, so the pattern matches `prefix + rest` before `|prefix|` only where it
   * already matches `prefix`.
   */
  lemma NoMatchBeforeMarker(prefix: string, rest: string, j: nat)
    requires |Marker| < |rest| && rest[..|Marker|] == Marker
    requires j < |prefix| && !MatchAt(prefix, j)
    ensures !MatchAt(prefix + rest, j)
  {
    var s := prefix + rest;
    var p, m := |prefix|, |Marker|;
    if j + m < p {
      assert s[j..j + m] == prefix[j..j + m];
      assert s[j + m] == prefix[j + m];
    } else if j + m == p {
      assert s[j + m] == rest[0] == Marker[0];
    } else {
      var q := j + m - 1;
      assert s[q] == rest[q - p] == Marker[q - p];
      MarkerEqualsSignIsLast(q - p);
      assert s[j..j + m][m - 1] == s[q];
    }
  }

  /** Where the literal is followed by a digit run, the pattern matches and reads that run. */
  lemma MatchAtMarker(s: string, p: nat, d: string)
    requires p + |Marker| + |d| <= |s| && s[p..p + |Marker|] == Marker
    requires s[p + |Marker|..p + |Marker| + |d|] == d && AllDigits(d) && |d| >= 1
    requires p + |Marker| + |d| == |s| || !IsDigit(s[p + |Marker| + |d|])
    ensures MatchAt(s, p) && DigitRun(s, p + |Marker|) == d
  {
    assert s[p + |Marker|] == d[0];
    DigitRunIs(s, p + |Marker|, d);
  }

  /** Where the parts of `a + b + c + e` sit. */
  lemma ConcatSlices(a: string, b: string, c: string, e: string)
    ensures a + (b + c + e) == a + b + c + e
    ensures (b + c + e)[..|b|] == b
    ensures (a + b + c + e)[|a|..|a| + |b|] == b
    ensures (a + b + c + e)[|a| + |b|..|a| + |b| + |c|] == c
    ensures e != [] ==> (a + b + c + e)[|a| + |b| + |c|] == e[0]
  {
  }

  /** No match starts inside `prefix` when the literal follows it and `prefix` alone has none. */
  lemma NoMatchInPrefix(prefix: string, rest: string)
    requires |Marker| < |rest| && rest[..|Marker|] == Marker
    requires PageNumberIn(prefix) == None
    ensures forall j :: 0 <= j < |prefix| ==> !MatchAt(prefix + rest, j)
  {
    forall j | 0 <= j < |prefix|
      ensures !MatchAt(prefix + rest, j)
    {
      NoMatchBeforeMarker(prefix, rest, j);
    }
  }

  /** Where the literal is followed by a digit run and nothing matches earlier, that run is the page number. */
  lemma PageNumberAt(s: string, p: nat, d: string)
    requires p + |Marker| + |d| <= |s| && s[p..p + |Marker|] == Marker
    requires s[p + |Marker|..p + |Marker| + |d|] == d && AllDigits(d) && |d| >= 1
    requires p + |Marker| + |d| == |s| || !IsDigit(s[p + |Marker| + |d|])
    requires forall j :: 0 <= j < p ==> !MatchAt(s, j)
    ensures PageNumberIn(s) == Some(DecimalValue(d))
  {
    MatchAtMarker(s, p, d);
    assert FirstMatchFrom(s, 0) == Some(p);
  }

  /**
   * A URL whose `page[number]=` parameter carries `str(n)` yields `n`, whatever
   * comes before it (provided the pattern does not already match there) and
   * whatever non-digit text follows.
   */
  lemma {:induction false} PageNumberOfEncodedLink(prefix: string, n: nat, suffix: string)
    requires PageNumberIn(prefix) == None
    requires suffix == [] || !IsDigit(suffix[0])
    ensures PageNumberIn(prefix + Marker + DecimalString(n) + suffix) == Some(n)
  {
    var d := DecimalString(n);
    ConcatSlices(prefix, Marker, d, suffix);
    NoMatchInPrefix(prefix, Marker + d + suffix);
    PageNumberAt(prefix + Marker + d + suffix, |prefix|, d);
    DecimalRoundTrip(n);
  }
}
