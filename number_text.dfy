/**
 * Reading decimal numbers back out of a sentence built by writing them with `str`
 * between fixed pieces of text: where a number's digits sit and what the greedy
 * `\d+` run at that place reads as.
 */
module NumberText {
  import opened PageLink

  /** The pieces of a sentence written one after another. */
  function Join(pieces: seq<string>): string
  {
    if pieces == [] then [] else pieces[0] + Join(pieces[1..])
  }

  /** Where piece `k` of a joined sentence starts. */
  function Offset(pieces: seq<string>, k: nat): nat
    requires k <= |pieces|
  {
    |Join(pieces[..k])|
  }

  /** Text between two numbers: present, and not starting with a digit. */
  predicate Separates(s: string)
  {
    s != [] && !IsDigit(s[0])
  }

  /** `d` sits at position `p` of `s` and is followed by the end of `s` or a non-digit. */
  predicate Delimited(s: string, p: nat, d: string)
  {
    p + |d| <= |s| && s[p..p + |d|] == d && (p + |d| == |s| || !IsDigit(s[p + |d|]))
  }

  lemma JoinStartsWithFirst(pieces: seq<string>)
    requires pieces != [] && pieces[0] != []
    ensures Join(pieces) != [] && Join(pieces)[0] == pieces[0][0]
  {
  }

  lemma DelimitedFirst(d: string, rest: string)
    requires rest == [] || !IsDigit(rest[0])
    ensures Delimited(d + rest, 0, d)
  {
    var s := d + rest;
    assert s[0..|d|] == d;
    assert rest != [] ==> s[|d|] == rest[0];
  }

  /** Text put in front moves a delimited piece along by its length. */
  lemma DelimitedShift(x: string, y: string, p: nat, d: string)
    requires Delimited(y, p, d)
    ensures Delimited(x + y, |x| + p, d)
  {
    var s := x + y;
    assert s[|x| + p..|x| + p + |d|] == y[p..p + |d|];
    assert |x| + p + |d| < |s| ==> s[|x| + p + |d|] == y[p + |d|];
  }

  /** A piece followed by a separating piece sits delimited at its offset in the sentence. */
  lemma {:induction false} PieceDelimited(pieces: seq<string>, k: nat)
    requires k + 1 < |pieces| && Separates(pieces[k + 1])
    ensures Delimited(Join(pieces), Offset(pieces, k), pieces[k])
    decreases k
  {
    var rest := pieces[1..];
    assert Join(pieces) == pieces[0] + Join(rest);
    if k == 0 {
      JoinStartsWithFirst(rest);
      assert Join(pieces[..0]) == [];
      DelimitedFirst(pieces[0], Join(rest));
    } else {
      assert rest[k] == pieces[k + 1];
      PieceDelimited(rest, k - 1);
      DelimitedShift(pieces[0], Join(rest), Offset(rest, k - 1), pieces[k]);
      assert pieces[..k][1..] == rest[..k - 1];
      assert Join(pieces[..k]) == pieces[0] + Join(rest[..k - 1]);
    }
  }

  /** Where `str(n)` sits delimited, the greedy digit run there reads back as `n`. */
  lemma DecimalReadsBack(s: string, p: nat, n: nat)
    requires Delimited(s, p, DecimalString(n))
    ensures p <= |s| && DecimalValue(DigitRun(s, p)) == n
  {
    DigitRunIs(s, p, DecimalString(n));
    DecimalRoundTrip(n);
  }
}
