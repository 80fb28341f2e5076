/**
 * The pieces of java.lang.String and java.lang.Integer that the WebPrint core relies on:
 * `indexOf`/`contains`, `split` with a literal separator, `Integer.parseInt`/`Integer.toString`,
 * `equalsIgnoreCase` against a lower-case ASCII word, and `toUpperCase` on ASCII text.
 */
module JavaText {
  import opened Base

  /** `sep` occurs in `s` starting at index `i`. */
  predicate OccursAt<T(==)>(s: seq<T>, sep: seq<T>, i: int) {
    0 <= i && i + |sep| <= |s| && s[i..i + |sep|] == sep
  }

  lemma OccursShift<T>(s: seq<T>, sep: seq<T>)
    requires |s| > 0
    ensures forall j :: 1 <= j ==> (OccursAt(s, sep, j) <==> OccursAt(s[1..], sep, j - 1))
  {
  }

  /** `String.indexOf(sep)`: the first index at which a non-empty `sep` occurs in `s`. */
  function IndexOf<T(==)>(s: seq<T>, sep: seq<T>): (r: Option<nat>)
    requires |sep| > 0
    ensures r.Some? ==> OccursAt(s, sep, r.value)
    ensures r.Some? ==> forall j :: 0 <= j < r.value ==> !OccursAt(s, sep, j)
    ensures r.None? ==> forall j :: !OccursAt(s, sep, j)
    decreases |s|
  {
    if |s| < |sep| then None
    else if s[..|sep|] == sep then Some(0)
    else
      OccursShift(s, sep);
      match IndexOf(s[1..], sep)
      case None => None
      case Some(k) => Some(k + 1)
  }

  /** `String.contains(sep)` (every sequence contains the empty one). */
  function Contains<T(==)>(s: seq<T>, sep: seq<T>): (r: bool)
    ensures r <==> exists i :: OccursAt(s, sep, i)
  {
    if |sep| == 0 then assert OccursAt(s, sep, 0); true
    else IndexOf(s, sep).Some?
  }

  /** The pieces of a split joined back together, with `sep` between neighbours. */
  function Join(parts: seq<string>, sep: string): string
    requires |parts| > 0
    decreases |parts|
  {
    if |parts| == 1 then parts[0] else parts[0] + sep + Join(parts[1..], sep)
  }

  /** An occurrence inside a prefix is an occurrence in the whole text. */
  lemma OccursInPrefix(s: string, sep: string, i: nat, j: int)
    requires i <= |s| && OccursAt(s[..i], sep, j)
    ensures OccursAt(s, sep, j)
  {
    assert s[..i][j..j + |sep|] == s[j..j + |sep|];
  }

  /**
   * The text between successive leftmost, non-overlapping occurrences of `sep`: joined with
   * `sep` the pieces give back `s`, and no piece holds `sep`.
   */
  function Pieces(s: string, sep: string): (r: seq<string>)
    requires |sep| > 0
    ensures |r| > 0
    ensures Join(r, sep) == s
    ensures forall k :: 0 <= k < |r| ==> !Contains(r[k], sep)
    decreases |s|
  {
    match IndexOf(s, sep)
    case None => [s]
    case Some(i) =>
      var rest := Pieces(s[i + |sep|..], sep);
      var r := [s[..i]] + rest;
      assert r[1..] == rest;
      FirstPiece(s, sep, i);
      r
  }

  /** Around its first occurrence at `i`, `s` is a piece free of `sep`, then `sep`, then the rest. */
  lemma FirstPiece(s: string, sep: string, i: nat)
    requires |sep| > 0 && IndexOf(s, sep) == Some(i)
    ensures s[..i] + sep + s[i + |sep|..] == s
    ensures !Contains(s[..i], sep)
  {
    assert s[i..i + |sep|] == sep;
    assert s == s[..i] + s[i..i + |sep|] + s[i + |sep|..];
    FirstPieceFree(s, sep, i);
  }

  lemma FirstPieceFree(s: string, sep: string, i: nat)
    requires |sep| > 0 && i <= |s| && forall j :: 0 <= j < i ==> !OccursAt(s, sep, j)
    ensures !Contains(s[..i], sep)
  {
    forall j | OccursAt(s[..i], sep, j)
      ensures false
    {
      OccursInPrefix(s, sep, i, j);
    }
  }

  /** Java's removal of the empty strings at the end of a split. */
  function DropTrailingEmpty(parts: seq<string>): (r: seq<string>)
    ensures |r| <= |parts| && r == parts[..|r|]
    ensures forall k :: |r| <= k < |parts| ==> parts[k] == ""
    ensures |r| > 0 ==> r[|r| - 1] != ""
    decreases |parts|
  {
    if |parts| > 0 && parts[|parts| - 1] == "" then DropTrailingEmpty(parts[..|parts| - 1]) else parts
  }

  /**
   * `String.split(regex)` for a regular expression that matches exactly the text `sep`:
   * without a match the result is the whole input; otherwise the pieces, with the trailing
   * empty ones removed.
   */
  function Split(s: string, sep: string): (r: seq<string>)
    requires |sep| > 0
    ensures !Contains(s, sep) ==> r == [s]
    ensures Contains(s, sep) ==>
      && |r| <= |Pieces(s, sep)| && r == Pieces(s, sep)[..|r|]
      && (forall k :: |r| <= k < |Pieces(s, sep)| ==> Pieces(s, sep)[k] == "")
      && (|r| > 0 ==> r[|r| - 1] != "")
    ensures forall k :: 0 <= k < |r| ==> !Contains(r[k], sep)
  {
    if IndexOf(s, sep).None? then [s] else DropTrailingEmpty(Pieces(s, sep))
  }

  /** Splitting `a + c + b` on the one-character separator `c` gives back `a` and `b`. */
  lemma SplitAroundChar(a: string, c: char, b: string)
    requires c !in a && c !in b && b != ""
    ensures Split(a + [c] + b, [c]) == [a, b]
  {
    var s := a + [c] + b;
    assert OccursAt(s, [c], |a|);
    forall j | 0 <= j < |a|
      ensures !OccursAt(s, [c], j)
    {
      assert s[j..j + 1] == [a[j]];
    }
    var k := IndexOf(s, [c]);
    assert k == Some(|a|);
    assert s[..|a|] == a;
    assert s[|a| + 1..] == b;
    forall j | 0 <= j < |b|
      ensures !OccursAt(b, [c], j)
    {
      assert b[j..j + 1] == [b[j]];
    }
    assert IndexOf(b, [c]) == None;
    assert Pieces(s, [c]) == [a, b];
  }

  /** Without an occurrence of the separator, `split` returns the whole input. */
  lemma SplitWithoutSeparator(s: string, sep: string)
    requires |sep| > 0 && !Contains(s, sep)
    ensures Split(s, sep) == [s]
  {
  }

  // Decimal integers

  predicate IsDigit(c: char) {
    '0' <= c <= '9'
  }

  predicate AllDigits(s: string) {
    forall i :: 0 <= i < |s| ==> IsDigit(s[i])
  }

  function DigitChar(d: nat): (c: char)
    requires d < 10
    ensures IsDigit(c)
  {
    ('0' as int + d) as char
  }

  /** The value of a string of ASCII decimal digits, most significant first. */
  function DigitsValue(s: string): nat
    requires AllDigits(s)
    decreases |s|
  {
    if |s| == 0 then 0 else DigitsValue(s[..|s| - 1]) * 10 + (s[|s| - 1] as int - '0' as int)
  }

  /** The shortest decimal spelling of `n`. */
  function NatDigits(n: nat): string
    decreases n
  {
    if n < 10 then [DigitChar(n)] else NatDigits(n / 10) + [DigitChar(n % 10)]
  }

  /** `Integer.toString(n)`: a minus sign for a negative `n`, then the decimal digits of its magnitude. */
  function FormatInt(n: int): (r: string)
    ensures n < 0 ==> |r| > 1 && r[0] == '-' && AllDigits(r[1..]) && DigitsValue(r[1..]) == -n
    ensures n >= 0 ==> |r| > 0 && AllDigits(r) && DigitsValue(r) == n
  {
    if n < 0 then
      NatDigitsValue(-n);
      assert ("-" + NatDigits(-n))[1..] == NatDigits(-n);
      "-" + NatDigits(-n)
    else
      NatDigitsValue(n);
      NatDigits(n)
  }

  /**
   * `Integer.parseInt(s)` (and `Integer.valueOf`): an optional '-' or '+', then at least one
   * decimal digit, and a value in the 32-bit range; anything else raises NumberFormatException,
   * modelled as None.
   */
  function ParseInt(s: string): (r: Option<int>)
    ensures r.Some? ==> Int32(r.value)
  {
    if |s| == 0 then None
    else
      var digits := if s[0] == '-' || s[0] == '+' then s[1..] else s;
      if |digits| == 0 || !AllDigits(digits) then None
      else
        var v: int := if s[0] == '-' then -(DigitsValue(digits) as int) else DigitsValue(digits);
        if Int32(v) then Some(v) else None
  }

  lemma {:induction false} NatDigitsValue(n: nat)
    ensures |NatDigits(n)| > 0 && AllDigits(NatDigits(n))
    ensures DigitsValue(NatDigits(n)) == n
  {
    if n >= 10 {
      NatDigitsValue(n / 10);
      var s := NatDigits(n);
      assert s[..|s| - 1] == NatDigits(n / 10);
    }
  }

  /** `Integer.parseInt` reads back every 32-bit value that `Integer.toString` writes. */
  lemma ParseFormatInt(n: int)
    requires Int32(n)
    ensures ParseInt(FormatInt(n)) == Some(n)
  {
    var r := FormatInt(n);
    if n >= 0 {
      assert r[0] != '-' && r[0] != '+' by { assert IsDigit(r[0]); }
    }
  }

  /** A formatted integer is never empty and never contains a colon. */
  lemma FormatIntNoColon(n: int)
    ensures ':' !in FormatInt(n) && FormatInt(n) != ""
  {
    var r := FormatInt(n);
    if n < 0 {
      assert forall k :: 1 <= k < |r| ==> r[k] == r[1..][k - 1];
    }
  }

  // Case

  predicate LowerAscii(w: string) {
    forall i :: 0 <= i < |w| ==> 'a' <= w[i] <= 'z'
  }

  /**
   * Java's per-character test in `equalsIgnoreCase` against a lower-case ASCII letter `t`:
   * equal, equal after `Character.toUpperCase`, or equal after upper- then lower-casing.
   * Besides `t` and its capital, that admits U+0130 and U+0131 for 'i', U+017F for 's'
   * and U+212A for 'k'. (For any other `t` this is not Java's test; the model uses it only
   * with the lower-case words it compares against.)
   */
  predicate CharEqualsIgnoreCase(c: char, t: char) {
    || c == t
    || c as int == t as int - 32
    || (t == 'i' && (c == '\U{0130}' || c == '\U{0131}'))
    || (t == 's' && c == '\U{017F}')
    || (t == 'k' && c == '\U{212A}')
  }

  /** `s.equalsIgnoreCase(w)` for a lower-case ASCII word `w`. */
  predicate EqualsIgnoreCase(s: string, w: string) {
    |s| == |w| && forall i :: 0 <= i < |s| ==> CharEqualsIgnoreCase(s[i], w[i])
  }

  function UpperAsciiChar(c: char): char {
    if 'a' <= c <= 'z' then (c as int - 32) as char else c
  }

  /** `toUpperCase(Locale.ENGLISH)` on text made of ASCII characters. */
  function UpperAscii(s: string): (r: string)
    ensures |r| == |s|
    ensures forall i :: 0 <= i < |s| ==> r[i] == UpperAsciiChar(s[i])
  {
    seq(|s|, i requires 0 <= i < |s| => UpperAsciiChar(s[i]))
  }

  predicate UpperWord(w: string) {
    forall i :: 0 <= i < |w| ==> 'A' <= w[i] <= 'Z'
  }

  /**
   * Upper-casing gives the capital word `w` exactly when every character is that capital or
   * the matching small letter: the word is accepted in any mixture of cases, and nothing else is.
   */
  lemma UpperAsciiMatches(m: string, w: string)
    requires UpperWord(w)
    ensures UpperAscii(m) == w <==>
      |m| == |w| && forall i :: 0 <= i < |m| ==> m[i] == w[i] || m[i] as int == w[i] as int + 32
  {
    if |m| == |w| && forall i :: 0 <= i < |m| ==> m[i] == w[i] || m[i] as int == w[i] as int + 32 {
      forall i | 0 <= i < |m|
        ensures UpperAscii(m)[i] == w[i]
      {
      }
      assert UpperAscii(m) == w;
    }
  }

  /**
   * On ASCII text `equalsIgnoreCase` against a small-letter word agrees with comparing the
   * upper-cased texts; the special characters matter only outside ASCII.
   */
  lemma EqualsIgnoreCaseAscii(s: string, w: string)
    requires LowerAscii(w) && forall i :: 0 <= i < |s| ==> s[i] < '\U{0080}'
    ensures EqualsIgnoreCase(s, w) <==> UpperAscii(s) == UpperAscii(w)
  {
    if UpperAscii(s) == UpperAscii(w) {
      forall i | 0 <= i < |s|
        ensures CharEqualsIgnoreCase(s[i], w[i])
      {
        assert UpperAscii(s)[i] == UpperAscii(w)[i];
      }
    }
    if EqualsIgnoreCase(s, w) {
      forall i | 0 <= i < |s|
        ensures UpperAscii(s)[i] == UpperAscii(w)[i]
      {
        assert CharEqualsIgnoreCase(s[i], w[i]);
      }
      assert UpperAscii(s) == UpperAscii(w);
    }
  }

  /** Java also matches the long s U+017F to 's', so the long s followed by "ingle" equals "single" ignoring case. */
  lemma LongSMatchesS()
    ensures EqualsIgnoreCase("\U{017F}ingle", "single")
    ensures UpperAscii("\U{017F}ingle") != UpperAscii("single")
  {
    assert UpperAscii("\U{017F}ingle")[0] == '\U{017F}';
  }
}
