/**
 * The name conversion of the projection pattern lookups: "Joe Burrow" is
 * looked up as "J.Burrow", via Python's `str.split()`.
 */
module Names {

  /** The characters `str.isspace()` accepts, which `str.split()` splits on:
      the ASCII controls 9-13 and 28-31, the space, NEL, the no-break space and
      the Unicode space separators and line/paragraph separators. */
  predicate IsSpace(c: char) {
    || c == ' ' || c == '\t' || c == '\n' || c == '\r' || c == '\U{0B}' || c == '\U{0C}'
    || c == '\U{1C}' || c == '\U{1D}' || c == '\U{1E}' || c == '\U{1F}'
    || c == '\U{85}' || c == '\U{A0}' || c == '\U{1680}'
    || ('\U{2000}' <= c <= '\U{200A}')
    || c == '\U{2028}' || c == '\U{2029}' || c == '\U{202F}' || c == '\U{205F}' || c == '\U{3000}'
  }

  /** The non-space characters of `s`, in order. */
  function NonSpace(s: string): string {
    if |s| == 0 then []
    else (if IsSpace(s[0]) then [] else [s[0]]) + NonSpace(s[1..])
  }

  /** The words written one after the other. */
  function Concat(ws: seq<string>): string {
    if |ws| == 0 then [] else ws[0] + Concat(ws[1..])
  }

  /** A leading run of non-space characters is kept whole by `NonSpace`. */
  lemma {:induction false} NonSpaceToken(s: string, n: nat)
    requires n <= |s|
    requires forall i :: 0 <= i < n ==> !IsSpace(s[i])
    ensures NonSpace(s) == s[..n] + NonSpace(s[n..])
  {
    if n > 0 {
      NonSpaceToken(s[1..], n - 1);
      assert s[1..][..n - 1] == s[1..n];
      assert s[1..][n - 1..] == s[n..];
      assert s[..n] == [s[0]] + s[1..n];
    }
  }

  /** Length of the leading run of non-space characters. */
  function TokenLen(s: string): (n: nat)
    ensures n <= |s|
    ensures forall i :: 0 <= i < n ==> !IsSpace(s[i])
    ensures n < |s| ==> IsSpace(s[n])
  {
    if |s| == 0 || IsSpace(s[0]) then 0 else 1 + TokenLen(s[1..])
  }

  /** `s.split()`: the maximal runs of non-space characters, in order. Written
      one after the other the words are exactly the non-space characters of
      `s`; `WordsSplit` shows every space of `s` separates two words. */
  function Words(s: string): (ws: seq<string>)
    ensures forall i :: 0 <= i < |ws| ==> |ws[i]| > 0
    ensures forall i, j :: 0 <= i < |ws| && 0 <= j < |ws[i]| ==> !IsSpace(ws[i][j])
    ensures Concat(ws) == NonSpace(s)
    decreases |s|
  {
    if |s| == 0 then []
    else if IsSpace(s[0]) then Words(s[1..])
    else
      var n := TokenLen(s);
      var rest := Words(s[n..]);
      NonSpaceToken(s, n);
      assert ([s[..n]] + rest)[1..] == rest;
      [s[..n]] + rest
  }

  /** A space splits a string into two parts whose words are kept apart:
      no word runs across it, and the words on each side are those of that side. */
  lemma {:induction false} WordsSplit(a: string, c: char, b: string)
    requires IsSpace(c)
    ensures Words(a + [c] + b) == Words(a) + Words(b)
    decreases |a|
  {
    var s := a + [c] + b;
    if |a| == 0 {
      assert s == [c] + b;
      assert s[1..] == b;
    } else if IsSpace(a[0]) {
      assert s[1..] == a[1..] + [c] + b;
      WordsSplit(a[1..], c, b);
    } else {
      var n := TokenLen(a);
      assert forall i :: 0 <= i < n ==> s[i] == a[i];
      assert IsSpace(s[n]) by {
        if n < |a| { assert s[n] == a[n]; } else { assert s[n] == c; }
      }
      TokenPrefix(s, n);
      assert s[..n] == a[..n];
      assert s[n..] == a[n..] + [c] + b;
      WordsSplit(a[n..], c, b);
    }
  }

  /** How a name is looked up: not converted (no space), converted to
      initial + "." + second word, or an `IndexError` when the space does not
      separate two words. */
  datatype NameKey = NoSpace | Short(key: string) | IndexError

  /** The conversion `f"{parts[0][0]}.{parts[1]}"` applied when `' ' in name`. */
  function ShortName(name: string): (k: NameKey)
    ensures k.NoSpace? <==> ' ' !in name
    ensures k.IndexError? <==> ' ' in name && |Words(name)| < 2
    ensures k.Short? ==> |Words(name)| >= 2 && k.key == [Words(name)[0][0]] + "." + Words(name)[1]
  {
    if ' ' !in name then NoSpace
    else
      var parts := Words(name);
      if |parts| < 2 then IndexError
      else Short([parts[0][0]] + "." + parts[1])
  }

  /** A name without leading or trailing whitespace (as the scraper produces). */
  predicate Stripped(name: string) {
    |name| == 0 || (!IsSpace(name[0]) && !IsSpace(name[|name| - 1]))
  }

  /** A string with a non-space character has at least one word. */
  lemma {:induction false} HasWord(s: string, i: nat)
    requires i < |s| && !IsSpace(s[i])
    ensures |Words(s)| >= 1
    decreases |s|
  {
    if IsSpace(s[0]) {
      HasWord(s[1..], i - 1);
    }
  }

  /** A stripped name with a space splits into at least two words, so its
      conversion never raises. */
  lemma StrippedNamesConvert(name: string)
    requires Stripped(name) && ' ' in name
    ensures ShortName(name).Short?
  {
    var n := TokenLen(name);
    var sp :| 0 <= sp < |name| && name[sp] == ' ';
    assert n <= sp;
    assert !IsSpace(name[0]);
    var rest := name[n..];
    HasWord(rest, |rest| - 1);
  }

  /** A string without spaces is one word. */
  lemma {:induction false} SingleWord(w: string)
    requires |w| > 0 && forall i :: 0 <= i < |w| ==> !IsSpace(w[i])
    ensures Words(w) == [w]
  {
    SingleToken(w);
    assert w[|w|..] == [];
    assert w[..|w|] == w;
  }

  /** A string without spaces is one token. */
  lemma SingleToken(w: string)
    requires forall i :: 0 <= i < |w| ==> !IsSpace(w[i])
    ensures TokenLen(w) == |w|
  {
  }

  /** Two words separated by one space split into those two words. */
  lemma TwoWords(a: string, b: string)
    requires |a| > 0 && forall i :: 0 <= i < |a| ==> !IsSpace(a[i])
    requires |b| > 0 && forall i :: 0 <= i < |b| ==> !IsSpace(b[i])
    ensures Words(a + " " + b) == [a, b]
  {
    assert a + " " + b == a + [' '] + b;
    WordsSplit(a, ' ', b);
    SingleWord(a);
    SingleWord(b);
  }

  /** The leading token of `s` ends at the first space, when that is at `n`. */
  lemma TokenPrefix(s: string, n: nat)
    requires n < |s| && IsSpace(s[n])
    requires forall i :: 0 <= i < n ==> !IsSpace(s[i])
    ensures TokenLen(s) == n
  {
  }

  /** A first and a last name joined by one space ("Joe Burrow") are looked
      up as the first initial, a dot and the last name ("J.Burrow"). */
  lemma TwoWordName(first: string, last: string)
    requires |first| > 0 && forall i :: 0 <= i < |first| ==> !IsSpace(first[i])
    requires |last| > 0 && forall i :: 0 <= i < |last| ==> !IsSpace(last[i])
    ensures ShortName(first + " " + last) == Short([first[0]] + "." + last)
  {
    TwoWords(first, last);
    assert (first + " " + last)[|first|] == ' ';
  }

  /** A trailing space with a single word raises instead of falling back. */
  lemma UnstrippedNameRaises()
    ensures ShortName("Joe ") == IndexError
  {
  }
}
