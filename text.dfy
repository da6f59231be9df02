/** The handful of Python string operations the system relies on:
    `str.strip()`, `str.upper()` and `str.isalnum()` (the last two on ASCII
    letters and digits), and `str.split(sep)`. */
module Text {
  import opened Wrappers

  /** `str.isspace()` on one character: tab, line feed, vertical tab, form
      feed and carriage return (9-13), the separators 28-31, the space, and
      the Unicode spaces and line or paragraph separators (next line U+0085,
      no-break space U+00A0, ogham space U+1680, U+2000-U+200A, U+2028,
      U+2029, U+202F, U+205F and the ideographic space U+3000). */
  predicate IsSpace(c: char) {
    c == ' ' || (9 <= c as int <= 13) || (28 <= c as int <= 31)
    || c as int == 0x85 || c as int == 0xA0 || c as int == 0x1680 || (0x2000 <= c as int <= 0x200A)
    || c as int == 0x2028 || c as int == 0x2029 || c as int == 0x202F || c as int == 0x205F
    || c as int == 0x3000
  }

  predicate IsLower(c: char) { 'a' <= c <= 'z' }
  predicate IsDigit(c: char) { '0' <= c <= '9' }
  predicate IsAlnumChar(c: char) { 'a' <= c <= 'z' || 'A' <= c <= 'Z' || IsDigit(c) }

  /** `str.isalnum()`: false on the empty string. */
  predicate IsAlnum(s: string) {
    |s| > 0 && forall i :: 0 <= i < |s| ==> IsAlnumChar(s[i])
  }

  function UpperChar(c: char): char {
    if IsLower(c) then (c as int - 32) as char else c
  }

  /** `str.upper()` on ASCII letters. */
  function Upper(s: string): (r: string)
    ensures |r| == |s|
    ensures forall i :: 0 <= i < |s| ==> r[i] == UpperChar(s[i])
  {
    seq(|s|, i requires 0 <= i < |s| => UpperChar(s[i]))
  }

  lemma UpperIdempotent(s: string)
    ensures Upper(Upper(s)) == Upper(s)
    ensures forall i :: 0 <= i < |s| ==> !IsLower(Upper(s)[i])
  {
  }

  /** Leading whitespace removed: the result is a suffix of `s`, everything cut
      off is whitespace and the result does not start with whitespace. */
  function StripLeft(s: string): (r: string)
    ensures |r| <= |s| && r == s[|s| - |r|..]
    ensures forall i :: 0 <= i < |s| - |r| ==> IsSpace(s[i])
    ensures |r| > 0 ==> !IsSpace(r[0])
    decreases |s|
  {
    if |s| > 0 && IsSpace(s[0]) then StripLeft(s[1..]) else s
  }

  /** Trailing whitespace removed, symmetrically. */
  function StripRight(s: string): (r: string)
    ensures |r| <= |s| && r == s[..|r|]
    ensures forall i :: |r| <= i < |s| ==> IsSpace(s[i])
    ensures |r| > 0 ==> !IsSpace(r[|r| - 1])
    decreases |s|
  {
    if |s| > 0 && IsSpace(s[|s| - 1]) then StripRight(s[..|s| - 1]) else s
  }

  /** `str.strip()` with no argument. */
  function Strip(s: string): (r: string)
  {
    StripRight(StripLeft(s))
  }

  /** Strip leaves a string that is all whitespace empty, and otherwise one
      whose two ends are not whitespace; stripping twice changes nothing more. */
  lemma StripShape(s: string)
    ensures Strip(s) == "" <==> forall i :: 0 <= i < |s| ==> IsSpace(s[i])
    ensures |Strip(s)| > 0 ==> !IsSpace(Strip(s)[0]) && !IsSpace(Strip(s)[|Strip(s)| - 1])
    ensures Strip(Strip(s)) == Strip(s)
  {
    var l := StripLeft(s);
    var r := StripRight(l);
    if r == "" {
      forall i | 0 <= i < |s| ensures IsSpace(s[i]) {
      }
    }
    if |r| > 0 {
      assert r[0] == l[0];
    }
    assert StripLeft(r) == r;
    assert StripRight(r) == r;
  }

  /** `sep` occurs in `s` starting at index `k`. */
  predicate SepAt(s: string, sep: string, k: int) {
    0 <= k && k + |sep| <= |s| && s[k..k + |sep|] == sep
  }

  /** Index of the first occurrence of `sep` in `s`, as `str.find` reports it. */
  function FindSep(s: string, sep: string): (r: Option<nat>)
    requires |sep| > 0
    ensures r.Some? ==> SepAt(s, sep, r.value)
    ensures r.Some? ==> forall k :: 0 <= k < r.value ==> !SepAt(s, sep, k)
    ensures r.None? ==> forall k :: !SepAt(s, sep, k)
    decreases |s|
  {
    if |s| < |sep| then None
    else if s[..|sep|] == sep then Some(0)
    else
      SepShift(s, sep);
      match FindSep(s[1..], sep)
      case None => None
      case Some(k) => Some(k + 1)
  }

  /** An occurrence past the first character of `s` is one in `s[1..]`, one
      place earlier. */
  lemma SepShift(s: string, sep: string)
    requires |s| > 0
    ensures forall j :: 1 <= j ==> (SepAt(s, sep, j) <==> SepAt(s[1..], sep, j - 1))
  {
    forall j | 1 <= j
      ensures SepAt(s, sep, j) <==> SepAt(s[1..], sep, j - 1)
    {
      if j + |sep| <= |s| {
        assert s[1..][j - 1..j - 1 + |sep|] == s[j..j + |sep|];
      }
    }
  }

  /** `str.split(sep)`: the pieces between the non-overlapping occurrences of
      `sep`, scanned from the left. */
  function Split(s: string, sep: string): (parts: seq<string>)
    requires |sep| > 0
    ensures |parts| >= 1
    ensures forall i, k | 0 <= i < |parts| :: !SepAt(parts[i], sep, k)
    decreases |s|
  {
    match FindSep(s, sep)
    case None => [s]
    case Some(k) =>
      SepInPrefix(s, sep, k);
      var rest := Split(s[k + |sep|..], sep);
      assert forall i | 1 <= i < 1 + |rest| :: ([s[..k]] + rest)[i] == rest[i - 1];
      [s[..k]] + rest
  }

  /** An occurrence inside a prefix is an occurrence in the whole text that
      ends within the prefix. */
  lemma SepInPrefix(s: string, sep: string, k: nat)
    requires |sep| > 0 && k <= |s|
    ensures forall j | SepAt(s[..k], sep, j) :: SepAt(s, sep, j) && j < k
  {
    forall j | SepAt(s[..k], sep, j) ensures SepAt(s, sep, j) && j < k {
      assert s[..k][j..j + |sep|] == s[j..j + |sep|];
    }
  }

  /** `sep.join(parts)`. */
  function Join(parts: seq<string>, sep: string): string
    requires |parts| >= 1
  {
    if |parts| == 1 then parts[0] else parts[0] + sep + Join(parts[1..], sep)
  }

  /** Splitting loses nothing: joining the pieces back gives the input. */
  lemma JoinCons(x: string, rest: seq<string>, sep: string)
    requires |rest| >= 1
    ensures Join([x] + rest, sep) == x + sep + Join(rest, sep)
  {
    assert ([x] + rest)[1..] == rest;
  }

  lemma SplitAtFirst(s: string, sep: string)
    requires |sep| > 0
    requires FindSep(s, sep).Some?
    ensures Split(s, sep) == [s[..FindSep(s, sep).value]] + Split(s[FindSep(s, sep).value + |sep|..], sep)
  {
  }

  lemma CutAround(s: string, sep: string, k: nat)
    requires SepAt(s, sep, k)
    ensures s == s[..k] + sep + s[k + |sep|..]
  {
    assert s == s[..k] + s[k..k + |sep|] + s[k + |sep|..];
  }

  lemma {:induction false} SplitThenJoin(s: string, sep: string)
    requires |sep| > 0
    ensures Join(Split(s, sep), sep) == s
    decreases |s|
  {
    var f := FindSep(s, sep);
    if f.Some? {
      var k := f.value;
      var rest := s[k + |sep|..];
      SplitThenJoin(rest, sep);
      SplitAtFirst(s, sep);
      JoinCons(s[..k], Split(rest, sep), sep);
      CutAround(s, sep, k);
    }
  }

  /** A string without the letter 't' holds no occurrence of " to ". */
  lemma NoSepWithoutT(b: string)
    requires forall i :: 0 <= i < |b| ==> b[i] != 't'
    ensures FindSep(b, " to ") == None
  {
    forall k | 0 <= k && k + 4 <= |b| ensures !SepAt(b, " to ", k) {
      assert b[k..k + 4][1] == b[k + 1];
    }
  }

  /** In "a to b" with no 't' in `a`, the first " to " is the one after `a`. */
  lemma FirstSepAfterPrefix(a: string, b: string)
    requires forall i :: 0 <= i < |a| ==> a[i] != 't'
    ensures FindSep(a + " to " + b, " to ") == Some(|a|)
  {
    var s := a + " to " + b;
    assert s[|a|..|a| + 4] == " to ";
    assert SepAt(s, " to ", |a|);
    forall j | 0 <= j < |a| ensures !SepAt(s, " to ", j) {
      assert s[j + 1] != 't' by {
        if j + 1 < |a| {
          assert s[j + 1] == a[j + 1];
        } else {
          assert s[j + 1] == ' ';
        }
      }
      assert s[j..j + 4][1] == s[j + 1];
    }
  }

  /** The range text "a to b" splits back into exactly `a` and `b` whenever
      neither contains the letter 't' (every occurrence of " to " needs one). */
  lemma SplitRangeRoundTrip(a: string, b: string)
    requires forall i :: 0 <= i < |a| ==> a[i] != 't'
    requires forall i :: 0 <= i < |b| ==> b[i] != 't'
    ensures Split(a + " to " + b, " to ") == [a, b]
  {
    var s := a + " to " + b;
    FirstSepAfterPrefix(a, b);
    NoSepWithoutT(b);
    assert s[|a| + 4..] == b;
    assert s[..|a|] == a;
    assert Split(b, " to ") == [b];
  }
}
