/**
 * String helpers with JavaScript's meaning: `trim`, `includes`, `startsWith`,
 * `split` on one character, `join`, `slice(0, n)`, `padStart(2, "0")`,
 * decimal formatting of integers, and the `<` order on strings.
 * A string is a sequence of Unicode scalar values; for text inside the Basic
 * Multilingual Plane this is the same as JavaScript's sequence of UTF-16 code
 * units, and `CodeUnits` gives the UTF-16 form where it matters.
 */
module Text {

  // ---------------------------------------------------------------------------
  // Whitespace and trimming
  // ---------------------------------------------------------------------------

  /** ECMAScript WhiteSpace and LineTerminator code points: what `trim` removes and `\s` matches. */
  const SpaceChars: set<char> := {
    '\t', '\n', '\U{000B}', '\U{000C}', '\r', ' ', '\U{00A0}', '\U{1680}',
    '\U{2000}', '\U{2001}', '\U{2002}', '\U{2003}', '\U{2004}', '\U{2005}',
    '\U{2006}', '\U{2007}', '\U{2008}', '\U{2009}', '\U{200A}',
    '\U{2028}', '\U{2029}', '\U{202F}', '\U{205F}', '\U{3000}', '\U{FEFF}'
  }

  predicate IsSpace(c: char) {
    c in SpaceChars
  }

  predicate AllSpace(s: string) {
    forall i :: 0 <= i < |s| ==> IsSpace(s[i])
  }

  /** Neither end of `s` is whitespace: the shape of every result of `Trim`. */
  predicate IsTrimmed(s: string) {
    |s| == 0 || (!IsSpace(s[0]) && !IsSpace(s[|s| - 1]))
  }

  /** The index of the first non-whitespace character at or after `i`, or `|s|`. */
  function SkipSpaces(s: string, i: nat): (k: nat)
    requires i <= |s|
    ensures i <= k <= |s|
    ensures forall m :: i <= m < k ==> IsSpace(s[m])
    ensures k < |s| ==> !IsSpace(s[k])
    decreases |s| - i
  {
    if i == |s| || !IsSpace(s[i]) then i else SkipSpaces(s, i + 1)
  }

  /** The end of `s[..j]` once its trailing whitespace is dropped. */
  function SkipSpacesBack(s: string, j: nat): (k: nat)
    requires j <= |s|
    ensures k <= j
    ensures forall m :: k <= m < j ==> IsSpace(s[m])
    ensures k > 0 ==> !IsSpace(s[k - 1])
  {
    if j == 0 || !IsSpace(s[j - 1]) then j else SkipSpacesBack(s, j - 1)
  }

  /** Where the trimmed text starts. */
  function TrimFrom(s: string): nat {
    SkipSpaces(s, 0)
  }

  /** Where the trimmed text ends. */
  function TrimTo(s: string): nat {
    var i := SkipSpaces(s, 0);
    if i == |s| then i else SkipSpacesBack(s, |s|)
  }

  lemma TrimBounds(s: string)
    ensures 0 <= TrimFrom(s) <= TrimTo(s) <= |s|
    ensures forall m :: 0 <= m < TrimFrom(s) ==> IsSpace(s[m])
    ensures forall m :: TrimTo(s) <= m < |s| ==> IsSpace(s[m])
  {
    var i := SkipSpaces(s, 0);
    if i < |s| {
      var j := SkipSpacesBack(s, |s|);
      if j <= i {
        assert false;
      }
    }
  }

  /** `String.prototype.trim`: the text between the leading and the trailing whitespace. */
  function Trim(s: string): (r: string)
    ensures IsTrimmed(r)
    ensures 0 <= TrimFrom(s) <= TrimTo(s) <= |s| && r == s[TrimFrom(s)..TrimTo(s)]
    ensures forall m :: 0 <= m < TrimFrom(s) ==> IsSpace(s[m])
    ensures forall m :: TrimTo(s) <= m < |s| ==> IsSpace(s[m])
    ensures r == [] <==> AllSpace(s)
  {
    TrimBounds(s);
    s[TrimFrom(s)..TrimTo(s)]
  }

  lemma {:induction false} SkipSpacesOver(w: string, t: string, i: nat)
    requires i <= |w| && AllSpace(w)
    requires |t| == 0 || !IsSpace(t[0])
    ensures SkipSpaces(w + t, i) == |w|
    decreases |w| - i
  {
    if i < |w| {
      assert (w + t)[i] == w[i];
      SkipSpacesOver(w, t, i + 1);
    }
  }

  lemma {:induction false} SkipSpacesBackOver(t: string, w: string, j: nat)
    requires |t| <= j <= |t| + |w| && AllSpace(w)
    requires |t| == 0 || !IsSpace(t[|t| - 1])
    ensures SkipSpacesBack(t + w, j) == |t|
    decreases j
  {
    if j > |t| {
      assert (t + w)[j - 1] == w[j - 1 - |t|];
      SkipSpacesBackOver(t, w, j - 1);
    }
  }

  /** Trimming is determined by the trimmed core: whitespace around a trimmed string is what `Trim` removes. */
  lemma TrimOfPadded(w1: string, t: string, w2: string)
    requires AllSpace(w1) && AllSpace(w2) && IsTrimmed(t)
    ensures Trim(w1 + t + w2) == t
  {
    var s := w1 + t + w2;
    if |t| == 0 {
      AllSpaceConcat(w1, w2);
      assert s == w1 + w2;
      assert AllSpace(s);
    } else {
      assert s == w1 + (t + w2);
      SkipSpacesOver(w1, t + w2, 0);
      assert s == (w1 + t) + w2;
      SkipSpacesBackOver(w1 + t, w2, |s|);
      assert s[|w1|..|w1| + |t|] == t;
    }
  }

  lemma AllSpaceConcat(a: string, b: string)
    requires AllSpace(a) && AllSpace(b)
    ensures AllSpace(a + b)
  {
    forall k | 0 <= k < |a + b|
      ensures IsSpace((a + b)[k])
    {
      if k < |a| {
        assert (a + b)[k] == a[k];
      } else {
        assert (a + b)[k] == b[k - |a|];
      }
    }
  }

  /** `Trim` leaves a string alone exactly when neither end is whitespace. */
  lemma TrimOfTrimmed(t: string)
    ensures Trim(t) == t <==> IsTrimmed(t)
  {
    if IsTrimmed(t) {
      TrimOfPadded("", t, "");
      assert "" + t + "" == t;
    }
  }

  lemma TrimIdempotent(s: string)
    ensures Trim(Trim(s)) == Trim(s)
  {
    TrimOfTrimmed(Trim(s));
  }

  /** Every string is its leading whitespace, its trimmed text and its trailing whitespace. */
  lemma TrimSplit(s: string) returns (a: string, b: string)
    ensures AllSpace(a) && AllSpace(b)
    ensures s == a + Trim(s) + b
  {
    var i, j := TrimFrom(s), TrimTo(s);
    a, b := s[..i], s[j..];
    assert s == a + s[i..j] + b;
  }

  lemma Regroup<T>(x: seq<T>, s: seq<T>, y: seq<T>, a: seq<T>, t: seq<T>, b: seq<T>)
    requires s == a + t + b
    ensures x + s + y == (x + a) + t + (b + y)
  {
  }

  /** Whitespace added around a string never changes what `Trim` returns. */
  lemma TrimIgnoresPadding(w1: string, s: string, w2: string)
    requires AllSpace(w1) && AllSpace(w2)
    ensures Trim(w1 + s + w2) == Trim(s)
  {
    var t := Trim(s);
    var a, b := TrimSplit(s);
    AllSpaceConcat(w1, a);
    AllSpaceConcat(b, w2);
    Regroup(w1, s, w2, a, t, b);
    TrimOfPadded(w1 + a, t, b + w2);
  }

  // ---------------------------------------------------------------------------
  // Case, substrings, prefixes
  // ---------------------------------------------------------------------------

  /** Lower-cases ASCII letters; every other character is left as it is. */
  function LowerChar(c: char): char {
    if 'A' <= c <= 'Z' then (c as int + 32) as char else c
  }

  function ToLower(s: string): (r: string)
    ensures |r| == |s|
    ensures forall i :: 0 <= i < |s| ==> r[i] == LowerChar(s[i])
  {
    seq(|s|, i requires 0 <= i < |s| => LowerChar(s[i]))
  }

  predicate StartsWith(s: string, p: string) {
    |p| <= |s| && s[..|p|] == p
  }

  predicate EndsWith(s: string, p: string) {
    |p| <= |s| && s[|s| - |p|..] == p
  }

  predicate OccursAt(t: string, n: string, i: int) {
    0 <= i && i + |n| <= |t| && t[i..i + |n|] == n
  }

  /** `t.includes(n)`. */
  predicate Contains(t: string, n: string) {
    exists i | 0 <= i <= |t| - |n| :: OccursAt(t, n, i)
  }

  /** A needle with a character that the text lacks does not occur in it. */
  lemma AbsentCharNotContained(t: string, n: string, k: int)
    requires 0 <= k < |n| && n[k] !in t
    ensures !Contains(t, n)
  {
    forall i | 0 <= i <= |t| - |n|
      ensures !OccursAt(t, n, i)
    {
      assert t[i + k] in t;
    }
  }

  /** `s.slice(0, n)` for a non-negative `n`. */
  function Take(s: string, n: nat): (r: string)
    ensures |r| == if |s| < n then |s| else n
    ensures StartsWith(s, r)
  {
    if |s| <= n then s else s[..n]
  }

  // ---------------------------------------------------------------------------
  // split / join
  // ---------------------------------------------------------------------------

  /**
   * Splits at every character for which `isSep` holds, keeping empty pieces,
   * as JavaScript's `split` does for a one-character separator.
   */
  function SplitWhere(s: string, isSep: char -> bool): (r: seq<string>)
    ensures |r| >= 1
    ensures forall k :: 0 <= k < |r| ==> forall j :: 0 <= j < |r[k]| ==> !isSep(r[k][j])
    decreases |s|
  {
    if |s| == 0 then [""]
    else
      var rest := SplitWhere(s[1..], isSep);
      if isSep(s[0]) then [""] + rest
      else
        var head := [s[0]] + rest[0];
        assert forall j :: 0 < j < |head| ==> head[j] == rest[0][j - 1];
        [head] + rest[1..]
  }

  /** The characters of `s` for which `isSep` holds, in order. */
  function Separators(s: string, isSep: char -> bool): (r: string)
    ensures forall k :: 0 <= k < |r| ==> isSep(r[k])
    decreases |s|
  {
    if |s| == 0 then ""
    else (if isSep(s[0]) then [s[0]] else "") + Separators(s[1..], isSep)
  }

  /** The pieces put back together, with the next separator character between neighbours. */
  function Interleave(pieces: seq<string>, seps: string): string
    requires |pieces| == |seps| + 1
    decreases |seps|
  {
    if |seps| == 0 then pieces[0] else pieces[0] + [seps[0]] + Interleave(pieces[1..], seps[1..])
  }

  /**
   * The pieces of a split are the runs of `s` between its separator
   * characters: one more piece than separators, and putting the separators
   * back between them gives `s` again.
   */
  lemma {:induction false} SplitWhereRoundTrip(s: string, isSep: char -> bool)
    ensures |SplitWhere(s, isSep)| == |Separators(s, isSep)| + 1
    ensures Interleave(SplitWhere(s, isSep), Separators(s, isSep)) == s
    decreases |s|
  {
    if |s| > 0 {
      SplitWhereRoundTrip(s[1..], isSep);
      var rest, seps := SplitWhere(s[1..], isSep), Separators(s[1..], isSep);
      assert s == [s[0]] + s[1..];
      if isSep(s[0]) {
        assert SplitWhere(s, isSep) == [""] + rest;
        assert Separators(s, isSep) == [s[0]] + seps;
        assert ([""] + rest)[1..] == rest;
        assert ([s[0]] + seps)[1..] == seps;
      } else {
        var pieces := SplitWhere(s, isSep);
        assert pieces == [[s[0]] + rest[0]] + rest[1..];
        assert Separators(s, isSep) == seps;
        if |seps| > 0 {
          assert pieces[1..] == rest[1..];
          assert Interleave(rest, seps) == rest[0] + [seps[0]] + Interleave(rest[1..], seps[1..]);
        }
      }
    }
  }

  /** `s.split(c)` for a single character `c`. */
  function Split(s: string, c: char): seq<string> {
    SplitWhere(s, x => x == c)
  }

  /** `parts.join(sep)`. */
  function Join(parts: seq<string>, sep: string): string
    decreases |parts|
  {
    if |parts| == 0 then ""
    else if |parts| == 1 then parts[0]
    else parts[0] + sep + Join(parts[1..], sep)
  }

  /** Three pieces joined: each separated from the next by `sep`. */
  lemma Join3(a: string, b: string, c: string, sep: string)
    ensures Join([a, b, c], sep) == a + sep + b + sep + c
  {
    assert [a, b, c][1..] == [b, c];
    assert [b, c][1..] == [c];
    assert Join([b, c], sep) == b + sep + c;
  }

  /** Splitting on a character and joining back with it gives the original string. */
  lemma {:induction false} SplitJoin(s: string, c: char)
    ensures Join(Split(s, c), [c]) == s
    decreases |s|
  {
    if |s| > 0 {
      var rest := Split(s[1..], c);
      SplitJoin(s[1..], c);
      if s[0] == c {
        assert Split(s, c) == [""] + rest;
        assert ([""] + rest)[1..] == rest;
        assert s == [c] + s[1..];
      } else {
        assert Split(s, c) == [[s[0]] + rest[0]] + rest[1..];
        if |rest| == 1 {
          assert s == [s[0]] + s[1..];
        } else {
          assert ([[s[0]] + rest[0]] + rest[1..])[1..] == rest[1..];
          assert Join(rest, [c]) == rest[0] + [c] + Join(rest[1..], [c]);
          assert s == [s[0]] + s[1..];
        }
      }
    }
  }

  /** The first piece before a separator does not contain it, and a string without the separator is one piece. */
  lemma SplitNoSeparator(s: string, c: char)
    requires c !in s
    ensures Split(s, c) == [s]
    decreases |s|
  {
    if |s| > 0 {
      SplitNoSeparator(s[1..], c);
      assert [s[0]] + s[1..] == s;
    }
  }

  /** Splitting `a + [c] + b` at `c`, when `a` has no `c`, gives `a` and then the pieces of `b`. */
  lemma {:induction false} SplitAfterPiece(a: string, c: char, b: string)
    requires c !in a
    ensures Split(a + [c] + b, c) == [a] + Split(b, c)
    decreases |a|
  {
    var s := a + [c] + b;
    if |a| == 0 {
      assert s == [c] + b;
      assert s[1..] == b;
    } else {
      SplitAfterPiece(a[1..], c, b);
      assert s[1..] == a[1..] + [c] + b;
      assert s[0] == a[0];
      assert [a[0]] + a[1..] == a;
    }
  }

  /** Joining pieces free of `c` with `c` and splitting at `c` gives the pieces back. */
  lemma {:induction false} SplitOfJoin(parts: seq<string>, c: char)
    requires |parts| >= 1
    requires forall k :: 0 <= k < |parts| ==> c !in parts[k]
    ensures Split(Join(parts, [c]), c) == parts
    decreases |parts|
  {
    if |parts| == 1 {
      SplitNoSeparator(parts[0], c);
    } else {
      SplitOfJoin(parts[1..], c);
      SplitAfterPiece(parts[0], c, Join(parts[1..], [c]));
      assert parts == [parts[0]] + parts[1..];
    }
  }

  /** The joined text starts with the first piece and ends with the last one. */
  lemma {:induction false} JoinEnds(parts: seq<string>, sep: string)
    requires |parts| >= 1
    ensures StartsWith(Join(parts, sep), parts[0])
    ensures EndsWith(Join(parts, sep), parts[|parts| - 1])
    decreases |parts|
  {
    if |parts| > 1 {
      JoinEnds(parts[1..], sep);
      var j := Join(parts[1..], sep);
      assert Join(parts, sep) == parts[0] + sep + j;
      assert (parts[0] + sep + j)[..|parts[0]|] == parts[0];
      var last := parts[|parts| - 1];
      assert parts[1..][|parts[1..]| - 1] == last;
      assert (parts[0] + sep + j)[|parts[0] + sep + j| - |last|..] == j[|j| - |last|..];
    }
  }

  // ---------------------------------------------------------------------------
  // The first non-blank line
  // ---------------------------------------------------------------------------

  /** Line `i` is the first that is not blank. */
  predicate IsFirstNonBlank(lines: seq<string>, i: int) {
    0 <= i < |lines| && Trim(lines[i]) != "" && forall j :: 0 <= j < i ==> Trim(lines[j]) == ""
  }

  /** `r` is the trimmed first non-blank line. */
  predicate FirstNonBlankAt(lines: seq<string>, r: string) {
    exists i :: 0 <= i < |lines| && IsFirstNonBlank(lines, i) && Trim(lines[i]) == r
  }

  /** The position of the first line that is not blank, or `|lines|` when every line is. */
  function FirstNonBlank(lines: seq<string>): (i: nat)
    ensures i <= |lines|
    ensures i < |lines| ==> Trim(lines[i]) != ""
    ensures forall j :: 0 <= j < i ==> Trim(lines[j]) == ""
    decreases |lines|
  {
    if |lines| == 0 || Trim(lines[0]) != "" then 0
    else
      var i := FirstNonBlank(lines[1..]);
      assert forall k :: 1 <= k < |lines| ==> lines[k] == lines[1..][k - 1];
      1 + i
  }

  /** `pickFirstNonEmpty`: the first line that is not blank, trimmed; `""` when all are blank. */
  function PickFirstNonEmpty(lines: seq<string>): (r: string)
    ensures r == "" <==> forall k :: 0 <= k < |lines| ==> Trim(lines[k]) == ""
    ensures r != "" ==> FirstNonBlankAt(lines, r)
  {
    var i := FirstNonBlank(lines);
    assert i < |lines| ==> IsFirstNonBlank(lines, i);
    if i < |lines| then Trim(lines[i]) else ""
  }

  /** A text's lines are all blank exactly when the text is. */
  lemma BlankContent(s: string)
    ensures (forall k :: 0 <= k < |Split(s, '\n')| ==> Trim(Split(s, '\n')[k]) == "") <==> AllSpace(s)
  {
    var parts := Split(s, '\n');
    SplitJoin(s, '\n');
    BlankJoin(parts);
  }

  /** Joining pieces with newlines gives an all-blank text exactly when every piece is blank. */
  lemma {:induction false} BlankJoin(parts: seq<string>)
    ensures (forall k :: 0 <= k < |parts| ==> Trim(parts[k]) == "") <==> AllSpace(Join(parts, "\n"))
    decreases |parts|
  {
    if |parts| == 1 {
      assert Join(parts, "\n") == parts[0];
    } else if |parts| > 1 {
      BlankJoin(parts[1..]);
      var rest := Join(parts[1..], "\n");
      assert Join(parts, "\n") == parts[0] + "\n" + rest;
      assert IsSpace('\n');
      forall k | 1 <= k < |parts|
        ensures parts[k] == parts[1..][k - 1]
      {
      }
      if AllSpace(parts[0]) && AllSpace(rest) {
        AllSpaceConcat(parts[0], "\n");
        AllSpaceConcat(parts[0] + "\n", rest);
      }
      var whole := parts[0] + "\n" + rest;
      if AllSpace(whole) {
        assert forall i :: 0 <= i < |parts[0]| ==> whole[i] == parts[0][i];
        assert forall i :: 0 <= i < |rest| ==> whole[|parts[0]| + 1 + i] == rest[i];
      }
    }
  }

  // ---------------------------------------------------------------------------
  // Decimal numbers
  // ---------------------------------------------------------------------------

  predicate IsDigit(c: char) {
    '0' <= c <= '9'
  }

  function DigitChar(d: nat): (c: char)
    requires d < 10
    ensures IsDigit(c)
  {
    ('0' as int + d) as char
  }

  function DigitValue(c: char): (d: nat)
    requires IsDigit(c)
    ensures d < 10
  {
    c as int - '0' as int
  }

  /** `String(n)` for a non-negative integer: its decimal digits, no leading zero. */
  function NatToString(n: nat): (r: string)
    ensures |r| >= 1
    ensures forall i :: 0 <= i < |r| ==> IsDigit(r[i])
    ensures |r| > 1 ==> r[0] != '0'
  {
    if n < 10 then [DigitChar(n)] else NatToString(n / 10) + [DigitChar(n % 10)]
  }

  /** The value of a string of decimal digits. */
  function ParseDigits(s: string): nat
    requires forall i :: 0 <= i < |s| ==> IsDigit(s[i])
  {
    if |s| == 0 then 0 else 10 * ParseDigits(s[..|s| - 1]) + DigitValue(s[|s| - 1])
  }

  lemma {:induction false} ParseNatToString(n: nat)
    ensures ParseDigits(NatToString(n)) == n
  {
    if n >= 10 {
      var s := NatToString(n);
      assert s[..|s| - 1] == NatToString(n / 10);
      ParseNatToString(n / 10);
    }
  }

  lemma NatToStringInjective(a: nat, b: nat)
    requires NatToString(a) == NatToString(b)
    ensures a == b
  {
    ParseNatToString(a);
    ParseNatToString(b);
  }

  /** `String(i)` (or a template `${i}`) for an integer. */
  function IntToString(i: int): (r: string)
    ensures |r| >= 1
  {
    if i < 0 then "-" + NatToString(-i) else NatToString(i)
  }

  lemma IntToStringInjective(a: int, b: int)
    requires IntToString(a) == IntToString(b)
    ensures a == b
  {
    if a < 0 && b < 0 {
      assert NatToString(-a) == IntToString(a)[1..];
      NatToStringInjective(-a, -b);
    } else if a >= 0 && b >= 0 {
      NatToStringInjective(a, b);
    }
  }

  /** `s.padStart(2, "0")`. */
  function PadStart2(s: string): (r: string)
    ensures |r| == if |s| < 2 then 2 else |s|
    ensures EndsWith(r, s)
  {
    if |s| == 0 then "00" else if |s| == 1 then "0" + s else s
  }

  /** Two-digit zero-padded decimal of a number below 100. */
  lemma TwoDigits(n: nat)
    requires n < 100
    ensures |PadStart2(NatToString(n))| == 2
    ensures PadStart2(NatToString(n)) == [DigitChar(n / 10), DigitChar(n % 10)]
  {
    if n >= 10 {
      assert NatToString(n / 10) == [DigitChar(n / 10)];
    }
  }

  /**
   * `String(Number(s))` on the two kinds of text the date helpers hand it: a
   * string of decimal digits, which reads as its value and prints without
   * leading zeros (`""` reads as 0), and `"NaN"`, which stays `"NaN"`. Every
   * other string also reads as `NaN` here; signs, surrounding spaces,
   * fractions, exponents and hexadecimal are not recognised.
   */
  function NumberText(s: string): (r: string)
    ensures (forall i :: 0 <= i < |s| ==> IsDigit(s[i])) ==>
      && |r| >= 1
      && (forall i :: 0 <= i < |r| ==> IsDigit(r[i]))
      && ParseDigits(r) == ParseDigits(s)
      && (|r| > 1 ==> r[0] != '0')
    ensures s == "NaN" ==> r == "NaN"
  {
    if forall i :: 0 <= i < |s| ==> IsDigit(s[i]) then
      ParseNatToString(ParseDigits(s));
      NatToString(ParseDigits(s))
    else "NaN"
  }

  /** Reading back a zero-padded two-digit number gives the number's own decimal form. */
  lemma ReadPadded(n: nat)
    requires n < 100
    ensures NumberText(PadStart2(NatToString(n))) == NatToString(n)
    ensures ParseDigits(PadStart2(NatToString(n))) == n
  {
    TwoDigits(n);
    ParsePadded(n);
  }

  /** The value of a zero-padded two-digit number. */
  lemma ParsePadded(n: nat)
    requires n < 100
    ensures ParseDigits(PadStart2(NatToString(n))) == n
  {
    TwoDigits(n);
    var p := PadStart2(NatToString(n));
    assert p[..1] == [DigitChar(n / 10)];
    assert p[..1][..0] == [];
    assert ParseDigits(p[..1]) == n / 10;
    assert DigitValue(p[1]) == n % 10;
    assert ParseDigits(p) == 10 * (n / 10) + n % 10;
  }

  /** `String(n).padStart(2, "0")` for a number below 100: two digits that read back as `n`. */
  function Padded2(n: nat): (r: string)
    requires n < 100
    ensures |r| == 2 && IsDigit(r[0]) && IsDigit(r[1])
    ensures ParseDigits(r) == n
    ensures NumberText(r) == NatToString(n)
  {
    TwoDigits(n);
    ReadPadded(n);
    PadStart2(NatToString(n))
  }

  // ---------------------------------------------------------------------------
  // The `<` order on strings
  // ---------------------------------------------------------------------------

  /** Lexicographic order by character, a proper prefix first: JavaScript's `a < b` on strings. */
  predicate Less(a: string, b: string)
    decreases |a|
  {
    if |a| == 0 then |b| > 0
    else if |b| == 0 then false
    else if a[0] != b[0] then a[0] < b[0]
    else Less(a[1..], b[1..])
  }

  lemma {:induction false} LessIrreflexive(a: string)
    ensures !Less(a, a)
    decreases |a|
  {
    if |a| > 0 {
      LessIrreflexive(a[1..]);
    }
  }

  lemma {:induction false} LessTransitive(a: string, b: string, c: string)
    requires Less(a, b) && Less(b, c)
    ensures Less(a, c)
    decreases |a|
  {
    if |a| > 0 && a[0] == b[0] && b[0] == c[0] {
      LessTransitive(a[1..], b[1..], c[1..]);
    }
  }

  lemma {:induction false} LessTotal(a: string, b: string)
    ensures a == b || Less(a, b) || Less(b, a)
    decreases |a|
  {
    if |a| > 0 && |b| > 0 && a[0] == b[0] {
      LessTotal(a[1..], b[1..]);
      if a[1..] == b[1..] {
        assert a == [a[0]] + a[1..] && b == [b[0]] + b[1..];
      }
    }
  }

  lemma {:induction false} LessAsymmetric(a: string, b: string)
    requires Less(a, b)
    ensures !Less(b, a)
    decreases |a|
  {
    if |a| > 0 && a[0] == b[0] {
      LessAsymmetric(a[1..], b[1..]);
    }
  }

  /** "Not less" is transitive, so a descending order by `Less` chains. */
  lemma NotLessTransitive(a: string, b: string, c: string)
    requires !Less(a, b) && !Less(b, c)
    ensures !Less(a, c)
  {
    if Less(a, c) {
      LessTotal(b, c);
      if b == c {
      } else {
        LessTransitive(c, b, a);
        LessAsymmetric(a, c);
        LessTotal(a, b);
        if a == b {
        } else {
          LessTransitive(a, c, b);
        }
      }
    }
  }

  // ---------------------------------------------------------------------------
  // UTF-16
  // ---------------------------------------------------------------------------

  /** The UTF-16 code units of a string: what `charCodeAt` reads, one by one. */
  function CodeUnits(s: string): (r: seq<int>)
    ensures |r| >= |s|
    ensures forall k :: 0 <= k < |r| ==> 0 <= r[k] < 0x1_0000
    ensures (forall k :: 0 <= k < |s| ==> s[k] as int < 0x1_0000) ==>
              |r| == |s| && forall k :: 0 <= k < |s| ==> r[k] == s[k] as int
  {
    if |s| == 0 then []
    else
      var c := s[0] as int;
      var head := if c < 0x1_0000 then [c]
                  else [0xD800 + (c - 0x1_0000) / 0x400, 0xDC00 + (c - 0x1_0000) % 0x400];
      head + CodeUnits(s[1..])
  }
}
