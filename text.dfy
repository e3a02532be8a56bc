/** Python string operations over ASCII: `str.strip`, `str.split` with a
    one-character separator, `str.join`, `str.rfind`, the substring test `in`,
    `str.lower`, `str.isdigit`/`str.isalnum`, and `str()` of an integer. */
module Text {

  /** `str.isspace` restricted to ASCII: space, \t \n \v \f \r and the
      separators \x1c to \x1f. */
  predicate IsSpace(c: char) {
    var n := c as int; n == 32 || 9 <= n <= 13 || 28 <= n <= 31
  }

  predicate IsDigit(c: char) { '0' <= c <= '9' }

  predicate IsAlpha(c: char) { 'a' <= c <= 'z' || 'A' <= c <= 'Z' }

  predicate IsAlnum(c: char) { IsDigit(c) || IsAlpha(c) }

  /** `any(c.isalnum() for c in s)` */
  predicate HasAlnum(s: string) {
    exists i :: 0 <= i < |s| && IsAlnum(s[i])
  }

  function LowerChar(c: char): char {
    if 'A' <= c <= 'Z' then (c as int + 32) as char else c
  }

  /** `str.lower` on ASCII letters. */
  function Lower(s: string): (r: string)
    ensures |r| == |s|
    ensures forall i :: 0 <= i < |s| ==> r[i] == LowerChar(s[i])
  {
    if s == [] then [] else [LowerChar(s[0])] + Lower(s[1..])
  }

  /** Lower-casing twice lower-cases no more than once. */
  lemma LowerIdempotent(s: string)
    ensures Lower(Lower(s)) == Lower(s)
  {
  }

  function UpperChar(c: char): char {
    if 'a' <= c <= 'z' then (c as int - 32) as char else c
  }

  /** `str.title` on ASCII text, continuing after a character that was a
      letter (`afterLetter`) or not: a letter that follows a letter is
      lower-cased, any other letter upper-cased. */
  function TitleFrom(s: string, afterLetter: bool): (r: string)
    ensures |r| == |s|
  {
    if s == [] then []
    else
      var c := s[0];
      [if !IsAlpha(c) then c else if afterLetter then LowerChar(c) else UpperChar(c)] + TitleFrom(s[1..], IsAlpha(c))
  }

  /** `str.title` */
  function Title(s: string): string {
    TitleFrom(s, false)
  }

  /** Every word of a title starts with a capital letter and goes on in small
      letters. */
  lemma {:induction false} TitleFromShape(s: string, afterLetter: bool, i: nat)
    requires i < |s| && IsAlpha(s[i])
    ensures var after := if i == 0 then afterLetter else IsAlpha(s[i - 1]);
      TitleFrom(s, afterLetter)[i] == if after then LowerChar(s[i]) else UpperChar(s[i])
  {
    if i > 0 {
      TitleFromShape(s[1..], IsAlpha(s[0]), i - 1);
    }
  }

  /** Title-casing a concatenation title-cases the second part in the
      light of the last character of the first. */
  lemma {:induction false} TitleFromAppend(a: string, b: string, afterLetter: bool)
    ensures TitleFrom(a + b, afterLetter) == TitleFrom(a, afterLetter) + TitleFrom(b, if a == [] then afterLetter else IsAlpha(a[|a| - 1]))
  {
    if a == [] {
      assert a + b == b;
    } else {
      assert (a + b)[0] == a[0];
      assert (a + b)[1..] == a[1..] + b;
      TitleFromAppend(a[1..], b, IsAlpha(a[0]));
    }
  }

  /** A word in small letters keeps them after a letter, and gets a capital
      first letter otherwise. */
  lemma {:induction false} TitleFromLowerWord(w: string, afterLetter: bool)
    requires w != [] && forall i :: 0 <= i < |w| ==> 'a' <= w[i] <= 'z'
    ensures TitleFrom(w, afterLetter) == [if afterLetter then w[0] else UpperChar(w[0])] + w[1..]
  {
    if |w| > 1 {
      TitleFromLowerWord(w[1..], true);
    } else {
      assert w[1..] == [];
    }
  }

  /** `s.replace(old, new)` for single characters. */
  function ReplaceChar(s: string, from: char, to: char): (r: string)
    ensures |r| == |s|
    ensures forall i :: 0 <= i < |s| ==> r[i] == if s[i] == from then to else s[i]
  {
    seq(|s|, i requires 0 <= i < |s| => if s[i] == from then to else s[i])
  }

  predicate StartsWith(s: string, prefix: string) {
    |prefix| <= |s| && s[..|prefix|] == prefix
  }

  predicate EndsWith(s: string, suffix: string) {
    |suffix| <= |s| && s[|s| - |suffix|..] == suffix
  }

  /** `sub` occurs in `s` starting at index `i`. */
  predicate OccursAt(s: string, sub: string, i: int) {
    0 <= i && i + |sub| <= |s| && forall j :: 0 <= j < |sub| ==> s[i + j] == sub[j]
  }

  /** The substring test `sub in s`. */
  function Contains(s: string, sub: string): (b: bool)
    ensures b <==> exists i :: OccursAt(s, sub, i)
    decreases |s|
  {
    if |s| < |sub| then false
    else if s[..|sub|] == sub then assert OccursAt(s, sub, 0); true
    else
      var b := Contains(s[1..], sub);
      assert !OccursAt(s, sub, 0) by {
        var j :| 0 <= j < |sub| && s[j] != sub[j];
      }
      OccursShift(s, sub);
      b
  }

  lemma OccursShift(s: string, sub: string)
    requires s != [] && !OccursAt(s, sub, 0)
    ensures (exists i :: OccursAt(s, sub, i)) <==> exists i :: OccursAt(s[1..], sub, i)
  {
    if exists i :: OccursAt(s[1..], sub, i) {
      var k :| OccursAt(s[1..], sub, k);
      assert OccursAt(s, sub, k + 1);
    }
    if exists i :: OccursAt(s, sub, i) {
      var k :| OccursAt(s, sub, k);
      assert OccursAt(s[1..], sub, k - 1);
    }
  }

  // ---------------------------------------------------------------
  // strip

  /** The index of the first non-space character of `s` at or after `i`,
      or `|s|`. */
  function SkipSpaces(s: string, i: nat): (j: nat)
    requires i <= |s|
    ensures i <= j <= |s|
    decreases |s| - i
  {
    if i < |s| && IsSpace(s[i]) then SkipSpaces(s, i + 1) else i
  }

  lemma {:induction false} SkipSpacesSpec(s: string, i: nat)
    requires i <= |s|
    ensures var j := SkipSpaces(s, i);
      (j < |s| ==> !IsSpace(s[j])) && forall k :: i <= k < j ==> IsSpace(s[k])
    decreases |s| - i
  {
    if i < |s| && IsSpace(s[i]) {
      SkipSpacesSpec(s, i + 1);
    }
  }

  /** The index just after the last non-space character of `s[lo..j]`, or
      `lo`. */
  function SkipSpacesBack(s: string, lo: nat, j: nat): (k: nat)
    requires lo <= j <= |s|
    ensures lo <= k <= j
    decreases j
  {
    if lo < j && IsSpace(s[j - 1]) then SkipSpacesBack(s, lo, j - 1) else j
  }

  lemma {:induction false} SkipSpacesBackSpec(s: string, lo: nat, j: nat)
    requires lo <= j <= |s|
    ensures var k := SkipSpacesBack(s, lo, j);
      (lo < k ==> !IsSpace(s[k - 1])) && forall m :: k <= m < j ==> IsSpace(s[m])
    decreases j
  {
    if lo < j && IsSpace(s[j - 1]) {
      SkipSpacesBackSpec(s, lo, j - 1);
    }
  }

  /** Number of characters `str.strip()` removes from the front. */
  function StripOffset(s: string): nat
    ensures StripOffset(s) <= |s|
  {
    SkipSpaces(s, 0)
  }

  /** `str.strip()`: `s` without its leading and trailing whitespace. */
  function Strip(s: string): (r: string)
    ensures |r| <= |s|
  {
    s[StripOffset(s)..SkipSpacesBack(s, StripOffset(s), |s|)]
  }

  /** `Strip(s)` is the longest slice of `s` that neither starts nor ends with
      whitespace; everything cut off is whitespace. */
  lemma StripShape(s: string)
    ensures var r, o := Strip(s), StripOffset(s);
      && o + |r| <= |s|
      && r == s[o..o + |r|]
      && (r != [] ==> !IsSpace(r[0]) && !IsSpace(r[|r| - 1]))
      && (forall i :: 0 <= i < o ==> IsSpace(s[i]))
      && (forall i :: o + |r| <= i < |s| ==> IsSpace(s[i]))
  {
    var o := StripOffset(s);
    SkipSpacesSpec(s, 0);
    SkipSpacesBackSpec(s, o, |s|);
  }

  /** A whole string of whitespace strips to the empty string, and only such a string. */
  lemma StripEmpty(s: string)
    ensures Strip(s) == [] <==> forall i :: 0 <= i < |s| ==> IsSpace(s[i])
  {
    StripShape(s);
    if Strip(s) != [] {
      assert !IsSpace(s[StripOffset(s)]);
    }
  }

  /** A string that neither starts nor ends with whitespace is its own strip. */
  lemma StripStripped(s: string)
    requires s != [] ==> !IsSpace(s[0]) && !IsSpace(s[|s| - 1])
    ensures Strip(s) == s
  {
    StripShape(s);
  }

  /** Stripping twice strips no more than stripping once. */
  lemma StripIdempotent(s: string)
    ensures Strip(Strip(s)) == Strip(s)
  {
    StripShape(s);
    StripStripped(Strip(s));
  }

  /** Stripping keeps exactly the non-space characters of `s`, so a character
      that is not whitespace occurs in `Strip(s)` iff it occurs in `s`. */
  lemma StripKeepsNonSpace(s: string, c: char)
    requires !IsSpace(c)
    ensures c in Strip(s) <==> c in s
  {
    StripShape(s);
    var o, r := StripOffset(s), Strip(s);
    if c in s {
      var i :| 0 <= i < |s| && s[i] == c;
      assert r[i - o] == c;
    }
  }

  // ---------------------------------------------------------------
  // find, split and join

  /** Index of the first character satisfying `p`, or -1. */
  function FirstIndex(s: string, p: char -> bool): (r: int)
    ensures -1 <= r < |s|
    ensures r >= 0 ==> p(s[r])
    ensures forall j :: 0 <= j < |s| && (r < 0 || j < r) ==> !p(s[j])
  {
    if s == [] then -1
    else if p(s[0]) then 0
    else
      var k := FirstIndex(s[1..], p);
      if k < 0 then -1 else k + 1
  }

  /** `str.find(c)`: the first index of `c`, or -1. */
  function Find(s: string, c: char): (r: int)
    ensures -1 <= r < |s|
    ensures r >= 0 ==> s[r] == c && c !in s[..r]
    ensures r < 0 <==> c !in s
  {
    FirstIndex(s, x => x == c)
  }

  /** The last index below `j` where `c` occurs in `s`, or -1. */
  function LastIndexBelow(s: string, c: char, j: nat): (r: int)
    requires j <= |s|
    ensures -1 <= r < j
    ensures r >= 0 ==> s[r] == c
    ensures forall k :: r < k < j ==> s[k] != c
  {
    if j == 0 then -1
    else if s[j - 1] == c then j - 1
    else LastIndexBelow(s, c, j - 1)
  }

  /** `str.rfind(c)`: the last index of `c`, or -1. */
  function RFind(s: string, c: char): (r: int)
    ensures -1 <= r < |s|
    ensures r >= 0 ==> s[r] == c
    ensures forall j :: r < j < |s| ==> s[j] != c
  {
    LastIndexBelow(s, c, |s|)
  }

  /** Splits `s` at every character satisfying `isSep`; the pieces contain no
      separator. With `isSep` true only of `c` this is `s.split(c)`. */
  function SplitWhere(s: string, isSep: char -> bool): (parts: seq<string>)
    ensures |parts| >= 1
    ensures forall k, j :: 0 <= k < |parts| && 0 <= j < |parts[k]| ==> !isSep(parts[k][j])
    decreases |s|
  {
    var i := FirstIndex(s, isSep);
    if i < 0 then [s] else [s[..i]] + SplitWhere(s[i + 1..], isSep)
  }

  /** `s.split(c)` */
  function Split(s: string, c: char): (parts: seq<string>)
    ensures |parts| >= 1
    ensures forall k :: 0 <= k < |parts| ==> c !in parts[k]
  {
    SplitWhere(s, x => x == c)
  }

  /** `sep.join(parts)` */
  function Join(sep: string, parts: seq<string>): string
  {
    if |parts| == 0 then ""
    else if |parts| == 1 then parts[0]
    else parts[0] + sep + Join(sep, parts[1..])
  }

  /** Joining the pieces of a split with the separator gives back the string. */
  lemma {:induction false} JoinSplit(s: string, c: char)
    ensures Join([c], Split(s, c)) == s
    decreases |s|
  {
    var p := (x: char) => x == c;
    var i := FirstIndex(s, p);
    if i >= 0 {
      JoinSplit(s[i + 1..], c);
      var rest := SplitWhere(s[i + 1..], p);
      var parts := [s[..i]] + rest;
      assert parts[1..] == rest;
      if |rest| == 1 {
        assert Join([c], parts) == s[..i] + [c] + rest[0];
      }
      assert s == s[..i] + [c] + s[i + 1..];
    }
  }

  /** The first split point of `a + [sep] + t`, when `a` has none, is `sep`. */
  lemma SplitAtFirst(a: string, sep: char, t: string, isSep: char -> bool)
    requires isSep(sep) && forall j :: 0 <= j < |a| ==> !isSep(a[j])
    ensures SplitWhere(a + [sep] + t, isSep) == [a] + SplitWhere(t, isSep)
  {
    var s := a + [sep] + t;
    var n := |a|;
    assert s[n] == sep;
    assert forall j :: 0 <= j < n ==> s[j] == a[j];
    assert FirstIndex(s, isSep) == n;
    assert s[..n] == a;
    assert s[n + 1..] == t;
  }

  /** Splitting a join gives back the parts, when the joining separator is a
      split point and no part contains a split point. */
  lemma {:induction false} SplitJoin(parts: seq<string>, sep: char, isSep: char -> bool)
    requires |parts| >= 1 && isSep(sep)
    requires forall k, j :: 0 <= k < |parts| && 0 <= j < |parts[k]| ==> !isSep(parts[k][j])
    ensures SplitWhere(Join([sep], parts), isSep) == parts
  {
    if |parts| == 1 {
      assert FirstIndex(parts[0], isSep) < 0;
    } else {
      assert Join([sep], parts) == parts[0] + [sep] + Join([sep], parts[1..]);
      SplitAtFirst(parts[0], sep, Join([sep], parts[1..]), isSep);
      SplitJoin(parts[1..], sep, isSep);
      assert parts == [parts[0]] + parts[1..];
    }
  }

  /** A join of non-empty parts starts with its first part. */
  lemma {:induction false} JoinStartsWith(sep: string, parts: seq<string>)
    requires |parts| >= 1
    ensures StartsWith(Join(sep, parts), parts[0])
  {
    if |parts| > 1 {
      assert Join(sep, parts) == parts[0] + (sep + Join(sep, parts[1..]));
    }
  }

  /** A join of a single part is that part; of no part, the empty string. */
  lemma JoinShort(sep: string, parts: seq<string>)
    requires |parts| <= 1
    ensures Join(sep, parts) == if parts == [] then "" else parts[0]
  {
  }

  /** Appending a part to a non-empty join appends the separator and the part. */
  lemma {:induction false} JoinSnoc(sep: string, parts: seq<string>, x: string)
    requires |parts| >= 1
    ensures Join(sep, parts + [x]) == Join(sep, parts) + sep + x
  {
    if |parts| == 1 {
      assert parts + [x] == [parts[0], x];
    } else {
      assert (parts + [x])[1..] == parts[1..] + [x];
      JoinSnoc(sep, parts[1..], x);
    }
  }

  /** `"".join(parts)`, built up part by part. */
  function Concat(parts: seq<string>): string {
    if parts == [] then "" else Concat(parts[..|parts| - 1]) + parts[|parts| - 1]
  }

  /** Adding a part at the end appends it. */
  lemma ConcatSnoc(parts: seq<string>, i: nat)
    requires i < |parts|
    ensures Concat(parts[..i + 1]) == Concat(parts[..i]) + parts[i]
  {
    assert parts[..i + 1][..i] == parts[..i];
  }

  /** Concatenation over a join of two blocks of parts. */
  lemma {:induction false} ConcatAppend(a: seq<string>, b: seq<string>)
    ensures Concat(a + b) == Concat(a) + Concat(b)
    decreases |b|
  {
    if b == [] {
      assert a + b == a;
    } else {
      var b' := b[..|b| - 1];
      assert (a + b)[..|a + b| - 1] == a + b';
      ConcatAppend(a, b');
    }
  }

  // ---------------------------------------------------------------
  // integers as decimal text

  function DigitChar(d: nat): char
    requires d < 10
  {
    ('0' as int + d) as char
  }

  /** The number a string of decimal digits denotes. */
  function DigitsValue(s: string): nat
    requires forall i :: 0 <= i < |s| ==> IsDigit(s[i])
  {
    if s == [] then 0
    else
      assert IsDigit(s[|s| - 1]);
      DigitsValue(s[..|s| - 1]) * 10 + (s[|s| - 1] as int - '0' as int)
  }

  /** `str(n)` for a natural number: a non-empty string of decimal digits
      without a leading zero that denotes `n`. */
  function NatToString(n: nat): (r: string)
    ensures |r| >= 1 && forall i :: 0 <= i < |r| ==> IsDigit(r[i])
    ensures DigitsValue(r) == n
    ensures r[0] == '0' ==> r == "0"
    decreases n
  {
    if n < 10 then [DigitChar(n)]
    else
      var r := NatToString(n / 10) + [DigitChar(n % 10)];
      assert r[..|r| - 1] == NatToString(n / 10);
      r
  }

  /** `str(i)` for an integer. */
  function IntToString(i: int): (r: string)
    ensures |r| >= 1
    ensures i < 0 <==> r[0] == '-'
  {
    if i < 0 then "-" + NatToString(-i) else NatToString(i)
  }
}
