/**
  The handful of Python `str` operations the backend relies on, stated over
  `seq<char>`: `strip()`, `lower()` (ASCII letters), `in` (substring test),
  `split(sep)`, `split()`, `sep.join(...)`, `int(...)` on decimal text and
  `str(n)` for natural numbers.
*/
module Text {
  import opened Wrappers

  /** Python's `str.isspace()`: the characters `strip()` and `split()` treat as whitespace. */
  predicate IsSpace(c: char) {
    var n := c as int;
    (9 <= n <= 13) || (28 <= n <= 32) || n == 0x85 || n == 0xA0 || n == 0x1680
    || (0x2000 <= n <= 0x200A) || n == 0x2028 || n == 0x2029 || n == 0x202F
    || n == 0x205F || n == 0x3000
  }

  predicate NoSpace(s: string) {
    forall k :: 0 <= k < |s| ==> !IsSpace(s[k])
  }

  function LowerChar(c: char): char {
    if 'A' <= c <= 'Z' then (c as int + 32) as char else c
  }

  /** `s.lower()` restricted to ASCII letters. */
  function Lower(s: string): (r: string)
    ensures |r| == |s|
    ensures forall k :: 0 <= k < |s| ==> r[k] == LowerChar(s[k])
  {
    seq(|s|, k requires 0 <= k < |s| => LowerChar(s[k]))
  }

  /** Lower-casing twice changes nothing more. */
  lemma LowerIdempotent(s: string)
    ensures Lower(Lower(s)) == Lower(s)
  {
    assert forall k :: 0 <= k < |s| ==> Lower(Lower(s))[k] == Lower(s)[k];
  }

  /** `s.strip()`: drop leading and trailing whitespace. */
  function Strip(s: string): (r: string)
    ensures |r| <= |s|
    ensures r == [] || (!IsSpace(r[0]) && !IsSpace(r[|r| - 1]))
    decreases |s|
  {
    if s == [] then []
    else if IsSpace(s[0]) then Strip(s[1..])
    else if IsSpace(s[|s| - 1]) then Strip(s[..|s| - 1])
    else s
  }

  /** `strip()` empties exactly the strings made only of whitespace. */
  lemma {:induction false} StripAllSpace(s: string)
    ensures Strip(s) == [] <==> (forall k :: 0 <= k < |s| ==> IsSpace(s[k]))
    decreases |s|
  {
    if s == [] {
    } else if IsSpace(s[0]) {
      StripAllSpace(s[1..]);
      assert forall k :: 1 <= k < |s| ==> s[k] == s[1..][k - 1];
    } else if IsSpace(s[|s| - 1]) {
      var t := s[..|s| - 1];
      StripAllSpace(t);
      assert t[0] == s[0];
      assert forall k :: 0 <= k < |t| ==> t[k] == s[k];
    }
  }

  /** `p` occurs in `s` starting at index `i`. */
  predicate OccursAt(s: string, p: string, i: int) {
    0 <= i && i + |p| <= |s| && s[i..i + |p|] == p
  }

  /** Python's `p in s` for two strings. */
  predicate Contains(s: string, p: string) {
    exists i | 0 <= i <= |s| - |p| :: OccursAt(s, p, i)
  }

  /** A word whose first and last characters are not whitespace survives `strip()`. */
  lemma {:induction false} StripKeepsOccurrence(s: string, p: string, i: int)
    requires OccursAt(s, p, i)
    requires |p| > 0 && !IsSpace(p[0]) && !IsSpace(p[|p| - 1])
    ensures Contains(Strip(s), p)
    decreases |s|
  {
    if IsSpace(s[0]) {
      assert s[i] == p[0];
      assert i >= 1;
      assert s[1..][i - 1..i - 1 + |p|] == s[i..i + |p|];
      StripKeepsOccurrence(s[1..], p, i - 1);
    } else if IsSpace(s[|s| - 1]) {
      assert s[i + |p| - 1] == p[|p| - 1];
      assert i + |p| <= |s| - 1;
      assert s[..|s| - 1][i..i + |p|] == s[i..i + |p|];
      StripKeepsOccurrence(s[..|s| - 1], p, i);
    } else {
      assert Strip(s) == s;
    }
  }

  lemma LowerKeepsSpace(c: char)
    ensures IsSpace(LowerChar(c)) == IsSpace(c)
  {
  }

  /** Lower-casing and stripping commute, because lower-casing never changes whether a
      character is whitespace. */
  lemma {:induction false} LowerStripCommute(s: string)
    ensures Lower(Strip(s)) == Strip(Lower(s))
    decreases |s|
  {
    if s == [] {
    } else {
      var l := Lower(s);
      LowerKeepsSpace(s[0]);
      LowerKeepsSpace(s[|s| - 1]);
      if IsSpace(s[0]) {
        assert Lower(s[1..]) == l[1..];
        LowerStripCommute(s[1..]);
      } else if IsSpace(s[|s| - 1]) {
        assert Lower(s[..|s| - 1]) == l[..|l| - 1];
        LowerStripCommute(s[..|s| - 1]);
      }
    }
  }

  lemma LowerKeepsOccurrence(s: string, p: string, i: int)
    requires OccursAt(s, p, i)
    ensures OccursAt(Lower(s), Lower(p), i)
  {
    assert Lower(s)[i..i + |p|] == Lower(s[i..i + |p|]);
  }

  /** `s.split(c)` for a one-character separator: never empty, keeps empty pieces. */
  function SplitOn(s: string, c: char): (r: seq<string>)
    ensures |r| >= 1
    ensures forall k :: 0 <= k < |r| ==> c !in r[k]
  {
    if s == [] then [[]]
    else
      var rest := SplitOn(s[1..], c);
      if s[0] == c then [[]] + rest
      else [[s[0]] + rest[0]] + rest[1..]
  }

  /** `sep.join(parts)`. */
  function Join(parts: seq<string>, sep: string): string {
    if |parts| == 0 then []
    else if |parts| == 1 then parts[0]
    else parts[0] + sep + Join(parts[1..], sep)
  }

  /** Splitting at `c` and joining again with `c` gives back the original string. */
  lemma {:induction false} JoinSplit(s: string, c: char)
    ensures Join(SplitOn(s, c), [c]) == s
  {
    if s != [] {
      var rest := SplitOn(s[1..], c);
      JoinSplit(s[1..], c);
      if s[0] == c {
        assert SplitOn(s, c) == [[]] + rest;
        assert ([[]] + rest)[1..] == rest;
      } else {
        var parts := [[s[0]] + rest[0]] + rest[1..];
        assert SplitOn(s, c) == parts;
        if |rest| == 1 {
          assert Join(parts, [c]) == [s[0]] + rest[0];
        } else {
          assert parts[1..] == rest[1..];
          assert Join(parts, [c]) == ([s[0]] + rest[0]) + [c] + Join(rest[1..], [c]);
          assert Join(rest, [c]) == rest[0] + [c] + Join(rest[1..], [c]);
        }
      }
    }
  }

  /** A string without the separator splits into itself alone. */
  lemma {:induction false} SplitOnAbsent(s: string, c: char)
    requires c !in s
    ensures SplitOn(s, c) == [s]
  {
    if s != [] {
      SplitOnAbsent(s[1..], c);
      assert [s[0]] + s[1..] == s;
    }
  }

  /** Splitting `a + [c] + b`, with `c` absent from `a`, gives `a` and then the pieces of `b`. */
  lemma {:induction false} SplitOnSeparated(a: string, b: string, c: char)
    requires c !in a
    ensures SplitOn(a + [c] + b, c) == [a] + SplitOn(b, c)
  {
    var s := a + [c] + b;
    if a == [] {
      assert s[0] == c && s[1..] == b;
    } else {
      assert s[0] == a[0] && s[1..] == a[1..] + [c] + b;
      SplitOnSeparated(a[1..], b, c);
      assert [a[0]] + a[1..] == a;
    }
  }

  /** Joining pieces free of the separator and splitting again gives back the pieces. */
  lemma {:induction false} SplitJoin(parts: seq<string>, c: char)
    requires |parts| >= 1
    requires forall k :: 0 <= k < |parts| ==> c !in parts[k]
    ensures SplitOn(Join(parts, [c]), c) == parts
  {
    if |parts| == 1 {
      SplitOnAbsent(parts[0], c);
    } else {
      SplitJoin(parts[1..], c);
      SplitOnSeparated(parts[0], Join(parts[1..], [c]), c);
      assert [parts[0]] + parts[1..] == parts;
    }
  }

  /** `Join` of several parts starts with the first part. */
  lemma JoinStartsWithFirst(parts: seq<string>, sep: string)
    requires |parts| >= 1
    ensures |parts[0]| <= |Join(parts, sep)| && Join(parts, sep)[..|parts[0]|] == parts[0]
  {
  }

  /** Length of the run of non-whitespace characters at the front of `s`. */
  function WordLen(s: string): (n: nat)
    requires s != [] && !IsSpace(s[0])
    ensures 1 <= n <= |s|
    ensures NoSpace(s[..n])
    ensures n < |s| ==> IsSpace(s[n])
  {
    if |s| == 1 || IsSpace(s[1]) then 1
    else
      var m := WordLen(s[1..]);
      assert s[..m + 1] == [s[0]] + s[1..][..m];
      m + 1
  }

  /** The characters of `s` that are not whitespace, in order. */
  function NonSpace(s: string): string {
    if s == [] then []
    else if IsSpace(s[0]) then NonSpace(s[1..])
    else [s[0]] + NonSpace(s[1..])
  }

  lemma {:induction false} NonSpaceAppend(a: string, b: string)
    ensures NonSpace(a + b) == NonSpace(a) + NonSpace(b)
  {
    if a != [] {
      assert (a + b)[1..] == a[1..] + b;
      NonSpaceAppend(a[1..], b);
    } else {
      assert a + b == b;
    }
  }

  lemma {:induction false} NonSpaceOfWord(a: string)
    requires NoSpace(a)
    ensures NonSpace(a) == a
  {
    if a != [] {
      NonSpaceOfWord(a[1..]);
    }
  }

  function Concat(parts: seq<string>): string {
    if parts == [] then [] else parts[0] + Concat(parts[1..])
  }

  /** `s.split()`: the maximal runs of non-whitespace characters. Each word is non-empty and
      free of whitespace, and together the words hold exactly the non-whitespace characters. */
  function Words(s: string): (r: seq<string>)
    ensures forall k :: 0 <= k < |r| ==> r[k] != [] && NoSpace(r[k])
    ensures Concat(r) == NonSpace(s)
    decreases |s|
  {
    if s == [] then []
    else if IsSpace(s[0]) then Words(s[1..])
    else
      var n := WordLen(s);
      var rest := Words(s[n..]);
      assert s == s[..n] + s[n..];
      NonSpaceAppend(s[..n], s[n..]);
      NonSpaceOfWord(s[..n]);
      assert ([s[..n]] + rest)[1..] == rest;
      [s[..n]] + rest
  }

  function DigitChar(d: nat): char
    requires d < 10
  {
    ['0', '1', '2', '3', '4', '5', '6', '7', '8', '9'][d]
  }

  predicate IsDigit(c: char) {
    '0' <= c <= '9'
  }

  function DigitValue(c: char): nat
    requires IsDigit(c)
  {
    c as int - '0' as int
  }

  /** `str(n)` for a natural number. */
  function NatToString(n: nat): (r: string)
    ensures |r| >= 1
    ensures forall k :: 0 <= k < |r| ==> IsDigit(r[k])
  {
    if n < 10 then [DigitChar(n)] else NatToString(n / 10) + [DigitChar(n % 10)]
  }

  /** The value of a non-empty string of decimal digits. */
  function DigitsValue(s: string): nat
    requires forall k :: 0 <= k < |s| ==> IsDigit(s[k])
  {
    if s == [] then 0 else DigitsValue(s[..|s| - 1]) * 10 + DigitValue(s[|s| - 1])
  }

  lemma {:induction false} DigitsOfNatToString(n: nat)
    ensures DigitsValue(NatToString(n)) == n
  {
    var r := NatToString(n);
    if n >= 10 {
      DigitsOfNatToString(n / 10);
      assert r[..|r| - 1] == NatToString(n / 10);
    }
  }

  /** A number prints with at most one digit more than its own value. */
  lemma {:induction false} NatToStringLength(n: nat)
    ensures |NatToString(n)| <= n + 1
  {
    if n >= 10 {
      NatToStringLength(n / 10);
    }
  }

  /** Different numbers print differently: `str` is injective on naturals. */
  lemma NatToStringInjective(a: nat, b: nat)
    requires NatToString(a) == NatToString(b)
    ensures a == b
  {
    DigitsOfNatToString(a);
    DigitsOfNatToString(b);
  }

  /** The digit part of a decimal literal as `int` reads it: ASCII digits, where a single
      underscore may stand between two digits. */
  predicate DecimalDigits(d: string) {
    d != [] && IsDigit(d[0]) && IsDigit(d[|d| - 1])
    && (forall k :: 0 <= k < |d| ==> IsDigit(d[k]) || d[k] == '_')
    && (forall k :: 0 <= k < |d| - 1 ==> d[k] == '_' ==> d[k + 1] != '_')
  }

  /** The digits without their underscores. */
  function DropUnderscores(d: string): (r: string)
    ensures (forall k :: 0 <= k < |d| ==> IsDigit(d[k]) || d[k] == '_') ==> forall k :: 0 <= k < |r| ==> IsDigit(r[k])
    ensures (forall k :: 0 <= k < |d| ==> d[k] != '_') ==> r == d
  {
    if d == [] then []
    else DropUnderscores(d[..|d| - 1]) + (if d[|d| - 1] == '_' then [] else [d[|d| - 1]])
  }

  lemma {:induction false} DropUnderscoresAppend(a: string, b: string)
    ensures DropUnderscores(a + b) == DropUnderscores(a) + DropUnderscores(b)
  {
    if b != [] {
      var init, last := b[..|b| - 1], b[|b| - 1];
      var tail := if last == '_' then [] else [last];
      assert (a + b)[..|a + b| - 1] == a + init && (a + b)[|a + b| - 1] == last;
      assert DropUnderscores(a + b) == DropUnderscores(a + init) + tail;
      DropUnderscoresAppend(a, init);
      assert DropUnderscores(b) == DropUnderscores(init) + tail;
    } else {
      assert a + b == a;
    }
  }

  /** The most digits `int` converts from a decimal string: CPython's default limit on
      integer string conversion (`sys.get_int_max_str_digits()`). Underscores do not count. */
  const MaxStrDigits := 4300

  /** `int(s)` for text: surrounding whitespace is ignored, then one optional sign and a
      decimal literal of ASCII digits with single underscores between digits, holding at most
      `MaxStrDigits` digits. `None` is the `ValueError`. */
  function ParseInt(s: string): (r: Option<int>)
    ensures r.Some? ==> Strip(s) != []
  {
    var t := Strip(s);
    if t == [] then None
    else
      var sign := if t[0] == '-' then -1 else 1;
      var digits := if t[0] == '-' || t[0] == '+' then t[1..] else t;
      if DecimalDigits(digits) && |DropUnderscores(digits)| <= MaxStrDigits
      then Some(sign * DigitsValue(DropUnderscores(digits)))
      else None
  }

  /** Reading back what `str(n)` printed gives `n`, unless it has more digits than `int`
      converts. */
  lemma ParseIntOfNatToString(n: nat)
    ensures ParseInt(NatToString(n)) == if |NatToString(n)| <= MaxStrDigits then Some(n) else None
  {
    var s := NatToString(n);
    assert DecimalDigits(s);
    ParseIntOfDigits(s);
    DigitsOfNatToString(n);
  }
  /** An underscore between two digits of a printed number does not change what `int` reads,
      and does not count towards the digit limit. */
  lemma ParseIntSkipsUnderscore(n: nat, i: nat)
    requires 0 < i < |NatToString(n)|
    ensures var s := NatToString(n);
            ParseInt(s[..i] + "_" + s[i..]) == if |s| <= MaxStrDigits then Some(n) else None
  {
    var s := NatToString(n);
    var t := s[..i] + "_" + s[i..];
    UnderscoredDigits(s, i);
    ParseIntOfDigits(t);
    DigitsOfNatToString(n);
  }

  /** An unsigned decimal literal with nothing around it reads as its digits' value when it
      has at most `MaxStrDigits` digits, and is refused otherwise. */
  lemma ParseIntOfDigits(t: string)
    requires DecimalDigits(t)
    ensures ParseInt(t) == if |DropUnderscores(t)| <= MaxStrDigits then Some(DigitsValue(DropUnderscores(t))) else None
  {
    assert IsDigit(t[0]) && IsDigit(t[|t| - 1]);
    StripTrimmed(t);
  }

  /** A string that neither starts nor ends with whitespace is its own `strip()`. */
  lemma StripTrimmed(s: string)
    requires s != [] && !IsSpace(s[0]) && !IsSpace(s[|s| - 1])
    ensures Strip(s) == s
  {
  }

  lemma UnderscoredDigits(s: string, i: nat)
    requires 0 < i < |s| && forall k :: 0 <= k < |s| ==> IsDigit(s[k])
    ensures var t := s[..i] + "_" + s[i..]; DecimalDigits(t) && DropUnderscores(t) == s
  {
    var t := s[..i] + "_" + s[i..];
    assert t[0] == s[0] && t[|t| - 1] == s[|s| - 1];
    forall k | 0 <= k < |t|
      ensures IsDigit(t[k]) || t[k] == '_'
      ensures t[k] == '_' ==> k == i
    {
      if k < i { assert t[k] == s[k]; } else if k > i { assert t[k] == s[k - 1]; }
    }
    assert t[i + 1] == s[i];
    DropUnderscoresAround(s, i);
  }

  lemma DropUnderscoresAround(s: string, i: nat)
    requires i <= |s| && forall k :: 0 <= k < |s| ==> IsDigit(s[k])
    ensures DropUnderscores(s[..i] + "_" + s[i..]) == s
  {
    var a, b := s[..i], s[i..];
    assert forall k :: 0 <= k < |a| ==> a[k] != '_' by {
      forall k | 0 <= k < |a| ensures a[k] != '_' { assert a[k] == s[k]; }
    }
    assert forall k :: 0 <= k < |b| ==> b[k] != '_' by {
      forall k | 0 <= k < |b| ensures b[k] != '_' { assert b[k] == s[i + k]; }
    }
    calc {
      DropUnderscores(a + "_" + b);
      { DropUnderscoresAppend(a + "_", b); }
      DropUnderscores(a + "_") + DropUnderscores(b);
      { DropUnderscoresAppend(a, "_"); }
      DropUnderscores(a) + DropUnderscores("_") + DropUnderscores(b);
      { assert DropUnderscores("_") == []; }
      a + [] + b;
      { assert a + [] == a; }
      a + b;
    }
    assert a + b == s;
  }




}
