/** String operations the servers and the front end rely on: substring search
    and replacement (JavaScript `String.prototype.replace` with a string pattern
    replaces the first occurrence, Python `str.replace` every occurrence),
    splitting on a separator, trimming, padding, and decimal conversion of
    integers in both directions. */
module Strings {
  import opened Wrappers

  // ---------------------------------------------------------------------------
  // Searching

  predicate OccursAt(s: string, pat: string, i: int) {
    0 <= i && i + |pat| <= |s| && s[i..i + |pat|] == pat
  }

  /** The first position at or after `from` where `pat` occurs. */
  function IndexFrom(s: string, pat: string, from: nat): Option<nat>
    requires from <= |s|
    decreases |s| - from
  {
    if OccursAt(s, pat, from) then Some(from)
    else if from == |s| then None
    else IndexFrom(s, pat, from + 1)
  }

  /** `IndexFrom` finds the first occurrence at or after `from`, and answers
      `None` only when there is none. */
  lemma {:induction false} IndexFromSpec(s: string, pat: string, from: nat)
    requires from <= |s|
    ensures var r := IndexFrom(s, pat, from);
            && (r.Some? ==> from <= r.value && OccursAt(s, pat, r.value))
            && (r.Some? ==> forall i :: from <= i < r.value ==> !OccursAt(s, pat, i))
            && (r.None? ==> forall i :: from <= i <= |s| ==> !OccursAt(s, pat, i))
    decreases |s| - from
  {
    if !OccursAt(s, pat, from) && from < |s| {
      IndexFromSpec(s, pat, from + 1);
    }
  }

  /** The first occurrence of `pat` in `s` (`s.indexOf(pat)` when not -1). */
  function IndexOf(s: string, pat: string): Option<nat> {
    IndexFrom(s, pat, 0)
  }

  lemma IndexOfSpec(s: string, pat: string)
    ensures var r := IndexOf(s, pat);
            && (r.Some? ==> OccursAt(s, pat, r.value))
            && (r.Some? ==> forall i :: 0 <= i < r.value ==> !OccursAt(s, pat, i))
            && (r.None? ==> forall i :: 0 <= i <= |s| ==> !OccursAt(s, pat, i))
  {
    IndexFromSpec(s, pat, 0);
  }

  predicate EndsWith(s: string, suffix: string) {
    |suffix| <= |s| && s[|s| - |suffix|..] == suffix
  }

  // ---------------------------------------------------------------------------
  // Replacement

  /** JavaScript `s.replace(pat, rep)` for a string pattern: only the first
      occurrence is replaced. (The replacement strings used by the model carry
      no `$` patterns.) */
  function ReplaceFirst(s: string, pat: string, rep: string): string {
    match IndexOf(s, pat)
    case None => s
    case Some(i) => IndexOfSpec(s, pat); s[..i] + rep + s[i + |pat|..]
  }

  /** Python `s.replace(pat, rep)`: every non-overlapping occurrence, left to
      right, is replaced. */
  function ReplaceAll(s: string, pat: string, rep: string): string
    requires |pat| > 0
    decreases |s|
  {
    match IndexOf(s, pat)
    case None => s
    case Some(i) => IndexOfSpec(s, pat); s[..i] + rep + ReplaceAll(s[i + |pat|..], pat, rep)
  }

  /** `pat` occurs in `s` exactly once, as its suffix. */
  predicate UniqueSuffix(s: string, pat: string) {
    EndsWith(s, pat) && forall i :: 0 <= i < |s| - |pat| ==> !OccursAt(s, pat, i)
  }

  /** When the pattern occurs only as the suffix, both replacement flavours
      substitute that suffix, so the JavaScript and the Python servers derive the
      same sibling paths. */
  lemma ReplaceUniqueSuffix(s: string, pat: string, rep: string)
    requires |pat| > 0 && UniqueSuffix(s, pat)
    ensures ReplaceFirst(s, pat, rep) == s[..|s| - |pat|] + rep
    ensures ReplaceAll(s, pat, rep) == s[..|s| - |pat|] + rep
  {
    var n := |s| - |pat|;
    assert OccursAt(s, pat, n);
    IndexOfSpec(s, pat);
    assert IndexOf(s, pat) == Some(n);
    var rest := s[n + |pat|..];
    assert rest == [];
    assert IndexOf(rest, pat) == None by {
      assert !OccursAt(rest, pat, 0);
      IndexOfSpec(rest, pat);
    }
  }

  /** Without any occurrence both flavours leave the string as it is. */
  lemma ReplaceAbsent(s: string, pat: string, rep: string)
    requires |pat| > 0
    requires forall i :: 0 <= i <= |s| ==> !OccursAt(s, pat, i)
    ensures ReplaceFirst(s, pat, rep) == s && ReplaceAll(s, pat, rep) == s
  {
    IndexOfSpec(s, pat);
    assert IndexOf(s, pat) == None;
  }

  // ---------------------------------------------------------------------------
  // Splitting and joining on one character

  /** JavaScript `s.split(sep)` for a one-character separator. */
  function Split(s: string, sep: char): (r: seq<string>)
    ensures |r| >= 1
    decreases |s|
  {
    if s == [] then [""]
    else
      var rest := Split(s[1..], sep);
      if s[0] == sep then [""] + rest else [[s[0]] + rest[0]] + rest[1..]
  }

  function Join(parts: seq<string>, sep: char): string
    requires |parts| >= 1
  {
    if |parts| == 1 then parts[0] else parts[0] + [sep] + Join(parts[1..], sep)
  }

  /** Splitting loses nothing: joining the pieces back gives the input. */
  lemma {:induction false} JoinSplit(s: string, sep: char)
    ensures Join(Split(s, sep), sep) == s
    decreases |s|
  {
    if s != [] {
      var rest := Split(s[1..], sep);
      JoinSplit(s[1..], sep);
      assert s == [s[0]] + s[1..];
      if s[0] == sep {
        var parts := [""] + rest;
        assert Split(s, sep) == parts;
        assert parts[1..] == rest;
        assert Join(parts, sep) == "" + [sep] + Join(rest, sep);
      } else {
        assert Split(s, sep) == [[s[0]] + rest[0]] + rest[1..];
        JoinHead(rest, [s[0]], sep);
      }
    }
  }

  lemma JoinHead(parts: seq<string>, pre: string, sep: char)
    requires |parts| >= 1
    ensures Join([pre + parts[0]] + parts[1..], sep) == pre + Join(parts, sep)
  {
    var q := [pre + parts[0]] + parts[1..];
    if |parts| > 1 {
      assert q[1..] == parts[1..];
    }
  }

  /** No piece of a split contains the separator. */
  lemma {:induction false} SplitPiecesFree(s: string, sep: char)
    ensures forall p, c :: p in Split(s, sep) && c in p ==> c != sep
    decreases |s|
  {
    if s != [] {
      SplitPiecesFree(s[1..], sep);
    }
  }

  // ---------------------------------------------------------------------------
  // Trimming (JavaScript `String.prototype.trim`)

  /** The white-space and line-terminator characters `trim` removes. */
  predicate IsJsSpace(c: char) {
    var n := c as int;
    (0x09 <= n <= 0x0D) || n == 0x20 || n == 0xA0 || n == 0x1680
    || (0x2000 <= n <= 0x200A) || n == 0x2028 || n == 0x2029 || n == 0x202F
    || n == 0x205F || n == 0x3000 || n == 0xFEFF
  }

  function TrimStart(s: string): (r: string)
    ensures |r| <= |s| && r == s[|s| - |r|..]
    ensures r != [] ==> !IsJsSpace(r[0])
    ensures forall i :: 0 <= i < |s| - |r| ==> IsJsSpace(s[i])
  {
    if s != [] && IsJsSpace(s[0]) then TrimStart(s[1..]) else s
  }

  function TrimEnd(s: string): (r: string)
    ensures |r| <= |s| && r == s[..|r|]
    ensures r != [] ==> !IsJsSpace(r[|r| - 1])
    ensures forall i :: |r| <= i < |s| ==> IsJsSpace(s[i])
  {
    if s != [] && IsJsSpace(s[|s| - 1]) then TrimEnd(s[..|s| - 1]) else s
  }

  function Trim(s: string): string {
    TrimEnd(TrimStart(s))
  }

  // ---------------------------------------------------------------------------
  // Padding (JavaScript `s.padStart(n, c)` with a one-character filler)

  function PadStart(s: string, n: nat, c: char): (r: string)
    ensures |r| == if |s| >= n then |s| else n
    ensures r[|r| - |s|..] == s
    ensures forall i :: 0 <= i < |r| - |s| ==> r[i] == c
  {
    if |s| >= n then s else seq(n - |s|, _ => c) + s
  }

  // ---------------------------------------------------------------------------
  // Decimal numerals

  predicate IsDigit(c: char) {
    '0' <= c <= '9'
  }

  predicate AllDigits(s: string) {
    forall i :: 0 <= i < |s| ==> IsDigit(s[i])
  }

  function DigitChar(d: nat): (c: char)
    requires d < 10
    ensures IsDigit(c) && (c as int) - ('0' as int) == d
  {
    ('0' as int + d) as char
  }

  function DigitValue(c: char): nat
    requires IsDigit(c)
  {
    (c as int) - ('0' as int)
  }

  /** The value of a string of decimal digits (leading zeros allowed). */
  function DigitsValue(s: string): nat
    requires AllDigits(s)
  {
    if s == [] then 0 else DigitsValue(s[..|s| - 1]) * 10 + DigitValue(s[|s| - 1])
  }

  /** Decimal representation of a natural number, as JavaScript's `${n}` and
      Python's `str(n)` both print it. */
  function NatToString(n: nat): (r: string)
    ensures |r| >= 1 && AllDigits(r)
    ensures |r| > 1 ==> r[0] != '0'
  {
    if n < 10 then [DigitChar(n)] else NatToString(n / 10) + [DigitChar(n % 10)]
  }

  /** Python `str(i)` of an int. */
  function IntToString(i: int): string {
    if i < 0 then "-" + NatToString(-i) else NatToString(i)
  }

  /** Canonical decimal numerals: no sign, no leading zero unless the numeral is "0". */
  predicate IsCanonical(s: string) {
    |s| >= 1 && AllDigits(s) && (|s| > 1 ==> s[0] != '0')
  }

  /** The array index a JavaScript property key denotes: a key names an array
      element only if it is the canonical numeral of that index. */
  function CanonicalIndex(s: string): Option<nat> {
    if IsCanonical(s) then Some(DigitsValue(s)) else None
  }

  lemma {:induction false} DigitsOfNatToString(n: nat)
    ensures DigitsValue(NatToString(n)) == n
  {
    if n >= 10 {
      var r := NatToString(n);
      DigitsOfNatToString(n / 10);
      assert r[..|r| - 1] == NatToString(n / 10);
    }
  }

  /** Numerals round-trip: the numeral of a number reads back as that number. */
  lemma CanonicalIndexOfNatToString(n: nat)
    ensures CanonicalIndex(NatToString(n)) == Some(n)
  {
    DigitsOfNatToString(n);
  }

  /** ... and a canonical numeral is the numeral of the number it reads as, so
      two different canonical keys never address the same element. */
  lemma {:induction false} NatToStringOfCanonical(s: string)
    requires IsCanonical(s)
    ensures NatToString(DigitsValue(s)) == s
    decreases |s|
  {
    if |s| > 1 {
      var p := s[..|s| - 1];
      assert IsCanonical(p) by {
        assert p[0] == s[0];
        forall i | 0 <= i < |p| ensures IsDigit(p[i]) { assert p[i] == s[i]; }
      }
      NatToStringOfCanonical(p);
      var v := DigitsValue(p);
      var d := DigitValue(s[|s| - 1]);
      assert v >= 1 by { LeadingDigitPositive(p); }
      assert DigitsValue(s) == v * 10 + d;
      assert (v * 10 + d) / 10 == v && (v * 10 + d) % 10 == d;
      assert DigitChar(d) == s[|s| - 1];
    }
  }

  lemma {:induction false} LeadingDigitPositive(s: string)
    requires AllDigits(s) && |s| >= 1 && s[0] != '0'
    ensures DigitsValue(s) >= 1
    decreases |s|
  {
    if |s| > 1 {
      var p := s[..|s| - 1];
      assert p[0] == s[0];
      assert AllDigits(p) by {
        forall i | 0 <= i < |p| ensures IsDigit(p[i]) { assert p[i] == s[i]; }
      }
      LeadingDigitPositive(p);
    }
  }

  // ---------------------------------------------------------------------------
  // Python `int(s)` on a string

  /** The white-space characters `int` strips around its text. */
  predicate IsPySpace(c: char) {
    var n := c as int;
    (0x09 <= n <= 0x0D) || (0x1C <= n <= 0x20) || n == 0x85 || n == 0xA0 || n == 0x1680
    || (0x2000 <= n <= 0x200A) || n == 0x2028 || n == 0x2029 || n == 0x202F
    || n == 0x205F || n == 0x3000
  }

  function PyStripStart(s: string): (r: string)
    ensures |r| <= |s| && r == s[|s| - |r|..]
    ensures r != [] ==> !IsPySpace(r[0])
    ensures s != [] && !IsPySpace(s[0]) ==> r == s
  {
    if s != [] && IsPySpace(s[0]) then PyStripStart(s[1..]) else s
  }

  function PyStripEnd(s: string): (r: string)
    ensures |r| <= |s| && r == s[..|r|]
    ensures r != [] ==> !IsPySpace(r[|r| - 1])
    ensures s != [] && !IsPySpace(s[|s| - 1]) ==> r == s
  {
    if s != [] && IsPySpace(s[|s| - 1]) then PyStripEnd(s[..|s| - 1]) else s
  }

  /** Digits, with single underscores allowed between two digits. */
  predicate DigitGroups(s: string) {
    && |s| >= 1 && IsDigit(s[0])
    && (forall i :: 0 <= i < |s| ==> IsDigit(s[i]) || s[i] == '_')
    && (forall i :: 0 <= i < |s| - 1 && s[i] == '_' ==> IsDigit(s[i + 1]))
    && s[|s| - 1] != '_'
  }

  /** The digits of a digit-group text, underscores dropped. */
  function DropUnderscores(s: string): (r: string)
    requires forall i :: 0 <= i < |s| ==> IsDigit(s[i]) || s[i] == '_'
    ensures AllDigits(r) && |r| <= |s|
    ensures AllDigits(s) ==> r == s
  {
    if s == [] then []
    else (if s[0] == '_' then [] else [s[0]]) + DropUnderscores(s[1..])
  }

  /** The value of a digit-group text. */
  function GroupsValue(s: string): nat
    requires DigitGroups(s)
  {
    DigitsValue(DropUnderscores(s))
  }

  /** Python `int(s)` for a string: surrounding white space is stripped, an
      optional `+` or `-` sign is followed by ASCII digits in groups joined
      by single underscores; any other text raises ValueError (`None`). */
  function ParseInt(s: string): Option<int> {
    ParseStripped(PyStripEnd(PyStripStart(s)))
  }

  /** `int` of a text with nothing left to strip. */
  function ParseStripped(b: string): Option<int> {
    if |b| >= 2 && b[0] == '-' && DigitGroups(b[1..]) then Some(0 - GroupsValue(b[1..]))
    else if |b| >= 2 && b[0] == '+' && DigitGroups(b[1..]) then Some(GroupsValue(b[1..]))
    else if DigitGroups(b) then Some(GroupsValue(b))
    else None
  }

  /** `int(str(i)) == i` for every Python int. */
  lemma ParseIntOfIntToString(i: int)
    ensures ParseInt(IntToString(i)) == Some(i)
  {
    if i < 0 {
      var n: nat := -i;
      var r := IntToString(i);
      assert r == "-" + NatToString(n);
      ParseIntOfNegative(n);
      assert ParseInt(r) == Some(0 - n);
    } else {
      ParseIntOfNatToString(i);
    }
  }

  lemma ParseIntOfNatToString(n: nat)
    ensures ParseInt(NatToString(n)) == Some(n)
  {
    ParseIntOfDigits(NatToString(n));
    DigitsOfNatToString(n);
  }

  /** Distinct naturals print differently. */
  lemma NatToStringInjective()
    ensures forall i: nat, j: nat :: NatToString(i) == NatToString(j) ==> i == j
  {
    forall i: nat, j: nat | NatToString(i) == NatToString(j)
      ensures i == j
    {
      ParseIntOfNatToString(i);
      ParseIntOfNatToString(j);
    }
  }

  /** A plain numeral reads as its value. */
  lemma ParseIntOfDigits(s: string)
    requires AllDigits(s) && |s| >= 1
    ensures ParseInt(s) == Some(DigitsValue(s))
  {
    PlainNumeral(s);
    UnsignedNumeral(s);
  }

  lemma UnsignedNumeral(s: string)
    requires DigitGroups(s)
    ensures ParseStripped(s) == Some(GroupsValue(s))
  {
    assert s[0] != '-' && s[0] != '+';
  }

  lemma ParseIntOfNegative(n: nat)
    requires n > 0
    ensures ParseInt("-" + NatToString(n)) == Some(0 - n)
  {
    var digits := NatToString(n);
    PlainNumeral(digits);
    var r := "-" + digits;
    assert r[0] == '-' && r[1..] == digits;
    NegativeNumeral(r);
    DigitsOfNatToString(n);
  }

  /** A minus sign before a plain numeral leaves nothing to strip, and reads
      as the negated digit groups. */
  lemma NegativeNumeral(r: string)
    requires |r| >= 2 && r[0] == '-' && AllDigits(r[1..]) && DigitGroups(r[1..])
    ensures PyStripEnd(PyStripStart(r)) == r
    ensures ParseStripped(r) == Some(0 - GroupsValue(r[1..]))
  {
    assert r[|r| - 1] == r[1..][|r| - 2];
    DigitNotSpace(r[|r| - 1]);
    assert !IsPySpace(r[0]);
  }

  /** A digit is never white space. */
  lemma DigitNotSpace(c: char)
    requires IsDigit(c)
    ensures !IsPySpace(c)
  {
  }

  /** A plain numeral has nothing to strip and is one digit group. */
  lemma PlainNumeral(s: string)
    requires AllDigits(s) && |s| >= 1
    ensures PyStripEnd(PyStripStart(s)) == s
    ensures DigitGroups(s) && GroupsValue(s) == DigitsValue(s)
  {
    DigitNotSpace(s[0]);
    DigitNotSpace(s[|s| - 1]);
  }
}
