/**
 * String semantics of the JVM and Python library calls the application relies on:
 * prefix and suffix tests, splitting on one character, joining, the four different
 * notions of "whitespace" used by trimming and tokenising, and decimal integers.
 */
module Strings {
  import opened Wrappers

  // ---------------------------------------------------------------------------
  // Prefixes, suffixes, containment

  predicate StartsWith(s: string, p: string) {
    |p| <= |s| && s[..|p|] == p
  }

  predicate EndsWith(s: string, p: string) {
    |p| <= |s| && s[|s| - |p|..] == p
  }

  /** `s.contains(p)` with exact character comparison. */
  predicate Contains(s: string, p: string) {
    exists i :: 0 <= i <= |s| - |p| && OccursAt(s, p, i)
  }

  predicate OccursAt(s: string, p: string, i: int) {
    0 <= i <= |s| - |p| && s[i..i + |p|] == p
  }

  // ---------------------------------------------------------------------------
  // Character classes

  predicate IsAsciiDigit(c: char) {
    '0' <= c <= '9'
  }

  predicate AllDigits(s: string) {
    forall i :: 0 <= i < |s| ==> IsAsciiDigit(s[i])
  }

  /** `\w` of java.util.regex without UNICODE_CHARACTER_CLASS: `[a-zA-Z_0-9]`. */
  predicate IsWordChar(c: char) {
    'a' <= c <= 'z' || 'A' <= c <= 'Z' || c == '_' || IsAsciiDigit(c)
  }

  /** The characters java.util.regex treats as line terminators (`.` does not match them). */
  predicate IsLineTerminator(c: char) {
    c == '\n' || c == '\r' || c == '\U{85}' || c == '\U{2028}' || c == '\U{2029}'
  }

  /** The whitespace notions of the libraries used by the source. */
  datatype Whitespace =
    | JavaTrim    // String.trim() and Kotlin trim { it <= ' ' }: every char <= U+0020
    | KotlinSpace // Kotlin Char.isWhitespace(): Character.isWhitespace || Character.isSpaceChar
    | GuavaSpace  // Guava CharMatcher.whitespace(), used by Splitter.trimResults()
    | PythonSpace // Python str.isspace(), used by str.split()

  /** Separators of Unicode general category Zs, Zl and Zp. */
  predicate IsUnicodeSeparator(c: char) {
    c == ' ' || c == '\U{A0}' || c == '\U{1680}' || '\U{2000}' <= c <= '\U{200A}' ||
    c == '\U{2028}' || c == '\U{2029}' || c == '\U{202F}' || c == '\U{205F}' || c == '\U{3000}'
  }

  /** Tab, line feed, vertical tab, form feed, carriage return. */
  predicate IsAsciiSpaceControl(c: char) {
    '\t' <= c <= '\r'
  }

  /** The file, group, record and unit separators U+001C..U+001F. */
  predicate IsInformationSeparator(c: char) {
    '\U{1C}' <= c <= '\U{1F}'
  }

  predicate IsWhitespace(kind: Whitespace, c: char) {
    match kind
    case JavaTrim => c <= ' '
    case KotlinSpace => IsAsciiSpaceControl(c) || IsInformationSeparator(c) || IsUnicodeSeparator(c)
    case GuavaSpace => IsAsciiSpaceControl(c) || c == '\U{85}' || IsUnicodeSeparator(c)
    case PythonSpace =>
      IsAsciiSpaceControl(c) || IsInformationSeparator(c) || c == '\U{85}' || IsUnicodeSeparator(c)
  }

  // ---------------------------------------------------------------------------
  // Trimming

  function TrimStart(s: string, kind: Whitespace): (r: string)
    ensures |r| <= |s| && r == s[|s| - |r|..]
    ensures r == [] || !IsWhitespace(kind, r[0])
    ensures forall i :: 0 <= i < |s| - |r| ==> IsWhitespace(kind, s[i])
  {
    if |s| > 0 && IsWhitespace(kind, s[0]) then TrimStart(s[1..], kind) else s
  }

  function TrimEnd(s: string, kind: Whitespace): (r: string)
    ensures |r| <= |s| && r == s[..|r|]
    ensures r == [] || !IsWhitespace(kind, r[|r| - 1])
    ensures forall i :: |r| <= i < |s| ==> IsWhitespace(kind, s[i])
  {
    if |s| > 0 && IsWhitespace(kind, s[|s| - 1]) then TrimEnd(s[..|s| - 1], kind) else s
  }

  /** Removes the leading and the trailing whitespace of `s`. */
  function Trim(s: string, kind: Whitespace): string {
    TrimEnd(TrimStart(s, kind), kind)
  }

  /** Neither the first nor the last character is whitespace. */
  predicate Unpadded(s: string, kind: Whitespace) {
    s == [] || (!IsWhitespace(kind, s[0]) && !IsWhitespace(kind, s[|s| - 1]))
  }

  /** What trimming leaves is an unpadded infix of the input, and an unpadded input is kept. */
  lemma TrimSpec(s: string, kind: Whitespace)
    ensures Unpadded(Trim(s, kind), kind)
    ensures exists i, j :: 0 <= i <= j <= |s| && Trim(s, kind) == s[i..j]
    ensures Unpadded(s, kind) ==> Trim(s, kind) == s
  {
    var t := TrimStart(s, kind);
    var r := TrimEnd(t, kind);
    if r != [] {
      assert r[0] == t[0];
    }
    var i := |s| - |t|;
    assert r == s[i..i + |r|] by {
      assert r == t[..|r|];
      assert t == s[i..];
    }
    assert 0 <= i <= i + |r| <= |s|;
    if Unpadded(s, kind) && s != [] {
      UnpaddedTrimmed(s, kind);
    }
  }

  lemma UnpaddedTrimmed(s: string, kind: Whitespace)
    requires s != [] && Unpadded(s, kind)
    ensures TrimStart(s, kind) == s && TrimEnd(s, kind) == s
  {
  }

  /** One leading blank is removed again by trimming, whatever the notion of whitespace. */
  lemma TrimAfterBlank(s: string, kind: Whitespace)
    requires Unpadded(s, kind)
    ensures Trim(" " + s, kind) == s
  {
    assert (" " + s)[1..] == s;
    TrimSpec(s, kind);
  }

  // ---------------------------------------------------------------------------
  // Splitting on one character and joining

  /** Every field between occurrences of `sep`, empty ones included (Kotlin `split(",")`). */
  function SplitAll(s: string, sep: char): (r: seq<string>)
    ensures |r| >= 1
    ensures forall i :: 0 <= i < |r| ==> sep !in r[i]
  {
    if s == [] then [[]]
    else
      var rest := SplitAll(s[1..], sep);
      if s[0] == sep then [[]] + rest
      else [[s[0]] + rest[0]] + rest[1..]
  }

  /** `xs` joined with `sep` between consecutive entries. */
  function Join(xs: seq<string>, sep: string): string {
    if |xs| == 0 then []
    else if |xs| == 1 then xs[0]
    else xs[0] + sep + Join(xs[1..], sep)
  }

  /** Joining with a non-empty separator is empty only for no entries or one empty entry. */
  lemma JoinEmpty(xs: seq<string>, sep: string)
    requires sep != []
    ensures Join(xs, sep) == [] <==> xs == [] || xs == [[]]
  {
    if |xs| >= 2 {
      assert |Join(xs, sep)| >= |sep|;
    }
  }

  lemma JoinTwo(a: string, b: string, sep: string)
    ensures Join([a, b], sep) == a + sep + b
  {
    assert [a, b][1..] == [b];
  }

  /** Joining two non-empty lists is joining each and putting the separator between. */
  lemma {:induction false} JoinAppend(xs: seq<string>, ys: seq<string>, sep: string)
    requires xs != [] && ys != []
    ensures Join(xs + ys, sep) == Join(xs, sep) + sep + Join(ys, sep)
  {
    if |xs| > 1 {
      JoinAppend(xs[1..], ys, sep);
      assert (xs + ys)[1..] == xs[1..] + ys;
    } else {
      assert (xs + ys)[1..] == ys;
    }
  }

  /** Every entry occurs in the joined text. */
  lemma {:induction false} JoinContainsEach(xs: seq<string>, sep: string, i: nat)
    requires i < |xs|
    ensures Contains(Join(xs, sep), xs[i])
  {
    var j := Join(xs, sep);
    if |xs| == 1 || i == 0 {
      assert OccursAt(j, xs[i], 0);
    } else {
      JoinContainsEach(xs[1..], sep, i - 1);
      var rest := Join(xs[1..], sep);
      var k :| 0 <= k <= |rest| - |xs[i]| && OccursAt(rest, xs[i], k);
      var offset := |xs[0]| + |sep|;
      assert j == xs[0] + sep + rest;
      assert j[offset + k..offset + k + |xs[i]|] == rest[k..k + |xs[i]|];
      assert OccursAt(j, xs[i], offset + k);
    }
  }

  /** Joining the fields with the separator gives back the input. */
  lemma {:induction false} JoinSplitAll(s: string, sep: char)
    ensures Join(SplitAll(s, sep), [sep]) == s
  {
    if s != [] {
      var rest := SplitAll(s[1..], sep);
      JoinSplitAll(s[1..], sep);
      if s[0] == sep {
        assert s == [sep] + s[1..];
      } else if |rest| == 1 {
        assert s == [s[0]] + rest[0];
      } else {
        assert Join(rest, [sep]) == rest[0] + [sep] + Join(rest[1..], [sep]);
        assert s == [s[0]] + s[1..];
      }
    }
  }

  /** Splitting text that starts with a separator-free prefix `a`. */
  lemma {:induction false} SplitAllPrefix(a: string, t: string, sep: char)
    requires sep !in a
    ensures SplitAll(a + t, sep) == [a + SplitAll(t, sep)[0]] + SplitAll(t, sep)[1..]
  {
    if a != [] {
      assert (a + t)[1..] == a[1..] + t;
      SplitAllPrefix(a[1..], t, sep);
      assert [a[0]] + (a[1..] + SplitAll(t, sep)[0]) == a + SplitAll(t, sep)[0];
    } else {
      var r := SplitAll(t, sep);
      assert a + t == t;
      assert a + r[0] == r[0];
      assert r == [r[0]] + r[1..];
    }
  }

  /** Splitting a join of separator-free entries gives back the entries. */
  lemma {:induction false} SplitAllJoin(xs: seq<string>, sep: char)
    requires |xs| >= 1
    requires forall i :: 0 <= i < |xs| ==> sep !in xs[i]
    ensures SplitAll(Join(xs, [sep]), sep) == xs
  {
    if |xs| == 1 {
      SplitAllPrefix(xs[0], [], sep);
      assert xs[0] + [] == xs[0];
    } else {
      var j := Join(xs[1..], [sep]);
      SplitAllJoin(xs[1..], sep);
      assert ([sep] + j)[1..] == j;
      assert SplitAll([sep] + j, sep) == [[]] + xs[1..];
      assert Join(xs, [sep]) == xs[0] + ([sep] + j);
      SplitAllPrefix(xs[0], [sep] + j, sep);
      assert xs[0] + [] == xs[0];
    }
  }

  /** The list without its trailing empty strings (Kotlin `dropLastWhile { it.isEmpty() }`). */
  function DropTrailingEmpties(xs: seq<string>): (r: seq<string>)
    ensures |r| <= |xs| && r == xs[..|r|]
    ensures r == [] || r[|r| - 1] != []
    ensures forall i :: |r| <= i < |xs| ==> xs[i] == []
  {
    if |xs| > 0 && xs[|xs| - 1] == [] then DropTrailingEmpties(xs[..|xs| - 1]) else xs
  }

  /**
   * java.lang.String.split with a one-character pattern: the input itself when the
   * separator does not occur, otherwise all fields minus the trailing empty ones.
   */
  function JavaSplit(s: string, sep: char): seq<string> {
    if sep !in s then [s] else DropTrailingEmpties(SplitAll(s, sep))
  }

  /** The three regimes of Java's split. */
  lemma JavaSplitCases(s: string, sep: char)
    ensures s == [] ==> JavaSplit(s, sep) == [[]]
    ensures (forall i :: 0 <= i < |s| ==> s[i] == sep) && s != [] ==> JavaSplit(s, sep) == []
    ensures s != [] && s[|s| - 1] != sep ==> JavaSplit(s, sep) == SplitAll(s, sep)
  {
    if s != [] && forall i :: 0 <= i < |s| ==> s[i] == sep {
      assert s[0] == sep;
      AllSeparatorsSplit(s, sep);
    }
    if s != [] && s[|s| - 1] != sep {
      if sep in s {
        LastFieldOfSplit(s, sep);
      } else {
        SplitAllNoSeparator(s, sep);
      }
    }
  }

  /** Without a separator there is exactly one field, the input. */
  lemma {:induction false} SplitAllNoSeparator(s: string, sep: char)
    requires sep !in s
    ensures SplitAll(s, sep) == [s]
  {
    SplitAllPrefix(s, [], sep);
    assert s + [] == s;
  }

  lemma {:induction false} AllSeparatorsSplit(s: string, sep: char)
    requires forall i :: 0 <= i < |s| ==> s[i] == sep
    ensures forall i :: 0 <= i < |SplitAll(s, sep)| ==> SplitAll(s, sep)[i] == []
  {
    if s != [] {
      AllSeparatorsSplit(s[1..], sep);
    }
  }

  /** The last field is the text after the last separator. */
  lemma {:induction false} LastFieldOfSplit(s: string, sep: char)
    requires s != [] && s[|s| - 1] != sep
    ensures SplitAll(s, sep)[|SplitAll(s, sep)| - 1] != []
  {
    var rest := SplitAll(s[1..], sep);
    if |s| > 1 {
      LastFieldOfSplit(s[1..], sep);
    }
  }

  // ---------------------------------------------------------------------------
  // Order

  /** `String.compareTo(a, b) <= 0`: character by character, a proper prefix first. */
  predicate NameLe(a: string, b: string) {
    a == [] || (b != [] && (a[0] < b[0] || (a[0] == b[0] && NameLe(a[1..], b[1..]))))
  }

  lemma {:induction false} NameLeTotal(a: string, b: string)
    ensures NameLe(a, b) || NameLe(b, a)
  {
    if a != [] && b != [] && a[0] == b[0] {
      NameLeTotal(a[1..], b[1..]);
    }
  }

  lemma {:induction false} NameLeTransitive(a: string, b: string, c: string)
    requires NameLe(a, b) && NameLe(b, c)
    ensures NameLe(a, c)
  {
    if a != [] && b != [] && c != [] && a[0] == b[0] && b[0] == c[0] {
      NameLeTransitive(a[1..], b[1..], c[1..]);
    }
  }

  lemma {:induction false} NameLeAntisymmetric(a: string, b: string)
    requires NameLe(a, b) && NameLe(b, a)
    ensures a == b
  {
    if a != [] && b != [] {
      NameLeAntisymmetric(a[1..], b[1..]);
      assert a == [a[0]] + a[1..] && b == [b[0]] + b[1..];
    }
  }

  /** Two names that agree up to position `k` and differ there are ordered by that character. */
  lemma {:induction false} NameLtAt(a: string, b: string, k: nat)
    requires k < |a| && k < |b| && a[..k] == b[..k] && a[k] < b[k]
    ensures NameLe(a, b) && a != b
  {
    if k > 0 {
      assert a[0] == a[..k][0] == b[..k][0] == b[0];
      assert a[1..][..k - 1] == a[..k][1..] && b[1..][..k - 1] == b[..k][1..];
      NameLtAt(a[1..], b[1..], k - 1);
    } else {
      assert a[0] != b[0];
    }
  }

  /** Every name is at most the next one. */
  predicate NamesSorted(s: seq<string>) {
    forall i :: 0 <= i < |s| - 1 ==> NameLe(s[i], s[i + 1])
  }

  /** Strictly increasing names: sorted without duplicates. */
  predicate StrictlySorted(s: seq<string>) {
    forall i :: 0 <= i < |s| - 1 ==> NameLe(s[i], s[i + 1]) && s[i] != s[i + 1]
  }

  /** A name below the head of a strictly increasing sequence extends it. */
  lemma StrictlySortedCons(x: string, s: seq<string>)
    requires StrictlySorted(s) && s != [] && NameLe(x, s[0]) && x != s[0]
    ensures StrictlySorted([x] + s)
  {
    var t := [x] + s;
    forall i | 0 <= i < |t| - 1
      ensures NameLe(t[i], t[i + 1]) && t[i] != t[i + 1]
    {
      if i > 0 {
        assert t[i] == s[i - 1] && t[i + 1] == s[i];
      }
    }
  }

  /** In a strictly increasing sequence every name is below every later one, and differs from it. */
  lemma {:induction false} StrictlySortedDistinct(s: seq<string>, i: nat, j: nat)
    requires StrictlySorted(s) && i < j < |s|
    ensures NameLe(s[i], s[j]) && s[i] != s[j]
    decreases j - i
  {
    if j > i + 1 {
      StrictlySortedDistinct(s, i + 1, j);
      NameLeTransitive(s[i], s[i + 1], s[j]);
      if s[i] == s[j] {
        NameLeAntisymmetric(s[i], s[i + 1]);
      }
    }
  }

  // ---------------------------------------------------------------------------
  // Lists

  /** `indexOf`: the position of the first occurrence of `x`, or `|xs|` when there is none. */
  function FirstIndex<T(==)>(xs: seq<T>, x: T): (i: nat)
    ensures i <= |xs| && x !in xs[..i]
    ensures i < |xs| ==> xs[i] == x
    ensures i == |xs| <==> x !in xs
  {
    if xs == [] then 0
    else if xs[0] == x then 0
    else
      var j := FirstIndex(xs[1..], x);
      assert xs[..j + 1] == [xs[0]] + xs[1..][..j];
      j + 1
  }

  /** `ArrayList.remove(Object)`: the first occurrence, if any, is removed. */
  function RemoveFirst<T(==)>(xs: seq<T>, x: T): (r: seq<T>)
    ensures x !in xs ==> r == xs
    ensures x in xs ==> exists i :: 0 <= i < |xs| && xs[i] == x && x !in xs[..i] && r == xs[..i] + xs[i + 1..]
  {
    var i := FirstIndex(xs, x);
    if i == |xs| then xs else xs[..i] + xs[i + 1..]
  }

  // ---------------------------------------------------------------------------
  // Decimal integers

  const INT32_MIN: int := -0x8000_0000
  const INT32_MAX: int := 0x7FFF_FFFF

  /** The number of blocks of Unicode decimal digits (general category Nd) in the BMP. */
  const DIGIT_BLOCKS: nat := 37

  /**
   * The code point of the digit zero of block `k`, in increasing order. Each block holds
   * the ten digits zero to nine at consecutive code points. `Character.digit(ch, 10)` on a
   * `char` gives a digit's value exactly for the characters of these blocks.
   */
  function DigitZero(k: nat): (z: int)
    requires k < DIGIT_BLOCKS
    ensures '0' as int <= z <= 0xFF10
  {
    match k
    case 0 => 0x0030
    case 1 => 0x0660
    case 2 => 0x06F0
    case 3 => 0x07C0
    case 4 => 0x0966
    case 5 => 0x09E6
    case 6 => 0x0A66
    case 7 => 0x0AE6
    case 8 => 0x0B66
    case 9 => 0x0BE6
    case 10 => 0x0C66
    case 11 => 0x0CE6
    case 12 => 0x0D66
    case 13 => 0x0DE6
    case 14 => 0x0E50
    case 15 => 0x0ED0
    case 16 => 0x0F20
    case 17 => 0x1040
    case 18 => 0x1090
    case 19 => 0x17E0
    case 20 => 0x1810
    case 21 => 0x1946
    case 22 => 0x19D0
    case 23 => 0x1A80
    case 24 => 0x1A90
    case 25 => 0x1B50
    case 26 => 0x1BB0
    case 27 => 0x1C40
    case 28 => 0x1C50
    case 29 => 0xA620
    case 30 => 0xA8D0
    case 31 => 0xA900
    case 32 => 0xA9D0
    case 33 => 0xA9F0
    case 34 => 0xAA50
    case 35 => 0xABF0
    case _ => 0xFF10
  }

  /** Whether `c` lies in the block that starts at `DigitZero(k)`. */
  predicate InDigitBlock(c: char, k: nat)
    requires k < DIGIT_BLOCKS
  {
    DigitZero(k) <= c as int < DigitZero(k) + 10
  }

  /** The blocks are disjoint: each starts at least ten code points after the previous one. */
  lemma {:induction false} DigitBlocksApart(j: nat, k: nat)
    requires j < k < DIGIT_BLOCKS
    ensures DigitZero(j) + 10 <= DigitZero(k)
    decreases k - j
  {
    if j + 1 < k {
      DigitBlocksApart(j + 1, k);
    }
  }

  function DigitBlockFrom(c: char, k: nat): (r: Option<nat>)
    requires k <= DIGIT_BLOCKS
    ensures r.Some? ==> k <= r.value < DIGIT_BLOCKS && InDigitBlock(c, r.value)
    ensures r.None? ==> forall j :: k <= j < DIGIT_BLOCKS ==> !InDigitBlock(c, j)
    decreases DIGIT_BLOCKS - k
  {
    if k == DIGIT_BLOCKS then None
    else if InDigitBlock(c, k) then Some(k)
    else DigitBlockFrom(c, k + 1)
  }

  /** The index of the block of decimal digits that holds `c`, if any. */
  function DigitBlock(c: char): (r: Option<nat>)
    ensures r.Some? ==> r.value < DIGIT_BLOCKS && InDigitBlock(c, r.value)
    ensures r.None? ==> forall j :: 0 <= j < DIGIT_BLOCKS ==> !InDigitBlock(c, j)
    ensures IsAsciiDigit(c) ==> r == Some(0)
  {
    DigitBlockFrom(c, 0)
  }

  /** `Character.digit(c, 10) >= 0`: `c` is a decimal digit of some script. */
  predicate IsDecimalDigit(c: char) {
    DigitBlock(c).Some?
  }

  predicate AllDecimalDigits(s: string) {
    forall i :: 0 <= i < |s| ==> IsDecimalDigit(s[i])
  }

  /** `Character.digit(c, 10)`: the offset of `c` from its block's zero. */
  function DigitValue(c: char): (d: nat)
    requires IsDecimalDigit(c)
    ensures d < 10
    ensures IsAsciiDigit(c) ==> d == (c as int) - ('0' as int)
  {
    (c as int) - DigitZero(DigitBlock(c).value)
  }

  /** The block of `c` is the only block that holds it. */
  lemma DigitBlockUnique(c: char, k: nat)
    requires k < DIGIT_BLOCKS && InDigitBlock(c, k)
    ensures DigitBlock(c) == Some(k)
  {
    var j := DigitBlock(c).value;
    if j < k {
      DigitBlocksApart(j, k);
    } else if k < j {
      DigitBlocksApart(k, j);
    }
  }

  function DigitChar(d: nat): (c: char)
    requires d < 10
    ensures IsAsciiDigit(c) && (c as int) - ('0' as int) == d
  {
    ('0' as int + d) as char
  }

  /** The value of a string of decimal digits, most significant first. */
  function DigitsValue(ds: string): nat
    requires AllDecimalDigits(ds)
  {
    if ds == [] then 0 else DigitsValue(ds[..|ds| - 1]) * 10 + DigitValue(ds[|ds| - 1])
  }

  /** ASCII digits are decimal digits of the first block. */
  lemma AsciiDigitsAreDecimal(s: string)
    requires AllDigits(s)
    ensures AllDecimalDigits(s)
  {
    forall i | 0 <= i < |s| ensures IsDecimalDigit(s[i]) {
      assert IsAsciiDigit(s[i]);
    }
  }

  /** The ASCII digits `ds` written with the digits of block `k`. */
  function InScript(ds: string, k: nat): (r: string)
    requires AllDigits(ds) && k < DIGIT_BLOCKS
    ensures |r| == |ds| && AllDecimalDigits(r)
    ensures forall i :: 0 <= i < |ds| ==> DigitValue(r[i]) == DigitValue(ds[i])
  {
    if ds == [] then []
    else
      var d := (ds[0] as int) - ('0' as int);
      var c := (DigitZero(k) + d) as char;
      assert InDigitBlock(c, k);
      DigitBlockUnique(c, k);
      AsciiDigitsAreDecimal(ds);
      [c] + InScript(ds[1..], k)
  }

  /** Digits with the same values have the same value, whatever their scripts. */
  lemma {:induction false} DigitsValueOfSameDigits(a: string, b: string)
    requires AllDecimalDigits(a) && AllDecimalDigits(b) && |a| == |b|
    requires forall i :: 0 <= i < |a| ==> DigitValue(a[i]) == DigitValue(b[i])
    ensures DigitsValue(a) == DigitsValue(b)
  {
    if a != [] {
      DigitsValueOfSameDigits(a[..|a| - 1], b[..|b| - 1]);
    }
  }

  /** The shortest decimal form of `n` (Kotlin/Java `Int.toString()` for n >= 0). */
  function NatToString(n: nat): (s: string)
    ensures |s| >= 1 && AllDigits(s)
  {
    if n < 10 then [DigitChar(n)] else NatToString(n / 10) + [DigitChar(n % 10)]
  }

  /** Java `Integer.toString`. */
  function IntToString(i: int): string {
    if i < 0 then "-" + NatToString(-i) else NatToString(i)
  }

  lemma {:induction false} NatToStringValue(n: nat)
    ensures DigitsValue(NatToString(n)) == n
  {
    if n >= 10 {
      var s := NatToString(n);
      assert s[..|s| - 1] == NatToString(n / 10);
      NatToStringValue(n / 10);
    }
  }

  /**
   * Java `Integer.parseInt` and Kotlin `toInt()`/`toIntOrNull()` in radix 10: an optional
   * '+' or '-', then one or more decimal digits of any script (each read with
   * `Character.digit`), and a value that fits in 32 bits.
   */
  function ParseInt32(s: string): (r: Option<int>)
    ensures r.Some? ==> INT32_MIN <= r.value <= INT32_MAX
  {
    if |s| == 0 then None
    else
      var start := if s[0] == '-' || s[0] == '+' then 1 else 0;
      var ds := s[start..];
      if |ds| == 0 || !AllDecimalDigits(ds) then None
      else
        var v: int := if s[0] == '-' then -(DigitsValue(ds) as int) else DigitsValue(ds);
        if INT32_MIN <= v <= INT32_MAX then Some(v) else None
  }

  /** The printed form of a 32-bit integer, its digits written in the script of block `k`. */
  function IntToStringIn(i: int, k: nat): string
    requires k < DIGIT_BLOCKS
  {
    if i < 0 then "-" + InScript(NatToString(-i), k) else InScript(NatToString(i), k)
  }

  /**
   * Parsing the printed form of a 32-bit integer gives the integer back, whichever script
   * its digits are written in (block 0 is ASCII, as `Integer.toString` prints).
   */
  lemma ParseIntToString(i: int, k: nat)
    requires INT32_MIN <= i <= INT32_MAX && k < DIGIT_BLOCKS
    ensures k == 0 ==> IntToStringIn(i, k) == IntToString(i)
    ensures ParseInt32(IntToStringIn(i, k)) == Some(i)
  {
    var n: nat := if i < 0 then -i else i;
    var ds := NatToString(n);
    var t := InScript(ds, k);
    NatToStringValue(n);
    DigitsValueOfSameDigits(t, ds);
    if k == 0 {
      InScriptAscii(ds);
    }
    ParseSignedDigits(i, t);
  }

  /** A sign for negative values followed by the digits of the magnitude parses to the value. */
  lemma ParseSignedDigits(i: int, t: string)
    requires INT32_MIN <= i <= INT32_MAX
    requires |t| >= 1 && AllDecimalDigits(t) && DigitsValue(t) == (if i < 0 then -i else i)
    ensures ParseInt32(if i < 0 then "-" + t else t) == Some(i)
  {
    var s := if i < 0 then "-" + t else t;
    assert IsDecimalDigit(t[0]);
    if i < 0 {
      assert s[1..] == t;
    } else {
      assert s[0] != '-' && s[0] != '+';
      assert s[0..] == t;
    }
  }

  lemma {:induction false} InScriptAscii(ds: string)
    requires AllDigits(ds)
    ensures InScript(ds, 0) == ds
  {
    if ds != [] {
      InScriptAscii(ds[1..]);
    }
  }

  /** Text with a character that is neither a decimal digit nor a leading sign is not an integer. */
  lemma ParseIntRejectsNonDigit(s: string, k: nat)
    requires 0 < k < |s| && !IsDecimalDigit(s[k])
    ensures ParseInt32(s) == None
  {
    var start := if s[0] == '-' || s[0] == '+' then 1 else 0;
    assert s[start..][k - start] == s[k];
  }
}
