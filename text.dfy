/**
 * The string operations the request handlers use: Rust's `str::trim`, `str::find`,
 * `str::split(char)`, `Iterator::all`, `str::to_uppercase`, `[String]::join` and the
 * decimal rendering of `format!("{}")`, together with the opaque collaborators
 * (`urlencoding::decode`, `char::is_alphanumeric`, `char::to_uppercase`).
 */
module Text {
  import opened Wrappers

  // ---------------------------------------------------------------------------
  // Characters

  predicate IsAscii(c: char) {
    c as int < 128
  }

  predicate IsDigit(c: char) {
    '0' <= c <= '9'
  }

  predicate IsAsciiAlphanumeric(c: char) {
    'A' <= c <= 'Z' || 'a' <= c <= 'z' || IsDigit(c)
  }

  function AsciiUppercase(c: char): char {
    if 'a' <= c <= 'z' then (c as int - 32) as char else c
  }

  /**
   * Rust's `char::is_whitespace`: the Unicode White_Space property, which is this
   * fixed list of code points.
   */
  predicate IsWhitespace(c: char) {
    var n := c as int;
    (9 <= n <= 13) || n == 32 || n == 0x85 || n == 0xA0 || n == 0x1680
    || (0x2000 <= n <= 0x200A) || n == 0x2028 || n == 0x2029 || n == 0x202F
    || n == 0x205F || n == 0x3000
  }

  /**
   * The library calls whose full behaviour is not modelled, as parameters:
   * `decode` is `urlencoding::decode` (percent-decoding, section 2.1 of RFC 3986;
   * `None` when the bytes it produces are not UTF-8), `isAlphanumeric` is
   * `char::is_alphanumeric` and `toUppercase` is `char::to_uppercase` (which may
   * yield several characters).
   */
  datatype Library = Library(
    decode: string -> Option<string>,
    isAlphanumeric: char -> bool,
    toUppercase: char -> string)
  {
    /**
     * What is known of the real library: decoding leaves text without `%` (and
     * without `+`, whose treatment is not pinned) unchanged, and on ASCII the two
     * character functions are the ASCII ones.
     */
    ghost predicate Valid() {
      && (forall s: string :: '%' !in s && '+' !in s ==> decode(s) == Some(s))
      && (forall c: char :: IsAscii(c) ==> (isAlphanumeric(c) <==> IsAsciiAlphanumeric(c)))
      && (forall c: char :: IsAscii(c) ==> toUppercase(c) == [AsciiUppercase(c)])
    }
  }

  // ---------------------------------------------------------------------------
  // Iterator::all

  /** `s.chars().all(p)`. */
  function All(s: string, p: char -> bool): (b: bool)
    ensures b <==> forall i :: 0 <= i < |s| ==> p(s[i])
  {
    if s == [] then true
    else p(s[0]) && All(s[1..], p)
  }

  // ---------------------------------------------------------------------------
  // str::trim

  /** The number of whitespace characters at the start of `s`. */
  function LeadingWhitespace(s: string): (k: nat)
    ensures k <= |s|
    ensures forall i :: 0 <= i < k ==> IsWhitespace(s[i])
    ensures k < |s| ==> !IsWhitespace(s[k])
  {
    if s == [] || !IsWhitespace(s[0]) then 0
    else 1 + LeadingWhitespace(s[1..])
  }

  /** The number of whitespace characters at the end of `s`. */
  function TrailingWhitespace(s: string): (k: nat)
    ensures k <= |s|
    ensures forall i :: |s| - k <= i < |s| ==> IsWhitespace(s[i])
    ensures k < |s| ==> !IsWhitespace(s[|s| - 1 - k])
  {
    if s == [] || !IsWhitespace(s[|s| - 1]) then 0
    else 1 + TrailingWhitespace(s[..|s| - 1])
  }

  /** No whitespace at either end. */
  predicate Trimmed(s: string) {
    s == [] || (!IsWhitespace(s[0]) && !IsWhitespace(s[|s| - 1]))
  }

  /** `s.trim()`: `s` without its leading and trailing whitespace. */
  function Trim(s: string): (r: string)
    ensures Trimmed(r)
    ensures var k := LeadingWhitespace(s);
      && k + |r| <= |s|
      && r == s[k..k + |r|]
      && forall i :: 0 <= i < |s| && !(k <= i < k + |r|) ==> IsWhitespace(s[i])
  {
    var k := LeadingWhitespace(s);
    if k == |s| then [] else s[k..|s| - TrailingWhitespace(s)]
  }

  /** A string trims to the empty string exactly when all its characters are whitespace. */
  lemma TrimEmpty(s: string)
    ensures Trim(s) == [] <==> forall i :: 0 <= i < |s| ==> IsWhitespace(s[i])
  {
    if Trim(s) != [] {
      var k := LeadingWhitespace(s);
      assert s[k] == Trim(s)[0];
    }
  }

  // ---------------------------------------------------------------------------
  // str::find

  predicate OccursAt(s: string, pat: string, i: int) {
    0 <= i && i + |pat| <= |s| && s[i..i + |pat|] == pat
  }

  function FindFrom(s: string, pat: string, i: nat): (r: Option<nat>)
    requires i <= |s|
    ensures r.Some? ==> i <= r.value && OccursAt(s, pat, r.value)
    ensures r.Some? ==> forall j :: i <= j < r.value ==> !OccursAt(s, pat, j)
    ensures r.None? ==> forall j :: i <= j ==> !OccursAt(s, pat, j)
    decreases |s| - i
  {
    if OccursAt(s, pat, i) then Some(i)
    else if i == |s| then None
    else FindFrom(s, pat, i + 1)
  }

  /** `s.find(pat)`: the index of the first occurrence of `pat` in `s`. */
  function Find(s: string, pat: string): (r: Option<nat>)
    ensures r.Some? ==> OccursAt(s, pat, r.value)
    ensures r.Some? ==> forall j :: 0 <= j < r.value ==> !OccursAt(s, pat, j)
    ensures r.None? <==> forall j :: !OccursAt(s, pat, j)
  {
    FindFrom(s, pat, 0)
  }

  /** A pattern one of whose characters does not appear in `s` is nowhere in `s`. */
  lemma NotFound(s: string, pat: string, k: nat)
    requires k < |pat| && pat[k] !in s
    ensures Find(s, pat) == None
  {
    forall j ensures !OccursAt(s, pat, j) {
      if 0 <= j && j + |pat| <= |s| {
        assert s[j..j + |pat|][k] == s[j + k];
      }
    }
  }

  /** `pat` is found at `i` when it occurs there and its first character occurs nowhere before. */
  lemma FoundAt(s: string, pat: string, i: nat)
    requires OccursAt(s, pat, i) && |pat| >= 1
    requires forall j :: 0 <= j < i ==> s[j] != pat[0]
    ensures Find(s, pat) == Some(i)
  {
    forall j | 0 <= j < i ensures !OccursAt(s, pat, j) {
      if j + |pat| <= |s| {
        assert s[j..j + |pat|][0] == s[j];
      }
    }
  }

  // ---------------------------------------------------------------------------
  // str::split(char) and join

  /** `s.split(sep).collect()`: the maximal pieces between separators, empty ones included. */
  function Split(s: string, sep: char): (parts: seq<string>)
    ensures |parts| >= 1
    ensures forall i :: 0 <= i < |parts| ==> sep !in parts[i]
  {
    if s == [] then [[]]
    else
      var rest := Split(s[1..], sep);
      if s[0] == sep then [[]] + rest
      else [[s[0]] + rest[0]] + rest[1..]
  }

  /** `parts.join(sep)`. */
  function Join(parts: seq<string>, sep: string): string {
    if |parts| == 0 then []
    else if |parts| == 1 then parts[0]
    else parts[0] + sep + Join(parts[1..], sep)
  }

  /** Joining the pieces of a split with the separator gives back the original text. */
  lemma {:induction false} JoinSplit(s: string, sep: char)
    ensures Join(Split(s, sep), [sep]) == s
  {
    if s != [] {
      var rest := Split(s[1..], sep);
      JoinSplit(s[1..], sep);
      if s[0] == sep {
        assert Split(s, sep) == [[]] + rest;
        assert ([[]] + rest)[1..] == rest;
        assert s == [sep] + s[1..];
      } else if |rest| == 1 {
        assert Split(s, sep) == [[s[0]] + rest[0]];
        assert s == [s[0]] + s[1..];
      } else {
        var parts := Split(s, sep);
        assert parts == [[s[0]] + rest[0]] + rest[1..];
        assert parts[1..] == rest[1..];
        assert Join(rest, [sep]) == rest[0] + [sep] + Join(rest[1..], [sep]);
        assert s == [s[0]] + s[1..];
      }
    }
  }

  lemma {:induction false} SplitNoSeparator(s: string, sep: char)
    requires sep !in s
    ensures Split(s, sep) == [s]
  {
    if s != [] {
      SplitNoSeparator(s[1..], sep);
      assert [s[0]] + s[1..] == s;
    }
  }

  lemma {:induction false} SplitAfterFirst(a: string, b: string, sep: char)
    requires sep !in a
    ensures Split(a + [sep] + b, sep) == [a] + Split(b, sep)
  {
    var s := a + [sep] + b;
    if a == [] {
      assert s == [sep] + b;
      assert s[1..] == b;
    } else {
      assert s[1..] == a[1..] + [sep] + b;
      SplitAfterFirst(a[1..], b, sep);
      assert [a[0]] + a[1..] == a;
    }
  }

  /** Splitting a join of separator-free pieces gives back the pieces. */
  lemma {:induction false} SplitJoin(parts: seq<string>, sep: char)
    requires |parts| >= 1
    requires forall i :: 0 <= i < |parts| ==> sep !in parts[i]
    ensures Split(Join(parts, [sep]), sep) == parts
  {
    if |parts| == 1 {
      SplitNoSeparator(parts[0], sep);
    } else {
      SplitJoin(parts[1..], sep);
      SplitAfterFirst(parts[0], Join(parts[1..], [sep]), sep);
      assert [parts[0]] + parts[1..] == parts;
    }
  }

  /** Joining two non-empty lists in one go is joining each and putting the separator between. */
  lemma {:induction false} JoinAppend(a: seq<string>, b: seq<string>, sep: string)
    requires |a| >= 1 && |b| >= 1
    ensures Join(a + b, sep) == Join(a, sep) + sep + Join(b, sep)
  {
    if |a| == 1 {
      assert (a + b)[0] == a[0] && (a + b)[1..] == b;
    } else {
      assert (a + b)[0] == a[0] && (a + b)[1..] == a[1..] + b;
      JoinAppend(a[1..], b, sep);
    }
  }

  /** Joining with one word in the middle of two non-empty lists. */
  lemma {:induction false} JoinAround(a: seq<string>, w: string, b: seq<string>, sep: string)
    requires |a| >= 1 && |b| >= 1
    ensures Join(a + [w] + b, sep) == Join(a, sep) + sep + w + sep + Join(b, sep)
  {
    var tail := [w] + b;
    assert a + [w] + b == a + tail;
    JoinAppend(a, tail, sep);
    assert tail[0] == w && tail[1..] == b;
    assert Join(tail, sep) == w + sep + Join(b, sep);
    Associate(Join(a, sep), sep, w, sep, Join(b, sep));
  }

  lemma Associate(x: string, y: string, z: string, u: string, v: string)
    ensures x + y + (z + u + v) == x + y + z + u + v
  {
  }

  // ---------------------------------------------------------------------------
  // str::to_uppercase

  /** `s.to_uppercase()`: the concatenation of the uppercase forms of its characters. */
  function ToUppercase(lib: Library, s: string): (r: string)
    ensures lib.Valid() && (forall i :: 0 <= i < |s| ==> IsAscii(s[i])) ==>
      |r| == |s| && forall i :: 0 <= i < |s| ==> r[i] == AsciiUppercase(s[i])
  {
    if s == [] then []
    else lib.toUppercase(s[0]) + ToUppercase(lib, s[1..])
  }

  // ---------------------------------------------------------------------------
  // Decimal rendering of unsigned integers, as `format!("{}", n)` prints them

  function DigitChar(d: nat): (c: char)
    requires d < 10
    ensures IsDigit(c)
  {
    ('0' as int + d) as char
  }

  function DigitValue(c: char): nat
    requires IsDigit(c)
  {
    c as int - '0' as int
  }

  predicate AllDigits(s: string) {
    forall i :: 0 <= i < |s| ==> IsDigit(s[i])
  }

  /** The decimal numeral of `n`: digits only, never empty, no leading zero. */
  function Decimal(n: nat): (r: string)
    ensures |r| >= 1 && AllDigits(r)
    ensures |r| > 1 ==> r[0] != '0'
  {
    if n < 10 then [DigitChar(n)]
    else Decimal(n / 10) + [DigitChar(n % 10)]
  }

  /** The value of a numeral: the reading of `Decimal`. */
  function ParseDecimal(s: string): nat
    requires AllDigits(s)
  {
    if s == [] then 0
    else ParseDecimal(s[..|s| - 1]) * 10 + DigitValue(s[|s| - 1])
  }

  /** Reading a rendered numeral gives back the number, so distinct numbers render differently. */
  lemma {:induction false} DecimalRoundTrip(n: nat)
    ensures ParseDecimal(Decimal(n)) == n
  {
    if n >= 10 {
      var s := Decimal(n);
      DecimalRoundTrip(n / 10);
      assert s[..|s| - 1] == Decimal(n / 10);
    }
  }
}
