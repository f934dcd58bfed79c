/**
 * Character classes and string helpers shared by the model.
 *
 * Digits and word characters are the ASCII ones (`[0-9]`, `[A-Za-z0-9_]`); whitespace is the
 * set of characters Python's `str.isspace` and the regular-expression class `\s` accept.
 */
module Text {
  import opened Wrappers

  /** The sentinel written for an absent value. */
  const NA := "N/A"

  predicate IsDigit(c: char) {
    '0' <= c <= '9'
  }

  predicate AllDigits(s: string) {
    forall i :: 0 <= i < |s| ==> IsDigit(s[i])
  }

  /** Python's `str.isdigit()`: false on the empty string. */
  predicate IsDigitString(s: string) {
    |s| > 0 && AllDigits(s)
  }

  predicate NoDigits(s: string) {
    forall i :: 0 <= i < |s| ==> !IsDigit(s[i])
  }

  /** A character of the regular-expression class `\w`. */
  predicate IsWordChar(c: char) {
    'a' <= c <= 'z' || 'A' <= c <= 'Z' || IsDigit(c) || c == '_'
  }

  /** Python's whitespace: `\t \n \v \f \r`, `\x1c`-`\x1f`, space, `\x85`, no-break space and the Unicode spaces. */
  predicate IsSpace(c: char) {
    || ('\t' <= c <= '\r')
    || ('\U{1C}' <= c <= '\U{1F}')
    || c == ' ' || c == '\U{85}' || c == '\U{A0}' || c == '\U{1680}'
    || ('\U{2000}' <= c <= '\U{200A}')
    || c == '\U{2028}' || c == '\U{2029}' || c == '\U{202F}' || c == '\U{205F}' || c == '\U{3000}'
  }

  /** Number of whitespace characters at the front of `s`. */
  function LeadingSpaces(s: string): (n: nat)
    ensures n <= |s|
    ensures forall i :: 0 <= i < n ==> IsSpace(s[i])
    ensures n < |s| ==> !IsSpace(s[n])
  {
    if |s| > 0 && IsSpace(s[0]) then 1 + LeadingSpaces(s[1..]) else 0
  }

  /** Number of whitespace characters at the back of `s`. */
  function TrailingSpaces(s: string): (n: nat)
    ensures n <= |s|
    ensures forall i :: |s| - n <= i < |s| ==> IsSpace(s[i])
    ensures n < |s| ==> !IsSpace(s[|s| - 1 - n])
  {
    if |s| > 0 && IsSpace(s[|s| - 1]) then 1 + TrailingSpaces(s[..|s| - 1]) else 0
  }

  predicate IsStripped(s: string) {
    |s| == 0 || (!IsSpace(s[0]) && !IsSpace(s[|s| - 1]))
  }

  /** Python's `str.strip()`: drops leading and trailing whitespace, keeps the inside as it is. */
  function Strip(s: string): (r: string)
    ensures IsStripped(r)
    ensures |r| <= |s| && forall c :: c in r ==> c in s
    ensures IsStripped(s) ==> r == s
  {
    var l := LeadingSpaces(s);
    if l == |s| then ""
    else
      var t := TrailingSpaces(s);
      assert !IsSpace(s[l]);
      s[l..|s| - t]
  }

  predicate AllSpace(s: string) {
    forall i :: 0 <= i < |s| ==> IsSpace(s[i])
  }

  /**
   * `strip` cuts whitespace from the two ends only: the result is the part of `s` between a
   * leading and a trailing stretch of whitespace. With `IsStripped` this fixes the result.
   */
  lemma StripTrims(s: string)
    ensures exists i, j :: 0 <= i <= j <= |s| && AllSpace(s[..i]) && AllSpace(s[j..]) && Strip(s) == s[i..j]
  {
    var l := LeadingSpaces(s);
    if l == |s| {
      assert AllSpace(s[..l]) && AllSpace(s[l..]) && Strip(s) == s[l..l];
    } else {
      var t := TrailingSpaces(s);
      assert !IsSpace(s[l]);
      assert AllSpace(s[..l]) && AllSpace(s[|s| - t..]) && Strip(s) == s[l..|s| - t];
    }
  }

  /** The position of the first `x` in `s`, as `str.find` or a first-match scan. */
  function IndexOf<T(==)>(s: seq<T>, x: T): (r: Option<nat>)
    ensures r.Some? ==> r.value < |s| && s[r.value] == x && x !in s[..r.value]
    ensures r.None? ==> x !in s
  {
    if s == [] then None
    else if s[0] == x then Some(0)
    else match IndexOf(s[1..], x)
      case Some(i) =>
        assert s[..i + 1] == [s[0]] + s[1..][..i];
        Some(i + 1)
      case None => None
  }

  function LowerChar(c: char): char {
    if 'A' <= c <= 'Z' then (c as int + 32) as char else c
  }

  /** `str.lower()` on ASCII letters. */
  function Lower(s: string): (r: string)
    ensures |r| == |s|
    ensures forall i :: 0 <= i < |s| ==> r[i] == LowerChar(s[i])
  {
    seq(|s|, i requires 0 <= i < |s| => LowerChar(s[i]))
  }

  predicate EndsWith(s: string, suffix: string) {
    |suffix| <= |s| && s[|s| - |suffix|..] == suffix
  }

  /** `s.replace(c, '')`. */
  function RemoveChar(s: string, c: char): (r: string)
    ensures c !in r
    ensures |r| <= |s|
    ensures forall x :: x in r ==> x in s
    ensures forall x :: x in s && x != c ==> x in r
    ensures c !in s ==> r == s
  {
    if s == [] then []
    else (if s[0] == c then [] else [s[0]]) + RemoveChar(s[1..], c)
  }

  /** Removal works piece by piece, so every other character is kept, in order. */
  lemma {:induction false} RemoveCharConcat(a: string, b: string, c: char)
    ensures RemoveChar(a + b, c) == RemoveChar(a, c) + RemoveChar(b, c)
    decreases |a|
  {
    if a == [] {
      assert a + b == b;
    } else {
      assert (a + b)[1..] == a[1..] + b;
      RemoveCharConcat(a[1..], b, c);
    }
  }

  /** `s.replace(a, b)` for single characters `a` and `b`. */
  function ReplaceChar(s: string, a: char, b: char): (r: string)
    ensures |r| == |s|
    ensures forall i :: 0 <= i < |s| ==> r[i] == (if s[i] == a then b else s[i])
  {
    seq(|s|, i requires 0 <= i < |s| => if s[i] == a then b else s[i])
  }

  function DigitChar(d: nat): char
    requires d < 10
  {
    ('0' as int + d) as char
  }

  /** Decimal rendering of a natural number, as in an f-string `{n}`. */
  function NatToString(n: nat): (s: string)
    ensures IsDigitString(s)
    decreases n
  {
    if n < 10 then [DigitChar(n)] else NatToString(n / 10) + [DigitChar(n % 10)]
  }

  /** Python truthiness of an optional string: present and non-empty. */
  predicate IsFilled(v: Option<string>) {
    v.Some? && v.value != ""
  }

  /**
   * Python's `value or 'N/A'` on an optional string: None and the empty string are falsy and
   * render as the sentinel; any other text is kept.
   */
  function OrNA(v: Option<string>): (r: string)
    ensures r != ""
    ensures !IsFilled(v) ==> r == NA
    ensures IsFilled(v) ==> r == v.value
  {
    if IsFilled(v) then v.value else NA
  }

  /** A dictionary, as the ordered list of its entries (a Python dict keeps insertion order). */
  type Dict<V> = seq<(string, V)>

  function KeysOf<V>(d: Dict<V>): (ks: seq<string>)
    ensures |ks| == |d|
    ensures forall i :: 0 <= i < |d| ==> ks[i] == d[i].0
  {
    seq(|d|, i requires 0 <= i < |d| => d[i].0)
  }

  /** No key appears twice. */
  predicate Distinct(ks: seq<string>) {
    forall i, j :: 0 <= i < j < |ks| ==> ks[i] != ks[j]
  }

  /**
   * The dictionary `{keys[i]: values[i] or 'N/A'}`: each entry has its field's value when that is
   * non-empty and `'N/A'` otherwise, so no entry is empty.
   */
  function RenderNA(keys: seq<string>, values: seq<Option<string>>): (d: Dict<string>)
    requires |keys| == |values|
    ensures KeysOf(d) == keys
    ensures forall i :: 0 <= i < |d| ==> d[i].1 != ""
    ensures forall i :: 0 <= i < |d| && IsFilled(values[i]) ==> d[i].1 == values[i].value
    ensures forall i :: 0 <= i < |d| && !IsFilled(values[i]) ==> d[i].1 == NA
  {
    seq(|keys|, i requires 0 <= i < |keys| => (keys[i], OrNA(values[i])))
  }

  /** A value of a dictionary entry or table cell: text or a number. */
  datatype Cell = Str(text: string) | Num(number: real)

  /** Python truthiness of a cell: a non-empty string or a non-zero number. */
  predicate Truthy(c: Cell) {
    match c
    case Str(s) => s != ""
    case Num(x) => x != 0.0
  }
}
