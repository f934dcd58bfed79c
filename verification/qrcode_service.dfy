/**
 * Access-key resolution of `QRCodeService` (src/services/qrcode_service.py): cleaning a typed key,
 * validating a 44-digit key, finding a key inside a decoded QR-code payload with four regular
 * expressions tried in priority order, and routing an entry to the image or the typed branch.
 *
 * `re.search(pattern, s)` is modelled as the least position of `s` at which the pattern matches
 * (`FirstPosition`), with one predicate per pattern saying what a match at a position is.
 */
module QrCodeService {
  import opened Wrappers
  import opened Text

  /** `settings.TAMANHO_CHAVE_ACESSO`. */
  const KeyLength: nat := 44

  /** `QRCodeService.FORMATOS_SUPORTADOS`. */
  const SupportedFormats: set<string> := {".png", ".jpg", ".jpeg", ".bmp", ".gif"}

  // ---------------------------------------------------------------------------------------------
  // limpar_chave_digitada and validar_chave_acesso

  /** `re.sub(r'\D', '', chave)`: the digits of `s`, in order. */
  function CleanTypedKey(s: string): (r: string)
    ensures AllDigits(r)
    ensures |r| <= |s|
    ensures AllDigits(s) ==> r == s
    ensures NoDigits(s) ==> r == ""
    decreases |s|
  {
    if s == [] then [] else (if IsDigit(s[0]) then [s[0]] else []) + CleanTypedKey(s[1..])
  }

  /** Cleaning works piece by piece, so it keeps exactly the digits and their order. */
  lemma {:induction false} CleanTypedKeyConcat(a: string, b: string)
    ensures CleanTypedKey(a + b) == CleanTypedKey(a) + CleanTypedKey(b)
    decreases |a|
  {
    if a == [] {
      assert a + b == b;
    } else {
      var h := if IsDigit(a[0]) then [a[0]] else [];
      assert (a + b)[0] == a[0] && (a + b)[1..] == a[1..] + b;
      assert CleanTypedKey(a + b) == h + CleanTypedKey(a[1..] + b);
      CleanTypedKeyConcat(a[1..], b);
      assert CleanTypedKey(a) == h + CleanTypedKey(a[1..]);
    }
  }

  lemma CleanTypedKeyIdempotent(s: string)
    ensures CleanTypedKey(CleanTypedKey(s)) == CleanTypedKey(s)
  {
  }

  /** `validar_chave_acesso`: rejects the empty key, a length other than 44, and any non-digit. */
  function ValidateKey(chave: string): (ok: bool)
    ensures ok <==> |chave| == KeyLength && AllDigits(chave)
    ensures ok ==> chave != ""
  {
    if chave == "" then false
    else if |chave| != KeyLength then false
    else IsDigitString(chave)
  }

  // ---------------------------------------------------------------------------------------------
  // extrair_chave_da_url

  /** `\d{44}` matches at `i`. */
  predicate DigitsAt(s: string, i: nat) {
    i + KeyLength <= |s| && AllDigits(s[i..i + KeyLength])
  }

  /** Pattern 1, `\b(\d{44})\b`, matches at `i`: 44 digits with a non-word character or an edge on each side. */
  predicate BoundedRunAt(s: string, i: nat) {
    && DigitsAt(s, i)
    && (i == 0 || !IsWordChar(s[i - 1]))
    && (i + KeyLength == |s| || !IsWordChar(s[i + KeyLength]))
  }

  /** Case-insensitive match of `c` against the lower-case ASCII letter `lower` (the Kelvin sign folds to `k`). */
  predicate LetterMatches(c: char, lower: char) {
    || c == lower
    || ('a' <= lower <= 'z' && c as int == lower as int - 32)
    || (lower == 'k' && c == '\U{212A}')
  }

  predicate MatchesIgnoringCase(s: string, word: string) {
    |s| == |word| && forall i :: 0 <= i < |s| ==> LetterMatches(s[i], word[i])
  }

  /** `name=` followed by 44 digits starts at `j`. */
  predicate NameValueAt(s: string, j: nat, name: string) {
    && j + |name| < |s|
    && MatchesIgnoringCase(s[j..j + |name|], name)
    && s[j + |name|] == '='
    && DigitsAt(s, j + |name| + 1)
  }

  /**
   * Pattern 2, `[?&](?:chave|p|key)=(\d{44})` ignoring case, at `i`: the position of the 44 digits
   * when it matches; the alternatives are tried in the order of the pattern.
   */
  function KeyParamAt(s: string, i: nat): (d: Option<nat>)
    ensures d.Some? ==> i < d.value && DigitsAt(s, d.value)
  {
    if i < |s| && (s[i] == '?' || s[i] == '&') then
      if NameValueAt(s, i + 1, "chave") then Some(i + 7)
      else if NameValueAt(s, i + 1, "p") then Some(i + 3)
      else if NameValueAt(s, i + 1, "key") then Some(i + 5)
      else None
    else None
  }

  predicate IsKeyDelimiter(c: char) {
    c == '|' || c == ',' || c == ';' || IsSpace(c)
  }

  /** Pattern 3, `(\d{44})(?:[|\s,;]|$)`, matches at `i`: 44 digits followed by a delimiter or the end. */
  predicate DelimitedRunAt(s: string, i: nat) {
    DigitsAt(s, i) && (i + KeyLength == |s| || IsKeyDelimiter(s[i + KeyLength]))
  }

  /** The first three patterns of `extrair_chave_da_url`, in priority order. */
  datatype Pattern = Bounded | Param | Delimited

  predicate MatchesAt(pattern: Pattern, s: string, i: nat) {
    match pattern
    case Bounded => BoundedRunAt(s, i)
    case Param => KeyParamAt(s, i).Some?
    case Delimited => DelimitedRunAt(s, i)
  }

  /** The least position `k` with `from <= k <= |s|` at which `pattern` matches: the scan of `re.search`. */
  function FirstPosition(pattern: Pattern, s: string, from: nat): (r: Option<nat>)
    ensures r.Some? ==> from <= r.value <= |s| && MatchesAt(pattern, s, r.value)
    ensures r.Some? ==> forall k :: from <= k < r.value ==> !MatchesAt(pattern, s, k)
    ensures r.None? ==> forall k :: from <= k <= |s| ==> !MatchesAt(pattern, s, k)
    decreases |s| + 1 - from
  {
    if from > |s| then None
    else if MatchesAt(pattern, s, from) then Some(from)
    else FirstPosition(pattern, s, from + 1)
  }

  /** How many patterns come after `pattern`. */
  function Later(pattern: Pattern): nat {
    match pattern
    case Bounded => 2
    case Param => 1
    case Delimited => 0
  }

  /** The position where the group of a match at `i` starts. */
  function GroupStart(pattern: Pattern, s: string, i: nat): (d: nat)
    requires MatchesAt(pattern, s, i)
    ensures DigitsAt(s, d)
  {
    if pattern == Param then KeyParamAt(s, i).value else i
  }

  /** Length of the longest all-digit prefix of `s`. */
  function DigitPrefixLength(s: string): (n: nat)
    ensures n <= |s| && AllDigits(s[..n])
    ensures n < |s| ==> !IsDigit(s[n])
  {
    if |s| > 0 && IsDigit(s[0]) then
      var m := DigitPrefixLength(s[1..]);
      assert s[..m + 1] == [s[0]] + s[1..][..m];
      m + 1
    else 0
  }

  /** `m` is the digit-prefix length when the first `m` characters are digits and the next one is not. */
  lemma {:induction false} DigitPrefixLengthIs(s: string, m: nat)
    requires m <= |s| && AllDigits(s[..m]) && (m < |s| ==> !IsDigit(s[m]))
    ensures DigitPrefixLength(s) == m
    decreases m
  {
    if m > 0 {
      assert s[..m][0] == s[0];
      assert s[1..][..m - 1] == s[..m][1..];
      DigitPrefixLengthIs(s[1..], m - 1);
    }
  }

  /** `re.findall(r'\d+', s)`: the maximal runs of digits, left to right. */
  function DigitRuns(s: string): (runs: seq<string>)
    ensures forall r :: r in runs ==> IsDigitString(r)
    ensures NoDigits(s) ==> runs == []
    decreases |s|
  {
    if s == [] then []
    else if !IsDigit(s[0]) then DigitRuns(s[1..])
    else
      var n := DigitPrefixLength(s);
      [s[..n]] + DigitRuns(s[n..])
  }

  /** Pattern 4: the first run whose length is exactly 44. */
  function FirstOfKeyLength(runs: seq<string>): (r: Option<string>)
    ensures r.Some? ==> r.value in runs && |r.value| == KeyLength
    ensures r.None? ==> forall x :: x in runs ==> |x| != KeyLength
    ensures r.Some? ==> exists k :: 0 <= k < |runs| && runs[k] == r.value && forall j :: 0 <= j < k ==> |runs[j]| != KeyLength
  {
    if runs == [] then None
    else if |runs[0]| == KeyLength then Some(runs[0])
    else FirstOfKeyLength(runs[1..])
  }

  /** A maximal digit run of length exactly 44 starts at `i`. */
  predicate MaximalRunAt(s: string, i: nat) {
    && DigitsAt(s, i)
    && (i == 0 || !IsDigit(s[i - 1]))
    && (i + KeyLength == |s| || !IsDigit(s[i + KeyLength]))
  }

  /** Tries `pattern` and then the patterns after it; the last resort is pattern 4. */
  function SearchFrom(s: string, pattern: Pattern): (r: Option<string>)
    ensures r.Some? ==> ValidateKey(r.value)
    decreases Later(pattern)
  {
    match FirstPosition(pattern, s, 0)
    case Some(i) =>
      var d := GroupStart(pattern, s, i);
      Some(s[d..d + KeyLength])
    case None =>
      match pattern
      case Bounded => SearchFrom(s, Param)
      case Param => SearchFrom(s, Delimited)
      case Delimited => FirstOfKeyLength(DigitRuns(s))
  }

  /**
   * `extrair_chave_da_url`: None for an absent or empty payload; otherwise the match of the first
   * pattern, in priority order, that matches anywhere; None when none does.
   */
  function ExtractKeyFromPayload(url: Option<string>): (r: Option<string>)
    ensures url.None? || url.value == "" ==> r.None?
    ensures r.Some? ==> ValidateKey(r.value)
  {
    if url.None? || url.value == "" then None
    else
      var s := url.value;
      SearchFrom(s, Bounded)
  }

  /** Pattern 1 has priority: its leftmost match is the result, whatever the later patterns would find. */
  lemma BoundedRunWins(s: string, i: nat)
    requires BoundedRunAt(s, i)
    requires forall k :: 0 <= k < i ==> !BoundedRunAt(s, k)
    ensures ExtractKeyFromPayload(Some(s)) == Some(s[i..i + KeyLength])
  {
    assert MatchesAt(Bounded, s, i);
    assert FirstPosition(Bounded, s, 0) == Some(i);
  }

  /** Every maximal run of digits is one of the runs `findall` reports. */
  lemma {:induction false} MaximalRunIsListed(s: string, i: nat)
    requires MaximalRunAt(s, i)
    ensures s[i..i + KeyLength] in DigitRuns(s)
    decreases |s|
  {
    assert IsDigit(s[i..i + KeyLength][0]);
    if !IsDigit(s[0]) {
      assert i > 0;
      var t := s[1..];
      assert t[i - 1..i - 1 + KeyLength] == s[i..i + KeyLength];
      assert MaximalRunAt(t, i - 1) by {
        assert DigitsAt(t, i - 1);
        if i - 1 > 0 { assert t[i - 2] == s[i - 1]; }
        if i - 1 + KeyLength != |t| { assert t[i - 1 + KeyLength] == s[i + KeyLength]; }
      }
      MaximalRunIsListed(t, i - 1);
    } else {
      var n := DigitPrefixLength(s);
      if i == 0 {
        assert s[..KeyLength] == s[0..KeyLength];
        DigitPrefixLengthIs(s, KeyLength);
        assert DigitRuns(s)[0] == s[..n];
      } else {
        assert !IsDigit(s[i - 1]);
        assert i > n;
        var t := s[n..];
        assert t[i - n..i - n + KeyLength] == s[i..i + KeyLength];
        assert MaximalRunAt(t, i - n) by {
          assert DigitsAt(t, i - n);
          if i - n > 0 { assert t[i - n - 1] == s[i - 1]; }
          if i - n + KeyLength != |t| { assert t[i - n + KeyLength] == s[i + KeyLength]; }
        }
        MaximalRunIsListed(t, i - n);
        assert DigitRuns(s) == [s[..n]] + DigitRuns(t);
      }
    }
  }

  /** A payload holding a maximal run of exactly 44 digits always yields a key (at the latest through pattern 4). */
  lemma MaximalRunIsFound(s: string, i: nat)
    requires MaximalRunAt(s, i)
    ensures ExtractKeyFromPayload(Some(s)).Some?
  {
    MaximalRunIsListed(s, i);
    FallsThroughToRuns(s, Bounded);
  }

  /** When no pattern from `pattern` on matches, the result is pattern 4's. */
  lemma {:induction false} FallsThroughToRuns(s: string, pattern: Pattern)
    ensures SearchFrom(s, pattern).None? ==> FirstOfKeyLength(DigitRuns(s)).None?
    decreases Later(pattern)
  {
    if FirstPosition(pattern, s, 0).None? {
      match pattern
      case Bounded => FallsThroughToRuns(s, Param);
      case Param => FallsThroughToRuns(s, Delimited);
      case Delimited =>
    }
  }

  /** Digits inside `a + k + b`, when `a` and `b` hold none, are digits of `k`. */
  lemma OnlyWindowOfDigits(a: string, k: string, b: string, d: nat)
    requires NoDigits(a) && NoDigits(b) && |k| == KeyLength
    requires DigitsAt(a + k + b, d)
    ensures d == |a| && (a + k + b)[d..d + KeyLength] == k
  {
    var s := a + k + b;
    assert IsDigit(s[d..d + KeyLength][0]);
    assert IsDigit(s[d..d + KeyLength][KeyLength - 1]);
    assert s[|a|..|a| + |k|] == k;
  }

  /** Skipping a stretch without digits does not change the runs. */
  lemma {:induction false} DigitRunsSkip(a: string, t: string)
    requires NoDigits(a)
    ensures DigitRuns(a + t) == DigitRuns(t)
    decreases |a|
  {
    if a != [] {
      assert (a + t)[0] == a[0];
      assert (a + t)[1..] == a[1..] + t;
      DigitRunsSkip(a[1..], t);
    } else {
      assert a + t == t;
    }
  }

  /**
   * `findall` reads runs left to right: text without digits, then a run `k` that the rest `t` does
   * not continue, gives `k` followed by the runs of `t`. With `DigitRuns` of digit-free text being
   * empty, this fixes the runs of every payload.
   */
  lemma DigitRunsSplit(a: string, k: string, t: string)
    requires NoDigits(a) && IsDigitString(k) && (t == [] || !IsDigit(t[0]))
    ensures DigitRuns(a + k + t) == [k] + DigitRuns(t)
  {
    assert a + k + t == a + (k + t);
    DigitRunsSkip(a, k + t);
    assert (k + t)[..|k|] == k;
    DigitPrefixLengthIs(k + t, |k|);
    var n := DigitPrefixLength(k + t);
    assert (k + t)[..n] == k;
    assert (k + t)[n..] == t;
  }

  /** The runs of `a + k + b` are exactly `[k]`. */
  lemma SingleRun(a: string, k: string, b: string)
    requires NoDigits(a) && NoDigits(b) && IsDigitString(k)
    ensures DigitRuns(a + k + b) == [k]
  {
    DigitRunsSplit(a, k, b);
    assert DigitRuns(b) == [];
  }

  /** A payload whose only digits are one run of 44 yields that run, whichever pattern matches first. */
  lemma UniqueRunIsFound(a: string, k: string, b: string)
    requires NoDigits(a) && NoDigits(b) && IsDigitString(k) && |k| == KeyLength
    ensures ExtractKeyFromPayload(Some(a + k + b)) == Some(k)
  {
    UniqueRunFrom(a, k, b, Bounded);
  }

  lemma {:induction false} UniqueRunFrom(a: string, k: string, b: string, pattern: Pattern)
    requires NoDigits(a) && NoDigits(b) && IsDigitString(k) && |k| == KeyLength
    ensures SearchFrom(a + k + b, pattern) == Some(k)
    decreases Later(pattern)
  {
    var s := a + k + b;
    match FirstPosition(pattern, s, 0)
    case Some(i) =>
      OnlyWindowOfDigits(a, k, b, GroupStart(pattern, s, i));
    case None =>
      match pattern
      case Bounded => UniqueRunFrom(a, k, b, Param);
      case Param => UniqueRunFrom(a, k, b, Delimited);
      case Delimited => SingleRun(a, k, b);
  }

  /** A payload without any digit yields no key. */
  lemma NoDigitsNoKey(s: string)
    requires NoDigits(s)
    ensures ExtractKeyFromPayload(Some(s)) == None
  {
    forall i: nat | i + KeyLength <= |s| ensures !DigitsAt(s, i) {
      assert !IsDigit(s[i..i + KeyLength][0]);
    }
    DigitRunsSkip(s, []);
    assert s + [] == s;
    FallsThroughWithoutDigits(s, Bounded);
  }

  lemma {:induction false} FallsThroughWithoutDigits(s: string, pattern: Pattern)
    requires forall i: nat :: !DigitsAt(s, i)
    requires DigitRuns(s) == []
    ensures SearchFrom(s, pattern) == None
    decreases Later(pattern)
  {
    assert FirstPosition(pattern, s, 0).None?;
    match pattern
    case Bounded => FallsThroughWithoutDigits(s, Param);
    case Param => FallsThroughWithoutDigits(s, Delimited);
    case Delimited =>
  }

  // ---------------------------------------------------------------------------------------------
  // processar_entrada

  /** The position of the last `c` in `s`, as `str.rfind`. */
  function LastIndexOf(s: string, c: char): (r: Option<nat>)
    ensures r.Some? ==> r.value < |s| && s[r.value] == c && c !in s[r.value + 1..]
    ensures r.None? ==> c !in s
  {
    if s == [] then None
    else if s[|s| - 1] == c then Some(|s| - 1)
    else
      var r := LastIndexOf(s[..|s| - 1], c);
      assert s == s[..|s| - 1] + [s[|s| - 1]];
      r
  }

  /**
   * `p[i..k]` is the last component of `p`: `p[k..]` is the run of trailing slashes, `p[k - 1]` is
   * not a slash, and `p[i..k]` holds no slash and starts the path or follows one.
   */
  predicate LastComponent(p: string, i: int, k: int) {
    0 <= i <= k <= |p| && '/' !in p[i..k] && (i == 0 || p[i - 1] == '/')
    && (k == 0 || p[k - 1] != '/') && forall j :: k <= j < |p| ==> p[j] == '/'
  }

  /** `Path(p).name` for a POSIX path: the text after the last `/`, trailing slashes ignored. */
  function PathName(p: string): (name: string)
    ensures '/' !in name
    ensures forall c :: c in name ==> c in p
  {
    if p != [] && p[|p| - 1] == '/' then PathName(p[..|p| - 1])
    else match LastIndexOf(p, '/')
      case Some(i) => p[i + 1..]
      case None => p
  }

  /** A trailing slash leaves the last component where it was. */
  lemma LastComponentSlash(q: string, i: int, k: int)
    requires LastComponent(q, i, k)
    ensures LastComponent(q + "/", i, k) && (q + "/")[i..k] == q[i..k]
  {
  }

  /** Without a trailing slash, the last component runs from just after the last slash to the end. */
  lemma LastComponentAfter(p: string, i: nat)
    requires p != [] && p[|p| - 1] != '/'
    requires i <= |p| && (i == 0 || p[i - 1] == '/') && '/' !in p[i..]
    ensures LastComponent(p, i, |p|) && p[i..] == p[i..|p|]
  {
  }

  /** The name is the path's last component, once the trailing slashes are dropped. */
  lemma {:induction false} PathNameIsLastComponent(p: string)
    ensures exists i, k :: LastComponent(p, i, k) && PathName(p) == p[i..k]
    decreases |p|
  {
    if p == [] {
      assert LastComponent(p, 0, 0) && PathName(p) == p[0..0];
    } else if p[|p| - 1] == '/' {
      var q := p[..|p| - 1];
      assert p == q + "/";
      PathNameIsLastComponent(q);
      var i, k :| LastComponent(q, i, k) && PathName(q) == q[i..k];
      LastComponentSlash(q, i, k);
      assert PathName(p) == PathName(q);
    } else {
      var last := LastIndexOf(p, '/');
      if last.Some? {
        LastComponentAfter(p, last.value + 1);
        assert PathName(p) == p[last.value + 1..];
      } else {
        LastComponentAfter(p, 0);
        assert PathName(p) == p[0..];
      }
    }
  }

  /** The dot `Path.suffix` starts from: the last `.` of `name`, neither its first nor its last character. */
  predicate SuffixDot(name: string, i: int) {
    0 < i < |name| - 1 && name[i] == '.' && '.' !in name[i + 1..]
  }

  /** `Path(p).suffix`: from the last `.` of the name, when that dot is neither first nor last. */
  function PathSuffix(p: string): (suffix: string)
    ensures suffix != "" ==> suffix[0] == '.' && |suffix| >= 2
    ensures suffix != "" ==> exists i :: SuffixDot(PathName(p), i) && suffix == PathName(p)[i..]
    ensures (exists i :: SuffixDot(PathName(p), i)) ==> suffix != ""
  {
    var name := PathName(p);
    match LastIndexOf(name, '.')
    case Some(i) =>
      if 0 < i < |name| - 1 then
        assert SuffixDot(name, i);
        name[i..]
      else
        assert forall j :: SuffixDot(name, j) ==> j == i;
        ""
    case None => ""
  }

  /** `Path(entrada).suffix.lower() in FORMATOS_SUPORTADOS`. */
  predicate IsImagePath(entrada: string) {
    Lower(PathSuffix(entrada)) in SupportedFormats
  }

  /**
   * `extrair_chave_acesso` once the image is decoded: `payload` is the UTF-8 text of the first
   * QR code found, None when the image holds no code or its data is not UTF-8.
   */
  function KeyFromImage(payload: Option<string>): (r: Option<string>)
    ensures r.Some? ==> ValidateKey(r.value)
    ensures payload.None? ==> r.None?
    ensures payload.Some? ==> r == ExtractKeyFromPayload(payload)
  {
    match payload
    case None => None
    case Some(dados) =>
      var chave := ExtractKeyFromPayload(Some(dados));
      if chave.Some? && chave.value != "" then
        if ValidateKey(chave.value) then chave else None
      else None
  }

  /**
   * `processar_entrada`: a stripped entry whose suffix names an image format goes to the image
   * branch only; any other entry is cleaned to its digits and accepted iff those form a valid key.
   */
  function ProcessInput(entrada: string, payload: Option<string>): (r: Option<string>)
    ensures r.Some? ==> ValidateKey(r.value)
    ensures IsImagePath(Strip(entrada)) ==> r == KeyFromImage(payload)
    ensures !IsImagePath(Strip(entrada)) ==>
              r == (if ValidateKey(CleanTypedKey(Strip(entrada))) then Some(CleanTypedKey(Strip(entrada))) else None)
  {
    var e := Strip(entrada);
    if IsImagePath(e) then KeyFromImage(payload)
    else
      var chave := CleanTypedKey(e);
      if ValidateKey(chave) then Some(chave) else None
  }

  /** A typed entry never looks at an image: its result is the same whatever the image would hold. */
  lemma TypedEntryIgnoresImage(entrada: string, p1: Option<string>, p2: Option<string>)
    requires !IsImagePath(Strip(entrada))
    ensures ProcessInput(entrada, p1) == ProcessInput(entrada, p2)
  {
  }

  /** An entry without a dot is never taken for an image path. */
  lemma NoDotIsTyped(entrada: string)
    requires '.' !in entrada
    ensures !IsImagePath(entrada)
  {
    assert PathSuffix(entrada) == "";
  }

  /** A typed entry shorter than a key is rejected; `"123456789"` is one. */
  lemma ShortEntryRejected(entrada: string, payload: Option<string>)
    requires !IsImagePath(Strip(entrada)) && |entrada| < KeyLength
    ensures ProcessInput(entrada, payload) == None
  {
  }

  lemma NineDigitsRejected(payload: Option<string>)
    ensures ProcessInput("123456789", payload) == None
  {
    NoDotIsTyped(Strip("123456789"));
    ShortEntryRejected("123456789", payload);
  }
}
