/**
 * `Produto` (src/models/produto.py): one line item of a receipt. Construction normalises the
 * fields (`__post_init__`): amounts given as text are cleaned and parsed, codes are stripped.
 * `validar` collects the reasons an item is unacceptable; `to_dict` gives its dictionary form.
 *
 * Amounts are exact reals: `float()` is modelled as exact decimal parsing of the cleaned text.
 */
module ProdutoModel {
  import opened Wrappers
  import opened Text

  // ---------------------------------------------------------------------------------------------
  // _converter_para_float

  /** A numeric constructor argument: a number (`int`/`float`) or a string read from the page. */
  datatype NumberArg = AsNumber(value: real) | AsText(text: string)

  predicate IsNumericChar(c: char) {
    IsDigit(c) || c == '.' || c == '-'
  }

  /** `''.join(c for c in s if c.isdigit() or c in '.-')`. */
  function KeepNumericChars(s: string): (r: string)
    ensures forall i :: 0 <= i < |r| ==> IsNumericChar(r[i])
    ensures |r| <= |s|
    ensures (forall i :: 0 <= i < |s| ==> IsNumericChar(s[i])) ==> r == s
  {
    if s == [] then [] else (if IsNumericChar(s[0]) then [s[0]] else []) + KeepNumericChars(s[1..])
  }

  /** Filtering works piece by piece: it keeps the numeric characters in their order. */
  lemma {:induction false} KeepNumericCharsConcat(a: string, b: string)
    ensures KeepNumericChars(a + b) == KeepNumericChars(a) + KeepNumericChars(b)
    decreases |a|
  {
    if a == [] {
      assert a + b == b;
    } else {
      assert (a + b)[1..] == a[1..] + b;
      KeepNumericCharsConcat(a[1..], b);
    }
  }

  /** The cleaning step of `_converter_para_float`: strip, turn every `,` into `.`, keep digits, `.` and `-`. */
  function CleanNumber(s: string): (r: string)
    ensures forall i :: 0 <= i < |r| ==> IsNumericChar(r[i])
    ensures ',' !in r
  {
    KeepNumericChars(ReplaceChar(Strip(s), ',', '.'))
  }

  /** Decimal value of a string of digits. */
  function DigitsValue(s: string): nat
    requires AllDigits(s)
  {
    if s == [] then 0 else DigitsValue(s[..|s| - 1]) * 10 + (s[|s| - 1] as int - '0' as int)
  }

  function Pow10(n: nat): (p: nat)
    ensures p > 0
  {
    if n == 0 then 1 else 10 * Pow10(n - 1)
  }

  /** The value of the decimal numeral `whole.frac`. */
  function DecimalValue(whole: string, frac: string): (v: real)
    requires AllDigits(whole) && AllDigits(frac)
    ensures v >= 0.0
  {
    DigitsValue(whole) as real + DigitsValue(frac) as real / Pow10(|frac|) as real
  }

  /** `float(t)` without a sign, for text over digits and `.`: digits, optionally `.` and digits, at least one digit. */
  function ParseUnsigned(t: string): (r: Option<real>)
    ensures r.Some? ==> r.value >= 0.0
    ensures r.Some? ==> t != ""
  {
    match IndexOf(t, '.')
    case None =>
      if IsDigitString(t) then Some(DigitsValue(t) as real) else None
    case Some(i) =>
      var whole, frac := t[..i], t[i + 1..];
      if AllDigits(whole) && AllDigits(frac) && |whole| + |frac| > 0 then
        Some(DecimalValue(whole, frac))
      else None
  }

  /** `float(t)` on cleaned text: an optional leading `-`, then an unsigned number; None where Python raises `ValueError`. */
  function ParseDecimal(t: string): (r: Option<real>)
    ensures r.Some? ==> t != ""
    ensures t != "" && t[0] != '-' ==> r == ParseUnsigned(t)
    ensures t != "" && t[0] == '-' ==> (r.Some? <==> ParseUnsigned(t[1..]).Some?)
    ensures t != "" && t[0] == '-' && r.Some? ==> r.value == -ParseUnsigned(t[1..]).value && r.value <= 0.0
  {
    if |t| > 0 && t[0] == '-' then
      match ParseUnsigned(t[1..])
      case Some(v) => Some(-v)
      case None => None
    else ParseUnsigned(t)
  }

  /**
   * `_converter_para_float`: a number is kept; text is cleaned and parsed, and yields 0 when the
   * cleaned text is empty or does not parse.
   */
  function ToAmount(v: NumberArg): (r: real)
    ensures v.AsNumber? ==> r == v.value
  {
    match v
    case AsNumber(x) => x
    case AsText(s) =>
      var t := CleanNumber(s);
      if t == "" then 0.0
      else match ParseDecimal(t)
        case Some(x) => x
        case None => 0.0
  }

  /** Already stripped text over digits, `.`, `-` and `,` is cleaned by turning each `,` into `.`. */
  lemma CleanNumericText(s: string)
    requires IsStripped(s)
    requires NumericText(s)
    ensures CleanNumber(s) == ReplaceChar(s, ',', '.')
  {
    var r := ReplaceChar(s, ',', '.');
    assert forall i :: 0 <= i < |r| ==> IsNumericChar(r[i]);
  }

  /** The first `.` of `d + "." + rest`, when `d` has no `.`, is at `|d|`. */
  lemma PointAfter(d: string, rest: string)
    requires AllDigits(d)
    ensures IndexOf(d + "." + rest, '.') == Some(|d|)
  {
    var t := d + "." + rest;
    assert t[|d|] == '.';
    assert t[..|d|] == d;
  }

  /** `d.f` with two digit runs parses to the decimal number it writes. */
  lemma ParsePointDecimal(d: string, f: string)
    requires IsDigitString(d) && IsDigitString(f)
    ensures ParseDecimal(d + "." + f) == Some(DecimalValue(d, f))
  {
    var t := d + "." + f;
    PointAfter(d, f);
    assert t[..|d|] == d && t[|d| + 1..] == f;
    assert t[0] == d[0];
    assert ParseUnsigned(t) == Some(DecimalValue(d, f));
  }

  /** `d,f` over digit runs is stripped numeric text whose `,` becomes a `.` when replaced. */
  lemma CommaText(d: string, f: string)
    requires IsDigitString(d) && IsDigitString(f)
    ensures NumericText(d + "," + f) && IsStripped(d + "," + f)
    ensures ReplaceChar(d + "," + f, ',', '.') == d + "." + f
  {
    DigitsUnchanged(d);
    DigitsUnchanged(f);
    NumericTextConcat(d, ",");
    NumericTextConcat(d + ",", f);
    assert (d + "," + f)[0] == d[0] && (d + "," + f)[|d + "," + f| - 1] == f[|f| - 1];
    ReplaceConcat(d, ",", ',', '.');
    ReplaceConcat(d + ",", f, ',', '.');
    assert ReplaceChar(",", ',', '.') == ".";
  }

  /** `d,f` with two digit runs is cleaned to `d.f`. */
  lemma CleanCommaDecimal(d: string, f: string)
    requires IsDigitString(d) && IsDigitString(f)
    ensures CleanNumber(d + "," + f) == d + "." + f
  {
    CommaText(d, f);
    CleanNumericText(d + "," + f);
  }

  /** `"<digits>,<digits>"` becomes the decimal number it writes in Brazilian notation. */
  lemma CommaDecimal(d: string, f: string)
    requires IsDigitString(d) && IsDigitString(f)
    ensures ToAmount(AsText(d + "," + f)) == DecimalValue(d, f)
  {
    CleanCommaDecimal(d, f);
    ParsePointDecimal(d, f);
  }

  /** `"d.f"`, already in point notation, becomes the decimal number it writes. */
  lemma PointDecimal(d: string, f: string)
    requires IsDigitString(d) && IsDigitString(f)
    ensures ToAmount(AsText(d + "." + f)) == DecimalValue(d, f)
  {
    var t := d + "." + f;
    PointText(d, f);
    CleanNumericText(t);
    NoCommaUnchanged(t);
    ParsePointDecimal(d, f);
  }

  /** `d.f` over digit runs is stripped numeric text without a comma. */
  lemma PointText(d: string, f: string)
    requires IsDigitString(d) && IsDigitString(f)
    ensures NumericText(d + "." + f) && IsStripped(d + "." + f) && ',' !in d + "." + f
  {
    var t := d + "." + f;
    DigitsUnchanged(d);
    DigitsUnchanged(f);
    NumericTextConcat(d, ".");
    NumericTextConcat(d + ".", f);
    assert t[0] == d[0] && t[|t| - 1] == f[|f| - 1];
  }

  lemma NoCommaUnchanged(t: string)
    requires ',' !in t
    ensures ReplaceChar(t, ',', '.') == t
  {
  }

  /** `"-d,f"` becomes the negative of the number `d,f` writes. */
  lemma SignedCommaDecimal(d: string, f: string)
    requires IsDigitString(d) && IsDigitString(f)
    ensures ToAmount(AsText("-" + (d + "," + f))) == -DecimalValue(d, f)
  {
    SignedClean(d, f);
    UnsignedPointDecimal(d, f);
    ParseNegated(d + "." + f);
  }

  /** `d.f` with two digit runs is an unsigned numeral worth the number it writes. */
  lemma UnsignedPointDecimal(d: string, f: string)
    requires IsDigitString(d) && IsDigitString(f)
    ensures ParseUnsigned(d + "." + f) == Some(DecimalValue(d, f))
  {
    ParsePointDecimal(d, f);
    assert (d + "." + f)[0] == d[0];
  }

  /** A `-` in front of an unsigned numeral negates it. */
  lemma ParseNegated(v: string)
    requires ParseUnsigned(v).Some?
    ensures ParseDecimal("-" + v) == Some(-ParseUnsigned(v).value)
  {
    assert ("-" + v)[1..] == v;
  }

  /** `-d,f` is cleaned to `-d.f`. */
  lemma SignedClean(d: string, f: string)
    requires IsDigitString(d) && IsDigitString(f)
    ensures CleanNumber("-" + (d + "," + f)) == "-" + (d + "." + f)
  {
    var m := d + "," + f;
    CommaText(d, f);
    SignedText(m);
    CleanNumericText("-" + m);
    ReplaceSigned(m);
  }

  lemma ReplaceSigned(m: string)
    ensures ReplaceChar("-" + m, ',', '.') == "-" + ReplaceChar(m, ',', '.')
  {
    ReplaceConcat("-", m, ',', '.');
    assert ReplaceChar("-", ',', '.') == "-";
  }

  /** A `-` in front of stripped numeric text keeps it stripped numeric text. */
  lemma SignedText(m: string)
    requires |m| > 0 && NumericText(m) && IsStripped(m)
    ensures NumericText("-" + m) && IsStripped("-" + m)
  {
    var t := "-" + m;
    NumericTextConcat("-", m);
    assert t[|t| - 1] == m[|m| - 1];
  }

  /** Characters the cleaning drops: neither a digit, `.`, `-` nor `,`. */
  predicate NoNumericText(x: string) {
    forall i :: 0 <= i < |x| ==> !IsNumericChar(x[i]) && x[i] != ','
  }

  /**
   * A label in front of the number, such as `"R$ "`, is dropped: `x + "d,f"` becomes the number
   * `d,f` writes when `x` holds no digit, `.`, `-` or `,`.
   */
  lemma PrefixedCommaDecimal(x: string, d: string, f: string)
    requires NoNumericText(x)
    requires IsDigitString(d) && IsDigitString(f)
    ensures ToAmount(AsText(x + (d + "," + f))) == DecimalValue(d, f)
  {
    var m := d + "," + f;
    CommaText(d, f);
    CleanPrefixed(x, m);
    CleanCommaDecimal(d, f);
    ParsePointDecimal(d, f);
  }

  /** Cleaning `x + m` drops `x` entirely when `x` holds nothing numeric and `m` is stripped and non-empty. */
  lemma CleanPrefixed(x: string, m: string)
    requires NoNumericText(x)
    requires |m| > 0 && IsStripped(m)
    ensures CleanNumber(x + m) == CleanNumber(m)
  {
    StripPrefixed(x, m);
    var y := x[LeadingSpaces(x)..];
    assert NoNumericText(y);
    ReplaceConcat(y, m, ',', '.');
    NoCommaUnchanged(y);
    KeepNumericCharsConcat(y, ReplaceChar(m, ',', '.'));
    DropNonNumeric(y);
  }

  /** Text without digits, `.`, `-` or `,` is filtered away entirely. */
  lemma {:induction false} DropNonNumeric(y: string)
    requires NoNumericText(y)
    ensures KeepNumericChars(y) == ""
    decreases |y|
  {
    if y != [] {
      DropNonNumeric(y[1..]);
    }
  }

  /** Stripping `x + m`, when `m` starts and ends with a non-space, drops only the leading whitespace of `x`. */
  lemma StripPrefixed(x: string, m: string)
    requires |m| > 0 && !IsSpace(m[0]) && !IsSpace(m[|m| - 1])
    ensures Strip(x + m) == x[LeadingSpaces(x)..] + m
  {
    var s := x + m;
    var l := LeadingSpaces(x);
    LeadingSpacesPrefixed(x, m);
    assert s[|s| - |m|..] == m;
    NoTrailingSpaces(s, m);
    StripFrom(s, l);
    SliceConcat(x, m, l);
  }

  lemma SliceConcat(x: string, m: string, l: nat)
    requires l <= |x|
    ensures (x + m)[l..] == x[l..] + m
  {
  }

  /** Without trailing whitespace, stripping drops the leading whitespace only. */
  lemma StripFrom(s: string, l: nat)
    requires l == LeadingSpaces(s) && l < |s| && TrailingSpaces(s) == 0
    ensures Strip(s) == s[l..]
  {
  }

  lemma NoTrailingSpaces(s: string, m: string)
    requires |m| > 0 && !IsSpace(m[|m| - 1]) && |s| >= |m| && s[|s| - |m|..] == m
    ensures TrailingSpaces(s) == 0
  {
    assert s[|s| - 1] == m[|m| - 1];
  }

  lemma {:induction false} LeadingSpacesPrefixed(x: string, m: string)
    requires |m| > 0 && !IsSpace(m[0])
    ensures LeadingSpaces(x + m) == LeadingSpaces(x)
    decreases |x|
  {
    if x == [] {
      assert x + m == m;
    } else {
      assert (x + m)[0] == x[0];
      assert (x + m)[1..] == x[1..] + m;
      LeadingSpacesPrefixed(x[1..], m);
    }
  }

  /** `"10,50"` becomes 10.50. */
  lemma TenFifty()
    ensures ToAmount(AsText("10,50")) == 10.5
  {
    assert "10" + "," + "50" == "10,50";
    CommaDecimal("10", "50");
    TenFiftyValue();
  }

  /** `"R$ 10,50"`, with its currency label, also becomes 10.50. */
  lemma CurrencyLabel()
    ensures ToAmount(AsText("R$ 10,50")) == 10.5
  {
    assert "R$ " + ("10" + "," + "50") == "R$ 10,50";
    PrefixedCommaDecimal("R$ ", "10", "50");
    TenFiftyValue();
  }

  lemma TenFiftyValue()
    ensures DecimalValue("10", "50") == 10.5
  {
    assert DigitsValue("10") == 10 by { assert "10"[..1] == "1"; }
    assert DigitsValue("50") == 50 by { assert "50"[..1] == "5"; }
    assert Pow10(2) == 100;
  }

  /** Digits, `.`, `-` and `,` only: the text `CleanNumericText` applies to. */
  predicate NumericText(s: string) {
    forall i :: 0 <= i < |s| ==> IsNumericChar(s[i]) || s[i] == ','
  }

  lemma NumericTextConcat(x: string, y: string)
    requires NumericText(x) && NumericText(y)
    ensures NumericText(x + y)
  {
    forall i | 0 <= i < |x + y|
      ensures IsNumericChar((x + y)[i]) || (x + y)[i] == ','
    {
      if i < |x| { assert (x + y)[i] == x[i]; } else { assert (x + y)[i] == y[i - |x|]; }
    }
  }

  lemma ReplaceConcat(x: string, y: string, a: char, b: char)
    ensures ReplaceChar(x + y, a, b) == ReplaceChar(x, a, b) + ReplaceChar(y, a, b)
  {
    var l, r := ReplaceChar(x + y, a, b), ReplaceChar(x, a, b) + ReplaceChar(y, a, b);
    forall i | 0 <= i < |l|
      ensures l[i] == r[i]
    {
      if i < |x| { assert (x + y)[i] == x[i]; } else { assert (x + y)[i] == y[i - |x|]; }
    }
  }

  /** Digits are numeric text, and cleaning leaves them alone. */
  lemma DigitsUnchanged(d: string)
    requires AllDigits(d)
    ensures NumericText(d) && ReplaceChar(d, ',', '.') == d
  {
  }

  /** The separators of `a.b,c` are both points once every `,` is replaced. */
  lemma ReplaceThousands(a: string, b: string, c: string)
    requires AllDigits(a) && AllDigits(b) && AllDigits(c)
    ensures ReplaceChar(a + "." + b + "," + c, ',', '.') == a + "." + (b + "." + c)
  {
    var p, q, s := a + ".", a + "." + b, a + "." + b + ",";
    DigitsUnchanged(a);
    DigitsUnchanged(b);
    DigitsUnchanged(c);
    ReplaceConcat(a, ".", ',', '.');
    ReplaceConcat(p, b, ',', '.');
    ReplaceConcat(q, ",", ',', '.');
    ReplaceConcat(s, c, ',', '.');
    assert ReplaceChar(",", ',', '.') == ".";
    assert ReplaceChar(".", ',', '.') == ".";
    Regroup(a, ".", b, ".", c);
  }

  /** `a.b,c` over digit runs is stripped numeric text. */
  lemma NumericThousands(a: string, b: string, c: string)
    requires IsDigitString(a) && IsDigitString(b) && IsDigitString(c)
    ensures NumericText(a + "." + b + "," + c) && IsStripped(a + "." + b + "," + c)
  {
    var p, q, s := a + ".", a + "." + b, a + "." + b + ",";
    DigitsUnchanged(a);
    DigitsUnchanged(b);
    DigitsUnchanged(c);
    NumericTextConcat(a, ".");
    NumericTextConcat(p, b);
    NumericTextConcat(q, ",");
    NumericTextConcat(s, c);
    assert (s + c)[0] == a[0] && (s + c)[|s + c| - 1] == c[|c| - 1];
  }

  /** Text with a point and then a comma between digit runs keeps both separators, as two points. */
  lemma CleanThousands(a: string, b: string, c: string)
    requires IsDigitString(a) && IsDigitString(b) && IsDigitString(c)
    ensures CleanNumber(a + "." + b + "," + c) == a + "." + (b + "." + c)
  {
    NumericThousands(a, b, c);
    CleanNumericText(a + "." + b + "," + c);
    ReplaceThousands(a, b, c);
  }

  lemma Regroup<T>(a: seq<T>, b: seq<T>, c: seq<T>, d: seq<T>, e: seq<T>)
    ensures a + b + c + d + e == a + b + (c + d + e)
  {
  }

  /** A numeral with two points does not parse. */
  lemma TwoPointsRejected(a: string, b: string, c: string)
    requires IsDigitString(a) && IsDigitString(b) && IsDigitString(c)
    ensures ParseDecimal(a + "." + (b + "." + c)).None?
  {
    var t := a + "." + (b + "." + c);
    PointAfter(a, b + "." + c);
    assert t[|a| + 1..] == b + "." + c;
    assert (b + "." + c)[|b|] == '.';
    assert t[0] == a[0];
  }

  /**
   * A thousands separator defeats the parser: `"1.234,56"` is cleaned to `"1.234.56"`, which
   * `float()` rejects, so the amount becomes 0.
   */
  lemma ThousandsSeparatorGivesZero(a: string, b: string, c: string)
    requires IsDigitString(a) && IsDigitString(b) && IsDigitString(c)
    ensures ToAmount(AsText(a + "." + b + "," + c)) == 0.0
  {
    CleanThousands(a, b, c);
    TwoPointsRejected(a, b, c);
  }

  // ---------------------------------------------------------------------------------------------
  // The record and its construction

  datatype Produto = Produto(
    codigo_ncm: string,
    valor_liquido: real,
    cod_produto: string,
    cod_gtin: Option<string>,
    valor_total: real,
    descricao: Option<string>,
    quantidade: Option<real>)

  /** The arguments of a `Produto(...)` call, before `__post_init__` runs. */
  datatype ProdutoArgs = ProdutoArgs(
    codigo_ncm: string,
    valor_liquido: NumberArg,
    cod_produto: string,
    cod_gtin: Option<string>,
    valor_total: NumberArg,
    descricao: Option<string> := None,
    quantidade: Option<NumberArg> := None)

  /** `x.strip()` applied only when `x` is truthy: None and `''` stay as they are. */
  function StripIfPresent(x: Option<string>): (r: Option<string>)
    ensures x.None? ==> r.None?
    ensures x == Some("") ==> r == Some("")
    ensures x.Some? ==> r.Some? && IsStripped(r.value)
    ensures IsFilled(x) ==> r == Some(Strip(x.value))
  {
    if x.Some? && x.value != "" then Some(Strip(x.value)) else x
  }

  /**
   * `Produto(...)` followed by `__post_init__`: the amounts are converted, the quantity only when
   * given; the NCM and product codes are always stripped; the GTIN and the description are
   * stripped only when non-empty.
   */
  function NewProduto(a: ProdutoArgs): (p: Produto)
    ensures IsStripped(p.codigo_ncm) && IsStripped(p.cod_produto)
    ensures p.codigo_ncm == Strip(a.codigo_ncm) && p.cod_produto == Strip(a.cod_produto)
    ensures p.cod_gtin == StripIfPresent(a.cod_gtin) && p.descricao == StripIfPresent(a.descricao)
    ensures a.cod_gtin.None? ==> p.cod_gtin.None?
    ensures a.descricao.None? ==> p.descricao.None?
    ensures a.cod_gtin.Some? ==> p.cod_gtin.Some? && IsStripped(p.cod_gtin.value)
    ensures a.descricao.Some? ==> p.descricao.Some? && IsStripped(p.descricao.value)
    ensures p.quantidade.Some? <==> a.quantidade.Some?
    ensures p.valor_liquido == ToAmount(a.valor_liquido) && p.valor_total == ToAmount(a.valor_total)
    ensures a.quantidade.Some? ==> p.quantidade == Some(ToAmount(a.quantidade.value))
  {
    Produto(
      codigo_ncm := Strip(a.codigo_ncm),
      valor_liquido := ToAmount(a.valor_liquido),
      cod_produto := Strip(a.cod_produto),
      cod_gtin := StripIfPresent(a.cod_gtin),
      valor_total := ToAmount(a.valor_total),
      descricao := StripIfPresent(a.descricao),
      quantidade := if a.quantidade.Some? then Some(ToAmount(a.quantidade.value)) else None)
  }

  /**
   * `__post_init__` as the source runs it, reassigning the fields one after the other: first the
   * amounts (the quantity only when given), then the codes and texts.
   */
  method PostInit(a: ProdutoArgs) returns (p: Produto)
    ensures p == NewProduto(a)
  {
    p := Produto(a.codigo_ncm, 0.0, a.cod_produto, a.cod_gtin, 0.0, a.descricao, None);
    p := p.(valor_liquido := ToAmount(a.valor_liquido));
    p := p.(valor_total := ToAmount(a.valor_total));
    if a.quantidade.Some? {
      p := p.(quantidade := Some(ToAmount(a.quantidade.value)));
    }
    p := p.(codigo_ncm := Strip(p.codigo_ncm));
    p := p.(cod_produto := Strip(p.cod_produto));
    if p.cod_gtin.Some? && p.cod_gtin.value != "" {
      p := p.(cod_gtin := Some(Strip(p.cod_gtin.value)));
    }
    if p.descricao.Some? && p.descricao.value != "" {
      p := p.(descricao := Some(Strip(p.descricao.value)));
    }
  }

  // ---------------------------------------------------------------------------------------------
  // validar

  /** The errors `validar` reports; their messages embed the offending value. */
  datatype ProdutoError =
    | NcmInvalido(ncm: string)
    | ValorLiquidoNegativo(valor: real)
    | ValorTotalNegativo(valor: real)
    | QuantidadeInvalida(quantidade: real)
    | CodigoProdutoVazio

  /** The message of an error; `show` renders a float as Python's `str()` does. */
  function Message(e: ProdutoError, show: real -> string): string {
    match e
    case NcmInvalido(ncm) => "NCM inválido: " + ncm + " (deve ter 8 dígitos)"
    case ValorLiquidoNegativo(v) => "Valor líquido negativo: " + show(v)
    case ValorTotalNegativo(v) => "Valor total negativo: " + show(v)
    case QuantidadeInvalida(q) => "Quantidade inválida: " + show(q)
    case CodigoProdutoVazio => "Código do produto está vazio"
  }

  predicate NcmOk(ncm: string) {
    IsDigitString(ncm) && |ncm| == 8
  }

  /** A check of `validar`: its error when the condition holds, nothing otherwise. */
  function Check(fails: bool, e: ProdutoError): (errs: seq<ProdutoError>)
    ensures e in errs <==> fails
    ensures |errs| <= 1
  {
    if fails then [e] else []
  }

  /**
   * The error list of `validar`, in the order the checks run: NCM, net value, total value,
   * quantity, product code.
   */
  function Errors(p: Produto): (errs: seq<ProdutoError>)
    ensures |errs| <= 5
  {
    Check(!NcmOk(p.codigo_ncm), NcmInvalido(p.codigo_ncm))
    + Check(p.valor_liquido < 0.0, ValorLiquidoNegativo(p.valor_liquido))
    + Check(p.valor_total < 0.0, ValorTotalNegativo(p.valor_total))
    + Check(p.quantidade.Some? && p.quantidade.value <= 0.0, QuantidadeInvalida(p.quantidade.GetOr(0.0)))
    + Check(p.cod_produto == "", CodigoProdutoVazio)
  }

  /** The NCM and amount checks report their errors exactly when they fail, and an NCM error is reported first. */
  lemma ErrorsReportFailedChecks(p: Produto)
    ensures NcmInvalido(p.codigo_ncm) in Errors(p) <==> !NcmOk(p.codigo_ncm)
    ensures !NcmOk(p.codigo_ncm) ==> Errors(p)[0] == NcmInvalido(p.codigo_ncm)
    ensures ValorLiquidoNegativo(p.valor_liquido) in Errors(p) <==> p.valor_liquido < 0.0
    ensures ValorTotalNegativo(p.valor_total) in Errors(p) <==> p.valor_total < 0.0
  {
  }

  /** The quantity check reports only a quantity that is present, and the code check an empty code. */
  lemma ErrorsReportQuantityAndCode(p: Produto)
    ensures p.quantidade.Some? ==> (QuantidadeInvalida(p.quantidade.value) in Errors(p) <==> p.quantidade.value <= 0.0)
    ensures p.quantidade.None? ==> forall e :: e in Errors(p) ==> !e.QuantidadeInvalida?
    ensures CodigoProdutoVazio in Errors(p) <==> p.cod_produto == ""
  {
  }

  /** `validar`'s verdict: an item is valid when no check fails. */
  predicate IsValid(p: Produto) {
    Errors(p) == []
  }

  /** Validity in the terms of the checks themselves. */
  lemma ValidIff(p: Produto)
    ensures IsValid(p) <==>
      && NcmOk(p.codigo_ncm)
      && p.valor_liquido >= 0.0
      && p.valor_total >= 0.0
      && (p.quantidade.None? || p.quantidade.value > 0.0)
      && p.cod_produto != ""
  {
  }

  /** Two negative amounts give two distinct errors. */
  lemma BothNegative(p: Produto)
    requires p.valor_liquido < 0.0 && p.valor_total < 0.0
    ensures |Errors(p)| >= 2
  {
  }

  /** `validar`: builds the error list check by check; the item is valid iff the list is empty. */
  method Validar(p: Produto) returns (valido: bool, erros: seq<ProdutoError>)
    ensures erros == Errors(p)
    ensures valido <==> erros == []
  {
    ghost var c1 := Check(!NcmOk(p.codigo_ncm), NcmInvalido(p.codigo_ncm));
    ghost var c2 := Check(p.valor_liquido < 0.0, ValorLiquidoNegativo(p.valor_liquido));
    ghost var c3 := Check(p.valor_total < 0.0, ValorTotalNegativo(p.valor_total));
    ghost var c4 := Check(p.quantidade.Some? && p.quantidade.value <= 0.0, QuantidadeInvalida(p.quantidade.GetOr(0.0)));
    ghost var c5 := Check(p.cod_produto == "", CodigoProdutoVazio);
    erros := [];
    if !IsDigitString(p.codigo_ncm) || |p.codigo_ncm| != 8 {
      erros := erros + [NcmInvalido(p.codigo_ncm)];
    }
    assert erros == c1;
    if p.valor_liquido < 0.0 {
      erros := erros + [ValorLiquidoNegativo(p.valor_liquido)];
    }
    assert erros == c1 + c2;
    if p.valor_total < 0.0 {
      erros := erros + [ValorTotalNegativo(p.valor_total)];
    }
    assert erros == c1 + c2 + c3;
    if p.quantidade.Some? && p.quantidade.value <= 0.0 {
      erros := erros + [QuantidadeInvalida(p.quantidade.value)];
    }
    assert erros == c1 + c2 + c3 + c4;
    if p.cod_produto == "" {
      erros := erros + [CodigoProdutoVazio];
    }
    assert erros == c1 + c2 + c3 + c4 + c5;
    valido := |erros| == 0;
  }

  // ---------------------------------------------------------------------------------------------
  // to_dict

  /** The keys of `to_dict`, in order. */
  const ProdutoKeys: seq<string> :=
    ["Codigo_NCM", "Valor_Liquido", "Cod_Produto", "Cod_GTIN", "Valor_Total", "Descricao", "Quantidade"]

  /** `to_dict`: the seven fields under their column names; an absent GTIN, description or quantity becomes `''`. */
  function ToDict(p: Produto): (d: Dict<Cell>)
    ensures KeysOf(d) == ProdutoKeys
    ensures d[0].1 == Str(p.codigo_ncm) && d[2].1 == Str(p.cod_produto)
    ensures d[1].1 == Num(p.valor_liquido) && d[4].1 == Num(p.valor_total)
    ensures d[3].1 == Str(if p.cod_gtin.Some? then p.cod_gtin.value else "")
    ensures d[5].1 == Str(if p.descricao.Some? then p.descricao.value else "")
    ensures d[6].1 == (if p.quantidade.Some? then Num(p.quantidade.value) else Str(""))
  {
    [
      ("Codigo_NCM", Str(p.codigo_ncm)),
      ("Valor_Liquido", Num(p.valor_liquido)),
      ("Cod_Produto", Str(p.cod_produto)),
      ("Cod_GTIN", Str(p.cod_gtin.GetOr(""))),
      ("Valor_Total", Num(p.valor_total)),
      ("Descricao", Str(p.descricao.GetOr(""))),
      ("Quantidade", if p.quantidade.Some? then Num(p.quantidade.value) else Str(""))]
  }

  /** The seven keys are distinct. */
  lemma KeysDistinct()
    ensures |ProdutoKeys| == 7 && Distinct(ProdutoKeys)
  {
  }
}
