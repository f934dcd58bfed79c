/**
 * `WebScraperService` (src/services/web_scraper_service.py): the browser session that looks a
 * receipt up on the tax portal and reads it.
 *
 * The browser is not modelled: a `Page` value stands for what the portal shows (which elements
 * exist, with which text, which can be clicked, the product table). The service object keeps the
 * handle of the browser it drives, the handles it has called `quit` on, and the portal actions it
 * has performed, so that the session's step order, its early exits and the release of the browser
 * can be stated.
 */
module Scraper {
  import opened Wrappers
  import opened Text
  import opened Seqs
  import opened EmitenteModel
  import opened ConsumidorModel
  import opened CupomModel
  import opened LocalEntregaModel
  import opened ProdutoModel
  import opened CupomCompletoModel

  // ---------------------------------------------------------------------------------------------
  // The portal, as an oracle

  /** The page elements the service looks up by id; `HtmlId` gives each one's id in the page. */
  datatype ElementId =
    | KeyField | ConsultButton | DetailsButton | DeliveryTab | ProductsTab
    | IeEmitente | ImEmitente | NumeroCfe | RazaoSocial | NomeEmitente | CnpjEmitente | EnderecoEmitente
    | BairroEmitente | CepEmitente | MunicipioEmitente
    | CpfConsumidor
    | Total | MeiosPagamento | CupomDetalhe2 | Total12741 | DataEmissao | IdCfe
    | EntregaEndereco | EntregaBairro | EntregaMunicipio | EntregaUF | CfeNumero | ChaveAcesso
    | ProdutoNcm(row: nat) | ProdutoDesc(row: nat) | ProdutoQtd(row: nat) | ProdutoValorLiquido(row: nat)

  function HtmlId(e: ElementId): string {
    match e
    case KeyField => "conteudo_txtChaveAcesso"
    case ConsultButton => "conteudo_btnConsultar"
    case DetailsButton => "conteudo_btnDetalhes"
    case DeliveryTab => "conteudo_tabEmissao"
    case ProductsTab => "conteudo_tabProdutoServico"
    case IeEmitente => "conteudo_lblIeEmitente"
    case ImEmitente => "conteudo_lblImEmintente"
    case NumeroCfe => "conteudo_lblNumeroCfe"
    case RazaoSocial => "conteudo_lblRazaoSocial"
    case NomeEmitente => "conteudo_lblNomeEmitente"
    case CnpjEmitente => "conteudo_lblCnpjEmitente"
    case EnderecoEmitente => "conteudo_lblEnderecoEmintente"
    case BairroEmitente => "conteudo_lblBairroEmitente"
    case CepEmitente => "conteudo_lblCepEmitente"
    case MunicipioEmitente => "conteudo_lblMunicipioEmitente"
    case CpfConsumidor => "conteudo_lblCpfConsumidor"
    case Total => "conteudo_lblTotal"
    case MeiosPagamento => "conteudo_DivMeiosPagamento"
    case CupomDetalhe2 => "CupomDetalhe2"
    case Total12741 => "conteudo_lblTotal12741"
    case DataEmissao => "conteudo_lblDataEmissao"
    case IdCfe => "conteudo_lblIdCfe"
    case EntregaEndereco => "conteudo_lblDadosLocalEntregaEndereco"
    case EntregaBairro => "conteudo_lblDadosLocalEntregaBairro"
    case EntregaMunicipio => "conteudo_lblDadosLocalEntregaMunicipio"
    case EntregaUF => "conteudo_lblDadosLocalEntregaUF"
    case CfeNumero => "conteudo_lblCfeNumero"
    case ChaveAcesso => "conteudo_lblChaveAcesso"
    case ProdutoNcm(k) => "conteudo_grvProdutosServicos_lblProdutoServicoNcm_" + NatToString(k)
    case ProdutoDesc(k) => "conteudo_grvProdutosServicos_lblProdutoServicoDesc_" + NatToString(k)
    case ProdutoQtd(k) => "conteudo_grvProdutosServicos_lblProdutoServicoQtd_" + NatToString(k)
    case ProdutoValorLiquido(k) => "conteudo_grvProdutosServicos_lblProdutoServicoIcmsValorLiquidoItem_" + NatToString(k)
  }

  /** What the portal offers to one session. */
  datatype Page = Page(
    canLaunch: bool,                   // the browser starts
    reachable: bool,                   // the portal address loads
    elements: map<ElementId, string>,  // each element present -> its text
    clickable: set<ElementId>,         // the elements that become clickable within the wait
    detailsByValue: bool,              // an `input[value='Detalhes']` becomes clickable
    submitValues: seq<string>,         // the `value` of each `input[type='submit']`, in page order
    table: Option<seq<seq<string>>>)   // the product table's rows (header first), as their cell texts

  const DetailsValue := "Detalhes"

  /** Which fields to read (src/config/campos_extracao.py); every flag is on by default. */
  datatype EmitenteConfig = EmitenteConfig(
    ie: bool := true, im: bool := true, extrato_numero: bool := true, sat_numero: bool := true,
    nome: bool := true, cnpj: bool := true, endereco: bool := true, bairro: bool := true,
    cep: bool := true, uf: bool := true)

  datatype ConsumidorConfig = ConsumidorConfig(ativo: bool := true, cpf_cnpj: bool := true, nome: bool := true)

  datatype CupomConfig = CupomConfig(
    total: bool := true, forma_pagamento: bool := true, troco: bool := true, tributos: bool := true,
    data_hora: bool := true, qr_code: bool := true)

  datatype LocalEntregaConfig = LocalEntregaConfig(
    ativo: bool := true, endereco: bool := true, bairro: bool := true, municipio: bool := true,
    uf: bool := true, numero_cfe: bool := true, chave_acesso: bool := true)

  /** Only `ativo` of the product flags is consulted; the per-field ones are never read. */
  datatype ProdutosConfig = ProdutosConfig(ativo: bool := true)

  datatype Config = Config(
    emitente: EmitenteConfig := EmitenteConfig(),
    consumidor: ConsumidorConfig := ConsumidorConfig(),
    cupom: CupomConfig := CupomConfig(),
    localEntrega: LocalEntregaConfig := LocalEntregaConfig(),
    produtos: ProdutosConfig := ProdutosConfig())

  /**
   * A field read from the page: the stripped text of element `id` when its flag is on and the
   * element exists; None otherwise.
   */
  function Captured(flag: bool, page: Page, id: ElementId): (v: Option<string>)
  {
    if flag && id in page.elements then Some(Strip(page.elements[id])) else None
  }

  /** A captured field is present exactly when its flag is on and its element exists, and it is then whitespace-free at both ends. */
  lemma CapturedText(flag: bool, page: Page, id: ElementId)
    ensures Captured(flag, page, id).Some? <==> flag && id in page.elements
    ensures Captured(flag, page, id).Some? ==> IsStripped(Captured(flag, page, id).value)
  {
  }

  // ---------------------------------------------------------------------------------------------
  // The first screen: issuer, buyer, sale

  /** The elements of the issuer fields, in field order; the SAT number is read from the company-name label and the state from the municipality label. */
  const EmitenteIds: seq<ElementId> := [
    IeEmitente, ImEmitente, NumeroCfe, RazaoSocial, NomeEmitente, CnpjEmitente, EnderecoEmitente,
    BairroEmitente, CepEmitente, MunicipioEmitente]

  function EmitenteFlags(c: EmitenteConfig): seq<bool> {
    [c.ie, c.im, c.extrato_numero, c.sat_numero, c.nome, c.cnpj, c.endereco, c.bairro, c.cep, c.uf]
  }

  /** The issuer `extrair_emitente` returns. */
  function EmitenteOf(page: Page, c: EmitenteConfig): Emitente {
    Emitente(
      ie := Captured(c.ie, page, IeEmitente), im := Captured(c.im, page, ImEmitente),
      extrato_numero := Captured(c.extrato_numero, page, NumeroCfe),
      sat_numero := Captured(c.sat_numero, page, RazaoSocial),
      nome := Captured(c.nome, page, NomeEmitente), cnpj := Captured(c.cnpj, page, CnpjEmitente),
      endereco := Captured(c.endereco, page, EnderecoEmitente), bairro := Captured(c.bairro, page, BairroEmitente),
      cep := Captured(c.cep, page, CepEmitente), uf := Captured(c.uf, page, MunicipioEmitente))
  }

  /** Each issuer field is `Captured` from its own flag and element: the stripped text when the flag is on and the element exists, otherwise None. */
  lemma EmitenteFieldsCaptured(page: Page, c: EmitenteConfig, i: nat)
    requires i < 10
    ensures EmitenteModel.Fields(EmitenteOf(page, c))[i] == Captured(EmitenteFlags(c)[i], page, EmitenteIds[i])
  {
    if i < 5 {
    } else {
    }
  }

  /** The buyer `extrair_consumidor` returns: None when switched off or when nothing was captured. */
  function ConsumidorOf(page: Page, c: ConsumidorConfig): (r: Option<Consumidor>)
    ensures !c.ativo ==> r.None?
    ensures r.Some? ==> ConsumidorModel.EstaPresente(r.value)
    ensures r.Some? ==> r.value == Consumidor(Captured(c.cpf_cnpj, page, CpfConsumidor), Captured(c.nome, page, RazaoSocial))
    ensures c.ativo && (IsFilled(Captured(c.cpf_cnpj, page, CpfConsumidor)) || IsFilled(Captured(c.nome, page, RazaoSocial))) ==> r.Some?
  {
    if !c.ativo then None
    else
      var consumidor := Consumidor(Captured(c.cpf_cnpj, page, CpfConsumidor), Captured(c.nome, page, RazaoSocial));
      if ConsumidorModel.EstaPresente(consumidor) then Some(consumidor) else None
  }

  const CupomIds: seq<ElementId> := [Total, MeiosPagamento, CupomDetalhe2, Total12741, DataEmissao, IdCfe]

  function CupomFlags(c: CupomConfig): seq<bool> {
    [c.total, c.forma_pagamento, c.troco, c.tributos, c.data_hora, c.qr_code]
  }

  /** The sale data `extrair_cupom` returns. */
  function CupomOf(page: Page, c: CupomConfig): Cupom {
    Cupom(
      total := Captured(c.total, page, Total), forma_pagamento := Captured(c.forma_pagamento, page, MeiosPagamento),
      troco := Captured(c.troco, page, CupomDetalhe2), tributos := Captured(c.tributos, page, Total12741),
      data_hora := Captured(c.data_hora, page, DataEmissao), qr_code := Captured(c.qr_code, page, IdCfe))
  }

  /** Each sale field is `Captured` from its own flag and element: the stripped text when the flag is on and the element exists, otherwise None. */
  lemma CupomFieldsCaptured(page: Page, c: CupomConfig, i: nat)
    requires i < 6
    ensures CupomModel.Fields(CupomOf(page, c))[i] == Captured(CupomFlags(c)[i], page, CupomIds[i])
  {
  }

  /** The issuer's SAT number and the buyer's name are read from the same element. */
  lemma SatNumberIsBuyerNameElement(page: Page, cfg: Config)
    requires cfg.emitente.sat_numero && cfg.consumidor.nome
    requires ConsumidorOf(page, cfg.consumidor).Some?
    ensures EmitenteOf(page, cfg.emitente).sat_numero == ConsumidorOf(page, cfg.consumidor).value.nome
  {
  }

  // ---------------------------------------------------------------------------------------------
  // The details screen: delivery location

  const LocalEntregaIds: seq<ElementId> :=
    [EntregaEndereco, EntregaBairro, EntregaMunicipio, EntregaUF, CfeNumero, ChaveAcesso]

  function LocalEntregaFlags(c: LocalEntregaConfig): seq<bool> {
    [c.endereco, c.bairro, c.municipio, c.uf, c.numero_cfe, c.chave_acesso]
  }

  /** The location read from the delivery tab. */
  function LocalEntregaFields(page: Page, c: LocalEntregaConfig): LocalEntrega {
    LocalEntrega(
      endereco := Captured(c.endereco, page, EntregaEndereco), bairro := Captured(c.bairro, page, EntregaBairro),
      municipio := Captured(c.municipio, page, EntregaMunicipio), uf := Captured(c.uf, page, EntregaUF),
      numero_cfe := Captured(c.numero_cfe, page, CfeNumero), chave_acesso := Captured(c.chave_acesso, page, ChaveAcesso))
  }

  /** Each location field is `Captured` from its own flag and element: the stripped text when the flag is on and the element exists, otherwise None. */
  lemma LocalEntregaFieldsCaptured(page: Page, c: LocalEntregaConfig, i: nat)
    requires i < 6
    ensures LocalEntregaModel.Fields(LocalEntregaFields(page, c))[i] == Captured(LocalEntregaFlags(c)[i], page, LocalEntregaIds[i])
  {
  }

  /**
   * The location `extrair_local_entrega` returns: None when switched off, when the tab cannot be
   * opened, or when neither address nor municipality was captured.
   */
  function LocalEntregaOf(page: Page, c: LocalEntregaConfig): (r: Option<LocalEntrega>)
    ensures !c.ativo || DeliveryTab !in page.clickable ==> r.None?
    ensures r.Some? ==> LocalEntregaModel.EstaPresente(r.value) && r.value == LocalEntregaFields(page, c)
    ensures c.ativo && DeliveryTab in page.clickable && LocalEntregaModel.EstaPresente(LocalEntregaFields(page, c)) ==> r == Some(LocalEntregaFields(page, c))
  {
    if !c.ativo || DeliveryTab !in page.clickable then None
    else
      var local := LocalEntregaFields(page, c);
      if LocalEntregaModel.EstaPresente(local) then Some(local) else None
  }

  // ---------------------------------------------------------------------------------------------
  // The "Detalhes" button

  /** How the button was found. */
  datatype DetailsButton = ById | ByValue | BySubmitScan(index: nat)

  /**
   * The lookup of `clicar_detalhes`: by id, then by the `value` selector, then the first submit
   * input whose value is `Detalhes`; the first strategy that finds one wins.
   */
  function DetailsLookup(page: Page): (b: Option<DetailsButton>)
    ensures b == Some(ById) <==> DetailsButton in page.clickable
    ensures b == Some(ByValue) <==> DetailsButton !in page.clickable && page.detailsByValue
    ensures b.Some? && b.value.BySubmitScan? ==>
      && DetailsButton !in page.clickable && !page.detailsByValue
      && b.value.index < |page.submitValues| && page.submitValues[b.value.index] == DetailsValue
      && DetailsValue !in page.submitValues[..b.value.index]
    ensures b.None? <==> DetailsButton !in page.clickable && !page.detailsByValue && DetailsValue !in page.submitValues
  {
    if DetailsButton in page.clickable then Some(ById)
    else if page.detailsByValue then Some(ByValue)
    else match IndexOf(page.submitValues, DetailsValue)
      case Some(i) => Some(BySubmitScan(i))
      case None => None
  }

  // ---------------------------------------------------------------------------------------------
  // The product table

  const NcmFallback := "00000000"
  const QtdFallback := "1,0000"
  const ValorFallback := "0,00"
  const GtinNotInformed := "Não Informado"

  /** The stripped text of element `id`, or `fallback` when it is missing. */
  function TextOr(page: Page, id: ElementId, fallback: string): (s: string)
    ensures id in page.elements ==> s == Strip(page.elements[id])
    ensures id !in page.elements ==> s == fallback
  {
    if id in page.elements then Strip(page.elements[id]) else fallback
  }

  /** The GTIN taken from a row's first cell: None without cells, for an empty cell or for `Não Informado`. */
  function GtinOf(cells: seq<string>): (g: Option<string>)
    ensures g.Some? ==> |cells| > 0 && g.value == Strip(cells[0]) && g.value != "" && g.value != GtinNotInformed
    ensures g.None? ==> |cells| == 0 || Strip(cells[0]) == "" || Strip(cells[0]) == GtinNotInformed
  {
    if |cells| == 0 then None
    else
      var g := Strip(cells[0]);
      if g == "" || g == GtinNotInformed then None else Some(g)
  }

  /** The item built from data row `idx` (counted from 1), each missing label replaced by its fallback. */
  function RowProduto(page: Page, cells: seq<string>, idx: nat): (p: Produto)
    requires idx >= 1
    ensures p.cod_produto == p.codigo_ncm && p.valor_total == p.valor_liquido
    ensures p.cod_gtin == GtinOf(cells)
    ensures p.codigo_ncm == Strip(TextOr(page, ProdutoNcm(idx - 1), NcmFallback))
  {
    var k := idx - 1;
    var ncm := TextOr(page, ProdutoNcm(k), NcmFallback);
    var descricao := TextOr(page, ProdutoDesc(k), "Produto " + NatToString(idx));
    var quantidade := TextOr(page, ProdutoQtd(k), QtdFallback);
    var valor := TextOr(page, ProdutoValorLiquido(k), ValorFallback);
    NewProduto(ProdutoArgs(
      codigo_ncm := ncm,
      valor_liquido := AsText(valor),
      cod_produto := ncm,
      cod_gtin := GtinOf(cells),
      valor_total := AsText(valor),
      descricao := Some(descricao),
      quantidade := Some(AsText(quantidade))))
  }

  /** A row's description, quantity and value: its labels' texts, or the fallbacks, as `__post_init__` converts them. */
  lemma RowProdutoAmounts(page: Page, cells: seq<string>, idx: nat)
    requires idx >= 1
    ensures var p := RowProduto(page, cells, idx);
      && p.descricao == Some(Strip(TextOr(page, ProdutoDesc(idx - 1), "Produto " + NatToString(idx))))
      && p.quantidade == Some(ToAmount(AsText(TextOr(page, ProdutoQtd(idx - 1), QtdFallback))))
      && p.valor_liquido == ToAmount(AsText(TextOr(page, ProdutoValorLiquido(idx - 1), ValorFallback)))
  {
  }

  /** The items built from the data rows, row `i` numbered `i + 1`. */
  function Candidates(page: Page, rows: seq<seq<string>>): (ps: seq<Produto>)
    ensures |ps| == |rows|
  {
    if rows == [] then []
    else Candidates(page, rows[..|rows| - 1]) + [RowProduto(page, rows[|rows| - 1], |rows|)]
  }

  /** One more data row appends its item. */
  lemma CandidatesSnoc(page: Page, rows: seq<seq<string>>, n: nat)
    requires 0 < n <= |rows|
    ensures Candidates(page, rows[..n]) == Candidates(page, rows[..n - 1]) + [RowProduto(page, rows[n - 1], n)]
  {
    assert rows[..n][..n - 1] == rows[..n - 1];
  }

  /** One more data row adds its item to the valid ones exactly when `validar` accepts it. */
  lemma ValidPrefixStep(page: Page, rows: seq<seq<string>>, n: nat)
    requires 0 < n <= |rows|
    ensures var p := RowProduto(page, rows[n - 1], n);
      KeepValid(Candidates(page, rows[..n])) == KeepValid(Candidates(page, rows[..n - 1])) + (if ProdutoModel.IsValid(p) then [p] else [])
  {
    CandidatesSnoc(page, rows, n);
    KeepValidAppend(Candidates(page, rows[..n - 1]), RowProduto(page, rows[n - 1], n));
  }

  /** Every candidate has its product code equal to its NCM and its total equal to its net value. */
  lemma {:induction false} CandidatesShape(page: Page, rows: seq<seq<string>>)
    ensures forall p :: p in Candidates(page, rows) ==> p.cod_produto == p.codigo_ncm && p.valor_total == p.valor_liquido
  {
    if rows != [] {
      CandidatesShape(page, rows[..|rows| - 1]);
    }
  }

  /** The items that pass `validar`, in their order. */
  function KeepValid(ps: seq<Produto>): (r: seq<Produto>)
    ensures |r| <= |ps|
  {
    if ps == [] then []
    else KeepValid(ps[..|ps| - 1]) + (if ProdutoModel.IsValid(ps[|ps| - 1]) then [ps[|ps| - 1]] else [])
  }

  /** The kept items are exactly the valid ones. */
  lemma {:induction false} KeepValidMembers(ps: seq<Produto>)
    ensures forall p :: p in KeepValid(ps) ==> p in ps && ProdutoModel.IsValid(p)
    ensures forall p :: p in ps && ProdutoModel.IsValid(p) ==> p in KeepValid(ps)
  {
    if ps != [] {
      var init := ps[..|ps| - 1];
      KeepValidMembers(init);
      assert ps == init + [ps[|ps| - 1]];
    }
  }

  /** Filtering one more item appends it exactly when it is valid. */
  lemma KeepValidAppend(ps: seq<Produto>, p: Produto)
    ensures KeepValid(ps + [p]) == KeepValid(ps) + (if ProdutoModel.IsValid(p) then [p] else [])
  {
    assert (ps + [p])[..|ps|] == ps;
  }

  /** The data rows: every row after the header. */
  function DataRows(rows: seq<seq<string>>): seq<seq<string>> {
    if |rows| == 0 then [] else rows[1..]
  }

  /** The items `extrair_produtos` returns: none without a table, otherwise the valid items of the data rows. */
  function ProductsOf(page: Page): (ps: seq<Produto>)
    ensures page.table.None? ==> ps == []
    ensures page.table.Some? ==> |ps| <= |DataRows(page.table.value)|
    ensures forall p :: p in ps ==> ProdutoModel.IsValid(p) && p.cod_produto == p.codigo_ncm && p.valor_total == p.valor_liquido
  {
    match page.table
    case None => []
    case Some(rows) =>
      CandidatesShape(page, DataRows(rows));
      KeepValidMembers(Candidates(page, DataRows(rows)));
      KeepValid(Candidates(page, DataRows(rows)))
  }

  /** `"0,00"`, the fallback value, is zero. */
  lemma ZeroFallback()
    ensures ToAmount(AsText(ValorFallback)) == 0.0
  {
    assert "0" + "," + "00" == ValorFallback;
    CommaDecimal("0", "00");
    ZeroDigits();
  }

  lemma ZeroDigits()
    ensures DecimalValue("0", "00") == 0.0
  {
    assert DigitsValue("0") == 0 by { assert "0"[..0] == ""; }
    assert DigitsValue("00") == 0 by { assert "00"[..1] == "0"; assert "0"[..0] == ""; }
  }

  /** `"1,0000"`, the fallback quantity, is one. */
  lemma OneFallback()
    ensures ToAmount(AsText(QtdFallback)) == 1.0
  {
    assert "1" + "," + "0000" == QtdFallback;
    CommaDecimal("1", "0000");
    OneDigits();
  }

  lemma OneDigits()
    ensures DecimalValue("1", "0000") == 1.0
  {
    assert DigitsValue("1") == 1 by { assert "1"[..0] == ""; }
    assert DigitsValue("0000") == 0 by {
      assert "0000"[..3] == "000";
      assert "000"[..2] == "00";
      assert "00"[..1] == "0";
      assert "0"[..0] == "";
    }
  }

  /**
   * A row whose NCM, quantity and value labels are all missing still gives a valid item: NCM
   * `00000000`, quantity 1 and value 0.
   */
  lemma FallbackRowIsValid(page: Page, cells: seq<string>, idx: nat)
    requires idx >= 1
    requires ProdutoNcm(idx - 1) !in page.elements && ProdutoQtd(idx - 1) !in page.elements && ProdutoValorLiquido(idx - 1) !in page.elements
    ensures var p := RowProduto(page, cells, idx);
      p.codigo_ncm == NcmFallback && p.quantidade == Some(1.0) && p.valor_liquido == 0.0 && ProdutoModel.IsValid(p)
  {
    FallbackRowFields(page, cells, idx);
    NcmFallbackOk();
    ValidIff(RowProduto(page, cells, idx));
  }

  lemma FallbackRowFields(page: Page, cells: seq<string>, idx: nat)
    requires idx >= 1
    requires ProdutoNcm(idx - 1) !in page.elements && ProdutoQtd(idx - 1) !in page.elements && ProdutoValorLiquido(idx - 1) !in page.elements
    ensures var p := RowProduto(page, cells, idx);
      p.codigo_ncm == NcmFallback && p.quantidade == Some(1.0) && p.valor_liquido == 0.0
  {
    FallbackNcm(page, cells, idx);
    FallbackQuantity(page, cells, idx);
    FallbackValue(page, cells, idx);
  }

  /** A missing NCM label reads as `00000000`. */
  lemma FallbackNcm(page: Page, cells: seq<string>, idx: nat)
    requires idx >= 1 && ProdutoNcm(idx - 1) !in page.elements
    ensures RowProduto(page, cells, idx).codigo_ncm == NcmFallback
  {
    assert IsStripped(NcmFallback);
  }

  /** A missing quantity label reads as `"1,0000"`, worth 1. */
  lemma FallbackQuantity(page: Page, cells: seq<string>, idx: nat)
    requires idx >= 1 && ProdutoQtd(idx - 1) !in page.elements
    ensures RowProduto(page, cells, idx).quantidade == Some(1.0)
  {
    RowProdutoAmounts(page, cells, idx);
    OneFallback();
  }

  /** A missing value label reads as `"0,00"`, worth 0. */
  lemma FallbackValue(page: Page, cells: seq<string>, idx: nat)
    requires idx >= 1 && ProdutoValorLiquido(idx - 1) !in page.elements
    ensures RowProduto(page, cells, idx).valor_liquido == 0.0
  {
    RowProdutoAmounts(page, cells, idx);
    ZeroFallback();
  }

  /** The fallback NCM is eight digits. */
  lemma NcmFallbackOk()
    ensures NcmOk(NcmFallback)
  {
    assert forall i :: 0 <= i < |NcmFallback| ==> NcmFallback[i] == '0';
  }

  // ---------------------------------------------------------------------------------------------
  // The session protocol

  /** A portal action of the session. */
  datatype Action = Access | FillKey(chave: string) | AwaitCaptcha | Consult | OpenDetails | OpenDeliveryTab | OpenProductsTab

  /** Whether an action succeeds on this page. */
  predicate Succeeds(page: Page, a: Action) {
    match a
    case Access => page.reachable
    case FillKey(_) => KeyField in page.elements
    case AwaitCaptcha => true
    case Consult => ConsultButton in page.clickable
    case OpenDetails => DetailsLookup(page).Some?
    case OpenDeliveryTab => DeliveryTab in page.clickable
    case OpenProductsTab => ProductsTab in page.clickable
  }

  /** A failing action ends the session, except the delivery tab, whose absence only means no location. */
  predicate Aborts(page: Page, a: Action) {
    a != OpenDeliveryTab && !Succeeds(page, a)
  }

  /** Steps 2 to 5 of `extrair_dados_cupom`: open the portal, type the key, wait for the captcha, press Consultar. */
  function LoginSteps(chave: string): seq<Action> {
    [Access, FillKey(chave), AwaitCaptcha, Consult]
  }

  /** Steps 7 to 9: press Detalhes, open the delivery tab when its extraction is on, open the products tab. */
  function DetailSteps(cfg: Config): seq<Action> {
    [OpenDetails] + (if cfg.localEntrega.ativo then [OpenDeliveryTab] else []) + [OpenProductsTab]
  }

  /** The actions of `extrair_dados_cupom` in order; the delivery tab is opened only when its extraction is on. */
  function Protocol(cfg: Config, chave: string): (steps: seq<Action>)
    ensures |steps| >= 6 && steps[|steps| - 1] == OpenProductsTab
    ensures OpenDeliveryTab in steps <==> cfg.localEntrega.ativo
  {
    LoginSteps(chave) + DetailSteps(cfg)
  }

  predicate NoAbort(page: Page, steps: seq<Action>) {
    forall i :: 0 <= i < |steps| ==> !Aborts(page, steps[i])
  }

  /** The actions performed when `steps` are run in order until one aborts (that one included). */
  function TraceOf(page: Page, steps: seq<Action>): (t: seq<Action>)
    ensures |t| <= |steps|
  {
    if steps == [] then []
    else if Aborts(page, steps[0]) then [steps[0]]
    else [steps[0]] + TraceOf(page, steps[1..])
  }

  /**
   * The run is a prefix of `steps`: all of them when none aborts, otherwise up to and including
   * the first that aborts.
   */
  lemma {:induction false} TraceShape(page: Page, steps: seq<Action>)
    ensures var t := TraceOf(page, steps);
      && t == steps[..|t|]
      && (NoAbort(page, steps) ==> t == steps)
      && (!NoAbort(page, steps) ==> |t| > 0 && Aborts(page, t[|t| - 1]) && NoAbort(page, t[..|t| - 1]))
  {
    if steps != [] && !Aborts(page, steps[0]) {
      var rest := TraceOf(page, steps[1..]);
      TraceShape(page, steps[1..]);
      assert [steps[0]] + rest == steps[..|rest| + 1];
      assert NoAbort(page, steps) <==> NoAbort(page, steps[1..]) by {
        assert forall i :: 1 <= i < |steps| ==> steps[i] == steps[1..][i - 1];
      }
      if !NoAbort(page, steps[1..]) {
        assert ([steps[0]] + rest)[..|rest|] == [steps[0]] + rest[..|rest| - 1];
      }
    }
  }

  /** Running `xs + ys`: the run of `xs` when it aborts there, otherwise all of `xs` then the run of `ys`. */
  lemma {:induction false} TraceAppend(page: Page, xs: seq<Action>, ys: seq<Action>)
    ensures TraceOf(page, xs + ys) == if NoAbort(page, xs) then xs + TraceOf(page, ys) else TraceOf(page, xs)
    ensures NoAbort(page, xs + ys) <==> NoAbort(page, xs) && NoAbort(page, ys)
  {
    if xs == [] {
      assert xs + ys == ys;
    } else {
      var a, r := xs[0], xs[1..];
      assert xs == [a] + r;
      assert xs + ys == [a] + (r + ys);
      TraceStep(page, a, r);
      TraceStep(page, a, r + ys);
      TraceAppend(page, r, ys);
      if NoAbort(page, xs) {
        AppendAssoc([a], r, TraceOf(page, ys));
      }
    }
  }

  /** Running `[a] + rest`: `a` alone when it aborts, otherwise `a` followed by the run of `rest`. */
  lemma {:induction false} TraceStep(page: Page, a: Action, rest: seq<Action>)
    ensures TraceOf(page, [a] + rest) == if Aborts(page, a) then [a] else [a] + TraceOf(page, rest)
    ensures NoAbort(page, [a] + rest) <==> !Aborts(page, a) && NoAbort(page, rest)
  {
    var steps := [a] + rest;
    assert steps[1..] == rest;
    assert forall i :: 1 <= i < |steps| ==> steps[i] == rest[i - 1];
  }

  /**
   * One step of a run that has so far performed `done` and still has `[a] + rest` to go: when `a`
   * aborts, the run is `done + [a]` and fails; otherwise it goes on with `rest`.
   */
  lemma Advance(page: Page, steps: seq<Action>, done: seq<Action>, a: Action, rest: seq<Action>)
    requires TraceOf(page, steps) == done + TraceOf(page, [a] + rest)
    requires NoAbort(page, steps) <==> NoAbort(page, [a] + rest)
    ensures Aborts(page, a) ==> TraceOf(page, steps) == done + [a] && !NoAbort(page, steps)
    ensures !Aborts(page, a) ==>
      && TraceOf(page, steps) == (done + [a]) + TraceOf(page, rest)
      && (NoAbort(page, steps) <==> NoAbort(page, rest))
  {
    TraceStep(page, a, rest);
    AppendAssoc(done, [a], TraceOf(page, rest));
  }

  /** The receipt assembled after the last step: product extraction only when switched on. */
  function Assemble(page: Page, cfg: Config): (c: CupomCompleto)
    ensures !cfg.produtos.ativo ==> c.produtos == []
    ensures c.local_entrega == LocalEntregaOf(page, cfg.localEntrega)
  {
    CupomCompleto(
      emitente := EmitenteOf(page, cfg.emitente),
      cupom := CupomOf(page, cfg.cupom),
      produtos := if cfg.produtos.ativo then ProductsOf(page) else [],
      consumidor := ConsumidorOf(page, cfg.consumidor),
      local_entrega := LocalEntregaOf(page, cfg.localEntrega))
  }

  /** What the session body returns: the receipt when no step aborts, None otherwise. */
  function SessionResult(page: Page, cfg: Config, chave: string): (r: Option<CupomCompleto>)
    ensures r.Some? <==> NoAbort(page, Protocol(cfg, chave))
    ensures r.Some? ==> r.value == Assemble(page, cfg)
  {
    if NoAbort(page, Protocol(cfg, chave)) then Some(Assemble(page, cfg)) else None
  }

  /**
   * The session yields a receipt exactly when the portal loads, the key field, the Consultar
   * button, a Detalhes button and the products tab are all there; the delivery tab plays no part.
   */
  lemma SessionSucceedsIff(page: Page, cfg: Config, chave: string)
    ensures SessionResult(page, cfg, chave).Some? <==>
      && page.reachable && KeyField in page.elements && ConsultButton in page.clickable
      && DetailsLookup(page).Some? && ProductsTab in page.clickable
  {
    var steps := Protocol(cfg, chave);
    if !page.reachable { assert Aborts(page, steps[0]); }
    if KeyField !in page.elements { assert Aborts(page, steps[1]); }
    if ConsultButton !in page.clickable { assert Aborts(page, steps[3]); }
    if DetailsLookup(page).None? { assert Aborts(page, steps[4]); }
    if ProductsTab !in page.clickable { assert Aborts(page, steps[|steps| - 1]); }
  }

  /** With delivery extraction off, the delivery tab is never clicked and the receipt has no location. */
  lemma DeliveryOffSkipsTab(page: Page, cfg: Config, chave: string)
    requires !cfg.localEntrega.ativo
    ensures OpenDeliveryTab !in TraceOf(page, Protocol(cfg, chave))
    ensures SessionResult(page, cfg, chave).Some? ==> SessionResult(page, cfg, chave).value.local_entrega.None?
  {
    var steps := Protocol(cfg, chave);
    var t := TraceOf(page, steps);
    TraceShape(page, steps);
    assert t == steps[..|t|];
  }

  /** With product extraction off, the receipt has no items, yet the products tab still had to open. */
  lemma ProductsOffStillOpensTab(page: Page, cfg: Config, chave: string)
    requires !cfg.produtos.ativo
    requires SessionResult(page, cfg, chave).Some?
    ensures SessionResult(page, cfg, chave).value.produtos == []
    ensures OpenProductsTab in TraceOf(page, Protocol(cfg, chave)) && ProductsTab in page.clickable
  {
    SuccessOpensProductsTab(page, cfg, chave);
  }

  /** A session that yields a receipt ran every step, the products tab last. */
  lemma SuccessOpensProductsTab(page: Page, cfg: Config, chave: string)
    requires NoAbort(page, Protocol(cfg, chave))
    ensures TraceOf(page, Protocol(cfg, chave)) == Protocol(cfg, chave)
    ensures OpenProductsTab in TraceOf(page, Protocol(cfg, chave)) && ProductsTab in page.clickable
  {
    var steps := Protocol(cfg, chave);
    assert !Aborts(page, steps[|steps| - 1]);
    TraceShape(page, steps);
  }

  /** The row loop of `extrair_produtos`: builds the item of every data row and keeps those `validar` accepts. */
  method CollectProducts(page: Page, linhas: seq<seq<string>>) returns (produtos: seq<Produto>)
    ensures produtos == KeepValid(Candidates(page, linhas))
  {
    produtos := [];
    var idx := 1;
    while idx <= |linhas|
      invariant 1 <= idx <= |linhas| + 1
      invariant produtos == KeepValid(Candidates(page, linhas[..idx - 1]))
    {
      produtos := AddRow(page, linhas, idx, produtos);
      idx := idx + 1;
    }
    TakeAll(linhas);
  }

  /** One pass of the row loop: the item of row `idx` is appended when `validar` accepts it. */
  method AddRow(page: Page, linhas: seq<seq<string>>, idx: nat, produtos: seq<Produto>) returns (r: seq<Produto>)
    requires 1 <= idx <= |linhas|
    requires produtos == KeepValid(Candidates(page, linhas[..idx - 1]))
    ensures r == KeepValid(Candidates(page, linhas[..idx]))
  {
    var produto := RowProduto(page, linhas[idx - 1], idx);
    var valido, erros := Validar(produto);
    ValidPrefixStep(page, linhas, idx);
    r := if valido then produtos + [produto] else produtos;
  }

  // ---------------------------------------------------------------------------------------------
  // The service

  class WebScraperService {
    var headless: bool
    /** The handle of the browser last started; `fechar_navegador` never clears it. */
    var driver: Option<nat>
    /** How many browsers this service has started; the next one gets this handle. */
    var launches: nat
    /** The handles `quit` was called on, in order. */
    var quits: seq<nat>
    /** The portal actions performed, in order. */
    var actions: seq<Action>

    constructor(headless: bool)
      ensures this.headless == headless && driver.None? && launches == 0 && quits == [] && actions == []
    {
      this.headless := headless;
      driver := None;
      launches := 0;
      quits := [];
      actions := [];
    }

    /** `iniciar_navegador`: a new browser replaces the handle; when it cannot start, the old handle stays. */
    method StartBrowser(page: Page) returns (started: bool)
      modifies this
      ensures started == page.canLaunch
      ensures started ==> driver == Some(old(launches)) && launches == old(launches) + 1
      ensures !started ==> driver == old(driver) && launches == old(launches)
      ensures quits == old(quits) && actions == old(actions) && headless == old(headless)
    {
      started := page.canLaunch;
      if started {
        driver := Some(launches);
        launches := launches + 1;
      }
    }

    /** `fechar_navegador`: `quit` on the current browser, if there is one. */
    method CloseBrowser()
      modifies this
      ensures quits == old(quits) + (if driver.Some? then [driver.value] else [])
      ensures driver == old(driver) && launches == old(launches) && actions == old(actions) && headless == old(headless)
    {
      if driver.Some? {
        quits := quits + [driver.value];
      }
    }

    /** Performs one portal action and reports whether it worked. */
    method Perform(page: Page, a: Action) returns (ok: bool)
      modifies this
      ensures ok == Succeeds(page, a)
      ensures actions == old(actions) + [a]
      ensures driver == old(driver) && launches == old(launches) && quits == old(quits) && headless == old(headless)
    {
      actions := actions + [a];
      ok := Succeeds(page, a);
    }

    /** One guarded label read: when its flag is on and the element is found, its text stripped; otherwise nothing. */
    method ReadLabel(page: Page, flag: bool, id: ElementId) returns (v: Option<string>)
      ensures v == Captured(flag, page, id)
    {
      v := None;
      if flag && id in page.elements {
        v := Some(Strip(page.elements[id]));
      }
    }

    /** `extrair_emitente`: each enabled field whose element exists gets its text; the others keep their None default. */
    method ExtractEmitente(page: Page, cfg: EmitenteConfig) returns (emitente: Emitente)
      ensures emitente == EmitenteOf(page, cfg)
    {
      var ie := ReadLabel(page, cfg.ie, IeEmitente);
      var im := ReadLabel(page, cfg.im, ImEmitente);
      var extrato_numero := ReadLabel(page, cfg.extrato_numero, NumeroCfe);
      var sat_numero := ReadLabel(page, cfg.sat_numero, RazaoSocial);
      var nome := ReadLabel(page, cfg.nome, NomeEmitente);
      var cnpj := ReadLabel(page, cfg.cnpj, CnpjEmitente);
      var endereco := ReadLabel(page, cfg.endereco, EnderecoEmitente);
      var bairro := ReadLabel(page, cfg.bairro, BairroEmitente);
      var cep := ReadLabel(page, cfg.cep, CepEmitente);
      var uf := ReadLabel(page, cfg.uf, MunicipioEmitente);
      emitente := Emitente(ie, im, extrato_numero, sat_numero, nome, cnpj, endereco, bairro, cep, uf);
    }

    /** `extrair_consumidor`: nothing when switched off; the captured buyer only when it holds data. */
    method ExtractConsumidor(page: Page, cfg: ConsumidorConfig) returns (r: Option<Consumidor>)
      ensures r == ConsumidorOf(page, cfg)
    {
      if !cfg.ativo {
        return None;
      }
      var cpf_cnpj := ReadLabel(page, cfg.cpf_cnpj, CpfConsumidor);
      var nome := ReadLabel(page, cfg.nome, RazaoSocial);
      var consumidor := Consumidor(cpf_cnpj, nome);
      if ConsumidorModel.EstaPresente(consumidor) {
        r := Some(consumidor);
      } else {
        r := None;
      }
    }

    /** `extrair_cupom`: each enabled field whose element exists gets its text; the others keep their None default. */
    method ExtractCupom(page: Page, cfg: CupomConfig) returns (cupom: Cupom)
      ensures cupom == CupomOf(page, cfg)
    {
      var total := ReadLabel(page, cfg.total, Total);
      var forma_pagamento := ReadLabel(page, cfg.forma_pagamento, MeiosPagamento);
      var troco := ReadLabel(page, cfg.troco, CupomDetalhe2);
      var tributos := ReadLabel(page, cfg.tributos, Total12741);
      var data_hora := ReadLabel(page, cfg.data_hora, DataEmissao);
      var qr_code := ReadLabel(page, cfg.qr_code, IdCfe);
      cupom := Cupom(total, forma_pagamento, troco, tributos, data_hora, qr_code);
    }

    /** `clicar_detalhes`'s lookup: by id, then by value, then scanning the submit inputs up to the first match. */
    method FindDetailsButton(page: Page) returns (botao: Option<DetailsButton>)
      ensures botao == DetailsLookup(page)
    {
      botao := None;
      if DetailsButton in page.clickable {
        botao := Some(ById);
      }
      if botao.None? && page.detailsByValue {
        botao := Some(ByValue);
      }
      if botao.None? {
        var i := 0;
        while i < |page.submitValues|
          invariant 0 <= i <= |page.submitValues|
          invariant DetailsValue !in page.submitValues[..i]
          invariant botao.None?
        {
          if page.submitValues[i] == DetailsValue {
            botao := Some(BySubmitScan(i));
            break;
          }
          i := i + 1;
        }
        assert botao.None? ==> page.submitValues[..i] == page.submitValues;
      }
    }

    /** `extrair_local_entrega`: when switched on, opens the delivery tab and reads the location from it. */
    method ExtractLocalEntrega(page: Page, cfg: LocalEntregaConfig) returns (r: Option<LocalEntrega>)
      modifies this
      ensures r == LocalEntregaOf(page, cfg)
      ensures cfg.ativo ==> actions == old(actions) + [OpenDeliveryTab]
      ensures !cfg.ativo ==> actions == old(actions)
      ensures driver == old(driver) && launches == old(launches) && quits == old(quits) && headless == old(headless)
    {
      if !cfg.ativo {
        return None;
      }
      var tabOpen := Perform(page, OpenDeliveryTab);
      if !tabOpen {
        return None;
      }
      var endereco := ReadLabel(page, cfg.endereco, EntregaEndereco);
      var bairro := ReadLabel(page, cfg.bairro, EntregaBairro);
      var municipio := ReadLabel(page, cfg.municipio, EntregaMunicipio);
      var uf := ReadLabel(page, cfg.uf, EntregaUF);
      var numero_cfe := ReadLabel(page, cfg.numero_cfe, CfeNumero);
      var chave_acesso := ReadLabel(page, cfg.chave_acesso, ChaveAcesso);
      var local := LocalEntrega(endereco, bairro, municipio, uf, numero_cfe, chave_acesso);
      assert local == LocalEntregaFields(page, cfg);
      if LocalEntregaModel.EstaPresente(local) {
        r := Some(local);
      } else {
        r := None;
      }
    }

    /** `extrair_produtos`: builds an item from every data row and keeps those `validar` accepts. */
    method ExtractProducts(page: Page) returns (produtos: seq<Produto>)
      ensures produtos == ProductsOf(page)
    {
      produtos := [];
      if page.table.None? {
        return;
      }
      produtos := CollectProducts(page, DataRows(page.table.value));
    }

    /** Steps 2 to 5 of `extrair_dados_cupom`, each failure ending the session. */
    method OpenReceipt(page: Page, chave: string) returns (ok: bool)
      modifies this
      ensures ok == NoAbort(page, LoginSteps(chave))
      ensures actions == old(actions) + TraceOf(page, LoginSteps(chave))
      ensures driver == old(driver) && launches == old(launches) && quits == old(quits) && headless == old(headless)
    {
      ghost var s4: seq<Action> := [];
      ghost var s3 := [Consult] + s4;
      ghost var s2 := [AwaitCaptcha] + s3;
      ghost var s1 := [FillKey(chave)] + s2;
      ghost var steps := [Access] + s1;
      assert LoginSteps(chave) == steps;
      ghost var done: seq<Action> := [];
      assert done + TraceOf(page, steps) == TraceOf(page, steps);

      Advance(page, steps, done, Access, s1);
      ok := Perform(page, Access);
      done := [Access];
      if !ok {
        return;
      }
      Advance(page, steps, done, FillKey(chave), s2);
      ok := Perform(page, FillKey(chave));
      AppendAssoc(old(actions), done, [FillKey(chave)]);
      done := done + [FillKey(chave)];
      if !ok {
        return;
      }
      Advance(page, steps, done, AwaitCaptcha, s3);
      ok := Perform(page, AwaitCaptcha);
      AppendAssoc(old(actions), done, [AwaitCaptcha]);
      done := done + [AwaitCaptcha];
      Advance(page, steps, done, Consult, s4);
      ok := Perform(page, Consult);
      AppendAssoc(old(actions), done, [Consult]);
      done := done + [Consult];
    }

    /** Steps 7 to 9: Detalhes, the delivery location (when on), then the products tab. */
    method OpenTabs(page: Page, cfg: Config) returns (ok: bool, local: Option<LocalEntrega>)
      modifies this
      ensures ok == NoAbort(page, DetailSteps(cfg))
      ensures ok ==> local == LocalEntregaOf(page, cfg.localEntrega)
      ensures actions == old(actions) + TraceOf(page, DetailSteps(cfg))
      ensures driver == old(driver) && launches == old(launches) && quits == old(quits) && headless == old(headless)
    {
      ghost var s3: seq<Action> := [];
      ghost var s2 := [OpenProductsTab] + s3;
      ghost var s1 := if cfg.localEntrega.ativo then [OpenDeliveryTab] + s2 else s2;
      ghost var steps := [OpenDetails] + s1;
      assert DetailSteps(cfg) == steps;
      ghost var done: seq<Action> := [];
      assert done + TraceOf(page, steps) == TraceOf(page, steps);

      Advance(page, steps, done, OpenDetails, s1);
      ok := Perform(page, OpenDetails);
      done := [OpenDetails];
      local := None;
      if !ok {
        return;
      }
      local := ExtractLocalEntrega(page, cfg.localEntrega);
      if cfg.localEntrega.ativo {
        Advance(page, steps, done, OpenDeliveryTab, s2);
        AppendAssoc(old(actions), done, [OpenDeliveryTab]);
        done := done + [OpenDeliveryTab];
      }
      Advance(page, steps, done, OpenProductsTab, s3);
      ok := Perform(page, OpenProductsTab);
      AppendAssoc(old(actions), done, [OpenProductsTab]);
      done := done + [OpenProductsTab];
    }

    /**
     * The body of `extrair_dados_cupom` after the browser is up: the protocol's actions until one
     * aborts, then the receipt when none did.
     */
    method RunSession(page: Page, cfg: Config, chave: string) returns (r: Option<CupomCompleto>)
      modifies this
      ensures r == SessionResult(page, cfg, chave)
      ensures actions == old(actions) + TraceOf(page, Protocol(cfg, chave))
      ensures driver == old(driver) && launches == old(launches) && quits == old(quits) && headless == old(headless)
    {
      TraceAppend(page, LoginSteps(chave), DetailSteps(cfg));
      var ok := OpenReceipt(page, chave);
      if !ok {
        return None;
      }
      TraceShape(page, LoginSteps(chave));
      var emitente := ExtractEmitente(page, cfg.emitente);
      var consumidor := ExtractConsumidor(page, cfg.consumidor);
      var cupom := ExtractCupom(page, cfg.cupom);
      var local;
      ok, local := OpenTabs(page, cfg);
      AppendAssoc(old(actions), LoginSteps(chave), TraceOf(page, DetailSteps(cfg)));
      if !ok {
        return None;
      }
      var produtos: seq<Produto>;
      if !cfg.produtos.ativo {
        produtos := [];
      } else {
        produtos := ExtractProducts(page);
      }
      r := Some(CupomCompleto(emitente, cupom, produtos, consumidor, local));
    }

    /**
     * `extrair_dados_cupom`: starts a browser, runs the session, and in every case releases the
     * browser it holds; a browser that cannot start yields None.
     */
    method ExtractReceipt(page: Page, cfg: Config, chave: string) returns (r: Option<CupomCompleto>)
      modifies this
      ensures r == (if page.canLaunch then SessionResult(page, cfg, chave) else None)
      ensures actions == old(actions) + (if page.canLaunch then TraceOf(page, Protocol(cfg, chave)) else [])
      ensures page.canLaunch ==> driver == Some(old(launches))
      ensures !page.canLaunch ==> driver == old(driver)
      ensures quits == old(quits) + (if driver.Some? then [driver.value] else [])
      ensures headless == old(headless) && launches == old(launches) + (if page.canLaunch then 1 else 0)
    {
      var started := StartBrowser(page);
      if started {
        r := RunSession(page, cfg, chave);
      } else {
        r := None;
      }
      CloseBrowser();
    }
  }

  /** A fresh service that extracts once quits exactly the browser it started, when it started one. */
  method ExtractOnce(page: Page, cfg: Config, chave: string) returns (r: Option<CupomCompleto>, quits: seq<nat>)
    ensures r == (if page.canLaunch then SessionResult(page, cfg, chave) else None)
    ensures quits == (if page.canLaunch then [0] else [])
  {
    var service := new WebScraperService(false);
    r := service.ExtractReceipt(page, cfg, chave);
    quits := service.quits;
  }
}
