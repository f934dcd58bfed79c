/**
 * `CSVRepository` (src/repositories/csv_repository.py): the rows written for one receipt and the
 * name of the file they go to. A receipt becomes one row per item, or a single row when it has no
 * items; each row repeats the issuer, buyer, sale and delivery columns and ends with the item's.
 * Writing the file, the output directory and the clock are not part of this model.
 */
module CsvRepository {
  import opened Wrappers
  import opened Text
  import opened EmitenteModel
  import opened CupomModel
  import opened ConsumidorModel
  import opened LocalEntregaModel
  import opened ProdutoModel
  import opened CupomCompletoModel

  const ColumnCount: nat := 30
  /** Columns shared by all rows of a receipt: issuer, buyer, sale and delivery. */
  const SharedCount: nat := 24

  /** `_gerar_cabecalho`. */
  function Header(): (h: seq<string>)
    ensures |h| == ColumnCount
    ensures forall i :: 0 <= i < |h| ==> h[i] != ""
  {
    [ "Emitente_Nome", "Emitente_CNPJ", "Emitente_IE", "Emitente_IM", "Emitente_Endereco",
      "Emitente_Bairro", "Emitente_CEP", "Emitente_UF", "Emitente_Extrato_Numero", "Emitente_SAT_Numero",
      "Consumidor_Nome", "Consumidor_CPF_CNPJ",
      "Cupom_Total", "Cupom_Data_Hora", "Cupom_Forma_Pagamento", "Cupom_Troco", "Cupom_Tributos", "Cupom_QR_Code",
      "Entrega_Endereco", "Entrega_Bairro", "Entrega_Municipio", "Entrega_UF", "Entrega_Numero_CFe",
      "Entrega_Chave_Acesso",
      "Produto_Descricao", "Produto_NCM", "Produto_Quantidade", "Produto_Valor_Liquido", "Produto_Valor_Total",
      "Produto_Cod_GTIN" ]
  }

  /** `text or 'N/A'` as a cell: a non-empty text is kept, None and `''` give the sentinel. */
  function TextCell(v: Option<string>): (c: Cell)
    ensures Truthy(c)
    ensures IsFilled(v) ==> c == Str(v.value)
    ensures !IsFilled(v) ==> c == Str(NA)
  {
    Str(OrNA(v))
  }

  /** `number or 'N/A'`: None and zero are falsy and render as the sentinel. */
  function NumberCell(v: Option<real>): (c: Cell)
    ensures Truthy(c)
    ensures v.Some? && v.value != 0.0 ==> c == Num(v.value)
    ensures v.None? || v.value == 0.0 ==> c == Str(NA)
  {
    if v.Some? && v.value != 0.0 then Num(v.value) else Str(NA)
  }

  /** A run of `n` sentinel cells. */
  function NACells(n: nat): (cs: seq<Cell>)
    ensures |cs| == n && forall i :: 0 <= i < n ==> cs[i] == Str(NA)
  {
    seq(n, _ => Str(NA))
  }

  predicate AllTruthy(cs: seq<Cell>) {
    forall i :: 0 <= i < |cs| ==> Truthy(cs[i])
  }

  /** The cell shows entry `i` of the dictionary `d`, whose key is `key`. */
  predicate ShowsEntry(cell: Cell, d: Dict<string>, i: nat, key: string) {
    i < |d| && d[i].0 == key && cell == Str(d[i].1)
  }

  /** `value or 'N/A'` on a value of an item's `to_dict`: a falsy value (`''`, 0) gives the sentinel. */
  function CellOrNA(x: Cell): (c: Cell)
    ensures Truthy(c)
  {
    if Truthy(x) then x else Str(NA)
  }

  /** The cell shows entry `i` of the item dictionary `d`, under `key`, or the sentinel when that entry is falsy. */
  predicate ShowsItemEntry(cell: Cell, d: Dict<Cell>, i: nat, key: string) {
    i < |d| && d[i].0 == key && cell == CellOrNA(d[i].1)
  }

  /** The issuer columns, in header order (name and CNPJ first). */
  function EmitenteColumns(e: Emitente): (cs: seq<Cell>)
    ensures |cs| == 10 && AllTruthy(cs)
  {
    [ TextCell(e.nome), TextCell(e.cnpj), TextCell(e.ie), TextCell(e.im), TextCell(e.endereco),
      TextCell(e.bairro), TextCell(e.cep), TextCell(e.uf), TextCell(e.extrato_numero), TextCell(e.sat_numero) ]
  }

  /**
   * The issuer columns, in header order, are the entries nome, cnpj, ie, im, endereco, bairro,
   * cep, uf, extrato_numero and sat_numero of the issuer's `to_dict`.
   */
  lemma EmitenteColumnsShowDict(e: Emitente)
    ensures var cs, d := EmitenteColumns(e), EmitenteModel.ToDict(e);
      && ShowsEntry(cs[0], d, 4, "nome") && ShowsEntry(cs[1], d, 5, "cnpj")
      && ShowsEntry(cs[2], d, 0, "ie") && ShowsEntry(cs[3], d, 1, "im")
      && ShowsEntry(cs[4], d, 6, "endereco") && ShowsEntry(cs[5], d, 7, "bairro")
      && ShowsEntry(cs[6], d, 8, "cep") && ShowsEntry(cs[7], d, 9, "uf")
      && ShowsEntry(cs[8], d, 2, "extrato_numero") && ShowsEntry(cs[9], d, 3, "sat_numero")
  {
    EmitenteModel.Entries(e);
  }

  /** The buyer columns: name and document when a buyer is present, two sentinels otherwise. */
  function ConsumidorColumns(c: Option<Consumidor>): (cs: seq<Cell>)
    ensures |cs| == 2 && AllTruthy(cs)
    ensures c.None? || !ConsumidorModel.EstaPresente(c.value) ==> cs == NACells(2)
  {
    if c.Some? && ConsumidorModel.EstaPresente(c.value) then [TextCell(c.value.nome), TextCell(c.value.cpf_cnpj)]
    else NACells(2)
  }

  /** A present buyer's columns are the entries nome then cpf_cnpj of its `to_dict`. */
  lemma ConsumidorColumnsShowDict(c: Consumidor)
    requires ConsumidorModel.EstaPresente(c)
    ensures var cs, d := ConsumidorColumns(Some(c)), ConsumidorModel.ToDict(c);
      ShowsEntry(cs[0], d, 1, "nome") && ShowsEntry(cs[1], d, 0, "cpf_cnpj")
  {
    var d := ConsumidorModel.ToDict(c);
    assert |d| == 2;
  }

  /** The sale columns, in header order. */
  function CupomColumns(c: Cupom): (cs: seq<Cell>)
    ensures |cs| == 6 && AllTruthy(cs)
  {
    [ TextCell(c.total), TextCell(c.data_hora), TextCell(c.forma_pagamento), TextCell(c.troco),
      TextCell(c.tributos), TextCell(c.qr_code) ]
  }

  /**
   * The sale columns, in header order, are the entries total, data_hora, forma_pagamento, troco,
   * tributos and qr_code of the sale's `to_dict`.
   */
  lemma CupomColumnsShowDict(c: Cupom)
    ensures var cs, d := CupomColumns(c), CupomModel.ToDict(c);
      && ShowsEntry(cs[0], d, 0, "total") && ShowsEntry(cs[1], d, 4, "data_hora")
      && ShowsEntry(cs[2], d, 1, "forma_pagamento") && ShowsEntry(cs[3], d, 2, "troco")
      && ShowsEntry(cs[4], d, 3, "tributos") && ShowsEntry(cs[5], d, 5, "qr_code")
  {
    var d := CupomModel.ToDict(c);
    assert |d| == 6;
  }

  /** The delivery columns: the six fields when a location is present, six sentinels otherwise. */
  function EntregaColumns(l: Option<LocalEntrega>): (cs: seq<Cell>)
    ensures |cs| == 6 && AllTruthy(cs)
    ensures l.None? || !LocalEntregaModel.EstaPresente(l.value) ==> cs == NACells(6)
  {
    if l.Some? && LocalEntregaModel.EstaPresente(l.value) then
      var v := l.value;
      [ TextCell(v.endereco), TextCell(v.bairro), TextCell(v.municipio), TextCell(v.uf),
        TextCell(v.numero_cfe), TextCell(v.chave_acesso) ]
    else NACells(6)
  }

  /**
   * A present location's columns are the entries endereco, bairro, municipio, uf, numero_cfe and
   * chave_acesso of its `to_dict`.
   */
  lemma EntregaColumnsShowDict(l: LocalEntrega)
    requires LocalEntregaModel.EstaPresente(l)
    ensures var cs, d := EntregaColumns(Some(l)), LocalEntregaModel.ToDict(l);
      && ShowsEntry(cs[0], d, 0, "endereco") && ShowsEntry(cs[1], d, 1, "bairro")
      && ShowsEntry(cs[2], d, 2, "municipio") && ShowsEntry(cs[3], d, 3, "uf")
      && ShowsEntry(cs[4], d, 4, "numero_cfe") && ShowsEntry(cs[5], d, 5, "chave_acesso")
  {
    var d := LocalEntregaModel.ToDict(l);
    assert |d| == 6;
  }

  /** The item columns: description, NCM, quantity, net value, total value, GTIN; six sentinels without an item. */
  function ProdutoColumns(p: Option<Produto>): (cs: seq<Cell>)
    ensures |cs| == 6 && AllTruthy(cs)
    ensures p.None? ==> cs == NACells(6)
    ensures p.Some? && p.value.valor_liquido == 0.0 ==> cs[3] == Str(NA)
  {
    if p.Some? then
      var v := p.value;
      [ TextCell(v.descricao), TextCell(Some(v.codigo_ncm)), NumberCell(v.quantidade),
        NumberCell(Some(v.valor_liquido)), NumberCell(Some(v.valor_total)), TextCell(v.cod_gtin) ]
    else NACells(6)
  }

  /**
   * An item's columns are the entries Descricao, Codigo_NCM, Quantidade, Valor_Liquido,
   * Valor_Total and Cod_GTIN of its `to_dict`, each replaced by the sentinel when falsy.
   */
  lemma ProdutoColumnsShowDict(p: Produto)
    ensures var cs, d := ProdutoColumns(Some(p)), ProdutoModel.ToDict(p);
      && ShowsItemEntry(cs[0], d, 5, "Descricao") && ShowsItemEntry(cs[1], d, 0, "Codigo_NCM")
      && ShowsItemEntry(cs[2], d, 6, "Quantidade") && ShowsItemEntry(cs[3], d, 1, "Valor_Liquido")
      && ShowsItemEntry(cs[4], d, 4, "Valor_Total") && ShowsItemEntry(cs[5], d, 3, "Cod_GTIN")
  {
  }

  /** The first 24 columns of every row of a receipt. */
  function SharedColumns(c: CupomCompleto): (cs: seq<Cell>)
    ensures |cs| == SharedCount && AllTruthy(cs)
  {
    EmitenteColumns(c.emitente) + ConsumidorColumns(c.consumidor) + CupomColumns(c.cupom)
      + EntregaColumns(c.local_entrega)
  }

  /**
   * The row `_gerar_linha_base` produces: the shared columns then the item's, 30 cells under the
   * 30 header names, none of them empty.
   */
  function Row(c: CupomCompleto, p: Option<Produto>): (row: seq<Cell>)
    ensures |row| == |Header()|
    ensures row[..SharedCount] == SharedColumns(c) && row[SharedCount..] == ProdutoColumns(p)
    ensures AllTruthy(row)
  {
    SharedColumns(c) + ProdutoColumns(p)
  }

  /**
   * The row's sections, in header order: issuer (columns 0-9), buyer (10-11), sale (12-17),
   * delivery (18-23) and item (24-29). With the `...ShowDict` lemmas this places every field of
   * `to_dict` under its column.
   */
  lemma RowSections(c: CupomCompleto, p: Option<Produto>)
    ensures var row := Row(c, p);
      && row[..10] == EmitenteColumns(c.emitente) && row[10..12] == ConsumidorColumns(c.consumidor)
      && row[12..18] == CupomColumns(c.cupom) && row[18..24] == EntregaColumns(c.local_entrega)
      && row[24..] == ProdutoColumns(p)
  {
    var e, b, k, l := EmitenteColumns(c.emitente), ConsumidorColumns(c.consumidor), CupomColumns(c.cupom),
      EntregaColumns(c.local_entrega);
    var row := Row(c, p);
    assert row[..SharedCount] == e + b + k + l;
    assert row[..10] == (e + b + k + l)[..10];
    assert row[10..12] == (e + b + k + l)[10..12];
    assert row[12..18] == (e + b + k + l)[12..18];
    assert row[18..24] == (e + b + k + l)[18..24];
  }

  /** `_gerar_linha_base`, growing the row section by section. */
  method BaseRow(c: CupomCompleto, p: Option<Produto>) returns (linha: seq<Cell>)
    ensures linha == Row(c, p)
  {
    linha := EmitenteColumns(c.emitente);
    if c.consumidor.Some? && ConsumidorModel.EstaPresente(c.consumidor.value) {
      linha := linha + [TextCell(c.consumidor.value.nome), TextCell(c.consumidor.value.cpf_cnpj)];
    } else {
      linha := linha + NACells(2);
    }
    linha := linha + CupomColumns(c.cupom);
    if c.local_entrega.Some? && LocalEntregaModel.EstaPresente(c.local_entrega.value) {
      linha := linha + EntregaColumns(c.local_entrega);
    } else {
      linha := linha + NACells(6);
    }
    if p.Some? {
      linha := linha + ProdutoColumns(p);
    } else {
      linha := linha + NACells(6);
    }
  }

  /**
   * The rows `_gerar_linhas` produces: one per item, in item order; a receipt without items
   * still gives one row.
   */
  function Lines(c: CupomCompleto): (rows: seq<seq<Cell>>)
    ensures |c.produtos| == 0 ==> rows == [Row(c, None)]
    ensures |c.produtos| > 0 ==> |rows| == |c.produtos|
    ensures |c.produtos| > 0 ==> forall i :: 0 <= i < |rows| ==> rows[i] == Row(c, Some(c.produtos[i]))
    ensures |rows| >= 1
  {
    if |c.produtos| == 0 then [Row(c, None)]
    else seq(|c.produtos|, i requires 0 <= i < |c.produtos| => Row(c, Some(c.produtos[i])))
  }

  /** `_gerar_linhas`: the single item-less row, or one row per item appended in order. */
  method GenerateLines(c: CupomCompleto) returns (linhas: seq<seq<Cell>>)
    ensures linhas == Lines(c)
  {
    linhas := [];
    if |c.produtos| == 0 {
      var linha := BaseRow(c, None);
      linhas := linhas + [linha];
      return;
    }
    var k := 0;
    while k < |c.produtos|
      invariant 0 <= k <= |c.produtos|
      invariant |linhas| == k
      invariant forall i :: 0 <= i < k ==> linhas[i] == Row(c, Some(c.produtos[i]))
    {
      var linha := BaseRow(c, Some(c.produtos[k]));
      linhas := linhas + [linha];
      k := k + 1;
    }
  }

  /** All rows of a receipt agree on the issuer, buyer, sale and delivery columns, and every cell is non-empty. */
  lemma RowsShareColumns(c: CupomCompleto, i: nat, j: nat)
    requires i < |Lines(c)| && j < |Lines(c)|
    ensures |Lines(c)[i]| == ColumnCount
    ensures Lines(c)[i][..SharedCount] == Lines(c)[j][..SharedCount]
    ensures AllTruthy(Lines(c)[i])
  {
  }

  /** A receipt without items gives one row, ending in six sentinels. */
  lemma NoItemsRow(c: CupomCompleto)
    requires |c.produtos| == 0
    ensures |Lines(c)| == 1
    ensures Lines(c)[0][SharedCount..] == NACells(6)
  {
  }

  /** An absent or empty buyer or delivery location renders as sentinels in every row. */
  lemma AbsentPartiesRenderNA(c: CupomCompleto, i: nat)
    requires i < |Lines(c)|
    requires !TemConsumidor(c) && !TemLocalEntrega(c)
    ensures Lines(c)[i][10..12] == NACells(2)
    ensures Lines(c)[i][18..24] == NACells(6)
  {
    var row := Lines(c)[i];
    assert row[..SharedCount] == SharedColumns(c);
    assert row[10..12] == SharedColumns(c)[10..12];
    assert row[18..24] == SharedColumns(c)[18..24];
  }

  // ---------------------------------------------------------------------------------------------
  // The file name chosen by `salvar`

  const Extension := ".csv"

  predicate IsCnpjSeparator(x: char) {
    x == '.' || x == '/' || x == '-'
  }

  /** The CNPJ without its `.`, `/` and `-` separators; every other character is kept. */
  function CleanCnpj(cnpj: string): (r: string)
    ensures '.' !in r && '/' !in r && '-' !in r
    ensures |r| <= |cnpj| && forall x :: x in r ==> x in cnpj
    ensures forall x :: x in cnpj && !IsCnpjSeparator(x) ==> x in r
  {
    RemoveChar(RemoveChar(RemoveChar(cnpj, '.'), '/'), '-')
  }

  /** Cleaning works piece by piece, so the kept characters stay in their order. */
  lemma CleanCnpjConcat(a: string, b: string)
    ensures CleanCnpj(a + b) == CleanCnpj(a) + CleanCnpj(b)
  {
    RemoveCharConcat(a, b, '.');
    RemoveCharConcat(RemoveChar(a, '.'), RemoveChar(b, '.'), '/');
    RemoveCharConcat(RemoveChar(RemoveChar(a, '.'), '/'), RemoveChar(RemoveChar(b, '.'), '/'), '-');
  }

  /** A single character is dropped iff it is a separator. */
  lemma CleanCnpjChar(x: char)
    ensures CleanCnpj([x]) == if IsCnpjSeparator(x) then [] else [x]
  {
  }

  /** The name used when none is requested: `cupom_<cnpj or sem_cnpj>_<timestamp>.csv`. */
  function DefaultFileName(cnpj: Option<string>, timestamp: string): (name: string)
    ensures EndsWith(name, Extension)
    ensures |name| > 6 && name[..6] == "cupom_"
    ensures IsFilled(cnpj) ==> name == "cupom_" + CleanCnpj(cnpj.value) + "_" + timestamp + Extension
    ensures !IsFilled(cnpj) ==> name == "cupom_" + "sem_cnpj" + "_" + timestamp + Extension
  {
    var cnpjLimpo := if IsFilled(cnpj) then CleanCnpj(cnpj.value) else "sem_cnpj";
    Framed("cupom_", cnpjLimpo + "_" + timestamp, Extension);
    Regroup4("cupom_", cnpjLimpo, "_" + timestamp, Extension);
    "cupom_" + cnpjLimpo + "_" + timestamp + Extension
  }

  lemma Regroup4<T>(a: seq<T>, b: seq<T>, c: seq<T>, d: seq<T>)
    ensures a + b + c + d == a + (b + c) + d
  {
  }

  /** The CNPJ is cleaned of its `/`, so the default name has no directory part unless the timestamp brings one. */
  lemma DefaultFileNameIsPlain(cnpj: Option<string>, timestamp: string)
    requires '/' !in timestamp
    ensures '/' !in DefaultFileName(cnpj, timestamp)
  {
    var middle := (if IsFilled(cnpj) then CleanCnpj(cnpj.value) else "sem_cnpj") + "_" + timestamp;
    assert '/' !in "cupom_" && '/' !in "sem_cnpj" && '/' !in "_" && '/' !in Extension;
    assert '/' !in middle;
    Framed("cupom_", middle, Extension);
  }

  /** `p + m + e` starts with `p`, ends with `e`, and holds only their characters. */
  lemma Framed(p: string, m: string, e: string)
    ensures (p + m + e)[..|p|] == p && EndsWith(p + m + e, e)
    ensures forall x :: x in p + m + e ==> x in p || x in m || x in e
  {
    assert (p + m + e)[|p + m + e| - |e|..] == e;
  }

  /**
   * The file name `salvar` writes to: the requested name, or the default one when none (or an
   * empty one) is given; `.csv` is appended when the name does not already end with it.
   */
  method ResolveFileName(nomeArquivo: Option<string>, cnpj: Option<string>, timestamp: string) returns (nome: string)
    ensures EndsWith(nome, Extension)
    ensures !IsFilled(nomeArquivo) ==> nome == DefaultFileName(cnpj, timestamp)
    ensures IsFilled(nomeArquivo) && EndsWith(nomeArquivo.value, Extension) ==> nome == nomeArquivo.value
    ensures IsFilled(nomeArquivo) && !EndsWith(nomeArquivo.value, Extension) ==> nome == nomeArquivo.value + Extension
  {
    if !IsFilled(nomeArquivo) {
      nome := DefaultFileName(cnpj, timestamp);
    } else {
      nome := nomeArquivo.value;
    }
    if !EndsWith(nome, Extension) {
      nome := nome + Extension;
      assert nome[|nome| - |Extension|..] == Extension;
    }
  }
}
