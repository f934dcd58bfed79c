/**
 * `CupomCompleto` (src/models/cupom_completo.py): everything extracted from one receipt, and its
 * dictionary form with a `resumo` (summary) block.
 */
module CupomCompletoModel {
  import opened Wrappers
  import opened Text
  import EmitenteModel
  import CupomModel
  import ConsumidorModel
  import LocalEntregaModel
  import ProdutoModel

  /** The issuer, the sale and the items are required; buyer and delivery location default to None. */
  datatype CupomCompleto = CupomCompleto(
    emitente: EmitenteModel.Emitente,
    cupom: CupomModel.Cupom,
    produtos: seq<ProdutoModel.Produto>,
    consumidor: Option<ConsumidorModel.Consumidor> := None,
    local_entrega: Option<LocalEntregaModel.LocalEntrega> := None)

  /** The `resumo` entry. `valor_total` is the receipt total as captured, possibly None. */
  datatype Resumo = Resumo(
    total_produtos: nat,
    valor_total: Option<string>,
    tem_consumidor: bool,
    tem_local_entrega: bool)

  /** The dictionary `to_dict` returns; a None entry is an absent sub-object. */
  datatype CupomDict = CupomDict(
    emitente: Dict<string>,
    consumidor: Option<Dict<string>>,
    cupom: Dict<string>,
    local_entrega: Option<Dict<string>>,
    produtos: seq<Dict<Cell>>,
    resumo: Resumo)

  /** `tem_consumidor`: a buyer object exists and holds data. */
  predicate TemConsumidor(c: CupomCompleto) {
    c.consumidor.Some? && ConsumidorModel.EstaPresente(c.consumidor.value)
  }

  /** `tem_local_entrega`: a delivery object exists and holds data. */
  predicate TemLocalEntrega(c: CupomCompleto) {
    c.local_entrega.Some? && LocalEntregaModel.EstaPresente(c.local_entrega.value)
  }

  /**
   * `to_dict`: every part in dictionary form, the items in their order, and the summary. A
   * sub-object is rendered whenever it exists, even when it holds no data.
   */
  function ToDict(c: CupomCompleto): (d: CupomDict)
    ensures d.emitente == EmitenteModel.ToDict(c.emitente) && d.cupom == CupomModel.ToDict(c.cupom)
    ensures d.consumidor.None? <==> c.consumidor.None?
    ensures c.consumidor.Some? ==> d.consumidor == Some(ConsumidorModel.ToDict(c.consumidor.value))
    ensures d.local_entrega.None? <==> c.local_entrega.None?
    ensures c.local_entrega.Some? ==> d.local_entrega == Some(LocalEntregaModel.ToDict(c.local_entrega.value))
    ensures |d.produtos| == |c.produtos| == d.resumo.total_produtos
    ensures forall i :: 0 <= i < |c.produtos| ==> d.produtos[i] == ProdutoModel.ToDict(c.produtos[i])
    ensures d.resumo.valor_total == c.cupom.total
    ensures d.resumo.tem_consumidor <==> TemConsumidor(c)
    ensures d.resumo.tem_local_entrega <==> TemLocalEntrega(c)
  {
    CupomDict(
      emitente := EmitenteModel.ToDict(c.emitente),
      consumidor := if c.consumidor.Some? then Some(ConsumidorModel.ToDict(c.consumidor.value)) else None,
      cupom := CupomModel.ToDict(c.cupom),
      local_entrega := if c.local_entrega.Some? then Some(LocalEntregaModel.ToDict(c.local_entrega.value)) else None,
      produtos := seq(|c.produtos|, i requires 0 <= i < |c.produtos| => ProdutoModel.ToDict(c.produtos[i])),
      resumo := Resumo(
        total_produtos := |c.produtos|,
        valor_total := c.cupom.total,
        tem_consumidor := TemConsumidor(c),
        tem_local_entrega := TemLocalEntrega(c)))
  }

  /** An aggregate built from its three required parts has neither buyer nor delivery location. */
  lemma DefaultsAbsent(e: EmitenteModel.Emitente, cupom: CupomModel.Cupom, ps: seq<ProdutoModel.Produto>)
    ensures var d := ToDict(CupomCompleto(e, cupom, ps));
      d.consumidor.None? && d.local_entrega.None? && !d.resumo.tem_consumidor && !d.resumo.tem_local_entrega
  {
  }

  /**
   * A buyer object that holds no data is still rendered, as all `'N/A'`, while the summary says
   * there is no buyer; the same holds for the delivery location.
   */
  lemma EmptyObjectsRenderedButNotCounted(c: CupomCompleto)
    requires c.consumidor == Some(ConsumidorModel.Consumidor())
    requires c.local_entrega == Some(LocalEntregaModel.LocalEntrega())
    ensures ToDict(c).consumidor == Some([("cpf_cnpj", NA), ("nome", NA)])
    ensures forall i :: 0 <= i < |ToDict(c).local_entrega.value| ==> ToDict(c).local_entrega.value[i].1 == NA
    ensures !ToDict(c).resumo.tem_consumidor && !ToDict(c).resumo.tem_local_entrega
  {
    ConsumidorModel.PresenceAndDict(ConsumidorModel.Consumidor());
    LocalEntregaModel.DefaultNotPresent();
  }
}
