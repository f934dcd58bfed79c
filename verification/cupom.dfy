/** `Cupom` (src/models/cupom.py): the general data of the sale. All values are kept as page text. */
module CupomModel {
  import opened Wrappers
  import opened Text

  datatype Cupom = Cupom(
    total: Option<string> := None,
    forma_pagamento: Option<string> := None,
    troco: Option<string> := None,
    tributos: Option<string> := None,
    data_hora: Option<string> := None,
    qr_code: Option<string> := None)

  /** The keys of `to_dict`, in the order of the fields. */
  const CupomKeys: seq<string> := ["total", "forma_pagamento", "troco", "tributos", "data_hora", "qr_code"]

  /** The fields, in declaration order. */
  function Fields(c: Cupom): seq<Option<string>> {
    [c.total, c.forma_pagamento, c.troco, c.tributos, c.data_hora, c.qr_code]
  }

  /**
   * `to_dict`: one entry per field, under its own name; a non-empty value passes through and a
   * missing or empty one becomes `'N/A'`, so no entry is empty.
   */
  function ToDict(c: Cupom): (d: Dict<string>)
    ensures KeysOf(d) == CupomKeys
    ensures forall i :: 0 <= i < |d| ==> d[i].1 != ""
    ensures forall i :: 0 <= i < |d| && IsFilled(Fields(c)[i]) ==> d[i].1 == Fields(c)[i].value
    ensures forall i :: 0 <= i < |d| && !IsFilled(Fields(c)[i]) ==> d[i].1 == NA
  {
    RenderNA(CupomKeys, Fields(c))
  }

  /** The six keys are distinct: one entry per field. */
  lemma KeysDistinct()
    ensures |CupomKeys| == 6 && Distinct(CupomKeys)
  {
  }

  /** Every field of a receipt built with no arguments is None, so every entry is `'N/A'`. */
  lemma DefaultIsAllNA()
    ensures forall f :: f in Fields(Cupom()) ==> f.None?
    ensures forall i :: 0 <= i < |ToDict(Cupom())| ==> ToDict(Cupom())[i].1 == NA
  {
  }
}
