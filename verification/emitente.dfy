/** `Emitente` (src/models/emitente.py): the establishment that issued the receipt. */
module EmitenteModel {
  import opened Wrappers
  import opened Text

  datatype Emitente = Emitente(
    ie: Option<string> := None,
    im: Option<string> := None,
    extrato_numero: Option<string> := None,
    sat_numero: Option<string> := None,
    nome: Option<string> := None,
    cnpj: Option<string> := None,
    endereco: Option<string> := None,
    bairro: Option<string> := None,
    cep: Option<string> := None,
    uf: Option<string> := None)

  /** The keys of `to_dict`, in the order of the fields. */
  const EmitenteKeys: seq<string> :=
    ["ie", "im", "extrato_numero", "sat_numero", "nome", "cnpj", "endereco", "bairro", "cep", "uf"]

  /** The fields, in declaration order. */
  function Fields(e: Emitente): seq<Option<string>> {
    [e.ie, e.im, e.extrato_numero, e.sat_numero, e.nome, e.cnpj, e.endereco, e.bairro, e.cep, e.uf]
  }

  /**
   * `to_dict`: one entry per field, under its own name; a non-empty value passes through and a
   * missing or empty one becomes `'N/A'`, so no entry is empty.
   */
  function ToDict(e: Emitente): (d: Dict<string>)
    ensures KeysOf(d) == EmitenteKeys
    ensures forall i :: 0 <= i < |d| ==> d[i].1 != ""
    ensures forall i :: 0 <= i < |d| && IsFilled(Fields(e)[i]) ==> d[i].1 == Fields(e)[i].value
    ensures forall i :: 0 <= i < |d| && !IsFilled(Fields(e)[i]) ==> d[i].1 == NA
  {
    RenderNA(EmitenteKeys, Fields(e))
  }

  /** The entries of `to_dict` one by one, in field order. */
  lemma Entries(e: Emitente)
    ensures var d := ToDict(e);
      && |d| == 10
      && d[0] == ("ie", OrNA(e.ie)) && d[1] == ("im", OrNA(e.im))
      && d[2] == ("extrato_numero", OrNA(e.extrato_numero)) && d[3] == ("sat_numero", OrNA(e.sat_numero))
      && d[4] == ("nome", OrNA(e.nome)) && d[5] == ("cnpj", OrNA(e.cnpj))
      && d[6] == ("endereco", OrNA(e.endereco)) && d[7] == ("bairro", OrNA(e.bairro))
      && d[8] == ("cep", OrNA(e.cep)) && d[9] == ("uf", OrNA(e.uf))
  {
  }

  /** The ten keys are distinct: one entry per field. */
  lemma KeysDistinct()
    ensures |EmitenteKeys| == 10 && Distinct(EmitenteKeys)
  {
  }

  /** Every field of an issuer built with no arguments is None, so every entry is `'N/A'`. */
  lemma DefaultIsAllNA()
    ensures forall f :: f in Fields(Emitente()) ==> f.None?
    ensures forall i :: 0 <= i < |ToDict(Emitente())| ==> ToDict(Emitente())[i].1 == NA
  {
  }
}
