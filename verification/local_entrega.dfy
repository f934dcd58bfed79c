/** `LocalEntrega` (src/models/local_entrega.py): where the goods were delivered, often absent. */
module LocalEntregaModel {
  import opened Wrappers
  import opened Text

  datatype LocalEntrega = LocalEntrega(
    endereco: Option<string> := None,
    bairro: Option<string> := None,
    municipio: Option<string> := None,
    uf: Option<string> := None,
    numero_cfe: Option<string> := None,
    chave_acesso: Option<string> := None)

  /** The keys of `to_dict`, in the order of the fields. */
  const LocalEntregaKeys: seq<string> := ["endereco", "bairro", "municipio", "uf", "numero_cfe", "chave_acesso"]

  /** The fields, in declaration order. */
  function Fields(l: LocalEntrega): seq<Option<string>> {
    [l.endereco, l.bairro, l.municipio, l.uf, l.numero_cfe, l.chave_acesso]
  }

  /**
   * `to_dict`: one entry per field, under its own name; a non-empty value passes through and a
   * missing or empty one becomes `'N/A'`, so no entry is empty.
   */
  function ToDict(l: LocalEntrega): (d: Dict<string>)
    ensures KeysOf(d) == LocalEntregaKeys
    ensures forall i :: 0 <= i < |d| ==> d[i].1 != ""
    ensures forall i :: 0 <= i < |d| && IsFilled(Fields(l)[i]) ==> d[i].1 == Fields(l)[i].value
    ensures forall i :: 0 <= i < |d| && !IsFilled(Fields(l)[i]) ==> d[i].1 == NA
  {
    RenderNA(LocalEntregaKeys, Fields(l))
  }

  /** The six keys are distinct: one entry per field. */
  lemma KeysDistinct()
    ensures |LocalEntregaKeys| == 6 && Distinct(LocalEntregaKeys)
  {
  }

  /**
   * `esta_presente`: the address or the municipality is non-empty. A present location shows its own
   * address or municipality in `to_dict`; an absent one has `'N/A'` under both keys.
   */
  predicate EstaPresente(l: LocalEntrega)
    ensures EstaPresente(l) ==>
      (IsFilled(l.endereco) && ToDict(l)[0] == ("endereco", l.endereco.value))
      || (IsFilled(l.municipio) && ToDict(l)[2] == ("municipio", l.municipio.value))
    ensures !EstaPresente(l) ==> ToDict(l)[0] == ("endereco", NA) && ToDict(l)[2] == ("municipio", NA)
  {
    IsFilled(l.endereco) || IsFilled(l.municipio)
  }

  /** A location built with no arguments is not present, and renders as `'N/A'` throughout. */
  lemma DefaultNotPresent()
    ensures forall f :: f in Fields(LocalEntrega()) ==> f.None?
    ensures !EstaPresente(LocalEntrega())
    ensures forall i :: 0 <= i < |ToDict(LocalEntrega())| ==> ToDict(LocalEntrega())[i].1 == NA
  {
  }

  /**
   * Presence depends on the address and the municipality only: the district, state, CF-e number
   * and access key can be anything, and filling only those leaves the location absent.
   */
  lemma PresenceIgnoresOtherFields(l: LocalEntrega, m: LocalEntrega)
    requires l.endereco == m.endereco && l.municipio == m.municipio
    ensures EstaPresente(l) <==> EstaPresente(m)
    ensures !IsFilled(l.endereco) && !IsFilled(l.municipio) ==> !EstaPresente(l)
  {
  }
}
