/** `Consumidor` (src/models/consumidor.py): the buyer, often absent from a receipt. */
module ConsumidorModel {
  import opened Wrappers
  import opened Text

  datatype Consumidor = Consumidor(cpf_cnpj: Option<string> := None, nome: Option<string> := None)

  /** The keys of `to_dict`, in the order of the fields. */
  const ConsumidorKeys: seq<string> := ["cpf_cnpj", "nome"]

  /** The fields, in declaration order. */
  function Fields(c: Consumidor): seq<Option<string>> {
    [c.cpf_cnpj, c.nome]
  }

  /**
   * `to_dict`: one entry per field, under its own name; a non-empty value passes through and a
   * missing or empty one becomes `'N/A'`, so no entry is empty.
   */
  function ToDict(c: Consumidor): (d: Dict<string>)
    ensures KeysOf(d) == ConsumidorKeys
    ensures forall i :: 0 <= i < |d| ==> d[i].1 != ""
    ensures forall i :: 0 <= i < |d| && IsFilled(Fields(c)[i]) ==> d[i].1 == Fields(c)[i].value
    ensures forall i :: 0 <= i < |d| && !IsFilled(Fields(c)[i]) ==> d[i].1 == NA
  {
    RenderNA(ConsumidorKeys, Fields(c))
  }

  /**
   * `esta_presente`: some field holds a non-empty value. A buyer that is not present renders as
   * `'N/A'` in every entry of `to_dict`.
   */
  predicate EstaPresente(c: Consumidor)
    ensures EstaPresente(c) <==> exists f :: f in Fields(c) && IsFilled(f)
    ensures !EstaPresente(c) ==> forall i :: 0 <= i < |ToDict(c)| ==> ToDict(c)[i].1 == NA
  {
    IsFilled(c.cpf_cnpj) || IsFilled(c.nome)
  }

  /** A buyer built with no arguments is not present. */
  lemma DefaultNotPresent()
    ensures Consumidor().cpf_cnpj.None? && Consumidor().nome.None?
    ensures !EstaPresente(Consumidor())
  {
  }

  /**
   * An absent buyer renders as `'N/A'` in both entries; a present one shows at least one of its
   * own values.
   */
  lemma PresenceAndDict(c: Consumidor)
    ensures !EstaPresente(c) ==> ToDict(c) == [("cpf_cnpj", NA), ("nome", NA)]
    ensures EstaPresente(c) ==>
      (c.cpf_cnpj.Some? && ToDict(c)[0].1 == c.cpf_cnpj.value) || (c.nome.Some? && ToDict(c)[1].1 == c.nome.value)
  {
    var d := ToDict(c);
    assert |d| == 2;
    if !EstaPresente(c) {
      assert d[0] == ("cpf_cnpj", NA) && d[1] == ("nome", NA);
    }
  }
}
