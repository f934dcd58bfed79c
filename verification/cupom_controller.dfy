/**
 * The controller that runs one receipt through key resolution, extraction and saving, and runs a
 * batch of receipts one after the other. The key resolver is modelled in `QrCodeService`; the
 * browser session and the CSV writer are collaborators whose answers are given as an environment.
 */
module CupomController {
  import opened Wrappers
  import opened Text
  import opened Seqs
  import opened QrCodeService
  import opened CupomCompletoModel

  /** What `extrair_dados_cupom` gave back for a key: a receipt or None, or the message of an exception it raised. */
  datatype Extraction = Extracted(cupom: Option<CupomCompleto>) | ExtractionRaised(error: string)

  /** What `salvar` gave back: the path it wrote, or the message of an exception it raised. */
  datatype SaveOutcome = Saved(path: string) | SaveRaised(error: string)

  /**
   * The collaborators as one call of `processar_cupom` finds them: the payload an image input
   * decodes to, the scraper's answer for each key, and the writer's answer for each receipt and
   * requested file name.
   */
  datatype Env = Env(
    payload: Option<string>,
    extract: string -> Extraction,
    save: (CupomCompleto, Option<string>) -> SaveOutcome)

  /** The tuple `processar_cupom` returns: (sucesso, cupom, arquivo, mensagem). */
  datatype Outcome = Outcome(sucesso: bool, cupom: Option<CupomCompleto>, arquivo: Option<string>, mensagem: string)

  const InvalidKeyMessage := "ERRO: Chave de acesso inválida"
  const NoDataMessage := "ERRO: Não foi possível extrair os dados do cupom"
  const ExtractionErrorPrefix := "ERRO na extração: "
  const SaveErrorPrefix := "AVISO: Dados extraídos mas erro ao salvar CSV: "
  const SavedMessage := "Cupom processado e salvo com sucesso"
  const ProcessedMessage := "Cupom processado com sucesso"

  /**
   * `processar_cupom`: resolve the key, extract the receipt with it, then save it when asked.
   * Success means a receipt was extracted; a failed save keeps the receipt and only loses the path.
   */
  function ProcessarCupom(entrada: string, env: Env, salvarCsv: bool, nomeArquivo: Option<string>): (o: Outcome)
    ensures o.sucesso <==> o.cupom.Some?
    ensures !o.sucesso ==> o.arquivo.None?
    ensures o.arquivo.Some? ==> salvarCsv
    ensures ProcessInput(entrada, env.payload).None? ==> o == Outcome(false, None, None, InvalidKeyMessage)
  {
    match ProcessInput(entrada, env.payload)
    case None => Outcome(false, None, None, InvalidKeyMessage)
    case Some(chave) =>
      match env.extract(chave)
      case ExtractionRaised(e) => Outcome(false, None, None, ExtractionErrorPrefix + e)
      case Extracted(None) => Outcome(false, None, None, NoDataMessage)
      case Extracted(Some(c)) =>
        if !salvarCsv then Outcome(true, Some(c), None, ProcessedMessage)
        else match env.save(c, nomeArquivo)
          case SaveRaised(e) => Outcome(true, Some(c), None, SaveErrorPrefix + e)
          case Saved(path) => Outcome(true, Some(c), Some(path), SavedMessage)
  }

  /** A resolved key whose extraction gives nothing or raises fails, with no receipt and no path. */
  lemma ExtractionFailure(entrada: string, env: Env, salvarCsv: bool, nomeArquivo: Option<string>)
    requires ProcessInput(entrada, env.payload).Some?
    ensures var x := env.extract(ProcessInput(entrada, env.payload).value);
      var o := ProcessarCupom(entrada, env, salvarCsv, nomeArquivo);
      && (x == Extracted(None) ==> o == Outcome(false, None, None, NoDataMessage))
      && (x.ExtractionRaised? ==> o == Outcome(false, None, None, ExtractionErrorPrefix + x.error))
  {
  }

  /**
   * A receipt extracted with the resolved key is a success carrying that receipt, whether or not
   * saving works: a failed save only loses the path and reports a warning.
   */
  lemma ExtractedReceipt(entrada: string, env: Env, salvarCsv: bool, nomeArquivo: Option<string>, c: CupomCompleto)
    requires ProcessInput(entrada, env.payload).Some?
    requires env.extract(ProcessInput(entrada, env.payload).value) == Extracted(Some(c))
    ensures var o := ProcessarCupom(entrada, env, salvarCsv, nomeArquivo);
      && o.sucesso && o.cupom == Some(c)
      && (!salvarCsv ==> o.arquivo.None? && o.mensagem == ProcessedMessage)
      && (salvarCsv && env.save(c, nomeArquivo).SaveRaised? ==>
            o.arquivo.None? && o.mensagem == SaveErrorPrefix + env.save(c, nomeArquivo).error)
      && (salvarCsv && env.save(c, nomeArquivo).Saved? ==>
            o.arquivo == Some(env.save(c, nomeArquivo).path) && o.mensagem == SavedMessage)
  {
  }

  /**
   * An input that does not resolve to a key never reaches the scraper or the writer: whatever they
   * would answer, the outcome is the same.
   */
  lemma InvalidKeySkipsExtraction(entrada: string, env1: Env, env2: Env, salvarCsv: bool, nomeArquivo: Option<string>)
    requires env1.payload == env2.payload
    requires ProcessInput(entrada, env1.payload).None?
    ensures ProcessarCupom(entrada, env1, salvarCsv, nomeArquivo) == ProcessarCupom(entrada, env2, salvarCsv, nomeArquivo)
    ensures !ProcessarCupom(entrada, env1, salvarCsv, nomeArquivo).sucesso
  {
  }

  /** With saving switched off the writer is never consulted and no path is returned. */
  lemma NoSaveIgnoresWriter(entrada: string, env: Env, save: (CupomCompleto, Option<string>) -> SaveOutcome, nomeArquivo: Option<string>)
    ensures ProcessarCupom(entrada, env, false, nomeArquivo) == ProcessarCupom(entrada, env.(save := save), false, nomeArquivo)
    ensures ProcessarCupom(entrada, env, false, nomeArquivo).arquivo.None?
  {
  }

  /** A typed key with a single digit too few is rejected before any extraction. */
  lemma ShortTypedKeyFails(entrada: string, env: Env, salvarCsv: bool, nomeArquivo: Option<string>)
    requires !IsImagePath(Strip(entrada))
    requires |CleanTypedKey(Strip(entrada))| == 43
    ensures ProcessarCupom(entrada, env, salvarCsv, nomeArquivo) == Outcome(false, None, None, InvalidKeyMessage)
  {
  }

  /** The tuple `validar_chave` returns: (valido, chave, mensagem). */
  datatype Validation = Validation(valido: bool, chave: Option<string>, mensagem: string)

  /** `validar_chave`: the resolved key, or a rejection, without extracting anything. */
  function ValidarChave(entrada: string, payload: Option<string>): (v: Validation)
    ensures v.valido <==> ProcessInput(entrada, payload).Some?
    ensures v.valido ==> v.chave == ProcessInput(entrada, payload) && v.mensagem == "Chave válida" && ValidateKey(v.chave.value)
    ensures !v.valido ==> v.chave.None? && v.mensagem == "Chave inválida"
  {
    match ProcessInput(entrada, payload)
    case Some(chave) => Validation(true, Some(chave), "Chave válida")
    case None => Validation(false, None, "Chave inválida")
  }

  /** An input `validar_chave` rejects is one `processar_cupom` fails on with the invalid-key message. */
  lemma RejectedKeyFailsProcessing(entrada: string, env: Env, salvarCsv: bool, nomeArquivo: Option<string>)
    requires !ValidarChave(entrada, env.payload).valido
    ensures ProcessarCupom(entrada, env, salvarCsv, nomeArquivo) == Outcome(false, None, None, InvalidKeyMessage)
  {
  }

  /** A successful `processar_cupom` was given an input `validar_chave` accepts. */
  lemma ProcessedKeyWasValid(entrada: string, env: Env, salvarCsv: bool, nomeArquivo: Option<string>)
    requires ProcessarCupom(entrada, env, salvarCsv, nomeArquivo).sucesso
    ensures ValidarChave(entrada, env.payload).valido
  {
  }

  // ---------------------------------------------------------------------------------------------
  // Batches

  /** One entry of `resultados['cupons']`. */
  datatype Entry = Entry(chave: string, sucesso: bool, arquivo: Option<string>, mensagem: string)

  /** The dictionary `processar_multiplos_cupons` returns. */
  datatype Resultados = Resultados(total: nat, sucesso: nat, erro: nat, cupons: seq<Entry>)

  const ShownKeyLength := 20

  /** The key as a batch entry shows it: the first 20 characters and `...` when longer, otherwise whole. */
  function ShownKey(entrada: string): (s: string)
    ensures |entrada| <= ShownKeyLength ==> s == entrada
    ensures |entrada| > ShownKeyLength ==> |s| == ShownKeyLength + 3 && s == entrada[..ShownKeyLength] + "..."
  {
    if |entrada| > ShownKeyLength then entrada[..ShownKeyLength] + "..." else entrada
  }

  /** A batch entry keeps the call's flag, path and message. */
  function EntryOf(entrada: string, o: Outcome): Entry
  {
    Entry(ShownKey(entrada), o.sucesso, o.arquivo, o.mensagem)
  }

  /** The outcome of each call of a batch, the `i`-th call finding the collaborators as `env(i)`; no custom file name. */
  function Outcomes(entradas: seq<string>, env: nat -> Env, salvarCsv: bool): (os: seq<Outcome>)
    ensures |os| == |entradas|
  {
    MapIndexed(entradas, CallOf(env, salvarCsv))
  }

  /** Call `k` of a batch on input `e`. */
  function CallOf(env: nat -> Env, salvarCsv: bool): (string, nat) -> Outcome {
    (e: string, k: nat) => ProcessarCupom(e, env(k), salvarCsv, None)
  }

  /** Outcome `i` of a batch is what `processar_cupom` gives for input `i` with the collaborators of call `i`. */
  lemma OutcomeAt(entradas: seq<string>, env: nat -> Env, salvarCsv: bool, i: nat)
    requires i < |entradas|
    ensures Outcomes(entradas, env, salvarCsv)[i] == ProcessarCupom(entradas[i], env(i), salvarCsv, None)
  {
    MapIndexedAt(entradas, CallOf(env, salvarCsv), i);
  }

  /** How many outcomes are successes. */
  function CountSuccess(os: seq<Outcome>): (n: nat)
    ensures n <= |os|
  {
    if os == [] then 0
    else CountSuccess(os[..|os| - 1]) + (if os[|os| - 1].sucesso then 1 else 0)
  }

  /** Every call succeeded exactly when the success count is the batch size; none did exactly when it is zero. */
  lemma {:induction false} CountSuccessBounds(os: seq<Outcome>)
    ensures CountSuccess(os) == |os| <==> forall i :: 0 <= i < |os| ==> os[i].sucesso
    ensures CountSuccess(os) == 0 <==> forall i :: 0 <= i < |os| ==> !os[i].sucesso
  {
    if os != [] {
      var init := os[..|os| - 1];
      CountSuccessBounds(init);
      assert forall i :: 0 <= i < |init| ==> init[i] == os[i];
    }
  }

  /** Counting one more outcome adds one exactly when that outcome is a success. */
  lemma CountSuccessStep(os: seq<Outcome>, n: nat)
    requires n < |os|
    ensures CountSuccess(os[..n + 1]) == CountSuccess(os[..n]) + (if os[n].sucesso then 1 else 0)
  {
    assert os[..n + 1][..n] == os[..n];
  }

  /** Appending the entry of call `n` to entries that agree with the first `n` calls keeps them agreeing. */
  lemma EntriesExtend(cupons: seq<Entry>, entradas: seq<string>, os: seq<Outcome>, n: nat)
    requires n == |cupons| && n < |entradas| && n < |os|
    requires forall i :: 0 <= i < n ==> cupons[i] == EntryOf(entradas[i], os[i])
    ensures forall i :: 0 <= i < n + 1 ==> (cupons + [EntryOf(entradas[n], os[n])])[i] == EntryOf(entradas[i], os[i])
  {
  }

  /**
   * `processar_multiplos_cupons`: processes every input in order, counting successes and failures
   * and recording one entry per input.
   */
  method ProcessarMultiplos(entradas: seq<string>, env: nat -> Env, salvarCsv: bool) returns (r: Resultados)
    ensures r.total == |entradas| && r.sucesso + r.erro == r.total
    ensures r.sucesso == CountSuccess(Outcomes(entradas, env, salvarCsv))
    ensures |r.cupons| == |entradas|
    ensures forall i :: 0 <= i < |entradas| ==> r.cupons[i] == EntryOf(entradas[i], Outcomes(entradas, env, salvarCsv)[i])
  {
    ghost var os := Outcomes(entradas, env, salvarCsv);
    var sucesso, erro := 0, 0;
    var cupons: seq<Entry> := [];
    var idx := 0;
    while idx < |entradas|
      invariant 0 <= idx <= |entradas|
      invariant sucesso + erro == idx
      invariant sucesso == CountSuccess(os[..idx])
      invariant |cupons| == idx
      invariant forall i :: 0 <= i < idx ==> cupons[i] == EntryOf(entradas[i], os[i])
    {
      var o := ProcessarCupom(entradas[idx], env(idx), salvarCsv, None);
      OutcomeAt(entradas, env, salvarCsv, idx);
      assert o == os[idx];
      CountSuccessStep(os, idx);
      if o.sucesso {
        sucesso := sucesso + 1;
      } else {
        erro := erro + 1;
      }
      EntriesExtend(cupons, entradas, os, idx);
      cupons := cupons + [EntryOf(entradas[idx], o)];
      idx := idx + 1;
    }
    assert os[..|entradas|] == os;
    r := Resultados(|entradas|, sucesso, erro, cupons);
  }

  /** A batch whose every call succeeded has no errors, and one whose every call failed has no successes. */
  lemma BatchTally(entradas: seq<string>, env: nat -> Env, salvarCsv: bool)
    ensures var os := Outcomes(entradas, env, salvarCsv);
      && ((forall i :: 0 <= i < |os| ==> os[i].sucesso) ==> CountSuccess(os) == |entradas|)
      && ((forall i :: 0 <= i < |os| ==> !os[i].sucesso) ==> CountSuccess(os) == 0)
  {
    CountSuccessBounds(Outcomes(entradas, env, salvarCsv));
  }
}
