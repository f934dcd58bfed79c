# NFCe-scraper, modelled in Dafny

NFCe-scraper reads Brazilian SAT/NFC-e fiscal receipts. It takes a 44-digit access key (typed by
hand or decoded from the receipt's QR code) and looks the receipt up on the state tax portal in a
browser. It then reads the issuer, buyer, sale, delivery location and line items from the page, and
writes them as one CSV row per item. This project models the logic of that pipeline and proves what
it promises. The browser, the image decoder, the file system and the clock are not modelled.

One Dafny module per source file, plus three helper modules (`Text`, `Wrappers`, `Seqs`):

| file | module | models |
|---|---|---|
| `qrcode_service.dfy` | `QrCodeService` | typed-key cleaning, key validation, the four payload patterns in priority order, routing of an entry to the image or the typed branch |
| `produto.dfy` | `ProdutoModel` | `Produto`: `__post_init__` normalisation, the cleaning and parsing of `_converter_para_float`, `validar`, `to_dict` |
| `emitente.dfy`, `cupom.dfy`, `consumidor.dfy`, `local_entrega.dfy` | `EmitenteModel`, `CupomModel`, `ConsumidorModel`, `LocalEntregaModel` | defaults, `to_dict` with its `'N/A'` sentinel, `esta_presente` |
| `cupom_completo.dfy` | `CupomCompletoModel` | the aggregate and its `to_dict`, including the `resumo` block |
| `csv_repository.dfy` | `CsvRepository` | header, row building, the fan-out of `_gerar_linhas`, the file-name rule of `salvar` |
| `web_scraper_service.dfy` | `Scraper` | the session of `extrair_dados_cupom` against a page oracle, field extraction, the Detalhes lookup, product-row assembly |
| `cupom_controller.dfy` | `CupomController` | `processar_cupom`, the batch tally, `validar_chave` |
| `text.dfy`, `wrappers.dfy`, `seqs.dfy` | `Text`, `Wrappers`, `Seqs` | character classes, `strip`, the `'N/A'` rendering, dictionaries as ordered entry lists, `Option`, sequence helpers |

Modelling choices:

- **The page as an oracle.** A `Scraper.Page` value says:
  - whether the browser starts and the portal loads;
  - which elements exist and their texts (keyed by an `ElementId` whose `HtmlId` is the DOM id);
  - which elements become clickable, and the `value` of each submit input;
  - the product table's rows.
- **The service as a class.** `WebScraperService` keeps:
  - the handle of the browser it drives;
  - how many browsers it started;
  - the handles it called `quit` on;
  - the portal actions it performed, in order.

  The step order, the early exits and the `finally` release are stated on those fields.
- **The controller's collaborators as an environment.** `CupomController.Env` holds three answers:
  - the payload an image decodes to;
  - the scraper's answer per key: a receipt, None, or a raised error;
  - the writer's answer per receipt: a path or a raised error.

  A batch gets one environment per call, `nat -> Env`.
- **Amounts are exact reals.** `float()` of a cleaned numeral is its exact decimal value.
- **Python dicts are ordered entry lists** (`Text.Dict`), so key order and key count can be stated.

## Model

| member | source | states |
|---|---|---|
| QrCodeService.CleanTypedKey | src/services/qrcode_service.py:60-72 | the result is all digits and no longer than the input; an all-digit input is kept whole and a digit-free one cleans to `''` |
| QrCodeService.CleanTypedKeyConcat | src/services/qrcode_service.py:71 | cleaning distributes over concatenation; with the single-character cases of `CleanTypedKey` it keeps exactly the digits of the input, in order |
| QrCodeService.CleanTypedKeyIdempotent | src/services/qrcode_service.py:71 | cleaning twice is cleaning once |
| QrCodeService.ValidateKey | src/services/qrcode_service.py:194-221 | true iff the key has length 44 and consists only of digits; a valid key is non-empty |
| QrCodeService.KeyParamAt | src/services/qrcode_service.py:176 | a match at `i` of `?` or `&`, then `chave`, `p` or `key` in any case, then `=`, gives a group start after `i` where 44 digits follow |
| QrCodeService.FirstPosition | src/services/qrcode_service.py:171-183 | `re.search`: the least position where the pattern matches, with no match before it; None iff there is no match at all |
| QrCodeService.DigitRuns | src/services/qrcode_service.py:186 | every run `findall(r'\d+')` reports is a non-empty digit string; text without digits gives no run |
| QrCodeService.DigitRunsSplit | src/services/qrcode_service.py:186 | runs are read left to right: digit-free text, then a run `k` the rest does not continue, gives `k` followed by the runs of the rest |
| QrCodeService.FirstOfKeyLength | src/services/qrcode_service.py:187-189 | the loop's result is the first listed run of length 44, no earlier run having that length; None only when no run has length 44 |
| QrCodeService.SearchFrom | src/services/qrcode_service.py:170-191 | any key found by the patterns from a given one on passes `validar_chave_acesso` |
| QrCodeService.ExtractKeyFromPayload | src/services/qrcode_service.py:150-191 | None for a missing or empty payload; every key returned passes `validar_chave_acesso` |
| QrCodeService.BoundedRunWins | src/services/qrcode_service.py:170-173 | when 44 digits bounded by non-word characters or the edges start at `i`, and no such run starts earlier, the result is those 44 digits, whatever later patterns would find |
| QrCodeService.MaximalRunIsListed | src/services/qrcode_service.py:186 | a maximal digit run of length 44 is among the runs `findall` reports |
| QrCodeService.MaximalRunIsFound | src/services/qrcode_service.py:186-191 | a payload holding a maximal digit run of exactly 44 always yields a key |
| QrCodeService.FallsThroughToRuns | src/services/qrcode_service.py:185-191 | when no earlier pattern matches and the result is None, no run has length 44 |
| QrCodeService.UniqueRunIsFound | src/services/qrcode_service.py:170-191 | a payload whose only digits form one run of 44 yields exactly that run, whichever pattern matches first |
| QrCodeService.SingleRun | src/services/qrcode_service.py:186 | the runs of `a + k + b`, with no digit in `a` or `b`, are exactly `[k]` |
| QrCodeService.NoDigitsNoKey | src/services/qrcode_service.py:170-191 | a payload without any digit yields None |
| QrCodeService.PathNameIsLastComponent | src/services/qrcode_service.py:41-43 | `Path.name` is the path's last component: the slice after the last `/` once the trailing slashes are dropped, with no `/` in it |
| QrCodeService.PathSuffix | src/services/qrcode_service.py:41-43 | `Path.suffix`: non-empty iff the name has a last `.` that is neither its first nor its last character, and then the name from that dot on |
| QrCodeService.KeyFromImage | src/services/qrcode_service.py:110-143 | once decoded: no code or undecodable data gives None; otherwise the payload's key, which passes validation |
| QrCodeService.ProcessInput | src/services/qrcode_service.py:28-57 | an entry whose stripped suffix is a supported image format goes to the image branch only; any other entry yields `limpar(strip(entrada))` when that validates and None when it does not |
| QrCodeService.TypedEntryIgnoresImage | src/services/qrcode_service.py:43-57 | a typed entry's result does not depend on any image payload |
| QrCodeService.NoDotIsTyped | src/services/qrcode_service.py:41-43 | an entry without a `.` is never taken for an image path |
| QrCodeService.ShortEntryRejected | src/services/qrcode_service.py:48-57 | a typed entry shorter than 44 characters is rejected |
| QrCodeService.NineDigitsRejected | src/services/qrcode_service.py:48-57 | `"123456789"` is rejected |
| ProdutoModel.KeepNumericChars | src/models/produto.py:66 | keeps only digits, `.` and `-`; the identity on text that has nothing else |
| ProdutoModel.KeepNumericCharsConcat | src/models/produto.py:66 | the filter distributes over concatenation, keeping the kept characters in order |
| ProdutoModel.CleanNumber | src/models/produto.py:63-66 | the cleaned text holds only digits, `.` and `-`, and no `,` |
| ProdutoModel.ParseDecimal | src/models/produto.py:69 | `float()` on cleaned text: None for the empty text; an unsigned numeral parses as `ParseUnsigned` does; a leading `-` parses iff the rest does, to its negation, never positive |
| ProdutoModel.ParseNegated | src/models/produto.py:69 | `-` in front of an unsigned numeral parses to its negation |
| ProdutoModel.ToAmount | src/models/produto.py:59-60 | an `int`/`float` argument is kept as it is |
| ProdutoModel.CleanCommaDecimal | src/models/produto.py:63-66 | `d,f` over digit runs is cleaned to `d.f` |
| ProdutoModel.CommaDecimal | src/models/produto.py:62-71 | `"<digits>,<digits>"` converts to the decimal number it writes in Brazilian notation |
| ProdutoModel.PointDecimal | src/models/produto.py:62-71 | `"<digits>.<digits>"` converts to the decimal number it writes |
| ProdutoModel.SignedCommaDecimal | src/models/produto.py:62-71 | `"-<digits>,<digits>"` converts to the negative of that number |
| ProdutoModel.CleanPrefixed | src/models/produto.py:63-66 | a label without digits, `.`, `-` or `,` in front of stripped text is dropped by the cleaning |
| ProdutoModel.PrefixedCommaDecimal | src/models/produto.py:62-71 | such a label (`R$ `, say) followed by `<digits>,<digits>` converts to the number the digits write |
| ProdutoModel.CurrencyLabel | src/models/produto.py:62-71 | `"R$ 10,50"` converts to 10.50 |
| ProdutoModel.TenFifty | src/models/produto.py:62-71 | `"10,50"` converts to 10.50 |
| ProdutoModel.CleanThousands | src/models/produto.py:63-66 | `a.b,c` is cleaned to `a.b.c`: both separators become points |
| ProdutoModel.TwoPointsRejected | src/models/produto.py:68-71 | a numeral with two points does not parse |
| ProdutoModel.ThousandsSeparatorGivesZero | src/models/produto.py:62-71 | text with a thousands point and a decimal comma (`1.234,56`) converts to 0 |
| ProdutoModel.StripIfPresent | src/models/produto.py:42-46 | None stays None, `''` stays `''`, any other text `x` becomes `Strip(x)` |
| ProdutoModel.NewProduto | src/models/produto.py:29-46 | after construction the NCM and product code are `Strip` of the arguments; GTIN and description are `StripIfPresent` of theirs; the amounts are converted; the quantity is converted only when present |
| ProdutoModel.PostInit | src/models/produto.py:29-46 | the field-by-field normalisation gives exactly `NewProduto` |
| ProdutoModel.Check | src/models/produto.py:106-122 | a check contributes its error iff its condition fails, and at most one error |
| ProdutoModel.Errors | src/models/produto.py:103-124 | at most five errors |
| ProdutoModel.ErrorsReportFailedChecks | src/models/produto.py:105-114 | an NCM error iff the NCM is not 8 digits (the empty NCM included), and then it is the first error; a net-value error iff the net value is negative; a total-value error iff the total is negative |
| ProdutoModel.ErrorsReportQuantityAndCode | src/models/produto.py:116-122 | a quantity error iff the quantity is present and at most 0, and never for an absent quantity; an empty-code error iff the product code is empty |
| ProdutoModel.ValidIff | src/models/produto.py:103-124 | an item is valid iff every check passes |
| ProdutoModel.BothNegative | src/models/produto.py:110-114 | both amounts negative gives at least two errors |
| ProdutoModel.Validar | src/models/produto.py:96-124 | the list built check by check is `Errors`, and the flag is true iff it is empty |
| ProdutoModel.ToDict | src/models/produto.py:73-88 | seven keys in order; an absent GTIN, description or quantity becomes `''`; the other values pass through |
| ProdutoModel.KeysDistinct | src/models/produto.py:80-88 | the seven keys are distinct |
| Text.StripTrims | src/models/produto.py:39-46 | `strip` cuts whitespace from the two ends only: the result is the part of the text between a leading and a trailing whitespace stretch |
| Text.OrNA | src/models/consumidor.py:21-22 | `value or 'N/A'`: the sentinel for None and `''`, the value otherwise, never empty |
| Text.RenderNA | src/models/emitente.py:26-37 | a dict with exactly the given keys, each value the field or `'N/A'` for a None or empty field, never empty |
| EmitenteModel.ToDict | src/models/emitente.py:24-37 | ten keys in field order; None or `''` maps to `'N/A'`, anything else passes through; no value is empty |
| EmitenteModel.KeysDistinct | src/models/emitente.py:26-37 | exactly ten distinct keys |
| EmitenteModel.DefaultIsAllNA | src/models/emitente.py:13-22 | every field of a default issuer is None, so every entry is `'N/A'` |
| CupomModel.ToDict | src/models/cupom.py:20-29 | six keys in field order; None or `''` maps to `'N/A'`, anything else passes through; no value is empty |
| CupomModel.KeysDistinct | src/models/cupom.py:22-29 | exactly six distinct keys |
| CupomModel.DefaultIsAllNA | src/models/cupom.py:13-18 | every field of a default sale is None, so every entry is `'N/A'` |
| ConsumidorModel.ToDict | src/models/consumidor.py:18-23 | exactly the keys `cpf_cnpj` and `nome`; None or `''` maps to `'N/A'` |
| ConsumidorModel.DefaultNotPresent | src/models/consumidor.py:15-16 | a default buyer has both fields None and is not present |
| ConsumidorModel.PresenceAndDict | src/models/consumidor.py:18-27 | a buyer that is not present renders as two sentinels; a present one shows at least one of its own values |
| ConsumidorModel.EstaPresente | src/models/consumidor.py:25-27 | present iff some field holds a non-empty value; a buyer that is not present renders as `'N/A'` in every entry |
| LocalEntregaModel.ToDict | src/models/local_entrega.py:22-31 | six keys in field order; None or `''` maps to `'N/A'` |
| LocalEntregaModel.KeysDistinct | src/models/local_entrega.py:24-31 | exactly six distinct keys |
| LocalEntregaModel.EstaPresente | src/models/local_entrega.py:33-35 | a present location shows its own non-empty address or municipality in `to_dict`; an absent one has `'N/A'` under both keys |
| LocalEntregaModel.DefaultNotPresent | src/models/local_entrega.py:15-20 | a default location has all fields None, is not present and renders as `'N/A'` throughout |
| LocalEntregaModel.PresenceIgnoresOtherFields | src/models/local_entrega.py:33-35 | presence depends only on address and municipality, so filling only the other fields leaves it false |
| CupomCompletoModel.ToDict | src/models/cupom_completo.py:27-46 | issuer and sale dicts; the buyer and location entries are None exactly when the field is None; items in the same order and number; `total_produtos` is the item count; `valor_total` is the raw total; `tem_consumidor` and `tem_local_entrega` hold iff the object exists and is present |
| CupomCompletoModel.DefaultsAbsent | src/models/cupom_completo.py:21-25 | an aggregate built from its three required parts has no buyer and no location |
| CupomCompletoModel.EmptyObjectsRenderedButNotCounted | src/models/cupom_completo.py:36-44 | an empty buyer or location still renders as all-`'N/A'` dicts while its `tem_*` flag is false |
| CsvRepository.Header | src/repositories/csv_repository.py:76-123 | exactly 30 non-empty column names |
| CsvRepository.TextCell | src/repositories/csv_repository.py:164-173 | `text or 'N/A'`: a non-empty text is the cell, None and `''` give `'N/A'` |
| CsvRepository.NumberCell | src/repositories/csv_repository.py:213-215 | a number is kept unless it is None or 0, which render as `'N/A'` |
| CsvRepository.EmitenteColumns | src/repositories/csv_repository.py:163-174 | ten non-empty issuer cells; which entry each shows is `EmitenteColumnsShowDict` |
| CsvRepository.EmitenteColumnsShowDict | src/repositories/csv_repository.py:163-174 | the issuer cells are the `to_dict` entries nome, cnpj, ie, im, endereco, bairro, cep, uf, extrato_numero, sat_numero, in that order |
| CsvRepository.ConsumidorColumns | src/repositories/csv_repository.py:177-183 | two non-empty cells, both `'N/A'` when the buyer is None or not present |
| CsvRepository.ConsumidorColumnsShowDict | src/repositories/csv_repository.py:177-181 | a present buyer's cells are its `to_dict` entries nome then cpf_cnpj |
| CsvRepository.CupomColumns | src/repositories/csv_repository.py:186-193 | six non-empty sale cells; which entry each shows is `CupomColumnsShowDict` |
| CsvRepository.CupomColumnsShowDict | src/repositories/csv_repository.py:186-193 | the sale cells are the `to_dict` entries total, data_hora, forma_pagamento, troco, tributos, qr_code, in that order |
| CsvRepository.EntregaColumns | src/repositories/csv_repository.py:196-206 | six non-empty cells, all `'N/A'` when the location is None or not present |
| CsvRepository.EntregaColumnsShowDict | src/repositories/csv_repository.py:196-204 | a present location's cells are its `to_dict` entries endereco, bairro, municipio, uf, numero_cfe, chave_acesso, in that order |
| CsvRepository.ProdutoColumns | src/repositories/csv_repository.py:209-219 | six non-empty cells, all `'N/A'` without an item; a zero net value renders as `'N/A'` |
| CsvRepository.ProdutoColumnsShowDict | src/repositories/csv_repository.py:209-217 | an item's cells are its `to_dict` entries Descricao, Codigo_NCM, Quantidade, Valor_Liquido, Valor_Total, Cod_GTIN, in that order, each `'N/A'` when falsy (`''` or 0) |
| CsvRepository.SharedColumns | src/repositories/csv_repository.py:163-206 | the 24 issuer, buyer, sale and delivery cells, none empty |
| CsvRepository.Row | src/repositories/csv_repository.py:151-221 | 30 cells (as many as the header) with or without an item: the shared columns, then the item's; no cell is empty |
| CsvRepository.RowSections | src/repositories/csv_repository.py:163-219 | the row is the issuer cells (0-9), buyer (10-11), sale (12-17), delivery (18-23) and item (24-29), in header order |
| CsvRepository.BaseRow | src/repositories/csv_repository.py:151-221 | the row grown section by section is `Row` |
| CsvRepository.Lines | src/repositories/csv_repository.py:125-149 | one item-less row when there are no items; otherwise one row per item, row `i` from item `i` |
| CsvRepository.GenerateLines | src/repositories/csv_repository.py:125-149 | the rows appended in the loop are `Lines` |
| CsvRepository.RowsShareColumns | src/repositories/csv_repository.py:145-149 | every row has 30 cells, no cell is empty, and all rows of a receipt agree on their first 24 columns |
| CsvRepository.NoItemsRow | src/repositories/csv_repository.py:140-142 | zero items give exactly one row whose last six cells are `'N/A'` |
| CsvRepository.AbsentPartiesRenderNA | src/repositories/csv_repository.py:177-206 | an absent or empty buyer and location render as sentinels in every row |
| CsvRepository.CleanCnpj | src/repositories/csv_repository.py:49 | no `.`, `/` or `-` is left, no character is added, and every other character of the CNPJ is kept |
| CsvRepository.CleanCnpjConcat | src/repositories/csv_repository.py:49 | cleaning distributes over concatenation, so the kept characters stay in order |
| CsvRepository.CleanCnpjChar | src/repositories/csv_repository.py:49 | one character is dropped iff it is `.`, `/` or `-` |
| CsvRepository.DefaultFileName | src/repositories/csv_repository.py:47-50 | the default name is `cupom_`, then the cleaned CNPJ (or `sem_cnpj` when the CNPJ is None or `''`), then `_`, the timestamp and `.csv` |
| CsvRepository.DefaultFileNameIsPlain | src/repositories/csv_repository.py:49-50 | the default name has no `/` unless the timestamp brings one |
| CsvRepository.ResolveFileName | src/repositories/csv_repository.py:47-54 | the default name when none (or `''`) is given; a name ending in `.csv` unchanged; otherwise `.csv` appended; the result always ends in `.csv` |
| Scraper.CapturedText | src/services/web_scraper_service.py:190-195 | a field is captured iff its flag is on and its element exists, and then it is stripped |
| Scraper.EmitenteFieldsCaptured | src/services/web_scraper_service.py:185-270 | each issuer field is the stripped text of its own element when its flag is on and the element is found, otherwise None |
| Scraper.ConsumidorOf | src/services/web_scraper_service.py:276-320 | None when switched off; a returned buyer is present and holds the captured fields; a buyer with a captured non-empty field is returned |
| Scraper.CupomFieldsCaptured | src/services/web_scraper_service.py:333-386 | each sale field is the stripped text of its own element when its flag is on and the element is found, otherwise None |
| Scraper.SatNumberIsBuyerNameElement | src/services/web_scraper_service.py:214-217 | the issuer's SAT number and the buyer's name are read from the same element |
| Scraper.LocalEntregaFieldsCaptured | src/services/web_scraper_service.py:508-557 | each location field is the stripped text of its own element when its flag is on and the element is found, otherwise None |
| Scraper.LocalEntregaOf | src/services/web_scraper_service.py:488-568 | None when switched off or when the tab cannot be opened; otherwise the captured location exactly when it is present, None when it is not |
| Scraper.DetailsLookup | src/services/web_scraper_service.py:400-438 | by id if clickable, else by the value selector, else the first submit input with value `Detalhes`; None iff all three fail |
| Scraper.TextOr | src/services/web_scraper_service.py:629-670 | an element's stripped text, or the fallback when it is missing |
| Scraper.GtinOf | src/services/web_scraper_service.py:674-679 | the stripped first cell, None for no cell, an empty cell or `Não Informado` |
| Scraper.RowProduto | src/services/web_scraper_service.py:620-692 | a row's item has `cod_produto` equal to its NCM and `valor_total` equal to `valor_liquido`; its GTIN comes from the first cell; its NCM is the label's text or `00000000` |
| Scraper.RowProdutoAmounts | src/services/web_scraper_service.py:640-692 | description, quantity and value are the labels' texts or `Produto {idx}`, `1,0000` and `0,00`, converted as in construction |
| Scraper.Candidates | src/services/web_scraper_service.py:620-692 | one item per data row |
| Scraper.CandidatesSnoc | src/services/web_scraper_service.py:620-692 | one more data row appends its item, numbered by its position |
| Scraper.CandidatesShape | src/services/web_scraper_service.py:684-692 | every candidate has `cod_produto == codigo_ncm` and `valor_total == valor_liquido` |
| Scraper.KeepValid | src/services/web_scraper_service.py:695-701 | the filter keeps at most as many items as it is given |
| Scraper.KeepValidMembers | src/services/web_scraper_service.py:695-701 | the kept items are exactly the valid ones |
| Scraper.KeepValidAppend | src/services/web_scraper_service.py:695-701 | filtering one more item appends it exactly when it is valid, so order is kept |
| Scraper.ValidPrefixStep | src/services/web_scraper_service.py:695-698 | one more data row adds its item to the kept ones exactly when `validar` accepts it |
| Scraper.ProductsOf | src/services/web_scraper_service.py:598-715 | no table gives no items; otherwise at most one item per data row (header skipped), each valid, with code equal to NCM and total equal to net value |
| Scraper.FallbackRowIsValid | src/services/web_scraper_service.py:629-670 | a row with NCM, quantity and value labels all missing still gives a valid item with NCM `00000000`, quantity 1 and value 0 |
| Scraper.FallbackNcm | src/services/web_scraper_service.py:636-637 | a missing NCM label reads as `00000000` |
| Scraper.FallbackQuantity | src/services/web_scraper_service.py:658-659 | a missing quantity label reads as `1,0000`, worth 1 |
| Scraper.FallbackValue | src/services/web_scraper_service.py:669-670 | a missing value label reads as `0,00`, worth 0 |
| Scraper.NcmFallbackOk | src/services/web_scraper_service.py:637 | the fallback NCM passes the NCM check |
| Scraper.Protocol | src/services/web_scraper_service.py:729-774 | the step list ends with the products tab, and includes the delivery tab iff delivery extraction is on |
| Scraper.TraceOf | src/services/web_scraper_service.py:732-774 | a run performs at most the listed steps |
| Scraper.TraceShape | src/services/web_scraper_service.py:732-774 | a run is a prefix of the steps: all of them when none aborts, otherwise up to and including the first abort, with none aborting before it |
| Scraper.TraceAppend | src/services/web_scraper_service.py:732-774 | running two step lists in sequence runs the second only when the first did not abort |
| Scraper.SessionResult | src/services/web_scraper_service.py:727-802 | a receipt iff no step aborts, and then it is the assembled receipt |
| Scraper.Assemble | src/services/web_scraper_service.py:777-795 | products are `[]` when switched off; the location is the one extracted |
| Scraper.SessionSucceedsIff | src/services/web_scraper_service.py:732-774 | a receipt iff the portal loads and the key field, the Consultar button, a Detalhes button and the products tab are found; the delivery tab plays no part |
| Scraper.DeliveryOffSkipsTab | src/services/web_scraper_service.py:499-500 | with delivery extraction off, the delivery tab is never clicked and the receipt has no location |
| Scraper.ProductsOffStillOpensTab | src/services/web_scraper_service.py:772-781 | with product extraction off, a receipt has no items, yet the products tab was opened |
| Scraper.SuccessOpensProductsTab | src/services/web_scraper_service.py:772-774 | a session that runs to the end performed every step, the products tab last |
| Scraper.CollectProducts | src/services/web_scraper_service.py:620-708 | the row loop returns the valid items of the data rows, in order |
| Scraper.AddRow | src/services/web_scraper_service.py:684-698 | one pass of the row loop keeps the loop invariant |
| Scraper.WebScraperService.constructor | src/services/web_scraper_service.py:37-46 | a new service has no browser and no history |
| Scraper.WebScraperService.StartBrowser | src/services/web_scraper_service.py:48-57 | a browser that starts replaces the handle; otherwise nothing changes |
| Scraper.WebScraperService.CloseBrowser | src/services/web_scraper_service.py:79-83 | `quit` is called on the current browser iff there is one; the handle is not cleared |
| Scraper.WebScraperService.Perform | src/services/web_scraper_service.py:85-124 | one portal action is logged, and it succeeds as the page allows |
| Scraper.WebScraperService.ReadLabel | src/services/web_scraper_service.py:190-195 | one guarded read gives the captured field |
| Scraper.WebScraperService.ExtractEmitente | src/services/web_scraper_service.py:174-274 | the field-by-field reads give `EmitenteOf` |
| Scraper.WebScraperService.ExtractConsumidor | src/services/web_scraper_service.py:276-320 | the reads give `ConsumidorOf` |
| Scraper.WebScraperService.ExtractCupom | src/services/web_scraper_service.py:322-390 | the field-by-field reads give `CupomOf` |
| Scraper.WebScraperService.FindDetailsButton | src/services/web_scraper_service.py:392-438 | the three attempts give `DetailsLookup` |
| Scraper.WebScraperService.ExtractLocalEntrega | src/services/web_scraper_service.py:488-568 | gives `LocalEntregaOf`; the tab is clicked iff extraction is on |
| Scraper.WebScraperService.ExtractProducts | src/services/web_scraper_service.py:598-715 | gives `ProductsOf` |
| Scraper.WebScraperService.OpenReceipt | src/services/web_scraper_service.py:729-744 | the login steps run until one fails, and success iff none failed |
| Scraper.WebScraperService.OpenTabs | src/services/web_scraper_service.py:756-774 | Detalhes, the delivery tab (when on) and the products tab run until one aborts; success iff none did |
| Scraper.WebScraperService.RunSession | src/services/web_scraper_service.py:727-802 | gives `SessionResult`; the actions performed are the run of the protocol |
| Scraper.WebScraperService.ExtractReceipt | src/services/web_scraper_service.py:717-810 | the session result when a browser starts (None otherwise); exactly one more launch iff the browser starts, the headless setting kept; `quit` on the held browser on every path |
| Scraper.ExtractOnce | src/services/web_scraper_service.py:808-810 | a fresh service that extracts once quits exactly the browser it started, when it started one |
| CupomController.ProcessarCupom | src/controller/cupom_controller.py:35-116 | success iff a receipt is returned; no path on failure, and a path only when saving; an unresolved key gives `(False, None, None, "ERRO: Chave de acesso inválida")` |
| CupomController.InvalidKeySkipsExtraction | src/controller/cupom_controller.py:62-67 | an unresolved key fails whatever the scraper and writer would answer: extraction is never attempted |
| CupomController.ExtractionFailure | src/controller/cupom_controller.py:75-88 | extraction giving None or raising fails with no receipt and no path, and with the matching message |
| CupomController.ExtractedReceipt | src/controller/cupom_controller.py:90-116 | an extracted receipt is a success carrying it. Without saving: no path and "Cupom processado com sucesso". A failed save: no path and the warning. A successful save: the path and "Cupom processado e salvo com sucesso" |
| CupomController.NoSaveIgnoresWriter | src/controller/cupom_controller.py:107-108 | with saving off the writer is never consulted and no path is returned |
| CupomController.ShortTypedKeyFails | src/controller/cupom_controller.py:62-67 | a typed key with 43 digits fails with the invalid-key outcome |
| CupomController.ValidarChave | src/controller/cupom_controller.py:179-197 | `(True, key, "Chave válida")` iff the entry resolves to a key, which is valid; otherwise `(False, None, "Chave inválida")` |
| CupomController.RejectedKeyFailsProcessing | src/controller/cupom_controller.py:62-67 | an entry `validar_chave` rejects fails `processar_cupom` with the invalid-key outcome |
| CupomController.ProcessedKeyWasValid | src/controller/cupom_controller.py:62-67 | a successful `processar_cupom` was given an entry `validar_chave` accepts |
| CupomController.ShownKey | src/controller/cupom_controller.py:162 | the first 20 characters and `...` when the entry is longer than 20, the whole entry otherwise |
| CupomController.OutcomeAt | src/controller/cupom_controller.py:148-154 | outcome `i` of a batch is `processar_cupom` of entry `i` |
| CupomController.CountSuccess | src/controller/cupom_controller.py:156-159 | the success count is at most the number of outcomes |
| CupomController.CountSuccessBounds | src/controller/cupom_controller.py:156-159 | the count is the batch size iff every call succeeded, and 0 iff none did |
| CupomController.CountSuccessStep | src/controller/cupom_controller.py:156-159 | counting one more outcome adds one exactly when it is a success |
| CupomController.ProcessarMultiplos | src/controller/cupom_controller.py:118-177 | `total` is the number of entries and `sucesso + erro == total`; `sucesso` counts the successful calls; one entry per key, in input order |
| CupomController.BatchTally | src/controller/cupom_controller.py:141-166 | an all-success batch has no errors, and an all-failure batch has no successes |

## Left out

- The browser and Selenium are not modelled: waits, timeouts, `find_element`, `click`, scrolling, `time.sleep`, the Chrome options. The page is an oracle value. A step fails exactly when its element is missing or not clickable.
- The manual captcha pause (`input()`) is a step that always succeeds.
- Image loading and QR decoding (PIL, pyzbar, the UTF-8 decode) are not modelled. The decoded payload is a parameter. A missing image file or an unreadable image raises in the source; that path is not modelled.
- Floating point is not modelled. Amounts are exact reals, so `float()` rounding, `__repr__`'s `.2f` and the `str()` rendering of a float inside a `validar` message are out of scope; messages take a rendering function as a parameter.
- File and clock side effects are not modelled: the CSV write, the writer's separator and quoting, `mkdir`, the output directory join, `datetime.now`. The timestamp is a parameter, and `ResolveFileName` returns the file name without the directory.
- src/config/settings.py and src/config/campos_extracao.py are not part of this model. Only the key length 44 is taken from them, and the extraction flags are a `Config` record passed in. The per-field product flags are never read by the source, so they are not modelled.
- CLI and logging are not modelled: main.py, the interactive menu, every `print`, `CupomCompleto.__str__`.
- Only ASCII digits and word characters are modelled. Python's `\d`, `\b` and `isdigit` also accept other Unicode digits. Whitespace is the full `str.isspace` set. `str.lower` is modelled on ASCII letters.
- `Path.suffix` and `Path.name` are modelled for POSIX paths, without the dropping of `.` components that `pathlib` does when it parses a path (`a/b/.` has name `b` there).
- Exceptions inside the extractors' outer `try` blocks are not modelled beyond a missing element. Neither is a per-row exception in `extrair_produtos`: cell texts are always readable. A product table that does not appear within the wait is modelled as no table.
- Exceptions that escape `extrair_dados_cupom` are not modelled beyond a browser that cannot start; the controller sees a raised extraction as `ExtractionRaised`.
- An exception escaping `processar_cupom` would end a batch; the model has none, since the key resolver cannot raise in it.
- Scraper.KeepValid: its own contract gives only the length bound. Which items are kept, and in what order, is stated by KeepValidMembers and KeepValidAppend.
- ProdutoModel.ToAmount: its own contract covers numeric arguments only. The text path is stated by CommaDecimal, PointDecimal, SignedCommaDecimal, PrefixedCommaDecimal and ThousandsSeparatorGivesZero, for those shapes of text.

## Behaviour worth knowing

The model follows the code in each case.

- **Pattern 1.** `\b(\d{44})\b` bounds the run by word boundaries, not by non-digits: a 44-digit run next to a letter or `_` is not matched by pattern 1 and falls through to the later patterns (`QrCodeService.BoundedRunAt`).
- **Typed-key rejection.** Non-digits are removed before validation, so a typed entry is rejected only when its digits are not 44. The rejection is a bare None from `processar_entrada`, with no reason attached (`QrCodeService.ProcessInput`).
- **Amount parsing.** Only a decimal comma is normalised. `1.234,56` is cleaned to `1.234.56`, which `float()` rejects, so the amount becomes 0 (`ProdutoModel.ThousandsSeparatorGivesZero`).
- **Product code and description.** tests/web_scraper_service_test.py:116-160 expects the description from the row's cell text and a product code distinct from the NCM. The code reads the description by element id and sets `cod_produto` to the NCM (src/services/web_scraper_service.py:642-648, 687). The model follows the code (`Scraper.RowProduto`).
