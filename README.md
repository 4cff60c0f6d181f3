# Bratcargas shipment tracking — a Dafny model of its core

Bratcargas is a web application for shipment tracking.

- A shipper (*embarcador*) registers shipments (*cargas*) through a form.
- The driver opens a link on their phone, and the phone then reports GPS fixes at a fixed period.
- The dashboard lists the shipments with their latest fix, together with delivery metrics.
- A backend function creates a shipper company with its login and a generated password.

This project models five parts of that system in Dafny and proves what each one promises:

- **`CargaForm`** (`src/components/Cargas/CargaForm.tsx`): the form's digit helpers and input masks, and the mobile-number rule. It also covers the validation and phone selection in `handleSubmit`:
  - nine early-exit checks in a fixed order;
  - a delivery date ceiling of 23:59 on the eighth calendar day after departure;
  - the choice of the stored phone number;
  - the `[Tipo de carga: …]` description prefix.
- **`Cargas`** (`src/hooks/useCargas.ts`): the `useCargas` hook as a class over an in-memory database (`Banco`). It covers:
  - the `fetchCargas` filter, newest-first order and latest-fix attachment;
  - `criarCarga` with its defaults;
  - the delivered and cancelled updates with their history and alert rows;
  - the `fetchMetricas` aggregation.
- **`Rastreamento`** (`src/services/rastreamento.ts`): the tracking service as a class. Its state is the registry from shipment to interval handle plus the armed timers. It covers:
  - start, stop and stop-all;
  - the capture tick, which swallows errors;
  - the token, link and WhatsApp URL formats, with a percent-encoding that provably decodes back to the message's UTF-8 bytes;
  - the 10-minute freshness check.
- **`ViaCep`** (`src/services/viaCep.ts`): the postal-code lookup with its module-level cache. It covers the hit, miss, negative-cache and no-cache-on-error rules, and the `formatarCep` mask.
- **`CriarUsuarioEmpresa`** (`supabase/functions/criar-usuario-empresa/index.ts`): the password generator and the handler. The password has four guaranteed classes, then fill, then a shuffle that is a permutation. The handler covers:
  - the preflight and the required-field guard;
  - the login, shipper, profile and e-mail steps;
  - the compensating delete of the login.

Supporting modules:

- `Digitos`: digit stripping, truncation and the five-digit grouping shared by the masks.
- `Banco`: the table rows, the `Database` class and the latest-fix query.
- `Wrappers`: `Option` and `Result`.

Outside answers are parameters of the operations. These include the database's replies, the geolocation reading, the clock, `Math.random` draws and the HTTP reply of the postal service. Each write the source performs is an in-place update of a field of `Database`, `CacheViaCep`, `RastreamentoService` or `Backend`: a `seq` for a table, a `map` for the postal-code cache and the tracking registry and timers.

Three behaviours of the source matter here:

- `marcarComoEntregue` does not check that the shipment is still in transit, so a delivered or cancelled shipment can be marked delivered again.
- The capture tick does not suppress overlapping ticks.
- `criarCarga` has no creation timeout.

## Model

| member | source | states |
|---|---|---|
| Digitos.SomenteDigitos | src/components/Cargas/CargaForm.tsx:81-83 | the result consists of digits only and is no longer than the input |
| Digitos.SomenteDigitosContagem | src/components/Cargas/CargaForm.tsx:81-83 | every digit is kept exactly as often as it occurs, and every other character is dropped |
| Digitos.SomenteDigitosConcat | src/components/Cargas/CargaForm.tsx:81-83 | stripping distributes over concatenation, so the digits keep their order |
| Digitos.SomenteDigitosDeDigitos | src/components/Cargas/CargaForm.tsx:81-83 | a string of digits is returned unchanged |
| Digitos.SomenteDigitosIdempotente | src/components/Cargas/CargaForm.tsx:81-83 | stripping twice is stripping once |
| Digitos.Primeiros | src/components/Cargas/CargaForm.tsx:97 | `slice(0, n)` is a prefix of length min(n, length) |
| Digitos.AgruparCinco | src/components/Cargas/CargaForm.tsx:98-99 | up to five digits pass unchanged; otherwise the first five, a hyphen, then the rest |
| Digitos.AgruparCincoSomenteDigitos | src/services/viaCep.ts:73-74 | removing the mask's hyphen gives back the digits |
| CargaForm.ValidarCelular | src/components/Cargas/CargaForm.tsx:85-88 | definition: the number stripped to digits has exactly 9 of them and starts with 9; stated by `ValidarCelularComHifen`, `ValidarCelularFormatado` and the two examples |
| CargaForm.ValidarCelularComHifen | src/components/Cargas/CargaForm.tsx:85-88 | for digit strings a and b, `a-b` is a valid mobile number iff it has 9 digits and its first digit is 9 |
| CargaForm.ValidarCelularExemploValido | src/components/Cargas/CargaForm.tsx:85-88 | `98765-4321` is accepted |
| CargaForm.ValidarCelularExemploInvalido | src/components/Cargas/CargaForm.tsx:85-88 | `8765-4321` is rejected |
| CargaForm.MontarTelefoneBr | src/components/Cargas/CargaForm.tsx:90-94 | the area code's digits followed by the number's digits, and nothing else |
| CargaForm.FormatarCelular | src/components/Cargas/CargaForm.tsx:96-100 | keeps at most 9 digits; up to 5 digits are returned as they are; otherwise there is a hyphen at index 5, and removing it gives the first 9 digits of the input |
| CargaForm.FormatarCelularIdempotente | src/components/Cargas/CargaForm.tsx:96-100 | masking a masked number changes nothing |
| CargaForm.ValidarCelularFormatado | src/components/Cargas/CargaForm.tsx:85-100 | the masked field passes the mobile rule iff the typed text has at least 9 digits, the first being 9 |
| CargaForm.FormatarDdd | src/components/Cargas/CargaForm.tsx:102-106 | at most 2 digits kept: no digits give `""`, one digit d gives `(d`, two or more give `(dd)` with the first two digits |
| CargaForm.PrazoEntregaMax | src/components/Cargas/CargaForm.tsx:52-62 | there is a ceiling iff the departure field holds a readable date |
| CargaForm.PrazoEntregaMaxLimites | src/components/Cargas/CargaForm.tsx:52-62 | the ceiling is the minute 23:59 of a day, between 8 and 9 days after departure |
| CargaForm.DentroDoPrazo | src/components/Cargas/CargaForm.tsx:161-170 | definition: a delivery date is refused only when the ceiling exists, the delivery date parses and lies strictly after the ceiling; stated on calendar days by `DentroDoPrazoPorDia` and `OitoDiasExatos` |
| CargaForm.DentroDoPrazoPorDia | src/components/Cargas/CargaForm.tsx:161-170 | a delivery date is accepted iff its calendar day is at most 8 days after the departure day |
| CargaForm.OitoDiasExatos | src/components/Cargas/CargaForm.tsx:161-170 | exactly 8 days later is accepted and 9 days later is rejected |
| CargaForm.Verificacoes | src/components/Cargas/CargaForm.tsx:126-170 | exactly nine checks, listed in the order the handler runs them, each with the error it throws |
| CargaForm.PrimeiraFalha | src/components/Cargas/CargaForm.tsx:126-170 | definition: the error of the first failing check; characterised by `PrimeiraFalhaCorreta` and `PrimeiraFalhaEm` |
| CargaForm.PrimeiroErro | src/components/Cargas/CargaForm.tsx:126-170 | definition: the first failing check among the nine form checks; characterised by `OrdemDasVerificacoes`, `SemTelefoneSemErroDeTelefone` and `TetoDecide` |
| CargaForm.Mensagem | src/components/Cargas/CargaForm.tsx:127-167 | definition: the text thrown for each of the nine errors of the form checks, as the source writes it |
| CargaForm.PrimeiraFalhaCorreta | src/components/Cargas/CargaForm.tsx:126-170 | no error iff every check passes; an error is the message of a failing check all of whose predecessors pass |
| CargaForm.PrimeiraFalhaEm | src/components/Cargas/CargaForm.tsx:126-170 | with distinct messages, check k decides the error iff it fails and all earlier checks pass |
| CargaForm.OrdemDasVerificacoes | src/components/Cargas/CargaForm.tsx:126-170 | the same rule for the nine form checks, in source order (fields, states, departure, delivery, shipper, phone, WhatsApp presence, WhatsApp number, ceiling) |
| CargaForm.SemTelefoneSemErroDeTelefone | src/components/Cargas/CargaForm.tsx:146-159 | with an empty primary area code and number, no phone error is ever reported |
| CargaForm.TetoDecide | src/components/Cargas/CargaForm.tsx:161-170 | once the other checks pass and both dates parse, the ceiling error is raised iff delivery is strictly after the ceiling; equal to it is accepted |
| CargaForm.TelefoneParaContato | src/components/Cargas/CargaForm.tsx:172-174 | definition: the mounted primary phone when both its area code and number were typed, otherwise empty; stated by `TelefoneArmazenadoExigePrincipal` and `TelefoneArmazenadoValido` |
| CargaForm.TelefoneParaWhatsapp | src/components/Cargas/CargaForm.tsx:176-180 | definition: empty without the primary phone, the primary phone when it is WhatsApp, otherwise the mounted WhatsApp phone; stated by the same two lemmas |
| CargaForm.TelefoneArmazenado | src/components/Cargas/CargaForm.tsx:172-184 | definition: the WhatsApp phone, else the contact phone, else nothing; stated by the same two lemmas |
| CargaForm.TelefoneArmazenadoExigePrincipal | src/components/Cargas/CargaForm.tsx:172-184 | without both primary area code and number, both numbers are empty and no phone is stored |
| CargaForm.TelefoneArmazenadoValido | src/components/Cargas/CargaForm.tsx:172-184 | on an accepted form, the stored phone is the primary number when it is WhatsApp and the WhatsApp number otherwise, and it ends in a valid mobile number |
| CargaForm.DescricaoComTipoLegivel | src/components/Cargas/CargaForm.tsx:185-187 | the description starts with `[Tipo de carga: <tipo>]`, followed by a space and the text when there is one |
| CargaForm.DescricaoComTipo | src/components/Cargas/CargaForm.tsx:185-187 | definition: the `[Tipo de carga: …]` prefix, then a space and the description when one was typed; stated by `DescricaoComTipoLegivel` |
| CargaForm.RegistroSalvo | src/components/Cargas/CargaForm.tsx:182-200 | definition: the submitted record with the stored phone, the prefixed description, and each end's coordinates geocoded when either of its pair is missing; `HandleSubmit` returns it |
| CargaForm.Validar | src/components/Cargas/CargaForm.tsx:126-170 | the early-exit chain returns the first failing check's error, or none |
| CargaForm.HandleSubmit | src/components/Cargas/CargaForm.tsx:118-200 | fails iff a check fails, and then with that check's error; otherwise it returns the record to save, with the chosen phone, the prefixed description and missing coordinates geocoded |
| Banco.UltimaPosicao | src/hooks/useCargas.ts:91-100 | none iff the shipment has no fix; otherwise one of its fixes with the largest timestamp |
| Banco.MarcarEntregueAltera | src/hooks/useCargas.ts:177-183 | only rows with the id change, and on them only status (now delivered) and delivery time (now) |
| Banco.CancelarAltera | src/hooks/useCargas.ts:212-215 | only rows with the id change, and on them only the status (now cancelled) |
| Banco.GravarTokenAltera | src/services/rastreamento.ts:49-54 | only rows with the id change, and on them only the tracking link (now the token) |
| Banco.MarcarEntregueNaTabela | src/hooks/useCargas.ts:177-183 | the update keeps the table's length and row ids; what it changes is stated by `MarcarEntregueAltera` |
| Banco.CancelarNaTabela | src/hooks/useCargas.ts:212-215 | the update keeps the table's length and row ids; what it changes is stated by `CancelarAltera` |
| Banco.GravarTokenNaTabela | src/services/rastreamento.ts:49-54 | the update keeps the table's length and row ids; what it changes is stated by `GravarTokenAltera` |
| Cargas.ContemEmAlgumaPosicao | src/hooks/useCargas.ts:47-49 | the `%x%` pattern matches iff x occurs at some position of the column |
| Cargas.ILikeIgnoraCaixa | src/hooks/useCargas.ts:47-49 | the match ignores letter case on both sides |
| Cargas.Minusculas | src/hooks/useCargas.ts:47-49 | ASCII lowercasing keeps the length; used by `ILikeIgnoraCaixa` |
| Cargas.Contem | src/hooks/useCargas.ts:47-49 | definition: the pattern is a prefix of some suffix of the text; characterised by `ContemEmAlgumaPosicao` |
| Cargas.ILike | src/hooks/useCargas.ts:47-49 | definition: `%x%` as containment after lowercasing both sides; stated by `ContemEmAlgumaPosicao` and `ILikeIgnoraCaixa` |
| Cargas.AtendeFiltros | src/hooks/useCargas.ts:33-82 | definition: one conjunct per filter that is set (status and deadline lists, `ILIKE` on invoice, driver and plate, equal states, date bounds); stated by `FiltrosVaziosNaoRestringem` |
| Cargas.Selecionada | src/hooks/useCargas.ts:22-82 | definition: active, of the shipper when one is given, and meeting the filters; stated by `FiltrosVaziosNaoRestringem` and `FiltrarCorreto` |
| Cargas.FiltrosVaziosNaoRestringem | src/hooks/useCargas.ts:33-82 | empty filters select exactly what no filters select, and without a shipper only `ativo` counts |
| Cargas.Filtrar | src/hooks/useCargas.ts:22-82 | never longer than the table; `FiltrarCorreto` states exactly which rows it keeps |
| Cargas.FiltrarCorreto | src/hooks/useCargas.ts:29-82 | the filtered list holds every selected row as often as the table does, and no other row |
| Cargas.InserirPermuta | src/hooks/useCargas.ts:30 | inserting into the ordered list adds exactly that row |
| Cargas.InserirDecrescente | src/hooks/useCargas.ts:30 | inserting keeps `created_at` descending |
| Cargas.InserirOrdenado | src/hooks/useCargas.ts:30 | one row longer, and headed by the inserted row or the old head; `InserirPermuta` and `InserirDecrescente` state the rest |
| Cargas.Ordenado | src/hooks/useCargas.ts:30 | as long as its input; `OrdenadoCorreto` states it is a descending permutation |
| Cargas.OrdenadoCorreto | src/hooks/useCargas.ts:30 | the ordering is a permutation with `created_at` descending |
| Cargas.ConsultaCorreta | src/hooks/useCargas.ts:22-84 | the query answer is exactly the selected rows, newest first |
| Cargas.Consulta | src/hooks/useCargas.ts:22-84 | definition: the selected rows, ordered newest first; characterised by `ConsultaCorreta` |
| Cargas.SoCargas | src/hooks/useCargas.ts:89-105 | dropping the attached fixes keeps the length |
| Cargas.ListaCarregada | src/hooks/useCargas.ts:17-105 | definition: the shipments are the query answer, each with its latest fix; used by `FetchCargas` and characterised by `ListaCarregadaCorreta` |
| Cargas.ListaCarregadaCorreta | src/hooks/useCargas.ts:17-105 | a loaded list is the query answer, each entry carrying its shipment's latest fix |
| Cargas.Buscar | src/hooks/useCargas.ts:174 | a found shipment has the requested id |
| Cargas.BuscarCorreto | src/hooks/useCargas.ts:174 | nothing is found iff no loaded shipment has the id; otherwise the first one with it is returned |
| Cargas.UseCargas.constructor | src/hooks/useCargas.ts:8-11 | the hook starts with an empty list and no error |
| Cargas.VelocidadeOuPadrao | src/hooks/useCargas.ts:132 | definition: a speed of 0 (the falsy value) becomes 60; `CriarCarga` states the default |
| Cargas.NovaCarga | src/hooks/useCargas.ts:117-147 | definition: the inserted row, in transit and on time, with the typed fields, the default speed and the computed distance; `CriarCarga` stores it |
| Cargas.UseCargas.FetchCargas | src/hooks/useCargas.ts:17-112 | on success the list is reloaded and the error cleared; a failed query keeps the list and sets the error |
| Cargas.UseCargas.CriarCarga | src/hooks/useCargas.ts:114-155 | a refused insert fails with the database's own error and changes nothing; otherwise one new row (in transit, on time, speed or 60, distance from coordinates defaulting to 0) with a fresh id, the creation history row when stored, and a reload |
| Cargas.AlertaEntrega | src/hooks/useCargas.ts:236-253 | definition: a delivery alert for the shipper reading `Carga NF <nota> foi entregue com sucesso!`, unread; `DispararAlertaEntrega` stores it |
| Cargas.UseCargas.DispararAlertaEntrega | src/hooks/useCargas.ts:236-253 | one delivery alert for a loaded shipment when the insert succeeds; nothing otherwise |
| Cargas.UseCargas.MarcarComoEntregue | src/hooks/useCargas.ts:172-205 | not loaded fails with `Carga não encontrada`; a refused update fails with the database's own error and changes nothing; otherwise delivered with the time, a history row from the loaded status, the alert and a reload; no terminal-state check |
| Cargas.UseCargas.CancelarCarga | src/hooks/useCargas.ts:207-234 | not loaded fails with `Carga não encontrada`; a refused update fails with the database's own error and changes nothing; otherwise only the status becomes cancelled, a history row carries the reason, then a reload |
| Cargas.MensagemErro | src/hooks/useCargas.ts:172-217 | definition: the `message` of what the operations throw: `Carga não encontrada` for an id not loaded, otherwise the database's own error text |
| Cargas.ContarStatus | src/hooks/useCargas.ts:296-297 | a status count never exceeds the number of rows |
| Cargas.StatusParticionam | src/hooks/useCargas.ts:295-297 | the three status counts add up to the total |
| Cargas.PrazosParticionam | src/hooks/useCargas.ts:299-301 | the three deadline counts add up to the total |
| Cargas.SomarToneladas | src/hooks/useCargas.ts:303 | definition: the sum of the tonnage of the rows; bounded by `ToneladasEntreguesLimitadas` |
| Cargas.SomarToneladasEntregues | src/hooks/useCargas.ts:304-306 | definition: the sum of the tonnage of the delivered rows; bounded by `ToneladasEntreguesLimitadas` and `ToneladasTodasEntregues` |
| Cargas.ToneladasEntreguesLimitadas | src/hooks/useCargas.ts:303-306 | with no negative tonnage, the delivered tonnage lies between 0 and the total tonnage, and it is 0 when nothing was delivered |
| Cargas.ToneladasTodasEntregues | src/hooks/useCargas.ts:303-306 | when every row is delivered, the delivered tonnage equals the total tonnage |
| Cargas.Metricas | src/hooks/useCargas.ts:295-320 | definition: the object built from the answered rows; bounded by `MetricasLimites` |
| Cargas.MetricasAtivas | src/hooks/useCargas.ts:283-320 | definition: the metrics of the active shipments of the shipper; bounded by `MetricasLimites` and shown to exceed 100 by `PercentualNoPrazoExcede100` |
| Cargas.MetricasLimites | src/hooks/useCargas.ts:279-320 | in transit plus delivered is at most the total, and so is the sum of the deadline counts; all percentages are 0 without deliveries; the total is the number of active rows of the shipper |
| Cargas.UseMetricasDashboard.constructor | src/hooks/useCargas.ts:268-277 | the hook starts with no metrics |
| Cargas.UseMetricasDashboard.FetchMetricas | src/hooks/useCargas.ts:279-326 | a successful query stores the metrics of the shipper's active shipments; a failed query is caught and the previous metrics, initially none, stay |
| Cargas.PercentualNoPrazoExcede100 | src/hooks/useCargas.ts:317 | some table yields an on-time percentage of 200 |
| Cargas.ContarEntreguesPrazo | src/hooks/useCargas.ts:297-301 | the delivered rows with a given deadline class never outnumber the delivered rows |
| Cargas.EntreguesPrazosParticionam | src/hooks/useCargas.ts:297-301 | the delivered rows split into the three deadline classes |
| Cargas.MetricasCorrigidas | src/hooks/useCargas.ts:317-319 | definition: the metrics with each percentage's numerator counted over delivered rows; bounded by `MetricasCorrigidasLimitadas` |
| Cargas.MetricasCorrigidasLimitadas | src/hooks/useCargas.ts:317-319 | with numerators counted over delivered rows, each percentage lies in [0, 100], and they add up to 100 when something was delivered |
| Cargas.PercentualAte100 | src/hooks/useCargas.ts:317-319 | a part of a total is a percentage in [0, 100] |
| Cargas.PercentuaisSomam | src/hooks/useCargas.ts:317-319 | three parts summing to the total give percentages summing to 100 |
| Rastreamento.NatParaDecimal | src/services/rastreamento.ts:269 | `Date.now()` prints as a non-empty string of digits |
| Rastreamento.DecimalIda | src/services/rastreamento.ts:269 | printing an instant in decimal and reading it back gives the instant |
| Rastreamento.SufixoAleatorio | src/services/rastreamento.ts:269 | the base-36 suffix has at most 13 characters and no hyphen |
| Rastreamento.DecimalParaNat | src/services/rastreamento.ts:269 | definition: reads a decimal numeral; `DecimalIda` shows it inverts the printing of `Date.now()` |
| Rastreamento.GerarToken | src/services/rastreamento.ts:268-270 | definition: `<Date.now()>-<base-36 suffix>`; `TokenLegivel` and `TokensDeInstantesDiferentes` state what it promises |
| Rastreamento.LerToken | src/services/rastreamento.ts:268-270 | definition: splits a token at its first hyphen, giving none unless a non-empty decimal comes first; `TokenLegivel` shows it inverts `GerarToken` |
| Rastreamento.TokenLegivel | src/services/rastreamento.ts:268-270 | a token splits at its first hyphen into the instant and the suffix |
| Rastreamento.TokensDeInstantesDiferentes | src/services/rastreamento.ts:268-270 | tokens made at different instants differ |
| Rastreamento.LinkRastreamento | src/services/rastreamento.ts:45-46 | the link is the origin, then `/rastreamento/`, then the token |
| Rastreamento.LinkLegivel | src/services/rastreamento.ts:45-46 | cutting the origin and `/rastreamento/` off a link gives back the token, which reads back as its instant and suffix |
| Rastreamento.LinhasComToken | src/services/rastreamento.ts:78-82 | the lookup answers exactly the shipments storing the token |
| Rastreamento.SemTokenNenhuma | src/services/rastreamento.ts:78-86 | a token stored nowhere matches no shipment |
| Rastreamento.TokenGravadoEncontrado | src/services/rastreamento.ts:49-54 | after a new token is stored on one shipment, the lookup finds exactly that shipment |
| Rastreamento.Fix | src/services/rastreamento.ts:115-131 | definition: the inserted fix copies the reading and carries source `api_rastreamento` and the capture instant; `CapturarPosicao` appends it |
| Rastreamento.MensagemWhatsApp | src/services/rastreamento.ts:234-243 | definition: the message text with the link on a line of its own; `UrlWhatsApp` encodes it |
| Rastreamento.Utf8 | src/services/rastreamento.ts:247 | a character encodes as 1 to 4 bytes, and ASCII as itself |
| Rastreamento.Percentual | src/services/rastreamento.ts:247 | each byte becomes three characters, using only unreserved characters and `%` |
| Rastreamento.CodificarCaractere | src/services/rastreamento.ts:247 | one encoded character uses only unreserved characters and `%` |
| Rastreamento.EncodeURIComponent | src/services/rastreamento.ts:247 | the encoded message uses only unreserved characters and `%` |
| Rastreamento.EncodeURIComponentNaoReservados | src/services/rastreamento.ts:247 | text of unreserved characters is left unchanged |
| Rastreamento.DecodificarPercentualBytes | src/services/rastreamento.ts:247 | percent-decoding undoes percent-encoding of any byte string |
| Rastreamento.DecodificarPercentual | src/services/rastreamento.ts:247 | definition: the reference decoder, `%XX` giving a byte and any other character its code, malformed `%` giving none; `DecodificarPercentualBytes` and `EncodeURIComponentDecodifica` show it inverts the encoding |
| Rastreamento.EncodeURIComponentDecodifica | src/services/rastreamento.ts:247 | decoding the encoded message gives its UTF-8 bytes |
| Rastreamento.UrlWhatsAppPartes | src/services/rastreamento.ts:246-247 | the URL is `https://wa.me/55`, the phone's digits, `?text=`, then a query value with no `?`, `&`, `#` or space that decodes to the message's UTF-8 bytes |
| Rastreamento.UrlWhatsAppTexto | src/services/rastreamento.ts:246-247 | definition: `https://wa.me/55`, the phone's digits, `?text=`, the encoded text; its parts are read back by `UrlWhatsAppPartes` |
| Rastreamento.UrlWhatsApp | src/services/rastreamento.ts:231-247 | definition: the URL for the driver's phone and the message carrying the link; `GerarLinkRastreamento` returns it |
| Rastreamento.RastreamentoService.constructor | src/services/rastreamento.ts:25-33 | the service starts with no registered session and no armed timer |
| Rastreamento.RastreamentoService.PararRastreamento | src/services/rastreamento.ts:174-180 | removes the id's entry and disarms its timer; other entries and timers stay |
| Rastreamento.RastreamentoService.PararTodosRastreamentos | src/services/rastreamento.ts:185-188 | every timer is disarmed and the registry is empty |
| Rastreamento.RastreamentoService.CapturarPosicao | src/services/rastreamento.ts:113-138 | a successful reading and insert append one fix from the tracking source; anything else changes nothing |
| Rastreamento.RastreamentoService.Disparar | src/services/rastreamento.ts:103-105 | a timer tick captures for its shipment |
| Rastreamento.RastreamentoService.IniciarRastreamentoContinuo | src/services/rastreamento.ts:95-108 | the previous timer of the id is disarmed, one capture happens, and a new 5-minute timer becomes the id's only one; other ids are untouched |
| Rastreamento.RastreamentoService.CapturarLocalizacaoMotorista | src/services/rastreamento.ts:72-90 | no geolocation, then a failed or non-single token lookup, give their errors and change nothing; otherwise the shipment's session starts |
| Rastreamento.RastreamentoService.GerarLinkRastreamento | src/services/rastreamento.ts:39-66 | succeeds iff the token update succeeds; a refused update returns the database's error, stores nothing and builds no URL; otherwise the token is stored on the shipment, the link is returned and the WhatsApp URL is built for it |
| Rastreamento.RastreamentoService.VerificarCompartilhamentoAtivo | src/services/rastreamento.ts:275-297 | true iff the query succeeds and the shipment has a fix less than 10 minutes old |
| ViaCep.CacheViaCep.constructor | src/services/viaCep.ts:22 | the cache starts empty |
| ViaCep.ChaveCep | src/services/viaCep.ts:26 | definition: the code stripped to digits is the cache key |
| ViaCep.ChaveValida | src/services/viaCep.ts:28-31 | definition: a key is usable iff it has exactly 8 digits; `BuscarEnderecoPorCep` answers none without a request otherwise |
| ViaCep.UrlViaCep | src/services/viaCep.ts:40 | definition: `https://viacep.com.br/ws/<key>/json/`; `BuscarEnderecoPorCep` records it as the one request |
| ViaCep.Endereco | src/services/viaCep.ts:55-61 | definition: the address copies the body's fields, `localidade` becoming `cidade`; `BuscarEnderecoPorCep` caches and returns it |
| ViaCep.CacheViaCep.BuscarEnderecoPorCep | src/services/viaCep.ts:24-69 | fewer or more than 8 digits: none, with no request; cached: the cached value; otherwise one request, with an unknown code cached as none, an address cached and returned, and failures not cached |
| ViaCep.FormatarCep | src/services/viaCep.ts:71-75 | keeps at most 8 digits; up to 5 are returned as they are; otherwise there is a hyphen at index 5, and removing it gives the digits |
| ViaCep.FormatarCepIdempotente | src/services/viaCep.ts:71-75 | masking a masked code changes nothing |
| ViaCep.FormatarCepMesmaChave | src/services/viaCep.ts:24-31 | when the text has at most 8 digits, the masked code looks up the same cache key; in all cases the masked code is a full code iff the input had at least 8 digits |
| CriarUsuarioEmpresa.AlfabetoExato | supabase/functions/criar-usuario-empresa/index.ts:28-41 | the union alphabet is exactly the four classes, and it contains none of `I O i l o 0 1` |
| CriarUsuarioEmpresa.TodosPermitidos | supabase/functions/criar-usuario-empresa/index.ts:41 | every union character belongs to one of the classes |
| CriarUsuarioEmpresa.Garantidos | supabase/functions/criar-usuario-empresa/index.ts:33-38 | four guaranteed characters |
| CriarUsuarioEmpresa.GarantidosUmDeCada | supabase/functions/criar-usuario-empresa/index.ts:33-38 | an uppercase letter, a lowercase letter, a digit and a special character, in that order |
| CriarUsuarioEmpresa.Sortear | supabase/functions/criar-usuario-empresa/index.ts:35-43 | definition: `charAt(floor(random * length))` as the draw modulo the class size; `GarantidosUmDeCada` and `PreenchimentoPermitido` state what comes out |
| CriarUsuarioEmpresa.Preenchimento | supabase/functions/criar-usuario-empresa/index.ts:40-44 | one fill character per draw |
| CriarUsuarioEmpresa.PreenchimentoPermitido | supabase/functions/criar-usuario-empresa/index.ts:40-44 | every fill character comes from the alphabet |
| CriarUsuarioEmpresa.SenhaInicial | supabase/functions/criar-usuario-empresa/index.ts:33-44 | the unshuffled password has length max(4, size) |
| CriarUsuarioEmpresa.SenhaInicialBemFormada | supabase/functions/criar-usuario-empresa/index.ts:33-44 | it begins with one character of each class and uses only alphabet characters |
| CriarUsuarioEmpresa.Trocar | supabase/functions/criar-usuario-empresa/index.ts:47 | a swap exchanges two positions and keeps the rest |
| CriarUsuarioEmpresa.TrocarPermuta | supabase/functions/criar-usuario-empresa/index.ts:47 | a swap keeps the multiset of characters |
| CriarUsuarioEmpresa.Embaralhado | supabase/functions/criar-usuario-empresa/index.ts:47 | shuffling keeps the length |
| CriarUsuarioEmpresa.EmbaralhadoPermuta | supabase/functions/criar-usuario-empresa/index.ts:47 | shuffling keeps the multiset of characters |
| CriarUsuarioEmpresa.PermutacaoForte | supabase/functions/criar-usuario-empresa/index.ts:47 | every permutation of a well-formed password is strong |
| CriarUsuarioEmpresa.SenhaForte | supabase/functions/criar-usuario-empresa/index.ts:26-48 | definition: length max(4, size), each of the four classes present, alphabet only; `SenhaGeradaForte` and `GerarSenhaDefinitiva` prove it of the generated password |
| CriarUsuarioEmpresa.Embaralhar | supabase/functions/criar-usuario-empresa/index.ts:47 | the in-place shuffle of the character array performs the swaps, giving the specified shuffle |
| CriarUsuarioEmpresa.SenhaGeradaForte | supabase/functions/criar-usuario-empresa/index.ts:26-48 | the generated password is strong: length max(4, size), each class present, alphabet only |
| CriarUsuarioEmpresa.GerarSenhaDefinitiva | supabase/functions/criar-usuario-empresa/index.ts:26-48 | the loop-built, shuffled password equals the specification and is strong |
| CriarUsuarioEmpresa.SemUsuario | supabase/functions/criar-usuario-empresa/index.ts:214 | deleting never adds users |
| CriarUsuarioEmpresa.SemUsuarioCorreto | supabase/functions/criar-usuario-empresa/index.ts:214 | the remaining users are exactly those with another id |
| CriarUsuarioEmpresa.SemUsuarioNovo | supabase/functions/criar-usuario-empresa/index.ts:212-214 | deleting the login just created restores the earlier users |
| CriarUsuarioEmpresa.SemUsuarioIntacto | supabase/functions/criar-usuario-empresa/index.ts:214 | deleting an id nobody has changes nothing |
| CriarUsuarioEmpresa.FaltaObrigatorio | supabase/functions/criar-usuario-empresa/index.ts:167 | definition: the company name, CNPJ or contact e-mail is empty; `CriarUsuarioEmpresa` answers 400 before any change exactly then |
| CriarUsuarioEmpresa.NovoEmbarcador | supabase/functions/criar-usuario-empresa/index.ts:199-208 | definition: the shipper row, alerts going to the contact e-mail, an empty phone stored as none, active; `Cadastrar` stores it |
| CriarUsuarioEmpresa.Backend.ExcluirUsuario | supabase/functions/criar-usuario-empresa/index.ts:214 | a successful deletion removes exactly that user; a failed one changes nothing |
| CriarUsuarioEmpresa.Backend.constructor | supabase/functions/criar-usuario-empresa/index.ts:157-162 | the backend starts empty |
| CriarUsuarioEmpresa.Backend.Cadastrou | supabase/functions/criar-usuario-empresa/index.ts:177-260 | definition: the before/after relation of the registration steps; `Cadastrar` and `CriarUsuarioEmpresa` promise it |
| CriarUsuarioEmpresa.Backend.Cadastrar | supabase/functions/criar-usuario-empresa/index.ts:177-260 | a refused login: 400 and nothing changes; a refused shipper row: 400 and the new login is deleted; otherwise a fresh login with the password, the shipper row, the profile when stored, the e-mail recorded as attempted when a key is set, and 200 with ids, password and e-mail outcome |
| CriarUsuarioEmpresa.Backend.CriarUsuarioEmpresa | supabase/functions/criar-usuario-empresa/index.ts:145-269 | preflight gives 200 `ok`; an unreadable body gives 500; a missing company name, CNPJ or e-mail gives 400 before anything is created; otherwise it registers with a strong generated password |

## Left out

- **React components and screens**: rendering and component state are not modelled, nor is loading state in the form or the hooks. Nor is the part of `handleSubmit` after `criarCarga` (the link for the driver), or the shipper list query that fills the form's drop-down.
- **Query builders and outside services**: the Supabase query builder and the HTTP services (ViaCEP, Resend, WhatsApp) appear only as their answers, passed as parameters. So do the geolocation API and the geocoder `geocodeCidadeUf`.
  - `geocodeCidadeUf` is not part of this model. Its results are the `geoOrigem`/`geoDestino` parameters of `HandleSubmit`.
  - The distance function `calcularDistanciaTotal` is not part of this model. It is the `calcularDistancia` parameter of `CriarCarga`.
- **Floating point**: tonnage, speed, coordinates and percentages are `real`s. A coordinate that is not a finite number is `None`. IEEE rounding, `NaN` and `Number.isFinite` are not modelled.
- **Dates**: a `datetime-local` field or a `Date` is a whole number of local minutes (form fields) or an abstract instant (rows).
  - Unreadable text is `Invalido`.
  - Calendar arithmetic (`setDate`, months and daylight saving) is taken as days of 1440 minutes.
- **Identifiers**: database ids are natural numbers handed out by a counter, not UUID strings.
- **Randomness**: each `Math.random` draw of the password generator is a natural number taken modulo the size of its class. The comparator-based `sort` shuffle is an arbitrary sequence of swaps. The token suffix is a sequence of base-36 digits. Distribution quality is not modelled.
- **Asynchrony**: `await`, `Promise.all` and timer callbacks run in sequence. The per-shipment fix lookups of `fetchCargas` run one after the other. A timer tick is the `Disparar` method.
- **Console logging and the credentials e-mail's HTML body**: not modelled. The e-mail is a row holding recipient, company and password. The CORS headers and the Deno environment are not modelled. `RESEND_API_KEY` is a parameter, with `""` meaning unset.
- **`atualizarCarga` and `buscarHistoricoAPI`**: these operations are outside the modelled core.
- **Cargas.InserirDecrescente**, **Cargas.OrdenadoCorreto**: the service's sort has no stated tie order for equal `created_at`. The model sorts by insertion and promises only descending order and permutation.
- **Cargas.ContemEmAlgumaPosicao**, **Cargas.ILikeIgnoraCaixa**: the `ILIKE` case folding covers ASCII letters only. `%` and `_` inside a user's filter text are taken literally rather than as wildcards.
- **Cargas.UseCargas.FetchCargas**: a failed per-shipment fix lookup, which the source reads as "no fix", is not distinguished from a shipment without fixes. The error message is the `falhaConsulta` parameter.
- **Cargas.UseCargas.CriarCarga**: the database's answer is taken to be a refusal whenever a date field is unreadable, since such a row cannot be stored. The error text of that refusal is the `falhaInsercao` parameter.
- **Rastreamento.RastreamentoService.CapturarLocalizacaoMotorista**: `.single()` is modelled as "exactly one shipment carries the token". The model does not tell its other errors apart.
- **Rastreamento.RastreamentoService.VerificarCompartilhamentoAtivo**: the minute difference is compared in milliseconds, which is the same test for whole-millisecond instants.
- **Rastreamento.RastreamentoService.GerarLinkRastreamento**: `window.location.origin` is the `origem` parameter. Sending the message is only building its URL, as the source does.
- **ViaCep.CacheViaCep.BuscarEnderecoPorCep**: the request is recorded as its URL in `requisicoes`. The response is a parameter.
- **CriarUsuarioEmpresa.Backend.Cadastrar**: when the compensating delete of the login fails, no further promise is stated about the users.

## Findings

| source | as written | input that shows it | evidently intended | confidence | as-written member | corrected member |
|---|---|---|---|---|---|---|
| src/hooks/useCargas.ts:299-319 | the on-time, early and late percentages divide counts taken over all loaded shipments by the number of delivered ones | two shipments classed on time, one in transit and one delivered: on-time percentage 200 | count only delivered shipments in the numerators, so each percentage lies in [0, 100] and they add up to 100 | not executed | Cargas.PercentualNoPrazoExcede100 | Cargas.MetricasCorrigidasLimitadas |

`Cargas.MetricasAtivas` is the aggregation as written, and `Cargas.UseMetricasDashboard.FetchMetricas` stores it. `Cargas.MetricasCorrigidas` is the corrected aggregation.
