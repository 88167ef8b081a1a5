# CLT400TT event terminal — a verified model of its form logic

CLT400TT is the shop-floor terminal of a heat-treatment plant. An operator types or picks an event code. The page opens that event's form. The form looks orders (OS), services, operators and instruments up on the server, checks what was typed, and posts the event.

This project models the logic under that interface in Dafny:

- **Error normaliser** (`getApiErrorMessage`). It turns whatever a request threw into the text shown. It keeps an allow-list of statuses and strips an `HTTP nnn:` prefix.
- **Lookup hooks**. These are operator, service, instrument, workstation, OS, OS for event 13, inspection services and load. Each is a class holding the hook's fields: description or order, reference label, inline error, pending flag. Each handler is a method. Its postcondition ties the new fields, the value returned, the request made and the toast raised to one pure function of the old state, the text typed and the server's reply. The properties the hook promises are proved about that function.
- **Save hook** (`salvarEvento`). It merges the custom time into the payload. It picks the success text, and the error text by precedence.
- **Custom-time hook** and the **date formatter** (`dd/mm/yyyy hh:mm:ss`). The formatter takes the clock readings as parameters.
- **Forms of events 13, 18 and 19**. Each is a class over its fields and the hooks it uses. Each has:
  - its search handlers;
  - its enable and cascade rules;
  - a submit-time validator that reports every violation;
  - the payload it posts.
- **Main page**. It reads the leading digits of the event code, loads the code, and looks the number up in the event registry. It also shows which form is rendered and with which key.

The network is never called. Every reply is a parameter: `Resposta = Recebida(body) | Falhou(error)`, where a body is nothing, one object or an array. Toasts and alerts are returned as values. Strings are `seq<char>`. JavaScript's `trim` is modelled with its whitespace set. `toString` and `Number` of decimal digit strings are modelled exactly.

One behaviour of Evento18 is worth knowing. Editing the operator code after a successful lookup keeps the name found. Validation accepts the operator whenever a name exists, so the edited code is saved unchecked. The model states this as the source has it: `Evento18.Erros18` looks only at the name.

## Model

| member | source | states |
|---|---|---|
| ApiErrors.MensagemErroApi | app/components/hooks/useApiError.ts:5-21 | a non-object gives the fallback; a missing or empty message gives the fallback whatever the status; status 400/402/404 with a message gives the message without its `HTTP nnn:` prefix, trimmed, or the fallback when nothing is left; any other status shows the message verbatim; a non-empty fallback never yields "" |
| ApiErrors.PrefixoHttpRemovido | app/components/hooks/useApiError.ts:11 | `HTTP` in any letter case, any blanks around any non-empty digit run, a colon and blanks are all removed, leaving the text that follows |
| ApiErrors.AposStatusConsome | app/components/hooks/useApiError.ts:11 | after `HTTP`, the part `\s*\d+:\s*` is consumed and the rest is what follows the blanks after the colon |
| ApiErrors.SemHttpNadaMuda | app/components/hooks/useApiError.ts:11 | a message that does not start with `HTTP` is left unchanged by the strip |
| ApiErrors.HttpSemStatusNadaMuda | app/components/hooks/useApiError.ts:11 | a message that starts with `HTTP` but is not followed by `\s*\d+:` is left unchanged too: the strip removes text only when the whole pattern matches |
| ApiErrors.ErroDoClienteIntacto | app/services/api.ts:31 | the client's own `HTTP error! status: <n>` does not match the pattern, so the strip leaves it whole and it is shown verbatim for any status |
| ApiErrors.LimpezaDoPrefixo | app/components/hooks/useApiError.ts:11 | stripping and trimming `HTTP <digits>: <text>` gives back `<text>` |
| ApiErrors.MensagemServidorSemPrefixo | app/components/hooks/useApiError.ts:10-12 | an allowed status with message `HTTP <digits>: <text>` shows exactly `<text>`, never the fallback |
| ApiErrors.ErroLeituraDeIndefinido | app/components/hooks/useBuscaOS.ts:113 | reading a property of an empty body throws an error object with a non-empty message and no status or response |
| Lookup.ConsultaCadastro | app/components/hooks/useBuscaOperador.ts:21-60 | blank code: "required" error, description cleared, no request, pending flag untouched; otherwise the trimmed code is sent and pending ends false; found means element 0 (or the object) has a code or description, shown as the description or the default text with no error; not found: "" and the not-found error; failure: the normalised message shown and toasted once, description cleared; afterwards exactly one of description and error is set |
| Lookup.ListaComoPrimeiro | app/components/hooks/useBuscaOperador.ts:36-46 | an empty array behaves exactly like an empty body; a non-empty array behaves exactly like its element 0 alone |
| BuscaOperador.UseBuscaOperador.constructor | app/components/hooks/useBuscaOperador.ts:16-18 | starts with no name, no error, not pending |
| BuscaOperador.UseBuscaOperador.ConsultarOperador | app/components/hooks/useBuscaOperador.ts:21-60 | the field writes, in order, end in `Lookup.ConsultaCadastro` with the operator texts; name set iff no error; pending false |
| BuscaOperador.UseBuscaOperador.LimparOperador | app/components/hooks/useBuscaOperador.ts:62-65 | name "" and error cleared, pending flag unchanged |
| BuscaServico.UseBuscaServico.constructor | app/components/hooks/useBuscaServico.ts:16-18 | starts with no description, no error, not pending |
| BuscaServico.UseBuscaServico.ConsultarServico | app/components/hooks/useBuscaServico.ts:21-60 | ends in `Lookup.ConsultaCadastro` with the service texts ("Serviço encontrado" as default); description set iff no error |
| BuscaServico.UseBuscaServico.LimparServico | app/components/hooks/useBuscaServico.ts:62-65 | description and error cleared |
| BuscaInstrumento.UseBuscaInstrumento.constructor | app/components/hooks/useBuscaInstrumento.ts:16-18 | starts with no description, no error, not pending |
| BuscaInstrumento.UseBuscaInstrumento.ConsultarInstrumento | app/components/hooks/useBuscaInstrumento.ts:21-63 | ends in `Lookup.ConsultaCadastro` with the instrument texts; description set iff no error |
| BuscaInstrumento.UseBuscaInstrumento.LimparInstrumento | app/components/hooks/useBuscaInstrumento.ts:65-68 | description and error cleared |
| BuscaPosto.ConsultaPosto | app/components/hooks/useBuscaPosto.ts:22-60 | blank code: "required" error and no request; only an array is read, element 0 if present; found copies the description verbatim, with no default and no error; a single object or empty array is "not found"; failure shows and toasts the normalised message; never both a description and an error |
| BuscaPosto.PostoSemDescricaoNemErro | app/components/hooks/useBuscaPosto.ts:37-41 | a workstation found with an empty description leaves both description and error empty; a single object reply is "not found" |
| BuscaPosto.UseBuscaPosto.constructor | app/components/hooks/useBuscaPosto.ts:17-19 | starts empty and not pending |
| BuscaPosto.UseBuscaPosto.ConsultarPosto | app/components/hooks/useBuscaPosto.ts:22-60 | the field writes end in `ConsultaPosto` |
| BuscaPosto.UseBuscaPosto.LimparPosto | app/components/hooks/useBuscaPosto.ts:62-65 | description and error cleared |
| BuscaOS.ConsultaOS | app/components/hooks/useBuscaOS.ts:49-89 | blank: the "required" error is set and then wiped by `limparBuscaOS`, so everything ends empty and no request is made; found (element 0 or the object): kept, returned, reference `OS <numero_os ?? trimmed input>`, no error; not found: "no information" error, nothing kept; failure: toast, then everything cleared; the order kept is the one returned and has a reference exactly when kept |
| BuscaOS.AnotarLinhas | app/components/hooks/useBuscaOS.ts:113-117 | same number of rows in the same order; each keeps division and quantity and gets the order's number |
| BuscaOS.ConsultaOSCompleta | app/components/hooks/useBuscaOS.ts:91-155 | blank: only the "required" error changes, empty rows, null reference; success: annotated rows, reference `OS n` set and returned even with zero divisions (then the "no division" error is also set), workstation/load fields passed through; empty body or failure: toast, no rows, previous reference kept; pending ends false |
| BuscaOS.CorpoVazioMostraTypeError | app/components/hooks/useBuscaOS.ts:110-142 | an empty body is reported with the engine's TypeError text, not the fallback |
| BuscaOS.ConsultaOSIgnoraEspacos | app/components/hooks/useBuscaOS.ts:50-68 | blank or not, the outcome depends only on the trimmed number: blanks around it change nothing |
| BuscaOS.UseBuscaOS.constructor | app/components/hooks/useBuscaOS.ts:37-40 | starts empty and not pending |
| BuscaOS.UseBuscaOS.LimparBuscaOS | app/components/hooks/useBuscaOS.ts:43-47 | order, reference and error cleared |
| BuscaOS.UseBuscaOS.SetReferencia | app/components/hooks/useBuscaOS.ts:38 | only the reference changes |
| BuscaOS.UseBuscaOS.ConsultarOS | app/components/hooks/useBuscaOS.ts:49-89 | the field writes, last write winning, end in `ConsultaOS` |
| BuscaOS.UseBuscaOS.ConsultarOSCompleta | app/components/hooks/useBuscaOS.ts:91-155 | the field writes end in `ConsultaOSCompleta` |
| BuscaOSEvento13.ConsultaOS13 | app/components/hooks/useBuscaOSEvento13.ts:29-78 | blank: all three fields end null, no request; balance 0: "no balance" toast and all cleared; other balance (negative included): kept, returned, reference `OS n`; empty body: "no information" error; failure: toast and all cleared; an order without balance is never kept |
| BuscaOSEvento13.ConsultaOS13SemMemoria | app/components/hooks/useBuscaOSEvento13.ts:42-74 | for a non-blank number the outcome does not depend on the previous state |
| BuscaOSEvento13.UseBuscaOSEvento13.constructor | app/components/hooks/useBuscaOSEvento13.ts:17-20 | starts empty and not pending |
| BuscaOSEvento13.UseBuscaOSEvento13.LimparBuscaOS | app/components/hooks/useBuscaOSEvento13.ts:23-27 | all three fields cleared |
| BuscaOSEvento13.UseBuscaOSEvento13.SetReferencia | app/components/hooks/useBuscaOSEvento13.ts:18 | only the reference changes |
| BuscaOSEvento13.UseBuscaOSEvento13.ConsultarOS | app/components/hooks/useBuscaOSEvento13.ts:29-78 | the field writes end in `ConsultaOS13`; the invariant "a kept order has a non-zero balance" is preserved |
| BuscaServicosInspecao.ConsultaServicos | app/components/hooks/useBuscaServicosInspecao.ts:33-75 | blank: only the "required" error, list and selection kept, false, no request; otherwise the untrimmed number is queried and the selection dropped; non-empty array: kept, reference `OS <input> - <n> serviço(s) encontrado(s)`, true; anything else: "none found", null reference, false; failure: message stored, `Erro ao buscar:\n` + message toasted, false; true iff a list ends kept |
| BuscaServicosInspecao.ReferenciaContaServicos | app/components/hooks/useBuscaServicosInspecao.ts:51-53 | the reference starts with `OS ` and the number as typed, then ` - ` and the count |
| BuscaServicosInspecao.UseBuscaServicosInspecao.constructor | app/components/hooks/useBuscaServicosInspecao.ts:20-29 | starts empty and not pending |
| BuscaServicosInspecao.UseBuscaServicosInspecao.ConsultarServicos | app/components/hooks/useBuscaServicosInspecao.ts:33-75 | the clear-then-fill writes end in `ConsultaServicos`; a kept list is never empty |
| BuscaServicosInspecao.UseBuscaServicosInspecao.SelecionarServico | app/components/hooks/useBuscaServicosInspecao.ts:77-79 | only the selection changes |
| BuscaServicosInspecao.UseBuscaServicosInspecao.SetReferencia | app/components/hooks/useBuscaServicosInspecao.ts:25 | only the reference changes |
| BuscaServicosInspecao.UseBuscaServicosInspecao.LimparDados | app/components/hooks/useBuscaServicosInspecao.ts:81-86 | list, selection, reference and error cleared |
| BuscaCarga.ConsultaCarga | app/components/hooks/useBuscaCarga.ts:23-57 | blank: "required" error, no rows, null reference, no request; success: `oss` unchanged (or [] when absent, rows not annotated), reference `Carga n`, "no OS" error when empty; empty body or failure: toast, no rows, null reference; a reference is returned iff a load was received |
| BuscaCarga.UseBuscaCarga.constructor | app/components/hooks/useBuscaCarga.ts:19-20 | starts with no error, not pending |
| BuscaCarga.UseBuscaCarga.ConsultarCarga | app/components/hooks/useBuscaCarga.ts:23-57 | the field writes end in `ConsultaCarga`; pending false |
| SalvarEvento.Mesclar | app/components/hooks/useSalvarEvento.ts:45-48 | every other property is kept as it is; `data_hora` is added or overwritten iff the custom time is non-empty; otherwise the payload is unchanged |
| SalvarEvento.MesclarIdempotente | app/components/hooks/useSalvarEvento.ts:45-48 | merging the same custom time twice is merging it once |
| SalvarEvento.MensagemErroSalvar | app/components/hooks/useSalvarEvento.ts:65-86 | a non-empty `message` without an allowed status wins; with no usable message: server `erro`, then server `mensagem`, then the default; the toast is empty only for an error with an empty message and no response |
| SalvarEvento.Salvar | app/components/hooks/useSalvarEvento.ts:37-90 | posts the merged payload; any reply that did not throw is a success, even with an empty body; exactly one toast; success text is the server's `mensagem` or `<titulo> salvo!`; error text is `MensagemErroSalvar` |
| SalvarEvento.ErroSemMensagemAvisoVazio | app/components/hooks/useSalvarEvento.ts:79-85 | `new Error()` raises an empty error toast |
| SalvarEvento.UseSalvarEvento.constructor | app/components/hooks/useSalvarEvento.ts:34 | not saving |
| SalvarEvento.UseSalvarEvento.SalvarEvento | app/components/hooks/useSalvarEvento.ts:37-90 | the outcome is `Salvar`; `salvando` is false afterwards on both paths |
| HorarioCustomizado.ParaEnvio | app/components/hooks/useHorarioCustomizado.ts:29-31 | the time is sent only when set, otherwise "" |
| HorarioCustomizado.UseHorarioCustomizado.constructor | app/components/hooks/useHorarioCustomizado.ts:9-13 | initial state `{"", false}`, so "" is sent |
| HorarioCustomizado.UseHorarioCustomizado.AjustarHorario | app/components/hooks/useHorarioCustomizado.ts:15-20 | the state becomes `{x, true}` whatever it was, and x is sent |
| HorarioCustomizado.UseHorarioCustomizado.LimparHorario | app/components/hooks/useHorarioCustomizado.ts:22-27 | back to the initial state, so it is idempotent |
| HorarioCustomizado.UseHorarioCustomizado.ObterDataHoraParaEnvio | app/components/hooks/useHorarioCustomizado.ts:29-31 | changes nothing; a non-empty result means a time was set |
| DateTime.Pad | app/components/hooks/useDateTime.ts:7 | "0" + digit below 10, the plain number from 10 up; at least two digits that read back as the value |
| DateTime.Data | app/components/hooks/useDateTime.ts:9-11 | day and month (shown from 1) padded, the year unpadded, slashes at positions 2 and 5 |
| DateTime.Hora | app/components/hooks/useDateTime.ts:12-16 | hours, minutes and seconds padded to two digits, colons at 2 and 5 |
| DateTime.FormatarDataHora | app/components/hooks/useDateTime.ts:5-17 | the day and month (01..12) lead, each followed by a slash and reading back as the clock value |
| DateTime.FormatoCompleto | app/components/hooks/useDateTime.ts:7-16 | with a four-digit year the text is exactly `dd/mm/yyyy hh:mm:ss`: 19 characters, separators in place, every field reading back as its value |
| Evento13.ErroOS | app/eventos/Evento13.tsx:102-106 | "required" when blank, else "must search" without an order; no error iff filled and found |
| Evento13.ErroQuantidade | app/eventos/Evento13.tsx:108-119 | "required" when blank; "must be positive" for NaN or ≤ 0; over the balance (checked only with an order) gives a message quoting the balance; no error iff a positive number within the balance |
| Evento13.Erros13 | app/eventos/Evento13.tsx:99-120 | both groups are checked independently, at most two errors, none iff the OS was found and the quantity is valid |
| Evento13.QuantidadeAceitaEhValida | app/eventos/Evento13.tsx:84-97 | a non-empty quantity the change handler let in passes the save's quantity checks |
| Evento13.SoQuantidadeObrigatoria | app/eventos/Evento13.tsx:108-119 | for quantities typed through the change handler, the save's quantity group can only say "required" |
| Evento13.PayloadEvento13 | app/eventos/Evento13.tsx:128-135 | exactly `evento` "13", the untrimmed OS, `divisao` as text, and `data_hora` only when set; the quantity is not sent; this is what the save hook posts |
| Evento13.ConsultaForm13 | app/eventos/Evento13.tsx:54-71 | blank: only the toast; otherwise the quantity is cleared and disabled, the lookup runs on the trimmed number, the quantity is enabled iff an order with balance was kept, and a failed number is erased; "enabled only with an order" is preserved |
| Evento13.Evento13.constructor | app/eventos/Evento13.tsx:28-33 | the OS handed over by the page, empty quantity, disabled |
| Evento13.Evento13.AlterarNumOS | app/eventos/Evento13.tsx:174-175 | only `num_os` changes |
| Evento13.Evento13.LimparCampos | app/eventos/Evento13.tsx:49-52 | quantity cleared and disabled |
| Evento13.Evento13.HandleConsultarOS | app/eventos/Evento13.tsx:54-71 | the form and the hook end in `ConsultaForm13` |
| Evento13.Evento13.InicializarOSSelecionada | app/eventos/Evento13.tsx:74-82 | with an OS handed over and no reference: reference `OS <numero>`, then the search; otherwise nothing changes |
| Evento13.Evento13.HandleQuantidadeChange | app/eventos/Evento13.tsx:84-97 | ignored without an order; otherwise the value is kept iff "" or in (0, balance] |
| Evento13.Evento13.HandleSalvar | app/eventos/Evento13.tsx:99-136 | errors give one toast, the header plus the errors joined by line breaks, and no save; otherwise `Salvar` of `Payload13` with the last division |
| Evento13.Evento13.HandleCancelar | app/eventos/Evento13.tsx:138-145 | both fields cleared, quantity disabled |
| Evento18.RotuloIdentificaServico | app/eventos/Evento18.tsx:111-114 | two services with the same label `seq - desc` have the same sequential number and description |
| Evento18.IndiceServico | app/eventos/Evento18.tsx:111-114 | the position of the first service with that label, or none iff no service has it |
| Evento18.EncontrarServico | app/eventos/Evento18.tsx:111-114 | the service found is in the list and has the label; none iff no service has it |
| Evento18.MesmoRotuloMesmoSequencial | app/eventos/Evento18.tsx:111-117 | any service with the chosen label has the sequential number of the one found |
| Evento18.ConsultaForm18 | app/eventos/Evento18.tsx:63-90 | blank: only the toast; otherwise service and operator disabled and cleared, selection dropped, the inspection lookup runs on the trimmed number, the service input is enabled iff services were found, and a failed number is erased; `Coerente18` is preserved |
| Evento18.EscolhaServico | app/eventos/Evento18.tsx:108-126 | no-op without a list; otherwise the text is kept, the first service with that label is selected and the operator enabled, or nothing is selected, the operator disabled and its text cleared; `Coerente18` (operator enabled only for a selected service of the current list) is preserved |
| Evento18.ErroOS | app/eventos/Evento18.tsx:142-148 | "required" when blank, else "must search" without a non-empty list |
| Evento18.ErroServico | app/eventos/Evento18.tsx:150-154 | "required" when blank, else "select a valid service" without a selection |
| Evento18.ErroOperador | app/eventos/Evento18.tsx:156-162 | "required" when blank, else "must search" without a name; the error field is not consulted |
| Evento18.Erros18 | app/eventos/Evento18.tsx:139-163 | at most three errors, none iff every field is filled and each lookup found something |
| Evento18.PayloadEvento18 | app/eventos/Evento18.tsx:171-177 | exactly `evento` "18", the untrimmed OS and operator code, the sequential number as text, and `data_hora` only when set |
| Evento18.SequencialEnviadoEhODoRotulo | app/eventos/Evento18.tsx:171-174 | in a coherent form, the sequential number sent is that of any list entry carrying the label in the service field |
| Evento18.Evento18.constructor | app/eventos/Evento18.tsx:31-38 | the OS handed over, empty texts, both inputs disabled |
| Evento18.Evento18.AlterarNumOS | app/eventos/Evento18.tsx:223-224 | only `num_os` changes |
| Evento18.Evento18.AlterarOperador | app/eventos/Evento18.tsx:279-280 | only `operador` changes |
| Evento18.Evento18.HandleConsultarOS | app/eventos/Evento18.tsx:63-90 | the form and the inspection hook end in `ConsultaForm18`, and the operator lookup is cleared |
| Evento18.Evento18.InicializarOSSelecionada | app/eventos/Evento18.tsx:92-106 | with an OS handed over and no reference: reference `OS <numero>`, then the search; otherwise nothing changes |
| Evento18.Evento18.HandleServicoChange | app/eventos/Evento18.tsx:108-126 | the form and the selection end in `EscolhaServico` |
| Evento18.Evento18.HandleConsultarOperador | app/eventos/Evento18.tsx:128-137 | blank code: only the toast; otherwise the operator hook ends in `Lookup.ConsultaCadastro` on the trimmed code |
| Evento18.Evento18.Validar | app/eventos/Evento18.tsx:139-163 | returns `Erros18` of the current fields and lookups |
| Evento18.Evento18.HandleSalvar | app/eventos/Evento18.tsx:139-180 | errors give one toast and no save; otherwise the selected service is in the list with the label shown, and the outcome is `Salvar` of `Payload18` |
| Evento18.Evento18.HandleCancelar | app/eventos/Evento18.tsx:182-193 | every field cleared, both inputs disabled, selection and operator lookup cleared |
| Evento19.ErroOS | app/eventos/Evento19.tsx:90-94 | "required" when blank, else "must search" without an order |
| Evento19.ErroCadastro | app/eventos/Evento19.tsx:96-112 | "required" when blank, else "must search" when the description is empty or an error is shown |
| Evento19.ErroResultado | app/eventos/Evento19.tsx:114-116 | the result is required |
| Evento19.Erros19 | app/eventos/Evento19.tsx:87-116 | the five groups are checked independently, at most five errors, none iff all filled and all four lookups valid; a blank result is reported last |
| Evento19.OcorrenciasAviso | app/eventos/Evento19.tsx:118-121 | the toast's line breaks are the header's, the messages' and one set per separator |
| Evento19.EscritoSemQuebra | app/eventos/Evento19.tsx:119 | the header and separator as written contain no line break |
| Evento19.CorrigidoComQuebras | app/eventos/Evento13.tsx:122 | with real line breaks the header holds two and the separator one |
| Evento19.AvisoNumaSoLinha | app/eventos/Evento19.tsx:118-121 | as written, the toast has no line break besides those inside the messages |
| Evento19.AvisoUmaLinhaPorErro | app/eventos/Evento19.tsx:118-121 | with the texts corrected to real line breaks (`TEXTOS_CORRIGIDOS`), the toast has one more line break than there are errors |
| Evento19.PayloadEvento19 | app/eventos/Evento19.tsx:125-134 | exactly the five fields trimmed plus `tipo_lcto` "19", and no custom time is merged |
| Evento19.CamposEnviadosLimpos | app/eventos/Evento19.tsx:125-132 | no field is sent with blanks at either end, and after validation no property is empty |
| Evento19.ReferenciaInicial | app/eventos/Evento19.tsx:66-69 | with an OS handed over and no reference, `OS <numero>`; otherwise the reference is unchanged |
| Evento19.ReferenciaInicialIdempotente | app/eventos/Evento19.tsx:66-69 | the render-time initialisation done twice is done once |
| Evento19.Evento19.constructor | app/eventos/Evento19.tsx:30-36 | the texts as written, the OS handed over, other fields empty, reference initialised |
| Evento19.Evento19.InicializarReferencia | app/eventos/Evento19.tsx:66-69 | only the reference changes, to `ReferenciaInicial` |
| Evento19.Evento19.AlterarCampos | app/eventos/Evento19.tsx:174-323 | the fields become what was typed |
| Evento19.Evento19.HandleConsultarOS | app/eventos/Evento19.tsx:71-73 | the OS hook ends in `BuscaOS.ConsultaOS` on the untrimmed field |
| Evento19.Evento19.HandleConsultarServico | app/eventos/Evento19.tsx:75-77 | the service hook ends in `Lookup.ConsultaCadastro` on the field as typed |
| Evento19.Evento19.HandleConsultarOperador | app/eventos/Evento19.tsx:79-81 | the operator hook ends in `Lookup.ConsultaCadastro` on the field as typed |
| Evento19.Evento19.HandleConsultarInstrumento | app/eventos/Evento19.tsx:83-85 | the instrument hook ends in `Lookup.ConsultaCadastro` on the field as typed |
| Evento19.Evento19.Validar | app/eventos/Evento19.tsx:87-116 | returns `Erros19` of the current fields and lookups |
| Evento19.Evento19.HandleSalvar | app/eventos/Evento19.tsx:87-135 | errors give one toast, header plus the errors joined by the separator of line 119, and no save; that toast holds no line break besides those inside the messages; otherwise `Salvar` of `Payload19` with no custom time |
| Evento19.Evento19.HandleCancelar | app/eventos/Evento19.tsx:137-146 | all five fields become "" |
| Eventos.Renderizar | app/eventos/index.ts:15-22 | a wrapper renders the shared load form with its own `tipoEvento`; every entry forwards the props unchanged |
| Eventos.TituloEvento1015 | app/eventos/Evento1015.tsx:33 | "Início de Carga" for 10, "Término de Carga" for anything else |
| Eventos.RegistroDeEventos | app/eventos/index.ts:24-30 | the keys are exactly {10, 13, 15, 18, 19}; 10 and 15 render the shared form for their code with different titles; 13, 18 and 19 their own forms |
| Eventos.EnvoltorioDoProprioCodigo | app/eventos/index.ts:16-30 | a wrapper entry records the event of its own key, and only 10 and 15 are wrappers |
| Pagina.CodigoEventoNumero | app/page.tsx:42-44 | NaN exactly when the text is empty or does not start with a digit; otherwise the value of the leading digit run |
| Pagina.ZeroAEsquerda | app/page.tsx:42-44 | leading zeros do not change the number read |
| Pagina.NumeroSozinho | app/page.tsx:42-44 | a printed number typed alone reads back as that number, also with a leading zero |
| Pagina.NumeroNoInicio | app/page.tsx:42-44 | a printed number followed by a non-digit reads back as that number, also with a leading zero |
| Pagina.BrancoNoInicio | app/page.tsx:42-44 | a leading blank gives NaN: blanks are not skipped |
| Pagina.RotuloLidoComoCodigo | app/page.tsx:12-31 | every menu label `<n> - <text>` reads back as n |
| Pagina.ComponenteDe | app/page.tsx:45-46 | an entry iff the leading number is a registry key, and then that key's entry |
| Pagina.Carregar | app/page.tsx:48-64 | blank: alert "Informe o codigo do evento" and invalid; otherwise valid iff the number is registered, else alert "Evento nao encontrado"; valid iff no alert |
| Pagina.CarregarCodigoSozinho | app/page.tsx:55-63 | a registered code typed alone loads, with or without a leading zero; an unregistered one does not |
| Pagina.CarregarCodigoRegistrado | app/page.tsx:55-63 | a registered code followed by a non-digit and any other text loads, with or without a leading zero; an unregistered one does not |
| Pagina.NaoBranco | app/page.tsx:49 | a text starting with a digit is not blank |
| Pagina.CarregarOpcao | app/page.tsx:123-126 | loading a picked menu entry succeeds iff its code is registered |
| Pagina.CodigosDoMenu | app/page.tsx:11-32 | of the menu's codes only 10, 13, 15 and 19 are registered, and 18 is not on the menu |
| Pagina.MenuForaDoRegistro | app/page.tsx:11-32 | loading a menu entry succeeds exactly for 10, 13, 15 and 19 |
| Pagina.ChaveDistingue | app/page.tsx:158 | with the same OS, different texts give different keys; with the same text, picking a first OS, dropping it, or changing its number gives a different key, unless the number is `sem-os` |
| Pagina.ChaveSemOSColide | app/page.tsx:158 | as written, no OS and an OS numbered `sem-os` give the same key |
| Pagina.ChaveCorrigidaDistingue | app/page.tsx:158 | with the OS number marked (`os-<numero>`), any change of the text or of the OS gives a different key |
| Pagina.Pagina.constructor | app/page.tsx:35-38 | empty code, not valid, no OS: nothing shown |
| Pagina.Pagina.Exibido | app/page.tsx:156-161 | a form is shown iff the last load succeeded and the current text names a registered code; it is that code's entry with the page's OS and the key `Chave` |
| Pagina.Pagina.AlterarCodigo | app/page.tsx:90 | only the text changes; validity is kept, so the form shown follows the new text |
| Pagina.Pagina.EscolherOpcao | app/page.tsx:123-126 | the text becomes the entry's label; with a valid page and a registered code a form is shown |
| Pagina.Pagina.CarregarEvento | app/page.tsx:48-64 | validity and alert are `Carregar` of the text; a form is shown iff the load succeeded |
| Pagina.Pagina.SelecionarOS | app/page.tsx:188-191 | only the OS changes, so the form shown stays the same; picking an OS other than the current one, including the first, gives it a new key (unless numbered `sem-os`), so it remounts |

## Left out

- app/services/api.ts is not part of this model. It is the HTTP plumbing. Every reply is a parameter, and a thrown value is `ApiError` (optional status, message and response).
- The page's `onConsultarOS` callback only opens the OS search modal. It is not modelled; choosing an OS there is `Pagina.Pagina.SelecionarOS`.
- useParametros, the modals (`AjustarHorarioModal`, `ConsultaOSModal`), `NotificationsProvider`, `SelectDropdown`, `useNavigation`, the layout and all rendering are out of scope. The redirect home after cancelling is not modelled.
- React scheduling is not modelled: concurrent lookups, awaits interleaving with other handlers, updates after unmount, and effects re-running. Each handler is one sequential step that receives the server's reply.
- Evento13.Evento13.InicializarOSSelecionada and Evento18.Evento18.InicializarOSSelecionada: the search that the effect defers with `setTimeout(…, 0)` runs at once, in the same step.
- The form of events 10 and 15 (`Evento1015`) is modelled only through its title. Its `salvar` only logs and alerts.
- Evento13.Evento13.HandleSalvar: `parseFloat` and `isNaN` are a parameter `string -> Option<real>`. The only fact assumed of it is that a blank text is NaN. IEEE rounding is not modelled.
- The server's numbers are unbounded integers. `Number` of a very long digit run rounds to a double (or to Infinity) in the source. Such a value cannot be a registry key either way, so `Pagina.Carregar` is unaffected.
- Payload values are all text in the model. JSON `null` bodies are the empty body. A `null` body at app/components/hooks/useBuscaOS.ts:113 would make the engine throw "Cannot read properties of null (reading 'divisoes')". `ApiErrors.ErroLeituraDeIndefinido` always gives the "of undefined" text, which is the one for an empty body.
- Evento18.Evento18.AlterarOperador requires the operator input to be enabled. The source disables that input, and the model does not let a disabled input be typed into.
- The page keeps the key as written (`Pagina.Chave`). The corrected key of the finding below, `Pagina.ChaveCorrigida`, stands beside it with its property proved. Likewise the Evento19 form keeps the toast texts as written, and `Evento19.TEXTOS_CORRIGIDOS` stands beside them.
- BuscaOSEvento13.ConsultaOS13: the reply is taken as the single order object the hook declares. app/components/hooks/useBuscaOS.ts:61-64 reads the same endpoint as an object or an array. An array reply, even an empty one, is truthy, and the zero-balance test does not reject it (the array has no `saldo_divisoes`). It would then be kept as the order, with the reference `OS undefined`, and Evento13 could accept no quantity against it. That path is not modelled.
- The property that the stripped text is a suffix of the message is not stated. The source does not rely on it.

## Findings

| source | as written | input that shows it | evidently intended | confidence | as-written member | corrected member |
|---|---|---|---|---|---|---|
| app/eventos/Evento19.tsx:119 | header `"Erro(s) de validação:\\n\\n"` and separator `"\\n"`: each line break is the two characters `\` and `n` | save with every field empty: the five messages appear on one line with a literal `\n` between them, although the toast uses the `pre-line` style | real line breaks, as in app/eventos/Evento13.tsx:122 and app/eventos/Evento18.tsx:165 | high (not executed) | Evento19.AvisoNumaSoLinha | Evento19.AvisoUmaLinhaPorErro |
| app/page.tsx:158 | the form's key is `<code>-<OS number>`, or `<code>-sem-os` with no OS | an OS whose number is the text `sem-os`, picked when no OS was picked before: the key stays the same and the form is not remounted | a key that tells "no OS" apart from every OS number | low (not executed; OS numbers are normally numeric) | Pagina.ChaveSemOSColide | Pagina.ChaveCorrigidaDistingue |
