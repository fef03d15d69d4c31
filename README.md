# beekid: the decision logic of the agenda, information and child-selection pages

beekid is a childcare application: an Express/Sequelize server and browser scripts. Parents and
carers use it to keep a child's daily schedule ("agenda") and information records (allergies,
medication, other notes). This project models the small layer of the application that decides
things rather than moving data:

- the two copies of the activity-status normaliser. The browser's `normalizeStatus` is in
  `public/js/agenda.js`; the server's `normStatus` is in `controllers/agendaController.js`.
  Each strips accents, trims, upper-cases and maps aliases onto `PENDENTE | CONCLUIDO`;
- the two copies of the information-type normaliser. The browser's `normalizeTipoFront` is in
  `public/js/info.js`; the server's `normTipo` is in `controllers/infoCriancaController.js`.
  Each trims, lower-cases and maps aliases onto `alergias | medicamento | outros`;
- what each page and each handler decides before any I/O:
  - the validation order of the forms;
  - PUT versus POST;
  - the `savingInfo` re-entrancy flag;
  - the `PENDENTE` default;
  - the records `update` hands to the ORM;
  - the 400 answer to an unknown type;
- the child-selection page (`public/js/selecionarCrianca.js`):
  - the CPF digit count;
  - card initials;
  - the split of the children by the user's role;
  - the token precedence between the URL and local storage, and the cleaned URL;
- the value domains the two tables accept (`models/Agenda.js`, `models/InfoCrianca.js`).

Each source file is one module: `AgendaClient`, `AgendaController`, `InfoClient`,
`InfoController`, `SelecionarCrianca`, `AgendaModel` and `InfoCriancaModel`. Pure code is
functions and lemmas. Code that updates state step by step is methods:

- the activity form, the information page and the browser session are classes whose methods
  change their fields;
- the handlers that reassign `titulo` or build a record key by key are methods;
- the list renderings are loops.

`ClientServer` holds the lemmas that relate the copies to each other. JavaScript's own
semantics are modelled in three support modules:

- `JsValues`: truthiness, `String(v)`, `??`, property reads that see `Object.prototype`;
- `Text`: `trim`, NFD accent stripping over Latin-1, upper- and lower-casing over ASCII and
  Latin-1;
- `Uri`: `encodeURIComponent` and the `URLSearchParams` serializer.

The model establishes several cross-file facts:

- Whenever the server recognises a status, it agrees with the browser.
- Every status the browser sends comes back from the server unchanged, and the `agenda` table
  accepts it.
- The two type tables are identical.
- The information types the server produces are lower-case. The `info_crianca` table accepts
  only `ALERGIA | SAUDE | ESCOLA | OUTROS`, so no type `create` accepts can ever be stored
  (`InfoController.CreateNeverStores`).

## Model

| member | source | states |
|---|---|---|
| AgendaClient.NormalizeStatus | public/js/agenda.js:4-20 | null for falsy input; otherwise `CONCLUIDO` exactly when the key is in the done list, `PENDENTE` exactly when it is `PENDENTE` or in the pending list; never anything else |
| AgendaClient.NormalizeStatusByKey | public/js/agenda.js:4-20 | a truthy input normalises to what its key stands for under the alias lists, stated independently of the branch order |
| AgendaClient.NormalizeStatusSameKey | public/js/agenda.js:5-8 | two texts with the same accent-free, trimmed, upper-cased key normalise alike |
| AgendaClient.NormalizeStatusIgnoresPadding | public/js/agenda.js:8 | surrounding white space does not change the result |
| AgendaClient.NormalizeStatusIgnoresCaseAndAccents | public/js/agenda.js:6-8 | inputs whose characters agree one by one after accent stripping and upper-casing normalise alike |
| AgendaClient.PlainUpperIsCanonical | public/js/agenda.js:6-8 | upper-case ASCII text with inner spaces, digits and `_` is its own key |
| AgendaClient.EnumValuesAreFixedPoints | public/js/agenda.js:9 | `PENDENTE` and `CONCLUIDO` map to themselves |
| AgendaClient.NormalizeStatusIdempotent | public/js/agenda.js:4-20 | normalising a normalised status changes nothing |
| AgendaClient.AliasListsDisjoint | public/js/agenda.js:12-18 | no key is in both alias lists, and `PENDENTE` is not a done alias |
| AgendaClient.ConcluidaKeys | public/js/agenda.js:6-8 | `concluída` and `CONCLUIDA` key alike character by character |
| AgendaClient.AliasExample | public/js/agenda.js:12-13 | `CONCLUIDA` gives `CONCLUIDO` |
| AgendaClient.AccentedExample | public/js/agenda.js:6-13 | `concluída` gives `CONCLUIDO` |
| AgendaClient.PaddedAccentedExample | public/js/agenda.js:6-13 | ` concluída ` gives `CONCLUIDO` |
| AgendaClient.InnerSpaceExample | public/js/agenda.js:8-19 | inner spaces are kept, so `EM ABERTO` gives null |
| AgendaClient.UnderscoreExample | public/js/agenda.js:16-17 | `EM_ABERTO` gives `PENDENTE` |
| AgendaClient.LabelFromEnum | public/js/agenda.js:22-24 | `Concluída` exactly for `CONCLUIDO`, `Pendente` for everything else, null included |
| AgendaClient.StatusClassFromEnum | public/js/agenda.js:26-28 | `concluida` exactly for `CONCLUIDO`, `pendente` for everything else |
| AgendaClient.LabelAndClassAgree | public/js/agenda.js:22-28 | label and CSS class always take the same branch |
| AgendaClient.StatusOrPendente | public/js/agenda.js:63 | `normalizeStatus(v) \|\| 'PENDENTE'` is always an enum value, and `CONCLUIDO` exactly when the normaliser says so |
| AgendaClient.AtividadeForm.constructor | public/js/agenda.js:43-50 | a cleared form with `PENDENTE` selected when the select exists |
| AgendaClient.AtividadeForm.Open | public/js/agenda.js:37-79 | fields cleared and `PENDENTE` selected; with an id and a loaded task, the fields take the loaded activity's values through `??` and the status its defaulted normal form; a failed load keeps the modal closed |
| AgendaClient.AtividadeForm.Save | public/js/agenda.js:82-128 | without a status select, the unguarded read throws and only the connection alert is shown; otherwise the missing-fields alert exactly when a trimmed field is empty, then the no-child alert, in both cases no request; a request is made exactly when the select exists, all three fields are non-empty and a child is selected; PUT to `/api/agenda/<encoded id>` exactly when the form holds an id, POST to `/api/agenda` otherwise; the payload carries trimmed fields and an enum status |
| AgendaClient.RenderTaskStatus | public/js/agenda.js:153-165 | each rendered status class is one of the two and is `concluida` exactly for activities normalised as done; the badge agrees |
| AgendaClient.RenderAll | public/js/agenda.js:153-177 | one item per task, in order, each the rendering of its task |
| AgendaClient.RenderTask | public/js/agenda.js:154-169 | the item's status class is `concluida` exactly when the normaliser reads the activity as done, and `pendente` exactly otherwise |
| AgendaClient.LoadDay | public/js/agenda.js:132-182 | a 404 or an empty list shows the no-activity line, any other failure the alert, and a non-empty list its rendered tasks in order |
| AgendaClient.DayListShowsOnlyEnumStatuses | public/js/agenda.js:153-165 | every badge on the day list reads `Concluída` or `Pendente`, and `Concluída` exactly for tasks normalised as done |
| AgendaController.NormStatus | controllers/agendaController.js:3-12 | null for falsy input; otherwise a status exactly when the key is in `MAP_STATUS`; always an enum value |
| AgendaController.NormStatusByKey | controllers/agendaController.js:3-12 | a truthy input gives what its key stands for in an independent statement of the alias table |
| AgendaController.PrototypeKeysHaveLowerCase | controllers/agendaController.js:11 | every key an object literal inherits has a lower-case ASCII letter in place 0 or 2 |
| AgendaController.UpperIsNeverPrototypeKey | controllers/agendaController.js:10-11 | an upper-cased key never reads an inherited member of `MAP_STATUS` |
| AgendaController.CharKeyHasNoCapitalIAcute | controllers/agendaController.js:10 | no character keys to a text containing `Í` |
| AgendaController.AccentedKeyUnreachable | controllers/agendaController.js:5-10 | the key is never `CONCLUÍDO`, so that entry of `MAP_STATUS` is never read |
| AgendaController.Create | controllers/agendaController.js:17-22 | `titulo` falls back to `titulo_tarefa` only when falsy; the status is the normalised one, or `PENDENTE` when there is none; other fields pass unchanged |
| AgendaController.CreateStatusIsStorable | controllers/agendaController.js:20-22 | the status `create` passes is accepted by the column, and a missing status is stored as the column default |
| AgendaController.Update | controllers/agendaController.js:70-76 | the record always has `horario`, `titulo` (after the same fallback) and `descricao`, and `status_tarefa` exactly when a truthy status normalises |
| AgendaController.UpdateKeepsStatusUnlessRecognised | controllers/agendaController.js:73-79 | an absent or unrecognised status leaves the stored one as it was, a recognised one replaces it, and columns outside the record are untouched |
| AgendaModel.Insert | models/Agenda.js:5-15 | a row exactly when `horario` and `titulo` are present, `titulo` fits 150 characters and the status is null or listed; an absent status becomes `PENDENTE`, a null one stays null |
| AgendaModel.StatusDomain | models/Agenda.js:9-13 | the ENUM and `isIn` lists name exactly `PENDENTE` and `CONCLUIDO` |
| InfoClient.NormalizeTipoFront | public/js/info.js:12-29 | null for falsy input; otherwise a type exactly when the trimmed, lower-cased text is an own key of the alias table, and then the table's value, which `ENUM_TIPOS` includes |
| InfoClient.TipoByOwnKey | public/js/info.js:17-28 | a text whose key is in the table normalises to the table's value |
| InfoClient.TipoByAbsentKey | public/js/info.js:17-28 | a text whose key is not in the table gives null |
| InfoClient.EnumTiposAreFixedPoints | public/js/info.js:12-26 | each `ENUM_TIPOS` value maps to itself |
| InfoClient.NormalizeTipoFrontIdempotent | public/js/info.js:15-29 | normalising a normalised type changes nothing |
| InfoClient.AccentedTipoExample | public/js/info.js:17-22 | `Saúde` gives null: accents are not stripped |
| InfoClient.PlainTipoExample | public/js/info.js:22 | `saude` gives `medicamento` |
| InfoClient.InheritedKeyExample | public/js/info.js:27-28 | `constructor` gives null: the `includes` check turns the inherited member away |
| InfoClient.ModalTipo | public/js/info.js:59 | the edit modal's type is always in `ENUM_TIPOS`: the normalised type, else `outros` |
| InfoClient.DisplayTag | public/js/info.js:185 | the list tag is the normalised type, else the raw truthy type, else `outros` |
| InfoClient.ReplaceAllRemoves | public/js/info.js:190 | replacing every `c` by a text without `c` leaves no `c`, and brings in nothing absent from both |
| InfoClient.ReplaceAllAbsent | public/js/info.js:190 | a text without `c` is unchanged |
| InfoClient.EscapeAngles | public/js/info.js:190 | the escaped description holds no `<` and no `>` |
| InfoClient.EscapeWithoutAnglesIsIdentity | public/js/info.js:190 | a description without angle brackets, `&` included, is shown unchanged |
| InfoClient.EscapeIsNotInjective | public/js/info.js:190 | `<` and `&lt;` are shown alike, because `&` is not escaped |
| InfoClient.RenderDescricao | public/js/info.js:190 | empty for a falsy description; otherwise its string form with both angle brackets escaped, so no angle bracket is shown |
| InfoClient.FindInfo | public/js/info.js:49-51 | the first record whose id has the same string form as the one asked for, or none when there is none |
| InfoClient.RefusalAlert | public/js/info.js:126 | the server's `message`, else its `error`, else `Erro ao salvar informação.` (the same expression again at line 144) |
| InfoClient.InfoPage.constructor | public/js/info.js:38-40 | not saving, button enabled, inputs cleared with `alergias` selected, as the modal and the `savingInfo` flag start |
| InfoClient.InfoPage.OpenInfoModal | public/js/info.js:32-78 | inputs cleared and `alergias` selected; with an id, a failed load or a missing record gives its alert, keeps the modal closed and leaves the inputs cleared; a found record fills the inputs with its modal type |
| InfoClient.InfoPage.SalvarInfo | public/js/info.js:81-159 | a call during a save does nothing; otherwise type, then trimmed description, then child are checked, none with a request, and no other alert stops the save; a request is sent exactly when all three checks pass; PUT to the encoded id exactly when the modal holds one; the reply decides the alert, closing and reload; the flag and the button are always reset |
| InfoClient.CarregarInfos | public/js/info.js:163-203 | a 404 or an empty list shows the no-data line, another failure the alert, a non-empty list its rendered records in order |
| InfoClient.RenderInfo | public/js/info.js:184-190 | the item's tag is the non-empty display tag, and its description the escaped string form of a truthy description, else empty |
| InfoClient.RenderedInfosAreSafe | public/js/info.js:184-190 | no rendered description holds an angle bracket, and every tag is non-empty |
| InfoController.NormTipoAsWritten | controllers/infoCriancaController.js:13-17 | `MAP_TIPO[key] \|\| null` as written: null for falsy input, a server type for an own key, the inherited member for a key `Object.prototype` lends |
| InfoController.InheritedKeyAsWritten | controllers/infoCriancaController.js:15-16 | a key lent by `Object.prototype` and absent from the map yields the inherited member, which the corrected version refuses |
| InfoController.InheritedKeySlipsThrough | controllers/infoCriancaController.js:16-28 | `constructor` passes the `!tipo` check as written; the corrected version gives null |
| InfoController.NormTipo | controllers/infoCriancaController.js:13-17 | null for falsy input; a type exactly when the trimmed, lower-cased text is an own key of `MAP_TIPO`, and then the map's value |
| InfoController.NormTipoAsWrittenAgreesOnOwnKeys | controllers/infoCriancaController.js:16 | as written and corrected agree everywhere except on inherited keys |
| InfoController.NormTipoOutsideModel | controllers/infoCriancaController.js:4-11 | no type the server produces is one the `info_crianca` table accepts |
| InfoController.CreateInfo | controllers/infoCriancaController.js:24-38 | 400 with `tipo_info inválido: <raw input>` exactly when the type does not normalise under the corrected own-key `NormTipo` (as written, `constructor` also gets through, see Findings); otherwise an insert of the normalised type, the description and the child, the date left to its default |
| InfoController.CreateNeverStores | controllers/infoCriancaController.js:27-38 | every insert `create` lets through is refused by the table |
| InfoController.UpdateInfo | controllers/infoCriancaController.js:82-90 | 400 exactly when a truthy type does not normalise under the corrected own-key `NormTipo` (see Findings for the code as written); otherwise the record holds `tipo_info` exactly when it is truthy and `descricao` exactly when it is not null or undefined |
| InfoController.UpdateTouchesOnlyGivenFields | controllers/infoCriancaController.js:84-92 | columns other than those two are untouched, an omitted type or description keeps the stored one, and a given type is written normalised |
| InfoCriancaModel.Insert | models/InfoCrianca.js:9-30 | a row exactly when the type is listed and the description present; the date is the given one or the clock reading |
| InfoCriancaModel.TipoDomain | models/InfoCrianca.js:11-15 | the ENUM and `isIn` lists name exactly `ALERGIA`, `SAUDE`, `ESCOLA`, `OUTROS` |
| SelecionarCrianca.Filter | public/js/selecionarCrianca.js:75-76 | `filter` keeps no more than it is given, and only elements satisfying the predicate |
| SelecionarCrianca.FilterMembership | public/js/selecionarCrianca.js:75-76 | an element is kept exactly when it occurs and satisfies the predicate |
| SelecionarCrianca.FilterAppend | public/js/selecionarCrianca.js:75-76 | filtering a concatenation concatenates the filtered parts, so order is kept |
| SelecionarCrianca.FilterKeepsAll | public/js/selecionarCrianca.js:153 | a sequence of accepted elements is kept whole |
| SelecionarCrianca.FilterDropsAll | public/js/selecionarCrianca.js:153 | a sequence of rejected elements is dropped whole |
| SelecionarCrianca.NonDigitsDoNotMatter | public/js/selecionarCrianca.js:152-155 | inserting a non-digit anywhere does not change whether a CPF is valid |
| SelecionarCrianca.IsValidCPF | public/js/selecionarCrianca.js:152-155 | only a truthy value can be a valid CPF, and its text then has at least the eleven digits counted |
| SelecionarCrianca.IsValidDate | public/js/selecionarCrianca.js:156-160 | the empty string is never a valid date; any other text is valid exactly when it parses |
| SelecionarCrianca.NullishCpfIsInvalid | public/js/selecionarCrianca.js:153 | null and undefined are never valid |
| SelecionarCrianca.PlainCpfExamples | public/js/selecionarCrianca.js:154 | eleven digits are valid, ten are not |
| SelecionarCrianca.WordStartsAreWordChars | public/js/selecionarCrianca.js:117 | `/\b\w/g` matches only word characters |
| SelecionarCrianca.WordStarts | public/js/selecionarCrianca.js:117 | the matches of `/\b\w/g` are no more than the characters of the text, and all of them word characters |
| SelecionarCrianca.WordStartsFromConcat | public/js/selecionarCrianca.js:117 | the matches in a concatenation are those of the first part, then those of the second after the first's last character |
| SelecionarCrianca.WordStartsConcat | public/js/selecionarCrianca.js:117 | after a non-word character, the matches of what follows are its own |
| SelecionarCrianca.WordStartsOfWord | public/js/selecionarCrianca.js:117 | a run of word characters matches once, at its first character |
| SelecionarCrianca.NoWordStartInsideWord | public/js/selecionarCrianca.js:117 | no match inside a word |
| SelecionarCrianca.WordStartsPrefix | public/js/selecionarCrianca.js:117 | appending text never changes the matches already found |
| SelecionarCrianca.WordThenSeparator | public/js/selecionarCrianca.js:117 | a word followed by a separator matches once |
| SelecionarCrianca.Initials | public/js/selecionarCrianca.js:115-117 | the initials exist unless the name is a truthy non-string; they are at most two characters of `[A-Z0-9_]` |
| SelecionarCrianca.WordCharsUpper | public/js/selecionarCrianca.js:117 | upper-casing word characters keeps one `[A-Z0-9_]` character each |
| SelecionarCrianca.InitialsTakeTwo | public/js/selecionarCrianca.js:117 | with two or more matches the initials are the first two, upper-cased |
| SelecionarCrianca.NameInitials | public/js/selecionarCrianca.js:115-117 | a name starting with two words has their upper-cased first letters as initials, whatever follows |
| SelecionarCrianca.FallbackWordStarts | public/js/selecionarCrianca.js:115-117 | `Sem nome` matches at `S` and `n` |
| SelecionarCrianca.MissingNameInitials | public/js/selecionarCrianca.js:115-117 | a child with no name gets `SN` |
| SelecionarCrianca.RolesPartition | public/js/selecionarCrianca.js:75-76 | the two lists are disjoint, `responsavel` and `ambos` go to the first, `cuidador` to the second, any other role to neither |
| SelecionarCrianca.Responsaveis | public/js/selecionarCrianca.js:75 | a child is listed exactly when it is in the response with the role `responsavel` or `ambos` |
| SelecionarCrianca.Cuidadores | public/js/selecionarCrianca.js:76 | a child is listed exactly when it is in the response with the role `cuidador` |
| SelecionarCrianca.RolesKeepOrder | public/js/selecionarCrianca.js:75-76 | both lists keep the order of the response |
| SelecionarCrianca.QueryGet | public/js/selecionarCrianca.js:20 | `params.get` finds a value exactly when some parameter has that name, and the value is one of that name's |
| SelecionarCrianca.QueryGetFirst | public/js/selecionarCrianca.js:20 | the first parameter with the name wins |
| SelecionarCrianca.WithoutToken | public/js/selecionarCrianca.js:25 | `params.delete('token')` keeps exactly the parameters with other names, and no token remains |
| SelecionarCrianca.CleanUrl | public/js/selecionarCrianca.js:26 | the clean URL starts with the path, is the path alone exactly when no parameter remains, and continues with `?` otherwise |
| SelecionarCrianca.UrlToken | public/js/selecionarCrianca.js:20-22 | the URL token exists exactly when `params.get('token')` finds a non-empty value, and is then that value, which the query holds |
| SelecionarCrianca.StoredToken | public/js/selecionarCrianca.js:31-32 | a truthy stored token is the stored non-empty value; otherwise there is none or it is empty |
| SelecionarCrianca.PersistedTokenIsReadBack | public/js/selecionarCrianca.js:22-32 | once persisted and removed from the URL, the token is found again in storage and no longer in the URL |
| SelecionarCrianca.BrowserSession.constructor | public/js/selecionarCrianca.js:18-19 | a session over the given storage, path and query, with no replaced URL |
| SelecionarCrianca.BrowserSession.GetTokenAndPersist | public/js/selecionarCrianca.js:18-39 | a truthy URL token wins: it is stored, removed from the query with the other parameters kept, and the clean URL replaces the address; otherwise a truthy stored token is returned and nothing changes; none only when neither exists |
| SelecionarCrianca.BrowserSession.CarregarCriancas | public/js/selecionarCrianca.js:41-111 | session expired exactly when there is no token; the lists are shown exactly when there is a token, the request succeeds and every card renders, and then they are the children split by role with each card's initials; otherwise the error notice; the token is persisted and the URL cleaned as `getTokenAndPersist` does |
| SelecionarCrianca.RenderCards | public/js/selecionarCrianca.js:90-101 | the `forEach` over the cards yields every card's initials in order exactly when no name throws in `renderCard` |
| SelecionarCrianca.AddRefusal | public/js/selecionarCrianca.js:199 | `message`, else `error`, else the status text, else `Erro ao adicionar criança.` |
| SelecionarCrianca.BrowserSession.AdicionarNovaCrianca | public/js/selecionarCrianca.js:163-206 | empty trimmed name, then invalid CPF, then invalid date are refused in that order, and a refusal happens exactly when one of the three checks fails, with the session state untouched; then a missing token expires the session; otherwise the token is persisted as `getTokenAndPersist` does, the trimmed child is posted with it and the reply decides the notice |
| ClientServer.ServerAliasesAreClientAliases | controllers/agendaController.js:3-7 | every alias the server knows, the browser knows for the same status |
| ClientServer.ServerStatusAgreesWithClient | controllers/agendaController.js:8-12 | whenever the server recognises a status, the browser reads it the same way |
| ClientServer.ClientOnlyAlias | public/js/agenda.js:12 | `FINALIZADO` is done for the browser and unknown to the server |
| ClientServer.ServerKeepsEnumValue | controllers/agendaController.js:11 | the server maps each enum value to itself |
| ClientServer.ClientStatusSurvivesServer | controllers/agendaController.js:8-12 | a status the browser produced comes back from the server unchanged |
| ClientServer.SentStatusIsStored | public/js/agenda.js:90 | the status `salvarAtividade` sends is kept by the server and accepted by the `agenda` table |
| ClientServer.TipoTablesAgree | controllers/infoCriancaController.js:4-11 | `MAP_TIPO` equals the browser's alias table |
| ClientServer.TipoNormalisersAgree | controllers/infoCriancaController.js:13-17 | the corrected `normTipo` and `normalizeTipoFront` are the same function |
| ClientServer.StoredAlergiaShown | public/js/info.js:59-185 | a stored `ALERGIA` is listed (line 185) and edited (line 59) as `alergias` |
| ClientServer.StoredEscolaShown | public/js/info.js:59-185 | a stored `ESCOLA` is listed raw (line 185) and edited (line 59) as `outros` |
| JsValues.Get | controllers/infoCriancaController.js:16 | `obj[key]` reads an own value, an inherited member exactly for an absent `Object.prototype` key, or nothing |
| Orm.ApplyUpdate | controllers/agendaController.js:79 | `Model.update` writes every attribute that is not undefined and keeps every other stored column |
| Text.TrimIgnoresPadding | public/js/agenda.js:8 | `trim` removes white space added at either end |
| Text.TrimKeepsCharacters | public/js/selecionarCrianca.js:164-166 | every character of a trimmed text occurs in the original |
| Text.UpperTrimCommute | public/js/agenda.js:8 | trimming and upper-casing can be done in either order |
| Text.UpperHasNoAsciiLower | public/js/agenda.js:8 | `toUpperCase` leaves no ASCII lower-case letter |
| Text.LowerHasNoAsciiUpper | public/js/info.js:17 | `toLowerCase` leaves no ASCII upper-case letter |
| Uri.Utf8 | public/js/agenda.js:103 | one to four bytes per character, each below 256, a single byte exactly for ASCII |
| Uri.EncodeUriComponent | public/js/agenda.js:103 | the encoding uses only unreserved characters, `%` and hexadecimal digits, and is no shorter than its input |
| Uri.EncodeUnreservedIsIdentity | public/js/agenda.js:103 | an id of unreserved characters is its own encoding |
| Uri.EncodedHasNoDelimiter | public/js/info.js:113 | an encoded id never contains `/`, `?`, `#`, `&` or `=`, so it stays one path segment |
| Uri.SerializeParams | public/js/selecionarCrianca.js:26 | the serialized query is empty exactly when no parameter remains |

## Left out

- Network, `fetch`, JSON parsing and the ORM are not modelled. Their outcomes are parameters of the methods (`ListReply`, `SaveReply`, `AddReply`, loaded records). The 404 on zero updated rows, the 500 handlers and the read and delete endpoints are not modelled.
- DOM rendering is not modelled: `innerHTML` templates, button and title text, the card markup other than the initials, `acessarPerfil`, the notify wrappers.
- The asynchronous interleaving behind `savingInfo` is not modelled. The flag is a field, checked on entry and reset before the method returns.
- `isValidDate` is not modelled, because it relies on JavaScript `Date` parsing. `SelecionarCrianca.IsValidDate` takes whether the date parses as a parameter and models only the empty-string branch.
- Parsing `window.location.search` into parameters is not modelled. The session holds the decoded parameters. `history.replaceState` is a field holding the last URL given to it, and the redirect to `/` is the `SessionExpired` outcome.
- `JsValue` holds undefined, null, integers and strings. Booleans, fractional numbers, arrays and objects arriving in request bodies are not modelled. A non-array response body is not modelled either: lists are sequences.
- Unicode is modelled only partly. NFD plus combining-mark removal, and upper- and lower-casing, cover ASCII and Latin-1. Full Unicode case mapping and decomposition are not modelled.
- `SelecionarCrianca.NomeText`: a truthy non-string name makes `.match` throw, and the model gives no initials for it. `carregarCriancas` then ends in its `catch`, and `CarregarCriancas` shows the error notice. The cards rendered before the throwing one stay on the page, which the model does not record.
- `AgendaClient.RenderTask`, `InfoClient.RenderInfo`: `${x}` of a non-string is rendered with `String(x)`.
- The `console` logging and the commented-out cookie fallback in `getTokenAndPersist` are not modelled.

## Findings

| source | as written | input that shows it | evidently intended | confidence | as-written member | corrected member |
|---|---|---|---|---|---|---|
| controllers/infoCriancaController.js:16 | `MAP_TIPO[key] \|\| null` reads keys inherited from `Object.prototype`, so the result is a function, which is truthy | `tipo_info: "constructor"` passes the `!tipo` check in `create` and `update`, and the `Object` function is handed to the ORM as the type | only own keys of `MAP_TIPO` are types, as the browser's `includes(normalized)` check at public/js/info.js:28 ensures | not executed | InfoController.InheritedKeySlipsThrough | InfoController.NormTipo |
