# EcopColeta core, modelled in Dafny

EcopColeta schedules and records the collection of recyclable waste. Its
back end is a set of Express routers over MySQL, with a Redis cache in front
of the read-by-key endpoints. Its front end is a set of React forms. This
project models the parts of both that hold logic:

- **The resource routers.** `pessoas`, `empresas`, `cooperativas`,
  `pontos-coleta`, `residuos` and `coletas` all follow one cache-aside
  pattern. `Store.Resource` is one router: a class whose table the handlers
  update in place. All routers share the one `Store.Cache` object, since
  there is a single Redis connection. The pattern has four handlers:
  - GET by key through the cache, with a five-minute expiry;
  - PATCH, guarded by an allow-list and built into one `UPDATE` with one
    `?` per value;
  - DELETE, followed by a cache invalidation;
  - INSERT.

  `Routes` holds what differs between the routers: table, key, cache
  prefix, allow-list, the parameters each POST binds, and the arguments of
  the two stored procedures.
- **Login and access levels.** `Auth` models the login decision and the
  `nivel-acesso` level update.
- **The front-end forms and pages.** Each is modelled as a class whose
  handlers update its state. The masks and validators they use are
  functions:
  - the CPF mask (`Cpf`) and the fixed-account login page (`LoginPage`);
  - the CNPJ mask and the company form (`CadastraEmpresa`);
  - the cooperative form (`CadastraCooperativa`) and the collection-point
    form (`CadastraPontoColeta`);
  - the waste-receiving form (`ReceberColeta`);
  - the CPF search (`ReceiveCollection`);
  - the collections table's filter, counts and chips (`TabelColetas`).

JavaScript values are `Api.JsValue`: undefined, null, booleans, integers and
strings. The model uses JavaScript truthiness, `??` and `||` on them.

Assumptions about the database driver and MySQL:
- An `undefined` bind parameter makes the driver throw, so the handler
  answers 500.
- A duplicate primary key makes the INSERT fail, also 500.
- `affectedRows` of an `UPDATE` counts matched rows. This is the driver's
  default.

Where the specification and the code disagree, the model follows the code:
- The pessoa PATCH allow-list contains `idade`, so the model lets it through
  (`Routes.PessoaIdadeAccepted`).
- The empresa POST binds `area_atuacao` without `safe`, so a missing value
  is a 500 (`Routes.CreateEmpresa`).
- The second 404 of `nivel-acesso` (zero affected rows after a successful
  lookup) cannot happen, because affected rows count matched rows. The
  model has only the lookup's 404 (`Auth.UserGroups.UpdateLevel`).

## Model

| member | source | states |
|---|---|---|
| Api.Nullish | testback/src/routes/pessoas.ts:8 | `safe(v)` is never undefined, is null exactly for undefined or null, and is otherwise the value itself |
| Api.Or | testback/src/routes/residuos.ts:101-111 | `v \|\| fallback` is `v` when truthy and the fallback otherwise |
| Store.FirstOutside | testback/src/routes/pessoas.ts:125-134 | no key is reported iff every key of the body is allowed; a reported key is not allowed, occurs in the body, and every earlier key is allowed |
| Store.CheckAllowed | testback/src/routes/pessoas.ts:127-134 | the guard loop stops at exactly the first key outside the allow-list |
| Store.BuildAssignments | testback/src/routes/pessoas.ts:136-141 | one `key = ?` clause and one value per entry, in entry order, with undefined sent as null; then the key for the WHERE clause |
| Store.UpdatePlaceholders | testback/src/routes/pessoas.ts:136-145 | for an accepted body the UPDATE text has exactly as many `?` as bound values: one per entry plus one for the key |
| Store.AssignKeeps | testback/src/routes/pessoas.ts:143-145 | a column the PATCH body does not name keeps its value |
| Store.AssignSets | testback/src/routes/pessoas.ts:136-145 | a column the body names gets the submitted value, with undefined stored as null |
| Store.KeyNeverPatched | testback/src/routes/pessoas.ts:125-134 | with a well-formed schema, an accepted PATCH never changes the primary key |
| Store.RowOfAt | testback/src/routes/pessoas.ts:81-95 | an inserted row holds each parameter under its own column |
| Store.Resource.Get | testback/src/routes/pessoas.ts:30-69 | a live cache entry is served without a query; on a miss one SELECT is sent; a found row is cached for 300 s; a missing one is 404 and caches nothing |
| Store.Resource.Patch | testback/src/routes/pessoas.ts:111-156 | empty body is 400; a disallowed key is 400 naming the first one; both change nothing. Otherwise exactly one UPDATE is sent. No match is 404 with the cache untouched. A match applies the assignments and drops `<prefix>:<key>` |
| Store.Resource.Delete | testback/src/routes/pessoas.ts:173-186 | one DELETE is sent; a missing key is 404 with the cache untouched; otherwise the row goes and `<deletePrefix>:<key>` is dropped |
| Store.Resource.Insert | testback/src/routes/pessoas.ts:81-95 | an undefined parameter is 500 with nothing sent; a duplicate key is 500; otherwise the row is stored and the reply is 201; the cache is never touched |
| Store.RepeatedGet | testback/src/routes/pessoas.ts:35-64 | two reads within five minutes return the same reply; a found row costs one query, a missing one costs two |
| Store.CreateThenGet | testback/src/routes/pessoas.ts:30-95 | after a successful insert, a GET with no live cache entry returns exactly the inserted columns |
| Store.DeleteThenGet | testback/src/routes/pessoas.ts:173-186 | when DELETE drops the key GET fills: the delete succeeds iff the row existed, and then the next GET is 404 |
| Routes.PessoasWellFormed | testback/src/routes/pessoas.ts:125-145 | pessoa names carry no `?` and the allow-list excludes `cpf` |
| Routes.EmpresasWellFormed | testback/src/routes/empresas.ts:119-137 | empresa names carry no `?` and the allow-list excludes `cnpj` |
| Routes.CooperativasWellFormed | testback/src/routes/cooperativas.ts:121-142 | cooperativa names carry no `?` and the allow-list excludes `id_coop` |
| Routes.PontosColetaWellFormed | testback/src/routes/pontos-coleta.ts:134-143 | ponto_coleta names carry no `?` and the allow-list excludes `id_ponto` |
| Routes.ResiduosWellFormed | testback/src/routes/residuos.ts:143-152 | residuo names carry no `?` and the allow-list excludes `id_residuo` |
| Routes.ColetasWellFormed | testback/src/routes/coletas.ts:123-132 | coleta names carry no `?` and the allow-list excludes `id_coleta` |
| Routes.DeletePrefixes | testback/src/routes/cooperativas.ts:185 | every router's DELETE drops the key its GET fills, except the cooperativa router's |
| Routes.ColetaStatusUnchecked | testback/src/routes/coletas.ts:123-132 | the coleta guard checks names only: any `status` value passes |
| Routes.PontoTipoRefused | testback/src/routes/pontos-coleta.ts:134-143 | the ponto-coleta PATCH refuses `tipo`, which its POST accepts |
| Routes.PessoaIdadeAccepted | testback/src/routes/pessoas.ts:125 | the pessoa guard lets `idade` through |
| Routes.PessoaParams | testback/src/routes/pessoas.ts:81-95 | ten parameters; every optional one goes through `safe` except the birth date, so an undefined appears iff the birth date is missing |
| Routes.EmpresaParams | testback/src/routes/empresas.ts:81-95 | cnpj, name and area in that order; an undefined appears iff the area is missing |
| Routes.CooperativaParams | testback/src/routes/cooperativas.ts:80-92 | seven parameters, none through `safe`: an undefined appears iff any optional field is missing |
| Routes.CooperativaParamsSafe | testback/src/routes/pessoas.ts:89-91 | the corrected binding: never undefined, and a field is null exactly when it was missing or null |
| Routes.ColetaParams | testback/src/routes/coletas.ts:82-93 | four parameters with the point bound raw: an undefined appears iff the body has no point |
| Routes.ColetaCreatedScheduled | testback/src/routes/coletas.ts:87-90 | whatever status the body carries, the inserted coleta row is `agendada` and keeps the body's cpf and point |
| Routes.CreatePessoa | testback/src/routes/pessoas.ts:81-99 | a missing birth date or an existing cpf is 500 with the table unchanged; otherwise the new cpf gets the bound row and the 201 carries `{cpf}` |
| Routes.CreateEmpresa | testback/src/routes/empresas.ts:81-95 | a missing area or an existing cnpj is 500 with the table unchanged; otherwise the new cnpj gets the bound row and 201 |
| Routes.CreateCooperativa | testback/src/routes/cooperativas.ts:80-92 | any missing optional field is 500 with the table unchanged; otherwise a fresh id gets the bound row and 201, a taken one 500 |
| Routes.CreateCooperativaSafe | testback/src/routes/pessoas.ts:81-95 | with `safe` bindings, any body is stored under a fresh id with 201 |
| Routes.CreateColeta | testback/src/routes/coletas.ts:82-93 | a body without a point, or a taken id, is 500 with the table unchanged; otherwise the fresh id gets exactly the bound row, with status `agendada`, and the reply is 201 |
| Routes.CadastraPonto | testback/src/routes/pontos-coleta.ts:81-106 | no call and 400 iff location or type is falsy. Otherwise the procedure gets (location, capacity or null, type), never undefined. The reply is 201 echoing the body, or 500 when the procedure fails |
| Routes.Registrar | testback/src/routes/residuos.ts:81-116 | no call and 400 iff type, weight or collection id is falsy. Otherwise six arguments: a cooperative or company is passed unchanged when truthy and as null otherwise, and the collected weight falls back to the weight (so it is truthy). The reply is 201 or 500 |
| Routes.StaleCooperativaAfterDelete | testback/src/routes/cooperativas.ts:172-185 | a cooperativa cached by GET and then deleted is still served by GET, identical to before, although its row is gone |
| Routes.CorrectedCooperativaDelete | testback/src/routes/cooperativas.ts:29-67 | with DELETE dropping `cooperativa:<id>`, the same sequence ends in 404 |
| Auth.UserOf | testback/src/routes/login.ts:51-59 | one flag per level, each set iff the level matches; at most one flag is set, and some flag is set iff the level is one of the three |
| Auth.Login | testback/src/routes/login.ts:9-76 | falsy cpf or password is 400; a truthy non-string cpf is 500. Login succeeds iff the cpf's digits are in both tables and the password matches exactly; the user is built from that row. A truthy string cpf with a truthy password that does not log in is 401 |
| Auth.UnknownAndWrongPasswordAlike | testback/src/routes/login.ts:23-48 | a cpf missing from either side of the join and a wrong password get the same 401 |
| Auth.LoginIgnoresPunctuation | testback/src/routes/login.ts:20-29 | a formatted cpf and its bare digits get the same login reply |
| Auth.LoginReflectsLevel | testback/src/routes/login.ts:51-59 | after a level update to a listed level, the next login carries that level and its flag |
| Auth.UserGroups.UpdateLevel | testback/src/routes/login.ts:79-133 | missing level is 400 and an unlisted level is 400, both before any lookup. Otherwise the cpf's digits are looked up: unknown is 404, known updates only that account's level |
| Cpf.FormatCpfLayout | ecoColeta/src/pages/Login.tsx:23-32 | the three single regex replacements lay out the first eleven digits as `ddd.ddd.ddd-dd`, by digit count |
| Cpf.MaskSteps | ecoColeta/src/pages/Login.tsx:27-29 | on up to eleven digits the three replacements equal the layout by count |
| Cpf.CpfMaskDigits | ecoColeta/src/pages/Login.tsx:23-32 | the layout adds no digit and loses none |
| Cpf.FormatCpfDigits | ecoColeta/src/pages/Login.tsx:23-32 | stripping the mask gives back the first eleven digits typed |
| Cpf.FormatCpfIdempotent | ecoColeta/src/pages/Login.tsx:125-127 | re-masking the masked field on every keystroke leaves it unchanged |
| Cpf.FormatCpfFull | ecoColeta/src/pages/Login.tsx:23-32 | with eleven digits or more the result is fourteen characters, with dots at 3 and 7 and a dash at 11 |
| LoginPage.Navigations | ecoColeta/src/pages/Login.tsx:50-52 | navigates to `/adm`, `/home` and `/receber` iff the matching flag is set |
| LoginPage.AdminNavigation | ecoColeta/src/pages/Login.tsx:35-56 | the fixed account lands on `/adm` only |
| LoginPage.AcceptsTyped | ecoColeta/src/pages/Login.tsx:35-56 | through the mask, the fixed account is accepted iff the first eleven typed digits are zeros and the password is `000` |
| LoginPage.LoginScreen.ChangeCpf | ecoColeta/src/pages/Login.tsx:125-127 | the field holds the masked input and stays a fixed point of the mask |
| LoginPage.LoginScreen.HandleSubmit | ecoColeta/src/pages/Login.tsx:35-62 | accepted iff the fixed credentials match. Acceptance stores the admin user and navigates by its flags; refusal raises the error flag. Both fields are cleared either way |
| ReceiveCollection.Search | ecoColeta/src/pages/ReceiveCollection.tsx:27-46 | every found collection has the searched digits and is scheduled |
| ReceiveCollection.SearchSubsequence | ecoColeta/src/pages/ReceiveCollection.tsx:45 | results keep the listing's order |
| ReceiveCollection.SearchMembership | ecoColeta/src/pages/ReceiveCollection.tsx:45 | an entry is found iff it is listed, scheduled and has the searched digits |
| ReceiveCollection.SearchResult | ecoColeta/src/pages/ReceiveCollection.tsx:31-45 | only the first listed entry can ever be found, by its own digits |
| ReceiveCollection.SearchMasked | ecoColeta/src/pages/ReceiveCollection.tsx:16-29 | searching the masked field equals searching the first eleven typed digits |
| ReceiveCollection.ReceivePage.HandleSearch | ecoColeta/src/pages/ReceiveCollection.tsx:27-46 | the shown collections are the search result, a subsequence of the listing |
| TabelColetas.Filtered | ecoColeta/src/components/TabelColetas.tsx:26-41 | every shown row passes the search, status and type tests, and no more rows are shown than loaded |
| TabelColetas.FilteredSubsequence | ecoColeta/src/components/TabelColetas.tsx:26-41 | shown rows keep their loaded order |
| TabelColetas.FilteredMembership | ecoColeta/src/components/TabelColetas.tsx:26-41 | a row is shown iff it is loaded and passes all three tests |
| TabelColetas.UnfilteredShowsAll | ecoColeta/src/components/TabelColetas.tsx:26-41 | an empty search with both filters on `todos` shows every row |
| TabelColetas.StatsOf | ecoColeta/src/components/TabelColetas.tsx:44-52 | the total is the row count, and each status count is the number of occurrences of that status in the status column |
| TabelColetas.CountOccurrences | ecoColeta/src/components/TabelColetas.tsx:44-52 | the length of the filtered list equals the number of occurrences of the status in the status column |
| TabelColetas.TallyBound | ecoColeta/src/components/TabelColetas.tsx:44-52 | a row counts towards at most one status, so the four counts add up to at most the row count, and to exactly it when every status is one of the four |
| TabelColetas.StatsBound | ecoColeta/src/components/TabelColetas.tsx:44-52 | the four counts never exceed the total, and sum to it when every status is one of the four |
| TabelColetas.StatusColor | ecoColeta/src/components/TabelColetas.tsx:55-68 | each of the four statuses has its own colour, and the default colour goes exactly to anything else |
| TabelColetas.ChipLabel | ecoColeta/src/components/TabelColetas.tsx:330 | same length; only the first underscore becomes a space; every other character is upper-cased |
| CadastraEmpresa.FormatCnpjDigits | ecoColeta/src/components/CadastraEmpresa.tsx:31-38 | stripping the CNPJ mask gives back the first fourteen digits |
| CadastraEmpresa.FormatCnpjIdempotent | ecoColeta/src/components/CadastraEmpresa.tsx:40-60 | re-masking the masked field leaves it unchanged |
| CadastraEmpresa.FormatCnpjFull | ecoColeta/src/components/CadastraEmpresa.tsx:31-38 | with fourteen digits the result is `DD.DDD.DDD/DDDD-DD` |
| CadastraEmpresa.ValidFormattedCnpj | ecoColeta/src/components/CadastraEmpresa.tsx:25-38 | a masked CNPJ passes the check iff at least fourteen digits were typed |
| CadastraEmpresa.FormErrors | ecoColeta/src/components/CadastraEmpresa.tsx:62-79 | CNPJ error iff empty (required) or not fourteen digits (invalid); name error iff its trim is under three characters (required when empty); none on the area |
| CadastraEmpresa.EmpresaForm.HandleChange | ecoColeta/src/components/CadastraEmpresa.tsx:40-60 | the CNPJ is stored masked, other fields raw; only the edited field's error clears; the CNPJ field stays a fixed point of the mask |
| CadastraEmpresa.EmpresaForm.ValidateForm | ecoColeta/src/components/CadastraEmpresa.tsx:62-79 | records exactly the form's errors and reports valid iff there are none |
| CadastraEmpresa.EmpresaForm.HandleSubmit | ecoColeta/src/components/CadastraEmpresa.tsx:81-116 | sends nothing iff there are errors. Sends the CNPJ as its fourteen digits. Success clears the form; failure records an error on the name and keeps the fields |
| CadastraCooperativa.CapacityOf | ecoColeta/src/components/CadastraCooperativa.tsx:69-75 | no capacity iff no digit was typed; otherwise the number the digits spell |
| CadastraCooperativa.FormErrors | ecoColeta/src/components/CadastraCooperativa.tsx:77-94 | name error iff its trim is under three characters; state error iff a state is given and not one of the 27 codes; no other field errs |
| CadastraCooperativa.TrimmedOrNone | ecoColeta/src/components/CadastraCooperativa.tsx:107-115 | nothing iff the trimmed text is empty; otherwise the trimmed text, with no edge spaces |
| CadastraCooperativa.PayloadOf | ecoColeta/src/components/CadastraCooperativa.tsx:107-115 | trimmed name; optional texts trimmed or absent; state as typed or absent; capacity absent when missing or zero |
| CadastraCooperativa.BlankFieldRefused | testback/src/routes/cooperativas.ts:80-92 | a form payload reaches the handler with an undefined parameter iff any optional field was left blank or the capacity was zero |
| CadastraCooperativa.BlankFieldAccepted | testback/src/routes/pessoas.ts:89-91 | with `safe` bindings, no form payload carries an undefined parameter |
| CadastraCooperativa.NameOnlyPayload | ecoColeta/src/components/CadastraCooperativa.tsx:107-115 | a form filled with only a name posts that name and no other property |
| CadastraCooperativa.NameOnlyAsWritten | testback/src/routes/cooperativas.ts:80-92 | that name-only registration is answered 500 |
| CadastraCooperativa.NameOnlyCorrected | testback/src/routes/pessoas.ts:89-91 | with `safe` bindings the same registration is answered 201 |
| CadastraCooperativa.CooperativaForm.HandleChange | ecoColeta/src/components/CadastraCooperativa.tsx:51-66 | sets one text field and clears only its error |
| CadastraCooperativa.CooperativaForm.HandleNumberChange | ecoColeta/src/components/CadastraCooperativa.tsx:69-75 | the capacity becomes the typed digits' number, or nothing |
| CadastraCooperativa.CooperativaForm.ValidateForm | ecoColeta/src/components/CadastraCooperativa.tsx:77-94 | records exactly the form's errors and reports valid iff there are none |
| CadastraCooperativa.CooperativaForm.HandleSubmit | ecoColeta/src/components/CadastraCooperativa.tsx:96-145 | sends nothing iff there are errors. Sends the payload, with a name of at least three characters. Success resets the form; failure records an error on the name |
| CadastraPontoColeta.CapacityOf | ecoColeta/src/components/CadastraPontoColeta.tsx:72-89 | no capacity iff no digit was typed; otherwise the number the digits spell |
| CadastraPontoColeta.TipoString | ecoColeta/src/components/CadastraPontoColeta.tsx:124-128 | `String(id)` is never empty, and for an id it is the decimal digits that parse back to it |
| CadastraPontoColeta.FormErrors | ecoColeta/src/components/CadastraPontoColeta.tsx:100-111 | location error iff its trim is under five characters; nothing else is checked |
| CadastraPontoColeta.PayloadAccepted | testback/src/routes/pontos-coleta.ts:81-96 | a payload that passed validation always gets past the handler's 400; a missing or zero capacity reaches the procedure as null |
| CadastraPontoColeta.PontoForm.HandleChange | ecoColeta/src/components/CadastraPontoColeta.tsx:54-69 | sets the location and clears its error |
| CadastraPontoColeta.PontoForm.HandleCapacidadeChange | ecoColeta/src/components/CadastraPontoColeta.tsx:72-89 | the capacity becomes the typed digits' number, or nothing |
| CadastraPontoColeta.PontoForm.SelectTipo | ecoColeta/src/components/CadastraPontoColeta.tsx:93-98 | selecting a type copies its name into `tipo` |
| CadastraPontoColeta.PontoForm.ValidateForm | ecoColeta/src/components/CadastraPontoColeta.tsx:100-111 | records exactly the form's errors and reports valid iff there are none |
| CadastraPontoColeta.PontoForm.HandleSubmit | ecoColeta/src/components/CadastraPontoColeta.tsx:113-155 | sends iff valid and a type is selected, the type as `String(id_tipo)`. With no type an error lands on the location and nothing is sent. Success clears form and selection |
| ReceberColeta.TextValue | ecoColeta/src/components/ReceberColeta.tsx:83-98 | empty input is null, anything else the raw text |
| ReceberColeta.NumberValue | ecoColeta/src/components/ReceberColeta.tsx:101-116 | null iff no digit was typed; otherwise the number the digits spell |
| ReceberColeta.DecimalWeight | ecoColeta/src/components/ReceberColeta.tsx:110-113 | a typed weight of "2.5" is posted as 25 |
| ReceberColeta.BodyOf | ecoColeta/src/components/ReceberColeta.tsx:138-145 | the form's fields, the route's id as the collection, and the weight again as the collected weight |
| ReceberColeta.CollectedWeightIsWeight | testback/src/routes/residuos.ts:101-111 | the procedure always receives the form's weight as the collected weight |
| ReceberColeta.ReceberForm.HandleChange | ecoColeta/src/components/ReceberColeta.tsx:83-98 | sets one field to the text value |
| ReceberColeta.ReceberForm.HandleNumberChange | ecoColeta/src/components/ReceberColeta.tsx:101-116 | sets one field to the number value |
| ReceberColeta.ClearedEmpresaSentAsNull | ecoColeta/src/components/ReceberColeta.tsx:415-419 | a company cleared from its list (`''`) reaches the procedure as null |
| ReceberColeta.ReceberForm.SelectTipo | ecoColeta/src/components/ReceberColeta.tsx:274-278 | the chosen type's numeric id, or null when cleared |
| ReceberColeta.ReceberForm.SelectCooperativa | ecoColeta/src/components/ReceberColeta.tsx:389-393 | the chosen cooperative's numeric id, or null when cleared |
| ReceberColeta.ReceberForm.SelectEmpresa | ecoColeta/src/components/ReceberColeta.tsx:415-419 | the chosen company's cnpj, or `''` (not null) when cleared |
| ReceberColeta.ReceberForm.HandleOrigemChange | ecoColeta/src/components/ReceberColeta.tsx:118-128 | only the origin radio changes |
| ReceberColeta.ReceberForm.HandleSubmit | ecoColeta/src/components/ReceberColeta.tsx:131-184 | posts the body with no prior check. The reply is 201 iff type and weight are truthy, the route has an id, and the procedure succeeds. Then the form resets and the page goes to `/receber`; otherwise nothing changes |

## Left out

- The SQL schema is not modelled: which columns exist, their types, and the errors MySQL raises for an unknown column or a bad value. An UPDATE naming a column the table lacks would fail in MySQL; the model applies it.
- The stored procedures `cadastrar_ponto_com_tipo` and `cadastrar_residuo_e_finalizar_coleta` are not interpreted. The model records each call and its arguments; whether it succeeds is the parameter `procedureOk`.
- The Redis client, `JSON.stringify` and `JSON.parse` are not modelled. Rows are cached as values, so a round trip through JSON is treated as the identity.
- The clock is the parameter `now`, in seconds.
- Concurrency between requests is not modelled: each handler runs to completion.
- Database errors other than an undefined parameter and a duplicate key are not modelled. This includes lost connections and foreign keys.
- Auto-increment ids are given as parameters (`newId`).
- `isoToMySQL` (`testback/src/controlerDate.ts`) is not modelled; the converted date is the parameter `mysqlDate`.
- Numbers are integers: floating-point weights and capacities, and `peso_total`, are not modelled.
- The list-all GET endpoints and the `coletas-residuos` view are not modelled. They are single SELECTs with no logic.
- `tipo-residuo.ts` and `server.ts` are not modelled: a listing and the application wiring.
- The POST bodies' required string fields (`cpf` and `nome` of a pessoa, `cnpj` and `razao_social` of an empresa, `nome` of a cooperativa, `cpf` of a coleta) are modelled as strings. A body where they are missing or not strings is not modelled. The coleta's `id_ponto` is a JavaScript value, and a missing one is modelled.
- Auth.Login: a database failure that reaches the `catch` is not modelled. The 500 is modelled only for a truthy cpf that is not a string.
- Auth.UserGroups.UpdateLevel: the second 404 (zero affected rows) is not modelled, since affected rows count matched rows. `grupos_usuarios` is taken to be keyed by the cpf's digits.
- The front end's loading flags, timeouts, alerts, `navigate(-1)` on cancel and rendering are left out. They change no state the handlers read.
- The session context `UserContext` and its `localStorage` copy are left out.
- The HTTP service wrappers (`*Service.ts`) are left out. A failed request, whether the server refused it or the network failed, is the parameter `apiOk`.
- ReceberColeta.ReceberForm.HandleChange is not wired to any input the form renders; it is modelled as written. The collection list is commented out in the source (the route's id is sent instead), so it has no selection method.
- TabelColetas: the collections are assumed loaded, and an undefined `dados` before loading is not modelled. Date formatting is left out.
- Text.Lower and Text.Upper change ASCII letters only; Unicode case mapping is not modelled.

## Findings

| source | as written | input that shows it | evidently intended | confidence | as-written member | corrected member |
|---|---|---|---|---|---|---|
| testback/src/routes/cooperativas.ts:185 | the cooperativa DELETE invalidates `pessoa:<id>` | GET `/cooperativas/7` (caches it), DELETE `/cooperativas/7`, GET `/cooperativas/7` within five minutes: the deleted row is served | invalidate `cooperativa:<id>`, the key GET fills | high (not executed) | Routes.StaleCooperativaAfterDelete | Routes.CorrectedCooperativaDelete |
| testback/src/routes/cooperativas.ts:80-92 | the optional fields are bound raw, with no `safe`, while the form leaves blank ones undefined (ecoColeta/src/components/CadastraCooperativa.tsx:107-115) | a cooperative registered with only its name: the driver refuses the undefined parameters and the reply is 500 | bind them through `safe`, as the pessoa POST does at pessoas.ts:89-91 | medium (not executed; depends on the driver refusing undefined) | CadastraCooperativa.NameOnlyAsWritten | CadastraCooperativa.NameOnlyCorrected |
