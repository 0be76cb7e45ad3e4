# Incident reporting service — a Dafny model of its core

The service lets members of a campus report incidents and lets administrators
review them. The model covers its decision logic:

- **Accounts** (`accounts.dfy`). Admin registration (RegistroAdmin.py) and the
  two logins (LoginAdmin.py, LoginUsuario.py), over tables keyed by email.
  Registration is a method of the admins table. The logins are functions of
  the table, which they only read.
- **Reports** (`reports.dfy`). The REST handlers that create, delete, get and
  list reports, over a table keyed by `(tenant_id, uuid)`.
- **Real time** (`realtime.dfy`). The incidents table and the registry of
  open WebSocket connections. It covers the create-and-broadcast handler
  (user/CrearReporte.py), the action dispatcher (socket/default.py) and the
  disconnect handler (socket/disconnect.py). Broadcast and disconnect loops
  are `while` loops proved against recursive specification functions.
- **User page** (`front_user.dfy`). The citizen page: the incident list kept
  up to date from the WebSocket feed, the report form and its optimistic
  append.
- **Admin dashboard** (`front_admin.dfy`). The report list, the selection,
  deletion and the urgency colours.
- **Admin login** (`admin_login.dfy`). The login and registration form: the
  unwrap of a `body` that arrives as a string, the error shown, the storage
  written, and the email-suffix check.

Shared definitions live in three modules:

- `common.dfy`: decoded JSON, event bodies, replies, Python's `in`, and the
  missing-field list.
- `text.dfy`: Python's `strip()`, lower-casing and `endswith`.
- `browser.dfy`: JavaScript truthiness, property access, `||`, `new Error(x)`
  and the outcome of a `fetch`.

The cloud is replaced by parameters:

- DynamoDB tables are `map` fields of classes.
- Whether the store answers is a flag on the handlers that read or write a
  table before their first reply (`storeUp`), and on the two later steps
  that can fail after a change was made: the WebSocket step of the incident
  handler (`wsUp`) and the scan after a disconnect's delete (`scanUp`). A
  prune's `delete_item` is taken to succeed; see "Left out".
- The uuid a handler draws is an argument.
- Airflow's answer is an argument: the status code, or None when
  `requests.post` raises.
- The connections whose `post_to_connection` raises are a set.
- A table scan is `Common.ScanKeys`, which yields every key once, in an order
  the model leaves open. The handlers read only the first page of a scan or
  query; see "Left out".

On the browser side:

- React state is the fields of a class, and each handler is a method.
- A `fetch` is a `Browser.Response` value.
- `JSON.parse` is a function parameter.
- `confirm` is a boolean.

Proved across components:

- The user page's create payload lacks `nivel_urgencia`. Both create handlers
  therefore refuse every submission from that page with 400:
  `FrontUser.PayloadRefusedByCreate` and
  `FrontUser.PayloadRefusedByIncidentHandler`.
- The admin page's case-sensitive suffix test is stricter than the server's
  domain check. `AdminLogin.PageSuffixImpliesServerDomain` proves that
  direction. `AdminLogin.UpperCaseEmailRefusedByPage` shows that the converse
  fails.
- DynamoDB hands every stored number back as a Decimal, and no handler passes
  a `default` to `json.dumps`. A report whose values include a number is
  therefore created, but every get of it answers 400, and so does the list
  of its tenant (`Reports.NumericUrgencyUnreadable`, `Reports.CreateThenGet`,
  `Reports.CreateThenList`). The same holds for the incidents table: a
  getIncidents answers 500 once any stored incident holds a number
  (`Realtime.Registry.Dispatch`).

The user page does no reconciliation of the WebSocket feed
(front_user/src/pages/App.tsx:66-79):

- It appends every `newIncident`, even one whose uuid is already listed
  (`FrontUser.DuplicateEchoGrows`).
- It never replaces its optimistic placeholder with the server's echo
  (`FrontUser.EchoDoesNotReplacePlaceholder`).
- It ignores `updateIncident` messages (`FrontUser.UpdateIncidentIgnored`).

## Model

| member | source | states |
|---|---|---|
| Common.Missing | awsimplementation/CrearReporte.py:42 | the required names the body lacks, in the declared order (a subsequence of the names); a name is listed iff the membership test says it is absent; None exactly when `in` raises on the body |
| Common.Membership | awsimplementation/CrearReporte.py:42 | Python's `in` on a decoded body: a key test on a dict; defined only on dicts, lists and strings (TypeError otherwise) |
| Common.ScanKeys | awsimplementation/socket/default.py:44 | a table scan yields every key of the table exactly once (one page only: see "Left out") |
| Common.GetOrEmptyAgreesWithOrEmpty | awsimplementation/admin/ObtenerReporte.py:14-16 | `event.get(k) or {}` and `event.get(k, {})` read the same parameters, except that a null entry is empty for the first and raises for the second |
| Text.StripFacts | awsimplementation/RegistroAdmin.py:20-21 | `strip()` leaves no whitespace at either end, never lengthens, and gives "" iff the input is all whitespace |
| Text.LowerFacts | awsimplementation/RegistroAdmin.py:19 | lower-casing keeps the length and maps each character on its own |
| Text.StripIdempotent | awsimplementation/RegistroAdmin.py:20 | stripping a stripped string changes nothing |
| Text.LowerIdempotent | awsimplementation/RegistroAdmin.py:19 | lower-casing a lower-cased string changes nothing |
| Text.StripOfLower | awsimplementation/RegistroAdmin.py:19 | strip and lower commute |
| Text.SuffixSurvivesNormalisation | awsimplementation/RegistroAdmin.py:19-30 | a suffix with no capitals and no whitespace at its ends survives `.strip().lower()` of a string that ends with it |
| Text.JoinAppend | awsimplementation/CrearReporte.py:44 | `sep.join` puts the parts in order with the separator between each two: joining one part more appends the separator and that part |
| Text.JoinLength | awsimplementation/CrearReporte.py:44 | the joined text is as long as the parts plus one separator between each two, and starts with the first part |
| Text.ListReprOne | awsimplementation/user/CrearReporte.py:42 | the repr of a one-name list is the name quoted in brackets |
| Browser.Prop | front_admin/src/pages/App.tsx:45 | `v.name` throws exactly on null and undefined; on an object it is the field, or undefined when absent |
| Browser.OptionalPropTruthy | front_admin/src/pages/App.tsx:113 | a truthy `v?.name` means `v` is an object carrying that field, and it is that field |
| Browser.Or | front_admin/src/pages/App.tsx:48 | `a \|\| b` is `a` when truthy, otherwise `b`; truthy iff either is |
| Browser.Checked | front_admin/src/pages/App.tsx:42-45 | the data of an ok response with a body; an engine error on a network or JSON failure; otherwise the message of `data.error \|\| data.mensaje` |
| Accounts.NormalizeEmailIdempotent | awsimplementation/RegistroAdmin.py:19 | normalising a normalised email changes nothing |
| Accounts.ReadRegistrationNormalised | awsimplementation/RegistroAdmin.py:12-21 | the account registration reads is already normalised: email stripped and lower-cased, password and name stripped |
| Accounts.RegistrationProblem | awsimplementation/RegistroAdmin.py:23-41 | the checks in their order: a missing field first, then the domain, then the password length; no problem exactly when all pass |
| Accounts.RegistrationReply | awsimplementation/RegistroAdmin.py:9-74 | 500 iff the body cannot be read or the table does not answer after validation; 400 iff a check fails, with the message of the first failing check; 409 "already registered" iff the normalised email is taken; otherwise 201 with its message, showing only email and name |
| Accounts.AdminTable.Register | awsimplementation/RegistroAdmin.py:44-58 | replies as RegistrationReply; on 201 exactly the new normalised email is added with the read account; on any error (the table not answering included) the table is unchanged; well-formedness of the table is preserved |
| Accounts.LoginAdmin | awsimplementation/LoginAdmin.py:8-64 | 500 iff the body cannot be read or the table does not answer, 400 iff email or password is empty after normalising, 200 iff the table answers and a stored row matches (with the stored email and name and the email as token), 401 otherwise with one message |
| Accounts.LoginUsuario | awsimplementation/LoginUsuario.py:8-64 | the same decision over the usuarios table, the account sent as `usuario` |
| Accounts.LoginFailuresIndistinguishable | awsimplementation/LoginAdmin.py:30-43 | an unknown email and a wrong password get the identical 401 reply |
| Accounts.LoginTokenIsAccountEmail | awsimplementation/LoginAdmin.py:46-56 | on a table keyed by email the token is the email of the account shown |
| Accounts.RegisterThenLogin | awsimplementation/RegistroAdmin.py:52-66 | after a 201, logging in with the same body succeeds and shows the registered account |
| Accounts.StoredCredentialsLogIn | awsimplementation/LoginAdmin.py:18-56 | on a well-formed table, the stored email and password log in as they are |
| Accounts.RegisterTwiceConflicts | awsimplementation/RegistroAdmin.py:44-49 | once an email is registered, every valid registration of it gets 409 |
| Accounts.RegisterKeepsWellFormed | awsimplementation/RegistroAdmin.py:19-58 | a 201 keeps every row normalised, in the domain, with a long enough password |
| Accounts.BlankFieldIsMissing | awsimplementation/RegistroAdmin.py:21-27 | a name of whitespace only counts as missing and gets 400 before any other check, whether or not the table answers |
| Reports.DecodeReportBody | awsimplementation/CrearReporte.py:22-28 | a missing or null body is "no body"; a string that is not JSON is a decoding error; any other body is used as it is, decoded when it is a string |
| Reports.CompleteIffNoneMissing | awsimplementation/CrearReporte.py:42-51 | on a dict, nothing is missing iff all six required keys are present |
| Reports.CreateReply | awsimplementation/CrearReporte.py:19-115 | 400 with the missing names in declared order, 400 on a store failure, 500 when `in` raises; success iff the body is complete, its tenant a valid key and the store up, echoing the six fields and the drawn uuid |
| Reports.ReportTable.Create | awsimplementation/CrearReporte.py:58-78 | on success exactly the key (tenant, uuid) is set to the record; on any error the table is unchanged |
| Reports.DeleteKey | awsimplementation/EliminarReporte.py:8-16 | no key iff the uuid is missing or empty; the tenant is the query's, or "utec" when missing or empty |
| Reports.DeleteReply | awsimplementation/EliminarReporte.py:6-78 | 400 iff no uuid, 500 iff the store fails, 404 iff the key is absent, 200 echoing the uuid iff present |
| Reports.ReportTable.Delete | awsimplementation/EliminarReporte.py:33-51 | on 200 exactly the requested key is removed; otherwise the table is unchanged |
| Reports.GetKey | awsimplementation/admin/ObtenerReporte.py:14-22 | a null query raises; tenant checked before uuid; the key is (tenant_id, uuid) exactly when both are non-empty |
| Reports.GetReport | awsimplementation/admin/ObtenerReporte.py:12-66 | every error is 400, a stored record holding a number included; success iff the key is stored and its record holds no number, returning that record |
| Reports.OfTenant | awsimplementation/admin/ListarReportes.py:24-26 | the query by hash key returns every record stored under the tenant and nothing else (as a set: see "Left out") |
| Reports.ListReports | awsimplementation/admin/ListarReportes.py:12-56 | every error is 400, one of the tenant's records holding a number included; success iff a non-empty tenant is given, the store answers and no record of the tenant holds a number, returning that tenant's records |
| Reports.ListIsExactlyTenant | awsimplementation/admin/ListarReportes.py:24-40 | on a well-keyed table a tenant's list is exactly the stored records carrying that tenant |
| Reports.EmptyTenantListsNothing | awsimplementation/admin/ListarReportes.py:35-40 | a tenant with no records gets 200 and an empty list |
| Reports.EmptyValuesPass | awsimplementation/CrearReporte.py:42 | presence is a key test: empty strings pass validation |
| Reports.GetIsTenantScoped | awsimplementation/admin/ObtenerReporte.py:28-36 | a found record carries the tenant and uuid asked for |
| Reports.GetAgreesWithList | awsimplementation/admin/ObtenerReporte.py:28-49 | whatever a get finds is among the same tenant's records, and in its list whenever the list succeeds |
| Reports.CreateThenGet | awsimplementation/CrearReporte.py:60-76 | after a create, a get by its tenant and uuid returns the created record, or 400 when that record holds a number |
| Reports.CreateThenList | awsimplementation/CrearReporte.py:60-76 | after a create, the record is among its tenant's records and in the list whenever it succeeds; a record holding a number makes the list answer 400 |
| Reports.NumericUrgencyUnreadable | awsimplementation/admin/ObtenerReporte.py:45-61 | a report whose urgency is a number is created, and every get of it answers 400 |
| Reports.DeleteTwice | awsimplementation/EliminarReporte.py:33-51 | deleting the same key twice answers 200 then 404 |
| Reports.DeleteThenGet | awsimplementation/EliminarReporte.py:49-51 | after a delete a get of that key is refused |
| Reports.DeleteThenList | awsimplementation/EliminarReporte.py:49-51 | a delete removes the record from its tenant's list and keeps every other record |
| Realtime.DeliveriesReach | awsimplementation/user/CrearReporte.py:25-33 | a broadcast posts the one message to exactly the visited connections whose post does not fail |
| Realtime.DeliveriesOnce | awsimplementation/socket/default.py:50-57 | over a scan, no connection receives a broadcast twice |
| Realtime.ValuesOfScan | awsimplementation/socket/disconnect.py:43 | the values read over a scan are the table's values: one per row, every stored value among them |
| Realtime.FarewellsTargets | awsimplementation/socket/disconnect.py:47-57 | posts go only to remaining connections and carry only the notification or the user list |
| Realtime.FarewellsNotified | awsimplementation/socket/disconnect.py:47-53 | a remaining connection is notified iff its first post goes through |
| Realtime.FarewellsListed | awsimplementation/socket/disconnect.py:47-59 | a remaining connection gets the user list iff both its posts go through |
| Realtime.FarewellsNoticeFirst | awsimplementation/socket/disconnect.py:50-57 | every user list is posted right after the notification to the same connection |
| Realtime.SocketBody | awsimplementation/user/CrearReporte.py:37 | a missing body reads as `{}`; a body that is not a string makes `json.loads` raise |
| Realtime.ReadIncident | awsimplementation/user/CrearReporte.py:37-56 | 400 listing the missing names, 500 when the body cannot be read; an incident iff nothing is missing from a dict, with estado "pendiente", the drawn uuid and tenant defaulting to "utec" |
| Realtime.RouteOf | awsimplementation/socket/default.py:22-61 | getIncidents, nuevoReporte (data defaulting to `{}`), a bad body, or anything else |
| Realtime.MissingBodyIsUnknown | awsimplementation/socket/default.py:23-24 | a message without body asks for an unknown action |
| Realtime.PostToAll | awsimplementation/user/CrearReporte.py:14-33 | the loop posts as Deliveries over a full scan and prunes exactly the connections whose post failed |
| Realtime.PostFarewells | awsimplementation/socket/disconnect.py:47-59 | the loop posts exactly as Farewells |
| Realtime.Registry.Broadcast | awsimplementation/socket/default.py:44-57 | posts to every connection, the registry loses exactly the failed ones, incidents untouched |
| Realtime.Registry.CreateIncident | awsimplementation/user/CrearReporte.py:35-78 | refused or unstored bodies change nothing; a stored incident stays when Airflow refuses (500 "Airflow error: ") or its call raises (500), without broadcast; success iff stored, accepted and the WebSocket step starts (`WS_URL` set, scan answering), then broadcast as newIncident with pruning; when that step fails, 500 with the incident kept and nothing sent |
| Realtime.Registry.Dispatch | awsimplementation/socket/default.py:17-70 | getIncidents answers only the sender with every stored incident, or 500 when one of them holds a number; nuevoReporte broadcasts and prunes; other actions answer the sender with the error; only nuevoReporte changes the registry |
| Realtime.Registry.Disconnect | awsimplementation/socket/disconnect.py:11-65 | a failed read or delete answers 500 with nothing changed; a failed scan after the delete answers 500 with the connection gone and nothing sent; otherwise username stored or "Anónimo", exactly that connection is removed, every remaining one gets the notification then the user list of the remaining users, nothing pruned |
| Realtime.UserListOfRemaining | awsimplementation/socket/disconnect.py:29-44 | the user list has one entry per remaining connection and never the one that left |
| FrontUser.ReadInbound | front_user/src/pages/App.tsx:66-79 | incidentsList replaces with exactly the received items; newIncident appends `msg.incident`; any other type is ignored; unparsable or null data throws |
| FrontUser.LastListWins | front_user/src/pages/App.tsx:70-78 | after a run of messages the list is the last incidentsList followed by every incident announced after it |
| FrontUser.ServerMessageEffect | front_user/src/pages/App.tsx:66-79 | the effect of each message the backend sends: replace, append, or no change |
| FrontUser.DuplicateEchoGrows | front_user/src/pages/App.tsx:75-78 | a newIncident already in the list is appended again: the list grows by one and holds the incident at least twice |
| FrontUser.UpdateIncidentIgnored | front_user/src/pages/App.tsx:66-79 | an updateIncident message leaves the list unchanged |
| FrontUser.EchoDoesNotReplacePlaceholder | front_user/src/pages/App.tsx:135-144 | the server's echo is appended beside the optimistic entry, which differs from it |
| FrontUser.EditsCommute | front_user/src/pages/App.tsx:198-200 | edits of two different inputs commute; of two edits of one input the later wins |
| FrontUser.PayloadOf | front_user/src/pages/App.tsx:126-132 | tenant "utec", tipo as tipo_incidente, rol as tipo_usuario, and no other keys |
| FrontUser.Placeholder | front_user/src/pages/App.tsx:137-143 | the optimistic entry: the form fields, estado "pendiente", no uuid |
| FrontUser.ShownEstado | front_user/src/pages/App.tsx:287 | the entry's estado when truthy, otherwise "pendiente"; throws on a null entry |
| FrontUser.UserPage.OnMessage | front_user/src/pages/App.tsx:66-79 | the list becomes Step of the old list; the form is untouched |
| FrontUser.UserPage.Edit | front_user/src/pages/App.tsx:196-241 | the form takes the typed value; the list is untouched |
| FrontUser.UserPage.ToggleForm | front_user/src/pages/App.tsx:180 | flips whether the form is shown |
| FrontUser.UserPage.HideForm | front_user/src/pages/App.tsx:254 | hides the form and keeps what was typed |
| FrontUser.UserPage.Submit | front_user/src/pages/App.tsx:119-147 | an incomplete form alerts and changes nothing; otherwise the payload is sent and the placeholder appended, the form kept until the request settles |
| FrontUser.UserPage.Settle | front_user/src/pages/App.tsx:146-159 | alerts on a failed call, then resets and hides the form whatever was typed meanwhile; the placeholder stays |
| FrontUser.UserPage.AddIncident | front_user/src/pages/App.tsx:118-160 | with nothing in between: an incomplete form alerts and changes nothing; otherwise the payload is sent, the placeholder appended and kept even when the call fails (which alerts), and the form reset and hidden |
| FrontUser.ReportPayloadMissing | awsimplementation/CrearReporte.py:33-44 | of the six required names only nivel_urgencia is absent from the page's payload |
| FrontUser.IncidentPayloadMissing | awsimplementation/user/CrearReporte.py:38-40 | of the five required names only nivel_urgencia is absent from the page's payload |
| FrontUser.PayloadRefusedByCreate | front_user/src/pages/App.tsx:126-132 | the REST create refuses every payload of the page with 400 naming nivel_urgencia |
| FrontUser.PayloadRefusedByIncidentHandler | awsimplementation/user/CrearReporte.py:38-42 | the incident handler refuses every payload of the page with 400 "Faltan campos: ['nivel_urgencia']" |
| FrontAdmin.UrgencyStyle | front_admin/src/pages/App.tsx:127-133 | red iff "alta", yellow iff "media", green iff "baja" after lower-casing; gray for other strings, null and undefined; throws on other values |
| FrontAdmin.UrgencyIgnoresCase | front_admin/src/pages/App.tsx:128 | a level and its lower-cased form get the same style |
| FrontAdmin.UpperCaseAlta | front_admin/src/pages/App.tsx:128-129 | "ALTA" is red |
| FrontAdmin.ListResult | front_admin/src/pages/App.tsx:42-52 | success iff the response is ok with non-null data, giving `items` or [] when falsy; otherwise the caught message |
| FrontAdmin.Dashboard.Begin | front_admin/src/pages/App.tsx:30-31 | loading on and error cleared at the start of each call |
| FrontAdmin.Dashboard.FetchReportes | front_admin/src/pages/App.tsx:29-55 | on success the list is the items; on failure the list is [] and the error set; loading off; selection untouched |
| FrontAdmin.Dashboard.FetchDetalle | front_admin/src/pages/App.tsx:64-87 | on success the item is selected and shown; on failure only the error changes; loading off |
| FrontAdmin.Dashboard.CloseDetails | front_admin/src/pages/App.tsx:179-182 | deselects and hides the details |
| FrontAdmin.Dashboard.Eliminar | front_admin/src/pages/App.tsx:92-122 | unconfirmed: nothing changes; a refused delete sets the error and keeps list and selection; an accepted one reloads the list and clears the selection only when it is the deleted report; loading off |
| FrontAdmin.SilentFailure | front_admin/src/pages/App.tsx:44-45 | a refusal whose body names neither error nor mensaje shows an empty error |
| FrontAdmin.OtherSelectionSurvives | front_admin/src/pages/App.tsx:113-116 | deleting a report other than the selected one keeps the selection |
| AdminLogin.Flip | front_admin/src/pages/Login.tsx:152 | the toggle always changes the mode |
| AdminLogin.FlipTwice | front_admin/src/pages/Login.tsx:152 | toggling twice restores the mode |
| AdminLogin.Unwrap | front_admin/src/pages/Login.tsx:31-34 | a string `body` is replaced by its parse; otherwise the data is unchanged; throws on null data or unparsable text |
| AdminLogin.UnwrapBothShapes | front_admin/src/pages/Login.tsx:31-34 | a direct answer and an envelope carrying its JSON text give the page the same data |
| AdminLogin.Settle | front_admin/src/pages/Login.tsx:27-38 | the unwrapped data of an ok answer; otherwise `data.error`, or the fallback text when falsy; an engine error on network, JSON or null-data failures |
| AdminLogin.LoginForm.Edit | front_admin/src/pages/Login.tsx:118-135 | one input takes the typed value, the rest of the state is untouched |
| AdminLogin.LoginForm.HandleLogin | front_admin/src/pages/Login.tsx:16-55 | posts the typed credentials; on success stores admin and token and hands the admin on; otherwise shows the error and stores nothing; loading off |
| AdminLogin.LoginForm.HandleRegistro | front_admin/src/pages/Login.tsx:57-94 | without the suffix: error and no request; otherwise posts the form, and on success clears inputs and error and switches to login |
| AdminLogin.LoginForm.Toggle | front_admin/src/pages/Login.tsx:151-154 | flips the mode and clears the error |
| AdminLogin.PageSuffixImpliesServerDomain | front_admin/src/pages/Login.tsx:62 | an email the page accepts also passes the server's domain check after normalisation |
| AdminLogin.UpperCaseEmailRefusedByPage | front_admin/src/pages/Login.tsx:62-64 | an email typed with an upper-case domain is refused by the page but would pass the server |

## Left out

- Text.Lower: lower-cases ASCII letters only. Python's `str.lower()` and JavaScript's `toLowerCase()` also map non-ASCII letters. Every constant compared against is ASCII.
- Text.StripFacts: `strip()` uses the whitespace of `str.isspace()` as listed in `Text.IsSpace`. The Unicode database is not consulted beyond that list.
- JSON decoding and encoding are not modelled. A body is given already decoded (`RawBody`, which never holds a string as a decoded value); `JSON.parse` is a function parameter; `json.dumps` of a message is `Realtime.MessageJson`.
- Numbers are integers: `Common.Json` has no fractional numbers. A fractional value in a report body would make `put_item` raise, which CrearReporte.py answers like a store failure.
- Common.ScanKeys: yields every key, where `scan()` returns one page of at most 1 MB and the handlers never read `LastEvaluatedKey`. The model holds only for tables that fit in one page.
- Reports.OfTenant: a set, so it loses the uuid order in which `query` returns a tenant's records, and it holds every record where `query` returns one page of at most 1 MB.
- Reports.ListReports: answers with every record of the tenant, as OfTenant; the one-page limit and the uuid order are not modelled.
- Accounts.AdminTable.Register: one `storeUp` flag covers both its `get_item` and its `put_item`, so a table that answers the read and fails the write is not modelled; either failure gives the same 500 reply.
- The DynamoDB tables, API Gateway `post_to_connection`, `requests.post` to Airflow, and `fetch` are replaced by parameters, as described above.
  - The uuid is any string.
  - A put overwrites whatever the key held, as DynamoDB's `put_item` does.
- Realtime.Registry.Dispatch: a failure of the table scans themselves (inside the handler's `try`) is not modelled. Only a failed post to the sender, an incident holding a number or a bad body gives 500. The prune's `delete_item` (socket/default.py:57) is taken to succeed: one that raises would end the nuevoReporte loop, leave the later connections without the message and answer 500.
- Realtime.Registry.Broadcast: each `delete_item` of the prune (user/CrearReporte.py:33, socket/default.py:57) is taken to succeed. One that raises would end the loop early, so the later connections get nothing and the handler answers 500 after the earlier posts and deletes.
- Realtime.Registry.CreateIncident: the broadcast's prune deletes are taken to succeed, as for Broadcast. A failing `put_item` or Airflow call, a missing `WS_URL` and a failing scan are modelled. The two failures before the posts (`WS_URL`, the scan) are one `wsUp` flag.
- Realtime.Registry.Disconnect: one `storeUp` flag covers both the `get_item` and the `delete_item`, which both fail before anything changes; the scan after the delete has its own `scanUp` flag.
- Realtime.Registry.Disconnect: a remaining connection without a `username` attribute would make the comprehension raise. The registry maps every connection to a username, so that case does not arise in the model.
- A missing `requestContext` entry in the event is not modelled; it fails before any handler logic.
- A missing `TABLE_NAME` environment variable is not modelled either.
- awsimplementation/connect.py and awsimplementation/socket/connect.py are not part of this model. They only write one fixed record.
- FrontUser.ReadInbound: an incidentsList message whose `incidents` is not an array is treated as throwing, leaving the list unchanged. The page would store the value, and its next render would throw.
- AdminLogin.LoginForm.HandleLogin: localStorage holds the values themselves. The string conversion by `JSON.stringify` and `setItem` is not modelled.
- The fallback texts "Error al cargar reportes", "Error al cargar el reporte", "Error al eliminar el reporte" and "Error desconocido" are not modelled. Every value the pages catch is an `Error`, so they are never shown.
- Rendering is not modelled:
  - `alert` is a returned text.
  - `confirm` is a parameter.
  - On the admin pages, the disabled state of a button while `loading` is not modelled, and each handler is one step, so two overlapping calls of one handler are not considered. The user page's submit is split at its `await` (`FrontUser.UserPage.Submit`, `FrontUser.UserPage.Settle`).
- The WebSocket lifecycle of the user page is not modelled: opening, the `register` message and closing. So are logging and CORS headers.
- Concurrency between Lambda invocations is not modelled. Each handler is one atomic step, so the race between EliminarReporte's existence check and its delete is not modelled.
