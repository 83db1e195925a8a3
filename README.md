# phalcon-extras core, modelled in Dafny

This project models the core components of the Rootwork `phalcon-extras` PHP package:

- **Criteria** (`Criteria::fromInput`): turns posted form data into model query
  conditions and bind parameters. The model's data types and reverse column map
  are given by the caller.
- **Jwt session adapter**: keeps the session's attributes in a signed token.
  The token travels in a cookie or through caller-registered getter and setter
  hooks. Signing is done by an injected codec.
- **Callback validator**: accepts a value when an allowed-empty value is empty,
  or when the callback accepts it. Otherwise it appends one message, with
  `:field` replaced by the field's label.
- **AuthComponent**: builds an ACL from options, or reuses a cached one. It
  falls back to a default role and asks the ACL about (role, controller, action).
  `afterAllowed` listeners can veto.
- **Slack log formatter**: formats a log entry as a coloured attachment or a
  plain line. Every `PHP_EOL` (taken as "\n") is removed, and an optional `@channel` alert is added.
- **CrudController** and **MicroController**: event-gated index, search, read,
  save and delete actions, plus a `forward(uri)` split into controller, action
  and params.

PHP values are a `Value` datatype (null, bool, int, string, array). PHP truthiness,
`empty`, `=== false`, `explode`/`implode` and single-pair `str_replace`/`strtr`
are written out in `php.dfy` and `strings.dfy`. Objects whose fields the source
updates in place are classes: the JWT adapter, the validation, the auth
component and the two controllers. Each action method is proved against a pure
function of the old state. That function's properties are proved as lemmas.

The collaborators behind framework calls are oracles, passed as arrow-typed
parameters or fields:

- the events manager's answer per event;
- the ACL's `isAllowed`;
- the ORM (`find`, `findFirstById`, `save`, `delete`);
- form and validation checks;
- the paginator;
- the framework line formatter and its type names;
- the JWT codec.

The clock, the server name, the headers-sent flag and the fresh session id are
parameters. The controllers record what they ask of their collaborators, in
order, as a trace of `Step`s. The gate properties are stated over that trace:
which events were fired, and whether a save or delete was attempted.

## Model

| member | source | states |
|---|---|---|
| Criteria.ClauseFor | src/Phalcon/Mvc/Model/Criteria.php:44-81 | a pair is skipped exactly when its attribute (column-map entry or the field) has no data type or its value is null or ''; every condition starts with `[field]`; only 'NULL'/'!NULL' bind nothing; arrays are bound unchanged, varchar attributes bind `%v%`, other types bind v |
| Criteria.ClauseShapes | src/Phalcon/Mvc/Model/Criteria.php:52-81 | the exact condition text per kind of value: `[f] IN ({f:array})`, `[f] IS NULL`, `[f] IS NOT NULL`, `[f] LIKE :f:`, `[f] = :f:` |
| Criteria.Conditions | src/Phalcon/Mvc/Model/Criteria.php:43-84 | every collected condition opens with a bracketed field name |
| Criteria.Binds | src/Phalcon/Mvc/Model/Criteria.php:43-84 | null, '' and the NULL markers are never bound |
| Criteria.FromInput | src/Phalcon/Mvc/Model/Criteria.php:32-98 | the model name is always set; with no condition neither where nor bind is set; otherwise where is the conditions in input order joined with " operator " (default AND) and bind is the accumulated bind map |
| Criteria.ConditionsBounded | src/Phalcon/Mvc/Model/Criteria.php:43-84 | there are never more conditions than input pairs |
| Criteria.ConditionsAppend | src/Phalcon/Mvc/Model/Criteria.php:43-84 | conditions keep input order: the conditions of a concatenated input are the concatenated conditions |
| Criteria.BindKeysAreFields | src/Phalcon/Mvc/Model/Criteria.php:54-81 | every bind key is an input field name |
| Criteria.BindOfField | src/Phalcon/Mvc/Model/Criteria.php:50-81 | with distinct field names, a field's bind entry is exactly what its own clause binds, and it is absent when the clause binds nothing |
| Criteria.SingleConditionUnjoined | src/Phalcon/Mvc/Model/Criteria.php:91-93 | one matching field yields its own condition with no operator |
| Strings.Split | src/Phalcon/Mvc/Controller/CrudController.php:430 | `explode` always yields at least one piece |
| Strings.JoinSplit | src/Phalcon/Mvc/Controller/CrudController.php:430 | imploding the pieces of an explode with the same separator restores the string |
| Strings.SplitJoin | src/Phalcon/Mvc/Controller/CrudController.php:430 | exploding the implode of separator-free pieces restores the pieces |
| Strings.ReplaceIsSplitJoin | src/Phalcon/Validation/Validator/Callback.php:61 | replacing every occurrence equals exploding on the pattern and imploding with the replacement |
| JwtSession.MergeOptions | src/Phalcon/Session/Adapter/Jwt.php:46-51 | fails with "A JWT key is required" exactly when `jwtKey` is missing or null; otherwise the keys are the caller's and the defaults', caller values win, defaults HS512/900/X-Access-Token/null fill the rest |
| JwtSession.Stamp | src/Phalcon/Session/Adapter/Jwt.php:233-245 | the signed claims keep every other caller claim and set jti = session id, iat = now, nbf = now − 10, exp = now + lifetime, iss = server name or null |
| JwtSession.GenerateToken | src/Phalcon/Session/Adapter/Jwt.php:233-250 | the token of the stamped claims, with the lifetime option read as an int; given a codec that round-trips tokens valid now (nbf ≤ now < exp, and iat not in the future, as the signing library checks) and a positive lifetime, it decodes now to exactly the stamped claims |
| JwtSession.StampedWindow | src/Phalcon/Session/Adapter/Jwt.php:238-240 | with a positive lifetime, an issued token is valid now, and nbf < iat < exp |
| JwtSession.StampIdempotent | src/Phalcon/Session/Adapter/Jwt.php:237-245 | re-stamping at the same instant changes nothing |
| JwtSession.ReissueKeepsClaims | tests/Phalcon/Session/Adapter/JwtTest.php:113-135 | given a codec that round-trips tokens valid now (nbf ≤ now < exp, iat ≤ now), a reissued token decodes to the caller's claims (sub, aud and the rest), with jti the session id and iss the server name |
| JwtSession.Inbound | src/Phalcon/Session/Adapter/Jwt.php:162-175 | no decode happens exactly when the token is not truthy; otherwise the outcome is the codec's decode with the configured key and algorithm |
| JwtSession.Gc | src/Phalcon/Session/Adapter/Jwt.php:211-214 | true exactly when maxLifetime is non-zero |
| JwtSession.JwtAdapter.Init | src/Phalcon/Session/Adapter/Jwt.php:93-96 | the adapter keeps the merged options and takes the session name from the merged `name` option |
| JwtSession.JwtAdapter.Create | src/Phalcon/Session/Adapter/Jwt.php:87-97 | construction fails with the key message exactly when option merging fails; otherwise it yields a fresh, inactive adapter over the merged options |
| JwtSession.JwtAdapter.GetLastError | src/Phalcon/Session/Adapter/Jwt.php:259-262 | the last decode failure, or none |
| JwtSession.JwtAdapter.RegisterTokenSetter | src/Phalcon/Session/Adapter/Jwt.php:272-276 | the setter becomes the one used by write |
| JwtSession.JwtAdapter.RegisterTokenGetter | src/Phalcon/Session/Adapter/Jwt.php:286-290 | the getter becomes the one used by read |
| JwtSession.JwtAdapter.Read | src/Phalcon/Session/Adapter/Jwt.php:153-178 | the token comes from the getter, else the named cookie. No token: no data, id and lastError unchanged. Failed decode: no data, lastError = the failure message. Success: the claims, and the id becomes their jti |
| JwtSession.JwtAdapter.Write | src/Phalcon/Session/Adapter/Jwt.php:188-202 | signs the data, else the session's attributes. With a setter it returns the setter's answer and leaves cookies alone. Without one it sets the named cookie and returns true |
| JwtSession.JwtAdapter.Start | src/Phalcon/Session/Adapter/Jwt.php:104-126 | true exactly when headers are not sent and the session is not active; a refused start changes nothing. Otherwise the session is active, holds the decoded claims (or nothing), and one token for it was written |
| JwtSession.JwtAdapter.Open | src/Phalcon/Session/Adapter/Jwt.php:106-121 | the session-start handler chain: a fresh id when none is set, the read claims (or none) become the session, the session is active, and one token for it is written |
| CallbackValidator.Decide | src/Phalcon/Validation/Validator/Callback.php:34-70 | allowEmpty with an empty value is valid before anything else; it throws the fixed message exactly when not short-circuited and the callback is not callable; valid exactly when short-circuited or the callback's answer is truthy; an invalid verdict carries the label-substituted message, the field and type "Callback" |
| CallbackValidator.MessageIsPlaceholderJoin | src/Phalcon/Validation/Validator/Callback.php:57-61 | the message is the `message` option exploded on `:field` and imploded with the label, so every occurrence is replaced |
| CallbackValidator.MessageWithoutPlaceholder | src/Phalcon/Validation/Validator/Callback.php:57-61 | a message without `:field` is used verbatim |
| CallbackValidator.FooMustBeBar | tests/Phalcon/Validation/Validator/CallbackTest.php:56-86 | for a callback accepting only "bar" with allowEmpty: "baz" gets exactly the given message, "bar" and "" are valid |
| CallbackValidator.NoCallbackThrows | tests/Phalcon/Validation/Validator/CallbackTest.php:87-94 | without options the validator throws the fixed message |
| CallbackValidator.Validation.constructor | src/Phalcon/Validation/Validator/Callback.php:36 | a validation over the given data and labels, with no messages |
| CallbackValidator.Validation.AppendMessage | src/Phalcon/Validation/Validator/Callback.php:60-64 | exactly that message is appended |
| CallbackValidator.Validate | src/Phalcon/Validation/Validator/Callback.php:34-70 | answers true, false or the exception as Decide does on the field's value and label; exactly one message is appended when, and only when, the answer is false |
| Auth.RoleAllowsExactly | src/Phalcon/Mvc/User/Component/AuthComponent.php:233-239 | a role's allow triples are exactly its controllers' listed methods |
| Auth.AllowsExactlyListed | src/Phalcon/Mvc/User/Component/AuthComponent.php:232-240 | (role, controller, method) is allowed exactly when some resources entry for that role and controller lists that method |
| Auth.ScalarMethodListAllowsNothing | src/Phalcon/Mvc/User/Component/AuthComponent.php:234-238 | for `'Guest' => ['Index' => 'index']` the resource is added with ["index"] but the loop as written allows nothing |
| Auth.AsWrittenAgreesOnLists | src/Phalcon/Mvc/User/Component/AuthComponent.php:232-240 | when every method list is an array, the loop as written and the cast one allow the same triples |
| Auth.ExampleAllows | acl.example.php:20-30 | on the sample configuration admins may delete orders and guests may not read accounts |
| Auth.BuildAcl | src/Phalcon/Mvc/User/Component/AuthComponent.php:214-240 | the built ACL holds the default action, the roles and inheritance pairs in order, each controller resource with its cast method list, and one allow per listed method |
| Auth.UpperFirst | src/Phalcon/Mvc/User/Component/AuthComponent.php:262 | `ucfirst`: same length and tail; a lower-case ASCII first letter becomes its own capital (code point − 32), any other is kept |
| Auth.ActionName | src/Phalcon/Mvc/User/Component/AuthComponent.php:273-283 | the micro handler's method, else the dispatcher's action |
| Auth.ControllerName | src/Phalcon/Mvc/User/Component/AuthComponent.php:255-266 | in a micro application the handler class's last `\` segment (the `\`-free suffix that follows a `\` or starts the name) with every "Controller" removed, so no `\` is left; otherwise the dispatcher's controller name through `ucfirst` |
| Auth.LastSegmentUnique | src/Phalcon/Mvc/User/Component/AuthComponent.php:259-260 | a class name has exactly one last segment, so the micro controller name is determined |
| Auth.EffectiveRole | src/Phalcon/Mvc/User/Component/AuthComponent.php:141-148 | a truthy stored role is kept, otherwise the default role |
| Auth.AclFor | src/Phalcon/Mvc/User/Component/AuthComponent.php:205-247 | the cached ACL exactly when a cache is configured and holds one; without a cache service, or with an empty cache, the ACL built from the options |
| Auth.Decision | src/Phalcon/Mvc/User/Component/AuthComponent.php:179-197 | when allowed, true exactly when no afterAllowed response is strictly false; when denied, the previous value |
| Auth.StickyAuthorized | src/Phalcon/Mvc/User/Component/AuthComponent.php:179-191 | an allowed call followed by a denied one on the same component still answers true |
| Auth.AuthComponent.constructor | src/Phalcon/Mvc/User/Component/AuthComponent.php:38-76 | starts unauthorized with the options, default role "Guest" unless `defaultRole` is given |
| Auth.AuthComponent.SetOptions | src/Phalcon/Mvc/User/Component/AuthComponent.php:85-96 | replaces the options; the default role changes only when `defaultRole` is given |
| Auth.AuthComponent.SetDefaultRole | src/Phalcon/Mvc/User/Component/AuthComponent.php:105-110 | sets the default role |
| Auth.AuthComponent.SetRole | src/Phalcon/Mvc/User/Component/AuthComponent.php:129-134 | stores the role |
| Auth.AuthComponent.GetRole | src/Phalcon/Mvc/User/Component/AuthComponent.php:141-148 | a falsy stored role is replaced by the default role and stored; the answer is the stored role |
| Auth.AuthComponent.GetAcl | src/Phalcon/Mvc/User/Component/AuthComponent.php:205-248 | a cached ACL is returned unbuilt; otherwise the built ACL, saved under `acl` when a cache is configured |
| Auth.AuthComponent.Authorize | src/Phalcon/Mvc/User/Component/AuthComponent.php:170-198 | asks isAllowed on the effective role, controller, action and ACL; the answer and the field follow Decision; afterAllowed fires when allowed and afterDenied exactly when the answer is false |
| Auth.AuthComponent.Call | src/Phalcon/Mvc/User/Component/AuthComponent.php:291-296 | records the micro handler, then authorizes with names taken from it: the answer, the sticky field and the events as for Authorize, the default role stored when the stored one is falsy, the ACL cached when a cache is configured |
| SlackFormatter.GetOption | src/Phalcon/Logger/Formatter/Slack.php:169-176 | a present key gives its value, even null; otherwise the default |
| SlackFormatter.LineText | src/Phalcon/Logger/Formatter/Slack.php:108-113 | the line formatter's output with every EOL removed: no '\n' is left, whatever the formatter returns |
| SlackFormatter.Color | src/Phalcon/Logger/Formatter/Slack.php:139-159 | danger exactly for emergency to error, warning exactly for warning to info, #439FE0 exactly for debug, good for everything else |
| SlackFormatter.FormatAsAttachment | src/Phalcon/Logger/Formatter/Slack.php:103-130 | one attachment: title the type name, text the formatted line with every '\n' removed (default format %message%), fallback "title: text", color by severity, the timestamp; text "@channel" when alerting |
| SlackFormatter.Format | src/Phalcon/Logger/Formatter/Slack.php:66-91 | the attachment form unless `useAttachment` is present and falsy; otherwise only text: the line (default '%date% *%type%:* %message%') with every '\n' removed, prefixed by "@channel: " when alerting |
| SlackFormatter.FormattedTextIsOneLine | src/Phalcon/Logger/Formatter/Slack.php:79-113 | no text the formatter produces contains a '\n', whatever the line formatter returns |
| SlackFormatter.ErrorEntryWithAlert | tests/Phalcon/Logger/Adapter/SlackTest.php:107-114 | an error entry with alerting gives title "ERROR", fallback "ERROR: entry", text the entry, danger, and message text "@channel" |
| Mvc.ForwardTarget | src/Phalcon/Mvc/Controller/CrudController.php:428-439 | controller, action and params contain no '/'; a URI with one segment has no action and no params |
| Mvc.ForwardRejoins | src/Phalcon/Mvc/Controller/CrudController.php:430-435 | the target's segments rejoined with '/' are the URI |
| Mvc.ForwardOfTargetUri | src/Phalcon/Mvc/Controller/MicroController.php:321-332 | any target with '/'-free segments is what forwarding its URI yields |
| Mvc.ForwardWithParam | src/Phalcon/Mvc/Controller/CrudController.php:428-439 | `c/a/p` forwards to controller c, action a, params [p] |
| Mvc.RequireClasses | src/Phalcon/Mvc/Controller/CrudController.php:61-70 | fails exactly when either class name is empty, with the message naming the controller class and both properties |
| Crud.Index | src/Phalcon/Mvc/Controller/CrudController.php:75-86 | opens with beforeIndex and answers the last event fired; only the stored search (cleared) and the form and the view's form change |
| Crud.Search | src/Phalcon/Mvc/Controller/CrudController.php:93-131 | opens with beforeSearch and answers the last event fired; only the stored search and the shown page change; no save, delete or clear |
| Crud.SaveLoaded | src/Phalcon/Mvc/Controller/CrudController.php:219-241 | extends the trace and ends on an event whose answer it returns; the view shows the controller's form (cleared with it) and model; the model is unchanged; no delete |
| Crud.Save | src/Phalcon/Mvc/Controller/CrudController.php:185-242 | opens with beforeSave and answers the last event fired; only the model, the form and the view's form and model change; never deletes; a save attempt is for the record with that id, or a new one for a null id |
| Crud.Delete | src/Phalcon/Mvc/Controller/CrudController.php:251-270 | opens with beforeDelete and answers the last event fired; only the model changes; never saves; a delete attempt is for the record with that id |
| Crud.OpeningEventAborts | src/Phalcon/Mvc/Controller/CrudController.php:75-270 | a strict false from the opening event answers false with nothing else asked or changed |
| Crud.SaveOnlyPastEveryGate | src/Phalcon/Mvc/Controller/CrudController.php:185-242 | save is attempted exactly when beforeSave, POST, the existing/new gate and lookup, beforeValidation, the form and afterValidation all pass; the form is cleared, and afterSave fired, exactly after a successful save |
| Crud.SaveNeedsPost | src/Phalcon/Mvc/Controller/CrudController.php:191-193 | a non-POST save answers onSaveNotPostRequest and changes nothing |
| Crud.DeleteOnlyWhenFound | src/Phalcon/Mvc/Controller/CrudController.php:251-270 | a missing record answers onDeleteNotFound without a delete attempt; delete is attempted exactly when found; afterDelete fires exactly on success, onDeleteFails answers a failure |
| Crud.IndexForgetsSearch | src/Phalcon/Mvc/Controller/CrudController.php:75-86 | the stored search params become null; only the form changes besides |
| Crud.SearchPaging | src/Phalcon/Mvc/Controller/CrudController.php:93-131 | POST stores the new criteria and pages from 1; otherwise the stored criteria and the query page; find gets the stored criteria or none; no results with a false onSearchNotFound answers false, else the page is shown with the controller's page size |
| Crud.DefaultListener | src/Phalcon/Mvc/Controller/CrudController.php:305-419 | the controller's own handlers never answer false |
| Crud.DefaultSaveFailureEditsModel | src/Phalcon/Mvc/Controller/CrudController.php:370-377 | the default save-failure handler forwards to the edit action with the model id as the one param |
| Crud.CrudController.constructor | src/Phalcon/Mvc/Controller/CrudController.php:30-56 | nothing loaded, the stored search, page size 10 |
| Crud.CrudController.Initialize | src/Phalcon/Mvc/Controller/CrudController.php:61-70 | fails exactly when formClass or modelClass is empty, with the message naming both |
| Crud.CrudController.SetPageLimit | src/Phalcon/Mvc/Controller/CrudController.php:448-453 | sets the page size |
| Crud.CrudController.IndexAction | src/Phalcon/Mvc/Controller/CrudController.php:75-86 | answer, fields and interactions are those of Crud.Index |
| Crud.CrudController.SearchAction | src/Phalcon/Mvc/Controller/CrudController.php:93-131 | answer, fields and interactions are those of Crud.Search |
| Crud.CrudController.SaveAction | src/Phalcon/Mvc/Controller/CrudController.php:185-242 | answer, fields and interactions are those of Crud.Save |
| Crud.CrudController.SaveLoadedAction | src/Phalcon/Mvc/Controller/CrudController.php:219-241 | answer, fields and interactions are those of Crud.SaveLoaded |
| Crud.CrudController.DeleteAction | src/Phalcon/Mvc/Controller/CrudController.php:251-270 | answer, fields and interactions are those of Crud.Delete |
| Micro.RequestData | src/Phalcon/Mvc/Controller/MicroController.php:353-364 | a truthy JSON body, else the PUT body for a PUT, else the request params |
| Micro.Search | src/Phalcon/Mvc/Controller/MicroController.php:88-112 | opens with beforeSearch and answers the last event fired; only the results change; no save or delete |
| Micro.Read | src/Phalcon/Mvc/Controller/MicroController.php:121-138 | opens with beforeRead and answers the last event fired; only the model changes, and once afterRead fires it is the record found, or null |
| Micro.SaveLoaded | src/Phalcon/Mvc/Controller/MicroController.php:174-192 | extends the trace and ends on an event whose answer it returns; the fields are unchanged; no delete |
| Micro.Save | src/Phalcon/Mvc/Controller/MicroController.php:147-193 | opens with beforeSave and answers the last event fired; only the model and the validation change, the validation exactly once beforeSave passes; never deletes; a save attempt is for the record with that id, or a new one |
| Micro.Delete | src/Phalcon/Mvc/Controller/MicroController.php:202-221 | opens with beforeDelete and answers the last event fired; only the model changes; never saves; a delete attempt is for the record with that id |
| Micro.OpeningEventAborts | src/Phalcon/Mvc/Controller/MicroController.php:88-221 | a strict false from the opening event answers false with nothing else asked or changed |
| Micro.SaveOnlyPastEveryGate | src/Phalcon/Mvc/Controller/MicroController.php:147-193 | save is attempted exactly when every gate passes on the request data; afterSave fires exactly after a successful save |
| Micro.SaveOfMissingRecord | src/Phalcon/Mvc/Controller/MicroController.php:163-167 | an update of a missing record answers onSaveNotFound and never saves |
| Micro.DeleteOnlyWhenFound | src/Phalcon/Mvc/Controller/MicroController.php:202-221 | a missing record answers onResultsNotFound without a delete attempt; afterDelete fires exactly on success |
| Micro.SearchPaging | src/Phalcon/Mvc/Controller/MicroController.php:96-111 | results are paginated with the query's limit (default pageLimit) and page (default 1) |
| Micro.DefaultListener | src/Phalcon/Mvc/Controller/MicroController.php:256-312 | only onResultsNotFound answers false |
| Micro.DefaultNotFoundStops | src/Phalcon/Mvc/Controller/MicroController.php:256-260 | with the default handler, an empty search and a read of a missing record answer false and change nothing |
| Micro.MicroController.constructor | src/Phalcon/Mvc/Controller/MicroController.php:32-67 | nothing loaded, no results, page size 10 |
| Micro.MicroController.Initialize | src/Phalcon/Mvc/Controller/MicroController.php:72-81 | fails exactly when validationClass or modelClass is empty, with the message naming both |
| Micro.MicroController.SetPageLimit | src/Phalcon/Mvc/Controller/MicroController.php:341-346 | sets the page size |
| Micro.MicroController.SearchHandler | src/Phalcon/Mvc/Controller/MicroController.php:88-112 | answer, fields and interactions are those of Micro.Search |
| Micro.MicroController.ReadHandler | src/Phalcon/Mvc/Controller/MicroController.php:121-138 | answer, fields and interactions are those of Micro.Read |
| Micro.MicroController.SaveHandler | src/Phalcon/Mvc/Controller/MicroController.php:147-193 | answer, fields and interactions are those of Micro.Save |
| Micro.MicroController.SaveLoadedHandler | src/Phalcon/Mvc/Controller/MicroController.php:174-192 | answer, fields and interactions are those of Micro.SaveLoaded |
| Micro.MicroController.DeleteHandler | src/Phalcon/Mvc/Controller/MicroController.php:202-221 | answer, fields and interactions are those of Micro.Delete |

## Left out

- JWT signing and verification are outside the model. The codec is an injected pair of functions; `RoundTrips` is the stated assumption under which `GenerateToken`'s round trip and `ReissueKeepsClaims` hold: a token decodes to its claims exactly when its `nbf`, `exp` and (if present) `iat` make it valid now, which is what the signing library checks.
- PHP session plumbing is outside the model: `session_start`, save handlers, `ini_set`, `session_encode`/`serialize`/`unserialize`, `headers_sent`, `$_SERVER`, the DI container. Payload maps stand for the serialised strings, and the headers flag and server name are parameters.
- `create_sid` is randomness. `Start` takes the fresh id as a parameter.
- JwtSession.JwtAdapter.Start: PHP's session machinery is reduced to "a fresh id when none is set, then read". The handlers `open`, `close` and `destroy` are not modelled, and the class defines no destroy path.
- JwtSession.GenerateToken: a lifetime given as a non-integer option is read as 0, not with PHP's numeric-string conversion.
- JwtSession.JwtAdapter.Write: the cookie expiry is the session's current `exp` attribute, as the code reads `$this->exp`, not the new token's expiry.
- CallbackValidator.Decide: only closures are callable. Callable strings and arrays are treated as plain values, and a closure given as `label` or `message` reads as "".
- CallbackValidator.Validation.constructor: `getValue` and `getLabel` are reduced to map lookups. Filters and entity reads are outside the model.
- Auth.AuthComponent.Authorize: the ACL's evaluation (`isAllowed`, inheritance, default action) is an oracle, as are the events manager's listener responses. `BuildAcl` records what is added, not the framework's checks on unknown roles.
- Auth.UpperFirst: only ASCII letters are raised, as `ucfirst` does in the default "C" locale; other locales are not modelled.
- Auth.AuthComponent.GetAcl: the cache backend is a single `acl` entry.
- Auth.BuildAcl: the allows are built with the corrected expansion, so a bare method name is allowed; the loop as written is modelled by `AllowsAsWritten` (see Findings).
- SlackFormatter: `PHP_EOL` is taken as "\n"; carriage returns are kept, as the source keeps them on such hosts.
- SlackFormatter: the framework line formatter and type names are oracles. `DateTime` construction is reduced to the integer timestamp. The Slack client and the Slack logger adapter are outside the model.
- Crud and Micro: `editAction` of the CRUD controller is not modelled. The events manager's answer depends only on the event name. The default handlers are modelled by their answers and forwards only; their flash messages are left out.
- Micro.Save: the validation gate is the truthiness of what the framework's `validate` returns, which the source negates; what that object is, and so when `onValidationFails` fires, belongs to the framework and is an oracle here.
- Crud and Micro: the framework `Criteria::fromInput` used by search, `find`, `findFirstById`, `save`, `delete`, the form, the validation and the paginator are oracles.
- The IpAddress and Json validators, the Color and DateTimeLocal form elements, and `getEventsManager` are not part of this model.

## Findings

| source | as written | input that shows it | evidently intended | confidence | as-written member | corrected member |
|---|---|---|---|---|---|---|
| src/Phalcon/Mvc/User/Component/AuthComponent.php:234-238 | the resource is added with `(array) $methods`, but the allow loop iterates the uncast `$methods`, so a bare action name allows nothing | resources `['Guest' => ['Index' => 'index']]`: resource Index with ["index"], no allow for (Guest, Index, index) | every method of the cast list is allowed, as for array lists | not executed | Auth.AllowsAsWritten, Auth.ScalarMethodListAllowsNothing | Auth.Allows, Auth.AllowsExactlyListed |
