# Vision6 JSON-RPC client: a Dafny model

This project models the client factory of the Vision6 JSON-RPC client library
(`src/index.js`) and proves what it promises.

- **Construction.** The factory takes an API key and an optional host. It
  rejects a falsy key with "Invalid Vision6 API Key". It replaces a falsy host by
  the production endpoint. It selects the `https` transport exactly when the
  host's first five characters are `https`.
- **`call`.** Each call defaults `options` to a new empty array. It prepends
  the key to the caller's array in place. Then it waits for the schema document,
  which is loaded once per process. It validates `{args: options}` against the
  method's request schema. Only then does it send one JSON-RPC request, carrying
  the validated `args`. Last, it maps the response envelope to a resolved value
  or a rejection.
- **Named methods.** About thirty named methods each build a fixed-order
  argument array. They replace optional falsy arguments by defaults with
  JavaScript's or-operator and hand the array to `call` under their own name.

Modules:

- `JsValues` (JsValues.dfy) covers the JavaScript values and operators the
  client relies on: truthiness, the or-operator, property lookup and
  `substr`. It also holds the promise outcomes and the errors.
- `Validator` (Validator.dfy) is the validator module of `src/validator.js`,
  kept abstract. Loading the schema document is one fixed outcome per
  process, and the compiled schema's verdict is an oracle function. Only the
  rule that an undefined payload is rejected is modelled.
- `Vision6` (Vision6.dfy) holds the factory, the envelope mapping and `call`.
  `Pipeline` is a pure specification of the pipeline. The `Client` class has
  the closure's state as fields: the key, host, protocol, the shared validator
  module and the `schema_loaded` flag. Its method `Call` updates the flag and
  the caller's array (a `JsArray` object) in place, and is proved against
  `Pipeline`. A ghost trace `sent` records every request handed to the
  transport, so "no request before successful validation" can be stated.
- `Methods` (Methods.dfy) holds the named methods, as pure functions from their
  arguments to the `Invocation` (name and argument array) they pass to `call`.
  Each is specified against a parameter list (`Shape`): required positions pass
  through, and optional ones get their default when falsy.
  `Client.Invoke` runs such an invocation through `call`.

Facts about the code that the model keeps:

- The factory rejects any falsy key, including `0`, `false` and `null`
  (`src/index.js:16`).
- `call` prepends the key to the caller's own array with `unshift`, so the
  caller sees the change (`src/index.js:38`).
- The schema load promise is created once, when the validator module is
  loaded, and is never retried: every later call sees the same rejection
  (`src/validator.js:47`).
- The host is defaulted before the key is checked (`src/index.js:14-18`). A
  truthy host that is not a string fails with a TypeError, because it has no
  `substr`.
- If the validator resolved with `null` or `undefined`, reading `data.args`
  (`src/index.js:60`) would throw, so the call rejects and sends nothing.

## Model

| member | source | states |
|---|---|---|
| JsValues.Truthy | src/index.js:16 | a value is truthy iff it is none of the five falsy values `undefined`, `null`, `false`, `0`, `""`; arrays and objects, even empty ones, are truthy |
| JsValues.Get | src/index.js:64-68 | reading a member of a value other than `null`/`undefined` gives an object's own property, and `undefined` when there is none |
| JsValues.Message | src/index.js:17 | the falsy-key error carries "Invalid Vision6 API Key"; the undefined-payload error carries "Payload is undefined", as written at src/validator.js:28; every error has a message |
| JsValues.Or | src/index.js:14 | JavaScript's or-operator yields the left operand when it is truthy and the right one otherwise; the result is truthy iff either operand is |
| JsValues.Substr | src/index.js:21 | `host.substr(0, 5)` has at most five characters, each equal to the host's character at the same position: exactly five when the host is that long, and the whole host when it is shorter |
| JsValues.SubstrPrefix | src/index.js:21 | `s.substr(0, |p|) === p` holds iff `p` is a prefix of `s` |
| Vision6.SelectProtocol | src/index.js:20-23 | the protocol is `https` iff the host starts with `https`, otherwise `http` |
| Vision6.Construct | src/index.js:11-23 | construction fails with the invalid-key error iff the key is falsy; a falsy host becomes the production URL, which selects `https`; a string host is kept and selects `https` iff it starts with `https`; a truthy non-string host fails with the TypeError "host.substr is not a function"; on success the settings hold the given key |
| Vision6.NewClient | src/index.js:11-28 | the factory returns a fresh client holding the constructed settings with `schema_loaded` down and no request sent, or exactly the construction error |
| Vision6.Client.constructor | src/index.js:25-26 | a new client starts with `schema_loaded` false and no request sent |
| Vision6.Interpret | src/index.js:64-72 | the call rejects iff the envelope's `error` is truthy, with that value; otherwise it resolves with `result` when `result` is defined (falsy included) and with the whole envelope when it is not; reading a member of `null`/`undefined` is a TypeError |
| Vision6.EnvelopeExamples | src/index.js:64-72 | `{result: R}` resolves with R; `{error: "boom"}` rejects with it; a null error with a `false` result resolves with `false`; `{}` resolves with `{}` |
| Vision6.Pipeline | src/index.js:42-74 | at most one request is sent, and one is sent iff the load gate is open (flag up or load succeeded) and validation of `{args: options}` succeeded with a value that is neither `null` nor `undefined`; the request carries the validated payload's `args`, not the raw options; a failed load rejects with the load error before validation; every unsent call rejects with the load error, the validation error, or the TypeError of reading `args` of `null`/`undefined`; a sent call's outcome is the transport error or the envelope mapping |
| Vision6.GateSkipIsSound | src/index.js:43-54 | once the load succeeded, skipping the gate (flag up) gives exactly the outcome and requests of going through it |
| Vision6.CredentialInjection | src/index.js:37-38 | when the schema accepts the payload unchanged, the one request carries the key first and then exactly the caller's arguments in order |
| Vision6.JsArray.Unshift | src/index.js:38 | `unshift` puts the key in front of the array's elements in place and returns the new length |
| Vision6.Client.Call | src/index.js:36-75 | the caller's array itself (or a fresh empty one for an absent/falsy `options`) now holds the key followed by its old elements, whatever the outcome; `schema_loaded` goes up iff the load succeeded and never comes down; the outcome and the requests appended to the trace are those of `Pipeline` |
| Vision6.Client.Invoke | src/index.js:88-91 | a named method's `this.call(name, [...])` on a fresh array literal (or no array) behaves as `Pipeline` on the key followed by that literal |
| Validator.Registry.constructor | src/validator.js:47-53 | the validator module holds one load outcome and one schema, fixed for the process |
| Validator.RequestSchemaRef | src/index.js:57 | the reference is `vision6/methods/` followed by the method name and `#/requestSchema`, and the name can be read back from it |
| Validator.RequestSchemaRefInjective | src/index.js:57 | two methods with the same request-schema reference are the same method |
| Validator.Validate | src/validator.js:21-45 | an undefined payload is rejected whatever the schema's verdict; any other payload gets the schema's verdict |
| Methods.Shape | src/index.js:263-271 | an argument array has one element per parameter; a required or truthy argument is passed as given and a falsy optional one is replaced by its default |
| Methods.AddField | src/index.js:87-92 | `addField` calls `call` under its own name with 2 arguments, in order: `list_id`; `field_details` |
| Methods.AddList | src/index.js:99-103 | `addList` calls `call` under its own name with 1 arguments, in order: `list_details` |
| Methods.ClearList | src/index.js:110-114 | `clearList` calls `call` under its own name with 1 arguments, in order: `list_id` |
| Methods.CountFields | src/index.js:122-127 | `countFields` calls `call` under its own name with 2 arguments, in order: `list_id`; `search_criteria`, or `[]` when it is falsy |
| Methods.CountLists | src/index.js:134-138 | `countLists` calls `call` under its own name with 1 arguments, in order: `search_criteria`, or `[]` when it is falsy |
| Methods.DeleteField | src/index.js:146-151 | `deleteField` calls `call` under its own name with 2 arguments, in order: `list_id`; `field_id` |
| Methods.DeleteList | src/index.js:158-162 | `deleteList` calls `call` under its own name with 1 arguments, in order: `list_id` |
| Methods.EditField | src/index.js:170-175 | `editField` calls `call` under its own name with 2 arguments, in order: `list_id`; `field_details` |
| Methods.EditList | src/index.js:182-186 | `editList` calls `call` under its own name with 1 arguments, in order: `list_details` |
| Methods.GetFieldById | src/index.js:194-199 | `getFieldById` calls `call` under its own name with 2 arguments, in order: `list_id`; `field_id` |
| Methods.GetFolderIdForField | src/index.js:207-212 | `getFolderIdForField` calls `call` under its own name with 2 arguments, in order: `list_id`; `field_id` |
| Methods.GetListById | src/index.js:219-223 | `getListById` calls `call` under its own name with 1 arguments, in order: `list_id` |
| Methods.GetTimezoneList | src/index.js:229-231 | `getTimezoneList()` calls `call` under its own name with no argument array |
| Methods.SearchFields | src/index.js:243-252 | `searchFields` calls `call` under its own name with 6 arguments, in order: `list_id`; `search_criteria`, or `[]` when it is falsy; `limit`, or `0` when it is falsy; `offset`, or `0` when it is falsy; `sort_by`, or `'name'` when it is falsy; `sort_order`, or `'ASC'` when it is falsy |
| Methods.SearchLists | src/index.js:263-271 | `searchLists` calls `call` under its own name with 5 arguments, in order: `criteria`, or `[]` when it is falsy; `limit`, or `100` when it is falsy; `offset`, or `0` when it is falsy; `sort_by`, or `'name'` when it is falsy; `sort_order`, or `'ASC'` when it is falsy |
| Methods.SetFieldFolderId | src/index.js:280-286 | `setFieldFolderId` calls `call` under its own name with 3 arguments, in order: `list_id`; `field_id`; `folder_id` |
| Methods.AddContacts | src/index.js:300-307 | `addContacts` calls `call` under its own name with 4 arguments, in order: `list_id`; `contacts`; `overwrite`, or `false` when it is falsy; `remove_unsubscribers`, or `0` when it is falsy |
| Methods.ConfirmContact | src/index.js:315-320 | `confirmContact` calls `call` under its own name with 2 arguments, in order: `list_id`; `contact_id` |
| Methods.CountContacts | src/index.js:328-333 | `countContacts` calls `call` under its own name with 2 arguments, in order: `list_id`; `search_criteria`, or `[]` when it is falsy |
| Methods.CountPreviousUnsubscribers | src/index.js:341-346 | `countPreviousUnsubscribers` calls `call` under its own name with 2 arguments, in order: `list_id`, or `0` when it is falsy; `criteria`, or `[]` when it is falsy |
| Methods.DeactivateContact | src/index.js:354-359 | `deactivateContact` calls `call` under its own name with 2 arguments, in order: `list_id`; `contact_id` |
| Methods.DeleteContacts | src/index.js:372-382 | `deleteContacts` calls `call` under its own name with 7 arguments, in order: `list_id`; `contact_ids`; `search_criteria`, or `[]` when it is falsy; `limit`, or `0` when it is falsy; `offset`, or `0` when it is falsy; `sort_by`, or `null` when it is falsy; `sort_order`, or `null` when it is falsy |
| Methods.EditContacts | src/index.js:391-397 | `editContacts` calls `call` under its own name with 3 arguments, in order: `list_id`; `contacts`; `trigger_update_profile`, or `false` when it is falsy |
| Methods.GetContactById | src/index.js:406-412 | `getContactById` calls `call` under its own name with 3 arguments, in order: `list_id`; `contact_id`; `returned_fields`, or `['all']` when it is falsy |
| Methods.ReactivateContact | src/index.js:420-425 | `reactivateContact` calls `call` under its own name with 2 arguments, in order: `list_id`; `contact_id` |
| Methods.ResubscribeContact | src/index.js:433-438 | `resubscribeContact` calls `call` under its own name with 2 arguments, in order: `list_id`; `contact_id` |
| Methods.SearchContacts | src/index.js:451-461 | `searchContacts` calls `call` under its own name with 7 arguments, in order: `list_id`; `search_criteria`, or `[]` when it is falsy; `limit`, or `0` when it is falsy; `offset`, or `0` when it is falsy; `sort_by`, or `null` when it is falsy; `sort_order`, or `null` when it is falsy; `returned_fields`, or `['all']` when it is falsy |
| Methods.SearchPreviousUnsubscribers | src/index.js:473-482 | `searchPreviousUnsubscribers` calls `call` under its own name with 6 arguments, in order: `list_id`, or `0` when it is falsy; `search_criteria`, or `[]` when it is falsy; `limit`, or `0` when it is falsy; `offset`, or `0` when it is falsy; `sort_by`, or `null` when it is falsy; `sort_order`, or `null` when it is falsy |
| Methods.SubscribeContact | src/index.js:490-495 | `subscribeContact` calls `call` under its own name with 2 arguments, in order: `list_id`; `contact_details` |
| Methods.UnsubscribeContact | src/index.js:503-508 | `unsubscribeContact` calls `call` under its own name with 2 arguments, in order: `list_id`, or `0` when it is falsy; `email_address` |
| Methods.UnsubscribeContactById | src/index.js:516-521 | `unsubscribeContactById` calls `call` under its own name with 2 arguments, in order: `list_id`; `contact_id` |
| Methods.SearchListsWithoutArguments | test/list_methods.js:14 | `searchLists()` sends `[]`, `100`, `0`, `'name'`, `'ASC'` |
| Methods.SearchListsWithAllArguments | test/list_methods.js:26 | `searchLists` with criteria, limit 1, offset 0, `'creation_time'`, `'DESC'` sends them as given (the `0` offset becomes the default `0`) |
| Methods.SearchListsLimit | src/index.js:266 | an explicit limit of `0` becomes `100`; a truthy limit is sent unchanged |
| Methods.SearchContactsDefaults | src/index.js:451-461 | `searchContacts(list_id)` sends seven arguments with `null` sort key and order and `['all']` fields |
| Methods.AddContactsDefaults | src/index.js:300-307 | `addContacts(list_id, contacts)` sends `false` for overwrite and `0` for remove_unsubscribers |
| Methods.GetTimezoneListSendsOnlyKey | src/index.js:229-231 | `getTimezoneList()` passes no array, and the request carries the key alone |
| Methods.SearchListsRequestWithoutArguments | src/index.js:263-271 | end to end, `searchLists()` sends the key followed by the five defaults in order |

## Left out

- The JSON Schema engine and the schema document are not modelled: compilation, type coercion, format checks, the text of validation errors, and `$ref` dereferencing. The compiled schema's verdict is a function parameter (`Validator.Schema`).
- The schema's coercion happens in place in the real engine, so it can change the caller's array after the key is prepended. The model keeps the caller's array as the key plus the original elements and sends the validated copy's `args`.
- The JSON-RPC transport and the network are not modelled. Each call is given the transport's behaviour as a function from request to envelope or failure (`Vision6.Transport`).
- Promises and asynchronous scheduling are flattened into one sequential step per call. Concurrent callers and the single-flight sharing of the in-flight load are not modelled beyond the one fixed load outcome.
- The `debug` logging calls are not modelled; they only produce output.
- Numbers are integers: `NaN`, `-0` and fractions (and their truthiness) are not modelled.
- Vision6.Client.Call: an `options` value that is truthy but not an array (which makes `unshift` throw a TypeError) is not modelled. A null `options` stands for any absent or falsy value.
- Vision6.Interpret: the rejection carries the envelope's `error` value itself. The conversion of that value to a message string by `new Error(...)` is not modelled, and `JsValues.Message` gives only a generic message for it.
- JsValues.Message: the texts of TypeErrors, load failures, validation errors and transport failures are written by the JavaScript runtime and the libraries, not by the client; the model gives them placeholder texts.
- Vision6.Client.Invoke: each named method calls `this.call`, so replacing the object's `call` member redirects every named method and a named method called detached from its object throws; the model always runs `Client.Call` and does not capture either.
- JsValues.Get: inherited and prototype properties are not modelled; only an object's own properties are read, and every other value has none.
- The test files are live-service integration tests and their configuration loading (`test/lib/client.js`); they are used only as evidence of how the methods are called.
