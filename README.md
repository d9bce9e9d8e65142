# Nimble CRM utilities — a Dafny model

This project models `utilNimble.js`, the three functions a web application uses to talk to the
Nimble CRM:

- `fetchContactId(email)` looks up a user's Nimble id in the database. If the query fails, the
  error is logged and swallowed.
- `updateContact(contactId, fields, replace = false)` folds a list of `{key, value, modifier}`
  updates into a request body. It then builds the contact's endpoint URL and sends an HTTP PUT.
- `updateSimpleFlag(email, fieldName, fieldValue)` sets one yes/no field. It chains the two
  calls above and shapes the result: a confirmation record, the string
  `"<email> does not exist in Nimble"`, or nothing.

The model is two modules:

- `Wrappers` (`wrappers.dfy`) holds `Option` and `Result`. `Option` stands for JavaScript's
  `undefined`; `Result` stands for a promise that was fulfilled or rejected.
- `UtilNimble` (`nimble.dfy`) holds the rest.

External effects enter as values:

- The database query is a `QueryResult`: exactly one row, whose `nimble_id` may be null, or a
  failed query.
- Nimble itself is a function `crm: Request -> Option<Response>` from the PUT that was sent to
  the reply body. `None` means the HTTP error was swallowed.
- `updateSimpleFlag` returns a `FlagRun`: the PUT it issued, if any, and the value it resolved
  to. This makes "no update is sent" something the model can state.

`updateContact` changes local state step by step. It mutates `body.fields` in a loop and appends
to `endpoint`. A `method` therefore models it, with a loop invariant, proved against the pure
functions `FieldsMap`, `Endpoint` and `RequestOf`. `updateSimpleFlag` and `fetchContactId` are
expression chains, so functions model them. `UpdateSimpleFlag` follows the promise chain
explicitly:

- The first `.then` either issues the PUT or throws the `"not in nimble"` sentinel.
- The second `.then` (`FormatResult`) reads `results.id` and `results.fields[fieldName][0].value`.
  Only a read of a property of `undefined` throws a `TypeError`: of `results` when there is no
  reply, of `results.fields` when it is missing, and of `fields[fieldName]` or its `[0]` when they
  are missing. A missing `id` or `value` on a present object just reads as `undefined`.
- The `.catch` (`Catch`) checks the error's message against the sentinel, as the source does.

Details of the JavaScript semantics that the model keeps:

- The id passes `if (nimbleId)` only when it is present and non-empty (`Truthy`).
- An echoed entry with no `value` renders as `"undefined"` in the template literal. An echoed
  boolean renders as `"true"` or `"false"`.
- When `fieldName` is `"id"`, the write `ret[fieldName] = …` (line 99) replaces the `id` set on
  line 98.
- Assigning to the key `"__proto__"` on a plain object calls the prototype setter and adds no own
  property (`AssignProperty`). So an update for `__proto__` adds nothing to the body sent
  (line 51), and the result record for the field name `__proto__` holds only `id` (line 99).

A failed lookup (no row, several rows, store unreachable) is logged and resolves to `undefined`
(lines 31-33); a row whose `nimble_id` is NULL resolves to `null` (line 30). Both come back falsy,
so `updateSimpleFlag` cannot tell them apart; `LookupFailureLooksLikeNullId` records this.

Helpers without a row of their own: `ToRecord` is the `{value, modifier}` literal of lines 51-54;
`Echoes` and `Updated` say when the read chain of line 99 finds a defined object at every step
(a reply, its `fields`, `fields[fieldName]` and its `[0]`).

## Model

| member | source | states |
|---|---|---|
| `UtilNimble.FetchContactId` | utilNimble.js:28-34 | an id comes back exactly when the query returned one row with a non-null `nimble_id`, and that id is returned unchanged; a failed query gives nothing |
| `UtilNimble.LookupFailureLooksLikeNullId` | utilNimble.js:29-34 | a rejected query, a row whose id is null and a row whose id is empty lead updateSimpleFlag to the same run, since all three are falsy at line 93 |
| `UtilNimble.LastIndexOf` | utilNimble.js:50-55 | reference definition for "last update with key k": the index found names k and no later update does; -1 exactly when no update has key k |
| `UtilNimble.Endpoint` | utilNimble.js:58-59 | the URL is the Nimble contact prefix, then the id, then `?replace=1` when `replace` is set and nothing more when it is not; `replace` defaults to false |
| `UtilNimble.AssignProperty` | utilNimble.js:51 | a plain-object assignment `obj[k] = v`: it writes `k`, overwriting an earlier value and leaving other keys alone, except that `__proto__` adds no own key |
| `UtilNimble.FieldsMap` | utilNimble.js:50-55 | the fields object the forEach builds from the updates in order; it never holds `__proto__`, and each of its fields is a one-element list |
| `UtilNimble.BodyOf` | utilNimble.js:44-55 | the request body: record type `"person"`, and fields for exactly the keys the updates name, `__proto__` excepted, and each key holds the record `[{value, modifier}]` of its last update |
| `UtilNimble.RequestOf` | utilNimble.js:42-65 | the PUT: its URL is the contact prefix, then the id, then `?replace=1` when `replace` is set and nothing more when it is not; its body is the person body with the updates' keys, and each key holds the record `[{value, modifier}]` of its last update |
| `UtilNimble.UpdateContact` | utilNimble.js:42-73 | the PUT it sends is `RequestOf` the id, updates and flag: record type `"person"`, the fields map built by applying the updates in order, and the endpoint for the id and flag; the reply is what Nimble answers to that same request |
| `UtilNimble.FieldsMapKeys` | utilNimble.js:44-55 | the body's field keys are exactly the keys named in the updates, except `__proto__` (so no updates give an empty map) |
| `UtilNimble.FieldsMapLastWins` | utilNimble.js:50-55 | a key other than `__proto__` is in the body iff some update names it, and then it holds the one-element list `[{value, modifier}]` of the last update with that key: later duplicates overwrite earlier ones |
| `UtilNimble.FieldsMapAppend` | utilNimble.js:50-55 | folding `xs + ys` gives the fields of `xs` overridden by the fields of `ys` |
| `UtilNimble.EndpointInjective` | utilNimble.js:58-59 | with the same replace flag, two ids with the same endpoint are the same id |
| `UtilNimble.FlagText` | utilNimble.js:86 | the flag is sent as `"yes"` exactly when it is true and as `"no"` exactly when it is false |
| `UtilNimble.FlagFields` | utilNimble.js:83-89 | the update list has exactly one entry: key `fieldName`, modifier `""`, value `"yes"` iff the flag is true and `"no"` iff it is false |
| `UtilNimble.FlagBody` | utilNimble.js:83-94 | the body a flag update sends is `{fields: {fieldName: [{value: "yes"/"no", modifier: ""}]}, record_type: "person"}`, or has no fields when `fieldName` is `__proto__` |
| `UtilNimble.Truthy` | utilNimble.js:93 | the looked-up id passes `if (nimbleId)` exactly when it is neither `undefined` nor the empty string |
| `UtilNimble.ErrorMessage` | utilNimble.js:96-104 | only the sentinel error carries the message `"not in nimble"`; no TypeError from a property read does |
| `UtilNimble.Render` | utilNimble.js:99 | how the template literal renders the echoed value: a string as itself, a boolean as `"true"` or `"false"`, a missing value as `"undefined"` |
| `UtilNimble.FlaggedMessage` | utilNimble.js:99 | the echoed message is `"Flagged in Nimble: "` followed by the rendered value of `fields[fieldName][0].value` |
| `UtilNimble.FormatResult` | utilNimble.js:97-100 | formatting succeeds exactly when a reply is present and echoes `fields[fieldName][0]`; the record then has keys `id` and `fieldName` (only `id` when `fieldName` is `__proto__`), with `fieldName` set to the flagged message, and `id` set to the reply's id unless `fieldName` is `"id"`; every failure is a TypeError |
| `UtilNimble.NotFoundMessage` | utilNimble.js:103 | the not-found string is the email followed by `" does not exist in Nimble"` |
| `UtilNimble.Catch` | utilNimble.js:101-105 | a caught error gives the not-found string exactly when it is the sentinel; any other error gives nothing |
| `UtilNimble.UpdateSimpleFlag` | utilNimble.js:82-106 | a PUT is issued iff the looked-up id is truthy, and it is the one-entry flag update to that id with replace off; the result is the not-found string iff no PUT was issued; it is a record iff the PUT was issued and the reply echoes the field; otherwise it is nothing |
| `UtilNimble.FlaggedRecord` | utilNimble.js:97-100 | after a successful update the result is `{id: reply.id, [fieldName]: "Flagged in Nimble: " + echoed value}` |
| `UtilNimble.SingleFieldRequest` | utilNimble.js:42-59 | one update `{k, v, m}` with replace omitted gives the PUT to `…/contact/7` with body `{fields: {k: [{value: v, modifier: m}]}, record_type: "person"}` |
| `UtilNimble.ProtoFieldDropped` | utilNimble.js:50-55 | an update for `__proto__` leaves the body sent with no fields |
| `UtilNimble.ReplaceRequest` | utilNimble.js:58-59 | with replace set, the URL ends in `?replace=1` |
| `UtilNimble.GhostEmail` | utilNimble.js:91-103 | a failed lookup for `ghost@example.com` gives exactly `"ghost@example.com does not exist in Nimble"` and sends no PUT |
| `UtilNimble.VipFlagged` | utilNimble.js:97-100 | a reply `{id: "42", fields: {vip: [{value: "yes"}]}}` gives `{id: "42", vip: "Flagged in Nimble: yes"}` |

## Left out

- `null` versus `undefined`: the looked-up id is `None` for both a NULL column (`null`, line 30)
  and a rejected query (`undefined`, lines 31-33). Only their shared falsiness at line 93 is
  used. A `null` echoed `value`, which line 99 would render as `"null"`, is not modelled: a
  missing echoed value is `None` and renders as `"undefined"`.
- The database query `db.one(...)` and its "exactly one row" rule (line 29). They are external;
  the model takes the query's outcome as an input.
- The HTTP PUT, JSON serialisation and the `Authorization: Bearer` header built from
  `config.nimble.API_KEY` (lines 62-73). These are network I/O and a configuration singleton.
  The model keeps the URL and the body; Nimble's reply is an input function.
- The Bluebird/superagent promise machinery and async scheduling (lines 7-8, 62). Each chain is
  modelled as straight-line code; concurrent calls share no state in the source.
- The `console.log` diagnostics (lines 32, 71, 104). They are logging only.
- JavaScript values beyond those the source relies on. Field values are strings or booleans. A
  reply is a record whose `id` and `fields` may be missing; a reply body that is `null` or not an
  object is not modelled. A `nimble_id` that is not a string is not modelled.
- Inherited properties on reads: in JavaScript, `results.fields[fieldName]` for a missing name such
  as `"constructor"` or `"__proto__"` finds a prototype property instead of `undefined`. Its `[0]`
  is then `undefined`, so the read still throws a TypeError and the call still resolves to
  nothing; the model only names a different property in that TypeError. Writes of `__proto__` at
  lines 51 and 99 are modelled (`AssignProperty`). Other keys that the prototype defines only as
  accessors do not occur on plain objects.
- The exact wording of TypeError messages depends on the JavaScript engine. The model uses one
  fixed form; it relies only on that form differing from `"not in nimble"`.
