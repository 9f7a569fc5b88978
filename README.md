# Trello card-archival webhook, modelled in Dafny

The system is one AWS Lambda handler, `lambda_handler` in `lambda_function.py`.
Trello calls it once per webhook delivery. The handler answers the `GET`/`HEAD`
validation handshake, parses the JSON body, and keeps only `updateCard` actions
on a card whose `closed` flag is truthy. For such a delivery it builds a
ten-field archived-card record and inserts it into MongoDB. Every other delivery
stores nothing. Most get a 200; a body `json.loads` rejects gets a 400. For
some shapes Python raises: the handler then returns nothing, and the exception
escapes to the Lambda runtime. Examples are a body that is not a dict, a truthy
`action` that is not a dict, and a `null` card. `PayloadRaises` and `Crashes`
give the complete list.

The model is pure, as the handler is: a straight chain of early returns with no
loop and no mutated state.

- `pyjson.dfy`, module `PyJson`: the decoded JSON value (`Json`), Python
  truthiness (`Truthy`), subscription `v[key]` (`Subscript`), with `dict.get`
  (`Get`) and the never-raising lookup `Field` defined from it, `a or b` (`Or`), and `str()` of a
  value (`PyStr`), including `str()` of an integer (`Decimal`) with its
  round trip. Module `Wrappers` holds `Option`.
- `webhook.dfy`, module `Webhook`: the handler. `Triage` runs the method gate and
  the parse, then `Screen` runs the gates on the body and builds the document
  (lines 24-69). `Persist` classifies the storage outcome
  (lines 72-91). `Handle` composes the two. The event is itself a `Json` value,
  read as the handler reads it: `event["requestContext"]["http"]["method"]`,
  then `event.get("body", "{}")`.
- `properties.dfy`, module `HandlerProperties`: properties that span several
  gates, and concrete deliveries.

Inputs the handler does not compute are parameters:

- `Runtime.loads` is `json.loads`. Its exceptions are `ParseError`, which the
  bare `except` turns into a 400.
- `Runtime.repr` is the interpreter's rendering of a list or dict. An f-string
  uses it only if `shortLink` is a container.
- `StoreResult` is the outcome of getting the client and calling
  `insert_one`: `Inserted(str(inserted_id))` or `StoreFailed(str(e))`.

Exceptions that nothing catches are the outcome `Crash`, not preconditions, so
`Handle` is total. They come from reading `event["requestContext"]["http"]["method"]`
when `requestContext`, `http` or `method` is missing or a level is not a dict,
and from calling `.get` on something that is not a dict: the body, a truthy
`action`, `data`, `card`, `board`, `list` or `memberCreator`. `Triage` raises
at the same points the source does. For example, `board` is checked only after
the card has been found closed. `PayloadRaises` lists these points by lookups
that never raise, and `Triage` raises exactly when it holds.
`NoCrashOnTrelloShapes` proves that the shape Trello sends never crashes.

Some consequences of the code that are easy to miss:

- A body that parses to something other than a dict is not a 400: `body.get`
  raises `AttributeError`, so the outcome is `Crash`.
- `archivedBy` is read from `action.memberCreator`. `action.data.memberCreator`
  is never read.
- The 500 body carries the whole `str(e)`, untruncated.
- `closed` is tested by truthiness, so the string `"false"` counts as archived
  (`StringFalseCountsAsClosed`).
- `stored` records that `insert_one` returned. A driver error raised after the
  server applied the write still gives a 500 with `stored` empty.

## Model

| member | source | states |
|---|---|---|
| `Webhook.Handle` | lambda_function.py:20-91 | A GET/HEAD delivery gets (200, "OK") and stores nothing, whatever its body. The status is always 200, 400 or 500. 400 exactly when the method gate passes and `json.loads` fails. 500 exactly when the delivery is an archival that does not raise and the store call raised. A document is reported stored exactly when the delivery is an archival that does not raise and `insert_one` returned. The stored document is then the reference record of the body. The handler crashes exactly when the method cannot be read or the parsed payload raises (`Crashes`). |
| `Webhook.Triage` | lambda_function.py:24-69 | Each outcome holds exactly under its own condition, so the first gate that fires decides. Raise iff `Crashes`. "OK" iff GET/HEAD. "Invalid JSON" iff past the method gate and `json.loads` fails. The rest hold past the method gate on a dict body. "No action" iff the action is falsy or absent. "Ignored" iff a truthy dict action whose type is not exactly "updateCard". "Not archived" iff an updateCard whose `data` and `card` are dicts or absent and whose `closed` is falsy or absent. A document iff an archival that does not raise, and it equals `ExpectedDocument` of the parsed body. No other response. |
| `Webhook.Screen` | lambda_function.py:34-69 | On the parsed body: raises iff `PayloadRaises`. "No action", "Ignored", "Not archived" and a stored document each hold iff their condition holds. The document is the reference record of the body. |
| `Webhook.Persist` | lambda_function.py:72-91 | Always replies: no storage exception escapes. The document is reported stored iff `insert_one` returned, and the reply is then (200, saved with the inserted id). The status is 500 iff the store call raised, and the body is then "MongoDB error: " followed by the driver's message. |
| `Webhook.Document.ToJson` | lambda_function.py:52-69 | The dict handed to `insert_one` has exactly the ten document keys, and each key holds its record field: `shortUrl` as a string, every other field unchanged. |
| `Webhook.DocumentHasTenKeys` | lambda_function.py:52-69 | The stored dict has exactly ten keys. |
| `Webhook.DocumentKeysCount` | lambda_function.py:53-67 | The ten key names are pairwise distinct. |
| `PyJson.FalsyValues` | lambda_function.py:35 | Python truthiness: a value is falsy iff it is one of `None`, `False`, `0`, `""`, `[]` or `{}`. Anything else, such as the string "false", is truthy. |
| `PyJson.Or` | lambda_function.py:57 | `a or b` returns one of its operands. The result is truthy iff either operand is. A truthy first operand is returned as is, and a falsy one yields the second operand. |
| `PyJson.Digits` | lambda_function.py:56 | `str()` of a non-negative integer is a non-empty string of decimal digits, with a leading zero only for 0 itself. |
| `PyJson.DigitsRoundTrip` | lambda_function.py:56 | Reading the digits of `n` back gives `n`. |
| `PyJson.DecimalRoundTrip` | lambda_function.py:56 | `int(str(i)) == i` for every integer, and `str(i)` is an optional minus sign followed by digits. |
| `PyJson.DecimalInjective` | lambda_function.py:56 | Distinct integer `shortLink`s give distinct strings. |
| `HandlerProperties.NoCrashOnTrelloShapes` | lambda_function.py:34-67 | No exception escapes the handler when the method can be read and the payload has Trello's shape. That shape is a dict body, and a truthy action that is a dict whose data, memberCreator, card, board and list are dicts where present. |
| `HandlerProperties.StoredIffArchival` | lambda_function.py:34-77 | On such payloads, a document is stored iff the method is not GET/HEAD, the body parses, `action` is truthy, `action.type` is "updateCard", `card.closed` is truthy, and the insert succeeds. |
| `HandlerProperties.OpenCardIsNotArchived` | lambda_function.py:39-49 | On Trello's shape, an updateCard whose `card.closed` is absent or falsy is answered (200, "Not archived") and nothing is stored. |
| `HandlerProperties.NonObjectBodyCrashes` | lambda_function.py:34 | A body that parses to something other than a dict crashes at `body.get`; it is not answered 400. |
| `HandlerProperties.NonDictActionCrashes` | lambda_function.py:34-39 | A truthy `action` that is not a dict, such as a non-empty string, crashes at `action.get`. |
| `HandlerProperties.NullCardCrashes` | lambda_function.py:42-48 | An updateCard whose `data.card` is an explicit `null` crashes at `card.get("closed")`. |
| `HandlerProperties.MissingBodyIsNoAction` | lambda_function.py:29-36 | A delivery without a `body` key is parsed as "{}" and answered "No action". |
| `HandlerProperties.NonStringBodyIsInvalidJson` | lambda_function.py:29-32 | A `body` that is `null` or any other non-string is answered (400, "Invalid JSON") whatever `json.loads` does with strings. |
| `HandlerProperties.ShortUrlPrefixed` | lambda_function.py:56 | Every stored `shortUrl` starts with "https://trello.com/c/" and continues with `str(shortLink)`: the string itself, "None" when absent, or the decimal of an integer. |
| `HandlerProperties.ShortUrlDeterminesLink` | lambda_function.py:56 | Two stored records with the same `shortUrl` have the same `shortLink` when both links are strings or both are integers. |
| `HandlerProperties.DateClosedFallback` | lambda_function.py:57-62 | `archivedAt` is the action's date. `dateClosed` is the card's own value when truthy, and otherwise equals `archivedAt`. |
| `HandlerProperties.ArchivedByIgnoresDataMemberCreator` | lambda_function.py:67 | The record does not depend on `action.data.memberCreator`. `archivedBy` comes from `action.memberCreator.fullName`. |
| `HandlerProperties.ScenarioEvent` | lambda_function.py:24-30 | A POST event with a string body passes the method gate, and its body text is what `json.loads` receives. |
| `HandlerProperties.ScenarioShape` | lambda_function.py:39-48 | The sample archival payload has Trello's shape, type "updateCard", and the given `closed` value. |
| `HandlerProperties.ScenarioExpectedDocument` | lambda_function.py:52-69 | The sample payload maps to the record of card c1. Its `dateClosed` falls back to the action date because the card has none. |
| `HandlerProperties.ArchiveScenario` | lambda_function.py:52-84 | The sample archival delivery stores exactly that record and replies (200, saved with the inserted id). |
| `HandlerProperties.StringFalseCountsAsClosed` | lambda_function.py:48-49 | A card whose `closed` is the string "false" is stored as archived. |
| `HandlerProperties.OpenCardScenario` | lambda_function.py:48-49 | The same card with `closed` false is answered "Not archived" and nothing is stored. |
| `HandlerProperties.StoreFailureScenario` | lambda_function.py:86-91 | When the insert fails, the sample delivery is answered 500 with "MongoDB error: " and the message, and no document is reported stored. |

## Left out

- `get_mongo_client`, `MongoClient` and its options (TLS, `serverSelectionTimeoutMS`), the database and collection lookup, and `insert_one`. These are network I/O. Their combined outcome is the input `StoreResult`.
- The lazy global client (lambda_function.py:11-17) and its cold-start race. It is process-wide caching that does not change a single invocation's result.
- `insert_one` adding `_id` to the document dict in place. The handler never reads the dict again.
- The environment-variable reads (lambda_function.py:6-8) are configuration, and the `print` calls are logging only.
- The unused `context` argument.
- `json.loads` is a parameter and is not modelled.
- The text `json.dumps` makes of the success body. It is kept as `Saved(insertedId)`, the two fields the dict holds.
- `PyStr`: `str()` of a list or dict `shortLink` is the parameter `Runtime.repr`. Python's quoting and escaping rules for `repr` are not modelled.
- JSON numbers are integers. The floats `json.loads` returns for `1.5` or `1e3` are not modelled, so neither is their truthiness nor their `str()`.
- `Crash` does not say which exception was raised. What the Lambda runtime returns to the caller after an uncaught exception is also not modelled.
- The commented-out `description` field and the `archivedBy` sub-object (lambda_function.py:55, 64-66) are dead code.
- Duplicate deliveries: the handler keeps no state between calls, so a redelivered archival is stored again. The model has no store contents to show this.
- `Webhook.Persist`: `stored` means that `insert_one` returned. A driver error raised after the server applied the write (a timeout while waiting for the acknowledgement, say) leaves the record in the collection although the reply is 500. The model has no collection contents, so it cannot say this.
