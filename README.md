# Webhook receiver, modelled in Dafny

A model of `api/webhook.js`, a single-endpoint webhook receiver. A POST
carries a JSON payload. The handler picks out its structured data, derives an
analysis (a summary sentence, a success flag and fixed key points) and puts an
event at the front of an in-memory list. A GET returns the whole list. Every
other method gets 405.

Modules, one file each:

- `Wrappers` (`wrappers.dfy`): `Option` (None is JavaScript's `undefined`) and `Result` (a value or an exception message).
- `JsonValue` (`json.dfy`): parsed JSON values with integer numbers, JavaScript truthiness (`Truthy`), property reads (`Prop`, `OptProp` for `?.`) and `||` (`Or`).
- `JsString` (`js_string.dfy`): the ToString a template literal applies. It covers integers (`Decimal`), strings, booleans and null. Objects print as `[object Object]`. Arrays are joined with `,`, and null elements print as empty. An object with its own `toString` key makes the conversion throw.
- `Extraction` (`extraction.dfy`): the `||` chain that finds the structured data.
- `Analysis` (`analysis.dfy`): `buildAnalysis`.
- `Webhook` (`webhook.dfy`): the event, the request and response shapes, and the pure outcome of a POST (`EventFor`, `PostOutcome`). It also holds the `EventStore` class, whose `events: seq<Event>` field is updated in place by `Post` and `Handle` and read by `Get`.

Definitions without a contract of their own, and the source lines each one models:

- `JsonValue.Truthy` and `JsonValue.TruthyOpt`: the truthiness tests of the `||` chain and of `if (structuredData)` (api/webhook.js:13-18, 23) and of `!structuredData || structuredData.note` (api/webhook.js:64).
- `JsonValue.Prop` and `JsonValue.OptProp`: the property reads `payload.x` and `payload.x?.y` (api/webhook.js:14-17) and `structuredData.<field>` (api/webhook.js:64, 76-80).
- `JsString.ToStr`, `JsString.Decimal` and `JsString.JoinWithCommas`: the conversion of each value interpolated into the template literal (api/webhook.js:83).
- `Extraction.Probes`: the four probed locations of a non-null payload, in priority order (api/webhook.js:14-17).
- `Analysis.UsesFallback`: the fallback test (api/webhook.js:64).
- `Analysis.FieldOr`: the five `structuredData.<field> || default` lines (api/webhook.js:76-80).
- `Analysis.Template`: the template literal of the summary (api/webhook.js:83).
- `Webhook.Wrapper`: the object stored when no structured data was found (api/webhook.js:31).
- `Webhook.PostOutcome`: the try block of the POST branch, where a body-read or parse failure goes straight to the 400 answer (api/webhook.js:6-8, 38-40).

Some of the handler's behaviour differs from what a plain reading of it suggests. The model follows what the code does:

- Extraction tests truthiness, not non-nullness. A falsy `structuredData` (0, `""`, false) gives way to the next candidate.
- A payload that parses to `null` is not stored. Reading `structuredData` of null throws at line 14, and the handler answers 400.
- `buildAnalysis` is not total. If a truthy field it interpolates is an object with its own `toString` key, the template literal throws a TypeError (an array holding such an object does the same). The handler then answers 400 and stores nothing. JSON cannot make that key callable, so conversion falls through to `valueOf`, which returns an object.
- `successEvaluation` is false for every event whose stored `structuredData` has a truthy `note`. That covers the fallback wrapper and also genuine data with a `note` field. So "wrapper used" implies "not a success", but the converse does not hold (`Webhook.NoteWithoutWrapper`).
- The comment at line 45 says GET returns only the structured data. Line 46 returns the full event records, and so does the model.

## Model

| member | source | states |
|---|---|---|
| `JsonValue.Or` | api/webhook.js:13-18 | The short-circuit or of a property value and a fallback yields one of its two operands, and the result is truthy exactly when either operand is truthy. |
| `Extraction.ExtractStructuredData` | api/webhook.js:13-18 | It fails exactly when the payload is null, with the TypeError message of the read at line 14. Otherwise the result is null or a truthy value. |
| `Extraction.ExtractPicksFirstTruthy` | api/webhook.js:13-18 | The result is the first truthy probe in the order `structuredData`, `analysis`, `data?.structuredData`, `event?.structuredData`. It is null exactly when all four probes are undefined or falsy. |
| `Extraction.NonObjectContainerAbsent` | api/webhook.js:16-17 | A `data` or `event` member that is missing or not an object leaves its probe undefined. |
| `Extraction.FalsyStructuredDataSkipped` | api/webhook.js:14-15 | A falsy `structuredData` beside a truthy `analysis` yields the `analysis`. |
| `JsString.NatDigitsRoundTrip` | api/webhook.js:83 | The digits printed for a natural number are all decimal digits, read back to the same number and have no leading zero. |
| `JsString.DecimalRoundTrip` | api/webhook.js:83 | A non-negative integer prints as its digits. A negative one prints as `-` followed by the digits of its magnitude. |
| `JsString.JoinFailsIff` | api/webhook.js:83 | Joining array elements fails exactly when some element's conversion fails. |
| `JsString.ToStrFailsIff` | api/webhook.js:83 | Interpolating a JSON value throws exactly when the value is an object with its own `toString` key, or an array that contains one at any depth. |
| `Analysis.BuildAnalysis` | api/webhook.js:63-91 | A falsy input, or one with a truthy `note`, gives the fixed fallback summary, success false and the two fixed key points. Any other input gives success true and the three fixed key points. It fails (TypeError) exactly when, outside the fallback branch, a truthy interpolated field cannot be converted to text. |
| `Analysis.SummaryFillsDefaults` | api/webhook.js:76-84 | In the normal branch each falsy field shows its default ("Unknown user", "Unspecified topic", "N/A", "Unspecified format", "No timeline provided"). Each truthy field shows its own text. The summary is the fixed template over those five texts. |
| `Analysis.RawPayloadIgnored` | api/webhook.js:63-91 | The result does not depend on the raw-payload argument. |
| `Analysis.FallbackExamples` | api/webhook.js:64-72 | `null` and `{note:"x"}` both give exactly the fallback: the fixed summary, success false and the two fixed key points. |
| `Analysis.AnnSentence` | api/webhook.js:83 | The template over Ann, Rust, 5, remote and next week is the expected literal sentence. |
| `Analysis.AnnExample` | api/webhook.js:76-90 | The fully filled Ann/Rust request gives the expected literal summary, success true and the three key points. |
| `Analysis.TopicOnlySentence` | api/webhook.js:83 | The template with every default except the topic is the expected literal sentence. |
| `Analysis.TopicOnlyExample` | api/webhook.js:76-90 | `{topic:"X"}` gives the summary with every other default filled in. |
| `Analysis.UnprintableNameThrows` | api/webhook.js:76-83 | A `name` holding an object with its own `toString` key makes `buildAnalysis` throw. |
| `Webhook.EventFor` | api/webhook.js:13-35 | A payload becomes an event exactly when it is not null and the analysis does not throw. The event's timestamp is the given time. Its structured data is truthy (never null). It is a success exactly when that data has no truthy `note`, with three key points on success and two otherwise. The stored analysis is exactly `buildAnalysis` applied to the extracted value and the payload. |
| `Webhook.StoredStructuredData` | api/webhook.js:23-35 | The stored structured data is the extracted value when that value is truthy. Otherwise it is the `{note, raw}` wrapper, and the analysis is then the fallback with success false. |
| `Webhook.NoteWithoutWrapper` | api/webhook.js:21-28 | Genuine structured data with a truthy `note` is stored as is, not as the wrapper, and still gets success false. |
| `Webhook.EventStore.constructor` | api/webhook.js:2 | The store starts empty. |
| `Webhook.EventStore.Post` | api/webhook.js:5-42 | On success the store becomes the new event followed by the old store, with response 200. A body-read failure, a parse failure, a null payload or a throwing analysis gives 400 with the error message and leaves the store unchanged. The event invariant is kept. |
| `Webhook.EventStore.Get` | api/webhook.js:44-47 | Responds 200 with every stored event, newest first. |
| `Webhook.EventStore.Handle` | api/webhook.js:4-50 | POST behaves as `Post`. GET responds 200 with the unchanged store. Any other method gives 405 "Method Not Allowed" and leaves the store unchanged. |
| `Webhook.NewestFirst` | api/webhook.js:24-46 | On a fresh store a GET gives `[]`. After POSTs of a then b, a GET gives `[b, a]`. |

## Left out

- Reading the body (`getRawBody`, api/webhook.js:53-60) is stream I/O. Its outcome is an input: `ReadFailed(message)` or the parse outcome.
- `JSON.parse` and the UTF-8 decoding before it are not modelled. Their outcome is an input: `Unparsable(message)` or `Parsed(value)`.
- `console.log` and `console.error` are a logging side channel with no effect on the result.
- The response object is not modelled. `Response(status, body)` stands for the status and body sent. The JSON serialisation of bodies is not modelled.
- `Date.now()` becomes the `now` parameter.
- Concurrent in-flight requests sharing the store are not modelled. Requests are handled one at a time.
- Numbers are integers only. JSON numbers with a fraction or an exponent are not modelled.
- `JsString.Decimal` follows JavaScript's `String(n)` only for integers of magnitude up to 2^53. Beyond that, JavaScript first rounds the number to a double, and from 1e21 it prints in exponent notation.
- The TypeError messages are V8's wording ("Cannot read properties of null (reading 'structuredData')" and "Cannot convert object to primitive value").
- Strings are sequences of Unicode scalar values, while JavaScript strings are UTF-16 code units, so a lone surrogate that `JSON.parse` can produce has no counterpart here. The handler only concatenates strings and tests them against `""`, so no modelled behaviour depends on the difference.
