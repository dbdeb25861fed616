# whisperzonez-bot worker: request gate, router and signal formatter

This project models the Cloudflare-style worker in `src/index.js`. The worker
relays TradingView trading-signal alerts to a Telegram chat. For each HTTP
request it decides, in a fixed order:

1. `/healthz` is answered first, with no token check. The reply is 200 JSON with `ok: true`, whether a non-empty secret is configured (`hasSecret`) and the secret's length (`secretLen`).
2. Every other path is behind a token gate. The `token` query parameter must equal the configured `WEBHOOK_TOKEN` exactly, and that secret must be non-empty. Otherwise the reply is 401 "Bad token".
3. Behind the gate, only `POST /kvfx/webhook` does any work. It parses the JSON body and formats it as five template lines joined by `"\n"`, with Telegram's HTML markup. Then it posts that text to Telegram and answers 500 "Telegram error" if Telegram's status is not 2xx, otherwise 200 `{"ok":true}`.
4. Everything else behind the gate gets 404 "Not found".

The model is pure, like the source: a chain of tests with early returns, and
one expression that builds the text. Its four modules:

- `JsValue` (`jsvalue.dfy`): the JavaScript values a parsed JSON body holds, plus `undefined`. Alongside them, the JavaScript semantics the formatter relies on:
  - truthiness, which drives `||`
  - nullishness, which drives `??`
  - property reads, which throw on null and undefined
  - template-literal interpolation, including arrays and objects that cannot be converted to a string
  - `toFixed(2)`
- `Strings` (`strings.dfy`): `join` and `split` on one character, UTF-16 `.length`, and decimal rendering of lengths.
- `Formatter` (`formatter.dfy`): the payload-to-text formatter. It works in three steps:
  - `Choose`: the sections, the field reads and their defaults
  - `Render`: the interpolation of each field
  - `Lines` and `Format`: the fixed five-line template, joined by `"\n"`
- `Gateway` (`gateway.dfy`): `Decide` is the handler up to the Telegram call. `Respond` and `AfterSend` turn that decision and the Telegram outcome into a status, content type and body. `Handle` composes the two.

The handler has inputs that the model does not compute itself:
- The outcome of `request.json()` is an input: a `JsVal`, or a `SyntaxError`.
- The outcome of the Telegram `fetch` is an input: a status, or a rejection.
- `String(n)` and `n.toFixed(2)` are uninterpreted functions, passed in as a `NumberText` value.

An exception that escapes the handler is modelled as `Err(fault)`. That covers three cases: a body that is not JSON, a payload the formatter throws on, and a rejected fetch.

Some behaviours of the code worth stating plainly:
- A body that is not JSON is not answered: `request.json()` throws, and the exception escapes the handler.
- A confidence that is not a number is not defaulted to 0. Only null and undefined are. A string, boolean, array or object confidence makes `.toFixed` throw a TypeError.
- A missing or empty secret rejects every request other than `/healthz`. It never accepts them all.

## Model

| member | source | states |
|---|---|---|
| `JsValue.Get` | src/index.js:33-42 | A property read throws exactly on null and undefined. An own property of an object is what the read gives, and any other defined result is one too. |
| `JsValue.Or` | src/index.js:38-42 | The logical-OR default: `a` unless it is falsy, else `b`. Its meaning next to `??` is stated by `JsValue.OrDiffersFromCoalesce`, and its use per field by `Formatter.OrDefaultedFields` and `Formatter.TimeframeShown`. |
| `JsValue.Coalesce` | src/index.js:33-41 | `a ?? b`: `a` unless it is null or undefined, else `b`. Its meaning next to logical OR is stated by `JsValue.OrDiffersFromCoalesce`, and its use per field by `Formatter.CoalesceDefaultedFields`, `Formatter.RiskFieldsDefaulted` and `Formatter.Section`. |
| `JsValue.Interpolate` | src/index.js:38-42 | `${v}` in a template literal. When it succeeds is stated by `JsValue.InterpolateOkIff`. |
| `JsValue.InterpolateOkIff` | src/index.js:38-42 | `${v}` succeeds exactly on printable values, for any number rendering. An object with an own `toString` is not printable, and neither is an array holding one. |
| `JsValue.OrDiffersFromCoalesce` | src/index.js:38-42 | The logical-OR and the nullish-coalescing defaults differ exactly when the value is `false`, `0`, `NaN` or `""` and is not the default itself. |
| `Strings.Join` | src/index.js:37-43 | `Array.prototype.join` with a one-character separator. `Strings.SplitJoin` proves that splitting at the separator undoes it. |
| `Strings.SplitJoin` | src/index.js:43 | Splitting at the separator gives back the joined pieces, provided none of them contains it. |
| `Strings.Utf16Length` | src/index.js:11 | A string's `.length` counts UTF-16 code units. A string of characters below U+10000 has one unit per character, and a string of characters from U+10000 on has two per character. It lies between the number of characters and twice that, and it is 0 only for `""`. |
| `Strings.Utf16LengthAppend` | src/index.js:11 | The length of a concatenation is the sum of the lengths, so together with the one-character cases above the count is fixed character by character. |
| `Strings.NatToDecimal` | src/index.js:8-12 | The JSON rendering of `secretLen` is a digit string that reads back as the number. A leading zero occurs only in `"0"` itself. |
| `Formatter.Section` | src/index.js:33-36 | `payload.x ?? {}` is never null or undefined, so the later reads from the sections cannot throw. |
| `Formatter.Choose` | src/index.js:33-42 | Choosing the field values fails exactly when the payload itself is null or undefined. |
| `Formatter.Render` | src/index.js:38-42 | The interpolation of each chosen value into its field. When it fails is stated by `Formatter.RenderOkIff`. |
| `Formatter.Lines` | src/index.js:37-42 | The five template lines in source order. `Formatter.KvfxSingleLine` proves the template text has no line break of its own. |
| `Formatter.Format` | src/index.js:32-43 | The formatter: its lines joined by `"\n"`. When it fails is stated by `Formatter.FormatOkIff`, what each field shows by the default lemmas below, and its line structure by `Formatter.TextNewlines` and `Formatter.FiveLines`. |
| `Formatter.RenderOkIff` | src/index.js:38-42 | Rendering fails, with a TypeError, exactly when some chosen value cannot be shown. |
| `Formatter.FormatOkIff` | src/index.js:32-43 | The formatter succeeds exactly when the payload is neither null nor undefined, every shown value is printable and the confidence is a number. Every failure is a TypeError. |
| `Formatter.NonNumericConfidenceThrows` | src/index.js:39 | A confidence that is present but not a number is not defaulted: formatting throws a TypeError. |
| `Formatter.OrDefaultedFields` | src/index.js:38-42 | Product, symbol, direction, type and chart URL show `KVFX`, `?` or `—` for every falsy value, `""` included. Otherwise they show the value's own string, unescaped. |
| `Formatter.CoalesceDefaultedFields` | src/index.js:39-40 | Strength and price show `—` only for null or undefined. Any other value, `0` and `""` included, is shown as its own string. |
| `Formatter.RiskFieldsDefaulted` | src/index.js:35-41 | TP, SL and Risk% show `—` only for null or undefined. Otherwise they show the value as is. |
| `Formatter.ConfidenceShown` | src/index.js:39 | The confidence shown is `toFixed(2)` of the given number, or of 0 when the confidence is null or undefined. |
| `Formatter.TimeframeShown` | src/index.js:36-40 | The timeframe is `signal.extras.tf` if truthy, else `market.timeframe` if truthy, else `—`. |
| `Formatter.EmptyAndZeroDefaults` | src/index.js:38-39 | An empty-string symbol shows `?`. A zero strength shows the number, and an empty-string strength shows nothing. |
| `Formatter.AbsentSections` | src/index.js:33-42 | A payload with no `signal`, `market`, `risk` and `meta` sections, absent or null, is still formatted, provided its product is printable (an absent product is). Every field but the product shows its placeholder, and the confidence shows 0 to two decimals. |
| `Formatter.AbsentRisk` | src/index.js:35-41 | Without a `risk` section, TP, SL and Risk% all show `—`. |
| `Formatter.KvfxSingleLine` | src/index.js:38-42 | The template's own text contains no line break. |
| `Formatter.TextNewlines` | src/index.js:37-43 | The text holds 4 line breaks plus those inside the field values. So it has exactly five lines exactly when no field value contains a line break. |
| `Formatter.FiveLines` | src/index.js:37-43 | When no field value contains a line break, splitting the text at `"\n"` gives the five template lines in their fixed order: header, signal, timeframe and price, TP/SL/Risk%, chart. |
| `Gateway.QueryGet` | src/index.js:18 | `searchParams.get(name)` is null exactly when no pair has that name. Otherwise it is the value of the first such pair. |
| `Gateway.SuppliedToken` | src/index.js:18 | The `token` query parameter, or `""` when it is missing. `Gateway.MissingTokenNeverAuthorizes` and `Gateway.FirstTokenCounts` state what it lets through. |
| `Gateway.Authorized` | src/index.js:19 | The gate: a non-empty secret that the token matches exactly. `Gateway.TokenGate` and `Gateway.EmptySecretRejectsAll` state its effect on the answer. |
| `Gateway.Decide` | src/index.js:3-43 | The decision is a health answer exactly on `/healthz`, and a 401 exactly off `/healthz` when the gate refuses. A sent text is the formatter's output for the parsed body. An exception is the body's parse error or the formatter's. |
| `Gateway.HealthBody` | src/index.js:8-12 | `JSON.stringify({ ok: true, hasSecret, secretLen })`. `Gateway.HealthBodyFields` proves the text gives both fields back. |
| `Gateway.HealthBodyFields` | src/index.js:8-12 | Two health bodies are the same text only when their `hasSecret` and their `secretLen` are the same. |
| `Gateway.AfterSend` | src/index.js:57-60 | After the Telegram call, an exception escapes exactly when the fetch rejects. Otherwise the status is 200 exactly when Telegram's status is 2xx, and 500 if not. |
| `Gateway.Respond` | src/index.js:6-63 | The handler's answer fails exactly when the decision is an exception, or a send whose fetch rejects. Status 401 means exactly a refused token and 404 exactly an unknown route. A 500 comes only from a send that Telegram refused. |
| `Gateway.Handle` | src/index.js:1-64 | The whole handler. Its properties are stated by `Gateway.HealthBeforeToken`, `Gateway.TokenGate`, `Gateway.OtherRoutesNotFound`, `Gateway.SendOutcome`, `Gateway.Escapes` and `Gateway.StatusCodes`. |
| `Gateway.HealthBeforeToken` | src/index.js:6-15 | `/healthz` answers 200 JSON before any token check, whatever the method, query, body or Telegram outcome. `hasSecret` is true when a non-empty secret is set, and `secretLen` is its length, or 0 when the secret is unset. `secretLen` is 0 exactly when `hasSecret` is false. |
| `Gateway.TokenGate` | src/index.js:17-25 | Off `/healthz`, the answer is 401 "Bad token" exactly when the secret is unset or empty, or the token differs from it. That answer does not depend on the body or on Telegram, so nothing is parsed, formatted or sent. |
| `Gateway.MissingTokenNeverAuthorizes` | src/index.js:18-19 | A request with no `token` parameter, or an empty one, is never let through. |
| `Gateway.EmptySecretRejectsAll` | src/index.js:19-24 | An unset or empty secret answers 401 on every path other than `/healthz`. |
| `Gateway.FirstTokenCounts` | src/index.js:18 | Only the first `token` parameter is compared with the secret. |
| `Gateway.OtherRoutesNotFound` | src/index.js:31-63 | Past the gate, any request other than `POST /kvfx/webhook` gets 404 "Not found". |
| `Gateway.SendIff` | src/index.js:31-43 | A text is sent exactly for an authorized `POST /kvfx/webhook` whose body parses and formats. The text sent is the formatter's output. |
| `Gateway.SendOutcome` | src/index.js:57-60 | After the send, a Telegram status outside 200-299 gives 500 "Telegram error". Otherwise the answer is 200 JSON `{"ok":true}`. |
| `Gateway.Escapes` | src/index.js:31-57 | An exception escapes only for an authorized `POST /kvfx/webhook`, in three cases: the body is not JSON, the formatter throws, or the fetch rejects. |
| `Gateway.StatusCodes` | src/index.js:6-63 | Every response the handler returns has status 200, 401, 404 or 500. |

## Left out

- The Telegram request itself (src/index.js:45-55) is not modelled: the form with `chat_id`, `parse_mode` and `disable_web_page_preview`, the bot-token URL and the network call. This is network I/O. The model keeps the text handed to it, and the call's outcome is an input.
- `String(n)` and `n.toFixed(2)` are left uninterpreted, because they are floating-point formatting. Numbers are reals plus ±Infinity and NaN; the distinction between -0 and 0 is not kept, and it changes nothing here.
- `request.json()` parsing is not modelled. Its outcome is an input: a value, or a SyntaxError that escapes the handler.
- URL parsing is not modelled. The pathname, the method as the runtime normalises it, and the decoded query pairs are inputs.
- What the runtime answers when an exception escapes the handler is not modelled. That is the worker platform's error response.
- The `console.log` of the 401 branch is not modelled as output. The two lengths it logs are kept in the `BadToken` decision.
- Headers other than `content-type` are not modelled.
- Strings are sequences of Unicode scalar values, so lone UTF-16 surrogates, which JSON can carry, are not represented.
- Property reads model own properties of JSON objects only. The keys the worker reads are not properties of strings, arrays or `Object.prototype`.
- `main.py` is not part of this model. It is Flask, telebot and OpenAI glue run on threads.
