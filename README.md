# Timeshift reservations client, modelled in Dafny

This project models the core of a small Go client library for a live-streaming
platform. The client holds a user-session credential. It fetches the timeshift
reservations page and pulls the JSON payload out of the `data-props` attribute
of the `<script id="embedded-data">` tag. It then decodes that payload into
reservation records, and each record gives a watch URL.

Files:

- `wrappers.dfy`: `Option` and `Result`, the error-or-value returns of the Go code.
- `html.dfy`: the token stream the HTML tokenizer yields. Each token has a type,
  a tag name and its attributes in markup order. `Next` yields `ErrorToken` past the
  end of the stream, as the tokenizer does at end of input.
- `client.dfy` (module `NicoClient`): the `Client` class and its one field
  `userSession`. It also holds the options and `NewClient`, which applies
  options in order to a fresh zero-valued client. An option is either
  `WithUserSession(s)` or `Custom(update)`, a caller-written option given by
  what it does to the credential. `ApplyOptions` is the fold that specifies
  `NewClient`.
- `timeshift_reservations.dfy` (module `Timeshift`): the reservation record and
  `URL`. It holds the extraction scan, a method with a loop over the token
  stream specified by the recursive function `DataProps`. It also holds the
  orchestration in `TimeshiftReservations`: the transport error, then the status
  gate, then extraction, then decoding.

`html.UnescapeString` and the JSON decoder are foreign code. Each is a
function-typed parameter (`unescape`, `unmarshal`) about which nothing is
assumed. The one exception is `EmbeddedDataRoundTrip`, which requires that
unescaping undoes the escaping of its payload.

## Model

| member | source | states |
|---|---|---|
| `NicoClient.Client.constructor` | client.go:3-8 | a new client is zero-valued: its `userSession` is the empty string |
| `NicoClient.Client.Apply` | client.go:17-20 | running one option on a client updates its credential in place: `WithUserSession(s)` sets `userSession` to exactly `s`, and a caller-written option applies its update to the old value |
| `NicoClient.NewClient` | client.go:7-13 | returns a freshly allocated client whose credential is the result of applying the options in order, whatever earlier calls did; with no options it is `""`, and when the last option is `WithUserSession` it is that option's value |
| `NicoClient.ApplyOptionsAppend` | client.go:9-11 | applying `a + b` equals applying `a` and then `b`: options take effect one after another, in order, each once |
| `NicoClient.ApplyOptionsLastWins` | client.go:9-11 | when the last option is `WithUserSession`, the final credential is its value whatever came before; with no options the credential is unchanged |
| `NicoClient.WithUserSessionForgetsEarlier` | client.go:9-11 | a `WithUserSession` option at any position discards the effect of every option before it: the result is that of the later options started from its value |
| `Timeshift.URLRoundTrip` | timeshift_reservations.go:34-36 | the URL is the prefix `https://live.nicovideo.jp/watch/` followed by exactly the program identifier, which can be read back from it |
| `Timeshift.URLFromProgramID` | timeshift_reservations.go:34-36 | every string that is the watch prefix followed by an identifier is the URL of a reservation with that identifier |
| `Timeshift.URLInjective` | timeshift_reservations.go:34-36 | two reservations have the same URL if and only if they have the same program identifier |
| `Timeshift.URLExample` | timeshift_reservations.go:32-36 | identifier `lv123456789` gives `https://live.nicovideo.jp/watch/lv123456789` |
| `Timeshift.FirstDataProps` | timeshift_reservations.go:96-100 | returns nothing if and only if no attribute has key `data-props`; otherwise returns the value of the first such attribute in attribute order |
| `Timeshift.TagDataProps` | timeshift_reservations.go:86-100 | a token yields a value if and only if it is a start tag named `script`, some attribute in any position is `id="embedded-data"`, and some attribute is `data-props`; the value is the first `data-props` value |
| `Timeshift.ExtractHTMLDataProps` | timeshift_reservations.go:79-105 | the single-pass loop (the `hasID` attribute loop, then the early-return `data-props` loop) returns exactly `DataProps` of the token stream |
| `Timeshift.DataPropsFoundIff` | timeshift_reservations.go:81-99 | extraction succeeds if and only if some tag yields a value before the first `ErrorToken`; otherwise, including for an empty stream, it fails with "data-props not found" |
| `Timeshift.EarliestQualifyingTagWins` | timeshift_reservations.go:81-99 | the result is the unescaped first `data-props` value of the earliest tag in document order that yields one |
| `Timeshift.SkippedTokenIrrelevant` | timeshift_reservations.go:83-104 | removing any token that is neither an `ErrorToken` nor a value-yielding tag leaves the result unchanged |
| `Timeshift.NonScriptTokenIrrelevant` | timeshift_reservations.go:83-88 | tokens that are not start tags (other than `ErrorToken`) and start tags not named `script` never affect the result |
| `Timeshift.EmbeddedTagWithoutDataPropsFallsThrough` | timeshift_reservations.go:95-104 | a `script` tag carrying `id="embedded-data"` but no `data-props` does not end the scan; the result is that of the remaining tokens |
| `Timeshift.LaterTokensIgnored` | timeshift_reservations.go:81-99 | once the scan reaches a token that stops it (end of stream or a value-yielding tag), appending any tokens after it does not change the result |
| `Timeshift.EmbeddedDataRoundTrip` | timeshift_reservations.go:79-105 | a token stream whose first value-yielding tag is a `script` start tag with `id="embedded-data"` and, as tokenized, the value `escape(p)` yields `p` whenever `unescape` undoes `escape` on `p` |
| `Timeshift.TimeshiftReservations` | timeshift_reservations.go:52-76 | a transport error fails with it; a status other than 200 fails with that code whatever the body; an extraction failure fails the call; a decode failure fails the call; otherwise the decoded list is returned unchanged |

## Left out

- Building the request and attaching the `user_session` cookie (domain `.nicovideo.jp`, path `/`, HttpOnly, Secure) are left out. So are the default HTTP transport, context cancellation and closing the body. The call is modelled from the outcome of the exchange onward, so `TimeshiftReservations` does not read the client's credential.
- The "create request" error path is left out. With a fixed method and URL it arises only from a nil context, and the model has no context.
- Error messages are not modelled as text. Each wrapped error is a constructor of `Timeshift.Error` that carries its code or cause.
- The HTML tokenizer itself is left out. The model takes its token stream as input, with tag names and attribute values as the tokenizer yields them. The tokenizer lower-cases names and decodes entities in attribute values. The model does not capture the streaming of bytes, only the one-token-at-a-time consumption.
- `html.UnescapeString` is left uninterpreted, because its named-character-reference table is foreign code.
- JSON decoding and timestamp parsing (layout `2006-01-02T15:04:05-0700`) are one uninterpreted `unmarshal` parameter. The model does not capture that a payload without the `reservations.reservations` key decodes to an empty (nil) list rather than failing. `Time` is an abstract instant with its offset.
- Concurrent use of one client is left out.
- `NicoClient.NewClient`: a nil option, on which the Go loop panics, is not modelled. A caller-written option is modelled only by its effect on the credential, the client's one field.
- `Timeshift.EmbeddedDataRoundTrip`: the round trip holds for the token stream, not for the markup. The tokenizer already decodes entities in attribute values, and the extractor then runs `html.UnescapeString` on the value a second time. For example, a payload `&amp;` escaped into the markup as `&amp;amp;` comes back as `&`. The model starts from the tokenized value, so it does not capture this first decoding.
