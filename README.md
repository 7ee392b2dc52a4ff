# smsc — a Dafny model of the SMS client's value logic

`smsc` is a Go client for the smsc.ru SMS provider. A caller builds a
`Client` from a `Config` (`New`), then calls `Send(text, phones, opts...)`.
`Send` builds a per-call `message` from the client's credentials and its
arguments, lets the options adjust it, validates it, serialises it into
form fields (`login`, `psw`, `mes`, `phones`, and `fmt`/`cost` when
non-zero) and posts them. It decodes the JSON reply into an envelope that
can hold both the success record (`Result`) and the error record (`Error`),
and returns the error when one was decoded, otherwise the result. Failures
of the HTTP round trip are wrapped with the package tag `smsc: `.

This project models that layer in Dafny:

- `wrappers.dfy` — `Option`, the stand-in for Go's nil-able pointers.
- `decimal.dfy` — decimal rendering of integers (`strconv.FormatInt`, `%d`)
  and its inverse, with the round-trip lemma.
- `replies.dfy` — `Result`, `Error`, the decoded envelope `MetaResult`, the
  errors `Send` returns, `Result.String`, `Error.Error`, `wrapErr`, and
  parsers that read both summaries back, proving that the error summary
  determines the whole error record and the success summary its count and id
  (cost and balance do not appear in it).
- `messages.dfy` — the message value `Msg`, the options, the `Message` class
  that options update in place, `Validate`, `Values` and its specification
  `Form`, with a parser that reads a form back into the message.
- `smsc.dfy` — `Config`, the `Client` class, `New` and `Send`.

The network round trip and the JSON decoder are a parameter of `Send`:
`post(url, form)` yields either a foreign error at one of the three steps
(post, body read, unmarshal) or the decoded envelope. `Send`'s contract
therefore names the URL and the form that were posted.

Points a reader might expect otherwise:

- `wrapErr` formats the cause with `%s` (client.go:106), so the wrapped error
  keeps only the text `smsc: <cause>`, not the cause itself as the root of an
  error chain.
- `Send` never returns both a result and an error. When the decoded envelope
  holds neither part, it returns neither (client.go:95-98), and
  `Client.Send` states exactly that.
- `Result` reads the count from the JSON key `count` (client.go:194).
  `Values` adds no `charset` key, and `Send` always sets `fmt` to 3.

## Model

| member | source | states |
|---|---|---|
| `Smsc.New` | client.go:30-47 | an error (exactly `NoLoginPassword`) and no client iff login or password is empty; otherwise a client whose URL is `DefaultURL` when the configured URL is empty and the configured URL otherwise, with login and password copied unchanged |
| `Smsc.Client.constructor` | client.go:40-45 | the client holds exactly the URL and credentials it was given |
| `Smsc.Client.Send` | client.go:57-98 | never both a result and an error; posts `Form` of the prepared message to the client's URL; a foreign error at any step gives no result and the `wrapErr` of its message; a decoded error part gives no result and that provider error; otherwise the decoded result part and no error |
| `Smsc.PreparedMessage` | client.go:58-67 | the message `Send` prepares has the client's login and password, the given text and phones unchanged, format JSON (3), and the cost of the last option, or `CostOmit` when there is none |
| `Smsc.SentForm` | client.go:58-73 | the posted form maps `login`, `psw`, `mes` to the client's credentials and the text, `phones` to the phones in order, `fmt` to "3", and holds `cost` exactly when the last option's cost is non-zero, rendered in decimal |
| `Messages.ApplyOptsLastWins` | client.go:65-67 | running the options changes only the cost; the last option's cost wins; no options leave the message unchanged |
| `Messages.ApplyOptsCompose` | client.go:65-67 | running `a` then `b` equals running `a + b`: options apply left to right |
| `Messages.Message.constructor` | client.go:58-64 | the new message carries the given credentials, text, phones and format, and cost `CostOmit` (the zero value) |
| `Messages.Message.Apply` | client.go:160-164 | a `WithCost(c)` option sets the cost to `c` and leaves every other field unchanged |
| `Messages.Message.Validate` | client.go:127-133 | validation accepts every message |
| `Messages.Message.Values` | client.go:135-150 | the map built step by step equals `Form` of the message's current value |
| `Messages.Form` | client.go:136-149 | `login`, `psw`, `mes` map to one-element lists of the login, password and text; `phones` maps to the phones in order; `fmt` is present iff the format is non-zero and `cost` iff the cost is non-zero, each as one decimal string; no other key appears |
| `Messages.FormRoundTrip` | client.go:136-149 | the form loses nothing: reading it back yields the message, every field and the phone order included |
| `Decimal.FormatInt` | client.go:144 | the decimal rendering is non-empty, made of digits and a sign, ends in a digit, and starts with `-` iff the number is negative |
| `Decimal.FormatIntRoundTrip` | client.go:143-148 | reading a decimal rendering back yields the rendered number |
| `Replies.ResultString` | client.go:199-201 | the success summary starts with "OK - " and ends in a digit |
| `Replies.ResultStringExample` | client.go:199-201 | id 5, count 2, cost "1.00", balance "99.00" renders as "OK - 2 SMS, ID - 5" |
| `Replies.ResultStringRoundTrip` | client.go:199-201 | the summary "OK - <count> SMS, ID - <id>" reads back to exactly the count and id it was made from |
| `Replies.ErrorString` | client.go:209-215 | the error summary starts with "ERROR = "; it ends in ")" iff there is no id, and, when there is one, in a digit: the last digit of the id |
| `Replies.ErrorStringRoundTrip` | client.go:209-215 | the summary "ERROR = <code> (<desc>)[, ID - <id>]" reads back to exactly the code, description and optional id, whatever the description holds |
| `Replies.ErrorStringInjective` | client.go:209-215 | two error records with the same summary are equal |
| `Replies.ErrorStringWithoutIdExample` | client.go:209-215 | code 3, description "bad login", no id renders as "ERROR = 3 (bad login)" |
| `Replies.ErrorStringWithIdExample` | client.go:209-215 | code 9, description "x", id 42 renders as "ERROR = 9 (x), ID - 42" |
| `Replies.WrapErr` | client.go:102-107 | nil stays nil; a foreign error becomes a wrapped error whose message is "smsc: " followed by the original message |
| `Replies.PackageTagMarksLocalErrors` | client.go:15 | the missing-credentials error and every wrapped error start with "smsc: "; a provider error's message never does |

## Left out

- The HTTP round trip (`PostForm`, reading and closing the body) is not modelled; `Send` takes it as the `post` parameter. So is the URL encoding of the form: for example, an empty phone list still gives a `phones` key in the map but puts no `phones` parameter on the wire.
- The JSON decoding into the embedded-pointer envelope is not modelled: which fields Go's decoder fills, including the `id` key that both records declare, is the decoder's business. `Send` takes the decoded envelope as given.
- A JSON `null` body leaves the envelope pointer nil, and `Send` then dereferences it; that runtime panic is not modelled.
- The HTTP client handle in `Config` and the fallback to the platform's default client are not modelled.
- The unused length constants (`textMaxLen`, `smsMaxLen` and the rest) are not modelled, because nothing reads them.
- Go's `int` is 32 or 64 bits wide, depending on the platform; the model's codes, ids, counts, formats and costs are unbounded integers. Nothing does arithmetic on them, so only the range differs.
- Options are Go closures over a `*message`; here `Opt` is a datatype with one constructor, `WithCost`, and `Message.Apply` runs it. A nil `Opt` in `opts` makes `opt(m)` panic (client.go:66); the datatype cannot express a nil option, so that runtime panic is not modelled.
- The message's phone list shares its backing array with the caller's slice; the model copies it as a sequence, and nothing in the package writes to it.
