# yak: from settings to webhook request, in Dafny

yak is a command-line tool that posts a message to a Slack incoming webhook.
It resolves five settings (domain, token, channel, username, icon), checks
that a domain and a token were given, joins its positional arguments into the
message text, builds an `IncomingWebhook` record whose fields are all tagged
`omitempty`, and posts the record's JSON to an endpoint made by substituting
the domain and the token into a fixed URL template.

This project models that step, from resolved settings to the request that
would be sent, as pure functions with lemmas:

- `go_strings.dfy` (module `GoStrings`): the Go library calls the step
  relies on: `strings.HasPrefix`, `strings.Join`, and `fmt.Sprintf` for
  formats whose only verbs are `%s` and `%%`. It also defines `Split` (the
  inverse of joining on one character), `FirstIndex`, and `Offset` (where
  each element starts in a joined string). These are reference definitions
  for stating properties; yak does not call them.
- `webhook.dfy` (module `Webhook`): the `IncomingWebhook` record, its field
  order and JSON keys. `Marshal` gives the serialised object as its ordered
  key/value members, leaving out empty fields as `omitempty` does.
  `Unmarshal` reads such an object back, with a missing key read as the empty
  string.
- `yak.dfy` (module `Yak`): `Settings` and the built-in flag `Defaults`.
  `Validate` checks the domain first, then the token. `JoinArgs` builds the
  message, `BuildPayload` applies the icon rule, `EndpointURL` fills the
  template through `Sprintf`, and `Prepare` runs the whole step. A fatal
  error, which the program prints before exiting with status 1, is the
  `Fatal(message)` case of a `Result`. `ParseEndpoint` reads the domain and
  the token back out of an endpoint. It is used to state that the
  substitution loses nothing.

## Model

| member | source | states |
|---|---|---|
| `Yak.Validate` | yak.go:40-47 | An empty domain gives "Error: must provide a domain" whatever the token. A set domain with an empty token gives "Error: must provide a token". The settings pass through unchanged exactly when both are set. |
| `Yak.Prepare` | yak.go:40-68 | The same two errors in the same order. The result is a request exactly when both settings are set, and then it holds the endpoint for that domain and token and the payload built from the joined arguments. |
| `Yak.JoinArgs` | yak.go:49 | No arguments give the empty message, one argument is the message itself, and otherwise the length is the sum of the argument lengths plus one space between each pair of neighbours. |
| `Yak.JoinArgsPlaces` | yak.go:49 | For any arguments, whatever they contain, argument `i` appears in the message starting at `Offset(args, " ", i)`, the total length of the arguments before it plus one space after each. A space follows every argument but the last. |
| `Yak.JoinArgsSplit` | yak.go:49 | Exactly one space separates neighbouring arguments: splitting the message on spaces gives back the arguments when none of them contains a space. |
| `GoStrings.Join` | yak.go:49 | `strings.Join`: no elements give "", and otherwise the result starts with the first element and its length is the total length plus one separator per gap. |
| `GoStrings.JoinPlaces` | yak.go:49 | `strings.Join`: every element appears in the result at its offset, which is the total length of the elements before it plus one separator after each. |
| `GoStrings.JoinSeparator` | yak.go:49 | `strings.Join`: the separator appears right after every element but the last. With `JoinPlaces` and the length in `Join`'s contract, this fixes every character of the result. |
| `GoStrings.OffsetNext` | yak.go:49 | In a joined string, each element starts one element and one separator after the previous one. |
| `GoStrings.SplitJoin` | yak.go:49 | Joining on a one-character separator and splitting on it again gives back the elements (at least one, none containing the separator). |
| `GoStrings.PrefixOfConcat` | yak.go:56 | `strings.HasPrefix`: a string starts with every prefix it was built from. |
| `GoStrings.PrefixSplit` | yak.go:56 | `strings.HasPrefix`: a string that starts with a prefix is that prefix followed by the rest of the string. |
| `Yak.BuildPayload` | yak.go:51-60 | Channel, username and text are copied through unchanged. An icon starting with `:` goes to `IconEmoji` only. Any other non-empty icon goes to `IconURL` only. An empty icon sets neither. |
| `Yak.IconExclusive` | yak.go:56-60 | The two icon fields are never both non-empty. Together they hold exactly the configured icon. `IconEmoji` is set if and only if the icon starts with `:`. |
| `Yak.IconKeysExclusive` | yak.go:56-60 | The serialised payload never has both `icon_url` and `icon_emoji`. `icon_emoji` is present if and only if the icon starts with `:`. `icon_url` is present if and only if the icon is non-empty and does not start with `:`. |
| `Yak.EmptyMessageSent` | yak.go:49-55 | With no arguments and valid settings, a request is still built, and its serialised payload has no `text` key. |
| `Webhook.Key` | yak.go:29-33 | Each field's JSON key is its struct tag, and the key's position among the tags is the field's declaration position, so distinct fields have distinct keys. |
| `Webhook.Marshal` | yak.go:28-34 | `json.Marshal` of the payload (yak.go:62) with every field tagged `omitempty`. No member of the serialised object has an empty value. Each member is a field's key with that field's value. The members come in strictly increasing declaration order. |
| `Webhook.PresentKeysIff` | yak.go:28-34 | A field's key appears in the serialised payload if and only if the field is non-empty. |
| `Webhook.PresentKeys` | yak.go:28-34 | Every key of the serialised payload is one of the five field keys, and the keys come in the order channel, username, text, icon_url, icon_emoji. |
| `Webhook.MarshalRoundTrip` | yak.go:28-34 | Omitting empty fields loses nothing: reading the serialised payload back gives the same record. |
| `Yak.TemplatePieces` | yak.go:16 | The endpoint template is `https://`, a `%s` verb, `.slack.com`, `/services/hooks/incoming-webhook?token=`, and a second `%s` verb. |
| `GoStrings.SprintfText` | yak.go:68 | `fmt.Sprintf`: text without a `%` is copied to the output unchanged. |
| `GoStrings.SprintfVerb` | yak.go:68 | `fmt.Sprintf`: a `%s` verb consumes the next argument and inserts it unchanged. |
| `GoStrings.SprintfTwoVerbs` | yak.go:68 | `Sprintf` with two `%s` verbs around percent-free text and two string arguments puts the arguments in place unchanged. |
| `Yak.EndpointURL` | yak.go:68 | The endpoint is `https://` + domain + `.slack.com/services/hooks/incoming-webhook?token=` + token, with no escaping. |
| `Yak.ParseEndpointRoundTrip` | yak.go:68 | A domain without `/` and any token are read back from the endpoint they make. |
| `Yak.ParseEndpointSound` | yak.go:68 | Whatever `ParseEndpoint` accepts is exactly the endpoint of the domain and token it returns, and that domain has no `/`. |
| `Yak.EndpointAmbiguous` | yak.go:68 | Because nothing is escaped, a domain that contains the rest of the template gives the same endpoint as a different, shorter domain with a longer token. |
| `Yak.PrepareDelivers` | yak.go:40-68 | For valid settings whose domain has no `/`, the request carries everything: the endpoint gives back the domain and the token, and the serialised payload gives back the channel, the username and the icon. It also gives back the arguments when none of them contains a space. |
| `Yak.DefaultsNeedDomain` | yak.go:21-25 | The constant `Defaults` holds the flag defaults. With only those defaults there is no domain, so the step stops with the domain error. |
| `Yak.DefaultsExample` | yak.go:21-25 | With the defaults, domain `acme`, token `abc123` and arguments `hello world`, the endpoint is `https://acme.slack.com/services/hooks/incoming-webhook?token=abc123`. The payload has channel `#general`, username `yakbot`, text `hello world` and emoji icon `:speech_balloon:`. |
| `Yak.DefaultsExampleKeys` | yak.go:28-34 | The defaults with a non-empty message serialise to the keys channel, username, text, icon_emoji, in that order. |

## Left out

- Flag registration, flag parsing and layering the `yak.conf` file under the flags (yak.go:20-26, 37-38). These are calls into a flag library and a config library acting on process-global variables. Their result is the `Settings` input. Only the built-in defaults are kept, as `Defaults`.
- The byte-level output of `encoding/json` (yak.go:62): string escaping, quoting and punctuation are not modelled. `Marshal` gives only the members of the object, in order. The marshal-failure branch (yak.go:63-66) cannot be reached for a record of strings, so it is not modelled.
- Printing: `fmt.Println` of the error messages writes the message and a newline to standard output before `os.Exit(1)`. The model returns `Fatal(message)` and does not model the output stream or the exit status.
- Form encoding, the HTTP POST, the transport error path, the non-200 warning and copying the response body to standard output (yak.go:69-83). These are network and terminal I/O.
- Go strings are byte strings, but a Dafny `string` is a sequence of Unicode characters, so settings or arguments that are not valid UTF-8 cannot be represented. `json.Marshal` (yak.go:62) replaces invalid bytes with U+FFFD, so in Go such values would not come back intact.
- `Webhook.MarshalRoundTrip`: holds only for payloads that are valid UTF-8, which is every payload the model can represent; see the previous line.
- `Yak.PrepareDelivers`: the channel, username, icon and arguments come back only when they are valid UTF-8, for the same reason.
- `Yak.JoinArgs`: lengths and offsets count characters, not bytes, so they match Go's `len` only for ASCII text.
- `GoStrings.Sprintf`: models only the `%s` and `%%` verbs, a missing argument and unused string arguments. Other verbs, flags and widths are not modelled, because the template uses only `%s`.
- `Webhook.Unmarshal`: a reference reader that takes the first member with a key. It is not a model of Go's `json.Unmarshal`, which yak does not call.
- `Yak.ParseEndpoint`: a reference parser, used only to state that the endpoint keeps the domain and the token. yak has no such function.
