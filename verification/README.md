# Pastebin API client — a Dafny model

This project models the client layer of a command-line tool for the Pastebin
service (`pastebin/pastebin.go`). The client holds two keys: a developer key
that identifies the application and a user key that identifies an account.
Each API call builds a set of named form fields from those keys and the
call's arguments. It posts them to one of three fixed endpoints, reads the
whole body, and classifies it. Every call except the login also sends an
`api_option` tag that names the operation. The service
answers with status 200 even when it fails: a body beginning with
`Bad API request` is the error, and any other body is the result. A separate
public fetch is a plain GET of `https://pastebin.com/raw/<key>`. It carries
no keys and applies no classification.

Modules:

- `Wrappers` (`wrappers.dfy`): `Option` and `Result`.
- `Wire` (`wire.dfy`): the endpoints, field names, option tags, expiry
  tokens and visibility codes, and the `Request` value.
  A `Request` is a verb, an endpoint and a `map<string, string>` of form
  fields. `url.Values.Set` replaces earlier values, and each builder sets
  each field once, so a map is exact.
- `Decimal` (`decimal.dfy`): `strconv.Itoa`, and a reader of decimal text that
  serves as its inverse.
- `Paths` (`paths.dfy`): the lexical cleaning that `path.Join` applies to a
  rooted path. It splits the path into segments, drops empty and `.`
  segments, and lets `..` pop one segment but never climb above the root.
- `Responses` (`responses.dfy`): the error taxonomy, replies from the
  network, the anchored prefix test, and the classification tail of
  `RequestHandler`.
- `Protocol` (`protocol.dfy`): the service's side of the wire contract.
  `Interpret` reads a request back into the command it asks for, and reads
  anything that is not exactly one documented shape as nothing. This reader
  is the independent partner that the builders are proved against.
- `Pastebin` (`pastebin.dfy`): the client value and one pure builder per
  call. It also holds the result-limit rule, and `Perform` and `FetchPaste`,
  which run a call against a server oracle.

The network is a parameter, `Server = Request -> Reply`. It gives either the
whole body or a transport failure for each request. A `Call` records the
requests a call sent and what the call returned. "No request is sent" is
therefore a statement about the `sent` list.

`CreateNewPaste` validates neither the visibility code nor the expiry
token: it sends `strconv.Itoa(pasteMod)` for any `int` and the expiry string
as given (`pastebin/pastebin.go:150-151`). The model's `CreateNewPaste`
therefore takes an `int` and a `string`. The `Expiry` and `Visibility` types
model the constants at `pastebin/pastebin.go:22-27` and `45-56`, and
`PasteFieldsRoundTrip` covers the uploads whose arguments come from them.

## Model

| member | source | states |
|---|---|---|
| Wire.ExpiryTokenRoundTrip | pastebin/pastebin.go:45-56 | the nine expiry constants are distinct tokens: reading a token back gives its directive, and a text reads as a directive exactly when it is that directive's token |
| Wire.VisibilityOfCode | pastebin/pastebin.go:22-27 | Public, Unlisted and Private are numbered 0, 1, 2 in declaration order; exactly the codes 0..2 name a visibility, and that visibility's code is the input |
| Wire.VisibilityCodeRoundTrip | pastebin/pastebin.go:22-27 | every visibility is recovered from its code |
| Decimal.Itoa | pastebin/pastebin.go:150 | the text of n starts with '-' exactly when n is negative and is otherwise all digits |
| Decimal.NatDigits | pastebin/pastebin.go:191 | the digits of a natural number are non-empty digits without a leading zero, and "0" only for zero |
| Decimal.NatDigitsValue | pastebin/pastebin.go:191 | the value of the digits written for n is n |
| Decimal.ItoaRoundTrip | pastebin/pastebin.go:150 | reading back the decimal text of any integer gives that integer |
| Decimal.ItoaInjective | pastebin/pastebin.go:191 | two integers have the same decimal text exactly when they are equal |
| Paths.Split | pastebin/pastebin.go:243 | a path splits into at least one piece, and no piece contains a slash |
| Paths.Resolve | pastebin/pastebin.go:243 | resolving segments leaves only plain names, with no empty, "." or ".." segment |
| Paths.Clean | pastebin/pastebin.go:243 | a cleaned rooted path is again rooted |
| Paths.Join | pastebin/pastebin.go:243 | joining an element to a rooted base gives a rooted path |
| Paths.SplitConcat | pastebin/pastebin.go:243 | splitting undoes joining slash-free segments with slashes |
| Paths.ConcatSplit | pastebin/pastebin.go:243 | joining the pieces of a path with slashes gives back the path |
| Paths.SplitAppend | pastebin/pastebin.go:243 | a slash between two texts separates their pieces |
| Paths.CleanIdempotent | pastebin/pastebin.go:243 | cleaning an already cleaned path changes nothing |
| Paths.ResolveAppend | pastebin/pastebin.go:243 | resolving two runs of segments is resolving the second from the stack the first leaves |
| Paths.JoinDotSegments | pastebin/pastebin.go:243 | joining an empty element or "." to a clean rooted base gives the base, and ".." gives its parent |
| Paths.SimpleKeyJoin | pastebin/pastebin.go:243 | joining a single plain segment to a clean rooted base appends it after one slash |
| Responses.CheckResponseError | pastebin/pastebin.go:113-120 | the character-by-character anchored match reports bad exactly when the body begins with "Bad API request" |
| Responses.Classify | pastebin/pastebin.go:105-110 | a body is an error exactly when it begins with the prefix; the error is a service error; its reported text is the body in both cases |
| Responses.Receive | pastebin/pastebin.go:95-110 | a call succeeds only on a delivered body without the prefix; a service error only comes from a delivered body with the prefix; a transport failure, and only that, gives a transport error; the reported text is the delivered body or the failure's message |
| Responses.ClassifyIsAnchored | pastebin/pastebin.go:69-73 | the pattern is anchored: extending a bad body keeps it bad, and the prefix later in a body that starts differently does not make it bad |
| Responses.ClassifyExactlyPrefix | pastebin/pastebin.go:105-108 | the prefix followed by any text is a service error carrying the whole body, and any body shorter than the prefix is a success |
| Protocol.Interpret | pastebin/pastebin.go:29-65 | a request the service accepts is a POST; its command's developer key is the api_dev_key field; it names a user key exactly when api_user_key is present, with that field's value |
| Pastebin.GetUserKey | pastebin/pastebin.go:122-136 | the login request goes to the login URL and is read as a login with the given username and password under the developer key; it has no user key and no option |
| Pastebin.CreateNewPaste | pastebin/pastebin.go:138-161 | the upload goes to the post URL with option "paste"; a guest upload has no api_user_key, any other carries the client's user key; api_paste_private is the decimal text of the mod; the service reads back exactly the text, title, format, expiry and mod given |
| Pastebin.GetUserInfo | pastebin/pastebin.go:163-177 | the request goes to the post URL and is read as "userdetails" under both keys |
| Pastebin.ResultsLimit | pastebin/pastebin.go:181-185 | the limit is accepted exactly for 0..1000; an accepted limit lies in [1, 1000]; 0 becomes 50, any other accepted value is kept; a rejection carries the range message |
| Pastebin.ListUserPastes | pastebin/pastebin.go:179-200 | a request is built exactly when the limit is in 0..1000, and otherwise the range error is returned; api_results_limit is the decimal of the limit, or of 50 for 0; the service reads it as a listing of that many |
| Pastebin.GetUserPaste | pastebin/pastebin.go:202-216 | the request goes to the raw API URL and is read as "show_paste" of that key under both keys |
| Pastebin.DeleteUserPaste | pastebin/pastebin.go:218-232 | the request goes to the post URL and is read as "delete" of that key under both keys |
| Pastebin.GetPaste | pastebin/pastebin.go:234-245 | the public fetch is a GET with no form fields, so no key is sent and the service's form reader sees no command; its URL is the raw origin followed by a path that begins with a slash |
| Pastebin.Build | pastebin/pastebin.go:122-232 | an operation fails to produce a request exactly when it is a listing with an out-of-range limit |
| Pastebin.Perform | pastebin/pastebin.go:84-111 | a call sends exactly the request its operation builds, and nothing when building fails, in which case it returns a local validation error; the sent request is a signed POST, and the result is the classified answer to it |
| Pastebin.FetchPaste | pastebin/pastebin.go:234-263 | the public fetch sends one GET and returns the delivered body unchanged, or the transport failure |
| Pastebin.BuildRoundTrip | pastebin/pastebin.go:124-226 | every built request carries the developer key, and the service reads it as exactly the operation it came from, under the user key that operation attaches, with a zero limit arriving as 50 |
| Pastebin.BuildDistinguishesOperations | pastebin/pastebin.go:124-226 | two operations that build the same request ask the service for the same thing |
| Pastebin.ListLimitRejectedBeforeSending | pastebin/pastebin.go:180-185 | a negative limit or one above 1000 sends nothing and returns the range error, whatever the server would answer |
| Pastebin.ListLimitAsSent | pastebin/pastebin.go:181-191 | a limit in [1, 1000] reaches the service unchanged, and 0 reaches it as 50 |
| Pastebin.GuestPasteIgnoresUserKey | pastebin/pastebin.go:144-146 | a guest upload is the same request whatever user key the client holds |
| Pastebin.PasteFieldsRoundTrip | pastebin/pastebin.go:148-152 | reading the upload's fields back gives the original text, title and format, the expiry directive and the visibility code |
| Pastebin.ReplyReportedVerbatim | pastebin/pastebin.go:105-110 | for every operation, a delivered body is reported word for word, and it is a service error exactly when it begins with the prefix |
| Pastebin.RawFetchNotClassified | pastebin/pastebin.go:255-262 | the public fetch returns even a bad-request body as content, which an API call would classify as an error |
| Pastebin.GetPasteSimpleKey | pastebin/pastebin.go:238-245 | a key that is one plain segment is fetched from https://pastebin.com/raw/ followed by the key |
| Pastebin.GetPasteDotKeys | pastebin/pastebin.go:243 | path cleaning sends an empty key or "." to /raw itself, and ".." to the site root |

## Left out

- HTTP transport: `http.Client`, `http.NewRequest`, the Content-Type header, `client.Do` and `ioutil.ReadAll` are left out. The network is the `Server` oracle, and a transport failure is the `TransportFailure` reply with its message.
- Percent-encoding and the key sorting done by `url.Values.Encode` are left out. A request's body is its field map.
- Pastebin.GetPaste: the URL is the raw origin followed by the cleaned path, without the percent-escaping that `URL.String` applies to characters outside the path alphabet.
- Pastebin.GetPaste: `url.Parse` and `http.NewRequest` fail only on malformed URLs. The base URL is a constant, so those error branches are not modelled.
- Pastebin.CreateNewPaste: the paste text arrives through a pointer in Go. A nil pointer would panic, but every caller passes a valid string, so the model takes the string itself.
- Go's `int` is 32 or 64 bits wide depending on the platform, and the model uses unbounded integers. No arithmetic is done on the limit or the mod, so no wrap-around can arise.
- `pastebin/formatter.go` is not part of this model. `UnmarshalData` delegates to `encoding/xml` and exits the process on failure. `PrintData` only writes to the terminal.
- `main.go` is not part of this model. It holds flag parsing, loading the keys from the config file, reading the paste from a file, and printing. It only calls the listing when the flag is above zero, so the 0 → 50 default is reachable through the library but not through that command line.
