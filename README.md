# go-relateiq, modelled in Dafny

A model of the value-level core of go-relateiq, a Go client for the RelateIQ CRM
HTTP API, with proofs about it. The core is:

- the `Time` wrapper, whose JSON form is an integer count of milliseconds since the Unix epoch;
- the mapping of `ListOptions` and `AccountsListOptions` onto query parameters;
- `NewClient` and its defaults, `NewRequest`, `Do`, `CheckResponse` and `ErrorResponse`;
- `AccountsService.List`.

Files:

- `wrappers.dfy` (module `Wrappers`): `Option` and `Result`.
- `text.dfy` (module `Text`): decimal rendering of integers and the JSON integer grammar that reads it back. It also has the comma join that go-querystring applies to `comma`-tagged slices, and the split that undoes it.
- `timestamps.dfy` (module `Timestamps`): `Time` as int64 nanoseconds since the epoch plus a location.
  - `UnixMillis` and `MarshalJSON` encode a time.
  - `FromMillis` and `ReadMillis` decode one.
  - The class `TimeVar` is the receiver that `UnmarshalJSON` assigns in place, and only after a successful parse.
- `query.dfy` (module `Query`): the option records and their parameters as a key-to-value map. Reader functions recover the options from the parameters.
- `relateiq.dfy` (module `RelateIQ`): the rest.
  - The class `Client` has the mutable `BaseURL`, `UserAgent` and `Accounts` fields and the fixed credentials and HTTP client.
  - The class `AccountsService` points back at its client.
  - Requests, responses and errors are records.

The network is a function parameter, `network: (HttpClient, Request) -> RoundTrip<T>`: what the client's HTTP client answers to a request. Body parsing is abstract:

- `Response.ErrorBody` is the `Message` that decoding the body as an `ErrorResponse` yields.
- `Response.Payload` is what decoding the body into the caller's target yields.

Behaviour of the code that the model keeps, including behaviour its doc comments do not mention:

- Encoding divides the nanosecond count by 1,000,000 with Go's truncation toward zero. For negative times this is not floor division. The model follows the code.
- `1000000*msec` is int64 arithmetic and wraps for counts beyond about ±292 years. `FromMillis` models the wrap explicitly, and the round-trip lemmas require the product to be in range.
- In Go, decoding JSON `null` into an int64 is a no-op without error. So `UnmarshalJSON("null")` sets the time to the epoch in UTC. Integers outside the int64 range, fractions, exponents and non-numbers are all errors, and on an error the target is left unchanged.
- `CheckResponse` returns an error for every status outside 200..299. A body that is missing, unreadable or not JSON only leaves the message empty.
- As written, `CheckResponse` decodes the error body into a struct whose exported `Response` field is itself a decode target. So a body with a `Response` member can nil or overwrite the response the error carries, and that is also the response `Do` returns. `CheckResponseAsWritten` models this and the lemmas under "## Findings" exhibit it. `CheckResponse`, which `Do` uses, is the intended behaviour, in which the body cannot touch the response.
- `NewRequest` fails on the first step that fails: go-querystring refusing a non-struct `opt`, then the JSON encoder refusing the body, then `http.NewRequest` refusing the method.
- `List` decodes into a nil `*struct{Objects}`. A 2xx body of JSON `null` leaves that pointer nil, and reading `list.Objects` then panics. The model returns this as the outcome `NilDereference`.
- The code does not check that account IDs are non-empty, and neither does the model.
- `http.NewRequest` sends an empty method as GET and rejects a method name that is not an HTTP token.
- Resolving the request path against `BaseURL` replaces the last segment of the base path (section 5.2.3 of RFC 3986). With the default base URL `https://api.relateiq.com/v2/`, the path `accounts` resolves to `/v2/accounts`.

## Model

| member | source | states |
|---|---|---|
| `Text.DecimalRoundTrip` | relateiq/accounts.go:25-27 | the decimal text of any integer reads back as that integer under the JSON integer grammar |
| `Text.ParseCanonical` | relateiq/accounts.go:26-32 | every JSON integer literal except "-0" is exactly the decimal rendering of the value it parses to, and "-0" parses to 0 |
| `Text.DigitsCanonical` | relateiq/accounts.go:26-32 | a JSON digit string (no leading zero) is the decimal rendering of its value |
| `Text.SplitJoin` | relateiq/accounts.go:47 | splitting the comma-joined IDs at commas gives back exactly the IDs, as long as none contains a comma |
| `Timestamps.Wrap64` | relateiq/accounts.go:35 | the int64 result of an operation is the unique int64 congruent to the exact value modulo 2^64, and it equals the exact value when that is in range |
| `Timestamps.UnixMillis` | relateiq/accounts.go:26 | the millisecond count is the nanosecond count divided by 10^6 with truncation toward zero: the remainder takes the sign of the time and has magnitude below 10^6, and for non-negative times it is floor division |
| `Timestamps.FromMillis` | relateiq/accounts.go:35 | decoding sets the location to UTC; the instant is exactly msec·10^6 ns when that fits in int64, and otherwise is congruent to it modulo 2^64 |
| `Timestamps.MarshalJSON` | relateiq/accounts.go:25-27 | the JSON text is an integer literal whose value is the truncated millisecond count |
| `Timestamps.ReadMillis` | relateiq/accounts.go:31-34 | an int64 integer literal (surrounding JSON whitespace allowed) is accepted with its value; `null` is accepted as 0; every other text is rejected |
| `Timestamps.TimeVar.UnmarshalJSON` | relateiq/accounts.go:30-37 | no error exactly when the wire value parses; then the target becomes FromMillis of the count; on an error the target is unchanged |
| `Timestamps.MillisRoundTrip` | relateiq/accounts.go:25-37 | for every millisecond count whose nanosecond product fits in int64, encoding the decoded time gives the count back |
| `Timestamps.TruncatingRoundTrip` | relateiq/accounts.go:25-37 | decoding an encoded time gives the time truncated toward zero to the millisecond, in UTC; a time on a whole millisecond keeps its instant |
| `Timestamps.WireRoundTrip` | relateiq/accounts.go:25-37 | the JSON text MarshalJSON writes is read back by UnmarshalJSON's parse as the same millisecond count |
| `Timestamps.CanonicalReencoding` | relateiq/accounts.go:25-37 | a wire value that decodes to an in-range count is re-encoded as that count's decimal text, which is the wire text without surrounding whitespace, except that `null` and `-0` re-encode as "0" |
| `Timestamps.AccountTimestampVector` | relateiq/accounts_test.go:13-30 | 1414001420560 decodes to 1414001420 s + 560000000 ns past the epoch in UTC, and encodes back to "1414001420560" |
| `Timestamps.ListedTimestampVector` | relateiq/accounts_test.go:38 | 123000 ms decodes to 123 s past the epoch |
| `Query.ListOptionsValues` | relateiq/relateiq.go:130-133 | `_start` is present exactly when Start is non-zero and `_limit` exactly when Limit is non-zero (negatives included); each value is the decimal text of its field; no other key |
| `Query.AccountsListOptionsValues` | relateiq/accounts.go:46-49 | `_ids` is present exactly when IDs is non-empty, its value is the IDs joined with commas, and it splits back into the IDs when none holds a comma; all other parameters are exactly those of the embedded ListOptions |
| `Query.ListOptionsRoundTrip` | relateiq/relateiq.go:130-133 | reading the parameters back (absent means zero) recovers the ListOptions exactly |
| `Query.AccountsListOptionsRoundTrip` | relateiq/accounts.go:46-49 | reading the parameters back recovers AccountsListOptions whose IDs hold no comma |
| `Query.AccountsListOptionsVector` | relateiq/accounts_test.go:45-57 | IDs [a, b] with Start 1 and Limit 1 give exactly {_ids: "a,b", _start: "1", _limit: "1"} |
| `Query.CommaIDsCollide` | relateiq/accounts.go:47 | the single ID "a,b" and the two IDs "a", "b" give the same parameters, which read back as the two IDs |
| `Query.EmptyOptionsVector` | relateiq/accounts.go:46-49 | no IDs and zero Start and Limit give no parameters |
| `RelateIQ.ResolvePath` | relateiq/relateiq.go:75 | the resolved path starts with '/', and an absolute reference replaces the base path |
| `RelateIQ.ResolveAppends` | relateiq/relateiq.go:67-75 | a relative path without a leading slash is appended to a base path that ends in '/' |
| `RelateIQ.CheckResponse` | relateiq/relateiq.go:140-150 | as intended (see Findings): no error exactly when 200 ≤ status ≤ 299; otherwise always an ErrorResponse carrying the unchanged response, with the body's message, or the empty message when the body yields none |
| `RelateIQ.CheckResponseAsWritten` | relateiq/relateiq.go:140-156 | as written: no error exactly when 200 ≤ status ≤ 299; otherwise the body's message; the carried response is nil exactly when the body's `Response` member is null; a carried response is the shared one `Do` returns; the shared response differs from the original only in its status, which is the body's `StatusCode` when the body has one; its body is nilled exactly when the member says `"Body": null` |
| `RelateIQ.AsWrittenAgrees` | relateiq/relateiq.go:140-156 | for a body without a `Response` member, the code as written and the intended CheckResponse agree |
| `RelateIQ.StatusRewriteFinding` | relateiq/relateiq.go:144-147 | a 404 with body `{"Response":{"StatusCode":200}}` returns an error whose response, shared with `Do`'s result, reports 200, where the intended error reports 404 |
| `RelateIQ.NilResponseFinding` | relateiq/relateiq.go:144-147 | a 404 with body `{"Response":null}` returns an error carrying no response, where the intended error carries the response |
| `RelateIQ.NilBodyFinding` | relateiq/relateiq.go:144-147 | a 404 with body `{"Response":{"Body":null}}` leaves the shared response, which `Do` and `List` return to their caller, without a body |
| `RelateIQ.ErrorStatus` | relateiq/relateiq.go:165-167 | with the intended CheckResponse, the status an API error reports is the status of the response it was built from |
| `RelateIQ.ErrorLayout` | relateiq/relateiq.go:158-163 | the error text is method, " ", URL, ": ", the decimal status (readable back as the status), " ", then the message |
| `RelateIQ.NotFoundText` | relateiq/relateiq.go:158-163 | a 404 "not found" on GET of the accounts URL reads "GET https://api.relateiq.com/v2/accounts: 404 not found" |
| `RelateIQ.Client.NewClient` | relateiq/relateiq.go:52-65 | a nil HTTP client becomes the default one; base URL https://api.relateiq.com/v2/ and user agent "go-relateiq/0.0.1"; the stored credentials are the given ones; a fresh Accounts service refers back to the same client |
| `RelateIQ.AccountsService.constructor` | relateiq/relateiq.go:63 | the service refers to the client it is built for |
| `RelateIQ.Client.NewRequest` | relateiq/relateiq.go:74-101 | a non-struct `opt`, or else an unencodable body, or else an invalid method, is an error, and nothing else is; otherwise the request carries the stored credential pair, exactly the current user agent header, the resolved path on the base scheme and host, the options' parameters as query only when options are given, and the body's JSON followed by a newline |
| `RelateIQ.Client.Do` | relateiq/relateiq.go:106-126 | transport failure: no response and the transport error; non-2xx: the response and exactly the API error CheckResponse builds from it, with its status and message; 2xx with a failed decode: no response and a decode error naming method and URL; no error exactly when 2xx and (with a target) the decode succeeds, and then the delivered response and the decoded value |
| `RelateIQ.AccountsService.List` | relateiq/accounts.go:52-67 | one GET of "accounts" with the options as query; building it never fails; on a Do error no accounts with Do's response and error passed through unchanged; on success the envelope's objects and no error; a nil envelope panics |
| `RelateIQ.ListRequestVector` | relateiq/accounts_test.go:42-59 | with the default base URL, listing with IDs [a, b], Start 1, Limit 1 builds exactly GET https://api.relateiq.com/v2/accounts with those three parameters, the client's credentials, its user agent and an empty body |
| `RelateIQ.EmptyOptionsNoQuery` | relateiq/relateiq.go:77-83 | empty account options put no query on the request |
| `RelateIQ.ListSuccessVector` | relateiq/accounts_test.go:33-75 | a 200 answer whose envelope holds one account makes List return exactly that account, the response and no error |
| `RelateIQ.ListNotFoundVector` | relateiq/relateiq.go:113-118 | a 404 answer with message "not found" makes List return no accounts, the response and an API error with status 404, that message and the text "GET https://api.relateiq.com/v2/accounts: 404 not found" |

## Left out

- The HTTP transport (`httpClient.Do`), reading and closing response bodies: network I/O, replaced by the `network` parameter.
- JSON encoding and decoding in general (`encoding/json`) is a foreign library. Request bodies are `JsonBody` values. Response bodies are the parse results `ErrorBody` and `Payload`. The `id` and `name` fields of an account are not decoded from text.
- `url.Values.Encode` and go-querystring's byte-level output (key sorting, percent-escaping) are library behaviour. Query parameters stay a key-to-value map.
- RelateIQ.CheckResponse: states the intended behaviour, in which the error body cannot change or nil the carried response. The code as written can, and `CheckResponseAsWritten` models that (see Findings). `Do`, `List` and their vectors use the intended version.
- RelateIQ.ErrorStatus: holds for the intended CheckResponse only. As written, a body with a `Response` member can change the reported status or leave no response to read it from (see Findings).
- RelateIQ.CheckResponseAsWritten: the aliasing between the error's `Response` pointer and the response `Do` returns is modelled by returning the updated shared response as a value. Of the fields decoded into it, only `StatusCode` and a null `Body` are represented. A body whose `Response` member is null and then an object (which allocates a fresh response) is not represented.
- RelateIQ.Client.NewRequest: a typed nil pointer passed as `opt`, which go-querystring encodes as no parameters, is not represented. `QueryOptions` holds only non-nil values.
- ErrorResponse.Error: the URL is rendered without its query string, because the query's byte encoding is not modelled. Its text is exact for requests without a query.
- RelateIQ.ResolvePath: leaves out dot-segment removal (section 5.2.4 of RFC 3986) and path percent-escaping, which are library behaviour. The base URL's fragment and user info are not modelled either.
- RelateIQ.AccountsService.List: the early return on a request-building error is not modelled, because that error needs `http.NewRequest` to fail to re-parse the URL text (only possible with a malformed user-set `BaseURL`), and URL parsing is not modelled.
- The decode error's message text ("reading response from ...") and the cause inside it. The model keeps the method and URL it names.
- `SetBasicAuth`'s base64 header value (section 2 of RFC 7617) is inside net/http. The request carries the credential pair.
- `time.Time` wall-clock, monotonic and time zone internals. A time is int64 nanoseconds since the epoch plus a location, so times outside that range are not represented.
- Go's nil and empty slices are both the empty sequence. Nil `*Account` entries in `objects` are not represented.
- `Start` and `Limit` are unbounded integers rather than Go's 64-bit `int`. No arithmetic is done on them.
- relateiq/example_test.go: environment variables, printing and exit status, which are demo plumbing.

## Findings

| source | as written | input that shows it | evidently intended | confidence | as-written member | corrected member |
|---|---|---|---|---|---|---|
| relateiq/relateiq.go:144-156 | the error body is decoded into `&ErrorResponse{Response: r}`, and the `Response` field is a JSON decode target, so the body can write through the pointer into `r` | a 404 with body `{"Response":{"StatusCode":200}}`: an error is returned, but its response and `Do`'s response report status 200 | the carried response is the response checked, unchanged (a `json:"-"` tag on the field) | medium, not executed | `RelateIQ.StatusRewriteFinding` | `RelateIQ.ErrorStatus` |
| relateiq/relateiq.go:144-167 | a `null` `Response` member sets the error's response pointer to nil | a 404 with body `{"Response":null}`: `Error()` and `HTTPStatusCode()` dereference nil | the error always carries the response | medium, not executed | `RelateIQ.NilResponseFinding` | `RelateIQ.CheckResponse` |
| relateiq/relateiq.go:117-147 | a `"Body": null` member inside the `Response` object nils the shared response's body | a 404 with body `{"Response":{"Body":null}}`: `Do` (and so `List`) returns a response whose `Body` is nil, and a caller that reads or closes it dereferences nil; the `Close` that `Do` defers still runs on the original body, bound when the `defer` ran | the returned response keeps its `Body` | medium, not executed | `RelateIQ.NilBodyFinding` | `RelateIQ.CheckResponse` |
