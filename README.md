# Account API REST client — Dafny model

This project models the core of a Go client library for a financial-accounts REST API
that wraps payloads in a JSON envelope (`{"data": …, "links": …}`). Two parts are modelled.

- **The transport** (`rest-client.go`, module `RestClient`).
  - Client settings: the default base URL and timeout, and the millisecond-to-`time.Duration`
    conversion with Go's 64-bit wrap-around written out.
  - Request construction: the payload is wrapped under `data` and
    `Content-Type: application/json` is set.
  - The ordered decision procedure of `perform`: transport or read failure, then the
    best-effort `error_message` probe, then strict decoding of `data` and `links` into
    caller-owned destinations, then the final return.
  - `Respond` is the pure specification of that procedure. `HttpClient.Perform` is the
    imperative method: it returns early, writes the destinations in place, and is proved
    against `Respond`.
- **The account client** (`account-client.go`, module `Accounts`).
  - The three URL builders, with Go's `%d` rendering modelled by `Decimal.Format`.
  - The four operations. They pass the transport's `(response, error)` pair through
    unchanged. On error they return nil data and links. On success they return the
    destinations the transport filled.

The network and the JSON codec are oracles given as parameters.
- `serve` maps a request and the configured timeout to an `Exchange`: `Do` failed, reading
  the body failed, or a status and a body arrived.
- A body is described by what the codec makes of it:
  - the probe's message and whether the probe's Unmarshal failed;
  - the envelope decode: rejected, or, per field, re-marshal failed, decode into the
    destination failed, or decoded to a value.
- `Library` gives the verdicts of `json.Marshal` on an outgoing envelope and of
  `http.NewRequest` on a method and URL.

A nil `*AccountData` payload is `Option.None`. A nil response or error is `Option.None` too.
A null `Destination` stands for an untyped nil `interface{}` destination only. A Go `error`
is `Error(message)`.

Three behaviours of the code are easy to misread. The model follows the code:
- Go's `:=` at rest-client.go:123 declares a new `err` inside the decode block. As a
  result, a failed re-marshal of `data` or `links` skips that destination silently. The
  final return at rest-client.go:140 always carries a nil error, so not every failure at the
  decode stage is fatal. `Perform` reproduces this with an inner `var err` that shadows the
  out-parameter.
- `data` is decoded into its destination before `links` is decoded. When the `links`
  decode fails, the call returns a nil response and an error, but the data destination has
  already been written (`DataKeptWhenLinksDecodeFails`). So the two destinations are not
  always written together. Links are written only on the success path, and neither is
  written unless both destinations were supplied.
- `CreateAccount` converts its `*AccountData` argument to `interface{}`. Even a nil pointer
  becomes a non-nil payload, so the create request always carries a body, a body whose
  `data` is null for a nil pointer.

## Model

| member | source | states |
|---|---|---|
| Decimal.Natural | account-client.go:96 | `%d` of a non-negative int is a non-empty run of digits that starts with '0' only for zero |
| Decimal.Format | account-client.go:103 | `%d` of any int is a well-formed numeral that starts with '-' exactly when the number is negative |
| Decimal.ParseFormat | account-client.go:103 | reading back what `%d` printed gives the number printed |
| Decimal.FormatParse | account-client.go:96 | every well-formed numeral is what `%d` prints for its value, so printing is a bijection onto numerals |
| Decimal.FormatInjective | account-client.go:103 | distinct integers print as distinct numerals |
| RestClient.Wrap64 | rest-client.go:43 | the 64-bit result is congruent to the exact value modulo 2^64 and equals it when it fits |
| RestClient.DurationOf | rest-client.go:43 | the timeout Duration is `Timeout` × 1 ms exactly whenever that fits in 64 bits |
| RestClient.MillisecondsOfDuration | rest-client.go:43 | converting the Duration back to milliseconds gives the configured `Timeout` |
| RestClient.DefaultClientSetting | rest-client.go:32-40 | without settings the base URL is `http://accountapi:8080/v1/organisation/accounts` and the timeout is 5000 ms (5·10^9 ns) |
| RestClient.HttpClient.constructor | rest-client.go:37-47 | the client copies the given (or default) base URL, and its timeout is that setting's `Timeout` × 1 ms |
| RestClient.BuildRequest | rest-client.go:76-94 | a built request has the given method and URL, and exactly the header `Content-Type: application/json`; it has a body iff there is a payload, and the body wraps the payload under `data`; construction fails iff marshalling the payload or `http.NewRequest` fails; a marshal failure is the error reported, and otherwise `http.NewRequest`'s error is |
| RestClient.HttpRequest.SetHeader | rest-client.go:92 | `Header.Set` leaves the key holding exactly the given value; method, URL, body and other keys are unchanged |
| RestClient.HttpClient.NewHttpRequest | rest-client.go:76-94 | returns a fresh request whose contents are `BuildRequest`'s, or a nil request with `BuildRequest`'s error |
| RestClient.Respond | rest-client.go:98-140 | transport or read failure gives a nil response with the underlying error and no write; a non-empty `error_message` gives the original response with exactly that message as error and no write, whatever the status or envelope; nothing is decoded unless both destinations are present, and then the response comes back without error; with both present, a nil response happens iff the envelope or a field decode fails; a nil response always carries an error; a returned response is the original; a returned response carries an error only when it is the API error; what is written is what the codec decoded, and links are written only on success |
| RestClient.ProbeFailureIgnored | rest-client.go:110-112 | whether the probe's own Unmarshal failed never changes the outcome |
| RestClient.RemarshalFailureSkipped | rest-client.go:123-140 | when re-marshalling both fields fails, the call returns the response with a nil error and writes nothing |
| RestClient.DataKeptWhenLinksDecodeFails | rest-client.go:123-136 | data decoded, links fail: nil response, the links error, and the data destination has been written |
| RestClient.Call | rest-client.go:49-74 | a request-construction failure gives a nil response and that error; any returned response is the one the server sent for the built request |
| RestClient.HttpClient.Perform | rest-client.go:96-141 | the result pair is `Respond`'s for the exchange of this request under this client's timeout; the destinations hold what `Respond` wrote, in the order data then links, and are otherwise unchanged; this holds even when one pointer is passed as both |
| RestClient.HttpClient.Get | rest-client.go:49-56 | result and destination writes are those of `Call` for a GET of the URL with the payload, decoding iff both destinations are non-nil |
| RestClient.HttpClient.Post | rest-client.go:58-65 | result and destination writes are those of `Call` for a POST of the URL with the payload, decoding iff both destinations are non-nil |
| RestClient.HttpClient.Delete | rest-client.go:67-74 | the result is that of `Call` for a DELETE with no payload and no decoding; a nil error always comes with a response |
| RestClient.DeleteSucceedsWithoutErrorMessage | rest-client.go:110-140 | a DELETE request has no body; if its response carries no `error_message`, the call returns that response with a nil error whatever its status (204 and 404 alike) |
| Accounts.FetchUrl | account-client.go:87-90 | the fetch URL is the base URL, then one '/', then exactly the id |
| Accounts.ListUrl | account-client.go:93-98 | the list URL has the base URL as a prefix, and it equals the base URL exactly when no page parameters are given |
| Accounts.DeleteUrl | account-client.go:102-105 | the delete URL extends the fetch URL of the same id, and so has the base URL as a prefix |
| Accounts.DeleteUrlExtendsFetchUrl | account-client.go:87-104 | the delete URL is the fetch URL of the same id followed by `?version=` and the decimal version |
| Accounts.VersionReadBack | account-client.go:102-104 | the text after `{base}/{id}?version=` in a delete URL is a numeral that denotes the version |
| Accounts.DeleteUrlDeterminesVersion | account-client.go:102-104 | two delete URLs for the same base and id are equal only for equal versions |
| Accounts.PageSizeReadBack | account-client.go:93-98 | a paged list URL is `{base}?page[number]={n}&page[size]=` followed by a numeral that denotes the page size |
| Accounts.FirstPageOfOne | account-client.go:96 | page "0" of size 1 gives `{base}?page[number]=0&page[size]=1`, with literal brackets |
| Accounts.AccountClient.constructor | account-client.go:17-24 | a given HttpClient is stored by reference, not copied; for nil, a fresh client with the default base URL and timeout is built |
| Accounts.AccountClient.FetchById | account-client.go:28-40 | GETs `{base}/{id}` with no payload into fresh destinations; passes response and error through unchanged; on error returns nil account and links; on success returns the destinations, newly allocated objects holding what was decoded or else their zero values |
| Accounts.AccountClient.ListAccount | account-client.go:44-56 | GETs the (optionally paged) list URL; passes response and error through; on error returns an empty (nil) list and nil links; on success returns the decoded list (or the empty zero value) and the links destination, a newly allocated object |
| Accounts.AccountClient.CreateAccount | account-client.go:60-70 | POSTs the payload to the base URL itself; passes response and error through; on error returns nil account and links; on success returns the filled destinations, newly allocated objects holding what was decoded or else their zero values |
| Accounts.AccountClient.DeleteAccount | account-client.go:74-84 | DELETEs `{base}/{id}?version={v}` and returns exactly the transport's response and error on both paths |
| Accounts.CreateAlwaysSendsBody | account-client.go:63 | the create request always carries a body wrapping the account pointer under `data`, even when the pointer is nil |

## Left out

- The network exchange is an oracle, `serve`. This covers `http.Client.Do`, the request
  context, enforcement of the timeout and `ioutil.ReadAll`. The oracle is given the
  configured timeout, so it may fail with a timeout error, but the model does not say when
  a timeout fires.
- Closing the response body is not modelled. It has no effect on the result.
- The JSON codec is abstract: no JSON text is parsed or produced. Because of this:
  - the echo round trip for POST (a payload sent and echoed back decodes to itself) cannot
    be stated;
  - a failing `json.Unmarshal` is treated as writing nothing, although Go's decoder may have
    filled part of the destination before it failed;
  - a successful decode is treated as replacing the destination's content, although Go
    merges into the existing value (the destinations are always fresh zero values in this
    library, so the difference does not show).
- `http.Response` is represented by its status code alone. Headers and the other fields
  are passed through untouched by the code and are not modelled.
- The request header is a map from a key to one value. `Header.Set` stores a one-element
  list under a canonicalised key; `Content-Type` is already canonical.
- `ResponseBody`, `AccountData` and `Links` are not defined in the files modelled. Accounts
  and links are opaque values here, and their zero values are empty.
- Destinations that Go treats as non-nil but cannot decode into are not represented: a
  typed nil pointer or a non-pointer value stored in `interface{}`. In Go these pass the nil
  test in `perform` and then make `json.Unmarshal` fail, giving a nil response and an error.
  A null `Destination` stands only for an untyped nil interface. The account operations
  always pass `new(...)`, so they never reach this case.
- A nil slice returned by `ListAccount` is represented as the empty sequence.
- `log.Printf` on the error paths of the account operations is not modelled. It is
  diagnostic only and has no effect a caller can see.
- The shared `http.Client` is not modelled as a separate object, and its use from
  concurrent callers is left out. `HttpClient` holds its timeout directly.
- Test files and test utilities are fixtures. They are not modelled.
