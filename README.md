# OPA permission client — a Dafny model

This project models the decision logic of the permission client in the
`opaclient` Go package. The client asks an Open Policy Agent (OPA) server
whether a caller may perform an action on one resource (`QueryPermissions`)
or on many at once (`QueryPermissionsMultiResources`). A shared override
value lets trusted callers bypass the server. A no-op client allows
everything; it is the variant used when authorization is disabled.

The network and the JSON library are not modelled as code. They are oracles
whose every outcome the client must handle:

- `Wire.Json` holds the four encode/decode functions. Each returns `None` on
  a JSON error.
- `Wire.Env.send` maps the HTTP request the client builds to the outcomes of
  the attempts the retrier makes within its window. Each attempt is either
  `Delivered(body)` (status 200) or `Failed`.
- `Wire.RetryUntilSuccessful` reports the body of the first delivered
  attempt, or failure when every attempt failed.

Both Go query functions repeat the same encode → send with retries → decode
sequence. The model defines it once, as `Wire.Exchange`.

Modules and files:

- `wrappers.dfy` (`Wrappers`): `Option` and `Result`.
- `types.dfy` (`Types`): client kinds, actions, options, the request and
  response records, and the defaults (`types.go`).
- `wire.dfy` (`Wire`): the codec and network oracles, the HTTP request, the
  retrier, the shared exchange and the error kinds.
- `http.dfy` (`Http`): `HTTPClient`, its constructor, the bypass test and
  both queries (`http.go`).
- `nop.dfy` (`Nop`): the no-op client (`nop.go`).
- `scenarios.dfy` (`Scenarios`): worked calls whose expected answers follow
  from the contracts of the clients, the exchange and the retrier, and from
  the bypass condition. These are
  a filter query answered with a subset, a denied and an allowed single
  query, an unreachable server, and the override bypass.

Both clients' single queries return a `Wire.Decision`, Go's `(bool, error)`.
The single query is a function, as in the source: straight-line branching
that returns a value. Both multi-resource queries are methods. Each
allocates an `array<bool>` of the input's length, initialised to `false`,
and fills it in place with loops. The slice is returned as
`Option<seq<bool>>`, where `None` is Go's nil slice: it is distinct from
`Some([])`, the empty non-nil slice returned for empty input.

## Model

| member | source | states |
|---|---|---|
| Types.ClientKindName | types.go:21-28 | Every client kind is spelled `http`, `nop` or `mock`. |
| Types.ClientKindNameInjective | types.go:23-27 | The three kind names are distinct, so a name selects exactly one kind. |
| Types.Defaults | types.go:28-29 | The default kind is `nop`. The default request timeout is 10 s (10^10 ns) and is non-zero. |
| Types.ActionName | types.go:93-101 | Every action's wire tag is one of `read`, `list`, `create`, `update`, `delete`. |
| Types.ActionNameInjective | types.go:95-101 | The five tags are pairwise distinct, so the tag sent identifies the action. |
| Wire.Message | http.go:120-166 | Each failure kind is wrapped with a non-empty context message. |
| Wire.PostRequest | http.go:108-142 | The request is a POST to the given URL with the encoded body, expecting 200. Its headers are exactly `Content-Type: application/json` and the client's `User-Agent`. |
| Wire.RetryUntilSuccessful | http.go:131-149 | Failure if and only if every attempt in the window failed. Otherwise the result is the body of an attempt that every earlier attempt failed before; a first attempt that succeeds is taken at once. |
| Wire.RetrySkipsFailures | http.go:132-149 | Failed probes before a success do not change what the retrier reports, so probing is idempotent. |
| Wire.Exchange | http.go:115-166 | The error classification, each case in both directions. The error is `MarshalFailed` exactly when encoding fails. It is `SendFailed` exactly when encoding succeeds and every attempt fails. It is `UnmarshalFailed` exactly when a body is delivered and does not decode. The exchange succeeds exactly when the delivered body decodes, and its value is that decoded response. |
| Wire.ExchangeRetryTransparent | http.go:132-149 | A network that fails some attempts before behaving like another network yields the same exchange outcome as that network. |
| Http.NewHTTPClient | http.go:43-82 | A zero timeout becomes `DefaultRequestTimeOut`; any other timeout is kept. The stored timeout is never zero and is also the HTTP client's timeout. TLS settings (TLS 1.3 minimum, skip verification) are installed if and only if verification is skipped. All other settings are stored unchanged. |
| Http.NewHTTPClientIdempotent | http.go:53-56 | Building a client from another client's own settings gives that same client, so timeout defaulting is idempotent. |
| Http.Bypass | http.go:98 | An empty configured override value never fires the bypass, whatever the caller sends. The bypass fires when the configured value is non-empty and equals the caller's value, and the same test is at http.go:187. |
| Http.QueryRequest | http.go:198-202 | The single request carries the resource, the action's tag and the caller's member ids unchanged. |
| Http.FilterRequest | http.go:115-119 | The filter request carries the resources in their given order, the action's tag and the caller's member ids unchanged. |
| Http.QueryExchangeConsultsOnlyQueryPath | http.go:191-247 | The single query consults the network only about the single request built from the call (resource, action tag, member ids), encoded with the single-query codec and posted to the client's address followed by its query path: two networks that answer that one request alike give the same exchange outcome, hence the same answer. |
| Http.FilterExchangeConsultsOnlyFilterPath | http.go:108-166 | The filter query consults the network only about the filter request built from the call (resources in order, action tag, member ids), encoded with the filter codec and posted to the client's address followed by its filter path: two networks that answer that one request alike give the same exchange outcome, hence the same results. |
| Http.RequestsDetermineCall | http.go:115-119 | Two calls produce the same request only if they have the same resources in the same order, the same action and the same member ids. This holds for the filter request and for the single request built at http.go:198-202. |
| Http.QueryPermissions | http.go:181-255 | Bypass gives `(true, nil)`. Outside the bypass, a successful exchange gives exactly the decoded answer with a nil error, and a failed one gives `false` with the exchange's own error. Any error comes with `false`; `true` comes only from the bypass or from a decoded server answer of `true`. |
| Http.QueryPermissionsBypassIgnoresNetwork | http.go:186-189 | Under bypass the answer is the same for every codec and network, so no request is made. |
| Http.QueryPermissionsRetryTransparent | http.go:213-237 | A single query whose attempts fail before succeeding answers exactly like one whose first attempt succeeds. |
| Http.QueryPermissionsMultiResources | http.go:84-179 | A result is returned if and only if there is no error, and it has length `len(resources)`. Equal resources get equal answers. Bypass gives all `true` with a nil error. An exchange failure gives a nil slice and that failure. On success, `results[i]` is true if and only if `resources[i]` is in the allowed subset. |
| Nop.NewNopClient | nop.go:30-36 | The no-op client keeps only the verbose switch it is given. |
| Nop.QueryPermissions | nop.go:54-62 | Always `(true, nil)`, whatever the resource, action or options. |
| Nop.QueryPermissionsMultiResources | nop.go:38-52 | Always a non-nil slice of length `len(resources)` (empty for empty input), every element `true`, and a nil error. |

## Left out

- Network I/O, `http.Transport`/`http.Client` construction and the
  underlying TLS handshake (http.go:58-66, 76-79). The HTTP client is
  reduced to its timeout and its TLS settings.
- The bodies of `retryUntilSuccessful` and `sendHTTPRequest` are not part of
  this model's source files. `Wire.RetryUntilSuccessful` models the retrier
  by its documented behaviour (retry the probe until it reports success or
  the window closes), as it is called at http.go:132-149. The 6 s window and
  1 s interval are wall-clock timing; the model sees only the ordered
  outcomes of the attempts that fit in the window. Status-code validation is
  folded into `Delivered`/`Failed`.
- `json.Marshal`/`json.Unmarshal`, including `omitempty` handling, are a
  foreign library. They are oracle functions returning `Option`.
- The cause chain of wrapped errors (`errors.Wrap`). An error is modelled by
  its kind and its context message only.
- Logging and the `verbose` branches, which have no effect on results.
  `Nop.NewNopClient` therefore only stores the flag.
- Context cancellation (`ctx`), which only aborts in-flight I/O.
- `RaiseForbidden` is carried in `PermissionOptions` but never read, as in
  the source.
- A nil `*PermissionOptions` makes `HTTPClient`'s queries panic on
  dereference: at http.go:98 or 187 when an override value is configured,
  and otherwise at http.go:118 or 201 (`MemberIds`). `NopClient` never reads
  it and accepts nil.
  Options are values in the model, so the nil case does not arise.
- `UserAgent` is defined outside the modelled files. It is a parameter
  (`Env.userAgent`).
- `time.Duration` is an `int64` count of nanoseconds. The model uses an
  unbounded `int`, because no arithmetic in the core can overflow.
- `Action` is a Go string type, so any string can be converted to it. The
  model takes the five declared constants as a closed set.
- Go strings are byte strings, while a Dafny `string` is a sequence of
  characters, so resource and override values that are not valid UTF-8
  are outside the model. `json.Marshal` replaces invalid bytes with U+FFFD,
  so such a resource echoed back by the server would no longer match at
  http.go:174.
- `ClientKind` is also a Go string type (types.go:21). The model takes the
  three declared kinds as a closed set.
- The mock client, and the factory that selects a client by `ClientKind`,
  are not part of this model.
