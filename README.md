# http-cache transport, modelled in Dafny

This project models the caching `http.RoundTripper` decorator of the Go
package `httpcache` (`transport.go`). It has three parts:

- `NewTransport` builds a `Transport` from a `Config`. It fails with `ErrNoCache` when no cache is configured.
- `Transport.RoundTrip` handles one request. It first asks the cache. On a hit it returns the cached response.
  On the miss sentinel `ErrNoResponse` (also when it is wrapped, as `errors.Is` sees it) it does four things:
  - It captures the request body through `GetBody` and `io.ReadAll`.
  - It delegates to the wrapped transport.
  - It installs a fresh body holding the captured bytes as `response.Request.Body`.
  - It saves the response when the save policy says so, and closes both bodies if the save fails.
  Any other cache error ends the call with that error.
- `shouldSaveResponse` is the save policy. It is built on the generic linear search `contains`, and it is
  inverted on purpose: a response is saved when its status code is *not* in `AllowedStatusCodes` or its method is
  *not* in `AllowedMethods`.

Files:

- `wrappers.dfy` (module `Wrappers`): `Option` for nil-able values and `Result` for Go's `(value, error)` returns.
- `transport.dfy` (module `HttpCache`): the errors and `errors.Is`, the body, request and response objects, the
  configuration, `Contains`, the save policy, `NewTransport`, `Transport.ShouldSaveResponse`, `Transport.RoundTrip`,
  and an end-to-end scenario for the policy.

How the collaborators are represented:

- `Body` is an `io.ReadCloser`. A full read either yields its `content` or fails with its `readError`; this is
  the abstraction of `io.ReadAll`. `closed` records that `Close` was called.
- `Request` carries its method, its `GetBody` field and a `body` that `RoundTrip` reassigns.
  `GetBody` is either nil or a function that opens a body or fails.
- `Response` carries its status code, its body and the request that produced it. That request may be the
  caller's own `Request` object, so the body restoration is visible to the caller, as it is in Go.
- The cache and the wrapped transport are outside this model. `RoundTrip` receives what `cache.Read`,
  the wrapped `RoundTrip` and `cache.Save` return as parameters. It consults each one only when it makes that
  call, and returns `steps`, the calls it made, in order.

Details of the Go code that the model keeps:

- The body opened through `GetBody` is closed by a deferred `Close` at the end of the call, not right after it is
  drained.
- The deferred `Close` is registered only after `io.ReadAll` succeeds, so a body whose read fails is left open.
- The body installed into `response.Request.Body` is an `io.NopCloser`. Closing it on a failed save is
  recorded here as a `Close` call, although in Go it releases nothing.
- Construction fails with `ErrNoCache`.

## Model

| member | source | states |
|---|---|---|
| `HttpCache.NewTransport` | transport.go:27-39 | fails with `ErrNoCache` exactly when the config has no cache; otherwise the transport holds the configured cache, the default wrapped transport and the config |
| `HttpCache.Transport.RoundTrip` | transport.go:42-83 | on a hit, returns the cached response after reading the cache and nothing else, with nothing changed. On a non-miss read error, returns that exact error with a nil response and no fallback. On a `GetBody` or `ReadAll` error, returns that error without delegating, and leaves the failed body open. On a transport error, returns it unchanged with no save. Otherwise `response.Request.Body` is a fresh body that reads back exactly the captured bytes (empty without `GetBody`); `Save` is called once exactly when `SaveEligible` holds and never otherwise; a failed save closes the response body and the restored request body and returns the save error with a nil response; success returns the response with a nil error. Every path after a successful capture closes the body opened by `GetBody` |
| `HttpCache.Transport.ShouldSaveResponse` | transport.go:85-90 | true exactly when the status code is not among the allowed status codes or the method is not among the allowed methods |
| `HttpCache.Contains` | transport.go:92-99 | the linear search returns true exactly when the value occurs in the slice |
| `HttpCache.Is` | transport.go:48 | `errors.Is` holds exactly when the target occurs on the error's unwrap chain, so a wrapped `ErrNoResponse` still counts as a miss |
| `HttpCache.SaveScenario` | transport.go:71-75 | with allowed methods {GET} and allowed status codes {200}, a miss answered by GET 200 is not saved, while POST 200 and GET 500 are saved |

## Left out

- The concrete `net/http` types and `http.DefaultTransport` are not modelled. Requests and responses keep only the fields the core reads or writes. The wrapped transport is an identity plus the outcome it returns.
- Streams are whole-body abstractions. The model has no partial reads and no reader position, and does not model the wrapped transport consuming `request.Body`.
- The `Cache` implementations and the definitions of `Cache`, `Config` and `ErrNoResponse` are not part of this model. A cache is an identity, and its `Read`/`Save` results are parameters of `RoundTrip`.
- Concurrency is not modelled. The core does no locking, and safety under parallel calls depends on the cache.
- Go runtime panics are not modelled. These are a nil `config`, nil `AllowedStatusCodes`/`AllowedMethods` pointers, and a nil response (or nil `response.Request`) from the wrapped transport without an error. The model's types make these values non-nil.
- The errors returned by `Close` are ignored by the source and are not modelled.
- The order of the deferred `Close` relative to the closes on a failed save is not modelled. It is not observable.
- `HttpCache.Is`: multi-error trees (`Unwrap() []error`) and custom `Is` methods are not modelled. Errors compare by value, not by the pointer identity `errors.New` gives.
- `HttpCache.NewTransport`: the transport keeps the config by value. Go keeps a `*Config` and reads the allow-lists through pointers on each call, so later changes by the caller are not modelled.
- `NewTransport` allocating the struct before the nil check is not modelled. It is not observable.
