# flexhttp: timeout defaulting, modelled in Dafny

flexhttp wraps a Go `http.Server` and gives each timeout the caller left at
zero a package default. Zero and negative timeouts mean "no timeout" to
`http.Server`; `New` replaces only zeros, keeps negative values, and can itself
leave a zero in place (see the two points below the list). Its constructor `New` takes a server, or nil, and sets each of the four
timeout fields (`ReadTimeout`, `ReadHeaderTimeout`, `WriteTimeout`,
`IdleTimeout`) to a package default when that field is exactly zero. It mutates
the server in place and returns a wrapper that points at it. With a nil argument
it uses the package-level `DefaultHTTPServer` object itself.

`flexhttp.dfy` holds one module, `FlexHttp`:

- `Duration` is Go's `time.Duration`: a signed 64-bit count of nanoseconds. The
  defaults are 5 s for read, write and idle and 1 s for read-header.
- `Timeouts` is the four timeout fields as one value. `Defaulted(t, d)` is the
  specification of `New`'s four conditional updates: server timeouts `t`,
  defaults `d`. The lemmas beside it state its properties.
- `HttpServer` is `http.Server`, reduced to the four timeouts plus `addr` and
  `handler`. These two stand for every field `New` must leave alone. `Server` is
  the flexhttp wrapper, which holds a reference to an `HttpServer`.
- `PackageState` holds the package-level variable `DefaultHTTPServer`, because
  Dafny has no mutable globals. Its constructor is package initialisation, and
  `New` is its method. `New` modifies only the server it works on. With a null
  argument that server is `DefaultHTTPServer` itself, so every `New(nil)` result
  aliases one object, as in the Go code.

Two points in the code shape the contracts:

- `New` reads the defaults from the fields of `DefaultHTTPServer` at call time,
  not from the constants (flexhttp.go:47, 50, 53, 56). That object is exported
  and mutable, and `New(nil)` hands it out. A caller that zeroes a timeout
  through a `New(nil)` result therefore makes later `New` calls leave that
  timeout at zero. `ZeroedSharedDefault` shows this case. So the guarantee that
  every timeout is non-zero after `New` holds only while the fields of
  `DefaultHTTPServer` are non-zero. The contracts state it with that condition.
- A nil server does not get a new server: every `New(nil)` result wraps the one
  `DefaultHTTPServer` object (flexhttp.go:43-45), so a change made through one
  result is seen through all of them.

## Model

| member | source | states |
|---|---|---|
| `FlexHttp.PackageDefaults` | flexhttp.go:13-18 | the default timeouts are all positive, so non-zero |
| `FlexHttp.Defaulted` | flexhttp.go:46-57 | every non-zero field, negative ones included, is kept exactly; every zero field takes the default of the same field, never another field's; if the defaults are non-zero then so is every result field |
| `FlexHttp.ZeroOnlyFromZeroDefault` | flexhttp.go:46-57 | a result field is zero if and only if the caller left it zero and the matching default is zero |
| `FlexHttp.DefaultedIndependent` | flexhttp.go:46-57 | a field's result depends only on that field of the server and of the defaults, not on the other three fields |
| `FlexHttp.DefaultedIdempotent` | flexhttp.go:46-57 | defaulting an already defaulted server changes nothing |
| `FlexHttp.DefaultedNonZeroUnchanged` | flexhttp.go:46-57 | a server whose four timeouts are all non-zero comes out unchanged |
| `FlexHttp.DefaultsAreFixed` | flexhttp.go:43-57 | defaulting any timeouts against themselves gives them back, so `New(nil)` never changes the defaults and `New` on an explicit server holding the default values gives the same timeouts |
| `FlexHttp.RepeatIsOnce` | flexhttp.go:46-57 | any positive number of successive `New` calls on one server, with unchanged defaults, has the effect of the first call |
| `FlexHttp.HttpServer.constructor` | flexhttp_test.go:55-64 | a composite literal `&http.Server{...}`: the given address, handler and timeouts, zero where omitted |
| `FlexHttp.PackageState.constructor` | flexhttp.go:20-27 | `DefaultHTTPServer` starts as a server with the four default timeouts, an empty address and no handler |
| `FlexHttp.PackageState.New` | flexhttp.go:42-59 | returns a fresh wrapper around the passed server itself, or around `DefaultHTTPServer` when the argument is null; modifies only that server; its timeouts become `Defaulted` of its old timeouts and the old defaults; `addr` and `handler` are untouched; all timeouts are non-zero whenever the defaults are; the timeouts of `DefaultHTTPServer` are the same afterwards, so the non-zero condition survives any sequence of `New` calls |
| `FlexHttp.Server.constructor` | flexhttp.go:58 | the wrapper refers to the given server object; nothing is copied |
| `FlexHttp.NewNilTwice` | flexhttp.go:43-45 | two `New(nil)` calls give two distinct wrappers around one shared server, whose timeouts are the package defaults |
| `FlexHttp.NewTableCases` | flexhttp_test.go:43-86 | for a null server and an empty server every timeout is non-zero after `New`; a server with every timeout set to one minute keeps one minute in all four fields |
| `FlexHttp.ZeroedSharedDefault` | flexhttp.go:43-56 | zeroing a timeout of a `New(nil)` result zeroes the shared default, and a later `New` on an empty server leaves that timeout at zero |

## Left out

- `Run` (flexhttp.go:62-71): it binds a TCP listener and serves requests. This is network I/O inside the Go standard library.
- `Halt` (flexhttp.go:74-77): it forwards to `http.Server.Shutdown` with a context deadline. This is concurrency and connection draining inside the standard library, with no logic of its own.
- The package logger (flexhttp.go:30) and its `Printf` calls: these produce output only.
- Options and `WithLogger`: the test file uses them, but `New` in flexhttp.go takes one parameter and defines no options, so there is nothing to model.
- The fields of `http.Server` other than the four timeouts, `Addr` and `Handler`: `New` never touches them. `addr` and `handler` stand for all of them in the "nothing else changes" clause.
- Lifecycle state: the code holds none; `Run` and `Halt` only forward to the standard library.
- Setting `DefaultHTTPServer` to nil: the field `defaultHttpServer` has the non-null type `HttpServer`, so the model cannot express it. After that assignment the Go `New(nil)` panics at flexhttp.go:46, and `New` on any server with a zero timeout panics at flexhttp.go:47, 50, 53 or 56; the model has no such panic. Reassigning it to another non-nil server is modelled: the field is mutable and `New` leaves it unchanged.
