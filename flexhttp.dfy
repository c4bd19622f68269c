/** A model of the flexhttp package: the timeout-defaulting constructor `New`,
    the package-level default server it falls back on, and the wrapper it returns.

    Durations are Go `time.Duration` values: signed 64-bit counts of nanoseconds.
    `New` does no arithmetic on them, so no wrap-around arises; the newtype only
    records the range a Go program can hold.
 */
module FlexHttp {

  newtype Duration = x: int | -0x8000_0000_0000_0000 <= x < 0x8000_0000_0000_0000

  const Second: Duration := 1_000_000_000

  const DefaultIdleTimeout: Duration := 5 * Second
  const DefaultWriteTimeout: Duration := 5 * Second
  const DefaultReadTimeout: Duration := 5 * Second
  const DefaultReadHeaderTimeout: Duration := 1 * Second

  /** The request-handling logic of a server; never inspected here. */
  datatype Handler = NilHandler | SomeHandler(id: nat)

  /** The four timeout fields of a server, as one value. */
  datatype Timeouts = Timeouts(read: Duration, readHeader: Duration, write: Duration, idle: Duration)

  datatype Field = Read | ReadHeader | Write | Idle

  function Get(t: Timeouts, f: Field): Duration {
    match f
    case Read => t.read
    case ReadHeader => t.readHeader
    case Write => t.write
    case Idle => t.idle
  }

  predicate NonZero(t: Timeouts) {
    forall f: Field :: Get(t, f) != 0
  }

  /** The timeouts `DefaultHTTPServer` is initialised with. */
  function PackageDefaults(): (r: Timeouts)
    ensures NonZero(r)
    ensures forall f: Field :: 0 < Get(r, f)
  {
    Timeouts(DefaultReadTimeout, DefaultReadHeaderTimeout, DefaultWriteTimeout, DefaultIdleTimeout)
  }

  /** One conditional update of `New`: a zero field takes the default, any other value stays. */
  function DefaultField(v: Duration, d: Duration): Duration {
    if v == 0 then d else v
  }

  /** What `New` does to the four timeouts of a server `t`, the defaults being read from `d`. */
  function Defaulted(t: Timeouts, d: Timeouts): (r: Timeouts)
    // a field the caller set, to any non-zero value (negative included), is kept exactly
    ensures forall f: Field :: Get(t, f) != 0 ==> Get(r, f) == Get(t, f)
    // a zero field takes the default of the same field, never another field's
    ensures forall f: Field :: Get(t, f) == 0 ==> Get(r, f) == Get(d, f)
    // so every field is non-zero once the defaults are
    ensures NonZero(d) ==> NonZero(r)
  {
    Timeouts(DefaultField(t.read, d.read), DefaultField(t.readHeader, d.readHeader),
             DefaultField(t.write, d.write), DefaultField(t.idle, d.idle))
  }

  /** A field of the result is zero exactly when the caller left it zero and the default is zero too. */
  lemma ZeroOnlyFromZeroDefault(t: Timeouts, d: Timeouts, f: Field)
    ensures Get(Defaulted(t, d), f) == 0 <==> Get(t, f) == 0 && Get(d, f) == 0
  {
  }

  /** Defaulting is per field: a field's result depends on that field of the input and of the defaults only. */
  lemma DefaultedIndependent(t1: Timeouts, t2: Timeouts, d1: Timeouts, d2: Timeouts, f: Field)
    requires Get(t1, f) == Get(t2, f) && Get(d1, f) == Get(d2, f)
    ensures Get(Defaulted(t1, d1), f) == Get(Defaulted(t2, d2), f)
  {
  }

  /** Defaulting an already defaulted server changes nothing. */
  lemma DefaultedIdempotent(t: Timeouts, d: Timeouts)
    ensures Defaulted(Defaulted(t, d), d) == Defaulted(t, d)
  {
  }

  /** A server whose timeouts are all non-zero is left as it is. */
  lemma DefaultedNonZeroUnchanged(t: Timeouts, d: Timeouts)
    requires NonZero(t)
    ensures Defaulted(t, d) == t
  {
    assert Get(t, Read) != 0 && Get(t, ReadHeader) != 0 && Get(t, Write) != 0 && Get(t, Idle) != 0;
  }

  /** Defaulting the defaults against themselves gives them back: `New(nil)` and `New` on a
      server holding the default values agree, and `New(nil)` never changes the defaults. */
  lemma DefaultsAreFixed(d: Timeouts)
    ensures Defaulted(d, d) == d
  {
  }

  /** The timeouts after `n` successive `New` calls on one server, with unchanged defaults. */
  function Repeat(n: nat, t: Timeouts, d: Timeouts): Timeouts
    decreases n
  {
    if n == 0 then t else Defaulted(Repeat(n - 1, t, d), d)
  }

  /** Any positive number of `New` calls on one server has the effect of the first. */
  lemma {:induction false} RepeatIsOnce(n: nat, t: Timeouts, d: Timeouts)
    requires 1 <= n
    ensures Repeat(n, t, d) == Defaulted(t, d)
  {
    if n > 1 {
      RepeatIsOnce(n - 1, t, d);
      DefaultedIdempotent(t, d);
    }
  }

  /** Go's `http.Server`, restricted to the fields `New` reads or must leave alone. */
  class HttpServer {
    var addr: string
    var handler: Handler
    var readTimeout: Duration
    var readHeaderTimeout: Duration
    var writeTimeout: Duration
    var idleTimeout: Duration

    /** A composite literal `&http.Server{...}`; omitted fields are zero. */
    constructor (addr: string, handler: Handler, t: Timeouts)
      ensures this.addr == addr && this.handler == handler && TimeoutValues() == t
    {
      this.addr := addr;
      this.handler := handler;
      readTimeout := t.read;
      readHeaderTimeout := t.readHeader;
      writeTimeout := t.write;
      idleTimeout := t.idle;
    }

    /** The four timeouts of this server, as one value. */
    function TimeoutValues(): Timeouts
      reads this
    {
      Timeouts.Timeouts(readTimeout, readHeaderTimeout, writeTimeout, idleTimeout)
    }
  }

  /** The flexhttp `Server`: a wrapper holding a pointer to an `http.Server`. */
  class Server {
    var http: HttpServer

    constructor (http: HttpServer)
      ensures this.http == http
    {
      this.http := http;
    }
  }

  /** The package-level variable `DefaultHTTPServer`. Dafny has no mutable globals, so
      `DefaultHTTPServer` is a field of this object and `New` a method of it. */
  class PackageState {
    var defaultHttpServer: HttpServer

    /** Package initialisation: `DefaultHTTPServer` holds the four default timeouts
        and nothing else. */
    constructor ()
      ensures fresh(defaultHttpServer)
      ensures defaultHttpServer.TimeoutValues() == PackageDefaults()
      ensures defaultHttpServer.addr == [] && defaultHttpServer.handler == NilHandler
    {
      defaultHttpServer := new HttpServer([], NilHandler, PackageDefaults());
    }

    /** The server `New(server)` works on: `DefaultHTTPServer` when `server` is null. */
    function Target(server: HttpServer?): HttpServer
      reads this
    {
      if server == null then defaultHttpServer else server
    }

    /** `New(server)`: with a null server, `DefaultHTTPServer` itself is used. Each zero
        timeout of that server is set, in place, to the same field of `DefaultHTTPServer`;
        the server is then wrapped without copying. */
    method New(server: HttpServer?) returns (s: Server)
      modifies Target(server)
      ensures fresh(s) && s.http == Target(server) && defaultHttpServer == old(defaultHttpServer)
      ensures s.http.TimeoutValues()
           == Defaulted(old(Target(server).TimeoutValues()), old(defaultHttpServer.TimeoutValues()))
      ensures s.http.addr == old(Target(server).addr) && s.http.handler == old(Target(server).handler)
      ensures NonZero(old(defaultHttpServer.TimeoutValues())) ==> NonZero(s.http.TimeoutValues())
      // the defaults it reads are never changed, even when it works on `DefaultHTTPServer` itself
      ensures defaultHttpServer.TimeoutValues() == old(defaultHttpServer.TimeoutValues())
    {
      var target := server;
      if target == null {
        target := defaultHttpServer;
      }
      ghost var before := target.TimeoutValues();
      ghost var defaults := defaultHttpServer.TimeoutValues();
      if target.readTimeout == 0 {
        target.readTimeout := defaultHttpServer.readTimeout;
      }
      if target.readHeaderTimeout == 0 {
        target.readHeaderTimeout := defaultHttpServer.readHeaderTimeout;
      }
      if target.writeTimeout == 0 {
        target.writeTimeout := defaultHttpServer.writeTimeout;
      }
      if target.idleTimeout == 0 {
        target.idleTimeout := defaultHttpServer.idleTimeout;
      }
      assert target.TimeoutValues() == Defaulted(before, defaults);
      s := new Server(target);
    }
  }

  /** Two `New(nil)` calls in one program: two distinct wrappers around the one
      package-level server, whose timeouts are the defaults. */
  method NewNilTwice() returns (a: Server, b: Server)
    ensures a != b && a.http == b.http
    ensures a.http.TimeoutValues() == PackageDefaults()
  {
    var pkg := new PackageState();
    a := pkg.New(null);
    DefaultsAreFixed(PackageDefaults());
    b := pkg.New(null);
  }

  /** The three cases of the package's own table test: a null server, an empty server
      and a server with every timeout set to one minute. */
  method NewTableCases() returns (fromNull: Server, fromEmpty: Server, fromMinutes: Server)
    ensures NonZero(fromNull.http.TimeoutValues())
    ensures NonZero(fromEmpty.http.TimeoutValues())
    ensures fromMinutes.http.TimeoutValues() == Timeouts(60 * Second, 60 * Second, 60 * Second, 60 * Second)
  {
    var pkg := new PackageState();
    fromNull := pkg.New(null);
    var empty := new HttpServer([], NilHandler, Timeouts(0, 0, 0, 0));
    fromEmpty := pkg.New(empty);
    var minute := 60 * Second;
    var minutes := new HttpServer([], NilHandler, Timeouts(minute, minute, minute, minute));
    DefaultedNonZeroUnchanged(minutes.TimeoutValues(), pkg.defaultHttpServer.TimeoutValues());
    fromMinutes := pkg.New(minutes);
  }

  /** Because `New(nil)` hands out `DefaultHTTPServer` itself and `New` reads its defaults
      from that same object, a caller that zeroes a timeout through a `New(nil)` result
      makes later `New` calls leave that timeout at zero. */
  method ZeroedSharedDefault() returns (r: Server)
    ensures r.http.readTimeout == 0
    ensures r.http.TimeoutValues() != PackageDefaults()
  {
    var pkg := new PackageState();
    var shared := pkg.New(null);
    shared.http.readTimeout := 0;
    var blank := new HttpServer([], NilHandler, Timeouts(0, 0, 0, 0));
    r := pkg.New(blank);
  }
}
