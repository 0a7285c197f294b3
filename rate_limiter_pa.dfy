/**
  The Rack middleware of lib/rate_limiter_pa.rb.

  `RateLimiterPa` wraps a downstream app. Its `call(env)` hands `env` to the
  app, adds the entry `'X-RateLimit-Limit' => 60` to the headers hash the app
  returned, in place, with `merge!`, and returns the app's status, that same
  headers object and the app's body. No quota is counted and no request is
  refused.
*/
module RateLimiter {

  /** A header value: the app's own headers are strings, the limit is the integer 60. */
  datatype HeaderValue = Text(s: string) | Int(n: int)

  /** The name of the header the middleware adds. */
  const LimitHeader: string := "X-RateLimit-Limit"

  /** The value it adds, hard-coded as an integer. */
  const Limit: int := 60

  /** A Ruby headers hash: a mutable object the app creates and the middleware changes. */
  class Headers {

    var entries: map<string, HeaderValue>

    constructor (entries: map<string, HeaderValue>)
      ensures this.entries == entries
    {
      this.entries := entries;
    }

    /** `merge!(other)`: every entry of `other` is added, replacing one with the same key. */
    method Merge(other: map<string, HeaderValue>)
      modifies this
      ensures entries.Keys == old(entries).Keys + other.Keys
      ensures forall k :: k in other ==> entries[k] == other[k]
      ensures forall k :: k in old(entries) && k !in other ==> entries[k] == old(entries)[k]
    {
      entries := entries + other;
    }
  }

  /** A Rack response triple `[status, headers, body]`. */
  datatype Response<B> = Response(status: int, headers: Headers, body: B)

  /**
    The headers as `call` leaves them: `'X-RateLimit-Limit'` maps to 60,
    overwriting any value the app gave it, every other header keeps its value,
    and no other key is added.
  */
  function MergeLimit(h: map<string, HeaderValue>): (r: map<string, HeaderValue>)
    ensures r.Keys == h.Keys + {LimitHeader}
    ensures r[LimitHeader] == Int(60)
    ensures forall k :: k in h && k != LimitHeader ==> r[k] == h[k]
  {
    h + map[LimitHeader := Int(Limit)]
  }

  /** The merge is idempotent: annotating already-annotated headers changes nothing. */
  lemma MergeLimitIdempotent(h: map<string, HeaderValue>)
    ensures MergeLimit(MergeLimit(h)) == MergeLimit(h)
  {
  }

  /**
    Annotating is determined by the headers alone: two header hashes that agree
    on every key but `'X-RateLimit-Limit'` agree entirely once annotated.
  */
  lemma MergeLimitForgetsOldLimit(h1: map<string, HeaderValue>, h2: map<string, HeaderValue>)
    requires h1.Keys - {LimitHeader} == h2.Keys - {LimitHeader}
    requires forall k :: k in h1 && k != LimitHeader ==> k in h2 && h1[k] == h2[k]
    ensures MergeLimit(h1) == MergeLimit(h2)
  {
    var r1, r2 := MergeLimit(h1), MergeLimit(h2);
    assert h1.Keys + {LimitHeader} == (h1.Keys - {LimitHeader}) + {LimitHeader};
    assert h2.Keys + {LimitHeader} == (h2.Keys - {LimitHeader}) + {LimitHeader};
    forall k | k in r1 ensures r1[k] == r2[k] {
      if k != LimitHeader {
        assert k in h1 && k in h2;
      }
    }
  }

  /**
    A downstream Rack app: an object that answers `call(env)`. What it answers
    is the function `respond`; the ghost log `calls` records every
    environment it has been handed, so callers can see how often it ran.
  */
  class App<E, B> {

    const respond: E -> Response<B>

    ghost var calls: seq<E>

    constructor (respond: E -> Response<B>)
      ensures this.respond == respond
      ensures calls == []
    {
      this.respond := respond;
      calls := [];
    }

    /** `app.call(env)`: one invocation, logged, answering `respond(env)`. */
    method Invoke(env: E) returns (r: Response<B>)
      modifies this`calls
      ensures calls == old(calls) + [env]
      ensures r == respond(env)
    {
      calls := calls + [env];
      r := respond(env);
    }
  }

  class RateLimiterPa<E, B> {

    /** `@app`: the downstream app. */
    const app: App<E, B>

    /** `initialize(app)`: only remembers the app. */
    constructor (app: App<E, B>)
      ensures this.app == app
    {
      this.app := app;
    }

    /**
      `call(env)`: the app is invoked exactly once, with `env` itself; the
      status, the headers object and the body it returned come back, the
      headers object changed in place by `MergeLimit`. The status is the
      app's, so no request is refused. `downstreamHeaders` names the contents
      of the app's headers hash before the call.
    */
    method Call(env: E, ghost downstreamHeaders: map<string, HeaderValue>) returns (r: Response<B>)
      requires allocated(app.respond(env).headers)
      requires app.respond(env).headers.entries == downstreamHeaders
      modifies app`calls, app.respond(env).headers
      ensures app.calls == old(app.calls) + [env]
      ensures r.status == app.respond(env).status
      ensures r.body == app.respond(env).body
      ensures r.headers == app.respond(env).headers
      ensures r.headers.entries == MergeLimit(downstreamHeaders)
    {
      var downstream := app.Invoke(env);
      downstream.headers.Merge(map[LimitHeader := Int(Limit)]);
      r := Response(downstream.status, downstream.headers, downstream.body);
    }
  }

  /**
    The request of spec/rate_limiter_pa_spec.rb:5-14: an app answering
    `[200, {'Content-Type' => 'text/plain'}, ['OK']]`, wrapped once. The app
    runs once, and the response is 200 with the body untouched and exactly the
    two headers.
  */
  method PlainTextRequest<E>(env: E) returns (r: Response<seq<string>>, ghost runs: nat)
    ensures runs == 1
    ensures r.status == 200
    ensures r.body == ["OK"]
    ensures r.headers.entries == map["Content-Type" := Text("text/plain"), LimitHeader := Int(60)]
  {
    var h := new Headers(map["Content-Type" := Text("text/plain")]);
    var app := new App<E, seq<string>>(_ => Response(200, h, ["OK"]));
    var limiter := new RateLimiterPa(app);
    r := limiter.Call(env, map["Content-Type" := Text("text/plain")]);
    runs := |app.calls|;
  }

  /**
    Annotating a response a second time changes nothing: a second limiter
    whose app answers with the first limiter's response, for one request,
    gives the status, body and headers of a single limiter.
  */
  method AnnotateTwice<E, B>(env: E, status: int, h: map<string, HeaderValue>, body: B)
    returns (r: Response<B>)
    ensures r.status == status && r.body == body
    ensures r.headers.entries == MergeLimit(h)
  {
    var headers := new Headers(h);
    var app := new App<E, B>(_ => Response(status, headers, body));
    var once := new RateLimiterPa(app);
    var first := once.Call(env, h);
    var replay := new App<E, B>(_ => first);
    var again := new RateLimiterPa(replay);
    r := again.Call(env, MergeLimit(h));
    MergeLimitIdempotent(h);
  }
}
