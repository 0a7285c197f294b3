# rate_limiter_pa, modelled in Dafny

The repository `rack_workshop` has a Rack middleware, `RateLimiterPa`, and a
small in-memory store, `DefaultStore`, meant to back it. This project models
both as they are written, and proves what they promise.

- `Store` (`default_store.dfy`) models `DefaultStore`. The class holds its hash
  `@data` as a `map<K, V>` field. `Get` reads the field and `Set` assigns one
  key in place. The value-level functions `Lookup`, `Apply` and `Replay` give
  the meaning of these calls and of whole histories of reads and writes. The
  lemmas over them prove last-write-wins, that other keys are unaffected, that
  reads change nothing, and that a fresh store is empty.
- `RateLimiter` (`rate_limiter_pa.dfy`) models `RateLimiterPa`. The downstream
  app is an object (class `App`). What it answers to an environment is the
  function `respond`. Its method `Invoke` is one `app.call(env)` and logs the
  environment in the ghost field `calls`. The headers hash is an object too
  (class `Headers`), so `merge!` changes the app's own hash in place, and
  `call` returns that same object. `MergeLimit` states the resulting headers.
  `Call`'s contract says that the app's log grows by exactly `[env]`, so the
  app runs once, with `env` unchanged.
- `Wrappers` (`wrappers.dfy`) holds `Option`, whose `None` models Ruby's `nil`.

The code and the repository's own test file disagree. The test file
`spec/rate_limiter_pa_spec.rb` targets a `Rack::RateLimiterPa` built with an
options hash such as `{ limit: '60' }`. It expects an `X-RateLimit-Remaining`
header that drops by one per request, and a default limit of `'0'`. The class
in `lib/rate_limiter_pa.rb` takes only `app`, adds no `X-RateLimit-Remaining`,
and always adds the integer 60 as `X-RateLimit-Limit`. This model follows the
code.

## Model

| member | source | states |
|---|---|---|
| Store.DefaultStore.constructor | lib/rate_limiter_pa/default_store.rb:2-4 | a new store's hash is empty, so every key reads as `nil` |
| Store.DefaultStore.Get | lib/rate_limiter_pa/default_store.rb:6-8 | the result is `Some` of the stored value when the key is present and `None` exactly when it is absent; the store is not changed (no `modifies`) |
| Store.DefaultStore.Set | lib/rate_limiter_pa/default_store.rb:10-12 | the key now holds the value, the key set grows by that key only, every other key keeps its value, and the call returns the value stored |
| Store.ReplayLastWriteWins | lib/rate_limiter_pa/default_store.rb:6-12 | after any history of `get`/`set` calls, reading a key gives the value of its most recent `set`, or its earlier value if no `set` touched it |
| Store.FreshStoreHistory | lib/rate_limiter_pa/default_store.rb:2-12 | starting from the empty hash, reading a key after any history gives its most recent write, and `nil` if it was never written |
| Store.ReadsAreInvisible | lib/rate_limiter_pa/default_store.rb:6-8 | a history has the same effect on the contents as its writes alone: `get` never changes the store |
| Store.WriteIdempotent | lib/rate_limiter_pa/default_store.rb:10-12 | `set(k, v)` twice leaves the same contents as once |
| Store.WriteOverwrites | lib/rate_limiter_pa/default_store.rb:11 | `set(k, v1)` then `set(k, v2)` leaves the same contents as `set(k, v2)` alone |
| Store.FreshGet | lib/rate_limiter_pa/default_store.rb:2-8 | `get` of any key on a new store returns `nil` |
| Store.SetThenGet | spec/default_store_spec.rb:6-10 | on any store, `set(k, v)` returns `v`, a following `get(k)` returns `v`, and the contents are the old ones with `k` assigned |
| Store.OverwriteThenGet | lib/rate_limiter_pa/default_store.rb:10-12 | on any store, `set(k, v1)`, `set(k, v2)`, `get(k)` returns `v2`, and the contents are as if only `set(k, v2)` had run |
| Store.SetOtherThenGet | lib/rate_limiter_pa/default_store.rb:11 | on any store, a `set` of another key does not disturb the value just written to `k` |
| Store.GetTwice | lib/rate_limiter_pa/default_store.rb:6-8 | two `get`s of one key in a row agree and equal the stored value |
| RateLimiter.Headers.Merge | lib/rate_limiter_pa.rb:10 | `merge!` in place: the keys become the union, keys of the argument take its values, other keys keep theirs |
| RateLimiter.MergeLimit | lib/rate_limiter_pa.rb:10 | the annotated headers map `X-RateLimit-Limit` to 60, overwriting any earlier value, keep every other header, and gain no other key |
| RateLimiter.MergeLimitIdempotent | lib/rate_limiter_pa.rb:10 | annotating already-annotated headers changes nothing |
| RateLimiter.MergeLimitForgetsOldLimit | lib/rate_limiter_pa.rb:10 | two header hashes that differ only in `X-RateLimit-Limit` are equal once annotated |
| RateLimiter.RateLimiterPa.constructor | lib/rate_limiter_pa.rb:4-6 | the middleware stores the app and nothing else |
| RateLimiter.App.Invoke | lib/rate_limiter_pa.rb:9 | one `@app.call(env)`: the app's log grows by exactly `env`, and the answer is the app's response to `env` |
| RateLimiter.RateLimiterPa.Call | lib/rate_limiter_pa.rb:8-12 | the app's log grows by exactly `[env]`, so the app is invoked once, with `env`; the status and body are the app's; the returned headers are the app's own object, changed in place to `MergeLimit` of its contents; nothing else the middleware reaches changes |
| RateLimiter.PlainTextRequest | spec/rate_limiter_pa_spec.rb:5-14 | wrapping the test's app runs it once and gives status 200, body `['OK']` and exactly the headers `Content-Type` and `X-RateLimit-Limit => 60` |
| RateLimiter.AnnotateTwice | lib/rate_limiter_pa.rb:8-12 | for one request, a second limiter whose app answers with the first limiter's response gives the same status, body and headers as the first: annotating twice changes nothing |

## Left out

- Throttling: there is no window, remaining count, reset time or 429 path. The code has none, and the store is never used by `call`.
- The test file's `Rack::RateLimiterPa.new(app, { limit: '60' })` constructor and its `'0'` default: the class in the code takes only `app` and hard-codes 60.
- `rate_limiter_pa/version`: it is required at lib/rate_limiter_pa.rb:1 but is a version constant only, and is not part of this model.
- Rack itself (`Rack::Lint`, `Rack::MockRequest`, the structure of `env`): `env` is an opaque type parameter and the body type is another.
- The downstream app's behaviour: what it answers is a fixed function of `env`. Side effects of the app other than being called, or an app answering differently to the same `env`, are not modelled.
- RateLimiter.RateLimiterPa.Call: the caller fixes a ghost parameter that names the contents of the app's headers hash before the call, and must know that hash was already allocated. Dafny cannot prove in `old` that an object returned by a function value existed before the call, so the contract uses this form.
- RateLimiter.RateLimiterPa.Call: the headers are assumed to be a mutable Hash. The exceptions of lib/rate_limiter_pa.rb:9-10 are not modelled: `NoMethodError` when the app returns `nil` headers, `FrozenError` on a frozen hash, and any exception raised by `@app.call`. The insertion order of a Ruby Hash, which `merge!` preserves, is lost too, because the headers are a `map`.
- Store.DefaultStore.Get: results are wrapped in `Option`, so a key stored with the value `nil` reads as `Some(nil)`. Ruby's `@data[attr]` returns `nil` both for that key and for an absent key, and cannot tell the two apart.
- Concurrency: neither class synchronises, and the code claims nothing about threads.
- Ruby's dynamic typing: header values are `Text` strings or the `Int` 60, and keys of the store are any type with equality.
