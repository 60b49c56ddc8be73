# ResponseCache — a verified model

`ResponseCache` (api-cacher.js) is a single-slot, in-memory cache for one API
response. It holds one value (`cache`), a lifetime in milliseconds fixed at
construction (`millisecondsToLive`, from a lifetime in minutes that defaults to
86400), and a lazily created instance held in its own field (`instance`).
`instance` belongs to each object, not to the process: two `ResponseCache`
objects each hold and hand out their own instance. `setCachedData`
stores a value unless it is falsy. `getCachedData` returns a Promise that
resolves with the stored value, or rejects with `'cache not available'`.
`resetCache` empties the slot. `getInstance` creates the receiver's instance
on first use and replaces it when the receiver's expiry test fires.

The expiry test `isCacheExpired` reads the wall clock twice and checks whether
the first reading plus the lifetime is before the second reading. No time is
recorded when a value is stored, so the test cannot tell how old the value is.
With a non-negative lifetime and two readings taken at (nearly) the same
instant, it never fires: a stored value is served forever. The model keeps this
behaviour as written. Nothing in the code compares the current time with the
time a value was stored.

Layout:
- `js_values.dfy`, module `JsValues`: the JavaScript values the cache is handed,
  and their truthiness.
- `api_cacher.dfy`, module `ApiCacher`: the pure parts of the cache as
  functions (`Milliseconds`, `Expired`, `Reply`, `Store`). A value-level view of
  the slot (`Slot`) and of a sequence of calls on it (`Call`, `Next`, `After`,
  `Replies`) with lemmas about whole call sequences. The class `ResponseCache`,
  whose methods update its fields in place and are tied to `Next`.

The two clock readings of `isCacheExpired` are the parameters `t1` (first) and
`t2` (second) of every member that consults it. A Promise that settles at once
is modelled by the `Result` it settles with (`Resolved(v)` or `Rejected(msg)`).

## Model

| member | source | states |
|---|---|---|
| `JsValues.Truthy` | api-cacher.js:52 | exactly null, undefined, 0, "" and false are falsy; every object is truthy |
| `ApiCacher.Milliseconds` | api-cacher.js:14 | the lifetime in milliseconds is a whole number of minutes, namely `timeToLive` of them, and is non-negative exactly when `timeToLive` is |
| `ApiCacher.DefaultLifetime` | api-cacher.js:13-14 | the default of 86400 minutes is 5,184,000,000 ms |
| `ApiCacher.Expired` | api-cacher.js:28-30 | the test fires exactly when the second reading is more than the lifetime after the first; with a non-negative lifetime, two readings of the same instant never fire it |
| `ApiCacher.NeverExpires` | api-cacher.js:28-30 | with a non-negative lifetime, readings at most the lifetime apart never fire the test; no stored time enters it |
| `ApiCacher.Reply` | api-cacher.js:63-71 | the read resolves exactly when the stored value is truthy and the test does not fire; it resolves with the stored value, and otherwise rejects with 'cache not available' |
| `ApiCacher.Store` | api-cacher.js:51-55 | truthy data replaces the stored value; falsy data leaves it; the slot is truthy afterwards exactly when the data or the old value was |
| `ApiCacher.Next` | api-cacher.js:51-80 | no operation changes the lifetime; a read changes nothing; a reset leaves a falsy slot |
| `ApiCacher.RoundTrip` | api-cacher.js:51-71 | storing a truthy value and reading with a test that does not fire resolves with that value |
| `ApiCacher.ResetIdempotent` | api-cacher.js:78-80 | resetting twice is the same as resetting once |
| `ApiCacher.LifetimeFixed` | api-cacher.js:13-80 | no sequence of set, get and reset calls changes the lifetime set by the constructor |
| `ApiCacher.ServedUntilReplaced` | api-cacher.js:28-71 | after a truthy value is stored under a non-negative lifetime, every later read resolves with it, however much time passes between calls, until a reset or a truthy store, provided each read's two readings lie at most the lifetime apart |
| `ApiCacher.MissUntilStored` | api-cacher.js:63-80 | from an empty or falsy slot (a new object, or after a reset), every read rejects with 'cache not available' until a truthy value is stored, whatever the clock readings |
| `ApiCacher.ResponseCache.constructor` | api-cacher.js:13-20 | lifetime is `timeToLive` minutes in ms, default 86400 minutes; the slot starts null and the object holds no instance yet |
| `ApiCacher.ResponseCache.IsCacheExpired` | api-cacher.js:28-30 | the test uses only this object's lifetime and the two readings, never the stored value; it cannot fire for readings at most a non-negative lifetime apart |
| `ApiCacher.ResponseCache.GetInstance` | api-cacher.js:38-43 | the receiver's own instance field is set and returned; an existing one is kept unless this object's own test fires, and otherwise a fresh cache with the default 5,184,000,000 ms lifetime and an empty slot replaces it; the lifetime and slot of the receiver are untouched |
| `ApiCacher.ResponseCache.SetCachedData` | api-cacher.js:51-55 | a truthy value replaces the slot, a falsy one leaves it; only the slot may change |
| `ApiCacher.ResponseCache.GetCachedData` | api-cacher.js:63-71 | resolves with the slot exactly when it is truthy and the test does not fire, else rejects with 'cache not available'; agrees with one read call on the slot view; reads only |
| `ApiCacher.ResponseCache.ResetCache` | api-cacher.js:78-80 | the slot becomes null; the lifetime and the instance field are unchanged |

## Left out

- The Promise and its asynchronous settlement (api-cacher.js:64): no suspension happens, so a read is a function returning the outcome it settles with. A cached object is taken to be non-thenable: `resolve` adopts an object with a callable `then` (a cached Promise, say), whose own outcome, possibly a rejection, is not modelled.
- The wall clock `new Date().getTime()` (api-cacher.js:29): the two readings are parameters; nothing is assumed about their order.
- The `.bind(this)` calls (api-cacher.js:16-19) and `module.exports` (api-cacher.js:84): plumbing with no behaviour.
- JavaScript floating-point numbers: lifetimes, milliseconds and clock readings are integers, so a fractional or NaN lifetime is not modelled.
- Full JavaScript truthiness: values are limited to null, undefined, integers, strings, booleans and ordinary objects (NaN and -0 do not arise).
- `instance` is undefined in JavaScript until `getInstance` first runs; the model starts it as null, which the `!this.instance` test treats the same way.
- Concurrency: the code has none.
