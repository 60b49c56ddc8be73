/** The single-slot API response cache `ResponseCache`.

    The object holds one cached value (`cache`), a lifetime fixed at
    construction (`millisecondsToLive`) and a lazily created instance kept in
    its own field (`instance`), one per object. The expiry test reads the
    wall clock twice and compares the two readings with each other; no time
    is ever recorded when a value is stored. The two clock readings are
    therefore parameters `t1` (first reading) and `t2` (second reading) of
    every operation that consults the test. A JavaScript Promise that
    settles at once is modelled by the value it settles with. */
module ApiCacher {
  import opened JsValues

  /** Lifetime used when the constructor is given none: 86400 minutes. */
  const DefaultTimeToLive: int := 86400

  /** The rejection reason of `getCachedData`. */
  const CacheNotAvailable: string := "cache not available"

  /** How the Promise returned by `getCachedData` settles. */
  datatype Result = Resolved(value: JsValue) | Rejected(reason: string)

  /** A lifetime in minutes converted to milliseconds, as the constructor
      does once. */
  function Milliseconds(timeToLive: int): (ms: int)
    ensures ms % 60000 == 0 && ms / 60000 == timeToLive
    ensures ms >= 0 <==> timeToLive >= 0
  {
    timeToLive * 60 * 1000
  }

  /** The expiry test as written: first reading plus the lifetime is before
      the second reading. */
  function Expired(millisecondsToLive: int, t1: int, t2: int): (r: bool)
    ensures r <==> t2 - t1 > millisecondsToLive
    ensures millisecondsToLive >= 0 && t1 == t2 ==> !r
  {
    t1 + millisecondsToLive < t2
  }

  /** How `getCachedData` settles, given the slot's value and the result of
      the expiry test. */
  function Reply(cache: JsValue, expired: bool): (r: Result)
    ensures r.Resolved? <==> Truthy(cache) && !expired
    ensures r.Resolved? ==> r.value == cache
    ensures r.Rejected? ==> r.reason == CacheNotAvailable
  {
    if Truthy(cache) && !expired then Resolved(cache) else Rejected(CacheNotAvailable)
  }

  /** The slot's value after `setCachedData(data)`: falsy data is ignored. */
  function Store(cache: JsValue, data: JsValue): (c: JsValue)
    ensures Truthy(data) ==> c == data
    ensures !Truthy(data) ==> c == cache
    ensures Truthy(c) <==> Truthy(data) || Truthy(cache)
  {
    if Truthy(data) then data else cache
  }

  /** The fields of one cache object that its cache operations read and
      write. */
  datatype Slot = Slot(millisecondsToLive: int, cache: JsValue)

  /** One call of a cache operation on the object; a `getCachedData` call
      carries the two clock readings its expiry test takes. */
  datatype Call =
    | CallSet(data: JsValue)
    | CallGet(t1: int, t2: int)
    | CallReset

  /** The slot after one call. */
  function Next(s: Slot, c: Call): (n: Slot)
    ensures n.millisecondsToLive == s.millisecondsToLive
    ensures c.CallGet? ==> n == s
    ensures c.CallReset? ==> !Truthy(n.cache)
  {
    match c
    case CallSet(data) => s.(cache := Store(s.cache, data))
    case CallGet(_, _) => s
    case CallReset => s.(cache := Null)
  }

  /** The slot after a sequence of calls, in order. */
  function After(s: Slot, calls: seq<Call>): Slot
    decreases |calls|
  {
    if calls == [] then s else After(Next(s, calls[0]), calls[1..])
  }

  /** How each `getCachedData` call in a sequence of calls settles, in order. */
  function Replies(s: Slot, calls: seq<Call>): seq<Result>
    decreases |calls|
  {
    if calls == [] then []
    else
      var here := match calls[0]
        case CallGet(t1, t2) => [Reply(s.cache, Expired(s.millisecondsToLive, t1, t2))]
        case _ => [];
      here + Replies(Next(s, calls[0]), calls[1..])
  }

  /** A call after which a stored truthy value is still served: a
      `setCachedData` with falsy data, or a `getCachedData` whose two clock
      readings lie at most the lifetime apart. */
  predicate Harmless(millisecondsToLive: int, c: Call)
  {
    match c
    case CallSet(data) => !Truthy(data)
    case CallGet(t1, t2) => t2 - t1 <= millisecondsToLive
    case CallReset => false
  }

  /** A non-negative lifetime never expires a test whose two readings lie at
      most the lifetime apart, in particular two readings of the same
      instant: the test never looks at when the value was stored. */
  lemma NeverExpires(millisecondsToLive: int, t1: int, t2: int)
    requires millisecondsToLive >= 0 && t2 - t1 <= millisecondsToLive
    ensures !Expired(millisecondsToLive, t1, t2)
  {
  }

  /** The default lifetime is 5,184,000,000 milliseconds (60 days). */
  lemma DefaultLifetime()
    ensures Milliseconds(DefaultTimeToLive) == 5_184_000_000
  {
  }

  /** Storing a truthy value and then reading it with a test that does not
      fire resolves with that value. */
  lemma RoundTrip(s: Slot, v: JsValue, t1: int, t2: int)
    requires Truthy(v) && !Expired(s.millisecondsToLive, t1, t2)
    ensures Replies(s, [CallSet(v), CallGet(t1, t2)]) == [Resolved(v)]
  {
    var calls := [CallSet(v), CallGet(t1, t2)];
    var stored := Next(s, CallSet(v));
    assert calls[1..] == [CallGet(t1, t2)];
    assert Replies(stored, [CallGet(t1, t2)]) == [Resolved(v)] + Replies(stored, []);
    assert Replies(s, calls) == [] + Replies(stored, [CallGet(t1, t2)]);
  }

  /** Resetting twice is resetting once. */
  lemma ResetIdempotent(s: Slot)
    ensures Next(Next(s, CallReset), CallReset) == Next(s, CallReset)
  {
  }

  /** No sequence of cache operations changes the lifetime. */
  lemma {:induction false} LifetimeFixed(s: Slot, calls: seq<Call>)
    ensures After(s, calls).millisecondsToLive == s.millisecondsToLive
    decreases |calls|
  {
    if calls != [] {
      LifetimeFixed(Next(s, calls[0]), calls[1..]);
    }
  }

  /** Once a truthy value is stored under a non-negative lifetime, every
      later read resolves with it, however much time passes between the
      calls, as long as no reset or truthy store intervenes and each read's
      two clock readings lie at most the lifetime apart. */
  lemma {:induction false} ServedUntilReplaced(millisecondsToLive: int, v: JsValue, calls: seq<Call>)
    requires millisecondsToLive >= 0 && Truthy(v)
    requires forall i :: 0 <= i < |calls| ==> Harmless(millisecondsToLive, calls[i])
    ensures After(Slot(millisecondsToLive, v), calls) == Slot(millisecondsToLive, v)
    ensures forall i :: 0 <= i < |Replies(Slot(millisecondsToLive, v), calls)| ==>
              Replies(Slot(millisecondsToLive, v), calls)[i] == Resolved(v)
    decreases |calls|
  {
    if calls != [] {
      var s := Slot(millisecondsToLive, v);
      assert Harmless(millisecondsToLive, calls[0]);
      assert Next(s, calls[0]) == s;
      ServedUntilReplaced(millisecondsToLive, v, calls[1..]);
    }
  }

  /** While the slot holds a falsy value (after a reset, or on a new object),
      every read rejects with `'cache not available'` until a truthy value is
      stored, whatever the clock readings. */
  lemma {:induction false} MissUntilStored(s: Slot, calls: seq<Call>)
    requires !Truthy(s.cache)
    requires forall i :: 0 <= i < |calls| ==> !(calls[i].CallSet? && Truthy(calls[i].data))
    ensures !Truthy(After(s, calls).cache)
    ensures forall i :: 0 <= i < |Replies(s, calls)| ==> Replies(s, calls)[i] == Rejected(CacheNotAvailable)
    decreases |calls|
  {
    if calls != [] {
      MissUntilStored(Next(s, calls[0]), calls[1..]);
    }
  }

  /** The response cache object. */
  class ResponseCache {
    var millisecondsToLive: int
    var cache: JsValue
    var instance: ResponseCache?

    /** The cache fields as a slot value. */
    function State(): Slot
      reads this
    {
      Slot(millisecondsToLive, cache)
    }

    /** A new, empty cache whose lifetime is `timeToLive` minutes. */
    constructor (timeToLive: int := DefaultTimeToLive)
      ensures millisecondsToLive == Milliseconds(timeToLive)
      ensures cache == Null && instance == null
    {
      millisecondsToLive := timeToLive * 60 * 1000;
      cache := Null;
      instance := null;
    }

    /** The expiry test on this object's lifetime; the stored value plays no
        part in it. */
    function IsCacheExpired(t1: int, t2: int): (r: bool)
      reads this`millisecondsToLive
      ensures r == Expired(millisecondsToLive, t1, t2)
      ensures millisecondsToLive >= 0 && t2 - t1 <= millisecondsToLive ==> !r
    {
      Expired(millisecondsToLive, t1, t2)
    }

    /** This object's own instance field, filled on first use and replaced
        by a new default cache whenever this object's own expiry test fires. */
    method GetInstance(t1: int, t2: int) returns (r: ResponseCache)
      modifies this`instance
      ensures instance == r
      ensures old(instance) != null && !IsCacheExpired(t1, t2) ==> r == old(instance)
      ensures old(instance) == null || IsCacheExpired(t1, t2) ==>
                fresh(r) && r.millisecondsToLive == 5_184_000_000 &&
                r.cache == Null && r.instance == null
      ensures millisecondsToLive == old(millisecondsToLive) && cache == old(cache)
    {
      if instance == null || IsCacheExpired(t1, t2) {
        instance := new ResponseCache();
      }
      r := instance;
    }

    /** Stores `data` unless it is falsy. */
    method SetCachedData(data: JsValue)
      modifies this`cache
      ensures State() == Next(old(State()), CallSet(data))
      ensures cache == (if Truthy(data) then data else old(cache))
      ensures instance == old(instance)
    {
      if Truthy(data) {
        cache := data;
      }
    }

    /** How reading the cache settles: with the stored value when it is
        truthy and the expiry test does not fire, otherwise rejected. */
    function GetCachedData(t1: int, t2: int): (r: Result)
      reads this
      ensures r == Replies(State(), [CallGet(t1, t2)])[0]
      ensures r.Resolved? <==> Truthy(cache) && !IsCacheExpired(t1, t2)
      ensures r.Resolved? ==> r.value == cache
      ensures r.Rejected? ==> r.reason == CacheNotAvailable
    {
      Reply(cache, IsCacheExpired(t1, t2))
    }

    /** Empties the slot. */
    method ResetCache()
      modifies this`cache
      ensures State() == Next(old(State()), CallReset)
      ensures cache == Null && instance == old(instance)
    {
      cache := Null;
    }
  }
}
