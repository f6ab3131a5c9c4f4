/** config/redis.js: the optional Redis cache. The module's mutable state
    (the client, which is dropped when the first connection fails, and the
    reason caching is off) is a class; the Redis server's contents are a
    map from key to stored text and expiry in seconds. Every operation
    falls back to "no cache" when there is no client or the server call
    throws, which is a parameter here. Expiry itself (the clock) is not
    modelled. */
module Cache {
  import opened Wrappers
  import opened Text
  import opened Json

  const DisabledByConfig := "Disabled by config"
  const TooManyRetries := "Too many retries – disabling Redis caching"

  /** The retry attempt after which the client stops reconnecting. */
  const MaxRetries: int := 5

  /** Default expiry of `setCache`, in seconds. */
  const DefaultTtl: int := 300

  /** `(process.env.ENABLE_REDIS || 'false').toLowerCase() === 'true'`:
      an unset or empty variable reads as 'false'. */
  predicate EnabledByConfig(env: Option<string>) {
    var v := if env.None? || env.value == "" then "false" else env.value;
    Lower(v) == "true"
  }

  /** Caching is on exactly for a set variable that spells "true" in any
      letter case. */
  lemma EnabledByConfigIff(env: Option<string>)
    ensures EnabledByConfig(env) <==> env.Some? && Lower(env.value) == "true"
  {
    if env.Some? && env.value == "" {
      assert |Lower(env.value)| == 0;
    }
    if env.None? || env.value == "" {
      assert Lower("false")[0] == 'f';
    }
  }

  /** `retryStrategy(times)`: give up (null) after the fifth retry,
      otherwise wait `min(times * 500, 3000)` milliseconds. */
  function RetryDelay(times: int): (r: Option<int>)
    ensures r.None? <==> times > MaxRetries
  {
    if times > MaxRetries then None
    else if times * 500 < 3000 then Some(times * 500)
    else Some(3000)
  }

  /** Within the five retries the 3000 ms cap never binds: the delay grows
      by 500 ms per attempt. */
  lemma RetryDelayLinear(times: int)
    requires 1 <= times <= MaxRetries
    ensures RetryDelay(times) == Some(times * 500)
    ensures RetryDelay(times).value < 3000
  {
  }

  /** Summed over the retries it allows, the back-off waits 7.5 seconds
      before caching is given up. */
  lemma TotalBackoff()
    ensures RetryDelay(1).value + RetryDelay(2).value + RetryDelay(3).value
            + RetryDelay(4).value + RetryDelay(5).value == 7500
    ensures RetryDelay(6).None?
  {
  }

  /** What Redis holds under a key: the stored JSON text and its expiry. */
  datatype Entry = Entry(text: string, ttl: int)

  /** `redis.get(key)`: the stored text, or null for a missing key. */
  function Lookup(store: map<string, Entry>, key: string): (r: Option<string>)
    ensures r.Some? <==> key in store
    ensures r.Some? ==> r.value == store[key].text
  {
    if key in store then Some(store[key].text) else None
  }

  /** `safeParse(v)`: the parsed value, or null when parsing throws.
      `JSON.parse(null)` yields null, so a missing key reads as null. */
  function SafeParse(v: Option<string>, parse: Parser): (r: JsonValue)
    ensures v.None? ==> r == JNull
    ensures v.Some? && parse(v.value).None? ==> r == JNull
    ensures v.Some? && parse(v.value).Some? ==> r == parse(v.value).value
  {
    if v.None? then JNull
    else match parse(v.value)
      case None => JNull
      case Some(x) => x
  }

  /** A value written with `setCache` reads back unchanged, whenever the
      serialiser and the parser agree on it. */
  lemma SetThenGet(store: map<string, Entry>, key: string, value: JsonValue, ttl: int, parse: Parser,
                   stringify: JsonValue -> string)
    requires parse(stringify(value)) == Some(value)
    ensures SafeParse(Lookup(store[key := Entry(stringify(value), ttl)], key), parse) == value
  {
  }

  /** After `delCache` a read gives null. */
  lemma DelThenGet(store: map<string, Entry>, key: string, parse: Parser)
    ensures SafeParse(Lookup(store - {key}, key), parse) == JNull
  {
  }

  class Cache {
    /** `redis !== null`. */
    var client: bool
    /** The Redis server's contents. */
    var store: map<string, Entry>
    /** `disabledReason`. */
    var disabledReason: string
    /** The values of `redis` and `disabledReason` captured by
        `module.exports` when the module loads; later assignments to the
        variables do not reach them. */
    const exportedClient: bool
    const exportedReason: string

    /** Module load: a client exists exactly when the configuration enables
        caching; the reason starts as "Disabled by config" either way. */
    constructor(env: Option<string>)
      ensures client == EnabledByConfig(env) && store == map[] && disabledReason == DisabledByConfig
      ensures exportedClient == client && exportedReason == DisabledByConfig
    {
      client := EnabledByConfig(env);
      store := map[];
      disabledReason := DisabledByConfig;
      exportedClient := EnabledByConfig(env);
      exportedReason := DisabledByConfig;
    }

    /** The client's `retryStrategy` on retry number `times`: records why
        caching is off when it gives up. The client object itself stays. */
    method Retry(times: int) returns (delay: Option<int>)
      modifies this
      ensures delay == RetryDelay(times)
      ensures delay.None? ==> disabledReason == TooManyRetries
      ensures delay.Some? ==> disabledReason == old(disabledReason)
      ensures client == old(client) && store == old(store)
    {
      delay := RetryDelay(times);
      if times > MaxRetries {
        disabledReason := TooManyRetries;
      }
    }

    /** `redis.connect()` rejected: the client is dropped and every later
        cache call is a no-op. */
    method ConnectFailed()
      modifies this
      ensures !client
      ensures store == old(store) && disabledReason == old(disabledReason)
    {
      client := false;
    }

    /** `getCache(key)`: null without a client or when the server call
        throws; otherwise the parsed stored value, null for a missing key
        or unparsable text. */
    method Get(key: string, parse: Parser, fails: bool) returns (v: JsonValue)
      ensures !client || fails ==> v == JNull
      ensures client && !fails ==> v == SafeParse(Lookup(store, key), parse)
      ensures key !in store ==> v == JNull
    {
      if !client || fails {
        return JNull;
      }
      v := SafeParse(Lookup(store, key), parse);
    }

    /** `setCache(key, value, ttl = 300)`: stores the serialised value with
        its expiry; does nothing without a client, and swallows a failing
        server call. */
    method Set(key: string, value: JsonValue, ttl: Option<int>, stringify: JsonValue -> string, fails: bool)
      modifies this
      ensures client && !fails ==> store == old(store)[key := Entry(stringify(value), ttl.GetOr(DefaultTtl))]
      ensures !client || fails ==> store == old(store)
      ensures client == old(client) && disabledReason == old(disabledReason)
    {
      if !client || fails {
        return;
      }
      store := store[key := Entry(stringify(value), ttl.GetOr(DefaultTtl))];
    }

    /** `delCache(key)`: removes the key; does nothing without a client,
        and swallows a failing server call. */
    method Del(key: string, fails: bool)
      modifies this
      ensures client && !fails ==> store == old(store) - {key}
      ensures !client || fails ==> store == old(store)
      ensures client == old(client) && disabledReason == old(disabledReason)
    {
      if !client || fails {
        return;
      }
      store := store - {key};
    }
  }
}
