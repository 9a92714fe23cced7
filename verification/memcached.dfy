/**
  `BaseMemcachedCache` of `django/core/cache/backends/memcached.py`. The
  memcached client library and the server behind it become an abstract
  store: a map from the made keys to entries holding a value and the
  expiration time the server was given. What the library does that the
  store cannot decide (whether a write was accepted, how it reports a
  missing key) is an input.
 */
module MemcachedCache {
  import opened Common

  // ---- servers ----

  /** The `LOCATION` setting: one string, or a list of servers. */
  datatype ServerSetting = ServerString(text: string) | ServerList(servers: seq<string>)

  /** `__init__`: a string is split at every `;` and `,`; a list is kept as given. */
  function Servers(setting: ServerSetting): (r: seq<string>)
    ensures setting.ServerList? ==> r == setting.servers
    ensures setting.ServerString? ==> (|r| >= 1
      && forall i, j :: 0 <= i < |r| && 0 <= j < |r[i]| ==> r[i][j] != ';' && r[i][j] != ',')
  {
    match setting
    case ServerString(text) => SplitOn(text, {';', ','})
    case ServerList(servers) => servers
  }

  /** Servers joined with either separator are recovered exactly. */
  lemma ServersRoundTrip(servers: seq<string>, sep: char)
    requires |servers| >= 1 && (sep == ';' || sep == ',')
    requires forall i, j :: 0 <= i < |servers| && 0 <= j < |servers[i]| ==>
      servers[i][j] != ';' && servers[i][j] != ','
    ensures Servers(ServerString(Join(servers, [sep]))) == servers
  {
    SplitJoin(servers, sep, {';', ','});
  }

  // ---- timeouts ----

  /** 60 * 60 * 24 * 30: beyond this memcached reads an expiration time as a Unix timestamp. */
  const MaxRelativeExpiry: int := 2592000

  /** The `timeout` argument: omitted, `None`, or a number of seconds. */
  datatype TimeoutArg = DefaultTimeout | NoTimeout | Seconds(n: int)

  /** The timeout after `DEFAULT_TIMEOUT` is replaced by the cache's default. */
  function EffectiveTimeout(arg: TimeoutArg, defaultTimeout: Option<int>): (t: Option<int>)
    ensures arg.NoTimeout? ==> t.None?
    ensures arg.Seconds? ==> t == Some(arg.n)
    ensures arg.DefaultTimeout? ==> t == defaultTimeout
  {
    match arg
    case DefaultTimeout => defaultTimeout
    case NoTimeout => None
    case Seconds(n) => Some(n)
  }

  /**
    `get_backend_timeout` for whole-second timeouts, with `int(time.time())`
    as `now`.
   */
  function GetBackendTimeout(arg: TimeoutArg, defaultTimeout: Option<int>, now: nat): (r: int)
    ensures EffectiveTimeout(arg, defaultTimeout).None? ==> r == 0
    ensures EffectiveTimeout(arg, defaultTimeout) == Some(0) ==> r == -1
  {
    match EffectiveTimeout(arg, defaultTimeout)
    case None => 0
    case Some(t0) =>
      var t := if t0 == 0 then -1 else t0;
      if t > MaxRelativeExpiry then t + now else t
  }

  /** When an entry stops being readable. */
  datatype Expiry = Never | Immediately | At(instant: int)

  /**
    How the memcached server reads an expiration time: 0 never expires, a
    negative time has already passed, up to 30 days counts from now, and
    anything larger is a Unix timestamp.
   */
  function ServerExpiry(exptime: int, now: nat): Expiry {
    if exptime == 0 then Never
    else if exptime < 0 then Immediately
    else if exptime <= MaxRelativeExpiry then At(now + exptime)
    else At(exptime)
  }

  /**
    What Django's cache API promises for a timeout: `None` keeps the entry
    for ever, zero or a negative number expires it at once, and a positive
    number keeps it that many seconds.
   */
  function CacheExpiry(t: Option<int>, now: nat): Expiry {
    if t.None? then Never else if t.value <= 0 then Immediately else At(now + t.value)
  }

  /** The server reads the converted timeout exactly as Django's cache API means it. */
  lemma BackendTimeoutKeepsMeaning(arg: TimeoutArg, defaultTimeout: Option<int>, now: nat)
    ensures ServerExpiry(GetBackendTimeout(arg, defaultTimeout, now), now)
         == CacheExpiry(EffectiveTimeout(arg, defaultTimeout), now)
  {
  }

  /** The server's "never expire" value comes only from a `None` timeout. */
  lemma ZeroOnlyForNoTimeout(arg: TimeoutArg, defaultTimeout: Option<int>, now: nat)
    ensures GetBackendTimeout(arg, defaultTimeout, now) == 0 <==> EffectiveTimeout(arg, defaultTimeout).None?
  {
  }

  // ---- keys and the store ----

  /** The cache's key prefix, default version and default timeout. */
  datatype CacheConfig = CacheConfig(keyPrefix: string, version: int, defaultTimeout: Option<int>)

  /**
    `make_key` with Django's default key function, `prefix:version:key`;
    the version defaults to the cache's.
   */
  function MakeKey(cfg: CacheConfig, key: string, version: Option<int>): (r: string)
    ensures EndsWith(r, ":" + key)
  {
    var front := cfg.keyPrefix + ":" + IntToString(version.GetOr(cfg.version));
    assert front + ":" + key == front + (":" + key);
    front + ":" + key
  }

  /** Different keys under one prefix and version never share a made key. */
  lemma MakeKeyInjective(cfg: CacheConfig, k1: string, k2: string, version: Option<int>)
    requires MakeKey(cfg, k1, version) == MakeKey(cfg, k2, version)
    ensures k1 == k2
  {
    var front := cfg.keyPrefix + ":" + IntToString(version.GetOr(cfg.version)) + ":";
    assert MakeKey(cfg, k1, version) == front + k1;
    assert MakeKey(cfg, k2, version) == front + k2;
    assert k1 == (front + k1)[|front|..];
    assert k2 == (front + k2)[|front|..];
  }

  lemma MakeKeyInjectiveAll(cfg: CacheConfig, version: Option<int>)
    ensures forall k1, k2 :: MakeKey(cfg, k1, version) == MakeKey(cfg, k2, version) ==> k1 == k2
  {
    forall k1, k2 | MakeKey(cfg, k1, version) == MakeKey(cfg, k2, version) ensures k1 == k2 {
      MakeKeyInjective(cfg, k1, k2, version);
    }
  }

  datatype Value = Counter(n: nat) | Blob(data: string)

  /**
    What the server holds under a made key: the value and when it stops
    being served, fixed when it was written.
   */
  datatype Entry = Entry(value: Value, expiry: Expiry)

  type Store = map<string, Entry>

  /** The entry a write at `now` with expiration time `exptime` leaves on the server. */
  function Written(value: Value, exptime: int, now: nat): (e: Entry)
    ensures e.value == value && e.expiry == ServerExpiry(exptime, now)
  {
    Entry(value, ServerExpiry(exptime, now))
  }

  /** The server still serves `e` at `now`: memcached drops an item once its time is reached. */
  predicate Live(e: Entry, now: nat) {
    e.expiry.Never? || (e.expiry.At? && now < e.expiry.instant)
  }

  /** The server has a live entry under `sk` at `now`; anything else reads as missing. */
  predicate Holds(store: Store, sk: string, now: nat) {
    sk in store && Live(store[sk], now)
  }

  /**
    `set`: the library is handed the value with the converted timeout; when
    it reports the write failed (memcached's item size limit), the key is
    deleted so no old value survives.
   */
  function Set(cfg: CacheConfig, store: Store, key: string, value: Value, timeout: TimeoutArg,
               version: Option<int>, now: nat, stored: bool): (r: Store)
    ensures var k := MakeKey(cfg, key, version);
      && (stored ==> k in r && r[k] == Entry(value, ServerExpiry(GetBackendTimeout(timeout, cfg.defaultTimeout, now), now)))
      && (!stored ==> k !in r)
      && forall other :: other != k ==> (other in r <==> other in store) && (other in r ==> r[other] == store[other])
  {
    var k := MakeKey(cfg, key, version);
    if stored then store[k := Written(value, GetBackendTimeout(timeout, cfg.defaultTimeout, now), now)]
    else store - {k}
  }

  /** `get` at `now`: the value of a live entry, or the default for a missing or expired one. */
  function Get(cfg: CacheConfig, store: Store, key: string, default: Value, version: Option<int>, now: nat): (r: Value)
    ensures Holds(store, MakeKey(cfg, key, version), now) ==> r == store[MakeKey(cfg, key, version)].value
    ensures !Holds(store, MakeKey(cfg, key, version), now) ==> r == default
  {
    var k := MakeKey(cfg, key, version);
    if k in store && Live(store[k], now) then store[k].value else default
  }

  /**
    After `set` at `now`, reading the key at `later` gives the new value
    while the timeout Django's cache API asked for has not run out, and the
    default otherwise; never an older value.
   */
  lemma NoStaleValueAfterSet(cfg: CacheConfig, store: Store, key: string, value: Value, timeout: TimeoutArg,
                             version: Option<int>, now: nat, stored: bool, default: Value, later: nat)
    ensures var r := Get(cfg, Set(cfg, store, key, value, timeout, version, now, stored), key, default, version, later);
      r == (if stored && Live(Entry(value, CacheExpiry(EffectiveTimeout(timeout, cfg.defaultTimeout), now)), later)
            then value else default)
  {
    BackendTimeoutKeepsMeaning(timeout, cfg.defaultTimeout, now);
  }

  /** `set(key, value, 0)` or a negative timeout stores nothing readable: `get` gives the default at once. */
  lemma NonPositiveTimeoutReadsDefault(cfg: CacheConfig, store: Store, key: string, value: Value, t: int,
                                       version: Option<int>, now: nat, stored: bool, default: Value)
    requires t <= 0
    ensures Get(cfg, Set(cfg, store, key, value, Seconds(t), version, now, stored), key, default, version, now) == default
  {
    NoStaleValueAfterSet(cfg, store, key, value, Seconds(t), version, now, stored, default, now);
  }

  /** A stored `set` with no timeout, or a positive one, is read back in the same second. */
  lemma StoredValueReadBack(cfg: CacheConfig, store: Store, key: string, value: Value, timeout: TimeoutArg,
                            version: Option<int>, now: nat, default: Value)
    requires EffectiveTimeout(timeout, cfg.defaultTimeout).None? || EffectiveTimeout(timeout, cfg.defaultTimeout).value > 0
    ensures Get(cfg, Set(cfg, store, key, value, timeout, version, now, true), key, default, version, now) == value
  {
    NoStaleValueAfterSet(cfg, store, key, value, timeout, version, now, true, default, now);
  }

  /**
    `add` at `now`: the library writes only when the server has no live
    entry under the key (an expired one is replaced) and says whether it did.
   */
  function Add(cfg: CacheConfig, store: Store, key: string, value: Value, timeout: TimeoutArg,
               version: Option<int>, now: nat): (r: (Store, bool))
    ensures var k := MakeKey(cfg, key, version);
      && (r.1 <==> !Holds(store, k, now))
      && (Holds(store, k, now) ==> r.0 == store)
      && (!Holds(store, k, now) ==>
            r.0 == store[k := Entry(value, ServerExpiry(GetBackendTimeout(timeout, cfg.defaultTimeout, now), now))])
  {
    var k := MakeKey(cfg, key, version);
    if k in store && Live(store[k], now) then (store, false)
    else (store[k := Written(value, GetBackendTimeout(timeout, cfg.defaultTimeout, now), now)], true)
  }

  /** `add` and `get` agree: a refused add leaves the live value readable, an accepted one reads as `set` does. */
  lemma AddThenGet(cfg: CacheConfig, store: Store, key: string, value: Value, timeout: TimeoutArg,
                   version: Option<int>, now: nat, default: Value)
    ensures var (s, added) := Add(cfg, store, key, value, timeout, version, now);
      && (!added ==> Get(cfg, s, key, default, version, now) == Get(cfg, store, key, default, version, now))
      && (added ==> s == Set(cfg, store, key, value, timeout, version, now, true))
  {
  }

  function Delete(cfg: CacheConfig, store: Store, key: string, version: Option<int>): (r: Store)
    ensures MakeKey(cfg, key, version) !in r
    ensures forall other :: other != MakeKey(cfg, key, version) ==>
      (other in r <==> other in store) && (other in r ==> r[other] == store[other])
  {
    store - {MakeKey(cfg, key, version)}
  }

  /** `delete_many`: every given key is gone, and nothing else changes. */
  function DeleteMany(cfg: CacheConfig, store: Store, keys: seq<string>, version: Option<int>): (r: Store)
    ensures forall k :: k in keys ==> MakeKey(cfg, k, version) !in r
    ensures forall other :: (forall k :: k in keys ==> other != MakeKey(cfg, k, version)) ==>
      (other in r <==> other in store) && (other in r ==> r[other] == store[other])
    decreases |keys|
  {
    if |keys| == 0 then store
    else DeleteMany(cfg, Delete(cfg, store, keys[0], version), keys[1..], version)
  }

  /** `clear`: `flush_all` empties the server. */
  function Clear(store: Store): (r: Store)
    ensures forall k :: k !in r
  {
    map[]
  }

  // ---- get_many / set_many ----

  /** `{make_key(key): key for key in keys}` */
  function KeyMap(cfg: CacheConfig, keys: seq<string>, version: Option<int>): (m: map<string, string>)
    ensures forall sk :: sk in m ==> m[sk] in keys && MakeKey(cfg, m[sk], version) == sk
    ensures forall k :: k in keys ==> MakeKey(cfg, k, version) in m
  {
    MakeKeyInjectiveAll(cfg, version);
    map k | k in keys :: MakeKey(cfg, k, version) := k
  }

  /**
    `get_many` at `now`: the library returns the live entries it found
    under the made keys, and they are handed back under the caller's keys.
   */
  function GetMany(cfg: CacheConfig, store: Store, keys: seq<string>, version: Option<int>, now: nat)
    : (r: map<string, Value>)
  {
    var keyMap := KeyMap(cfg, keys, version);
    var found := map sk | sk in keyMap && Holds(store, sk, now) :: store[sk].value;
    map sk | sk in found :: keyMap[sk] := found[sk]
  }

  /**
    A caller key is in the answer iff it has a live entry, with its value:
    `get_many` answers each key as `get` does.
   */
  lemma GetManyByCallerKeys(cfg: CacheConfig, store: Store, keys: seq<string>, version: Option<int>, now: nat)
    ensures var r := GetMany(cfg, store, keys, version, now);
      && (forall k :: k in r <==> k in keys && Holds(store, MakeKey(cfg, k, version), now))
      && (forall k :: k in r ==> r[k] == store[MakeKey(cfg, k, version)].value)
  {
    var keyMap := KeyMap(cfg, keys, version);
    var r := GetMany(cfg, store, keys, version, now);
    forall k | k in keys && Holds(store, MakeKey(cfg, k, version), now) ensures k in r {
      assert keyMap[MakeKey(cfg, k, version)] == k by {
        MakeKeyInjective(cfg, keyMap[MakeKey(cfg, k, version)], k, version);
      }
    }
  }

  /** A dictionary's items: distinct keys. */
  predicate DistinctKeys(data: seq<(string, Value)>) {
    forall i, j :: 0 <= i < j < |data| ==> data[i].0 != data[j].0
  }

  /** `original_keys`: each made key mapped back to the caller's key. */
  function OriginalKeys(cfg: CacheConfig, data: seq<(string, Value)>, version: Option<int>): (m: map<string, string>)
    ensures forall sk :: sk in m ==> MakeKey(cfg, m[sk], version) == sk && exists i :: 0 <= i < |data| && data[i].0 == m[sk]
    ensures forall i :: 0 <= i < |data| ==> MakeKey(cfg, data[i].0, version) in m
  {
    MakeKeyInjectiveAll(cfg, version);
    map i | 0 <= i < |data| :: MakeKey(cfg, data[i].0, version) := data[i].0
  }

  /**
    `set_many`: every item is written under its made key with the converted
    timeout except those the library reports as failed, which are returned
    under the caller's keys in the library's order. A failed key keeps
    whatever it held before.
   */
  function SetMany(cfg: CacheConfig, store: Store, data: seq<(string, Value)>, timeout: TimeoutArg,
                   version: Option<int>, now: nat, failed: seq<string>): (r: (Store, seq<string>))
    requires DistinctKeys(data)
    requires forall f :: f in failed ==> exists i :: 0 <= i < |data| && MakeKey(cfg, data[i].0, version) == f
    ensures |r.1| == |failed|
    ensures forall j :: 0 <= j < |failed| ==> (MakeKey(cfg, r.1[j], version) == failed[j]
      && exists i :: 0 <= i < |data| && data[i].0 == r.1[j])
    ensures forall i :: 0 <= i < |data| && MakeKey(cfg, data[i].0, version) !in failed ==>
      var sk := MakeKey(cfg, data[i].0, version);
      sk in r.0 && r.0[sk] == Entry(data[i].1, ServerExpiry(GetBackendTimeout(timeout, cfg.defaultTimeout, now), now))
  {
    var written := WriteItems(cfg, store, data, ServerExpiry(GetBackendTimeout(timeout, cfg.defaultTimeout, now), now),
                             version, failed);
    (written, FailedOriginals(cfg, data, version, failed))
  }

  /** The failed made keys mapped back to the caller's keys, in the library's order. */
  function FailedOriginals(cfg: CacheConfig, data: seq<(string, Value)>, version: Option<int>, failed: seq<string>)
    : (r: seq<string>)
    requires forall f :: f in failed ==> exists i :: 0 <= i < |data| && MakeKey(cfg, data[i].0, version) == f
    ensures |r| == |failed|
    ensures forall j :: 0 <= j < |failed| ==> (MakeKey(cfg, r[j], version) == failed[j]
      && exists i :: 0 <= i < |data| && data[i].0 == r[j])
  {
    var originals := OriginalKeys(cfg, data, version);
    assert forall j :: 0 <= j < |failed| ==> failed[j] in originals by {
      forall j | 0 <= j < |failed| ensures failed[j] in originals {
        assert failed[j] in failed;
      }
    }
    seq(|failed|, j requires 0 <= j < |failed| => originals[failed[j]])
  }

  /** The library's `set_multi`, writing every item whose made key is not among the failed ones. */
  function WriteItems(cfg: CacheConfig, store: Store, data: seq<(string, Value)>, expiry: Expiry,
                      version: Option<int>, failed: seq<string>): (r: Store)
    requires DistinctKeys(data)
    ensures forall i :: 0 <= i < |data| && MakeKey(cfg, data[i].0, version) !in failed ==>
      var sk := MakeKey(cfg, data[i].0, version);
      sk in r && r[sk] == Entry(data[i].1, expiry)
    ensures forall sk :: (forall i :: 0 <= i < |data| ==> MakeKey(cfg, data[i].0, version) != sk) ==>
      (sk in r <==> sk in store) && (sk in r ==> r[sk] == store[sk])
    decreases |data|
  {
    if |data| == 0 then store
    else
      var sk := MakeKey(cfg, data[0].0, version);
      var next := if sk in failed then store else store[sk := Entry(data[0].1, expiry)];
      var r := WriteItems(cfg, next, data[1..], expiry, version, failed);
      assert forall i :: 1 <= i < |data| ==> MakeKey(cfg, data[i].0, version) != sk by {
        forall i | 1 <= i < |data| ensures MakeKey(cfg, data[i].0, version) != sk {
          if MakeKey(cfg, data[i].0, version) == sk {
            MakeKeyInjective(cfg, data[i].0, data[0].0, version);
          }
        }
      }
      assert forall i :: 1 <= i < |data| ==> data[1..][i - 1] == data[i];
      r
  }

  // ---- incr / decr ----

  /** How the client library reports `incr`/`decr` on a missing key. */
  datatype MissReport = RaisesNotFound | ReturnsNone

  /**
    A `ValueError` raised by Django, the library's own not-found exception
    escaping, or a library error (a counter operation on a value that is not
    a 64-bit number, or a delta that is not one).
   */
  datatype CacheError = ValueError(msg: string) | LibraryNotFound | LibraryError

  function MsgKeyNotFound(key: string): string {
    "Key '" + key + "' not found"
  }

  /** memcached's counters and deltas are unsigned 64-bit integers. */
  const U64: nat := 0x1_0000_0000_0000_0000

  /**
    The library's counter operation on a made key at `now`: memcached adds
    modulo 2^64, or subtracts without going below zero, and keeps the
    entry's expiration. An expired entry is missing.
   */
  function LibraryCount(lib: MissReport, store: Store, sk: string, delta: nat, up: bool, now: nat)
    : (r: Result<(Store, Option<nat>), CacheError>)
    ensures !Holds(store, sk, now) ==> r == (if lib == RaisesNotFound then Err(LibraryNotFound) else Ok((store, None)))
    ensures Holds(store, sk, now) && !(store[sk].value.Counter? && store[sk].value.n < U64 && delta < U64) ==>
      r == Err(LibraryError)
    ensures Holds(store, sk, now) && store[sk].value.Counter? && store[sk].value.n < U64 && delta < U64 ==> (r.Ok?
      && r.value.1.Some?
      && var n := store[sk].value.n;
         r.value.1.value == (if up then (n + delta) % U64 else if n >= delta then n - delta else 0)
         && r.value.1.value < U64
         && r.value.0 == store[sk := Entry(Counter(r.value.1.value), store[sk].expiry)])
  {
    if !(sk in store && Live(store[sk], now)) then (if lib == RaisesNotFound then Err(LibraryNotFound) else Ok((store, None)))
    else
      match store[sk].value
      case Blob(_) => Err(LibraryError)
      case Counter(n) =>
        if n >= U64 || delta >= U64 then Err(LibraryError)
        else
          var m: nat := if up then (n + delta) % U64 else if n >= delta then n - delta else 0;
          Ok((store[sk := Entry(Counter(m), store[sk].expiry)], Some(m)))
  }

  /** Incrementing the largest counter wraps round to zero, as memcached's unsigned arithmetic does. */
  lemma IncrementWraps(lib: MissReport, store: Store, sk: string, now: nat)
    requires Holds(store, sk, now) && store[sk].value == Counter(U64 - 1)
    ensures LibraryCount(lib, store, sk, 1, true, now).Ok?
    ensures LibraryCount(lib, store, sk, 1, true, now).value.1 == Some(0)
  {
  }

  /**
    The not-found conversion of `incr`/`decr`: the library's exception and a
    `None` answer both become `ValueError`.
   */
  function Converted(sk: string, call: Result<(Store, Option<nat>), CacheError>): (r: Result<(Store, nat), CacheError>)
    ensures call == Err(LibraryNotFound) || (call.Ok? && call.value.1.None?) ==> r == Err(ValueError(MsgKeyNotFound(sk)))
    ensures call.Ok? && call.value.1.Some? ==> r == Ok((call.value.0, call.value.1.value))
    ensures call.Err? && call.error != LibraryNotFound ==> r == Err(call.error)
  {
    match call
    case Err(LibraryNotFound) => Err(ValueError(MsgKeyNotFound(sk)))
    case Err(e) => Err(e)
    case Ok((s, None)) => Err(ValueError(MsgKeyNotFound(sk)))
    case Ok((s, Some(v))) => Ok((s, v))
  }

  /** The corrected operation's result, in the shape the library's answer has. */
  function Widened(c: Result<(Store, nat), CacheError>): (r: Result<(Store, Option<nat>), CacheError>)
    ensures c.Ok? <==> r.Ok?
    ensures c.Ok? ==> r.value == (c.value.0, Some(c.value.1))
    ensures c.Err? ==> r.error == c.error
  {
    if c.Ok? then Ok((c.value.0, Some(c.value.1))) else Err(c.error)
  }

  /**
    `incr` as written: a negative delta goes straight to the library's
    `decr`, outside the not-found conversion, so the library's answer for a
    missing key reaches the caller unchanged.
   */
  function IncrAsWritten(cfg: CacheConfig, lib: MissReport, store: Store, key: string, delta: int,
                         version: Option<int>, now: nat)
    : (r: Result<(Store, Option<nat>), CacheError>)
    ensures delta < 0 ==> r == LibraryCount(lib, store, MakeKey(cfg, key, version), -delta, false, now)
    ensures delta >= 0 ==> r == Widened(Incr(cfg, lib, store, key, delta, version, now))
  {
    var sk := MakeKey(cfg, key, version);
    if delta < 0 then LibraryCount(lib, store, sk, -delta, false, now)
    else Widened(Converted(sk, LibraryCount(lib, store, sk, delta, true, now)))
  }

  /** `decr` as written, the mirror image of `incr`. */
  function DecrAsWritten(cfg: CacheConfig, lib: MissReport, store: Store, key: string, delta: int,
                         version: Option<int>, now: nat)
    : (r: Result<(Store, Option<nat>), CacheError>)
    ensures delta < 0 ==> r == LibraryCount(lib, store, MakeKey(cfg, key, version), -delta, true, now)
    ensures delta >= 0 ==> r == Widened(Decr(cfg, lib, store, key, delta, version, now))
  {
    var sk := MakeKey(cfg, key, version);
    if delta < 0 then LibraryCount(lib, store, sk, -delta, true, now)
    else Widened(Converted(sk, LibraryCount(lib, store, sk, delta, false, now)))
  }

  /**
    With a negative delta on a missing key, the code as written returns
    `None` from a library that answers `None`, and lets a library's own
    not-found exception escape, instead of raising `ValueError`.
   */
  lemma AsWrittenSkipsNotFoundConversion(cfg: CacheConfig, key: string, version: Option<int>, now: nat)
    ensures IncrAsWritten(cfg, ReturnsNone, map[], key, -1, version, now) == Ok((map[], None))
    ensures IncrAsWritten(cfg, RaisesNotFound, map[], key, -1, version, now) == Err(LibraryNotFound)
    ensures DecrAsWritten(cfg, ReturnsNone, map[], key, -1, version, now) == Ok((map[], None))
  {
  }

  /**
    `incr` with the sign swap inside the not-found conversion: the library
    is asked to add `delta`, or to subtract `-delta` when it is negative. A
    missing or expired key raises `ValueError`, whatever the sign.
   */
  function Incr(cfg: CacheConfig, lib: MissReport, store: Store, key: string, delta: int, version: Option<int>, now: nat)
    : (r: Result<(Store, nat), CacheError>)
    ensures !Holds(store, MakeKey(cfg, key, version), now) ==>
      r == Err(ValueError(MsgKeyNotFound(MakeKey(cfg, key, version))))
    ensures var sk := MakeKey(cfg, key, version);
      Holds(store, sk, now) && store[sk].value.Counter? && store[sk].value.n < U64 && delta < U64 && -delta < U64 ==>
        var n := store[sk].value.n;
        var m := if delta >= 0 then (n + delta) % U64 else if n + delta >= 0 then n + delta else 0;
        r == Ok((store[sk := Entry(Counter(m), store[sk].expiry)], m))
  {
    var sk := MakeKey(cfg, key, version);
    if delta < 0 then Converted(sk, LibraryCount(lib, store, sk, -delta, false, now))
    else Converted(sk, LibraryCount(lib, store, sk, delta, true, now))
  }

  /** `decr` with the same correction. */
  function Decr(cfg: CacheConfig, lib: MissReport, store: Store, key: string, delta: int, version: Option<int>, now: nat)
    : (r: Result<(Store, nat), CacheError>)
    ensures !Holds(store, MakeKey(cfg, key, version), now) ==>
      r == Err(ValueError(MsgKeyNotFound(MakeKey(cfg, key, version))))
    ensures var sk := MakeKey(cfg, key, version);
      Holds(store, sk, now) && store[sk].value.Counter? && store[sk].value.n < U64 && delta < U64 && -delta < U64 ==>
        var n := store[sk].value.n;
        var m := if delta <= 0 then (n - delta) % U64 else if n - delta >= 0 then n - delta else 0;
        r == Ok((store[sk := Entry(Counter(m), store[sk].expiry)], m))
  {
    var sk := MakeKey(cfg, key, version);
    if delta < 0 then Converted(sk, LibraryCount(lib, store, sk, -delta, true, now))
    else Converted(sk, LibraryCount(lib, store, sk, delta, false, now))
  }

  /** A negative delta swaps the operation: `incr(k, -d)` is `decr(k, d)` and the reverse. */
  lemma NegativeDeltaSwaps(cfg: CacheConfig, lib: MissReport, store: Store, key: string, delta: int,
                           version: Option<int>, now: nat)
    ensures Incr(cfg, lib, store, key, -delta, version, now) == Decr(cfg, lib, store, key, delta, version, now)
  {
  }

  /** Where the code as written agrees with the corrected operations. */
  lemma AsWrittenAgreesWithoutMissingKey(cfg: CacheConfig, lib: MissReport, store: Store, key: string,
                                         delta: int, version: Option<int>, now: nat)
    requires Holds(store, MakeKey(cfg, key, version), now)
    ensures IncrAsWritten(cfg, lib, store, key, delta, version, now) == Widened(Incr(cfg, lib, store, key, delta, version, now))
    ensures DecrAsWritten(cfg, lib, store, key, delta, version, now) == Widened(Decr(cfg, lib, store, key, delta, version, now))
  {
  }
}
