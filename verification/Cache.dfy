/**
 The cache itself: an in-process dictionary with expiry, version counters and bodies kept in it
 under string keys, and the per-session queue of bumps to run after the commit.
 */
module Cache {
  import opened Wrappers

  const VERSION_TTL_SECONDS := 3600

  // ---------------------------------------------------------------- decimal strings

  function Digit(n: nat): char
    requires n < 10
  {
    "0123456789"[n]
  }

  function Decimal(n: nat): (s: string)
    ensures s != [] && forall i | 0 <= i < |s| :: '0' <= s[i] <= '9'
  {
    if n < 10 then [Digit(n)] else Decimal(n / 10) + [Digit(n % 10)]
  }

  function Parse(s: string): nat {
    if s == [] then 0
    else Parse(s[..|s| - 1]) * 10 + (if '0' <= s[|s| - 1] <= '9' then (s[|s| - 1] - '0') as nat else 0)
  }

  lemma {:induction false} ParseDecimal(n: nat)
    ensures Parse(Decimal(n)) == n
  {
    if n >= 10 {
      ParseDecimal(n / 10);
      assert Decimal(n)[..|Decimal(n)| - 1] == Decimal(n / 10);
    }
  }

  lemma DecimalInjective(m: nat, n: nat)
    requires Decimal(m) == Decimal(n)
    ensures m == n
  {
    ParseDecimal(m);
    ParseDecimal(n);
  }

  // ---------------------------------------------------------------- keys

  function VersionKey(ns: string, key: string): string {
    ns + ":ver:" + key
  }

  function BodyKey(ns: string, key: string, version: nat): string {
    ns + ":v" + Decimal(version) + ":" + key
  }

  function ScopedKey(ns: string, key: string, token: string): string {
    ns + ":s[" + token + "]:" + key
  }

  /** `scope=version` for each scope, joined by commas. */
  function Token(scopes: seq<string>, versions: seq<nat>): string
    requires |scopes| == |versions|
  {
    if scopes == [] then ""
    else scopes[0] + "=" + Decimal(versions[0]) + (if |scopes| == 1 then "" else "," + Token(scopes[1..], versions[1..]))
  }

  /** Two strings that agree, cut at a separator neither left half contains, agree in both halves. */
  lemma CutAgrees(a: string, b: string, a': string, b': string, sep: char)
    requires a + [sep] + b == a' + [sep] + b' && sep !in a && sep !in a'
    ensures a == a' && b == b'
  {
    var s := a + [sep] + b;
    assert s[|a|] == sep && s[|a'|] == sep;
    assert forall i | 0 <= i < |a| :: s[i] == a[i] != sep;
    assert forall i | 0 <= i < |a'| :: s[i] == a'[i] != sep;
    assert |a| == |a'|;
    assert a == s[..|a|] && a' == s[..|a'|];
    assert b == s[|a| + 1..] && b' == s[|a'| + 1..];
  }

  lemma PrefixAgrees(p: string, a: string, b: string)
    requires p + a == p + b
    ensures a == b
  {
    assert a == (p + a)[|p|..];
    assert b == (p + b)[|p|..];
  }

  /** No body shares a key with another body, and none with a counter. */
  lemma BodyKeysDistinct(ns: string, k: string, v: nat, k': string, v': nat)
    ensures BodyKey(ns, k, v) == BodyKey(ns, k', v') ==> k == k' && v == v'
    ensures BodyKey(ns, k, v) != VersionKey(ns, k')
  {
    var p := ns + ":v";
    assert BodyKey(ns, k, v) == p + (Decimal(v) + [':'] + k);
    assert BodyKey(ns, k', v') == p + (Decimal(v') + [':'] + k');
    if BodyKey(ns, k, v) == BodyKey(ns, k', v') {
      PrefixAgrees(p, Decimal(v) + [':'] + k, Decimal(v') + [':'] + k');
      CutAgrees(Decimal(v), k, Decimal(v'), k', ':');
      DecimalInjective(v, v');
    }
    assert BodyKey(ns, k, v)[|ns| + 2] == Decimal(v)[0];
    assert VersionKey(ns, k')[|ns| + 2] == 'e';
  }

  lemma VersionKeysDistinct(ns: string, k: string, k': string)
    requires VersionKey(ns, k) == VersionKey(ns, k')
    ensures k == k'
  {
    PrefixAgrees(ns + ":ver:", k, k');
  }

  lemma ScopedKeysApart(ns: string, k: string, t: string, k': string, v: nat)
    ensures ScopedKey(ns, k, t) != BodyKey(ns, k', v) && ScopedKey(ns, k, t) != VersionKey(ns, k')
  {
    assert ScopedKey(ns, k, t)[|ns| + 1] == 's';
    assert BodyKey(ns, k', v)[|ns| + 1] == 'v' && VersionKey(ns, k')[|ns| + 1] == 'v';
  }

  lemma ScopedKeysDistinct(ns: string, k: string, t: string, k': string, t': string)
    requires ']' !in t && ']' !in t' && ScopedKey(ns, k, t) == ScopedKey(ns, k', t')
    ensures k == k' && t == t'
  {
    var p := ns + ":s[";
    assert ScopedKey(ns, k, t) == p + (t + [']'] + (":" + k));
    assert ScopedKey(ns, k', t') == p + (t' + [']'] + (":" + k'));
    PrefixAgrees(p, t + [']'] + (":" + k), t' + [']'] + (":" + k'));
    CutAgrees(t, ":" + k, t', ":" + k', ']');
    PrefixAgrees(":", k, k');
  }

  /** For the same scopes, different versions give different tokens. */
  lemma {:induction false} TokenInjective(scopes: seq<string>, v: seq<nat>, w: seq<nat>)
    requires |scopes| == |v| == |w| && Token(scopes, v) == Token(scopes, w)
    ensures v == w
  {
    if |scopes| == 1 {
      LastVersionAgrees(scopes[0] + "=", v[0], w[0]);
      assert Token(scopes, v) == scopes[0] + "=" + Decimal(v[0]) && Token(scopes, w) == scopes[0] + "=" + Decimal(w[0]);
    } else if |scopes| > 1 {
      FirstVersionAgrees(scopes[0] + "=", v[0], Token(scopes[1..], v[1..]), w[0], Token(scopes[1..], w[1..]));
      TokenInjective(scopes[1..], v[1..], w[1..]);
      assert v == [v[0]] + v[1..] && w == [w[0]] + w[1..];
    }
  }

  lemma LastVersionAgrees(p: string, m: nat, n: nat)
    ensures p + Decimal(m) == p + Decimal(n) ==> m == n
  {
    if p + Decimal(m) == p + Decimal(n) {
      PrefixAgrees(p, Decimal(m), Decimal(n));
      DecimalInjective(m, n);
    }
  }

  lemma FirstVersionAgrees(p: string, m: nat, x: string, n: nat, y: string)
    requires p + Decimal(m) + ("," + x) == p + Decimal(n) + ("," + y)
    ensures m == n && x == y
  {
    assert p + Decimal(m) + ("," + x) == p + (Decimal(m) + [','] + x);
    assert p + Decimal(n) + ("," + y) == p + (Decimal(n) + [','] + y);
    PrefixAgrees(p, Decimal(m) + [','] + x, Decimal(n) + [','] + y);
    CutAgrees(Decimal(m), x, Decimal(n), y, ',');
    DecimalInjective(m, n);
  }

  // ---------------------------------------------------------------- the dictionary

  datatype Cell = Cell(expires: int, value: string)

  function Lookup(store: map<string, Cell>, key: string, now: int): Option<string> {
    if key in store && now <= store[key].expires then Some(store[key].value) else None
  }

  /** Dropping a dead cell is invisible at this and any later moment. */
  lemma DroppingDeadIsInvisible(store: map<string, Cell>, dead: string, key: string, now: int, later: int)
    requires dead in store && store[dead].expires < now <= later
    ensures Lookup(store - {dead}, key, later) == Lookup(store, key, later)
  {
  }

  class TTLDictBackend {
    var store: map<string, Cell>

    constructor ()
      ensures store == map[]
    {
      store := map[];
    }

    method Get(key: string, now: int) returns (r: Option<string>)
      modifies this
      ensures r == Lookup(old(store), key, now)
      ensures store == if key in old(store) && old(store)[key].expires < now then old(store) - {key} else old(store)
      ensures forall k, t | now <= t :: Lookup(store, k, t) == Lookup(old(store), k, t)
    {
      if key !in store { return None; }
      var cell := store[key];
      if cell.expires < now {
        store := store - {key};
        return None;
      }
      return Some(cell.value);
    }

    method Set(key: string, value: string, ex: int, now: int)
      modifies this
      ensures store == old(store)[key := Cell(now + ex, value)]
    {
      store := store[key := Cell(now + ex, value)];
    }

    method Incr(key: string, now: int) returns (value: nat)
      modifies this
      ensures value == Count(old(store), key, now) + 1
      ensures store == old(store)[key := Cell(now + VERSION_TTL_SECONDS, Decimal(value))]
    {
      var current := Get(key, now);
      value := (if current.Some? && current.value != "" then Parse(current.value) else 0) + 1;
      ghost var cell := Cell(now + VERSION_TTL_SECONDS, Decimal(value));
      assert (old(store) - {key})[key := cell] == old(store)[key := cell];
      store := store[key := Cell(now + VERSION_TTL_SECONDS, Decimal(value))];
    }
  }

  /** The number a live counter cell holds, 0 without one. */
  function Count(store: map<string, Cell>, key: string, now: int): nat {
    var c := Lookup(store, key, now);
    if c.Some? && c.value != "" then Parse(c.value) else 0
  }

  // ---------------------------------------------------------------- versions and bodies

  function VersionIn(store: map<string, Cell>, ns: string, key: string, now: int): nat {
    Count(store, VersionKey(ns, key), now)
  }

  function BodyIn(store: map<string, Cell>, ns: string, key: string, version: nat, now: int): Option<string> {
    Lookup(store, BodyKey(ns, key, version), now)
  }

  /** A body stored under `version`. */
  function WithBody(store: map<string, Cell>, ns: string, key: string, version: nat, value: string, ttl: nat, now: int): map<string, Cell> {
    store[BodyKey(ns, key, version) := Cell(now + ttl, value)]
  }

  /** The counter of `key` moved on by one, for another lifetime. */
  function Bumped(store: map<string, Cell>, ns: string, key: string, now: int): map<string, Cell> {
    store[VersionKey(ns, key) := Cell(now + VERSION_TTL_SECONDS, Decimal(VersionIn(store, ns, key, now) + 1))]
  }

  /** The body is there until it expires; no other body and no counter changes at any time. */
  lemma WithBodyShows(store: map<string, Cell>, ns: string, key: string, version: nat, value: string, ttl: nat, now: int)
    ensures var store' := WithBody(store, ns, key, version, value, ttl, now);
            && (forall t :: BodyIn(store', ns, key, version, t) == if t <= now + ttl then Some(value) else None)
            && (forall k, v: nat, t | (k, v) != (key, version) :: BodyIn(store', ns, k, v, t) == BodyIn(store, ns, k, v, t))
            && (forall k, t :: VersionIn(store', ns, k, t) == VersionIn(store, ns, k, t))
  {
    forall k, v: nat ensures (k, v) != (key, version) ==> BodyKey(ns, k, v) != BodyKey(ns, key, version) {
      BodyKeysDistinct(ns, key, version, k, v);
    }
    forall k ensures VersionKey(ns, k) != BodyKey(ns, key, version) { BodyKeysDistinct(ns, key, version, k, 0); }
  }

  /** The counter shows the next version until it expires, and none afterwards; no other counter and no
      body changes at any time. */
  lemma BumpedShows(store: map<string, Cell>, ns: string, key: string, now: int)
    ensures var store' := Bumped(store, ns, key, now);
            && (forall t :: VersionIn(store', ns, key, t) == if t <= now + VERSION_TTL_SECONDS then VersionIn(store, ns, key, now) + 1 else 0)
            && (forall k, t | k != key :: VersionIn(store', ns, k, t) == VersionIn(store, ns, k, t))
            && (forall k, v: nat, t :: BodyIn(store', ns, k, v, t) == BodyIn(store, ns, k, v, t))
  {
    ParseDecimal(VersionIn(store, ns, key, now) + 1);
    forall k ensures k != key ==> VersionKey(ns, k) != VersionKey(ns, key) {
      if VersionKey(ns, k) == VersionKey(ns, key) { VersionKeysDistinct(ns, k, key); }
    }
    forall k, v: nat ensures BodyKey(ns, k, v) != VersionKey(ns, key) { BodyKeysDistinct(ns, k, v, key, v); }
  }

  class VersionedCache {
    const ns: string
    const ttl: nat
    const backend: TTLDictBackend

    constructor (ns: string, ttl: nat, backend: TTLDictBackend)
      ensures this.ns == ns && this.ttl == ttl && this.backend == backend
    {
      this.ns, this.ttl, this.backend := ns, ttl, backend;
    }

    /** The current version of `key`. */
    function Version(key: string, now: int): nat
      reads backend
    {
      VersionIn(backend.store, ns, key, now)
    }

    /** The body cached for `key` at `version`. */
    function Body(key: string, version: nat, now: int): Option<string>
      reads backend
    {
      BodyIn(backend.store, ns, key, version, now)
    }

    method CurrentVersion(key: string, now: int) returns (v: nat)
      modifies backend
      ensures v == old(Version(key, now))
      ensures forall k, t | now <= t :: Lookup(backend.store, k, t) == Lookup(old(backend.store), k, t)
    {
      var raw := backend.Get(VersionKey(ns, key), now);
      v := if raw.Some? && raw.value != "" then Parse(raw.value) else 0;
    }

    method GetVersioned(key: string, now: int) returns (body: Option<string>, version: nat)
      modifies backend
      ensures version == old(Version(key, now)) && body == old(Body(key, Version(key, now), now))
      ensures forall k, t | now <= t :: Lookup(backend.store, k, t) == Lookup(old(backend.store), k, t)
    {
      version := CurrentVersion(key, now);
      body := backend.Get(BodyKey(ns, key, version), now);
    }

    /** Stores under the version the caller saw: that one body is there until it expires, every counter
        and every other body stays. A bump since the caller's read leaves the new version empty. */
    method Set(key: string, value: string, version: nat, now: int)
      modifies backend
      ensures backend.store == WithBody(old(backend.store), ns, key, version, value, ttl, now)
      ensures forall t :: Body(key, version, t) == if t <= now + ttl then Some(value) else None
      ensures forall k, v: nat, t | (k, v) != (key, version) :: Body(k, v, t) == old(Body(k, v, t))
      ensures forall k, t :: Version(k, t) == old(Version(k, t))
    {
      WithBodyShows(backend.store, ns, key, version, value, ttl, now);
      backend.Set(BodyKey(ns, key, version), value, ttl, now);
    }

    /** Invalidates `key`: its counter moves by one, for as long as a counter lives; no other counter and
        no body changes. */
    method Bump(key: string, now: int) returns (version: nat)
      modifies backend
      ensures backend.store == Bumped(old(backend.store), ns, key, now)
      ensures version == old(Version(key, now)) + 1
      ensures forall t :: Version(key, t) == if t <= now + VERSION_TTL_SECONDS then version else 0
      ensures forall k, t | k != key :: Version(k, t) == old(Version(k, t))
      ensures forall k, v: nat, t :: Body(k, v, t) == old(Body(k, v, t))
    {
      BumpedShows(backend.store, ns, key, now);
      version := backend.Incr(VersionKey(ns, key), now);
    }

    /** Reads the counters one after another and looks the body up under the joint token. */
    method GetScoped(key: string, scopes: seq<string>, now: int) returns (body: Option<string>, versions: seq<nat>)
      modifies backend
      ensures |versions| == |scopes| && forall i | 0 <= i < |scopes| :: versions[i] == old(Version(scopes[i], now))
      ensures body == old(Lookup(backend.store, ScopedKey(ns, key, Token(scopes, versions)), now))
      ensures forall k, t | now <= t :: Lookup(backend.store, k, t) == Lookup(old(backend.store), k, t)
    {
      versions := [];
      while |versions| < |scopes|
        invariant |versions| <= |scopes|
        invariant forall i | 0 <= i < |versions| :: versions[i] == old(Version(scopes[i], now))
        invariant forall k, t | now <= t :: Lookup(backend.store, k, t) == Lookup(old(backend.store), k, t)
      {
        var v := CurrentVersion(scopes[|versions|], now);
        versions := versions + [v];
      }
      body := backend.Get(ScopedKey(ns, key, Token(scopes, versions)), now);
    }

    /** Stores under the versions the caller saw; a lookup of the same key under any other
        versions of the same scopes is unaffected, and so is every counter. */
    method SetScoped(key: string, value: string, scopes: seq<string>, versions: seq<nat>, now: int)
      requires |scopes| == |versions|
      modifies backend
      ensures forall t :: Lookup(backend.store, ScopedKey(ns, key, Token(scopes, versions)), t) == if t <= now + ttl then Some(value) else None
      ensures ']' !in Token(scopes, versions) ==>
                forall vs: seq<nat>, t | |vs| == |scopes| && vs != versions && ']' !in Token(scopes, vs) ::
                  Lookup(backend.store, ScopedKey(ns, key, Token(scopes, vs)), t)
                  == Lookup(old(backend.store), ScopedKey(ns, key, Token(scopes, vs)), t)
      ensures forall k, t :: Version(k, t) == old(Version(k, t))
    {
      var token := Token(scopes, versions);
      backend.Set(ScopedKey(ns, key, token), value, ttl, now);
      forall vs: seq<nat> | |vs| == |scopes| && vs != versions && ']' !in Token(scopes, vs) && ']' !in token
        ensures ScopedKey(ns, key, Token(scopes, vs)) != ScopedKey(ns, key, token)
      {
        if ScopedKey(ns, key, Token(scopes, vs)) == ScopedKey(ns, key, token) {
          ScopedKeysDistinct(ns, key, Token(scopes, vs), key, token);
          TokenInjective(scopes, vs, versions);
        }
      }
      forall k ensures VersionKey(ns, k) != ScopedKey(ns, key, token) {
        ScopedKeysApart(ns, key, token, k, 0);
      }
    }
  }

  // ---------------------------------------------------------------- post-commit invalidation

  class Session {
    const cache: VersionedCache
    var pending: seq<string>

    constructor (cache: VersionedCache)
      ensures this.cache == cache && pending == []
    {
      this.cache, pending := cache, [];
    }

    ghost predicate Valid()
      reads this
    {
      forall i, j | 0 <= i < j < |pending| :: pending[i] != pending[j]
    }

    method DeferBump(key: string)
      requires Valid()
      modifies this`pending
      ensures Valid()
      ensures pending == if key in old(pending) then old(pending) else old(pending) + [key]
    {
      if key !in pending { pending := pending + [key]; }
    }

    method DiscardDeferredBumps()
      modifies this`pending
      ensures pending == []
    {
      pending := [];
    }

    /** Each queued key is bumped exactly once, for as long as a counter lives, nothing else moves, and
        the queue is empty. */
    method FlushDeferredBumps(now: int) returns (n: nat)
      requires Valid()
      modifies this`pending, cache.backend
      ensures pending == [] && n == |old(pending)|
      ensures forall k, t | k in old(pending) :: cache.Version(k, t) == if t <= now + VERSION_TTL_SECONDS then old(cache.Version(k, now)) + 1 else 0
      ensures forall k, t | k !in old(pending) :: cache.Version(k, t) == old(cache.Version(k, t))
      ensures forall k, v: nat, t :: cache.Body(k, v, t) == old(cache.Body(k, v, t))
    {
      var queue := pending;
      pending := [];
      n := 0;
      while n < |queue|
        invariant 0 <= n <= |queue| && pending == []
        invariant forall k, t | k in queue[..n] :: cache.Version(k, t) == if t <= now + VERSION_TTL_SECONDS then old(cache.Version(k, now)) + 1 else 0
        invariant forall k, t | k !in queue[..n] :: cache.Version(k, t) == old(cache.Version(k, t))
        invariant forall k, v: nat, t :: cache.Body(k, v, t) == old(cache.Body(k, v, t))
      {
        assert queue[..n + 1] == queue[..n] + [queue[n]];
        assert queue[n] !in queue[..n];
        var _ := cache.Bump(queue[n], now);
        n := n + 1;
      }
      assert queue[..n] == queue;
    }
  }
}
