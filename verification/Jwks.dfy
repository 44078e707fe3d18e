/** internal/infra/oauthprovider/jwks.go: the cached key set of an issuer (section 5 of
    RFC 7517) and how long it is trusted (sections 5.2.2.1, 5.2.2.4 and 5.2.2.5 of RFC 9111).
    Durations are Go's: nanoseconds in 64 bits, in which no operation may overflow. Instants
    are nanoseconds since the zero time; a public key is an opaque string. */
module Jwks {
  import opened Common

  newtype int64 = n: int | -0x8000_0000_0000_0000 <= n <= 0x7FFF_FFFF_FFFF_FFFF

  /** time.Duration */
  type Duration = int64

  const SECOND: Duration := 1_000_000_000
  const MIN_REFRESH: Duration := 60 * SECOND
  const MIN_LIFETIME: Duration := 300 * SECOND
  const DEFAULT_LIFETIME: Duration := 3600 * SECOND
  const MAX_LIFETIME: Duration := 86400 * SECOND

  // ---- Reading the header ----

  function Comma(s: string): (d: nat)
    ensures d <= |s| && (d < |s| ==> s[d] == ',') && forall i :: 0 <= i < d ==> s[i] != ','
  {
    if s == [] || s[0] == ',' then 0 else 1 + Comma(s[1..])
  }

  function Split(s: string): (r: seq<string>)
    ensures r != []
    decreases |s|
  {
    var d := Comma(s);
    [s[..d]] + if d == |s| then [] else Split(s[d + 1..])
  }

  /** unicode.IsSpace */
  predicate IsSpace(c: char) {
    c == ' ' || '\t' <= c <= '\r' || c == '\U{85}' || c == '\U{A0}' || c == '\U{1680}' || '\U{2000}' <= c <= '\U{200A}'
    || c == '\U{2028}' || c == '\U{2029}' || c == '\U{202F}' || c == '\U{205F}' || c == '\U{3000}'
  }

  predicate IsQuote(c: char) { c == '"' }

  function TrimLeft(s: string, p: char -> bool): string { if s != [] && p(s[0]) then TrimLeft(s[1..], p) else s }

  function TrimRight(s: string, p: char -> bool): string {
    if s != [] && p(s[|s| - 1]) then TrimRight(s[..|s| - 1], p) else s
  }

  function Normal(d: string): string {
    ToLower(TrimRight(TrimLeft(d, c => IsSpace(c)), c => IsSpace(c)))
  }

  /** strconv.ParseInt in base 10, 64 bits: an out-of-range number is an error. */
  function ParseInt(s: string): Option<int64> {
    var negative := s != [] && s[0] == '-';
    var body := if s != [] && (s[0] == '-' || s[0] == '+') then s[1..] else s;
    if body == [] || !AllDigits(body) then None else
      var n: int := if negative then -(Number(body) as int) else Number(body);
      if -0x8000_0000_0000_0000 <= n <= 0x7FFF_FFFF_FFFF_FFFF then Some(n as int64) else None
  }

  const MAX_AGE := "max-age="

  predicate Forbids(d: string) { Normal(d) == "no-store" || Normal(d) == "no-cache" }

  /** The max-age a directive states, in seconds, if it states a readable one. */
  function MaxAge(d: string): (r: Option<int64>)
    ensures r.Some? ==> r.value >= 0
  {
    var n := Normal(d);
    if Forbids(d) || !(MAX_AGE <= n) then None else
      match ParseInt(TrimRight(TrimLeft(n[|MAX_AGE|..], c => IsQuote(c)), c => IsQuote(c)))
      case Some(v) => if v >= 0 then Some(v) else None
      case None => None
  }

  /** That many seconds, as an unbounded number of nanoseconds kept between the least and the
      greatest lifetime. */
  function Clamp(seconds: int): int {
    var nanos := seconds * SECOND as int;
    if nanos < MIN_LIFETIME as int then MIN_LIFETIME as int
    else if nanos > MAX_LIFETIME as int then MAX_LIFETIME as int
    else nanos
  }

  /** The last readable max-age. */
  function LastMaxAge(ds: seq<string>): (r: Option<int64>)
    ensures r.Some? ==> r.value >= 0
  {
    if ds == [] then None
    else if MaxAge(ds[|ds| - 1]).Some? then MaxAge(ds[|ds| - 1])
    else LastMaxAge(ds[..|ds| - 1])
  }

  /** A forbidding directive anywhere gives the minimum, else the last readable max-age, clamped. */
  function Lifetime(ds: seq<string>): int {
    if exists i :: 0 <= i < |ds| && Forbids(ds[i]) then MIN_LIFETIME as int
    else match LastMaxAge(ds)
         case None => DEFAULT_LIFETIME as int
         case Some(n) => Clamp(n as int)
  }

  /** What the unbounded product would give, though a max-age of a few hundred years already
      overflows a Duration. */
  method JwksLifetime(cacheControl: string) returns (life: Duration)
    ensures MIN_LIFETIME <= life <= MAX_LIFETIME
    ensures life as int == Lifetime(Split(cacheControl))
  {
    hide Forbids;
    hide MaxAge;
    hide Split;
    life := DEFAULT_LIFETIME;
    var ds := Split(cacheControl);
    for i := 0 to |ds|
      invariant forall k :: 0 <= k < i ==> !Forbids(ds[k])
      invariant 0 <= life <= MAX_LIFETIME
      invariant match LastMaxAge(ds[..i])
                case None => life == DEFAULT_LIFETIME
                case Some(n) => life as int == if n > 86400 then MAX_LIFETIME as int else n as int * SECOND as int
    {
      assert ds[..i + 1][..i] == ds[..i];
      if Forbids(ds[i]) { return MIN_LIFETIME; }
      match MaxAge(ds[i])
      case None =>
      case Some(n) => life := if n > MAX_LIFETIME / SECOND then MAX_LIFETIME else n * SECOND;
    }
    assert ds[..|ds|] == ds;
    life := if life < MIN_LIFETIME then MIN_LIFETIME else life;
    life := if life > MAX_LIFETIME then MAX_LIFETIME else life;
  }

  // ---- The cache ----

  type Key = string

  /** One entry of a fetched set; key is None when publicKey refuses it. */
  datatype Jwk = Jwk(kid: string, use: string, key: Option<Key>)

  function KeysOf(ks: seq<Jwk>): map<string, Key> {
    if ks == [] then map[] else
      var k := ks[|ks| - 1];
      var before := KeysOf(ks[..|ks| - 1]);
      if (k.use != "" && k.use != "sig") || k.key.None? then before else before[k.kid := k.key.value]
  }

  datatype Answer = Verified(key: Key) | UnknownKid | FetchError

  /** An entry that verifies signatures. */
  predicate Usable(k: Jwk) { (k.use == "" || k.use == "sig") && k.key.Some? }

  /** Entry i is the last usable one of the kid. */
  ghost predicate LastOf(ks: seq<Jwk>, i: int, kid: string, key: Key) {
    && 0 <= i < |ks| && Usable(ks[i]) && ks[i].kid == kid && ks[i].key == Some(key)
    && forall j :: i < j < |ks| ==> !(Usable(ks[j]) && ks[j].kid == kid)
  }

  /** A kid's key is that of the last usable entry of that kid. */
  lemma {:induction false} KeysAre(ks: seq<Jwk>, kid: string, key: Key)
    ensures kid in KeysOf(ks) && KeysOf(ks)[kid] == key <==> exists i :: LastOf(ks, i, kid, key)
  {
    if ks != [] {
      var init, n := ks[..|ks| - 1], |ks| - 1;
      KeysAre(init, kid, key);
      if Usable(ks[n]) && ks[n].kid == kid {
        assert ks[n].key == Some(key) ==> LastOf(ks, n, kid, key);
        forall i | LastOf(ks, i, kid, key) ensures i == n { }
      } else {
        assert forall i :: 0 <= i < n ==> init[i] == ks[i];
        forall i ensures LastOf(ks, i, kid, key) <==> LastOf(init, i, kid, key) { }
      }
    }
  }

  datatype Cache = Cache(keys: Option<map<string, Key>>, until: int, lastMissAt: int) {
    predicate Fresh(now: int) { keys.Some? && now < until }

    /** keyFor's first section: an answer, or None to fetch. */
    function Check(kid: string, now: int): Option<Answer> {
      if Fresh(now) && kid in keys.value then Some(Verified(keys.value[kid]))
      else if Fresh(now) && now - lastMissAt < MIN_REFRESH as int then Some(UnknownKid)
      else None
    }

    /** The cache update of fetchJWKS. */
    function Store(ks: seq<Jwk>, lifetime: Duration, now: int): Cache {
      this.(keys := Some(KeysOf(ks)), until := now + lifetime as int)
    }

    /** keyFor's last section, after a fetch. */
    function Look(kid: string, now: int): (Cache, Answer) {
      if keys.Some? && kid in keys.value then (this, Verified(keys.value[kid]))
      else (this.(lastMissAt := now), UnknownKid)
    }
  }

  const EMPTY := Cache(None, 0, 0)

  /** How a fetch ends, if one is made. */
  datatype Fetched = Failed | Fetched(ks: seq<Jwk>, lifetime: Duration)

  class Client {
    var keys: Option<map<string, Key>>
    var keysUntil: int
    var lastMissAt: int

    ghost function Value(): Cache
      reads this
    {
      Cache(keys, keysUntil, lastMissAt)
    }

    constructor ()
      ensures Value() == EMPTY
    {
      keys, keysUntil, lastMissAt := None, 0, 0;
    }

    method Check(kid: string, now: int) returns (r: Option<Answer>)
      ensures r == Value().Check(kid, now)
    {
      var current := keys.Some? && now < keysUntil;
      if current {
        if kid in keys.value { return Some(Verified(keys.value[kid])); }
      }
      var throttled := current && now - lastMissAt < MIN_REFRESH as int;
      if throttled { return Some(UnknownKid); }
      return None;
    }

    method Store(ks: seq<Jwk>, lifetime: Duration, now: int)
      modifies this
      ensures Value() == old(Value()).Store(ks, lifetime, now)
    {
      var m: map<string, Key> := map[];
      for i := 0 to |ks|
        invariant m == KeysOf(ks[..i]) && lastMissAt == old(lastMissAt)
      {
        assert ks[..i + 1][..i] == ks[..i];
        var k := ks[i];
        if k.use != "" && k.use != "sig" { continue; }
        if k.key.None? { continue; }
        m := m[k.kid := k.key.value];
      }
      assert ks[..|ks|] == ks;
      keys := Some(m);
      keysUntil := now + lifetime as int;
    }

    method Look(kid: string, now: int) returns (r: Answer)
      modifies this
      ensures (Value(), r) == old(Value()).Look(kid, now)
    {
      if keys.Some? && kid in keys.value { return Verified(keys.value[kid]); }
      lastMissAt := now;
      return UnknownKid;
    }

    /** keyFor by a caller alone, with its three clock readings. */
    method KeyFor(kid: string, now: int, fetch: Fetched, storedAt: int, lookedAt: int) returns (r: Answer)
      modifies this
      ensures old(Value()).Check(kid, now).Some? ==> Value() == old(Value()) && Some(r) == old(Value()).Check(kid, now)
      ensures old(Value()).Check(kid, now).None? && fetch.Failed? ==> Value() == old(Value()) && r == FetchError
      ensures old(Value()).Check(kid, now).None? && fetch.Fetched? ==>
                (Value(), r) == old(Value()).Store(fetch.ks, fetch.lifetime, storedAt).Look(kid, lookedAt)
    {
      var known := Check(kid, now);
      if known.Some? { return known.value; }
      if fetch.Failed? { return FetchError; }
      Store(fetch.ks, fetch.lifetime, storedAt);
      r := Look(kid, lookedAt);
    }
  }
}
