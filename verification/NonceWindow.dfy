/**
  Signed internal requests: the signer (chatbot.bridge.worker.js, signRequest) and the
  verifier with its nonce store (security/internal_auth.py, _verify_hmac_and_nonce).

  Clocks and expiries are microseconds; a timestamp header counts milliseconds.
 */
module NonceWindow {
  import opened Basics

  /** The functions of the outside world: HMAC-SHA256, SHA-256 and Python's int(). */
  datatype Crypto = Crypto(
    hmac: (string, string) -> string, digest: string -> string, parse: string -> Option<int>)

  /** HMAC (RFC 2104) taken as injective in the message, and digests printed in hexadecimal. */
  ghost predicate Trustworthy(c: Crypto) {
    && (forall key, p, q :: c.hmac(key, p) == c.hmac(key, q) ==> p == q)
    && (forall body :: '\n' !in c.digest(body))
  }

  datatype Config = Config(tolerance: nat, nonceTtl: nat, secret: string -> string)

  const SECOND := 1_000_000

  /** The service's settings: the nonce lives for twice the tolerance. */
  function Deployed(toleranceSeconds: nat, secret: string -> string): Config {
    Config(toleranceSeconds * SECOND, 2 * toleranceSeconds * SECOND, secret)
  }

  datatype Request = Request(
    service: string, verb: string, path: string, body: string, timestamp: string, signature: string)

  function Upper(s: string): string {
    if s == "" then ""
    else [if 'a' <= s[0] <= 'z' then s[0] - 'a' + 'A' else s[0]] + Upper(s[1..])
  }

  /** Letter by letter: only small letters change, into capitals with the same place. */
  lemma {:induction false} UpperExactly(s: string, i: nat)
    requires i < |s|
    ensures |Upper(s)| == |s|
    ensures Upper(s)[i] == if 'a' <= s[i] <= 'z' then (s[i] as int - 97 + 65) as char else s[i]
  {
    if i > 0 { UpperExactly(s[1..], i - 1); } else { UpperKeepsLength(s[1..]); }
  }

  lemma {:induction false} UpperKeepsLength(s: string)
    ensures |Upper(s)| == |s|
  {
    if s != "" { UpperKeepsLength(s[1..]); }
  }

  function Payload(verb: string, path: string, service: string, timestamp: string, hash: string): string {
    verb + "\n" + path + "\n" + service + "\n" + timestamp + "\n" + hash
  }

  /** The payload determines its parts, even when the path contains line breaks. */
  lemma PayloadIsInjective(m: string, p: string, s: string, t: string, h: string,
                           m': string, p': string, s': string, t': string, h': string)
    requires Payload(m, p, s, t, h) == Payload(m', p', s', t', h')
    requires '\n' !in m && '\n' !in s && '\n' !in t && '\n' !in h
    requires '\n' !in m' && '\n' !in s' && '\n' !in t' && '\n' !in h'
    ensures m == m' && p == p' && s == s' && t == t' && h == h'
  {
    var a, b, c := m + ['\n'] + p, m + "\n" + p + "\n" + s, m + "\n" + p + "\n" + s + "\n" + t;
    var a', b', c' := m' + ['\n'] + p', m' + "\n" + p' + "\n" + s', m' + "\n" + p' + "\n" + s' + "\n" + t';
    assert c + ['\n'] + h == Payload(m, p, s, t, h) == Payload(m', p', s', t', h') == c' + ['\n'] + h';
    LastSeparator(c, h, c', h', '\n');
    LastSeparator(b, t, b', t', '\n');
    LastSeparator(a, s, a', s', '\n');
    FirstSeparator(m, p, m', p', '\n');
  }

  function PayloadOf(c: Crypto, r: Request): string {
    Payload(Upper(r.verb), r.path, r.service, r.timestamp, c.digest(r.body))
  }

  /** signRequest, for a service that holds `token`. */
  function Sign(c: Crypto, service: string, token: string, verb: string, path: string, body: string, stamp: string)
    : Request
  {
    Request(service, verb, path, body, stamp,
            c.hmac(token, Payload(Upper(verb), path, service, stamp, c.digest(body))))
  }

  function Abs(x: int): nat { if x < 0 then -x else x }

  predicate Fresh(cfg: Config, c: Crypto, r: Request, now: int) {
    c.parse(r.timestamp).Some? && Abs(now - c.parse(r.timestamp).value * 1000) <= cfg.tolerance
  }

  /** Everything before the nonce: headers present, timestamp fresh, signature right. */
  predicate Authentic(cfg: Config, c: Crypto, r: Request, now: int) {
    && r.timestamp != "" && r.signature != ""
    && Fresh(cfg, c, r, now)
    && c.hmac(cfg.secret(r.service), PayloadOf(c, r)) == r.signature
  }

  type Nonces = map<string, int>

  function NonceKey(r: Request): string {
    "nonce:" + r.service + ":" + r.signature
  }

  predicate Known(nonces: Nonces, key: string, now: int) {
    key in nonces && Alive(nonces[key], now)
  }

  function Verify(cfg: Config, c: Crypto, nonces: Nonces, r: Request, now: int): (Nonces, bool) {
    if !Authentic(cfg, c, r, now) || Known(nonces, NonceKey(r), now) then (nonces, false)
    else (nonces[NonceKey(r) := now + cfg.nonceTtl], true)
  }

  /** The verifier with its store of nonces; `now` is one instant for clock and store. */
  class InternalAuth {
    const cfg: Config
    const crypto: Crypto
    var nonces: Nonces

    constructor (cfg: Config, crypto: Crypto)
      ensures this.cfg == cfg && this.crypto == crypto && nonces == map[]
    {
      this.cfg, this.crypto, nonces := cfg, crypto, map[];
    }

    /** SET key NX PX ttl. */
    method SetIfAbsent(key: string, ttl: nat, now: int) returns (isNew: bool)
      modifies this
      ensures isNew == !Known(old(nonces), key, now)
      ensures nonces == if isNew then old(nonces)[key := now + ttl] else old(nonces)
    {
      isNew := !(key in nonces && Alive(nonces[key], now));
      if isNew { nonces := nonces[key := now + ttl]; }
    }

    method VerifyHmacAndNonce(r: Request, now: int) returns (ok: bool)
      modifies this
      ensures (nonces, ok) == Verify(cfg, crypto, old(nonces), r, now)
    {
      if r.timestamp == "" || r.signature == "" { return false; }
      var stamp := crypto.parse(r.timestamp);
      if stamp == None { return false; }
      if Abs(now - stamp.value * 1000) > cfg.tolerance { return false; }
      var payload := Payload(Upper(r.verb), r.path, r.service, r.timestamp, crypto.digest(r.body));
      if crypto.hmac(cfg.secret(r.service), payload) != r.signature { return false; }
      ok := SetIfAbsent(NonceKey(r), cfg.nonceTtl, now);
    }
  }

  /** The header counts milliseconds since the clock's zero; the clock counts microseconds. */
  predicate StampedAt(c: Crypto, stamp: string, ms: int) {
    c.parse(stamp) == Some(ms)
  }

  /** A request signed with the shared secret is accepted exactly when its stamp lies within the
      tolerance of the clock and its nonce is unknown. */
  lemma SignedRequestsAreAccepted(cfg: Config, c: Crypto, nonces: Nonces, service: string, verb: string,
                                  path: string, body: string, stamp: string, ms: int, now: int)
    requires StampedAt(c, stamp, ms) && stamp != ""
    requires Sign(c, service, cfg.secret(service), verb, path, body, stamp).signature != ""
    ensures var r := Sign(c, service, cfg.secret(service), verb, path, body, stamp);
      Verify(cfg, c, nonces, r, now).1 <==>
        now - 1000 * ms <= cfg.tolerance && 1000 * ms - now <= cfg.tolerance && !Known(nonces, NonceKey(r), now)
  {
  }

  /** In particular, as deployed with a tolerance of at least a second, when it arrives in the
      millisecond in which it was stamped. */
  lemma {:induction false} PromptRequestsAreAccepted(seconds: nat, secret: string -> string, c: Crypto, nonces: Nonces,
                                                     service: string, verb: string, path: string, body: string,
                                                     stamp: string, ms: int, now: int)
    requires seconds >= 1 && StampedAt(c, stamp, ms) && stamp != "" && 1000 * ms <= now < 1000 * (ms + 1)
    requires Sign(c, service, secret(service), verb, path, body, stamp).signature != ""
    ensures var r := Sign(c, service, secret(service), verb, path, body, stamp);
      Verify(Deployed(seconds, secret), c, nonces, r, now).1 <==> !Known(nonces, NonceKey(r), now)
  {
    SignedRequestsAreAccepted(Deployed(seconds, secret), c, nonces, service, verb, path, body, stamp, ms, now);
  }

  // ---------------------------------------------------------------- runs

  datatype Arrival = Arrival(r: Request, now: int)

  function StoreAfter(cfg: Config, c: Crypto, run: seq<Arrival>): Nonces {
    if run == [] then map[]
    else Verify(cfg, c, StoreAfter(cfg, c, Init(run)), Last(run).r, Last(run).now).0
  }

  predicate Accepts(cfg: Config, c: Crypto, run: seq<Arrival>, i: nat)
    requires i < |run|
  {
    Verify(cfg, c, StoreAfter(cfg, c, run[..i]), run[i].r, run[i].now).1
  }

  predicate InOrder(run: seq<Arrival>) {
    forall i, j :: 0 <= i < j < |run| ==> run[i].now <= run[j].now
  }

  /** Header fields are single lines. */
  predicate SingleLines(r: Request) {
    '\n' !in Upper(r.verb) && '\n' !in r.service && '\n' !in r.timestamp
  }

  /** A nonce accepted at position i stays stored for its whole lifetime. */
  lemma {:induction false} NoncesLast(cfg: Config, c: Crypto, run: seq<Arrival>, i: nat)
    requires i < |run| && InOrder(run) && Accepts(cfg, c, run, i)
    ensures NonceKey(run[i].r) in StoreAfter(cfg, c, run)
    ensures StoreAfter(cfg, c, run)[NonceKey(run[i].r)] >= run[i].now + cfg.nonceTtl
  {
    var before := Init(run);
    if i == |before| {
      assert run[..i] == before;
    } else {
      assert before[..i] == run[..i] && before[i] == run[i];
      NoncesLast(cfg, c, before, i);
      assert run[i].now <= run[|run| - 1].now;
    }
  }

  predicate SameNonce(a: Request, b: Request) {
    a.service == b.service && a.signature == b.signature
  }

  /** A request with this service and signature was accepted within a nonce's lifetime. */
  ghost predicate WasAccepted(cfg: Config, c: Crypto, run: seq<Arrival>, r: Request, now: int) {
    exists i: nat :: i < |run| && Accepts(cfg, c, run, i) && now <= run[i].now + cfg.nonceTtl
      && SameNonce(run[i].r, r)
  }

  /** Nonce keys tell services and signatures apart, whatever the service is called. */
  lemma NonceKeysAreDistinct(a: Request, b: Request)
    requires ':' !in a.signature && ':' !in b.signature
    ensures NonceKey(a) == NonceKey(b) <==> a.service == b.service && a.signature == b.signature
  {
    if NonceKey(a) == NonceKey(b) {
      assert NonceKey(a)[6..] == a.service + [':'] + a.signature;
      assert NonceKey(b)[6..] == b.service + [':'] + b.signature;
      LastSeparator(a.service, a.signature, b.service, b.signature, ':');
    }
  }

  predicate NoColons(run: seq<Arrival>) {
    forall i :: 0 <= i < |run| ==> ':' !in run[i].r.signature
  }

  /** A nonce is known exactly when its request was accepted within its lifetime. */
  lemma {:induction false} KnownExactlyWhen(cfg: Config, c: Crypto, run: seq<Arrival>, r: Request, now: int)
    requires InOrder(run) && NoColons(run) && ':' !in r.signature
    ensures Known(StoreAfter(cfg, c, run), NonceKey(r), now) <==> WasAccepted(cfg, c, run, r, now)
  {
    if WasAccepted(cfg, c, run, r, now) {
      var i: nat :| i < |run| && Accepts(cfg, c, run, i) && now <= run[i].now + cfg.nonceTtl
        && SameNonce(run[i].r, r);
      NoncesLast(cfg, c, run, i);
    } else if run != [] {
      var before, last := Init(run), Last(run);
      forall i: nat | i < |before| && Accepts(cfg, c, before, i) ensures Accepts(cfg, c, run, i) {
        assert before[..i] == run[..i] && before[i] == run[i];
      }
      assert run[..|before|] == before && run[|before|] == last && ':' !in last.r.signature;
      KnownExactlyWhen(cfg, c, before, r, now);
      if Verify(cfg, c, StoreAfter(cfg, c, before), last.r, last.now).1 {
        assert Accepts(cfg, c, run, |before|);
        NonceKeysAreDistinct(last.r, r);
      }
    }
  }

  /** The verifier in full: after every ordered run a request is accepted exactly when its headers
      are there, its stamp is within the tolerance, the signature is that of its parts under the
      service's secret, and no request with its service and signature was accepted within a
      nonce's lifetime. */
  lemma {:induction false} AcceptedExactlyWhen(cfg: Config, c: Crypto, run: seq<Arrival>, r: Request, now: int)
    requires InOrder(run) && NoColons(run) && ':' !in r.signature
    ensures Verify(cfg, c, StoreAfter(cfg, c, run), r, now).1 <==>
      && r.timestamp != "" && r.signature != ""
      && c.parse(r.timestamp).Some?
      && now - 1000 * c.parse(r.timestamp).value <= cfg.tolerance
      && 1000 * c.parse(r.timestamp).value - now <= cfg.tolerance
      && r.signature == Sign(c, r.service, cfg.secret(r.service), r.verb, r.path, r.body, r.timestamp).signature
      && !WasAccepted(cfg, c, run, r, now)
  {
    KnownExactlyWhen(cfg, c, run, r, now);
  }

  /** ... as deployed, in microseconds: the tolerance in whole seconds on both sides, and nonces
      for twice as long. */
  lemma {:induction false} DeployedExactlyWhen(seconds: nat, secret: string -> string, c: Crypto, run: seq<Arrival>,
                                               service: string, verb: string, path: string, body: string,
                                               stamp: string, ms: int, now: int)
    requires InOrder(run) && NoColons(run) && StampedAt(c, stamp, ms) && stamp != ""
    requires var r := Sign(c, service, secret(service), verb, path, body, stamp);
      r.signature != "" && ':' !in r.signature
    ensures var r := Sign(c, service, secret(service), verb, path, body, stamp);
      var cfg := Deployed(seconds, secret);
      Verify(cfg, c, StoreAfter(cfg, c, run), r, now).1 <==>
        && now - 1000 * ms <= 1_000_000 * seconds && 1000 * ms - now <= 1_000_000 * seconds
        && forall i :: 0 <= i < |run| && Accepts(cfg, c, run, i) && SameNonce(run[i].r, r) ==>
             run[i].now + 2_000_000 * seconds < now
  {
    var r, cfg := Sign(c, service, secret(service), verb, path, body, stamp), Deployed(seconds, secret);
    AcceptedExactlyWhen(cfg, c, run, r, now);
  }

  /** No (service, signature) pair is accepted twice: what is still fresh is still stored. */
  lemma NoReplays(cfg: Config, c: Crypto, run: seq<Arrival>, i: nat, j: nat)
    requires Trustworthy(c) && cfg.nonceTtl >= 2 * cfg.tolerance && InOrder(run)
    requires i < j < |run| && Accepts(cfg, c, run, i) && Accepts(cfg, c, run, j)
    requires SingleLines(run[i].r) && SingleLines(run[j].r)
    ensures (run[i].r.service, run[i].r.signature) != (run[j].r.service, run[j].r.signature)
  {
    var a, b := run[i].r, run[j].r;
    if a.service == b.service && a.signature == b.signature {
      assert PayloadOf(c, a) == PayloadOf(c, b);
      PayloadIsInjective(Upper(a.verb), a.path, a.service, a.timestamp, c.digest(a.body),
                         Upper(b.verb), b.path, b.service, b.timestamp, c.digest(b.body));
      assert run[..j][..i] == run[..i] && run[..j][i] == run[i];
      NoncesLast(cfg, c, run[..j], i);
      assert run[i].now <= run[j].now;
      assert Known(StoreAfter(cfg, c, run[..j]), NonceKey(b), run[j].now);
    }
  }

  /** ... in particular with the settings as deployed. */
  lemma DeployedSettingsPreventReplays(seconds: nat, secret: string -> string, c: Crypto,
                                       run: seq<Arrival>, i: nat, j: nat)
    requires Trustworthy(c) && InOrder(run) && i < j < |run|
    requires Accepts(Deployed(seconds, secret), c, run, i) && Accepts(Deployed(seconds, secret), c, run, j)
    requires SingleLines(run[i].r) && SingleLines(run[j].r)
    ensures (run[i].r.service, run[i].r.signature) != (run[j].r.service, run[j].r.signature)
  {
    NoReplays(Deployed(seconds, secret), c, run, i, j);
  }

  /** The lifetime is as short as it can be: a correctly signed request is safe from being
      accepted twice exactly when nonces live for at least twice the tolerance. */
  lemma LifetimeIsTight(cfg: Config, c: Crypto, r: Request)
    requires Trustworthy(c) && SingleLines(r)
    requires r.timestamp != "" && r.signature != "" && c.parse(r.timestamp).Some?
    requires c.hmac(cfg.secret(r.service), PayloadOf(c, r)) == r.signature
    ensures cfg.nonceTtl >= 2 * cfg.tolerance <==>
      forall t, u :: t <= u ==>
        !(Accepts(cfg, c, [Arrival(r, t), Arrival(r, u)], 0) && Accepts(cfg, c, [Arrival(r, t), Arrival(r, u)], 1))
  {
    if cfg.nonceTtl >= 2 * cfg.tolerance {
      forall t, u | t <= u
        ensures !(Accepts(cfg, c, [Arrival(r, t), Arrival(r, u)], 0)
                  && Accepts(cfg, c, [Arrival(r, t), Arrival(r, u)], 1))
      {
        var run := [Arrival(r, t), Arrival(r, u)];
        if Accepts(cfg, c, run, 0) && Accepts(cfg, c, run, 1) { NoReplays(cfg, c, run, 0, 1); }
      }
    } else {
      var stamp := c.parse(r.timestamp).value * 1000;
      var t, u := stamp - cfg.tolerance, stamp + cfg.tolerance;
      var run := [Arrival(r, t), Arrival(r, u)];
      assert run[..0] == [] && run[..1] == [Arrival(r, t)] && Init([Arrival(r, t)]) == [];
      assert Verify(cfg, c, map[], r, t).1;
      assert Accepts(cfg, c, run, 0) && Accepts(cfg, c, run, 1);
    }
  }
}
