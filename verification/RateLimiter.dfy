/**
  The widget's sliding-window rate limiter (widget/rate_limiter.py).

  Times are microseconds.  The member stored for a request is its printed stamp, so a
  sorted set is a set of stamps: two requests with one stamp are one entry.
 */
module RateLimiter {
  import opened Basics

  const WINDOW := 60_000_000
  const KEY_TTL := 61_000_000
  const ORG_LIMIT := 200
  const IP_LIMIT := 30

  /** A Redis sorted set with the expiry of its key. */
  datatype Zset = Zset(stamps: set<int>, expiresAt: int)

  const ABSENT := Zset({}, 0)

  function Within(stamps: set<int>, now: int): set<int> {
    set x | x in stamps && x > now - WINDOW
  }

  /** What the trimming pipeline leaves: nothing if the key has expired. */
  function Trimmed(z: Zset, now: int): set<int> {
    if Alive(z.expiresAt, now) then Within(z.stamps, now) else {}
  }

  /** Check and record on one key. */
  function Hit(z: Zset, now: int, limit: nat): (Zset, bool) {
    var current := Trimmed(z, now);
    if |current| >= limit then (z.(stamps := current), false)
    else (Zset(current + {now}, now + KEY_TTL), true)
  }

  // ---------------------------------------------------------------- keys

  function Sanitise(ip: string): string {
    if ip == "" then "" else [if ip[0] == ':' then '_' else ip[0]] + Sanitise(ip[1..])
  }

  function OrgKey(org: string): string { "widget:rl:org:" + org }

  function IpKey(org: string, ip: string): string { "widget:rl:ip:" + org + ":" + Sanitise(ip) }

  lemma {:induction false} SanitisedHasNoColon(ip: string)
    ensures ':' !in Sanitise(ip)
  {
    if ip != "" { SanitisedHasNoColon(ip[1..]); }
  }

  /** Different organisations, different (organisation, sanitised address) pairs and the
      two kinds of limit never share a key, whatever the organisation's id contains. */
  lemma {:induction false} KeysAreDistinct(org: string, ip: string, org': string, ip': string)
    ensures IpKey(org, ip) == IpKey(org', ip') <==> org == org' && Sanitise(ip) == Sanitise(ip')
    ensures OrgKey(org) == OrgKey(org') <==> org == org'
    ensures OrgKey(org) != IpKey(org', ip')
  {
    var prefix := "widget:rl:ip:";
    if IpKey(org, ip) == IpKey(org', ip') {
      SanitisedHasNoColon(ip);
      SanitisedHasNoColon(ip');
      assert IpKey(org, ip)[|prefix|..] == org + ":" + Sanitise(ip);
      assert IpKey(org', ip')[|prefix|..] == org' + ":" + Sanitise(ip');
      LastSeparator(org, Sanitise(ip), org', Sanitise(ip'), ':');
    }
    if OrgKey(org) == OrgKey(org') {
      assert OrgKey(org)[|"widget:rl:org:"|..] == org && OrgKey(org')[|"widget:rl:org:"|..] == org';
    }
    assert OrgKey(org)[10] == 'o' && IpKey(org', ip')[10] == 'i';
  }

  // ---------------------------------------------------------------- the limiter

  datatype Request = Request(org: string, ip: string, now: int)

  type Store = map<string, Zset>

  function Slot(store: Store, key: string): Zset {
    if key in store then store[key] else ABSENT
  }

  function Check(store: Store, key: string, now: int, limit: nat): (Store, bool) {
    var (z, ok) := Hit(Slot(store, key), now, limit);
    (store[key := z], ok)
  }

  /** The store after a request, whether the organisation check passed, and the address check. */
  datatype Outcome = Outcome(store: Store, orgOk: bool, ipOk: bool)

  function Allow(store: Store, r: Request): Outcome {
    var (store1, orgOk) := Check(store, OrgKey(r.org), r.now, ORG_LIMIT);
    if !orgOk then Outcome(store1, false, false)
    else
      var (store2, ipOk) := Check(store1, IpKey(r.org, r.ip), r.now, IP_LIMIT);
      Outcome(store2, true, ipOk)
  }

  class WidgetRateLimiter {
    var keys: Store

    constructor ()
      ensures keys == map[]
    {
      keys := map[];
    }

    /** _check_and_record: trim, count, then add and renew the expiry. */
    method CheckAndRecord(key: string, now: int, limit: nat) returns (ok: bool)
      modifies this
      ensures (keys, ok) == Check(old(keys), key, now, limit)
    {
      var z := Slot(keys, key);
      var current := if Alive(z.expiresAt, now) then (set x | x in z.stamps && x > now - WINDOW) else {};
      keys := keys[key := z.(stamps := current)];
      if |current| >= limit { return false; }
      keys := keys[key := Zset(current + {now}, now + KEY_TTL)];
      assert keys == old(keys)[key := Zset(current + {now}, now + KEY_TTL)];
      return true;
    }

    /** is_allowed while Redis answers. */
    method IsAllowed(r: Request) returns (ok: bool)
      modifies this
      ensures var o := Allow(old(keys), r); keys == o.store && ok == (o.orgOk && o.ipOk)
    {
      ok := CheckAndRecord(OrgKey(r.org), r.now, ORG_LIMIT);
      if ok { ok := CheckAndRecord(IpKey(r.org, r.ip), r.now, IP_LIMIT); }
    }
  }

  // ---------------------------------------------------------------- serial runs

  function StoreAfter(requests: seq<Request>): Store {
    if requests == [] then map[] else Allow(StoreAfter(Init(requests)), Last(requests)).store
  }

  /** The latest request's outcome. */
  function LatestOutcome(requests: seq<Request>): Outcome
    requires requests != []
  {
    Allow(StoreAfter(Init(requests)), Last(requests))
  }

  predicate Accepted(requests: seq<Request>)
    requires requests != []
  {
    LatestOutcome(requests).orgOk && LatestOutcome(requests).ipOk
  }

  predicate InWindow(x: int, t: int) {
    t - WINDOW < x <= t
  }

  /** Number of accepted requests in the window ending at t, for an organisation and, if
      given, one of its sanitised addresses. */
  function CountAccepted(requests: seq<Request>, org: string, address: Option<string>, t: int): nat {
    if requests == [] then 0
    else
      CountAccepted(Init(requests), org, address, t) +
      (if LatestCounts(requests, org, address, t) then 1 else 0)
  }

  /** One request after the other; stamps may repeat. */
  predicate Serial(requests: seq<Request>) {
    forall i, j :: 0 <= i < j < |requests| ==> requests[i].now <= requests[j].now
  }

  function LastTime(requests: seq<Request>): int {
    if requests == [] then 0 else Last(requests).now
  }

  /** All stamps ever added to a key. */
  function Added(requests: seq<Request>, key: string): set<int> {
    if requests == [] then {}
    else
      var o, r := LatestOutcome(requests), Last(requests);
      Added(Init(requests), key) +
      (if AddsTo(o, r, key) then {r.now} else {})
  }

  function WindowOf(stamps: set<int>, t: int): set<int> {
    set x | x in stamps && InWindow(x, t)
  }

  /** One key's sorted set against everything ever added to it. */
  ghost predicate KeySound(z: Zset, added: set<int>, last: int, limit: nat) {
    && z.stamps <= added
    && (forall x :: x in added ==> x <= last)
    && (forall x :: x in added && x > last - WINDOW ==> x in z.stamps && z.expiresAt >= x + KEY_TTL)
    && (forall t :: |WindowOf(added, t)| <= limit)
  }

  /** A sound key counts exactly the stamps of the last sixty seconds. */
  lemma TrimmedIsTheWindow(z: Zset, added: set<int>, last: int, now: int, limit: nat)
    requires KeySound(z, added, last, limit) && last <= now
    ensures Trimmed(z, now) == set x | x in added && now - 60_000_000 < x <= now
  {
    forall x | x in added && now - 60_000_000 < x <= now ensures x in Trimmed(z, now) {
      assert x in z.stamps && z.expiresAt >= x + KEY_TTL;
    }
  }

  /** One more stamp, if the window that ends with it has room. */
  lemma OneMoreStamp(added: set<int>, last: int, now: int, limit: nat, t: int)
    requires (forall x :: x in added ==> x <= last) && last <= now && |WindowOf(added, t)| <= limit
    requires |set x | x in added && now - 60_000_000 < x <= now| < limit
    ensures |WindowOf(added + {now}, t)| <= limit
  {
    var current := set x | x in added && now - 60_000_000 < x <= now;
    if InWindow(now, t) {
      SubsetIsSmaller(WindowOf(added + {now}, t), current + {now});
    } else {
      assert WindowOf(added + {now}, t) == WindowOf(added, t);
    }
  }

  /** A hit keeps every window within the limit and loses no entry that still counts. */
  lemma HitKeepsKeySound(z: Zset, added: set<int>, last: int, now: int, limit: nat)
    requires KeySound(z, added, last, limit) && last <= now
    ensures var (z', ok) := Hit(z, now, limit);
      KeySound(z', if ok then added + {now} else added, now, limit)
  {
    var current := Trimmed(z, now);
    TrimmedIsTheWindow(z, added, last, now, limit);
    if |current| < limit {
      forall t ensures |WindowOf(added + {now}, t)| <= limit {
        OneMoreStamp(added, last, now, limit, t);
      }
    }
  }

  lemma TimeKeepsKeySound(z: Zset, added: set<int>, last: int, now: int, limit: nat)
    requires KeySound(z, added, last, limit) && last <= now
    ensures KeySound(z, added, now, limit)
  {
  }

  function LimitOf(key: string): nat {
    if |key| > 10 && key[10] == 'o' then ORG_LIMIT else IP_LIMIT
  }

  lemma FreshKeyIsSound(last: int, limit: nat)
    ensures KeySound(ABSENT, {}, last, limit)
  {
    assert forall t :: WindowOf({}, t) == {};
  }

  lemma {:induction false} EveryKeyStaysSound(requests: seq<Request>, key: string)
    requires Serial(requests)
    ensures KeySound(Slot(StoreAfter(requests), key), Added(requests, key), LastTime(requests), LimitOf(key))
  {
    if requests == [] {
      FreshKeyIsSound(0, LimitOf(key));
    } else {
      var before, r := Init(requests), Last(requests);
      assert before + [r] == requests;
      if before == [] {
        FreshKeyIsSound(r.now - 1, LimitOf(key));
        RequestKeepsKeySound(before, r, key, r.now - 1);
      } else {
        EveryKeyStaysSound(before, key);
        assert requests[|requests| - 2].now <= requests[|requests| - 1].now;
        RequestKeepsKeySound(before, r, key, LastTime(before));
      }
    }
  }

  /** What one request does to one key. */
  lemma AllowOnKey(store: Store, r: Request, key: string)
    ensures var o := Allow(store, r);
      var (z, ok) := Hit(Slot(store, key), r.now, if key == OrgKey(r.org) then ORG_LIMIT else IP_LIMIT);
      && (key == OrgKey(r.org) ==> Slot(o.store, key) == z && o.orgOk == ok)
      && (key == IpKey(r.org, r.ip) && o.orgOk ==> Slot(o.store, key) == z && o.ipOk == ok)
      && (key == IpKey(r.org, r.ip) && !o.orgOk ==> Slot(o.store, key) == Slot(store, key) && !o.ipOk)
      && (key != OrgKey(r.org) && key != IpKey(r.org, r.ip) ==> Slot(o.store, key) == Slot(store, key))
  {
    assert OrgKey(r.org) != IpKey(r.org, r.ip) by { KeysAreDistinct(r.org, r.ip, r.org, r.ip); }
  }

  lemma LimitsOfKeys(org: string, ip: string)
    ensures LimitOf(OrgKey(org)) == ORG_LIMIT && LimitOf(IpKey(org, ip)) == IP_LIMIT
    ensures OrgKey(org) != IpKey(org, ip)
  {
    assert OrgKey(org)[10] == 'o' && IpKey(org, ip)[10] == 'i';
  }

  predicate AddsTo(o: Outcome, r: Request, key: string) {
    (o.orgOk && key == OrgKey(r.org)) || (o.ipOk && key == IpKey(r.org, r.ip))
  }

  lemma {:induction false} AddedStep(before: seq<Request>, r: Request, key: string)
    ensures StoreAfter(before + [r]) == Allow(StoreAfter(before), r).store
    ensures Added(before + [r], key) ==
      Added(before, key) + (if AddsTo(Allow(StoreAfter(before), r), r, key) then {r.now} else {})
  {
    assert Init(before + [r]) == before && Last(before + [r]) == r;
  }

  lemma {:induction false} RequestKeepsKeySound(before: seq<Request>, r: Request, key: string, last: int)
    requires KeySound(Slot(StoreAfter(before), key), Added(before, key), last, LimitOf(key))
    requires last <= r.now
    ensures KeySound(Slot(StoreAfter(before + [r]), key), Added(before + [r], key), r.now, LimitOf(key))
  {
    var store, added := StoreAfter(before), Added(before, key);
    var o := Allow(store, r);
    AddedStep(before, r, key);
    AllowOnKey(store, r, key);
    LimitsOfKeys(r.org, r.ip);
    if key == OrgKey(r.org) || (key == IpKey(r.org, r.ip) && o.orgOk) {
      HitKeepsKeySound(Slot(store, key), added, last, r.now, LimitOf(key));
      var (z, ok) := Hit(Slot(store, key), r.now, LimitOf(key));
      assert Slot(o.store, key) == z && AddsTo(o, r, key) == ok;
    } else {
      assert Slot(o.store, key) == Slot(store, key) && !AddsTo(o, r, key);
      TimeKeepsKeySound(Slot(store, key), added, last, r.now, LimitOf(key));
      assert added + {} == added;
    }
  }

  /** The key that counts an organisation, or one of its sanitised addresses. */
  function KeyFor(org: string, address: Option<string>): string {
    match address
    case None => OrgKey(org)
    case Some(a) => "widget:rl:ip:" + org + ":" + a
  }

  predicate Concerns(r: Request, org: string, address: Option<string>) {
    r.org == org && (address.Some? ==> Sanitise(r.ip) == address.value)
  }

  /** The latest request was accepted and counts for this window. */
  predicate LatestCounts(requests: seq<Request>, org: string, address: Option<string>, t: int)
    requires requests != []
  {
    Accepted(requests) && Concerns(Last(requests), org, address) && InWindow(Last(requests).now, t)
  }

  /** The stamps of the accepted requests in a window. */
  function CountedStamps(requests: seq<Request>, org: string, address: Option<string>, t: int): set<int> {
    if requests == [] then {}
    else
      CountedStamps(Init(requests), org, address, t) +
      (if LatestCounts(requests, org, address, t) then {Last(requests).now} else {})
  }

  lemma {:induction false} CountedAreAdded(requests: seq<Request>, org: string, address: Option<string>, t: int)
    ensures CountedStamps(requests, org, address, t) <= WindowOf(Added(requests, KeyFor(org, address)), t)
  {
    if requests != [] {
      CountedAreAdded(Init(requests), org, address, t);
      if LatestCounts(requests, org, address, t) {
        assert AddsTo(LatestOutcome(requests), Last(requests), KeyFor(org, address));
      }
    }
  }

  lemma {:induction false} StampsStayWithinLimit(requests: seq<Request>, org: string, address: Option<string>, t: int,
                                                 limit: nat)
    requires Serial(requests) && LimitOf(KeyFor(org, address)) == limit
    ensures |CountedStamps(requests, org, address, t)| <= limit
  {
    EveryKeyStaysSound(requests, KeyFor(org, address));
    CountedAreAdded(requests, org, address, t);
    SubsetIsSmaller(CountedStamps(requests, org, address, t), WindowOf(Added(requests, KeyFor(org, address)), t));
  }

  /** In every serial run, every window of sixty seconds holds at most 200 stamps of accepted
      requests per organisation and 30 per organisation and address. */
  lemma {:induction false} WindowsHoldFewStamps(requests: seq<Request>, org: string, ip: string, t: int)
    requires Serial(requests)
    ensures |CountedStamps(requests, org, None, t)| <= ORG_LIMIT
    ensures |CountedStamps(requests, org, Some(Sanitise(ip)), t)| <= IP_LIMIT
  {
    LimitsOfKeys(org, ip);
    StampsStayWithinLimit(requests, org, None, t, ORG_LIMIT);
    StampsStayWithinLimit(requests, org, Some(Sanitise(ip)), t, IP_LIMIT);
  }

  /** Two accepted requests of the window carry one stamp. */
  predicate StampRepeats(requests: seq<Request>, org: string, address: Option<string>, t: int) {
    && requests != []
    && (StampRepeats(Init(requests), org, address, t) ||
         (LatestCounts(requests, org, address, t)
          && Last(requests).now in CountedStamps(Init(requests), org, address, t)))
  }

  /** Requests and stamps are equally many exactly when no stamp repeats. */
  lemma {:induction false} CountIsStamps(requests: seq<Request>, org: string, address: Option<string>, t: int)
    ensures CountAccepted(requests, org, address, t) >= |CountedStamps(requests, org, address, t)|
    ensures CountAccepted(requests, org, address, t) == |CountedStamps(requests, org, address, t)|
        <==> !StampRepeats(requests, org, address, t)
  {
    if requests != [] {
      CountIsStamps(Init(requests), org, address, t);
      var earlier, now := CountedStamps(Init(requests), org, address, t), Last(requests).now;
      assert now in earlier ==> earlier + {now} == earlier;
    }
  }

  /** Repeated stamps are the only way past a limit: a window with more accepted requests than
      its limit contains two with the same stamp. */
  lemma {:induction false} OnlyEqualStampsExceed(requests: seq<Request>, org: string, ip: string, t: int)
    requires Serial(requests)
    ensures CountAccepted(requests, org, None, t) > ORG_LIMIT ==> StampRepeats(requests, org, None, t)
    ensures CountAccepted(requests, org, Some(Sanitise(ip)), t) > IP_LIMIT
        ==> StampRepeats(requests, org, Some(Sanitise(ip)), t)
  {
    WindowsHoldFewStamps(requests, org, ip, t);
    CountIsStamps(requests, org, None, t);
    CountIsStamps(requests, org, Some(Sanitise(ip)), t);
  }

  predicate DistinctStamps(requests: seq<Request>) {
    forall i, j :: 0 <= i < j < |requests| ==> requests[i].now != requests[j].now
  }

  lemma {:induction false} DistinctStampsDoNotRepeat(requests: seq<Request>, org: string, address: Option<string>,
                                                     t: int)
    requires DistinctStamps(requests)
    ensures !StampRepeats(requests, org, address, t)
    ensures forall x :: x in CountedStamps(requests, org, address, t) ==>
      exists i :: 0 <= i < |requests| && requests[i].now == x
  {
    if requests != [] {
      var before := Init(requests);
      DistinctStampsDoNotRepeat(before, org, address, t);
      forall x | x in CountedStamps(before, org, address, t)
        ensures x != Last(requests).now && exists i :: 0 <= i < |requests| && requests[i].now == x
      {
        var i :| 0 <= i < |before| && before[i].now == x;
        assert requests[i].now != requests[|requests| - 1].now;
      }
      assert requests[|requests| - 1] == Last(requests);
    }
  }

  /** In every serial run with distinct stamps, every window of sixty seconds holds at most
      200 accepted requests per organisation and 30 per organisation and address. */
  lemma {:induction false} WindowsStayWithinLimits(requests: seq<Request>, org: string, ip: string, t: int)
    requires Serial(requests) && DistinctStamps(requests)
    ensures CountAccepted(requests, org, None, t) <= ORG_LIMIT
    ensures CountAccepted(requests, org, Some(Sanitise(ip)), t) <= IP_LIMIT
  {
    OnlyEqualStampsExceed(requests, org, ip, t);
    DistinctStampsDoNotRepeat(requests, org, None, t);
    DistinctStampsDoNotRepeat(requests, org, Some(Sanitise(ip)), t);
  }

  // ---------------------------------------------------------------- exactly when a request passes

  /** How many stamps added to a key lie in the last sixty seconds. */
  function Recent(requests: seq<Request>, key: string, now: int): nat {
    |set x | x in Added(requests, key) && now - 60_000_000 < x <= now|
  }

  lemma {:induction false} SlotIsSound(requests: seq<Request>, key: string, now: int)
    requires Serial(requests) && (requests != [] ==> LastTime(requests) <= now)
    ensures KeySound(Slot(StoreAfter(requests), key), Added(requests, key), now, LimitOf(key))
  {
    if requests == [] {
      FreshKeyIsSound(now, LimitOf(key));
    } else {
      EveryKeyStaysSound(requests, key);
      TimeKeepsKeySound(Slot(StoreAfter(requests), key), Added(requests, key), LastTime(requests), now, LimitOf(key));
    }
  }

  /** After every serial run the next request passes the organisation's check exactly when fewer
      than 200 stamps of the last sixty seconds were added to its key, and then the address
      check exactly when fewer than 30 were. */
  lemma {:induction false} PassesExactlyWhen(requests: seq<Request>, r: Request)
    requires Serial(requests + [r])
    ensures var o := Allow(StoreAfter(requests), r);
      && (o.orgOk <==> Recent(requests, OrgKey(r.org), r.now) < 200)
      && (o.ipOk <==> o.orgOk && Recent(requests, IpKey(r.org, r.ip), r.now) < 30)
  {
    var all := requests + [r];
    assert requests != [] ==> all[|requests| - 1].now <= all[|requests|].now;
    forall i, j | 0 <= i < j < |requests| ensures requests[i].now <= requests[j].now {
      assert all[i].now <= all[j].now;
    }
    LimitsOfKeys(r.org, r.ip);
    OneKeyPasses(requests, r, OrgKey(r.org));
    OneKeyPasses(requests, r, IpKey(r.org, r.ip));
    AllowOnKey(StoreAfter(requests), r, OrgKey(r.org));
    AllowOnKey(StoreAfter(requests), r, IpKey(r.org, r.ip));
  }

  /** A key dies sixty-one seconds after its latest accepted request, and no earlier. */
  lemma KeyLifetime(z: Zset, now: int, limit: nat, later: int)
    ensures Hit(z, now, limit).1 ==> (Alive(Hit(z, now, limit).0.expiresAt, later) <==> later <= now + 61_000_000)
    ensures !Hit(z, now, limit).1 ==> Hit(z, now, limit).0.expiresAt == z.expiresAt
  {
  }

  lemma {:induction false} OneKeyPasses(requests: seq<Request>, r: Request, key: string)
    requires Serial(requests) && (requests != [] ==> LastTime(requests) <= r.now)
    ensures Hit(Slot(StoreAfter(requests), key), r.now, LimitOf(key)).1
        <==> Recent(requests, key, r.now) < LimitOf(key)
  {
    SlotIsSound(requests, key, r.now);
    TrimmedIsTheWindow(Slot(StoreAfter(requests), key), Added(requests, key), r.now, r.now, LimitOf(key));
  }

  /** Repeating an accepted stamp on a key with room left is accepted every time and leaves
      the key as it is. */
  lemma EqualStampsCollapse(z: Zset, now: int, limit: nat)
    requires Hit(z, now, limit).1 && |Hit(z, now, limit).0.stamps| < limit
    ensures Hit(Hit(z, now, limit).0, now, limit) == Hit(z, now, limit)
  {
    var once := Hit(z, now, limit).0;
    assert Trimmed(once, now) == once.stamps;
    assert once.stamps + {now} == once.stamps;
  }

  /** Both keys of this request hold its stamp or nothing. */
  predicate OneEntry(store: Store, r: Request) {
    Slot(store, OrgKey(r.org)).stamps <= {r.now} && Slot(store, IpKey(r.org, r.ip)).stamps <= {r.now}
  }

  lemma OneStampPasses(z: Zset, now: int, limit: nat)
    requires z.stamps <= {now} && limit > 1
    ensures Hit(z, now, limit).1 && Hit(z, now, limit).0.stamps <= {now}
  {
    SubsetIsSmaller(Trimmed(z, now), {now});
  }

  lemma CopyIsAccepted(store: Store, r: Request)
    requires OneEntry(store, r)
    ensures var o := Allow(store, r); o.orgOk && o.ipOk && OneEntry(o.store, r)
  {
    LimitsOfKeys(r.org, r.ip);
    AllowOnKey(store, r, OrgKey(r.org));
    AllowOnKey(store, r, IpKey(r.org, r.ip));
    OneStampPasses(Slot(store, OrgKey(r.org)), r.now, ORG_LIMIT);
    OneStampPasses(Slot(store, IpKey(r.org, r.ip)), r.now, IP_LIMIT);
  }

  lemma {:induction false} CopiesStayOneEntry(requests: seq<Request>, r: Request)
    requires forall i :: 0 <= i < |requests| ==> requests[i] == r
    ensures OneEntry(StoreAfter(requests), r)
  {
    if requests != [] {
      CopiesStayOneEntry(Init(requests), r);
      assert Last(requests) == r;
      CopyIsAccepted(StoreAfter(Init(requests)), r);
    }
  }

  /** So no limit holds for requests of one stamp: however many come, all are accepted. */
  lemma {:induction false} EqualStampsAreUnlimited(requests: seq<Request>, r: Request, address: Option<string>)
    requires (forall i :: 0 <= i < |requests| ==> requests[i] == r) && Concerns(r, r.org, address)
    ensures CountAccepted(requests, r.org, address, r.now) == |requests|
  {
    if requests != [] {
      EqualStampsAreUnlimited(Init(requests), r, address);
      assert Last(requests) == r;
      CopiesStayOneEntry(Init(requests), r);
      CopyIsAccepted(StoreAfter(Init(requests)), r);
    }
  }

  // ---------------------------------------------------------------- overlapping requests

  /** One key while requests overlap: `pending` have been counted and not yet added; stamps
      may repeat among them. */
  datatype Busy = Busy(z: Zset, pending: multiset<int>, clock: int)

  datatype BusyEvent = Count(stamp: int) | Add(stamp: int) | Pass(clock: int)

  predicate CanOccur(b: Busy, e: BusyEvent) {
    match e
    case Count(stamp) => stamp <= b.clock
    case Add(stamp) => stamp in b.pending
    case Pass(clock) => clock >= b.clock
  }

  function Occur(b: Busy, e: BusyEvent, limit: nat): Busy {
    match e
    case Count(stamp) =>
      var live := if Alive(b.z.expiresAt, b.clock) then Within(b.z.stamps, stamp) else {};
      Busy(b.z.(stamps := live), if |live| >= limit then b.pending else b.pending + multiset{stamp}, b.clock)
    case Add(stamp) =>
      var live := if Alive(b.z.expiresAt, b.clock) then b.z.stamps else {};
      Busy(Zset(live + {stamp}, b.clock + KEY_TTL), b.pending - multiset{stamp}, b.clock)
    case Pass(clock) => b.(clock := clock)
  }

  function Live(b: Busy): set<int> {
    if Alive(b.z.expiresAt, b.clock) then Within(b.z.stamps, b.clock) else {}
  }

  /** From an empty key, each event possible, and never more than k requests pending. */
  predicate BusyRun(events: seq<BusyEvent>, limit: nat, k: nat)
    decreases |events|, 0
  {
    |BusyAfter(events, limit).pending| <= k &&
    (events == [] || (BusyRun(Init(events), limit, k)
                      && CanOccur(BusyAfter(Init(events), limit), Last(events))))
  }

  const IDLE := Busy(ABSENT, multiset{}, 0)

  function BusyAfter(events: seq<BusyEvent>, limit: nat): Busy {
    if events == [] then IDLE else Occur(BusyAfter(Init(events), limit), Last(events), limit)
  }

  lemma OccurKeepsBound(b: Busy, e: BusyEvent, limit: nat, k: nat)
    requires k >= 1 && CanOccur(b, e) && |Occur(b, e, limit).pending| <= k
    requires |Live(b)| + |b.pending| <= limit + k - 1
    ensures |Live(Occur(b, e, limit))| + |Occur(b, e, limit).pending| <= limit + k - 1
  {
    var b' := Occur(b, e, limit);
    match e
    case Count(stamp) =>
      SubsetIsSmaller(Live(b'), b'.z.stamps);
      SubsetIsSmaller(Live(b'), Live(b));
    case Add(stamp) =>
      SubsetIsSmaller(Live(b'), Live(b) + {stamp});
    case Pass(_) =>
      SubsetIsSmaller(Live(b'), Live(b));
  }

  /** With at most k requests between count and add, a key overshoots by k - 1 at most. */
  lemma {:induction false} OvershootIsBounded(events: seq<BusyEvent>, limit: nat, k: nat)
    requires limit >= 1 && k >= 1 && BusyRun(events, limit, k)
    ensures |Live(BusyAfter(events, limit))| + |BusyAfter(events, limit).pending| <= limit + k - 1
  {
    if events == [] {
      assert Live(BusyAfter(events, limit)) == {};
    } else {
      OvershootIsBounded(Init(events), limit, k);
      OccurKeepsBound(BusyAfter(Init(events), limit), Last(events), limit, k);
    }
  }

  /** A count followed at once by its add is the check and record of a serial request. */
  lemma CountThenAddIsHit(z: Zset, pending: multiset<int>, now: int, limit: nat)
    ensures var (z', ok) := Hit(z, now, limit);
      var counted := Occur(Busy(z, pending, now), Count(now), limit);
      && (ok <==> counted.pending == pending + multiset{now})
      && (ok ==> Occur(counted, Add(now), limit) == Busy(z', pending, now))
      && (!ok ==> counted == Busy(z', pending, now))
  {
    var counted := Occur(Busy(z, pending, now), Count(now), limit);
    assert (pending + multiset{now})[now] == pending[now] + 1;
    assert pending + multiset{now} - multiset{now} == pending;
    if Alive(z.expiresAt, now) { assert counted.z.stamps == Trimmed(z, now); }
  }

  // The bound is reached.

  /** Some run with at most k requests pending comes by here. */
  ghost predicate Reachable(limit: nat, k: nat, b: Busy) {
    exists events :: BusyRun(events, limit, k) && BusyAfter(events, limit) == b
  }

  /** A set of states that no event within the bound leaves. */
  ghost predicate Closed(limit: nat, k: nat, reached: Busy -> bool) {
    forall b, e :: reached(b) && CanOccur(b, e) && |Occur(b, e, limit).pending| <= k ==> reached(Occur(b, e, limit))
  }

  lemma ReachableIsClosed(limit: nat, k: nat)
    ensures Reachable(limit, k, IDLE) && Closed(limit, k, b => Reachable(limit, k, b))
  {
    assert BusyRun([], limit, k) && BusyAfter([], limit) == IDLE;
    forall b, e | Reachable(limit, k, b) && CanOccur(b, e) && |Occur(b, e, limit).pending| <= k
      ensures Reachable(limit, k, Occur(b, e, limit))
    {
      var events :| BusyRun(events, limit, k) && BusyAfter(events, limit) == b;
      assert Init(events + [e]) == events && Last(events + [e]) == e;
      assert BusyRun(events + [e], limit, k);
    }
  }

  /** The key holds the stamps from 1 to n, all of them live. */
  ghost predicate Filled(b: Busy, n: nat, clock: int) {
    && b.clock == clock && n <= clock < WINDOW && (n > 0 ==> Alive(b.z.expiresAt, clock))
    && |b.z.stamps| == n && forall x :: x in b.z.stamps <==> 1 <= x <= n
  }

  /** Waiting are the stamps from n + 1 to n + m. */
  ghost predicate Waiting(b: Busy, n: nat, m: nat) {
    |b.pending| == m && forall x :: b.pending[x] == if n < x <= n + m then 1 else 0
  }

  lemma Starts(limit: nat, k: nat, reached: Busy -> bool, clock: nat) returns (b: Busy)
    requires Closed(limit, k, reached) && reached(IDLE) && clock < WINDOW
    ensures reached(b) && Filled(b, 0, clock) && Waiting(b, 0, 0)
  {
    b := Occur(IDLE, Pass(clock), limit);
  }

  lemma CountOne(limit: nat, k: nat, reached: Busy -> bool, b: Busy, n: nat, start: nat, m: nat) returns (b': Busy)
    requires Closed(limit, k, reached) && reached(b) && Filled(b, n, b.clock) && Waiting(b, start, m)
    requires n < limit && m < k && start + m < b.clock
    ensures reached(b') && b'.clock == b.clock && Filled(b', n, b.clock) && Waiting(b', start, m + 1)
  {
    var stamp := start + m + 1;
    var live := if Alive(b.z.expiresAt, b.clock) then Within(b.z.stamps, stamp) else {};
    assert live == b.z.stamps;
    b' := Occur(b, Count(stamp), limit);
  }

  lemma AddOne(limit: nat, k: nat, reached: Busy -> bool, b: Busy, n: nat, m: nat) returns (b': Busy)
    requires Closed(limit, k, reached) && reached(b) && Filled(b, n, b.clock) && Waiting(b, n, m)
    requires 0 < m <= k && n < b.clock
    ensures reached(b') && b'.clock == b.clock && Filled(b', n + 1, b.clock) && Waiting(b', n + 1, m - 1)
  {
    assert n > 0 || b.z.stamps == {};
    b' := Occur(b, Add(n + 1), limit);
    assert b'.z.stamps == b.z.stamps + {n + 1};
  }

  /** One request after the other fills the key up to its limit, but for one. */
  lemma {:induction false} FillSerially(limit: nat, k: nat, reached: Busy -> bool, clock: nat, n: nat)
    returns (b: Busy)
    requires Closed(limit, k, reached) && reached(IDLE) && k >= 1 && n < limit && n <= clock < WINDOW
    ensures reached(b) && Filled(b, n, clock) && Waiting(b, n, 0)
  {
    if n == 0 {
      b := Starts(limit, k, reached, clock);
    } else {
      b := FillSerially(limit, k, reached, clock, n - 1);
      b := CountOne(limit, k, reached, b, n - 1, n - 1, 0);
      b := AddOne(limit, k, reached, b, n - 1, 1);
    }
  }

  lemma {:induction false} CountTogether(limit: nat, k: nat, reached: Busy -> bool, b: Busy, n: nat, m: nat)
    returns (b': Busy)
    requires Closed(limit, k, reached) && reached(b) && Filled(b, n, b.clock) && Waiting(b, n, 0)
    requires n < limit && m <= k && n + m <= b.clock
    ensures reached(b') && b'.clock == b.clock && Filled(b', n, b.clock) && Waiting(b', n, m)
  {
    b' := b;
    if m > 0 {
      b' := CountTogether(limit, k, reached, b, n, m - 1);
      b' := CountOne(limit, k, reached, b', n, n, m - 1);
    }
  }

  lemma {:induction false} AddTogether(limit: nat, k: nat, reached: Busy -> bool, b: Busy, n: nat, m: nat)
    returns (b': Busy)
    requires Closed(limit, k, reached) && reached(b) && Filled(b, n, b.clock) && Waiting(b, n, m)
    requires m <= k && n + m <= b.clock
    ensures reached(b') && b'.clock == b.clock && Filled(b', n + m, b.clock) && Waiting(b', n + m, 0)
    decreases m
  {
    b' := b;
    if m > 0 {
      b' := AddOne(limit, k, reached, b, n, m);
      b' := AddTogether(limit, k, reached, b', n + 1, m - 1);
    }
  }

  lemma FillTogether(limit: nat, k: nat, reached: Busy -> bool) returns (b: Busy)
    requires Closed(limit, k, reached) && reached(IDLE) && limit >= 1 && k >= 1 && limit + k < WINDOW
    ensures reached(b) && b.pending == multiset{} && |Live(b)| == limit + k - 1
  {
    b := FillSerially(limit, k, reached, limit + k, limit - 1);
    b := CountTogether(limit, k, reached, b, limit - 1, k);
    b := AddTogether(limit, k, reached, b, limit - 1, k);
    assert Live(b) == b.z.stamps;
  }

  /** For every limit and every k the bound is reached, with every request added: the k that
      count while one place is left all get through. */
  lemma OvershootHappens(limit: nat, k: nat)
    requires limit >= 1 && k >= 1 && limit + k < WINDOW
    ensures exists b :: Reachable(limit, k, b) && b.pending == multiset{} && |Live(b)| == limit + k - 1
  {
    ReachableIsClosed(limit, k);
    var b := FillTogether(limit, k, b => Reachable(limit, k, b));
  }

  /** So under overlap a key keeps its limit exactly when requests never overlap. */
  lemma {:induction false} LimitIsKeptIff(limit: nat, k: nat)
    requires limit >= 1 && k >= 1 && limit + k < WINDOW
    ensures (forall b :: Reachable(limit, k, b) ==> |Live(b)| <= limit) <==> k == 1
  {
    OvershootHappens(limit, k);
    forall b | k == 1 && Reachable(limit, k, b) ensures |Live(b)| <= limit {
      var events :| BusyRun(events, limit, k) && BusyAfter(events, limit) == b;
      OvershootIsBounded(events, limit, k);
    }
  }
}
