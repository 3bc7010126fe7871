/**
  Re-embedding through the cache (services/migration_service.py, embeddings/embedder.py):
  which points of a migration get the new model's vector.
 */
module MigrationCache {
  import opened Basics
  import opened Migration
  import E = Embedder

  type Cache = map<string, E.Cached>

  /** The cache in front of the new model, and the clock of each group's call. */
  datatype Setting = Setting(
    cache: Cache, key: string -> string, model: string -> Vector, ttl: nat,
    readAt: nat -> nat -> int, writtenAt: nat -> int, upsertFails: nat -> bool)

  function CallFor(env: Setting, i: nat, texts: seq<string>): E.Call {
    E.Call(texts, env.readAt(i), env.writtenAt(i))
  }

  /** The cache before the i-th group: a group without text makes no call. */
  function CacheBefore(env: Setting, groups: seq<Group>, i: nat): Cache
    requires i <= |groups|
  {
    if i == 0 then env.cache
    else
      var before, texts := CacheBefore(env, groups, i - 1), Texts(groups[i - 1].points);
      if AnyText(texts) then E.CacheAfter(before, env.key, CallFor(env, i - 1, texts), E.Gateway(env.model), env.ttl)
      else before
  }

  function Value(v: Option<Vector>): Vector {
    match v case Some(vector) => vector case None => []
  }

  /** The i-th group's embed_many. */
  function EmbedsWith(env: Setting, groups: seq<Group>, i: nat, texts: seq<string>): Option<seq<Vector>> {
    var cache := if i <= |groups| then CacheBefore(env, groups, i) else env.cache;
    var r := E.Embedded(cache, env.key, CallFor(env, i, texts), E.Gateway(env.model));
    if r.None? then None else Some(seq(|r.value|, j requires 0 <= j < |r.value| => Value(r.value[j])))
  }

  /** The migration's world when embed_many reads and writes this cache. */
  function ThroughCache(env: Setting, groups: seq<Group>): World {
    World((i: nat) => (texts: seq<string>) => EmbedsWith(env, groups, i, texts), env.upsertFails)
  }

  /** A hit answers with the cached vector, a miss with the model's. */
  lemma EmbedsFromCache(env: Setting, cache: Cache, call: E.Call, j: nat)
    requires j < |call.texts|
    ensures var r := E.Embedded(cache, env.key, call, E.Gateway(env.model));
      r.Some? && |r.value| == |call.texts| && r.value[j] == Some(VectorAt(env, cache, call.texts[j], call.readAt(j)))
  {
    E.EmbeddedByPosition(cache, env.key, call, env.model);
    assert E.Hit(cache, env.key, call, j) == E.Lookup(cache, env.key(call.texts[j]), call.readAt(j));
  }

  lemma {:induction false} EmbedsByPosition(env: Setting, groups: seq<Group>, i: nat, texts: seq<string>, j: nat)
    requires i <= |groups| && j < |texts|
    ensures var r := EmbedsWith(env, groups, i, texts);
      && r.Some? && |r.value| == |texts|
      && r.value[j] == VectorAt(env, CacheBefore(env, groups, i), texts[j], env.readAt(i)(j))
  {
    var cache, call := CacheBefore(env, groups, i), CallFor(env, i, texts);
    EmbedsFromCache(env, cache, call, j);
    assert EmbedsWith(env, groups, i, texts).value[j]
        == Value(E.Embedded(cache, env.key, call, E.Gateway(env.model)).value[j]);
  }

  function VectorAt(env: Setting, cache: Cache, text: string, now: int): Vector {
    match E.Lookup(cache, env.key(text), now)
    case Some(vector) => vector
    case None => env.model(text)
  }

  lemma AnswersOnePerText(env: Setting, groups: seq<Group>)
    ensures OnePerText(ThroughCache(env, groups))
  {
    var w := ThroughCache(env, groups);
    forall i: nat, texts | w.embed(i)(texts).Some? ensures |w.embed(i)(texts).value| == |texts| {
      var cache := if i <= |groups| then CacheBefore(env, groups, i) else env.cache;
      E.EmbeddedByPosition(cache, env.key, CallFor(env, i, texts), env.model);
    }
  }

  // ---------------------------------------------------------------- what the run does to the cache

  /** A read of an earlier group came no later than any read of a later one. */
  ghost predicate InOrder(env: Setting, groups: seq<Group>) {
    forall i, g, j, l :: 0 <= i < g < |groups| && 0 <= j < |groups[i].points| && 0 <= l < |groups[g].points| ==>
      env.readAt(i)(j) <= env.readAt(g)(l)
  }

  /** The given entry of this key was dead at some read of the first i groups. */
  ghost predicate SeenDead(env: Setting, groups: seq<Group>, i: nat, k: string) {
    exists g, j :: 0 <= g < i && g < |groups| && 0 <= j < |groups[g].points| && k in env.cache
      && env.cache[k].expiresAt < env.readAt(g)(j)
  }

  /** Before the i-th group every entry is a given one, or the model's in the place of one
      that was seen dead. */
  ghost predicate EntrySound(env: Setting, groups: seq<Group>, i: nat, cache: Cache, k: string) {
    && (k in env.cache ==> k in cache)
    && (k in cache ==>
          || (k in env.cache && cache[k] == env.cache[k])
          || ((k in env.cache ==> SeenDead(env, groups, i, k))
              && forall t :: env.key(t) == k ==> cache[k].vector == env.model(t)))
  }

  ghost predicate CacheSound(env: Setting, groups: seq<Group>, i: nat, cache: Cache) {
    forall k :: EntrySound(env, groups, i, cache, k)
  }

  lemma {:induction false} WritingStaysSound(env: Setting, groups: seq<Group>, i: nat, cache: Cache,
                                             texts: seq<string>, n: nat, expiresAt: int)
    requires E.KeysAgree(env.key, env.model) && CacheSound(env, groups, i, cache) && n <= |texts|
    requires forall t :: t in texts && env.key(t) in env.cache ==> SeenDead(env, groups, i, env.key(t))
    ensures CacheSound(env, groups, i, E.Written(cache, env.key, texts, E.Answer(env.model, texts), n, expiresAt))
  {
    if n > 0 {
      WritingStaysSound(env, groups, i, cache, texts, n - 1, expiresAt);
      var before := E.Written(cache, env.key, texts, E.Answer(env.model, texts), n - 1, expiresAt);
      var after := E.Written(cache, env.key, texts, E.Answer(env.model, texts), n, expiresAt);
      assert texts[n - 1] in texts;
      forall k ensures EntrySound(env, groups, i, after, k) {
        assert EntrySound(env, groups, i, before, k);
      }
    }
  }

  lemma LaterStaysSound(env: Setting, groups: seq<Group>, i: nat, cache: Cache)
    requires CacheSound(env, groups, i, cache)
    ensures CacheSound(env, groups, i + 1, cache)
  {
    var next := i + 1;
    forall k ensures EntrySound(env, groups, next, cache, k) {
      assert EntrySound(env, groups, i, cache, k);
      assert SeenDead(env, groups, i, k) ==> SeenDead(env, groups, next, k);
    }
  }

  /** A text that missed finds its given entry dead, now or before. */
  lemma MissesAreSeenDead(env: Setting, groups: seq<Group>, i: nat, cache: Cache, m: nat)
    requires i < |groups| && CacheSound(env, groups, i, cache) && m < |groups[i].points|
    requires var t := Texts(groups[i].points)[m];
      E.Lookup(cache, env.key(t), env.readAt(i)(m)).None? && env.key(t) in env.cache
    ensures SeenDead(env, groups, i + 1, env.key(Texts(groups[i].points)[m]))
  {
    var k := env.key(Texts(groups[i].points)[m]);
    assert EntrySound(env, groups, i, cache, k);
    if SeenDead(env, groups, i, k) {
      var g, j :| 0 <= g < i && g < |groups| && 0 <= j < |groups[g].points| && k in env.cache
        && env.cache[k].expiresAt < env.readAt(g)(j);
    } else {
      assert env.cache[k].expiresAt < env.readAt(i)(m);
    }
  }

  lemma MissTextsAreSeenDead(env: Setting, groups: seq<Group>, i: nat, cache: Cache, t: string)
    requires i < |groups| && CacheSound(env, groups, i, cache)
    requires t in E.MissTexts(cache, env.key, CallFor(env, i, Texts(groups[i].points))) && env.key(t) in env.cache
    ensures SeenDead(env, groups, i + 1, env.key(t))
  {
    var call := CallFor(env, i, Texts(groups[i].points));
    var at, texts := E.AllMisses(cache, env.key, call), E.MissTexts(cache, env.key, call);
    var a :| 0 <= a < |texts| && texts[a] == t;
    assert at[a] in at;
    E.MissesMeaning(cache, env.key, call, |call.texts|);
    assert E.Hit(cache, env.key, call, at[a]).None?;
    MissesAreSeenDead(env, groups, i, cache, at[a]);
  }

  lemma CallStaysSound(env: Setting, groups: seq<Group>, i: nat, cache: Cache)
    requires E.KeysAgree(env.key, env.model) && i < |groups| && CacheSound(env, groups, i, cache)
    ensures var call := CallFor(env, i, Texts(groups[i].points));
      CacheSound(env, groups, i + 1, E.CacheAfter(cache, env.key, call, E.Gateway(env.model), env.ttl))
  {
    var call := CallFor(env, i, Texts(groups[i].points));
    var texts := E.MissTexts(cache, env.key, call);
    LaterStaysSound(env, groups, i, cache);
    forall t | t in texts && env.key(t) in env.cache ensures SeenDead(env, groups, i + 1, env.key(t)) {
      MissTextsAreSeenDead(env, groups, i, cache, t);
    }
    WritingStaysSound(env, groups, i + 1, cache, texts, |texts|, call.writtenAt + env.ttl);
  }

  lemma {:induction false} CacheStaysSound(env: Setting, groups: seq<Group>, i: nat)
    requires E.KeysAgree(env.key, env.model) && i <= |groups|
    ensures CacheSound(env, groups, i, CacheBefore(env, groups, i))
  {
    if i > 0 {
      CacheStaysSound(env, groups, i - 1);
      CallStaysSound(env, groups, i - 1, CacheBefore(env, groups, i - 1));
      LaterStaysSound(env, groups, i - 1, CacheBefore(env, groups, i - 1));
    }
  }

  /** What the run itself wrote never shows: a text is embedded as the given cache and the
      model would do it. */
  lemma {:induction false} OnlyTheGivenCacheShows(env: Setting, groups: seq<Group>, i: nat, j: nat)
    requires E.KeysAgree(env.key, env.model) && InOrder(env, groups)
    requires i < |groups| && j < |groups[i].points|
    ensures var t, now := Texts(groups[i].points)[j], env.readAt(i)(j);
      VectorAt(env, CacheBefore(env, groups, i), t, now) == VectorAt(env, env.cache, t, now)
  {
    var t, now := Texts(groups[i].points)[j], env.readAt(i)(j);
    var k := env.key(t);
    CacheStaysSound(env, groups, i);
    assert EntrySound(env, groups, i, CacheBefore(env, groups, i), k);
    if SeenDead(env, groups, i, k) {
      var g, l :| 0 <= g < i && g < |groups| && 0 <= l < |groups[g].points| && k in env.cache
        && env.cache[k].expiresAt < env.readAt(g)(l);
      assert env.readAt(g)(l) <= now;
    }
  }

  // ---------------------------------------------------------------- what the points get

  /** A re-embedded point gets the vector of the given cache if the entry of its text still
      lives when the point's group is read, whichever model wrote it, and the new model's
      vector otherwise: so it gets the new model's vector exactly when no live entry holds
      another. */
  lemma {:induction false} CachedMigrationPointByPoint(points: seq<Point>, env: Setting, target: string)
    requires DistinctIds(points) && E.KeysAgree(env.key, env.model)
    requires InOrder(env, GroupsFor(points, target))
    ensures var groups := GroupsFor(points, target);
      var w := ThroughCache(env, groups);
      var after := Migrated(points, w, target);
      && |after| == |points|
      && forall i :: 0 <= i < |points| ==>
           if IsReEmbedded(points, w, target, points[i])
           then exists now :: IsReadAt(env, groups, points[i], now)
                  && after[i] == ReEmbeddedAt(env, points[i], target, now)
           else after[i] == points[i]
  {
    var groups := GroupsFor(points, target);
    var w := ThroughCache(env, groups);
    AnswersOnePerText(env, groups);
    MigrationVectors(points, w, target);
    var after := Migrated(points, w, target);
    forall i | 0 <= i < |points| && IsReEmbedded(points, w, target, points[i])
      ensures exists now :: IsReadAt(env, groups, points[i], now)
                && after[i] == ReEmbeddedAt(env, points[i], target, now)
    {
      var now := PointIsRead(points, env, target, points[i]);
      assert Renewed(points[i], after[i], target, VectorFor(points, w, target, points[i]));
    }
  }

  /** The point is read at this moment, at its place in its group. */
  ghost predicate IsReadAt(env: Setting, groups: seq<Group>, p: Point, now: int) {
    exists g: nat, j: nat ::
      g < |groups| && j < |groups[g].points| && groups[g].points[j] == p && now == env.readAt(g)(j)
  }

  function ReEmbeddedAt(env: Setting, p: Point, target: string, now: int): Point {
    Point(p.id, VectorAt(env, env.cache, Field(p.payload, TEXT), now), p.payload[VERSION := target])
  }

  lemma {:induction false} PointIsRead(points: seq<Point>, env: Setting, target: string, p: Point) returns (now: int)
    requires DistinctIds(points) && E.KeysAgree(env.key, env.model) && InOrder(env, GroupsFor(points, target))
    requires p in points && IsReEmbedded(points, ThroughCache(env, GroupsFor(points, target)), target, p)
    ensures IsReadAt(env, GroupsFor(points, target), p, now)
    ensures VectorFor(points, ThroughCache(env, GroupsFor(points, target)), target, p)
         == VectorAt(env, env.cache, Field(p.payload, TEXT), now)
  {
    var groups := GroupsFor(points, target);
    var w := ThroughCache(env, groups);
    var g, j := FindInGroup(points, target, p);
    var texts := Texts(groups[g].points);
    now := env.readAt(g)(j);
    EmbedsByPosition(env, groups, g, texts, j);
    OnlyTheGivenCacheShows(env, groups, g, j);
    assert w.embed(g)(texts) == Some(OutcomeOf(w, g, groups[g]).vectors);
    assert texts[j] == Field(p.payload, TEXT);
  }
}
