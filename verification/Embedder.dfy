/** Embedding texts through a cache (embeddings/embedder.py). */
module Embedder {
  import opened Basics

  type Vector = seq<real>

  datatype Cached = Cached(vector: Vector, expiresAt: int)

  /** One call: the clock at each cache read, and when the misses are written back. */
  datatype Call = Call(texts: seq<string>, readAt: nat -> int, writtenAt: int)

  // ---------------------------------------------------------------- the call as values

  function Lookup(cache: map<string, Cached>, key: string, now: int): Option<Vector> {
    if key in cache && Alive(cache[key].expiresAt, now) then Some(cache[key].vector) else None
  }

  /** What the i-th read answers. */
  function Hit(cache: map<string, Cached>, key: string -> string, call: Call, i: nat): Option<Vector>
    requires i < |call.texts|
  {
    Lookup(cache, key(call.texts[i]), call.readAt(i))
  }

  /** The positions among the first n that missed. */
  function Misses(cache: map<string, Cached>, key: string -> string, call: Call, n: nat): (misses: seq<nat>)
    requires n <= |call.texts|
    ensures forall m :: m in misses ==> m < n
  {
    if n == 0 then []
    else
      Misses(cache, key, call, n - 1) + (if Hit(cache, key, call, n - 1).None? then [n - 1] else [])
  }

  function Pick(texts: seq<string>, at: seq<nat>): seq<string>
    requires forall m :: m in at ==> m < |texts|
  {
    seq(|at|, j requires 0 <= j < |at| => assert at[j] in at; texts[at[j]])
  }

  function Hits(cache: map<string, Cached>, key: string -> string, call: Call): seq<Option<Vector>> {
    seq(|call.texts|, i requires 0 <= i < |call.texts| => Hit(cache, key, call, i))
  }

  /** zip stops at the shorter list. */
  function Zipped(at: seq<nat>, vectors: seq<Vector>): nat {
    if |at| <= |vectors| then |at| else |vectors|
  }

  function Fill(results: seq<Option<Vector>>, at: seq<nat>, vectors: seq<Vector>, n: nat): (r: seq<Option<Vector>>)
    requires n <= |at| && n <= |vectors| && forall m :: m in at ==> m < |results|
    ensures |r| == |results|
  {
    if n == 0 then results
    else
      assert at[n - 1] in at;
      Fill(results, at, vectors, n - 1)[at[n - 1] := Some(vectors[n - 1])]
  }

  function Written(cache: map<string, Cached>, key: string -> string, texts: seq<string>, vectors: seq<Vector>,
                   n: nat, expiresAt: int): map<string, Cached>
    requires n <= |texts| && n <= |vectors|
  {
    if n == 0 then cache
    else Written(cache, key, texts, vectors, n - 1, expiresAt)[key(texts[n - 1]) := Cached(vectors[n - 1], expiresAt)]
  }

  function AllMisses(cache: map<string, Cached>, key: string -> string, call: Call): seq<nat> {
    Misses(cache, key, call, |call.texts|)
  }

  function MissTexts(cache: map<string, Cached>, key: string -> string, call: Call): seq<string> {
    Pick(call.texts, AllMisses(cache, key, call))
  }

  /** embed_many as a function of the cache and the gateway; None is an exception. */
  function Embedded(cache: map<string, Cached>, key: string -> string, call: Call,
                    gateway: seq<string> -> Option<seq<Vector>>): Option<seq<Option<Vector>>>
  {
    var at, hits := AllMisses(cache, key, call), Hits(cache, key, call);
    if at == [] then Some(hits)
    else
      var answer := gateway(MissTexts(cache, key, call));
      if answer.None? then None else Some(Fill(hits, at, answer.value, Zipped(at, answer.value)))
  }

  function CacheAfter(cache: map<string, Cached>, key: string -> string, call: Call,
                      gateway: seq<string> -> Option<seq<Vector>>, ttl: nat): map<string, Cached>
  {
    var at := AllMisses(cache, key, call);
    if at == [] then cache
    else
      var texts := MissTexts(cache, key, call);
      var answer := gateway(texts);
      if answer.None? then cache
      else Written(cache, key, texts, answer.value, Zipped(at, answer.value), call.writtenAt + ttl)
  }

  class Embedder {
    var cache: map<string, Cached>
    const key: string -> string
    const ttl: nat

    constructor (key: string -> string, ttl: nat)
      ensures cache == map[] && this.key == key && this.ttl == ttl
    {
      this.key, this.ttl, cache := key, ttl, map[];
    }

    /** The cache reads: hits in place, misses by position. */
    method ReadCache(call: Call) returns (results: seq<Option<Vector>>, uncached: seq<nat>)
      ensures results == Hits(cache, key, call) && uncached == AllMisses(cache, key, call)
    {
      results := seq(|call.texts|, i => None);
      uncached := [];
      for i := 0 to |call.texts|
        invariant |results| == |call.texts| && uncached == Misses(cache, key, call, i)
        invariant forall j :: 0 <= j < i ==> results[j] == Hit(cache, key, call, j)
        invariant forall j :: i <= j < |results| ==> results[j] == None
      {
        var raw := Lookup(cache, key(call.texts[i]), call.readAt(i));
        if raw.Some? {
          results := results[i := raw];
        } else {
          uncached := uncached + [i];
        }
      }
    }

    /** The pairs of the zip: fill the result and write the cache. */
    method Store(hits: seq<Option<Vector>>, uncached: seq<nat>, texts: seq<string>, vectors: seq<Vector>,
                 expiresAt: int)
      returns (results: seq<Option<Vector>>)
      requires |texts| == |uncached| && forall m :: m in uncached ==> m < |hits|
      modifies `cache
      ensures results == Fill(hits, uncached, vectors, Zipped(uncached, vectors))
      ensures cache == Written(old(cache), key, texts, vectors, Zipped(uncached, vectors), expiresAt)
    {
      results := hits;
      for j := 0 to Zipped(uncached, vectors)
        invariant results == Fill(hits, uncached, vectors, j)
        invariant cache == Written(old(cache), key, texts, vectors, j, expiresAt)
      {
        assert uncached[j] in uncached;
        results := results[uncached[j] := Some(vectors[j])];
        cache := cache[key(texts[j]) := Cached(vectors[j], expiresAt)];
      }
    }

    method EmbedMany(call: Call, gateway: seq<string> -> Option<seq<Vector>>) returns (r: Option<seq<Option<Vector>>>)
      modifies `cache
      ensures r == Embedded(old(cache), key, call, gateway)
      ensures cache == CacheAfter(old(cache), key, call, gateway, ttl)
    {
      var results, uncached := ReadCache(call);
      if uncached == [] { return Some(results); }
      var texts := Pick(call.texts, uncached);
      var answer := gateway(texts);
      if answer.None? { return None; }
      results := Store(results, uncached, texts, answer.value, call.writtenAt + ttl);
      r := Some(results);
    }
  }

  // ---------------------------------------------------------------- a call against the plain map

  /** The gateway answers with this model's vectors, one per text. */
  function Answer(embed: string -> Vector, texts: seq<string>): seq<Vector> {
    seq(|texts|, i requires 0 <= i < |texts| => embed(texts[i]))
  }

  function Gateway(embed: string -> Vector): seq<string> -> Option<seq<Vector>> {
    (texts: seq<string>) => Some(Answer(embed, texts))
  }

  function Plain(embed: string -> Vector, texts: seq<string>): seq<Option<Vector>> {
    seq(|texts|, i requires 0 <= i < |texts| => Some(embed(texts[i])))
  }

  lemma {:induction false} MissesMeaning(cache: map<string, Cached>, key: string -> string, call: Call, n: nat)
    requires n <= |call.texts|
    ensures forall i: nat :: i < n ==> (i in Misses(cache, key, call, n) <==> Hit(cache, key, call, i).None?)
    ensures forall a, b :: 0 <= a < b < |Misses(cache, key, call, n)| ==>
      Misses(cache, key, call, n)[a] < Misses(cache, key, call, n)[b]
  {
    if n > 0 {
      MissesMeaning(cache, key, call, n - 1);
      var before := Misses(cache, key, call, n - 1);
      forall a | 0 <= a < |before| ensures before[a] < n - 1 {
        assert before[a] in before;
      }
    }
  }

  lemma {:induction false} FillMeaning(results: seq<Option<Vector>>, at: seq<nat>, vectors: seq<Vector>, n: nat)
    requires n <= |at| && n <= |vectors| && forall m :: m in at ==> m < |results|
    requires forall a, b :: 0 <= a < b < |at| ==> at[a] < at[b]
    ensures var r := Fill(results, at, vectors, n);
      && (forall a :: 0 <= a < n ==> at[a] < |r| && r[at[a]] == Some(vectors[a]))
      && (forall i: nat :: i < |results| && i !in at[..n] ==> r[i] == results[i])
  {
    forall a | 0 <= a < |at| ensures at[a] < |results| {
      assert at[a] in at;
    }
    if n > 0 {
      FillMeaning(results, at, vectors, n - 1);
      assert at[..n] == at[..n - 1] + [at[n - 1]];
    }
  }

  /** The cache's vector on a hit, the model's on a miss. */
  function Expected(cache: map<string, Cached>, key: string -> string, call: Call, embed: string -> Vector, i: nat)
    : Option<Vector>
    requires i < |call.texts|
  {
    if Hit(cache, key, call, i).Some? then Hit(cache, key, call, i) else Some(embed(call.texts[i]))
  }

  lemma {:induction false} MissesAreFilled(cache: map<string, Cached>, key: string -> string, call: Call,
                                           embed: string -> Vector)
    ensures var at, hits := AllMisses(cache, key, call), Hits(cache, key, call);
      var filled := Fill(hits, at, Answer(embed, MissTexts(cache, key, call)), |at|);
      forall i :: 0 <= i < |call.texts| ==>
        filled[i] == Expected(cache, key, call, embed, i)
  {
    var at, hits := AllMisses(cache, key, call), Hits(cache, key, call);
    var vectors := Answer(embed, MissTexts(cache, key, call));
    MissesMeaning(cache, key, call, |call.texts|);
    FillMeaning(hits, at, vectors, |at|);
    assert at[..|at|] == at;
    forall i | 0 <= i < |call.texts|
      ensures Fill(hits, at, vectors, |at|)[i] == Expected(cache, key, call, embed, i)
    {
      if Hit(cache, key, call, i).Some? {
        assert i !in at[..|at|] && hits[i] == Hit(cache, key, call, i);
      } else {
        var a :| 0 <= a < |at| && at[a] == i;
        assert vectors[a] == embed(call.texts[at[a]]);
      }
    }
  }

  /** With the model behind the gateway, a text is embedded by the model if it missed and by
      the cache if it hit. */
  lemma EmbeddedByPosition(cache: map<string, Cached>, key: string -> string, call: Call, embed: string -> Vector)
    ensures var r := Embedded(cache, key, call, Gateway(embed));
      && r.Some? && |r.value| == |call.texts|
      && (forall i :: 0 <= i < |call.texts| ==>
            r.value[i] == Expected(cache, key, call, embed, i))
  {
    var at := AllMisses(cache, key, call);
    MissesAreFilled(cache, key, call, embed);
    assert |Answer(embed, MissTexts(cache, key, call))| == |at|;
    if at == [] {
      assert Fill(Hits(cache, key, call), at, Answer(embed, MissTexts(cache, key, call)), 0) == Hits(cache, key, call);
    }
  }

  /** embed_many is the plain map exactly when every hit holds the vector of its own text. */
  lemma EmbedsAsThePlainMapIff(cache: map<string, Cached>, key: string -> string, call: Call, embed: string -> Vector)
    ensures Embedded(cache, key, call, Gateway(embed)) == Some(Plain(embed, call.texts))
      <==> forall i :: 0 <= i < |call.texts| && Hit(cache, key, call, i).Some? ==>
             Hit(cache, key, call, i) == Some(embed(call.texts[i]))
  {
    EmbeddedByPosition(cache, key, call, embed);
    var r, plain := Embedded(cache, key, call, Gateway(embed)).value, Plain(embed, call.texts);
    if r == plain {
      forall i | 0 <= i < |call.texts| && Hit(cache, key, call, i).Some?
        ensures Hit(cache, key, call, i) == Some(embed(call.texts[i]))
      {
        assert r[i] == plain[i];
      }
    }
  }

  // ---------------------------------------------------------------- whole runs of calls

  /** The cache after these calls under one model. */
  function CacheAfterAll(key: string -> string, embed: string -> Vector, ttl: nat, calls: seq<Call>)
    : map<string, Cached>
  {
    if calls == [] then map[]
    else CacheAfter(CacheAfterAll(key, embed, ttl, Init(calls)), key, Last(calls), Gateway(embed), ttl)
  }

  /** Texts that share a key share a vector. */
  ghost predicate KeysAgree(key: string -> string, embed: string -> Vector) {
    forall t, u :: key(t) == key(u) ==> embed(t) == embed(u)
  }

  ghost predicate Sound(cache: map<string, Cached>, key: string -> string, embed: string -> Vector) {
    forall t :: key(t) in cache ==> cache[key(t)].vector == embed(t)
  }

  lemma {:induction false} WritesStaySound(cache: map<string, Cached>, key: string -> string, embed: string -> Vector,
                                           texts: seq<string>, n: nat, expiresAt: int)
    requires KeysAgree(key, embed) && Sound(cache, key, embed) && n <= |texts|
    ensures Sound(Written(cache, key, texts, Answer(embed, texts), n, expiresAt), key, embed)
  {
    if n > 0 { WritesStaySound(cache, key, embed, texts, n - 1, expiresAt); }
  }

  lemma {:induction false} CacheStaysSound(key: string -> string, embed: string -> Vector, ttl: nat, calls: seq<Call>)
    requires KeysAgree(key, embed)
    ensures Sound(CacheAfterAll(key, embed, ttl, calls), key, embed)
  {
    if calls != [] {
      CacheStaysSound(key, embed, ttl, Init(calls));
      var cache, call := CacheAfterAll(key, embed, ttl, Init(calls)), Last(calls);
      var texts := MissTexts(cache, key, call);
      WritesStaySound(cache, key, embed, texts, |texts|, call.writtenAt + ttl);
    }
  }

  /** The call after these calls gives every text its own vector. */
  ghost predicate RightAfter(key: string -> string, embed: string -> Vector, ttl: nat, calls: seq<Call>, call: Call) {
    Embedded(CacheAfterAll(key, embed, ttl, calls), key, call, Gateway(embed)) == Some(Plain(embed, call.texts))
  }

  lemma RightIfKeysAgree(key: string -> string, embed: string -> Vector, ttl: nat, calls: seq<Call>, call: Call)
    requires KeysAgree(key, embed)
    ensures RightAfter(key, embed, ttl, calls, call)
  {
    CacheStaysSound(key, embed, ttl, calls);
    EmbedsAsThePlainMapIff(CacheAfterAll(key, embed, ttl, calls), key, call, embed);
  }

  /** embed_one: one text, one instant. */
  function OneText(t: string, now: int): Call {
    Call([t], (i: nat) => now, now)
  }

  /** Reading u right after t was written answers with the vector stored for t. */
  lemma {:induction false} SecondTextHitsTheFirst(key: string -> string, embed: string -> Vector, ttl: nat,
                                                  t: string, u: string)
    requires key(t) == key(u)
    ensures var first, second := OneText(t, 0), OneText(u, 0);
      Hit(CacheAfterAll(key, embed, ttl, [first]), key, second, 0) == Some(embed(t))
  {
    var first := OneText(t, 0);
    assert Init([first]) == [];
    assert Misses(map[], key, first, 0) == [];
    assert AllMisses(map[], key, first) == [0];
    var texts := MissTexts(map[], key, first);
    assert texts == [t];
    assert Written(map[], key, texts, Answer(embed, texts), 0, ttl) == map[];
    assert Written(map[], key, texts, Answer(embed, texts), 1, ttl) == map[key(t) := Cached(embed(t), ttl)];
    assert CacheAfterAll(key, embed, ttl, [first]) == map[key(t) := Cached(embed(t), ttl)];
  }

  /** Under one model and from an empty cache, every call of every run is right exactly when
      texts that share a key share a vector; injective keys are enough. */
  lemma CacheIsInvisibleIff(key: string -> string, embed: string -> Vector, ttl: nat)
    ensures (forall calls, call :: RightAfter(key, embed, ttl, calls, call)) <==> KeysAgree(key, embed)
  {
    if KeysAgree(key, embed) {
      forall calls, call ensures RightAfter(key, embed, ttl, calls, call) {
        RightIfKeysAgree(key, embed, ttl, calls, call);
      }
    } else {
      var t, u :| key(t) == key(u) && embed(t) != embed(u);
      var first, second := OneText(t, 0), OneText(u, 0);
      SecondTextHitsTheFirst(key, embed, ttl, t, u);
      EmbedsAsThePlainMapIff(CacheAfterAll(key, embed, ttl, [first]), key, second, embed);
      assert !RightAfter(key, embed, ttl, [first], second);
    }
  }

  /** Keys do not name the model: while an entry lives, a new model's call is answered with the
      old model's vector. */
  lemma OldModelIsServed(cache: map<string, Cached>, key: string -> string,
                         old_: string -> Vector, new_: string -> Vector, t: string, now: int)
    requires Lookup(cache, key(t), now) == Some(old_(t)) && old_(t) != new_(t)
    ensures Embedded(cache, key, OneText(t, now), Gateway(new_)) == Some([Some(old_(t))])
  {
    var call := OneText(t, now);
    EmbeddedByPosition(cache, key, call, new_);
    assert Hit(cache, key, call, 0) == Some(old_(t));
    assert Embedded(cache, key, call, Gateway(new_)).value == [Some(old_(t))];
  }
}
