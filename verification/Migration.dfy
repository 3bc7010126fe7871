/** Re-embedding an organisation's chunks under a new version (services/migration_service.py)
    over the point store (vectorstore/qdrant_store.py). */
module Migration {
  import opened Basics
  import E = Embedder

  type Vector = E.Vector
  type Fields = map<string, string>

  const VERSION := "embedding_version"
  const DOCUMENT := "document_id"
  const TEXT := "text"

  datatype Point = Point(id: string, vector: Vector, payload: Fields)

  /** payload.get(key, ""). */
  function Field(payload: Fields, key: string): string {
    if key in payload then payload[key] else ""
  }

  predicate Stale(p: Point, version: string) {
    !(VERSION in p.payload && p.payload[VERSION] == version)
  }

  // ---------------------------------------------------------------- the point store

  predicate DistinctIds(points: seq<Point>) {
    forall i, j :: 0 <= i < j < |points| ==> points[i].id != points[j].id
  }

  function IndexOf(points: seq<Point>, id: string): (i: nat)
    ensures i <= |points|
    ensures i < |points| ==> points[i].id == id
    ensures forall j :: 0 <= j < i ==> points[j].id != id
  {
    PositionOf(points, (x: Point) => x.id, id)
  }

  function UpsertOne(points: seq<Point>, p: Point): seq<Point> {
    var i := IndexOf(points, p.id);
    if i == |points| then points + [p] else points[i := p]
  }

  function UpsertAll(points: seq<Point>, batch: seq<Point>): seq<Point> {
    if batch == [] then points else UpsertOne(UpsertAll(points, Init(batch)), Last(batch))
  }

  /** The points that pass the filter, in store order. */
  function Matching(points: seq<Point>, filter: Point -> bool): seq<Point> {
    if points == [] then []
    else (if filter(points[0]) then [points[0]] else []) + Matching(points[1..], filter)
  }

  function StaleFilter(version: string): Point -> bool {
    (p: Point) => Stale(p, version)
  }

  /** The matches from the point with the offset id on. */
  function Rest(points: seq<Point>, filter: Point -> bool, offset: Option<string>): seq<Point> {
    Matching(if offset.None? then points else points[IndexOf(points, offset.value)..], filter)
  }

  /** One scroll: up to `limit` matches, and the id of the next match if there is one. */
  function Page(points: seq<Point>, filter: Point -> bool, limit: nat, offset: Option<string>)
    : (seq<Point>, Option<string>)
  {
    var rest := Rest(points, filter, offset);
    if |rest| <= limit then (rest, None) else (rest[..limit], Some(rest[limit].id))
  }

  lemma {:induction false} MatchAt(points: seq<Point>, filter: Point -> bool, a: nat, j: nat) returns (i: nat)
    requires a <= |points| && j < |Matching(points[a..], filter)|
    ensures i < |points| && points[i] == Matching(points[a..], filter)[j]
    ensures Matching(points[i..], filter) == Matching(points[a..], filter)[j..]
    decreases |points| - a
  {
    assert points[a..][1..] == points[a + 1..];
    if !filter(points[a]) {
      i := MatchAt(points, filter, a + 1, j);
    } else if j == 0 {
      i := a;
    } else {
      i := MatchAt(points, filter, a + 1, j - 1);
    }
  }

  lemma {:induction false} IndexIsUnique(points: seq<Point>, i: nat)
    requires DistinctIds(points) && i < |points|
    ensures IndexOf(points, points[i].id) == i
  {
  }

  lemma {:induction false} RestAt(points: seq<Point>, filter: Point -> bool, offset: Option<string>, j: nat)
    requires DistinctIds(points) && j < |Rest(points, filter, offset)|
    ensures var rest := Rest(points, filter, offset);
      Rest(points, filter, Some(rest[j].id)) == rest[j..]
  {
    var a := if offset.None? then 0 else IndexOf(points, offset.value);
    assert points[0..] == points;
    var i := MatchAt(points, filter, a, j);
    IndexIsUnique(points, i);
  }

  /** What a page takes off the matches still to come. */
  ghost predicate Splits(rest: seq<Point>, page: seq<Point>, left: seq<Point>, limit: nat) {
    page + left == rest && (left != [] ==> |page| == limit)
  }

  /** The scroll resumes where the page ended. */
  lemma {:induction false} PageResumes(points: seq<Point>, filter: Point -> bool, limit: nat, offset: Option<string>)
    requires DistinctIds(points)
    ensures var (page, next) := Page(points, filter, limit, offset);
      Splits(Rest(points, filter, offset), page, if next.None? then [] else Rest(points, filter, next), limit)
  {
    var rest := Rest(points, filter, offset);
    if |rest| > limit {
      RestAt(points, filter, offset, limit);
      assert rest[..limit] + rest[limit..] == rest;
    }
  }

  lemma {:induction false} PageAppends(all: seq<Point>, stale: seq<Point>, rest: seq<Point>, page: seq<Point>,
                                       left: seq<Point>, limit: nat)
    requires stale + rest == all && Splits(rest, page, left, limit)
    ensures (stale + page) + left == all
  {
    assert (stale + page) + left == stale + (page + left);
  }

  class VectorStore {
    var points: seq<Point>

    ghost predicate Valid()
      reads this
    {
      DistinctIds(points)
    }

    constructor ()
      ensures points == [] && Valid()
    {
      points := [];
    }

    /** Every matching point once, in store order, whatever the page size. */
    method ScrollAll(filter: Point -> bool, batchSize: nat) returns (found: seq<Point>)
      requires Valid() && batchSize > 0
      ensures found == Matching(points, filter)
    {
      found := [];
      var offset: Option<string> := None;
      ghost var all, rest := Rest(points, filter, None), Rest(points, filter, None);
      while true
        invariant found + rest == all && rest == Rest(points, filter, offset)
        decreases |rest|
      {
        PageResumes(points, filter, batchSize, offset);
        var (page, next) := Page(points, filter, batchSize, offset);
        ghost var left := if next.None? then [] else Rest(points, filter, next);
        PageAppends(all, found, rest, page, left, batchSize);
        found := found + page;
        offset := next;
        if offset.None? { return; }
        rest := left;
      }
    }

    method ScrollStaleChunks(version: string, batchSize: nat) returns (stale: seq<Point>)
      requires Valid() && batchSize > 0
      ensures stale == Matching(points, StaleFilter(version))
    {
      stale := ScrollAll(StaleFilter(version), batchSize);
    }

    method Upsert(batch: seq<Point>)
      modifies this
      ensures points == UpsertAll(old(points), batch)
    {
      for k := 0 to |batch|
        invariant points == UpsertAll(old(points), batch[..k])
      {
        assert Init(batch[..k + 1]) == batch[..k];
        points := UpsertOne(points, batch[k]);
      }
      assert batch[..|batch|] == batch;
    }
  }

  /** Each point is as it was or the batch's point with its id. */
  ghost predicate InPlace(points: seq<Point>, batch: seq<Point>, after: seq<Point>) {
    && |after| == |points|
    && (forall i :: 0 <= i < |points| ==> after[i].id == points[i].id)
    && (forall i :: 0 <= i < |points| ==> after[i] == points[i] || after[i] in batch)
    && (forall i, b :: 0 <= i < |points| && b in batch && b.id == points[i].id ==> after[i] == b)
  }

  lemma {:induction false} OneMoreInPlace(points: seq<Point>, before: seq<Point>, mid: seq<Point>, b: Point)
    requires DistinctIds(points) && InPlace(points, before, mid)
    requires IndexOf(points, b.id) < |points| && forall c :: c in before ==> c.id != b.id
    ensures InPlace(points, before + [b], UpsertOne(mid, b))
  {
    var k := IndexOf(points, b.id);
    assert mid[k].id == b.id;
    assert DistinctIds(mid);
    IndexIsUnique(mid, k);
    var after := mid[k := b];
    forall i, c | 0 <= i < |points| && c in before + [b] && c.id == points[i].id ensures after[i] == c {
      if i == k { assert c !in before; }
    }
  }

  /** Replacing known points in place touches no others. */
  lemma {:induction false} UpsertInPlace(points: seq<Point>, batch: seq<Point>)
    requires DistinctIds(points) && DistinctIds(batch)
    requires forall b :: b in batch ==> IndexOf(points, b.id) < |points|
    ensures InPlace(points, batch, UpsertAll(points, batch))
  {
    if batch != [] {
      var before, b := Init(batch), Last(batch);
      assert batch == before + [b];
      UpsertInPlace(points, before);
      forall c | c in before ensures c.id != b.id {
        var j :| 0 <= j < |before| && before[j] == c;
        assert batch[j].id != batch[|batch| - 1].id;
      }
      OneMoreInPlace(points, before, UpsertAll(points, before), b);
    }
  }

  lemma OneUpsert(points: seq<Point>, b: Point)
    ensures var r := UpsertOne(points, b);
      && |points| <= |r| <= |points| + 1 && b in r
      && (forall i :: 0 <= i < |points| ==> r[i].id == points[i].id && (r[i] == points[i] || r[i] == b))
      && (forall i :: 0 <= i < |points| && points[i].id != b.id ==> r[i] == points[i])
      && (|r| > |points| ==> r[|points|] == b)
  {
    var at := IndexOf(points, b.id);
    assert UpsertOne(points, b)[at] == b;
  }

  /** Upserting keeps every point that no id of the batch names, where it stands, and adds what
      is new: each point of the batch is in the store afterwards, and nothing else is. */
  lemma {:induction false} UpsertKeepsAndAdds(points: seq<Point>, batch: seq<Point>)
    requires DistinctIds(batch)
    ensures var r := UpsertAll(points, batch);
      && |points| <= |r|
      && (forall i :: 0 <= i < |points| ==> r[i].id == points[i].id)
      && (forall i :: 0 <= i < |points| && !HasPointId(batch, points[i].id) ==> r[i] == points[i])
      && (forall b :: b in batch ==> b in r)
      && (forall i :: |points| <= i < |r| ==> r[i] in batch)
  {
    if batch != [] {
      var before, b := Init(batch), Last(batch);
      UpsertKeepsAndAdds(points, before);
      var mid, r := UpsertAll(points, before), UpsertAll(points, batch);
      OneUpsert(mid, b);
      forall i | 0 <= i < |points| && !HasPointId(batch, points[i].id) ensures r[i] == points[i] {
        NamedByInit(batch, points[i].id);
      }
      forall c | c in before ensures c in r {
        var j :| 0 <= j < |before| && before[j] == c;
        assert batch[j].id != batch[|batch| - 1].id;
        var k :| 0 <= k < |mid| && mid[k] == c;
        assert r[k] == c;
      }
    }
  }

  lemma NamedByInit(batch: seq<Point>, id: string)
    requires batch != [] && !HasPointId(batch, id)
    ensures !HasPointId(Init(batch), id) && Last(batch).id != id
  {
    assert batch[|batch| - 1] == Last(batch);
    assert forall j :: 0 <= j < |batch| - 1 ==> Init(batch)[j] == batch[j];
  }

  predicate HasPointId(points: seq<Point>, id: string) {
    exists i :: 0 <= i < |points| && points[i].id == id
  }

  // ---------------------------------------------------------------- grouping by document

  /** The document, or the point itself when it names none. */
  function KeyOf(p: Point): string {
    if Field(p.payload, DOCUMENT) != "" then Field(p.payload, DOCUMENT) else p.id
  }

  datatype Group = Group(key: string, points: seq<Point>)

  function GroupIndex(groups: seq<Group>, key: string): (i: nat)
    ensures i <= |groups|
    ensures i < |groups| ==> groups[i].key == key
    ensures forall j :: 0 <= j < i ==> groups[j].key != key
  {
    PositionOf(groups, (x: Group) => x.key, key)
  }

  /** docs.setdefault(key, []).append(point). */
  function AddTo(of: Point -> string, groups: seq<Group>, p: Point): seq<Group> {
    var i := GroupIndex(groups, of(p));
    if i == |groups| then groups + [Group(of(p), [p])]
    else groups[i := groups[i].(points := groups[i].points + [p])]
  }

  function GroupsOf(of: Point -> string, stale: seq<Point>): seq<Group> {
    if stale == [] then [] else AddTo(of, GroupsOf(of, Init(stale)), Last(stale))
  }

  function WithKey(of: Point -> string, points: seq<Point>, key: string): seq<Point> {
    if points == [] then []
    else WithKey(of, Init(points), key) + (if of(Last(points)) == key then [Last(points)] else [])
  }

  function Sizes(groups: seq<Group>): nat {
    if groups == [] then 0 else Sizes(Init(groups)) + |Last(groups).points|
  }

  predicate DistinctGroups(groups: seq<Group>) {
    forall i, j :: 0 <= i < j < |groups| ==> groups[i].key != groups[j].key
  }

  /** Groups by key, each with its points in order; no point is lost. */
  ghost predicate Partition(of: Point -> string, groups: seq<Group>, stale: seq<Point>) {
    && DistinctGroups(groups)
    && (forall i :: 0 <= i < |groups| ==>
          groups[i].points == WithKey(of, stale, groups[i].key) && groups[i].points != [])
    && (forall p :: p in stale ==> GroupIndex(groups, of(p)) < |groups|)
  }

  lemma {:induction false} SizesOfUpdate(groups: seq<Group>, i: nat, g: Group)
    requires i < |groups|
    ensures Sizes(groups[i := g]) == Sizes(groups) - |groups[i].points| + |g.points|
  {
    if i < |groups| - 1 {
      SizesOfUpdate(Init(groups), i, g);
      assert Init(groups[i := g]) == Init(groups)[i := g];
    } else {
      assert Init(groups[i := g]) == Init(groups);
    }
  }

  lemma {:induction false} NoneWithKey(of: Point -> string, points: seq<Point>, key: string)
    requires forall p :: p in points ==> of(p) != key
    ensures WithKey(of, points, key) == []
  {
    if points != [] { NoneWithKey(of, Init(points), key); }
  }

  lemma {:induction false} OneMoreWithKey(of: Point -> string, points: seq<Point>, p: Point, key: string)
    ensures WithKey(of, points + [p], key) == WithKey(of, points, key) + (if of(p) == key then [p] else [])
  {
    assert Init(points + [p]) == points;
  }

  lemma {:induction false} NewGroup(of: Point -> string, groups: seq<Group>, before: seq<Point>, p: Point)
    requires Partition(of, groups, before) && GroupIndex(groups, of(p)) == |groups|
    ensures Partition(of, groups + [Group(of(p), [p])], before + [p])
  {
    var after, stale := groups + [Group(of(p), [p])], before + [p];
    forall q | q in before ensures of(q) != of(p) {
      assert groups[GroupIndex(groups, of(q))].key == of(q);
    }
    NoneWithKey(of, before, of(p));
    forall i | 0 <= i < |after| ensures after[i].points == WithKey(of, stale, after[i].key) && after[i].points != [] {
      OneMoreWithKey(of, before, p, after[i].key);
    }
    forall q | q in stale ensures GroupIndex(after, of(q)) < |after| {
      var j := if q in before then GroupIndex(groups, of(q)) else |groups|;
      assert after[j].key == of(q);
    }
  }

  lemma {:induction false} OldGroup(of: Point -> string, groups: seq<Group>, before: seq<Point>, p: Point, k: nat)
    requires Partition(of, groups, before) && k == GroupIndex(groups, of(p)) < |groups|
    ensures Partition(of, groups[k := groups[k].(points := groups[k].points + [p])], before + [p])
  {
    var after, stale := groups[k := groups[k].(points := groups[k].points + [p])], before + [p];
    assert forall i :: 0 <= i < |after| ==> after[i].key == groups[i].key;
    forall i | 0 <= i < |after| ensures after[i].points == WithKey(of, stale, after[i].key) && after[i].points != [] {
      OneMoreWithKey(of, before, p, after[i].key);
    }
    forall q | q in stale ensures GroupIndex(after, of(q)) < |after| {
      var j := if q in before then GroupIndex(groups, of(q)) else k;
      assert after[j].key == of(q);
    }
  }

  lemma {:induction false} GroupsPartition(of: Point -> string, stale: seq<Point>)
    ensures Partition(of, GroupsOf(of, stale), stale) && Sizes(GroupsOf(of, stale)) == |stale|
  {
    if stale != [] {
      var before, p := Init(stale), Last(stale);
      assert before + [p] == stale;
      GroupsPartition(of, before);
      var groups := GroupsOf(of, before);
      var k := GroupIndex(groups, of(p));
      if k == |groups| {
        NewGroup(of, groups, before, p);
        assert Init(groups + [Group(of(p), [p])]) == groups;
      } else {
        OldGroup(of, groups, before, p, k);
        SizesOfUpdate(groups, k, groups[k].(points := groups[k].points + [p]));
      }
    }
  }

  // ---------------------------------------------------------------- re-embedding a group

  /** What the i-th group's embed_many and upsert do; None is an exception. */
  datatype World = World(embed: nat -> seq<string> -> Option<seq<Vector>>, upsertFails: nat -> bool)

  /** embed_many answers with one vector per text. */
  ghost predicate OnePerText(w: World) {
    forall i: nat, texts :: w.embed(i)(texts).Some? ==> |w.embed(i)(texts).value| == |texts|
  }

  /** ... and with this model's vectors. */
  ghost predicate Faithful(w: World, model: string -> Vector) {
    forall i: nat, texts :: w.embed(i)(texts).Some? ==> w.embed(i)(texts).value == E.Answer(model, texts)
  }

  datatype Outcome = Skipped | Failed | Done(vectors: seq<Vector>)

  function Texts(points: seq<Point>): seq<string> {
    seq(|points|, i requires 0 <= i < |points| => Field(points[i].payload, TEXT))
  }

  predicate AnyText(texts: seq<string>) {
    exists i :: 0 <= i < |texts| && texts[i] != ""
  }

  function OutcomeOf(w: World, i: nat, g: Group): Outcome {
    var texts := Texts(g.points);
    if !AnyText(texts) then Skipped
    else
      var vectors := w.embed(i)(texts);
      if vectors.None? || w.upsertFails(i) then Failed else Done(vectors.value)
  }

  /** The same id, the payload with the new version, the new vector. */
  function Batch(points: seq<Point>, vectors: seq<Vector>, target: string): seq<Point> {
    var n := if |points| <= |vectors| then |points| else |vectors|;
    seq(n, i requires 0 <= i < n => Point(points[i].id, vectors[i], points[i].payload[VERSION := target]))
  }

  /** The store after the first k groups. */
  function AfterGroups(points: seq<Point>, w: World, groups: seq<Group>, k: nat, target: string): seq<Point>
    requires k <= |groups|
  {
    if k == 0 then points
    else
      var before, outcome := AfterGroups(points, w, groups, k - 1, target), OutcomeOf(w, k - 1, groups[k - 1]);
      if outcome.Done? then UpsertAll(before, Batch(groups[k - 1].points, outcome.vectors, target)) else before
  }

  datatype Kind = SKIPPED | FAILED | DONE

  function KindOf(o: Outcome): Kind {
    match o
    case Skipped => SKIPPED
    case Failed => FAILED
    case Done(_) => DONE
  }

  /** Points in the groups of a kind, and the number of such groups. */
  function PointsIn(w: World, groups: seq<Group>, k: nat, kind: Kind): nat
    requires k <= |groups|
  {
    if k == 0 then 0
    else
      PointsIn(w, groups, k - 1, kind)
      + (if KindOf(OutcomeOf(w, k - 1, groups[k - 1])) == kind then |groups[k - 1].points| else 0)
  }

  function GroupsIn(w: World, groups: seq<Group>, k: nat, kind: Kind): nat
    requires k <= |groups|
  {
    if k == 0 then 0
    else GroupsIn(w, groups, k - 1, kind) + (if KindOf(OutcomeOf(w, k - 1, groups[k - 1])) == kind then 1 else 0)
  }

  datatype Status = UpToDate | Completed | CompletedWithErrors

  datatype Response = Response(found: nat, reEmbedded: nat, errors: nat, status: Status)

  function Key(): Point -> string {
    (p: Point) => KeyOf(p)
  }

  function GroupsFor(points: seq<Point>, target: string): seq<Group> {
    GroupsOf(Key(), Matching(points, StaleFilter(target)))
  }

  function ResponseFor(points: seq<Point>, w: World, target: string): Response {
    var stale, groups := Matching(points, StaleFilter(target)), GroupsFor(points, target);
    if stale == [] then Response(0, 0, 0, UpToDate)
    else
      var errors := GroupsIn(w, groups, |groups|, FAILED);
      var status := if errors == 0 then Completed else CompletedWithErrors;
      Response(|stale|, PointsIn(w, groups, |groups|, DONE), errors, status)
  }

  function Migrated(points: seq<Point>, w: World, target: string): seq<Point> {
    AfterGroups(points, w, GroupsFor(points, target), |GroupsFor(points, target)|, target)
  }

  /** Store and counters after k groups. */
  ghost predicate Reached(before: seq<Point>, w: World, groups: seq<Group>, k: nat, target: string,
                          points: seq<Point>, reEmbedded: nat, errors: nat)
  {
    && k <= |groups| && points == AfterGroups(before, w, groups, k, target)
    && reEmbedded == PointsIn(w, groups, k, DONE) && errors == GroupsIn(w, groups, k, FAILED)
  }

  lemma {:induction false} ReachedNext(before: seq<Point>, w: World, groups: seq<Group>, k: nat, target: string,
                                       now: seq<Point>, after: seq<Point>, reEmbedded: nat, errors: nat)
    requires k < |groups| && Reached(before, w, groups, k, target, now, reEmbedded, errors)
    requires var outcome := OutcomeOf(w, k, groups[k]);
      after == if outcome.Done? then UpsertAll(now, Batch(groups[k].points, outcome.vectors, target)) else now
    ensures var kind := KindOf(OutcomeOf(w, k, groups[k]));
      Reached(before, w, groups, k + 1, target, after,
              reEmbedded + (if kind == DONE then |groups[k].points| else 0), errors + (if kind == FAILED then 1 else 0))
  {
  }

  class MigrationService {
    const store: VectorStore

    constructor (store: VectorStore)
      ensures this.store == store
    {
      this.store := store;
    }

    method GroupByDocument(stale: seq<Point>) returns (groups: seq<Group>)
      ensures groups == GroupsOf(Key(), stale)
    {
      groups := [];
      for k := 0 to |stale|
        invariant groups == GroupsOf(Key(), stale[..k])
      {
        assert Init(stale[..k + 1]) == stale[..k];
        groups := AddTo(Key(), groups, stale[k]);
      }
      assert stale[..|stale|] == stale;
    }

    /** One group: re-embed, rebuild the payloads, upsert under the same ids. */
    method ReEmbed(w: World, i: nat, g: Group, target: string) returns (kind: Kind)
      modifies store
      ensures kind == KindOf(OutcomeOf(w, i, g))
      ensures store.points == if OutcomeOf(w, i, g).Done?
                              then UpsertAll(old(store.points), Batch(g.points, OutcomeOf(w, i, g).vectors, target))
                              else old(store.points)
    {
      var texts := Texts(g.points);
      if !AnyText(texts) { return SKIPPED; }
      var vectors := w.embed(i)(texts);
      if vectors.None? { return FAILED; }
      if w.upsertFails(i) { return FAILED; }
      store.Upsert(Batch(g.points, vectors.value, target));
      kind := DONE;
    }

    /** Group by group; a failed group does not stop the others. */
    method ReEmbedAll(w: World, groups: seq<Group>, target: string) returns (reEmbedded: nat, errors: nat)
      modifies store
      ensures store.points == AfterGroups(old(store.points), w, groups, |groups|, target)
      ensures reEmbedded == PointsIn(w, groups, |groups|, DONE) && errors == GroupsIn(w, groups, |groups|, FAILED)
    {
      reEmbedded, errors := 0, 0;
      ghost var before := store.points;
      for k := 0 to |groups|
        invariant Reached(before, w, groups, k, target, store.points, reEmbedded, errors)
      {
        ghost var now := store.points;
        var kind := ReEmbed(w, k, groups[k], target);
        ReachedNext(before, w, groups, k, target, now, store.points, reEmbedded, errors);
        if kind == DONE { reEmbedded := reEmbedded + |groups[k].points|; }
        if kind == FAILED { errors := errors + 1; }
      }
    }

    method RunMigration(w: World, target: string, batchSize: nat) returns (r: Response)
      requires store.Valid() && batchSize > 0
      modifies store
      ensures store.points == Migrated(old(store.points), w, target)
      ensures r == ResponseFor(old(store.points), w, target)
    {
      var stale := store.ScrollStaleChunks(target, batchSize);
      if stale == [] { return Response(0, 0, 0, UpToDate); }
      var groups := GroupByDocument(stale);
      var reEmbedded, errors := ReEmbedAll(w, groups, target);
      r := Response(|stale|, reEmbedded, errors, if errors == 0 then Completed else CompletedWithErrors);
    }
  }

  // ---------------------------------------------------------------- point by point

  lemma {:induction false} MatchingMembers(points: seq<Point>, filter: Point -> bool, p: Point)
    ensures p in Matching(points, filter) <==> p in points && filter(p)
  {
    if points != [] { MatchingMembers(points[1..], filter, p); }
  }

  lemma {:induction false} MatchingKeepsDistinct(points: seq<Point>, filter: Point -> bool)
    requires DistinctIds(points)
    ensures DistinctIds(Matching(points, filter))
  {
    if points != [] {
      var rest := points[1..];
      assert forall i :: 0 < i < |points| ==> points[i] == rest[i - 1];
      MatchingKeepsDistinct(rest, filter);
      forall q | q in Matching(rest, filter) ensures q.id != points[0].id {
        MatchingMembers(rest, filter, q);
      }
    }
  }

  lemma {:induction false} WithKeyMembers(of: Point -> string, points: seq<Point>, key: string, p: Point)
    ensures p in WithKey(of, points, key) <==> p in points && of(p) == key
  {
    if points != [] { WithKeyMembers(of, Init(points), key, p); }
  }

  lemma {:induction false} WithKeyKeepsDistinct(of: Point -> string, points: seq<Point>, key: string)
    requires DistinctIds(points)
    ensures DistinctIds(WithKey(of, points, key))
  {
    if points != [] {
      WithKeyKeepsDistinct(of, Init(points), key);
      forall q | q in WithKey(of, Init(points), key) ensures q.id != Last(points).id {
        WithKeyMembers(of, Init(points), key, q);
        var i :| 0 <= i < |points| - 1 && Init(points)[i] == q;
        assert points[i].id != points[|points| - 1].id;
      }
    }
  }

  /** The same point under the new version with this vector. */
  predicate Renewed(p: Point, q: Point, target: string, vector: Vector) {
    q == Point(p.id, vector, p.payload[VERSION := target])
  }

  /** The group's vectors, if it has some, are these, point by point. */
  ghost predicate GivesGroup(w: World, i: nat, g: Group, vec: Point -> Vector) {
    var outcome := OutcomeOf(w, i, g);
    outcome.Done? ==>
      |outcome.vectors| == |g.points| && forall j :: 0 <= j < |g.points| ==> outcome.vectors[j] == vec(g.points[j])
  }

  ghost predicate Gives(w: World, groups: seq<Group>, vec: Point -> Vector) {
    forall i :: 0 <= i < |groups| ==> GivesGroup(w, i, groups[i], vec)
  }

  /** The group of this index was re-embedded. */
  predicate Succeeds(w: World, groups: seq<Group>, g: nat) {
    g < |groups| && OutcomeOf(w, g, groups[g]).Done?
  }

  /** The store after k groups, one point at a time. */
  ghost predicate Progress(points: seq<Point>, w: World, groups: seq<Group>, k: nat, target: string,
                           vec: Point -> Vector, after: seq<Point>)
  {
    && |after| == |points|
    && (forall i :: 0 <= i < |points| ==>
          var g := GroupIndex(groups, KeyOf(points[i]));
          if Stale(points[i], target) && g < k && Succeeds(w, groups, g)
          then Renewed(points[i], after[i], target, vec(points[i]))
          else after[i] == points[i])
  }

  /** A group holds the stale points of its key. */
  lemma {:induction false} GroupMembers(points: seq<Point>, target: string, k: nat, p: Point)
    requires k < |GroupsFor(points, target)|
    ensures var g := GroupsFor(points, target)[k];
      p in g.points <==> p in points && Stale(p, target) && KeyOf(p) == g.key
  {
    var stale, g := Matching(points, StaleFilter(target)), GroupsFor(points, target)[k];
    GroupsPartition(Key(), stale);
    WithKeyMembers(Key(), stale, g.key, p);
    MatchingMembers(points, StaleFilter(target), p);
  }

  lemma {:induction false} GroupKeepsDistinct(points: seq<Point>, target: string, k: nat)
    requires DistinctIds(points) && k < |GroupsFor(points, target)|
    ensures DistinctIds(GroupsFor(points, target)[k].points)
  {
    var stale := Matching(points, StaleFilter(target));
    GroupsPartition(Key(), stale);
    MatchingKeepsDistinct(points, StaleFilter(target));
    WithKeyKeepsDistinct(Key(), stale, GroupsFor(points, target)[k].key);
  }

  lemma {:induction false} IndexOfGroup(points: seq<Point>, target: string, k: nat, key: string)
    requires k < |GroupsFor(points, target)|
    ensures GroupIndex(GroupsFor(points, target), key) == k <==> key == GroupsFor(points, target)[k].key
  {
    GroupsPartition(Key(), Matching(points, StaleFilter(target)));
    var groups := GroupsFor(points, target);
    assert DistinctGroups(groups);
    var i := GroupIndex(groups, key);
    assert i < k ==> groups[i].key != groups[k].key;
  }

  /** The batch carries every point of its group, re-embedded. */
  ghost predicate BatchFits(members: seq<Point>, batch: seq<Point>, target: string, vec: Point -> Vector)
  {
    |batch| == |members| && forall j :: 0 <= j < |members| ==> Renewed(members[j], batch[j], target, vec(members[j]))
  }

  lemma BatchOfGroup(w: World, i: nat, g: Group, target: string, vec: Point -> Vector)
    requires GivesGroup(w, i, g, vec) && OutcomeOf(w, i, g).Done?
    ensures BatchFits(g.points, Batch(g.points, OutcomeOf(w, i, g).vectors, target), target, vec)
  {
  }

  lemma SameIdSamePoint(points: seq<Point>, p: Point, q: Point)
    requires DistinctIds(points) && p in points && q in points && p.id == q.id
    ensures p == q
  {
    var i :| 0 <= i < |points| && points[i] == p;
    var j :| 0 <= j < |points| && points[j] == q;
  }

  /** Upserting a group's batch re-embeds its members and nothing else. */
  lemma {:induction false} UpsertGroup(points: seq<Point>, now: seq<Point>, members: seq<Point>, batch: seq<Point>,
                                       target: string, vec: Point -> Vector)
    requires DistinctIds(points) && |now| == |points| && forall i :: 0 <= i < |points| ==> now[i].id == points[i].id
    requires DistinctIds(members) && (forall m :: m in members ==> m in points)
    requires BatchFits(members, batch, target, vec)
    ensures var after := UpsertAll(now, batch);
      && |after| == |points|
      && forall i :: 0 <= i < |points| ==>
           if points[i] in members then Renewed(points[i], after[i], target, vec(points[i])) else after[i] == now[i]
  {
    forall i, j | 0 <= i < j < |batch| ensures batch[i].id != batch[j].id {
      assert members[i].id != members[j].id;
      assert Renewed(members[i], batch[i], target, vec(members[i]));
      assert Renewed(members[j], batch[j], target, vec(members[j]));
    }
    forall b | b in batch ensures IndexOf(now, b.id) < |now| {
      var j :| 0 <= j < |batch| && batch[j] == b;
      assert Renewed(members[j], b, target, vec(members[j])) && members[j] in points;
      var i :| 0 <= i < |points| && points[i] == members[j];
      assert now[i].id == b.id;
    }
    UpsertInPlace(now, batch);
    var after := UpsertAll(now, batch);
    forall i | 0 <= i < |points|
      ensures if points[i] in members then Renewed(points[i], after[i], target, vec(points[i]))
              else after[i] == now[i]
    {
      if points[i] in members {
        var j :| 0 <= j < |members| && members[j] == points[i];
        assert Renewed(members[j], batch[j], target, vec(members[j]));
        assert batch[j] in batch && batch[j].id == now[i].id;
      } else if after[i] in batch {
        var j :| 0 <= j < |batch| && batch[j] == after[i];
        assert Renewed(members[j], batch[j], target, vec(members[j])) && members[j] in members;
        SameIdSamePoint(points, members[j], points[i]);
      }
    }
  }

  lemma {:induction false} OneMoreGroup(points: seq<Point>, w: World, k: nat, target: string, vec: Point -> Vector,
                                        now: seq<Point>)
    requires DistinctIds(points) && Gives(w, GroupsFor(points, target), vec)
    requires k < |GroupsFor(points, target)| && Succeeds(w, GroupsFor(points, target), k)
    requires Progress(points, w, GroupsFor(points, target), k, target, vec, now)
    ensures var groups := GroupsFor(points, target);
      Progress(points, w, groups, k + 1, target, vec,
               UpsertAll(now, Batch(groups[k].points, OutcomeOf(w, k, groups[k]).vectors, target)))
  {
    var groups := GroupsFor(points, target);
    var members := groups[k].points;
    GroupKeepsDistinct(points, target, k);
    forall m | m in members ensures m in points {
      GroupMembers(points, target, k, m);
    }
    BatchOfGroup(w, k, groups[k], target, vec);
    var batch := Batch(members, OutcomeOf(w, k, groups[k]).vectors, target);
    UpsertGroup(points, now, members, batch, target, vec);
    forall i | 0 <= i < |points|
      ensures points[i] in members <==> Stale(points[i], target) && GroupIndex(groups, KeyOf(points[i])) == k
    {
      GroupMembers(points, target, k, points[i]);
      IndexOfGroup(points, target, k, KeyOf(points[i]));
    }
  }

  lemma {:induction false} IdleGroup(points: seq<Point>, w: World, groups: seq<Group>, k: nat, target: string,
                                     vec: Point -> Vector, now: seq<Point>)
    requires Progress(points, w, groups, k, target, vec, now) && !Succeeds(w, groups, k)
    ensures Progress(points, w, groups, k + 1, target, vec, now)
  {
    forall i | 0 <= i < |points| && GroupIndex(groups, KeyOf(points[i])) == k ensures now[i] == points[i] {}
  }

  lemma {:induction false} AfterOneMore(points: seq<Point>, w: World, groups: seq<Group>, k: nat, target: string)
    requires k < |groups|
    ensures var now, outcome := AfterGroups(points, w, groups, k, target), OutcomeOf(w, k, groups[k]);
      AfterGroups(points, w, groups, k + 1, target)
      == if outcome.Done? then UpsertAll(now, Batch(groups[k].points, outcome.vectors, target)) else now
  {
  }

  lemma {:induction false} NextProgress(points: seq<Point>, w: World, k: nat, target: string, vec: Point -> Vector,
                                        now: seq<Point>, after: seq<Point>)
    requires DistinctIds(points) && Gives(w, GroupsFor(points, target), vec)
    requires k < |GroupsFor(points, target)|
    requires Progress(points, w, GroupsFor(points, target), k, target, vec, now)
    requires var g := GroupsFor(points, target)[k];
      after == if OutcomeOf(w, k, g).Done? then UpsertAll(now, Batch(g.points, OutcomeOf(w, k, g).vectors, target))
               else now
    ensures Progress(points, w, GroupsFor(points, target), k + 1, target, vec, after)
  {
    if Succeeds(w, GroupsFor(points, target), k) {
      OneMoreGroup(points, w, k, target, vec, now);
    } else {
      IdleGroup(points, w, GroupsFor(points, target), k, target, vec, now);
    }
  }

  lemma {:induction false} OneMoreProgress(points: seq<Point>, w: World, k: nat, target: string, vec: Point -> Vector)
    requires DistinctIds(points) && Gives(w, GroupsFor(points, target), vec) && k < |GroupsFor(points, target)|
    requires var groups := GroupsFor(points, target);
      Progress(points, w, groups, k, target, vec, AfterGroups(points, w, groups, k, target))
    ensures var groups := GroupsFor(points, target);
      Progress(points, w, groups, k + 1, target, vec, AfterGroups(points, w, groups, k + 1, target))
  {
    var groups := GroupsFor(points, target);
    var now, after := AfterGroups(points, w, groups, k, target), AfterGroups(points, w, groups, k + 1, target);
    AfterOneMore(points, w, groups, k, target);
    NextProgress(points, w, k, target, vec, now, after);
  }

  lemma {:induction false} NoProgressYet(points: seq<Point>, w: World, groups: seq<Group>, target: string,
                                         vec: Point -> Vector)
    ensures Progress(points, w, groups, 0, target, vec, AfterGroups(points, w, groups, 0, target))
  {
  }

  lemma {:induction false} GroupsProgress(points: seq<Point>, w: World, k: nat, target: string, vec: Point -> Vector)
    requires DistinctIds(points) && Gives(w, GroupsFor(points, target), vec) && k <= |GroupsFor(points, target)|
    ensures var groups := GroupsFor(points, target);
      Progress(points, w, groups, k, target, vec, AfterGroups(points, w, groups, k, target))
  {
    if k == 0 {
      NoProgressYet(points, w, GroupsFor(points, target), target, vec);
    } else {
      GroupsProgress(points, w, k - 1, target, vec);
      OneMoreProgress(points, w, k - 1, target, vec);
    }
  }

  // ---------------------------------------------------------------- what a migration does

  /** The point is stale and its group neither lacked text nor failed. */
  ghost predicate IsReEmbedded(points: seq<Point>, w: World, target: string, p: Point) {
    var groups := GroupsFor(points, target);
    Stale(p, target) && Succeeds(w, groups, GroupIndex(groups, KeyOf(p)))
  }

  /** What embed_many answered for the point, at its place in its group. */
  function VectorFor(points: seq<Point>, w: World, target: string, p: Point): Vector {
    var groups := GroupsFor(points, target);
    var g := GroupIndex(groups, KeyOf(p));
    if !Succeeds(w, groups, g) then []
    else
      var vectors, at := OutcomeOf(w, g, groups[g]).vectors, IndexOf(groups[g].points, p.id);
      if at < |vectors| then vectors[at] else []
  }

  /** Where a point of a group is found again. */
  lemma {:induction false} PlaceInGroup(points: seq<Point>, target: string, g: nat, j: nat)
    requires DistinctIds(points) && g < |GroupsFor(points, target)| && j < |GroupsFor(points, target)[g].points|
    ensures var groups := GroupsFor(points, target);
      GroupIndex(groups, KeyOf(groups[g].points[j])) == g && IndexOf(groups[g].points, groups[g].points[j].id) == j
  {
    var group := GroupsFor(points, target)[g];
    GroupMembers(points, target, g, group.points[j]);
    IndexOfGroup(points, target, g, KeyOf(group.points[j]));
    GroupKeepsDistinct(points, target, g);
  }

  /** Ids and every field but the version stay; a stale point gets the target version and the
      vector that embed_many answered for it, unless its group had no text or failed; every
      other point is untouched. */
  lemma {:induction false} MigrationVectors(points: seq<Point>, w: World, target: string)
    requires DistinctIds(points) && OnePerText(w)
    ensures var after := Migrated(points, w, target);
      && |after| == |points|
      && forall i :: 0 <= i < |points| ==>
           if IsReEmbedded(points, w, target, points[i])
           then Renewed(points[i], after[i], target, VectorFor(points, w, target, points[i]))
           else after[i] == points[i]
  {
    var groups, vec := GroupsFor(points, target), (p: Point) => VectorFor(points, w, target, p);
    forall g: nat | g < |groups| ensures GivesGroup(w, g, groups[g], vec) {
      if OutcomeOf(w, g, groups[g]).Done? {
        var texts := Texts(groups[g].points);
        assert w.embed(g)(texts) == Some(OutcomeOf(w, g, groups[g]).vectors);
        forall j: nat | j < |groups[g].points|
          ensures OutcomeOf(w, g, groups[g]).vectors[j] == vec(groups[g].points[j])
        {
          PlaceInGroup(points, target, g, j);
        }
      }
    }
    GroupsProgress(points, w, |groups|, target, vec);
  }

  /** A stale point has its place in some group. */
  lemma {:induction false} FindInGroup(points: seq<Point>, target: string, p: Point) returns (g: nat, j: nat)
    requires DistinctIds(points) && p in points && Stale(p, target)
    ensures var groups := GroupsFor(points, target);
      && g < |groups| && j < |groups[g].points| && groups[g].points[j] == p
      && GroupIndex(groups, KeyOf(p)) == g && IndexOf(groups[g].points, p.id) == j
  {
    StalePointsAreGrouped(points, target, p);
    var groups := GroupsFor(points, target);
    g := GroupIndex(groups, KeyOf(p));
    GroupMembers(points, target, g, p);
    j :| 0 <= j < |groups[g].points| && groups[g].points[j] == p;
    PlaceInGroup(points, target, g, j);
  }

  /** The same point, re-embedded. */
  ghost predicate ReEmbedded(p: Point, q: Point, target: string, model: string -> Vector, faithful: bool) {
    && q.id == p.id && q.payload == p.payload[VERSION := target]
    && (faithful ==> q.vector == model(Field(p.payload, TEXT)))
  }

  lemma {:induction false} FaithfulVectors(points: seq<Point>, w: World, target: string, model: string -> Vector,
                                           p: Point)
    requires DistinctIds(points) && Faithful(w, model) && p in points && IsReEmbedded(points, w, target, p)
    ensures VectorFor(points, w, target, p) == model(Field(p.payload, TEXT))
  {
    var g, j := FindInGroup(points, target, p);
    var group := GroupsFor(points, target)[g];
    var texts := Texts(group.points);
    assert w.embed(g)(texts) == Some(OutcomeOf(w, g, group).vectors);
    assert E.Answer(model, texts)[j] == model(texts[j]);
  }

  /** ... with one model behind embed_many, the embedding of its own text. */
  lemma {:induction false} MigrationPointByPoint(points: seq<Point>, w: World, target: string, model: string -> Vector,
                                                 faithful: bool)
    requires DistinctIds(points) && OnePerText(w) && (faithful ==> Faithful(w, model))
    ensures var after := Migrated(points, w, target);
      && |after| == |points|
      && forall i :: 0 <= i < |points| ==>
           && after[i].id == points[i].id
           && after[i].payload - {VERSION} == points[i].payload - {VERSION}
           && if IsReEmbedded(points, w, target, points[i])
              then ReEmbedded(points[i], after[i], target, model, faithful)
              else after[i] == points[i]
  {
    var after := Migrated(points, w, target);
    MigrationVectors(points, w, target);
    forall i | 0 <= i < |points|
      ensures after[i].payload - {VERSION} == points[i].payload - {VERSION}
      ensures IsReEmbedded(points, w, target, points[i]) ==>
        ReEmbedded(points[i], after[i], target, model, faithful)
    {
      if IsReEmbedded(points, w, target, points[i]) {
        assert Renewed(points[i], after[i], target, VectorFor(points, w, target, points[i]));
        if faithful { FaithfulVectors(points, w, target, model, points[i]); }
      }
    }
  }

  /** Points are grouped by the document they name; one that names none goes by its own id. */
  lemma GroupedByDocument(p: Point)
    ensures "document_id" in p.payload && p.payload["document_id"] != "" ==> KeyOf(p) == p.payload["document_id"]
    ensures "document_id" !in p.payload || p.payload["document_id"] == "" ==> KeyOf(p) == p.id
  {
  }

  /** A point is stale unless it carries exactly the target version; re-embedded, it carries it. */
  lemma StaleExactlyWhen(p: Point, version: string, vector: Vector)
    ensures Stale(p, version) <==> "embedding_version" !in p.payload || p.payload["embedding_version"] != version
    ensures var q := Batch([p], [vector], version);
      |q| == 1 && q[0] == Point(p.id, vector, p.payload["embedding_version" := version]) && !Stale(q[0], version)
  {
  }

  /** The point carries some text. */
  predicate HasText(p: Point) {
    "text" in p.payload && p.payload["text"] != ""
  }

  /** A group is skipped exactly when none of its points has text; otherwise it fails exactly when
      the embedding or the upsert does. */
  lemma OutcomeExactlyWhen(w: World, i: nat, g: Group)
    ensures var o, vectors := OutcomeOf(w, i, g), w.embed(i)(Texts(g.points));
      && (o == Skipped <==> forall p :: p in g.points ==> !HasText(p))
      && (o == Failed <==> o != Skipped && (vectors == None || w.upsertFails(i)))
      && (o.Done? ==> vectors == Some(o.vectors))
  {
    var texts := Texts(g.points);
    if AnyText(texts) {
      var j :| 0 <= j < |texts| && texts[j] != "";
      assert HasText(g.points[j]) && g.points[j] in g.points;
    } else {
      forall p | p in g.points ensures !HasText(p) {
        var j :| 0 <= j < |g.points| && g.points[j] == p;
        assert texts[j] == "";
      }
    }
  }

  /** The groups among the first k that failed. */
  function FailedGroups(w: World, groups: seq<Group>, k: nat): set<nat>
    requires k <= |groups|
  {
    set i: nat | i < k && OutcomeOf(w, i, groups[i]).Failed?
  }

  predicate Fails(w: World, groups: seq<Group>, i: nat)
    requires i < |groups|
  {
    OutcomeOf(w, i, groups[i]).Failed?
  }

  lemma OneMoreFailedGroup(w: World, groups: seq<Group>, k: nat)
    requires 0 < k <= |groups|
    ensures FailedGroups(w, groups, k)
         == FailedGroups(w, groups, k - 1) + (if Fails(w, groups, k - 1) then {k - 1} else {})
    ensures k - 1 !in FailedGroups(w, groups, k - 1)
  {
  }

  lemma OneMoreFailure(w: World, groups: seq<Group>, k: nat)
    requires 0 < k <= |groups|
    ensures GroupsIn(w, groups, k, FAILED)
         == GroupsIn(w, groups, k - 1, FAILED) + (if Fails(w, groups, k - 1) then 1 else 0)
  {
  }

  lemma {:induction false} FailuresAreCounted(w: World, groups: seq<Group>, k: nat)
    requires k <= |groups|
    ensures GroupsIn(w, groups, k, FAILED) == |FailedGroups(w, groups, k)|
  {
    if k > 0 {
      FailuresAreCounted(w, groups, k - 1);
      OneMoreFailure(w, groups, k);
      OneMoreFailedGroup(w, groups, k);
    } else {
      assert FailedGroups(w, groups, k) == {};
    }
  }

  /** The stale points of re-embedded groups among the first k. */
  function DonePoints(w: World, groups: seq<Group>, k: nat): seq<Point>
    requires k <= |groups|
  {
    if k == 0 then []
    else DonePoints(w, groups, k - 1) + if OutcomeOf(w, k - 1, groups[k - 1]).Done? then groups[k - 1].points else []
  }

  lemma {:induction false} DonePointsAreCounted(w: World, groups: seq<Group>, k: nat)
    requires k <= |groups|
    ensures PointsIn(w, groups, k, DONE) == |DonePoints(w, groups, k)|
  {
    if k > 0 { DonePointsAreCounted(w, groups, k - 1); }
  }

  /** The response: the points of the re-embedded groups, the number of failed groups, and the
      status that goes with them. */
  lemma {:induction false} ResponseMeans(points: seq<Point>, w: World, target: string)
    ensures var groups, r := GroupsFor(points, target), ResponseFor(points, w, target);
      && r.reEmbedded == |DonePoints(w, groups, |groups|)|
      && r.errors == |FailedGroups(w, groups, |groups|)|
      && (r.status == UpToDate <==> forall i :: 0 <= i < |points| ==> !Stale(points[i], target))
      && (r.status == CompletedWithErrors <==> exists i :: 0 <= i < |groups| && OutcomeOf(w, i, groups[i]).Failed?)
  {
    var stale, groups := Matching(points, StaleFilter(target)), GroupsFor(points, target);
    FailuresAreCounted(w, groups, |groups|);
    DonePointsAreCounted(w, groups, |groups|);
    NoneMatches(points, StaleFilter(target));
    if stale == [] { assert groups == []; }
    var failed := FailedGroups(w, groups, |groups|);
    if i: nat :| i < |groups| && OutcomeOf(w, i, groups[i]).Failed? {
      assert i in failed;
    } else {
      assert forall i :: i !in failed;
    }
  }

  lemma {:induction false} KindsAddUp(w: World, groups: seq<Group>, k: nat)
    requires k <= |groups|
    ensures PointsIn(w, groups, k, DONE) + PointsIn(w, groups, k, SKIPPED) + PointsIn(w, groups, k, FAILED)
         == Sizes(groups[..k])
    ensures GroupsIn(w, groups, k, DONE) + GroupsIn(w, groups, k, SKIPPED) + GroupsIn(w, groups, k, FAILED) == k
  {
    if k > 0 {
      KindsAddUp(w, groups, k - 1);
      assert Init(groups[..k]) == groups[..k - 1];
    }
  }

  /** The counts: every stale point was re-embedded, skipped or in a failed group. */
  lemma {:induction false} CountsAddUp(points: seq<Point>, w: World, target: string)
    ensures var groups, r := GroupsFor(points, target), ResponseFor(points, w, target);
      && r.found == |Matching(points, StaleFilter(target))|
      && r.found == r.reEmbedded + PointsIn(w, groups, |groups|, SKIPPED) + PointsIn(w, groups, |groups|, FAILED)
      && r.errors == GroupsIn(w, groups, |groups|, FAILED)
  {
    var stale, groups := Matching(points, StaleFilter(target)), GroupsFor(points, target);
    GroupsPartition(Key(), stale);
    KindsAddUp(w, groups, |groups|);
    assert groups[..|groups|] == groups;
    if stale == [] { assert groups == []; }
  }

  /** A point is stale after the run exactly when it was and its group was not re-embedded. */
  lemma {:induction false} StaleAfterwards(points: seq<Point>, w: World, target: string, i: nat)
    requires DistinctIds(points) && OnePerText(w) && i < |points|
    ensures i < |Migrated(points, w, target)|
    ensures Stale(Migrated(points, w, target)[i], target)
      <==> Stale(points[i], target) && !IsReEmbedded(points, w, target, points[i])
  {
    MigrationPointByPoint(points, w, target, (t: string) => [], false);
  }

  lemma {:induction false} NoneMatches(points: seq<Point>, filter: Point -> bool)
    ensures Matching(points, filter) == [] <==> forall i :: 0 <= i < |points| ==> !filter(points[i])
  {
    if Matching(points, filter) == [] {
      forall i | 0 <= i < |points| ensures !filter(points[i]) {
        MatchingMembers(points, filter, points[i]);
      }
    } else {
      MatchingMembers(points, filter, Matching(points, filter)[0]);
    }
  }

  /** The next run for the same version reports "up to date" exactly when every group of this
      one was re-embedded: a group without text is skipped without an error and stays stale. */
  lemma {:induction false} RerunIsUpToDateIff(points: seq<Point>, w: World, again: World, target: string)
    requires DistinctIds(points) && OnePerText(w)
    ensures var groups := GroupsFor(points, target);
      ResponseFor(Migrated(points, w, target), again, target).status == UpToDate
      <==> forall g :: 0 <= g < |groups| ==> OutcomeOf(w, g, groups[g]).Done?
  {
    var groups, after := GroupsFor(points, target), Migrated(points, w, target);
    NoneMatches(after, StaleFilter(target));
    MigrationPointByPoint(points, w, target, (t: string) => [], false);
    if forall i :: 0 <= i < |after| ==> !Stale(after[i], target) {
      forall g: nat | g < |groups| ensures OutcomeOf(w, g, groups[g]).Done? {
        EveryGroupHasAPoint(points, w, target, g);
      }
    } else {
      var i :| 0 <= i < |after| && Stale(after[i], target);
      StaleAfterwards(points, w, target, i);
      StalePointsAreGrouped(points, target, points[i]);
    }
  }

  lemma {:induction false} StalePointsAreGrouped(points: seq<Point>, target: string, p: Point)
    requires p in points && Stale(p, target)
    ensures GroupIndex(GroupsFor(points, target), KeyOf(p)) < |GroupsFor(points, target)|
  {
    var stale := Matching(points, StaleFilter(target));
    GroupsPartition(Key(), stale);
    MatchingMembers(points, StaleFilter(target), p);
    assert Key()(p) == KeyOf(p);
  }

  /** A group that was not re-embedded leaves a stale point. */
  lemma {:induction false} EveryGroupHasAPoint(points: seq<Point>, w: World, target: string, g: nat)
    requires DistinctIds(points) && OnePerText(w) && g < |GroupsFor(points, target)|
    requires forall i :: 0 <= i < |Migrated(points, w, target)| ==> !Stale(Migrated(points, w, target)[i], target)
    ensures OutcomeOf(w, g, GroupsFor(points, target)[g]).Done?
  {
    var groups := GroupsFor(points, target);
    GroupsPartition(Key(), Matching(points, StaleFilter(target)));
    var p := groups[g].points[0];
    GroupMembers(points, target, g, p);
    var i :| 0 <= i < |points| && points[i] == p;
    StaleAfterwards(points, w, target, i);
    IndexOfGroup(points, target, g, KeyOf(p));
  }
}
