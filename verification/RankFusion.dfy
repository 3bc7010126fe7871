/** Reciprocal rank fusion and the choice of lists (rag/retriever.py); scores are exact. */
module RankFusion {
  import opened Basics

  datatype Doc = Doc(id: string, payload: string)

  /** One value of the accumulating dictionary, in insertion order. */
  datatype Entry = Entry(doc: Doc, score: real)

  datatype Hit = Hit(doc: Doc, rank: nat)

  const RRF_K := 60

  function Gain(rank: nat): real {
    1.0 / (RRF_K + rank) as real
  }

  lemma GainFalls(r: nat, s: nat)
    requires r < s
    ensures 0.0 < Gain(s) < Gain(r)
  {
    var a, b := (RRF_K + r) as real, (RRF_K + s) as real;
    assert Gain(r) * a == 1.0 && Gain(s) * b == 1.0;
  }

  // ---------------------------------------------------------------- accumulation

  /** Position of the entry for an id, or the length. */
  function Find(entries: seq<Entry>, id: string): (i: nat)
    ensures i <= |entries|
    ensures i < |entries| ==> entries[i].doc.id == id
    ensures forall j :: 0 <= j < i ==> entries[j].doc.id != id
  {
    PositionOf(entries, (x: Entry) => x.doc.id, id)
  }

  function AddHit(entries: seq<Entry>, h: Hit): seq<Entry> {
    var i := Find(entries, h.doc.id);
    if i == |entries| then entries + [Entry(h.doc, Gain(h.rank))]
    else entries[i := entries[i].(score := entries[i].score + Gain(h.rank))]
  }

  function Tally(hits: seq<Hit>): seq<Entry> {
    if hits == [] then [] else AddHit(Tally(Init(hits)), Last(hits))
  }

  function Hits(docs: seq<Doc>): seq<Hit> {
    seq(|docs|, i requires 0 <= i < |docs| => Hit(docs[i], i))
  }

  function AllHits(lists: seq<seq<Doc>>): seq<Hit> {
    if lists == [] then [] else AllHits(Init(lists)) + Hits(Last(lists))
  }

  // ---------------------------------------------------------------- what it means

  /** The fused score of an id: the sum of its gains. */
  function ScoreIn(hits: seq<Hit>, id: string): real {
    if hits == [] then 0.0
    else ScoreIn(Init(hits), id) + (if Last(hits).doc.id == id then Gain(Last(hits).rank) else 0.0)
  }

  function Score(lists: seq<seq<Doc>>, id: string): real {
    ScoreIn(AllHits(lists), id)
  }

  predicate Mentions(hits: seq<Hit>, id: string) {
    exists i :: 0 <= i < |hits| && hits[i].doc.id == id
  }

  /** The first document with each id, in order of first appearance. */
  function FirstDocs(hits: seq<Hit>): seq<Doc> {
    if hits == [] then []
    else if Mentions(Init(hits), Last(hits).doc.id) then FirstDocs(Init(hits))
    else FirstDocs(Init(hits)) + [Last(hits).doc]
  }

  predicate DistinctIds(docs: seq<Doc>) {
    forall i, j :: 0 <= i < j < |docs| ==> docs[i].id != docs[j].id
  }

  predicate HasId(docs: seq<Doc>, id: string) {
    exists i :: 0 <= i < |docs| && docs[i].id == id
  }

  lemma {:induction false} FirstDocsMentionAll(hits: seq<Hit>, id: string)
    ensures HasId(FirstDocs(hits), id) <==> Mentions(hits, id)
  {
    if hits != [] {
      var before, h := Init(hits), Last(hits);
      FirstDocsMentionAll(before, id);
      assert Mentions(hits, id) <==> Mentions(before, id) || h.doc.id == id by {
        if Mentions(before, id) { var i :| 0 <= i < |before| && before[i].doc.id == id; assert hits[i].doc.id == id; }
        if h.doc.id == id { assert hits[|hits| - 1].doc.id == id; }
      }
      if !Mentions(before, h.doc.id) {
        var docs := FirstDocs(before);
        if HasId(docs, id) { var i :| 0 <= i < |docs| && docs[i].id == id; assert FirstDocs(hits)[i].id == id; }
        if h.doc.id == id { assert FirstDocs(hits)[|docs|].id == id; }
      }
    }
  }

  lemma {:induction false} FirstDocsDistinct(hits: seq<Hit>)
    ensures DistinctIds(FirstDocs(hits))
  {
    if hits != [] {
      FirstDocsDistinct(Init(hits));
      FirstDocsMentionAll(Init(hits), Last(hits).doc.id);
    }
  }

  /** The dictionary holds each id once, in order of first appearance, with its score. */
  ghost predicate Accurate(entries: seq<Entry>, hits: seq<Hit>) {
    && |entries| == |FirstDocs(hits)|
    && (forall i :: 0 <= i < |entries| ==>
          entries[i].doc == FirstDocs(hits)[i] && entries[i].score == ScoreIn(hits, entries[i].doc.id))
  }

  lemma {:induction false} UnmentionedScoresZero(hits: seq<Hit>, id: string)
    requires !Mentions(hits, id)
    ensures ScoreIn(hits, id) == 0.0
  {
    if hits != [] {
      assert hits[|hits| - 1].doc.id != id;
      assert forall i :: 0 <= i < |Init(hits)| ==> hits[i] == Init(hits)[i];
      UnmentionedScoresZero(Init(hits), id);
    }
  }

  lemma {:induction false} TallyIsAccurate(hits: seq<Hit>)
    ensures Accurate(Tally(hits), hits)
  {
    if hits != [] {
      var before, h := Init(hits), Last(hits);
      TallyIsAccurate(before);
      FirstDocsMentionAll(before, h.doc.id);
      FirstDocsDistinct(before);
      var entries := Tally(before);
      var k := Find(entries, h.doc.id);
      if k == |entries| {
        assert !HasId(FirstDocs(before), h.doc.id) by {
          forall i | 0 <= i < |FirstDocs(before)| ensures FirstDocs(before)[i].id != h.doc.id {
            assert entries[i].doc.id != h.doc.id;
          }
        }
        UnmentionedScoresZero(before, h.doc.id);
      } else {
        assert FirstDocs(before)[k].id == h.doc.id;
        forall i | 0 <= i < |entries| && i != k ensures entries[i].doc.id != h.doc.id {
          assert FirstDocs(before)[i].id != FirstDocs(before)[k].id;
        }
      }
    }
  }

  // ---------------------------------------------------------------- sorting

  /** sorted(key=score, reverse=True) keeps equal scores in their order. */
  predicate Higher(a: Entry, b: Entry) {
    a.score > b.score
  }

  function Sorted(entries: seq<Entry>): seq<Entry> {
    StableSort(entries, Higher)
  }

  /** a stands before b in `entries`. */
  ghost predicate Earlier(entries: seq<Entry>, a: Entry, b: Entry) {
    exists i, j :: 0 <= i < j < |entries| && entries[i] == a && entries[j] == b
  }

  ghost predicate Outranks(entries: seq<Entry>, a: Entry, b: Entry) {
    a.score > b.score || (a.score == b.score && Earlier(entries, a, b))
  }

  ghost predicate InRankOrder(entries: seq<Entry>, out: seq<Entry>) {
    forall i, j :: 0 <= i < j < |out| ==> Outranks(entries, out[i], out[j])
  }

  lemma {:induction false} InsertKeepsAll(sorted: seq<Entry>, e: Entry)
    ensures multiset(Insert(sorted, e, Higher)) == multiset(sorted) + multiset{e}
  {
    if sorted != [] && Last(sorted).score < e.score {
      InsertKeepsAll(Init(sorted), e);
      assert sorted == Init(sorted) + [Last(sorted)];
    }
  }

  lemma {:induction false} InsertKeepsOrder(entries: seq<Entry>, sorted: seq<Entry>, e: Entry)
    requires InRankOrder(entries, sorted)
    requires forall x :: x in sorted ==> Earlier(entries, x, e)
    ensures InRankOrder(entries, Insert(sorted, e, Higher))
  {
    if sorted == [] || Last(sorted).score >= e.score {
      var out := sorted + [e];
      forall i, j | 0 <= i < j < |out| ensures Outranks(entries, out[i], out[j]) {
        if j == |sorted| {
          assert out[i] in sorted;
          assert i < |sorted| - 1 ==> Outranks(entries, sorted[i], sorted[|sorted| - 1]);
        } else {
          assert Outranks(entries, sorted[i], sorted[j]);
        }
      }
    } else {
      var rest, last := Init(sorted), Last(sorted);
      forall i, j | 0 <= i < j < |rest| ensures Outranks(entries, rest[i], rest[j]) {
        assert Outranks(entries, sorted[i], sorted[j]);
      }
      InsertKeepsOrder(entries, rest, e);
      InsertKeepsAll(rest, e);
      var out := Insert(rest, e, Higher);
      forall i | 0 <= i < |out| ensures Outranks(entries, out[i], last) {
        assert out[i] in multiset(out);
        if out[i] != e {
          assert out[i] in multiset(rest);
          var k :| 0 <= k < |rest| && rest[k] == out[i];
          assert Outranks(entries, sorted[k], sorted[|sorted| - 1]);
        }
      }
    }
  }

  lemma EarlierLasts(entries: seq<Entry>, more: seq<Entry>, a: Entry, b: Entry)
    requires Earlier(entries, a, b)
    ensures Earlier(entries + more, a, b)
  {
    var i, j :| 0 <= i < j < |entries| && entries[i] == a && entries[j] == b;
    assert (entries + more)[i] == a && (entries + more)[j] == b;
  }

  /** Sorting is stable and loses nothing. */
  lemma {:induction false} SortedIsStable(entries: seq<Entry>)
    ensures multiset(Sorted(entries)) == multiset(entries)
    ensures InRankOrder(entries, Sorted(entries))
  {
    if entries != [] {
      var before, e := Init(entries), Last(entries);
      assert entries == before + [e];
      SortedIsStable(before);
      var sorted := Sorted(before);
      forall i, j | 0 <= i < j < |sorted| ensures Outranks(entries, sorted[i], sorted[j]) {
        assert Outranks(before, sorted[i], sorted[j]);
        if sorted[i].score == sorted[j].score { EarlierLasts(before, [e], sorted[i], sorted[j]); }
      }
      forall x | x in sorted ensures Earlier(entries, x, e) {
        assert x in multiset(before);
        var i :| 0 <= i < |before| && before[i] == x;
        assert entries[i] == x && entries[|entries| - 1] == e;
      }
      InsertKeepsOrder(entries, sorted, e);
      InsertKeepsAll(sorted, e);
    }
  }

  function Docs(entries: seq<Entry>): seq<Doc> {
    seq(|entries|, i requires 0 <= i < |entries| => entries[i].doc)
  }

  function Merged(lists: seq<seq<Doc>>): seq<Doc> {
    Docs(Sorted(Tally(AllHits(lists))))
  }

  /** The body of the inner loop: create the entry if it is new, then add the gain. */
  method Accumulate(entries: seq<Entry>, doc: Doc, rank: nat) returns (more: seq<Entry>)
    ensures more == AddHit(entries, Hit(doc, rank))
  {
    more := entries;
    var k := Find(more, doc.id);
    if k == |more| { more := more + [Entry(doc, 0.0)]; }
    more := more[k := more[k].(score := more[k].score + Gain(rank))];
  }

  lemma {:induction false} OneMoreHit(before: seq<Hit>, docs: seq<Doc>, rank: nat)
    requires rank < |docs|
    ensures Tally(before + Hits(docs)[..rank + 1])
         == AddHit(Tally(before + Hits(docs)[..rank]), Hit(docs[rank], rank))
  {
    var hits := before + Hits(docs)[..rank + 1];
    assert Init(hits) == before + Hits(docs)[..rank] && Last(hits) == Hit(docs[rank], rank);
  }

  lemma OneMoreList(lists: seq<seq<Doc>>, i: nat)
    requires i < |lists|
    ensures AllHits(lists[..i + 1]) == AllHits(lists[..i]) + Hits(lists[i])[..|lists[i]|]
    ensures AllHits(lists[..i]) + Hits(lists[i])[..0] == AllHits(lists[..i])
  {
    assert Init(lists[..i + 1]) == lists[..i] && Hits(lists[i])[..|lists[i]|] == Hits(lists[i]);
  }

  /** _rrf_merge: nested loops over lists and ranks, then the sort. */
  method RrfMerge(lists: seq<seq<Doc>>) returns (merged: seq<Doc>)
    ensures merged == Merged(lists)
  {
    var entries: seq<Entry> := [];
    for i := 0 to |lists|
      invariant entries == Tally(AllHits(lists[..i]))
    {
      OneMoreList(lists, i);
      for rank := 0 to |lists[i]|
        invariant entries == Tally(AllHits(lists[..i]) + Hits(lists[i])[..rank])
      {
        OneMoreHit(AllHits(lists[..i]), lists[i], rank);
        entries := Accumulate(entries, lists[i][rank], rank);
      }
    }
    assert lists[..|lists|] == lists;
    return Docs(Sorted(entries));
  }

  // ---------------------------------------------------------------- properties of the merge

  /** Position of an id in a list of documents. */
  predicate IsAt(docs: seq<Doc>, k: int, id: string) {
    0 <= k < |docs| && docs[k].id == id
  }

  /** x precedes y in a list of documents. */
  ghost predicate Precedes(docs: seq<Doc>, x: string, y: string) {
    exists i, j :: i < j && IsAt(docs, i, x) && IsAt(docs, j, y)
  }

  lemma {:induction false} RankedPair(hits: seq<Hit>, entries: seq<Entry>, sorted: seq<Entry>, i: nat, j: nat)
    requires Accurate(entries, hits) && InRankOrder(entries, sorted)
    requires multiset(sorted) == multiset(entries) && i < j < |sorted|
    ensures var x, y := sorted[i].doc.id, sorted[j].doc.id;
      ScoreIn(hits, x) > ScoreIn(hits, y)
      || (ScoreIn(hits, x) == ScoreIn(hits, y) && Precedes(FirstDocs(hits), x, y))
  {
    var a, b := sorted[i], sorted[j];
    assert a in multiset(entries) && b in multiset(entries);
    assert Outranks(entries, a, b);
    if a.score == b.score {
      var k, l :| 0 <= k < l < |entries| && entries[k] == a && entries[l] == b;
      assert IsAt(FirstDocs(hits), k, a.doc.id) && IsAt(FirstDocs(hits), l, b.doc.id);
    }
  }

  lemma TwiceIsTwo<T>(s: seq<T>, i: nat, j: nat)
    requires i < j < |s| && s[i] == s[j]
    ensures multiset(s)[s[i]] >= 2
  {
    assert s == s[..j] + s[j..] && s[..j][i] == s[i] && s[j..][0] == s[j];
    assert s[i] in multiset(s[..j]) && s[i] in multiset(s[j..]);
  }

  lemma {:induction false} OnceIsOne(docs: seq<Doc>, d: Doc)
    requires DistinctIds(docs)
    ensures multiset(docs)[d] <= 1
  {
    if docs != [] {
      OnceIsOne(Init(docs), d);
      assert docs == Init(docs) + [Last(docs)];
      forall i | 0 <= i < |docs| - 1 ensures Init(docs)[i] != Last(docs) {
        assert docs[i].id != docs[|docs| - 1].id;
      }
    }
  }

  lemma PermutedIdsStayDistinct(docs: seq<Doc>, out: seq<Doc>)
    requires DistinctIds(docs) && multiset(out) == multiset(docs)
    ensures DistinctIds(out)
  {
    forall i, j | 0 <= i < j < |out| ensures out[i].id != out[j].id {
      assert out[i] in multiset(docs) && out[j] in multiset(docs);
      OnceIsOne(docs, out[i]);
      if out[i] == out[j] { TwiceIsTwo(out, i, j); }
    }
  }

  /** The merged list: every id once, with its first document; by exact score, ties by
      first appearance. */
  lemma {:induction false} MergeIsRankedUnion(lists: seq<seq<Doc>>)
    ensures var merged, hits := Merged(lists), AllHits(lists);
      && multiset(merged) == multiset(FirstDocs(hits))
      && DistinctIds(merged)
      && (forall id :: HasId(merged, id) <==> Mentions(hits, id))
      && (forall i, j :: 0 <= i < j < |merged| ==> Beats(lists, merged[i].id, merged[j].id))
  {
    var hits := AllHits(lists);
    var entries := Tally(hits);
    var sorted := Sorted(entries);
    var first := FirstDocs(hits);
    TallyIsAccurate(hits);
    SortedIsStable(entries);
    FirstDocsDistinct(hits);
    SameDocs(entries, sorted);
    assert Docs(entries) == first;
    PermutedIdsStayDistinct(first, Docs(sorted));
    forall i, j | 0 <= i < j < |sorted| ensures Beats(lists, sorted[i].doc.id, sorted[j].doc.id) {
      RankedPair(hits, entries, sorted, i, j);
    }
    forall id ensures HasId(Docs(sorted), id) <==> Mentions(hits, id) {
      FirstDocsMentionAll(hits, id);
      if HasId(Docs(sorted), id) { SameIds(Docs(sorted), first, id); }
      if HasId(first, id) { SameIds(first, Docs(sorted), id); }
    }
  }

  /** The order of the merged list. */
  ghost predicate Beats(lists: seq<seq<Doc>>, x: string, y: string) {
    Score(lists, x) > Score(lists, y)
    || (Score(lists, x) == Score(lists, y) && Precedes(FirstDocs(AllHits(lists)), x, y))
  }

  lemma SameIds(a: seq<Doc>, b: seq<Doc>, id: string)
    requires multiset(a) == multiset(b) && HasId(a, id)
    ensures HasId(b, id)
  {
    var i :| 0 <= i < |a| && a[i].id == id;
    assert a[i] in multiset(b);
  }

  lemma {:induction false} DocsOfInsert(sorted: seq<Entry>, e: Entry)
    ensures multiset(Docs(Insert(sorted, e, Higher))) == multiset(Docs(sorted)) + multiset{e.doc}
  {
    if sorted == [] || Last(sorted).score >= e.score {
      assert Docs(sorted + [e]) == Docs(sorted) + [e.doc];
    } else {
      DocsOfInsert(Init(sorted), e);
      assert Docs(Insert(sorted, e, Higher)) == Docs(Insert(Init(sorted), e, Higher)) + [Last(sorted).doc];
      assert Docs(sorted) == Docs(Init(sorted)) + [Last(sorted).doc];
    }
  }

  lemma {:induction false} SameDocs(entries: seq<Entry>, sorted: seq<Entry>)
    requires sorted == Sorted(entries)
    ensures multiset(Docs(sorted)) == multiset(Docs(entries))
  {
    if entries != [] {
      SameDocs(Init(entries), Sorted(Init(entries)));
      DocsOfInsert(Sorted(Init(entries)), Last(entries));
      assert Docs(entries) == Docs(Init(entries)) + [Last(entries).doc];
    }
  }

  lemma PrecedesOneWay(docs: seq<Doc>, x: string, y: string)
    requires DistinctIds(docs) && Precedes(docs, x, y)
    ensures !Precedes(docs, y, x) && x != y
  {
    var i, j :| i < j && IsAt(docs, i, x) && IsAt(docs, j, y);
    assert forall k :: IsAt(docs, k, x) ==> k == i;
    assert forall k :: IsAt(docs, k, y) ==> k == j;
  }

  /** Of two ids in the merged list, the one that beats the other stands first. */
  lemma {:induction false} WinnersComeFirst(lists: seq<seq<Doc>>, x: string, y: string)
    requires Mentions(AllHits(lists), x) && Mentions(AllHits(lists), y) && x != y && Beats(lists, x, y)
    ensures Precedes(Merged(lists), x, y) && !Precedes(Merged(lists), y, x)
  {
    var merged := Merged(lists);
    MergeIsRankedUnion(lists);
    FirstDocsDistinct(AllHits(lists));
    assert HasId(merged, x) && HasId(merged, y);
    var i :| 0 <= i < |merged| && merged[i].id == x;
    var j :| 0 <= j < |merged| && merged[j].id == y;
    if j < i {
      assert Beats(lists, merged[j].id, merged[i].id);
      PrecedesOneWay(FirstDocs(AllHits(lists)), x, y);
      assert false;
    }
    assert IsAt(merged, i, x) && IsAt(merged, j, y);
    PrecedesOneWay(merged, x, y);
  }

  // Scores list by list.

  lemma {:induction false} ScoreOfConcat(a: seq<Hit>, b: seq<Hit>, id: string)
    ensures ScoreIn(a + b, id) == ScoreIn(a, id) + ScoreIn(b, id)
    decreases |b|
  {
    if b == [] {
      assert a + b == a;
    } else {
      assert Init(a + b) == a + Init(b) && Last(a + b) == Last(b);
      ScoreOfConcat(a, Init(b), id);
    }
  }

  /** One list gives an id the gain of its rank, or nothing. */
  lemma {:induction false} ListScore(docs: seq<Doc>, id: string)
    requires DistinctIds(docs)
    ensures forall k :: IsAt(docs, k, id) ==> ScoreIn(Hits(docs), id) == Gain(k)
    ensures !HasId(docs, id) ==> ScoreIn(Hits(docs), id) == 0.0
  {
    if docs != [] {
      assert Init(Hits(docs)) == Hits(Init(docs));
      ListScore(Init(docs), id);
      assert forall k :: IsAt(Init(docs), k, id) ==> IsAt(docs, k, id);
      assert IsAt(docs, |docs| - 1, id) <==> Last(docs).id == id;
      forall k | IsAt(docs, k, id) ensures ScoreIn(Hits(docs), id) == Gain(k) {
        if k == |docs| - 1 {
          assert !HasId(Init(docs), id);
        } else {
          assert IsAt(Init(docs), k, id);
          assert docs[k].id != docs[|docs| - 1].id;
        }
      }
    }
  }

  lemma {:induction false} ScoreStep(lists: seq<seq<Doc>>, id: string)
    requires lists != []
    ensures Score(lists, id) == Score(Init(lists), id) + ScoreIn(Hits(Last(lists)), id)
  {
    ScoreOfConcat(AllHits(Init(lists)), Hits(Last(lists)), id);
  }

  ghost predicate AllDistinct(lists: seq<seq<Doc>>) {
    forall l :: l in lists ==> DistinctIds(l)
  }

  lemma {:induction false} GainOrNothing(docs: seq<Doc>, id: string)
    requires DistinctIds(docs)
    ensures 0.0 <= ScoreIn(Hits(docs), id) <= Gain(0)
    ensures HasId(docs, id) ==> ScoreIn(Hits(docs), id) > 0.0
  {
    ListScore(docs, id);
    if HasId(docs, id) {
      var k :| 0 <= k < |docs| && docs[k].id == id;
      assert IsAt(docs, k, id);
      if k > 0 { GainFalls(0, k); }
      GainFalls(k, k + 1);
    }
  }

  lemma {:induction false} AheadEverywhere(lists: seq<seq<Doc>>, x: string, y: string)
    requires AllDistinct(lists)
    requires forall l :: l in lists && HasId(l, y) ==> Precedes(l, x, y)
    ensures Score(lists, x) >= Score(lists, y)
    ensures (exists l :: l in lists && HasId(l, y)) ==> Score(lists, x) > Score(lists, y)
  {
    if lists != [] {
      var l := Last(lists);
      AheadEverywhere(Init(lists), x, y);
      ScoreStep(lists, x);
      ScoreStep(lists, y);
      GainOrNothing(l, x);
      ListScore(l, x);
      ListScore(l, y);
      if HasId(l, y) {
        var i, j :| i < j && IsAt(l, i, x) && IsAt(l, j, y);
        GainFalls(i, j);
      } else if exists k :: k in lists && HasId(k, y) {
        var k :| k in lists && HasId(k, y);
        assert k in Init(lists);
      }
    }
  }

  lemma {:induction false} FoundIsMentioned(lists: seq<seq<Doc>>, l: seq<Doc>, id: string)
    requires l in lists && HasId(l, id)
    ensures Mentions(AllHits(lists), id)
  {
    var before, hits := AllHits(Init(lists)), Hits(Last(lists));
    if l == Last(lists) {
      var k :| 0 <= k < |l| && l[k].id == id;
      assert (before + hits)[|before| + k] == hits[k];
    } else {
      FoundIsMentioned(Init(lists), l, id);
      var k :| 0 <= k < |before| && before[k].doc.id == id;
      assert (before + hits)[k] == before[k];
    }
  }

  /** A document ahead of another in every list that contains the other comes first. */
  lemma UnanimousOrderIsKept(lists: seq<seq<Doc>>, x: string, y: string)
    requires AllDistinct(lists)
    requires forall l :: l in lists && HasId(l, y) ==> Precedes(l, x, y)
    requires exists l :: l in lists && HasId(l, y)
    ensures Precedes(Merged(lists), x, y) && !Precedes(Merged(lists), y, x)
  {
    AheadEverywhere(lists, x, y);
    var l :| l in lists && HasId(l, y);
    var i, j :| i < j && IsAt(l, i, x) && IsAt(l, j, y);
    assert HasId(l, x);
    FoundIsMentioned(lists, l, x);
    FoundIsMentioned(lists, l, y);
    WinnersComeFirst(lists, x, y);
  }

  // ---------------------------------------------------------------- retrieve

  lemma {:induction false} DescendingStays(entries: seq<Entry>)
    requires forall i, j :: 0 <= i < j < |entries| ==> entries[i].score >= entries[j].score
    ensures Sorted(entries) == entries
  {
    if entries != [] {
      DescendingStays(Init(entries));
      assert |entries| > 1 ==> entries[|entries| - 2].score >= entries[|entries| - 1].score;
    }
  }

  lemma {:induction false} OneListIsItsFirstDocs(docs: seq<Doc>)
    requires DistinctIds(docs)
    ensures FirstDocs(Hits(docs)) == docs
  {
    if docs != [] {
      assert Init(Hits(docs)) == Hits(Init(docs));
      OneListIsItsFirstDocs(Init(docs));
      forall i | 0 <= i < |docs| - 1 ensures Hits(docs)[i].doc.id != Last(docs).id {
        assert docs[i].id != docs[|docs| - 1].id;
      }
    }
  }

  /** Merging a single list changes nothing. */
  lemma OneListIsUnchanged(docs: seq<Doc>)
    requires DistinctIds(docs)
    ensures Merged([docs]) == docs
  {
    assert Init([docs]) == [] && AllHits([docs]) == [] + Hits(docs) == Hits(docs);
    var entries := Tally(Hits(docs));
    TallyIsAccurate(Hits(docs));
    OneListIsItsFirstDocs(docs);
    forall i, j | 0 <= i < j < |entries| ensures entries[i].score >= entries[j].score {
      ListScore(docs, docs[i].id);
      ListScore(docs, docs[j].id);
      assert IsAt(docs, i, docs[i].id) && IsAt(docs, j, docs[j].id);
      GainFalls(i, j);
    }
    DescendingStays(entries);
    assert Docs(entries) == docs;
  }

  function ListsFor(dense: seq<Doc>, keyword: seq<Doc>, url: seq<Doc>): seq<seq<Doc>> {
    [dense] + (if keyword != [] then [keyword] else []) + (if url != [] then [url, url] else [])
  }

  function Take(docs: seq<Doc>, k: nat): seq<Doc> {
    if k < |docs| then docs[..k] else docs
  }

  /** The merging part of retrieve; the lists are what the three searches returned. */
  method Retrieve(dense: seq<Doc>, keyword: seq<Doc>, url: seq<Doc>, topK: nat) returns (docs: seq<Doc>)
    ensures keyword != [] || url != [] || DistinctIds(dense)
      ==> docs == Take(Merged(ListsFor(dense, keyword, url)), topK)
    ensures keyword == [] && url == [] ==> docs == Take(dense, topK)
  {
    var lists := [dense];
    if keyword != [] { lists := lists + [keyword]; }
    if url != [] { lists := lists + [url, url]; }
    assert lists == ListsFor(dense, keyword, url);
    if |lists| > 1 {
      docs := RrfMerge(lists);
    } else {
      if DistinctIds(dense) { OneListIsUnchanged(dense); }
      docs := dense;
    }
    docs := Take(docs, topK);
  }

  // The page boost: the page's own list counts twice.

  /** What is merged: the dense search, then the keyword search, then the page's documents
      twice; a search without results leaves no trace. */
  lemma {:induction false} EverythingIsMerged(dense: seq<Doc>, keyword: seq<Doc>, url: seq<Doc>)
    ensures AllHits(ListsFor(dense, keyword, url)) == Hits(dense) + Hits(keyword) + Hits(url) + Hits(url)
  {
    var lists := ListsFor(dense, keyword, url);
    var a, b := [dense], [dense] + (if keyword != [] then [keyword] else []);
    assert Init(a) == [] && AllHits(a) == Hits(dense);
    assert Hits([]) == [];
    if keyword == [] { assert b == a; } else { assert Init(b) == a; }
    assert AllHits(b) == Hits(dense) + Hits(keyword);
    if url == [] {
      assert lists == b;
    } else {
      assert Init(lists) == b + [url] && Init(b + [url]) == b;
    }
  }

  lemma TwiceAtRank(r: nat, rank: nat)
    ensures 2.0 * Gain(r) > Gain(rank) <==> r < 60 + 2 * rank
    ensures 2.0 * Gain(r) == Gain(rank) <==> r == 60 + 2 * rank
  {
    var a, b := (RRF_K + r) as real, (RRF_K + rank) as real;
    assert Gain(r) * a == 1.0 && Gain(rank) * b == 1.0;
    assert 2.0 * Gain(r) - Gain(rank) == (2.0 * b - a) / (a * b) by {
      assert (2.0 * Gain(r) - Gain(rank)) * (a * b) == 2.0 * (Gain(r) * a) * b - (Gain(rank) * b) * a;
    }
    QuotientSign(2.0 * b - a, a * b);
    assert a == 60.0 + r as real && b == 60.0 + rank as real;
  }

  lemma QuotientSign(x: real, y: real)
    requires y > 0.0
    ensures x / y > 0.0 <==> x > 0.0
    ensures x / y == 0.0 <==> x == 0.0
  {
    assert x / y * y == x;
  }

  predicate InAtMostOne(lists: seq<seq<Doc>>, id: string) {
    forall i, j :: 0 <= i < j < |lists| ==> !(HasId(lists[i], id) && HasId(lists[j], id))
  }

  lemma {:induction false} NowhereScoresZero(lists: seq<seq<Doc>>, id: string)
    requires AllDistinct(lists) && forall l :: l in lists ==> !HasId(l, id)
    ensures Score(lists, id) == 0.0
  {
    if lists != [] {
      NowhereScoresZero(Init(lists), id);
      ScoreStep(lists, id);
      ListScore(Last(lists), id);
    }
  }

  lemma NotInBoth(lists: seq<seq<Doc>>, id: string, i: nat, j: nat)
    requires InAtMostOne(lists, id) && i < j < |lists| && HasId(lists[j], id)
    ensures !HasId(lists[i], id)
  {
  }

  /** Found in one list only, a document has the gain of its rank there. */
  lemma {:induction false} OneListScore(lists: seq<seq<Doc>>, l: seq<Doc>, rank: nat, id: string)
    requires AllDistinct(lists) && InAtMostOne(lists, id) && l in lists && IsAt(l, rank, id)
    ensures Score(lists, id) == Gain(rank)
  {
    ScoreStep(lists, id);
    var at :| 0 <= at < |lists| && lists[at] == l;
    if HasId(Last(lists), id) {
      forall i | 0 <= i < |lists| - 1 ensures !HasId(lists[i], id) {
        NotInBoth(lists, id, i, |lists| - 1);
      }
      NowhereScoresZero(Init(lists), id);
      ListScore(l, id);
    } else {
      assert Init(lists)[at] == l;
      assert forall i :: 0 <= i < |lists| - 1 ==> Init(lists)[i] == lists[i];
      OneListScore(Init(lists), l, rank, id);
      ListScore(Last(lists), id);
    }
  }

  lemma {:induction false} ScoresAreNotNegative(lists: seq<seq<Doc>>, id: string)
    requires AllDistinct(lists)
    ensures Score(lists, id) >= 0.0
  {
    if lists != [] {
      ScoresAreNotNegative(Init(lists), id);
      ScoreStep(lists, id);
      GainOrNothing(Last(lists), id);
    }
  }

  lemma {:induction false} BoostedScore(base: seq<seq<Doc>>, url: seq<Doc>, id: string)
    ensures Score(base + [url, url], id) == Score(base, id) + 2.0 * ScoreIn(Hits(url), id)
  {
    var lists := base + [url, url];
    assert Init(lists) == base + [url] && Init(Init(lists)) == base;
    ScoreStep(lists, id);
    ScoreStep(Init(lists), id);
  }

  /** A document of the current page beats one that only one other search found, if its rank
      is below sixty and twice the other's. */
  lemma PageDocumentsWinAt(base: seq<seq<Doc>>, url: seq<Doc>, x: string, r: nat, l: seq<Doc>, rank: nat, y: string)
    requires AllDistinct(base) && DistinctIds(url) && IsAt(url, r, x) && r < 60 + 2 * rank
    requires !HasId(url, y) && InAtMostOne(base, y) && l in base && IsAt(l, rank, y)
    ensures Precedes(Merged(base + [url, url]), x, y)
  {
    var lists := base + [url, url];
    BoostedScore(base, url, x);
    BoostedScore(base, url, y);
    ListScore(url, x);
    ListScore(url, y);
    ScoresAreNotNegative(base, x);
    OneListScore(base, l, rank, y);
    TwiceAtRank(r, rank);
    assert url in lists && HasId(url, x) && l in lists && HasId(l, y);
    FoundIsMentioned(lists, url, x);
    FoundIsMentioned(lists, l, y);
    WinnersComeFirst(lists, x, y);
  }

  /** So at a rank below sixty it beats every such document. */
  lemma PageDocumentsWin(base: seq<seq<Doc>>, url: seq<Doc>, x: string, r: nat, y: string)
    requires AllDistinct(base) && DistinctIds(url) && IsAt(url, r, x) && r < 60
    requires !HasId(url, y) && InAtMostOne(base, y) && exists l :: l in base && HasId(l, y)
    ensures Precedes(Merged(base + [url, url]), x, y)
  {
    var l: seq<Doc> :| l in base && HasId(l, y);
    var rank :| 0 <= rank < |l| && l[rank].id == y;
    PageDocumentsWinAt(base, url, x, r, l, rank, y);
  }

  lemma {:induction false} AtLeastOneList(lists: seq<seq<Doc>>, l: seq<Doc>, id: string)
    requires AllDistinct(lists) && l in lists
    ensures Score(lists, id) >= ScoreIn(Hits(l), id)
  {
    ScoreStep(lists, id);
    GainOrNothing(Last(lists), id);
    ScoresAreNotNegative(Init(lists), id);
    if l != Last(lists) { AtLeastOneList(Init(lists), l, id); }
  }

  lemma {:induction false} FirstDocsGrow(a: seq<Hit>, b: seq<Hit>)
    ensures FirstDocs(a) <= FirstDocs(a + b)
    decreases |b|
  {
    if b == [] {
      assert a + b == a;
    } else {
      assert Init(a + b) == a + Init(b);
      FirstDocsGrow(a, Init(b));
    }
  }

  lemma {:induction false} UnfoundIsUnmentioned(lists: seq<seq<Doc>>, id: string)
    requires forall l :: l in lists ==> !HasId(l, id)
    ensures !Mentions(AllHits(lists), id)
  {
    if lists != [] {
      UnfoundIsUnmentioned(Init(lists), id);
      var before, hits := AllHits(Init(lists)), Hits(Last(lists));
      var all: seq<Hit> := before + hits;
      assert !HasId(Last(lists), id);
      forall k: nat | k < |all| ensures all[k].doc.id != id {
        if k < |before| {
          assert all[k] == before[k];
        } else {
          assert all[k] == hits[k - |before|] && hits[k - |before|].doc == Last(lists)[k - |before|];
        }
      }
    }
  }

  lemma {:induction false} MentionedFirst(a: seq<Hit>, b: seq<Hit>, y: string, x: string)
    requires Mentions(a, y) && !Mentions(a, x) && Mentions(a + b, x)
    ensures Precedes(FirstDocs(a + b), y, x)
  {
    FirstDocsGrow(a, b);
    FirstDocsMentionAll(a, y);
    FirstDocsMentionAll(a, x);
    FirstDocsMentionAll(a + b, x);
    var docs := FirstDocs(a + b);
    var i :| 0 <= i < |FirstDocs(a)| && FirstDocs(a)[i].id == y;
    var j :| 0 <= j < |docs| && docs[j].id == x;
    forall k | 0 <= k < |FirstDocs(a)| ensures docs[k].id != x {
      assert docs[k] == FirstDocs(a)[k];
    }
    assert IsAt(docs, i, y) && IsAt(docs, j, x);
  }

  lemma PageScoresLess(base: seq<seq<Doc>>, url: seq<Doc>, x: string, r: nat, l: seq<Doc>, rank: nat, y: string)
    requires AllDistinct(base) && DistinctIds(url) && IsAt(url, r, x) && r >= 60 + 2 * rank
    requires !HasId(url, y) && l in base && IsAt(l, rank, y)
    requires forall k :: k in base ==> !HasId(k, x)
    ensures Score(base + [url, url], x) <= Score(base + [url, url], y)
  {
    BoostedScore(base, url, x);
    BoostedScore(base, url, y);
    ListScore(url, x);
    ListScore(url, y);
    ListScore(l, y);
    NowhereScoresZero(base, x);
    AtLeastOneList(base, l, y);
    TwiceAtRank(r, rank);
  }

  /** From that rank on, the document of the other search wins. */
  lemma PageDocumentsLose(base: seq<seq<Doc>>, url: seq<Doc>, x: string, r: nat, l: seq<Doc>, rank: nat, y: string)
    requires AllDistinct(base) && DistinctIds(url) && IsAt(url, r, x) && r >= 60 + 2 * rank
    requires !HasId(url, y) && l in base && IsAt(l, rank, y)
    requires forall k :: k in base ==> !HasId(k, x)
    ensures var merged := Merged(base + [url, url]); Precedes(merged, y, x) && !Precedes(merged, x, y)
  {
    var lists := base + [url, url];
    assert url in lists && l in lists && HasId(url, x) && HasId(l, y);
    PageScoresLess(base, url, x, r, l, rank, y);
    FoundIsMentioned(base, l, y);
    UnfoundIsUnmentioned(base, x);
    FoundIsMentioned(lists, url, x);
    FoundIsMentioned(lists, l, y);
    assert Init(lists) == base + [url] && Init(Init(lists)) == base;
    assert AllHits(lists) == AllHits(base) + (Hits(url) + Hits(url));
    MentionedFirst(AllHits(base), Hits(url) + Hits(url), y, x);
    WinnersComeFirst(lists, y, x);
  }

  /** Exactly: against a document at some rank of one other search, a document found only on
      the page wins below sixty and twice that rank, and loses from there on. */
  lemma PageBoostIff(base: seq<seq<Doc>>, url: seq<Doc>, x: string, r: nat, l: seq<Doc>, rank: nat, y: string)
    requires AllDistinct(base) && DistinctIds(url) && IsAt(url, r, x)
    requires !HasId(url, y) && InAtMostOne(base, y) && l in base && IsAt(l, rank, y)
    requires forall k :: k in base ==> !HasId(k, x)
    ensures Precedes(Merged(base + [url, url]), x, y) <==> r < 60 + 2 * rank
  {
    if r < 60 + 2 * rank {
      PageDocumentsWinAt(base, url, x, r, l, rank, y);
    } else {
      PageDocumentsLose(base, url, x, r, l, rank, y);
    }
  }
}
