/** Cutting a document into overlapping chunks (rag/chunker.py). */
module Chunker {
  import opened Basics

  // ---------------------------------------------------------------- whitespace

  /** Every run of whitespace becomes one space. */
  function Collapse(t: string): string {
    if t == [] then []
    else if !IsSpace(Last(t)) then Collapse(Init(t)) + [Last(t)]
    else if |t| > 1 && IsSpace(t[|t| - 2]) then Collapse(Init(t))
    else Collapse(Init(t)) + " "
  }

  function StripLeft(t: string): string {
    if t != [] && IsSpace(t[0]) then StripLeft(t[1..]) else t
  }

  function StripRight(t: string): string {
    if t != [] && IsSpace(Last(t)) then StripRight(Init(t)) else t
  }

  function Strip(t: string): string {
    StripRight(StripLeft(t))
  }

  function Normalise(t: string): string {
    Strip(Collapse(t))
  }

  /** The maximal runs without whitespace, in order. */
  function Words(t: string): (words: seq<string>)
    ensures t != [] && !IsSpace(Last(t)) ==> words != []
  {
    if t == [] then []
    else if IsSpace(Last(t)) then Words(Init(t))
    else if |t| == 1 || IsSpace(t[|t| - 2]) then Words(Init(t)) + [[Last(t)]]
    else
      var before := Words(Init(t));
      Init(before) + [Last(before) + [Last(t)]]
  }

  predicate NoDoubleSpace(t: string) {
    forall i :: 0 < i < |t| ==> !(IsSpace(t[i - 1]) && IsSpace(t[i]))
  }

  /** Words separated by single spaces, nothing around them. */
  predicate Tidy(t: string) {
    NoDoubleSpace(t) && (t != [] ==> !IsSpace(t[0]) && !IsSpace(Last(t)))
  }

  /** How one more character changes the words. */
  lemma {:induction false} OneMoreCharacter(t: string, c: char)
    ensures IsSpace(c) ==> Words(t + [c]) == Words(t)
    ensures !IsSpace(c) && (t == [] || IsSpace(Last(t))) ==> Words(t + [c]) == Words(t) + [[c]]
    ensures !IsSpace(c) && t != [] && !IsSpace(Last(t))
      ==> Words(t + [c]) == Init(Words(t)) + [Last(Words(t)) + [c]]
  {
    assert Init(t + [c]) == t;
  }

  lemma {:induction false} CollapseIsTidyInside(t: string)
    ensures t != [] ==> Collapse(t) != [] && (IsSpace(Last(Collapse(t))) <==> IsSpace(Last(t)))
    ensures NoDoubleSpace(Collapse(t))
  {
    BlankIsSpace();
    if t != [] { CollapseIsTidyInside(Init(t)); }
  }

  lemma {:induction false} CollapseKeepsWords(t: string)
    ensures Words(Collapse(t)) == Words(t)
  {
    if t != [] {
      CollapseKeepsWords(Init(t));
      CollapseIsTidyInside(Init(t));
      OneMoreCharacter(Collapse(Init(t)), Last(t));
      BlankIsSpace();
      OneMoreCharacter(Collapse(Init(t)), ' ');
      OneMoreCharacter(Init(t), Last(t));
      assert Init(t) + [Last(t)] == t;
    }
  }

  /** Texts with the same words that go on alike keep the same words. */
  lemma {:induction false} SameWordsGoOn(t: string, u: string, c: char)
    requires Words(t) == Words(u)
    requires (t == [] || IsSpace(Last(t))) <==> (u == [] || IsSpace(Last(u)))
    ensures Words(t + [c]) == Words(u + [c])
  {
    OneMoreCharacter(t, c);
    OneMoreCharacter(u, c);
  }

  lemma TakeApart(c: char, t: string)
    ensures [c] + t == if t == [] then [c] else ([c] + Init(t)) + [Last(t)]
    ensures t != [] ==> Init(t) + [Last(t)] == t
  {
  }

  lemma {:induction false} LeadingSpace(space: char, t: string)
    requires IsSpace(space)
    ensures Words([space] + t) == Words(t)
  {
    TakeApart(space, t);
    if t == [] {
      assert Init([space]) == [];
    } else {
      LeadingSpace(space, Init(t));
      SameWordsGoOn([space] + Init(t), Init(t), Last(t));
    }
  }

  lemma {:induction false} StripLeftKeepsWords(t: string)
    ensures Words(StripLeft(t)) == Words(t)
    ensures NoDoubleSpace(t) ==> NoDoubleSpace(StripLeft(t))
    ensures StripLeft(t) != [] ==> !IsSpace(StripLeft(t)[0])
  {
    if t != [] && IsSpace(t[0]) {
      StripLeftKeepsWords(t[1..]);
      LeadingSpace(t[0], t[1..]);
      assert [t[0]] + t[1..] == t;
    }
  }

  lemma {:induction false} StripRightKeepsWords(t: string)
    ensures Words(StripRight(t)) == Words(t) && StripRight(t) <= t
    ensures StripRight(t) != [] ==> !IsSpace(Last(StripRight(t)))
  {
    if t != [] && IsSpace(Last(t)) { StripRightKeepsWords(Init(t)); }
  }

  /** Normalising keeps the words and leaves one space between them. */
  lemma {:induction false} NormaliseKeepsWords(t: string)
    ensures Words(Normalise(t)) == Words(t) && Tidy(Normalise(t))
  {
    CollapseKeepsWords(t);
    CollapseIsTidyInside(t);
    StripLeftKeepsWords(Collapse(t));
    StripRightKeepsWords(StripLeft(Collapse(t)));
  }

  /** A piece with a word in it is not stripped away. */
  lemma {:induction false} StripKeepsWords(t: string, i: nat)
    requires i < |t| && !IsSpace(t[i])
    ensures Strip(t) != []
  {
    if IsSpace(t[0]) {
      StripKeepsWords(t[1..], i - 1);
    } else {
      StripRightKeepsFirst(t);
    }
  }

  lemma {:induction false} StripRightKeepsFirst(t: string)
    requires t != [] && !IsSpace(t[0])
    ensures StripRight(t) != []
  {
    if IsSpace(Last(t)) { StripRightKeepsFirst(Init(t)); }
  }

  // ---------------------------------------------------------------- one window

  /** How Python reads a slice bound. */
  function Bound(i: int, n: nat): nat {
    if i < 0 then (if i + n < 0 then 0 else i + n) else if i < n then i else n
  }

  function Slice(t: string, lo: int, hi: int): string {
    var a, b := Bound(lo, |t|), Bound(hi, |t|);
    if a <= b then t[a..b] else ""
  }

  /** Slices as Python reads them: bounds past the end stop there, negative ones count from the
      end, and those before the start stop at it. */
  lemma SlicesCountFromTheEnd(t: string, lo: int, hi: int)
    ensures 0 <= lo + |t| && lo < 0 ==> Slice(t, lo, hi) == Slice(t, lo + |t|, hi)
    ensures 0 <= hi + |t| && hi < 0 ==> Slice(t, lo, hi) == Slice(t, lo, hi + |t|)
    ensures lo + |t| < 0 ==> Slice(t, lo, hi) == Slice(t, 0, hi)
    ensures hi + |t| < 0 ==> Slice(t, lo, hi) == ""
    ensures hi > |t| ==> Slice(t, lo, hi) == Slice(t, lo, |t|)
    ensures 0 <= lo <= hi <= |t| ==> Slice(t, lo, hi) == t[lo..hi]
    ensures lo >= |t| || 0 <= hi <= lo ==> Slice(t, lo, hi) == ""
  {
  }

  /** The last position of c in t[lo..hi], or -1. */
  function LastIn(t: string, c: char, lo: nat, hi: nat): int
    requires hi <= |t|
  {
    if hi <= lo then -1
    else if t[hi - 1] == c then hi - 1
    else LastIn(t, c, lo, hi - 1)
  }

  lemma {:induction false} LastInIsLast(t: string, c: char, lo: nat, hi: nat)
    requires hi <= |t|
    ensures var p := LastIn(t, c, lo, hi);
      && (p == -1 || (lo <= p < hi && t[p] == c))
      && (forall q :: lo <= q < hi && t[q] == c ==> q <= p)
  {
    if lo < hi && t[hi - 1] != c { LastInIsLast(t, c, lo, hi - 1); }
  }

  function RFind(t: string, c: char, lo: int, hi: int): int {
    LastIn(t, c, Bound(lo, |t|), Bound(hi, |t|))
  }

  datatype Span = Span(start: int, end: int)

  /** Where the window that starts here ends. */
  function WindowEnd(t: string, size: nat, start: int): int {
    var end := Min(start + size, |t|);
    if end < |t| then
      var boundary := RFind(t, '.', start + size / 2, end);
      if boundary != -1 then boundary + 1 else end
    else end
  }

  /** The loop variable `start` after k iterations. */
  function StartAt(t: string, size: nat, overlap: nat, k: nat): int {
    if k == 0 then 0 else WindowEnd(t, size, StartAt(t, size, overlap, k - 1)) - overlap
  }

  function Window(t: string, size: nat, overlap: nat, k: nat): Span {
    var start := StartAt(t, size, overlap, k);
    Span(start, WindowEnd(t, size, start))
  }

  function Windows(t: string, size: nat, overlap: nat, k: nat): seq<Span> {
    seq(k, i requires 0 <= i => Window(t, size, overlap, i))
  }

  datatype Chunk = Chunk(text: string, index: nat, start: int, end: int)

  /** The chunks of some windows; a window of whitespace gives none and uses no index. */
  function ChunksOf(t: string, spans: seq<Span>): seq<Chunk> {
    if spans == [] then [] else AddChunk(t, ChunksOf(t, Init(spans)), Last(spans))
  }

  function AddChunk(t: string, chunks: seq<Chunk>, s: Span): seq<Chunk> {
    var text := Strip(Slice(t, s.start, s.end));
    if text == [] then chunks else chunks + [Chunk(text, |chunks|, s.start, s.end)]
  }

  lemma {:induction false} OneMoreWindow(t: string, size: nat, overlap: nat, k: nat)
    ensures ChunksOf(t, Windows(t, size, overlap, k + 1))
         == AddChunk(t, ChunksOf(t, Windows(t, size, overlap, k)), Window(t, size, overlap, k))
  {
    var spans := Windows(t, size, overlap, k + 1);
    assert Init(spans) == Windows(t, size, overlap, k) && Last(spans) == Window(t, size, overlap, k);
  }

  /** The body of the loop. */
  method TakeWindow(text: string, size: nat, overlap: nat, chunks: seq<Chunk>, start: int)
    returns (more: seq<Chunk>, next: int)
    requires start < |text|
    ensures more == AddChunk(text, chunks, Span(start, WindowEnd(text, size, start)))
    ensures next == WindowEnd(text, size, start) - overlap
  {
    var end := Min(start + size, |text|);
    if end < |text| {
      var boundary := RFind(text, '.', start + size / 2, end);
      if boundary != -1 { end := boundary + 1; }
    }
    more := chunks;
    var piece := Strip(Slice(text, start, end));
    if piece != [] { more := more + [Chunk(piece, |more|, start, end)]; }
    next := end - overlap;
  }

  /** The loop gets to its k-th iteration. */
  ghost predicate Runs(t: string, size: nat, overlap: nat, k: nat) {
    forall j :: 0 <= j < k ==> StartAt(t, size, overlap, j) < |t|
  }

  /** The loop's variables after k iterations. */
  ghost predicate AfterIterations(t: string, size: nat, overlap: nat, k: nat, start: int, chunks: seq<Chunk>) {
    && start == StartAt(t, size, overlap, k)
    && chunks == ChunksOf(t, Windows(t, size, overlap, k))
    && Runs(t, size, overlap, k)
  }

  lemma OneMoreIteration(t: string, size: nat, overlap: nat, k: nat, start: int, chunks: seq<Chunk>)
    requires AfterIterations(t, size, overlap, k, start, chunks) && start < |t|
    ensures var end := WindowEnd(t, size, start);
      AfterIterations(t, size, overlap, k + 1, end - overlap, AddChunk(t, chunks, Span(start, end)))
  {
    OneMoreWindow(t, size, overlap, k);
  }

  /** The loop of chunk_text, stopped after `fuel` iterations if it has not ended by then. */
  method TakeWindows(text: string, size: nat, overlap: nat, fuel: nat)
    returns (chunks: seq<Chunk>, iterations: nat, done: bool)
    ensures iterations <= fuel && (!done ==> iterations == fuel) && Runs(text, size, overlap, iterations)
    ensures chunks == ChunksOf(text, Windows(text, size, overlap, iterations))
    ensures done <==> StartAt(text, size, overlap, iterations) >= |text|
  {
    chunks, iterations := [], 0;
    var start := 0;
    while start < |text| && iterations < fuel
      invariant iterations <= fuel && AfterIterations(text, size, overlap, iterations, start, chunks)
      decreases fuel - iterations
    {
      OneMoreIteration(text, size, overlap, iterations, start, chunks);
      chunks, start := TakeWindow(text, size, overlap, chunks, start);
      iterations := iterations + 1;
    }
    done := start >= |text|;
  }

  method ChunkText(raw: string, size: nat, overlap: nat, fuel: nat)
    returns (chunks: seq<Chunk>, iterations: nat, done: bool)
    requires size > 0
    ensures var t := Normalise(raw);
      |t| <= size ==> done && chunks == [Chunk(t, 0, 0, |t|)]
    ensures var t := Normalise(raw);
      |t| > size ==>
        && (done <==> StartAt(t, size, overlap, iterations) >= |t|)
        && (!done ==> iterations == fuel)
        && Runs(t, size, overlap, iterations)
        && chunks == ChunksOf(t, Windows(t, size, overlap, iterations))
  {
    var text := Normalise(raw);
    if |text| <= size {
      return [Chunk(text, 0, 0, |text|)], 0, true;
    }
    chunks, iterations, done := TakeWindows(text, size, overlap, fuel);
  }

  // ---------------------------------------------------------------- windows that reach the end

  lemma WindowBounds(t: string, size: nat, start: int)
    requires size > 0 && 0 <= start < |t|
    ensures start < WindowEnd(t, size, start) <= |t| && WindowEnd(t, size, start) <= start + size
    ensures WindowEnd(t, size, start) < |t| ==> WindowEnd(t, size, start) > start + size / 2
  {
    LastInIsLast(t, '.', Bound(start + size / 2, |t|), Bound(Min(start + size, |t|), |t|));
  }

  /** A window in progress covers something, stays in its size, and ends at a sentence if
      its second half holds one. */
  lemma WindowShape(t: string, size: nat, start: int)
    requires size > 0 && 0 <= start < |t|
    ensures var end := WindowEnd(t, size, start);
      && start < end <= |t| && end - start <= size
      && (end < |t| ==> end > start + size / 2)
      && (|t| <= start + size <==> end == |t|)
      && (end < |t| ==> if t[end - 1] == '.'
           then (forall q :: end <= q < start + size ==> t[q] != '.')
           else end == start + size && (forall q :: start + size / 2 <= q < end ==> t[q] != '.'))
  {
    LastInIsLast(t, '.', Bound(start + size / 2, |t|), Bound(Min(start + size, |t|), |t|));
  }

  /** The first k windows stop short of the end of the text. */
  ghost predicate NoneReaches(t: string, size: nat, overlap: nat, k: nat) {
    forall j :: 0 <= j < k ==> Window(t, size, overlap, j).end < |t|
  }

  ghost predicate FirstToReachTheEnd(t: string, size: nat, overlap: nat, m: nat) {
    Window(t, size, overlap, m).end == |t| && NoneReaches(t, size, overlap, m)
  }

  /** Inside the text and no longer than a chunk may be. */
  ghost predicate Fits(t: string, size: nat, w: Span) {
    0 <= w.start < w.end <= |t| && w.end - w.start <= size
  }

  /** The next span starts and ends later and repeats exactly the overlap. */
  ghost predicate Follows(overlap: nat, w: Span, v: Span) {
    w.start < v.start && w.end < v.end && w.end - v.start == overlap
  }

  ghost predicate NextFollows(t: string, size: nat, overlap: nat, k: nat) {
    Follows(overlap, Window(t, size, overlap, k), Window(t, size, overlap, k + 1))
  }

  /** What every window up to the first to reach the end has. */
  ghost predicate Sound(t: string, size: nat, w: Span) {
    Fits(t, size, w) && (w.end < |t| ==> w.end > w.start + size / 2)
  }

  lemma StepIsSound(t: string, size: nat, overlap: nat, k: nat)
    requires size > 0 && 0 <= StartAt(t, size, overlap, k) < |t|
    ensures Sound(t, size, Window(t, size, overlap, k))
    ensures StartAt(t, size, overlap, k + 1) == Window(t, size, overlap, k).end - overlap
  {
    WindowBounds(t, size, StartAt(t, size, overlap, k));
  }

  lemma {:induction false} WindowsAdvance(t: string, size: nat, overlap: nat, k: nat)
    requires size > 0 && 2 * overlap <= size && |t| > 0
    requires NoneReaches(t, size, overlap, k)
    ensures k <= StartAt(t, size, overlap, k) < |t|
    ensures Sound(t, size, Window(t, size, overlap, k))
  {
    if k > 0 {
      WindowsAdvance(t, size, overlap, k - 1);
      assert Window(t, size, overlap, k - 1).end < |t|;
      NextStart(t, size, overlap, k - 1);
    }
    StepIsSound(t, size, overlap, k);
  }

  lemma NextStart(t: string, size: nat, overlap: nat, k: nat)
    requires size > 0 && 2 * overlap <= size && k <= StartAt(t, size, overlap, k) < |t|
    requires Window(t, size, overlap, k).end < |t|
    ensures k + 1 <= StartAt(t, size, overlap, k + 1) < |t|
  {
    StepIsSound(t, size, overlap, k);
  }

  lemma {:induction false} SomeWindowReachesTheEnd(t: string, size: nat, overlap: nat, k: nat)
    returns (m: nat)
    requires size > 0 && 2 * overlap <= size && |t| > 0 && k <= |t|
    requires NoneReaches(t, size, overlap, k)
    ensures FirstToReachTheEnd(t, size, overlap, m)
    decreases |t| - k
  {
    WindowsAdvance(t, size, overlap, k);
    if Window(t, size, overlap, k).end == |t| {
      m := k;
    } else {
      m := SomeWindowReachesTheEnd(t, size, overlap, k + 1);
    }
  }

  /** Up to the first window that reaches the end of the text: starts rise, no span exceeds
      the chunk size, and neighbours share exactly the overlap. */
  lemma WindowsCoverTheText(t: string, size: nat, overlap: nat) returns (m: nat)
    requires size > 0 && 2 * overlap <= size && |t| > 0
    ensures FirstToReachTheEnd(t, size, overlap, m)
    ensures forall k :: 0 <= k <= m ==> Fits(t, size, Window(t, size, overlap, k))
    ensures forall k :: 0 <= k < m ==> NextFollows(t, size, overlap, k)
  {
    m := SomeWindowReachesTheEnd(t, size, overlap, 0);
    forall k | 0 <= k <= m ensures Fits(t, size, Window(t, size, overlap, k)) {
      WindowsAdvance(t, size, overlap, k);
    }
    forall k | 0 <= k < m ensures NextFollows(t, size, overlap, k) {
      OneFollowsAnother(t, size, overlap, k);
    }
  }

  /** A text of this length whose only period stands in the middle of the first window. */
  function MiddlePeriod(size: nat): string {
    seq(size + 1, i => if i == size / 2 then '.' else 'a')
  }

  lemma EarlyBoundary(size: nat)
    requires size >= 1
    ensures WindowEnd(MiddlePeriod(size), size, 0) == size / 2 + 1
  {
    var t := MiddlePeriod(size);
    LastInIsLast(t, '.', Bound(0 + size / 2, |t|), Bound(Min(0 + size, |t|), |t|));
    assert t[size / 2] == '.';
  }

  /** Half the size is exactly how much overlap the loop can take: with more, some text sends
      it back to its start or before. */
  lemma {:induction false} LoopAdvancesIff(size: nat, overlap: nat)
    requires size >= 1
    ensures (forall t: string :: |t| > size ==> StartAt(t, size, overlap, 1) > 0) <==> overlap <= size / 2
  {
    var bad := MiddlePeriod(size);
    EarlyBoundary(size);
    assert StartAt(bad, size, overlap, 0) == 0;
    assert StartAt(bad, size, overlap, 1) == size / 2 + 1 - overlap;
    forall t: string | |t| > size && overlap <= size / 2 ensures StartAt(t, size, overlap, 1) > 0 {
      WindowBounds(t, size, 0);
      assert StartAt(t, size, overlap, 0) == 0;
    }
  }

  lemma SoundFollows(t: string, size: nat, overlap: nat, w: Span, v: Span)
    requires size > 0 && 2 * overlap <= size && Sound(t, size, w) && Sound(t, size, v)
    requires w.end < |t| && v.start == w.end - overlap
    ensures Follows(overlap, w, v)
  {
  }

  lemma OneFollowsAnother(t: string, size: nat, overlap: nat, k: nat)
    requires size > 0 && 2 * overlap <= size && |t| > 0
    requires NoneReaches(t, size, overlap, k + 1)
    ensures NextFollows(t, size, overlap, k)
  {
    WindowsAdvance(t, size, overlap, k);
    WindowsAdvance(t, size, overlap, k + 1);
    StepIsSound(t, size, overlap, k);
    SoundFollows(t, size, overlap, Window(t, size, overlap, k), Window(t, size, overlap, k + 1));
  }

  /** The first span, then every later one without the overlap. */
  function Rebuild(t: string, spans: seq<Span>, overlap: nat): string {
    if spans == [] then ""
    else
      var piece := Slice(t, Last(spans).start, Last(spans).end);
      if |spans| == 1 then piece
      else Rebuild(t, Init(spans), overlap) + (if overlap <= |piece| then piece[overlap..] else "")
  }

  /** Spans inside the text, from its start, each repeating the overlap of the one before. */
  ghost predicate Chained(t: string, size: nat, overlap: nat, spans: seq<Span>) {
    && spans != [] && spans[0].start == 0
    && (forall k :: 0 <= k < |spans| ==> Fits(t, size, spans[k]))
    && (forall k, l :: 0 <= k && l == k + 1 && l < |spans| ==> Follows(overlap, spans[k], spans[l]))
  }

  /** A span without its overlap goes on where the one before ended. */
  lemma OnePiece(t: string, size: nat, overlap: nat, v: Span, w: Span)
    requires Fits(t, size, v) && Fits(t, size, w) && Follows(overlap, v, w)
    ensures var piece := Slice(t, w.start, w.end);
      overlap <= |piece| && t[..v.end] + piece[overlap..] == t[..w.end]
  {
    assert Slice(t, w.start, w.end)[overlap..] == t[v.end..w.end];
    assert t[..v.end] + t[v.end..w.end] == t[..w.end];
  }

  lemma {:induction false} ChainedRebuild(t: string, size: nat, overlap: nat, spans: seq<Span>)
    requires Chained(t, size, overlap, spans)
    ensures Rebuild(t, spans, overlap) == t[..Last(spans).end]
  {
    if |spans| > 1 {
      ChainedRebuild(t, size, overlap, Init(spans));
      OnePiece(t, size, overlap, spans[|spans| - 2], Last(spans));
    }
  }

  /** Dropping the overlap from every span after the first gives back the text. */
  lemma {:induction false} SpansRebuildTheText(t: string, size: nat, overlap: nat, m: nat)
    requires size > 0 && 2 * overlap <= size && |t| > 0
    requires FirstToReachTheEnd(t, size, overlap, m)
    ensures Rebuild(t, Windows(t, size, overlap, m + 1), overlap) == t
  {
    var spans := Windows(t, size, overlap, m + 1);
    forall k | 0 <= k <= m ensures Fits(t, size, spans[k]) {
      WindowsAdvance(t, size, overlap, k);
    }
    forall k, l | 0 <= k && l == k + 1 && l <= m ensures Follows(overlap, spans[k], spans[l]) {
      OneFollowsAnother(t, size, overlap, k);
    }
    ChainedRebuild(t, size, overlap, spans);
    assert t[..|t|] == t;
  }

  // ---------------------------------------------------------------- the loop as written

  /** From the first window that reaches the end on, every iteration repeats the last one. */
  lemma {:induction false} TheTailRepeats(t: string, size: nat, overlap: nat, m: nat, k: nat)
    requires size > 0 && overlap <= size && m < k
    requires Window(t, size, overlap, m).end == |t|
    ensures Window(t, size, overlap, k) == Span(|t| - overlap, |t|)
  {
    if k > m + 1 { TheTailRepeats(t, size, overlap, m, k - 1); }
  }

  ghost predicate Stops(t: string, size: nat, overlap: nat) {
    |t| <= size || exists k: nat :: StartAt(t, size, overlap, k) >= |t|
  }

  lemma NeverPastTheEnd(t: string, size: nat, start: int)
    ensures WindowEnd(t, size, start) <= |t|
  {
    LastInIsLast(t, '.', Bound(start + size / 2, |t|), Bound(Min(start + size, |t|), |t|));
  }

  lemma {:induction false} OverlapKeepsTheLoopAlive(t: string, size: nat, overlap: nat, k: nat)
    requires overlap > 0 && |t| > size
    ensures StartAt(t, size, overlap, k) < |t|
  {
    if k > 0 { NeverPastTheEnd(t, size, StartAt(t, size, overlap, k - 1)); }
  }

  /** The written loop stops exactly on short texts and without overlap. */
  lemma StopsIff(t: string, size: nat, overlap: nat)
    requires size > 0
    ensures Stops(t, size, overlap) <==> |t| <= size || overlap == 0
  {
    if |t| > size {
      if overlap == 0 {
        var m := SomeWindowReachesTheEnd(t, size, 0, 0);
        assert StartAt(t, size, 0, m + 1) >= |t|;
      } else {
        forall k: nat ensures StartAt(t, size, overlap, k) < |t| {
          OverlapKeepsTheLoopAlive(t, size, overlap, k);
        }
      }
    }
  }

  // ---------------------------------------------------------------- chunks

  lemma TwoCharactersHoldAWord(t: string, a: nat, b: nat)
    requires Tidy(t) && a < b <= |t| && (b - a >= 2 || b == |t|)
    ensures Strip(t[a..b]) != []
  {
    if IsSpace(t[b - 1]) {
      StripKeepsWords(t[a..b], b - a - 2);
    } else {
      StripKeepsWords(t[a..b], b - a - 1);
    }
  }

  lemma AddChunkAppends(t: string, chunks: seq<Chunk>, w: Span)
    requires 0 <= w.start <= w.end <= |t| && Strip(t[w.start..w.end]) != []
    ensures AddChunk(t, chunks, w) == chunks + [Chunk(Strip(t[w.start..w.end]), |chunks|, w.start, w.end)]
  {
  }

  /** Long enough to hold a character that is not blank. */
  ghost predicate Wide(t: string, w: Span) {
    0 <= w.start < w.end <= |t| && (w.end - w.start >= 2 || w.end == |t|)
  }

  ghost predicate Holds(t: string, c: Chunk, w: Span, i: nat) {
    0 <= w.start <= w.end <= |t| && c == Chunk(Strip(t[w.start..w.end]), i, w.start, w.end)
  }

  ghost predicate HoldAll(t: string, chunks: seq<Chunk>, spans: seq<Span>) {
    |chunks| == |spans| && forall i :: 0 <= i < |spans| ==> Holds(t, chunks[i], spans[i], i)
  }

  lemma OneMoreHeld(t: string, chunks: seq<Chunk>, spans: seq<Span>, w: Span)
    requires Tidy(t) && Wide(t, w) && HoldAll(t, chunks, spans)
    ensures HoldAll(t, AddChunk(t, chunks, w), spans + [w])
  {
    TwoCharactersHoldAWord(t, w.start, w.end);
    AddChunkAppends(t, chunks, w);
    var more := chunks + [Chunk(Strip(t[w.start..w.end]), |chunks|, w.start, w.end)];
    forall i | 0 <= i <= |spans| ensures Holds(t, more[i], (spans + [w])[i], i) {
      if i < |spans| { assert Holds(t, chunks[i], spans[i], i); }
    }
  }

  lemma {:induction false} WideSpansAreKept(t: string, spans: seq<Span>)
    requires Tidy(t) && forall w :: w in spans ==> Wide(t, w)
    ensures HoldAll(t, ChunksOf(t, spans), spans)
  {
    if spans != [] {
      WideSpansAreKept(t, Init(spans));
      OneMoreHeld(t, ChunksOf(t, Init(spans)), Init(spans), Last(spans));
      assert Init(spans) + [Last(spans)] == spans;
    }
  }

  /** On normalised text, windows of two characters or more are never skipped, so chunks are
      numbered as the windows are. */
  lemma {:induction false} NoWindowIsSkipped(t: string, size: nat, overlap: nat, k: nat)
    requires Tidy(t) && size > 1 && 2 * overlap <= size && |t| > 0
    requires k > 0 ==> NoneReaches(t, size, overlap, k - 1)
    ensures var spans := Windows(t, size, overlap, k);
      HoldAll(t, ChunksOf(t, spans), spans)
  {
    var spans := Windows(t, size, overlap, k);
    forall i | 0 <= i < k ensures Wide(t, spans[i]) {
      WindowsAdvance(t, size, overlap, i);
    }
    WideSpansAreKept(t, spans);
  }
}
