/**
  The widget's reader of a streamed reply (frontend/widget/src/api.ts).

  The network hands the reply over in arbitrary pieces.  The reader glues each piece
  to what is left from the previous ones, splits at blank lines and keeps the last,
  possibly unfinished, part for the next read.  The question is when the way the reply
  is cut can be observed.
 */
module WidgetStream {
  import opened Basics

  // ---------------------------------------------------------------- splitting

  predicate BreakAt(s: string, i: int) {
    0 <= i && i + 1 < |s| && s[i] == '\n' && s[i + 1] == '\n'
  }

  /** Position of the leftmost blank line, or the length when there is none. */
  function FirstBreak(s: string): (i: nat)
    ensures i < |s| ==> BreakAt(s, i)
    ensures i <= |s|
    ensures forall j :: 0 <= j < i ==> !BreakAt(s, j)
  {
    if |s| < 2 then |s|
    else if BreakAt(s, 0) then 0
    else
      var k := FirstBreak(s[1..]);
      assert forall j :: 0 < j ==> (BreakAt(s, j) <==> BreakAt(s[1..], j - 1));
      1 + k
  }

  /** JavaScript's split at two newlines: leftmost, non-overlapping. */
  function Split(s: string): (pieces: seq<string>)
    ensures |pieces| >= 1
    decreases |s|
  {
    var i := FirstBreak(s);
    if i == |s| then [s] else [s[..i]] + Split(s[i + 2..])
  }

  function Join(pieces: seq<string>): string
    requires |pieces| >= 1
  {
    if |pieces| == 1 then pieces[0] else pieces[0] + "\n\n" + Join(pieces[1..])
  }

  function Concat(cuts: seq<string>): string {
    if cuts == [] then "" else cuts[0] + Concat(cuts[1..])
  }

  lemma {:induction false} LeftmostBreak(s: string, i: nat)
    requires i <= |s|
    requires i < |s| ==> BreakAt(s, i)
    requires forall j :: 0 <= j < i ==> !BreakAt(s, j)
    ensures FirstBreak(s) == i
  {
    var k := FirstBreak(s);
    assert k < i ==> !BreakAt(s, k);
    assert i < k ==> !BreakAt(s, i);
  }

  lemma {:induction false} SplitAt(s: string)
    requires FirstBreak(s) < |s|
    ensures var i := FirstBreak(s);
      Split(s) == [s[..i]] + Split(s[i + 2..])
  {
  }

  /** The first part: no blank line inside, and it does not end in the middle of one. */
  lemma HeadIsLeftmost(s: string, i: nat, j: int)
    requires BreakAt(s, i) && forall k :: 0 <= k < i ==> !BreakAt(s, k)
    ensures !BreakAt(s[..i], j) && (s[..i] == "" || Last(s[..i]) != '\n')
    ensures s == s[..i] + "\n\n" + s[i + 2..]
  {
    assert BreakAt(s[..i], j) ==> BreakAt(s, j);
    assert i > 0 && s[i - 1] == '\n' ==> BreakAt(s, i - 1);
  }

  /** No part has a blank line in it, and only the last may end in a newline. */
  ghost predicate LeftmostParts(pieces: seq<string>) {
    && (forall k, j :: 0 <= k < |pieces| ==> !BreakAt(pieces[k], j))
    && (forall k :: 0 <= k < |pieces| - 1 ==> pieces[k] == "" || Last(pieces[k]) != '\n')
  }

  lemma {:induction false} OneMorePart(head: string, rest: seq<string>)
    requires LeftmostParts(rest) && |rest| > 0
    requires (forall j :: !BreakAt(head, j)) && (head == "" || Last(head) != '\n')
    ensures LeftmostParts([head] + rest) && Join([head] + rest) == head + "\n\n" + Join(rest)
  {
    var all := [head] + rest;
    assert all[1..] == rest;
    forall k, j | 0 <= k < |all| ensures !BreakAt(all[k], j) {
      assert k > 0 ==> all[k] == rest[k - 1];
    }
  }

  /** Joining the parts restores the text, and the parts are those of a leftmost cut. */
  lemma {:induction false} SplitIsLeftmost(s: string)
    ensures Join(Split(s)) == s && LeftmostParts(Split(s))
    decreases |s|
  {
    var i := FirstBreak(s);
    if i < |s| {
      SplitIsLeftmost(s[i + 2..]);
      SplitAt(s);
      forall j ensures !BreakAt(s[..i], j) {
        HeadIsLeftmost(s, i, j);
      }
      HeadIsLeftmost(s, i, 0);
      OneMorePart(s[..i], Split(s[i + 2..]));
    }
  }

  /** The converse: there is no other leftmost cut. */
  lemma {:induction false} LeftmostSplitIsUnique(pieces: seq<string>)
    requires |pieces| >= 1
    requires LeftmostParts(pieces)
    ensures Split(Join(pieces)) == pieces
  {
    var s := Join(pieces);
    if |pieces| == 1 {
      LeftmostBreak(s, |s|);
    } else {
      var head := pieces[0];
      var i := |head|;
      assert s[..i] == head && s[i + 2..] == Join(pieces[1..]);
      forall j | 0 <= j < i ensures !BreakAt(s, j) {
        assert j == i - 1 || !BreakAt(pieces[0], j);
      }
      LeftmostBreak(s, i);
      forall k, j | 0 <= k < |pieces[1..]| ensures !BreakAt(pieces[1..][k], j) {
        assert !BreakAt(pieces[k + 1], j);
      }
      LeftmostSplitIsUnique(pieces[1..]);
    }
  }

  lemma {:induction false} FirstBreakStays(a: string, b: string)
    requires FirstBreak(a) < |a|
    ensures FirstBreak(a + b) == FirstBreak(a)
  {
    var i := FirstBreak(a);
    forall j | 0 <= j < i ensures !BreakAt(a + b, j) {
      assert BreakAt(a + b, j) ==> BreakAt(a, j);
    }
    LeftmostBreak(a + b, i);
  }

  lemma InitBehindHead(head: string, rest: seq<string>, more: seq<string>)
    requires |rest| > 0
    ensures Init([head] + rest) + more == [head] + (Init(rest) + more) && Last([head] + rest) == Last(rest)
  {
  }

  lemma SplitExtended(a: string, b: string)
    requires FirstBreak(a) < |a|
    ensures var i := FirstBreak(a);
      Split(a + b) == [a[..i]] + Split(a[i + 2..] + b)
  {
    FirstBreakStays(a, b);
    SplitAt(a + b);
    var i := FirstBreak(a);
    assert (a + b)[i + 2..] == a[i + 2..] + b && (a + b)[..i] == a[..i];
  }

  /** Splitting can be resumed from the unfinished last part. */
  lemma {:induction false} SplitResumes(a: string, b: string)
    ensures Split(a + b) == Init(Split(a)) + Split(Last(Split(a)) + b)
    decreases |a|
  {
    var i := FirstBreak(a);
    if i < |a| {
      var head, tail := a[..i], a[i + 2..];
      var rest := Split(tail);
      SplitAt(a);
      SplitExtended(a, b);
      SplitResumes(tail, b);
      InitBehindHead(head, rest, Split(Last(rest) + b));
    } else {
      assert Split(a) == [a] && Init([a]) == [];
    }
  }

  lemma {:induction false} LastPartHasNoBreak(s: string)
    ensures Split(Last(Split(s))) == [Last(Split(s))]
    decreases |s|
  {
    var i := FirstBreak(s);
    if i < |s| {
      LastPartHasNoBreak(s[i + 2..]);
      assert Last(Split(s)) == Last(Split(s[i + 2..]));
    }
  }

  // ---------------------------------------------------------------- events

  datatype StreamMeta = StreamMeta(escalated: bool, confidence: real, actions: seq<string>)

  /** What one complete event makes the reader do. */
  datatype Effect = Token(text: string) | Meta(meta: StreamMeta) | Failed

  datatype Event = Ignored | Done | Fires(effect: Effect)

  /** JSON.parse followed by the test on `type`: a meta object, or anything else. */
  type MetaParser = string -> Option<StreamMeta>

  /** What JavaScript's trim removes; Python's whitespace is another set. */
  predicate IsJsSpace(c: char) {
    var n := c as int;
    9 <= n <= 13 || n == 32 || n == 0xA0 || n == 0x1680 || 0x2000 <= n <= 0x200A
    || n == 0x2028 || n == 0x2029 || n == 0x202F || n == 0x205F || n == 0x3000 || n == 0xFEFF
  }

  function Trim(s: string): string {
    if s == "" then s
    else if IsJsSpace(s[0]) then Trim(s[1..])
    else if IsJsSpace(Last(s)) then Trim(Init(s))
    else s
  }

  function Classify(event: string, parse: MetaParser): Event {
    var line := Trim(event);
    if !("data:" <= line) then Ignored
    else
      var data := Trim(line[5..]);
      if data == "[DONE]" then Done
      else if data == "[ERROR]" then Fires(Failed)
      else if "{" <= data && parse(data).Some? then Fires(Meta(parse(data).value))
      else Fires(Token(data))
  }

  /** How an event is read; what follows holds for every way of reading one. */
  type Reader = string -> Event

  function AsReader(parse: MetaParser): Reader {
    event => Classify(event, parse)
  }

  /** Effects of one read's complete events: the loop stops at [DONE] and at [ERROR]. */
  function Effects(events: seq<string>, read: Reader): seq<Effect> {
    if events == [] then []
    else
      match read(events[0])
      case Ignored => Effects(events[1..], read)
      case Done => []
      case Fires(Failed) => [Failed]
      case Fires(e) => [e] + Effects(events[1..], read)
  }

  predicate Threw(effects: seq<Effect>) {
    effects != [] && Last(effects) == Failed
  }

  /** The whole reply, read after read; [DONE] ends a read, not the reply. */
  function Consume(buffer: string, cuts: seq<string>, read: Reader): seq<Effect>
    decreases |cuts|
  {
    if cuts == [] then []
    else
      var pieces := Split(buffer + cuts[0]);
      var now := Effects(Init(pieces), read);
      if Threw(now) then now else now + Consume(Last(pieces), cuts[1..], read)
  }

  /** What the reply means when it is looked at as one text. */
  function Meaning(text: string, read: Reader): seq<Effect> {
    Effects(Init(Split(text)), read)
  }

  // ---------------------------------------------------------------- when the cut is invisible

  predicate Inert(events: seq<string>, read: Reader) {
    forall k :: 0 <= k < |events| ==> !read(events[k]).Fires?
  }

  /** Nothing with an effect follows the first [DONE]. */
  predicate QuietAfterDone(events: seq<string>, read: Reader) {
    events == [] ||
    match read(events[0])
    case Done => Inert(events[1..], read)
    case Fires(Failed) => true
    case _ => QuietAfterDone(events[1..], read)
  }

  /** Every effect up to a failure, whether or not [DONE] came before it. */
  function AllEffects(events: seq<string>, read: Reader): seq<Effect> {
    if events == [] then []
    else
      match read(events[0])
      case Fires(Failed) => [Failed]
      case Fires(e) => [e] + AllEffects(events[1..], read)
      case _ => AllEffects(events[1..], read)
  }

  lemma {:induction false} InertHasNoEffect(events: seq<string>, read: Reader)
    requires Inert(events, read)
    ensures Effects(events, read) == [] && QuietAfterDone(events, read)
    ensures AllEffects(events, read) == []
  {
    if events != [] { InertHasNoEffect(events[1..], read); }
  }

  lemma ThrewDecidedByTheEnd(e: Effect, effects: seq<Effect>)
    requires e != Failed
    ensures Threw([e] + effects) == Threw(effects)
  {
    if effects != [] { assert Last([e] + effects) == Last(effects); }
  }

  lemma {:induction false} EffectsOfConcatenation(a: seq<string>, b: seq<string>, read: Reader)
    requires QuietAfterDone(a + b, read)
    ensures Threw(Effects(a, read)) ==> Effects(a + b, read) == Effects(a, read)
    ensures !Threw(Effects(a, read)) ==>
      QuietAfterDone(b, read) && Effects(a + b, read) == Effects(a, read) + Effects(b, read)
  {
    if a == [] {
      assert a + b == b;
    } else {
      assert (a + b)[1..] == a[1..] + b;
      match read(a[0])
      case Done =>
        forall k | 0 <= k < |b| ensures !read(b[k]).Fires? {
          assert b[k] == (a + b)[1..][|a| - 1 + k];
        }
        InertHasNoEffect(b, read);
      case Ignored =>
        EffectsOfConcatenation(a[1..], b, read);
      case Fires(e) =>
        if e != Failed {
          EffectsOfConcatenation(a[1..], b, read);
          ThrewDecidedByTheEnd(e, Effects(a[1..], read));
          assert [e] + (Effects(a[1..], read) + Effects(b, read))
              == ([e] + Effects(a[1..], read)) + Effects(b, read);
        }
    }
  }

  /** If nothing follows [DONE], every way of cutting the reply has the same effects. */
  lemma {:induction false} EveryCutMeansTheSame(buffer: string, cuts: seq<string>, read: Reader)
    requires Split(buffer) == [buffer]
    requires QuietAfterDone(Init(Split(buffer + Concat(cuts))), read)
    ensures Consume(buffer, cuts, read) == Meaning(buffer + Concat(cuts), read)
    decreases |cuts|
  {
    if cuts == [] {
      assert buffer + Concat(cuts) == buffer;
    } else {
      var first := buffer + cuts[0];
      var later := Concat(cuts[1..]);
      assert buffer + Concat(cuts) == first + later;
      SplitResumes(first, later);
      LastPartHasNoBreak(first);
      var done, rest := Init(Split(first)), Last(Split(first));
      assert Init(Split(first + later)) == done + Init(Split(rest + later));
      EffectsOfConcatenation(done, Init(Split(rest + later)), read);
      if !Threw(Effects(done, read)) {
        EveryCutMeansTheSame(rest, cuts[1..], read);
      }
    }
  }

  /** Cut right after every blank line. */
  function EventByEvent(s: string): (cuts: seq<string>)
    ensures Concat(cuts) == s
    decreases |s|
  {
    var i := FirstBreak(s);
    if i == |s| then assert Concat([s]) == s; [s]
    else
      var cuts := [s[..i + 2]] + EventByEvent(s[i + 2..]);
      assert cuts[1..] == EventByEvent(s[i + 2..]);
      cuts
  }

  lemma {:induction false} SplitOfOneEvent(s: string, i: nat)
    requires i == FirstBreak(s) < |s|
    ensures Split(s[..i + 2]) == [s[..i], ""]
  {
    var head := s[..i + 2];
    forall j | 0 <= j < i ensures !BreakAt(head, j) {
      assert BreakAt(head, j) ==> BreakAt(s, j);
    }
    LeftmostBreak(head, i);
    assert head[i + 2..] == "" && head[..i] == s[..i];
    assert Split("") == [""];
  }

  lemma EffectsOfOneEvent(event: string, read: Reader)
    ensures Effects([event], read) == match read(event) case Fires(e) => [e] case _ => []
  {
    assert [event][1..] == [];
  }

  lemma {:induction false} WithoutBreak(s: string, read: Reader)
    requires FirstBreak(s) == |s|
    ensures Consume("", EventByEvent(s), read) == AllEffects(Init(Split(s)), read)
  {
    assert EventByEvent(s) == [s] && Split(s) == [s];
    assert "" + s == s && [s][1..] == [] && Init([s]) == [];
    assert Consume("", [s], read) == Effects([], read) + Consume(s, [], read);
  }

  lemma {:induction false} EventByEventAt(s: string)
    requires FirstBreak(s) < |s|
    ensures var i := FirstBreak(s);
      EventByEvent(s) == [s[..i + 2]] + EventByEvent(s[i + 2..])
  {
  }

  lemma {:induction false} FirstEventShows(s: string, i: nat, tail: string, read: Reader)
    requires i == FirstBreak(s) < |s| && tail == s[i + 2..]
    requires Consume("", EventByEvent(tail), read) == AllEffects(Init(Split(tail)), read)
    ensures Consume("", [s[..i + 2]] + EventByEvent(tail), read) == AllEffects([s[..i]] + Init(Split(tail)), read)
  {
    SplitOfOneEvent(s, i);
    FirstCut(s[..i + 2], s[..i], EventByEvent(tail), read);
    AllEffectsOfSplit(s[..i], Init(Split(tail)), read);
  }

  /** Read event by event, [DONE] hides nothing. */
  lemma {:induction false} EventByEventShowsAll(s: string, read: Reader)
    ensures Consume("", EventByEvent(s), read) == AllEffects(Init(Split(s)), read)
    decreases |s|
  {
    var i := FirstBreak(s);
    if i == |s| {
      WithoutBreak(s, read);
    } else {
      var tail := s[i + 2..];
      EventByEventShowsAll(tail, read);
      FirstEventShows(s, i, tail, read);
      EventByEventAt(s);
      SplitAt(s);
      InitBehindHead(s[..i], Split(tail), []);
      assert Init(Split(s)) == [s[..i]] + Init(Split(tail));
    }
  }

  lemma {:induction false} FirstCut(cut: string, event: string, later: seq<string>, read: Reader)
    requires Split(cut) == [event, ""]
    ensures Consume("", [cut] + later, read) ==
      if read(event) == Fires(Failed) then [Failed]
      else Effects([event], read) + Consume("", later, read)
  {
    assert "" + cut == cut && ([cut] + later)[1..] == later;
    assert Init([event, ""]) == [event];
    EffectsOfOneEvent(event, read);
  }

  lemma {:induction false} AllEffectsOfSplit(event: string, later: seq<string>, read: Reader)
    ensures AllEffects([event] + later, read) ==
      if read(event) == Fires(Failed) then [Failed]
      else Effects([event], read) + AllEffects(later, read)
  {
    assert ([event] + later)[1..] == later;
    EffectsOfOneEvent(event, read);
  }

  lemma {:induction false} LoudAfterDone(events: seq<string>, read: Reader)
    requires !Inert(events, read)
    ensures AllEffects(events, read) != []
  {
    if !read(events[0]).Fires? { LoudAfterDone(events[1..], read); }
  }

  lemma {:induction false} HiddenEffects(events: seq<string>, read: Reader)
    ensures QuietAfterDone(events, read) <==> AllEffects(events, read) == Effects(events, read)
  {
    if events != [] {
      match read(events[0])
      case Done =>
        if Inert(events[1..], read) { InertHasNoEffect(events[1..], read); }
        else { LoudAfterDone(events[1..], read); }
      case Fires(Failed) =>
      case Fires(e) =>
        HiddenEffects(events[1..], read);
        assert ([e] + AllEffects(events[1..], read))[1..] == AllEffects(events[1..], read);
        assert ([e] + Effects(events[1..], read))[1..] == Effects(events[1..], read);
      case Ignored => HiddenEffects(events[1..], read);
    }
  }

  /** The reader is independent of how the network cuts a reply exactly when nothing with
      an effect follows [DONE]: [DONE] breaks out of one read's events only. */
  lemma {:induction false} CutIsInvisibleIff(text: string, read: Reader)
    ensures QuietAfterDone(Init(Split(text)), read) <==>
      forall cuts :: Concat(cuts) == text ==> Consume("", cuts, read) == Meaning(text, read)
  {
    if QuietAfterDone(Init(Split(text)), read) {
      forall cuts | Concat(cuts) == text
        ensures Consume("", cuts, read) == Meaning(text, read)
      {
        assert "" + Concat(cuts) == text;
        EveryCutMeansTheSame("", cuts, read);
      }
    } else {
      EventByEventShowsAll(text, read);
      HiddenEffects(Init(Split(text)), read);
      assert Concat(EventByEvent(text)) == text;
    }
  }

  // ---------------------------------------------------------------- the reader itself

  function TokensOf(effects: seq<Effect>): seq<string> {
    if effects == [] then []
    else if Last(effects).Token? then TokensOf(Init(effects)) + [Last(effects).text]
    else TokensOf(Init(effects))
  }

  function LastMeta(effects: seq<Effect>): Option<StreamMeta> {
    if effects == [] then None
    else if Last(effects).Meta? then Some(Last(effects).meta)
    else LastMeta(Init(effects))
  }

  const DEFAULT_META := StreamMeta(false, 0.0, [])

  function FinalMeta(effects: seq<Effect>): StreamMeta {
    match LastMeta(effects)
    case Some(m) => m
    case None => DEFAULT_META
  }

  /** One read's loop over its complete events; `log` is what happened before it. */
  method DeliverEvents(events: seq<string>, read: Reader, ghost log: seq<Effect>,
                       told: seq<string>, known: Option<StreamMeta>)
    returns (tokens: seq<string>, meta: Option<StreamMeta>, failed: bool)
    requires told == TokensOf(log) && known == LastMeta(log) && !Threw(log)
    ensures tokens == TokensOf(log + Effects(events, read))
    ensures meta == LastMeta(log + Effects(events, read))
    ensures failed == Threw(log + Effects(events, read))
  {
    tokens, meta, failed := told, known, false;
    ghost var all := log + Effects(events, read);
    ghost var seen := log;
    for j := 0 to |events|
      invariant seen + Effects(events[j..], read) == all
      invariant tokens == TokensOf(seen) && meta == LastMeta(seen)
      invariant !Threw(seen) && !failed
    {
      var event := read(events[j]);
      assert events[j..][1..] == events[j + 1..];
      if event.Done? { break; }
      if event.Fires? {
        ghost var before := seen;
        seen := seen + [event.effect];
        assert Init(seen) == before && Last(seen) == event.effect;
        if event.effect.Failed? {
          failed := true;
          return;
        } else if event.effect.Meta? {
          meta := Some(event.effect.meta);
        } else {
          tokens := tokens + [event.effect.text];
        }
        assert before + ([event.effect] + Effects(events[j + 1..], read))
            == seen + Effects(events[j + 1..], read);
      }
    }
    assert seen + [] == seen;
  }

  lemma ConsumeStep(log: seq<Effect>, effects: seq<Effect>, later: seq<Effect>)
    requires !Threw(log)
    ensures Threw(log + effects) == Threw(effects)
    ensures log + (effects + later) == (log + effects) + later
  {
    if effects == [] { assert log + effects == log; } else { assert Last(log + effects) == Last(effects); }
  }

  /** The read loop of streamMessage; `tokens` are the calls of onToken, in order. */
  method StreamMessage(cuts: seq<string>, parse: MetaParser)
    returns (tokens: seq<string>, meta: StreamMeta, failed: bool)
    ensures tokens == TokensOf(Consume("", cuts, AsReader(parse)))
    ensures failed == Threw(Consume("", cuts, AsReader(parse)))
    ensures !failed ==> meta == FinalMeta(Consume("", cuts, AsReader(parse)))
  {
    var buffer, seen := "", None;
    var read := AsReader(parse);
    tokens, failed, meta := [], false, DEFAULT_META;
    ghost var log: seq<Effect> := [];
    for i := 0 to |cuts|
      invariant log + Consume(buffer, cuts[i..], read) == Consume("", cuts, read)
      invariant tokens == TokensOf(log) && seen == LastMeta(log)
      invariant !Threw(log) && !failed
    {
      buffer := buffer + cuts[i];
      var pieces := Split(buffer);
      assert cuts[i..][1..] == cuts[i + 1..];
      tokens, seen, failed := DeliverEvents(Init(pieces), read, log, tokens, seen);
      ghost var effects := Effects(Init(pieces), read);
      ConsumeStep(log, effects, Consume(Last(pieces), cuts[i + 1..], read));
      if failed { return; }
      buffer := Last(pieces);
      log := log + effects;
    }
    assert log + [] == log;
    if seen.Some? { meta := seen.value; }
  }
}
