/**
  What the caller of streamMessage sees of a streamed reply (frontend/widget/src/api.ts):
  its tokens, whether it failed, and the last meta object.  The caller sees less than the
  effects, so more cuts are invisible.
 */
module WidgetCaller {
  import opened Basics
  import opened WidgetStream

  /** The calls of onToken and the result; a failed reply has none. */
  datatype View = View(tokens: seq<string>, result: Option<StreamMeta>)

  /** The latest meta object, or the one known before. */
  function MetaAfter(effects: seq<Effect>, latest: StreamMeta): StreamMeta {
    match LastMeta(effects) case Some(m) => m case None => latest
  }

  function Seen(effects: seq<Effect>, latest: StreamMeta): View {
    View(TokensOf(effects), if Threw(effects) then None else Some(MetaAfter(effects, latest)))
  }

  /** What the written reader gives its caller is this view of its effects. */
  method StreamForCaller(cuts: seq<string>, parse: MetaParser) returns (v: View)
    ensures v == Seen(Consume("", cuts, AsReader(parse)), DEFAULT_META)
  {
    var tokens, meta, failed := StreamMessage(cuts, parse);
    v := View(tokens, if failed then None else Some(meta));
  }

  // ---------------------------------------------------------------- views of concatenations

  lemma {:induction false} FirstEffect(e: Effect, later: seq<Effect>)
    ensures TokensOf([e] + later) == (if e.Token? then [e.text] else []) + TokensOf(later)
    ensures LastMeta([e] + later)
         == if LastMeta(later).Some? then LastMeta(later) else if e.Meta? then Some(e.meta) else None
  {
    if later == [] {
      assert [e] + later == [e] && Init([e]) == [];
    } else {
      assert Init([e] + later) == [e] + Init(later) && Last([e] + later) == Last(later);
      FirstEffect(e, Init(later));
    }
  }

  function After(e: Effect, latest: StreamMeta): StreamMeta {
    if e.Meta? then e.meta else latest
  }

  lemma SeenFirst(e: Effect, later: seq<Effect>, latest: StreamMeta)
    requires e != Failed
    ensures Seen([e] + later, latest) == View(
      (if e.Token? then [e.text] else []) + Seen(later, After(e, latest)).tokens, Seen(later, After(e, latest)).result)
  {
    FirstEffect(e, later);
    ThrewDecidedByTheEnd(e, later);
  }

  lemma {:induction false} SeenTogether(a: seq<Effect>, b: seq<Effect>, latest: StreamMeta)
    requires Failed !in a
    ensures Seen(a + b, latest) ==
      View(TokensOf(a) + Seen(b, MetaAfter(a, latest)).tokens, Seen(b, MetaAfter(a, latest)).result)
  {
    if a == [] {
      assert a + b == b;
    } else {
      var e, rest := a[0], a[1..];
      assert a == [e] + rest && a + b == [e] + (rest + b);
      SeenTogether(rest, b, After(e, latest));
      SeenFirst(e, rest + b, latest);
      FirstEffect(e, rest);
    }
  }

  /** A failure is the last effect of a read. */
  lemma {:induction false} OnlyTheEndFails(events: seq<string>, read: Reader)
    ensures !Threw(Effects(events, read)) ==> Failed !in Effects(events, read)
  {
    if events != [] {
      OnlyTheEndFails(events[1..], read);
      match read(events[0])
      case Fires(e) => if e != Failed { ThrewDecidedByTheEnd(e, Effects(events[1..], read)); }
      case _ =>
    }
  }

  // ---------------------------------------------------------------- when the caller sees no cut

  /** After [DONE]: nothing fires but meta objects, and where the next [DONE] or the end comes
      the latest of them is the final one. */
  predicate OnlyRepeats(events: seq<string>, read: Reader, final: StreamMeta, latest: StreamMeta) {
    if events == [] then latest == final
    else
      match read(events[0])
      case Ignored => OnlyRepeats(events[1..], read, final, latest)
      case Done => latest == final && OnlyRepeats(events[1..], read, final, final)
      case Fires(Meta(m)) => OnlyRepeats(events[1..], read, final, m)
      case Fires(_) => false
  }

  /** Up to a failure or the first [DONE] everything counts; from there only repeats may come. */
  predicate QuietForCaller(events: seq<string>, read: Reader, latest: StreamMeta) {
    events == [] ||
    match read(events[0])
    case Done => OnlyRepeats(events[1..], read, latest, latest)
    case Ignored => QuietForCaller(events[1..], read, latest)
    case Fires(Failed) => true
    case Fires(e) => QuietForCaller(events[1..], read, After(e, latest))
  }

  lemma {:induction false} FinalMayBeKnown(events: seq<string>, read: Reader, final: StreamMeta, latest: StreamMeta)
    requires OnlyRepeats(events, read, final, latest)
    ensures OnlyRepeats(events, read, final, final)
  {
    if events != [] && read(events[0]).Ignored? { FinalMayBeKnown(events[1..], read, final, latest); }
  }

  lemma {:induction false} SkippedEvents(a: seq<string>, b: seq<string>, read: Reader, final: StreamMeta,
                                         latest: StreamMeta)
    requires OnlyRepeats(a + b, read, final, latest)
    ensures OnlyRepeats(b, read, final, final)
  {
    if a == [] {
      assert a + b == b;
      FinalMayBeKnown(b, read, final, latest);
    } else {
      assert (a + b)[1..] == a[1..] + b;
      var next := match read(a[0]) case Done => final case Fires(Meta(m)) => m case _ => latest;
      SkippedEvents(a[1..], b, read, final, next);
    }
  }

  /** One read's events after [DONE]. */
  lemma {:induction false} ReadAfterDone(a: seq<string>, b: seq<string>, read: Reader, final: StreamMeta,
                                         latest: StreamMeta)
    requires OnlyRepeats(a + b, read, final, latest)
    ensures var now := Effects(a, read);
      Failed !in now && TokensOf(now) == [] && OnlyRepeats(b, read, final, MetaAfter(now, latest))
  {
    if a == [] {
      assert a + b == b;
    } else {
      assert (a + b)[1..] == a[1..] + b;
      match read(a[0])
      case Done => SkippedEvents(a[1..], b, read, final, final);
      case Ignored => ReadAfterDone(a[1..], b, read, final, latest);
      case Fires(e) =>
        ReadAfterDone(a[1..], b, read, final, After(e, latest));
        FirstEffect(e, Effects(a[1..], read));
    }
  }

  lemma NoFailureNoThrow(effects: seq<Effect>)
    requires Failed !in effects
    ensures !Threw(effects)
  {
  }

  lemma {:induction false} CutsAfterDone(buffer: string, cuts: seq<string>, read: Reader, final: StreamMeta,
                                         latest: StreamMeta)
    requires Split(buffer) == [buffer]
    requires OnlyRepeats(Init(Split(buffer + Concat(cuts))), read, final, latest)
    ensures Seen(Consume(buffer, cuts, read), latest) == View([], Some(final))
    decreases |cuts|
  {
    if cuts == [] {
      assert buffer + Concat(cuts) == buffer;
    } else {
      var first, later := buffer + cuts[0], Concat(cuts[1..]);
      assert buffer + Concat(cuts) == first + later;
      SplitResumes(first, later);
      LastPartHasNoBreak(first);
      var done, rest := Init(Split(first)), Last(Split(first));
      assert Init(Split(first + later)) == done + Init(Split(rest + later));
      ReadAfterDone(done, Init(Split(rest + later)), read, final, latest);
      var now := Effects(done, read);
      NoFailureNoThrow(now);
      CutsAfterDone(rest, cuts[1..], read, final, MetaAfter(now, latest));
      SeenTogether(now, Consume(rest, cuts[1..], read), latest);
    }
  }

  predicate HasDone(events: seq<string>, read: Reader) {
    exists k :: 0 <= k < |events| && read(events[k]).Done?
  }

  /** One read's events from the start of the reply. */
  lemma {:induction false} ReadBeforeDone(a: seq<string>, b: seq<string>, read: Reader, latest: StreamMeta)
    requires QuietForCaller(a + b, read, latest)
    ensures var now := Effects(a, read);
      if Threw(now) then Effects(a + b, read) == now
      else if HasDone(a, read) then
        Effects(a + b, read) == now && OnlyRepeats(b, read, MetaAfter(now, latest), MetaAfter(now, latest))
      else
        Effects(a + b, read) == now + Effects(b, read) && QuietForCaller(b, read, MetaAfter(now, latest))
  {
    if a == [] {
      assert a + b == b && [] + Effects(b, read) == Effects(b, read);
    } else {
      assert (a + b)[1..] == a[1..] + b;
      assert HasDone(a, read) <==> read(a[0]).Done? || HasDone(a[1..], read) by { DoneIsFirstOrLater(a, read); }
      match read(a[0])
      case Done => SkippedEvents(a[1..], b, read, latest, latest);
      case Ignored => ReadBeforeDone(a[1..], b, read, latest);
      case Fires(e) =>
        if e != Failed {
          ReadBeforeDone(a[1..], b, read, After(e, latest));
          FirstEffect(e, Effects(a[1..], read));
          ThrewDecidedByTheEnd(e, Effects(a[1..], read));
          assert [e] + (Effects(a[1..], read) + Effects(b, read))
              == ([e] + Effects(a[1..], read)) + Effects(b, read);
        }
    }
  }

  lemma DoneIsFirstOrLater(events: seq<string>, read: Reader)
    requires events != []
    ensures HasDone(events, read) <==> read(events[0]).Done? || HasDone(events[1..], read)
  {
    if HasDone(events[1..], read) {
      var k :| 0 <= k < |events| - 1 && read(events[1..][k]).Done?;
      assert read(events[k + 1]).Done?;
    }
    if HasDone(events, read) {
      var k :| 0 <= k < |events| && read(events[k]).Done?;
      assert k > 0 ==> events[1..][k - 1] == events[k];
    }
  }

  lemma {:induction false} CutsBeforeDone(buffer: string, cuts: seq<string>, read: Reader, latest: StreamMeta)
    requires Split(buffer) == [buffer]
    requires QuietForCaller(Init(Split(buffer + Concat(cuts))), read, latest)
    ensures Seen(Consume(buffer, cuts, read), latest) == Seen(Meaning(buffer + Concat(cuts), read), latest)
    decreases |cuts|
  {
    if cuts == [] {
      assert buffer + Concat(cuts) == buffer;
    } else {
      var first, later := buffer + cuts[0], Concat(cuts[1..]);
      assert buffer + Concat(cuts) == first + later;
      SplitResumes(first, later);
      LastPartHasNoBreak(first);
      var done, rest := Init(Split(first)), Last(Split(first));
      var coming := Init(Split(rest + later));
      assert Init(Split(first + later)) == done + coming;
      ReadBeforeDone(done, coming, read, latest);
      OnlyTheEndFails(done, read);
      var now := Effects(done, read);
      if !Threw(now) {
        if HasDone(done, read) {
          CutsAfterDone(rest, cuts[1..], read, MetaAfter(now, latest), MetaAfter(now, latest));
        } else {
          CutsBeforeDone(rest, cuts[1..], read, MetaAfter(now, latest));
          SeenTogether(now, Effects(coming, read), latest);
        }
        SeenTogether(now, Consume(rest, cuts[1..], read), latest);
      }
    }
  }

  // ---------------------------------------------------------------- a cut that shows

  /** Read event by event after [DONE], but leave the rest to one read where a [DONE] can hide
      that the latest meta object was not the final one. */
  function HidingCuts(s: string, read: Reader, final: StreamMeta, latest: StreamMeta): (cuts: seq<string>)
    ensures Concat(cuts) == s
    decreases |s|
  {
    var i := FirstBreak(s);
    if i == |s| || (read(s[..i]).Done? && latest != final) then assert Concat([s]) == s; [s]
    else
      var next := match read(s[..i]) case Done => final case Fires(e) => After(e, latest) case Ignored => latest;
      var cuts := [s[..i + 2]] + HidingCuts(s[i + 2..], read, final, next);
      assert cuts[1..] == HidingCuts(s[i + 2..], read, final, next);
      cuts
  }

  /** The first event of a text with a blank line, and the events behind it. */
  lemma {:induction false} FirstEvent(s: string)
    requires FirstBreak(s) < |s|
    ensures var i := FirstBreak(s);
      && Init(Split(s)) == [s[..i]] + Init(Split(s[i + 2..]))
      && Split(s[..i + 2]) == [s[..i], ""]
  {
    SplitAt(s);
    SplitOfOneEvent(s, FirstBreak(s));
    InitBehindHead(s[..FirstBreak(s)], Split(s[FirstBreak(s) + 2..]), []);
  }

  lemma {:induction false} NoEvent(s: string, read: Reader)
    requires FirstBreak(s) == |s|
    ensures Init(Split(s)) == [] && Consume("", [s], read) == []
  {
    assert Split(s) == [s] && "" + s == s && [s][1..] == [];
    assert Consume("", [s], read) == Effects([], read) + Consume(s, [], read);
  }

  /** A read that starts with [DONE] shows nothing. */
  lemma {:induction false} HiddenRead(s: string, read: Reader)
    requires FirstBreak(s) < |s| && read(s[..FirstBreak(s)]).Done?
    ensures Consume("", [s], read) == []
  {
    FirstEvent(s);
    assert "" + s == s && [s][1..] == [];
    assert Effects(Init(Split(s)), read) == [];
  }

  lemma {:induction false} HidingCutsAt(s: string, read: Reader, final: StreamMeta, latest: StreamMeta)
    requires FirstBreak(s) < |s| && !(read(s[..FirstBreak(s)]).Done? && latest != final)
    ensures var i := FirstBreak(s);
      var next := match read(s[..i]) case Done => final case Fires(e) => After(e, latest) case Ignored => latest;
      HidingCuts(s, read, final, latest) == [s[..i + 2]] + HidingCuts(s[i + 2..], read, final, next)
  {
  }

  /** How the view of a reply follows from its first event and the rest. */
  lemma {:induction false} FirstEventSeen(event: string, cut: string, later: seq<string>, read: Reader,
                                          latest: StreamMeta)
    requires Split(cut) == [event, ""]
    ensures var rest := Consume("", later, read);
      Seen(Consume("", [cut] + later, read), latest) ==
        match read(event)
        case Fires(Failed) => View([], None)
        case Fires(Token(t)) => View([t] + Seen(rest, latest).tokens, Seen(rest, latest).result)
        case Fires(Meta(m)) => Seen(rest, m)
        case _ => Seen(rest, latest)
  {
    FirstCut(cut, event, later, read);
    EffectsOfOneEvent(event, read);
    var rest := Consume("", later, read);
    match read(event)
    case Fires(e) =>
      if e == Failed { assert Init([Failed]) == []; } else { SeenFirst(e, rest, latest); }
    case _ => assert [] + rest == rest;
  }

  lemma {:induction false} HidingCutsShow(s: string, read: Reader, final: StreamMeta, latest: StreamMeta)
    requires !OnlyRepeats(Init(Split(s)), read, final, latest)
    ensures Seen(Consume("", HidingCuts(s, read, final, latest), read), latest) != View([], Some(final))
    decreases |s|
  {
    var i := FirstBreak(s);
    if i == |s| {
      NoEvent(s, read);
    } else {
      FirstEvent(s);
      var event, tail := s[..i], s[i + 2..];
      assert Init(Split(s))[1..] == Init(Split(tail));
      if read(event).Done? && latest != final {
        HiddenRead(s, read);
      } else {
        HidingCutsAt(s, read, final, latest);
        var next := match read(event) case Done => final case Fires(e) => After(e, latest) case Ignored => latest;
        FirstEventSeen(event, s[..i + 2], HidingCuts(tail, read, final, next), read, latest);
        match read(event)
        case Fires(Failed) =>
        case Fires(Token(_)) =>
        case _ => HidingCutsShow(tail, read, final, next);
      }
    }
  }

  /** Event by event up to the first [DONE]. */
  function ShowingCuts(s: string, read: Reader, latest: StreamMeta): (cuts: seq<string>)
    ensures Concat(cuts) == s
    decreases |s|
  {
    var i := FirstBreak(s);
    if i == |s| then assert Concat([s]) == s; [s]
    else
      var tail := s[i + 2..];
      var later := match read(s[..i])
        case Done => HidingCuts(tail, read, latest, latest)
        case Fires(e) => ShowingCuts(tail, read, After(e, latest))
        case Ignored => ShowingCuts(tail, read, latest);
      assert ([s[..i + 2]] + later)[1..] == later;
      [s[..i + 2]] + later
  }

  lemma {:induction false} ShowingCutsAt(s: string, read: Reader, latest: StreamMeta)
    requires FirstBreak(s) < |s|
    ensures var i := FirstBreak(s);
      var tail := s[i + 2..];
      ShowingCuts(s, read, latest) == [s[..i + 2]] +
        match read(s[..i])
        case Done => HidingCuts(tail, read, latest, latest)
        case Fires(e) => ShowingCuts(tail, read, After(e, latest))
        case Ignored => ShowingCuts(tail, read, latest)
  {
  }

  /** A difference behind an effect stays one. */
  lemma {:induction false} DifferenceLasts(event: string, cut: string, later: seq<string>, meant: seq<Effect>,
                                           read: Reader, e: Effect, latest: StreamMeta)
    requires Split(cut) == [event, ""] && read(event) == Fires(e) && e != Failed
    requires Seen(Consume("", later, read), After(e, latest)) != Seen(meant, After(e, latest))
    ensures Seen(Consume("", [cut] + later, read), latest) != Seen([e] + meant, latest)
  {
    FirstEventSeen(event, cut, later, read, latest);
    SeenFirst(e, meant, latest);
    var x, y := Seen(Consume("", later, read), After(e, latest)).tokens, Seen(meant, After(e, latest)).tokens;
    if e.Token? { assert ([e.text] + x)[1..] == x && ([e.text] + y)[1..] == y; }
  }

  lemma {:induction false} MeaningFirst(s: string, read: Reader)
    requires FirstBreak(s) < |s|
    ensures var i := FirstBreak(s);
      Meaning(s, read) == match read(s[..i])
        case Ignored => Meaning(s[i + 2..], read)
        case Done => []
        case Fires(Failed) => [Failed]
        case Fires(e) => [e] + Meaning(s[i + 2..], read)
  {
    FirstEvent(s);
    assert Init(Split(s))[1..] == Init(Split(s[FirstBreak(s) + 2..]));
  }

  lemma {:induction false} ShowingCutsShow(s: string, read: Reader, latest: StreamMeta)
    requires !QuietForCaller(Init(Split(s)), read, latest)
    ensures Seen(Consume("", ShowingCuts(s, read, latest), read), latest) != Seen(Meaning(s, read), latest)
    decreases |s|
  {
    var i := FirstBreak(s);
    if i == |s| {
      NoEvent(s, read);
    } else {
      FirstEvent(s);
      MeaningFirst(s, read);
      ShowingCutsAt(s, read, latest);
      var event, cut, tail := s[..i], s[..i + 2], s[i + 2..];
      assert Init(Split(s))[1..] == Init(Split(tail));
      match read(event)
      case Done =>
        HidingCutsShow(tail, read, latest, latest);
        FirstEventSeen(event, cut, HidingCuts(tail, read, latest, latest), read, latest);
      case Ignored =>
        ShowingCutsShow(tail, read, latest);
        FirstEventSeen(event, cut, ShowingCuts(tail, read, latest), read, latest);
      case Fires(e) =>
        ShowingCutsShow(tail, read, After(e, latest));
        DifferenceLasts(event, cut, ShowingCuts(tail, read, After(e, latest)), Meaning(tail, read), read, e, latest);
    }
  }

  /** The caller sees the same for every cut of a reply exactly when, after [DONE], at most meta
      objects come that leave the final one standing at each further [DONE] and at the end. */
  lemma {:induction false} CallerSeesNoCutIff(text: string, read: Reader)
    ensures QuietForCaller(Init(Split(text)), read, DEFAULT_META) <==>
      forall cuts :: Concat(cuts) == text ==>
        Seen(Consume("", cuts, read), DEFAULT_META) == Seen(Meaning(text, read), DEFAULT_META)
  {
    if QuietForCaller(Init(Split(text)), read, DEFAULT_META) {
      forall cuts | Concat(cuts) == text
        ensures Seen(Consume("", cuts, read), DEFAULT_META) == Seen(Meaning(text, read), DEFAULT_META)
      {
        assert "" + Concat(cuts) == text;
        CutsBeforeDone("", cuts, read, DEFAULT_META);
      }
    } else {
      ShowingCutsShow(text, read, DEFAULT_META);
      assert Concat(ShowingCuts(text, read, DEFAULT_META)) == text;
    }
  }
}
