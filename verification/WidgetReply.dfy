/**
  Replies as the server prints them (frames of "data: ..." ended by blank lines) and as the
  widget's reader gives them to its caller (frontend/widget/src/api.ts): a round trip.
 */
module WidgetReply {
  import opened Basics
  import opened WidgetStream
  import opened WidgetCaller

  // ---------------------------------------------------------------- trimming

  /** From i to j the text, around it only blanks. */
  predicate CoreAt(s: string, i: nat, j: nat) {
    && i <= j <= |s|
    && (forall k :: 0 <= k < i ==> IsJsSpace(s[k])) && (forall k :: j <= k < |s| ==> IsJsSpace(s[k]))
    && (i < j ==> !IsJsSpace(s[i]) && !IsJsSpace(s[j - 1]))
  }

  lemma {:induction false} TrimIsCore(s: string) returns (i: nat, j: nat)
    ensures CoreAt(s, i, j) && Trim(s) == s[i..j]
    decreases |s|
  {
    i, j := 0, |s|;
    if s != "" {
      if IsJsSpace(s[0]) {
        i, j := TrimIsCore(s[1..]);
        BlankBefore(s, i, j);
        i, j := i + 1, j + 1;
      } else if IsJsSpace(Last(s)) {
        i, j := TrimIsCore(Init(s));
        BlankBehind(s, i, j);
      }
    }
  }

  lemma BlankBefore(s: string, i: nat, j: nat)
    requires s != "" && IsJsSpace(s[0]) && CoreAt(s[1..], i, j)
    ensures CoreAt(s, i + 1, j + 1) && s[i + 1..j + 1] == s[1..][i..j]
  {
    assert forall k :: 0 <= k < |s| - 1 ==> s[1..][k] == s[k + 1];
    forall k | 0 <= k < i + 1 ensures IsJsSpace(s[k]) {
      assert k > 0 ==> s[k] == s[1..][k - 1];
    }
    forall k | j + 1 <= k < |s| ensures IsJsSpace(s[k]) {
      assert s[k] == s[1..][k - 1];
    }
  }

  lemma BlankBehind(s: string, i: nat, j: nat)
    requires s != "" && IsJsSpace(Last(s)) && CoreAt(Init(s), i, j)
    ensures CoreAt(s, i, j) && s[i..j] == Init(s)[i..j]
  {
    assert forall k :: 0 <= k < |s| - 1 ==> Init(s)[k] == s[k];
  }

  /** Trimming gives the text between the outer blanks, and there is only one. */
  lemma {:induction false} TrimExactly(s: string, i: nat, j: nat)
    requires CoreAt(s, i, j)
    ensures Trim(s) == s[i..j]
  {
    var k, l := TrimIsCore(s);
    if i < j {
      assert k <= i && i < l && k < l && i <= k;
      assert j - 1 < l && l - 1 < j;
    } else {
      assert forall q :: 0 <= q < |s| ==> IsJsSpace(s[q]);
    }
  }

  /** JavaScript's blanks are Python's but for five control characters and the byte order mark. */
  lemma BlanksCompared(c: char)
    ensures IsJsSpace(c) <==>
      (IsSpace(c) && c as int !in {0x1c, 0x1d, 0x1e, 0x1f, 0x85}) || c as int == 0xFEFF
  {
    var n := c as int;
    assert IsSpace(c) <==>
      n == 0x20 || 0x09 <= n <= 0x0d || 0x1c <= n <= 0x1f || n == 0x85 || n == 0xa0 || n == 0x1680
      || 0x2000 <= n <= 0x200a || 0x2028 <= n <= 0x2029 || n == 0x202f || n == 0x205f || n == 0x3000
    by {
      assert SPACES[0] == (0x20, 0x20) && SPACES[1] == (0x09, 0x0d) && SPACES[2] == (0x1c, 0x1f);
      assert SPACES[3] == (0x85, 0x85) && SPACES[4] == (0xa0, 0xa0) && SPACES[5] == (0x1680, 0x1680);
      assert SPACES[6] == (0x2000, 0x200a) && SPACES[7] == (0x2028, 0x2029) && SPACES[8] == (0x202f, 0x202f);
      assert SPACES[9] == (0x205f, 0x205f) && SPACES[10] == (0x3000, 0x3000) && |SPACES| == 11;
    }
  }

  /** Behind a prefix without blanks at its ends only the end is trimmed. */
  lemma {:induction false} TrimBehindPrefix(prefix: string, s: string) returns (end: nat)
    requires prefix != "" && !IsJsSpace(prefix[0]) && !IsJsSpace(Last(prefix))
    ensures end <= |s| && Trim(prefix + s) == prefix + s[..end] && Trim(s[..end]) == Trim(s)
  {
    var i, j := TrimIsCore(s);
    end := if i == j then 0 else j;
    EndBehindPrefix(prefix, s, i, j, end);
    TrimExactly(prefix + s, 0, |prefix| + end);
    assert (prefix + s)[0..|prefix| + end] == prefix + s[..end];
    if i < j {
      assert CoreAt(s[..j], i, j) && s[..j][i..j] == s[i..j];
      TrimExactly(s[..j], i, j);
    }
  }

  lemma EndBehindPrefix(prefix: string, s: string, i: nat, j: nat, end: nat)
    requires prefix != "" && !IsJsSpace(prefix[0]) && !IsJsSpace(Last(prefix)) && CoreAt(s, i, j)
    requires end == if i == j then 0 else j
    ensures CoreAt(prefix + s, 0, |prefix| + end)
  {
    var all := prefix + s;
    forall k | |prefix| + end <= k < |all| ensures IsJsSpace(all[k]) {
      assert all[k] == s[k - |prefix|];
    }
    assert end > 0 ==> all[|prefix| + end - 1] == s[end - 1];
    assert all[|prefix| - 1] == Last(prefix);
  }

  lemma {:induction false} TrimBehindBlank(s: string)
    ensures Trim(" " + s) == Trim(s)
  {
    assert (" " + s)[1..] == s;
  }

  // ---------------------------------------------------------------- frames

  datatype Frame = Data(text: string) | Other(line: string)

  function Printed(f: Frame): string {
    match f case Data(text) => "data: " + text case Other(line) => line
  }

  /** A frame has no blank line in it, does not end in a newline, and is marked as data exactly
      when it is. */
  ghost predicate WellFormed(f: Frame) {
    && (forall j :: !BreakAt(Printed(f), j)) && (Printed(f) != "" ==> Last(Printed(f)) != '\n')
    && (f.Other? ==> !("data:" <= Trim(f.line)))
    && (f.Data? ==> Trim(f.text) !in {"[DONE]", "[ERROR]"})
  }

  function Print(frames: seq<Frame>): string {
    if frames == [] then "" else Printed(frames[0]) + "\n\n" + Print(frames[1..])
  }

  /** The text of a frame names a meta object. */
  predicate IsMeta(f: Frame, parse: MetaParser) {
    f.Data? && Trim(f.text) != "" && Trim(f.text)[0] == '{' && parse(Trim(f.text)).Some?
  }

  function Known(f: Frame, parse: MetaParser, latest: StreamMeta): StreamMeta {
    if IsMeta(f, parse) then parse(Trim(f.text)).value else latest
  }

  function TokenOf(f: Frame, parse: MetaParser): seq<string> {
    if f.Data? && !IsMeta(f, parse) then [Trim(f.text)] else []
  }

  /** The other data, trimmed, in order. */
  function TokensIn(frames: seq<Frame>, parse: MetaParser): seq<string> {
    if frames == [] then []
    else
      TokenOf(frames[0], parse) + TokensIn(frames[1..], parse)
  }

  /** The last meta object, or the one known before. */
  function MetaIn(frames: seq<Frame>, parse: MetaParser, latest: StreamMeta): StreamMeta {
    if frames == [] then latest
    else MetaIn(frames[1..], parse, Known(frames[0], parse, latest))
  }

  function Texts(frames: seq<Frame>): seq<string> {
    seq(|frames|, i requires 0 <= i < |frames| => Printed(frames[i]))
  }

  // ---------------------------------------------------------------- what an event means

  /** Data is trimmed and means the end, a failure, a meta object or a token. */
  lemma {:induction false} DataMeans(text: string, parse: MetaParser)
    ensures var d := Trim(text);
      Classify("data: " + text, parse) ==
        if d == "[DONE]" then Done
        else if d == "[ERROR]" then Fires(Failed)
        else if IsMeta(Data(text), parse) then Fires(Meta(parse(d).value))
        else Fires(Token(d))
  {
    var event := "data: " + text;
    assert event == "data:" + (" " + text);
    var end := TrimBehindPrefix("data:", " " + text);
    TrimBehindBlank(text);
    var line := Trim(event);
    assert line == "data:" + (" " + text)[..end] && line[5..] == (" " + text)[..end];
    var d := Trim(text);
    assert "{" <= d <==> d != "" && d[0] == '{';
  }

  /** A frame that is not data means nothing. */
  lemma {:induction false} OtherMeansNothing(line: string, parse: MetaParser)
    requires !("data:" <= Trim(line))
    ensures Classify(line, parse) == Ignored
  {
  }

  // ---------------------------------------------------------------- from frames to events

  lemma {:induction false} OnePrintedFrame(event: string, rest: string)
    requires (forall j :: !BreakAt(event, j)) && (event != "" ==> Last(event) != '\n')
    ensures Split(event + "\n\n" + rest) == [event] + Split(rest)
  {
    var s := event + "\n\n" + rest;
    forall j | 0 <= j < |event| ensures !BreakAt(s, j) {
      assert !BreakAt(event, j);
      assert j == |event| - 1 ==> s[j] == Last(event);
    }
    LeftmostBreak(s, |event|);
    SplitAt(s);
    assert s[..|event|] == event && s[|event| + 2..] == rest;
  }

  lemma FirstFrame(frames: seq<Frame>, rest: seq<string>)
    requires frames != []
    ensures Texts(frames) + rest == [Printed(frames[0])] + (Texts(frames[1..]) + rest)
  {
  }

  lemma {:induction false} PrintedEvents(frames: seq<Frame>, rest: string)
    requires forall i :: 0 <= i < |frames| ==> WellFormed(frames[i])
    ensures Init(Split(Print(frames) + rest)) == Texts(frames) + Init(Split(rest))
  {
    if frames == [] {
      assert Print(frames) + rest == rest;
    } else {
      PrintedEvents(frames[1..], rest);
      FirstPrinted(frames, rest);
      FirstFrame(frames, Init(Split(rest)));
    }
  }

  lemma {:induction false} FirstPrinted(frames: seq<Frame>, rest: string)
    requires frames != [] && WellFormed(frames[0])
    ensures Init(Split(Print(frames) + rest)) == [Printed(frames[0])] + Init(Split(Print(frames[1..]) + rest))
  {
    var event, later := Printed(frames[0]), Print(frames[1..]) + rest;
    assert Print(frames) + rest == event + "\n\n" + later;
    OnePrintedFrame(event, later);
    InitBehindHead(event, Split(later), []);
  }

  lemma {:induction false} FrameIsQuiet(f: Frame, events: seq<string>, parse: MetaParser)
    requires WellFormed(f)
    ensures QuietAfterDone([Printed(f)] + events, AsReader(parse)) <==> QuietAfterDone(events, AsReader(parse))
  {
    assert ([Printed(f)] + events)[1..] == events;
    if f.Data? { DataMeans(f.text, parse); } else { OtherMeansNothing(f.line, parse); }
  }

  lemma {:induction false} FramesAreQuiet(frames: seq<Frame>, rest: seq<string>, parse: MetaParser)
    requires forall i :: 0 <= i < |frames| ==> WellFormed(frames[i])
    ensures QuietAfterDone(Texts(frames) + rest, AsReader(parse)) <==> QuietAfterDone(rest, AsReader(parse))
  {
    if frames == [] {
      assert Texts(frames) + rest == rest;
    } else {
      FirstFrame(frames, rest);
      FrameIsQuiet(frames[0], Texts(frames[1..]) + rest, parse);
      FramesAreQuiet(frames[1..], rest, parse);
    }
  }

  /** Tokens put before what is seen later. */
  function Before(tokens: seq<string>, v: View): View {
    View(tokens + v.tokens, v.result)
  }

  /** One frame makes the reader do this, and then it goes on. */
  lemma {:induction false} FrameSeen(f: Frame, events: seq<string>, parse: MetaParser, latest: StreamMeta)
    requires WellFormed(f)
    ensures Seen(Effects([Printed(f)] + events, AsReader(parse)), latest)
         == Before(TokenOf(f, parse), Seen(Effects(events, AsReader(parse)), Known(f, parse, latest)))
  {
    var read, all := AsReader(parse), [Printed(f)] + events;
    assert all[0] == Printed(f) && all[1..] == events;
    if f.Data? {
      DataMeans(f.text, parse);
      var e := if IsMeta(f, parse) then Meta(parse(Trim(f.text)).value) else Token(Trim(f.text));
      assert read(all[0]) == Fires(e);
      SeenFirst(e, Effects(events, read), latest);
    } else {
      OtherMeansNothing(f.line, parse);
    }
  }

  lemma BeforeBefore(a: seq<string>, b: seq<string>, v: View)
    ensures Before(a, Before(b, v)) == Before(a + b, v)
  {
    assert a + (b + v.tokens) == a + b + v.tokens;
  }

  /** The events of frames come before the rest: tokens, then meta objects by then known. */
  lemma {:induction false} FramesSeen(frames: seq<Frame>, rest: seq<string>, parse: MetaParser, latest: StreamMeta)
    requires forall i :: 0 <= i < |frames| ==> WellFormed(frames[i])
    ensures Seen(Effects(Texts(frames) + rest, AsReader(parse)), latest)
         == Before(TokensIn(frames, parse), Seen(Effects(rest, AsReader(parse)), MetaIn(frames, parse, latest)))
  {
    var read := AsReader(parse);
    var after := Seen(Effects(rest, read), MetaIn(frames, parse, latest));
    if frames == [] {
      assert Texts(frames) + rest == rest && Before([], after) == after;
    } else {
      var f := frames[0];
      FirstFrame(frames, rest);
      FrameSeen(f, Texts(frames[1..]) + rest, parse, latest);
      FramesSeen(frames[1..], rest, parse, Known(f, parse, latest));
      BeforeBefore(TokenOf(f, parse), TokensIn(frames[1..], parse), after);
    }
  }

  const DONE_FRAME := "data: [DONE]"
  const ERROR_FRAME := "data: [ERROR]"

  lemma EndFrames(parse: MetaParser)
    ensures Classify(DONE_FRAME, parse) == Done && Classify(ERROR_FRAME, parse) == Fires(Failed)
    ensures (forall j :: !BreakAt(DONE_FRAME, j)) && (forall j :: !BreakAt(ERROR_FRAME, j))
    ensures Last(DONE_FRAME) != '\n' && Last(ERROR_FRAME) != '\n'
  {
    DataMeans("[DONE]", parse);
    DataMeans("[ERROR]", parse);
    assert DONE_FRAME == "data: " + "[DONE]" && ERROR_FRAME == "data: " + "[ERROR]";
    assert forall i :: 0 <= i < |DONE_FRAME| ==> DONE_FRAME[i] != '\n';
    assert forall i :: 0 <= i < |ERROR_FRAME| ==> ERROR_FRAME[i] != '\n';
  }

  // ---------------------------------------------------------------- the round trip

  /** A printed reply that ends with the done frame: under every cut the caller gets the trimmed
      data that name no meta object, in order, and the last meta object or the default one, and no
      failure. */
  lemma {:induction false} RepliesArrive(frames: seq<Frame>, cuts: seq<string>, parse: MetaParser)
    requires forall i :: 0 <= i < |frames| ==> WellFormed(frames[i])
    requires Concat(cuts) == Print(frames) + (DONE_FRAME + "\n\n")
    ensures Seen(Consume("", cuts, AsReader(parse)), DEFAULT_META)
         == View(TokensIn(frames, parse), Some(MetaIn(frames, parse, StreamMeta(false, 0.0, []))))
  {
    var read, text := AsReader(parse), Concat(cuts);
    EndFrames(parse);
    OnePrintedFrame(DONE_FRAME, "");
    assert DONE_FRAME + "\n\n" + "" == DONE_FRAME + "\n\n" && Split("") == [""];
    var rest := Init(Split(DONE_FRAME + "\n\n"));
    assert rest == [DONE_FRAME] && rest[1..] == [];
    PrintedEvents(frames, DONE_FRAME + "\n\n");
    FramesAreQuiet(frames, rest, parse);
    FramesSeen(frames, rest, parse, DEFAULT_META);
    assert Effects(rest, read) == [];
    assert "" + text == text;
    EveryCutMeansTheSame("", cuts, read);
    assert TokensIn(frames, parse) + [] == TokensIn(frames, parse);
  }

  /** With an error frame behind the data, whatever follows, the reply fails after exactly the
      tokens before. */
  lemma {:induction false} FailuresArrive(frames: seq<Frame>, after: string, cuts: seq<string>, parse: MetaParser)
    requires forall i :: 0 <= i < |frames| ==> WellFormed(frames[i])
    requires Concat(cuts) == Print(frames) + (ERROR_FRAME + "\n\n" + after)
    ensures Seen(Consume("", cuts, AsReader(parse)), DEFAULT_META) == View(TokensIn(frames, parse), None)
  {
    var read, text := AsReader(parse), Concat(cuts);
    EndFrames(parse);
    OnePrintedFrame(ERROR_FRAME, after);
    var rest := Init(Split(ERROR_FRAME + "\n\n" + after));
    InitBehindHead(ERROR_FRAME, Split(after), []);
    assert rest[0] == ERROR_FRAME;
    PrintedEvents(frames, ERROR_FRAME + "\n\n" + after);
    FramesAreQuiet(frames, rest, parse);
    FramesSeen(frames, rest, parse, DEFAULT_META);
    assert Effects(rest, read) == [Failed];
    assert "" + text == text;
    EveryCutMeansTheSame("", cuts, read);
    assert TokensOf([Failed]) == [] by { assert Init([Failed]) == []; }
    assert TokensIn(frames, parse) + [] == TokensIn(frames, parse);
  }
}
