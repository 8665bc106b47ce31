/** Exactly which words end the agreement of the tracker
    (apps/sandbox-supervisor/src/answer.ts:136-186) with the definition: words for
    a message from before a tool call, and words past the memory guard. */
module AnswerAgreement {
  import opened Wrappers
  import opened Text
  import opened Answer
  import opened AnswerMeaning

  // ---------------------------------------------------------------- one message of a stretch rewritten

  lemma {:induction false} ParagraphsConcat(a: seq<Message>, b: seq<Message>)
    ensures Paragraphs(a + b) == Paragraphs(a) + Paragraphs(b)
  {
    hide Trim;
    if b == [] {
      assert a + b == a;
    } else {
      ParagraphsConcat(a, b[..|b| - 1]);
      assert (a + b)[..|a + b| - 1] == a + b[..|b| - 1];
    }
  }

  function Own(text: string): seq<string> {
    if Trim(text) == "" then [] else [Trim(text)]
  }

  lemma OneParagraph(m: Message)
    ensures Paragraphs([m]) == Own(m.text)
  {
    hide Trim;
    assert [m][..0] == [];
  }

  lemma {:induction false} JoinLength(a: seq<string>, b: seq<string>)
    ensures |Join(a + b)| == |Join(a)| + |Join(b)| + if a != [] && b != [] then 2 else 0
  {
    if b == [] {
      assert a + b == a;
    } else {
      JoinLength(a, b[..|b| - 1]);
      assert (a + b)[..|a + b| - 1] == a + b[..|b| - 1];
    }
  }

  lemma JoinInsert(a: seq<string>, own: seq<string>, b: seq<string>)
    requires |own| <= 1
    ensures |Join(a + own + b)| == |Join(a + b)| + |Join(own)| + if own != [] && a + b != [] then 2 else 0
    ensures a + b == [] ==> Join(a + own + b) == Join(own)
  {
    JoinLength(a, own);
    JoinLength(a + own, b);
    JoinLength(a, b);
    assert a + b == [] ==> a + own + b == own;
  }

  function Rewritten(messages: seq<Message>, i: nat, text: string): seq<Message>
    requires i < |messages|
  {
    messages[i := messages[i].(text := text)]
  }

  lemma RewrittenParagraphs(messages: seq<Message>, i: nat, text: string)
    requires i < |messages|
    ensures Paragraphs(Rewritten(messages, i, text))
            == Paragraphs(messages[..i]) + Own(text) + Paragraphs(messages[i + 1..])
    ensures Paragraphs(Without(messages, i)) == Paragraphs(messages[..i]) + Paragraphs(messages[i + 1..])
  {
    hide Trim, Paragraphs, Own;
    var m := messages[i].(text := text);
    assert Rewritten(messages, i, text) == messages[..i] + [m] + messages[i + 1..];
    ParagraphsConcat(messages[..i] + [m], messages[i + 1..]);
    ParagraphsConcat(messages[..i], [m]);
    ParagraphsConcat(messages[..i], messages[i + 1..]);
    OneParagraph(m);
  }

  /** What a stretch reads as once one of its messages is rewritten. */
  lemma RewrittenText(messages: seq<Message>, i: nat, text: string)
    requires i < |messages|
    ensures var others := TextOf(Without(messages, i));
            && |TextOf(Rewritten(messages, i, text))|
               == |others| + |Trim(text)| + (if Trim(text) != "" && others != "" then 2 else 0)
            && (others == "" ==> TextOf(Rewritten(messages, i, text)) == Trim(text))
  {
    hide Trim, Paragraphs, Join;
    RewrittenParagraphs(messages, i, text);
    JoinInsert(Paragraphs(messages[..i]), Own(text), Paragraphs(messages[i + 1..]));
    OwnJoined(text);
    ParagraphsSilent(Without(messages, i));
    TextSilent(Without(messages, i));
  }

  lemma OwnJoined(text: string)
    ensures Join(Own(text)) == Trim(text)
  {
    hide Trim;
  }

  lemma SameWords(messages: seq<Message>, i: nat, text: string)
    requires i < |messages| && Trim(text) == Trim(messages[i].text)
    ensures TextOf(Rewritten(messages, i, text)) == TextOf(messages)
  {
    hide Trim, Paragraphs, Join;
    RewrittenParagraphs(messages, i, text);
    RewrittenParagraphs(messages, i, messages[i].text);
    assert Rewritten(messages, i, messages[i].text) == messages;
  }

  // ---------------------------------------------------------------- the two answers

  function Either(closing: string, fallback: string): string {
    if closing != "" then closing else fallback
  }

  /** The definition takes one more event. */
  lemma SimpleNext(events: seq<HarnessEvent>, e: HarnessEvent)
    requires !IsTool(e)
    ensures SimpleAnswer(events + [e]) == Either(TextOf(MessagesOf(Closing(events) + [e])), EarlierAnswer(events))
  {
    hide TextOf, MessagesOf;
    var all := events + [e];
    assert all[..|all| - 1] == events;
    assert EarlierAnswer(all) == EarlierAnswer(events);
  }

  /** The tracker's state tells the closing talk and the earlier answer. */
  ghost predicate Tells(t: Tracker, talk: seq<HarnessEvent>, earlier: string) {
    && t.held == []
    && t.current.messages == MessagesOf(talk)
    && TextOf(t.previous.messages) == earlier
    && (t.previous.messages == [] || earlier != "")
  }

  /** The fallback holds words or nothing at all. */
  lemma {:induction false} FallbackSpeaks(events: seq<HarnessEvent>)
    requires NoCrossing(events) && Fits(events)
    ensures Watch(events).previous.messages == [] || TextOf(Watch(events).previous.messages) != ""
  {
    hide TextOf, Append, Replace, Volume, Release, Follows, FramedIds, CloseStretch;
    if events != [] {
      var init, e := events[..|events| - 1], events[|events| - 1];
      FallbackSpeaks(init);
      WatchAgrees(init);
      var t := Watch(init);
      match e
      case TextDelta(id, text) =>
        TalkStep(t, Closing(init), e, id, text);
        ReleaseNothing(Append(t, id, text), false);
      case TextReplace(id, text) =>
        TalkStep(t, Closing(init), e, Some(id), text);
        ReleaseNothing(Replace(t, id, text), false);
      case ToolStarted => ReleaseNothing(t, true); ClosedSpeaks(t);
      case ToolFinished => ClosedSpeaks(t);
      case OtherEvent => ObserveOther(t);
    }
  }

  lemma ClosedSpeaks(t: Tracker)
    requires t.previous.messages == [] || TextOf(t.previous.messages) != ""
    ensures CloseStretch(t).previous.messages == [] || TextOf(CloseStretch(t).previous.messages) != ""
  {
    hide TextOf;
  }

  lemma WatchTells(events: seq<HarnessEvent>)
    requires NoCrossing(events) && Fits(events)
    ensures Tells(Watch(events), Closing(events), EarlierAnswer(events))
  {
    hide TextOf, Volume, FramedIds, UsedEarlier, NoCrossing, Fits, Length;
    WatchAgrees(events);
    FallbackSpeaks(events);
  }

  lemma MoreText(messages: seq<Message>, m: Message)
    ensures TextOf(messages + [m])
            == if Trim(m.text) == "" then TextOf(messages)
               else if TextOf(messages) == "" then Trim(m.text)
               else TextOf(messages) + "\n\n" + Trim(m.text)
  {
    hide Trim, Paragraphs, Join;
    ParagraphsConcat(messages, [m]);
    OneParagraph(m);
    ParagraphsSilent(messages);
    TextSilent(messages);
    JoinMore(Paragraphs(messages), m.text);
  }

  lemma JoinMore(ps: seq<string>, text: string)
    ensures Join(ps + Own(text)) == if Trim(text) == "" then Join(ps) else if ps == [] then Trim(text) else Join(ps) + "\n\n" + Trim(text)
  {
    hide Trim;
    if Trim(text) == "" {
      assert ps + [] == ps;
    } else {
      assert (ps + [Trim(text)])[..|ps|] == ps;
    }
  }

  lemma WatchOne(events: seq<HarnessEvent>, e: HarnessEvent)
    requires Watch(events).held == [] && (e.TextDelta? || e.TextReplace?)
    ensures Watch(events + [e])
            == if e.TextDelta? then Append(Watch(events), e.messageId, e.text) else Replace(Watch(events), e.id, e.text)
  {
    hide Append, Replace;
    assert (events + [e])[..|events|] == events;
    var t := if e.TextDelta? then Append(Watch(events), e.messageId, e.text) else Replace(Watch(events), e.id, e.text);
    assert t.held == [] by { WordsHoldNothing(Watch(events), e); }
    ReleaseNothing(t, false);
  }

  lemma WordsHoldNothing(t: Tracker, e: HarnessEvent)
    ensures e.TextDelta? ==> Append(t, e.messageId, e.text).held == t.held
    ensures e.TextReplace? ==> Replace(t, e.id, e.text).held == t.held
  {
  }

  // ---------------------------------------------------------------- deltas

  /** What a stretch reads as once a message of it goes on. */
  lemma GrownText(messages: seq<Message>, i: nat, text: string)
    requires i < |messages|
    ensures var grown := TextOf(Rewritten(messages, i, messages[i].text + text));
            if Trim(text) == "" then grown == TextOf(messages)
            else if TextOf(messages) == "" then grown == Trim(text)
            else grown != Trim(text) && grown != TextOf(messages) && grown != ""
  {
    hide Trim, TextOf;
    var before := messages[i].text;
    TrimBlank(text);
    TrimBlank(before);
    if Trim(text) == "" {
      TrimBlankAfter(before, text);
      SameWords(messages, i, before + text);
    } else {
      RewrittenText(messages, i, before + text);
      RewrittenText(messages, i, before);
      assert Rewritten(messages, i, before) == messages;
      if Trim(before) != "" { TrimLonger(before, text); } else { TrimBlankBefore(before, text); }
    }
  }

  /** The closing talk with a message of its own gone on or corrected. */
  lemma ClosingChanged(messages: seq<Message>, talk: seq<HarnessEvent>, e: HarnessEvent, id: Option<Id>, text: string, i: nat)
    requires messages == MessagesOf(talk) && Talks(e, id, text) && i < |messages| && messages[i].id == id
    ensures MessagesOf(talk + [e]) == Rewritten(messages, i, if e.TextDelta? then messages[i].text + text else text)
  {
    hide Speakers, Said;
    SameSpeaker(talk, e, id, text, i);
  }

  /** And with words for a message it does not have. */
  lemma ClosingGrown(messages: seq<Message>, talk: seq<HarnessEvent>, e: HarnessEvent, id: Option<Id>, text: string)
    requires messages == MessagesOf(talk) && Talks(e, id, text) && forall m <- messages :: m.id != id
    ensures MessagesOf(talk + [e]) == messages + if text == "" then [] else [Message(id, text)]
    ensures TextOf(MessagesOf(talk + [e]))
            == if Trim(text) == "" then TextOf(messages)
               else if TextOf(messages) == "" then Trim(text)
               else TextOf(messages) + "\n\n" + Trim(text)
  {
    hide Trim, TextOf, Speakers, Said, MessagesOf;
    SilentSpeaker(talk, id);
    NewSpeaker(talk, e, id, text);
    MoreText(messages, Message(id, text));
    if text == "" {
      TrimBlank(text);
      assert messages + [] == messages;
    }
  }

  lemma DeltaOfClosing(t: Tracker, talk: seq<HarnessEvent>, earlier: string, id: Option<Id>, text: string)
    requires Tells(t, talk, earlier) && Find(t, id).Some? && Find(t, id).value.inCurrent
    ensures AnswerOf(Append(t, id, text)) == Either(TextOf(MessagesOf(talk + [TextDelta(id, text)])), earlier)
            <==> || !Refuses(t, id)
                 || Trim(text) == ""
                 || (TextOf(t.current.messages) == "" && Trim(text) == earlier)
  {
    hide Trim, TextOf, MessagesOf;
    var i := Find(t, id).value.index;
    ClosingChanged(t.current.messages, talk, TextDelta(id, text), id, text, i);
    GrownText(t.current.messages, i, text);
    TrimBlank(text);
    if text == "" { assert t.current.messages[i].text + text == t.current.messages[i].text; }
  }

  lemma DeltaElsewhere(t: Tracker, talk: seq<HarnessEvent>, earlier: string, id: Option<Id>, text: string)
    requires Tells(t, talk, earlier) && (Find(t, id).Some? ==> !Find(t, id).value.inCurrent)
    ensures AnswerOf(Append(t, id, text)) == Either(TextOf(MessagesOf(talk + [TextDelta(id, text)])), earlier)
            <==> || (Find(t, id).None? && !Refuses(t, id))
                 || Trim(text) == ""
                 || (TextOf(t.current.messages) == "" && Refuses(t, id) && Trim(text) == earlier)
  {
    hide Trim, TextOf, MessagesOf;
    ClosingGrown(t.current.messages, talk, TextDelta(id, text), id, text);
    TrimBlank(text);
    if Find(t, id).Some? { GrownText(t.previous.messages, Find(t, id).value.index, text); }
  }

  /** For every list of events on which the tracker follows the definition, and any
      delta: the tracker still answers what the definition says if and only if it
      takes the words into the closing talk, or they are blank, or the closing talk
      is silent and it refuses words that read as the earlier answer. */
  lemma DeltaAgrees(events: seq<HarnessEvent>, id: Option<Id>, text: string)
    requires NoCrossing(events) && Fits(events)
    ensures AnswerOf(Watch(events + [TextDelta(id, text)])) == SimpleAnswer(events + [TextDelta(id, text)])
            <==> || (GoesToCurrent(Watch(events), id) && !Refuses(Watch(events), id))
                 || Trim(text) == ""
                 || (&& TextOf(MessagesOf(Closing(events))) == ""
                     && Refuses(Watch(events), id)
                     && Trim(text) == EarlierAnswer(events))
  {
    hide TextOf, Trim, Append, NoCrossing, Fits, MessagesOf, SimpleAnswer, EarlierAnswer, AnswerOf, Find, Watch, Closing;
    var t := Watch(events);
    WatchTells(events);
    SimpleNext(events, TextDelta(id, text));
    WatchOne(events, TextDelta(id, text));
    if Find(t, id).Some? && Find(t, id).value.inCurrent {
      DeltaOfClosing(t, Closing(events), EarlierAnswer(events), id, text);
    } else {
      DeltaElsewhere(t, Closing(events), EarlierAnswer(events), id, text);
    }
  }

  // ---------------------------------------------------------------- corrections

  /** What a correction leaves of its text within the guard. */
  function Kept(s: Stretch, i: nat, text: string): string
    requires i < |s.messages|
  {
    Clip(text, MAX_ANSWER_CHARS - (s.chars - |s.messages[i].text|))
  }

  /** A stretch with a corrected message reads as the correction alone: the others
      are blank and no words of it were cut off, or, in the corner where others speak
      and the guard cut some off, the paragraphs before, the kept words and the
      paragraphs after spell the correction out. */
  predicate ReadsAlone(s: Stretch, i: nat, text: string)
    requires i < |s.messages|
  {
    if TextOf(Without(s.messages, i)) == "" then Trim(text[|Kept(s, i, text)|..]) == ""
    else
      && Kept(s, i, text) != text
      && Join(Paragraphs(s.messages[..i]) + Own(Kept(s, i, text)) + Paragraphs(s.messages[i + 1..])) == Trim(text)
  }

  lemma ClipIsFront(text: string, room: int)
    ensures |Clip(text, room)| <= |text| && Clip(text, room) == text[..|Clip(text, room)|]
  {
  }

  /** A corrected stretch reads as the correction alone. */
  lemma CorrectedAlone(s: Stretch, i: nat, text: string)
    requires i < |s.messages| && Trim(text) != ""
    ensures TextOf(Rewritten(s.messages, i, Kept(s, i, text))) == Trim(text) <==> ReadsAlone(s, i, text)
  {
    hide Trim, TextOf, Clip;
    var kept := Kept(s, i, text);
    ClipIsFront(text, MAX_ANSWER_CHARS - (s.chars - |s.messages[i].text|));
    RewrittenText(s.messages, i, kept);
    RewrittenParts(s.messages, i, kept);
    TrimBlank(text);
    TrimOfFront(text, |kept|);
    TrimBlank(text[|kept|..]);
  }

  lemma RewrittenParts(messages: seq<Message>, i: nat, text: string)
    requires i < |messages|
    ensures TextOf(Rewritten(messages, i, text)) == Join(Paragraphs(messages[..i]) + Own(text) + Paragraphs(messages[i + 1..]))
  {
    hide Trim, Join;
    RewrittenParagraphs(messages, i, text);
  }

  /** A correction without words leaves a stretch as it read exactly when the
      message had none. */
  lemma ErasedAlone(s: Stretch, i: nat, text: string)
    requires i < |s.messages| && Trim(text) == ""
    ensures TextOf(Rewritten(s.messages, i, Kept(s, i, text))) == TextOf(s.messages) <==> Trim(s.messages[i].text) == ""
  {
    hide Trim, TextOf, Clip;
    var kept := Kept(s, i, text);
    ClipIsFront(text, MAX_ANSWER_CHARS - (s.chars - |s.messages[i].text|));
    TrimBlank(text);
    TrimBlank(kept);
    RewrittenText(s.messages, i, kept);
    RewrittenText(s.messages, i, s.messages[i].text);
    assert Rewritten(s.messages, i, s.messages[i].text) == s.messages;
    if Trim(s.messages[i].text) == "" { SameWords(s.messages, i, kept); }
  }

  /** What a correction cut to the guard does to a stretch it corrects. */
  lemma ClippedText(s: Stretch, i: nat, text: string)
    requires i < |s.messages|
    ensures var whole, cut := TextOf(Rewritten(s.messages, i, text)), TextOf(Rewritten(s.messages, i, Kept(s, i, text)));
            var others := TextOf(Without(s.messages, i));
            && (whole == cut <==> Trim(text[|Kept(s, i, text)|..]) == "")
            && (whole == "" ==> cut == "")
            && (cut == "" <==> others == "" && Trim(Kept(s, i, text)) == "")
            && (others == "" ==> whole == Trim(text))
  {
    hide Trim, TextOf, Clip;
    var kept := Kept(s, i, text);
    ClipIsFront(text, MAX_ANSWER_CHARS - (s.chars - |s.messages[i].text|));
    RewrittenText(s.messages, i, text);
    RewrittenText(s.messages, i, kept);
    TrimBlank(text);
    TrimBlank(kept);
    TrimBlank(text[|kept|..]);
    assert text == kept + text[|kept|..];
    if Trim(text) != "" { TrimOfFront(text, |kept|); }
    if Trim(kept) == Trim(text) {
      SameReading(s.messages, i, kept, text);
    } else if Trim(kept) != "" {
      TrimLonger(kept, text[|kept|..]);
    }
  }

  lemma SameReading(messages: seq<Message>, i: nat, a: string, b: string)
    requires i < |messages| && Trim(a) == Trim(b)
    ensures TextOf(Rewritten(messages, i, a)) == TextOf(Rewritten(messages, i, b))
  {
    hide Trim, TextOf;
    assert Rewritten(Rewritten(messages, i, a), i, b) == Rewritten(messages, i, b);
    SameWords(Rewritten(messages, i, a), i, b);
  }

  /** When a correction of a message of the closing talk leaves the two in
      agreement: nothing but white space of it is cut off, or all it leaves reads
      as nothing and it reads as the earlier answer. */
  predicate CutHarmless(t: Tracker, i: nat, text: string)
    requires i < |t.current.messages|
  {
    || Trim(text[|Kept(t.current, i, text)|..]) == ""
    || (&& TextOf(Without(t.current.messages, i)) == ""
        && Trim(Kept(t.current, i, text)) == ""
        && Trim(text) == TextOf(t.previous.messages))
  }

  /** And one of a message of the fallback: the closing talk speaks and the
      correction is blank; or it is silent, and the correction is blank as the
      message was, or reads alone. */
  predicate RewriteHarmless(t: Tracker, i: nat, text: string)
    requires i < |t.previous.messages|
  {
    if TextOf(t.current.messages) != "" then Trim(text) == ""
    else if Trim(text) == "" then Trim(t.previous.messages[i].text) == ""
    else ReadsAlone(t.previous, i, text)
  }

  lemma CorrectsClosing(t: Tracker, talk: seq<HarnessEvent>, earlier: string, id: Id, text: string)
    requires Tells(t, talk, earlier) && Find(t, Some(id)).Some? && Find(t, Some(id)).value.inCurrent
    ensures AnswerOf(Replace(t, id, text)) == Either(TextOf(MessagesOf(talk + [TextReplace(id, text)])), earlier)
            <==> CutHarmless(t, Find(t, Some(id)).value.index, text)
  {
    hide Trim, TextOf, MessagesOf, Clip;
    var i := Find(t, Some(id)).value.index;
    ClosingChanged(t.current.messages, talk, TextReplace(id, text), Some(id), text, i);
    ClippedText(t.current, i, text);
  }

  lemma CorrectsFallback(t: Tracker, talk: seq<HarnessEvent>, earlier: string, id: Id, text: string)
    requires Tells(t, talk, earlier) && Find(t, Some(id)).Some? && !Find(t, Some(id)).value.inCurrent
    ensures AnswerOf(Replace(t, id, text)) == Either(TextOf(MessagesOf(talk + [TextReplace(id, text)])), earlier)
            <==> RewriteHarmless(t, Find(t, Some(id)).value.index, text)
  {
    hide Trim, TextOf, MessagesOf, Clip, ReadsAlone;
    var i := Find(t, Some(id)).value.index;
    ClosingGrown(t.current.messages, talk, TextReplace(id, text), Some(id), text);
    if Trim(text) == "" { ErasedAlone(t.previous, i, text); } else { CorrectedAlone(t.previous, i, text); }
  }

  lemma CorrectsNothing(t: Tracker, talk: seq<HarnessEvent>, earlier: string, id: Id, text: string)
    requires Tells(t, talk, earlier) && Find(t, Some(id)).None?
    ensures AnswerOf(Replace(t, id, text)) == Either(TextOf(MessagesOf(talk + [TextReplace(id, text)])), earlier)
            <==> || !Refuses(t, Some(id))
                 || Trim(text) == ""
                 || (TextOf(t.current.messages) == "" && Trim(text) == earlier)
  {
    hide Trim, TextOf, MessagesOf;
    ClosingGrown(t.current.messages, talk, TextReplace(id, text), Some(id), text);
    TrimBlank(text);
  }

  /** The same for any correction: agreement depends on where its message is, in
      the closing talk, in the fallback, or nowhere, when it counts as a delta. */
  lemma CorrectionAgrees(events: seq<HarnessEvent>, id: Id, text: string)
    requires NoCrossing(events) && Fits(events)
    ensures AnswerOf(Watch(events + [TextReplace(id, text)])) == SimpleAnswer(events + [TextReplace(id, text)])
            <==> var t := Watch(events);
                 match Find(t, Some(id))
                 case Some(spot) => if spot.inCurrent then CutHarmless(t, spot.index, text) else RewriteHarmless(t, spot.index, text)
                 case None =>
                   || !Refuses(t, Some(id))
                   || Trim(text) == ""
                   || (TextOf(MessagesOf(Closing(events))) == "" && Trim(text) == EarlierAnswer(events))
  {
    hide TextOf, Trim, Replace, NoCrossing, Fits, MessagesOf, SimpleAnswer, EarlierAnswer, AnswerOf, Watch, Closing,
         CutHarmless, RewriteHarmless;
    var t := Watch(events);
    WatchTells(events);
    SimpleNext(events, TextReplace(id, text));
    WatchOne(events, TextReplace(id, text));
    var found := Find(t, Some(id));
    hide Find;
    if found.None? {
      CorrectsNothing(t, Closing(events), EarlierAnswer(events), id, text);
    } else if found.value.inCurrent {
      CorrectsClosing(t, Closing(events), EarlierAnswer(events), id, text);
    } else {
      CorrectsFallback(t, Closing(events), EarlierAnswer(events), id, text);
    }
  }

  lemma ErasedLate(t: Tracker)
    requires t == Fresh.(current := Stretch([Message(Some("m"), "A")], 1))
    ensures AnswerOf(Observe(Observe(t, ToolStarted).0, TextReplace("m", "")).0) == ""
  {
    hide TextOf, Trim;
    assert TextOf(t.current.messages) == "A" by { OneMessage(Message(Some("m"), "A")); }
    ReleaseNothing(t, true);
    TextSilent([]);
    assert FramedIds([]) == {};
    var t1 := t.(current := EmptyStretch, previous := t.current);
    assert Observe(t, ToolStarted).0 == t1;
    var t2 := t1.(previous := Stretch([Message(Some("m"), "")], 0));
    assert Observe(t1, TextReplace("m", "")).0 == t2 by { ReleaseNothing(t2, false); }
    TrimBlank("");
    TextSilent(t2.previous.messages);
    TextSilent(t2.current.messages);
  }

  /** A correction that takes the fallback's words back leaves the tracker silent,
      where the definition still answers what was said before the tool call. */
  lemma CorrectionDiffers()
    ensures var events := [TextDelta(Some("m"), "A"), ToolStarted, TextReplace("m", "")];
            AnswerOf(Watch(events)) == "" && SimpleAnswer(events) == "A"
  {
    hide AnswerOf, Append, Trim, TextOf;
    var e0, e2 := TextDelta(Some("m"), "A"), TextReplace("m", "");
    var events := [e0, ToolStarted, e2];
    assert events[..2] == [e0, ToolStarted] && events[..2][..1] == [e0] && [e0][..0] == [];
    var t0 := Fresh.(current := Stretch([Message(Some("m"), "A")], 1));
    assert Append(Fresh, Some("m"), "A") == t0 by { AppendFirst(Some("m"), "A"); }
    assert Watch([e0]) == t0 by { ReleaseNothing(t0, false); }
    ErasedLate(t0);
    SaidBefore(e0, e2);
  }

  lemma SaidFirst(e0: HarnessEvent)
    requires e0 == TextDelta(Some("m"), "A")
    ensures SimpleAnswer([e0]) == "A"
  {
    hide Trim, TextOf, Speakers, Said;
    NoSpeakers();
    NewSpeaker([], e0, Some("m"), "A");
    assert [] + [e0] == [e0] && [] + [Message(Some("m"), "A")] == [Message(Some("m"), "A")];
    OneMessage(Message(Some("m"), "A"));
    assert [e0][..0] == [];
    assert Closing([e0]) == [e0];
  }

  lemma SaidBefore(e0: HarnessEvent, e2: HarnessEvent)
    requires e0 == TextDelta(Some("m"), "A") && e2 == TextReplace("m", "")
    ensures SimpleAnswer([e0, ToolStarted, e2]) == "A"
  {
    hide Trim, TextOf, Speakers, Said;
    var two := [e0, ToolStarted];
    assert two[..1] == [e0] && two + [e2] == [e0, ToolStarted, e2];
    SaidFirst(e0);
    NoSpeakers();
    TrimBlank("");
    TextSilent([]);
    SimpleNext(two, e2);
    NewSpeaker([], e2, Some("m"), "");
    assert [] + [e2] == [e2];
  }

  lemma NoSpeakers()
    ensures Speakers([]) == [] && MessagesOf([]) == []
  {
  }
}
