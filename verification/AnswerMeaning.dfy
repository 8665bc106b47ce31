/** What the tracker's answer means (apps/sandbox-supervisor/src/answer.ts:7-39):
    a definition on the list of events alone, the tracker's agreement with it,
    and the promise that an answer is never lost. */
module AnswerMeaning {
  import opened Wrappers
  import opened Text
  import opened Answer

  // ---------------------------------------------------------------- the definition

  predicate IsTool(e: HarnessEvent) {
    e.ToolStarted? || e.ToolFinished?
  }

  /** The talk since the last tool event. */
  function Closing(events: seq<HarnessEvent>): seq<HarnessEvent> {
    if events == [] || IsTool(events[|events| - 1]) then []
    else Closing(events[..|events| - 1]) + [events[|events| - 1]]
  }

  /** The words an event carries for a message, if it carries any. */
  function Worded(e: HarnessEvent): Option<Option<Id>> {
    match e
    case TextDelta(id, text) => if text != "" then Some(id) else None
    case TextReplace(id, text) => if text != "" then Some(Some(id)) else None
    case _ => None
  }

  /** The messages of a stretch of talk, in order of their first words. */
  function Speakers(talk: seq<HarnessEvent>): seq<Option<Id>> {
    if talk == [] then []
    else
      var ids := Speakers(talk[..|talk| - 1]);
      var w := Worded(talk[|talk| - 1]);
      if w.Some? && w.value !in ids then ids + [w.value] else ids
  }

  /** A message's words after an event, from its words before it. */
  function Heard(before: string, e: HarnessEvent, id: Option<Id>): string {
    match e
    case TextDelta(who, text) => if who == id then before + text else before
    case TextReplace(who, text) => if Some(who) == id then text else before
    case _ => before
  }

  /** What one message says: its deltas in order, from its last correction on. */
  function Said(talk: seq<HarnessEvent>, id: Option<Id>): string {
    if talk == [] then "" else Heard(Said(talk[..|talk| - 1], id), talk[|talk| - 1], id)
  }

  function MessagesOf(talk: seq<HarnessEvent>): seq<Message> {
    seq(|Speakers(talk)|, i requires 0 <= i < |Speakers(talk)| => Message(Speakers(talk)[i], Said(talk, Speakers(talk)[i])))
  }

  /** The answer: the words said since the last tool event or, when there are
      none there, the answer as it stood before that event. */
  function SimpleAnswer(events: seq<HarnessEvent>): string
    decreases |events|, 1
  {
    var closing := TextOf(MessagesOf(Closing(events)));
    if closing != "" then closing else EarlierAnswer(events)
  }

  /** The answer as it stood before the last tool event. */
  function EarlierAnswer(events: seq<HarnessEvent>): string
    decreases |events|, 0
  {
    if events == [] then ""
    else if IsTool(events[|events| - 1]) then SimpleAnswer(events[..|events| - 1])
    else EarlierAnswer(events[..|events| - 1])
  }

  // ---------------------------------------------------------------- its domain

  /** The message a framed event speaks for. */
  function Framed(e: HarnessEvent): Option<Id> {
    match e
    case TextDelta(id, text) => if text != "" then id else None
    case TextReplace(id, _) => Some(id)
    case _ => None
  }

  function Used(events: seq<HarnessEvent>): set<Id> {
    if events == [] then {}
    else
      Used(events[..|events| - 1])
      + if Framed(events[|events| - 1]).Some? then {Framed(events[|events| - 1]).value} else {}
  }

  /** The ids used before the last tool event. */
  function UsedEarlier(events: seq<HarnessEvent>): set<Id> {
    if events == [] then {}
    else if IsTool(events[|events| - 1]) then Used(events[..|events| - 1])
    else UsedEarlier(events[..|events| - 1])
  }

  /** No message id is used on both sides of a tool event. */
  predicate NoCrossing(events: seq<HarnessEvent>) {
    events == []
    || (&& NoCrossing(events[..|events| - 1])
        && (Framed(events[|events| - 1]).Some? ==> Framed(events[|events| - 1]).value !in UsedEarlier(events[..|events| - 1])))
  }

  function Extent(e: HarnessEvent): nat {
    match e
    case TextDelta(_, text) => |text|
    case TextReplace(_, text) => |text|
    case _ => 0
  }

  function Volume(talk: seq<HarnessEvent>): nat {
    if talk == [] then 0 else Volume(talk[..|talk| - 1]) + Extent(talk[|talk| - 1])
  }

  /** No stretch of talk carries more than the memory guard admits. */
  predicate Fits(events: seq<HarnessEvent>) {
    Volume(Closing(events)) <= MAX_ANSWER_CHARS && (events == [] || Fits(events[..|events| - 1]))
  }

  /** The tracker after these events and no claims. */
  function Watch(events: seq<HarnessEvent>): Tracker {
    if events == [] then Fresh else Observe(Watch(events[..|events| - 1]), events[|events| - 1]).0
  }

  // ---------------------------------------------------------------- agreement

  /** What `Watch` keeps about the events so far. */
  ghost predicate Agrees(t: Tracker, events: seq<HarnessEvent>) {
    && t.held == []
    && Follows(t.current, Closing(events))
    && TextOf(t.previous.messages) == EarlierAnswer(events)
    && t.retired + FramedIds(t.previous.messages) <= UsedEarlier(events)
  }

  /** The stretch holds what the talk says, and has counted it. */
  ghost predicate Follows(s: Stretch, talk: seq<HarnessEvent>) {
    && s.messages == MessagesOf(talk)
    && 0 <= s.chars == Length(s.messages) <= Volume(talk)
  }

  lemma {:induction false} SpeakersDistinct(talk: seq<HarnessEvent>)
    ensures forall i, j :: 0 <= i < j < |Speakers(talk)| ==> Speakers(talk)[i] != Speakers(talk)[j]
    ensures forall id :: id !in Speakers(talk) ==> Said(talk, id) == ""
  {
    if talk != [] {
      SpeakersDistinct(talk[..|talk| - 1]);
    }
  }

  /** The closing talk speaks for nobody but those before it or in its last event. */
  lemma SpeakersNext(events: seq<HarnessEvent>)
    requires events != [] && Closing(events) != []
    ensures var init, e := events[..|events| - 1], events[|events| - 1];
            && Speakers(Closing(events))
               == (if Worded(e).Some? && Worded(e).value !in Speakers(Closing(init)) then Speakers(Closing(init)) + [Worded(e).value]
                   else Speakers(Closing(init)))
  {
    hide Worded;
    assert Closing(events)[..|Closing(events)| - 1] == Closing(events[..|events| - 1]);
  }

  lemma {:induction false} SpeakersUsed(events: seq<HarnessEvent>, id: Id)
    requires Some(id) in Speakers(Closing(events))
    ensures id in Used(events)
  {
    hide Speakers, Closing;
    NobodySpeaks(events);
    SpeakersNext(events);
    if Some(id) in Speakers(Closing(events[..|events| - 1])) { SpeakersUsed(events[..|events| - 1], id); }
  }

  lemma NobodySpeaks(events: seq<HarnessEvent>)
    ensures events == [] || Closing(events) == [] ==> Speakers(Closing(events)) == []
  {
  }

  lemma {:induction false} UsedEarlierUsed(events: seq<HarnessEvent>)
    ensures UsedEarlier(events) <= Used(events)
  {
    if events != [] {
      UsedEarlierUsed(events[..|events| - 1]);
    }
  }

  ghost predicate Talks(e: HarnessEvent, id: Option<Id>, text: string) {
    e == TextDelta(id, text) || (id.Some? && e == TextReplace(id.value, text))
  }

  lemma SaidStep(talk: seq<HarnessEvent>, e: HarnessEvent, who: Option<Id>)
    ensures Said(talk + [e], who) == Heard(Said(talk, who), e, who)
    ensures Speakers(talk + [e])
            == if Worded(e).Some? && Worded(e).value !in Speakers(talk) then Speakers(talk) + [Worded(e).value] else Speakers(talk)
    ensures Volume(talk + [e]) == Volume(talk) + Extent(e)
  {
    assert (talk + [e])[..|talk|] == talk;
  }

  /** The messages follow from the speakers and what each one says. */
  lemma MessagesFrom(talk: seq<HarnessEvent>, ms: seq<Message>)
    requires |ms| == |Speakers(talk)|
    requires forall i :: 0 <= i < |ms| ==> ms[i] == Message(Speakers(talk)[i], Said(talk, Speakers(talk)[i]))
    ensures MessagesOf(talk) == ms
  {
  }

  lemma SaidOther(talk: seq<HarnessEvent>, e: HarnessEvent, id: Option<Id>, text: string, who: Option<Id>)
    requires Talks(e, id, text) && who != id
    ensures Said(talk + [e], who) == Said(talk, who)
  {
    SaidStep(talk, e, who);
  }

  lemma NewSpeaker(talk: seq<HarnessEvent>, e: HarnessEvent, id: Option<Id>, text: string)
    requires Talks(e, id, text) && id !in Speakers(talk)
    ensures MessagesOf(talk + [e]) == MessagesOf(talk) + if text == "" then [] else [Message(id, text)]
  {
    var ids := Speakers(talk);
    assert Speakers(talk + [e]) == ids + (if text == "" then [] else [id]) by { SaidStep(talk, e, id); }
    assert text != "" ==> Said(talk + [e], id) == text by {
      SpeakersDistinct(talk);
      SaidStep(talk, e, id);
      assert "" + text == text;
    }
    hide Speakers, Said, Worded;
    forall i | 0 <= i < |ids| ensures Said(talk + [e], ids[i]) == Said(talk, ids[i]) {
      assert ids[i] in ids;
      SaidOther(talk, e, id, text, ids[i]);
    }
    var ms := MessagesOf(talk) + if text == "" then [] else [Message(id, text)];
    MessagesFrom(talk + [e], ms);
  }

  lemma SameSpeaker(talk: seq<HarnessEvent>, e: HarnessEvent, id: Option<Id>, text: string, i: nat)
    requires Talks(e, id, text) && i < |Speakers(talk)| && Speakers(talk)[i] == id
    ensures MessagesOf(talk + [e])
            == MessagesOf(talk)[i := Message(id, if e.TextDelta? then Said(talk, id) + text else text)]
  {
    hide Said, Speakers, MessagesOf, Heard, Volume;
    SpeakersDistinct(talk);
    SaidStep(talk, e, id);
    MessagesAre(talk);
    MessagesAre(talk + [e]);
    var ids := Speakers(talk);
    var before, after := MessagesOf(talk), MessagesOf(talk + [e]);
    SaidOwn(talk, e, id, text);
    forall j | 0 <= j < |ids| && j != i ensures after[j] == before[j] { SaidOther(talk, e, id, text, ids[j]); }
  }

  lemma MessagesAre(talk: seq<HarnessEvent>)
    ensures |MessagesOf(talk)| == |Speakers(talk)|
    ensures forall j :: 0 <= j < |Speakers(talk)| ==> MessagesOf(talk)[j] == Message(Speakers(talk)[j], Said(talk, Speakers(talk)[j]))
  {
  }

  lemma SaidOwn(talk: seq<HarnessEvent>, e: HarnessEvent, id: Option<Id>, text: string)
    requires Talks(e, id, text)
    ensures Said(talk + [e], id) == if e.TextDelta? then Said(talk, id) + text else text
  {
    hide Said;
    SaidStep(talk, e, id);
  }

  lemma RewriteLength(s: Stretch, i: nat, text: string)
    requires i < |s.messages| && s.chars == Length(s.messages)
    ensures Rewrite(s, i, text).chars == Length(Rewrite(s, i, text).messages)
    ensures |s.messages[i].text| <= s.chars && 0 <= Rewrite(s, i, text).chars
  {
    var r := Rewrite(s, i, text);
    LengthSplit(s.messages, i);
    LengthSplit(r.messages, i);
    assert r.messages[..i] == s.messages[..i] && r.messages[i + 1..] == s.messages[i + 1..];
  }

  lemma LengthOne(m: Message)
    ensures Length([m]) == |m.text|
  {
  }

  lemma SilentSpeaker(talk: seq<HarnessEvent>, id: Option<Id>)
    requires forall m <- MessagesOf(talk) :: m.id != id
    ensures id !in Speakers(talk)
  {
    forall i | 0 <= i < |Speakers(talk)| ensures Speakers(talk)[i] != id {
      assert MessagesOf(talk)[i] in MessagesOf(talk);
    }
  }

  lemma NewWords(t: Tracker, talk: seq<HarnessEvent>, e: HarnessEvent, id: Option<Id>, text: string)
    requires Talks(e, id, text) && Follows(t.current, talk) && Volume(talk + [e]) <= MAX_ANSWER_CHARS
    requires Find(t, id).None?
    requires Framed(e).Some? ==> Framed(e).value !in t.retired
    ensures var t' := Append(t, id, text); t' == t.(current := t'.current) && Follows(t'.current, talk + [e])
  {
    hide Length, MessagesOf, Volume;
    SaidStep(talk, e, id);
    var ms := t.current.messages;
    assert id !in Speakers(talk) by {
      SilentSpeaker(talk, id);
    }
    NewSpeaker(talk, e, id, text);
    if text != "" {
      LengthConcat(ms, [Message(id, text)]);
      assert Length([Message(id, text)]) == |text| by { LengthOne(Message(id, text)); }
    }
  }

  /** More or corrected words for a message of the current stretch. */
  lemma OldWords(s: Stretch, talk: seq<HarnessEvent>, e: HarnessEvent, id: Option<Id>, text: string, i: nat)
    requires Talks(e, id, text) && Follows(s, talk) && Volume(talk + [e]) <= MAX_ANSWER_CHARS
    requires i < |s.messages| && s.messages[i].id == id
    ensures Follows(Rewrite(s, i, if e.TextDelta? then s.messages[i].text + text
                                  else Clip(text, MAX_ANSWER_CHARS - (s.chars - |s.messages[i].text|))), talk + [e])
    ensures s.chars < MAX_ANSWER_CHARS || text == ""
    ensures e.TextDelta? && text == "" ==> Follows(s, talk + [e])
  {
    hide Length, Volume;
    SaidStep(talk, e, id);
    assert Speakers(talk)[i] == id && s.messages[i] == Message(id, Said(talk, id));
    SameSpeaker(talk, e, id, text, i);
    RewriteLength(s, i, if e.TextDelta? then Said(talk, id) + text else text);
    assert e.TextReplace? ==> Clip(text, MAX_ANSWER_CHARS - (s.chars - |s.messages[i].text|)) == text;
    if text == "" {
      assert Said(talk, id) + text == Said(talk, id);
      assert s.messages[i := s.messages[i]] == s.messages;
    }
  }

  /** The current stretch follows the definition, one talking event at a time. */
  lemma TalkStep(t: Tracker, talk: seq<HarnessEvent>, e: HarnessEvent, id: Option<Id>, text: string)
    requires Talks(e, id, text) && Follows(t.current, talk) && Volume(talk + [e]) <= MAX_ANSWER_CHARS
    requires Framed(e).Some? ==> Framed(e).value !in t.retired + FramedIds(t.previous.messages)
    ensures var t' := if e.TextDelta? then Append(t, id, text) else Replace(t, id.value, text);
            t' == t.(current := t'.current) && Follows(t'.current, talk + [e])
  {
    hide Length, MessagesOf, Volume, Follows, Clip, Rewrite;
    var found := Find(t, id);
    if found.None? {
      NewWords(t, talk, e, id, text);
    } else if found.value.inCurrent {
      OldWords(t.current, talk, e, id, text, found.value.index);
    } else {
      assert t.previous.messages[found.value.index] in t.previous.messages;
      assert id.value in FramedIds(t.previous.messages);
      EmptyDelta(t, talk, e, id);
    }
  }

  /** An event without words says nothing. */
  lemma QuietStep(talk: seq<HarnessEvent>, e: HarnessEvent)
    requires e == OtherEvent || (e.TextDelta? && e.text == "")
    ensures MessagesOf(talk + [e]) == MessagesOf(talk) && Volume(talk + [e]) == Volume(talk)
  {
    hide Volume;
    SaidStep(talk, e, None);
    var ids := Speakers(talk);
    assert Speakers(talk + [e]) == ids;
    forall i | 0 <= i < |ids| ensures Said(talk + [e], ids[i]) == Said(talk, ids[i]) {
      SaidStep(talk, e, ids[i]);
      assert Said(talk, ids[i]) + "" == Said(talk, ids[i]);
    }
  }

  /** An empty delta changes neither side. */
  lemma EmptyDelta(t: Tracker, talk: seq<HarnessEvent>, e: HarnessEvent, id: Option<Id>)
    requires e == TextDelta(id, "") && Follows(t.current, talk)
    ensures Append(t, id, "") == t && Follows(t.current, talk + [e])
  {
    hide Length, MessagesOf, Volume;
    QuietStep(talk, e);
  }

  lemma ReleaseNothing(t: Tracker, force: bool)
    requires t.held == []
    ensures Release(t, force) == (t, [])
  {
    assert t.(held := []) == t;
  }

  lemma AgreesTalking(t: Tracker, events: seq<HarnessEvent>, e: HarnessEvent, id: Option<Id>, text: string)
    requires events != [] && e == events[|events| - 1] && Talks(e, id, text)
    requires Agrees(t, events[..|events| - 1]) && NoCrossing(events) && Fits(events)
    ensures Agrees(Observe(t, e).0, events)
  {
    hide TextOf, Append, Replace, Volume, Release, Follows, FramedIds;
    TalkStep(t, Closing(events[..|events| - 1]), e, id, text);
    var t' := if e.TextDelta? then Append(t, id, text) else Replace(t, id.value, text);
    ReleaseNothing(t', false);
  }

  lemma AgreesTool(t: Tracker, events: seq<HarnessEvent>, e: HarnessEvent)
    requires events != [] && e == events[|events| - 1] && IsTool(e)
    requires Agrees(t, events[..|events| - 1])
    ensures Agrees(Observe(t, e).0, events)
  {
    hide TextOf, Release;
    var init := events[..|events| - 1];
    ReleaseNothing(t, true);
    UsedEarlierUsed(init);
    forall id | id in FramedIds(t.current.messages) ensures id in Used(init) {
      var i :| 0 <= i < |t.current.messages| && t.current.messages[i].id == Some(id);
      assert Speakers(Closing(init))[i] == Some(id);
      SpeakersUsed(init, id);
    }
    var t' := CloseStretch(t);
    assert Observe(t, e).0 == t';
    assert Follows(t'.current, Closing(events)) by { NothingAgrees(); }
    assert TextOf(t'.previous.messages) == SimpleAnswer(init);
    assert t'.retired + FramedIds(t'.previous.messages) <= Used(init);
  }

  lemma AgreesOther(t: Tracker, events: seq<HarnessEvent>)
    requires events != [] && events[|events| - 1] == OtherEvent
    requires Agrees(t, events[..|events| - 1])
    ensures Agrees(t, events)
  {
    hide TextOf, Length, FramedIds, Volume, MessagesOf;
    QuietStep(Closing(events[..|events| - 1]), OtherEvent);
  }

  lemma {:induction false} WatchAgrees(events: seq<HarnessEvent>)
    requires NoCrossing(events) && Fits(events)
    ensures Agrees(Watch(events), events)
  {
    hide Agrees, Observe;
    if events == [] {
      NothingAgrees();
    } else {
      var init, e := events[..|events| - 1], events[|events| - 1];
      WatchAgrees(init);
      match e
      case TextDelta(id, text) => AgreesTalking(Watch(init), events, e, id, text);
      case TextReplace(id, text) => AgreesTalking(Watch(init), events, e, Some(id), text);
      case ToolStarted => AgreesTool(Watch(init), events, e);
      case ToolFinished => AgreesTool(Watch(init), events, e);
      case OtherEvent =>
        AgreesOther(Watch(init), events);
        ObserveOther(Watch(init));
    }
  }

  lemma NothingAgrees()
    ensures Agrees(Fresh, [])
  {
    assert MessagesOf([]) == [];
  }

  lemma ObserveOther(t: Tracker)
    ensures Observe(t, OtherEvent).0 == t
  {
  }

  /** For every list of events, corrections included, in which no message id is
      used on both sides of a tool event and no stretch of talk outgrows the memory
      guard, the tracker's answer is the one the definition gives. */
  lemma AnswerIsSimple(events: seq<HarnessEvent>)
    requires NoCrossing(events) && Fits(events)
    ensures AnswerOf(Watch(events)) == SimpleAnswer(events)
  {
    WatchAgrees(events);
  }

  // ---------------------------------------------------------------- never silent

  lemma AnswerSilent(t: Tracker)
    ensures AnswerOf(t) == "" <==> Silent(t.current.messages) && Silent(t.previous.messages)
  {
    hide TextOf;
    TextSilent(t.current.messages);
    TextSilent(t.previous.messages);
  }

  /** Closing a stretch moves the answer's words but never changes them. */
  lemma CloseStretchAnswer(t: Tracker)
    ensures AnswerOf(CloseStretch(t)) == AnswerOf(t)
  {
    hide TextOf, FramedIds;
    TextSilent([]);
  }

  lemma AppendSpeaks(t: Tracker, id: Option<Id>, text: string)
    requires AnswerOf(t) != ""
    ensures AnswerOf(Append(t, id, text)) != ""
  {
    hide AnswerOf, Trim;
    var t' := Append(t, id, text);
    AnswerSilent(t);
    AnswerSilent(t');
    forall inCurrent, i | 0 <= i < |At(t, inCurrent).messages| && Trim(At(t, inCurrent).messages[i].text) != ""
      ensures i < |At(t', inCurrent).messages| && Trim(At(t', inCurrent).messages[i].text) != ""
    {
      TrimGrows(At(t, inCurrent).messages[i].text, text);
    }
  }

  lemma RemovedSpeaks(t: Tracker, inCurrent: bool, i: nat)
    requires AnswerOf(t) != "" && i < |At(t, inCurrent).messages|
    requires Trim(At(t, inCurrent).messages[i].text) != ""
    requires inCurrent != FromCurrent(t) || TextOf(Without(At(t, inCurrent).messages, i)) != ""
    ensures AnswerOf(Put(t, inCurrent, Removed(At(t, inCurrent), i))) != ""
  {
    hide TextOf, Trim, Without;
    TextSilent(t.current.messages);
    TextSilent(t.previous.messages);
  }

  lemma TakeOutSpeaks(t: Tracker, reply: string)
    requires AnswerOf(t) != ""
    ensures AnswerOf(TakeOut(t, reply, false).0) != ""
  {
    hide AnswerOf, FromCurrent, TextOf, Trim, Without, Removed, LastIndexWith;
    var found := LastWith(t, Trim(reply));
    if TakeOut(t, reply, false).0 != t {
      RemovedSpeaks(t, found.value.inCurrent, found.value.index);
    }
  }

  lemma {:induction false} SiftSpeaks(t: Tracker, entries: seq<HandedReply>)
    requires AnswerOf(t) != ""
    ensures AnswerOf(Sift(t, entries, false).0) != ""
    decreases |entries|
  {
    hide AnswerOf, TakeOut;
    if entries != [] {
      TakeOutSpeaks(t, entries[0].reply);
      SiftSpeaks(TakeOut(t, entries[0].reply, false).0, entries[1..]);
    }
  }

  lemma TakeOutRefused(t: Tracker, reply: string, force: bool)
    requires !TakeOut(t, reply, force).1
    ensures TakeOut(t, reply, force).0 == t
  {
  }

  lemma {:induction false} SiftNone(t: Tracker, entries: seq<HandedReply>, force: bool)
    requires Sift(t, entries, force).1 == []
    ensures Sift(t, entries, force).0 == t
    decreases |entries|
  {
    hide TakeOut;
    if entries != [] {
      TakeOutRefused(t, entries[0].reply, force);
      SiftNone(TakeOut(t, entries[0].reply, force).0, entries[1..], force);
    }
  }

  lemma HeldIsNotAnswer(t: Tracker, held: seq<HandedReply>)
    ensures AnswerOf(t.(held := held)) == AnswerOf(t)
  {
  }

  /** A tool event that hands over no reply leaves the answer as it is. */
  lemma ToolKeepsAnswer(t: Tracker, event: HarnessEvent)
    requires IsTool(event) && Observe(t, event).1 == []
    ensures AnswerOf(Observe(t, event).0) == AnswerOf(t)
  {
    hide AnswerOf, CloseStretch, Sift;
    CloseStretchAnswer(t);
    if event.ToolStarted? {
      SiftNone(t, t.held, true);
      CloseStretchAnswer(Release(t, true).0);
      HeldIsNotAnswer(t, Sift(t, t.held, true).2);
    }
  }

  lemma ReleaseSpeaks(t: Tracker)
    requires AnswerOf(t) != ""
    ensures AnswerOf(Release(t, false).0) != ""
  {
    hide AnswerOf, Sift;
    SiftSpeaks(t, t.held);
    HeldIsNotAnswer(Sift(t, t.held, false).0, Sift(t, t.held, false).2);
  }

  lemma ClaimSpeaks(t: Tracker, followUpId: string, reply: string)
    requires AnswerOf(t) != ""
    ensures AnswerOf(Claim(t, followUpId, reply).0) != ""
  {
    hide AnswerOf, TakeOut, Trim;
    TakeOutSpeaks(t, reply);
    var t1 := TakeOut(t, reply, false).0;
    HeldIsNotAnswer(t1, t1.held + [HandedReply(followUpId, reply)]);
  }

  /** From any state, words once said are lost to the answer only through a
      correction, or through a tool call that hands over a held reply. */
  lemma NeverSilenced(t: Tracker, op: Op)
    requires AnswerOf(t) != "" && AnswerOf(Step(t, op).0) == ""
    ensures op.Saw?
    ensures op.event.TextReplace? || (op.event == ToolStarted && Step(t, op).1 != [])
  {
    hide AnswerOf, Append, Replace, CloseStretch, Release, Claim;
    match op
    case Saw(TextDelta(id, text)) =>
      AppendSpeaks(t, id, text);
      ReleaseSpeaks(Append(t, id, text));
    case Saw(TextReplace(_, _)) =>
    case Saw(ToolStarted) =>
      if Observe(t, ToolStarted).1 == [] { ToolKeepsAnswer(t, ToolStarted); }
    case Saw(ToolFinished) => CloseStretchAnswer(t);
    case Saw(OtherEvent) =>
    case Claimed(followUpId, reply) => ClaimSpeaks(t, followUpId, reply);
  }

  // ---------------------------------------------------------------- the conditions are needed

  /** The guard stops growth only once it is passed: one delta may overshoot it. */
  lemma GuardOvershoots(id: Option<Id>, a: string, b: string)
    requires |a| == MAX_ANSWER_CHARS - 1 && b != ""
    ensures var events := [TextDelta(id, a), TextDelta(id, b)];
            Watch(events).current == Stretch([Message(id, a + b)], MAX_ANSWER_CHARS - 1 + |b|)
  {
    hide Append, Release;
    var e0, e1 := TextDelta(id, a), TextDelta(id, b);
    var t0 := Fresh.(current := Stretch([Message(id, a)], |a|));
    assert [e0, e1][..1] == [e0] && [e0][..0] == [];
    AppendFirst(id, a);
    ReleaseNothing(t0, false);
    assert Watch([e0]) == t0;
    AppendSecond(t0, id, a, b);
    ReleaseNothing(Append(t0, id, b), false);
  }

  lemma AppendSecond(t: Tracker, id: Option<Id>, a: string, b: string)
    requires t == Fresh.(current := Stretch([Message(id, a)], |a|)) && b != "" && |a| < MAX_ANSWER_CHARS
    ensures Append(t, id, b) == t.(current := Stretch([Message(id, a + b)], |a| + |b|))
  {
  }

  /** Whether words for this message go to the current stretch. */
  predicate GoesToCurrent(t: Tracker, id: Option<Id>) {
    Find(t, id).None? || Find(t, id).value.inCurrent
  }

  /** The tracker takes no words for this message: it was let go of, or the stretch
      that would receive them is full. */
  predicate Refuses(t: Tracker, id: Option<Id>) {
    || (Find(t, id).None? && id.Some? && id.value in t.retired)
    || At(t, GoesToCurrent(t, id)).chars >= MAX_ANSWER_CHARS
  }

  /** A delta keeps the stretch it goes to within the guard if and only if it is
      refused or fits into what is left, and never touches the other stretch. */
  lemma DeltaWithinGuard(t: Tracker, id: Option<Id>, text: string)
    requires At(t, GoesToCurrent(t, id)).chars <= MAX_ANSWER_CHARS
    ensures var at := GoesToCurrent(t, id);
            && (At(Append(t, id, text), at).chars <= MAX_ANSWER_CHARS
                <==> Refuses(t, id) || At(t, at).chars + |text| <= MAX_ANSWER_CHARS)
            && (Refuses(t, id) ==> Append(t, id, text) == t)
            && At(Append(t, id, text), !at) == At(t, !at)
  {
  }

  /** A correction of a live message always keeps its stretch within the guard; one
      of a message that is not live does so if and only if a delta would. */
  lemma CorrectionWithinGuard(t: Tracker, id: Id, text: string)
    requires At(t, GoesToCurrent(t, Some(id))).chars <= MAX_ANSWER_CHARS
    ensures var at := GoesToCurrent(t, Some(id));
            && (At(Replace(t, id, text), at).chars <= MAX_ANSWER_CHARS
                <==> || Find(t, Some(id)).Some?
                     || Refuses(t, Some(id))
                     || At(t, at).chars + |text| <= MAX_ANSWER_CHARS)
            && At(Replace(t, id, text), !at) == At(t, !at)
  {
    DeltaWithinGuard(t, Some(id), text);
  }

  /** Words that are not refused go to the end of their message's text, or make the
      last message of the current stretch; nothing else of that stretch changes. */
  lemma DeltaLands(t: Tracker, id: Option<Id>, text: string)
    requires text != "" && !Refuses(t, id)
    ensures var s, after := At(t, GoesToCurrent(t, id)), At(Append(t, id, text), GoesToCurrent(t, id));
            && after.chars == s.chars + |text|
            && ((exists m :: m in s.messages && m.id == id) ==>
                  exists i :: 0 <= i < |s.messages| && s.messages[i].id == id
                              && after.messages == s.messages[i := Message(id, s.messages[i].text + text)])
            && ((forall m :: m in s.messages ==> m.id != id) ==> after.messages == s.messages + [Message(id, text)])
  {
    var found := Find(t, id);
    if found.Some? {
      var i := found.value.index;
      assert At(t, GoesToCurrent(t, id)).messages[i].id == id;
    }
  }

  /** A correction of a live message replaces its text by as much of the new one as
      the guard leaves room for, beside what the stretch holds otherwise. */
  lemma CorrectionFills(t: Tracker, id: Id, text: string)
    requires Find(t, Some(id)).Some?
    ensures var Spot(at, i) := Find(t, Some(id)).value;
            var s := At(t, at);
            var others := s.chars - |s.messages[i].text|;
            var n := if others >= 256_000 then 0 else if |text| <= 256_000 - others then |text| else 256_000 - others;
            At(Replace(t, id, text), at) == Stretch(s.messages[i := Message(Some(id), text[..n])], others + n)
  {
  }

  lemma LateWordsJoin(t: Tracker, late: HarnessEvent)
    requires t == Fresh.(current := Stretch([Message(Some("m"), "A")], 1))
    requires late == TextDelta(Some("m"), "B")
    ensures AnswerOf(Observe(Observe(t, ToolStarted).0, late).0) == "AB"
  {
    hide TextOf, Trim;
    assert TextOf(t.current.messages) == "A" by { OneMessage(Message(Some("m"), "A")); }
    ReleaseNothing(t, true);
    TextSilent([]);
    assert FramedIds([]) == {};
    var t1 := t.(current := EmptyStretch, previous := t.current);
    assert Observe(t, ToolStarted).0 == t1;
    var t2 := t1.(previous := Stretch([Message(Some("m"), "A" + "B")], 2));
    assert Observe(t1, late).0 == t2 by { ReleaseNothing(t2, false); }
    assert "A" + "B" == "AB";
    OneMessage(Message(Some("m"), "AB"));
    assert TextOf(t2.current.messages) == "" by { assert Silent([]); }
  }

  lemma ClosingWords(events: seq<HarnessEvent>, e: HarnessEvent)
    requires |events| >= 2 && e == events[|events| - 1] == TextDelta(Some("m"), "B") && IsTool(events[|events| - 2])
    ensures SimpleAnswer(events) == "B"
  {
    hide TextOf, Trim;
    assert Closing(events[..|events| - 1]) == [];
    assert [] + [e] == [e] && MessagesOf([]) == [];
    NewSpeaker([], e, Some("m"), "B");
    assert MessagesOf([e]) == [Message(Some("m"), "B")];
    assert Closing(events) == [e];
    OneMessage(Message(Some("m"), "B"));
  }

  /** An id used on both sides of a tool event: the late words join the message
      they belong to, before the tool call, and the answer is longer than what
      was said after the call. */
  lemma CrossingDiffers()
    ensures var events := [TextDelta(Some("m"), "A"), ToolStarted, TextDelta(Some("m"), "B")];
            !NoCrossing(events) && AnswerOf(Watch(events)) == "AB" && SimpleAnswer(events) == "B"
  {
    hide AnswerOf, SimpleAnswer, Append;
    var e0, e2 := TextDelta(Some("m"), "A"), TextDelta(Some("m"), "B");
    var events := [e0, ToolStarted, e2];
    ClosingWords(events, e2);
    assert events[..2] == [e0, ToolStarted] && events[..2][..1] == [e0] && [e0][..0] == [];
    var t0 := Fresh.(current := Stretch([Message(Some("m"), "A")], 1));
    assert Append(Fresh, Some("m"), "A") == t0 by { AppendFirst(Some("m"), "A"); }
    assert Watch([e0]) == t0 by { ReleaseNothing(t0, false); }
    LateWordsJoin(t0, e2);
    assert Used([e0]) == {"m"};
  }

  lemma AppendFirst(id: Option<Id>, text: string)
    requires text != ""
    ensures Append(Fresh, id, text) == Fresh.(current := Stretch([Message(id, text)], |text|))
  {
  }

  lemma OneMessage(m: Message)
    requires m.text != "" && !IsSpace(m.text[0]) && !IsSpace(m.text[|m.text| - 1])
    ensures TextOf([m]) == m.text
  {
    assert [m][..0] == [];
    assert Paragraphs([m]) == [m.text];
  }
}
