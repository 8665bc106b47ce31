/** What claimed replies do to the answer (apps/sandbox-supervisor/src/answer.ts:203-280):
    a definition on paragraphs alone, and exactly what silences an answer. */
module AnswerClaims {
  import opened Wrappers
  import opened Text
  import opened Answer
  import opened AnswerMeaning
  import opened AnswerAgreement

  // ---------------------------------------------------------------- the definition

  /** The paragraphs of the closing talk, and those it falls back on. */
  datatype Talk = Talk(closing: seq<string>, fallback: seq<string>)

  function Shown(talk: Talk): seq<string> {
    if talk.closing != [] then talk.closing else talk.fallback
  }

  /** The paragraphs without the last one that reads so. */
  function RemoveLast(ps: seq<string>, words: string): seq<string> {
    if ps == [] then []
    else if ps[|ps| - 1] == words then ps[..|ps| - 1]
    else RemoveLast(ps[..|ps| - 1], words) + [ps[|ps| - 1]]
  }

  function TakenFrom(talk: Talk, words: string): Talk {
    if words in talk.closing then talk.(closing := RemoveLast(talk.closing, words))
    else talk.(fallback := RemoveLast(talk.fallback, words))
  }

  /** A reply may leave unless it is all the answer shows. */
  predicate MayLeave(talk: Talk, words: string, force: bool) {
    words != "" && (force || Shown(talk) != [words])
  }

  function Asked(talk: Talk, words: string, force: bool): Talk {
    if MayLeave(talk, words, force) then TakenFrom(talk, words) else talk
  }

  function AskedAll(talk: Talk, entries: seq<HandedReply>, force: bool): Talk
    decreases |entries|
  {
    if entries == [] then talk else AskedAll(Asked(talk, Trim(entries[0].reply), force), entries[1..], force)
  }

  function Paras(t: Tracker): Talk {
    Talk(Paragraphs(t.current.messages), Paragraphs(t.previous.messages))
  }

  // ---------------------------------------------------------------- taking one message out

  /** Some message reads as these words. */
  ghost predicate Says(messages: seq<Message>, words: string) {
    exists i :: 0 <= i < |messages| && Trim(messages[i].text) == words
  }

  lemma SaysMore(init: seq<Message>, m: Message, words: string)
    ensures Says(init + [m], words) <==> Says(init, words) || Trim(m.text) == words
  {
    hide Trim;
    var all := init + [m];
    assert forall i :: 0 <= i < |init| ==> all[i] == init[i];
    assert all[|init|] == m;
  }

  lemma {:induction false} WordsIn(messages: seq<Message>, words: string)
    ensures words in Paragraphs(messages) <==> words != "" && Says(messages, words)
  {
    hide Trim, Says;
    if messages == [] {
      NobodySays(words);
    } else {
      var init, m := messages[..|messages| - 1], messages[|messages| - 1];
      WordsIn(init, words);
      SaysMore(init, m, words);
      assert init + [m] == messages;
    }
  }

  lemma NobodySays(words: string)
    ensures !Says([], words)
  {
  }

  lemma {:induction false} RemoveLastIs(a: seq<string>, words: string, b: seq<string>)
    requires words !in b
    ensures RemoveLast(a + [words] + b, words) == a + b
  {
    var all := a + [words] + b;
    if b == [] {
      assert all[..|all| - 1] == a && a + [] == a;
    } else {
      var init := b[..|b| - 1];
      assert b[|b| - 1] in b && forall x :: x in init ==> x in b;
      RemoveLastIs(a, words, init);
      assert all[..|all| - 1] == a + [words] + init;
      assert (a + init) + [b[|b| - 1]] == a + b;
    }
  }

  lemma {:induction false} RemoveNothing(ps: seq<string>, words: string)
    requires words !in ps
    ensures RemoveLast(ps, words) == ps
  {
    if ps != [] { RemoveNothing(ps[..|ps| - 1], words); }
  }

  /** Taking out the last message with these words takes out the last paragraph. */
  lemma WithoutParas(messages: seq<Message>, i: nat, words: string)
    requires i < |messages| && words != "" && Trim(messages[i].text) == words
    requires forall j :: i < j < |messages| ==> Trim(messages[j].text) != words
    ensures Paragraphs(Without(messages, i)) == RemoveLast(Paragraphs(messages), words)
    ensures words in Paragraphs(messages)
  {
    hide Trim, Paragraphs;
    RewrittenParagraphs(messages, i, messages[i].text);
    assert Rewritten(messages, i, messages[i].text) == messages;
    OwnIs(messages[i].text);
    WordsIn(messages[i + 1..], words);
    RemoveLastIs(Paragraphs(messages[..i]), words, Paragraphs(messages[i + 1..]));
    WordsIn(messages, words);
  }

  lemma OwnIs(text: string)
    ensures Own(text) == if Trim(text) == "" then [] else [Trim(text)]
  {
  }

  lemma {:induction false} OnlyOne(ps: seq<string>, words: string)
    requires words in ps
    ensures RemoveLast(ps, words) == [] <==> ps == [words]
  {
    if ps[|ps| - 1] == words { assert ps == ps[..|ps| - 1] + [words]; }
  }

  lemma TextNone(messages: seq<Message>)
    ensures TextOf(messages) == "" <==> Paragraphs(messages) == []
  {
    hide Trim;
    TextSilent(messages);
    ParagraphsSilent(messages);
  }

  /** Where the tracker finds a reply is where the definition does. */
  lemma FoundParas(t: Tracker, words: string)
    requires words != ""
    ensures var found := LastWith(t, words);
            && (found.None? ==> words !in Paras(t).closing && words !in Paras(t).fallback)
            && (found.Some? ==> found.value.inCurrent == (words in Paras(t).closing))
            && (found.Some? ==> words in Paragraphs(At(t, found.value.inCurrent).messages))
            && (found.Some? ==> Paragraphs(Without(At(t, found.value.inCurrent).messages, found.value.index))
                                == RemoveLast(Paragraphs(At(t, found.value.inCurrent).messages), words))
  {
    hide Trim, Paragraphs;
    WordsIn(t.current.messages, words);
    WordsIn(t.previous.messages, words);
    var found := LastWith(t, words);
    if found.Some? { WithoutParas(At(t, found.value.inCurrent).messages, found.value.index, words); }
  }

  lemma TakeOutParas(t: Tracker, reply: string, force: bool)
    ensures Paras(TakeOut(t, reply, force).0) == Asked(Paras(t), Trim(reply), force)
    ensures TakeOut(t, reply, force).1 == MayLeave(Paras(t), Trim(reply), force)
  {
    hide Trim, Paragraphs, TextOf, LastWith, RemoveLast;
    var words := Trim(reply);
    if words != "" {
      FoundParas(t, words);
      var found := LastWith(t, words);
      TextNone(t.current.messages);
      if found.None? {
        RemoveNothing(Paras(t).fallback, words);
      } else {
        var ms := At(t, found.value.inCurrent).messages;
        TextNone(Without(ms, found.value.index));
        OnlyOne(Paragraphs(ms), words);
      }
    }
  }

  lemma {:induction false} SiftParas(t: Tracker, entries: seq<HandedReply>, force: bool)
    ensures Paras(Sift(t, entries, force).0) == AskedAll(Paras(t), entries, force)
    decreases |entries|
  {
    hide TakeOut, Paras, Asked, Trim;
    if entries != [] {
      TakeOutParas(t, entries[0].reply, force);
      SiftParas(TakeOut(t, entries[0].reply, force).0, entries[1..], force);
    }
  }

  lemma ReleaseParas(t: Tracker, force: bool)
    ensures Paras(Release(t, force).0) == AskedAll(Paras(t), t.held, force)
  {
    hide Paragraphs, Sift, AskedAll;
    SiftParas(t, t.held, force);
    var t1 := Sift(t, t.held, force).0;
    assert Release(t, force).0.current == t1.current && Release(t, force).0.previous == t1.previous;
  }

  // ---------------------------------------------------------------- what every step does

  /** The tracker with the words an event brings, before any reply leaves. */
  function Informed(t: Tracker, op: Op): Tracker {
    match op
    case Saw(TextDelta(id, text)) => Append(t, id, text)
    case Saw(TextReplace(id, text)) => Replace(t, id, text)
    case _ => t
  }

  function Closed(talk: Talk): Talk {
    if talk.closing != [] then Talk([], talk.closing) else talk
  }

  /** The replies asked to leave, and whether they must. */
  function Asking(t: Tracker, op: Op): (seq<HandedReply>, bool) {
    match op
    case Saw(TextDelta(_, _)) => (Informed(t, op).held, false)
    case Saw(TextReplace(_, _)) => (Informed(t, op).held, false)
    case Saw(ToolStarted) => (t.held, true)
    case Saw(_) => ([], false)
    case Claimed(followUpId, reply) => ([HandedReply(followUpId, reply)], false)
  }

  /** On paragraphs, a step brings its words, lets the replies asked go one after
      another, and closes the talk at a tool event. */
  lemma StepParas(t: Tracker, op: Op)
    ensures var asked := AskedAll(Paras(Informed(t, op)), Asking(t, op).0, Asking(t, op).1);
            Paras(Step(t, op).0) == if op.Saw? && IsTool(op.event) then Closed(asked) else asked
  {
    hide Paras, Append, Replace, Release, Sift, TakeOut, CloseStretch, Asked, Trim, AskedAll;
    match op
    case Saw(TextDelta(id, text)) => ReleaseParas(Append(t, id, text), false);
    case Saw(TextReplace(id, text)) => ReleaseParas(Replace(t, id, text), false);
    case Saw(ToolStarted) =>
      ReleaseParas(t, true);
      ClosedParas(Release(t, true).0);
    case Saw(ToolFinished) =>
      ClosedParas(t);
      AskedNone(Paras(t), false);
    case Saw(OtherEvent) => AskedNone(Paras(t), false);
    case Claimed(followUpId, reply) =>
      TakeOutParas(t, reply, false);
      ClaimParas(t, followUpId, reply);
      AskedOne(Paras(t), HandedReply(followUpId, reply));
  }

  lemma AskedNone(talk: Talk, force: bool)
    ensures AskedAll(talk, [], force) == talk
  {
  }

  lemma AskedOne(talk: Talk, entry: HandedReply)
    ensures AskedAll(talk, [entry], false) == Asked(talk, Trim(entry.reply), false)
  {
    hide Asked, Trim;
    assert [entry][1..] == [];
    AskedNone(Asked(talk, Trim(entry.reply), false), false);
  }

  lemma ClaimParas(t: Tracker, followUpId: string, reply: string)
    ensures Paras(Claim(t, followUpId, reply).0) == Paras(TakeOut(t, reply, false).0)
  {
    hide Paragraphs, TakeOut, Trim;
  }

  lemma ClosedParas(t: Tracker)
    ensures Paras(CloseStretch(t)) == Closed(Paras(t))
  {
    hide Trim, TextOf, FramedIds;
    TextNone(t.current.messages);
  }

  /** And the answer reads as the paragraphs shown. */
  lemma AnswerShows(t: Tracker)
    ensures AnswerOf(t) == Join(Shown(Paras(t)))
  {
    hide Trim, Paragraphs, Join;
    TextNone(t.current.messages);
    assert TextOf(t.current.messages) == Join(Paragraphs(t.current.messages));
    assert TextOf(t.previous.messages) == Join(Paragraphs(t.previous.messages));
  }

  // ---------------------------------------------------------------- claims after events

  /** The definition's paragraphs. */
  function SimpleParas(events: seq<HarnessEvent>): Talk {
    Talk(Paragraphs(MessagesOf(Closing(events))), EarlierParas(events))
  }

  function EarlierParas(events: seq<HarnessEvent>): seq<string>
    decreases |events|
  {
    if events == [] then []
    else
      var init := events[..|events| - 1];
      if !IsTool(events[|events| - 1]) then EarlierParas(init)
      else if Paragraphs(MessagesOf(Closing(init))) != [] then Paragraphs(MessagesOf(Closing(init)))
      else EarlierParas(init)
  }

  lemma {:induction false} WatchParas(events: seq<HarnessEvent>)
    requires NoCrossing(events) && Fits(events)
    ensures Paras(Watch(events)) == SimpleParas(events)
  {
    hide Append, Replace, Volume, Release, Follows, FramedIds, CloseStretch, Paragraphs, TextOf, Closing, MessagesOf;
    WatchTells(events);
    if events == [] {
      NoParas();
    } else {
      var init, e := events[..|events| - 1], events[|events| - 1];
      WatchParas(init);
      WatchAgrees(init);
      var t := Watch(init);
      assert init + [e] == events;
      match e
      case TextDelta(id, text) =>
        ClosingNext(init, e);
        TalkStep(t, Closing(init), e, id, text);
        ReleaseNothing(Append(t, id, text), false);
      case TextReplace(id, text) =>
        ClosingNext(init, e);
        TalkStep(t, Closing(init), e, Some(id), text);
        ReleaseNothing(Replace(t, id, text), false);
      case ToolStarted =>
        ReleaseNothing(t, true);
        ClosedParas(t);
      case ToolFinished => ClosedParas(t);
      case OtherEvent => ObserveOther(t);
    }
  }

  lemma ClosingNext(init: seq<HarnessEvent>, e: HarnessEvent)
    requires !IsTool(e)
    ensures Closing(init + [e]) == Closing(init) + [e]
  {
    assert (init + [e])[..|init|] == init;
  }

  lemma NoParas()
    ensures Paras(Fresh) == SimpleParas([])
  {
    assert MessagesOf([]) == [];
  }

  /** The tracker once these claims have come in. */
  function ClaimAll(t: Tracker, claims: seq<HandedReply>): Tracker
    decreases |claims|
  {
    if claims == [] then t else ClaimAll(Claim(t, claims[0].followUpId, claims[0].reply).0, claims[1..])
  }

  lemma {:induction false} ClaimAllParas(t: Tracker, claims: seq<HandedReply>)
    ensures Paras(ClaimAll(t, claims)) == AskedAll(Paras(t), claims, false)
    decreases |claims|
  {
    hide Claim, Paras, Asked, Trim, TakeOut;
    if claims != [] {
      var t1 := Claim(t, claims[0].followUpId, claims[0].reply).0;
      ClaimParas(t, claims[0].followUpId, claims[0].reply);
      TakeOutParas(t, claims[0].reply, false);
      ClaimAllParas(t1, claims[1..]);
    }
  }

  /** After any events on which the tracker follows the definition, and any claims:
      the answer is the definition's, with each claimed reply in turn taken out
      where it last stands, unless it was all that was shown. */
  lemma ClaimsTakenOut(events: seq<HarnessEvent>, claims: seq<HandedReply>)
    requires NoCrossing(events) && Fits(events)
    ensures AnswerOf(ClaimAll(Watch(events), claims)) == Join(Shown(AskedAll(SimpleParas(events), claims, false)))
  {
    hide AnswerOf, Join, Shown, AskedAll, SimpleParas, Paras, Watch, ClaimAll, NoCrossing, Fits;
    WatchParas(events);
    ClaimAllParas(Watch(events), claims);
    AnswerShows(ClaimAll(Watch(events), claims));
  }

  // ---------------------------------------------------------------- who is handed over, and who held

  /** The replies that leave when these are asked one after another. */
  function Leaving(talk: Talk, entries: seq<HandedReply>, force: bool): seq<HandedReply>
    decreases |entries|
  {
    if entries == [] then []
    else
      var words := Trim(entries[0].reply);
      (if MayLeave(talk, words, force) then [entries[0]] else []) + Leaving(Asked(talk, words, force), entries[1..], force)
  }

  /** And those that stay. */
  function Staying(talk: Talk, entries: seq<HandedReply>, force: bool): seq<HandedReply>
    decreases |entries|
  {
    if entries == [] then []
    else
      var words := Trim(entries[0].reply);
      (if MayLeave(talk, words, force) then [] else [entries[0]]) + Staying(Asked(talk, words, force), entries[1..], force)
  }

  lemma {:induction false} SiftVerdicts(t: Tracker, entries: seq<HandedReply>, force: bool)
    ensures Sift(t, entries, force).1 == Leaving(Paras(t), entries, force)
    ensures Sift(t, entries, force).2 == Staying(Paras(t), entries, force)
    decreases |entries|
  {
    hide TakeOut, Paras, Asked, MayLeave, Trim;
    if entries != [] {
      TakeOutParas(t, entries[0].reply, force);
      SiftVerdicts(TakeOut(t, entries[0].reply, force).0, entries[1..], force);
    }
  }

  lemma ReleaseVerdicts(t: Tracker, force: bool)
    ensures Release(t, force).1 == Leaving(Paras(t), t.held, force)
    ensures Release(t, force).0.held == Staying(Paras(t), t.held, force)
  {
    hide Paras, Sift, Leaving, Staying;
    SiftVerdicts(t, t.held, force);
  }

  /** A claim is handed over, and nothing else is, if and only if it has words and
      they are not all the answer shows; it is held, behind what is held already, if
      and only if it has words and they are all that is shown. */
  lemma ClaimVerdict(t: Tracker, followUpId: string, reply: string)
    ensures var (t', handed), entry, words := Step(t, Claimed(followUpId, reply)), HandedReply(followUpId, reply), Trim(reply);
            && handed == (if words != "" && Shown(Paras(t)) != [words] then [entry] else [])
            && t'.held == t.held + (if words != "" && Shown(Paras(t)) == [words] then [entry] else [])
  {
    hide Paras, Trim, TakeOut;
    TakeOutParas(t, reply, false);
    TakeOutHeld(t, reply, false);
    assert t.held + [] == t.held;
  }

  /** When an event asks the held replies, each leaves, in turn, if and only if it
      may at that point; the others stay held, in order. Any other event hands over
      and lets go of none. */
  lemma EventVerdicts(t: Tracker, event: HarnessEvent)
    ensures var (t', handed) := Step(t, Saw(event));
            var words := Paras(Informed(t, Saw(event)));
            match event
            case ToolFinished => handed == [] && t'.held == t.held
            case OtherEvent => handed == [] && t'.held == t.held
            case _ => && handed == Leaving(words, t.held, event.ToolStarted?)
                      && t'.held == Staying(words, t.held, event.ToolStarted?)
  {
    hide Paras, Append, Replace, Release, Leaving, Staying;
    match event
    case TextDelta(id, text) =>
      WordsHoldNothing(t, event);
      ReleaseVerdicts(Append(t, id, text), false);
    case TextReplace(id, text) =>
      WordsHoldNothing(t, event);
      ReleaseVerdicts(Replace(t, id, text), false);
    case ToolStarted =>
      ReleaseVerdicts(t, true);
      ClosedHolds(Release(t, true).0);
    case ToolFinished => ClosedHolds(t);
    case OtherEvent =>
  }

  lemma ClosedHolds(t: Tracker)
    ensures CloseStretch(t).held == t.held
  {
    hide TextOf, FramedIds;
  }

  // ---------------------------------------------------------------- ids let go of

  function Live(t: Tracker): set<Id> {
    FramedIds(t.current.messages) + FramedIds(t.previous.messages)
  }

  /** Closing lets go of exactly the ids it retires. */
  lemma CloseRetires(t: Tracker)
    requires Identified(t)
    ensures CloseStretch(t).retired == t.retired + (Live(t) - Live(CloseStretch(t)))
    ensures Live(CloseStretch(t)) <= Live(t)
  {
    hide TextOf;
    assert FramedIds([]) == {};
  }

  /** The id's message reads as a reply in this list. */
  ghost predicate ReadsAs(t: Tracker, id: Id, entries: seq<HandedReply>) {
    exists inCurrent, i, k :: 0 <= i < |At(t, inCurrent).messages| && 0 <= k < |entries|
                              && At(t, inCurrent).messages[i].id == Some(id)
                              && Trim(At(t, inCurrent).messages[i].text) == Trim(entries[k].reply)
  }

  /** What is left of one stretch reads as it did in the whole. */
  lemma FewerRead(t: Tracker, t': Tracker, inCurrent: bool, i: nat, id: Id, entries: seq<HandedReply>)
    requires i < |At(t, inCurrent).messages| && At(t', inCurrent).messages == Without(At(t, inCurrent).messages, i)
    requires At(t', !inCurrent) == At(t, !inCurrent)
    ensures ReadsAs(t', id, entries) ==> ReadsAs(t, id, entries)
  {
    hide Trim;
    var before, after := At(t, inCurrent).messages, At(t', inCurrent).messages;
    assert forall j :: 0 <= j < |after| ==> after[j] == before[if j < i then j else j + 1];
    if ReadsAs(t', id, entries) {
      var c, j, k :| 0 <= j < |At(t', c).messages| && 0 <= k < |entries|
                     && At(t', c).messages[j].id == Some(id)
                     && Trim(At(t', c).messages[j].text) == Trim(entries[k].reply);
      if c == inCurrent { assert At(t, c).messages[if j < i then j else j + 1] == At(t', c).messages[j]; }
    }
  }

  /** Taking a reply out loses at most the id of a message that reads as it, and
      changes no other message. */
  lemma TakeOutIds(t: Tracker, entry: HandedReply, force: bool, id: Id)
    ensures var (t', taken) := TakeOut(t, entry.reply, force);
            && t'.retired == t.retired && Live(t') <= Live(t)
            && (id in Live(t) ==> id in Live(t') || (taken && ReadsAs(t, id, [entry])))
            && (forall entries: seq<HandedReply> :: ReadsAs(t', id, entries) ==> ReadsAs(t, id, entries))
  {
    hide Trim, TextOf, FramedIds;
    var words := Trim(entry.reply);
    var found := LastWith(t, words);
    var (t', taken) := TakeOut(t, entry.reply, force);
    if t' != t {
      var Spot(inCurrent, i) := found.value;
      var before := At(t, inCurrent).messages;
      assert At(t', inCurrent).messages == Without(before, i);
      assert At(t', !inCurrent) == At(t, !inCurrent);
      KeepsOthers(before, i);
      if id in Live(t) && id !in Live(t') {
        assert before[i].id == Some(id);
        assert [entry][0] == entry;
        assert ReadsAs(t, id, [entry]);
      }
      hide ReadsAs;
      forall entries: seq<HandedReply> ensures ReadsAs(t', id, entries) ==> ReadsAs(t, id, entries) {
        FewerRead(t, t', inCurrent, i, id, entries);
      }
    }
  }

  lemma KeepsOthers(messages: seq<Message>, i: nat)
    requires i < |messages|
    ensures FramedIds(Without(messages, i)) <= FramedIds(messages)
    ensures FramedIds(messages) <= FramedIds(Without(messages, i)) + (if messages[i].id.Some? then {messages[i].id.value} else {})
  {
    var rest := Without(messages, i);
    assert messages == messages[..i] + [messages[i]] + messages[i + 1..];
    assert forall m :: m in messages <==> m in rest || m == messages[i];
  }

  lemma {:induction false} SiftIds(t: Tracker, entries: seq<HandedReply>, force: bool, id: Id)
    ensures var (t', handed, kept) := Sift(t, entries, force);
            && t'.retired == t.retired && Live(t') <= Live(t)
            && (id in Live(t) ==> id in Live(t') || ReadsAs(t, id, handed))
    decreases |entries|
  {
    hide TakeOut, Live, ReadsAs;
    if entries != [] {
      var (t1, taken) := TakeOut(t, entries[0].reply, force);
      TakeOutIds(t, entries[0], force, id);
      SiftIds(t1, entries[1..], force, id);
      var rest := Sift(t1, entries[1..], force).1;
      MoreReplies(t, id, entries[0], rest);
    }
  }

  lemma MoreReplies(t: Tracker, id: Id, entry: HandedReply, rest: seq<HandedReply>)
    ensures ReadsAs(t, id, [entry]) || ReadsAs(t, id, rest) ==> ReadsAs(t, id, [entry] + rest)
  {
    hide Trim;
    if ReadsAs(t, id, rest) {
      var c, i, k :| 0 <= i < |At(t, c).messages| && 0 <= k < |rest|
                     && At(t, c).messages[i].id == Some(id)
                     && Trim(At(t, c).messages[i].text) == Trim(rest[k].reply);
      assert ([entry] + rest)[k + 1] == rest[k];
    } else if ReadsAs(t, id, [entry]) {
      assert ([entry] + rest)[0] == [entry][0];
    }
  }

  /** Words bring an id to life but let go of none. */
  lemma InformedIds(t: Tracker, op: Op)
    ensures Informed(t, op).retired == t.retired && Live(t) <= Live(Informed(t, op)) && Informed(t, op).held == t.held
  {
    match op
    case Saw(TextDelta(id, text)) => AppendIds(t, id, text);
    case Saw(TextReplace(id, text)) =>
      AppendIds(t, Some(id), text);
      if Find(t, Some(id)).Some? {
        var Spot(c, i) := Find(t, Some(id)).value;
        RewriteIds(At(t, c).messages, i, Clip(text, MAX_ANSWER_CHARS - (At(t, c).chars - |At(t, c).messages[i].text|)));
      }
    case _ =>
  }

  lemma RewriteIds(messages: seq<Message>, i: nat, text: string)
    requires i < |messages|
    ensures FramedIds(messages[i := messages[i].(text := text)]) == FramedIds(messages)
  {
    var after := messages[i := messages[i].(text := text)];
    forall id ensures id in FramedIds(after) <==> id in FramedIds(messages) {
      if id in FramedIds(after) {
        var j :| 0 <= j < |after| && after[j].id == Some(id);
        assert messages[j] in messages;
      }
      if id in FramedIds(messages) {
        var j :| 0 <= j < |messages| && messages[j].id == Some(id);
        assert after[j] in after;
      }
    }
  }

  lemma AppendIds(t: Tracker, id: Option<Id>, text: string)
    ensures Append(t, id, text).retired == t.retired && Append(t, id, text).held == t.held
    ensures Live(t) <= Live(Append(t, id, text))
  {
    if Find(t, id).Some? {
      var Spot(c, i) := Find(t, id).value;
      RewriteIds(At(t, c).messages, i, At(t, c).messages[i].text + text);
    } else {
      var ms := t.current.messages;
      assert forall m :: m in ms ==> m in ms + [Message(id, text)];
    }
  }

  /** From any state whose ids are unambiguous, as over every run they are: no id is
      forgotten. One that is live, or comes to life, stays live, or is retired, or
      belongs to a message that reads as a reply handed over at this very step; and
      what is retired stays so, and was live. */
  lemma IdsAccounted(t: Tracker, op: Op, id: Id, longest: nat)
    requires Identified(Informed(t, op)) && Bounded(Informed(t, op), longest)
    ensures var (t', handed) := Step(t, op);
            && t.retired <= t'.retired <= t.retired + Live(Informed(t, op))
            && (id in Live(Informed(t, op)) ==> id in Live(t') || id in t'.retired || ReadsAs(Informed(t, op), id, handed))
  {
    hide TakeOut, Live, ReadsAs, Sift, CloseStretch, Append, Replace, Identified;
    InformedIds(t, op);
    var u := Informed(t, op);
    match op
    case Saw(TextDelta(_, _)) => SiftIds(u, u.held, false, id); SameLive(Sift(u, u.held, false).0, Sift(u, u.held, false).2);
    case Saw(TextReplace(_, _)) => SiftIds(u, u.held, false, id); SameLive(Sift(u, u.held, false).0, Sift(u, u.held, false).2);
    case Saw(ToolStarted) =>
      SiftIds(t, t.held, true, id);
      SiftKeeps(t, t.held, true, longest);
      SameIdentified(Sift(t, t.held, true).0, Sift(t, t.held, true).2);
      SameLive(Sift(t, t.held, true).0, Sift(t, t.held, true).2);
      CloseRetires(Release(t, true).0);
    case Saw(ToolFinished) => CloseRetires(t);
    case Saw(OtherEvent) =>
    case Claimed(followUpId, reply) =>
      TakeOutIds(t, HandedReply(followUpId, reply), false, id);
      SameLive(TakeOut(t, reply, false).0, TakeOut(t, reply, false).0.held + [HandedReply(followUpId, reply)]);
  }

  lemma SameIdentified(t: Tracker, held: seq<HandedReply>)
    requires Identified(t)
    ensures Identified(t.(held := held))
  {
  }

  lemma SameLive(t: Tracker, held: seq<HandedReply>)
    ensures Live(t.(held := held)) == Live(t)
  {
  }

  // ---------------------------------------------------------------- what silences an answer

  /** Every paragraph of the two live stretches. */
  function Spoken(talk: Talk): multiset<string> {
    multiset(talk.closing) + multiset(talk.fallback)
  }

  function WordsOf(entries: seq<HandedReply>): multiset<string>
    decreases |entries|
  {
    if entries == [] then multiset{}
    else (if Trim(entries[0].reply) == "" then multiset{} else multiset{Trim(entries[0].reply)}) + WordsOf(entries[1..])
  }

  lemma {:induction false} RemovedSpoken(ps: seq<string>, words: string)
    ensures multiset(RemoveLast(ps, words)) == multiset(ps) - multiset{words}
  {
    if ps != [] {
      var init, last := ps[..|ps| - 1], ps[|ps| - 1];
      assert ps == init + [last];
      RemovedSpoken(init, words);
      if last != words && words !in init {
        RemoveNothing(init, words);
      }
    }
  }

  lemma TakenSpoken(talk: Talk, words: string)
    ensures Spoken(TakenFrom(talk, words)) == Spoken(talk) - multiset{words}
  {
    hide RemoveLast;
    RemovedSpoken(talk.closing, words);
    RemovedSpoken(talk.fallback, words);
  }

  lemma {:induction false} ForcedSpoken(talk: Talk, entries: seq<HandedReply>)
    ensures Spoken(AskedAll(talk, entries, true)) == Spoken(talk) - WordsOf(entries)
    decreases |entries|
  {
    hide Trim, TakenFrom, Spoken;
    if entries != [] {
      var words := Trim(entries[0].reply);
      TakenSpoken(talk, words);
      ForcedSpoken(Asked(talk, words, true), entries[1..]);
    }
  }

  lemma SilentSpoken(t: Tracker)
    ensures AnswerOf(t) == "" <==> Spoken(Paras(t)) == multiset{}
  {
    hide Trim, TextOf;
    TextNone(t.current.messages);
    TextNone(t.previous.messages);
    if Spoken(Paras(t)) == multiset{} {
      assert |multiset(Paras(t).closing)| == 0 && |multiset(Paras(t).fallback)| == 0;
    }
  }

  /** A correction silences the answer exactly when the message corrected is the
      only one with words, and no words are left of it. */
  predicate ErasesAll(t: Tracker, id: Id, text: string) {
    match Find(t, Some(id))
    case None => false
    case Some(spot) =>
      && TextOf(Without(At(t, spot.inCurrent).messages, spot.index)) == ""
      && TextOf(At(t, !spot.inCurrent).messages) == ""
      && Trim(Kept(At(t, spot.inCurrent), spot.index, text)) == ""
  }

  lemma ReplaceSilences(t: Tracker, id: Id, text: string)
    requires AnswerOf(t) != ""
    ensures AnswerOf(Replace(t, id, text)) == "" <==> ErasesAll(t, id, text)
  {
    hide Trim, TextOf, Append, Clip;
    match Find(t, Some(id))
    case None => AppendSpeaks(t, Some(id), text);
    case Some(spot) =>
      var s := At(t, spot.inCurrent);
      RewrittenText(s.messages, spot.index, Kept(s, spot.index, text));
  }

  /** Nothing leaves a silent answer. */
  lemma ReleaseSilent(t: Tracker)
    requires AnswerOf(t) == ""
    ensures AnswerOf(Release(t, false).0) == ""
  {
    hide AnswerOf, Release, Paras;
    SilentSpoken(t);
    ReleaseParas(t, false);
    AskedLess(Paras(t), t.held, false);
    SilentSpoken(Release(t, false).0);
  }

  lemma {:induction false} AskedLess(talk: Talk, entries: seq<HandedReply>, force: bool)
    ensures Spoken(AskedAll(talk, entries, force)) <= Spoken(talk)
    decreases |entries|
  {
    hide Trim, TakenFrom, Spoken;
    if entries != [] {
      var words := Trim(entries[0].reply);
      TakenSpoken(talk, words);
      AskedLess(Asked(talk, words, force), entries[1..], force);
    }
  }

  lemma CorrectionSilences(t: Tracker, id: Id, text: string)
    requires AnswerOf(t) != ""
    ensures AnswerOf(Step(t, Saw(TextReplace(id, text))).0) == "" <==> ErasesAll(t, id, text)
  {
    hide AnswerOf, ErasesAll, Replace, Release;
    var u := Replace(t, id, text);
    ReplaceSilences(t, id, text);
    if AnswerOf(u) == "" { ReleaseSilent(u); } else { ReleaseSpeaks(u); }
  }

  lemma NoneLeft(a: multiset<string>, b: multiset<string>)
    ensures a - b == multiset{} <==> a <= b
  {
    if a - b == multiset{} {
      forall x ensures a[x] <= b[x] { assert (a - b)[x] == 0; }
    }
  }

  lemma ToolSilences(t: Tracker)
    ensures AnswerOf(Step(t, Saw(ToolStarted)).0) == "" <==> Spoken(Paras(t)) <= WordsOf(t.held)
  {
    hide AnswerOf, Paras, WordsOf, Spoken, Release, CloseStretch;
    var t1 := Release(t, true).0;
    CloseStretchAnswer(t1);
    ReleaseParas(t, true);
    ForcedSpoken(Paras(t), t.held);
    SilentSpoken(t1);
    NoneLeft(Spoken(Paras(t)), WordsOf(t.held));
  }

  /** From any state with an answer, a step silences it if and only if it is a
      correction that erases the only words there are, or a tool call that hands
      over replies enough to cover every message with words. */
  lemma SilencedExactly(t: Tracker, op: Op)
    requires AnswerOf(t) != ""
    ensures AnswerOf(Step(t, op).0) == ""
            <==> op.Saw? && ((op.event.TextReplace? && ErasesAll(t, op.event.id, op.event.text))
                             || (op.event == ToolStarted && Spoken(Paras(t)) <= WordsOf(t.held)))
  {
    hide AnswerOf, Paras, ErasesAll, WordsOf, Spoken, Step;
    if op.Saw? && op.event.TextReplace? {
      CorrectionSilences(t, op.event.id, op.event.text);
    } else if op == Saw(ToolStarted) {
      ToolSilences(t);
    } else if AnswerOf(Step(t, op).0) == "" {
      NeverSilenced(t, op);
    }
  }
}
