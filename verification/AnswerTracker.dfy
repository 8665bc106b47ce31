/** The answer tracker as the source runs it: one object whose fields every
    event updates (apps/sandbox-supervisor/src/answer.ts:115-282). */
module AnswerTracking {
  import opened Wrappers
  import opened Text
  import opened Spec = Answer

  class AnswerTracker {
    var current: Stretch
    /** What the answer falls back on while `current` is silent. */
    var previous: Stretch
    var held: seq<HandedReply>
    var retired: set<Id>

    ghost function State(): Tracker
      reads this
    {
      Tracker(current, previous, held, retired)
    }

    constructor ()
      ensures State() == Spec.Fresh
    {
      current, previous, held, retired := EmptyStretch, EmptyStretch, [], {};
    }

    method Retire(stretch: Stretch)
      modifies this`retired
      ensures State() == old(State()).(retired := old(retired) + FramedIds(stretch.messages))
    {
      for i := 0 to |stretch.messages|
        invariant retired == old(retired) + FramedIds(stretch.messages[..i])
      {
        var message := stretch.messages[i];
        assert stretch.messages[..i + 1] == stretch.messages[..i] + [message];
        assert forall m :: m in stretch.messages[..i + 1] <==> m in stretch.messages[..i] || m == message;
        if message.id.Some? {
          retired := retired + {message.id.value};
        }
      }
      assert stretch.messages[..|stretch.messages|] == stretch.messages;
    }

    method Append(id: Option<Id>, text: string)
      modifies this
      ensures State() == Spec.Append(old(State()), id, text)
    {
      if |text| == 0 { return; }
      var found := Find(Tracker(current, previous, held, retired), id);
      if found.None? && id.Some? && id.value in retired { return; }
      var inCurrent := found.None? || found.value.inCurrent;
      var stretch := if inCurrent then current else previous;
      if stretch.chars >= MAX_ANSWER_CHARS { return; }
      if found.Some? {
        var i := found.value.index;
        stretch := Rewrite(stretch, i, stretch.messages[i].text + text);
      } else {
        stretch := Stretch(stretch.messages + [Message(id, text)], stretch.chars + |text|);
      }
      Store(inCurrent, stretch);
    }

    method Store(inCurrent: bool, stretch: Stretch)
      modifies this`current, this`previous
      ensures State() == Put(old(State()), inCurrent, stretch)
    {
      if inCurrent { current := stretch; } else { previous := stretch; }
    }

    method Replace(id: Id, text: string)
      modifies this
      ensures State() == Spec.Replace(old(State()), id, text)
    {
      var found := Find(Tracker(current, previous, held, retired), Some(id));
      if found.None? {
        Append(Some(id), text);
        return;
      }
      var inCurrent, i := found.value.inCurrent, found.value.index;
      var stretch := if inCurrent then current else previous;
      var kept := Clip(text, MAX_ANSWER_CHARS - (stretch.chars - |stretch.messages[i].text|));
      Store(inCurrent, Rewrite(stretch, i, kept));
    }

    method CloseStretch()
      modifies this
      ensures State() == Spec.CloseStretch(old(State()))
    {
      if TextOf(current.messages) != "" {
        Retire(previous);
        previous := current;
      } else {
        Retire(current);
      }
      current := EmptyStretch;
    }

    /** Computes `Spec.LastWith` by two backwards scans. */
    method LastWith(words: string) returns (found: Option<Spot>)
      ensures found == Spec.LastWith(State(), words)
    {
      hide Trim;
      var inCurrent := true;
      while true
        invariant !inCurrent ==> LastIndexWith(current.messages, words, |current.messages|) < 0
        decreases inCurrent
      {
        var messages := if inCurrent then current.messages else previous.messages;
        var index := |messages| - 1;
        while index >= 0
          invariant -1 <= index < |messages|
          invariant LastIndexWith(messages, words, |messages|) == LastIndexWith(messages, words, index + 1)
        {
          if Trim(messages[index].text) == words {
            return Some(Spot(inCurrent, index));
          }
          index := index - 1;
        }
        if !inCurrent { return None; }
        inCurrent := false;
      }
    }

    method TakeOut(reply: string, force: bool) returns (taken: bool)
      modifies this
      ensures (State(), taken) == Spec.TakeOut(old(State()), reply, force)
    {
      hide Trim, TextOf, LastIndexWith, Without;
      var words := Trim(reply);
      if words == "" { return false; }
      var found := LastWith(words);
      if found.None? { return true; }
      var inCurrent, index := found.value.inCurrent, found.value.index;
      var stretch := if inCurrent then current else previous;
      var rest := Without(stretch.messages, index);
      var answering := TextOf(current.messages) != "";
      if !force && inCurrent == answering && TextOf(rest) == "" { return false; }
      Store(inCurrent, Stretch(rest, stretch.chars - |stretch.messages[index].text|));
      return true;
    }

    /** Computes the sift of `held`: what it returns leaves `held`, in order. */
    method Release(force: bool) returns (handed: seq<HandedReply>)
      modifies this
      ensures (State(), handed) == Spec.Release(old(State()), force)
    {
      hide Spec.TakeOut;
      handed := [];
      var kept: seq<HandedReply> := [];
      var entries := held;
      assert entries[0..] == entries;
      for i := 0 to |entries|
        invariant held == entries == old(held)
        invariant Sift(old(State()), entries, force).0 == Sift(State(), entries[i..], force).0
        invariant Sift(old(State()), entries, force).1 == handed + Sift(State(), entries[i..], force).1
        invariant Sift(old(State()), entries, force).2 == kept + Sift(State(), entries[i..], force).2
      {
        assert entries[i..][0] == entries[i] && entries[i..][1..] == entries[i + 1..];
        TakeOutHeld(State(), entries[i].reply, force);
        var taken := TakeOut(entries[i].reply, force);
        if taken { handed := handed + [entries[i]]; } else { kept := kept + [entries[i]]; }
      }
      assert entries[|entries|..] == [] && handed + [] == handed && kept + [] == kept;
      assert Sift(old(State()), entries, force) == (State(), handed, kept);
      held := kept;
    }

    /** Feed one event of the turn; the replies it handed over. */
    method Observe(event: HarnessEvent) returns (handed: seq<HandedReply>)
      modifies this
      ensures (State(), handed) == Spec.Observe(old(State()), event)
    {
      hide Spec.Append, Spec.Replace, Spec.CloseStretch, Spec.Release;
      match event
      case TextDelta(id, text) =>
        Append(id, text);
        handed := Release(false);
      case TextReplace(id, text) =>
        Replace(id, text);
        handed := Release(false);
      case ToolStarted =>
        handed := Release(true);
        CloseStretch();
      case ToolFinished =>
        CloseStretch();
        handed := [];
      case OtherEvent =>
        handed := [];
    }

    /** True exactly when the claim step hands the reply over at once. */
    method Claim(followUpId: string, reply: string) returns (taken: bool)
      modifies this
      ensures (State(), taken) == Spec.Claim(old(State()), followUpId, reply)
    {
      hide Spec.TakeOut;
      taken := TakeOut(reply, false);
      if !taken && Trim(reply) != "" {
        held := held + [HandedReply(followUpId, reply)];
      }
    }

    method Answer() returns (answer: string)
      ensures answer == AnswerOf(State())
    {
      var stretch := if TextOf(current.messages) != "" then current else previous;
      answer := TextOf(stretch.messages);
    }
  }
}
