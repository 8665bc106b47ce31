/** The answer tracker (apps/sandbox-supervisor/src/answer.ts:41-282) as a state
    machine on values: its state, a function for each step, and what every run
    of steps keeps. */
module Answer {
  import opened Wrappers
  import opened Text

  const MAX_ANSWER_CHARS: nat := 256_000

  type Id = string

  /** `None` is the identity of unframed output. */
  datatype Message = Message(id: Option<Id>, text: string)

  datatype Stretch = Stretch(messages: seq<Message>, chars: int)

  const EmptyStretch := Stretch([], 0)

  datatype HandedReply = HandedReply(followUpId: string, reply: string)

  datatype HarnessEvent =
    | TextDelta(messageId: Option<Id>, text: string)
    | TextReplace(id: Id, text: string)
    | ToolStarted
    | ToolFinished
    | OtherEvent

  datatype Tracker = Tracker(current: Stretch, previous: Stretch, held: seq<HandedReply>, retired: set<Id>)

  const Fresh := Tracker(EmptyStretch, EmptyStretch, [], {})

  // ---------------------------------------------------------------- answer text

  /** The messages' words: each trimmed, blank ones dropped. */
  function Paragraphs(messages: seq<Message>): seq<string> {
    if messages == [] then []
    else
      var words := Trim(messages[|messages| - 1].text);
      Paragraphs(messages[..|messages| - 1]) + (if words == "" then [] else [words])
  }

  function Join(ps: seq<string>): string {
    if |ps| == 0 then ""
    else if |ps| == 1 then ps[0]
    else Join(ps[..|ps| - 1]) + "\n\n" + ps[|ps| - 1]
  }

  function TextOf(messages: seq<Message>): string {
    Join(Paragraphs(messages))
  }

  ghost predicate Silent(messages: seq<Message>) {
    forall i :: 0 <= i < |messages| ==> Trim(messages[i].text) == ""
  }

  lemma {:induction false} ParagraphsSilent(messages: seq<Message>)
    ensures Paragraphs(messages) == [] <==> Silent(messages)
    ensures forall i :: 0 <= i < |Paragraphs(messages)| ==> Paragraphs(messages)[i] != ""
  {
    hide Trim;
    if messages != [] {
      ParagraphsSilent(messages[..|messages| - 1]);
    }
  }

  /** A stretch has no text exactly when it has no words. */
  lemma TextSilent(messages: seq<Message>)
    ensures TextOf(messages) == "" <==> Silent(messages)
  {
    ParagraphsSilent(messages);
    var ps := Paragraphs(messages);
    if |ps| == 1 {
      assert ps[0] != "";
    }
  }

  // ---------------------------------------------------------------- places

  /** A message's place in one of the two live stretches. */
  datatype Spot = Spot(inCurrent: bool, index: nat)

  function At(t: Tracker, inCurrent: bool): Stretch {
    if inCurrent then t.current else t.previous
  }

  function Put(t: Tracker, inCurrent: bool, s: Stretch): Tracker {
    if inCurrent then t.(current := s) else t.(previous := s)
  }

  ghost predicate Within(t: Tracker, spot: Spot) {
    spot.index < |At(t, spot.inCurrent).messages|
  }

  /** The index of the first message with this id, or the length when there is none. */
  function IndexOf(messages: seq<Message>, id: Option<Id>): (i: nat)
    ensures i <= |messages|
    ensures i < |messages| ==> messages[i].id == id
    ensures forall j :: 0 <= j < i ==> messages[j].id != id
  {
    if messages == [] || messages[0].id == id then 0 else 1 + IndexOf(messages[1..], id)
  }

  function Find(t: Tracker, id: Option<Id>): (found: Option<Spot>)
    ensures found.Some? ==> Within(t, found.value)
                            && At(t, found.value.inCurrent).messages[found.value.index].id == id
    ensures found.None? ==> forall m <- t.current.messages :: m.id != id
    ensures found.None? && id.Some? ==> forall m <- t.previous.messages :: m.id != id
    ensures found.Some? && !found.value.inCurrent ==> id.Some? && forall m <- t.current.messages :: m.id != id
  {
    var i := IndexOf(t.current.messages, id);
    if i < |t.current.messages| then Some(Spot(true, i))
    else if id.None? then None
    else
      var j := IndexOf(t.previous.messages, id);
      if j < |t.previous.messages| then Some(Spot(false, j)) else None
  }

  /** The last message below `bound` whose words are these, or -1. */
  function LastIndexWith(messages: seq<Message>, words: string, bound: nat): (i: int)
    requires bound <= |messages|
    ensures -1 <= i < bound
    ensures i >= 0 ==> Trim(messages[i].text) == words
    ensures forall j :: i < j < bound ==> Trim(messages[j].text) != words
  {
    if bound == 0 then -1
    else if Trim(messages[bound - 1].text) == words then bound - 1
    else LastIndexWith(messages, words, bound - 1)
  }

  function LastWith(t: Tracker, words: string): (found: Option<Spot>)
    ensures found.Some? ==> Within(t, found.value)
                            && Trim(At(t, found.value.inCurrent).messages[found.value.index].text) == words
  {
    var i := LastIndexWith(t.current.messages, words, |t.current.messages|);
    if i >= 0 then Some(Spot(true, i))
    else
      var j := LastIndexWith(t.previous.messages, words, |t.previous.messages|);
      if j >= 0 then Some(Spot(false, j)) else None
  }

  // ---------------------------------------------------------------- the steps

  /** Rewrite one message's text, keeping the stretch's character count. */
  function Rewrite(s: Stretch, i: nat, text: string): Stretch
    requires i < |s.messages|
  {
    Stretch(s.messages[i := s.messages[i].(text := text)], s.chars + |text| - |s.messages[i].text|)
  }

  function Without(messages: seq<Message>, i: nat): seq<Message>
    requires i < |messages|
  {
    messages[..i] + messages[i + 1..]
  }

  /** A stretch with one message taken out. */
  function Removed(s: Stretch, i: nat): Stretch
    requires i < |s.messages|
  {
    Stretch(Without(s.messages, i), s.chars - |s.messages[i].text|)
  }

  function Append(t: Tracker, id: Option<Id>, text: string): Tracker {
    if text == "" then t
    else
      var found := Find(t, id);
      if found.None? && id.Some? && id.value in t.retired then t
      else
        var inCurrent := found.None? || found.value.inCurrent;
        var s := At(t, inCurrent);
        if s.chars >= MAX_ANSWER_CHARS then t
        else if found.Some? then
          Put(t, inCurrent, Rewrite(s, found.value.index, s.messages[found.value.index].text + text))
        else
          Put(t, inCurrent, Stretch(s.messages + [Message(id, text)], s.chars + |text|))
  }

  function Clip(text: string, room: int): string {
    text[..if room < 0 then 0 else if room < |text| then room else |text|]
  }

  function Replace(t: Tracker, id: Id, text: string): Tracker {
    var found := Find(t, Some(id));
    if found.None? then Append(t, Some(id), text)
    else
      var Spot(inCurrent, i) := found.value;
      var s := At(t, inCurrent);
      Put(t, inCurrent, Rewrite(s, i, Clip(text, MAX_ANSWER_CHARS - (s.chars - |s.messages[i].text|))))
  }

  function FramedIds(messages: seq<Message>): set<Id> {
    set m <- messages | m.id.Some? :: m.id.value
  }

  function CloseStretch(t: Tracker): Tracker {
    if TextOf(t.current.messages) != "" then
      t.(current := EmptyStretch, previous := t.current, retired := t.retired + FramedIds(t.previous.messages))
    else
      t.(current := EmptyStretch, retired := t.retired + FramedIds(t.current.messages))
  }

  predicate FromCurrent(t: Tracker) {
    TextOf(t.current.messages) != ""
  }

  function AnswerOf(t: Tracker): string {
    TextOf(At(t, FromCurrent(t)).messages)
  }

  /** The tracker without its latest message that reads as `reply`, and whether
      the reply may go to its follow-up. */
  function TakeOut(t: Tracker, reply: string, force: bool): (Tracker, bool) {
    var words := Trim(reply);
    if words == "" then (t, false)
    else
      var found := LastWith(t, words);
      if found.None? then (t, true)
      else
        var Spot(inCurrent, i) := found.value;
        var s := At(t, inCurrent);
        var rest := Without(s.messages, i);
        if !force && inCurrent == FromCurrent(t) && TextOf(rest) == "" then (t, false)
        else (Put(t, inCurrent, Removed(s, i)), true)
  }

  /** Try each held entry in turn: the tracker after, those handed over, those kept. */
  function Sift(t: Tracker, entries: seq<HandedReply>, force: bool): (Tracker, seq<HandedReply>, seq<HandedReply>)
    decreases |entries|
  {
    if entries == [] then (t, [], [])
    else
      var (t1, taken) := TakeOut(t, entries[0].reply, force);
      var (t2, handed, kept) := Sift(t1, entries[1..], force);
      if taken then (t2, [entries[0]] + handed, kept) else (t2, handed, [entries[0]] + kept)
  }

  function Release(t: Tracker, force: bool): (Tracker, seq<HandedReply>) {
    var (t1, handed, kept) := Sift(t, t.held, force);
    (t1.(held := kept), handed)
  }

  function Observe(t: Tracker, event: HarnessEvent): (Tracker, seq<HandedReply>) {
    match event
    case TextDelta(id, text) => Release(Append(t, id, text), false)
    case TextReplace(id, text) => Release(Replace(t, id, text), false)
    case ToolStarted =>
      var (t1, handed) := Release(t, true);
      (CloseStretch(t1), handed)
    case ToolFinished => (CloseStretch(t), [])
    case OtherEvent => (t, [])
  }

  function Claim(t: Tracker, followUpId: string, reply: string): (Tracker, bool) {
    var (t1, taken) := TakeOut(t, reply, false);
    if taken then (t1, true)
    else if Trim(reply) != "" then (t1.(held := t1.held + [HandedReply(followUpId, reply)]), false)
    else (t1, false)
  }

  // ---------------------------------------------------------------- runs

  datatype Op = Saw(event: HarnessEvent) | Claimed(followUpId: string, reply: string)

  function Step(t: Tracker, op: Op): (Tracker, seq<HandedReply>) {
    match op
    case Saw(event) => Observe(t, event)
    case Claimed(followUpId, reply) =>
      var (t1, taken) := Claim(t, followUpId, reply);
      (t1, if taken then [HandedReply(followUpId, reply)] else [])
  }

  /** The tracker after a run, and every reply handed over during it. */
  function Run(ops: seq<Op>): (Tracker, seq<HandedReply>) {
    if ops == [] then (Fresh, [])
    else
      var (t, handed) := Run(ops[..|ops| - 1]);
      var (t1, more) := Step(t, ops[|ops| - 1]);
      (t1, handed + more)
  }

  /** Every claim of a run whose reply holds words. */
  function Claims(ops: seq<Op>): seq<HandedReply> {
    if ops == [] then [] else Claims(ops[..|ops| - 1]) + ClaimIn(ops[|ops| - 1])
  }

  function ClaimIn(op: Op): seq<HandedReply> {
    if op.Claimed? && Trim(op.reply) != "" then [HandedReply(op.followUpId, op.reply)] else []
  }

  // ---------------------------------------------------------------- invariants

  ghost predicate DistinctIds(messages: seq<Message>) {
    forall i, j :: 0 <= i < j < |messages| ==> messages[i].id != messages[j].id
  }

  function Length(messages: seq<Message>): nat {
    if messages == [] then 0 else |messages[0].text| + Length(messages[1..])
  }

  /** Ids name one live message at most, and no live message is a retired one. */
  ghost predicate Identified(t: Tracker) {
    && DistinctIds(t.current.messages)
    && DistinctIds(t.previous.messages)
    && FramedIds(t.current.messages) !! FramedIds(t.previous.messages)
    && t.retired !! (FramedIds(t.current.messages) + FramedIds(t.previous.messages))
  }

  ghost predicate Counted(s: Stretch, longest: nat) {
    && s.chars == Length(s.messages)
    && (s.chars == 0 || s.chars <= MAX_ANSWER_CHARS - 1 + longest)
  }

  ghost predicate Bounded(t: Tracker, longest: nat) {
    Counted(t.current, longest) && Counted(t.previous, longest)
  }

  predicate NoLongerThan(op: Op, longest: nat) {
    match op
    case Saw(TextDelta(_, text)) => |text| <= longest
    case Saw(TextReplace(_, text)) => |text| <= longest
    case _ => true
  }

  lemma {:induction false} LengthConcat(a: seq<Message>, b: seq<Message>)
    ensures Length(a + b) == Length(a) + Length(b)
  {
    if a == [] {
      assert a + b == b;
    } else {
      LengthConcat(a[1..], b);
      assert (a + b)[1..] == a[1..] + b;
    }
  }

  lemma LengthSplit(messages: seq<Message>, i: nat)
    requires i < |messages|
    ensures Length(messages) == Length(messages[..i]) + |messages[i].text| + Length(messages[i + 1..])
  {
    LengthConcat(messages[..i], messages[i..]);
    assert messages == messages[..i] + messages[i..];
    assert messages[i..][1..] == messages[i + 1..];
  }

  lemma RewriteCounted(s: Stretch, i: nat, text: string, longest: nat)
    requires i < |s.messages| && s.chars == Length(s.messages)
    requires s.chars + |text| - |s.messages[i].text| <= MAX_ANSWER_CHARS - 1 + longest
    ensures Counted(Rewrite(s, i, text), longest)
    ensures Rewrite(s, i, text).chars >= 0
  {
    var r := Rewrite(s, i, text);
    LengthSplit(s.messages, i);
    LengthSplit(r.messages, i);
    assert r.messages[..i] == s.messages[..i] && r.messages[i + 1..] == s.messages[i + 1..];
  }

  lemma RewriteIdentified(t: Tracker, inCurrent: bool, i: nat, text: string)
    requires Identified(t) && i < |At(t, inCurrent).messages|
    ensures Identified(Put(t, inCurrent, Rewrite(At(t, inCurrent), i, text)))
  {
    var ms := At(t, inCurrent).messages;
    var ns := ms[i := ms[i].(text := text)];
    assert forall j :: 0 <= j < |ms| ==> ns[j].id == ms[j].id;
    assert FramedIds(ns) == FramedIds(ms) by {
      forall id ensures id in FramedIds(ns) <==> id in FramedIds(ms) {
        if id in FramedIds(ns) {
          var j :| 0 <= j < |ns| && ns[j].id == Some(id);
          assert ms[j] in ms;
        }
        if id in FramedIds(ms) {
          var j :| 0 <= j < |ms| && ms[j].id == Some(id);
          assert ns[j] in ns;
        }
      }
    }
  }

  lemma AppendKeeps(t: Tracker, id: Option<Id>, text: string, longest: nat)
    requires Identified(t) && Bounded(t, longest) && |text| <= longest
    ensures Identified(Append(t, id, text)) && Bounded(Append(t, id, text), longest)
  {
    var found := Find(t, id);
    if text == "" || (found.None? && id.Some? && id.value in t.retired) {
    } else {
      var inCurrent := found.None? || found.value.inCurrent;
      var s := At(t, inCurrent);
      if s.chars < MAX_ANSWER_CHARS {
        if found.Some? {
          var i := found.value.index;
          RewriteCounted(s, i, s.messages[i].text + text, longest);
          RewriteIdentified(t, inCurrent, i, s.messages[i].text + text);
        } else {
          LengthConcat(s.messages, [Message(id, text)]);
          var ms := s.messages + [Message(id, text)];
          assert FramedIds(ms) == FramedIds(s.messages) + if id.Some? then {id.value} else {} by {
            assert forall m :: m in ms <==> m in s.messages || m == Message(id, text);
          }
        }
      }
    }
  }

  lemma ReplaceKeeps(t: Tracker, id: Id, text: string, longest: nat)
    requires Identified(t) && Bounded(t, longest) && |text| <= longest
    ensures Identified(Replace(t, id, text)) && Bounded(Replace(t, id, text), longest)
  {
    var found := Find(t, Some(id));
    if found.None? {
      AppendKeeps(t, Some(id), text, longest);
    } else {
      var Spot(inCurrent, i) := found.value;
      var s := At(t, inCurrent);
      LengthSplit(s.messages, i);
      var kept := Clip(text, MAX_ANSWER_CHARS - (s.chars - |s.messages[i].text|));
      if kept == "" && s.chars == 0 {
        RewriteCounted(s, i, kept, longest + 1);
      } else {
        RewriteCounted(s, i, kept, longest);
      }
      RewriteIdentified(t, inCurrent, i, kept);
    }
  }

  lemma CloseStretchKeeps(t: Tracker, longest: nat)
    requires Identified(t) && Bounded(t, longest)
    ensures Identified(CloseStretch(t)) && Bounded(CloseStretch(t), longest)
  {
    assert FramedIds([]) == {};
  }

  lemma RemovedKeeps(s: Stretch, i: nat, longest: nat)
    requires i < |s.messages| && DistinctIds(s.messages) && Counted(s, longest)
    ensures DistinctIds(Removed(s, i).messages) && Counted(Removed(s, i), longest)
    ensures FramedIds(Removed(s, i).messages) <= FramedIds(s.messages)
  {
    LengthSplit(s.messages, i);
    LengthConcat(s.messages[..i], s.messages[i + 1..]);
    var rest := Without(s.messages, i);
    assert forall m :: m in rest ==> m in s.messages;
  }

  lemma TakeOutKeeps(t: Tracker, reply: string, force: bool, longest: nat)
    requires Identified(t) && Bounded(t, longest)
    ensures Identified(TakeOut(t, reply, force).0) && Bounded(TakeOut(t, reply, force).0, longest)
  {
    hide Trim, TextOf, LastIndexWith, Length, Without;
    var found := LastWith(t, Trim(reply));
    if Trim(reply) != "" && found.Some? {
      RemovedKeeps(At(t, found.value.inCurrent), found.value.index, longest);
    }
  }

  lemma {:induction false} SiftKeeps(t: Tracker, entries: seq<HandedReply>, force: bool, longest: nat)
    requires Identified(t) && Bounded(t, longest)
    ensures Identified(Sift(t, entries, force).0) && Bounded(Sift(t, entries, force).0, longest)
    decreases |entries|
  {
    if entries != [] {
      TakeOutKeeps(t, entries[0].reply, force, longest);
      SiftKeeps(TakeOut(t, entries[0].reply, force).0, entries[1..], force, longest);
    }
  }

  lemma ReleaseKeeps(t: Tracker, force: bool, longest: nat)
    requires Identified(t) && Bounded(t, longest)
    ensures Identified(Release(t, force).0) && Bounded(Release(t, force).0, longest)
  {
    SiftKeeps(t, t.held, force, longest);
  }

  lemma ObserveKeeps(t: Tracker, event: HarnessEvent, longest: nat)
    requires Identified(t) && Bounded(t, longest) && NoLongerThan(Saw(event), longest)
    ensures Identified(Observe(t, event).0) && Bounded(Observe(t, event).0, longest)
  {
    match event
    case TextDelta(id, text) =>
      AppendKeeps(t, id, text, longest);
      ReleaseKeeps(Append(t, id, text), false, longest);
    case TextReplace(id, text) =>
      ReplaceKeeps(t, id, text, longest);
      ReleaseKeeps(Replace(t, id, text), false, longest);
    case ToolStarted =>
      ReleaseKeeps(t, true, longest);
      CloseStretchKeeps(Release(t, true).0, longest);
    case ToolFinished => CloseStretchKeeps(t, longest);
    case OtherEvent =>
  }

  lemma ClaimKeeps(t: Tracker, followUpId: string, reply: string, longest: nat)
    requires Identified(t) && Bounded(t, longest)
    ensures Identified(Claim(t, followUpId, reply).0) && Bounded(Claim(t, followUpId, reply).0, longest)
  {
    TakeOutKeeps(t, reply, false, longest);
  }

  lemma StepKeeps(t: Tracker, op: Op, longest: nat)
    requires Identified(t) && Bounded(t, longest) && NoLongerThan(op, longest)
    ensures Identified(Step(t, op).0) && Bounded(Step(t, op).0, longest)
  {
    match op
    case Saw(event) => ObserveKeeps(t, event, longest);
    case Claimed(followUpId, reply) => ClaimKeeps(t, followUpId, reply, longest);
  }

  lemma FreshKeeps(longest: nat)
    ensures Identified(Fresh) && Bounded(Fresh, longest)
  {
    assert FramedIds([]) == {};
  }

  ghost predicate AllWithin(ops: seq<Op>, longest: nat) {
    forall i :: 0 <= i < |ops| ==> NoLongerThan(ops[i], longest)
  }

  /** Over every run of events, corrections and claims: ids stay unambiguous and
      retired ones stay out, and the character counts are exact and overshoot the
      cap by less than one delta. */
  lemma {:induction false} RunKeeps(ops: seq<Op>, longest: nat)
    requires AllWithin(ops, longest)
    ensures Identified(Run(ops).0) && Bounded(Run(ops).0, longest)
  {
    if ops == [] {
      FreshKeeps(longest);
    } else {
      RunKeeps(ops[..|ops| - 1], longest);
      StepKeeps(Run(ops[..|ops| - 1]).0, ops[|ops| - 1], longest);
    }
  }

  lemma TakeOutHeld(t: Tracker, reply: string, force: bool)
    ensures TakeOut(t, reply, force).0.held == t.held
  {
  }

  lemma {:induction false} SiftConserves(t: Tracker, entries: seq<HandedReply>, force: bool)
    ensures Sift(t, entries, force).0.held == t.held
    ensures multiset(entries) == multiset(Sift(t, entries, force).1) + multiset(Sift(t, entries, force).2)
    decreases |entries|
  {
    hide TakeOut;
    if entries != [] {
      TakeOutHeld(t, entries[0].reply, force);
      SiftConserves(TakeOut(t, entries[0].reply, force).0, entries[1..], force);
      assert entries == [entries[0]] + entries[1..];
    }
  }

  lemma ObserveConserves(t: Tracker, event: HarnessEvent)
    ensures multiset(t.held) == multiset(Observe(t, event).1) + multiset(Observe(t, event).0.held)
  {
    hide Trim, TextOf, Sift, Find, Rewrite, TakeOut, FramedIds;
    match event
    case TextDelta(id, text) => SiftConserves(Append(t, id, text), t.held, false);
    case TextReplace(id, text) => SiftConserves(Replace(t, id, text), t.held, false);
    case ToolStarted => SiftConserves(t, t.held, true);
    case ToolFinished =>
    case OtherEvent =>
  }

  lemma StepConserves(t: Tracker, op: Op)
    ensures multiset(t.held) + multiset(ClaimIn(op)) == multiset(Step(t, op).1) + multiset(Step(t, op).0.held)
  {
    hide Trim, TextOf, Sift, Observe, FramedIds;
    match op
    case Saw(event) => ObserveConserves(t, event);
    case Claimed(_, reply) =>
      TakeOutHeld(t, reply, false);
  }

  lemma Ledger<T>(claims: seq<T>, claim: seq<T>, handed: seq<T>, held: seq<T>, more: seq<T>, kept: seq<T>)
    requires multiset(claims) == multiset(handed) + multiset(held)
    requires multiset(held) + multiset(claim) == multiset(more) + multiset(kept)
    ensures multiset(claims + claim) == multiset(handed + more) + multiset(kept)
  {
    calc {
      multiset(claims + claim);
      multiset(claims) + multiset(claim);
      multiset(handed) + (multiset(held) + multiset(claim));
      multiset(handed) + (multiset(more) + multiset(kept));
      multiset(handed + more) + multiset(kept);
    }
  }

  /** Over every run, each claim with words was handed over once or is still held. */
  lemma {:induction false} ClaimsConserved(ops: seq<Op>)
    ensures multiset(Claims(ops)) == multiset(Run(ops).1) + multiset(Run(ops).0.held)
  {
    hide Step, ClaimIn;
    if ops == [] {
      assert Run(ops) == (Fresh, []);
    } else {
      var init, op := ops[..|ops| - 1], ops[|ops| - 1];
      var t := Run(init).0;
      ClaimsConserved(init);
      StepConserves(t, op);
      RunLast(ops);
      assert Claims(ops) == Claims(init) + ClaimIn(op);
      assert Run(ops).1 == Run(init).1 + Step(t, op).1;
      assert Run(ops).0 == Step(t, op).0;
      Ledger(Claims(init), ClaimIn(op), Run(init).1, t.held, Step(t, op).1, Step(t, op).0.held);
    }
  }

  lemma RunLast(ops: seq<Op>)
    requires ops != []
    ensures var (t, handed) := Run(ops[..|ops| - 1]);
            Run(ops) == (Step(t, ops[|ops| - 1]).0, handed + Step(t, ops[|ops| - 1]).1)
  {
  }
}
