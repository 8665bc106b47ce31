/** What becomes of a turn's events before they are posted
    (apps/runner/src/turn-events.ts:32-196): adjacent text merged, strings
    bounded, batches split by count and by size. */
module TurnEvents {
  import opened Wrappers
  import opened Bytes

  const MAX_EVENTS_PER_POST: nat := 100
  const MAX_EVENT_TEXT_CHARS: nat := 16_000
  const MAX_BATCH_CHARS: nat := 256_000

  datatype AgentEvent =
    | TurnStarted
    | TextDelta(text: string)
    | ThinkingDelta(text: string)
    | TextEvent(text: string)
    | ToolStarted(callId: string, name: string)
    | ToolFinished(callId: string, name: string, input: Option<string>, output: string, isError: Option<bool>, exitCode: Option<int>)
    | ApprovalPending(description: string)
    | Notice(warn: bool, text: string)
    | ErrorEvent(message: string, code: Option<string>)
    | MessageJoined(followUpId: string)
    | MessageSentNow(moved: bool, toolName: Option<string>)
    | TurnDone(usage: Option<Usage>)

  datatype Usage = Usage(
    inputTokens: nat, outputTokens: nat, cacheReadInputTokens: Option<nat>, cacheCreationInputTokens: Option<nat>,
    promptTokens: Option<nat>)

  predicate IsTextual(e: AgentEvent) {
    e.TextDelta? || e.ThinkingDelta?
  }

  predicate IsTerminal(e: AgentEvent) {
    e.TurnDone? || e.ErrorEvent?
  }

  // ---------------------------------------------------------------- coalesce

  predicate Merges(previous: AgentEvent, e: AgentEvent) {
    (previous.TextDelta? && e.TextDelta?) || (previous.ThinkingDelta? && e.ThinkingDelta?)
  }

  function Merged(previous: AgentEvent, e: AgentEvent): AgentEvent
    requires Merges(previous, e)
  {
    if e.TextDelta? then TextDelta(previous.text + e.text) else ThinkingDelta(previous.text + e.text)
  }

  function Joined(out: seq<AgentEvent>, e: AgentEvent): seq<AgentEvent> {
    if out != [] && Merges(out[|out| - 1], e)
    then out[..|out| - 1] + [Merged(out[|out| - 1], e)]
    else out + [e]
  }

  function Coalesced(events: seq<AgentEvent>): seq<AgentEvent> {
    if events == [] then [] else Joined(Coalesced(events[..|events| - 1]), events[|events| - 1])
  }

  method Coalesce(events: seq<AgentEvent>) returns (out: seq<AgentEvent>)
    ensures out == Coalesced(events)
  {
    hide Coalesced, Joined;
    CoalescedNone();
    out := [];
    for i := 0 to |events|
      invariant out == Coalesced(events[..i])
    {
      var event := events[i];
      CoalescedNext(events, i);
      JoinedIs(out, event);
      if out != [] && IsTextual(event) && IsTextual(out[|out| - 1]) && event.TextDelta? == out[|out| - 1].TextDelta? {
        var previous := out[|out| - 1];
        out := out[|out| - 1 := Merged(previous, event)];
      } else {
        out := out + [event];
      }
    }
    assert events[..|events|] == events;
  }

  lemma CoalescedNone()
    ensures Coalesced([]) == []
  {
  }

  lemma JoinedIs(out: seq<AgentEvent>, e: AgentEvent)
    ensures Joined(out, e)
            == if out != [] && Merges(out[|out| - 1], e) then out[|out| - 1 := Merged(out[|out| - 1], e)] else out + [e]
  {
    hide Merged, Merges;
    if out != [] && Merges(out[|out| - 1], e) {
      var m := Merged(out[|out| - 1], e);
      assert out[|out| - 1 := m] == out[..|out| - 1] + [m];
    }
  }

  lemma CoalescedNext(events: seq<AgentEvent>, i: nat)
    requires i < |events|
    ensures Coalesced(events[..i + 1]) == Joined(Coalesced(events[..i]), events[i])
  {
    assert events[..i + 1][..i] == events[..i];
  }

  /** What a reader of the stream sees: text a character at a time, the rest whole. */
  datatype Unit = Letter(thinking: bool, c: char) | Whole(event: AgentEvent)

  function Letters(thinking: bool, text: string): (r: seq<Unit>)
    ensures |r| == |text|
    ensures forall i :: 0 <= i < |text| ==> r[i] == Letter(thinking, text[i])
  {
    seq(|text|, i requires 0 <= i < |text| => Letter(thinking, text[i]))
  }

  function Units(e: AgentEvent): seq<Unit> {
    if IsTextual(e) then Letters(e.ThinkingDelta?, e.text) else [Whole(e)]
  }

  function Expansion(events: seq<AgentEvent>): seq<Unit> {
    if events == [] then [] else Expansion(events[..|events| - 1]) + Units(events[|events| - 1])
  }

  lemma {:induction false} ExpansionAppend(a: seq<AgentEvent>, b: seq<AgentEvent>)
    ensures Expansion(a + b) == Expansion(a) + Expansion(b)
  {
    if b == [] {
      assert a + b == a;
    } else {
      var init, last := b[..|b| - 1], b[|b| - 1];
      ExpansionAppend(a, init);
      assert (a + b)[..|a + b| - 1] == a + init && (a + b)[|a + b| - 1] == last;
      assert (Expansion(a) + Expansion(init)) + Units(last) == Expansion(a) + (Expansion(init) + Units(last));
    }
  }

  lemma MergedUnits(previous: AgentEvent, e: AgentEvent)
    requires Merges(previous, e)
    ensures Units(Merged(previous, e)) == Units(previous) + Units(e)
  {
  }

  lemma JoinedExpands(out: seq<AgentEvent>, e: AgentEvent)
    ensures Expansion(Joined(out, e)) == Expansion(out) + Units(e)
  {
    hide Units;
    if out != [] && Merges(out[|out| - 1], e) {
      var init, last := out[..|out| - 1], out[|out| - 1];
      var both := Merged(last, e);
      MergedUnits(last, e);
      hide Merges;
      assert Joined(out, e) == init + [both];
      assert (init + [both])[..|init|] == init;
      calc {
        Expansion(Joined(out, e));
        Expansion(init) + Units(both);
        Expansion(init) + (Units(last) + Units(e));
        (Expansion(init) + Units(last)) + Units(e);
        Expansion(out) + Units(e);
      }
    } else {
      assert (out + [e])[..|out|] == out;
    }
  }

  /** Merging changes nothing a reader sees: same characters, same kinds, same
      order, and every other event whole and in place. */
  lemma {:induction false} CoalescedExpands(events: seq<AgentEvent>)
    ensures Expansion(Coalesced(events)) == Expansion(events)
  {
    if events != [] {
      CoalescedExpands(events[..|events| - 1]);
      JoinedExpands(Coalesced(events[..|events| - 1]), events[|events| - 1]);
    }
  }

  /** No two text deltas side by side, nor two thinking deltas. */
  ghost predicate NothingToMerge(events: seq<AgentEvent>) {
    forall i :: 0 < i < |events| ==>
      !(events[i - 1].TextDelta? && events[i].TextDelta?) && !(events[i - 1].ThinkingDelta? && events[i].ThinkingDelta?)
  }

  lemma JoinedLeaves(out: seq<AgentEvent>, e: AgentEvent)
    requires NothingToMerge(out)
    ensures NothingToMerge(Joined(out, e))
  {
    if out != [] && Merges(out[|out| - 1], e) {
      var both := Merged(out[|out| - 1], e);
      forall x ensures Merges(x, both) <==> Merges(x, out[|out| - 1]) {}
    }
  }

  lemma JoinedApart(out: seq<AgentEvent>, e: AgentEvent)
    requires NothingToMerge(out + [e])
    ensures NothingToMerge(out) && Joined(out, e) == out + [e]
  {
    var all := out + [e];
    assert forall i :: 0 <= i < |out| ==> all[i] == out[i];
    if out != [] { assert all[|out|] == e && all[|out| - 1] == out[|out| - 1]; }
    hide Merged;
  }

  /** Merging leaves nothing to merge, so merging again changes nothing. */
  lemma {:induction false} CoalescedOnce(events: seq<AgentEvent>)
    ensures NothingToMerge(Coalesced(events))
    ensures NothingToMerge(events) ==> Coalesced(events) == events
  {
    hide NothingToMerge, Joined;
    if events == [] {
      NoneToMerge();
    } else {
      var init, last := events[..|events| - 1], events[|events| - 1];
      CoalescedOnce(init);
      JoinedLeaves(Coalesced(init), last);
      assert events == init + [last];
      if NothingToMerge(events) { JoinedApart(init, last); }
    }
  }

  lemma NoneToMerge()
    ensures NothingToMerge([])
  {
  }

  // ---------------------------------------------------------------- clean

  const NUL: char := '\U{0000}'

  function WithoutNul(value: string): string {
    if value == "" then ""
    else WithoutNul(value[..|value| - 1]) + if value[|value| - 1] == NUL then "" else [value[|value| - 1]]
  }

  function Digit(d: nat): char
    requires d < 10
  {
    '0' + d as char
  }

  function Decimal(n: nat): (r: string)
    ensures r != ""
  {
    if n < 10 then [Digit(n)] else Decimal(n / 10) + [Digit(n % 10)]
  }

  const MarkerHead: string := "\n\U{2026} [truncated "
  const MarkerTail: string := " characters]"

  /** The visible mark left where `cut` characters were cut off. */
  function Marker(cut: nat): string {
    MarkerHead + Decimal(cut) + MarkerTail
  }

  function Clean(value: string): string {
    var w := WithoutNul(value);
    if |w| <= MAX_EVENT_TEXT_CHARS then w
    else w[..MAX_EVENT_TEXT_CHARS] + Marker(|w| - MAX_EVENT_TEXT_CHARS)
  }

  predicate NulFree(value: string) {
    NUL !in value
  }

  lemma {:induction false} WithoutNulFacts(value: string)
    ensures NulFree(WithoutNul(value)) && |WithoutNul(value)| <= |value|
    ensures NulFree(value) <==> WithoutNul(value) == value
  {
    if value != "" {
      var init := value[..|value| - 1];
      WithoutNulFacts(init);
      assert value == init + [value[|value| - 1]];
    }
  }

  lemma {:induction false} DecimalFacts(n: nat)
    ensures NulFree(Decimal(n))
    ensures n < 10 <==> |Decimal(n)| == 1
    ensures n < 100 ==> |Decimal(n)| <= 2
    ensures 26 + |Decimal(n)| == n ==> n == 28
    ensures n >= 100 ==> 27 + |Decimal(n)| < n
  {
    if n >= 10 {
      DecimalFacts(n / 10);
    }
  }

  lemma MarkerFacts(cut: nat)
    ensures |Marker(cut)| == 26 + |Decimal(cut)|
    ensures NulFree(Marker(cut))
    ensures |Marker(28)| == 28
  {
    DecimalFacts(cut);
    assert |MarkerHead| == 14 && |MarkerTail| == 12;
    assert NulFree(MarkerHead) && NulFree(MarkerTail);
    assert |Decimal(28)| == 2;
  }

  /** A cleaned string never holds a NUL, and is bounded by the ceiling plus the mark. */
  lemma CleanBounds(value: string)
    ensures NulFree(Clean(value))
    ensures |WithoutNul(value)| <= MAX_EVENT_TEXT_CHARS ==> |Clean(value)| <= MAX_EVENT_TEXT_CHARS
    ensures |WithoutNul(value)| > MAX_EVENT_TEXT_CHARS ==>
              |Clean(value)| == MAX_EVENT_TEXT_CHARS + 26 + |Decimal(|WithoutNul(value)| - MAX_EVENT_TEXT_CHARS)|
  {
    hide WithoutNul, Marker, Decimal;
    WithoutNulFacts(value);
    var w := WithoutNul(value);
    if |w| > MAX_EVENT_TEXT_CHARS {
      MarkerFacts(|w| - MAX_EVENT_TEXT_CHARS);
    }
  }

  /** Cleaning leaves a string alone exactly when it is storable and within the
      ceiling, or when it already ends in the mark its own length calls for. */
  lemma CleanFixed(value: string)
    ensures Clean(value) == value
            <==> && NulFree(value)
                 && (|| |value| <= MAX_EVENT_TEXT_CHARS
                     || (|value| == MAX_EVENT_TEXT_CHARS + 28 && value[MAX_EVENT_TEXT_CHARS..] == Marker(28)))
  {
    CleanBounds(value);
    WithoutNulFacts(value);
    if NulFree(value) && |value| > MAX_EVENT_TEXT_CHARS {
      var cut := |value| - MAX_EVENT_TEXT_CHARS;
      var head, tail := value[..MAX_EVENT_TEXT_CHARS], value[MAX_EVENT_TEXT_CHARS..];
      MarkerFacts(cut);
      DecimalFacts(cut);
      assert value == head + tail;
      if Clean(value) == value {
        assert |value| == MAX_EVENT_TEXT_CHARS + 26 + |Decimal(cut)|;
        assert Clean(value)[MAX_EVENT_TEXT_CHARS..] == Marker(cut);
      }
    }
  }

  /** Cleaning twice differs from cleaning once, unless the string fits without
      its NULs or is over by exactly the length of its mark. */
  lemma CleanTwice(value: string)
    ensures Clean(Clean(value)) == Clean(value)
            <==> |WithoutNul(value)| <= MAX_EVENT_TEXT_CHARS || |WithoutNul(value)| == MAX_EVENT_TEXT_CHARS + 28
  {
    hide WithoutNul, Decimal, Marker, Clean;
    var w := WithoutNul(value);
    var once := Clean(value);
    CleanBounds(value);
    CleanFixed(once);
    if |w| > MAX_EVENT_TEXT_CHARS {
      var cut := |w| - MAX_EVENT_TEXT_CHARS;
      CutEnds(value);
      MarkerFacts(cut);
      DecimalFacts(cut);
      if Marker(cut) == Marker(28) { MarkerInjective(cut, 28); }
    }
  }

  /** A string that was cut ends in the mark for what was cut off. */
  lemma CutEnds(value: string)
    requires |WithoutNul(value)| > MAX_EVENT_TEXT_CHARS
    ensures |Clean(value)| > MAX_EVENT_TEXT_CHARS
    ensures Clean(value)[MAX_EVENT_TEXT_CHARS..] == Marker(|WithoutNul(value)| - MAX_EVENT_TEXT_CHARS)
  {
    hide WithoutNul, Decimal, Marker;
    MarkerFacts(|WithoutNul(value)| - MAX_EVENT_TEXT_CHARS);
  }

  lemma MarkerInjective(a: nat, b: nat)
    requires Marker(a) == Marker(b)
    ensures a == b
  {
    var n := |MarkerHead|;
    MarkerFacts(a);
    MarkerFacts(b);
    assert Marker(a)[n..n + |Decimal(a)|] == Decimal(a);
    assert Marker(b)[n..n + |Decimal(b)|] == Decimal(b);
    DecimalInjective(a, b);
  }

  lemma {:induction false} DecimalInjective(a: nat, b: nat)
    requires Decimal(a) == Decimal(b)
    ensures a == b
  {
    var da, db := Decimal(a), Decimal(b);
    DecimalFacts(a);
    DecimalFacts(b);
    assert a < 10 <==> b < 10;
    if a < 10 {
      assert da[0] == db[0];
    } else {
      assert da[..|da| - 1] == Decimal(a / 10) && db[..|db| - 1] == Decimal(b / 10);
      assert da[|da| - 1] == Digit(a % 10) && db[|db| - 1] == Digit(b % 10);
      DecimalInjective(a / 10, b / 10);
    }
  }

  function CleanOption(value: Option<string>): Option<string> {
    if value.Some? then Some(Clean(value.value)) else None
  }

  /** The event with each of its strings cleaned. */
  function Clamp(e: AgentEvent): AgentEvent {
    match e
    case TurnStarted => e
    case TextDelta(text) => TextDelta(Clean(text))
    case ThinkingDelta(text) => ThinkingDelta(Clean(text))
    case TextEvent(text) => TextEvent(Clean(text))
    case ToolStarted(callId, name) => ToolStarted(Clean(callId), Clean(name))
    case ToolFinished(callId, name, input, output, isError, exitCode) =>
      ToolFinished(Clean(callId), Clean(name), CleanOption(input), Clean(output), isError, exitCode)
    case ApprovalPending(description) => ApprovalPending(Clean(description))
    case Notice(warn, text) => Notice(warn, Clean(text))
    case ErrorEvent(message, code) =>
      ErrorEvent(Clean(message), if code.Some? && code.value != "" then Some(Clean(code.value)) else code)
    case MessageJoined(followUpId) => MessageJoined(Clean(followUpId))
    case MessageSentNow(moved, toolName) => MessageSentNow(moved, CleanOption(toolName))
    case TurnDone(_) => e
  }

  // What cleaning and clamping mean.

  /** Stripping goes character by character: it drops each NUL and keeps every
      other character, in order. */
  lemma {:induction false} WithoutNulSplits(a: string, b: string)
    ensures WithoutNul(a + b) == WithoutNul(a) + WithoutNul(b)
  {
    if b == "" {
      assert a + b == a;
    } else {
      WithoutNulSplits(a, b[..|b| - 1]);
      assert (a + b)[..|a + b| - 1] == a + b[..|b| - 1];
    }
  }

  lemma WithoutNulOne(c: char)
    ensures WithoutNul([c]) == if c == '\U{0000}' then "" else [c]
  {
    assert [c][..0] == "";
  }

  /** The number a string of digits reads as. */
  function Reading(s: string): nat
    requires forall i :: 0 <= i < |s| ==> '0' <= s[i] <= '9'
  {
    if s == "" then 0 else Reading(s[..|s| - 1]) * 10 + (s[|s| - 1] as int - '0' as int)
  }

  lemma {:induction false} DecimalReads(n: nat)
    ensures forall i :: 0 <= i < |Decimal(n)| ==> '0' <= Decimal(n)[i] <= '9'
    ensures Reading(Decimal(n)) == n
    ensures |Decimal(n)| > 1 ==> Decimal(n)[0] != '0'
  {
    if n < 10 {
      assert Decimal(n)[..0] == "";
    } else {
      DecimalReads(n / 10);
      var d := Decimal(n);
      assert d[..|d| - 1] == Decimal(n / 10);
      if n < 100 { assert Decimal(n / 10) == [Digit(n / 10)]; }
    }
  }

  /** A string as a transcript keeps it: the original where that is storable and
      within 16,000 characters; otherwise without its NULs, and past 16,000 of what
      is left cut there, with a mark that tells how many were cut off. */
  ghost predicate CutTo(original: string, kept: string) {
    var w := WithoutNul(original);
    if |w| <= 16_000 then kept == w
    else kept == w[..16_000] + ("\n\U{2026} [truncated " + Decimal(|w| - 16_000) + " characters]")
  }

  ghost predicate OptionCutTo(original: Option<string>, kept: Option<string>) {
    original.Some? == kept.Some? && (original.Some? ==> CutTo(original.value, kept.value))
  }

  /** The same kind of event, its flags, codes and counts as they were, and each of
      its strings kept as above. */
  ghost predicate EventCutTo(e: AgentEvent, d: AgentEvent) {
    match e
    case TurnStarted => d.TurnStarted?
    case TextDelta(text) => d.TextDelta? && CutTo(text, d.text)
    case ThinkingDelta(text) => d.ThinkingDelta? && CutTo(text, d.text)
    case TextEvent(text) => d.TextEvent? && CutTo(text, d.text)
    case ToolStarted(callId, name) => d.ToolStarted? && CutTo(callId, d.callId) && CutTo(name, d.name)
    case ToolFinished(callId, name, input, output, isError, exitCode) =>
      && d.ToolFinished? && CutTo(callId, d.callId) && CutTo(name, d.name) && OptionCutTo(input, d.input) && CutTo(output, d.output)
      && d.isError == isError && d.exitCode == exitCode
    case ApprovalPending(description) => d.ApprovalPending? && CutTo(description, d.description)
    case Notice(warn, text) => d.Notice? && d.warn == warn && CutTo(text, d.text)
    case ErrorEvent(message, code) => d.ErrorEvent? && CutTo(message, d.message) && OptionCutTo(code, d.code)
    case MessageJoined(followUpId) => d.MessageJoined? && CutTo(followUpId, d.followUpId)
    case MessageSentNow(moved, toolName) => d.MessageSentNow? && d.moved == moved && OptionCutTo(toolName, d.toolName)
    case TurnDone(usage) => d.TurnDone? && d.usage == usage
  }

  lemma CleanCuts(value: string)
    ensures CutTo(value, Clean(value))
  {
    hide WithoutNul, Decimal;
    assert forall n: nat :: Marker(n) == "\n\U{2026} [truncated " + Decimal(n) + " characters]";
  }

  /** What the clamp makes of every kind of event. */
  lemma ClampCuts(e: AgentEvent)
    ensures EventCutTo(e, Clamp(e))
  {
    hide Clean, CutTo;
    forall value: string ensures CutTo(value, Clean(value)) { CleanCuts(value); }
    if e.ErrorEvent? && e.code == Some("") { EmptyCut(); }
  }

  lemma EmptyCut()
    ensures CutTo("", "")
  {
  }

  /** A string the clamp leaves alone: storable and within the ceiling, or exactly
      28 past it and ending in the mark for that. */
  predicate PlainString(s: string) {
    NulFree(s) && (|s| <= 16_000 || (|s| == 16_028 && s[16_000..] == "\n\U{2026} [truncated 28 characters]"))
  }

  predicate PlainOption(s: Option<string>) {
    s.Some? ==> PlainString(s.value)
  }

  predicate Plain(e: AgentEvent) {
    match e
    case TurnStarted => true
    case TextDelta(text) => PlainString(text)
    case ThinkingDelta(text) => PlainString(text)
    case TextEvent(text) => PlainString(text)
    case ToolStarted(callId, name) => PlainString(callId) && PlainString(name)
    case ToolFinished(callId, name, input, output, _, _) =>
      PlainString(callId) && PlainString(name) && PlainOption(input) && PlainString(output)
    case ApprovalPending(description) => PlainString(description)
    case Notice(_, text) => PlainString(text)
    case ErrorEvent(message, code) => PlainString(message) && PlainOption(code)
    case MessageJoined(followUpId) => PlainString(followUpId)
    case MessageSentNow(_, toolName) => PlainOption(toolName)
    case TurnDone(_) => true
  }

  lemma PlainStays(value: string)
    ensures Clean(value) == value <==> PlainString(value)
  {
    hide Clean, NulFree;
    CleanFixed(value);
    assert Marker(28) == "\n\U{2026} [truncated 28 characters]" by { assert Decimal(28) == "28"; }
  }

  /** The clamp leaves an event as it is if and only if all its strings are plain. */
  lemma ClampKeepsPlain(e: AgentEvent)
    ensures Clamp(e) == e <==> Plain(e)
  {
    hide Clean, PlainString;
    forall value: string ensures Clean(value) == value <==> PlainString(value) { PlainStays(value); }
    EmptyPlain();
  }

  lemma EmptyPlain()
    ensures PlainString("")
  {
  }

  // ---------------------------------------------------------------- splitting

  function Chunks<T>(items: seq<T>, size: nat): seq<seq<T>>
    requires size > 0
    decreases |items|
  {
    if items == [] then []
    else if |items| <= size then [items]
    else [items[..size]] + Chunks(items[size..], size)
  }

  lemma ChunksNext<T>(items: seq<T>, i: nat, size: nat)
    requires size > 0 && i < |items|
    ensures Chunks(items[i..], size) == [items[i..Min(i + size, |items|)]] + Chunks(items[Min(i + size, |items|)..], size)
  {
    var rest := items[i..];
    if |rest| > size {
      assert items[i..i + size] == rest[..size] && rest[size..] == items[i + size..];
    } else {
      assert items[i..|items|] == rest && items[|items|..] == [];
    }
  }

  /** Computes `Chunks` by stepping an index. */
  method Chunk<T>(items: seq<T>, size: nat) returns (chunks: seq<seq<T>>)
    requires size > 0
    ensures chunks == Chunks(items, size)
  {
    hide Chunks;
    chunks := [];
    var i := 0;
    assert items[0..] == items;
    while i < |items|
      invariant Chunks(items, size) == chunks + Chunks(items[Min(i, |items|)..], size)
      decreases |items| - i
    {
      ChunksNext(items, i, size);
      chunks := chunks + [items[i..Min(i + size, |items|)]];
      i := i + size;
    }
    ChunksFacts(items[|items|..], size);
  }

  lemma {:induction false} ConcatCons<T>(first: seq<T>, rest: seq<seq<T>>)
    ensures Concat([first] + rest) == first + Concat(rest)
  {
    ConcatAppend([first], rest);
    ConcatOne(first);
  }

  /** The parts are the items in order, none empty, none over the size, and only
      the last one short of it. */
  lemma {:induction false} ChunksFacts<T>(items: seq<T>, size: nat)
    requires size > 0
    ensures items == [] ==> Chunks(items, size) == []
    ensures Concat(Chunks(items, size)) == items
    ensures forall i :: 0 <= i < |Chunks(items, size)| ==> 1 <= |Chunks(items, size)[i]| <= size
    ensures forall i :: 0 <= i < |Chunks(items, size)| - 1 ==> |Chunks(items, size)[i]| == size
    decreases |items|
  {
    if items == [] {
    } else if |items| <= size {
      ConcatOne(items);
    } else {
      ChunksFacts(items[size..], size);
      ConcatCons(items[..size], Chunks(items[size..], size));
    }
  }

  // The serialized cost of an event, comma included, is a parameter of what follows.

  function Cost<T>(cost: T -> nat, batch: seq<T>): nat {
    if batch == [] then 0 else Cost(cost, batch[..|batch| - 1]) + cost(batch[|batch| - 1])
  }

  /** A batch the split may make: within its cap, or a single event. */
  predicate Admissible<T>(cost: T -> nat, maxChars: nat, batch: seq<T>) {
    |batch| == 1 || (batch != [] && Cost(cost, batch) <= maxChars)
  }

  /** A split of the events, in order, into admissible batches. */
  ghost predicate IsSplit<T>(cost: T -> nat, maxChars: nat, events: seq<T>, batches: seq<seq<T>>) {
    && Concat(batches) == events
    && forall i :: 0 <= i < |batches| ==> Admissible(cost, maxChars, batches[i])
  }

  /** How many events the next batch takes, having taken `k`. */
  function Take<T>(cost: T -> nat, maxChars: nat, events: seq<T>, k: nat): (n: nat)
    requires 1 <= k <= |events|
    ensures k <= n <= |events|
    decreases |events| - k
  {
    if k < |events| && Cost(cost, events[..k + 1]) <= maxChars then Take(cost, maxChars, events, k + 1) else k
  }

  function BySize<T>(cost: T -> nat, maxChars: nat, events: seq<T>): seq<seq<T>>
    decreases |events|
  {
    if events == [] then []
    else
      var n := Take(cost, maxChars, events, 1);
      [events[..n]] + BySize(cost, maxChars, events[n..])
  }

  lemma {:induction false} CostAppend<T>(cost: T -> nat, a: seq<T>, b: seq<T>)
    ensures Cost(cost, a + b) == Cost(cost, a) + Cost(cost, b)
  {
    if b == [] {
      assert a + b == a;
    } else {
      assert (a + b)[..|a + b| - 1] == a + b[..|b| - 1];
      CostAppend(cost, a, b[..|b| - 1]);
    }
  }

  lemma CostOne<T>(cost: T -> nat, event: T)
    ensures Cost(cost, [event]) == cost(event)
  {
    assert [event][..0] == [];
  }

  /** The next batch takes at least any admissible front of the events. */
  lemma {:induction false} TakeMost<T>(cost: T -> nat, maxChars: nat, events: seq<T>, k: nat, n: nat)
    requires 1 <= k <= n <= |events| && Admissible(cost, maxChars, events[..n])
    ensures Take(cost, maxChars, events, k) >= n
    decreases n - k
  {
    if k < n {
      assert events[..n] == events[..k + 1] + events[k + 1..n];
      CostAppend(cost, events[..k + 1], events[k + 1..n]);
      TakeMost(cost, maxChars, events, k + 1, n);
    }
  }

  lemma {:induction false} TakeAdmissible<T>(cost: T -> nat, maxChars: nat, events: seq<T>, k: nat)
    requires 1 <= k <= |events| && Admissible(cost, maxChars, events[..k])
    ensures Admissible(cost, maxChars, events[..Take(cost, maxChars, events, k)])
    decreases |events| - k
  {
    if k < |events| && Cost(cost, events[..k + 1]) <= maxChars {
      TakeAdmissible(cost, maxChars, events, k + 1);
    }
  }

  /** The batches are the events in order, each within the cap or a single event. */
  lemma {:induction false} BySizeSplits<T>(cost: T -> nat, maxChars: nat, events: seq<T>)
    ensures IsSplit(cost, maxChars, events, BySize(cost, maxChars, events))
    decreases |events|
  {
    if events != [] {
      var n := Take(cost, maxChars, events, 1);
      TakeAdmissible(cost, maxChars, events, 1);
      BySizeSplits(cost, maxChars, events[n..]);
      ConcatCons(events[..n], BySize(cost, maxChars, events[n..]));
    }
  }

  lemma {:induction false} CostAtLeast<T>(cost: T -> nat, batch: seq<T>, i: nat)
    requires i < |batch|
    ensures Cost(cost, batch) >= cost(batch[i])
  {
    if i < |batch| - 1 { CostAtLeast(cost, batch[..|batch| - 1], i); }
  }

  /** No batch exceeds the cap. */
  ghost predicate BatchesWithin<T>(cost: T -> nat, maxChars: nat, batches: seq<seq<T>>) {
    forall i :: 0 <= i < |batches| ==> Cost(cost, batches[i]) <= maxChars
  }

  /** No event exceeds the cap. */
  ghost predicate EventsWithin<T>(cost: T -> nat, maxChars: nat, events: seq<T>) {
    forall i :: 0 <= i < |events| ==> cost(events[i]) <= maxChars
  }

  /** An admissible batch is within the cap if and only if each of its events is. */
  lemma BatchWithinCap<T>(cost: T -> nat, maxChars: nat, batch: seq<T>)
    requires Admissible(cost, maxChars, batch)
    ensures Cost(cost, batch) <= maxChars <==> EventsWithin(cost, maxChars, batch)
  {
    hide Cost;
    if |batch| == 1 {
      assert batch == [batch[0]];
      CostOne(cost, batch[0]);
    }
    forall j | 0 <= j < |batch| ensures Cost(cost, batch) >= cost(batch[j]) { CostAtLeast(cost, batch, j); }
  }

  lemma WithinBoth<T>(cost: T -> nat, maxChars: nat, a: seq<T>, b: seq<T>)
    ensures EventsWithin(cost, maxChars, a + b) <==> EventsWithin(cost, maxChars, a) && EventsWithin(cost, maxChars, b)
  {
    assert forall i :: 0 <= i < |a| ==> (a + b)[i] == a[i];
    assert forall i :: 0 <= i < |b| ==> (a + b)[|a| + i] == b[i];
  }

  /** Every batch of a split is within the cap if and only if every event is: an
      event over it alone makes a batch over it. */
  lemma {:induction false} SplitWithinCap<T>(cost: T -> nat, maxChars: nat, batches: seq<seq<T>>)
    requires forall i :: 0 <= i < |batches| ==> Admissible(cost, maxChars, batches[i])
    ensures BatchesWithin(cost, maxChars, batches) <==> EventsWithin(cost, maxChars, Concat(batches))
  {
    hide Cost, Admissible, EventsWithin;
    if batches == [] {
      NoneWithin(cost, maxChars);
    } else {
      var init, last := batches[..|batches| - 1], batches[|batches| - 1];
      SplitWithinCap(cost, maxChars, init);
      BatchWithinCap(cost, maxChars, last);
      WithinBoth(cost, maxChars, Concat(init), last);
      assert forall i :: 0 <= i < |init| ==> init[i] == batches[i];
    }
  }

  lemma NoneWithin<T>(cost: T -> nat, maxChars: nat)
    ensures EventsWithin(cost, maxChars, [])
  {
  }

  /** The split by size keeps to the cap if and only if no single event exceeds it. */
  lemma BySizeWithinCap<T>(cost: T -> nat, maxChars: nat, events: seq<T>)
    ensures BatchesWithin(cost, maxChars, BySize(cost, maxChars, events)) <==> EventsWithin(cost, maxChars, events)
  {
    hide BySize, Cost, Admissible, BatchesWithin, EventsWithin;
    BySizeSplits(cost, maxChars, events);
    SplitWithinCap(cost, maxChars, BySize(cost, maxChars, events));
  }

  /** Starting later never takes more batches. */
  lemma {:induction false} FewerFromLater<T>(cost: T -> nat, maxChars: nat, skipped: seq<T>, events: seq<T>)
    ensures |BySize(cost, maxChars, events)| <= |BySize(cost, maxChars, skipped + events)|
    decreases |events|, |skipped|
  {
    var all := skipped + events;
    if skipped == [] {
      assert all == events;
    } else if events != [] {
      var n := Take(cost, maxChars, all, 1);
      if n <= |skipped| {
        assert all[n..] == skipped[n..] + events;
        FewerFromLater(cost, maxChars, skipped[n..], events);
      } else {
        var p := n - |skipped|;
        TakeAdmissible(cost, maxChars, all, 1);
        assert all[..n] == skipped + events[..p];
        CostAppend(cost, skipped, events[..p]);
        TakeMost(cost, maxChars, events, 1, p);
        var m := Take(cost, maxChars, events, 1);
        assert all[n..] == events[p..] && events[p..] == events[p..m] + events[m..];
        FewerFromLater(cost, maxChars, events[p..m], events[m..]);
      }
    }
  }

  /** No split of the events into admissible batches uses fewer batches. */
  lemma {:induction false} BySizeFewest<T>(cost: T -> nat, maxChars: nat, events: seq<T>, batches: seq<seq<T>>)
    requires IsSplit(cost, maxChars, events, batches)
    ensures |BySize(cost, maxChars, events)| <= |batches|
    decreases |batches|
  {
    if batches != [] {
      var first, rest := batches[0], batches[1..];
      assert batches == [first] + rest;
      ConcatCons(first, rest);
      assert events[..|first|] == first;
      TakeMost(cost, maxChars, events, 1, |first|);
      var n := Take(cost, maxChars, events, 1);
      assert Concat(rest) == events[|first|..n] + events[n..];
      FewerFromLater(cost, maxChars, events[|first|..n], events[n..]);
      BySizeFewest(cost, maxChars, Concat(rest), rest);
    }
  }

  lemma BatchCloses<T>(cost: T -> nat, maxChars: nat, current: seq<T>, rest: seq<T>)
    requires Admissible(cost, maxChars, current)
    requires rest != [] ==> Cost(cost, current) + cost(rest[0]) > maxChars
    ensures BySize(cost, maxChars, current + rest) == [current] + BySize(cost, maxChars, rest)
  {
    var all, k := current + rest, |current|;
    var n := Take(cost, maxChars, all, 1);
    assert all[..k] == current && all[k..] == rest;
    TakeMost(cost, maxChars, all, 1, k);
    if n > k {
      CostOne(cost, rest[0]);
      CostAppend(cost, current, [rest[0]]);
      assert all[..n] == (current + [rest[0]]) + all[k + 1..n];
      CostAppend(cost, current + [rest[0]], all[k + 1..n]);
      TakeAdmissible(cost, maxChars, all, 1);
    }
  }

  /** Computes `BySize` by running totals. */
  method ChunkBySize<T>(cost: T -> nat, events: seq<T>, maxChars: nat) returns (batches: seq<seq<T>>)
    ensures batches == BySize(cost, maxChars, events)
  {
    hide BySize, Cost;
    batches := [];
    var current: seq<T> := [];
    var size := 0;
    assert current + events[0..] == events;
    CostNone(cost);
    for i := 0 to |events|
      invariant size == Cost(cost, current)
      invariant current == [] || Admissible(cost, maxChars, current)
      invariant i > 0 ==> current != []
      invariant BySize(cost, maxChars, events) == batches + BySize(cost, maxChars, current + events[i..])
    {
      var event := events[i];
      ghost var rest := events[i..];
      assert rest == [event] + events[i + 1..];
      if |current| > 0 && size + cost(event) > maxChars {
        BatchCloses(cost, maxChars, current, rest);
        batches := batches + [current];
        current := [];
        size := 0;
        assert current + rest == rest;
      }
      CostOne(cost, event);
      CostAppend(cost, current, [event]);
      assert (current + [event]) + events[i + 1..] == current + rest;
      current := current + [event];
      size := size + cost(event);
    }
    assert current + events[|events|..] == current;
    if |current| > 0 {
      BatchCloses(cost, maxChars, current, []);
      assert current + [] == current;
      batches := batches + [current];
    }
    BySizeNone(cost, maxChars);
  }

  lemma CostNone<T>(cost: T -> nat)
    ensures Cost(cost, []) == 0
  {
  }

  lemma BySizeNone<T>(cost: T -> nat, maxChars: nat)
    ensures BySize(cost, maxChars, []) == []
  {
  }
}
