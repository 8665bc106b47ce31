/** How large events are once serialized: what the wire takes, a flush always keeps
    to (apps/runner/src/turn-events.ts:20-23); the runner's own target for a batch,
    a single event may pass (apps/runner/src/turn-events.ts:171-175). */
module EventSizes {
  import opened Wrappers
  import opened TurnEvents
  import opened Collector

  // ---------------------------------------------------------------- JSON

  function HexDigit(d: nat): char
    requires d < 16
  {
    if d < 10 then '0' + d as char else 'a' + (d - 10) as char
  }

  /** The control characters with a short escape: backspace, tab, line feed, form
      feed and carriage return. */
  predicate HasShortEscape(c: char) {
    c == '\U{0008}' || c == '\t' || c == '\n' || c == '\U{000C}' || c == '\r'
  }

  /** One character as `JSON.stringify` writes it inside a string. */
  function EscapedChar(c: char): (r: string)
    ensures 1 <= |r| <= 6
  {
    if c == '"' || c == '\\' then ['\\', c]
    else if c == '\U{0008}' then "\\b"
    else if c == '\t' then "\\t"
    else if c == '\n' then "\\n"
    else if c == '\U{000C}' then "\\f"
    else if c == '\r' then "\\r"
    else if c < ' ' then "\\u00" + [HexDigit(c as int / 16), HexDigit(c as int % 16)]
    else [c]
  }

  function Escaped(s: string): string {
    if s == "" then "" else Escaped(s[..|s| - 1]) + EscapedChar(s[|s| - 1])
  }

  function Quoted(s: string): string {
    "\"" + Escaped(s) + "\""
  }

  function Number(n: int): string {
    if n < 0 then "-" + Decimal(-n) else Decimal(n)
  }

  function Bool(b: bool): string {
    if b then "true" else "false"
  }

  function Field(name: string, value: string): string {
    ",\"" + name + "\":" + value
  }

  function TextField(name: string, value: string): string {
    Field(name, Quoted(value))
  }

  function OptionalText(name: string, value: Option<string>): string {
    if value.Some? then TextField(name, value.value) else ""
  }

  function OptionalNumber(name: string, value: Option<int>): string {
    if value.Some? then Field(name, Number(value.value)) else ""
  }

  function Object(kind: string, fields: string): string {
    "{\"type\":\"" + kind + "\"" + fields + "}"
  }

  function UsageJson(u: Usage): string {
    "{\"inputTokens\":" + Number(u.inputTokens)
    + Field("outputTokens", Number(u.outputTokens))
    + OptionalNumber("cacheReadInputTokens", u.cacheReadInputTokens)
    + OptionalNumber("cacheCreationInputTokens", u.cacheCreationInputTokens)
    + OptionalNumber("promptTokens", u.promptTokens) + "}"
  }

  /** The event as `JSON.stringify` writes it. */
  function Json(e: AgentEvent): string {
    match e
    case TurnStarted => Object("turn.started", "")
    case TextDelta(text) => Object("text.delta", TextField("text", text))
    case ThinkingDelta(text) => Object("thinking.delta", TextField("text", text))
    case TextEvent(text) => Object("text", TextField("text", text))
    case ToolStarted(callId, name) => Object("tool.started", TextField("callId", callId) + TextField("name", name))
    case ToolFinished(callId, name, input, output, isError, exitCode) =>
      Object("tool.finished",
             TextField("callId", callId) + TextField("name", name) + OptionalText("input", input) + TextField("output", output)
             + (if isError.Some? then Field("isError", Bool(isError.value)) else "") + OptionalNumber("exitCode", exitCode))
    case ApprovalPending(description) => Object("approval.pending", TextField("description", description))
    case Notice(warn, text) =>
      Object("notice", TextField("level", if warn then "warn" else "info") + TextField("text", text))
    case ErrorEvent(message, code) => Object("error", TextField("message", message) + OptionalText("code", code))
    case MessageJoined(followUpId) => Object("message.joined", TextField("followUpId", followUpId))
    case MessageSentNow(moved, toolName) => Object("message.sent_now", Field("moved", Bool(moved)) + OptionalText("toolName", toolName))
    case TurnDone(usage) => Object("turn.done", if usage.Some? then Field("usage", UsageJson(usage.value)) else "")
  }

  function JsonCost(e: AgentEvent): nat {
    |Json(e)| + 1
  }

  // ---------------------------------------------------------------- how long strings and numbers get

  /** What a cleaned string can grow to in a language whose strings and safe
      integers end at 2^53: the ceiling, the mark, and 16 digits in it. */
  const CLEANED_CHARS: nat := MAX_EVENT_TEXT_CHARS + 42
  const SAFE: int := 0x20_0000_0000_0000

  lemma {:induction false} EscapedAtMost(s: string)
    ensures |Escaped(s)| <= 6 * |s|
  {
    if s != "" { EscapedAtMost(s[..|s| - 1]); }
  }

  /** Control characters without a short escape take six characters each. */
  predicate IsNoise(c: char) {
    c < ' ' && c != NUL && !HasShortEscape(c)
  }

  lemma {:induction false} EscapedNoise(s: string)
    requires forall i :: 0 <= i < |s| ==> IsNoise(s[i])
    ensures |Escaped(s)| == 6 * |s|
  {
    if s != "" { EscapedNoise(s[..|s| - 1]); }
  }

  function Pow10(k: nat): nat {
    if k == 0 then 1 else 10 * Pow10(k - 1)
  }

  lemma {:induction false} DecimalLength(n: nat, k: nat)
    requires k > 0 && n < Pow10(k)
    ensures |Decimal(n)| <= k
  {
    if n >= 10 { DecimalLength(n / 10, k - 1); }
  }

  lemma SafeDigits(n: nat)
    requires n < SAFE
    ensures |Decimal(n)| <= 16
  {
    assert Pow10(4) == 10000;
    assert Pow10(8) == 10000 * 10000 by { PowSplit(4, 4); }
    assert Pow10(16) == 100000000 * 100000000 by { PowSplit(8, 8); }
    DecimalLength(n, 16);
  }

  lemma {:induction false} PowSplit(a: nat, b: nat)
    ensures Pow10(a + b) == Pow10(a) * Pow10(b)
  {
    if a > 0 { PowSplit(a - 1, b); }
  }

  lemma CleanedAtMost(value: string)
    requires |value| < SAFE
    ensures |Clean(value)| <= CLEANED_CHARS
  {
    hide Clean, WithoutNul, Decimal;
    CleanBounds(value);
    WithoutNulFacts(value);
    var w := WithoutNul(value);
    if |w| > MAX_EVENT_TEXT_CHARS { SafeDigits(|w| - MAX_EVENT_TEXT_CHARS); }
  }

  // ---------------------------------------------------------------- which events fit

  predicate OptionalWithin(value: Option<string>, n: nat) {
    value.Some? ==> |value.value| <= n
  }

  predicate SafeCount(value: Option<nat>) {
    value.Some? ==> value.value < SAFE
  }

  predicate SafeUsage(u: Usage) {
    u.inputTokens < SAFE && u.outputTokens < SAFE
    && SafeCount(u.cacheReadInputTokens) && SafeCount(u.cacheCreationInputTokens) && SafeCount(u.promptTokens)
  }

  /** Each string of the event is at most `n` long, each number a safe integer. */
  predicate Within(e: AgentEvent, n: nat) {
    match e
    case TurnStarted => true
    case TextDelta(text) => |text| <= n
    case ThinkingDelta(text) => |text| <= n
    case TextEvent(text) => |text| <= n
    case ToolStarted(callId, name) => |callId| <= n && |name| <= n
    case ToolFinished(callId, name, input, output, _, exitCode) =>
      |callId| <= n && |name| <= n && OptionalWithin(input, n) && |output| <= n
      && (exitCode.Some? ==> -SAFE < exitCode.value < SAFE)
    case ApprovalPending(description) => |description| <= n
    case Notice(_, text) => |text| <= n
    case ErrorEvent(message, code) => |message| <= n && OptionalWithin(code, n)
    case MessageJoined(followUpId) => |followUpId| <= n
    case MessageSentNow(_, toolName) => OptionalWithin(toolName, n)
    case TurnDone(usage) => usage.Some? ==> SafeUsage(usage.value)
  }

  /** Any event of the source's language, clamped. */
  lemma ClampedWithin(e: AgentEvent)
    requires Within(e, SAFE - 1)
    ensures Within(Clamp(e), CLEANED_CHARS)
  {
    hide Clean;
    forall value: string | |value| < SAFE ensures |Clean(value)| <= CLEANED_CHARS { CleanedAtMost(value); }
  }

  lemma TextFieldAtMost(name: string, value: string, n: nat)
    requires |value| <= n
    ensures |TextField(name, value)| <= |name| + 6 + 6 * n
  {
    EscapedAtMost(value);
  }

  lemma OptionalTextAtMost(name: string, value: Option<string>, n: nat)
    requires OptionalWithin(value, n)
    ensures |OptionalText(name, value)| <= |name| + 6 + 6 * n
  {
    if value.Some? { TextFieldAtMost(name, value.value, n); }
  }

  lemma OptionalCountAtMost(name: string, value: Option<nat>)
    requires SafeCount(value)
    ensures |OptionalNumber(name, value)| <= |name| + 20
  {
    if value.Some? { SafeDigits(value.value); }
  }

  lemma ObjectLength(kind: string, fields: string)
    ensures |Object(kind, fields)| == |kind| + |fields| + 11
  {
  }

  lemma UsageAtMost(u: Usage)
    requires SafeUsage(u)
    ensures |UsageJson(u)| <= 300
  {
    hide Decimal, OptionalNumber;
    SafeDigits(u.inputTokens);
    SafeDigits(u.outputTokens);
    OptionalCountAtMost("cacheReadInputTokens", u.cacheReadInputTokens);
    OptionalCountAtMost("cacheCreationInputTokens", u.cacheCreationInputTokens);
    OptionalCountAtMost("promptTokens", u.promptTokens);
  }

  /** Every kind of event but a tool's end is within the target, whatever its text. */
  lemma OtherKindsFit(e: AgentEvent)
    requires Within(e, CLEANED_CHARS) && !e.ToolFinished?
    ensures JsonCost(e) <= MAX_BATCH_CHARS
  {
    hide TextField, OptionalText, Object, UsageJson;
    match e
    case TurnStarted => ObjectLength("turn.started", "");
    case TextDelta(text) =>
      TextFieldAtMost("text", text, CLEANED_CHARS);
      ObjectLength("text.delta", TextField("text", text));
    case ThinkingDelta(text) =>
      TextFieldAtMost("text", text, CLEANED_CHARS);
      ObjectLength("thinking.delta", TextField("text", text));
    case TextEvent(text) =>
      TextFieldAtMost("text", text, CLEANED_CHARS);
      ObjectLength("text", TextField("text", text));
    case ToolStarted(callId, name) =>
      TextFieldAtMost("callId", callId, CLEANED_CHARS);
      TextFieldAtMost("name", name, CLEANED_CHARS);
      ObjectLength("tool.started", TextField("callId", callId) + TextField("name", name));
    case ApprovalPending(description) =>
      TextFieldAtMost("description", description, CLEANED_CHARS);
      ObjectLength("approval.pending", TextField("description", description));
    case Notice(warn, text) =>
      var level := if warn then "warn" else "info";
      TextFieldAtMost("level", level, 4);
      TextFieldAtMost("text", text, CLEANED_CHARS);
      ObjectLength("notice", TextField("level", level) + TextField("text", text));
    case ErrorEvent(message, code) =>
      TextFieldAtMost("message", message, CLEANED_CHARS);
      OptionalTextAtMost("code", code, CLEANED_CHARS);
      ObjectLength("error", TextField("message", message) + OptionalText("code", code));
    case MessageJoined(followUpId) =>
      TextFieldAtMost("followUpId", followUpId, CLEANED_CHARS);
      ObjectLength("message.joined", TextField("followUpId", followUpId));
    case MessageSentNow(moved, toolName) =>
      OptionalTextAtMost("toolName", toolName, CLEANED_CHARS);
      ObjectLength("message.sent_now", Field("moved", Bool(moved)) + OptionalText("toolName", toolName));
    case TurnDone(usage) =>
      if usage.Some? { UsageAtMost(usage.value); }
      ObjectLength("turn.done", if usage.Some? then Field("usage", UsageJson(usage.value)) else "");
  }

  // ---------------------------------------------------------------- a tool's end may pass the target

  lemma TextFieldLength(name: string, value: string)
    ensures |TextField(name, value)| == |name| + 6 + |Escaped(value)|
  {
  }

  lemma NoiseStays(s: string)
    requires |s| <= MAX_EVENT_TEXT_CHARS && forall i :: 0 <= i < |s| ==> IsNoise(s[i])
    ensures Clean(s) == s
  {
    WithoutNulFacts(s);
    assert NulFree(s);
  }

  /** A tool's end whose strings are at the ceiling but escape to six characters
      each is left alone by the clamp, and on its own is a batch over the target. */
  lemma ToolEndOutgrows(s: string)
    requires |s| == MAX_EVENT_TEXT_CHARS && forall i :: 0 <= i < |s| ==> IsNoise(s[i])
    ensures var e := ToolFinished(s, s, Some(s), s, None, None);
            && Clamp(e) == e
            && JsonCost(e) > MAX_BATCH_CHARS
            && BySize(JsonCost, MAX_BATCH_CHARS, [e]) == [[e]]
            && Cost(JsonCost, [e]) > MAX_BATCH_CHARS
  {
    hide Escaped, Clean, IsNoise;
    var e := ToolFinished(s, s, Some(s), s, None, None);
    NoiseStays(s);
    EscapedNoise(s);
    TextFieldLength("callId", s);
    TextFieldLength("name", s);
    TextFieldLength("input", s);
    TextFieldLength("output", s);
    hide TextField;
    ObjectLength("tool.finished", TextField("callId", s) + TextField("name", s) + TextField("input", s) + TextField("output", s));
    assert Json(e) == Object("tool.finished",
                             TextField("callId", s) + TextField("name", s) + TextField("input", s) + TextField("output", s) + "" + "");
    CostOne(JsonCost, e);
    assert [e][..1] == [e] && [e][1..] == [];
  }

  /** One such event. */
  lemma OversizedEvent() returns (e: AgentEvent)
    ensures e.ToolFinished? && Clamp(e) == e && BySize(JsonCost, MAX_BATCH_CHARS, [e]) == [[e]]
    ensures Cost(JsonCost, [e]) > MAX_BATCH_CHARS
  {
    hide JsonCost, Clamp;
    var s := seq(MAX_EVENT_TEXT_CHARS, i => '\U{0001}');
    ToolEndOutgrows(s);
    e := ToolFinished(s, s, Some(s), s, None, None);
  }

  // ---------------------------------------------------------------- what a flush can post over the target

  /** Strings the source's language can hold, as merged. */
  predicate Spelled(events: seq<AgentEvent>) {
    forall i :: 0 <= i < |Coalesced(events)| ==> Within(Coalesced(events)[i], SAFE - 1)
  }

  /** What a flush prepares from them. */
  lemma PreparedWithin(events: seq<AgentEvent>, i: nat)
    requires Spelled(events) && i < |Prepared(events)|
    ensures Within(Prepared(events)[i], CLEANED_CHARS)
  {
    hide Within, Clamp, Coalesced;
    ClampedWithin(Coalesced(events)[i]);
  }

  /** A flush posts over the target only a tool's end on its own, whatever was
      buffered; and it does so if and only if it prepared one that is too large. */
  lemma OnlyToolEndsOutgrow(turnId: TurnId, b: Buffered)
    requires Spelled(b.events)
    ensures var posts := PostsFor(JsonCost, turnId, b);
            && (forall i :: 0 <= i < |posts| && Cost(JsonCost, posts[i].events) > MAX_BATCH_CHARS ==>
                  |posts[i].events| == 1 && posts[i].events[0].ToolFinished?)
            && (OnTarget(JsonCost, posts) <==> forall i :: 0 <= i < |Prepared(b.events)| && Prepared(b.events)[i].ToolFinished? ==>
                                                 JsonCost(Prepared(b.events)[i]) <= MAX_BATCH_CHARS)
  {
    hide JsonCost, Within, Cost, PostsFor, Coalesced, Clamp, Clamps, Prepared, Spelled, OnTarget;
    var posts := PostsFor(JsonCost, turnId, b);
    FlushWithinCap(JsonCost, turnId, b);
    forall i | 0 <= i < |Prepared(b.events)| && !Prepared(b.events)[i].ToolFinished? ensures JsonCost(Prepared(b.events)[i]) <= MAX_BATCH_CHARS {
      PreparedWithin(b.events, i);
      OtherKindsFit(Prepared(b.events)[i]);
    }
    forall i | 0 <= i < |posts| && Cost(JsonCost, posts[i].events) > MAX_BATCH_CHARS
      ensures |posts[i].events| == 1 && posts[i].events[0].ToolFinished?
    {
      PostIsPrepared(turnId, b, i);
      var k := SinglePrepared(turnId, b, i);
      CostOne(JsonCost, Prepared(b.events)[k]);
    }
  }

  lemma SinglePrepared(turnId: TurnId, b: Buffered, i: nat) returns (k: nat)
    requires i < |PostsFor(JsonCost, turnId, b)| && |PostsFor(JsonCost, turnId, b)[i].events| == 1
    ensures k < |Prepared(b.events)| && PostsFor(JsonCost, turnId, b)[i].events == [Prepared(b.events)[k]]
  {
    hide JsonCost, PostsFor, Prepared;
    PostIsPrepared(turnId, b, i);
    var events := PostsFor(JsonCost, turnId, b)[i].events;
    assert events[0] in events;
    k :| 0 <= k < |Prepared(b.events)| && Prepared(b.events)[k] == events[0];
  }

  /** A post of a flush is admissible and carries prepared events. */
  lemma PostIsPrepared(turnId: TurnId, b: Buffered, i: nat)
    requires i < |PostsFor(JsonCost, turnId, b)|
    ensures LegalPost(JsonCost, PostsFor(JsonCost, turnId, b)[i])
    ensures forall e :: e in PostsFor(JsonCost, turnId, b)[i].events ==> e in Prepared(b.events)
  {
    hide JsonCost, Cost, PostsFor, Prepared;
    PostsForFacts(JsonCost, turnId, b, turnId);
    PostsOfTurn(turnId, b);
    PostedFrom(PostsFor(JsonCost, turnId, b), i, turnId);
  }

  lemma PostsOfTurn(turnId: TurnId, b: Buffered)
    ensures forall k :: 0 <= k < |PostsFor(JsonCost, turnId, b)| ==> PostsFor(JsonCost, turnId, b)[k].turnId == turnId
  {
    hide Batches, Prepared, Chunks, JsonCost;
  }

  /** What a turn's posts carry was posted for it. */
  lemma {:induction false} PostedFrom(posts: seq<Post>, i: nat, turnId: TurnId)
    requires i < |posts| && forall k :: 0 <= k < |posts| ==> posts[k].turnId == turnId
    ensures forall e :: e in posts[i].events ==> e in Posted(posts, turnId)
  {
    if i < |posts| - 1 { PostedFrom(posts[..|posts| - 1], i, turnId); }
  }

  // ---------------------------------------------------------------- the wire takes every flush

  /** The wire's own ceiling (`MAX_EVENT_BATCH_CHARS`,
      packages/agent-protocol/src/runner-wire.ts:433-438). */
  const MAX_EVENT_BATCH_CHARS: nat := 1_000_000

  /** The events as `JSON.stringify` writes the array of them. */
  function JsonItems(events: seq<AgentEvent>): string {
    if events == [] then ""
    else if |events| == 1 then Json(events[0])
    else JsonItems(events[..|events| - 1]) + "," + Json(events[|events| - 1])
  }

  function JsonArray(events: seq<AgentEvent>): string {
    "[" + JsonItems(events) + "]"
  }

  /** What the wire's schema takes of a batch
      (packages/agent-protocol/src/runner-wire.ts:742-756). */
  predicate WireAccepts(events: seq<AgentEvent>) {
    1 <= |events| <= 100 && |JsonArray(events)| <= MAX_EVENT_BATCH_CHARS
  }

  /** The cost of a batch, commas counted with their events, is its serialized
      length but for one bracket. */
  lemma {:induction false} ArrayLength(events: seq<AgentEvent>)
    requires events != []
    ensures |JsonArray(events)| == Cost(JsonCost, events) + 1
  {
    hide Json;
    if |events| == 1 {
      assert events == [events[0]];
      CostOne(JsonCost, events[0]);
    } else {
      ArrayLength(events[..|events| - 1]);
    }
  }

  lemma OptionalIntAtMost(name: string, value: Option<int>)
    requires value.Some? ==> -SAFE < value.value < SAFE
    ensures |OptionalNumber(name, value)| <= |name| + 21
  {
    if value.Some? { SafeDigits(if value.value < 0 then -value.value else value.value); }
  }

  /** A tool's end, the only kind that may pass the target, has its own bound. */
  lemma ToolEndFits(e: AgentEvent)
    requires Within(e, CLEANED_CHARS) && e.ToolFinished?
    ensures JsonCost(e) <= 400_000
  {
    hide TextField, OptionalText, OptionalNumber, Object;
    var ToolFinished(callId, name, input, output, isError, exitCode) := e;
    TextFieldAtMost("callId", callId, CLEANED_CHARS);
    TextFieldAtMost("name", name, CLEANED_CHARS);
    OptionalTextAtMost("input", input, CLEANED_CHARS);
    TextFieldAtMost("output", output, CLEANED_CHARS);
    OptionalIntAtMost("exitCode", exitCode);
    var flag := if isError.Some? then Field("isError", Bool(isError.value)) else "";
    assert |flag| <= 20;
    ObjectLength("tool.finished",
                 TextField("callId", callId) + TextField("name", name) + OptionalText("input", input) + TextField("output", output)
                 + flag + OptionalNumber("exitCode", exitCode));
  }

  /** No clamped event, whatever its text, comes near the wire's ceiling. */
  lemma AnyEventFits(e: AgentEvent)
    requires Within(e, CLEANED_CHARS)
    ensures JsonCost(e) <= 400_000
  {
    hide JsonCost, Within;
    if e.ToolFinished? { ToolEndFits(e); } else { OtherKindsFit(e); }
  }

  /** The wire takes every post of a flush, whatever was buffered. */
  lemma FlushAccepted(turnId: TurnId, b: Buffered)
    requires Spelled(b.events)
    ensures forall i :: 0 <= i < |PostsFor(JsonCost, turnId, b)| ==> WireAccepts(PostsFor(JsonCost, turnId, b)[i].events)
  {
    hide JsonCost, JsonArray, Within, Cost, PostsFor, Coalesced, Clamp, Clamps, Prepared, Spelled;
    var posts := PostsFor(JsonCost, turnId, b);
    forall i | 0 <= i < |posts| ensures WireAccepts(posts[i].events) {
      PostIsPrepared(turnId, b, i);
      ArrayLength(posts[i].events);
      if |posts[i].events| == 1 {
        var k := SinglePrepared(turnId, b, i);
        PreparedWithin(b.events, k);
        AnyEventFits(Prepared(b.events)[k]);
        CostOne(JsonCost, Prepared(b.events)[k]);
      }
    }
  }

  /** No turn ever buffers a string the source's language cannot hold. */
  predicate SpelledRun(ops: seq<Op>) {
    ops == []
    || (&& SpelledRun(ops[..|ops| - 1])
        && (ops[|ops| - 1].Adds? ==>
              Spelled(EventsOf(Run(JsonCost, ops[..|ops| - 1]), ops[|ops| - 1].turnId) + [ops[|ops| - 1].event])))
  }

  ghost predicate AllSpelled(c: Collector) {
    forall t :: t in c.buffers ==> Spelled(c.buffers[t].events)
  }

  ghost predicate AllAccepted(posts: seq<Post>) {
    forall i :: 0 <= i < |posts| ==> WireAccepts(posts[i].events)
  }

  lemma FlushTaken(c: Collector, turnId: TurnId)
    requires AllSpelled(c) && AllAccepted(c.posts)
    ensures AllSpelled(Flush(JsonCost, c, turnId)) && AllAccepted(Flush(JsonCost, c, turnId).posts)
  {
    hide Spelled, WireAccepts, PostsFor;
    if turnId in c.buffers { FlushAccepted(turnId, c.buffers[turnId]); }
  }

  lemma {:induction false} FlushEachTaken(c: Collector, turnIds: seq<TurnId>)
    requires AllSpelled(c) && AllAccepted(c.posts)
    ensures AllSpelled(FlushEach(JsonCost, c, turnIds)) && AllAccepted(FlushEach(JsonCost, c, turnIds).posts)
  {
    hide AllSpelled, AllAccepted, Flush;
    if turnIds != [] {
      FlushEachTaken(c, turnIds[..|turnIds| - 1]);
      FlushTaken(FlushEach(JsonCost, c, turnIds[..|turnIds| - 1]), turnIds[|turnIds| - 1]);
    }
  }

  lemma PushTaken(c: Collector, sandboxId: SandboxId, conversationId: ConversationId, turnId: TurnId, e: AgentEvent)
    requires AllSpelled(c) && Spelled(EventsOf(c, turnId) + [e])
    ensures AllSpelled(Pushed(c, sandboxId, conversationId, turnId, e))
    ensures Pushed(c, sandboxId, conversationId, turnId, e).posts == c.posts
  {
    hide Spelled;
    assert [] + [e] == [e];
  }

  lemma StepTaken(c: Collector, op: Op)
    requires AllSpelled(c) && AllAccepted(c.posts)
    requires op.Adds? ==> Spelled(EventsOf(c, op.turnId) + [op.event])
    ensures AllSpelled(Step(JsonCost, c, op)) && AllAccepted(Step(JsonCost, c, op).posts)
  {
    hide Spelled, AllAccepted, Flush, FlushEach, Siblings, Pushed;
    match op
    case Adds(sandboxId, conversationId, turnId, event) =>
      var p := Pushed(c, sandboxId, conversationId, turnId, event);
      PushTaken(c, sandboxId, conversationId, turnId, event);
      FlushEachTaken(p, Siblings(p, p.order, conversationId, turnId));
      FlushTaken(FlushEach(JsonCost, p, Siblings(p, p.order, conversationId, turnId)), turnId);
    case Flushes(turnId) => FlushTaken(c, turnId);
    case Fires(turnId) => FlushTaken(c, turnId);
    case FlushesAll => FlushEachTaken(c, c.order);
  }

  lemma {:induction false} RunTaken(ops: seq<Op>)
    requires SpelledRun(ops)
    ensures AllSpelled(Run(JsonCost, ops)) && AllAccepted(Run(JsonCost, ops).posts)
  {
    hide AllSpelled, AllAccepted, Step, Spelled;
    if ops == [] {
      NothingTaken();
    } else {
      RunTaken(ops[..|ops| - 1]);
      StepTaken(Run(JsonCost, ops[..|ops| - 1]), ops[|ops| - 1]);
    }
  }

  lemma NothingTaken()
    ensures AllSpelled(Idle) && AllAccepted(Idle.posts)
  {
  }

  /** Over every run of adds, flushes and timers, with no condition on the text:
      the wire takes every post, by count and by size. */
  lemma EveryPostAccepted(ops: seq<Op>)
    requires SpelledRun(ops)
    ensures forall i :: 0 <= i < |Run(JsonCost, ops).posts| ==> WireAccepts(Run(JsonCost, ops).posts[i].events)
  {
    hide WireAccepts, SpelledRun, AllSpelled, Run;
    RunTaken(ops);
  }
}
