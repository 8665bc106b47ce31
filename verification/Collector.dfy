/** The per-turn event buffer with its timers
    (`createTurnEventCollector`, apps/runner/src/turn-events.ts:223-307). */
module Collector {
  import opened Bytes
  import opened TurnEvents

  type SandboxId = string
  type ConversationId = string
  type TurnId = string

  datatype Buffered = Buffered(sandboxId: SandboxId, conversationId: ConversationId, events: seq<AgentEvent>)

  datatype Post = Post(sandboxId: SandboxId, conversationId: ConversationId, turnId: TurnId, events: seq<AgentEvent>)

  /** `order` lists the buffered turns as the map holds them, oldest first;
      `armed` are the turns whose flush timer is set. */
  datatype Collector = Collector(order: seq<TurnId>, buffers: map<TurnId, Buffered>, armed: set<TurnId>, posts: seq<Post>)

  const Idle := Collector([], map[], {}, [])

  /** The serialized length of an event, comma included. */
  type CostOf = AgentEvent -> nat

  // ---------------------------------------------------------------- steps

  function Clamps(events: seq<AgentEvent>): (r: seq<AgentEvent>)
    ensures |r| == |events|
    ensures forall i :: 0 <= i < |events| ==> r[i] == Clamp(events[i])
  {
    if events == [] then [] else Clamps(events[..|events| - 1]) + [Clamp(events[|events| - 1])]
  }

  function Prepared(events: seq<AgentEvent>): seq<AgentEvent> {
    Clamps(Coalesced(events))
  }

  /** Each part split again by size. */
  function Batches(cost: CostOf, parts: seq<seq<AgentEvent>>): seq<seq<AgentEvent>> {
    if parts == [] then [] else Batches(cost, parts[..|parts| - 1]) + BySize(cost, MAX_BATCH_CHARS, parts[|parts| - 1])
  }

  function Wrapped(b: Buffered, turnId: TurnId, batches: seq<seq<AgentEvent>>): (r: seq<Post>)
    ensures |r| == |batches|
    ensures forall i :: 0 <= i < |r| ==> r[i] == Post(b.sandboxId, b.conversationId, turnId, batches[i])
  {
    if batches == [] then []
    else Wrapped(b, turnId, batches[..|batches| - 1]) + [Post(b.sandboxId, b.conversationId, turnId, batches[|batches| - 1])]
  }

  function PostsFor(cost: CostOf, turnId: TurnId, b: Buffered): seq<Post> {
    Wrapped(b, turnId, Batches(cost, Chunks(Prepared(b.events), MAX_EVENTS_PER_POST)))
  }

  function Without(order: seq<TurnId>, turnId: TurnId): seq<TurnId> {
    if order == [] then []
    else Without(order[..|order| - 1], turnId) + if order[|order| - 1] == turnId then [] else [order[|order| - 1]]
  }

  function Flush(cost: CostOf, c: Collector, turnId: TurnId): Collector {
    if turnId !in c.buffers then c
    else
      Collector(Without(c.order, turnId), c.buffers - {turnId}, c.armed - {turnId},
                c.posts + PostsFor(cost, turnId, c.buffers[turnId]))
  }

  function FlushEach(cost: CostOf, c: Collector, turnIds: seq<TurnId>): Collector {
    if turnIds == [] then c else Flush(cost, FlushEach(cost, c, turnIds[..|turnIds| - 1]), turnIds[|turnIds| - 1])
  }

  /** The turns of `order` but `except` that are buffered for this conversation. */
  function Siblings(c: Collector, order: seq<TurnId>, conversationId: ConversationId, except: TurnId): seq<TurnId> {
    if order == [] then []
    else
      var last := order[|order| - 1];
      Siblings(c, order[..|order| - 1], conversationId, except)
      + if last != except && last in c.buffers && c.buffers[last].conversationId == conversationId then [last] else []
  }

  function EventsOf(c: Collector, turnId: TurnId): seq<AgentEvent> {
    if turnId in c.buffers then c.buffers[turnId].events else []
  }

  function Pushed(c: Collector, sandboxId: SandboxId, conversationId: ConversationId, turnId: TurnId, e: AgentEvent): Collector {
    var b := if turnId in c.buffers then c.buffers[turnId] else Buffered(sandboxId, conversationId, []);
    c.(buffers := c.buffers[turnId := b.(events := b.events + [e])],
       order := if turnId in c.buffers then c.order else c.order + [turnId])
  }

  function Add(cost: CostOf, c: Collector, sandboxId: SandboxId, conversationId: ConversationId, turnId: TurnId, e: AgentEvent): Collector {
    var p := Pushed(c, sandboxId, conversationId, turnId, e);
    if IsTerminal(e) then Flush(cost, FlushEach(cost, p, Siblings(p, p.order, conversationId, turnId)), turnId)
    else p.(armed := p.armed + {turnId})
  }

  datatype Op =
    | Adds(sandboxId: SandboxId, conversationId: ConversationId, turnId: TurnId, event: AgentEvent)
    | Flushes(turnId: TurnId)
    | Fires(turnId: TurnId)
    | FlushesAll

  function Step(cost: CostOf, c: Collector, op: Op): Collector {
    match op
    case Adds(sandboxId, conversationId, turnId, event) => Add(cost, c, sandboxId, conversationId, turnId, event)
    case Flushes(turnId) => Flush(cost, c, turnId)
    case Fires(turnId) => if turnId in c.armed then Flush(cost, c, turnId) else c
    case FlushesAll => FlushEach(cost, c, c.order)
  }

  function Run(cost: CostOf, ops: seq<Op>): Collector {
    if ops == [] then Idle else Step(cost, Run(cost, ops[..|ops| - 1]), ops[|ops| - 1])
  }

  /** Everything added to a turn. */
  function Added(ops: seq<Op>, turnId: TurnId): seq<AgentEvent> {
    if ops == [] then []
    else
      Added(ops[..|ops| - 1], turnId)
      + if ops[|ops| - 1].Adds? && ops[|ops| - 1].turnId == turnId then [ops[|ops| - 1].event] else []
  }

  /** Everything posted for a turn. */
  function Posted(posts: seq<Post>, turnId: TurnId): seq<AgentEvent> {
    if posts == [] then []
    else
      Posted(posts[..|posts| - 1], turnId)
      + if posts[|posts| - 1].turnId == turnId then posts[|posts| - 1].events else []
  }

  // ---------------------------------------------------------------- what a flush posts

  ghost predicate LegalPost(cost: CostOf, post: Post) {
    && 1 <= |post.events| <= MAX_EVENTS_PER_POST
    && Admissible(cost, MAX_BATCH_CHARS, post.events)
  }

  ghost predicate LegalPosts(cost: CostOf, posts: seq<Post>) {
    forall i :: 0 <= i < |posts| ==> LegalPost(cost, posts[i])
  }

  ghost predicate LegalBatches(cost: CostOf, batches: seq<seq<AgentEvent>>) {
    forall i :: 0 <= i < |batches| ==>
                  1 <= |batches[i]| <= MAX_EVENTS_PER_POST && Admissible(cost, MAX_BATCH_CHARS, batches[i])
  }

  /** No part of a concatenation is longer than the whole. */
  lemma {:induction false} PartWithin<T>(parts: seq<seq<T>>, i: nat)
    requires i < |parts|
    ensures |parts[i]| <= |Concat(parts)|
  {
    if i < |parts| - 1 {
      PartWithin(parts[..|parts| - 1], i);
    }
  }

  lemma {:induction false} BatchesFacts(cost: CostOf, parts: seq<seq<AgentEvent>>)
    requires forall i :: 0 <= i < |parts| ==> |parts[i]| <= MAX_EVENTS_PER_POST
    ensures Concat(Batches(cost, parts)) == Concat(parts)
    ensures LegalBatches(cost, Batches(cost, parts))
  {
    if parts != [] {
      var init, last := parts[..|parts| - 1], parts[|parts| - 1];
      BatchesFacts(cost, init);
      var split := BySize(cost, MAX_BATCH_CHARS, last);
      BySizeSplits(cost, MAX_BATCH_CHARS, last);
      ConcatAppend(Batches(cost, init), split);
      forall i | 0 <= i < |split| ensures 1 <= |split[i]| <= MAX_EVENTS_PER_POST {
        PartWithin(split, i);
      }
    }
  }

  lemma {:induction false} WrappedPosted(b: Buffered, turnId: TurnId, batches: seq<seq<AgentEvent>>, who: TurnId)
    ensures Posted(Wrapped(b, turnId, batches), who) == if who == turnId then Concat(batches) else []
  {
    if batches != [] {
      WrappedPosted(b, turnId, batches[..|batches| - 1], who);
      var w := Wrapped(b, turnId, batches);
      assert w[..|w| - 1] == Wrapped(b, turnId, batches[..|batches| - 1]);
    }
  }

  /** A flush posts the prepared events, whole and in order, in legal batches. */
  lemma PostsForFacts(cost: CostOf, turnId: TurnId, b: Buffered, who: TurnId)
    ensures Posted(PostsFor(cost, turnId, b), who) == if who == turnId then Prepared(b.events) else []
    ensures LegalPosts(cost, PostsFor(cost, turnId, b))
  {
    hide Batches, Chunks, Prepared, Posted;
    var parts := Chunks(Prepared(b.events), MAX_EVENTS_PER_POST);
    ChunksFacts(Prepared(b.events), MAX_EVENTS_PER_POST);
    BatchesFacts(cost, parts);
    WrappedPosted(b, turnId, Batches(cost, parts), who);
  }

  lemma {:induction false} PostedAppend(a: seq<Post>, b: seq<Post>, who: TurnId)
    ensures Posted(a + b, who) == Posted(a, who) + Posted(b, who)
  {
    if b == [] {
      assert a + b == a;
    } else {
      var init := b[..|b| - 1];
      PostedAppend(a, init, who);
      assert (a + b)[..|a + b| - 1] == a + init && (a + b)[|a + b| - 1] == b[|b| - 1];
    }
  }

  // ---------------------------------------------------------------- bookkeeping

  ghost predicate Distinct(order: seq<TurnId>) {
    forall i, j :: 0 <= i < j < |order| ==> order[i] != order[j]
  }

  /** Between calls: the order lists exactly the buffered turns, each buffer holds
      something, and every buffered turn has its timer armed. */
  ghost predicate Kept(c: Collector) {
    && Distinct(c.order)
    && (forall t :: t in c.order <==> t in c.buffers)
    && (forall t :: t in c.buffers ==> c.buffers[t].events != [])
    && c.armed == c.buffers.Keys
  }

  lemma {:induction false} WithoutFacts(order: seq<TurnId>, turnId: TurnId)
    requires Distinct(order)
    ensures Distinct(Without(order, turnId))
    ensures forall t :: t in Without(order, turnId) <==> t in order && t != turnId
  {
    if order != [] {
      var init, last := order[..|order| - 1], order[|order| - 1];
      WithoutFacts(init, turnId);
      assert order == init + [last];
      assert last !in init;
    }
  }

  /** As `Kept`, but with the timer of one turn still to be set. */
  ghost predicate KeptBut(c: Collector, turnId: TurnId) {
    && Distinct(c.order)
    && (forall t :: t in c.order <==> t in c.buffers)
    && (forall t :: t in c.buffers ==> c.buffers[t].events != [])
    && (forall t :: t in c.armed ==> t in c.buffers)
    && (forall t :: t in c.buffers && t != turnId ==> t in c.armed)
  }

  lemma FlushKeeps(cost: CostOf, c: Collector, turnId: TurnId, but: TurnId)
    requires KeptBut(c, but)
    ensures KeptBut(Flush(cost, c, turnId), but)
    ensures turnId !in Flush(cost, c, turnId).buffers
    ensures forall t :: t != turnId ==> (t in Flush(cost, c, turnId).buffers <==> t in c.buffers)
    ensures forall t :: t in Flush(cost, c, turnId).buffers ==> Flush(cost, c, turnId).buffers[t] == c.buffers[t]
  {
    hide PostsFor;
    WithoutFacts(c.order, turnId);
  }

  lemma {:induction false} FlushEachKeeps(cost: CostOf, c: Collector, turnIds: seq<TurnId>, but: TurnId)
    requires KeptBut(c, but)
    ensures KeptBut(FlushEach(cost, c, turnIds), but)
    ensures forall t :: t in FlushEach(cost, c, turnIds).buffers <==> t in c.buffers && t !in turnIds
    ensures forall t :: t in FlushEach(cost, c, turnIds).buffers ==> FlushEach(cost, c, turnIds).buffers[t] == c.buffers[t]
  {
    hide Flush;
    if turnIds != [] {
      var init, last := turnIds[..|turnIds| - 1], turnIds[|turnIds| - 1];
      FlushEachKeeps(cost, c, init, but);
      FlushKeeps(cost, FlushEach(cost, c, init), last, but);
      assert turnIds == init + [last];
    }
  }

  lemma PushKeeps(c: Collector, sandboxId: SandboxId, conversationId: ConversationId, turnId: TurnId, e: AgentEvent)
    requires Kept(c)
    ensures KeptBut(Pushed(c, sandboxId, conversationId, turnId, e), turnId)
    ensures turnId in Pushed(c, sandboxId, conversationId, turnId, e).buffers
  {
  }

  lemma KeptWhole(c: Collector, but: TurnId)
    requires KeptBut(c, but) && (but in c.buffers ==> but in c.armed)
    ensures Kept(c)
  {
  }

  lemma AddKeeps(cost: CostOf, c: Collector, sandboxId: SandboxId, conversationId: ConversationId, turnId: TurnId, e: AgentEvent)
    requires Kept(c)
    ensures Kept(Add(cost, c, sandboxId, conversationId, turnId, e))
  {
    hide Flush, FlushEach, Pushed, Siblings;
    var p := Pushed(c, sandboxId, conversationId, turnId, e);
    PushKeeps(c, sandboxId, conversationId, turnId, e);
    if IsTerminal(e) {
      var q := FlushEach(cost, p, Siblings(p, p.order, conversationId, turnId));
      FlushEachKeeps(cost, p, Siblings(p, p.order, conversationId, turnId), turnId);
      FlushKeeps(cost, q, turnId, turnId);
      KeptWhole(Flush(cost, q, turnId), turnId);
    } else {
      KeptWhole(p.(armed := p.armed + {turnId}), turnId);
    }
  }

  lemma StepKeeps(cost: CostOf, c: Collector, op: Op)
    requires Kept(c)
    ensures Kept(Step(cost, c, op))
  {
    hide Flush, FlushEach, Add;
    match op
    case Adds(sandboxId, conversationId, turnId, event) => AddKeeps(cost, c, sandboxId, conversationId, turnId, event);
    case Flushes(turnId) =>
      FlushKeeps(cost, c, turnId, turnId);
      KeptWhole(Flush(cost, c, turnId), turnId);
    case Fires(turnId) =>
      FlushKeeps(cost, c, turnId, turnId);
      KeptWhole(Flush(cost, c, turnId), turnId);
    case FlushesAll =>
      FlushEachKeeps(cost, c, c.order, "");
      KeptWhole(FlushEach(cost, c, c.order), "");
  }

  /** Over every run, every buffered turn has words to send and a timer armed to
      send them; and flushing everything leaves nothing. */
  lemma {:induction false} RunKeeps(cost: CostOf, ops: seq<Op>)
    ensures Kept(Run(cost, ops))
    ensures ops != [] && ops[|ops| - 1].FlushesAll? ==> Run(cost, ops).buffers == map[]
  {
    hide Step;
    if ops != [] {
      var c, op := Run(cost, ops[..|ops| - 1]), ops[|ops| - 1];
      RunKeeps(cost, ops[..|ops| - 1]);
      StepKeeps(cost, c, op);
      if op.FlushesAll? {
        FlushEachKeeps(cost, c, c.order, "");
        assert Step(cost, c, op) == FlushEach(cost, c, c.order) by { FlushAllStep(cost, c); }
      }
    }
  }

  lemma FlushAllStep(cost: CostOf, c: Collector)
    ensures Step(cost, c, FlushesAll) == FlushEach(cost, c, c.order)
  {
  }

  // ---------------------------------------------------------------- legal posts

  lemma FlushLegal(cost: CostOf, c: Collector, turnId: TurnId)
    requires LegalPosts(cost, c.posts)
    ensures LegalPosts(cost, Flush(cost, c, turnId).posts)
  {
    hide PostsFor, LegalPost;
    if turnId in c.buffers {
      PostsForFacts(cost, turnId, c.buffers[turnId], turnId);
    }
  }

  lemma {:induction false} FlushEachLegal(cost: CostOf, c: Collector, turnIds: seq<TurnId>)
    requires LegalPosts(cost, c.posts)
    ensures LegalPosts(cost, FlushEach(cost, c, turnIds).posts)
  {
    hide Flush, LegalPosts;
    if turnIds != [] {
      FlushEachLegal(cost, c, turnIds[..|turnIds| - 1]);
      FlushLegal(cost, FlushEach(cost, c, turnIds[..|turnIds| - 1]), turnIds[|turnIds| - 1]);
    }
  }

  /** Over every run, no post is empty, over the count cap, or over the runner's
      target size with more than one event. */
  lemma {:induction false} PostsAreLegal(cost: CostOf, ops: seq<Op>)
    ensures LegalPosts(cost, Run(cost, ops).posts)
  {
    hide Flush, FlushEach, Siblings, LegalPost;
    if ops != [] {
      var c, op := Run(cost, ops[..|ops| - 1]), ops[|ops| - 1];
      PostsAreLegal(cost, ops[..|ops| - 1]);
      match op
      case Adds(sandboxId, conversationId, turnId, event) =>
        var p := Pushed(c, sandboxId, conversationId, turnId, event);
        FlushEachLegal(cost, p, Siblings(p, p.order, conversationId, turnId));
        FlushLegal(cost, FlushEach(cost, p, Siblings(p, p.order, conversationId, turnId)), turnId);
      case Flushes(turnId) => FlushLegal(cost, c, turnId);
      case Fires(turnId) => FlushLegal(cost, c, turnId);
      case FlushesAll => FlushEachLegal(cost, c, c.order);
    }
  }

  function BatchesIn(posts: seq<Post>): (r: seq<seq<AgentEvent>>)
    ensures |r| == |posts|
    ensures forall i :: 0 <= i < |r| ==> r[i] == posts[i].events
  {
    if posts == [] then [] else BatchesIn(posts[..|posts| - 1]) + [posts[|posts| - 1].events]
  }

  /** No post exceeds the runner's target for one. */
  ghost predicate OnTarget(cost: CostOf, posts: seq<Post>) {
    BatchesWithin(cost, MAX_BATCH_CHARS, BatchesIn(posts))
  }

  /** Over every run, the posts all keep to the target if and only if each single
      event posted does. */
  lemma PostsWithinCap(cost: CostOf, ops: seq<Op>)
    ensures OnTarget(cost, Run(cost, ops).posts)
            <==> EventsWithin(cost, MAX_BATCH_CHARS, Concat(BatchesIn(Run(cost, ops).posts)))
  {
    hide Run, Admissible;
    PostsAreLegal(cost, ops);
    var batches := BatchesIn(Run(cost, ops).posts);
    forall i | 0 <= i < |batches| ensures Admissible(cost, MAX_BATCH_CHARS, batches[i]) {
      assert LegalPost(cost, Run(cost, ops).posts[i]);
    }
    SplitWithinCap(cost, MAX_BATCH_CHARS, batches);
  }

  lemma {:induction false} WrappedBatches(b: Buffered, turnId: TurnId, batches: seq<seq<AgentEvent>>)
    ensures BatchesIn(Wrapped(b, turnId, batches)) == batches
  {
  }

  /** A flush keeps to the target if and only if each event prepared from the
      buffer does. */
  lemma FlushWithinCap(cost: CostOf, turnId: TurnId, b: Buffered)
    ensures OnTarget(cost, PostsFor(cost, turnId, b)) <==> EventsWithin(cost, MAX_BATCH_CHARS, Prepared(b.events))
  {
    hide Batches, Chunks, Prepared, Admissible, BatchesWithin, EventsWithin;
    var parts := Chunks(Prepared(b.events), MAX_EVENTS_PER_POST);
    ChunksFacts(Prepared(b.events), MAX_EVENTS_PER_POST);
    BatchesFacts(cost, parts);
    SplitWithinCap(cost, MAX_BATCH_CHARS, Batches(cost, parts));
    WrappedBatches(b, turnId, Batches(cost, parts));
  }

  // ---------------------------------------------------------------- conservation

  /** Every string, as merged, is NUL-free and within 16,000 characters, or ends in
      the mark its own length calls for. */
  predicate Fits(events: seq<AgentEvent>) {
    forall i :: 0 <= i < |Coalesced(events)| ==> Plain(Coalesced(events)[i])
  }

  lemma FitsUnclamped(events: seq<AgentEvent>)
    requires Fits(events)
    ensures Prepared(events) == Coalesced(events)
  {
    hide Coalesced, Clamp, Plain;
    forall i | 0 <= i < |Coalesced(events)| ensures Clamp(Coalesced(events)[i]) == Coalesced(events)[i] {
      ClampKeepsPlain(Coalesced(events)[i]);
    }
  }

  ghost predicate AllFit(c: Collector) {
    forall t :: t in c.buffers ==> Fits(c.buffers[t].events)
  }

  /** No turn ever buffers text the clamp would cut. */
  predicate Unclamped(cost: CostOf, ops: seq<Op>) {
    ops == []
    || (&& Unclamped(cost, ops[..|ops| - 1])
        && (ops[|ops| - 1].Adds? ==>
              Fits(EventsOf(Run(cost, ops[..|ops| - 1]), ops[|ops| - 1].turnId) + [ops[|ops| - 1].event])))
  }

  /** What a turn's reader has been sent and has still coming. */
  function Seen(c: Collector, who: TurnId): seq<Unit> {
    Expansion(Posted(c.posts, who)) + Expansion(EventsOf(c, who))
  }

  lemma FlushConserves(cost: CostOf, c: Collector, turnId: TurnId, who: TurnId)
    requires AllFit(c)
    ensures AllFit(Flush(cost, c, turnId)) && Seen(Flush(cost, c, turnId), who) == Seen(c, who)
  {
    if turnId in c.buffers {
      hide PostsFor, Posted, Expansion, Coalesced, Clamps, Without;
      var b := c.buffers[turnId];
      PostsForFacts(cost, turnId, b, who);
      PostedAppend(c.posts, PostsFor(cost, turnId, b), who);
      if who == turnId {
        FitsUnclamped(b.events);
        CoalescedExpands(b.events);
        ExpansionAppend(Posted(c.posts, who), Prepared(b.events));
        ExpansionNone();
        assert Seen(c, who) + [] == Seen(c, who);
      } else {
        assert Posted(c.posts, who) + [] == Posted(c.posts, who);
      }
    }
  }

  lemma ExpansionNone()
    ensures Expansion([]) == []
  {
  }

  lemma {:induction false} FlushEachConserves(cost: CostOf, c: Collector, turnIds: seq<TurnId>, who: TurnId)
    requires AllFit(c)
    ensures AllFit(FlushEach(cost, c, turnIds)) && Seen(FlushEach(cost, c, turnIds), who) == Seen(c, who)
  {
    hide Flush, AllFit, Seen;
    if turnIds != [] {
      FlushEachConserves(cost, c, turnIds[..|turnIds| - 1], who);
      FlushConserves(cost, FlushEach(cost, c, turnIds[..|turnIds| - 1]), turnIds[|turnIds| - 1], who);
    }
  }

  /** What a push changes. */
  lemma PushedFacts(c: Collector, sandboxId: SandboxId, conversationId: ConversationId, turnId: TurnId, e: AgentEvent)
    ensures var p := Pushed(c, sandboxId, conversationId, turnId, e);
            && p.posts == c.posts
            && p.buffers.Keys == c.buffers.Keys + {turnId}
            && p.buffers[turnId].events == EventsOf(c, turnId) + [e]
            && p.buffers[turnId].conversationId
               == (if turnId in c.buffers then c.buffers[turnId].conversationId else conversationId)
            && (forall t :: t in c.buffers && t != turnId ==> p.buffers[t] == c.buffers[t])
  {
  }

  lemma PushConserves(c: Collector, sandboxId: SandboxId, conversationId: ConversationId, turnId: TurnId, e: AgentEvent, who: TurnId)
    requires AllFit(c) && Fits(EventsOf(c, turnId) + [e])
    ensures var p := Pushed(c, sandboxId, conversationId, turnId, e);
            AllFit(p) && Seen(p, who) == Seen(c, who) + if who == turnId then Units(e) else []
  {
    hide Expansion, Posted, Units, Pushed, Fits;
    PushedFacts(c, sandboxId, conversationId, turnId, e);
    var p := Pushed(c, sandboxId, conversationId, turnId, e);
    if who == turnId {
      ExpansionAppend(EventsOf(c, turnId), [e]);
      OneEvent(e);
      assert EventsOf(p, who) == EventsOf(c, who) + [e];
      var a, b, d := Expansion(Posted(c.posts, who)), Expansion(EventsOf(c, who)), Units(e);
      assert a + (b + d) == (a + b) + d;
    } else {
      assert EventsOf(p, who) == EventsOf(c, who);
      assert Seen(c, who) + [] == Seen(c, who);
    }
  }

  lemma OneEvent(e: AgentEvent)
    ensures Expansion([e]) == Units(e)
  {
    assert [e][..0] == [];
  }

  lemma StepConserves(cost: CostOf, c: Collector, op: Op, who: TurnId)
    requires AllFit(c) && (op.Adds? ==> Fits(EventsOf(c, op.turnId) + [op.event]))
    ensures AllFit(Step(cost, c, op))
    ensures Seen(Step(cost, c, op), who) == Seen(c, who) + if op.Adds? && op.turnId == who then Units(op.event) else []
  {
    hide Flush, FlushEach, Siblings, Pushed, Fits, Units, Expansion, Posted;
    match op
    case Adds(sandboxId, conversationId, turnId, event) =>
      var p := Pushed(c, sandboxId, conversationId, turnId, event);
      PushConserves(c, sandboxId, conversationId, turnId, event, who);
      FlushEachConserves(cost, p, Siblings(p, p.order, conversationId, turnId), who);
      FlushConserves(cost, FlushEach(cost, p, Siblings(p, p.order, conversationId, turnId)), turnId, who);
      assert EventsOf(p.(armed := p.armed + {turnId}), who) == EventsOf(p, who);
    case Flushes(turnId) => FlushConserves(cost, c, turnId, who);
    case Fires(turnId) => FlushConserves(cost, c, turnId, who);
    case FlushesAll => FlushEachConserves(cost, c, c.order, who);
  }

  /** Over every run of adds, flushes and timers, character by character: what
      was posted for a turn, followed by what it still buffers, is what was added
      to it. */
  lemma {:induction false} Conserved(cost: CostOf, ops: seq<Op>, who: TurnId)
    requires Unclamped(cost, ops)
    ensures AllFit(Run(cost, ops))
    ensures Expansion(Posted(Run(cost, ops).posts, who)) + Expansion(EventsOf(Run(cost, ops), who))
            == Expansion(Added(ops, who))
  {
    if ops == [] {
    } else {
      hide Step, Fits, Units, Expansion, Posted, AllFit;
      var init, op := ops[..|ops| - 1], ops[|ops| - 1];
      Conserved(cost, init, who);
      StepConserves(cost, Run(cost, init), op, who);
      if op.Adds? && op.turnId == who {
        ExpansionAppend(Added(init, who), [op.event]);
        OneEvent(op.event);
      } else {
        assert Added(ops, who) == Added(init, who);
      }
    }
  }

  function PreparedAll(groups: seq<seq<AgentEvent>>): seq<seq<AgentEvent>> {
    if groups == [] then [] else PreparedAll(groups[..|groups| - 1]) + [Prepared(groups[|groups| - 1])]
  }

  /** What was added splits, in order, into the groups flushed so far and the
      buffer, and what was posted is each group merged and clamped. */
  ghost predicate Grouped(c: Collector, added: seq<AgentEvent>, who: TurnId) {
    exists groups :: InGroups(c, added, who, groups)
  }

  ghost predicate InGroups(c: Collector, added: seq<AgentEvent>, who: TurnId, groups: seq<seq<AgentEvent>>) {
    && Concat(groups) + EventsOf(c, who) == added
    && Posted(c.posts, who) == Concat(PreparedAll(groups))
  }

  lemma MoreGroups(groups: seq<seq<AgentEvent>>, events: seq<AgentEvent>)
    ensures Concat(groups + [events]) == Concat(groups) + events
    ensures Concat(PreparedAll(groups + [events])) == Concat(PreparedAll(groups)) + Prepared(events)
  {
    hide Prepared;
    var more := groups + [events];
    assert more[..|groups|] == groups;
    assert PreparedAll(more) == PreparedAll(groups) + [Prepared(events)];
    assert PreparedAll(more)[..|PreparedAll(groups)|] == PreparedAll(groups);
  }

  lemma FlushGroups(cost: CostOf, c: Collector, turnId: TurnId, added: seq<AgentEvent>, who: TurnId)
    requires Grouped(c, added, who)
    ensures Grouped(Flush(cost, c, turnId), added, who)
  {
    hide PostsFor, Posted, Prepared, Without, Concat, PreparedAll;
    var groups :| InGroups(c, added, who, groups);
    var d := Flush(cost, c, turnId);
    if turnId in c.buffers {
      var b := c.buffers[turnId];
      PostsForFacts(cost, turnId, b, who);
      PostedAppend(c.posts, PostsFor(cost, turnId, b), who);
      if who == turnId {
        MoreGroups(groups, b.events);
        assert Concat(groups + [b.events]) + [] == Concat(groups) + b.events;
        assert InGroups(d, added, who, groups + [b.events]);
      } else {
        assert Posted(c.posts, who) + [] == Posted(c.posts, who);
        assert InGroups(d, added, who, groups);
      }
    }
  }

  lemma {:induction false} FlushEachGroups(cost: CostOf, c: Collector, turnIds: seq<TurnId>, added: seq<AgentEvent>, who: TurnId)
    requires Grouped(c, added, who)
    ensures Grouped(FlushEach(cost, c, turnIds), added, who)
  {
    hide Flush, Grouped;
    if turnIds != [] {
      FlushEachGroups(cost, c, turnIds[..|turnIds| - 1], added, who);
      FlushGroups(cost, FlushEach(cost, c, turnIds[..|turnIds| - 1]), turnIds[|turnIds| - 1], added, who);
    }
  }

  lemma PushGroups(c: Collector, sandboxId: SandboxId, conversationId: ConversationId, turnId: TurnId, e: AgentEvent, added: seq<AgentEvent>, who: TurnId)
    requires Grouped(c, added, who)
    ensures Grouped(Pushed(c, sandboxId, conversationId, turnId, e), added + if turnId == who then [e] else [], who)
  {
    hide Pushed, Posted;
    PushedFacts(c, sandboxId, conversationId, turnId, e);
    var p := Pushed(c, sandboxId, conversationId, turnId, e);
    var groups :| InGroups(c, added, who, groups);
    if who == turnId {
      assert EventsOf(p, who) == EventsOf(c, who) + [e];
      assert Concat(groups) + (EventsOf(c, who) + [e]) == (Concat(groups) + EventsOf(c, who)) + [e];
    } else {
      assert EventsOf(p, who) == EventsOf(c, who) && added + [] == added;
    }
    assert InGroups(p, added + if turnId == who then [e] else [], who, groups);
  }

  lemma ArmedGroups(c: Collector, armed: set<TurnId>, added: seq<AgentEvent>, who: TurnId)
    requires Grouped(c, added, who)
    ensures Grouped(c.(armed := armed), added, who)
  {
    var groups :| InGroups(c, added, who, groups);
    assert InGroups(c.(armed := armed), added, who, groups);
  }

  lemma AddGroups(cost: CostOf, c: Collector, op: Op, added: seq<AgentEvent>, who: TurnId)
    requires op.Adds? && Grouped(c, added, who)
    ensures Grouped(Step(cost, c, op), added + if op.turnId == who then [op.event] else [], who)
  {
    hide Flush, FlushEach, Siblings, Pushed, Grouped;
    var Adds(sandboxId, conversationId, turnId, event) := op;
    var p := Pushed(c, sandboxId, conversationId, turnId, event);
    var siblings := Siblings(p, p.order, conversationId, turnId);
    var all := added + if op.turnId == who then [op.event] else [];
    PushGroups(c, sandboxId, conversationId, turnId, event, added, who);
    FlushEachGroups(cost, p, siblings, all, who);
    FlushGroups(cost, FlushEach(cost, p, siblings), turnId, all, who);
    ArmedGroups(p, p.armed + {turnId}, all, who);
  }

  lemma StepGroups(cost: CostOf, c: Collector, op: Op, added: seq<AgentEvent>, who: TurnId)
    requires Grouped(c, added, who)
    ensures Grouped(Step(cost, c, op), added + if op.Adds? && op.turnId == who then [op.event] else [], who)
  {
    hide Flush, FlushEach, Grouped, Add;
    assert added + [] == added;
    match op
    case Adds(_, _, _, _) => AddGroups(cost, c, op, added, who);
    case Flushes(turnId) => FlushGroups(cost, c, turnId, added, who);
    case Fires(turnId) => FlushGroups(cost, c, turnId, added, who);
    case FlushesAll => FlushEachGroups(cost, c, c.order, added, who);
  }

  /** Over every run, with no condition on its text: nothing added to a turn is
      lost, repeated or reordered before it is merged and clamped. */
  lemma {:induction false} PostedInGroups(cost: CostOf, ops: seq<Op>, who: TurnId)
    ensures Grouped(Run(cost, ops), Added(ops, who), who)
  {
    if ops == [] {
      assert InGroups(Idle, [], who, []);
    } else {
      hide Step, Grouped;
      PostedInGroups(cost, ops[..|ops| - 1], who);
      StepGroups(cost, Run(cost, ops[..|ops| - 1]), ops[|ops| - 1], Added(ops[..|ops| - 1], who), who);
    }
  }

  // ---------------------------------------------------------------- terminal events

  /** Each turn belongs to one conversation. */
  ghost predicate OneConversation(ops: seq<Op>, conversationOf: TurnId -> ConversationId) {
    forall i :: 0 <= i < |ops| && ops[i].Adds? ==> ops[i].conversationId == conversationOf(ops[i].turnId)
  }

  ghost predicate Filed(c: Collector, conversationOf: TurnId -> ConversationId) {
    forall t :: t in c.buffers ==> c.buffers[t].conversationId == conversationOf(t)
  }

  lemma StepFiles(cost: CostOf, c: Collector, op: Op, conversationOf: TurnId -> ConversationId)
    requires Kept(c) && Filed(c, conversationOf)
    requires op.Adds? ==> op.conversationId == conversationOf(op.turnId)
    ensures Filed(Step(cost, c, op), conversationOf)
  {
    hide Flush, FlushEach, Siblings, Pushed;
    match op
    case Adds(sandboxId, conversationId, turnId, event) =>
      var p := Pushed(c, sandboxId, conversationId, turnId, event);
      PushedFacts(c, sandboxId, conversationId, turnId, event);
      PushKeeps(c, sandboxId, conversationId, turnId, event);
      FlushEachKeeps(cost, p, Siblings(p, p.order, conversationId, turnId), turnId);
      FlushKeeps(cost, FlushEach(cost, p, Siblings(p, p.order, conversationId, turnId)), turnId, turnId);
    case Flushes(turnId) => FlushKeeps(cost, c, turnId, turnId);
    case Fires(turnId) => FlushKeeps(cost, c, turnId, turnId);
    case FlushesAll => FlushEachKeeps(cost, c, c.order, "");
  }

  lemma {:induction false} RunFiles(cost: CostOf, ops: seq<Op>, conversationOf: TurnId -> ConversationId)
    requires OneConversation(ops, conversationOf)
    ensures Filed(Run(cost, ops), conversationOf)
  {
    hide Step;
    if ops != [] {
      var init := ops[..|ops| - 1];
      RunFiles(cost, init, conversationOf);
      RunKeeps(cost, init);
      StepFiles(cost, Run(cost, init), ops[|ops| - 1], conversationOf);
    }
  }

  lemma {:induction false} SiblingsAll(c: Collector, order: seq<TurnId>, conversationId: ConversationId, except: TurnId, t: TurnId)
    requires t in order && t != except && t in c.buffers && c.buffers[t].conversationId == conversationId
    ensures t in Siblings(c, order, conversationId, except)
  {
    if order[|order| - 1] != t {
      SiblingsAll(c, order[..|order| - 1], conversationId, except, t);
    }
  }

  lemma {:induction false} SiblingsOnly(c: Collector, order: seq<TurnId>, conversationId: ConversationId, except: TurnId, t: TurnId)
    requires t in Siblings(c, order, conversationId, except)
    ensures t != except && t in c.buffers && c.buffers[t].conversationId == conversationId
  {
    if order != [] && t in Siblings(c, order[..|order| - 1], conversationId, except) {
      SiblingsOnly(c, order[..|order| - 1], conversationId, except, t);
    }
  }

  lemma {:induction false} LastOfConcat<T>(parts: seq<seq<T>>)
    requires forall i :: 0 <= i < |parts| ==> parts[i] != []
    ensures parts != [] ==> Concat(parts) != [] && Concat(parts)[|Concat(parts)| - 1] == parts[|parts| - 1][|parts[|parts| - 1]| - 1]
    ensures parts == [] ==> Concat(parts) == []
  {
  }

  lemma NothingMerges(e: AgentEvent)
    requires !IsTextual(e)
    ensures forall previous :: !Merges(previous, e)
  {
  }

  lemma PreparedEndsWith(events: seq<AgentEvent>, e: AgentEvent)
    requires events != [] && events[|events| - 1] == e && !IsTextual(e)
    ensures Prepared(events) != [] && Prepared(events)[|Prepared(events)| - 1] == Clamp(e)
  {
    hide Clamp, Merges;
    NothingMerges(e);
    assert Coalesced(events) == Coalesced(events[..|events| - 1]) + [e];
  }

  /** A flush that ends in an unmergeable event posts that event last. */
  lemma FlushEndsWith(cost: CostOf, turnId: TurnId, b: Buffered, e: AgentEvent)
    requires b.events != [] && b.events[|b.events| - 1] == e && !IsTextual(e)
    ensures var posts := PostsFor(cost, turnId, b);
            && posts != []
            && posts[|posts| - 1].turnId == turnId
            && posts[|posts| - 1].events != []
            && posts[|posts| - 1].events[|posts[|posts| - 1].events| - 1] == Clamp(e)
  {
    hide Batches, Chunks, Clamp, Prepared, Admissible;
    PreparedEndsWith(b.events, e);
    var parts := Chunks(Prepared(b.events), MAX_EVENTS_PER_POST);
    ChunksFacts(Prepared(b.events), MAX_EVENTS_PER_POST);
    BatchesFacts(cost, parts);
    LastOfConcat(Batches(cost, parts));
  }

  /** The state a terminal event flushes last: its conversation's other turns gone. */
  lemma SiblingsGone(cost: CostOf, c: Collector, sandboxId: SandboxId, conversationId: ConversationId, turnId: TurnId, e: AgentEvent)
    requires Kept(c)
    ensures var p := Pushed(c, sandboxId, conversationId, turnId, e);
            var q := FlushEach(cost, p, Siblings(p, p.order, conversationId, turnId));
            && turnId in q.buffers && q.buffers[turnId].events == EventsOf(c, turnId) + [e]
            && (forall t :: t in q.buffers && t != turnId <==> t in c.buffers && t != turnId && c.buffers[t].conversationId != conversationId)
            && (forall t :: t in q.buffers && t != turnId ==> q.buffers[t] == c.buffers[t])
  {
    hide Siblings, FlushEach, Pushed;
    var p := Pushed(c, sandboxId, conversationId, turnId, e);
    PushKeeps(c, sandboxId, conversationId, turnId, e);
    PushedFacts(c, sandboxId, conversationId, turnId, e);
    FlushEachKeeps(cost, p, Siblings(p, p.order, conversationId, turnId), turnId);
    SiblingsAre(p, conversationId, turnId);
  }

  /** The last event of the last post, made for this turn. */
  ghost predicate LastPosted(posts: seq<Post>, turnId: TurnId, e: AgentEvent) {
    && posts != []
    && var Post(_, _, id, events) := posts[|posts| - 1];
       id == turnId && events != [] && events[|events| - 1] == e
  }

  /** A terminal event leaves nothing of its conversation buffered, touches no
      other conversation, and goes out last. */
  lemma TerminalFlushes(cost: CostOf, c: Collector, sandboxId: SandboxId, conversationId: ConversationId, turnId: TurnId, e: AgentEvent)
    requires Kept(c) && (e.TurnDone? || e.ErrorEvent?)
    ensures var d := Add(cost, c, sandboxId, conversationId, turnId, e);
            && (forall t :: t in d.buffers <==> t in c.buffers && t != turnId && c.buffers[t].conversationId != conversationId)
            && (forall t :: t in d.buffers ==> d.buffers[t] == c.buffers[t])
            && LastPosted(d.posts, turnId, Clamp(e))
  {
    hide Kept, Siblings, PostsFor, Clamp, FlushEach, Without, Pushed;
    SiblingsGone(cost, c, sandboxId, conversationId, turnId, e);
    var p := Pushed(c, sandboxId, conversationId, turnId, e);
    var q := FlushEach(cost, p, Siblings(p, p.order, conversationId, turnId));
    TerminalIsNotText(e);
    FlushEndsWith(cost, turnId, q.buffers[turnId], e);
  }

  lemma TerminalIsNotText(e: AgentEvent)
    requires e.TurnDone? || e.ErrorEvent?
    ensures !IsTextual(e)
  {
  }

  lemma SiblingsAre(p: Collector, conversationId: ConversationId, turnId: TurnId)
    requires forall t :: t in p.order <==> t in p.buffers
    ensures forall t :: t in Siblings(p, p.order, conversationId, turnId)
                        <==> t != turnId && t in p.buffers && p.buffers[t].conversationId == conversationId
  {
    hide Siblings;
    var siblings := Siblings(p, p.order, conversationId, turnId);
    forall t ensures t in siblings <==> t != turnId && t in p.buffers && p.buffers[t].conversationId == conversationId {
      if t in siblings { SiblingsOnly(p, p.order, conversationId, turnId, t); }
      if t != turnId && t in p.buffers && p.buffers[t].conversationId == conversationId {
        SiblingsAll(p, p.order, conversationId, turnId, t);
      }
    }
  }

  predicate EndsTurn(op: Op) {
    op.Adds? && (op.event.TurnDone? || op.event.ErrorEvent?)
  }

  /** When a run ends in a terminal event, everything ever added to any turn of
      that conversation has been posted, group by group, merged and clamped, and the
      terminal event is the last thing posted. Where the clamp cut nothing, every
      character added has been. */
  lemma TerminalIsLast(cost: CostOf, ops: seq<Op>, conversationOf: TurnId -> ConversationId, who: TurnId)
    requires ops != [] && EndsTurn(ops[|ops| - 1])
    requires OneConversation(ops, conversationOf)
    requires conversationOf(who) == ops[|ops| - 1].conversationId
    ensures var posts := Run(cost, ops).posts;
            && (exists groups :: Concat(groups) == Added(ops, who) && Posted(posts, who) == Concat(PreparedAll(groups)))
            && (Unclamped(cost, ops) ==> Expansion(Posted(posts, who)) == Expansion(Added(ops, who)))
            && LastPosted(posts, ops[|ops| - 1].turnId, Clamp(ops[|ops| - 1].event))
  {
    hide Expansion, Posted, Added, Clamp, Add, Unclamped, PreparedAll, Concat;
    var init, op := ops[..|ops| - 1], ops[|ops| - 1];
    var c := Run(cost, ops);
    RunKeeps(cost, init);
    RunFiles(cost, init, conversationOf);
    TerminalFlushes(cost, Run(cost, init), op.sandboxId, op.conversationId, op.turnId, op.event);
    assert EventsOf(c, who) == [];
    PostedInGroups(cost, ops, who);
    var groups :| InGroups(c, Added(ops, who), who, groups);
    assert Concat(groups) + [] == Concat(groups);
    if Unclamped(cost, ops) {
      Conserved(cost, ops, who);
      ExpansionNone();
      assert Expansion(Posted(c.posts, who)) + [] == Expansion(Posted(c.posts, who));
    }
  }

  // ---------------------------------------------------------------- when posts are made

  /** A flush of a turn, or its timer, sends all that was ever added to it, and
      touches no other turn's buffer. */
  lemma FlushSends(cost: CostOf, ops: seq<Op>, turnId: TurnId)
    requires ops != [] && (ops[|ops| - 1] == Flushes(turnId) || ops[|ops| - 1] == Fires(turnId))
    ensures var before, after := Run(cost, ops[..|ops| - 1]), Run(cost, ops);
            && turnId !in after.buffers
            && (forall t :: t != turnId ==> (t in after.buffers <==> t in before.buffers) && EventsOf(after, t) == EventsOf(before, t))
            && exists groups :: Concat(groups) == Added(ops, turnId) && Posted(after.posts, turnId) == Concat(PreparedAll(groups))
  {
    hide Posted, Added, PreparedAll, Concat, PostsFor, Without;
    RunKeeps(cost, ops[..|ops| - 1]);
    var c := Run(cost, ops);
    PostedInGroups(cost, ops, turnId);
    var groups :| InGroups(c, Added(ops, turnId), turnId, groups);
    assert Concat(groups) + [] == Concat(groups);
  }

  /** Any other event waits: nothing is posted, it joins its turn's buffer, no other
      buffer changes, and the turn's timer is set. */
  lemma AddWaits(cost: CostOf, ops: seq<Op>)
    requires ops != [] && ops[|ops| - 1].Adds? && !ops[|ops| - 1].event.TurnDone? && !ops[|ops| - 1].event.ErrorEvent?
    ensures var op, before, after := ops[|ops| - 1], Run(cost, ops[..|ops| - 1]), Run(cost, ops);
            && after.posts == before.posts
            && EventsOf(after, op.turnId) == EventsOf(before, op.turnId) + [op.event]
            && (forall t :: t != op.turnId ==> EventsOf(after, t) == EventsOf(before, t))
            && op.turnId in after.armed
  {
    hide Flush, FlushEach, Siblings;
  }

  /** The sandbox, the conversation and the turn of some event added. */
  ghost predicate Labels(ops: seq<Op>, sandboxId: SandboxId, conversationId: ConversationId, turnId: TurnId) {
    exists k :: 0 <= k < |ops| && ops[k].Adds? && ops[k].sandboxId == sandboxId && ops[k].conversationId == conversationId
                && ops[k].turnId == turnId
  }

  ghost predicate Labeled(ops: seq<Op>, c: Collector) {
    && (forall t :: t in c.buffers ==> Labels(ops, c.buffers[t].sandboxId, c.buffers[t].conversationId, t))
    && (forall i :: 0 <= i < |c.posts| ==> Labels(ops, c.posts[i].sandboxId, c.posts[i].conversationId, c.posts[i].turnId))
  }

  lemma FlushLabeled(cost: CostOf, ops: seq<Op>, c: Collector, turnId: TurnId)
    requires Labeled(ops, c)
    ensures Labeled(ops, Flush(cost, c, turnId))
  {
    hide Labels, Without, Batches, Chunks, Prepared;
  }

  lemma {:induction false} FlushEachLabeled(cost: CostOf, ops: seq<Op>, c: Collector, turnIds: seq<TurnId>)
    requires Labeled(ops, c)
    ensures Labeled(ops, FlushEach(cost, c, turnIds))
  {
    hide Labeled, Flush;
    if turnIds != [] {
      FlushEachLabeled(cost, ops, c, turnIds[..|turnIds| - 1]);
      FlushLabeled(cost, ops, FlushEach(cost, c, turnIds[..|turnIds| - 1]), turnIds[|turnIds| - 1]);
    }
  }

  lemma MoreLabeled(init: seq<Op>, op: Op, c: Collector)
    requires Labeled(init, c)
    ensures Labeled(init + [op], c)
  {
    forall s, k, t | Labels(init, s, k, t) ensures Labels(init + [op], s, k, t) {
      var i :| 0 <= i < |init| && init[i].Adds? && init[i].sandboxId == s && init[i].conversationId == k && init[i].turnId == t;
      assert (init + [op])[i] == init[i];
    }
  }

  lemma PushLabeled(init: seq<Op>, op: Op, c: Collector)
    requires Labeled(init + [op], c) && op.Adds?
    ensures Labeled(init + [op], Pushed(c, op.sandboxId, op.conversationId, op.turnId, op.event))
  {
    assert (init + [op])[|init|] == op;
    assert Labels(init + [op], op.sandboxId, op.conversationId, op.turnId);
    hide Labels;
  }

  /** Over every run, each post is made for the sandbox, the conversation and the
      turn that an event added named. */
  lemma {:induction false} PostsLabeled(cost: CostOf, ops: seq<Op>)
    ensures Labeled(ops, Run(cost, ops))
  {
    hide Labeled, Flush, FlushEach, Siblings, Pushed;
    if ops == [] {
      NoneLabeled();
    } else {
      var init, op := ops[..|ops| - 1], ops[|ops| - 1];
      var c := Run(cost, init);
      PostsLabeled(cost, init);
      MoreLabeled(init, op, c);
      assert init + [op] == ops;
      match op
      case Adds(sandboxId, conversationId, turnId, event) =>
        var p := Pushed(c, sandboxId, conversationId, turnId, event);
        PushLabeled(init, op, c);
        var siblings := Siblings(p, p.order, conversationId, turnId);
        FlushEachLabeled(cost, ops, p, siblings);
        FlushLabeled(cost, ops, FlushEach(cost, p, siblings), turnId);
        ArmedLabeled(ops, p, p.armed + {turnId});
      case Flushes(turnId) => FlushLabeled(cost, ops, c, turnId);
      case Fires(turnId) => FlushLabeled(cost, ops, c, turnId);
      case FlushesAll => FlushEachLabeled(cost, ops, c, c.order);
    }
  }

  lemma ArmedLabeled(ops: seq<Op>, c: Collector, armed: set<TurnId>)
    requires Labeled(ops, c)
    ensures Labeled(ops, c.(armed := armed))
  {
  }

  lemma NoneLabeled()
    ensures Labeled([], Idle)
  {
  }
}
