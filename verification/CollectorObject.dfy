/** The collector as the object the source runs (apps/runner/src/turn-events.ts:231-307). */
module CollectorObject {
  import opened TurnEvents
  import opened Spec = Collector

  lemma BatchesNext(cost: CostOf, parts: seq<seq<AgentEvent>>, i: nat)
    requires i < |parts|
    ensures Batches(cost, parts[..i + 1]) == Batches(cost, parts[..i]) + BySize(cost, MAX_BATCH_CHARS, parts[i])
  {
    assert parts[..i + 1][..i] == parts[..i];
  }

  lemma {:induction false} WrappedAppend(b: Buffered, turnId: TurnId, a: seq<seq<AgentEvent>>, more: seq<seq<AgentEvent>>)
    ensures Wrapped(b, turnId, a + more) == Wrapped(b, turnId, a) + Wrapped(b, turnId, more)
  {
  }

  lemma ClampsNext(events: seq<AgentEvent>, i: nat)
    requires i < |events|
    ensures Clamps(events[..i + 1]) == Clamps(events[..i]) + [Clamp(events[i])]
  {
  }

  lemma FlushEachNext(cost: CostOf, c: Collector, turnIds: seq<TurnId>, i: nat)
    requires i < |turnIds|
    ensures FlushEach(cost, c, turnIds[..i + 1]) == Flush(cost, FlushEach(cost, c, turnIds[..i]), turnIds[i])
  {
    assert turnIds[..i + 1][..i] == turnIds[..i];
  }

  class TurnEventCollector {
    /** The buffers, and the turns they are for in insertion order. */
    var buffers: map<TurnId, Buffered>
    var order: seq<TurnId>
    /** The turns whose flush timer is set. */
    var timers: set<TurnId>
    /** What was handed to `post`, in order. */
    var posts: seq<Post>
    const cost: CostOf

    ghost function State(): Collector
      reads this
    {
      Collector(order, buffers, timers, posts)
    }

    constructor (cost: CostOf)
      ensures State() == Idle && this.cost == cost
    {
      this.cost := cost;
      buffers, order, timers, posts := map[], [], {}, [];
    }

    method Prepare(events: seq<AgentEvent>) returns (prepared: seq<AgentEvent>)
      ensures prepared == Prepared(events)
    {
      hide Clamp, Coalesced;
      var merged := Coalesce(events);
      prepared := [];
      for i := 0 to |merged|
        invariant prepared == Clamps(merged[..i])
      {
        ClampsNext(merged, i);
        prepared := prepared + [Clamp(merged[i])];
      }
      assert merged[..|merged|] == merged;
    }

    /** Hands the batches of one part over, in order. */
    method PostEach(buffered: Buffered, turnId: TurnId, batches: seq<seq<AgentEvent>>)
      modifies this`posts
      ensures posts == old(posts) + Wrapped(buffered, turnId, batches)
    {
      hide Wrapped;
      EmptyWrap(cost, buffered, turnId);
      for j := 0 to |batches|
        invariant posts == old(posts) + Wrapped(buffered, turnId, batches[..j])
      {
        WrappedLast(buffered, turnId, batches[..j], batches[j]);
        assert batches[..j] + [batches[j]] == batches[..j + 1];
        posts := posts + [Post(buffered.sandboxId, buffered.conversationId, turnId, batches[j])];
      }
      assert batches[..|batches|] == batches;
    }

    /** Posts one turn's buffer as `Spec.Flush` does; nothing when it has none. */
    method Flush(turnId: TurnId)
      modifies this
      ensures State() == Spec.Flush(cost, old(State()), turnId)
    {
      hide Batches, Chunks, Prepared, BySize, Wrapped;
      if turnId !in buffers { return; }
      var buffered := buffers[turnId];
      timers := timers - {turnId};
      buffers := buffers - {turnId};
      order := Without(order, turnId);
      var prepared := Prepare(buffered.events);
      var parts := Chunk(prepared, MAX_EVENTS_PER_POST);
      ghost var before := State();
      EmptyWrap(cost, buffered, turnId);
      for i := 0 to |parts|
        invariant State() == before.(posts := before.posts + Wrapped(buffered, turnId, Batches(cost, parts[..i])))
      {
        var batches := ChunkBySize(cost, parts[i], MAX_BATCH_CHARS);
        BatchesNext(cost, parts, i);
        WrappedAppend(buffered, turnId, Batches(cost, parts[..i]), batches);
        PostEach(buffered, turnId, batches);
      }
      assert parts[..|parts|] == parts;
    }

    /** Flushes the `Siblings` of a turn one by one. */
    method FlushConversation(conversationId: ConversationId, except: TurnId)
      modifies this
      ensures State() == FlushEach(cost, old(State()), Siblings(old(State()), old(order), conversationId, except))
    {
      hide Spec.Flush, FlushEach, Siblings;
      var turnIds, snapshot := order, buffers;
      ghost var before := State();
      FlushEachNone(cost, before);
      SiblingsNone(before, conversationId, except);
      for i := 0 to |turnIds|
        invariant turnIds == before.order && snapshot == before.buffers
        invariant State() == FlushEach(cost, before, Siblings(before, turnIds[..i], conversationId, except))
      {
        var turnId := turnIds[i];
        SiblingsNext(before, turnIds, i, conversationId, except);
        ghost var done := Siblings(before, turnIds[..i], conversationId, except);
        if turnId != except && turnId in snapshot && snapshot[turnId].conversationId == conversationId {
          FlushEachNext(cost, before, done + [turnId], |done|);
          assert (done + [turnId])[..|done|] == done && (done + [turnId])[..|done| + 1] == done + [turnId];
          Flush(turnId);
        } else {
          assert done + [] == done;
        }
      }
      assert turnIds[..|turnIds|] == turnIds;
    }

    method FlushEachOf(turnIds: seq<TurnId>)
      modifies this
      ensures State() == FlushEach(cost, old(State()), turnIds)
    {
      hide Spec.Flush, FlushEach;
      FlushEachNone(cost, State());
      for i := 0 to |turnIds|
        invariant State() == FlushEach(cost, old(State()), turnIds[..i])
      {
        FlushEachNext(cost, old(State()), turnIds, i);
        Flush(turnIds[i]);
      }
      assert turnIds[..|turnIds|] == turnIds;
    }

    /** Buffer one event; a terminal event flushes its conversation at once. */
    method Add(sandboxId: SandboxId, conversationId: ConversationId, turnId: TurnId, event: AgentEvent)
      modifies this
      ensures State() == Spec.Add(cost, old(State()), sandboxId, conversationId, turnId, event)
    {
      hide Spec.Flush, FlushEach, Siblings;
      var buffered := if turnId in buffers then buffers[turnId] else Buffered(sandboxId, conversationId, []);
      buffered := buffered.(events := buffered.events + [event]);
      if turnId !in buffers { order := order + [turnId]; }
      buffers := buffers[turnId := buffered];
      if IsTerminal(event) {
        FlushConversation(conversationId, turnId);
        Flush(turnId);
        return;
      }
      if turnId !in timers { timers := timers + {turnId}; }
    }

    /** The flush timer of a turn fires. */
    method TimerFired(turnId: TurnId)
      modifies this
      ensures State() == Step(cost, old(State()), Fires(turnId))
    {
      hide Spec.Flush;
      if turnId in timers { Flush(turnId); }
    }

    method FlushAll()
      modifies this
      ensures State() == Step(cost, old(State()), FlushesAll)
    {
      FlushEachOf(order);
    }
  }

  lemma SiblingsNone(c: Collector, conversationId: ConversationId, except: TurnId)
    ensures Siblings(c, [], conversationId, except) == []
  {
  }

  lemma SiblingsNext(c: Collector, order: seq<TurnId>, i: nat, conversationId: ConversationId, except: TurnId)
    requires i < |order|
    ensures Siblings(c, order[..i + 1], conversationId, except)
            == Siblings(c, order[..i], conversationId, except)
               + if order[i] != except && order[i] in c.buffers && c.buffers[order[i]].conversationId == conversationId
                 then [order[i]] else []
  {
    assert order[..i + 1][..i] == order[..i];
  }

  lemma EmptyWrap(cost: CostOf, b: Buffered, turnId: TurnId)
    ensures Wrapped(b, turnId, []) == [] && Batches(cost, []) == []
  {
  }

  lemma WrappedLast(b: Buffered, turnId: TurnId, batches: seq<seq<AgentEvent>>, batch: seq<AgentEvent>)
    ensures Wrapped(b, turnId, batches + [batch])
            == Wrapped(b, turnId, batches) + [Post(b.sandboxId, b.conversationId, turnId, batch)]
  {
  }

  lemma FlushEachNone(cost: CostOf, c: Collector)
    ensures FlushEach(cost, c, []) == c
  {
  }
}
