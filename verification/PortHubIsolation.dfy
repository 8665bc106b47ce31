/** Sandboxes that share a hub cannot tell: over whole runs, what one sandbox's
    streams go through is what they would go through alone
    (apps/runner/src/port-hub.ts:206-350). */
module PortHubIsolation {
  import opened PortHub

  /** The sandbox whose streams a step is about. */
  predicate Concerns(h: Hub, op: Op, sandboxId: SandboxId) {
    match op
    case Opens(owner, _, _) => owner == sandboxId
    case Fires(id) => id in h.streams && h.streams[id].sandboxId == sandboxId
    case Handles(from, _, _) => from == sandboxId
    case Gone(id) => id in h.streams && h.streams[id].sandboxId == sandboxId
    case SocketClosed(owner, _) => owner == sandboxId
  }

  /** The steps of a run that concern one sandbox. */
  ghost function OpsOf(ops: seq<Op>, cap: nat, sandboxId: SandboxId): seq<Op> {
    if ops == [] then []
    else
      OpsOf(ops[..|ops| - 1], cap, sandboxId)
      + if Concerns(Run(ops[..|ops| - 1], cap), ops[|ops| - 1], sandboxId) then [ops[|ops| - 1]] else []
  }

  predicate OpensHere(op: Op, sandboxId: SandboxId) {
    op.Opens? && op.sandboxId == sandboxId
  }

  /** The streams a sandbox ever asked for. */
  function OpenedBy(ops: seq<Op>, sandboxId: SandboxId): set<StreamId> {
    if ops == [] then {}
    else
      OpenedBy(ops[..|ops| - 1], sandboxId)
      + if OpensHere(ops[|ops| - 1], sandboxId) then {ops[|ops| - 1].id} else {}
  }

  /** One stream is tracked, timed and settled alike in two hubs. */
  ghost predicate SameStream(h: Hub, t: Hub, id: StreamId) {
    && (id in h.streams <==> id in t.streams)
    && (id in h.streams ==> h.streams[id] == t.streams[id])
    && (id in h.timers <==> id in t.timers)
    && id in h.settled && id in t.settled && h.settled[id] == t.settled[id]
  }

  /** The shared hub `h` and the hub `t` of one sandbox alone, whose streams ever
      asked for are `mine`. */
  ghost predicate Alike(h: Hub, t: Hub, mine: set<StreamId>, sandboxId: SandboxId) {
    && CountFor(h, sandboxId) == CountFor(t, sandboxId)
    && (forall id :: id in mine ==> SameStream(h, t, id))
    && t.settled.Keys == mine
    && (forall id :: id in t.streams ==> id in mine)
    && (forall id :: id in h.streams ==> (id in mine <==> h.streams[id].sandboxId == sandboxId))
  }

  lemma DropAlike(h: Hub, t: Hub, mine: set<StreamId>, sandboxId: SandboxId, id: StreamId)
    requires Alike(h, t, mine, sandboxId)
    requires id in h.streams ==> h.streams[id].sandboxId == sandboxId
    requires id in t.streams ==> id in h.streams
    ensures Alike(Drop(h, id), Drop(t, id), mine, sandboxId)
  {
    if id in h.streams { assert SameStream(h, t, id); }
  }

  lemma SettleAlike(h: Hub, t: Hub, mine: set<StreamId>, sandboxId: SandboxId, id: StreamId, outcome: Outcome)
    requires Alike(h, t, mine, sandboxId) && id in mine
    ensures Alike(Settle(h, id, outcome), Settle(t, id, outcome), mine, sandboxId)
  {
    assert SameStream(h, t, id);
    assert Settle(t, id, outcome).settled.Keys == mine;
  }

  lemma OpenAlike(h: Hub, t: Hub, mine: set<StreamId>, sandboxId: SandboxId, id: StreamId, connected: bool, cap: nat)
    requires Alike(h, t, mine, sandboxId) && id !in h.settled && id !in t.settled && id !in h.streams && id !in h.timers && id !in t.timers
    ensures Alike(Open(h, sandboxId, id, connected, cap), Open(t, sandboxId, id, connected, cap), mine + {id}, sandboxId)
  {
    hide Drop;
    var h', t' := Track(h, id, sandboxId), Track(t, id, sandboxId);
    if CountFor(h, sandboxId) < cap {
      TrackAlike(h, t, mine, sandboxId, id);
      if !connected {
        DropAlike(h', t', mine + {id}, sandboxId, id);
        SettleAlike(Drop(h', id), Drop(t', id), mine + {id}, sandboxId, id, Rejected(NoSandbox));
      }
    } else {
      forall x | x in mine ensures SameStream(Settle(h, id, Rejected(Limit)), Settle(t, id, Rejected(Limit)), x) {
        assert SameStream(h, t, x);
      }
      assert Settle(t, id, Rejected(Limit)).settled.Keys == mine + {id};
    }
  }

  lemma TrackSame(h: Hub, t: Hub, sandboxId: SandboxId, id: StreamId, x: StreamId)
    requires SameStream(h, t, x) && x != id
    ensures SameStream(Track(h, id, sandboxId), Track(t, id, sandboxId), x)
  {
  }

  lemma TrackNew(h: Hub, t: Hub, sandboxId: SandboxId, id: StreamId)
    ensures SameStream(Track(h, id, sandboxId), Track(t, id, sandboxId), id)
  {
  }

  lemma TrackKeys(h: Hub, id: StreamId, sandboxId: SandboxId)
    ensures Track(h, id, sandboxId).settled.Keys == h.settled.Keys + {id}
    ensures Track(h, id, sandboxId).streams.Keys == h.streams.Keys + {id}
    ensures Track(h, id, sandboxId).streams[id].sandboxId == sandboxId
    ensures forall x :: x in h.streams && x != id ==> Track(h, id, sandboxId).streams[x] == h.streams[x]
  {
  }

  lemma TrackAlike(h: Hub, t: Hub, mine: set<StreamId>, sandboxId: SandboxId, id: StreamId)
    requires Alike(h, t, mine, sandboxId) && id !in h.settled && id !in t.settled
    ensures Alike(Track(h, id, sandboxId), Track(t, id, sandboxId), mine + {id}, sandboxId)
  {
    hide Track, SameStream, CountFor;
    TrackCount(h, id, sandboxId);
    TrackCount(t, id, sandboxId);
    TrackKeys(h, id, sandboxId);
    TrackKeys(t, id, sandboxId);
    TrackNew(h, t, sandboxId, id);
    forall x | x in mine + {id} ensures SameStream(Track(h, id, sandboxId), Track(t, id, sandboxId), x) {
      if x != id { TrackSame(h, t, sandboxId, id, x); }
    }
  }

  lemma TrackCount(h: Hub, id: StreamId, sandboxId: SandboxId)
    ensures CountFor(Track(h, id, sandboxId), sandboxId) == CountFor(h, sandboxId) + 1
  {
  }

  /** A stream's open is refused, in both hubs. */
  lemma RefuseAlike(h: Hub, t: Hub, mine: set<StreamId>, sandboxId: SandboxId, id: StreamId, code: ErrorCode)
    requires Alike(h, t, mine, sandboxId) && id in mine && id in h.streams && id in t.streams && h.streams[id].sandboxId == sandboxId
    ensures Alike(Settle(Drop(h, id), id, Rejected(code)), Settle(Drop(t, id), id, Rejected(code)), mine, sandboxId)
  {
    hide Alike, Drop, Settle;
    DropAlike(h, t, mine, sandboxId, id);
    SettleAlike(Drop(h, id), Drop(t, id), mine, sandboxId, id, Rejected(code));
  }

  lemma ResolveAlike(h: Hub, t: Hub, mine: set<StreamId>, sandboxId: SandboxId, id: StreamId, s: HubStream)
    requires Alike(h, t, mine, sandboxId) && id in mine && id in h.streams && s.sandboxId == sandboxId
    ensures Alike(Settle(Marked(h, id, s, true), id, Resolved), Settle(Marked(t, id, s, true), id, Resolved), mine, sandboxId)
  {
    hide Alike, Marked, Settle;
    MarkAlike(h, t, mine, sandboxId, id, s, true);
    SettleAlike(Marked(h, id, s, true), Marked(t, id, s, true), mine, sandboxId, id, Resolved);
  }

  /** A frame for a stream both hubs track alike. */
  lemma OwnedAlike(h: Hub, t: Hub, mine: set<StreamId>, sandboxId: SandboxId, id: StreamId, message: PortMessage)
    requires Alike(h, t, mine, sandboxId) && id in mine && id in h.streams && id in t.streams
    requires h.streams[id] == t.streams[id] && h.streams[id].sandboxId == sandboxId
    ensures Alike(Handle(h, sandboxId, id, message), Handle(t, sandboxId, id, message), mine, sandboxId)
  {
    hide Alike, Drop, Settle;
    var s := h.streams[id];
    match message
    case Opened => ResolveAlike(h, t, mine, sandboxId, id, s.(isOpen := true, pending := false));
    case Error(code) => RefuseAlike(h, t, mine, sandboxId, id, code);
    case Data(_) => DropAlike(h, t, mine, sandboxId, id);
    case Ack =>
    case CloseEnd =>
      RefuseAlike(h, t, mine, sandboxId, id, Failed);
      MarkAlike(h, t, mine, sandboxId, id, s.(ended := true), false);
    case CloseAbort =>
      RefuseAlike(h, t, mine, sandboxId, id, Failed);
      DropAlike(h, t, mine, sandboxId, id);
  }

  lemma HandleAlike(h: Hub, t: Hub, mine: set<StreamId>, sandboxId: SandboxId, id: StreamId, message: PortMessage)
    requires Alike(h, t, mine, sandboxId)
    ensures Alike(Handle(h, sandboxId, id, message), Handle(t, sandboxId, id, message), mine, sandboxId)
  {
    hide Drop, Settle;
    if id in h.streams && h.streams[id].sandboxId == sandboxId {
      OwnedBoth(h, t, mine, sandboxId, id);
      OwnedAlike(h, t, mine, sandboxId, id, message);
    } else {
      NotTracked(h, t, mine, sandboxId, id);
    }
  }

  lemma OwnedBoth(h: Hub, t: Hub, mine: set<StreamId>, sandboxId: SandboxId, id: StreamId)
    requires Alike(h, t, mine, sandboxId) && id in h.streams && h.streams[id].sandboxId == sandboxId
    ensures id in mine && id in t.streams && h.streams[id] == t.streams[id]
  {
    assert SameStream(h, t, id);
  }

  lemma NotTracked(h: Hub, t: Hub, mine: set<StreamId>, sandboxId: SandboxId, id: StreamId)
    requires Alike(h, t, mine, sandboxId) && (id in h.streams ==> h.streams[id].sandboxId != sandboxId)
    ensures id !in t.streams
  {
    assert id in mine ==> SameStream(h, t, id);
  }

  /** A tracked stream's flags change, its timer going with them or not. */
  function Marked(h: Hub, id: StreamId, s: HubStream, untimed: bool): Hub {
    h.(streams := h.streams[id := s], timers := if untimed then h.timers - {id} else h.timers)
  }

  lemma MarkAlike(h: Hub, t: Hub, mine: set<StreamId>, sandboxId: SandboxId, id: StreamId, s: HubStream, untimed: bool)
    requires Alike(h, t, mine, sandboxId) && id in h.streams && id in mine && s.sandboxId == sandboxId
    ensures Alike(Marked(h, id, s, untimed), Marked(t, id, s, untimed), mine, sandboxId)
  {
    assert SameStream(h, t, id);
    forall x | x in mine ensures SameStream(Marked(h, id, s, untimed), Marked(t, id, s, untimed), x) { assert SameStream(h, t, x); }
  }

  lemma LostAlike(h: Hub, t: Hub, mine: set<StreamId>, sandboxId: SandboxId, id: StreamId)
    requires Alike(h, t, mine, sandboxId) && (id in h.streams ==> h.streams[id].sandboxId == sandboxId)
    ensures Alike(Lost(h, id), Lost(t, id), mine, sandboxId)
  {
    if id in h.streams {
      assert SameStream(h, t, id);
    } else {
      NotTracked(h, t, mine, sandboxId, id);
    }
    hide Alike, Drop, Settle;
    DropAlike(h, t, mine, sandboxId, id);
    if id in h.streams { SettleAlike(Drop(h, id), Drop(t, id), mine, sandboxId, id, Rejected(NoSandbox)); }
  }

  lemma LostOwners(h: Hub, id: StreamId)
    ensures forall x :: x in Lost(h, id).streams ==> x in h.streams && Lost(h, id).streams[x] == h.streams[x]
  {
  }

  lemma {:induction false} LostAllAlike(h: Hub, t: Hub, mine: set<StreamId>, sandboxId: SandboxId, order: seq<StreamId>)
    requires Alike(h, t, mine, sandboxId)
    requires forall id :: id in order && id in h.streams ==> h.streams[id].sandboxId == sandboxId
    ensures Alike(LostAll(h, order), LostAll(t, order), mine, sandboxId)
    decreases |order|
  {
    hide Alike, Lost;
    if order != [] {
      LostAlike(h, t, mine, sandboxId, order[0]);
      LostOwners(h, order[0]);
      LostAllAlike(Lost(h, order[0]), Lost(t, order[0]), mine, sandboxId, order[1..]);
    }
  }

  // Steps of other sandboxes.

  /** What a step of another sandbox leaves of this one. */
  ghost predicate Undisturbed(h: Hub, g: Hub, mine: set<StreamId>, sandboxId: SandboxId) {
    && CountFor(g, sandboxId) == CountFor(h, sandboxId)
    && (forall id :: id in mine && id in h.settled ==> SameStream(h, g, id))
    && (forall id :: id in g.streams && id !in h.streams ==> id !in mine && g.streams[id].sandboxId != sandboxId)
    && (forall id :: id in g.streams && id in h.streams ==> g.streams[id].sandboxId == h.streams[id].sandboxId)
  }

  lemma UndisturbedAlike(h: Hub, g: Hub, t: Hub, mine: set<StreamId>, sandboxId: SandboxId)
    requires Alike(h, t, mine, sandboxId) && Undisturbed(h, g, mine, sandboxId)
    ensures Alike(g, t, mine, sandboxId)
  {
    forall id | id in mine ensures SameStream(g, t, id) {
      assert SameStream(h, t, id);
      assert SameStream(h, g, id);
    }
  }

  lemma DropUndisturbed(h: Hub, mine: set<StreamId>, sandboxId: SandboxId, id: StreamId)
    requires id !in mine && (id in h.streams ==> h.streams[id].sandboxId != sandboxId)
    ensures Undisturbed(h, Drop(h, id), mine, sandboxId)
    ensures forall x :: x in Drop(h, id).streams ==> x in h.streams
  {
  }

  lemma SettleUndisturbed(h: Hub, g: Hub, mine: set<StreamId>, sandboxId: SandboxId, id: StreamId, outcome: Outcome)
    requires Undisturbed(h, g, mine, sandboxId) && id !in mine
    ensures Undisturbed(h, Settle(g, id, outcome), mine, sandboxId)
  {
    forall x | x in mine && x in h.settled ensures SameStream(h, Settle(g, id, outcome), x) { assert SameStream(h, g, x); }
  }

  lemma SelfUndisturbed(h: Hub, mine: set<StreamId>, sandboxId: SandboxId)
    ensures Undisturbed(h, h, mine, sandboxId)
  {
  }

  lemma OpenUndisturbed(h: Hub, mine: set<StreamId>, sandboxId: SandboxId, owner: SandboxId, id: StreamId, connected: bool, cap: nat)
    requires owner != sandboxId && id !in mine && id !in h.settled && id !in h.streams
    ensures Undisturbed(h, Open(h, owner, id, connected, cap), mine, sandboxId)
  {
    hide Drop;
    SelfUndisturbed(h, mine, sandboxId);
    SettleUndisturbed(h, h, mine, sandboxId, id, Rejected(Limit));
    var t := Track(h, id, owner);
    assert Undisturbed(h, t, mine, sandboxId);
    DropUndisturbed(t, mine, sandboxId, id);
    UndisturbedTwice(h, t, Drop(t, id), mine, sandboxId);
    SettleUndisturbed(h, Drop(t, id), mine, sandboxId, id, Rejected(NoSandbox));
  }

  lemma UndisturbedTwice(h: Hub, g: Hub, f: Hub, mine: set<StreamId>, sandboxId: SandboxId)
    requires Undisturbed(h, g, mine, sandboxId) && Undisturbed(g, f, mine, sandboxId)
    requires forall id :: id in f.streams ==> id in g.streams
    ensures Undisturbed(h, f, mine, sandboxId)
  {
    forall id | id in mine && id in h.settled ensures SameStream(h, f, id) {
      assert SameStream(h, g, id);
      assert SameStream(g, f, id);
    }
  }

  lemma HandleUndisturbed(h: Hub, mine: set<StreamId>, sandboxId: SandboxId, from: SandboxId, id: StreamId, message: PortMessage)
    requires from != sandboxId && (id in h.streams && h.streams[id].sandboxId == from ==> id !in mine)
    ensures Undisturbed(h, Handle(h, from, id, message), mine, sandboxId)
  {
    SelfUndisturbed(h, mine, sandboxId);
    if id in h.streams && h.streams[id].sandboxId == from {
      hide Drop;
      DropUndisturbed(h, mine, sandboxId, id);
      SettleUndisturbed(h, Drop(h, id), mine, sandboxId, id, Rejected(Failed));
      if message.Error? { SettleUndisturbed(h, Drop(h, id), mine, sandboxId, id, Rejected(message.code)); }
    }
  }

  lemma LostUndisturbed(h: Hub, mine: set<StreamId>, sandboxId: SandboxId, id: StreamId)
    requires id !in mine && (id in h.streams ==> h.streams[id].sandboxId != sandboxId)
    ensures Undisturbed(h, Lost(h, id), mine, sandboxId)
  {
    hide Drop;
    DropUndisturbed(h, mine, sandboxId, id);
    SettleUndisturbed(h, Drop(h, id), mine, sandboxId, id, Rejected(NoSandbox));
  }

  lemma {:induction false} LostAllUndisturbed(h: Hub, t: Hub, mine: set<StreamId>, sandboxId: SandboxId, order: seq<StreamId>)
    requires Alike(h, t, mine, sandboxId)
    requires forall id :: id in order ==> id !in mine && (id in h.streams ==> h.streams[id].sandboxId != sandboxId)
    ensures Alike(LostAll(h, order), t, mine, sandboxId)
    decreases |order|
  {
    hide Alike, Lost;
    if order != [] {
      LostUndisturbed(h, mine, sandboxId, order[0]);
      UndisturbedAlike(h, Lost(h, order[0]), t, mine, sandboxId);
      LostOwners(h, order[0]);
      LostAllUndisturbed(Lost(h, order[0]), t, mine, sandboxId, order[1..]);
    }
  }

  // ---------------------------------------------------------------- runs

  /** A stream was asked for before it is tracked or timed. */
  lemma TrackedIsKnown(ops: seq<Op>, cap: nat)
    requires Possible(ops, cap)
    ensures forall id :: id in Run(ops, cap).streams || id in Run(ops, cap).timers ==> id in Run(ops, cap).settled
  {
    hide Run, Possible;
    RunKeeps(ops, cap);
  }

  lemma SameAt(h: Hub, t: Hub, mine: set<StreamId>, sandboxId: SandboxId, id: StreamId)
    requires Alike(h, t, mine, sandboxId) && id in mine
    ensures SameStream(h, t, id)
  {
  }

  lemma AloneKnows(h: Hub, t: Hub, mine: set<StreamId>, sandboxId: SandboxId)
    requires Alike(h, t, mine, sandboxId)
    ensures t.settled.Keys == mine
  {
  }

  lemma StepAlike(h: Hub, t: Hub, mine: set<StreamId>, sandboxId: SandboxId, op: Op, cap: nat)
    requires Alike(h, t, mine, sandboxId) && Legal(h, op) && Concerns(h, op, sandboxId)
    requires forall id :: id in h.streams || id in h.timers ==> id in h.settled
    requires forall id :: id in t.timers ==> id in t.settled
    requires mine <= h.settled.Keys
    ensures Legal(t, op)
    ensures Alike(Step(h, op, cap), Step(t, op, cap), mine + (if op.Opens? then {op.id} else {}), sandboxId)
  {
    hide Alike, Drop, Settle, Open, Handle, LostAll, Owned;
    AloneKnows(h, t, mine, sandboxId);
    assert mine + {} == mine;
    match op
    case Opens(_, id, connected) => OpenAlike(h, t, mine, sandboxId, id, connected, cap);
    case Fires(id) =>
      OwnedBoth(h, t, mine, sandboxId, id);
      SameAt(h, t, mine, sandboxId, id);
      DropAlike(h, t, mine, sandboxId, id);
      SettleAlike(Drop(h, id), Drop(t, id), mine, sandboxId, id, Rejected(Timeout));
    case Handles(_, id, message) => HandleAlike(h, t, mine, sandboxId, id, message);
    case Gone(id) =>
      OwnedBoth(h, t, mine, sandboxId, id);
      DropAlike(h, t, mine, sandboxId, id);
    case SocketClosed(_, order) =>
      SameOwned(h, t, mine, sandboxId);
      OwnedOnly(h, sandboxId);
      LostAllAlike(h, t, mine, sandboxId, order);
  }

  lemma OwnedOnly(h: Hub, sandboxId: SandboxId)
    ensures forall id :: id in Owned(h.streams, sandboxId) <==> id in h.streams && h.streams[id].sandboxId == sandboxId
  {
  }

  lemma SameOwned(h: Hub, t: Hub, mine: set<StreamId>, sandboxId: SandboxId)
    requires Alike(h, t, mine, sandboxId)
    ensures Owned(h.streams, sandboxId) == Owned(t.streams, sandboxId)
  {
    forall id | id in mine ensures id in Owned(h.streams, sandboxId) <==> id in Owned(t.streams, sandboxId) {
      assert SameStream(h, t, id);
    }
  }

  lemma StepElsewhere(h: Hub, t: Hub, mine: set<StreamId>, sandboxId: SandboxId, op: Op, cap: nat)
    requires Alike(h, t, mine, sandboxId) && Legal(h, op) && !Concerns(h, op, sandboxId)
    requires forall id :: id in h.streams || id in h.timers ==> id in h.settled
    requires forall id :: id in h.timers ==> id in h.streams
    requires mine <= h.settled.Keys
    ensures Alike(Step(h, op, cap), t, mine, sandboxId)
  {
    match op
    case Opens(owner, id, connected) =>
      OpenUndisturbed(h, mine, sandboxId, owner, id, connected, cap);
      UndisturbedAlike(h, Step(h, op, cap), t, mine, sandboxId);
    case Fires(id) =>
      DropUndisturbed(h, mine, sandboxId, id);
      SettleUndisturbed(h, Drop(h, id), mine, sandboxId, id, Rejected(Timeout));
      UndisturbedAlike(h, Step(h, op, cap), t, mine, sandboxId);
    case Handles(from, id, message) =>
      HandleUndisturbed(h, mine, sandboxId, from, id, message);
      UndisturbedAlike(h, Step(h, op, cap), t, mine, sandboxId);
    case Gone(id) =>
      if id in h.streams {
        DropUndisturbed(h, mine, sandboxId, id);
        UndisturbedAlike(h, Step(h, op, cap), t, mine, sandboxId);
      }
    case SocketClosed(_, order) => LostAllUndisturbed(h, t, mine, sandboxId, order);
  }

  lemma {:induction false} KnownOpened(ops: seq<Op>, cap: nat, sandboxId: SandboxId)
    requires Possible(ops, cap)
    ensures OpenedBy(ops, sandboxId) <= Run(ops, cap).settled.Keys
  {
    hide Legal;
    if ops != [] {
      KnownOpened(ops[..|ops| - 1], cap, sandboxId);
      StepKnows(Run(ops[..|ops| - 1], cap), ops[|ops| - 1], cap);
    }
  }

  lemma StepKnows(h: Hub, op: Op, cap: nat)
    ensures h.settled.Keys <= Step(h, op, cap).settled.Keys
    ensures op.Opens? ==> op.id in Step(h, op, cap).settled
  {
    if op.SocketClosed? { LostAllKnows(h, op.order); }
  }

  lemma {:induction false} LostAllKnows(h: Hub, order: seq<StreamId>)
    ensures h.settled.Keys <= LostAll(h, order).settled.Keys
    decreases |order|
  {
    if order != [] { LostAllKnows(Lost(h, order[0]), order[1..]); }
  }

  /** Over every run of the hub, with any steps of any other sandboxes between
      them: the steps that concern one sandbox make a run of their own, after which
      its count and every stream it ever asked for, tracked, timed or settled, are
      exactly as in the shared hub. */
  lemma {:induction false} SandboxesApart(ops: seq<Op>, cap: nat, sandboxId: SandboxId)
    requires Possible(ops, cap)
    ensures Possible(OpsOf(ops, cap, sandboxId), cap)
    ensures Alike(Run(ops, cap), Run(OpsOf(ops, cap, sandboxId), cap), OpenedBy(ops, sandboxId), sandboxId)
  {
    hide Alike, Step, Legal, Run, Possible, Concerns;
    if ops == [] {
      RunNothing(cap);
      NothingAlike(sandboxId);
    } else {
      var init, op := ops[..|ops| - 1], ops[|ops| - 1];
      RunOneMore(init, op, cap);
      assert init + [op] == ops;
      SandboxesApart(init, cap, sandboxId);
      ApartNext(init, op, cap, sandboxId);
      if !Concerns(Run(init, cap), op, sandboxId) { assert OpsOf(init, cap, sandboxId) + [] == OpsOf(init, cap, sandboxId); }
    }
  }

  lemma RunNothing(cap: nat)
    ensures Possible([], cap) && Run([], cap) == Empty
  {
  }

  lemma RunOneMore(init: seq<Op>, op: Op, cap: nat)
    ensures Possible(init + [op], cap) <==> Possible(init, cap) && Legal(Run(init, cap), op)
    ensures Run(init + [op], cap) == Step(Run(init, cap), op, cap)
  {
    hide Legal, Step;
    assert (init + [op])[..|init|] == init;
  }

  /** One more step of the shared run, and of the sandbox's own if it concerns it. */
  lemma ApartNext(init: seq<Op>, op: Op, cap: nat, sandboxId: SandboxId)
    requires Possible(init, cap) && Legal(Run(init, cap), op) && Possible(OpsOf(init, cap, sandboxId), cap)
    requires Alike(Run(init, cap), Run(OpsOf(init, cap, sandboxId), cap), OpenedBy(init, sandboxId), sandboxId)
    ensures var alone, mine := OpsOf(init, cap, sandboxId), OpenedBy(init, sandboxId);
            var next := if Concerns(Run(init, cap), op, sandboxId) then alone + [op] else alone;
            && Possible(next, cap)
            && Alike(Step(Run(init, cap), op, cap), Run(next, cap), mine + (if OpensHere(op, sandboxId) then {op.id} else {}), sandboxId)
  {
    hide Alike, Step, Legal, Run, Possible, OpsOf, OpenedBy, Concerns;
    var h, alone := Run(init, cap), OpsOf(init, cap, sandboxId);
    var t, mine := Run(alone, cap), OpenedBy(init, sandboxId);
    TrackedIsKnown(init, cap);
    TrackedIsKnown(alone, cap);
    KnownOpened(init, cap, sandboxId);
    TimedIsTracked(init, cap);
    OpensConcern(h, op, sandboxId);
    if Concerns(h, op, sandboxId) {
      StepAlike(h, t, mine, sandboxId, op, cap);
      RunOneMore(alone, op, cap);
    } else {
      StepElsewhere(h, t, mine, sandboxId, op, cap);
      assert mine + {} == mine;
    }
  }

  lemma OpensConcern(h: Hub, op: Op, sandboxId: SandboxId)
    ensures op.Opens? ==> (OpensHere(op, sandboxId) <==> Concerns(h, op, sandboxId))
  {
  }

  lemma TimedIsTracked(ops: seq<Op>, cap: nat)
    requires Possible(ops, cap)
    ensures forall id :: id in Run(ops, cap).timers ==> id in Run(ops, cap).streams
  {
    hide Run, Possible;
    RunKeeps(ops, cap);
  }

  lemma NothingAlike(sandboxId: SandboxId)
    ensures Alike(Empty, Empty, {}, sandboxId)
  {
  }
}
