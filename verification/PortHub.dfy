/** The hub that multiplexes port streams per sandbox
    (`createPortHub`, apps/runner/src/port-hub.ts:206-356): which streams are
    tracked, the per-sandbox counts, the open timers, and how each `open` settled. */
module PortHub {

  type SandboxId = string
  type StreamId = string

  /** `pending` while the caller's promise is unsettled; `ended` once the guest closed. */
  datatype HubStream = HubStream(sandboxId: SandboxId, isOpen: bool, pending: bool, ended: bool)

  datatype ErrorCode = NotAllowed | NotListening | Limit | Duplicate | Failed | NoSandbox | Timeout

  datatype Outcome = Resolved | Rejected(code: ErrorCode)

  /** `settled` records, for every `open` made, the settlements of its promise. */
  datatype Hub = Hub(
    streams: map<StreamId, HubStream>,
    perSandbox: map<SandboxId, nat>,
    timers: set<StreamId>,
    settled: map<StreamId, seq<Outcome>>)

  const Empty := Hub(map[], map[], {}, map[])

  /** `Data` tells whether the stream cut itself off on these bytes. */
  datatype PortMessage = Opened | Data(cut: bool) | Ack | CloseEnd | CloseAbort | Error(code: ErrorCode)

  // ---------------------------------------------------------------- steps

  function CountFor(h: Hub, sandboxId: SandboxId): nat {
    if sandboxId in h.perSandbox then h.perSandbox[sandboxId] else 0
  }

  function Settle(h: Hub, id: StreamId, outcome: Outcome): Hub {
    h.(settled := h.settled[id := (if id in h.settled then h.settled[id] else []) + [outcome]])
  }

  function Track(h: Hub, id: StreamId, sandboxId: SandboxId): Hub {
    h.(streams := h.streams[id := HubStream(sandboxId, false, true, false)],
       perSandbox := h.perSandbox[sandboxId := CountFor(h, sandboxId) + 1],
       timers := h.timers + {id},
       settled := h.settled[id := []])
  }

  function Less(counts: map<SandboxId, nat>, sandboxId: SandboxId): map<SandboxId, nat> {
    var held := if sandboxId in counts then counts[sandboxId] else 0;
    if held > 1 then counts[sandboxId := held - 1] else counts - {sandboxId}
  }

  function Drop(h: Hub, id: StreamId): Hub {
    if id !in h.streams then h
    else
      h.(streams := h.streams - {id},
         perSandbox := Less(h.perSandbox, h.streams[id].sandboxId),
         timers := if h.streams[id].pending then h.timers - {id} else h.timers)
  }

  function Open(h: Hub, sandboxId: SandboxId, id: StreamId, connected: bool, cap: nat): Hub {
    if CountFor(h, sandboxId) >= cap then Settle(h, id, Rejected(Limit))
    else
      var t := Track(h, id, sandboxId);
      if connected then t else Settle(Drop(t, id), id, Rejected(NoSandbox))
  }

  function TimerFires(h: Hub, id: StreamId): Hub {
    Settle(Drop(h, id), id, Rejected(Timeout))
  }

  function Handle(h: Hub, sandboxId: SandboxId, id: StreamId, message: PortMessage): Hub {
    if id !in h.streams || h.streams[id].sandboxId != sandboxId then h
    else
      var s := h.streams[id];
      match message
      case Opened =>
        if s.isOpen || !s.pending then h
        else Settle(h.(streams := h.streams[id := s.(isOpen := true, pending := false)], timers := h.timers - {id}), id, Resolved)
      case Error(code) =>
        if s.isOpen || !s.pending then h else Settle(Drop(h, id), id, Rejected(code))
      case Data(cut) => if s.isOpen && cut then Drop(h, id) else h
      case Ack => h
      case CloseEnd =>
        if s.isOpen then h.(streams := h.streams[id := s.(ended := true)])
        else if s.pending then Settle(Drop(h, id), id, Rejected(Failed))
        else h
      case CloseAbort =>
        if s.isOpen then Drop(h, id)
        else if s.pending then Settle(Drop(h, id), id, Rejected(Failed))
        else h
  }

  /** The streams a sandbox owns. */
  function Owned(streams: map<StreamId, HubStream>, sandboxId: SandboxId): set<StreamId> {
    set id | id in streams && streams[id].sandboxId == sandboxId
  }

  /** One stream of a sandbox whose socket closed. */
  function Lost(h: Hub, id: StreamId): Hub {
    if id in h.streams && h.streams[id].pending then Settle(Drop(h, id), id, Rejected(NoSandbox)) else Drop(h, id)
  }

  /** The sandbox's streams lost one after another, in this order. */
  function LostAll(h: Hub, ids: seq<StreamId>): Hub
    decreases |ids|
  {
    if ids == [] then h else LostAll(Lost(h, ids[0]), ids[1..])
  }

  /** The steps of the hub. `order` is the order in which the hub walks a closed
      sandbox's streams; `Gone` is a held duplex its consumer destroyed. */
  datatype Op =
    | Opens(sandboxId: SandboxId, id: StreamId, connected: bool)
    | Fires(id: StreamId)
    | Handles(sandboxId: SandboxId, id: StreamId, message: PortMessage)
    | Gone(id: StreamId)
    | SocketClosed(sandboxId: SandboxId, order: seq<StreamId>)

  /** Stream ids are random and new; a timer fires only while armed; only a
      stream that was handed out can be destroyed by its consumer. */
  ghost predicate Legal(h: Hub, op: Op) {
    match op
    case Opens(_, id, _) => id !in h.settled
    case Fires(id) => id in h.timers
    case Handles(_, _, _) => true
    case Gone(id) => id in h.streams ==> h.streams[id].isOpen
    case SocketClosed(sandboxId, order) => forall id :: id in order <==> id in Owned(h.streams, sandboxId)
  }

  function Step(h: Hub, op: Op, cap: nat): Hub {
    match op
    case Opens(sandboxId, id, connected) => Open(h, sandboxId, id, connected, cap)
    case Fires(id) => TimerFires(h, id)
    case Handles(sandboxId, id, message) => Handle(h, sandboxId, id, message)
    case Gone(id) => Drop(h, id)
    case SocketClosed(_, order) => LostAll(h, order)
  }

  ghost predicate Possible(ops: seq<Op>, cap: nat)
    decreases |ops|, 0
  {
    ops == [] || (Possible(ops[..|ops| - 1], cap) && Legal(Run(ops[..|ops| - 1], cap), ops[|ops| - 1]))
  }

  ghost function Run(ops: seq<Op>, cap: nat): Hub
    decreases |ops|, 1
  {
    if ops == [] then Empty else Step(Run(ops[..|ops| - 1], cap), ops[|ops| - 1], cap)
  }

  // ---------------------------------------------------------------- invariants

  /** The counts are exact, absent meaning zero, and within the cap. */
  ghost predicate Counted(h: Hub, cap: nat) {
    forall sandboxId ::
      && CountFor(h, sandboxId) == |Owned(h.streams, sandboxId)| <= cap
      && (sandboxId in h.perSandbox ==> h.perSandbox[sandboxId] > 0)
  }

  /** A tracked stream is either opened or pending; its timer is armed exactly
      while it is pending; its promise resolved exactly if it is opened; and the
      promise of every other `open` has settled exactly once. */
  ghost predicate Settles(h: Hub) {
    && (forall id :: id in h.streams ==> h.streams[id].isOpen != h.streams[id].pending)
    && (forall id :: id in h.timers <==> id in h.streams && h.streams[id].pending)
    && h.streams.Keys <= h.settled.Keys
    && (forall id :: id in h.settled && id in h.streams ==>
                       h.settled[id] == if h.streams[id].isOpen then [Resolved] else [])
    && (forall id :: id in h.settled && id !in h.streams ==> |h.settled[id]| == 1)
  }

  lemma OwnedWith(streams: map<StreamId, HubStream>, id: StreamId, s: HubStream, sandboxId: SandboxId)
    requires id !in streams
    ensures Owned(streams[id := s], sandboxId) == Owned(streams, sandboxId) + if s.sandboxId == sandboxId then {id} else {}
    ensures |Owned(streams[id := s], sandboxId)| == |Owned(streams, sandboxId)| + if s.sandboxId == sandboxId then 1 else 0
  {
    assert id !in Owned(streams, sandboxId);
  }

  lemma OwnedWithout(streams: map<StreamId, HubStream>, id: StreamId, sandboxId: SandboxId)
    requires id in streams
    ensures |Owned(streams - {id}, sandboxId)| == |Owned(streams, sandboxId)| - if streams[id].sandboxId == sandboxId then 1 else 0
    ensures streams[id].sandboxId == sandboxId ==> |Owned(streams, sandboxId)| > 0
  {
    assert streams == (streams - {id})[id := streams[id]];
    OwnedWith(streams - {id}, id, streams[id], sandboxId);
  }

  lemma OwnedChanged(streams: map<StreamId, HubStream>, id: StreamId, s: HubStream, sandboxId: SandboxId)
    requires id in streams && s.sandboxId == streams[id].sandboxId
    ensures Owned(streams[id := s], sandboxId) == Owned(streams, sandboxId)
  {
  }

  lemma DropCounts(h: Hub, id: StreamId, cap: nat)
    requires Counted(h, cap)
    ensures Counted(Drop(h, id), cap)
  {
    if id in h.streams {
      var owner := h.streams[id].sandboxId;
      forall sandboxId ensures var d := Drop(h, id);
                               && CountFor(d, sandboxId) == |Owned(d.streams, sandboxId)| <= cap
                               && (sandboxId in d.perSandbox ==> d.perSandbox[sandboxId] > 0)
      {
        assert CountFor(h, sandboxId) == |Owned(h.streams, sandboxId)|;
        assert CountFor(h, owner) == |Owned(h.streams, owner)|;
        OwnedWithout(h.streams, id, sandboxId);
        OwnedWithout(h.streams, id, owner);
      }
    }
  }

  lemma SettleCounts(h: Hub, id: StreamId, outcome: Outcome, cap: nat)
    requires Counted(h, cap)
    ensures Counted(Settle(h, id, outcome), cap)
  {
    forall sandboxId ensures CountFor(Settle(h, id, outcome), sandboxId) == CountFor(h, sandboxId) {}
  }

  lemma OpenCounts(h: Hub, sandboxId: SandboxId, id: StreamId, connected: bool, cap: nat)
    requires Counted(h, cap) && id !in h.streams
    ensures Counted(Open(h, sandboxId, id, connected, cap), cap)
  {
    if CountFor(h, sandboxId) >= cap {
      SettleCounts(h, id, Rejected(Limit), cap);
    } else {
      var t := Track(h, id, sandboxId);
      forall who ensures && CountFor(t, who) == |Owned(t.streams, who)| <= cap
                         && (who in t.perSandbox ==> t.perSandbox[who] > 0)
      {
        assert CountFor(h, who) == |Owned(h.streams, who)|;
        OwnedWith(h.streams, id, HubStream(sandboxId, false, true, false), who);
      }
      if !connected {
        DropCounts(t, id, cap);
        SettleCounts(Drop(t, id), id, Rejected(NoSandbox), cap);
      }
    }
  }

  lemma ChangeCounts(h: Hub, id: StreamId, s: HubStream, timers: set<StreamId>, cap: nat)
    requires Counted(h, cap) && id in h.streams && s.sandboxId == h.streams[id].sandboxId
    ensures Counted(h.(streams := h.streams[id := s], timers := timers), cap)
  {
    var t := h.(streams := h.streams[id := s], timers := timers);
    forall who ensures CountFor(t, who) == CountFor(h, who) && Owned(t.streams, who) == Owned(h.streams, who) {
      OwnedChanged(h.streams, id, s, who);
    }
  }

  lemma HandleCounts(h: Hub, sandboxId: SandboxId, id: StreamId, message: PortMessage, cap: nat)
    requires Counted(h, cap)
    ensures Counted(Handle(h, sandboxId, id, message), cap)
  {
    hide Counted, Drop, Settle;
    DropCounts(h, id, cap);
    if id in h.streams {
      var s := h.streams[id];
      match message
      case Opened =>
        ChangeCounts(h, id, s.(isOpen := true, pending := false), h.timers - {id}, cap);
        SettleCounts(h.(streams := h.streams[id := s.(isOpen := true, pending := false)], timers := h.timers - {id}), id, Resolved, cap);
      case Error(code) => SettleCounts(Drop(h, id), id, Rejected(code), cap);
      case CloseEnd =>
        ChangeCounts(h, id, s.(ended := true), h.timers, cap);
        SettleCounts(Drop(h, id), id, Rejected(Failed), cap);
      case CloseAbort => SettleCounts(Drop(h, id), id, Rejected(Failed), cap);
      case _ =>
    }
  }

  lemma LostKeeps(h: Hub, id: StreamId, cap: nat)
    requires Counted(h, cap) && Settles(h)
    ensures Counted(Lost(h, id), cap) && Settles(Lost(h, id))
  {
    DropCounts(h, id, cap);
    SettleCounts(Drop(h, id), id, Rejected(NoSandbox), cap);
  }

  lemma {:induction false} LostAllKeeps(h: Hub, ids: seq<StreamId>, cap: nat)
    requires Counted(h, cap) && Settles(h)
    ensures Counted(LostAll(h, ids), cap) && Settles(LostAll(h, ids))
    decreases |ids|
  {
    hide Counted, Settles, Lost;
    if ids != [] {
      LostKeeps(h, ids[0], cap);
      LostAllKeeps(Lost(h, ids[0]), ids[1..], cap);
    }
  }

  lemma StepCounts(h: Hub, op: Op, cap: nat)
    requires Counted(h, cap) && Settles(h) && Legal(h, op)
    ensures Counted(Step(h, op, cap), cap)
  {
    assert op.Opens? ==> op.id !in h.streams;
    hide Counted, Settles, Open, Handle, Drop, Settle, LostAll;
    match op
    case Opens(sandboxId, id, connected) => OpenCounts(h, sandboxId, id, connected, cap);
    case Fires(id) =>
      DropCounts(h, id, cap);
      SettleCounts(Drop(h, id), id, Rejected(Timeout), cap);
    case Handles(sandboxId, id, message) => HandleCounts(h, sandboxId, id, message, cap);
    case Gone(id) => DropCounts(h, id, cap);
    case SocketClosed(_, order) => LostAllKeeps(h, order, cap);
  }

  lemma RefusedSettles(h: Hub, id: StreamId, code: ErrorCode)
    requires Settles(h) && id in h.streams && h.streams[id].pending
    ensures Settles(Settle(Drop(h, id), id, Rejected(code)))
  {
  }

  lemma DropSettles(h: Hub, id: StreamId)
    requires Settles(h) && (id in h.streams ==> h.streams[id].isOpen)
    ensures Settles(Drop(h, id))
  {
  }

  lemma OpenSettles(h: Hub, sandboxId: SandboxId, id: StreamId, connected: bool, cap: nat)
    requires Settles(h) && id !in h.settled
    ensures Settles(Open(h, sandboxId, id, connected, cap))
  {
    hide CountFor, Less, Drop;
    var t := Track(h, id, sandboxId);
    assert Settles(t);
    RefusedSettles(t, id, NoSandbox);
  }

  lemma EndedSettles(h: Hub, id: StreamId)
    requires Settles(h) && id in h.streams
    ensures Settles(h.(streams := h.streams[id := h.streams[id].(ended := true)]))
  {
  }

  lemma OpenedSettles(h: Hub, id: StreamId)
    requires Settles(h) && id in h.streams && h.streams[id].pending
    ensures var s := h.streams[id].(isOpen := true, pending := false);
            Settles(Settle(h.(streams := h.streams[id := s], timers := h.timers - {id}), id, Resolved))
  {
  }

  lemma HandleSettles(h: Hub, sandboxId: SandboxId, id: StreamId, message: PortMessage)
    requires Settles(h)
    ensures Settles(Handle(h, sandboxId, id, message))
  {
    if id in h.streams {
      var s := h.streams[id];
      assert s.isOpen != s.pending;
      hide Settles, Drop, Settle;
      if s.isOpen {
        DropSettles(h, id);
        EndedSettles(h, id);
      } else {
        OpenedSettles(h, id);
        RefusedSettles(h, id, Failed);
        if message.Error? { RefusedSettles(h, id, message.code); }
      }
    }
  }

  lemma StepSettles(h: Hub, op: Op, cap: nat)
    requires Counted(h, cap) && Settles(h) && Legal(h, op)
    ensures Settles(Step(h, op, cap))
  {
    match op
    case Opens(sandboxId, id, connected) => OpenSettles(h, sandboxId, id, connected, cap);
    case Fires(id) => RefusedSettles(h, id, Timeout);
    case Handles(sandboxId, id, message) => HandleSettles(h, sandboxId, id, message);
    case Gone(id) => DropSettles(h, id);
    case SocketClosed(_, order) => LostAllKeeps(h, order, cap);
  }

  /** Over every run of opens, timeouts, frames, destroyed streams and closed
      sockets: the counts are exact and within the cap, and every `open` settles
      exactly once unless its stream is still tracked and pending. */
  lemma {:induction false} RunKeeps(ops: seq<Op>, cap: nat)
    requires Possible(ops, cap)
    ensures Counted(Run(ops, cap), cap) && Settles(Run(ops, cap))
  {
    hide Counted, Settles, Step, Legal;
    if ops == [] {
      EmptyKeeps(cap);
    } else {
      RunKeeps(ops[..|ops| - 1], cap);
      StepCounts(Run(ops[..|ops| - 1], cap), ops[|ops| - 1], cap);
      StepSettles(Run(ops[..|ops| - 1], cap), ops[|ops| - 1], cap);
    }
  }

  lemma EmptyKeeps(cap: nat)
    ensures Counted(Empty, cap) && Settles(Empty)
  {
    forall who ensures Owned(map[], who) == {} {}
  }

  // ---------------------------------------------------------------- isolation

  /** Nothing another sandbox owns, counts or awaits differs. */
  ghost predicate OthersUntouched(h: Hub, t: Hub, sandboxId: SandboxId) {
    && (forall who :: who != sandboxId ==> CountFor(t, who) == CountFor(h, who))
    && (forall id :: id in h.streams && h.streams[id].sandboxId != sandboxId ==>
                       && id in t.streams && t.streams[id] == h.streams[id]
                       && (id in h.timers <==> id in t.timers)
                       && (id in h.settled ==> id in t.settled && t.settled[id] == h.settled[id]))
    && (forall id :: id in t.streams && t.streams[id].sandboxId != sandboxId ==> id in h.streams)
  }

  /** A frame authenticated for one sandbox, whatever stream it names, changes
      no other sandbox's streams. */
  lemma FrameStaysHome(h: Hub, sandboxId: SandboxId, id: StreamId, message: PortMessage)
    ensures OthersUntouched(h, Handle(h, sandboxId, id, message), sandboxId)
  {
  }

  lemma LostStaysHome(h: Hub, sandboxId: SandboxId, id: StreamId)
    requires id in h.streams ==> h.streams[id].sandboxId == sandboxId
    ensures OthersUntouched(h, Lost(h, id), sandboxId)
    ensures Lost(h, id).streams == h.streams - {id}
  {
  }

  /** A closed socket loses every stream of its sandbox and no other. */
  lemma {:induction false} SocketLosesItsOwn(h: Hub, sandboxId: SandboxId, order: seq<StreamId>)
    requires forall id :: id in order && id in h.streams ==> h.streams[id].sandboxId == sandboxId
    requires forall id :: id in Owned(h.streams, sandboxId) ==> id in order
    ensures OthersUntouched(h, LostAll(h, order), sandboxId)
    ensures Owned(LostAll(h, order).streams, sandboxId) == {}
    decreases |order|
  {
    hide Lost, CountFor;
    if order != [] {
      var t := Lost(h, order[0]);
      LostStaysHome(h, sandboxId, order[0]);
      forall id | id in Owned(t.streams, sandboxId) ensures id in order[1..] {
        assert id in Owned(h.streams, sandboxId);
      }
      forall id | id in order[1..] && id in t.streams ensures t.streams[id].sandboxId == sandboxId {
        assert id in order;
      }
      SocketLosesItsOwn(t, sandboxId, order[1..]);
    }
  }
}
