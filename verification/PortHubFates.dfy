/** What becomes of each `open`: the hub, its counts and its timers against one small
    machine for every stream, which knows of the others only whether the sandbox is
    full. */
module PortHubFates {
  import opened PortHub

  /** `Over` tells how the promise of the `open` had settled when it was all over. */
  datatype Fate = Unopened | Waiting(owner: SandboxId) | Held(owner: SandboxId, ended: bool) | Over(outcome: Outcome)

  predicate Owns(f: Fate, sandboxId: SandboxId) {
    (f.Waiting? || f.Held?) && f.owner == sandboxId
  }

  /** A stream that can no longer be used: the promise of one that was handed out
      has resolved, and any other is refused. */
  function Lose(f: Fate, code: ErrorCode): Fate {
    match f
    case Waiting(_) => Over(Rejected(code))
    case Held(_, _) => Over(Resolved)
    case _ => f
  }

  function Told(f: Fate, message: PortMessage): Fate {
    match message
    case Opened => if f.Waiting? then Held(f.owner, false) else f
    case Error(code) => if f.Waiting? then Over(Rejected(code)) else f
    case Data(cut) => if f.Held? && cut then Over(Resolved) else f
    case Ack => f
    case CloseEnd => if f.Held? then Held(f.owner, true) else Lose(f, Failed)
    case CloseAbort => Lose(f, Failed)
  }

  function NextFate(f: Fate, op: Op, id: StreamId, full: bool): Fate {
    match op
    case Opens(sandboxId, x, connected) =>
      if x != id then f
      else if full then Over(Rejected(Limit))
      else if connected then Waiting(sandboxId)
      else Over(Rejected(NoSandbox))
    case Fires(x) => if x == id then Over(Rejected(Timeout)) else f
    case Handles(sandboxId, x, message) => if x == id && Owns(f, sandboxId) then Told(f, message) else f
    case Gone(x) => if x == id then Lose(f, Failed) else f
    case SocketClosed(sandboxId, _) => if Owns(f, sandboxId) then Lose(f, NoSandbox) else f
  }

  /** A sandbox that opens a stream has as many as it may. */
  predicate Full(h: Hub, op: Op, cap: nat) {
    op.Opens? && |Owned(h.streams, op.sandboxId)| >= cap
  }

  ghost function FateOf(ops: seq<Op>, cap: nat, id: StreamId): Fate {
    if ops == [] then Unopened
    else
      var before := ops[..|ops| - 1];
      NextFate(FateOf(before, cap, id), ops[|ops| - 1], id, Full(Run(before, cap), ops[|ops| - 1], cap))
  }

  /** The hub has this of the stream, and has settled its promise so. */
  ghost predicate Shows(h: Hub, id: StreamId, f: Fate) {
    match f
    case Unopened => id !in h.streams && id !in h.timers && id !in h.settled
    case Waiting(owner) => StreamAt(h, id, HubStream(owner, false, true, false)) && id in h.timers && SettledAs(h, id, [])
    case Held(owner, ended) => StreamAt(h, id, HubStream(owner, true, false, ended)) && id !in h.timers && SettledAs(h, id, [Resolved])
    case Over(outcome) => id !in h.streams && id !in h.timers && SettledAs(h, id, [outcome])
  }

  ghost predicate StreamAt(h: Hub, id: StreamId, s: HubStream) {
    id in h.streams && h.streams[id] == s
  }

  ghost predicate SettledAs(h: Hub, id: StreamId, outcomes: seq<Outcome>) {
    id in h.settled && h.settled[id] == outcomes
  }

  /** A step says nothing of the other streams. */
  lemma SameShows(h: Hub, t: Hub, id: StreamId, f: Fate)
    requires Shows(h, id, f)
    requires id in t.streams <==> id in h.streams
    requires id in h.streams && id in t.streams ==> t.streams[id] == h.streams[id]
    requires id in t.timers <==> id in h.timers
    requires id in t.settled <==> id in h.settled
    requires id in h.settled && id in t.settled ==> t.settled[id] == h.settled[id]
    ensures Shows(t, id, f)
  {
  }

  lemma LostShows(h: Hub, x: StreamId, id: StreamId, f: Fate)
    requires Shows(h, id, f)
    ensures Shows(Lost(h, x), id, if x == id then Lose(f, NoSandbox) else f)
  {
    hide Less;
    if x != id { SameShows(h, Lost(h, x), id, f); }
  }

  lemma {:induction false} LostAllShows(h: Hub, order: seq<StreamId>, id: StreamId, f: Fate)
    requires Shows(h, id, f)
    ensures Shows(LostAll(h, order), id, if id in order then Lose(f, NoSandbox) else f)
    decreases |order|
  {
    hide Shows, Lost;
    if order != [] {
      LostShows(h, order[0], id, f);
      LostAllShows(Lost(h, order[0]), order[1..], id, if order[0] == id then Lose(f, NoSandbox) else f);
    }
  }

  lemma OpenShows(h: Hub, sandboxId: SandboxId, x: StreamId, connected: bool, cap: nat, id: StreamId, f: Fate)
    requires Counted(h, cap) && x !in h.settled && Shows(h, id, f)
    ensures var op := Opens(sandboxId, x, connected);
            Shows(Open(h, sandboxId, x, connected, cap), id, NextFate(f, op, id, Full(h, op, cap)))
  {
    assert CountFor(h, sandboxId) == |Owned(h.streams, sandboxId)|;
    hide Less, Owned, Counted, CountFor;
    var t := Open(h, sandboxId, x, connected, cap);
    if x != id { SameShows(h, t, id, f); }
  }

  lemma HandleShows(h: Hub, sandboxId: SandboxId, x: StreamId, message: PortMessage, id: StreamId, f: Fate)
    requires Shows(h, id, f)
    ensures Shows(Handle(h, sandboxId, x, message), id, NextFate(f, Handles(sandboxId, x, message), id, false))
  {
    hide Less;
    if x != id { SameShows(h, Handle(h, sandboxId, x, message), id, f); }
  }

  lemma DropShows(h: Hub, x: StreamId, id: StreamId, f: Fate)
    requires Shows(h, id, f)
    requires x == id && id in h.streams ==> h.streams[id].isOpen
    ensures Shows(Drop(h, x), id, if x == id then Lose(f, Failed) else f)
  {
    hide Less;
    if x != id { SameShows(h, Drop(h, x), id, f); }
  }

  lemma TimerShows(h: Hub, x: StreamId, id: StreamId, f: Fate)
    requires Shows(h, id, f) && x in h.timers
    ensures Shows(TimerFires(h, x), id, if x == id then Over(Rejected(Timeout)) else f)
  {
    hide Less;
    if x != id { SameShows(h, TimerFires(h, x), id, f); }
  }

  lemma OwnsIs(h: Hub, sandboxId: SandboxId, id: StreamId, f: Fate)
    requires Shows(h, id, f)
    ensures id in Owned(h.streams, sandboxId) <==> Owns(f, sandboxId)
  {
  }

  lemma StepShows(h: Hub, op: Op, cap: nat, id: StreamId, f: Fate)
    requires Counted(h, cap) && Legal(h, op) && Shows(h, id, f)
    ensures Shows(Step(h, op, cap), id, NextFate(f, op, id, Full(h, op, cap)))
  {
    hide Shows, Counted, Open, Handle, Drop, TimerFires, LostAll, Lose, Told;
    match op
    case Opens(sandboxId, x, connected) => OpenShows(h, sandboxId, x, connected, cap, id, f);
    case Fires(x) => TimerShows(h, x, id, f);
    case Handles(sandboxId, x, message) => HandleShows(h, sandboxId, x, message, id, f);
    case Gone(x) => DropShows(h, x, id, f);
    case SocketClosed(sandboxId, order) =>
      LostAllShows(h, order, id, f);
      OwnsIs(h, sandboxId, id, f);
  }

  /** Over every run, each stream is tracked, timed and settled as its own machine
      says: refused at the cap, without a sandbox, by the timeout, by the guest's
      error or its close before it opened, and else resolved, once. */
  lemma {:induction false} HubShowsFates(ops: seq<Op>, cap: nat, id: StreamId)
    requires Possible(ops, cap)
    ensures Shows(Run(ops, cap), id, FateOf(ops, cap, id))
  {
    hide Shows, Step, NextFate, Full, Counted, Settles, Legal;
    if ops == [] {
      assert Shows(Empty, id, Unopened) by { NothingShown(id); }
    } else {
      var before := ops[..|ops| - 1];
      HubShowsFates(before, cap, id);
      RunKeeps(before, cap);
      StepShows(Run(before, cap), ops[|ops| - 1], cap, id, FateOf(before, cap, id));
    }
  }

  lemma NothingShown(id: StreamId)
    ensures Shows(Empty, id, Unopened)
  {
  }
}
