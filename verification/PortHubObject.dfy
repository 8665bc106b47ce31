/** The port hub as the object the source runs (apps/runner/src/port-hub.ts:206-356). */
module PortHubObject {
  import opened Spec = PortHub

  lemma {:induction false} LostAllLast(h: Hub, ids: seq<StreamId>, id: StreamId)
    ensures LostAll(h, ids + [id]) == Lost(LostAll(h, ids), id)
    decreases |ids|
  {
    hide Lost;
    if ids == [] {
      assert LostAll(h, [id]) == LostAll(Lost(h, id), [id][1..]);
    } else {
      assert (ids + [id])[1..] == ids[1..] + [id];
      LostAllLast(Lost(h, ids[0]), ids[1..], id);
    }
  }

  class PortHub {
    var streams: map<StreamId, HubStream>
    var perSandbox: map<SandboxId, nat>
    var timers: set<StreamId>
    var settled: map<StreamId, seq<Outcome>>
    const maxStreamsPerSandbox: nat

    ghost function State(): Hub
      reads this
    {
      Hub(streams, perSandbox, timers, settled)
    }

    constructor (maxStreamsPerSandbox: nat)
      ensures State() == Empty && this.maxStreamsPerSandbox == maxStreamsPerSandbox
    {
      this.maxStreamsPerSandbox := maxStreamsPerSandbox;
      streams, perSandbox, timers, settled := map[], map[], {}, map[];
    }

    /** The caller's promise settles. */
    method SettlePromise(id: StreamId, outcome: Outcome)
      modifies this`settled
      ensures State() == Settle(old(State()), id, outcome)
    {
      settled := settled[id := (if id in settled then settled[id] else []) + [outcome]];
    }

    method DropStream(id: StreamId)
      modifies this
      ensures State() == Drop(old(State()), id)
    {
      if id !in streams { return; }
      var s := streams[id];
      streams := streams - {id};
      var left := (if s.sandboxId in perSandbox then perSandbox[s.sandboxId] else 0) as int - 1;
      if left > 0 {
        perSandbox := perSandbox[s.sandboxId := left];
      } else {
        perSandbox := perSandbox - {s.sandboxId};
      }
      if s.pending { timers := timers - {id}; }
    }

    /** Open a stream; `id` is the random name it gets, `connected` whether the
        sandbox took the open frame. */
    method Open(sandboxId: SandboxId, id: StreamId, connected: bool)
      modifies this
      ensures State() == Spec.Open(old(State()), sandboxId, id, connected, maxStreamsPerSandbox)
    {
      var count := if sandboxId in perSandbox then perSandbox[sandboxId] else 0;
      if count >= maxStreamsPerSandbox {
        SettlePromise(id, Rejected(Limit));
        return;
      }
      timers := timers + {id};
      settled := settled[id := []];
      streams := streams[id := HubStream(sandboxId, false, true, false)];
      perSandbox := perSandbox[sandboxId := count + 1];
      if !connected {
        DropStream(id);
        SettlePromise(id, Rejected(NoSandbox));
      }
    }

    method OpenTimedOut(id: StreamId)
      modifies this
      ensures State() == TimerFires(old(State()), id)
    {
      DropStream(id);
      SettlePromise(id, Rejected(Timeout));
    }

    method Handle(sandboxId: SandboxId, id: StreamId, message: PortMessage)
      modifies this
      ensures State() == Spec.Handle(old(State()), sandboxId, id, message)
    {
      hide Drop, Settle;
      if id !in streams || streams[id].sandboxId != sandboxId { return; }
      var s := streams[id];
      match message
      case Opened =>
        if s.isOpen || !s.pending { return; }
        timers := timers - {id};
        streams := streams[id := s.(isOpen := true, pending := false)];
        SettlePromise(id, Resolved);
      case Error(code) =>
        if s.isOpen || !s.pending { return; }
        DropStream(id);
        SettlePromise(id, Rejected(code));
      case Data(cut) =>
        if s.isOpen && cut { DropStream(id); }
      case Ack =>
      case CloseEnd =>
        if !s.isOpen {
          if s.pending {
            DropStream(id);
            SettlePromise(id, Rejected(Failed));
          }
          return;
        }
        streams := streams[id := s.(ended := true)];
      case CloseAbort =>
        if !s.isOpen {
          if s.pending {
            DropStream(id);
            SettlePromise(id, Rejected(Failed));
          }
          return;
        }
        DropStream(id);
    }

    /** Loses the sandbox's streams one by one, in the order it returns. */
    method SandboxGone(sandboxId: SandboxId) returns (ghost order: seq<StreamId>)
      modifies this
      ensures Legal(old(State()), SocketClosed(sandboxId, order))
      ensures State() == LostAll(old(State()), order)
    {
      hide Drop, Settle, Lost, LostAll;
      var ids := set id | id in streams && streams[id].sandboxId == sandboxId;
      order := [];
      ghost var all := ids;
      assert State() == LostAll(State(), []) by { LostAllNone(State()); }
      while ids != {}
        invariant ids <= all
        invariant forall id :: id in order <==> id in all - ids
        invariant State() == LostAll(old(State()), order)
        decreases |ids|
      {
        var id :| id in ids;
        ids := ids - {id};
        LostAllLast(old(State()), order, id);
        order := order + [id];
        LostUnfold(State(), id);
        if id in streams && streams[id].pending {
          DropStream(id);
          SettlePromise(id, Rejected(NoSandbox));
        } else {
          DropStream(id);
        }
      }
    }
  }

  lemma LostUnfold(h: Hub, id: StreamId)
    ensures Lost(h, id)
            == if id in h.streams && h.streams[id].pending then Settle(Drop(h, id), id, Rejected(NoSandbox)) else Drop(h, id)
  {
  }

  lemma LostAllNone(h: Hub)
    ensures LostAll(h, []) == h
  {
  }
}
