/** The report chain as the object the source runs (apps/runner/src/report-chain.ts:72-187). */
module ReportChainObject {
  import opened Wrappers
  import opened ControlPlane
  import opened Spec = ReportChain

  class ReportQueue {
    var reports: seq<Spec.Report>
    /** What waits on the chain, its head being posted. */
    var queued: seq<Job>
    var pendingResends: map<SandboxId, nat>
    var totalPendingResends: int
    /** The re-send loops, by attempts finished, and those in their backoff. */
    var resending: map<Id, nat>
    var asleep: set<Id>
    var posts: seq<PostMade>

    ghost function State(): Chain
      reads this
    {
      Chain(reports, queued, pendingResends, totalPendingResends, resending, asleep, posts)
    }

    constructor ()
      ensures State() == Quiet
    {
      reports, queued, pendingResends, totalPendingResends, resending, asleep, posts := [], [], map[], 0, map[], {}, [];
    }

    method HoldResend(sandboxId: SandboxId) returns (held: bool)
      modifies this`pendingResends, this`totalPendingResends
      ensures held == CanHold(old(State()), sandboxId)
      ensures held ==> pendingResends == old(pendingResends)[sandboxId := PendingOf(old(State()), sandboxId) + 1]
                       && totalPendingResends == old(totalPendingResends) + 1
      ensures !held ==> State() == old(State())
    {
      var mine := if sandboxId in pendingResends then pendingResends[sandboxId] else 0;
      if totalPendingResends >= MAX_PENDING_RESENDS || mine >= MAX_PENDING_RESENDS_PER_SANDBOX { return false; }
      pendingResends := pendingResends[sandboxId := mine + 1];
      totalPendingResends := totalPendingResends + 1;
      return true;
    }

    method ReleaseResend(sandboxId: SandboxId)
      modifies this`pendingResends, this`totalPendingResends
      ensures pendingResends == Fewer(old(pendingResends), sandboxId)
      ensures totalPendingResends == old(totalPendingResends) - 1
    {
      var mine: int := if sandboxId in pendingResends then pendingResends[sandboxId] else 1;
      var left := mine - 1;
      if left > 0 {
        pendingResends := pendingResends[sandboxId := left];
      } else {
        pendingResends := pendingResends - {sandboxId};
      }
      totalPendingResends := totalPendingResends - 1;
    }

    /** A first post failed: start re-sending a turn's end that never applied. */
    method Failed(id: Id, failure: Failure)
      requires id < |reports|
      modifies this
      ensures State() == FirstSettled(old(State()), id, Some(failure))
    {
      var r := reports[id];
      if IsResendable(r) && IsProvablyUnapplied(failure) {
        var held := HoldResend(r.sandboxId);
        if held {
          resending := resending[id := 0];
          asleep := asleep + {id};
        }
      }
    }

    /** One turn of a re-send loop: its post came back. */
    method Resent(id: Id, failure: Option<Failure>)
      requires id < |reports| && id in resending
      modifies this
      ensures State() == AgainSettled(old(State()), id, failure)
    {
      var attempt := resending[id] + 1;
      if failure.None? || !IsProvablyUnapplied(failure.value) || attempt >= MAX_RESENDS {
        ReleaseResend(reports[id].sandboxId);
        resending := resending - {id};
      } else {
        resending := resending[id := attempt];
        asleep := asleep + {id};
      }
    }

    /** Appends the report's first post, unless the cap of its kind is reached. */
    method Report(event: Spec.Report)
      modifies this
      ensures State() == Reported(old(State()), event)
    {
      var cap := if event.TurnFinished? then MAX_QUEUED_REPORTS + TERMINAL_RESERVE else MAX_QUEUED_REPORTS;
      var id := |reports|;
      reports := reports + [event];
      if |queued| >= cap { return; }
      queued := queued + [First(id)];
    }

    /** The post in flight came back. */
    method Settle(exchanges: seq<Exchange>)
      requires Sane(State()) && Legal(State(), Settles(exchanges))
      modifies this
      ensures State() == Settled(old(State()), exchanges)
    {
      hide IsPost, Outcome;
      PostsAreMade(exchanges);
      var head := queued[0];
      queued := queued[1..];
      posts := posts + [PostMade(head.id, exchanges)];
      var failure := Outcome(exchanges);
      match head
      case First(id) => if failure.Some? { Failed(id, failure.value); }
      case Again(id) => Resent(id, failure);
    }

    /** A re-send's backoff ran out: it posts through the chain again. */
    method Wake(id: Id)
      requires id in asleep
      modifies this
      ensures State() == Woken(old(State()), id)
    {
      asleep := asleep - {id};
      queued := queued + [Again(id)];
    }
  }

  lemma PostsAreMade(exchanges: seq<Exchange>)
    requires IsPost(exchanges)
    ensures exchanges != []
  {
  }
}
