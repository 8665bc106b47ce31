/** Posting events to the control plane (apps/runner/src/control-plane.ts:144-218
    and 335-364): chunks in order, each retried in place while its failure proves
    that nothing was applied. */
module ControlPlane {
  import opened Wrappers
  import opened Bytes
  import TurnEvents

  const MAX_RUNNER_EVENTS_PER_POST: nat := 100
  const EVENT_POST_ATTEMPTS: nat := 4

  // ---------------------------------------------------------------- failures

  /** One connection attempt's error; `None` when it carries no socket code. */
  type Attempt = Option<string>

  datatype Cause = NoCause | Single(attempt: Attempt) | Aggregate(attempts: seq<Attempt>)

  /** What a post throws: an answered status, or a fetch that failed. */
  datatype Failure = Status(status: int) | FetchFailed(cause: Cause)

  const RETRYABLE_EVENT_STATUSES: set<int> := {429, 500, 503}
  const NEVER_SENT_CODES: set<string> := {"ECONNREFUSED", "ENOTFOUND", "EAI_AGAIN"}

  predicate NeverLeft(attempt: Attempt) {
    attempt.Some? && attempt.value in NEVER_SENT_CODES
  }

  /** Every connection attempt there was failed with a never-sent code. */
  predicate RequestNeverSent(cause: Cause) {
    match cause
    case NoCause => false
    case Single(attempt) => NeverLeft(attempt)
    case Aggregate(attempts) => |attempts| > 0 && forall i :: 0 <= i < |attempts| ==> NeverLeft(attempts[i])
  }

  predicate IsProvablyUnapplied(failure: Failure) {
    match failure
    case Status(status) => status in RETRYABLE_EVENT_STATUSES
    case FetchFailed(cause) => RequestNeverSent(cause)
  }

  /** One request: how it came back, whether the server applied it, and over which
      of its connection attempts any of it left this process. */
  datatype Exchange = Exchange(failure: Option<Failure>, applied: bool, left: seq<bool>)

  predicate Unapplied(x: Exchange) {
    x.failure.Some? && IsProvablyUnapplied(x.failure.value)
  }

  /** The connection attempts a failed fetch tells of. */
  function AttemptsTold(cause: Cause): seq<Attempt> {
    match cause
    case NoCause => []
    case Single(attempt) => [attempt]
    case Aggregate(attempts) => attempts
  }

  /** What the network and the server keep to. An attempt that was refused, or whose
      host did not resolve, sent nothing; what is applied has left by some attempt,
      and a fetch that tells of its attempts tells of all; and a server that answers
      429, 500 or 503 applied nothing. */
  predicate Truthful(x: Exchange) {
    match x.failure
    case None => true
    case Some(Status(status)) => status == 429 || status == 500 || status == 503 ==> !x.applied
    case Some(FetchFailed(cause)) =>
      var told := AttemptsTold(cause);
      && (x.applied ==> exists i :: 0 <= i < |x.left| && x.left[i])
      && (told != [] ==>
            && |x.left| == |told|
            && forall i :: 0 <= i < |told| && told[i] in {Some("ECONNREFUSED"), Some("ENOTFOUND"), Some("EAI_AGAIN")} ==> !x.left[i])
  }

  /** The verdict is what this proves, no less and no more: nothing was applied in any
      exchange that fails so, or in one it may have been. */
  lemma VerdictExact(failure: Failure)
    ensures IsProvablyUnapplied(failure) <==> forall x: Exchange :: Truthful(x) && x.failure == Some(failure) ==> !x.applied
  {
    if !IsProvablyUnapplied(failure) {
      var told := if failure.Status? then [] else AttemptsTold(failure.cause);
      if told == [] {
        assert [true][0];
        assert Truthful(Exchange(Some(failure), true, [true]));
      } else {
        var i := SomeMayLeave(failure.cause);
        assert Leaves(told)[i];
        assert Truthful(Exchange(Some(failure), true, Leaves(told)));
      }
    } else {
      forall x: Exchange | Truthful(x) && x.failure == Some(failure) ensures !x.applied { UnappliedIsRight(x); }
    }
  }

  /** All attempts leave but those that cannot have. */
  function Leaves(told: seq<Attempt>): seq<bool> {
    seq(|told|, i requires 0 <= i < |told| => !NeverLeft(told[i]))
  }

  lemma SomeMayLeave(cause: Cause) returns (i: nat)
    requires !RequestNeverSent(cause) && AttemptsTold(cause) != []
    ensures i < |AttemptsTold(cause)| && !NeverLeft(AttemptsTold(cause)[i])
  {
    i := 0;
    if cause.Aggregate? { i :| 0 <= i < |cause.attempts| && !NeverLeft(cause.attempts[i]); }
  }

  lemma UnappliedIsRight(x: Exchange)
    requires Truthful(x) && Unapplied(x)
    ensures !x.applied
  {
    if x.failure.value.FetchFailed? {
      var told := AttemptsTold(x.failure.value.cause);
      assert forall i :: 0 <= i < |told| ==> NeverLeft(told[i]) && !x.left[i];
    }
  }

  /** And an answered success means the request was applied. */
  predicate Faithful(x: Exchange) {
    Truthful(x) && (x.failure.None? ==> x.applied)
  }

  // ---------------------------------------------------------------- one chunk

  /** Whether the retry loop ends with this attempt. */
  predicate Stops(x: Exchange, attempt: nat) {
    x.failure.None? || attempt >= EVENT_POST_ATTEMPTS || !IsProvablyUnapplied(x.failure.value)
  }

  /** The requests one chunk takes, the wire answering request `k` first. */
  function Attempts(wire: nat -> Exchange, k: nat, attempt: nat): seq<Exchange>
    requires 1 <= attempt <= EVENT_POST_ATTEMPTS
    decreases EVENT_POST_ATTEMPTS - attempt
  {
    if Stops(wire(k), attempt) then [wire(k)] else [wire(k)] + Attempts(wire, k + 1, attempt + 1)
  }

  /** The requests of one chunk's post: at most four, each but the last failed
      provably unapplied, and the last one ended it. */
  ghost predicate IsPost(xs: seq<Exchange>) {
    && 1 <= |xs| <= EVENT_POST_ATTEMPTS
    && (forall i :: 0 <= i < |xs| - 1 ==> Unapplied(xs[i]))
    && Stops(xs[|xs| - 1], |xs|)
  }

  function Outcome(xs: seq<Exchange>): Option<Failure>
    requires xs != []
  {
    xs[|xs| - 1].failure
  }

  function Applications(xs: seq<Exchange>): nat {
    if xs == [] then 0 else Applications(xs[..|xs| - 1]) + if xs[|xs| - 1].applied then 1 else 0
  }

  lemma {:induction false} AttemptsStop(wire: nat -> Exchange, k: nat, attempt: nat)
    requires 1 <= attempt <= EVENT_POST_ATTEMPTS
    ensures var xs := Attempts(wire, k, attempt);
            && 1 <= |xs| <= EVENT_POST_ATTEMPTS + 1 - attempt
            && (forall i :: 0 <= i < |xs| - 1 ==> Unapplied(xs[i]))
            && Stops(xs[|xs| - 1], attempt + |xs| - 1)
    decreases EVENT_POST_ATTEMPTS - attempt
  {
    if !Stops(wire(k), attempt) {
      AttemptsStop(wire, k + 1, attempt + 1);
    }
  }

  lemma {:induction false} NoneApplied(xs: seq<Exchange>)
    requires forall i :: 0 <= i < |xs| ==> Unapplied(xs[i]) && Truthful(xs[i])
    ensures Applications(xs) == 0
  {
    if xs != [] {
      NoneApplied(xs[..|xs| - 1]);
      UnappliedIsRight(xs[|xs| - 1]);
    }
  }

  /** However a post goes, it is applied at most once, and not at all when it fails
      provably unapplied, on a network that keeps to the above. */
  lemma PostAppliesOnce(xs: seq<Exchange>)
    requires IsPost(xs) && forall i :: 0 <= i < |xs| ==> Truthful(xs[i])
    ensures Applications(xs) == if xs[|xs| - 1].applied then 1 else 0
    ensures Unapplied(xs[|xs| - 1]) ==> Applications(xs) == 0
  {
    NoneApplied(xs[..|xs| - 1]);
    if Unapplied(xs[|xs| - 1]) { UnappliedIsRight(xs[|xs| - 1]); }
  }

  // ---------------------------------------------------------------- all chunks

  datatype Sent<E> = Sent(chunk: seq<E>, exchange: Exchange)

  function Tagged<E>(chunk: seq<E>, xs: seq<Exchange>): seq<Sent<E>> {
    if xs == [] then [] else Tagged(chunk, xs[..|xs| - 1]) + [Sent(chunk, xs[|xs| - 1])]
  }

  /** The requests a post of these chunks takes, and how it ends. */
  function Delivery<E>(chunks: seq<seq<E>>, wire: nat -> Exchange, k: nat): (seq<Sent<E>>, Option<Failure>)
    decreases |chunks|
  {
    if chunks == [] then ([], None)
    else
      var xs := Attempts(wire, k, 1);
      AttemptsStop(wire, k, 1);
      var sent := Tagged(chunks[0], xs);
      if Outcome(xs).Some? then (sent, Outcome(xs))
      else
        var (more, failure) := Delivery(chunks[1..], wire, k + |xs|);
        (sent + more, failure)
  }

  /** The events the server applied, once for every time it applied them. */
  function AppliedEvents<E>(sent: seq<Sent<E>>): seq<E> {
    if sent == [] then []
    else
      AppliedEvents(sent[..|sent| - 1])
      + if sent[|sent| - 1].exchange.applied then sent[|sent| - 1].chunk else []
  }

  lemma {:induction false} AppliedAppend<E>(a: seq<Sent<E>>, b: seq<Sent<E>>)
    ensures AppliedEvents(a + b) == AppliedEvents(a) + AppliedEvents(b)
  {
    if b == [] {
      assert a + b == a;
    } else {
      var init := b[..|b| - 1];
      AppliedAppend(a, init);
      assert (a + b)[..|a + b| - 1] == a + init && (a + b)[|a + b| - 1] == b[|b| - 1];
    }
  }

  lemma {:induction false} TaggedApplied<E>(chunk: seq<E>, xs: seq<Exchange>)
    requires Applications(xs) <= 1
    ensures AppliedEvents(Tagged(chunk, xs)) == if Applications(xs) == 1 then chunk else []
  {
    if xs != [] {
      var init := xs[..|xs| - 1];
      TaggedApplied(chunk, init);
      assert Tagged(chunk, xs)[..|Tagged(chunk, init)|] == Tagged(chunk, init);
    }
  }

  ghost predicate FaithfulWire(wire: nat -> Exchange) {
    forall k :: Faithful(wire(k))
  }

  lemma {:induction false} AttemptsFaithful(wire: nat -> Exchange, k: nat, attempt: nat)
    requires 1 <= attempt <= EVENT_POST_ATTEMPTS && FaithfulWire(wire)
    ensures forall i :: 0 <= i < |Attempts(wire, k, attempt)| ==> Faithful(Attempts(wire, k, attempt)[i])
    decreases EVENT_POST_ATTEMPTS - attempt
  {
    if !Stops(wire(k), attempt) {
      AttemptsFaithful(wire, k + 1, attempt + 1);
    }
  }

  lemma DeliveryStep<E>(chunks: seq<seq<E>>, wire: nat -> Exchange, k: nat)
    requires chunks != []
    ensures var xs := Attempts(wire, k, 1);
            && IsPost(xs)
            && Delivery(chunks, wire, k)
               == if Outcome(xs).Some? then (Tagged(chunks[0], xs), Outcome(xs))
                  else (Tagged(chunks[0], xs) + Delivery(chunks[1..], wire, k + |xs|).0, Delivery(chunks[1..], wire, k + |xs|).1)
  {
    AttemptsStop(wire, k, 1);
  }

  lemma ChunkApplied<E>(chunk: seq<E>, wire: nat -> Exchange, k: nat)
    requires FaithfulWire(wire)
    ensures var xs := Attempts(wire, k, 1);
            && IsPost(xs) && xs != []
            && (AppliedEvents(Tagged(chunk, xs)) == chunk || AppliedEvents(Tagged(chunk, xs)) == [])
            && (Outcome(xs).None? ==> AppliedEvents(Tagged(chunk, xs)) == chunk)
  {
    hide AppliedEvents, Tagged, Applications, Attempts;
    var xs := Attempts(wire, k, 1);
    AttemptsStop(wire, k, 1);
    AttemptsFaithful(wire, k, 1);
    PostAppliesOnce(xs);
    TaggedApplied(chunk, xs);
  }

  lemma ConcatNone<E>()
    ensures Concat<E>([]) == []
  {
  }

  lemma ConcatFirst<E>(chunks: seq<seq<E>>)
    requires chunks != []
    ensures Concat(chunks) == chunks[0] + Concat(chunks[1..])
  {
    assert chunks == [chunks[0]] + chunks[1..];
    TurnEvents.ConcatCons(chunks[0], chunks[1..]);
  }

  lemma DeliveryStops<E>(chunks: seq<seq<E>>, wire: nat -> Exchange, k: nat)
    requires chunks != [] && Attempts(wire, k, 1) != [] && Outcome(Attempts(wire, k, 1)).Some?
    ensures Delivery(chunks, wire, k).0 == Tagged(chunks[0], Attempts(wire, k, 1))
    ensures Delivery(chunks, wire, k).1.Some?
  {
    DeliveryStep(chunks, wire, k);
  }

  lemma DeliveryGoesOn<E>(chunks: seq<seq<E>>, wire: nat -> Exchange, k: nat)
    requires chunks != [] && Attempts(wire, k, 1) != [] && Outcome(Attempts(wire, k, 1)).None?
    ensures var xs := Attempts(wire, k, 1);
            && Delivery(chunks, wire, k).0 == Tagged(chunks[0], xs) + Delivery(chunks[1..], wire, k + |xs|).0
            && Delivery(chunks, wire, k).1 == Delivery(chunks[1..], wire, k + |xs|).1
  {
    DeliveryStep(chunks, wire, k);
  }

  lemma FrontGrows<E>(a: seq<E>, b: seq<E>, chunk: seq<E>, rest: seq<E>)
    requires (a == chunk && b <= rest) || (a == [] && b == [])
    ensures a + b <= chunk + rest
    ensures b == [] ==> a + b == a
  {
  }

  /** On a truthful network where a success means applied, what the server
      applied is a front of the events, in order and each event once; all of them
      when the post succeeds. */
  lemma {:induction false} DeliveryAppliesOnce<E>(chunks: seq<seq<E>>, wire: nat -> Exchange, k: nat)
    requires FaithfulWire(wire)
    ensures AppliedEvents(Delivery(chunks, wire, k).0) <= Concat(chunks)
    ensures Delivery(chunks, wire, k).1.None? ==> AppliedEvents(Delivery(chunks, wire, k).0) == Concat(chunks)
    decreases |chunks|
  {
    hide Delivery, Attempts, AppliedEvents, Tagged, FaithfulWire, Concat, IsPost, Outcome;
    if chunks == [] {
      DeliveryNone<E>(wire, k);
      AppliedNone<E>();
      assert AppliedEvents(Delivery(chunks, wire, k).0) == [];
      assert Concat(chunks) == [] by { ConcatNone<E>(); }
    } else {
      var xs := Attempts(wire, k, 1);
      ChunkApplied(chunks[0], wire, k);
      ConcatFirst(chunks);
      var first, rest := AppliedEvents(Tagged(chunks[0], xs)), Concat(chunks[1..]);
      if Outcome(xs).Some? {
        DeliveryStops(chunks, wire, k);
        FrontGrows(first, [], chunks[0], rest);
      } else {
        var more := Delivery(chunks[1..], wire, k + |xs|).0;
        DeliveryGoesOn(chunks, wire, k);
        DeliveryAppliesOnce(chunks[1..], wire, k + |xs|);
        AppliedAppend(Tagged(chunks[0], xs), more);
        FrontGrows(first, AppliedEvents(more), chunks[0], rest);
      }
    }
  }

  /** The same for a whole call, whose chunks are the events in order. */
  lemma PostEventsAppliesOnce<E>(events: seq<E>, wire: nat -> Exchange)
    requires FaithfulWire(wire)
    ensures var (sent, failure) := Delivery(TurnEvents.Chunks(events, MAX_RUNNER_EVENTS_PER_POST), wire, 0);
            && AppliedEvents(sent) <= events
            && (failure.None? ==> AppliedEvents(sent) == events)
  {
    TurnEvents.ChunksFacts(events, MAX_RUNNER_EVENTS_PER_POST);
    DeliveryAppliesOnce(TurnEvents.Chunks(events, MAX_RUNNER_EVENTS_PER_POST), wire, 0);
  }

  /** What a delivery asks of the wire, and when it gives up: the requests are made one
      after another and the last one decides. A request that failed is followed by
      one with the same chunk exactly when it provably applied nothing and is not the
      fourth in a row for it. */
  ghost predicate Asks<E>(sent: seq<Sent<E>>, failure: Option<Failure>, wire: nat -> Exchange, k: nat) {
    && (forall i :: 0 <= i < |sent| ==> sent[i].exchange == wire(k + i))
    && failure == (if sent == [] then None else sent[|sent| - 1].exchange.failure)
    && (forall i :: 0 <= i < |sent| - 1 && sent[i].exchange.failure.Some? ==>
          IsProvablyUnapplied(sent[i].exchange.failure.value) && sent[i + 1].chunk == sent[i].chunk)
    && (failure.Some? && IsProvablyUnapplied(failure.value) ==>
          |sent| >= 4 && forall i :: |sent| - 4 <= i < |sent| ==> Unapplied(sent[i].exchange))
  }

  lemma {:induction false} TaggedAt<E>(chunk: seq<E>, xs: seq<Exchange>)
    ensures |Tagged(chunk, xs)| == |xs| && forall i :: 0 <= i < |xs| ==> Tagged(chunk, xs)[i] == Sent(chunk, xs[i])
  {
    if xs != [] { TaggedAt(chunk, xs[..|xs| - 1]); }
  }

  lemma AsksOne<E>(chunk: seq<E>, wire: nat -> Exchange, k: nat)
    ensures var xs := Attempts(wire, k, 1);
            xs != [] && Tagged(chunk, xs) != [] && Asks(Tagged(chunk, xs), Outcome(xs), wire, k)
  {
    hide Attempts, IsProvablyUnapplied;
    AttemptsStop(wire, k, 1);
    AttemptsAre(wire, k, 1);
    TaggedAt(chunk, Attempts(wire, k, 1));
  }

  lemma AsksBoth<E>(a: seq<Sent<E>>, b: seq<Sent<E>>, failure: Option<Failure>, wire: nat -> Exchange, k: nat)
    requires a != [] && Asks(a, None, wire, k) && Asks(b, failure, wire, k + |a|)
    ensures Asks(a + b, failure, wire, k)
  {
    hide IsProvablyUnapplied;
    var sent := a + b;
    assert forall i :: 0 <= i < |a| ==> sent[i] == a[i];
    assert forall i :: |a| <= i < |sent| ==> sent[i] == b[i - |a|];
    forall i | 0 <= i < |sent| ensures sent[i].exchange == wire(k + i) {
      if i >= |a| { assert b[i - |a|].exchange == wire(k + |a| + (i - |a|)); }
    }
    forall i | 0 <= i < |sent| - 1 && sent[i].exchange.failure.Some?
      ensures IsProvablyUnapplied(sent[i].exchange.failure.value) && sent[i + 1].chunk == sent[i].chunk
    {
      if i >= |a| { assert b[i - |a| + 1] == sent[i + 1]; } else { assert i < |a| - 1; }
    }
  }

  lemma {:induction false} DeliveryAsks<E>(chunks: seq<seq<E>>, wire: nat -> Exchange, k: nat)
    ensures Asks(Delivery(chunks, wire, k).0, Delivery(chunks, wire, k).1, wire, k)
    ensures chunks != [] ==> Delivery(chunks, wire, k).0 != []
    decreases |chunks|
  {
    hide Delivery, Attempts, Tagged, Asks, IsPost;
    if chunks == [] {
      DeliveryNone<E>(wire, k);
      AsksNothing<E>(wire, k);
    } else {
      var xs := Attempts(wire, k, 1);
      AsksOne(chunks[0], wire, k);
      TaggedAt(chunks[0], xs);
      if Outcome(xs).Some? {
        DeliveryStops(chunks, wire, k);
        DeliveryStep(chunks, wire, k);
      } else {
        DeliveryGoesOn(chunks, wire, k);
        DeliveryAsks(chunks[1..], wire, k + |xs|);
        AsksBoth(Tagged(chunks[0], xs), Delivery(chunks[1..], wire, k + |xs|).0, Delivery(chunks[1..], wire, k + |xs|).1, wire, k);
      }
    }
  }

  lemma AsksNothing<E>(wire: nat -> Exchange, k: nat)
    ensures Asks<E>([], None, wire, k)
  {
  }

  /** The posting loop. `wire(n)` answers the n-th request. */
  method PostEvents<E>(events: seq<E>, wire: nat -> Exchange) returns (sent: seq<Sent<E>>, failure: Option<Failure>)
    ensures (sent, failure) == Delivery(TurnEvents.Chunks(events, MAX_RUNNER_EVENTS_PER_POST), wire, 0)
  {
    hide TurnEvents.Chunks, Delivery;
    ghost var all := Delivery(TurnEvents.Chunks(events, MAX_RUNNER_EVENTS_PER_POST), wire, 0);
    sent, failure := [], None;
    var i, k := 0, 0;
    assert events[0..] == events;
    while i < |events|
      invariant all.0 == sent + Delivery(TurnEvents.Chunks(events[Min(i, |events|)..], MAX_RUNNER_EVENTS_PER_POST), wire, k).0
      invariant all.1 == Delivery(TurnEvents.Chunks(events[Min(i, |events|)..], MAX_RUNNER_EVENTS_PER_POST), wire, k).1
      decreases |events| - i
    {
      var body := events[i..Min(i + MAX_RUNNER_EVENTS_PER_POST, |events|)];
      ghost var rest := TurnEvents.Chunks(events[i..], MAX_RUNNER_EVENTS_PER_POST);
      TurnEvents.ChunksNext(events, i, MAX_RUNNER_EVENTS_PER_POST);
      assert rest[0] == body
          && rest[1..] == TurnEvents.Chunks(events[Min(i + MAX_RUNNER_EVENTS_PER_POST, |events|)..], MAX_RUNNER_EVENTS_PER_POST);
      DeliveryStep(rest, wire, k);
      ghost var xs := Attempts(wire, k, 1);
      ghost var before := sent;
      var n, error := PostBody(body, wire, k);
      sent := sent + Sends(body, wire, k, n);
      SendsAttempts(body, wire, k);
      if error.Some? {
        failure := error;
        return;
      }
      k := k + n;
      i := i + MAX_RUNNER_EVENTS_PER_POST;
    }
    TurnEvents.ChunksFacts(events[|events|..], MAX_RUNNER_EVENTS_PER_POST);
    DeliveryNone<E>(wire, k);
    assert sent + [] == sent;
  }

  lemma AppliedNone<E>()
    ensures AppliedEvents<E>([]) == []
  {
  }

  lemma DeliveryNone<E>(wire: nat -> Exchange, k: nat)
    ensures Delivery<E>([], wire, k) == ([], None)
  {
  }

  /** The first `n` requests of a chunk. */
  function Sends<E>(body: seq<E>, wire: nat -> Exchange, k: nat, n: nat): seq<Sent<E>> {
    if n == 0 then [] else Sends(body, wire, k, n - 1) + [Sent(body, wire(k + n - 1))]
  }

  lemma {:induction false} AttemptsAre(wire: nat -> Exchange, k: nat, attempt: nat)
    requires 1 <= attempt <= EVENT_POST_ATTEMPTS
    ensures forall i :: 0 <= i < |Attempts(wire, k, attempt)| ==> Attempts(wire, k, attempt)[i] == wire(k + i)
    decreases EVENT_POST_ATTEMPTS - attempt
  {
    if !Stops(wire(k), attempt) {
      AttemptsAre(wire, k + 1, attempt + 1);
    }
  }

  lemma {:induction false} SendsTagged<E>(body: seq<E>, wire: nat -> Exchange, k: nat, xs: seq<Exchange>)
    requires forall i :: 0 <= i < |xs| ==> xs[i] == wire(k + i)
    ensures Sends(body, wire, k, |xs|) == Tagged(body, xs)
  {
    if xs != [] {
      SendsTagged(body, wire, k, xs[..|xs| - 1]);
    }
  }

  lemma SendsAttempts<E>(body: seq<E>, wire: nat -> Exchange, k: nat)
    ensures Sends(body, wire, k, |Attempts(wire, k, 1)|) == Tagged(body, Attempts(wire, k, 1))
  {
    AttemptsAre(wire, k, 1);
    SendsTagged(body, wire, k, Attempts(wire, k, 1));
  }

  lemma AttemptsNext(wire: nat -> Exchange, k: nat, attempt: nat)
    requires 1 <= attempt <= EVENT_POST_ATTEMPTS
    ensures var xs := Attempts(wire, k, attempt);
            && xs != []
            && (Stops(wire(k), attempt) ==> |xs| == 1 && Outcome(xs) == wire(k).failure)
            && (!Stops(wire(k), attempt) ==>
                  && |xs| == 1 + |Attempts(wire, k + 1, attempt + 1)|
                  && Attempts(wire, k + 1, attempt + 1) != []
                  && Outcome(xs) == Outcome(Attempts(wire, k + 1, attempt + 1)))
  {
    if !Stops(wire(k), attempt) { AttemptsStop(wire, k + 1, attempt + 1); }
  }

  /** One chunk: the number of requests it took, and its failure if it failed. */
  method PostBody<E>(body: seq<E>, wire: nat -> Exchange, k: nat) returns (n: nat, failure: Option<Failure>)
    ensures n == |Attempts(wire, k, 1)|
    ensures Attempts(wire, k, 1) != [] && failure == Outcome(Attempts(wire, k, 1))
  {
    hide Attempts, IsProvablyUnapplied, Outcome;
    ghost var all := Attempts(wire, k, 1);
    AttemptsNext(wire, k, 1);
    var attempt := 1;
    while true
      invariant 1 <= attempt <= EVENT_POST_ATTEMPTS
      invariant Attempts(wire, k + attempt - 1, attempt) != []
      invariant |all| == attempt - 1 + |Attempts(wire, k + attempt - 1, attempt)|
      invariant Outcome(all) == Outcome(Attempts(wire, k + attempt - 1, attempt))
      decreases EVENT_POST_ATTEMPTS - attempt
    {
      var reply := wire(k + attempt - 1);
      AttemptsNext(wire, k + attempt - 1, attempt);
      if reply.failure.None? {
        return attempt, None;
      }
      if attempt >= EVENT_POST_ATTEMPTS || !IsProvablyUnapplied(reply.failure.value) {
        return attempt, reply.failure;
      }
      attempt := attempt + 1;
    }
  }
}
