/** The report chain (apps/runner/src/report-chain.ts): posts made singly and
    in order, within a bound, and a turn's end re-sent while it
    provably never applied. */
module ReportChain {
  import opened Wrappers
  import opened ControlPlane

  const MAX_QUEUED_REPORTS: nat := 200
  const TERMINAL_RESERVE: nat := 64
  const MAX_PENDING_RESENDS: nat := 64
  const MAX_PENDING_RESENDS_PER_SANDBOX: nat := 8
  const MAX_RESENDS: nat := 64

  type SandboxId = string

  /** A reported event is named by its place among all reports made. */
  type Id = nat

  datatype Report = TurnFinished(sandboxId: SandboxId, errorCode: Option<string>) | OtherReport(sandboxId: SandboxId)

  const DEATH_CODES: set<string> := {"agent_start_failed", "agent_restarted"}

  /** `TurnFinished` without one of the death codes. */
  predicate IsResendable(r: Report) {
    r.TurnFinished? && !(r.errorCode.Some? && r.errorCode.value in DEATH_CODES)
  }

  /** A job on the chain: the first post of a report, or a re-send of one. */
  datatype Job = First(id: Id) | Again(id: Id)

  /** A post that was made: for which report, and the requests it took. */
  datatype PostMade = PostMade(id: Id, exchanges: seq<Exchange>)

  /** `queue` is the chain, its head in flight; `resending` holds, for each
      re-send loop, the attempts it has finished, and `asleep` the loops waiting
      out their backoff. */
  datatype Chain = Chain(
    reports: seq<Report>,
    queue: seq<Job>,
    pending: map<SandboxId, nat>,
    total: int,
    resending: map<Id, nat>,
    asleep: set<Id>,
    posts: seq<PostMade>)

  const Quiet := Chain([], [], map[], 0, map[], {}, [])

  // ---------------------------------------------------------------- steps

  function PendingOf(c: Chain, sandboxId: SandboxId): nat {
    if sandboxId in c.pending then c.pending[sandboxId] else 0
  }

  function Cap(r: Report): nat {
    if r.TurnFinished? then MAX_QUEUED_REPORTS + TERMINAL_RESERVE else MAX_QUEUED_REPORTS
  }

  function Reported(c: Chain, r: Report): Chain {
    var id := |c.reports|;
    c.(reports := c.reports + [r], queue := if |c.queue| >= Cap(r) then c.queue else c.queue + [First(id)])
  }

  predicate CanHold(c: Chain, sandboxId: SandboxId) {
    c.total < MAX_PENDING_RESENDS && PendingOf(c, sandboxId) < MAX_PENDING_RESENDS_PER_SANDBOX
  }

  function Hold(c: Chain, id: Id, sandboxId: SandboxId): Chain {
    c.(pending := c.pending[sandboxId := PendingOf(c, sandboxId) + 1], total := c.total + 1,
       resending := c.resending[id := 0], asleep := c.asleep + {id})
  }

  function Fewer(pending: map<SandboxId, nat>, sandboxId: SandboxId): map<SandboxId, nat> {
    var held := if sandboxId in pending then pending[sandboxId] else 1;
    if held > 1 then pending[sandboxId := held - 1] else pending - {sandboxId}
  }

  function Release(c: Chain, id: Id, sandboxId: SandboxId): Chain {
    c.(pending := Fewer(c.pending, sandboxId), total := c.total - 1, resending := c.resending - {id})
  }

  /** The head's first post came back with this outcome. */
  function FirstSettled(c: Chain, id: Id, failure: Option<Failure>): Chain
    requires id < |c.reports|
  {
    var r := c.reports[id];
    if failure.Some? && IsResendable(r) && IsProvablyUnapplied(failure.value) && CanHold(c, r.sandboxId)
    then Hold(c, id, r.sandboxId) else c
  }

  /** A re-send came back with this outcome. */
  function AgainSettled(c: Chain, id: Id, failure: Option<Failure>): Chain
    requires id < |c.reports| && id in c.resending
  {
    var attempt := c.resending[id] + 1;
    if failure.None? || !IsProvablyUnapplied(failure.value) || attempt >= MAX_RESENDS
    then Release(c, id, c.reports[id].sandboxId)
    else c.(resending := c.resending[id := attempt], asleep := c.asleep + {id})
  }

  function Settled(c: Chain, exchanges: seq<Exchange>): Chain
    requires c.queue != [] && exchanges != [] && Sane(c)
  {
    var d := c.(queue := c.queue[1..], posts := c.posts + [PostMade(c.queue[0].id, exchanges)]);
    match c.queue[0]
    case First(id) => FirstSettled(d, id, Outcome(exchanges))
    case Again(id) => AgainSettled(d, id, Outcome(exchanges))
  }

  function Woken(c: Chain, id: Id): Chain {
    c.(asleep := c.asleep - {id}, queue := c.queue + [Again(id)])
  }

  /** What makes the head's settlement well defined. */
  ghost predicate Sane(c: Chain) {
    && (forall i :: 0 <= i < |c.queue| ==> c.queue[i].id < |c.reports|)
    && (forall i :: 0 <= i < |c.queue| && c.queue[i].Again? ==> c.queue[i].id in c.resending)
  }

  /** A report is made; the post in flight settles; a backoff runs out. */
  datatype Op = Reports(report: Report) | Settles(exchanges: seq<Exchange>) | Wakes(id: Id)

  ghost predicate Legal(c: Chain, op: Op) {
    match op
    case Reports(_) => true
    case Settles(exchanges) => c.queue != [] && IsPost(exchanges) && forall i :: 0 <= i < |exchanges| ==> Truthful(exchanges[i])
    case Wakes(id) => id in c.asleep
  }

  ghost function Step(c: Chain, op: Op): Chain
    requires Sane(c) && Legal(c, op)
  {
    match op
    case Reports(report) => Reported(c, report)
    case Settles(exchanges) => Settled(c, exchanges)
    case Wakes(id) => Woken(c, id)
  }

  // ---------------------------------------------------------------- what runs keep

  function Agains(queue: seq<Job>): nat {
    if queue == [] then 0 else Agains(queue[1..]) + if queue[0].Again? then 1 else 0
  }

  /** The re-send loops of a sandbox. */
  function LoopsOf(resending: map<Id, nat>, reports: seq<Report>, sandboxId: SandboxId): set<Id> {
    set id | id in resending && id < |reports| && reports[id].sandboxId == sandboxId
  }

  /** Each loop belongs to a resendable report and is either asleep or has one
      job on the chain; the counts are those of the loops, within both caps. */
  ghost predicate Loops(c: Chain) {
    && Sane(c)
    && (forall id :: id in c.resending ==> id < |c.reports| && IsResendable(c.reports[id]) && c.resending[id] < MAX_RESENDS)
    && (forall id :: id in c.asleep ==> id in c.resending)
    && (forall i :: 0 <= i < |c.queue| && c.queue[i].Again? ==> c.queue[i].id !in c.asleep)
    && (forall i, j :: 0 <= i < j < |c.queue| && c.queue[i].Again? && c.queue[j].Again? ==> c.queue[i].id != c.queue[j].id)
    && Agains(c.queue) + |c.asleep| == |c.resending|
    && c.total == |c.resending| <= MAX_PENDING_RESENDS
    && |c.queue| - Agains(c.queue) <= MAX_QUEUED_REPORTS + TERMINAL_RESERVE
  }

  ghost predicate Counted(c: Chain) {
    forall sandboxId ::
      && PendingOf(c, sandboxId) == |LoopsOf(c.resending, c.reports, sandboxId)| <= MAX_PENDING_RESENDS_PER_SANDBOX
      && (sandboxId in c.pending ==> c.pending[sandboxId] > 0)
  }

  /** First posts wait in the order reported, ahead of nothing already posted. */
  ghost predicate Ordered(c: Chain) {
    && (forall i :: 0 <= i < |c.queue| && c.queue[i].First? ==> c.queue[i].id < |c.reports| && c.queue[i].id !in c.resending)
    && (forall i, j :: 0 <= i < j < |c.queue| && c.queue[i].First? && c.queue[j].First? ==> c.queue[i].id < c.queue[j].id)
    && (forall i, p :: 0 <= i < |c.queue| && c.queue[i].First? && 0 <= p < |c.posts| ==> c.posts[p].id < c.queue[i].id)
    && (forall p :: 0 <= p < |c.posts| ==> c.posts[p].id < |c.reports|)
    && (forall p, q :: 0 <= p < q < |c.posts| && !IsResendable(c.reports[c.posts[q].id]) ==> c.posts[p].id < c.posts[q].id)
    && (forall p :: 0 <= p < |c.posts| ==> IsPost(c.posts[p].exchanges))
  }

  function PostsOf(posts: seq<PostMade>, id: Id): nat {
    if posts == [] then 0 else PostsOf(posts[..|posts| - 1], id) + if posts[|posts| - 1].id == id then 1 else 0
  }

  /** How often the server applied a report. */
  function TimesApplied(posts: seq<PostMade>, id: Id): nat {
    if posts == [] then 0
    else
      TimesApplied(posts[..|posts| - 1], id)
      + if posts[|posts| - 1].id == id then Applications(posts[|posts| - 1].exchanges) else 0
  }

  ghost predicate Waiting(c: Chain, id: Id) {
    exists i :: 0 <= i < |c.queue| && c.queue[i] == First(id)
  }

  /** A report is applied at most once, not at all while it waits or is being
      re-sent, and posted again only if it is resendable. */
  ghost predicate OnceEach(c: Chain, id: Id) {
    && TimesApplied(c.posts, id) <= 1
    && PostsOf(c.posts, id) <= 1 + MAX_RESENDS
    && (id in c.resending ==> TimesApplied(c.posts, id) == 0 && PostsOf(c.posts, id) == c.resending[id] + 1)
    && (id >= |c.reports| ==> PostsOf(c.posts, id) == 0 && TimesApplied(c.posts, id) == 0)
    && (Waiting(c, id) ==> PostsOf(c.posts, id) == 0 && TimesApplied(c.posts, id) == 0)
    && (PostsOf(c.posts, id) > 1 ==> id < |c.reports| && IsResendable(c.reports[id]))
  }

  lemma {:induction false} AgainsLast(queue: seq<Job>, job: Job)
    ensures Agains(queue + [job]) == Agains(queue) + if job.Again? then 1 else 0
  {
    if queue == [] {
      assert [job][1..] == [];
    } else {
      assert (queue + [job])[1..] == queue[1..] + [job];
      AgainsLast(queue[1..], job);
    }
  }

  lemma {:induction false} AgainsWithin(queue: seq<Job>)
    ensures Agains(queue) <= |queue|
  {
    if queue != [] { AgainsWithin(queue[1..]); }
  }

  // The loops.

  lemma ReportedLoops(c: Chain, r: Report)
    requires Loops(c)
    ensures Loops(Reported(c, r))
  {
    hide Agains, IsResendable;
    AgainsLast(c.queue, First(|c.reports|));
    AgainsWithin(c.queue);
  }

  lemma WokenLoops(c: Chain, id: Id)
    requires Loops(c) && id in c.asleep
    ensures Loops(Woken(c, id))
  {
    hide Agains, IsResendable;
    AgainsLast(c.queue, Again(id));
  }

  lemma NewCards(m: map<Id, nat>, asleep: set<Id>, id: Id)
    requires id !in m && asleep <= m.Keys
    ensures |m[id := 0]| == |m| + 1 && |asleep + {id}| == |asleep| + 1
  {
    assert m[id := 0].Keys == m.Keys + {id};
    assert id !in asleep;
  }

  /** A new loop, asleep, in a chain that is otherwise as it was. */
  lemma NewLoop(c: Chain, d: Chain, id: Id)
    requires Loops(c) && id < |c.reports| && id !in c.resending && IsResendable(c.reports[id]) && c.total < MAX_PENDING_RESENDS
    requires d.reports == c.reports && d.queue == c.queue && d.total == c.total + 1
    requires d.resending == c.resending[id := 0] && d.asleep == c.asleep + {id}
    ensures Loops(d)
  {
    hide Agains, IsResendable;
    NewCards(c.resending, c.asleep, id);
  }

  lemma HoldLoops(c: Chain, id: Id)
    requires Loops(c) && id < |c.reports| && id !in c.resending && IsResendable(c.reports[id])
    requires CanHold(c, c.reports[id].sandboxId)
    ensures Loops(Hold(c, id, c.reports[id].sandboxId))
  {
    hide Loops, IsResendable, PendingOf;
    NewLoop(c, Hold(c, id, c.reports[id].sandboxId), id);
  }

  /** The chain with its head gone and one more post made. */
  function Popped(c: Chain, exchanges: seq<Exchange>): Chain
    requires c.queue != []
  {
    c.(queue := c.queue[1..], posts := c.posts + [PostMade(c.queue[0].id, exchanges)])
  }

  /** `Loops`, for a chain whose loop `id` has just had its job taken off. */
  ghost predicate LoopsBut(c: Chain, id: Id) {
    && Sane(c)
    && (forall x :: x in c.resending ==> x < |c.reports| && IsResendable(c.reports[x]) && c.resending[x] < MAX_RESENDS)
    && (forall x :: x in c.asleep ==> x in c.resending)
    && id in c.resending && id !in c.asleep
    && (forall i :: 0 <= i < |c.queue| && c.queue[i].Again? ==> c.queue[i].id !in c.asleep && c.queue[i].id != id)
    && (forall i, j :: 0 <= i < j < |c.queue| && c.queue[i].Again? && c.queue[j].Again? ==> c.queue[i].id != c.queue[j].id)
    && Agains(c.queue) + |c.asleep| + 1 == |c.resending|
    && c.total == |c.resending| <= MAX_PENDING_RESENDS
    && |c.queue| - Agains(c.queue) <= MAX_QUEUED_REPORTS + TERMINAL_RESERVE
  }

  lemma PoppedLoops(c: Chain, exchanges: seq<Exchange>)
    requires Loops(c) && c.queue != []
    ensures c.queue[0].First? ==> Loops(Popped(c, exchanges))
    ensures c.queue[0].Again? ==> LoopsBut(Popped(c, exchanges), c.queue[0].id)
  {
    var d := Popped(c, exchanges);
    assert forall i :: 0 <= i < |d.queue| ==> d.queue[i] == c.queue[i + 1];
  }

  lemma MapCards(m: map<Id, nat>, id: Id, n: nat)
    requires id in m
    ensures |m[id := n]| == |m| && |m - {id}| == |m| - 1
  {
    assert m[id := n].Keys == m.Keys;
    assert (m - {id}).Keys == m.Keys - {id};
    assert |m.Keys - {id}| == |m.Keys| - 1;
  }

  lemma ReleaseLoops(c: Chain, id: Id)
    requires LoopsBut(c, id)
    ensures Loops(Release(c, id, c.reports[id].sandboxId))
  {
    hide Fewer, IsResendable, Agains;
    MapCards(c.resending, id, 0);
  }

  lemma RetryLoops(c: Chain, id: Id, n: nat)
    requires LoopsBut(c, id) && n < MAX_RESENDS
    ensures Loops(c.(resending := c.resending[id := n], asleep := c.asleep + {id}))
  {
    hide IsResendable, Agains;
    MapCards(c.resending, id, n);
  }

  lemma AgainLoops(c: Chain, id: Id, failure: Option<Failure>)
    requires LoopsBut(c, id)
    ensures Loops(AgainSettled(c, id, failure))
  {
    hide Loops, Release, IsResendable, Agains;
    var n := c.resending[id] + 1;
    if failure.None? || !IsProvablyUnapplied(failure.value) || n >= MAX_RESENDS {
      ReleaseLoops(c, id);
    } else {
      RetryLoops(c, id, n);
    }
  }

  lemma SettledLoops(c: Chain, exchanges: seq<Exchange>)
    requires Loops(c) && c.queue != [] && exchanges != []
    requires c.queue[0].First? ==> c.queue[0].id !in c.resending
    ensures Loops(Settled(c, exchanges))
  {
    PoppedLoops(c, exchanges);
    var d := Popped(c, exchanges);
    var id := c.queue[0].id;
    assert id < |d.reports|;
    hide Loops, LoopsBut, Hold, AgainSettled;
    if c.queue[0].First? {
      if Outcome(exchanges).Some? && IsResendable(d.reports[id]) && CanHold(d, d.reports[id].sandboxId) {
        HoldLoops(d, id);
      }
    } else {
      AgainLoops(d, id, Outcome(exchanges));
    }
  }

  // The counts.

  lemma ReportedCounted(c: Chain, r: Report)
    requires Loops(c) && Counted(c)
    ensures Counted(Reported(c, r))
  {
    var d := Reported(c, r);
    forall sandboxId ensures PendingOf(d, sandboxId) == |LoopsOf(d.resending, d.reports, sandboxId)| <= MAX_PENDING_RESENDS_PER_SANDBOX
    {
      assert LoopsOf(d.resending, d.reports, sandboxId) == LoopsOf(c.resending, c.reports, sandboxId);
      assert PendingOf(c, sandboxId) == PendingOf(d, sandboxId);
    }
  }

  lemma LoopsOfMore(resending: map<Id, nat>, reports: seq<Report>, id: Id, sandboxId: SandboxId)
    requires id < |reports| && id !in resending
    ensures |LoopsOf(resending[id := 0], reports, sandboxId)|
            == |LoopsOf(resending, reports, sandboxId)| + if reports[id].sandboxId == sandboxId then 1 else 0
  {
    assert id !in LoopsOf(resending, reports, sandboxId);
    assert LoopsOf(resending[id := 0], reports, sandboxId)
        == LoopsOf(resending, reports, sandboxId) + if reports[id].sandboxId == sandboxId then {id} else {};
  }

  lemma HoldCounted(c: Chain, id: Id)
    requires Counted(c) && id < |c.reports| && id !in c.resending && CanHold(c, c.reports[id].sandboxId)
    ensures Counted(Hold(c, id, c.reports[id].sandboxId))
  {
    hide LoopsOf;
    var owner := c.reports[id].sandboxId;
    var d := Hold(c, id, owner);
    forall sandboxId ensures && PendingOf(d, sandboxId) == |LoopsOf(d.resending, d.reports, sandboxId)| <= MAX_PENDING_RESENDS_PER_SANDBOX
                             && (sandboxId in d.pending ==> d.pending[sandboxId] > 0)
    {
      assert PendingOf(c, sandboxId) == |LoopsOf(c.resending, c.reports, sandboxId)|;
      LoopsOfMore(c.resending, c.reports, id, sandboxId);
    }
  }

  lemma LoopsOfFewer(resending: map<Id, nat>, reports: seq<Report>, id: Id, sandboxId: SandboxId)
    requires id < |reports| && id in resending
    ensures |LoopsOf(resending - {id}, reports, sandboxId)|
            == |LoopsOf(resending, reports, sandboxId)| - if reports[id].sandboxId == sandboxId then 1 else 0
    ensures reports[id].sandboxId == sandboxId ==> |LoopsOf(resending, reports, sandboxId)| > 0
  {
    assert LoopsOf(resending - {id}, reports, sandboxId)
        == LoopsOf(resending, reports, sandboxId) - if reports[id].sandboxId == sandboxId then {id} else {};
    assert reports[id].sandboxId == sandboxId ==> id in LoopsOf(resending, reports, sandboxId);
  }

  lemma ReleaseCounted(c: Chain, id: Id)
    requires Counted(c) && id < |c.reports| && id in c.resending
    ensures Counted(Release(c, id, c.reports[id].sandboxId))
  {
    hide LoopsOf;
    var owner := c.reports[id].sandboxId;
    var d := Release(c, id, owner);
    assert PendingOf(c, owner) == |LoopsOf(c.resending, c.reports, owner)|;
    forall sandboxId ensures && PendingOf(d, sandboxId) == |LoopsOf(d.resending, d.reports, sandboxId)| <= MAX_PENDING_RESENDS_PER_SANDBOX
                             && (sandboxId in d.pending ==> d.pending[sandboxId] > 0)
    {
      assert PendingOf(c, sandboxId) == |LoopsOf(c.resending, c.reports, sandboxId)|;
      LoopsOfFewer(c.resending, c.reports, id, sandboxId);
    }
  }

  lemma SameCounted(c: Chain, d: Chain)
    requires Counted(c) && d.pending == c.pending && d.reports == c.reports && d.resending.Keys == c.resending.Keys
    ensures Counted(d)
  {
    forall sandboxId ensures LoopsOf(d.resending, d.reports, sandboxId) == LoopsOf(c.resending, c.reports, sandboxId)
                             && PendingOf(d, sandboxId) == PendingOf(c, sandboxId) {}
  }

  lemma LoopsHead(c: Chain)
    requires Loops(c) && c.queue != []
    ensures Sane(c) && c.queue[0].id < |c.reports|
    ensures c.queue[0].Again? ==> c.queue[0].id in c.resending
  {
  }

  lemma SettledCounted(c: Chain, exchanges: seq<Exchange>)
    requires Loops(c) && Counted(c) && c.queue != [] && exchanges != []
    requires c.queue[0].First? ==> c.queue[0].id !in c.resending
    ensures Counted(Settled(c, exchanges))
  {
    hide Counted, Loops, Hold, Release, LoopsOf, IsResendable, IsProvablyUnapplied;
    LoopsHead(c);
    var d := Popped(c, exchanges);
    var id := c.queue[0].id;
    SameCounted(c, d);
    if c.queue[0].First? {
      if CanHold(d, d.reports[id].sandboxId) { HoldCounted(d, id); }
    } else {
      ReleaseCounted(d, id);
      var n := d.resending[id] + 1;
      SameCounted(d, d.(resending := d.resending[id := n], asleep := d.asleep + {id}));
    }
  }

  // The order.

  /** The order with one more report known, whether or not its first post waits. */
  lemma OrderedMore(c: Chain, d: Chain, r: Report)
    requires Ordered(c) && d.reports == c.reports + [r] && d.posts == c.posts && d.resending == c.resending
    requires d.queue == c.queue || d.queue == c.queue + [First(|c.reports|)]
    requires |c.reports| !in c.resending
    ensures Ordered(d)
  {
    hide IsPost, IsResendable;
    assert forall p :: 0 <= p < |c.posts| ==> d.reports[c.posts[p].id] == c.reports[c.posts[p].id];
    assert forall i :: 0 <= i < |c.queue| ==> d.queue[i] == c.queue[i];
  }

  lemma ReportedOrdered(c: Chain, r: Report)
    requires Loops(c) && Ordered(c)
    ensures Ordered(Reported(c, r))
  {
    assert forall id :: id in c.resending ==> id < |c.reports|;
    hide Loops, Ordered;
    OrderedMore(c, Reported(c, r), r);
  }

  lemma WokenOrdered(c: Chain, id: Id)
    requires Ordered(c)
    ensures Ordered(Woken(c, id))
  {
  }

  lemma PoppedOrdered(c: Chain, exchanges: seq<Exchange>)
    requires Loops(c) && Ordered(c) && c.queue != [] && IsPost(exchanges)
    requires forall i :: 0 <= i < |c.queue| && c.queue[i].First? && c.queue[0].Again? ==> c.queue[0].id < c.queue[i].id
    ensures Ordered(Popped(c, exchanges))
    ensures forall i :: 0 <= i < |Popped(c, exchanges).queue| && Popped(c, exchanges).queue[i].First?
                        ==> c.queue[0].id < Popped(c, exchanges).queue[i].id
  {
    hide IsPost;
    var d := Popped(c, exchanges);
    assert forall i :: 0 <= i < |d.queue| ==> d.queue[i] == c.queue[i + 1];
    assert forall p :: 0 <= p < |c.posts| ==> d.posts[p] == c.posts[p];
  }

  /** A re-send's report was posted before, so it is older than any waiting one. */
  lemma AgainIsOld(c: Chain, id: Id)
    requires Ordered(c) && PostsOf(c.posts, id) > 0
    ensures forall i :: 0 <= i < |c.queue| && c.queue[i].First? ==> id < c.queue[i].id
  {
    var p := PostedAt(c.posts, id);
    assert c.posts[p].id == id;
  }

  lemma {:induction false} PostedAt(posts: seq<PostMade>, id: Id) returns (p: nat)
    requires PostsOf(posts, id) > 0
    ensures p < |posts| && posts[p].id == id
  {
    if posts[|posts| - 1].id == id { p := |posts| - 1; } else { p := PostedAt(posts[..|posts| - 1], id); }
  }

  /** What settling the head does to the loops. */
  lemma SettledFrame(c: Chain, exchanges: seq<Exchange>)
    requires Sane(c) && c.queue != [] && exchanges != []
    ensures var e := Settled(c, exchanges);
            && e.reports == c.reports
            && e.queue == c.queue[1..]
            && e.posts == c.posts + [PostMade(c.queue[0].id, exchanges)]
            && (forall x :: x != c.queue[0].id ==> (x in e.resending <==> x in c.resending))
            && (forall x :: x != c.queue[0].id && x in c.resending ==> e.resending[x] == c.resending[x])
            && (c.queue[0].id in e.resending && c.queue[0].First? && c.queue[0].id !in c.resending ==>
                  && e.resending[c.queue[0].id] == 0
                  && Unapplied(exchanges[|exchanges| - 1])
                  && IsResendable(c.reports[c.queue[0].id]))
            && (c.queue[0].id in e.resending && c.queue[0].Again? ==>
                  && e.resending[c.queue[0].id] == c.resending[c.queue[0].id] + 1
                  && Unapplied(exchanges[|exchanges| - 1]))
  {
    hide PendingOf, Fewer, IsProvablyUnapplied;
  }

  lemma SettledOrdered(c: Chain, exchanges: seq<Exchange>)
    requires Loops(c) && Ordered(c) && c.queue != [] && IsPost(exchanges)
    requires c.queue[0].Again? ==> PostsOf(c.posts, c.queue[0].id) > 0
    ensures Ordered(Settled(c, exchanges))
  {
    assert exchanges != [];
    hide IsPost, Loops, Settled, IsResendable, PostsOf;
    if c.queue[0].Again? { AgainIsOld(c, c.queue[0].id); }
    LoopsHead(c);
    PoppedOrdered(c, exchanges);
    SettledFrame(c, exchanges);
  }

  // Once each.

  lemma PostedMore(posts: seq<PostMade>, post: PostMade, id: Id)
    ensures PostsOf(posts + [post], id) == PostsOf(posts, id) + if post.id == id then 1 else 0
    ensures TimesApplied(posts + [post], id) == TimesApplied(posts, id) + if post.id == id then Applications(post.exchanges) else 0
  {
    assert (posts + [post])[..|posts|] == posts;
  }

  lemma ReportedOnce(c: Chain, r: Report, id: Id)
    requires OnceEach(c, id) && Sane(c)
    ensures OnceEach(Reported(c, r), id)
  {
    var d := Reported(c, r);
    if Waiting(d, id) && !Waiting(c, id) {
      assert id == |c.reports|;
    }
  }

  lemma WokenOnce(c: Chain, id: Id, x: Id)
    requires OnceEach(c, x)
    ensures OnceEach(Woken(c, id), x)
  {
    var d := Woken(c, id);
    if Waiting(d, x) {
      var i :| 0 <= i < |d.queue| && d.queue[i] == First(x);
      assert c.queue[i] == First(x);
    }
  }

  lemma SettledOther(c: Chain, exchanges: seq<Exchange>, id: Id)
    requires Sane(c) && OnceEach(c, id) && c.queue != [] && exchanges != [] && c.queue[0].id != id
    ensures OnceEach(Settled(c, exchanges), id)
  {
    hide Settled;
    SettledFrame(c, exchanges);
    var e := Settled(c, exchanges);
    PostedMore(c.posts, PostMade(c.queue[0].id, exchanges), id);
    if Waiting(e, id) {
      var i :| 0 <= i < |e.queue| && e.queue[i] == First(id);
      assert c.queue[i + 1] == First(id);
    }
  }

  /** The head's own report: nothing of it is applied twice. */
  lemma SettledHead(c: Chain, exchanges: seq<Exchange>)
    requires Loops(c) && Ordered(c) && c.queue != [] && OnceEach(c, c.queue[0].id)
    requires IsPost(exchanges) && forall i :: 0 <= i < |exchanges| ==> Truthful(exchanges[i])
    ensures OnceEach(Settled(c, exchanges), c.queue[0].id)
  {
    hide Settled, Applications, PostsOf, TimesApplied, IsResendable, Agains;
    var head := c.queue[0];
    var id := head.id;
    var e := Settled(c, exchanges);
    SettledFrame(c, exchanges);
    PostAppliesOnce(exchanges);
    PostedMore(c.posts, PostMade(id, exchanges), id);
    assert head.First? ==> head == First(id) && Waiting(c, id);
    assert !Waiting(e, id) by {
      forall i | 0 <= i < |e.queue| ensures e.queue[i] != First(id) {
        assert e.queue[i] == c.queue[i + 1];
        if head.Again? { assert id in c.resending; }
      }
    }
    assert head.Again? ==> id in c.resending && IsResendable(c.reports[id]) && c.resending[id] < MAX_RESENDS;
  }

  lemma SettledOnce(c: Chain, exchanges: seq<Exchange>, id: Id)
    requires Loops(c) && Ordered(c) && OnceEach(c, id) && c.queue != []
    requires IsPost(exchanges) && forall i :: 0 <= i < |exchanges| ==> Truthful(exchanges[i])
    ensures OnceEach(Settled(c, exchanges), id)
  {
    if c.queue[0].id == id { SettledHead(c, exchanges); } else { SettledOther(c, exchanges, id); }
  }

  // ---------------------------------------------------------------- runs

  ghost predicate Keeps(c: Chain) {
    Loops(c) && Counted(c) && Ordered(c) && forall id :: OnceEach(c, id)
  }

  ghost predicate Possible(ops: seq<Op>)
    decreases |ops|, 0
  {
    ops == []
    || (&& Possible(ops[..|ops| - 1])
        && Sane(Run(ops[..|ops| - 1]))
        && Legal(Run(ops[..|ops| - 1]), ops[|ops| - 1]))
  }

  ghost function Run(ops: seq<Op>): Chain
    requires Possible(ops)
    decreases |ops|, 1
  {
    if ops == [] then Quiet else Step(Run(ops[..|ops| - 1]), ops[|ops| - 1])
  }

  lemma HeadFacts(c: Chain)
    requires Keeps(c) && c.queue != []
    ensures c.queue[0].First? ==> c.queue[0].id !in c.resending
    ensures c.queue[0].Again? ==> PostsOf(c.posts, c.queue[0].id) > 0
  {
    assert OnceEach(c, c.queue[0].id);
  }

  lemma SettlesKeeps(c: Chain, exchanges: seq<Exchange>)
    requires Keeps(c) && Legal(c, Settles(exchanges))
    ensures Keeps(Settled(c, exchanges))
  {
    HeadFacts(c);
    hide Loops, Counted, Ordered, OnceEach, IsPost;
    SettledLoops(c, exchanges);
    SettledCounted(c, exchanges);
    SettledOrdered(c, exchanges);
    forall id ensures OnceEach(Settled(c, exchanges), id) { SettledOnce(c, exchanges, id); }
  }

  lemma ReportsKeeps(c: Chain, r: Report)
    requires Keeps(c)
    ensures Keeps(Reported(c, r))
  {
    assert Sane(c);
    hide Loops, Counted, Ordered, OnceEach;
    ReportedLoops(c, r);
    ReportedCounted(c, r);
    ReportedOrdered(c, r);
    forall id ensures OnceEach(Reported(c, r), id) { ReportedOnce(c, r, id); }
  }

  lemma WakesKeeps(c: Chain, id: Id)
    requires Keeps(c) && id in c.asleep
    ensures Keeps(Woken(c, id))
  {
    hide Loops, Counted, Ordered, OnceEach;
    WokenLoops(c, id);
    SameCounted(c, Woken(c, id));
    WokenOrdered(c, id);
    forall x ensures OnceEach(Woken(c, id), x) { WokenOnce(c, id, x); }
  }

  lemma StepKeeps(c: Chain, op: Op)
    requires Keeps(c) && Sane(c) && Legal(c, op)
    ensures Keeps(Step(c, op)) && Sane(Step(c, op))
  {
    match op
    case Reports(report) => ReportsKeeps(c, report);
    case Settles(exchanges) => SettlesKeeps(c, exchanges);
    case Wakes(id) => WakesKeeps(c, id);
  }

  lemma QuietKeeps()
    ensures Keeps(Quiet)
  {
    forall sandboxId ensures LoopsOf(map[], [], sandboxId) == {} {}
    assert Counted(Quiet);
  }

  lemma {:induction false} RunKeeps(ops: seq<Op>)
    requires Possible(ops)
    ensures Keeps(Run(ops))
  {
    hide Keeps, Step, Legal, Sane;
    if ops == [] {
      QuietKeeps();
    } else {
      RunKeeps(ops[..|ops| - 1]);
      StepKeeps(Run(ops[..|ops| - 1]), ops[|ops| - 1]);
    }
  }

  /** Through both retry layers and under any pattern of failures: a reported
      event is applied at most once; only a turn's end that is no death report is
      ever posted again, and at most 64 more times. */
  lemma AtMostOnce(ops: seq<Op>, id: Id)
    requires Possible(ops)
    ensures var c := Run(ops);
            && TimesApplied(c.posts, id) <= 1
            && PostsOf(c.posts, id) <= 65
            && (PostsOf(c.posts, id) > 1 ==>
                  && id < |c.reports|
                  && c.reports[id].TurnFinished?
                  && c.reports[id].errorCode != Some("agent_start_failed")
                  && c.reports[id].errorCode != Some("agent_restarted"))
  {
    RunKeeps(ops);
    assert OnceEach(Run(ops), id);
  }

  /** The chain never outgrows its bound, and re-sends stay within both caps. */
  lemma QueueBounded(ops: seq<Op>, sandboxId: SandboxId)
    requires Possible(ops)
    ensures var c := Run(ops);
            && |c.queue| <= MAX_QUEUED_REPORTS + TERMINAL_RESERVE + MAX_PENDING_RESENDS
            && c.total == |c.resending| <= MAX_PENDING_RESENDS
            && PendingOf(c, sandboxId) == |LoopsOf(c.resending, c.reports, sandboxId)| <= MAX_PENDING_RESENDS_PER_SANDBOX
  {
    RunKeeps(ops);
  }

  /** A report that is never re-sent, a transcript event say, is never posted
      after one reported later: a turn's end cannot overtake it. */
  lemma NeverOvertaken(ops: seq<Op>, p: nat, q: nat)
    requires Possible(ops)
    requires p < q < |Run(ops).posts|
    requires Run(ops).posts[q].id < |Run(ops).reports| && !IsResendable(Run(ops).reports[Run(ops).posts[q].id])
    ensures Run(ops).posts[p].id < Run(ops).posts[q].id
  {
    RunKeeps(ops);
  }

  /** A run stays well formed whatever legal step comes next, so no later step
      can get stuck on a head that was lost. */
  lemma AnyLegalStepRuns(ops: seq<Op>, op: Op)
    requires Possible(ops) && Legal(Run(ops), op)
    ensures Possible(ops + [op])
  {
    RunKeeps(ops);
    assert (ops + [op])[..|ops|] == ops;
  }

  // ---------------------------------------------------------------- what is re-sent

  /** A turn's end that is no death report, and only that, is taken up for
      re-sending when its post provably never applied, as long as fewer than 64
      re-sends are pending in all and fewer than 8 of its sandbox. */
  lemma LostEndIsHeld(c: Chain, exchanges: seq<Exchange>, id: Id)
    requires Keeps(c) && Legal(c, Settles(exchanges)) && c.queue[0] == First(id)
    ensures Sane(c) && id < |c.reports|
    ensures id in Settled(c, exchanges).resending
            <==> var r := c.reports[id];
                 && Unapplied(exchanges[|exchanges| - 1])
                 && r.TurnFinished?
                 && r.errorCode != Some("agent_start_failed") && r.errorCode != Some("agent_restarted")
                 && |c.resending| < 64
                 && |LoopsOf(c.resending, c.reports, r.sandboxId)| < 8
  {
    hide IsProvablyUnapplied, LoopsOf;
    HeadFacts(c);
    assert PendingOf(c, c.reports[id].sandboxId) == |LoopsOf(c.resending, c.reports, c.reports[id].sandboxId)|;
  }

  /** It stops being re-sent only once a post of it succeeds or may have landed, or
      after its first post and 64 more. */
  lemma ResendsUntil(c: Chain, op: Op, id: Id)
    requires Keeps(c) && Sane(c) && Legal(c, op)
    requires id in c.resending && id !in Step(c, op).resending
    ensures op.Settles? && c.queue[0] == Again(id)
    ensures !Unapplied(op.exchanges[|op.exchanges| - 1]) || PostsOf(Step(c, op).posts, id) == 1 + MAX_RESENDS
  {
    hide Keeps, Sane, IsPost, IsProvablyUnapplied, IsResendable, PostsOf, Settled;
    if op.Settles? { LoopLeaves(c, op.exchanges, id); }
  }

  lemma LoopLeaves(c: Chain, exchanges: seq<Exchange>, id: Id)
    requires Keeps(c) && Sane(c) && Legal(c, Settles(exchanges))
    requires id in c.resending && id !in Settled(c, exchanges).resending
    ensures c.queue[0] == Again(id)
    ensures !Unapplied(exchanges[|exchanges| - 1]) || PostsOf(Settled(c, exchanges).posts, id) == 1 + MAX_RESENDS
  {
    HeadFacts(c);
    LoopCounts(c, id);
    PostedMore(c.posts, PostMade(c.queue[0].id, exchanges), id);
    hide Keeps, IsProvablyUnapplied, IsResendable, PostsOf, TimesApplied, Hold, CanHold, Fewer;
    LoopHead(c, exchanges, id);
  }

  /** Only the settlement of its own re-send can end a loop. */
  lemma LoopHead(c: Chain, exchanges: seq<Exchange>, id: Id)
    requires Sane(c) && c.queue != [] && exchanges != []
    requires c.queue[0].First? ==> c.queue[0].id !in c.resending
    requires id in c.resending && id !in Settled(c, exchanges).resending
    ensures c.queue[0] == Again(id)
    ensures Settled(c, exchanges).posts == c.posts + [PostMade(id, exchanges)]
    ensures !Unapplied(exchanges[|exchanges| - 1]) || c.resending[id] + 1 >= MAX_RESENDS
  {
    hide IsProvablyUnapplied, IsResendable, PendingOf, Fewer;
  }

  lemma LoopCounts(c: Chain, id: Id)
    requires Keeps(c) && id in c.resending
    ensures PostsOf(c.posts, id) == c.resending[id] + 1 && c.resending[id] < MAX_RESENDS
  {
    assert OnceEach(c, id);
  }

  // ---------------------------------------------------------------- what becomes of a report

  /** The step that makes report `id`, with the chain it finds. */
  ghost predicate MakesReport(ops: seq<Op>, k: nat, id: Id) {
    && k < |ops| && Possible(ops[..k]) && ops[k].Reports? && |Run(ops[..k]).reports| == id
  }

  /** As many jobs wait as the chain takes reports of this kind for. */
  predicate QueueFull(c: Chain, r: Report) {
    |c.queue| >= if r.TurnFinished? then 264 else 200
  }

  lemma StepReports(c: Chain, op: Op)
    requires Sane(c) && Legal(c, op)
    ensures Step(c, op).reports == if op.Reports? then c.reports + [op.report] else c.reports
  {
    hide PendingOf, Fewer, IsProvablyUnapplied, IsResendable;
  }

  lemma {:induction false} MadeBy(ops: seq<Op>, id: Id) returns (k: nat)
    requires Possible(ops) && id < |Run(ops).reports|
    ensures MakesReport(ops, k, id) && ops[k].report == Run(ops).reports[id]
  {
    hide Step, Legal, Sane;
    var init, op := ops[..|ops| - 1], ops[|ops| - 1];
    StepReports(Run(init), op);
    if id < |Run(init).reports| {
      k := MadeBy(init, id);
      assert ops[..k] == init[..k] && ops[k] == init[k];
    } else {
      k := |ops| - 1;
    }
  }

  /** Each report was posted, waits for its first post, or was made to a full chain. */
  ghost predicate Accounted(c: Chain, id: Id, full: bool) {
    (PostsOf(c.posts, id) > 0 || Waiting(c, id)) <==> !full
  }

  lemma NewAccounted(c: Chain, r: Report)
    requires Keeps(c)
    ensures Accounted(Reported(c, r), |c.reports|, QueueFull(c, r))
  {
    var id, d := |c.reports|, Reported(c, r);
    assert OnceEach(c, id);
    assert Sane(c);
    hide PostsOf, Loops, Counted, Ordered;
    if !QueueFull(c, r) { assert d.queue[|c.queue|] == First(id); }
  }

  lemma WaitingSettled(c: Chain, exchanges: seq<Exchange>, id: Id)
    requires Sane(c) && c.queue != [] && exchanges != []
    ensures Waiting(c, id) <==> Waiting(Settled(c, exchanges), id) || c.queue[0] == First(id)
  {
    hide Settled;
    SettledFrame(c, exchanges);
    var e := Settled(c, exchanges);
    assert forall i :: 0 <= i < |e.queue| ==> e.queue[i] == c.queue[i + 1];
    if Waiting(c, id) {
      var i :| 0 <= i < |c.queue| && c.queue[i] == First(id);
      if i > 0 { assert e.queue[i - 1] == First(id); }
    }
    if Waiting(e, id) {
      var i :| 0 <= i < |e.queue| && e.queue[i] == First(id);
      assert c.queue[i + 1] == First(id);
    }
  }

  lemma SettlesAccounted(c: Chain, exchanges: seq<Exchange>, id: Id, full: bool)
    requires Keeps(c) && Legal(c, Settles(exchanges)) && Sane(c) && id < |c.reports| && Accounted(c, id, full)
    ensures Accounted(Settled(c, exchanges), id, full)
  {
    HeadFacts(c);
    hide Settled, Keeps, PostsOf, TimesApplied, Waiting;
    WaitingSettled(c, exchanges, id);
    SettledFrame(c, exchanges);
    PostedMore(c.posts, PostMade(c.queue[0].id, exchanges), id);
  }

  lemma OldAccounted(c: Chain, op: Op, id: Id, full: bool)
    requires Keeps(c) && Sane(c) && Legal(c, op) && id < |c.reports| && Accounted(c, id, full)
    ensures Accounted(Step(c, op), id, full)
  {
    hide Keeps, PostsOf, Settled, Sane, IsPost;
    match op
    case Reports(r) => WaitingMore(c.queue, Reported(c, r).queue, First(|c.reports|), id);
    case Settles(exchanges) => SettlesAccounted(c, exchanges, id, full);
    case Wakes(x) => WaitingMore(c.queue, Woken(c, x).queue, Again(x), id);
  }

  lemma WaitingMore(before: seq<Job>, after: seq<Job>, job: Job, id: Id)
    requires (after == before || after == before + [job]) && job != First(id)
    ensures (exists i :: 0 <= i < |after| && after[i] == First(id)) <==> (exists i :: 0 <= i < |before| && before[i] == First(id))
  {
    assert forall i :: 0 <= i < |before| ==> after[i] == before[i];
  }

  lemma {:induction false} RunAccounted(ops: seq<Op>, k: nat, id: Id)
    requires Possible(ops) && MakesReport(ops, k, id)
    ensures id < |Run(ops).reports| && Accounted(Run(ops), id, QueueFull(Run(ops[..k]), ops[k].report))
  {
    hide Step, Legal, Sane, Keeps, Accounted, QueueFull;
    var init, op := ops[..|ops| - 1], ops[|ops| - 1];
    RunKeeps(init);
    StepReports(Run(init), op);
    if k == |ops| - 1 {
      NewAccounted(Run(init), op.report);
      ReportsStep(Run(init), op);
    } else {
      assert init[..k] == ops[..k] && init[k] == ops[k];
      RunAccounted(init, k, id);
      OldAccounted(Run(init), op, id, QueueFull(Run(ops[..k]), ops[k].report));
    }
  }

  lemma ReportsStep(c: Chain, op: Op)
    requires op.Reports? && Sane(c)
    ensures Step(c, op) == Reported(c, op.report)
  {
  }

  /** Over every run, what becomes of each report made: it was posted, or still
      waits for its first post, if and only if fewer jobs waited when it was made
      than the chain takes reports of its kind for: 200, and 264 for a turn's end. */
  lemma NoReportLost(ops: seq<Op>, id: Id) returns (k: nat)
    requires Possible(ops) && id < |Run(ops).reports|
    ensures MakesReport(ops, k, id) && ops[k].report == Run(ops).reports[id]
    ensures (PostsOf(Run(ops).posts, id) > 0 || Waiting(Run(ops), id))
            <==> |Run(ops[..k]).queue| < if ops[k].report.TurnFinished? then 264 else 200
  {
    hide Run, Possible, PostsOf, Waiting;
    k := MadeBy(ops, id);
    RunAccounted(ops, k, id);
  }
}
