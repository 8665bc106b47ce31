/** The lifecycle executor of the runner (apps/runner/src/runner.ts:386-444 and
    1895-1985): claimed work routed onto its sandbox's chain, re-dispatched starts
    and stops folded into the queued one, starts gated by the semaphore. */
module Lifecycle {
  import KeyedChains
  import Semaphores

  type SandboxId = string
  type Hash = string

  /** Claimed work; a start is told apart by the hash of its payload. */
  datatype Item = Start(hash: Hash) | Stop(payload: string) | Other(work: string)

  /** How far a piece of work has come. A start waits for its slot, boots, then
      reports, holding the slot until the report is done. */
  datatype Stage = Queued | Acquiring(request: nat) | Booting(request: nat) | Reporting(request: nat) | Working | Over

  /** The slot a queued start or stop may be replaced in, and its task. */
  datatype Job = Job(sandboxId: SandboxId, item: Item, stage: Stage)

  /** `jobs` and the tasks of `chains` are the same work; `newest` and
      `lastExecuted` record the starts dispatched and begun. */
  datatype Executor = Executor(
    jobs: seq<Job>,
    chains: KeyedChains.Chains,
    slots: Semaphores.Semaphore,
    queuedStarts: map<SandboxId, nat>,
    queuedStops: map<SandboxId, nat>,
    executing: map<SandboxId, Hash>,
    inFlight: map<SandboxId, nat>,
    heartbeats: set<SandboxId>,
    newest: map<SandboxId, Hash>,
    lastExecuted: map<SandboxId, Hash>)

  const NoWork := Executor([], KeyedChains.NoTasks, Semaphores.Free, map[], map[], map[], map[], {}, map[], map[])

  // ---------------------------------------------------------------- steps

  function CountOf(inFlight: map<SandboxId, nat>, sandboxId: SandboxId): nat {
    if sandboxId in inFlight then inFlight[sandboxId] else 0
  }

  function OneMore(inFlight: map<SandboxId, nat>, sandboxId: SandboxId): map<SandboxId, nat> {
    inFlight[sandboxId := CountOf(inFlight, sandboxId) + 1]
  }

  function OneLess(inFlight: map<SandboxId, nat>, sandboxId: SandboxId): map<SandboxId, nat> {
    var count: int := if sandboxId in inFlight then inFlight[sandboxId] else 1;
    if count - 1 > 0 then inFlight[sandboxId := count - 1] else inFlight - {sandboxId}
  }

  function Staged(jobs: seq<Job>, t: nat, stage: Stage): seq<Job>
    requires t < |jobs|
  {
    jobs[t := jobs[t].(stage := stage)]
  }

  function Replaced(jobs: seq<Job>, t: nat, item: Item): seq<Job> {
    if t < |jobs| then jobs[t := jobs[t].(item := item)] else jobs
  }

  /** A start: supersede the queued one, be absorbed by the executing one, or queue. */
  function StartDispatched(l: Executor, sandboxId: SandboxId, hash: Hash): Executor {
    if sandboxId in l.queuedStarts then
      l.(newest := l.newest[sandboxId := hash], jobs := Replaced(l.jobs, l.queuedStarts[sandboxId], Start(hash)))
    else if sandboxId in l.executing && l.executing[sandboxId] == hash then
      l.(newest := l.newest[sandboxId := hash])
    else
      l.(newest := l.newest[sandboxId := hash],
         jobs := l.jobs + [Job(sandboxId, Start(hash), Queued)],
         chains := KeyedChains.Enqueued(l.chains, sandboxId),
         queuedStarts := l.queuedStarts[sandboxId := |l.jobs|],
         inFlight := OneMore(l.inFlight, sandboxId),
         heartbeats := l.heartbeats + {sandboxId})
  }

  function StopDispatched(l: Executor, sandboxId: SandboxId, payload: string): Executor {
    if sandboxId in l.queuedStops then l.(jobs := Replaced(l.jobs, l.queuedStops[sandboxId], Stop(payload)))
    else
      l.(jobs := l.jobs + [Job(sandboxId, Stop(payload), Queued)],
         chains := KeyedChains.Enqueued(l.chains, sandboxId),
         queuedStops := l.queuedStops[sandboxId := |l.jobs|],
         inFlight := OneMore(l.inFlight, sandboxId))
  }

  function OtherDispatched(l: Executor, sandboxId: SandboxId, work: string): Executor {
    l.(jobs := l.jobs + [Job(sandboxId, Other(work), Queued)], chains := KeyedChains.Enqueued(l.chains, sandboxId))
  }

  function Dispatched(l: Executor, sandboxId: SandboxId, item: Item): Executor {
    match item
    case Start(hash) => StartDispatched(l, sandboxId, hash)
    case Stop(payload) => StopDispatched(l, sandboxId, payload)
    case Other(work) => OtherDispatched(l, sandboxId, work)
  }

  function StartBegun(size: nat, l: Executor, t: nat, hash: Hash): Executor
    requires t < |l.jobs| && KeyedChains.MayStart(l.chains, t)
  {
    l.(chains := KeyedChains.Step(l.chains, KeyedChains.Starts(t)),
       jobs := Staged(l.jobs, t, Acquiring(l.slots.requests)),
       slots := Semaphores.Acquired(size, l.slots),
       queuedStarts := l.queuedStarts - {l.jobs[t].sandboxId},
       executing := l.executing[l.jobs[t].sandboxId := hash],
       lastExecuted := l.lastExecuted[l.jobs[t].sandboxId := hash])
  }

  function StopBegun(l: Executor, t: nat): Executor
    requires t < |l.jobs| && KeyedChains.MayStart(l.chains, t)
  {
    l.(chains := KeyedChains.Step(l.chains, KeyedChains.Starts(t)),
       jobs := Staged(l.jobs, t, Working),
       queuedStops := l.queuedStops - {l.jobs[t].sandboxId})
  }

  function OtherBegun(l: Executor, t: nat): Executor
    requires t < |l.jobs| && KeyedChains.MayStart(l.chains, t)
  {
    l.(chains := KeyedChains.Step(l.chains, KeyedChains.Starts(t)), jobs := Staged(l.jobs, t, Working))
  }

  /** The chain reaches a job. */
  function Begun(size: nat, l: Executor, t: nat): Executor
    requires t < |l.jobs| && KeyedChains.MayStart(l.chains, t)
  {
    match l.jobs[t].item
    case Start(hash) => StartBegun(size, l, t, hash)
    case Stop(_) => StopBegun(l, t)
    case Other(_) => OtherBegun(l, t)
  }

  /** The heartbeat stops unless a successor is queued. */
  function Quieted(l: Executor, sandboxId: SandboxId): set<SandboxId> {
    if sandboxId in l.queuedStarts then l.heartbeats else l.heartbeats - {sandboxId}
  }

  /** A start's boot is over and its report is made. */
  function Booted(l: Executor, t: nat): Executor
    requires t < |l.jobs| && l.jobs[t].stage.Booting?
  {
    l.(jobs := Staged(l.jobs, t, Reporting(l.jobs[t].stage.request)), heartbeats := Quieted(l, l.jobs[t].sandboxId))
  }

  predicate HoldsSlot(l: Executor, t: nat) {
    t < |l.jobs| && (l.jobs[t].stage.Booting? || l.jobs[t].stage.Reporting?) && l.jobs[t].stage.request < |l.slots.grants|
  }

  predicate IsRunning(l: Executor, t: nat) {
    t < |l.chains.tasks| && l.chains.tasks[t].phase.Running?
  }

  /** A start ends: its boot failed, or its report is done. */
  function StartOver(l: Executor, t: nat, ok: bool): Executor
    requires HoldsSlot(l, t) && IsRunning(l, t)
  {
    var sandboxId := l.jobs[t].sandboxId;
    l.(jobs := Staged(l.jobs, t, Over),
       chains := KeyedChains.Step(l.chains, KeyedChains.Settles(t, ok)),
       slots := Semaphores.Released(l.slots, l.jobs[t].stage.request),
       executing := l.executing - {sandboxId},
       inFlight := OneLess(l.inFlight, sandboxId),
       heartbeats := Quieted(l, sandboxId))
  }

  /** A stop has reported or failed; other work is done or failed. */
  function WorkOver(l: Executor, t: nat, ok: bool): Executor
    requires t < |l.jobs| && IsRunning(l, t)
  {
    l.(jobs := Staged(l.jobs, t, Over),
       chains := KeyedChains.Step(l.chains, KeyedChains.Settles(t, ok)),
       inFlight := if l.jobs[t].item.Stop? then OneLess(l.inFlight, l.jobs[t].sandboxId) else l.inFlight)
  }

  datatype Op =
    | Dispatches(sandboxId: SandboxId, item: Item)
    | Begins(job: nat)
    | Granted(job: nat)
    | Boots(job: nat)
    | BootFails(job: nat)
    | Reports(job: nat)
    | Finishes(job: nat, ok: bool)
    | CleansUp(job: nat)

  predicate Legal(l: Executor, op: Op) {
    match op
    case Dispatches(_, _) => true
    case Begins(t) => t < |l.jobs| && KeyedChains.MayStart(l.chains, t)
    case Granted(t) => t < |l.jobs| && l.jobs[t].stage.Acquiring? && l.jobs[t].stage.request < |l.slots.grants|
    case Boots(t) => t < |l.jobs| && l.jobs[t].stage.Booting?
    case BootFails(t) => HoldsSlot(l, t) && IsRunning(l, t) && l.jobs[t].stage.Booting?
    case Reports(t) => HoldsSlot(l, t) && IsRunning(l, t) && l.jobs[t].stage.Reporting?
    case Finishes(t, _) => t < |l.jobs| && IsRunning(l, t) && l.jobs[t].stage.Working?
    case CleansUp(t) => KeyedChains.Legal(l.chains, KeyedChains.CleansUp(t))
  }

  function Step(size: nat, l: Executor, op: Op): Executor
    requires Legal(l, op)
  {
    match op
    case Dispatches(sandboxId, item) => Dispatched(l, sandboxId, item)
    case Begins(t) => Begun(size, l, t)
    case Granted(t) => l.(jobs := Staged(l.jobs, t, Booting(l.jobs[t].stage.request)))
    case Boots(t) => Booted(l, t)
    case BootFails(t) => StartOver(l, t, false)
    case Reports(t) => StartOver(l, t, true)
    case Finishes(t, ok) => WorkOver(l, t, ok)
    case CleansUp(t) => l.(chains := KeyedChains.Cleared(l.chains, t))
  }

  ghost predicate Possible(size: nat, ops: seq<Op>)
    decreases |ops|, 0
  {
    ops == [] || (Possible(size, ops[..|ops| - 1]) && Legal(Run(size, ops[..|ops| - 1]), ops[|ops| - 1]))
  }

  ghost function Run(size: nat, ops: seq<Op>): Executor
    requires Possible(size, ops)
    decreases |ops|, 1
  {
    if ops == [] then NoWork else Step(size, Run(size, ops[..|ops| - 1]), ops[|ops| - 1])
  }

  // ---------------------------------------------------------------- jobs and their tasks

  predicate PhaseOf(stage: Stage, phase: KeyedChains.Phase) {
    match stage
    case Queued => phase.Waiting?
    case Over => KeyedChains.IsSettled(phase)
    case _ => phase.Running?
  }

  predicate IsStartStage(stage: Stage) {
    stage.Acquiring? || stage.Booting? || stage.Reporting?
  }

  ghost predicate JobTied(l: Executor, t: nat)
    requires t < |l.jobs| == |l.chains.tasks|
  {
    && l.jobs[t].sandboxId == l.chains.tasks[t].key
    && PhaseOf(l.jobs[t].stage, l.chains.tasks[t].phase)
    && (IsStartStage(l.jobs[t].stage) ==> l.jobs[t].item.Start?)
    && (l.jobs[t].stage.Working? ==> !l.jobs[t].item.Start?)
  }

  /** Every job is its task, which is where the job's stage says. */
  ghost predicate Tied(l: Executor) {
    && KeyedChains.Keeps(l.chains)
    && |l.jobs| == |l.chains.tasks|
    && forall t :: 0 <= t < |l.jobs| ==> JobTied(l, t)
  }

  /** The task step a job step takes keeps the chains as they should be. */
  lemma ChainStep(c: KeyedChains.Chains, op: KeyedChains.Op)
    requires KeyedChains.Keeps(c) && KeyedChains.Legal(c, op)
    ensures var d := KeyedChains.Step(c, op);
            && KeyedChains.Keeps(d)
            && (op.Enqueues? ==> |d.tasks| == |c.tasks| + 1 && d.tasks[..|c.tasks|] == c.tasks
                                 && d.tasks[|c.tasks|].key == op.key && d.tasks[|c.tasks|].phase.Waiting?)
            && (!op.Enqueues? ==> |d.tasks| == |c.tasks| && op.task < |c.tasks|
                                  && d.tasks[op.task].key == c.tasks[op.task].key
                                  && forall u :: 0 <= u < |c.tasks| && u != op.task ==> d.tasks[u] == c.tasks[u])
            && (op.Starts? ==> c.tasks[op.task].phase.Waiting? && d.tasks[op.task].phase.Running?)
            && (op.Settles? || op.CleansUp? ==> KeyedChains.IsSettled(d.tasks[op.task].phase))
            && (op.CleansUp? ==> KeyedChains.IsSettled(c.tasks[op.task].phase))
  {
    if op.Enqueues? { KeyedChains.EnqueuesKeeps(c, op.key); } else { KeyedChains.PhaseKeeps(c, op); }
  }

  // ---------------------------------------------------------------- what a dispatch does

  predicate Replaces(l: Executor, sandboxId: SandboxId, item: Item) {
    (item.Start? && sandboxId in l.queuedStarts) || (item.Stop? && sandboxId in l.queuedStops)
  }

  predicate IsAbsorbed(l: Executor, sandboxId: SandboxId, item: Item) {
    item.Start? && sandboxId !in l.queuedStarts && sandboxId in l.executing && l.executing[sandboxId] == item.hash
  }

  predicate Appends(l: Executor, sandboxId: SandboxId, item: Item) {
    !Replaces(l, sandboxId, item) && !IsAbsorbed(l, sandboxId, item)
  }

  function QueuedJob(l: Executor, sandboxId: SandboxId, item: Item): nat
    requires Replaces(l, sandboxId, item)
  {
    if item.Start? then l.queuedStarts[sandboxId] else l.queuedStops[sandboxId]
  }

  /** The three things a dispatch can do to the work there is. */
  lemma DispatchView(l: Executor, sandboxId: SandboxId, item: Item)
    requires Queues(l)
    ensures var m := Dispatched(l, sandboxId, item);
            && m.slots == l.slots && m.executing == l.executing && m.lastExecuted == l.lastExecuted
            && (Replaces(l, sandboxId, item) ==>
                  && IsQueued(l, QueuedJob(l, sandboxId, item), sandboxId, item.Start?)
                  && m.jobs == l.jobs[QueuedJob(l, sandboxId, item) := Job(sandboxId, item, Queued)]
                  && m.chains == l.chains)
            && (IsAbsorbed(l, sandboxId, item) ==> m.jobs == l.jobs && m.chains == l.chains)
            && (Appends(l, sandboxId, item) ==>
                  && m.jobs == l.jobs + [Job(sandboxId, item, Queued)]
                  && m.chains == KeyedChains.Step(l.chains, KeyedChains.Enqueues(sandboxId)))
  {
    QueuedFacts(l, sandboxId);
    hide Queues, KeyedChains.Enqueued, OneMore;
  }

  lemma DispatchMaps(l: Executor, sandboxId: SandboxId, item: Item)
    ensures var m := Dispatched(l, sandboxId, item);
            && m.newest == (if item.Start? then l.newest[sandboxId := item.hash] else l.newest)
            && m.queuedStarts == (if Appends(l, sandboxId, item) && item.Start? then l.queuedStarts[sandboxId := |l.jobs|] else l.queuedStarts)
            && m.queuedStops == (if Appends(l, sandboxId, item) && item.Stop? then l.queuedStops[sandboxId := |l.jobs|] else l.queuedStops)
            && m.heartbeats == (if Appends(l, sandboxId, item) && item.Start? then l.heartbeats + {sandboxId} else l.heartbeats)
            && m.inFlight == (if Appends(l, sandboxId, item) && !item.Other? then OneMore(l.inFlight, sandboxId) else l.inFlight)
  {
    hide KeyedChains.Enqueued, OneMore, Replaced;
    match item
    case Start(hash) => StartMaps(l, sandboxId, hash);
    case Stop(payload) =>
    case Other(_) =>
  }

  lemma StartMaps(l: Executor, sandboxId: SandboxId, hash: Hash)
    ensures StartDispatched(l, sandboxId, hash).newest == l.newest[sandboxId := hash]
    ensures StartDispatched(l, sandboxId, hash).queuedStops == l.queuedStops
    ensures StartDispatched(l, sandboxId, hash).queuedStarts
            == if Appends(l, sandboxId, Start(hash)) then l.queuedStarts[sandboxId := |l.jobs|] else l.queuedStarts
    ensures StartDispatched(l, sandboxId, hash).heartbeats
            == if Appends(l, sandboxId, Start(hash)) then l.heartbeats + {sandboxId} else l.heartbeats
    ensures StartDispatched(l, sandboxId, hash).inFlight
            == if Appends(l, sandboxId, Start(hash)) then OneMore(l.inFlight, sandboxId) else l.inFlight
  {
    hide KeyedChains.Enqueued, OneMore, Replaced;
    if sandboxId in l.queuedStarts {
      assert !Appends(l, sandboxId, Start(hash));
    } else {
      assert Appends(l, sandboxId, Start(hash)) <==> !(sandboxId in l.executing && l.executing[sandboxId] == hash);
    }
  }

  lemma QueuedFacts(l: Executor, sandboxId: SandboxId)
    requires Queues(l)
    ensures sandboxId in l.queuedStarts ==> IsQueued(l, l.queuedStarts[sandboxId], sandboxId, true)
    ensures sandboxId in l.queuedStops ==> IsQueued(l, l.queuedStops[sandboxId], sandboxId, false)
  {
  }

  lemma AppendedTied(l: Executor, m: Executor, job: Job)
    requires Tied(l) && job.stage.Queued?
    requires m.jobs == l.jobs + [job] && m.chains == KeyedChains.Step(l.chains, KeyedChains.Enqueues(job.sandboxId))
    ensures Tied(m)
  {
    ChainStep(l.chains, KeyedChains.Enqueues(job.sandboxId));
    hide KeyedChains.Keeps, KeyedChains.Step;
    forall t | 0 <= t < |m.jobs| ensures JobTied(m, t) {
      if t < |l.jobs| {
        assert JobTied(l, t);
        assert m.chains.tasks[..|l.chains.tasks|][t] == m.chains.tasks[t];
      }
    }
  }

  lemma ReplacedTied(l: Executor, m: Executor, t: nat, job: Job)
    requires Tied(l) && t < |l.jobs| && m.jobs == l.jobs[t := job] && m.chains == l.chains
    requires l.jobs[t].stage.Queued? && job.stage.Queued? && job.sandboxId == l.jobs[t].sandboxId
    ensures Tied(m)
  {
    hide KeyedChains.Keeps;
    forall u | 0 <= u < |m.jobs| ensures JobTied(m, u) { assert JobTied(l, u); }
  }

  lemma DispatchesTied(l: Executor, sandboxId: SandboxId, item: Item)
    requires Tied(l) && Queues(l)
    ensures Tied(Dispatched(l, sandboxId, item))
  {
    hide Queues, Tied, Dispatched, KeyedChains.Step;
    var m := Dispatched(l, sandboxId, item);
    var job := Job(sandboxId, item, Queued);
    DispatchView(l, sandboxId, item);
    if Replaces(l, sandboxId, item) {
      ReplacedTied(l, m, QueuedJob(l, sandboxId, item), job);
    } else if IsAbsorbed(l, sandboxId, item) {
      SameTied(l, m);
    } else {
      AppendedTied(l, m, job);
    }
  }

  lemma SameTied(l: Executor, m: Executor)
    requires Tied(l) && m.jobs == l.jobs && m.chains == l.chains
    ensures Tied(m)
  {
    hide KeyedChains.Keeps;
    forall u | 0 <= u < |m.jobs| ensures JobTied(m, u) { assert JobTied(l, u); }
  }

  /** A step of one job and its task. */
  lemma JobTiedStep(l: Executor, m: Executor, t: nat, op: KeyedChains.Op)
    requires Tied(l) && KeyedChains.Legal(l.chains, op) && !op.Enqueues? && op.task == t < |l.jobs|
    requires m.chains == KeyedChains.Step(l.chains, op)
    requires |m.jobs| == |l.jobs| && m.jobs == l.jobs[t := m.jobs[t]] && m.jobs[t].sandboxId == l.jobs[t].sandboxId
    requires |m.chains.tasks| == |l.chains.tasks| ==> PhaseOf(m.jobs[t].stage, m.chains.tasks[t].phase)
    requires m.jobs[t].item == l.jobs[t].item
    requires IsStartStage(m.jobs[t].stage) ==> m.jobs[t].item.Start?
    requires m.jobs[t].stage.Working? ==> !m.jobs[t].item.Start?
    ensures Tied(m)
  {
    ChainStep(l.chains, op);
    hide KeyedChains.Keeps, KeyedChains.Step;
    forall u | 0 <= u < |m.jobs| ensures JobTied(m, u) {
      assert JobTied(l, u);
      if u != t { assert m.jobs[u] == l.jobs[u]; }
    }
  }

  /** A job moves on while its task runs. */
  lemma SameChainsTied(l: Executor, m: Executor, t: nat, stage: Stage)
    requires Tied(l) && t < |l.jobs| && m.chains == l.chains && m.jobs == Staged(l.jobs, t, stage)
    requires IsStartStage(l.jobs[t].stage) && IsStartStage(stage)
    ensures Tied(m)
  {
    hide KeyedChains.Keeps;
    forall u | 0 <= u < |m.jobs| ensures JobTied(m, u) { assert JobTied(l, u); }
  }

  function BegunStage(l: Executor, t: nat): Stage
    requires t < |l.jobs|
  {
    if l.jobs[t].item.Start? then Acquiring(l.slots.requests) else Working
  }

  lemma StartBegunView(size: nat, l: Executor, t: nat, hash: Hash)
    requires t < |l.jobs| && KeyedChains.MayStart(l.chains, t)
    ensures var m := StartBegun(size, l, t, hash);
            && m.jobs == Staged(l.jobs, t, Acquiring(l.slots.requests))
            && m.chains == KeyedChains.Step(l.chains, KeyedChains.Starts(t)) && m.slots == Semaphores.Acquired(size, l.slots)
            && m.inFlight == l.inFlight && m.heartbeats == l.heartbeats && m.newest == l.newest
            && m.queuedStarts == l.queuedStarts - {l.jobs[t].sandboxId} && m.queuedStops == l.queuedStops
            && m.executing == l.executing[l.jobs[t].sandboxId := hash]
            && m.lastExecuted == l.lastExecuted[l.jobs[t].sandboxId := hash]
  {
    hide KeyedChains.Step, KeyedChains.MayStart, Semaphores.Acquired, Staged;
  }

  /** What beginning a job does to the parts of the state. */
  lemma BegunView(size: nat, l: Executor, t: nat)
    requires t < |l.jobs| && KeyedChains.MayStart(l.chains, t)
    ensures Begun(size, l, t).jobs == Staged(l.jobs, t, BegunStage(l, t))
    ensures Begun(size, l, t).chains == KeyedChains.Step(l.chains, KeyedChains.Starts(t))
    ensures Begun(size, l, t).slots == if l.jobs[t].item.Start? then Semaphores.Acquired(size, l.slots) else l.slots
    ensures Begun(size, l, t).inFlight == l.inFlight && Begun(size, l, t).heartbeats == l.heartbeats
  {
    hide StartBegun, KeyedChains.Step, KeyedChains.MayStart, Semaphores.Acquired, Staged;
    match l.jobs[t].item
    case Start(hash) => StartBegunView(size, l, t, hash);
    case Stop(_) =>
    case Other(_) =>
  }

  lemma BegunMaps(size: nat, l: Executor, t: nat)
    requires t < |l.jobs| && KeyedChains.MayStart(l.chains, t)
    ensures var m, owner, item := Begun(size, l, t), l.jobs[t].sandboxId, l.jobs[t].item;
            && m.newest == l.newest
            && m.queuedStarts == (if item.Start? then l.queuedStarts - {owner} else l.queuedStarts)
            && m.queuedStops == (if item.Stop? then l.queuedStops - {owner} else l.queuedStops)
            && m.executing == (if item.Start? then l.executing[owner := item.hash] else l.executing)
            && m.lastExecuted == (if item.Start? then l.lastExecuted[owner := item.hash] else l.lastExecuted)
  {
    hide StartBegun, KeyedChains.Step, KeyedChains.MayStart, Semaphores.Acquired, Staged;
    match l.jobs[t].item
    case Start(hash) => StartBegunView(size, l, t, hash);
    case Stop(_) =>
    case Other(_) =>
  }

  lemma BeginsTied(size: nat, l: Executor, t: nat)
    requires Tied(l) && t < |l.jobs| && KeyedChains.MayStart(l.chains, t)
    ensures Tied(Begun(size, l, t))
  {
    StartsTask(l, t);
    hide Tied, Begun, KeyedChains.Step, KeyedChains.Legal, KeyedChains.MayStart, Semaphores.Acquired;
    BegunView(size, l, t);
    JobTiedStep(l, Begun(size, l, t), t, KeyedChains.Starts(t));
  }

  lemma StartOverTied(l: Executor, t: nat, ok: bool)
    requires Tied(l) && HoldsSlot(l, t) && IsRunning(l, t)
    ensures Tied(StartOver(l, t, ok))
  {
    SettlesTask(l, t, ok);
    hide Tied, KeyedChains.Step, KeyedChains.Legal, Semaphores.Released, OneLess;
    JobTiedStep(l, StartOver(l, t, ok), t, KeyedChains.Settles(t, ok));
  }

  lemma WorkOverTied(l: Executor, t: nat, ok: bool)
    requires Tied(l) && t < |l.jobs| && IsRunning(l, t)
    ensures Tied(WorkOver(l, t, ok))
  {
    SettlesTask(l, t, ok);
    hide Tied, KeyedChains.Step, KeyedChains.Legal, OneLess;
    JobTiedStep(l, WorkOver(l, t, ok), t, KeyedChains.Settles(t, ok));
  }

  lemma CleanedTied(l: Executor, t: nat)
    requires Tied(l) && KeyedChains.Legal(l.chains, KeyedChains.CleansUp(t))
    ensures Tied(l.(chains := KeyedChains.Cleared(l.chains, t)))
  {
    CleansTask(l, t);
    hide Tied, KeyedChains.Step, KeyedChains.Legal;
    JobTiedStep(l, l.(chains := KeyedChains.Cleared(l.chains, t)), t, KeyedChains.CleansUp(t));
  }

  lemma StepTied(size: nat, l: Executor, op: Op)
    requires Tied(l) && Queues(l) && Legal(l, op)
    ensures Tied(Step(size, l, op))
  {
    hide Queues, Tied, Dispatched, Begun, StartOver, WorkOver, Quieted, KeyedChains.Legal, KeyedChains.MayStart, KeyedChains.Cleared;
    match op
    case Dispatches(sandboxId, item) => DispatchesTied(l, sandboxId, item);
    case Begins(t) => BeginsTied(size, l, t);
    case Granted(t) => SameChainsTied(l, Step(size, l, op), t, Booting(l.jobs[t].stage.request));
    case Boots(t) => SameChainsTied(l, Booted(l, t), t, Reporting(l.jobs[t].stage.request));
    case BootFails(t) => StartOverTied(l, t, false);
    case Reports(t) => StartOverTied(l, t, true);
    case Finishes(t, ok) => WorkOverTied(l, t, ok);
    case CleansUp(t) => CleanedTied(l, t);
  }

  lemma StartsTask(l: Executor, t: nat)
    requires Tied(l) && KeyedChains.MayStart(l.chains, t)
    ensures t < |l.jobs| && JobTied(l, t) && l.jobs[t].stage.Queued?
    ensures KeyedChains.Legal(l.chains, KeyedChains.Starts(t))
    ensures var d := KeyedChains.Step(l.chains, KeyedChains.Starts(t)); |d.tasks| == |l.chains.tasks| && d.tasks[t].phase.Running?
  {
    assert JobTied(l, t);
  }

  lemma SettlesTask(l: Executor, t: nat, ok: bool)
    requires Tied(l) && IsRunning(l, t)
    ensures t < |l.jobs| && JobTied(l, t)
    ensures KeyedChains.Legal(l.chains, KeyedChains.Settles(t, ok))
    ensures var d := KeyedChains.Step(l.chains, KeyedChains.Settles(t, ok));
            |d.tasks| == |l.chains.tasks| && d.tasks[t].phase.Settled?
  {
    assert JobTied(l, t);
  }

  lemma CleansTask(l: Executor, t: nat)
    requires Tied(l) && KeyedChains.Legal(l.chains, KeyedChains.CleansUp(t))
    ensures t < |l.jobs| && JobTied(l, t) && l.jobs[t].stage.Over?
    ensures KeyedChains.Step(l.chains, KeyedChains.CleansUp(t)) == KeyedChains.Cleared(l.chains, t)
    ensures var d := KeyedChains.Step(l.chains, KeyedChains.CleansUp(t)); |d.tasks| == |l.chains.tasks| && d.tasks[t].phase.Cleaned?
  {
    assert JobTied(l, t);
  }

  /** One job of a sandbox runs at a time. */
  lemma OneRuns(l: Executor, t: nat, u: nat)
    requires Tied(l) && t < |l.jobs| && u < |l.jobs| && l.jobs[t].sandboxId == l.jobs[u].sandboxId
    requires IsStartStage(l.jobs[t].stage) && IsStartStage(l.jobs[u].stage)
    ensures t == u
  {
    assert JobTied(l, t) && JobTied(l, u);
    assert !(t < u) && !(u < t) by { assert KeyedChains.OneAtATime(l.chains); }
  }

  // ---------------------------------------------------------------- the queues

  /** A start (or a stop) of the sandbox that has not begun. */
  ghost predicate IsQueued(l: Executor, t: nat, sandboxId: SandboxId, start: bool) {
    && t < |l.jobs|
    && l.jobs[t].sandboxId == sandboxId
    && l.jobs[t].stage.Queued?
    && (if start then l.jobs[t].item.Start? else l.jobs[t].item.Stop?)
  }

  ghost predicate QueueOf(l: Executor, queued: map<SandboxId, nat>, start: bool) {
    && (forall sandboxId :: sandboxId in queued ==> IsQueued(l, queued[sandboxId], sandboxId, start))
    && (forall sandboxId, t: nat :: IsQueued(l, t, sandboxId, start) ==> sandboxId in queued && queued[sandboxId] == t)
  }

  /** The maps name every queued start and stop, so a sandbox has at most one each. */
  ghost predicate Queues(l: Executor) {
    QueueOf(l, l.queuedStarts, true) && QueueOf(l, l.queuedStops, false)
  }

  lemma AppendedQueue(l: Executor, m: Executor, queued: map<SandboxId, nat>, start: bool, job: Job)
    requires QueueOf(l, queued, start) && m.jobs == l.jobs + [job] && job.stage.Queued?
    requires job.sandboxId !in queued
    ensures (if start then job.item.Start? else job.item.Stop?) ==> QueueOf(m, queued[job.sandboxId := |l.jobs|], start)
  {
    forall x, t: nat | IsQueued(m, t, x, start) && t < |l.jobs| ensures IsQueued(l, t, x, start) {}
    assert forall x :: x in queued ==> IsQueued(l, queued[x], x, start) && IsQueued(m, queued[x], x, start);
  }

  lemma ElsewhereQueue(l: Executor, m: Executor, queued: map<SandboxId, nat>, start: bool, job: Job)
    requires QueueOf(l, queued, start) && m.jobs == l.jobs + [job]
    requires !(if start then job.item.Start? else job.item.Stop?)
    ensures QueueOf(m, queued, start)
  {
    forall x, t: nat | IsQueued(m, t, x, start) ensures IsQueued(l, t, x, start) {}
    assert forall x :: x in queued ==> IsQueued(l, queued[x], x, start) && IsQueued(m, queued[x], x, start);
  }

  /** Work that stays queued, or was not queued before nor after. */
  lemma SameQueue(l: Executor, m: Executor, queued: map<SandboxId, nat>, start: bool)
    requires QueueOf(l, queued, start) && |m.jobs| == |l.jobs|
    requires forall x, t: nat :: IsQueued(m, t, x, start) <==> IsQueued(l, t, x, start)
    ensures QueueOf(m, queued, start)
  {
  }

  lemma LeftQueue(l: Executor, m: Executor, queued: map<SandboxId, nat>, start: bool, t: nat, stage: Stage)
    requires QueueOf(l, queued, start) && t < |l.jobs| && m.jobs == Staged(l.jobs, t, stage) && !stage.Queued?
    requires IsQueued(l, t, l.jobs[t].sandboxId, start)
    ensures QueueOf(m, queued - {l.jobs[t].sandboxId}, start)
  {
    forall x, u: nat | IsQueued(m, u, x, start) ensures IsQueued(l, u, x, start) && u != t {}
    forall x | x in queued && x != l.jobs[t].sandboxId ensures IsQueued(m, queued[x], x, start) {
      assert IsQueued(l, queued[x], x, start);
    }
  }

  lemma StagedQueue(l: Executor, m: Executor, queued: map<SandboxId, nat>, start: bool, t: nat, stage: Stage)
    requires QueueOf(l, queued, start) && t < |l.jobs| && m.jobs == Staged(l.jobs, t, stage) && !stage.Queued?
    requires !IsQueued(l, t, l.jobs[t].sandboxId, start)
    ensures QueueOf(m, queued, start)
  {
    forall x, u: nat ensures IsQueued(m, u, x, start) <==> IsQueued(l, u, x, start) {
      if u != t && u < |l.jobs| { assert m.jobs[u] == l.jobs[u]; }
    }
    SameQueue(l, m, queued, start);
  }

  lemma ReplacedQueue(l: Executor, m: Executor, queued: map<SandboxId, nat>, start: bool, t: nat, job: Job)
    requires QueueOf(l, queued, start) && t < |l.jobs| && m.jobs == l.jobs[t := job]
    requires l.jobs[t].stage.Queued? && job.stage.Queued? && job.sandboxId == l.jobs[t].sandboxId
    requires (l.jobs[t].item.Start? <==> job.item.Start?) && (l.jobs[t].item.Stop? <==> job.item.Stop?)
    ensures QueueOf(m, queued, start)
  {
    forall x, u: nat ensures IsQueued(m, u, x, start) <==> IsQueued(l, u, x, start) {
      if u != t && u < |l.jobs| { assert m.jobs[u] == l.jobs[u]; }
    }
    SameQueue(l, m, queued, start);
  }

  lemma ReplacedQueues(l: Executor, m: Executor, t: nat, job: Job)
    requires Queues(l) && t < |l.jobs| && m.jobs == l.jobs[t := job]
    requires l.jobs[t].stage.Queued? && job.stage.Queued? && job.sandboxId == l.jobs[t].sandboxId
    requires m.queuedStarts == l.queuedStarts && m.queuedStops == l.queuedStops
    requires (l.jobs[t].item.Start? <==> job.item.Start?) && (l.jobs[t].item.Stop? <==> job.item.Stop?)
    ensures Queues(m)
  {
    hide QueueOf;
    ReplacedQueue(l, m, l.queuedStarts, true, t, job);
    ReplacedQueue(l, m, l.queuedStops, false, t, job);
  }

  lemma DispatchesQueues(l: Executor, sandboxId: SandboxId, item: Item)
    requires Queues(l)
    ensures Queues(Dispatched(l, sandboxId, item))
  {
    hide Queues, Dispatched, KeyedChains.Step;
    var m := Dispatched(l, sandboxId, item);
    var job := Job(sandboxId, item, Queued);
    DispatchView(l, sandboxId, item);
    DispatchMaps(l, sandboxId, item);
    if Replaces(l, sandboxId, item) {
      ReplacedQueues(l, m, QueuedJob(l, sandboxId, item), job);
    } else {
      AppendQueues(l, m, job, Appends(l, sandboxId, item));
    }
  }

  lemma AppendQueues(l: Executor, m: Executor, job: Job, appends: bool)
    requires Queues(l) && job.stage.Queued?
    requires job.item.Start? ==> job.sandboxId !in l.queuedStarts
    requires job.item.Stop? ==> job.sandboxId !in l.queuedStops
    requires m.jobs == if appends then l.jobs + [job] else l.jobs
    requires m.queuedStarts == if appends && job.item.Start? then l.queuedStarts[job.sandboxId := |l.jobs|] else l.queuedStarts
    requires m.queuedStops == if appends && job.item.Stop? then l.queuedStops[job.sandboxId := |l.jobs|] else l.queuedStops
    ensures Queues(m)
  {
    hide QueueOf;
    if !appends {
      SameJobs(l, m, l.queuedStarts, true);
      SameJobs(l, m, l.queuedStops, false);
    } else {
      if job.item.Start? {
        AppendedQueue(l, m, l.queuedStarts, true, job);
      } else {
        ElsewhereQueue(l, m, l.queuedStarts, true, job);
      }
      if job.item.Stop? {
        AppendedQueue(l, m, l.queuedStops, false, job);
      } else {
        ElsewhereQueue(l, m, l.queuedStops, false, job);
      }
    }
  }

  lemma SameJobs(l: Executor, m: Executor, queued: map<SandboxId, nat>, start: bool)
    requires QueueOf(l, queued, start) && m.jobs == l.jobs
    ensures QueueOf(m, queued, start)
  {
    forall x, u: nat ensures IsQueued(m, u, x, start) <==> IsQueued(l, u, x, start) {}
    SameQueue(l, m, queued, start);
  }

  /** A job that has begun moves on. */
  lemma MovesQueues(l: Executor, m: Executor, t: nat, stage: Stage)
    requires Queues(l) && t < |l.jobs| && m.jobs == Staged(l.jobs, t, stage) && !stage.Queued? && !l.jobs[t].stage.Queued?
    requires m.queuedStarts == l.queuedStarts && m.queuedStops == l.queuedStops
    ensures Queues(m)
  {
    hide QueueOf;
    StagedQueue(l, m, l.queuedStarts, true, t, stage);
    StagedQueue(l, m, l.queuedStops, false, t, stage);
  }

  lemma BeginsQueues(size: nat, l: Executor, t: nat)
    requires Tied(l) && Queues(l) && t < |l.jobs| && KeyedChains.MayStart(l.chains, t)
    ensures Queues(Begun(size, l, t))
  {
    StartsTask(l, t);
    hide QueueOf, Tied, Begun, Semaphores.Acquired, KeyedChains.Step, KeyedChains.MayStart;
    var m := Begun(size, l, t);
    var stage := BegunStage(l, t);
    BegunView(size, l, t);
    BegunMaps(size, l, t);
    if l.jobs[t].item.Start? {
      LeftQueue(l, m, l.queuedStarts, true, t, stage);
      StagedQueue(l, m, l.queuedStops, false, t, stage);
    } else if l.jobs[t].item.Stop? {
      StagedQueue(l, m, l.queuedStarts, true, t, stage);
      LeftQueue(l, m, l.queuedStops, false, t, stage);
    } else {
      StagedQueue(l, m, l.queuedStarts, true, t, stage);
      StagedQueue(l, m, l.queuedStops, false, t, stage);
    }
  }

  lemma StepQueues(size: nat, l: Executor, op: Op)
    requires Tied(l) && Queues(l) && Legal(l, op)
    ensures Queues(Step(size, l, op))
  {
    hide Tied, QueueOf, KeyedChains.Step, KeyedChains.Legal, KeyedChains.MayStart, Semaphores.Acquired, Semaphores.Released;
    var m := Step(size, l, op);
    match op
    case Dispatches(sandboxId, item) => DispatchesQueues(l, sandboxId, item);
    case Begins(t) => BeginsQueues(size, l, t);
    case Granted(t) => MovesQueues(l, m, t, m.jobs[t].stage);
    case Boots(t) => MovesQueues(l, m, t, m.jobs[t].stage);
    case BootFails(t) => MovesQueues(l, m, t, Over);
    case Reports(t) => MovesQueues(l, m, t, Over);
    case Finishes(t, ok) => MovesQueues(l, m, t, Over);
    case CleansUp(t) =>
      SameJobs(l, m, l.queuedStarts, true);
      SameJobs(l, m, l.queuedStops, false);
  }

  // ---------------------------------------------------------------- what executes, and which payload

  /** A start of the sandbox that has begun and is not over. */
  ghost predicate IsLive(l: Executor, t: nat, sandboxId: SandboxId) {
    t < |l.jobs| && l.jobs[t].sandboxId == sandboxId && IsStartStage(l.jobs[t].stage)
  }

  ghost predicate HasLive(l: Executor, sandboxId: SandboxId) {
    exists t: nat :: IsLive(l, t, sandboxId)
  }

  /** The hash kept is that of the start executing, and exactly while one is. */
  ghost predicate Executes(l: Executor) {
    && (forall sandboxId, t: nat :: IsLive(l, t, sandboxId) ==>
          sandboxId in l.executing && l.jobs[t].item == Start(l.executing[sandboxId]))
    && (forall sandboxId :: sandboxId in l.executing ==>
          && HasLive(l, sandboxId)
          && sandboxId in l.lastExecuted && l.lastExecuted[sandboxId] == l.executing[sandboxId])
  }

  lemma SameExecutes(l: Executor, m: Executor)
    requires Executes(l) && m.executing == l.executing && m.lastExecuted == l.lastExecuted
    requires forall x, t: nat :: IsLive(m, t, x) <==> IsLive(l, t, x)
    requires forall x, t: nat :: IsLive(l, t, x) ==> t < |m.jobs| && m.jobs[t].item == l.jobs[t].item
    ensures Executes(m)
  {
    forall x | x in m.executing ensures HasLive(m, x) {
      assert HasLive(l, x);
      var t: nat :| IsLive(l, t, x);
      assert IsLive(m, t, x);
    }
  }

  lemma DispatchesExecutes(l: Executor, sandboxId: SandboxId, item: Item)
    requires Queues(l) && Executes(l)
    ensures Executes(Dispatched(l, sandboxId, item))
  {
    hide Queues, Executes, Dispatched, KeyedChains.Step;
    var m := Dispatched(l, sandboxId, item);
    DispatchView(l, sandboxId, item);
    forall x, t: nat ensures IsLive(m, t, x) <==> IsLive(l, t, x) {}
    forall x, t: nat | IsLive(l, t, x) ensures m.jobs[t].item == l.jobs[t].item { assert IsLive(m, t, x); }
    SameExecutes(l, m);
  }

  /** A job moves on without starting or ending a start. */
  lemma MovesExecutes(l: Executor, m: Executor, t: nat, stage: Stage)
    requires Executes(l) && t < |l.jobs| && m.jobs == Staged(l.jobs, t, stage)
    requires IsStartStage(l.jobs[t].stage) <==> IsStartStage(stage)
    requires m.executing == l.executing && m.lastExecuted == l.lastExecuted
    ensures Executes(m)
  {
    hide Executes;
    forall x, u: nat ensures IsLive(m, u, x) <==> IsLive(l, u, x) {}
    SameExecutes(l, m);
  }

  lemma StartsExecutes(l: Executor, m: Executor, t: nat, stage: Stage, hash: Hash)
    requires Executes(l) && Tied(m) && t < |l.jobs| && m.jobs == Staged(l.jobs, t, stage) && IsStartStage(stage)
    requires l.jobs[t].item == Start(hash)
    requires m.executing == l.executing[l.jobs[t].sandboxId := hash] && m.lastExecuted == l.lastExecuted[l.jobs[t].sandboxId := hash]
    ensures Executes(m)
  {
    hide Tied;
    var owner := l.jobs[t].sandboxId;
    assert IsLive(m, t, owner);
    forall x, u: nat | IsLive(m, u, x) ensures x in m.executing && m.jobs[u].item == Start(m.executing[x]) {
      if x == owner { OneRuns(m, t, u); } else { assert IsLive(l, u, x); }
    }
    forall x | x in m.executing ensures HasLive(m, x) {
      if x != owner {
        assert HasLive(l, x);
        var u: nat :| IsLive(l, u, x);
        assert IsLive(m, u, x);
      }
    }
  }

  lemma EndsExecutes(l: Executor, m: Executor, t: nat)
    requires Executes(l) && Tied(l) && t < |l.jobs| && IsStartStage(l.jobs[t].stage) && m.jobs == Staged(l.jobs, t, Over)
    requires m.executing == l.executing - {l.jobs[t].sandboxId} && m.lastExecuted == l.lastExecuted
    ensures Executes(m)
  {
    hide Tied;
    var owner := l.jobs[t].sandboxId;
    forall x, u: nat | IsLive(m, u, x) ensures x in m.executing && m.jobs[u].item == Start(m.executing[x]) {
      assert u != t && IsLive(l, u, x);
      if x == owner { OneRuns(l, t, u); }
    }
    forall x | x in m.executing ensures HasLive(m, x) {
      assert HasLive(l, x);
      var u: nat :| IsLive(l, u, x);
      assert IsLive(m, u, x);
    }
  }

  lemma BeginsExecutes(size: nat, l: Executor, t: nat)
    requires Executes(l) && t < |l.jobs| && l.jobs[t].stage.Queued? && KeyedChains.MayStart(l.chains, t)
    requires Tied(Begun(size, l, t))
    ensures Executes(Begun(size, l, t))
  {
    hide Tied, Executes, Begun, KeyedChains.Step, KeyedChains.MayStart, Semaphores.Acquired;
    var m := Begun(size, l, t);
    BegunView(size, l, t);
    BegunMaps(size, l, t);
    if l.jobs[t].item.Start? {
      StartsExecutes(l, m, t, BegunStage(l, t), l.jobs[t].item.hash);
    } else {
      MovesExecutes(l, m, t, Working);
    }
  }

  lemma StartOverExecutes(l: Executor, t: nat, ok: bool)
    requires Executes(l) && Tied(l) && HoldsSlot(l, t) && IsRunning(l, t)
    ensures Executes(StartOver(l, t, ok))
  {
    hide Tied, Executes, KeyedChains.Step, Semaphores.Released, OneLess;
    EndsExecutes(l, StartOver(l, t, ok), t);
  }

  lemma BootedExecutes(l: Executor, t: nat)
    requires Executes(l) && t < |l.jobs| && l.jobs[t].stage.Booting?
    ensures Executes(Booted(l, t))
  {
    hide Executes, Quieted;
    MovesExecutes(l, Booted(l, t), t, Reporting(l.jobs[t].stage.request));
  }

  lemma WorkOverExecutes(l: Executor, t: nat, ok: bool)
    requires Executes(l) && t < |l.jobs| && IsRunning(l, t) && !IsStartStage(l.jobs[t].stage)
    ensures Executes(WorkOver(l, t, ok))
  {
    hide Executes, OneLess, KeyedChains.Step;
    MovesExecutes(l, WorkOver(l, t, ok), t, Over);
  }

  lemma StepExecutes(size: nat, l: Executor, op: Op)
    requires Tied(l) && Queues(l) && Executes(l) && Legal(l, op)
    ensures Executes(Step(size, l, op))
  {
    StepTied(size, l, op);
    BeginsFacts(l, op);
    hide Tied, Queues, Executes, Dispatched, Begun, StartOver, WorkOver, Booted, OneLess,
         KeyedChains.Step, KeyedChains.Legal, KeyedChains.MayStart, KeyedChains.Cleared;
    match op
    case Dispatches(sandboxId, item) => DispatchesExecutes(l, sandboxId, item);
    case Begins(t) => BeginsExecutes(size, l, t);
    case Granted(t) => MovesExecutes(l, Step(size, l, op), t, Booting(l.jobs[t].stage.request));
    case Boots(t) => BootedExecutes(l, t);
    case BootFails(t) => StartOverExecutes(l, t, false);
    case Reports(t) => StartOverExecutes(l, t, true);
    case Finishes(t, ok) => WorkOverExecutes(l, t, ok);
    case CleansUp(t) => SameLive(l, Step(size, l, op));
  }

  lemma SameLive(l: Executor, m: Executor)
    requires Executes(l) && m.jobs == l.jobs && m.executing == l.executing && m.lastExecuted == l.lastExecuted
    ensures Executes(m)
  {
    hide Executes;
    forall x, u: nat ensures IsLive(m, u, x) <==> IsLive(l, u, x) {}
    SameExecutes(l, m);
  }

  /** A job begins from its queue. */
  lemma BeginsFacts(l: Executor, op: Op)
    requires Tied(l) && Legal(l, op)
    ensures op.Begins? ==> op.job < |l.jobs| && l.jobs[op.job].stage.Queued?
    ensures op.BootFails? || op.Reports? || op.Finishes? ==> op.job < |l.jobs| && JobTied(l, op.job)
  {
    if op.Begins? || op.BootFails? || op.Reports? || op.Finishes? { assert JobTied(l, op.job); }
  }

  /** The start queued, else the last one executed, carries the newest payload. */
  ghost predicate CarriesNewest(l: Executor, sandboxId: SandboxId) {
    if sandboxId !in l.newest then sandboxId !in l.queuedStarts && sandboxId !in l.lastExecuted
    else if sandboxId in l.queuedStarts
    then l.queuedStarts[sandboxId] < |l.jobs| && l.jobs[l.queuedStarts[sandboxId]].item == Start(l.newest[sandboxId])
    else sandboxId in l.lastExecuted && l.lastExecuted[sandboxId] == l.newest[sandboxId]
  }

  lemma OtherNewest(l: Executor, sandboxId: SandboxId, item: Item, x: SandboxId)
    requires Queues(l) && CarriesNewest(l, x) && x != sandboxId
    ensures CarriesNewest(Dispatched(l, sandboxId, item), x)
  {
    QueuedFacts(l, x);
    hide Queues, Dispatched, KeyedChains.Step;
    DispatchView(l, sandboxId, item);
    DispatchMaps(l, sandboxId, item);
  }

  lemma OwnNewest(l: Executor, sandboxId: SandboxId, item: Item)
    requires Queues(l) && Executes(l) && CarriesNewest(l, sandboxId)
    ensures CarriesNewest(Dispatched(l, sandboxId, item), sandboxId)
  {
    QueuedFacts(l, sandboxId);
    assert sandboxId in l.executing ==> sandboxId in l.lastExecuted && l.lastExecuted[sandboxId] == l.executing[sandboxId];
    hide Queues, Executes, Dispatched, KeyedChains.Step;
    DispatchView(l, sandboxId, item);
    DispatchMaps(l, sandboxId, item);
  }

  lemma DispatchesNewest(l: Executor, sandboxId: SandboxId, item: Item, x: SandboxId)
    requires Queues(l) && Executes(l) && CarriesNewest(l, x)
    ensures CarriesNewest(Dispatched(l, sandboxId, item), x)
  {
    hide Queues, Executes, CarriesNewest, Dispatched;
    if x == sandboxId { OwnNewest(l, sandboxId, item); } else { OtherNewest(l, sandboxId, item, x); }
  }

  lemma BeginsNewest(l: Executor, m: Executor, t: nat, stage: Stage, x: SandboxId)
    requires Queues(l) && CarriesNewest(l, x) && t < |l.jobs| && l.jobs[t].stage.Queued?
    requires m.jobs == Staged(l.jobs, t, stage) && m.newest == l.newest
    requires var owner, item := l.jobs[t].sandboxId, l.jobs[t].item;
             && m.queuedStarts == (if item.Start? then l.queuedStarts - {owner} else l.queuedStarts)
             && m.lastExecuted == if item.Start? then l.lastExecuted[owner := item.hash] else l.lastExecuted
    ensures CarriesNewest(m, x)
  {
    assert l.jobs[t].item.Start? ==> IsQueued(l, t, l.jobs[t].sandboxId, true);
    assert l.jobs[t].item.Start? ==> l.jobs[t].sandboxId in l.queuedStarts && l.queuedStarts[l.jobs[t].sandboxId] == t;
    hide Queues;
  }

  lemma StepNewest(size: nat, l: Executor, op: Op, x: SandboxId)
    requires Tied(l) && Queues(l) && Executes(l) && CarriesNewest(l, x) && Legal(l, op)
    ensures CarriesNewest(Step(size, l, op), x)
  {
    BeginsFacts(l, op);
    hide Tied, Queues, Executes, CarriesNewest, Dispatched, Begun, Quieted, OneLess,
         KeyedChains.Step, KeyedChains.Legal, KeyedChains.MayStart, KeyedChains.Cleared, Semaphores.Released;
    match op
    case Dispatches(sandboxId, item) => DispatchesNewest(l, sandboxId, item, x);
    case Begins(t) => BegunNewest(size, l, t, x);
    case Granted(t) => MovesNewest(l, Step(size, l, op), t, Booting(l.jobs[t].stage.request), x);
    case Boots(t) => MovesNewest(l, Booted(l, t), t, Reporting(l.jobs[t].stage.request), x);
    case BootFails(t) => MovesNewest(l, StartOver(l, t, false), t, Over, x);
    case Reports(t) => MovesNewest(l, StartOver(l, t, true), t, Over, x);
    case Finishes(t, ok) => MovesNewest(l, WorkOver(l, t, ok), t, Over, x);
    case CleansUp(t) => SameNewest(l, Step(size, l, op), x);
  }

  lemma BegunNewest(size: nat, l: Executor, t: nat, x: SandboxId)
    requires Queues(l) && CarriesNewest(l, x) && t < |l.jobs| && l.jobs[t].stage.Queued? && KeyedChains.MayStart(l.chains, t)
    ensures CarriesNewest(Begun(size, l, t), x)
  {
    hide Queues, CarriesNewest, Begun, KeyedChains.Step, KeyedChains.MayStart, Semaphores.Acquired;
    BegunView(size, l, t);
    BegunMaps(size, l, t);
    BeginsNewest(l, Begun(size, l, t), t, BegunStage(l, t), x);
  }

  lemma MovesNewest(l: Executor, m: Executor, t: nat, stage: Stage, x: SandboxId)
    requires CarriesNewest(l, x) && t < |l.jobs| && m.jobs == Staged(l.jobs, t, stage)
    requires m.newest == l.newest && m.queuedStarts == l.queuedStarts && m.lastExecuted == l.lastExecuted
    ensures CarriesNewest(m, x)
  {
  }

  lemma SameNewest(l: Executor, m: Executor, x: SandboxId)
    requires CarriesNewest(l, x) && m.jobs == l.jobs
    requires m.newest == l.newest && m.queuedStarts == l.queuedStarts && m.lastExecuted == l.lastExecuted
    ensures CarriesNewest(m, x)
  {
  }

  // ---------------------------------------------------------------- heartbeats

  /** A start of the sandbox that is queued, waits for a slot, or boots. */
  ghost predicate NeedsBeat(l: Executor, t: nat, sandboxId: SandboxId) {
    && t < |l.jobs|
    && l.jobs[t].sandboxId == sandboxId
    && l.jobs[t].item.Start?
    && (l.jobs[t].stage.Queued? || l.jobs[t].stage.Acquiring? || l.jobs[t].stage.Booting?)
  }

  ghost predicate SomeNeedsBeat(l: Executor, sandboxId: SandboxId) {
    exists t: nat :: NeedsBeat(l, t, sandboxId)
  }

  ghost predicate BeatsRight(l: Executor) {
    forall sandboxId :: sandboxId in l.heartbeats <==> SomeNeedsBeat(l, sandboxId)
  }

  lemma SameBeats(l: Executor, m: Executor)
    requires BeatsRight(l) && m.heartbeats == l.heartbeats
    requires forall x, t: nat :: NeedsBeat(m, t, x) <==> NeedsBeat(l, t, x)
    ensures BeatsRight(m)
  {
    forall x ensures SomeNeedsBeat(m, x) <==> SomeNeedsBeat(l, x) {
      if SomeNeedsBeat(m, x) {
        var t: nat :| NeedsBeat(m, t, x);
        assert NeedsBeat(l, t, x);
      }
      if SomeNeedsBeat(l, x) {
        var t: nat :| NeedsBeat(l, t, x);
        assert NeedsBeat(m, t, x);
      }
    }
  }

  lemma AppendedBeats(l: Executor, m: Executor, job: Job)
    requires BeatsRight(l) && m.jobs == l.jobs + [job] && job.stage.Queued?
    requires m.heartbeats == if job.item.Start? then l.heartbeats + {job.sandboxId} else l.heartbeats
    ensures BeatsRight(m)
  {
    forall x ensures x in m.heartbeats <==> SomeNeedsBeat(m, x) {
      assert x in l.heartbeats <==> SomeNeedsBeat(l, x);
      if SomeNeedsBeat(l, x) {
        var t: nat :| NeedsBeat(l, t, x);
        assert NeedsBeat(m, t, x);
      }
      if SomeNeedsBeat(m, x) {
        var t: nat :| NeedsBeat(m, t, x);
        if t < |l.jobs| { assert NeedsBeat(l, t, x); }
      }
      if job.item.Start? { assert NeedsBeat(m, |l.jobs|, job.sandboxId); }
    }
  }

  lemma DispatchesBeats(l: Executor, sandboxId: SandboxId, item: Item)
    requires Queues(l) && BeatsRight(l)
    ensures BeatsRight(Dispatched(l, sandboxId, item))
  {
    hide Queues, BeatsRight, Dispatched, KeyedChains.Step;
    var m := Dispatched(l, sandboxId, item);
    DispatchView(l, sandboxId, item);
    DispatchMaps(l, sandboxId, item);
    if Appends(l, sandboxId, item) {
      AppendedBeats(l, m, Job(sandboxId, item, Queued));
    } else {
      forall x, t: nat ensures NeedsBeat(m, t, x) <==> NeedsBeat(l, t, x) {}
      SameBeats(l, m);
    }
  }

  lemma MovesBeats(l: Executor, m: Executor, t: nat, stage: Stage)
    requires BeatsRight(l) && t < |l.jobs| && m.jobs == Staged(l.jobs, t, stage) && m.heartbeats == l.heartbeats
    requires NeedsBeat(m, t, l.jobs[t].sandboxId) <==> NeedsBeat(l, t, l.jobs[t].sandboxId)
    ensures BeatsRight(m)
  {
    hide BeatsRight;
    forall x, u: nat ensures NeedsBeat(m, u, x) <==> NeedsBeat(l, u, x) {}
    SameBeats(l, m);
  }

  /** A start that has booted, or is over, leaves the timer to a queued successor. */
  lemma QuietsBeats(l: Executor, m: Executor, t: nat, stage: Stage)
    requires Tied(l) && Queues(l) && BeatsRight(l) && t < |l.jobs| && IsStartStage(l.jobs[t].stage)
    requires m.jobs == Staged(l.jobs, t, stage) && (stage.Reporting? || stage.Over?)
    requires m.heartbeats == Quieted(l, l.jobs[t].sandboxId)
    ensures BeatsRight(m)
  {
    var owner := l.jobs[t].sandboxId;
    QueuedFacts(l, owner);
    forall x ensures x in m.heartbeats <==> SomeNeedsBeat(m, x) {
      assert x in l.heartbeats <==> SomeNeedsBeat(l, x);
      if SomeNeedsBeat(m, x) {
        var u: nat :| NeedsBeat(m, u, x);
        assert u != t && NeedsBeat(l, u, x);
        if x == owner { OnlyQueued(l, t, u); }
      }
      if x in m.heartbeats {
        if x == owner {
          assert NeedsBeat(m, l.queuedStarts[x], x);
        } else {
          var u: nat :| NeedsBeat(l, u, x);
          assert NeedsBeat(m, u, x);
        }
      }
    }
  }

  /** Beside a start that has begun, only a queued one can need a heartbeat. */
  lemma OnlyQueued(l: Executor, t: nat, u: nat)
    requires Tied(l) && Queues(l) && t < |l.jobs| && IsStartStage(l.jobs[t].stage)
    requires u != t && NeedsBeat(l, u, l.jobs[t].sandboxId)
    ensures l.jobs[t].sandboxId in l.queuedStarts
  {
    if l.jobs[u].stage.Queued? {
      assert IsQueued(l, u, l.jobs[t].sandboxId, true);
    } else {
      OneRuns(l, t, u);
    }
  }

  lemma BeginsBeats(size: nat, l: Executor, t: nat)
    requires BeatsRight(l) && t < |l.jobs| && l.jobs[t].stage.Queued? && KeyedChains.MayStart(l.chains, t)
    ensures BeatsRight(Begun(size, l, t))
  {
    hide BeatsRight, Begun, KeyedChains.Step, KeyedChains.MayStart, Semaphores.Acquired;
    BegunView(size, l, t);
    MovesBeats(l, Begun(size, l, t), t, BegunStage(l, t));
  }

  lemma StepBeats(size: nat, l: Executor, op: Op)
    requires Tied(l) && Queues(l) && BeatsRight(l) && Legal(l, op)
    ensures BeatsRight(Step(size, l, op))
  {
    BeginsFacts(l, op);
    hide Tied, Queues, BeatsRight, Dispatched, Begun, Quieted, OneLess,
         KeyedChains.Step, KeyedChains.Legal, KeyedChains.MayStart, KeyedChains.Cleared, Semaphores.Released;
    match op
    case Dispatches(sandboxId, item) => DispatchesBeats(l, sandboxId, item);
    case Begins(t) => BeginsBeats(size, l, t);
    case Granted(t) => MovesBeats(l, Step(size, l, op), t, Booting(l.jobs[t].stage.request));
    case Boots(t) => QuietsBeats(l, Booted(l, t), t, Reporting(l.jobs[t].stage.request));
    case BootFails(t) => QuietsBeats(l, StartOver(l, t, false), t, Over);
    case Reports(t) => QuietsBeats(l, StartOver(l, t, true), t, Over);
    case Finishes(t, ok) => MovesBeats(l, WorkOver(l, t, ok), t, Over);
    case CleansUp(t) => SameJobsBeats(l, Step(size, l, op));
  }

  lemma SameJobsBeats(l: Executor, m: Executor)
    requires BeatsRight(l) && m.jobs == l.jobs && m.heartbeats == l.heartbeats
    ensures BeatsRight(m)
  {
    hide BeatsRight;
    forall x, u: nat ensures NeedsBeat(m, u, x) <==> NeedsBeat(l, u, x) {}
    SameBeats(l, m);
  }

  // ---------------------------------------------------------------- work in flight

  predicate IsUnreported(job: Job, sandboxId: SandboxId) {
    job.sandboxId == sandboxId && !job.item.Other? && !job.stage.Over?
  }

  /** The starts and stops of a sandbox that have not reported. */
  function Unreported(jobs: seq<Job>, sandboxId: SandboxId): nat {
    if jobs == [] then 0
    else Unreported(jobs[..|jobs| - 1], sandboxId) + if IsUnreported(jobs[|jobs| - 1], sandboxId) then 1 else 0
  }

  ghost predicate InFlightRight(l: Executor) {
    forall sandboxId ::
      && CountOf(l.inFlight, sandboxId) == Unreported(l.jobs, sandboxId)
      && (sandboxId in l.inFlight ==> l.inFlight[sandboxId] > 0)
  }

  lemma UnreportedLast(jobs: seq<Job>, job: Job, sandboxId: SandboxId)
    ensures Unreported(jobs + [job], sandboxId) == Unreported(jobs, sandboxId) + if IsUnreported(job, sandboxId) then 1 else 0
  {
    assert (jobs + [job])[..|jobs|] == jobs;
  }

  lemma {:induction false} UnreportedUpdate(jobs: seq<Job>, t: nat, job: Job, sandboxId: SandboxId)
    requires t < |jobs|
    ensures Unreported(jobs[t := job], sandboxId)
            == Unreported(jobs, sandboxId) - (if IsUnreported(jobs[t], sandboxId) then 1 else 0)
               + if IsUnreported(job, sandboxId) then 1 else 0
  {
    hide IsUnreported;
    var n := |jobs| - 1;
    if t < n {
      assert jobs[t := job][..n] == jobs[..n][t := job];
      UnreportedUpdate(jobs[..n], t, job, sandboxId);
    } else {
      assert jobs[t := job][..n] == jobs[..n];
    }
  }

  /** One job changes; the counts change as it does. */
  lemma UpdatedInFlight(l: Executor, m: Executor, t: nat, job: Job)
    requires InFlightRight(l) && t < |l.jobs| && m.jobs == l.jobs[t := job] && job.sandboxId == l.jobs[t].sandboxId
    requires IsUnreported(job, job.sandboxId) ==> IsUnreported(l.jobs[t], job.sandboxId)
    requires m.inFlight == if IsUnreported(l.jobs[t], job.sandboxId) && !IsUnreported(job, job.sandboxId)
                           then OneLess(l.inFlight, job.sandboxId) else l.inFlight
    ensures InFlightRight(m)
  {
    hide Unreported;
    forall x ensures CountOf(m.inFlight, x) == Unreported(m.jobs, x) && (x in m.inFlight ==> m.inFlight[x] > 0) {
      assert CountOf(l.inFlight, x) == Unreported(l.jobs, x);
      UnreportedUpdate(l.jobs, t, job, x);
    }
  }

  lemma AppendedInFlight(l: Executor, m: Executor, job: Job)
    requires InFlightRight(l) && m.jobs == l.jobs + [job] && job.stage.Queued?
    requires m.inFlight == if job.item.Other? then l.inFlight else OneMore(l.inFlight, job.sandboxId)
    ensures InFlightRight(m)
  {
    hide Unreported;
    forall x ensures CountOf(m.inFlight, x) == Unreported(m.jobs, x) && (x in m.inFlight ==> m.inFlight[x] > 0) {
      assert CountOf(l.inFlight, x) == Unreported(l.jobs, x);
      UnreportedLast(l.jobs, job, x);
    }
  }

  lemma SameInFlight(l: Executor, m: Executor)
    requires InFlightRight(l) && m.jobs == l.jobs && m.inFlight == l.inFlight
    ensures InFlightRight(m)
  {
  }

  lemma DispatchesInFlight(l: Executor, sandboxId: SandboxId, item: Item)
    requires Queues(l) && InFlightRight(l)
    ensures InFlightRight(Dispatched(l, sandboxId, item))
  {
    hide Queues, InFlightRight, Dispatched, KeyedChains.Step, OneMore, OneLess;
    var m := Dispatched(l, sandboxId, item);
    var job := Job(sandboxId, item, Queued);
    DispatchView(l, sandboxId, item);
    DispatchMaps(l, sandboxId, item);
    if Appends(l, sandboxId, item) {
      AppendedInFlight(l, m, job);
    } else if Replaces(l, sandboxId, item) {
      UpdatedInFlight(l, m, QueuedJob(l, sandboxId, item), job);
    } else {
      SameInFlight(l, m);
    }
  }

  lemma BeginsInFlight(size: nat, l: Executor, t: nat)
    requires InFlightRight(l) && t < |l.jobs| && l.jobs[t].stage.Queued? && KeyedChains.MayStart(l.chains, t)
    ensures InFlightRight(Begun(size, l, t))
  {
    hide InFlightRight, OneLess, Begun, KeyedChains.Step, KeyedChains.MayStart, Semaphores.Acquired;
    BegunView(size, l, t);
    UpdatedInFlight(l, Begun(size, l, t), t, l.jobs[t].(stage := BegunStage(l, t)));
  }

  lemma BootedInFlight(l: Executor, t: nat)
    requires InFlightRight(l) && t < |l.jobs| && l.jobs[t].stage.Booting?
    ensures InFlightRight(Booted(l, t))
  {
    hide InFlightRight, OneLess, Quieted;
    UpdatedInFlight(l, Booted(l, t), t, l.jobs[t].(stage := Reporting(l.jobs[t].stage.request)));
  }

  lemma StartOverInFlight(l: Executor, t: nat, ok: bool)
    requires InFlightRight(l) && HoldsSlot(l, t) && IsRunning(l, t) && l.jobs[t].item.Start?
    ensures InFlightRight(StartOver(l, t, ok))
  {
    hide InFlightRight, OneLess, Quieted, KeyedChains.Step, Semaphores.Released;
    UpdatedInFlight(l, StartOver(l, t, ok), t, l.jobs[t].(stage := Over));
  }

  lemma WorkOverInFlight(l: Executor, t: nat, ok: bool)
    requires InFlightRight(l) && t < |l.jobs| && IsRunning(l, t) && l.jobs[t].stage.Working? && !l.jobs[t].item.Start?
    ensures InFlightRight(WorkOver(l, t, ok))
  {
    hide InFlightRight, OneLess, KeyedChains.Step;
    UpdatedInFlight(l, WorkOver(l, t, ok), t, l.jobs[t].(stage := Over));
  }

  lemma StepInFlight(size: nat, l: Executor, op: Op)
    requires Tied(l) && Queues(l) && InFlightRight(l) && Legal(l, op)
    ensures InFlightRight(Step(size, l, op))
  {
    BeginsFacts(l, op);
    hide Tied, Queues, InFlightRight, Dispatched, Begun, Booted, StartOver, WorkOver,
         KeyedChains.Step, KeyedChains.Legal, KeyedChains.MayStart, KeyedChains.Cleared;
    match op
    case Dispatches(sandboxId, item) => DispatchesInFlight(l, sandboxId, item);
    case Begins(t) => BeginsInFlight(size, l, t);
    case Granted(t) => UpdatedInFlight(l, Step(size, l, op), t, l.jobs[t].(stage := Booting(l.jobs[t].stage.request)));
    case Boots(t) => BootedInFlight(l, t);
    case BootFails(t) => StartOverInFlight(l, t, false);
    case Reports(t) => StartOverInFlight(l, t, true);
    case Finishes(t, ok) => WorkOverInFlight(l, t, ok);
    case CleansUp(t) => SameInFlight(l, Step(size, l, op));
  }

  // ---------------------------------------------------------------- the boot slots

  /** The start that made a request for a slot and is not over. */
  ghost predicate Requests(l: Executor, t: nat, r: nat) {
    t < |l.jobs| && IsStartStage(l.jobs[t].stage) && l.jobs[t].stage.request == r
  }

  ghost predicate Requested(l: Executor, r: nat) {
    exists t: nat :: Requests(l, t, r)
  }

  predicate IsReleased(s: Semaphores.Semaphore, r: nat) {
    r < |s.grants| && s.grants[r].released
  }

  /** Each request belongs to one start; an unreleased one to a start not over. */
  ghost predicate SlotsRight(size: nat, l: Executor) {
    && Semaphores.Keeps(size, l.slots)
    && (forall t: nat, r: nat :: Requests(l, t, r) ==>
          && r < l.slots.requests
          && !IsReleased(l.slots, r)
          && (!l.jobs[t].stage.Acquiring? ==> r < |l.slots.grants|))
    && (forall t: nat, u: nat, r: nat :: Requests(l, t, r) && Requests(l, u, r) ==> t == u)
    && (forall r: nat :: r < l.slots.requests ==> Requested(l, r) || IsReleased(l.slots, r))
  }

  lemma AcquiredFacts(size: nat, s: Semaphores.Semaphore)
    requires Semaphores.Keeps(size, s)
    ensures var d := Semaphores.Acquired(size, s);
            && Semaphores.Keeps(size, d)
            && d.requests == s.requests + 1
            && |s.grants| <= |d.grants|
            && forall r: nat :: IsReleased(d, r) <==> IsReleased(s, r)
  {
    Semaphores.StepKeeps(size, s, Semaphores.Acquires);
    hide Semaphores.Keeps;
  }

  lemma ReleasedFacts(size: nat, s: Semaphores.Semaphore, g: nat)
    requires Semaphores.Keeps(size, s) && g < |s.grants|
    ensures var d := Semaphores.Released(s, g);
            && Semaphores.Keeps(size, d)
            && d.requests == s.requests
            && |s.grants| <= |d.grants|
            && forall r: nat :: IsReleased(d, r) <==> IsReleased(s, r) || r == g
  {
    Semaphores.StepKeeps(size, s, Semaphores.Releases(g));
    hide Semaphores.Keeps;
  }

  lemma AcquiresSlots(size: nat, l: Executor, m: Executor, t: nat)
    requires SlotsRight(size, l) && t < |l.jobs| && l.jobs[t].stage.Queued?
    requires m.jobs == Staged(l.jobs, t, Acquiring(l.slots.requests)) && m.slots == Semaphores.Acquired(size, l.slots)
    ensures SlotsRight(size, m)
  {
    AcquiredFacts(size, l.slots);
    hide Semaphores.Acquired, Semaphores.Keeps, IsReleased;
    forall u: nat, r: nat | Requests(m, u, r) ensures (u == t && r == l.slots.requests) || Requests(l, u, r) {}
    forall r: nat | r < m.slots.requests ensures Requested(m, r) || IsReleased(m.slots, r) {
      if r == l.slots.requests {
        assert Requests(m, t, r);
      } else if Requested(l, r) {
        var u: nat :| Requests(l, u, r);
        assert Requests(m, u, r);
      }
    }
    NotYet(l.slots, l.slots.requests, size);
  }

  lemma NotYet(s: Semaphores.Semaphore, r: nat, size: nat)
    requires Semaphores.Keeps(size, s) && r >= s.requests
    ensures !IsReleased(s, r)
  {
  }

  lemma ReleasesSlots(size: nat, l: Executor, m: Executor, t: nat)
    requires SlotsRight(size, l) && HoldsSlot(l, t)
    requires m.jobs == Staged(l.jobs, t, Over) && m.slots == Semaphores.Released(l.slots, l.jobs[t].stage.request)
    ensures SlotsRight(size, m)
  {
    var mine := l.jobs[t].stage.request;
    assert Requests(l, t, mine);
    ReleasedFacts(size, l.slots, mine);
    hide Semaphores.Released, Semaphores.Keeps, IsReleased;
    forall u: nat, r: nat | Requests(m, u, r) ensures u != t && Requests(l, u, r) && r != mine {
      assert Requests(l, u, r);
    }
    forall r: nat | r < m.slots.requests ensures Requested(m, r) || IsReleased(m.slots, r) {
      if r != mine && Requested(l, r) {
        var u: nat :| Requests(l, u, r);
        assert Requests(m, u, r);
      }
    }
  }

  /** A job moves on holding the request it has, if any. */
  lemma MovesSlots(size: nat, l: Executor, m: Executor, t: nat, job: Job)
    requires SlotsRight(size, l) && m.slots == l.slots && t < |l.jobs| && m.jobs == l.jobs[t := job]
    requires IsStartStage(job.stage) <==> IsStartStage(l.jobs[t].stage)
    requires IsStartStage(job.stage) ==> job.stage.request == l.jobs[t].stage.request
    requires IsStartStage(job.stage) && !job.stage.Acquiring? ==> job.stage.request < |l.slots.grants|
    ensures SlotsRight(size, m)
  {
    hide Semaphores.Keeps, IsReleased;
    forall u: nat, r: nat ensures Requests(m, u, r) <==> Requests(l, u, r) {}
    SameSlots(size, l, m);
  }

  lemma SameSlots(size: nat, l: Executor, m: Executor)
    requires SlotsRight(size, l) && m.slots == l.slots
    requires forall u: nat, r: nat :: Requests(m, u, r) <==> Requests(l, u, r)
    requires forall u: nat, r: nat :: Requests(m, u, r) && !m.jobs[u].stage.Acquiring? ==> r < |l.slots.grants|
    ensures SlotsRight(size, m)
  {
    hide Semaphores.Keeps, IsReleased;
    forall r: nat | r < m.slots.requests ensures Requested(m, r) || IsReleased(m.slots, r) {
      if Requested(l, r) {
        var u: nat :| Requests(l, u, r);
        assert Requests(m, u, r);
      }
    }
  }

  lemma DispatchesSlots(size: nat, l: Executor, sandboxId: SandboxId, item: Item)
    requires Queues(l) && SlotsRight(size, l)
    ensures SlotsRight(size, Dispatched(l, sandboxId, item))
  {
    GrantedOnes(size, l);
    hide Queues, SlotsRight, Dispatched, KeyedChains.Step;
    var m := Dispatched(l, sandboxId, item);
    DispatchView(l, sandboxId, item);
    forall u: nat, r: nat ensures Requests(m, u, r) <==> Requests(l, u, r) {}
    forall u: nat, r: nat | Requests(m, u, r) && !m.jobs[u].stage.Acquiring? ensures r < |l.slots.grants| { assert Requests(l, u, r); }
    SameSlots(size, l, m);
  }

  lemma GrantedOnes(size: nat, l: Executor)
    requires SlotsRight(size, l)
    ensures forall t: nat, r: nat :: Requests(l, t, r) && !l.jobs[t].stage.Acquiring? ==> r < |l.slots.grants|
  {
    hide Semaphores.Keeps, IsReleased;
  }

  lemma BeginsSlots(size: nat, l: Executor, t: nat)
    requires SlotsRight(size, l) && t < |l.jobs| && l.jobs[t].stage.Queued? && KeyedChains.MayStart(l.chains, t)
    ensures SlotsRight(size, Begun(size, l, t))
  {
    hide SlotsRight, Begun, KeyedChains.Step, KeyedChains.MayStart, Semaphores.Acquired;
    var m := Begun(size, l, t);
    BegunView(size, l, t);
    if l.jobs[t].item.Start? {
      AcquiresSlots(size, l, m, t);
    } else {
      MovesSlots(size, l, m, t, l.jobs[t].(stage := Working));
    }
  }

  lemma StepSlots(size: nat, l: Executor, op: Op)
    requires Tied(l) && Queues(l) && SlotsRight(size, l) && Legal(l, op)
    ensures SlotsRight(size, Step(size, l, op))
  {
    BeginsFacts(l, op);
    GrantedOnes(size, l);
    assert op.Boots? ==> Requests(l, op.job, l.jobs[op.job].stage.request);
    hide Tied, Queues, SlotsRight, Dispatched, Begun, Quieted, OneLess,
         KeyedChains.Step, KeyedChains.Legal, KeyedChains.MayStart, KeyedChains.Cleared, Semaphores.Released;
    match op
    case Dispatches(sandboxId, item) => DispatchesSlots(size, l, sandboxId, item);
    case Begins(t) => BeginsSlots(size, l, t);
    case Granted(t) => MovesSlots(size, l, Step(size, l, op), t, l.jobs[t].(stage := Booting(l.jobs[t].stage.request)));
    case Boots(t) => MovesSlots(size, l, Booted(l, t), t, l.jobs[t].(stage := Reporting(l.jobs[t].stage.request)));
    case BootFails(t) => ReleasesSlots(size, l, StartOver(l, t, false), t);
    case Reports(t) => ReleasesSlots(size, l, StartOver(l, t, true), t);
    case Finishes(t, ok) => MovesSlots(size, l, WorkOver(l, t, ok), t, l.jobs[t].(stage := Over));
    case CleansUp(t) => SameRequests(size, l, Step(size, l, op));
  }

  lemma SameRequests(size: nat, l: Executor, m: Executor)
    requires SlotsRight(size, l) && m.jobs == l.jobs && m.slots == l.slots
    ensures SlotsRight(size, m)
  {
    assert forall t: nat, r: nat :: Requests(l, t, r) && !l.jobs[t].stage.Acquiring? ==> r < |l.slots.grants|;
    hide SlotsRight;
    forall u: nat, r: nat ensures Requests(m, u, r) <==> Requests(l, u, r) {}
    SameSlots(size, l, m);
  }

  // ---------------------------------------------------------------- runs

  ghost predicate Keeps(size: nat, l: Executor) {
    && Tied(l) && Queues(l) && Executes(l) && BeatsRight(l) && InFlightRight(l) && SlotsRight(size, l)
    && forall sandboxId :: CarriesNewest(l, sandboxId)
  }

  lemma StepKeeps(size: nat, l: Executor, op: Op)
    requires Keeps(size, l) && Legal(l, op)
    ensures Keeps(size, Step(size, l, op))
  {
    hide Tied, Queues, Executes, BeatsRight, InFlightRight, SlotsRight, CarriesNewest, Step, Legal;
    StepTied(size, l, op);
    StepQueues(size, l, op);
    StepExecutes(size, l, op);
    StepBeats(size, l, op);
    StepInFlight(size, l, op);
    StepSlots(size, l, op);
    forall sandboxId ensures CarriesNewest(Step(size, l, op), sandboxId) { StepNewest(size, l, op, sandboxId); }
  }

  lemma NoWorkKeeps(size: nat)
    ensures Keeps(size, NoWork)
  {
  }

  lemma {:induction false} RunKeeps(size: nat, ops: seq<Op>)
    requires Possible(size, ops)
    ensures Keeps(size, Run(size, ops))
  {
    hide Keeps, Step, Legal;
    if ops == [] {
      NoWorkKeeps(size);
    } else {
      RunKeeps(size, ops[..|ops| - 1]);
      StepKeeps(size, Run(size, ops[..|ops| - 1]), ops[|ops| - 1]);
    }
  }

  /** A sandbox has at most one queued start, one queued stop and one executing start. */
  lemma OneStartEach(size: nat, ops: seq<Op>, t: nat, u: nat, sandboxId: SandboxId)
    requires Possible(size, ops)
    ensures var l := Run(size, ops);
            && (IsQueued(l, t, sandboxId, true) && IsQueued(l, u, sandboxId, true) ==> t == u)
            && (IsQueued(l, t, sandboxId, false) && IsQueued(l, u, sandboxId, false) ==> t == u)
            && (IsLive(l, t, sandboxId) && IsLive(l, u, sandboxId) ==> t == u)
  {
    hide Run, Possible, Tied, Executes, BeatsRight, InFlightRight, SlotsRight, CarriesNewest;
    RunKeeps(size, ops);
    var l := Run(size, ops);
    if IsLive(l, t, sandboxId) && IsLive(l, u, sandboxId) { OneRuns(l, t, u); }
  }

  /** The newest payload dispatched for a sandbox is never lost: the queued start
      carries it, or with none queued the executing one, or the last one executed. */
  lemma NewestPayloadWins(size: nat, ops: seq<Op>, sandboxId: SandboxId)
    requires Possible(size, ops) && sandboxId in Run(size, ops).newest
    ensures var l := Run(size, ops);
            && (forall t: nat :: IsQueued(l, t, sandboxId, true) ==> l.jobs[t].item == Start(l.newest[sandboxId]))
            && ((forall t: nat :: !IsQueued(l, t, sandboxId, true)) ==>
                  && (forall t: nat :: IsLive(l, t, sandboxId) ==> l.jobs[t].item == Start(l.newest[sandboxId]))
                  && sandboxId in l.lastExecuted && l.lastExecuted[sandboxId] == l.newest[sandboxId])
  {
    hide Run, Possible, Tied, BeatsRight, InFlightRight, SlotsRight;
    RunKeeps(size, ops);
    assert CarriesNewest(Run(size, ops), sandboxId);
  }

  /** The count kept for a sandbox is that of its starts and stops not yet reported. */
  lemma InFlightCounted(size: nat, ops: seq<Op>, sandboxId: SandboxId)
    requires Possible(size, ops)
    ensures CountOf(Run(size, ops).inFlight, sandboxId) == Unreported(Run(size, ops).jobs, sandboxId)
  {
    hide Run, Possible, Tied, Queues, Executes, BeatsRight, SlotsRight, CarriesNewest;
    RunKeeps(size, ops);
  }

  /** A sandbox's heartbeat is armed exactly while a start of it is queued, waits
      for a slot or boots. */
  lemma HeartbeatsExact(size: nat, ops: seq<Op>, sandboxId: SandboxId)
    requires Possible(size, ops)
    ensures sandboxId in Run(size, ops).heartbeats <==> SomeNeedsBeat(Run(size, ops), sandboxId)
  {
    hide Run, Possible, Tied, Queues, Executes, InFlightRight, SlotsRight, CarriesNewest, SomeNeedsBeat;
    RunKeeps(size, ops);
  }

  /** A start whose boot or report is under way can always be brought to its end. */
  lemma AlwaysEnds(size: nat, ops: seq<Op>, t: nat)
    requires Possible(size, ops) && t < |Run(size, ops).jobs|
    ensures Run(size, ops).jobs[t].stage.Booting? ==> Legal(Run(size, ops), BootFails(t)) && Legal(Run(size, ops), Boots(t))
    ensures Run(size, ops).jobs[t].stage.Reporting? ==> Legal(Run(size, ops), Reports(t))
  {
    hide Run, Possible, Queues, Executes, InFlightRight, BeatsRight, CarriesNewest, KeyedChains.Keeps, Semaphores.Keeps;
    RunKeeps(size, ops);
    var l := Run(size, ops);
    assert JobTied(l, t);
    if IsStartStage(l.jobs[t].stage) { assert Requests(l, t, l.jobs[t].stage.request); }
  }

  // The slots held are those in use.

  /** The starts that were granted a slot and have not given it back. */
  function Holders(l: Executor): set<nat> {
    set t: nat | t < |l.jobs| && IsStartStage(l.jobs[t].stage) && l.jobs[t].stage.request < |l.slots.grants|
  }

  function Unreleased(grants: seq<Semaphores.Grant>): set<nat> {
    set g: nat | g < |grants| && !grants[g].released
  }

  lemma {:induction false} UnreleasedCount(grants: seq<Semaphores.Grant>)
    ensures |Unreleased(grants)| == |grants| - Semaphores.ReleasedGrants(grants)
  {
    if grants == [] {
      assert Unreleased(grants) == {};
    } else {
      var n := |grants| - 1;
      UnreleasedCount(grants[..n]);
      assert Unreleased(grants) == Unreleased(grants[..n]) + if grants[n].released then {} else {n};
    }
  }

  /** Sets paired off one to one are of one size. */
  lemma {:induction false} Paired(a: set<nat>, b: set<nat>, f: nat -> nat)
    requires forall x :: x in a ==> f(x) in b
    requires forall x, y :: x in a && y in a && f(x) == f(y) ==> x == y
    requires forall y :: y in b ==> exists x :: x in a && f(x) == y
    ensures |a| == |b|
  {
    if b == {} {
      assert a == {};
    } else {
      var r :| r in b;
      var x :| x in a && f(x) == r;
      forall y | y in b - {f(x)} ensures exists z :: z in a - {x} && f(z) == y {
        var z :| z in a && f(z) == y;
        assert z in a - {x};
      }
      Paired(a - {x}, b - {f(x)}, f);
    }
  }

  lemma HoldersPaired(size: nat, l: Executor)
    requires SlotsRight(size, l)
    ensures |Holders(l)| == |Unreleased(l.slots.grants)|
  {
    hide Semaphores.Keeps;
    var f: nat -> nat := (t: nat) => if t < |l.jobs| && IsStartStage(l.jobs[t].stage) then l.jobs[t].stage.request else 0;
    var a, b := Holders(l), Unreleased(l.slots.grants);
    forall t | t in a ensures Requests(l, t, f(t)) && f(t) in b { assert Requests(l, t, l.jobs[t].stage.request); }
    forall r | r in b ensures exists t :: t in a && f(t) == r {
      GrantsWithin(size, l.slots);
      assert Requested(l, r);
      var t: nat :| Requests(l, t, r);
      assert t in a && f(t) == r;
    }
    Paired(a, b, f);
  }

  lemma GrantsWithin(size: nat, s: Semaphores.Semaphore)
    requires Semaphores.Keeps(size, s)
    ensures |s.grants| <= s.requests
  {
  }

  /** The semaphore never leaks a slot: those in use are exactly those of starts
      not over, so at most `size` boot at a time, and a start is kept waiting only
      while that many hold one. */
  lemma SlotsHeld(size: nat, ops: seq<Op>)
    requires Possible(size, ops)
    ensures var l := Run(size, ops);
            && |Holders(l)| == l.slots.inUse <= size
            && (forall t: nat :: t < |l.jobs| && (l.jobs[t].stage.Booting? || l.jobs[t].stage.Reporting?) ==> t in Holders(l))
            && (forall t: nat :: t < |l.jobs| && IsStartStage(l.jobs[t].stage) && t !in Holders(l) ==> |Holders(l)| == size)
  {
    hide Run, Possible, Tied, Queues, Executes, BeatsRight, InFlightRight, CarriesNewest;
    RunKeeps(size, ops);
    var l := Run(size, ops);
    UnreleasedCount(l.slots.grants);
    HoldersPaired(size, l);
    assert forall t: nat :: t < |l.jobs| && IsStartStage(l.jobs[t].stage) ==> Requests(l, t, l.jobs[t].stage.request);
  }
}
