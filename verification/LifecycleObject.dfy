/** The lifecycle executor as the closure the source runs, over its chains and its
    start slots (apps/runner/src/runner.ts:386-444 and 1904-1985). */
module LifecycleObject {
  import opened KeyedChainsObject
  import opened SemaphoreObject
  import opened Spec = Lifecycle

  class LifecycleExecutor {
    /** Every slot made, whose item a twin may replace; its index is its task. */
    var jobs: seq<Job>
    const chains: TaskChains
    const startSlots: CountedSemaphore
    var queuedStarts: map<SandboxId, nat>
    var queuedStops: map<SandboxId, nat>
    var executingStartHash: map<SandboxId, Hash>
    var lifecycleInFlight: map<SandboxId, nat>
    /** The sandboxes whose heartbeat timer is set. */
    var startHeartbeats: set<SandboxId>
    ghost var newest: map<SandboxId, Hash>
    ghost var lastExecuted: map<SandboxId, Hash>

    ghost function State(): Executor
      reads this, chains, startSlots
    {
      Executor(jobs, chains.State(), startSlots.State(), queuedStarts, queuedStops, executingStartHash, lifecycleInFlight,
               startHeartbeats, newest, lastExecuted)
    }

    constructor (lifecycleConcurrency: nat)
      ensures State() == NoWork && startSlots.size == lifecycleConcurrency
      ensures fresh(chains) && fresh(startSlots)
    {
      chains := new TaskChains();
      startSlots := new CountedSemaphore(lifecycleConcurrency);
      jobs, queuedStarts, queuedStops := [], map[], map[];
      executingStartHash, lifecycleInFlight, startHeartbeats := map[], map[], {};
      newest, lastExecuted := map[], map[];
    }

    method BeginLifecycle(sandboxId: SandboxId)
      modifies this`lifecycleInFlight
      ensures lifecycleInFlight == OneMore(old(lifecycleInFlight), sandboxId)
    {
      var count := if sandboxId in lifecycleInFlight then lifecycleInFlight[sandboxId] else 0;
      lifecycleInFlight := lifecycleInFlight[sandboxId := count + 1];
    }

    method EndLifecycle(sandboxId: SandboxId)
      modifies this`lifecycleInFlight
      ensures lifecycleInFlight == OneLess(old(lifecycleInFlight), sandboxId)
    {
      var count: int := if sandboxId in lifecycleInFlight then lifecycleInFlight[sandboxId] else 1;
      var left := count - 1;
      if left > 0 {
        lifecycleInFlight := lifecycleInFlight[sandboxId := left];
      } else {
        lifecycleInFlight := lifecycleInFlight - {sandboxId};
      }
    }

    /** Route one start onto its sandbox's chain, unless it supersedes the queued
        one or is absorbed by the one executing. */
    method EnqueueStart(sandboxId: SandboxId, hash: Hash)
      requires sandboxId in queuedStarts ==> queuedStarts[sandboxId] < |jobs|
      modifies this, chains
      ensures State() == StartDispatched(old(State()), sandboxId, hash)
    {
      hide KeyedChains.Enqueued, OneMore;
      newest := newest[sandboxId := hash];
      if sandboxId in queuedStarts {
        var slot := queuedStarts[sandboxId];
        jobs := jobs[slot := jobs[slot].(item := Start(hash))];
        return;
      }
      if sandboxId in executingStartHash && executingStartHash[sandboxId] == hash { return; }
      queuedStarts := queuedStarts[sandboxId := |jobs|];
      jobs := jobs + [Job(sandboxId, Start(hash), Queued)];
      BeginLifecycle(sandboxId);
      startHeartbeats := startHeartbeats + {sandboxId};
      chains.Enqueue(sandboxId);
    }

    method EnqueueStop(sandboxId: SandboxId, payload: string)
      requires sandboxId in queuedStops ==> queuedStops[sandboxId] < |jobs|
      modifies this, chains
      ensures State() == StopDispatched(old(State()), sandboxId, payload)
    {
      hide KeyedChains.Enqueued, OneMore;
      if sandboxId in queuedStops {
        var slot := queuedStops[sandboxId];
        jobs := jobs[slot := jobs[slot].(item := Stop(payload))];
        return;
      }
      queuedStops := queuedStops[sandboxId := |jobs|];
      jobs := jobs + [Job(sandboxId, Stop(payload), Queued)];
      BeginLifecycle(sandboxId);
      chains.Enqueue(sandboxId);
    }

    method EnqueueWork(sandboxId: SandboxId, item: Item)
      requires Queues(State())
      modifies this, chains
      ensures State() == Dispatched(old(State()), sandboxId, item)
    {
      QueuedFacts(State(), sandboxId);
      hide Queues, KeyedChains.Enqueued, StartDispatched, StopDispatched;
      match item
      case Start(hash) => EnqueueStart(sandboxId, hash);
      case Stop(payload) => EnqueueStop(sandboxId, payload);
      case Other(_) =>
        jobs := jobs + [Job(sandboxId, item, Queued)];
        chains.Enqueue(sandboxId);
    }

    /** The chain reaches a job: a start leaves the queue and asks for a slot. */
    method Begin(t: nat)
      requires t < |jobs| && KeyedChains.MayStart(chains.State(), t)
      modifies this, chains, startSlots
      ensures State() == Begun(startSlots.size, old(State()), t)
    {
      hide KeyedChains.MayStart, Semaphores.Acquired;
      chains.Start(t);
      var job := jobs[t];
      match job.item
      case Start(hash) =>
        queuedStarts := queuedStarts - {job.sandboxId};
        executingStartHash := executingStartHash[job.sandboxId := hash];
        lastExecuted := lastExecuted[job.sandboxId := hash];
        jobs := jobs[t := job.(stage := Acquiring(startSlots.requests))];
        startSlots.Acquire();
      case Stop(_) =>
        queuedStops := queuedStops - {job.sandboxId};
        jobs := jobs[t := job.(stage := Working)];
      case Other(_) =>
        jobs := jobs[t := job.(stage := Working)];
    }

    method StopHeartbeatUnlessQueued(sandboxId: SandboxId)
      modifies this`startHeartbeats
      ensures startHeartbeats == Quieted(old(State()), sandboxId)
    {
      if sandboxId !in queuedStarts { startHeartbeats := startHeartbeats - {sandboxId}; }
    }

    /** The boot is over: the timer goes to a successor or stops, then the report. */
    method BootDone(t: nat)
      requires t < |jobs| && jobs[t].stage.Booting?
      modifies this
      ensures State() == Booted(old(State()), t)
    {
      StopHeartbeatUnlessQueued(jobs[t].sandboxId);
      jobs := jobs[t := jobs[t].(stage := Reporting(jobs[t].stage.request))];
    }

    /** What a start's task does last, whether or not its boot failed. */
    method FinishStart(t: nat, ok: bool)
      requires HoldsSlot(State(), t) && IsRunning(State(), t)
      modifies this, chains, startSlots
      ensures State() == StartOver(old(State()), t, ok)
    {
      hide Semaphores.Released, OneLess;
      var sandboxId := jobs[t].sandboxId;
      startSlots.Release(jobs[t].stage.request);
      executingStartHash := executingStartHash - {sandboxId};
      EndLifecycle(sandboxId);
      StopHeartbeatUnlessQueued(sandboxId);
      jobs := jobs[t := jobs[t].(stage := Over)];
      chains.Settle(t, ok);
    }

    /** What any other task does last. */
    method FinishWork(t: nat, ok: bool)
      requires t < |jobs| && IsRunning(State(), t)
      modifies this, chains
      ensures State() == WorkOver(old(State()), t, ok)
    {
      hide OneLess;
      if jobs[t].item.Stop? { EndLifecycle(jobs[t].sandboxId); }
      jobs := jobs[t := jobs[t].(stage := Over)];
      chains.Settle(t, ok);
    }
  }
}
