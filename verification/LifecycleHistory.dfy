/** What the executor's work is, said of the jobs and of their history alone, without
    the maps it decides by. */
module LifecycleHistory {
  import opened Wrappers
  import KeyedChains
  import Semaphores
  import opened Lifecycle

  // ---------------------------------------------------------------- what a dispatch does

  /** A start, or a stop, of the sandbox that has not begun. */
  ghost predicate Twin(l: Executor, t: nat, sandboxId: SandboxId, item: Item) {
    && t < |l.jobs| && l.jobs[t].sandboxId == sandboxId && l.jobs[t].stage == Queued
    && ((item.Start? && l.jobs[t].item.Start?) || (item.Stop? && l.jobs[t].item.Stop?))
  }

  ghost predicate HasTwin(l: Executor, sandboxId: SandboxId, item: Item) {
    exists t: nat :: Twin(l, t, sandboxId, item)
  }

  /** A start of the sandbox, with this very payload, has begun and is not over. */
  ghost predicate IsUnderWay(l: Executor, sandboxId: SandboxId, item: Item) {
    exists t: nat :: IsLive(l, t, sandboxId) && l.jobs[t].item == item
  }

  lemma ReplacesIs(l: Executor, sandboxId: SandboxId, item: Item)
    requires Queues(l)
    ensures Replaces(l, sandboxId, item) <==> HasTwin(l, sandboxId, item)
    ensures forall t: nat :: Twin(l, t, sandboxId, item) ==> Replaces(l, sandboxId, item) && t == QueuedJob(l, sandboxId, item)
  {
    forall t: nat ensures Twin(l, t, sandboxId, item) <==> !item.Other? && IsQueued(l, t, sandboxId, item.Start?) {}
    if Replaces(l, sandboxId, item) { assert Twin(l, QueuedJob(l, sandboxId, item), sandboxId, item); }
  }

  lemma AbsorbedIs(l: Executor, sandboxId: SandboxId, item: Item)
    requires Queues(l) && Executes(l)
    ensures IsAbsorbed(l, sandboxId, item) <==> !HasTwin(l, sandboxId, item) && item.Start? && IsUnderWay(l, sandboxId, item)
  {
    ReplacesIs(l, sandboxId, item);
    hide Queues;
    if sandboxId in l.executing {
      assert HasLive(l, sandboxId);
      var t: nat :| IsLive(l, t, sandboxId);
    }
  }

  /** Work that comes in takes the place of the start or stop queued for its sandbox,
      keeping that one's turn; a start is dropped when one with the same payload is
      under way and none is queued; all other work goes to the end. */
  lemma DispatchExact(size: nat, ops: seq<Op>, sandboxId: SandboxId, item: Item)
    requires Possible(size, ops)
    ensures var l := Run(size, ops);
            var jobs, job := Dispatched(l, sandboxId, item).jobs, Job(sandboxId, item, Queued);
            && (forall t: nat :: Twin(l, t, sandboxId, item) ==> jobs == l.jobs[t := job])
            && (!HasTwin(l, sandboxId, item) ==>
                  jobs == if item.Start? && IsUnderWay(l, sandboxId, item) then l.jobs else l.jobs + [job])
  {
    hide Run, Possible, Tied, BeatsRight, InFlightRight, SlotsRight, CarriesNewest, Dispatched, Queues, Executes, KeyedChains.Step;
    RunKeeps(size, ops);
    var l := Run(size, ops);
    DispatchView(l, sandboxId, item);
    ReplacesIs(l, sandboxId, item);
    AbsorbedIs(l, sandboxId, item);
    hide Twin, HasTwin, IsUnderWay, Replaces, IsAbsorbed, QueuedJob;
  }

  // ---------------------------------------------------------------- where each job is

  /** What last happened to a job. */
  function LastStep(ops: seq<Op>, t: nat): Option<Op> {
    if ops == [] then None
    else
      var last := ops[|ops| - 1];
      if !last.Dispatches? && !last.CleansUp? && last.job == t then Some(last) else LastStep(ops[..|ops| - 1], t)
  }

  predicate StageFits(job: Job, last: Option<Op>) {
    match last
    case None => job.stage.Queued?
    case Some(Begins(_)) => if job.item.Start? then job.stage.Acquiring? else job.stage.Working?
    case Some(Granted(_)) => job.stage.Booting?
    case Some(Boots(_)) => job.stage.Reporting?
    case _ => job.stage.Over?
  }

  /** The work that failed, in the order it did. */
  function FailuresOf(ops: seq<Op>): seq<nat> {
    if ops == [] then []
    else
      var last := ops[|ops| - 1];
      FailuresOf(ops[..|ops| - 1])
      + (if last.BootFails? then [last.job] else if last.Finishes? && !last.ok then [last.job] else [])
  }

  ghost predicate Follows(l: Executor, ops: seq<Op>) {
    && (forall t :: 0 <= t < |l.jobs| ==> StageFits(l.jobs[t], LastStep(ops, t)))
    && (forall t: nat :: t >= |l.jobs| ==> LastStep(ops, t) == None)
    && l.chains.errors == FailuresOf(ops)
  }

  /** A dispatch moves no job on, and what it adds is queued. */
  ghost predicate Added(l: Executor, m: Executor) {
    && |l.jobs| <= |m.jobs|
    && (forall t :: 0 <= t < |l.jobs| ==> m.jobs[t].stage == l.jobs[t].stage && (m.jobs[t].item.Start? <==> l.jobs[t].item.Start?))
    && (forall t :: |l.jobs| <= t < |m.jobs| ==> m.jobs[t].stage.Queued?)
    && m.chains.errors == l.chains.errors
  }

  lemma DispatchAdds(l: Executor, sandboxId: SandboxId, item: Item)
    requires Queues(l)
    ensures Added(l, Dispatched(l, sandboxId, item))
  {
    DispatchView(l, sandboxId, item);
    hide Queues, Dispatched;
  }

  lemma QuietStep(ops: seq<Op>, op: Op)
    requires op.Dispatches? || op.CleansUp?
    ensures forall t: nat :: LastStep(ops + [op], t) == LastStep(ops, t)
    ensures FailuresOf(ops + [op]) == FailuresOf(ops)
  {
    assert (ops + [op])[..|ops|] == ops;
  }

  lemma AddedFollows(l: Executor, m: Executor, ops: seq<Op>, op: Op)
    requires Follows(l, ops) && Added(l, m) && (op.Dispatches? || op.CleansUp?)
    ensures Follows(m, ops + [op])
  {
    QuietStep(ops, op);
    hide LastStep, FailuresOf;
    forall t | 0 <= t < |m.jobs| ensures StageFits(m.jobs[t], LastStep(ops + [op], t)) {
      assert LastStep(ops + [op], t) == LastStep(ops, t);
      assert t < |l.jobs| ==> StageFits(l.jobs[t], LastStep(ops, t));
    }
  }

  lemma StageFollows(l: Executor, m: Executor, ops: seq<Op>, op: Op, stage: Stage)
    requires Follows(l, ops) && !op.Dispatches? && !op.CleansUp? && op.job < |l.jobs|
    requires m.jobs == Staged(l.jobs, op.job, stage)
    requires StageFits(l.jobs[op.job].(stage := stage), Some(op))
    requires m.chains.errors == l.chains.errors + (if op.BootFails? then [op.job] else if op.Finishes? && !op.ok then [op.job] else [])
    ensures Follows(m, ops + [op])
  {
    hide StageFits;
    var after := ops + [op];
    assert after[..|ops|] == ops;
    assert forall t: nat :: LastStep(after, t) == if t == op.job then Some(op) else LastStep(ops, t);
  }

  lemma BeginsFollow(size: nat, l: Executor, ops: seq<Op>, t: nat)
    requires Tied(l) && Follows(l, ops) && Legal(l, Begins(t))
    ensures Follows(Begun(size, l, t), ops + [Begins(t)])
  {
    BegunView(size, l, t);
    BeginErrors(l, t);
    hide Tied, Follows, Begun, KeyedChains.MayStart, KeyedChains.Step, KeyedChains.Legal, Semaphores.Acquired;
    StageFollows(l, Begun(size, l, t), ops, Begins(t), BegunStage(l, t));
  }

  lemma BeginErrors(l: Executor, t: nat)
    requires Legal(l, Begins(t))
    ensures KeyedChains.Step(l.chains, KeyedChains.Starts(t)).errors == l.chains.errors
  {
  }

  lemma StepFollows(size: nat, l: Executor, ops: seq<Op>, op: Op)
    requires Tied(l) && Queues(l) && Follows(l, ops) && Legal(l, op)
    ensures Follows(Step(size, l, op), ops + [op])
  {
    hide Tied, Queues, Follows, Dispatched, Begun, Quieted, OneLess, KeyedChains.MayStart, Semaphores.Released;
    match op
    case Dispatches(sandboxId, item) =>
      DispatchAdds(l, sandboxId, item);
      AddedFollows(l, Dispatched(l, sandboxId, item), ops, op);
    case Begins(t) => BeginsFollow(size, l, ops, t);
    case Granted(t) => StageFollows(l, Step(size, l, op), ops, op, Booting(l.jobs[t].stage.request));
    case Boots(t) => StageFollows(l, Booted(l, t), ops, op, Reporting(l.jobs[t].stage.request));
    case BootFails(t) => StageFollows(l, StartOver(l, t, false), ops, op, Over);
    case Reports(t) => StageFollows(l, StartOver(l, t, true), ops, op, Over);
    case Finishes(t, ok) => StageFollows(l, WorkOver(l, t, ok), ops, op, Over);
    case CleansUp(t) => AddedFollows(l, Step(size, l, op), ops, op);
  }

  /** Every job is where its own history leaves it, and the failures reported are
      those of the boots and the other work that failed, in order. */
  lemma {:induction false} JobsFollow(size: nat, ops: seq<Op>)
    requires Possible(size, ops)
    ensures Follows(Run(size, ops), ops)
  {
    hide Follows, Step, Legal, Queues, Tied, Executes, BeatsRight, InFlightRight, SlotsRight, CarriesNewest;
    if ops == [] {
      NothingFollows();
    } else {
      var before := ops[..|ops| - 1];
      JobsFollow(size, before);
      RunKeeps(size, before);
      assert ops == before + [ops[|ops| - 1]];
      StepFollows(size, Run(size, before), before, ops[|ops| - 1]);
    }
  }

  lemma NothingFollows()
    ensures Follows(NoWork, [])
  {
  }

  // ---------------------------------------------------------------- cleanups

  /** The chains' record of a task's cleanup. */
  ghost predicate CleanedAt(c: KeyedChains.Chains, t: nat) {
    t < |c.tasks| && c.tasks[t].phase.Cleaned?
  }

  lemma ChainCleaned(c: KeyedChains.Chains, op: KeyedChains.Op, t: nat)
    requires KeyedChains.Legal(c, op)
    ensures CleanedAt(KeyedChains.Step(c, op), t) <==> CleanedAt(c, t) || op == KeyedChains.CleansUp(t)
  {
  }

  lemma DispatchCleaned(l: Executor, sandboxId: SandboxId, item: Item, t: nat)
    requires Queues(l)
    ensures CleanedAt(Dispatched(l, sandboxId, item).chains, t) <==> CleanedAt(l.chains, t)
  {
    ChainCleaned(l.chains, KeyedChains.Enqueues(sandboxId), t);
    DispatchView(l, sandboxId, item);
    hide Queues, Dispatched, CleanedAt, KeyedChains.Step;
  }

  lemma BeginCleaned(size: nat, l: Executor, u: nat, t: nat)
    requires Legal(l, Begins(u))
    ensures CleanedAt(Begun(size, l, u).chains, t) <==> CleanedAt(l.chains, t)
  {
    ChainCleaned(l.chains, KeyedChains.Starts(u), t);
    BegunView(size, l, u);
    hide Begun, CleanedAt, KeyedChains.Step;
  }

  lemma OverCleaned(l: Executor, u: nat, ok: bool, t: nat)
    requires u < |l.jobs| && IsRunning(l, u)
    ensures CleanedAt(WorkOver(l, u, ok).chains, t) <==> CleanedAt(l.chains, t)
    ensures HoldsSlot(l, u) ==> (CleanedAt(StartOver(l, u, ok).chains, t) <==> CleanedAt(l.chains, t))
  {
    ChainCleaned(l.chains, KeyedChains.Settles(u, ok), t);
    hide CleanedAt, KeyedChains.Step, OneLess, Quieted, Semaphores.Released;
  }

  lemma StepCleaned(size: nat, l: Executor, op: Op, t: nat)
    requires Tied(l) && Queues(l) && Legal(l, op)
    ensures CleanedAt(Step(size, l, op).chains, t) <==> CleanedAt(l.chains, t) || op == CleansUp(t)
  {
    hide Tied, Queues, CleanedAt, Dispatched, Begun, StartOver, WorkOver, Booted;
    match op
    case Dispatches(sandboxId, item) => DispatchCleaned(l, sandboxId, item, t);
    case Begins(u) => BeginCleaned(size, l, u, t);
    case BootFails(u) => OverCleaned(l, u, false, t);
    case Reports(u) => OverCleaned(l, u, true, t);
    case Finishes(u, ok) => OverCleaned(l, u, ok, t);
    case CleansUp(u) => ChainCleaned(l.chains, KeyedChains.CleansUp(u), t);
    case Granted(_) =>
    case Boots(u) => BootsCleaned(l, u);
  }

  lemma BootsCleaned(l: Executor, u: nat)
    requires Legal(l, Boots(u))
    ensures Booted(l, u).chains == l.chains
  {
  }

  /** A task is past its cleanup if and only if that was run. */
  lemma {:induction false} CleanedExactly(size: nat, ops: seq<Op>, t: nat)
    requires Possible(size, ops)
    ensures CleanedAt(Run(size, ops).chains, t) <==> CleansUp(t) in ops
  {
    hide CleanedAt, Step, Legal, Queues, Tied, Executes, BeatsRight, InFlightRight, SlotsRight, CarriesNewest;
    if ops == [] {
      NothingCleaned(t);
    } else {
      var before := ops[..|ops| - 1];
      CleanedExactly(size, before, t);
      RunKeeps(size, before);
      assert ops == before + [ops[|ops| - 1]];
      StepCleaned(size, Run(size, before), ops[|ops| - 1], t);
    }
  }

  lemma NothingCleaned(t: nat)
    ensures !CleanedAt(NoWork.chains, t)
  {
  }
}
