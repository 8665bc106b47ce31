/** The counted semaphore of the lifecycle executor (apps/runner/src/executor.ts:55-80).
    Requests and grants are numbered in the order they are made. */
module Semaphores {

  /** A grant answers a request; its release function flips `released`. */
  datatype Grant = Grant(request: nat, released: bool)

  datatype Semaphore = Semaphore(inUse: int, waiters: seq<nat>, grants: seq<Grant>, requests: nat)

  const Free := Semaphore(0, [], [], 0)

  function Granted(s: Semaphore, request: nat): Semaphore {
    s.(inUse := s.inUse + 1, grants := s.grants + [Grant(request, false)])
  }

  function Acquired(size: nat, s: Semaphore): Semaphore {
    var t := s.(requests := s.requests + 1);
    if s.inUse < size then Granted(t, s.requests) else t.(waiters := t.waiters + [s.requests])
  }

  function Released(s: Semaphore, g: nat): Semaphore
    requires g < |s.grants|
  {
    if s.grants[g].released then s
    else
      var t := s.(inUse := s.inUse - 1, grants := s.grants[g := s.grants[g].(released := true)]);
      if t.waiters == [] then t else Granted(t.(waiters := t.waiters[1..]), t.waiters[0])
  }

  datatype Op = Acquires | Releases(grant: nat)

  function Step(size: nat, s: Semaphore, op: Op): Semaphore
    requires op.Releases? ==> op.grant < |s.grants|
  {
    match op
    case Acquires => Acquired(size, s)
    case Releases(g) => Released(s, g)
  }

  ghost predicate Possible(size: nat, ops: seq<Op>)
    decreases |ops|, 0
  {
    ops == []
    || (&& Possible(size, ops[..|ops| - 1])
        && (ops[|ops| - 1].Releases? ==> ops[|ops| - 1].grant < |Run(size, ops[..|ops| - 1]).grants|))
  }

  ghost function Run(size: nat, ops: seq<Op>): Semaphore
    requires Possible(size, ops)
    decreases |ops|, 1
  {
    if ops == [] then Free else Step(size, Run(size, ops[..|ops| - 1]), ops[|ops| - 1])
  }

  function ReleasedGrants(grants: seq<Grant>): nat {
    if grants == [] then 0
    else ReleasedGrants(grants[..|grants| - 1]) + if grants[|grants| - 1].released then 1 else 0
  }

  lemma ReleasedGrantsLast(grants: seq<Grant>, g: Grant)
    ensures ReleasedGrants(grants + [g]) == ReleasedGrants(grants) + if g.released then 1 else 0
  {
    assert (grants + [g])[..|grants|] == grants;
  }

  lemma {:induction false} ReleasedGrantsUpdate(grants: seq<Grant>, g: nat)
    requires g < |grants| && !grants[g].released
    ensures ReleasedGrants(grants[g := grants[g].(released := true)]) == ReleasedGrants(grants) + 1
  {
    var after := grants[g := grants[g].(released := true)];
    var n := |grants| - 1;
    if g < n {
      assert after[..n] == grants[..n][g := grants[g].(released := true)];
      ReleasedGrantsUpdate(grants[..n], g);
    } else {
      assert after[..n] == grants[..n];
    }
  }

  /** The slots in use are the unreleased grants, within the size; somebody waits
      only when all are in use; and requests are granted in the order made. */
  ghost predicate Keeps(size: nat, s: Semaphore) {
    && s.inUse == |s.grants| - ReleasedGrants(s.grants)
    && 0 <= s.inUse <= size
    && (s.waiters != [] ==> s.inUse == size)
    && |s.grants| + |s.waiters| == s.requests
    && (forall i :: 0 <= i < |s.grants| ==> s.grants[i].request == i)
    && (forall i :: 0 <= i < |s.waiters| ==> s.waiters[i] == |s.grants| + i)
  }

  lemma StepKeeps(size: nat, s: Semaphore, op: Op)
    requires Keeps(size, s) && (op.Releases? ==> op.grant < |s.grants|)
    ensures Keeps(size, Step(size, s, op))
  {
    hide ReleasedGrants;
    if op.Acquires? {
      ReleasedGrantsLast(s.grants, Grant(s.requests, false));
    } else if !s.grants[op.grant].released {
      var grants := s.grants[op.grant := s.grants[op.grant].(released := true)];
      ReleasedGrantsUpdate(s.grants, op.grant);
      if s.waiters != [] { ReleasedGrantsLast(grants, Grant(s.waiters[0], false)); }
      ReleasedAtMost(grants);
    }
  }

  lemma {:induction false} ReleasedAtMost(grants: seq<Grant>)
    ensures ReleasedGrants(grants) <= |grants|
  {
    if grants != [] { ReleasedAtMost(grants[..|grants| - 1]); }
  }

  lemma {:induction false} RunKeeps(size: nat, ops: seq<Op>)
    requires Possible(size, ops)
    ensures Keeps(size, Run(size, ops))
  {
    if ops != [] {
      RunKeeps(size, ops[..|ops| - 1]);
      StepKeeps(size, Run(size, ops[..|ops| - 1]), ops[|ops| - 1]);
    }
  }

  /** No wake-up is ever lost: what was granted is exactly the first requests,
      as many as the size and the releases so far allow. */
  lemma GrantsAreExact(size: nat, ops: seq<Op>)
    requires Possible(size, ops)
    ensures var s := Run(size, ops);
            && |s.grants| == (if s.requests < size + ReleasedGrants(s.grants) then s.requests
                              else size + ReleasedGrants(s.grants))
            && forall i :: 0 <= i < |s.grants| ==> s.grants[i].request == i
  {
    RunKeeps(size, ops);
  }

  /** Calling a release function once more, at any later time, changes nothing. */
  lemma {:induction false} DoubleReleaseInert(size: nat, ops: seq<Op>, g: nat, more: seq<Op>)
    requires Possible(size, ops) && g < |Run(size, ops).grants|
    requires Possible(size, ops + [Releases(g)] + more)
    ensures var s := Run(size, ops + [Releases(g)] + more);
            g < |s.grants| && s.grants[g].released && Released(s, g) == s
  {
    var all := ops + [Releases(g)] + more;
    if more == [] {
      assert all[..|all| - 1] == ops;
    } else {
      var less := more[..|more| - 1];
      assert all[..|all| - 1] == ops + [Releases(g)] + less;
      DoubleReleaseInert(size, ops, g, less);
      assert all[|all| - 1] == more[|more| - 1];
    }
  }
}

/** The per-key chains of the lifecycle executor (apps/runner/src/executor.ts:24-53). */
module KeyedChains {
  import opened Wrappers

  type Key = string

  /** Waiting for the task before it, running, settled (done or failed), or
      settled and past its own cleanup callback. */
  datatype Phase = Waiting | Running | Settled | Cleaned

  /** `previous` is the task whose promise this one was chained on. */
  datatype Task = Task(key: Key, previous: Option<nat>, phase: Phase)

  /** `chains` names, for each key it holds, the task at the chain's end. */
  datatype Chains = Chains(tasks: seq<Task>, chains: map<Key, nat>, errors: seq<nat>)

  const NoTasks := Chains([], map[], [])

  predicate IsSettled(phase: Phase) {
    phase.Settled? || phase.Cleaned?
  }

  predicate MayStart(c: Chains, t: nat) {
    && t < |c.tasks|
    && c.tasks[t].phase.Waiting?
    && match c.tasks[t].previous
       case None => true
       case Some(p) => p < |c.tasks| && IsSettled(c.tasks[p].phase)
  }

  function Enqueued(c: Chains, key: Key): Chains {
    var previous := if key in c.chains then Some(c.chains[key]) else None;
    c.(tasks := c.tasks + [Task(key, previous, Waiting)], chains := c.chains[key := |c.tasks|])
  }

  function WithPhase(tasks: seq<Task>, t: nat, phase: Phase): seq<Task>
    requires t < |tasks|
  {
    tasks[t := tasks[t].(phase := phase)]
  }

  function Cleared(c: Chains, t: nat): Chains
    requires t < |c.tasks|
  {
    var key := c.tasks[t].key;
    c.(tasks := WithPhase(c.tasks, t, Cleaned),
       chains := if key in c.chains && c.chains[key] == t then c.chains - {key} else c.chains)
  }

  /** A task is enqueued, starts, settles either way, or has its cleanup run. */
  datatype Op = Enqueues(key: Key) | Starts(task: nat) | Settles(task: nat, ok: bool) | CleansUp(task: nat)

  predicate Legal(c: Chains, op: Op) {
    match op
    case Enqueues(_) => true
    case Starts(t) => MayStart(c, t)
    case Settles(t, _) => t < |c.tasks| && c.tasks[t].phase.Running?
    case CleansUp(t) => t < |c.tasks| && c.tasks[t].phase.Settled?
  }

  function Step(c: Chains, op: Op): Chains
    requires Legal(c, op)
  {
    match op
    case Enqueues(key) => Enqueued(c, key)
    case Starts(t) => c.(tasks := WithPhase(c.tasks, t, Running))
    case Settles(t, ok) => c.(tasks := WithPhase(c.tasks, t, Settled), errors := if ok then c.errors else c.errors + [t])
    case CleansUp(t) => Cleared(c, t)
  }

  ghost predicate Possible(ops: seq<Op>)
    decreases |ops|, 0
  {
    ops == [] || (Possible(ops[..|ops| - 1]) && Legal(Run(ops[..|ops| - 1]), ops[|ops| - 1]))
  }

  ghost function Run(ops: seq<Op>): Chains
    requires Possible(ops)
    decreases |ops|, 1
  {
    if ops == [] then NoTasks else Step(Run(ops[..|ops| - 1]), ops[|ops| - 1])
  }

  /** The newest task of its key. */
  ghost predicate IsLast(c: Chains, t: nat) {
    t < |c.tasks| && forall u :: t < u < |c.tasks| ==> c.tasks[u].key != c.tasks[t].key
  }

  /** Each task is chained on the one enqueued just before it for its key; one
      chained on nothing found every earlier task of its key settled. */
  ghost predicate LinkedAt(c: Chains, t: nat)
    requires t < |c.tasks|
  {
    match c.tasks[t].previous
    case None => forall u :: 0 <= u < t && c.tasks[u].key == c.tasks[t].key ==> IsSettled(c.tasks[u].phase)
    case Some(p) => && p < t && c.tasks[p].key == c.tasks[t].key
                    && forall u :: p < u < t ==> c.tasks[u].key != c.tasks[t].key
  }

  ghost predicate Linked(c: Chains) {
    forall t :: 0 <= t < |c.tasks| ==> LinkedAt(c, t)
  }

  ghost predicate OneAtATime(c: Chains) {
    forall t, u :: 0 <= u < t < |c.tasks| && c.tasks[u].key == c.tasks[t].key && !c.tasks[t].phase.Waiting?
                   ==> IsSettled(c.tasks[u].phase)
  }

  /** The map holds a key exactly while its newest task is not cleaned up. */
  ghost predicate Mapped(c: Chains) {
    && (forall key :: key in c.chains ==>
          IsLast(c, c.chains[key]) && c.tasks[c.chains[key]].key == key && !c.tasks[c.chains[key]].phase.Cleaned?)
    && (forall t :: 0 <= t < |c.tasks| && IsLast(c, t) && c.tasks[t].key !in c.chains ==> c.tasks[t].phase.Cleaned?)
  }

  ghost predicate Keeps(c: Chains) {
    Linked(c) && OneAtATime(c) && Mapped(c)
  }

  /** The newest task of a key that has any from `t` on. */
  lemma LastOf(c: Chains, t: nat) returns (last: nat)
    requires t < |c.tasks|
    ensures t <= last && IsLast(c, last) && c.tasks[last].key == c.tasks[t].key
    decreases |c.tasks| - t
  {
    last := t;
    if u :| t < u < |c.tasks| && c.tasks[u].key == c.tasks[t].key { last := LastOf(c, u); }
  }

  /** A key the map does not hold has only settled tasks. */
  lemma UnheldIsSettled(c: Chains, t: nat)
    requires Keeps(c) && t < |c.tasks| && c.tasks[t].key !in c.chains
    ensures IsSettled(c.tasks[t].phase)
  {
    var last := LastOf(c, t);
    assert c.tasks[last].phase.Cleaned?;
  }

  lemma EnqueuesLinked(c: Chains, key: Key, u: nat)
    requires u < |c.tasks| && LinkedAt(c, u)
    ensures LinkedAt(Enqueued(c, key), u)
  {
    var d := Enqueued(c, key);
    assert forall v :: 0 <= v < |c.tasks| ==> d.tasks[v] == c.tasks[v];
  }

  lemma NewestLinked(c: Chains, key: Key)
    requires Keeps(c)
    ensures LinkedAt(Enqueued(c, key), |c.tasks|)
  {
    hide LinkedAt, OneAtATime;
    var d := Enqueued(c, key);
    assert forall v :: 0 <= v < |c.tasks| ==> d.tasks[v] == c.tasks[v];
    if key in c.chains {
      assert IsLast(c, c.chains[key]);
    } else {
      forall u | 0 <= u < |c.tasks| && c.tasks[u].key == key ensures IsSettled(c.tasks[u].phase) { UnheldIsSettled(c, u); }
    }
    NewestIs(d, |c.tasks|);
  }

  lemma NewestIs(d: Chains, t: nat)
    requires t < |d.tasks|
    requires match d.tasks[t].previous
             case None => forall u :: 0 <= u < t && d.tasks[u].key == d.tasks[t].key ==> IsSettled(d.tasks[u].phase)
             case Some(p) => p < t && d.tasks[p].key == d.tasks[t].key && forall u :: p < u < t ==> d.tasks[u].key != d.tasks[t].key
    ensures LinkedAt(d, t)
  {
  }

  lemma EnqueuesOrder(c: Chains, key: Key)
    requires OneAtATime(c)
    ensures OneAtATime(Enqueued(c, key))
  {
    hide IsSettled;
    var d := Enqueued(c, key);
    assert forall u :: 0 <= u < |c.tasks| ==> d.tasks[u] == c.tasks[u];
  }

  lemma EnqueuesMapped(c: Chains, key: Key)
    requires Mapped(c)
    ensures Mapped(Enqueued(c, key))
  {
    var d := Enqueued(c, key);
    assert forall u :: 0 <= u < |c.tasks| ==> d.tasks[u] == c.tasks[u];
    assert IsLast(d, |c.tasks|);
    assert forall u :: 0 <= u < |c.tasks| && IsLast(d, u) ==> IsLast(c, u);
    assert forall k :: k in c.chains && k != key ==> IsLast(d, c.chains[k]);
  }

  lemma EnqueuesKeeps(c: Chains, key: Key)
    requires Keeps(c)
    ensures Keeps(Enqueued(c, key))
  {
    NewestLinked(c, key);
    hide LinkedAt, OneAtATime, Mapped;
    EnqueuesOrder(c, key);
    EnqueuesMapped(c, key);
    forall u | 0 <= u < |c.tasks| ensures LinkedAt(Enqueued(c, key), u) { EnqueuesLinked(c, key, u); }
  }

  /** The task a given one follows has not left the one-at-a-time order. */
  lemma AllBefore(c: Chains, p: nat, t: nat)
    requires OneAtATime(c) && p < t < |c.tasks| && IsSettled(c.tasks[p].phase) && c.tasks[p].key == c.tasks[t].key
    requires forall u :: p < u < t ==> c.tasks[u].key != c.tasks[t].key
    ensures forall u :: 0 <= u < t && c.tasks[u].key == c.tasks[t].key ==> IsSettled(c.tasks[u].phase)
  {
  }

  /** A task that starts finds everything enqueued before it on its key settled. */
  lemma StartsBehind(c: Chains, t: nat)
    requires Linked(c) && OneAtATime(c) && MayStart(c, t)
    ensures forall u :: 0 <= u < t && c.tasks[u].key == c.tasks[t].key ==> IsSettled(c.tasks[u].phase)
  {
    hide OneAtATime, IsSettled;
    assert LinkedAt(c, t);
    if c.tasks[t].previous.Some? { AllBefore(c, c.tasks[t].previous.value, t); }
  }

  /** Only a phase moves: the links stay. */
  lemma PhaseLinked(c: Chains, t: nat, phase: Phase, u: nat)
    requires t < |c.tasks| && u < |c.tasks| && LinkedAt(c, u)
    requires IsSettled(c.tasks[t].phase) ==> IsSettled(phase)
    ensures LinkedAt(c.(tasks := WithPhase(c.tasks, t, phase)), u)
  {
  }

  lemma PhaseLast(c: Chains, d: Chains, t: nat, phase: Phase, u: nat)
    requires t < |c.tasks| && u < |c.tasks| && d.tasks == WithPhase(c.tasks, t, phase)
    ensures IsLast(d, u) <==> IsLast(c, u)
  {
    assert forall v :: 0 <= v < |c.tasks| ==> d.tasks[v].key == c.tasks[v].key;
  }

  lemma PhaseOrder(c: Chains, t: nat, phase: Phase)
    requires OneAtATime(c) && t < |c.tasks|
    requires IsSettled(c.tasks[t].phase) ==> IsSettled(phase)
    requires c.tasks[t].phase.Waiting? ==>
               forall u :: 0 <= u < t && c.tasks[u].key == c.tasks[t].key ==> IsSettled(c.tasks[u].phase)
    ensures OneAtATime(c.(tasks := WithPhase(c.tasks, t, phase)))
  {
    hide IsSettled;
    var d := c.(tasks := WithPhase(c.tasks, t, phase));
    forall x, y | 0 <= y < x < |d.tasks| && d.tasks[y].key == d.tasks[x].key && !d.tasks[x].phase.Waiting?
      ensures IsSettled(d.tasks[y].phase)
    {
      assert x != t && y != t ==> d.tasks[x] == c.tasks[x] && d.tasks[y] == c.tasks[y];
    }
  }

  lemma PhaseMapped(c: Chains, d: Chains, t: nat, phase: Phase)
    requires Mapped(c) && t < |c.tasks| && d.tasks == WithPhase(c.tasks, t, phase)
    requires if phase.Cleaned? then d.chains == Cleared(c, t).chains else d.chains == c.chains && !c.tasks[t].phase.Cleaned?
    ensures Mapped(d)
  {
    hide IsLast;
    forall u | 0 <= u < |c.tasks| ensures IsLast(d, u) <==> IsLast(c, u) { PhaseLast(c, d, t, phase, u); }
    assert forall u :: 0 <= u < |c.tasks| ==> d.tasks[u].key == c.tasks[u].key;
    assert forall u :: 0 <= u < |c.tasks| && u != t ==> d.tasks[u] == c.tasks[u];
    forall key | key in d.chains
      ensures d.chains[key] < |d.tasks| && IsLast(d, d.chains[key])
      ensures d.tasks[d.chains[key]].key == key && !d.tasks[d.chains[key]].phase.Cleaned?
    {
      IsLastIn(c, c.chains[key]);
    }
    forall u | 0 <= u < |d.tasks| && IsLast(d, u) && d.tasks[u].key !in d.chains ensures d.tasks[u].phase.Cleaned? {
      if d.tasks[u].key in c.chains { OnlyLast(c, u, t); }
    }
  }

  lemma IsLastIn(c: Chains, t: nat)
    requires IsLast(c, t)
    ensures t < |c.tasks|
  {
  }

  lemma OnlyLast(c: Chains, u: nat, t: nat)
    requires IsLast(c, u) && IsLast(c, t) && c.tasks[u].key == c.tasks[t].key
    ensures u == t
  {
  }

  lemma PhaseKeeps(c: Chains, op: Op)
    requires Keeps(c) && Legal(c, op) && !op.Enqueues?
    ensures Keeps(Step(c, op))
  {
    hide LinkedAt, OneAtATime, Mapped;
    var d := Step(c, op);
    var t := op.task;
    var phase := d.tasks[t].phase;
    assert d.tasks == WithPhase(c.tasks, t, phase);
    if op.Starts? { StartsBehind(c, t); }
    PhaseOrder(c, t, phase);
    PhaseMapped(c, d, t, phase);
    forall u | 0 <= u < |c.tasks| ensures LinkedAt(d, u) {
      PhaseLinked(c, t, phase, u);
      SameTasksLinked(c.(tasks := WithPhase(c.tasks, t, phase)), d, u);
    }
    SameTasksOrder(c.(tasks := WithPhase(c.tasks, t, phase)), d);
  }

  lemma SameTasksLinked(c: Chains, d: Chains, u: nat)
    requires u < |c.tasks| && d.tasks == c.tasks && LinkedAt(c, u)
    ensures LinkedAt(d, u)
  {
  }

  lemma SameTasksOrder(c: Chains, d: Chains)
    requires d.tasks == c.tasks && OneAtATime(c)
    ensures OneAtATime(d)
  {
  }

  lemma {:induction false} RunKeeps(ops: seq<Op>)
    requires Possible(ops)
    ensures Keeps(Run(ops))
  {
    if ops != [] {
      var before := ops[..|ops| - 1];
      RunKeeps(before);
      var op := ops[|ops| - 1];
      if op.Enqueues? { EnqueuesKeeps(Run(before), op.key); } else { PhaseKeeps(Run(before), op); }
    }
  }

  /** The keys enqueued, in order. */
  function KeysOf(ops: seq<Op>): seq<Key> {
    if ops == [] then []
    else KeysOf(ops[..|ops| - 1]) + if ops[|ops| - 1].Enqueues? then [ops[|ops| - 1].key] else []
  }

  /** The tasks that failed, in the order they did. */
  function FailuresOf(ops: seq<Op>): seq<nat> {
    if ops == [] then []
    else
      var last := ops[|ops| - 1];
      FailuresOf(ops[..|ops| - 1]) + if last.Settles? && !last.ok then [last.task] else []
  }

  /** What last happened to a task. */
  function PhaseAfter(ops: seq<Op>, t: nat): Phase {
    if ops == [] then Waiting
    else
      match ops[|ops| - 1]
      case Enqueues(_) => PhaseAfter(ops[..|ops| - 1], t)
      case Starts(u) => if u == t then Running else PhaseAfter(ops[..|ops| - 1], t)
      case Settles(u, _) => if u == t then Settled else PhaseAfter(ops[..|ops| - 1], t)
      case CleansUp(u) => if u == t then Cleaned else PhaseAfter(ops[..|ops| - 1], t)
  }

  ghost predicate Follows(c: Chains, ops: seq<Op>) {
    && |c.tasks| == |KeysOf(ops)|
    && (forall t :: 0 <= t < |c.tasks| ==> c.tasks[t].key == KeysOf(ops)[t] && c.tasks[t].phase == PhaseAfter(ops, t))
    && c.errors == FailuresOf(ops)
  }

  lemma NotYet(ops: seq<Op>, t: nat)
    requires Possible(ops) && t >= |Run(ops).tasks|
    ensures PhaseAfter(ops, t) == Waiting
  {
    if ops != [] { NotYet(ops[..|ops| - 1], t); }
  }

  /** The tasks are those enqueued, each where its history left it, and the errors
      reported are those of the tasks that failed, no more and in that order. */
  lemma {:induction false} TasksFollow(ops: seq<Op>)
    requires Possible(ops)
    ensures Follows(Run(ops), ops)
  {
    if ops != [] {
      var before := ops[..|ops| - 1];
      TasksFollow(before);
      NotYet(before, |Run(before).tasks|);
    }
  }

  /** A key's tasks run one at a time and in the order enqueued, whether or not
      some of them failed: once a task has started, all before it are settled. */
  lemma FirstInFirstOut(ops: seq<Op>, u: nat, t: nat)
    requires Possible(ops) && u < t < |Run(ops).tasks| && Run(ops).tasks[u].key == Run(ops).tasks[t].key
    requires !Run(ops).tasks[t].phase.Waiting?
    ensures Run(ops).tasks[u].phase.Settled? || Run(ops).tasks[u].phase.Cleaned?
  {
    RunKeeps(ops);
  }

  /** The map holds a key exactly while the key's newest task is not cleaned up;
      in particular while any task of it is unsettled. */
  lemma HeldWhileUnsettled(ops: seq<Op>, t: nat)
    requires Possible(ops) && t < |Run(ops).tasks|
    ensures var c := Run(ops);
            && (!IsSettled(c.tasks[t].phase) ==> c.tasks[t].key in c.chains)
            && (IsLast(c, t) ==> (c.tasks[t].key in c.chains <==> !c.tasks[t].phase.Cleaned?))
            && (IsLast(c, t) && c.tasks[t].key in c.chains ==> c.chains[c.tasks[t].key] == t)
  {
    RunKeeps(ops);
    var c := Run(ops);
    if c.tasks[t].key !in c.chains { UnheldIsSettled(c, t); }
    if IsLast(c, t) && c.tasks[t].key in c.chains {
      var u := c.chains[c.tasks[t].key];
      assert IsLast(c, u) && c.tasks[u].key == c.tasks[t].key;
    }
  }

  /** No failure can wedge a chain: the first unsettled task of a key is running
      or may start. */
  lemma NeverWedged(ops: seq<Op>, t: nat)
    requires Possible(ops) && t < |Run(ops).tasks| && (Run(ops).tasks[t].phase.Waiting? || Run(ops).tasks[t].phase.Running?)
    requires forall u :: 0 <= u < t && Run(ops).tasks[u].key == Run(ops).tasks[t].key ==>
                Run(ops).tasks[u].phase.Settled? || Run(ops).tasks[u].phase.Cleaned?
    ensures Run(ops).tasks[t].phase.Running? || MayStart(Run(ops), t)
  {
    hide Run, Possible, OneAtATime, Mapped;
    RunKeeps(ops);
    assert LinkedAt(Run(ops), t);
  }
}
