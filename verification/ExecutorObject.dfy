/** The semaphore and the chains as the objects the source runs (apps/runner/src/executor.ts:24-80). */
module SemaphoreObject {
  import opened Spec = Semaphores

  class CountedSemaphore {
    var inUse: int
    /** The requests that wait, oldest first. */
    var waiters: seq<nat>
    var grants: seq<Grant>
    var requests: nat
    const size: nat

    ghost function State(): Semaphore
      reads this
    {
      Semaphore(inUse, waiters, grants, requests)
    }

    constructor (size: nat)
      ensures State() == Free && this.size == size
    {
      this.size := size;
      inUse, waiters, grants, requests := 0, [], [], 0;
    }

    method GrantTo(request: nat)
      modifies this`inUse, this`grants
      ensures State() == Granted(old(State()), request)
    {
      inUse := inUse + 1;
      grants := grants + [Grant(request, false)];
    }

    method Acquire()
      modifies this
      ensures State() == Step(size, old(State()), Acquires)
    {
      var request := requests;
      requests := requests + 1;
      if inUse < size { GrantTo(request); } else { waiters := waiters + [request]; }
    }

    /** The release function of a grant. */
    method Release(g: nat)
      requires g < |grants|
      modifies this
      ensures State() == Step(size, old(State()), Releases(g))
    {
      if grants[g].released { return; }
      grants := grants[g := grants[g].(released := true)];
      inUse := inUse - 1;
      if waiters != [] {
        var next := waiters[0];
        waiters := waiters[1..];
        GrantTo(next);
      }
    }
  }
}

module KeyedChainsObject {
  import opened Wrappers
  import opened Spec = KeyedChains

  class TaskChains {
    /** Every task enqueued so far, and for each key the end of its chain. */
    var tasks: seq<Task>
    var chains: map<Key, nat>
    var errors: seq<nat>

    ghost function State(): Chains
      reads this
    {
      Chains(tasks, chains, errors)
    }

    constructor ()
      ensures State() == NoTasks
    {
      tasks, chains, errors := [], map[], [];
    }

    method Enqueue(key: Key)
      modifies this
      ensures State() == Enqueued(old(State()), key)
    {
      var previous := if key in chains then Some(chains[key]) else None;
      chains := chains[key := |tasks|];
      tasks := tasks + [Task(key, previous, Waiting)];
    }

    /** The promise before it settled: the task begins. */
    method Start(t: nat)
      requires MayStart(State(), t)
      modifies this`tasks
      ensures State() == Step(old(State()), Starts(t))
    {
      tasks := tasks[t := tasks[t].(phase := Running)];
    }

    /** The task ends; a failure is reported and swallowed. */
    method Settle(t: nat, ok: bool)
      requires Legal(State(), Settles(t, ok))
      modifies this`tasks, this`errors
      ensures State() == Step(old(State()), Settles(t, ok))
    {
      if !ok { errors := errors + [t]; }
      tasks := tasks[t := tasks[t].(phase := Settled)];
    }

    /** The callback that drops a chain nobody extended. */
    method CleanUp(t: nat)
      requires Legal(State(), CleansUp(t))
      modifies this`tasks, this`chains
      ensures State() == Step(old(State()), CleansUp(t))
    {
      var key := tasks[t].key;
      tasks := tasks[t := tasks[t].(phase := Cleaned)];
      if key in chains && chains[key] == t { chains := chains - {key}; }
    }
  }
}
