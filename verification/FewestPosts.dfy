/** A flush makes hardly more posts than it must. */
module FewestPosts {
  import opened TurnEvents
  import opened Collector

  /** Splitting a batch leaves two that are as small. */
  lemma PartAdmissible<T>(cost: T -> nat, maxChars: nat, batch: seq<T>, n: nat)
    requires Admissible(cost, maxChars, batch) && 0 < n < |batch|
    ensures Admissible(cost, maxChars, batch[..n]) && Admissible(cost, maxChars, batch[n..])
  {
    assert batch == batch[..n] + batch[n..];
    CostAppend(cost, batch[..n], batch[n..]);
  }

  lemma SplitCons<T>(cost: T -> nat, maxChars: nat, batch: seq<T>, events: seq<T>, rest: seq<seq<T>>)
    requires Admissible(cost, maxChars, batch) && IsSplit(cost, maxChars, events, rest)
    ensures IsSplit(cost, maxChars, batch + events, [batch] + rest)
  {
    hide Admissible;
    ConcatCons(batch, rest);
  }

  lemma SplitHead<T>(cost: T -> nat, maxChars: nat, events: seq<T>, batches: seq<seq<T>>)
    requires IsSplit(cost, maxChars, events, batches) && batches != []
    ensures Admissible(cost, maxChars, batches[0])
    ensures |batches[0]| <= |events| && events == batches[0] + events[|batches[0]|..]
    ensures IsSplit(cost, maxChars, events[|batches[0]|..], batches[1..])
  {
    hide Admissible;
    assert batches == [batches[0]] + batches[1..];
    ConcatCons(batches[0], batches[1..]);
  }

  lemma NoSplit<T>(cost: T -> nat, maxChars: nat)
    ensures IsSplit(cost, maxChars, [], [])
  {
  }

  /** A split cut in two where it may fall inside a batch. */
  lemma {:induction false} CutSplit<T>(cost: T -> nat, maxChars: nat, events: seq<T>, batches: seq<seq<T>>, n: nat)
      returns (a: seq<seq<T>>, b: seq<seq<T>>)
    requires IsSplit(cost, maxChars, events, batches) && n <= |events|
    ensures IsSplit(cost, maxChars, events[..n], a) && IsSplit(cost, maxChars, events[n..], b)
    ensures |a| + |b| <= |batches| + 1
    decreases |batches|
  {
    hide IsSplit, Admissible;
    NoSplit<T>(cost, maxChars);
    if n == 0 {
      a, b := [], batches;
      assert events[..0] == [] && events[0..] == events;
    } else {
      assert batches != [] by { NotEmpty(cost, maxChars, events, batches); }
      var first := batches[0];
      var k := |first|;
      SplitHead(cost, maxChars, events, batches);
      if n < k {
        a, b := [first[..n]], [first[n..]] + batches[1..];
        PartAdmissible(cost, maxChars, first, n);
        SplitCons(cost, maxChars, first[..n], [], []);
        SplitCons(cost, maxChars, first[n..], events[k..], batches[1..]);
        assert first[..n] + [] == events[..n] && [first[..n]] + [] == a;
        assert first[n..] + events[k..] == events[n..];
      } else {
        a, b := CutSplit(cost, maxChars, events[k..], batches[1..], n - k);
        SplitCons(cost, maxChars, first, events[k..][..n - k], a);
        a := [first] + a;
        assert first + events[k..][..n - k] == events[..n];
        assert events[k..][n - k..] == events[n..];
      }
    }
  }

  lemma NotEmpty<T>(cost: T -> nat, maxChars: nat, events: seq<T>, batches: seq<seq<T>>)
    requires IsSplit(cost, maxChars, events, batches) && events != []
    ensures batches != []
  {
  }

  lemma {:induction false} BatchesCons(cost: CostOf, part: seq<AgentEvent>, parts: seq<seq<AgentEvent>>)
    ensures Batches(cost, [part] + parts) == BySize(cost, MAX_BATCH_CHARS, part) + Batches(cost, parts)
  {
    hide BySize;
    var all := [part] + parts;
    if parts == [] {
      assert all[..0] == [];
    } else {
      BatchesCons(cost, part, parts[..|parts| - 1]);
      assert all[..|all| - 1] == [part] + parts[..|parts| - 1];
      assert all[|all| - 1] == parts[|parts| - 1];
    }
  }

  /** Splitting by count first costs one batch for every hundred at most. */
  lemma {:induction false} BatchesFew(cost: CostOf, events: seq<AgentEvent>, batches: seq<seq<AgentEvent>>)
    requires IsSplit(cost, 256000, events, batches)
    ensures |Batches(cost, Chunks(events, 100))| <= |batches| + if events == [] then 0 else (|events| - 1) / 100
    decreases |events|
  {
    hide IsSplit, BySize, Batches;
    if events == [] {
      NoBatches(cost);
    } else if |events| <= 100 {
      BatchesCons(cost, events, []);
      NoBatches(cost);
      BySizeFewest(cost, MAX_BATCH_CHARS, events, batches);
      assert [events] + [] == [events];
    } else {
      var a, b := CutSplit(cost, MAX_BATCH_CHARS, events, batches, 100);
      BatchesCons(cost, events[..100], Chunks(events[100..], 100));
      BySizeFewest(cost, MAX_BATCH_CHARS, events[..100], a);
      BatchesFew(cost, events[100..], b);
    }
  }

  lemma NoBatches(cost: CostOf)
    ensures Batches(cost, []) == []
  {
  }

  /** However the events of a flush might be split, in order, into batches within the
      target or of one event, the flush makes no more posts than that, but for one
      more for each full hundred before the last event. */
  lemma FlushFewest(cost: CostOf, turnId: TurnId, b: Buffered, batches: seq<seq<AgentEvent>>)
    requires IsSplit(cost, 256000, Prepared(b.events), batches)
    ensures |PostsFor(cost, turnId, b)| <= |batches| + if Prepared(b.events) == [] then 0 else (|Prepared(b.events)| - 1) / 100
  {
    hide IsSplit, Batches, Chunks, Prepared;
    BatchesFew(cost, Prepared(b.events), batches);
  }
}
