/** One byte stream between the relay and a guest port
    (`PortDuplex`, apps/runner/src/port-hub.ts:88-191). Toward the guest, bytes
    leave as frames while credit lasts; toward the relay, bytes are acked as the
    consumer drains. Node's stream library is the environment: it calls `_write`
    only after the previous write's callback, `_read` only while its buffer is
    below the high-water mark and the guest has not ended, and `_final` after every
    write. */
module PortStream {
  import opened Wrappers
  import opened Bytes

  const PORT_CHUNK_RAW_BYTES: nat := 48 * 1024
  const PORT_STREAM_WINDOW_BYTES: nat := 256 * 1024

  type Octets = seq<byte>

  datatype WorkItem = PortData(data: Octets) | PortAck(bytes: nat) | PortEnd

  /** `out` is everything handed to the sandbox; `buffer` is Node's readable buffer. */
  datatype Stream = Stream(
    credit: int,
    pendingWrite: Option<Octets>,
    unackedOut: nat,
    buffer: Octets,
    finished: bool,
    guestEnded: bool,
    destroyed: bool,
    out: seq<WorkItem>)

  const Opened := Stream(PORT_STREAM_WINDOW_BYTES, None, 0, [], false, false, false, [])

  // ---------------------------------------------------------------- steps

  /** How many bytes the next frame carries. */
  function FrameSize(chunk: Octets, credit: int): (n: nat)
    requires chunk != [] && credit > 0
    ensures 1 <= n <= |chunk| && n <= credit && n <= PORT_CHUNK_RAW_BYTES
  {
    Min(Min(PORT_CHUNK_RAW_BYTES, credit), |chunk|)
  }

  /** The frames a chunk leaves in while credit lasts, and the bytes left over. */
  function Frames(chunk: Octets, credit: int): (seq<WorkItem>, Octets)
    decreases |chunk|
  {
    if chunk == [] || credit <= 0 then ([], chunk)
    else
      var n := FrameSize(chunk, credit);
      var (frames, rest) := Frames(chunk[n..], credit - n);
      ([PortData(chunk[..n])] + frames, rest)
  }

  function Write(s: Stream, chunk: Octets): Stream {
    var (frames, rest) := Frames(chunk, s.credit);
    s.(credit := s.credit - (|chunk| - |rest|),
       pendingWrite := if rest != [] then Some(rest) else s.pendingWrite,
       out := s.out + frames)
  }

  function Grant(s: Stream, bytes: nat): Stream {
    var t := s.(credit := Min(PORT_STREAM_WINDOW_BYTES, s.credit + bytes));
    if t.pendingWrite.Some? && t.credit > 0 then Write(t.(pendingWrite := None), t.pendingWrite.value) else t
  }

  function Read(s: Stream): Stream {
    if s.unackedOut > 0 then
      var g := Min(s.unackedOut, PORT_STREAM_WINDOW_BYTES);
      s.(unackedOut := s.unackedOut - g, out := s.out + [PortAck(g)])
    else s
  }

  /** Whether Node asks for more: its buffer is below the high-water mark. */
  predicate Wants(buffer: Octets, highWaterMark: nat) {
    |buffer| < highWaterMark || buffer == []
  }

  predicate Overflows(s: Stream, bytes: Octets, highWaterMark: nat) {
    |s.buffer| + |bytes| > highWaterMark + PORT_STREAM_WINDOW_BYTES + PORT_CHUNK_RAW_BYTES
  }

  function Destroy(s: Stream): Stream {
    s.(pendingWrite := None, destroyed := true)
  }

  /** Bytes pushed behind the guest's own end fail the stream, as an overflow does; an
      empty push there does nothing. */
  function Deliver(s: Stream, bytes: Octets, highWaterMark: nat): Stream {
    var t := s.(unackedOut := s.unackedOut + |bytes|);
    if Overflows(t, bytes, highWaterMark) || (t.guestEnded && bytes != []) then Destroy(t)
    else if t.guestEnded then t
    else
      var u := t.(buffer := t.buffer + bytes);
      if Wants(u.buffer, highWaterMark) then Read(u) else u
  }

  // ---------------------------------------------------------------- runs

  datatype Op =
    | Wrote(chunk: Octets)
    | Acked(grant: nat)
    | Delivered(bytes: Octets)
    | Consumed(count: nat)
    | ReadAsked
    | GuestEnds
    | Finished
    | Closed

  /** What Node and the hub may do to a stream. */
  predicate Legal(s: Stream, op: Op, highWaterMark: nat) {
    && !s.destroyed
    && match op
       case Wrote(_) => s.pendingWrite.None? && !s.finished
       case Finished => s.pendingWrite.None? && !s.finished
       case Consumed(count) => count <= |s.buffer|
       case ReadAsked => Wants(s.buffer, highWaterMark) && !s.guestEnded
       case _ => true
  }

  function Step(s: Stream, op: Op, highWaterMark: nat): Stream
    requires Legal(s, op, highWaterMark)
  {
    match op
    case Wrote(chunk) => Write(s, chunk)
    case Acked(bytes) => Grant(s, bytes)
    case Delivered(bytes) => Deliver(s, bytes, highWaterMark)
    case Consumed(count) => s.(buffer := s.buffer[count..])
    case ReadAsked => Read(s)
    case GuestEnds => s.(guestEnded := true)
    case Finished => s.(finished := true, out := s.out + [PortEnd])
    case Closed => Destroy(s)
  }

  ghost predicate Possible(ops: seq<Op>, highWaterMark: nat)
    ensures Possible(ops, highWaterMark) && ops != [] ==> Possible(ops[..|ops| - 1], highWaterMark)
    decreases |ops|, 0
  {
    ops == []
    || (&& Possible(ops[..|ops| - 1], highWaterMark)
        && Legal(Run(ops[..|ops| - 1], highWaterMark), ops[|ops| - 1], highWaterMark))
  }

  ghost function Run(ops: seq<Op>, highWaterMark: nat): Stream
    requires Possible(ops, highWaterMark)
    decreases |ops|, 1
  {
    if ops == [] then Opened
    else Step(Run(ops[..|ops| - 1], highWaterMark), ops[|ops| - 1], highWaterMark)
  }

  /** The bytes written toward the guest. */
  function Written(ops: seq<Op>): Octets {
    if ops == [] then []
    else Written(ops[..|ops| - 1]) + if ops[|ops| - 1].Wrote? then ops[|ops| - 1].chunk else []
  }

  /** The window the guest has granted back. */
  function Granted(ops: seq<Op>): nat {
    if ops == [] then 0
    else Granted(ops[..|ops| - 1]) + if ops[|ops| - 1].Acked? then ops[|ops| - 1].grant else 0
  }

  /** The bytes the guest has delivered. */
  function Received(ops: seq<Op>): Octets {
    if ops == [] then []
    else Received(ops[..|ops| - 1]) + if ops[|ops| - 1].Delivered? then ops[|ops| - 1].bytes else []
  }

  /** How many bytes the consumer has taken. */
  function Taken(ops: seq<Op>): nat {
    if ops == [] then 0
    else Taken(ops[..|ops| - 1]) + if ops[|ops| - 1].Consumed? then ops[|ops| - 1].count else 0
  }

  function Payload(out: seq<WorkItem>): Octets {
    if out == [] then []
    else Payload(out[..|out| - 1]) + if out[|out| - 1].PortData? then out[|out| - 1].data else []
  }

  function AckTotal(out: seq<WorkItem>): nat {
    if out == [] then 0
    else AckTotal(out[..|out| - 1]) + if out[|out| - 1].PortAck? then out[|out| - 1].bytes else 0
  }

  ghost predicate WellSized(out: seq<WorkItem>) {
    forall i :: 0 <= i < |out| && out[i].PortData? ==> 1 <= |out[i].data| <= PORT_CHUNK_RAW_BYTES
  }

  lemma {:induction false} OutAppend(a: seq<WorkItem>, b: seq<WorkItem>)
    ensures Payload(a + b) == Payload(a) + Payload(b)
    ensures AckTotal(a + b) == AckTotal(a) + AckTotal(b)
  {
    if b == [] {
      assert a + b == a;
    } else {
      assert (a + b)[..|a + b| - 1] == a + b[..|b| - 1];
      OutAppend(a, b[..|b| - 1]);
    }
  }

  lemma OneItem(item: WorkItem)
    ensures Payload([item]) == if item.PortData? then item.data else []
    ensures AckTotal([item]) == if item.PortAck? then item.bytes else 0
  {
    assert [item][..0] == [];
  }

  lemma WellSizedAppend(a: seq<WorkItem>, b: seq<WorkItem>)
    requires WellSized(a) && WellSized(b)
    ensures WellSized(a + b)
  {
  }

  lemma FrameFirst(chunk: Octets, n: nat, frames: seq<WorkItem>, rest: Octets)
    requires 1 <= n <= |chunk| && n <= PORT_CHUNK_RAW_BYTES
    requires WellSized(frames) && AckTotal(frames) == 0 && Payload(frames) + rest == chunk[n..]
    ensures var all := [PortData(chunk[..n])] + frames;
            && WellSized(all) && AckTotal(all) == 0 && Payload(all) + rest == chunk
            && |Payload(all)| == n + |Payload(frames)|
  {
    hide Payload, AckTotal;
    OutAppend([PortData(chunk[..n])], frames);
    OneItem(PortData(chunk[..n]));
    WellSizedAppend([PortData(chunk[..n])], frames);
    calc {
      (chunk[..n] + Payload(frames)) + rest;
      chunk[..n] + (Payload(frames) + rest);
      chunk[..n] + chunk[n..];
      chunk;
    }
  }

  /** Every frame but the last is of the full 48 KiB. */
  ghost predicate AllButLastFull(frames: seq<WorkItem>) {
    forall i :: 0 <= i < |frames| - 1 ==> frames[i].PortData? && |frames[i].data| == 49152
  }

  lemma {:induction false} FramesFull(chunk: Octets, credit: int)
    ensures AllButLastFull(Frames(chunk, credit).0)
    ensures Frames(chunk, credit).0 == [] <==> chunk == [] || credit <= 0
    decreases |chunk|
  {
    if chunk != [] && credit > 0 {
      var n := FrameSize(chunk, credit);
      FramesFull(chunk[n..], credit - n);
    }
  }

  /** Frames carry the front of the chunk, well sized, and stop at the credit. */
  lemma {:induction false} FramesFacts(chunk: Octets, credit: int)
    ensures var (frames, rest) := Frames(chunk, credit);
            && Payload(frames) + rest == chunk
            && AckTotal(frames) == 0
            && WellSized(frames)
            && |Payload(frames)| == Min(|chunk|, Max(credit, 0))
    decreases |chunk|
  {
    if chunk != [] && credit > 0 {
      hide Payload, AckTotal, WellSized;
      var n := FrameSize(chunk, credit);
      FramesFacts(chunk[n..], credit - n);
      var (frames, rest) := Frames(chunk[n..], credit - n);
      FrameFirst(chunk, n, frames, rest);
    }
  }

  function Held(s: Stream): Octets {
    if s.pendingWrite.Some? then s.pendingWrite.value else []
  }

  // ---------------------------------------------------------------- toward the guest

  ghost predicate Sending(s: Stream, written: Octets, granted: nat) {
    && 0 <= s.credit <= PORT_STREAM_WINDOW_BYTES
    && (s.pendingWrite.Some? ==> s.pendingWrite.value != [] && s.credit == 0)
    && WellSized(s.out)
    && s.credit + |Payload(s.out)| <= PORT_STREAM_WINDOW_BYTES + granted
    && Payload(s.out) <= written
    && (!s.destroyed ==> Payload(s.out) + Held(s) == written)
  }

  lemma WriteSends(s: Stream, chunk: Octets)
    requires 0 <= s.credit <= PORT_STREAM_WINDOW_BYTES && s.pendingWrite.None? && WellSized(s.out)
    ensures var t := Write(s, chunk);
            && 0 <= t.credit <= s.credit
            && (t.pendingWrite.Some? ==> t.pendingWrite.value != [] && t.credit == 0)
            && WellSized(t.out)
            && t.credit + |Payload(t.out)| == s.credit + |Payload(s.out)|
            && Payload(t.out) + Held(t) == Payload(s.out) + chunk
            && Payload(t.out) <= Payload(s.out) + chunk
            && AckTotal(t.out) == AckTotal(s.out)
            && t == s.(credit := t.credit, pendingWrite := t.pendingWrite, out := t.out)
  {
    hide Payload, AckTotal, WellSized, Frames;
    FramesFacts(chunk, s.credit);
    var (frames, rest) := Frames(chunk, s.credit);
    OutAppend(s.out, frames);
    WellSizedAppend(s.out, frames);
    assert |chunk| == |Payload(frames)| + |rest|;
    assert Payload(s.out) + (Payload(frames) + rest) == (Payload(s.out) + Payload(frames)) + rest;
  }

  lemma SendStep(s: Stream, op: Op, highWaterMark: nat, written: Octets, granted: nat)
    requires Sending(s, written, granted) && Legal(s, op, highWaterMark)
    ensures Sending(Step(s, op, highWaterMark),
                    written + if op.Wrote? then op.chunk else [],
                    granted + if op.Acked? then op.grant else 0)
  {
    hide Write, WellSized, Payload, Read;
    match op
    case Wrote(chunk) =>
      assert Payload(s.out) + Held(s) == Payload(s.out);
      WriteSends(s, chunk);
    case Acked(bytes) =>
      var t := s.(credit := Min(PORT_STREAM_WINDOW_BYTES, s.credit + bytes));
      if t.pendingWrite.Some? && t.credit > 0 {
        WriteSends(t.(pendingWrite := None), t.pendingWrite.value);
      }
    case Finished => PlainOut(s.out, PortEnd);
    case ReadAsked => ReadOut(s);
    case Delivered(bytes) => DeliverOut(s, bytes, highWaterMark);
    case _ =>
  }

  lemma PlainOut(out: seq<WorkItem>, item: WorkItem)
    requires WellSized(out) && !item.PortData?
    ensures WellSized(out + [item]) && Payload(out + [item]) == Payload(out)
  {
    OutAppend(out, [item]);
    OneItem(item);
  }

  lemma ReadOut(s: Stream)
    requires WellSized(s.out)
    ensures WellSized(Read(s).out) && Payload(Read(s).out) == Payload(s.out)
    ensures Read(s) == s.(unackedOut := Read(s).unackedOut, out := Read(s).out)
  {
    if s.unackedOut > 0 {
      PlainOut(s.out, PortAck(Min(s.unackedOut, PORT_STREAM_WINDOW_BYTES)));
    }
  }

  lemma DeliverOut(s: Stream, bytes: Octets, highWaterMark: nat)
    requires WellSized(s.out)
    ensures WellSized(Deliver(s, bytes, highWaterMark).out)
    ensures Payload(Deliver(s, bytes, highWaterMark).out) == Payload(s.out)
    ensures Deliver(s, bytes, highWaterMark).credit == s.credit
    ensures !s.destroyed ==>
              var t := Deliver(s, bytes, highWaterMark);
              t.pendingWrite == (if t.destroyed then None else s.pendingWrite)
  {
    hide Read, Wants, WellSized, Payload;
    ReadOut(s.(unackedOut := s.unackedOut + |bytes|, buffer := s.buffer + bytes));
  }

  /** Over every run: the frames sent and the bytes held are exactly what was
      written, in order; every frame is within its size; and no more than the
      window plus what the guest granted was ever sent, whatever it grants. */
  lemma {:induction false} SentIsWritten(ops: seq<Op>, highWaterMark: nat)
    requires Possible(ops, highWaterMark)
    ensures Sending(Run(ops, highWaterMark), Written(ops), Granted(ops))
  {
    hide Step, Legal, Sending;
    if ops == [] {
      OpenedSends();
    } else {
      SentIsWritten(ops[..|ops| - 1], highWaterMark);
      SendStep(Run(ops[..|ops| - 1], highWaterMark), ops[|ops| - 1], highWaterMark,
               Written(ops[..|ops| - 1]), Granted(ops[..|ops| - 1]));
    }
  }

  lemma OpenedSends()
    ensures Sending(Opened, [], 0)
  {
  }

  /** A guest that never grants more than it was sent. */
  ghost predicate HonestGrants(ops: seq<Op>, highWaterMark: nat)
    requires Possible(ops, highWaterMark)
  {
    ops == []
    || (&& HonestGrants(ops[..|ops| - 1], highWaterMark)
        && (ops[|ops| - 1].Acked? ==> Granted(ops) <= |Payload(Run(ops[..|ops| - 1], highWaterMark).out)|))
  }

  /** Against an honest guest no credit is lost, so a live stream has sent all it
      may: everything written, or the window plus what was granted. */
  lemma {:induction false} SendsAllItMay(ops: seq<Op>, highWaterMark: nat)
    requires Possible(ops, highWaterMark) && HonestGrants(ops, highWaterMark)
    ensures var s := Run(ops, highWaterMark);
            && s.credit + |Payload(s.out)| == PORT_STREAM_WINDOW_BYTES + Granted(ops)
            && (!s.destroyed ==> |Payload(s.out)| == Min(|Written(ops)|, PORT_STREAM_WINDOW_BYTES + Granted(ops)))
  {
    SentIsWritten(ops, highWaterMark);
    if ops != [] {
      var init, op := ops[..|ops| - 1], ops[|ops| - 1];
      SendsAllItMay(init, highWaterMark);
      SentIsWritten(init, highWaterMark);
      CreditKept(Run(init, highWaterMark), op, highWaterMark);
    }
  }

  /** How many bytes may have been sent in all, and how many have been: each byte sent
      takes from the limit, which a grant raises, to one window past what was sent at
      most. */
  function Allowance(ops: seq<Op>): (nat, nat) {
    if ops == [] then (262144, 0)
    else
      var (limit, sent) := Allowance(ops[..|ops| - 1]);
      match ops[|ops| - 1]
      case Wrote(_) => (limit, Least(|Written(ops)|, limit))
      case Acked(grant) =>
        var raised := Least(limit + grant, sent + 262144);
        (raised, Least(|Written(ops)|, raised))
      case _ => (limit, sent)
  }

  function Least(a: nat, b: nat): nat {
    if a < b then a else b
  }

  /** Whatever the guest grants, honest or not, exactly as much is sent as the grants
      allow, and none of it later than it may be. */
  lemma {:induction false} SendsExactly(ops: seq<Op>, highWaterMark: nat)
    requires Possible(ops, highWaterMark)
    ensures var s := Run(ops, highWaterMark);
            s.credit + |Payload(s.out)| == Allowance(ops).0 && |Payload(s.out)| == Allowance(ops).1
  {
    hide Step, Legal, Payload, Sending, Granted;
    if ops == [] {
      OpenedSends();
      NothingSent();
    } else {
      var init, op := ops[..|ops| - 1], ops[|ops| - 1];
      SendsExactly(init, highWaterMark);
      SentIsWritten(init, highWaterMark);
      SentIsWritten(ops, highWaterMark);
      var s, t := Run(init, highWaterMark), Run(ops, highWaterMark);
      LimitMoves(s, op, highWaterMark, Written(init), Granted(init));
      if op.Wrote? || op.Acked? { SentAll(t, Written(ops), Granted(ops)); }
    }
  }

  lemma NothingSent()
    ensures Payload(Opened.out) == []
  {
  }

  /** A live stream has sent everything, or all its credit. */
  lemma SentAll(s: Stream, written: Octets, granted: nat)
    requires Sending(s, written, granted) && !s.destroyed
    ensures |Payload(s.out)| == Min(|written|, s.credit + |Payload(s.out)|)
  {
    hide Payload, WellSized;
    assert |Payload(s.out) + Held(s)| == |written|;
  }

  lemma LimitMoves(s: Stream, op: Op, highWaterMark: nat, written: Octets, granted: nat)
    requires Sending(s, written, granted) && Legal(s, op, highWaterMark)
    ensures var t := Step(s, op, highWaterMark);
            && t.credit + |Payload(t.out)|
               == (if op.Acked? then Min(s.credit + |Payload(s.out)| + op.grant, |Payload(s.out)| + PORT_STREAM_WINDOW_BYTES)
                   else s.credit + |Payload(s.out)|)
            && (op.Wrote? || op.Acked? ==> !t.destroyed)
            && (!op.Wrote? && !op.Acked? ==> Payload(t.out) == Payload(s.out))
  {
    hide Write, WellSized, Payload, Read, Deliver;
    match op
    case Wrote(chunk) =>
      WriteSends(s, chunk);
      WriteFrame(s, chunk);
    case Acked(bytes) =>
      var t := s.(credit := Min(PORT_STREAM_WINDOW_BYTES, s.credit + bytes));
      if t.pendingWrite.Some? && t.credit > 0 {
        WriteSends(t.(pendingWrite := None), t.pendingWrite.value);
        WriteFrame(t.(pendingWrite := None), t.pendingWrite.value);
      }
    case Finished => PlainOut(s.out, PortEnd);
    case ReadAsked => ReadOut(s);
    case Delivered(bytes) => DeliverOut(s, bytes, highWaterMark);
    case _ =>
  }

  lemma CreditKept(s: Stream, op: Op, highWaterMark: nat)
    requires Legal(s, op, highWaterMark)
    requires 0 <= s.credit <= PORT_STREAM_WINDOW_BYTES && WellSized(s.out)
    requires op.Acked? ==> s.credit + op.grant <= PORT_STREAM_WINDOW_BYTES
    ensures var t := Step(s, op, highWaterMark);
            t.credit + |Payload(t.out)| == s.credit + |Payload(s.out)| + if op.Acked? then op.grant else 0
  {
    hide Write, WellSized, Payload, Read;
    match op
    case Wrote(chunk) => WriteSends(s, chunk);
    case Acked(bytes) =>
      var t := s.(credit := Min(PORT_STREAM_WINDOW_BYTES, s.credit + bytes));
      if t.pendingWrite.Some? && t.credit > 0 {
        WriteSends(t.(pendingWrite := None), t.pendingWrite.value);
      }
    case Finished => PlainOut(s.out, PortEnd);
    case ReadAsked => ReadOut(s);
    case Delivered(bytes) => DeliverOut(s, bytes, highWaterMark);
    case _ =>
  }

  /** Over every run, a clean end goes out once at most, and only behind every
      byte written. */
  lemma {:induction false} EndFollowsData(ops: seq<Op>, highWaterMark: nat)
    requires Possible(ops, highWaterMark)
    ensures var s := Run(ops, highWaterMark);
            && (s.finished ==> Payload(s.out) == Written(ops) && s.pendingWrite.None?)
            && |Ends(s.out)| == if s.finished then 1 else 0
  {
    if ops != [] {
      var init, op := ops[..|ops| - 1], ops[|ops| - 1];
      EndFollowsData(init, highWaterMark);
      SentIsWritten(init, highWaterMark);
      FinishStep(Run(init, highWaterMark), op, highWaterMark, Written(init), Granted(init));
    }
  }

  function Ends(out: seq<WorkItem>): seq<WorkItem> {
    if out == [] then []
    else Ends(out[..|out| - 1]) + if out[|out| - 1].PortEnd? then [PortEnd] else []
  }

  lemma {:induction false} EndsAppend(a: seq<WorkItem>, b: seq<WorkItem>)
    ensures Ends(a + b) == Ends(a) + Ends(b)
  {
    if b == [] {
      assert a + b == a;
    } else {
      assert (a + b)[..|a + b| - 1] == a + b[..|b| - 1];
      EndsAppend(a, b[..|b| - 1]);
    }
  }

  lemma {:induction false} FramesEnds(chunk: Octets, credit: int)
    ensures Ends(Frames(chunk, credit).0) == []
    decreases |chunk|
  {
    if chunk != [] && credit > 0 {
      var n := FrameSize(chunk, credit);
      FramesEnds(chunk[n..], credit - n);
      EndsAppend([PortData(chunk[..n])], Frames(chunk[n..], credit - n).0);
      assert [PortData(chunk[..n])][..0] == [];
    }
  }

  lemma FinishStep(s: Stream, op: Op, highWaterMark: nat, written: Octets, granted: nat)
    requires Sending(s, written, granted) && Legal(s, op, highWaterMark)
    requires s.finished ==> Payload(s.out) == written && s.pendingWrite.None?
    ensures var t := Step(s, op, highWaterMark);
            && (t.finished ==> Payload(t.out) == written + (if op.Wrote? then op.chunk else []) && t.pendingWrite.None?)
            && |Ends(t.out)| == |Ends(s.out)| + if t.finished && !s.finished then 1 else 0
  {
    hide WellSized, Write, Payload, Ends, Read;
    SendStep(s, op, highWaterMark, written, granted);
    match op
    case Wrote(chunk) => WriteEnds(s, chunk);
    case Acked(bytes) =>
      var t := s.(credit := Min(PORT_STREAM_WINDOW_BYTES, s.credit + bytes));
      if s.pendingWrite.Some? { WriteEnds(t.(pendingWrite := None), s.pendingWrite.value); }
    case Finished =>
      EndsAppend(s.out, [PortEnd]);
      OneEnd();
    case ReadAsked => AckEnds(s);
    case Delivered(bytes) => AckEnds(s.(unackedOut := s.unackedOut + |bytes|, buffer := s.buffer + bytes));
    case _ =>
  }

  lemma OneEnd()
    ensures Ends([PortEnd]) == [PortEnd]
  {
    assert [PortEnd][..0] == [];
  }

  lemma WriteEnds(s: Stream, chunk: Octets)
    ensures Ends(Write(s, chunk).out) == Ends(s.out)
    ensures Write(s, chunk).finished == s.finished
  {
    FramesEnds(chunk, s.credit);
    EndsAppend(s.out, Frames(chunk, s.credit).0);
  }

  lemma AckEnds(s: Stream)
    ensures Ends(Read(s).out) == Ends(s.out)
    ensures Read(s) == s.(unackedOut := Read(s).unackedOut, out := Read(s).out)
  {
    var g := Min(s.unackedOut, PORT_STREAM_WINDOW_BYTES);
    if s.unackedOut > 0 {
      EndsAppend(s.out, [PortAck(g)]);
      assert [PortAck(g)][..0] == [];
    }
  }

  // ---------------------------------------------------------------- toward the relay

  ghost predicate Receiving(s: Stream, received: Octets, taken: nat, highWaterMark: nat) {
    && AckTotal(s.out) + s.unackedOut == |received|
    && |s.buffer| <= highWaterMark + PORT_STREAM_WINDOW_BYTES + PORT_CHUNK_RAW_BYTES
    && taken <= |received|
    && s.buffer <= received[taken..]
    && (!s.destroyed ==> s.buffer == received[taken..])
  }

  lemma ReadAcks(s: Stream)
    ensures var t := Read(s);
            && AckTotal(t.out) + t.unackedOut == AckTotal(s.out) + s.unackedOut
            && t.buffer == s.buffer && t.destroyed == s.destroyed
            && t.unackedOut == Max(0, s.unackedOut - PORT_STREAM_WINDOW_BYTES)
  {
    var g := Min(s.unackedOut, PORT_STREAM_WINDOW_BYTES);
    if s.unackedOut > 0 {
      OutAppend(s.out, [PortAck(g)]);
      OneItem(PortAck(g));
    }
  }

  lemma WriteAcks(s: Stream, chunk: Octets)
    ensures AckTotal(Write(s, chunk).out) == AckTotal(s.out)
  {
    FramesFacts(chunk, s.credit);
    OutAppend(s.out, Frames(chunk, s.credit).0);
  }

  lemma GrantReceives(s: Stream, bytes: nat)
    ensures var t := Grant(s, bytes);
            && AckTotal(t.out) == AckTotal(s.out)
            && t.unackedOut == s.unackedOut && t.buffer == s.buffer && t.destroyed == s.destroyed
  {
    hide Write, AckTotal;
    var t := s.(credit := Min(PORT_STREAM_WINDOW_BYTES, s.credit + bytes));
    if t.pendingWrite.Some? && t.credit > 0 {
      WriteAcks(t.(pendingWrite := None), t.pendingWrite.value);
      WriteFrame(t.(pendingWrite := None), t.pendingWrite.value);
    }
  }

  lemma DeliverReceives(s: Stream, bytes: Octets, highWaterMark: nat, received: Octets, taken: nat)
    requires Receiving(s, received, taken, highWaterMark) && !s.destroyed
    ensures Receiving(Deliver(s, bytes, highWaterMark), received + bytes, taken, highWaterMark)
  {
    hide Read, AckTotal;
    ReadAcks(s.(unackedOut := s.unackedOut + |bytes|, buffer := s.buffer + bytes));
    assert (received + bytes)[taken..] == received[taken..] + bytes;
  }

  lemma ReceiveStep(s: Stream, op: Op, highWaterMark: nat, received: Octets, taken: nat)
    requires Receiving(s, received, taken, highWaterMark) && Legal(s, op, highWaterMark)
    ensures Receiving(Step(s, op, highWaterMark),
                      received + (if op.Delivered? then op.bytes else []),
                      taken + (if op.Consumed? then op.count else 0), highWaterMark)
  {
    hide Write, Read, Grant, Deliver, AckTotal;
    assert received + [] == received;
    match op
    case Wrote(chunk) =>
      WriteAcks(s, chunk);
      WriteFrame(s, chunk);
    case Acked(bytes) => GrantReceives(s, bytes);
    case Finished =>
      OutAppend(s.out, [PortEnd]);
      OneItem(PortEnd);
    case ReadAsked => ReadAcks(s);
    case Delivered(bytes) => DeliverReceives(s, bytes, highWaterMark, received, taken);
    case Consumed(count) =>
      assert received[taken..][count..] == received[taken + count..];
    case GuestEnds =>
    case Closed =>
  }

  lemma WriteFrame(s: Stream, chunk: Octets)
    ensures var t := Write(s, chunk);
            t.unackedOut == s.unackedOut && t.buffer == s.buffer && t.destroyed == s.destroyed
  {
  }

  /** Over every run: acks and unacked bytes add up to what was delivered; the
      buffer holds the delivered bytes not yet taken, in order; and it never
      outgrows its bound, whatever the guest sends. */
  lemma {:induction false} AckedIsReceived(ops: seq<Op>, highWaterMark: nat)
    requires Possible(ops, highWaterMark)
    ensures Receiving(Run(ops, highWaterMark), Received(ops), Taken(ops), highWaterMark)
  {
    hide Step, Legal;
    if ops != [] {
      AckedIsReceived(ops[..|ops| - 1], highWaterMark);
      ReceiveStep(Run(ops[..|ops| - 1], highWaterMark), ops[|ops| - 1], highWaterMark,
                  Received(ops[..|ops| - 1]), Taken(ops[..|ops| - 1]));
    }
  }

  /** A guest that keeps to its window: it never has more than the window
      delivered and unacked, and sends nothing behind its own end. */
  ghost predicate HonestDeliveries(ops: seq<Op>, highWaterMark: nat)
    requires Possible(ops, highWaterMark)
  {
    ops == []
    || (&& HonestDeliveries(ops[..|ops| - 1], highWaterMark)
        && (ops[|ops| - 1].Delivered? ==>
              && (ops[|ops| - 1].bytes != [] ==> !Run(ops[..|ops| - 1], highWaterMark).guestEnded)
              && |Received(ops)| <= PORT_STREAM_WINDOW_BYTES + AckTotal(Run(ops[..|ops| - 1], highWaterMark).out)))
  }

  /** A guest that keeps to its window is never cut off: only closing the stream
      destroys it. Its bytes need no slack beyond the window. */
  lemma {:induction false} HonestGuestNeverCut(ops: seq<Op>, highWaterMark: nat)
    requires Possible(ops, highWaterMark) && HonestDeliveries(ops, highWaterMark)
    ensures var s := Run(ops, highWaterMark);
            && s.unackedOut <= PORT_STREAM_WINDOW_BYTES
            && |s.buffer| <= highWaterMark + s.unackedOut
            && (s.destroyed ==> ops != [] && ops[|ops| - 1] == Closed)
  {
    if ops != [] {
      var init, op := ops[..|ops| - 1], ops[|ops| - 1];
      HonestGuestNeverCut(init, highWaterMark);
      AckedIsReceived(init, highWaterMark);
      WithinWindow(Run(init, highWaterMark), op, highWaterMark);
    }
  }

  lemma WithinWindow(s: Stream, op: Op, highWaterMark: nat)
    requires Legal(s, op, highWaterMark)
    requires s.unackedOut <= PORT_STREAM_WINDOW_BYTES && |s.buffer| <= highWaterMark + s.unackedOut
    requires op.Delivered? ==> s.unackedOut + |op.bytes| <= PORT_STREAM_WINDOW_BYTES && (op.bytes != [] ==> !s.guestEnded)
    ensures var t := Step(s, op, highWaterMark);
            && t.unackedOut <= PORT_STREAM_WINDOW_BYTES
            && |t.buffer| <= highWaterMark + t.unackedOut
            && (t.destroyed ==> op == Closed)
  {
    hide Write, Read;
    match op
    case Wrote(chunk) => WriteFrame(s, chunk);
    case Acked(bytes) =>
      var t := s.(credit := Min(PORT_STREAM_WINDOW_BYTES, s.credit + bytes));
      if t.pendingWrite.Some? { WriteFrame(t.(pendingWrite := None), t.pendingWrite.value); }
    case ReadAsked => ReadAcks(s);
    case Delivered(bytes) => ReadAcks(s.(unackedOut := s.unackedOut + |bytes|, buffer := s.buffer + bytes));
    case _ =>
  }

  // ---------------------------------------------------------------- acks come at once

  /** What becomes of bytes that arrive. The stream is cut exactly when they would
      take the buffer past its mark, a window and a chunk, or come behind the guest's
      end; nothing of them is acked then. Else they go into the buffer, and when that
      stays below its mark all that is unacked but the excess over a window is acked
      at once; when not, nothing is. */
  lemma DeliveredIs(s: Stream, bytes: Octets, highWaterMark: nat)
    requires !s.destroyed
    ensures var t := Deliver(s, bytes, highWaterMark);
            var unacked, size := s.unackedOut + |bytes|, |s.buffer| + |bytes|;
            && (t.destroyed <==> size > highWaterMark + 262144 + 49152 || (s.guestEnded && bytes != []))
            && t.buffer == (if t.destroyed then s.buffer else s.buffer + bytes)
            && AckTotal(t.out) + t.unackedOut == AckTotal(s.out) + unacked
            && t.unackedOut == (if t.destroyed || s.guestEnded || (size >= highWaterMark && size > 0) then unacked
                                else if unacked > 262144 then unacked - 262144 else 0)
  {
    hide Read, AckTotal;
    ReadAcks(s.(unackedOut := s.unackedOut + |bytes|, buffer := s.buffer + bytes));
    assert s.buffer + [] == s.buffer;
  }

  /** So a guest that keeps to its window has nothing unacked whenever its bytes, or a
      reader's asking for more, leave the buffer below its mark. */
  lemma AcksPromptly(ops: seq<Op>, highWaterMark: nat)
    requires Possible(ops, highWaterMark) && HonestDeliveries(ops, highWaterMark)
    requires ops != [] && (ops[|ops| - 1].Delivered? || ops[|ops| - 1] == ReadAsked)
    requires var s := Run(ops, highWaterMark);
             !s.guestEnded && (|s.buffer| < highWaterMark || s.buffer == [])
    ensures Run(ops, highWaterMark).unackedOut == 0
    ensures AckTotal(Run(ops, highWaterMark).out) == |Received(ops)|
  {
    hide Read, Deliver, AckTotal;
    var init, op := ops[..|ops| - 1], ops[|ops| - 1];
    var s := Run(init, highWaterMark);
    AckedIsReceived(ops, highWaterMark);
    AckedIsReceived(init, highWaterMark);
    HonestGuestNeverCut(init, highWaterMark);
    HonestGuestNeverCut(ops, highWaterMark);
    if op.Delivered? { DeliveredIs(s, op.bytes, highWaterMark); DeliverFrame(s, op.bytes, highWaterMark); } else { ReadAcks(s); }
  }

  lemma DeliverFrame(s: Stream, bytes: Octets, highWaterMark: nat)
    ensures Deliver(s, bytes, highWaterMark).guestEnded == s.guestEnded
  {
  }

  /** What a step does to the two ends. */
  lemma StepEnds(s: Stream, op: Op, highWaterMark: nat)
    requires Legal(s, op, highWaterMark)
    ensures Step(s, op, highWaterMark).guestEnded == (s.guestEnded || op == GuestEnds)
    ensures Step(s, op, highWaterMark).finished == (s.finished || op == Finished)
  {
    hide Frames, Wants, Overflows, Legal;
  }

  /** The stream knows of the guest's end once it came, and of its own. */
  lemma {:induction false} EndsKnown(ops: seq<Op>, highWaterMark: nat)
    requires Possible(ops, highWaterMark)
    ensures Run(ops, highWaterMark).guestEnded <==> GuestEnds in ops
    ensures Run(ops, highWaterMark).finished <==> Finished in ops
  {
    hide Step, Legal;
    if ops != [] {
      var init, op := ops[..|ops| - 1], ops[|ops| - 1];
      EndsKnown(init, highWaterMark);
      StepEnds(Run(init, highWaterMark), op, highWaterMark);
      assert ops == init + [op];
    }
  }

  /** No ack is for nothing, nor for more than a window. */
  ghost predicate AcksSized(out: seq<WorkItem>) {
    forall i :: 0 <= i < |out| && out[i].PortAck? ==> 1 <= out[i].bytes <= 262144
  }

  lemma {:induction false} FramesHoldNoAck(chunk: Octets, credit: int)
    ensures forall i :: 0 <= i < |Frames(chunk, credit).0| ==> Frames(chunk, credit).0[i].PortData?
    decreases |chunk|
  {
    if chunk != [] && credit > 0 {
      var n := FrameSize(chunk, credit);
      FramesHoldNoAck(chunk[n..], credit - n);
    }
  }

  lemma WriteAcksSized(s: Stream, chunk: Octets)
    requires AcksSized(s.out)
    ensures AcksSized(Write(s, chunk).out)
  {
    FramesHoldNoAck(chunk, s.credit);
    hide Frames;
  }

  lemma StepAcksSized(s: Stream, op: Op, highWaterMark: nat)
    requires Legal(s, op, highWaterMark) && AcksSized(s.out)
    ensures AcksSized(Step(s, op, highWaterMark).out)
  {
    hide Write, Wants, Overflows, Legal;
    match op
    case Wrote(chunk) => WriteAcksSized(s, chunk);
    case Acked(bytes) =>
      var t := s.(credit := Min(PORT_STREAM_WINDOW_BYTES, s.credit + bytes));
      if t.pendingWrite.Some? { WriteAcksSized(t.(pendingWrite := None), t.pendingWrite.value); }
    case _ =>
  }

  lemma {:induction false} EveryAckSized(ops: seq<Op>, highWaterMark: nat)
    requires Possible(ops, highWaterMark)
    ensures AcksSized(Run(ops, highWaterMark).out)
  {
    hide Step, Legal, AcksSized;
    if ops == [] {
      NoAcks();
    } else {
      EveryAckSized(ops[..|ops| - 1], highWaterMark);
      StepAcksSized(Run(ops[..|ops| - 1], highWaterMark), ops[|ops| - 1], highWaterMark);
    }
  }

  lemma NoAcks()
    ensures AcksSized(Opened.out)
  {
  }
}
