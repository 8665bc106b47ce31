/** The port stream as the object the source runs (apps/runner/src/port-hub.ts:88-191). */
module PortDuplexes {
  import opened Wrappers
  import opened Bytes
  import opened Spec = PortStream

  lemma FramesUnfold(rest: Octets, credit: int)
    requires rest != [] && credit > 0
    ensures var n := FrameSize(rest, credit);
            && Frames(rest, credit).0 == [PortData(rest[..n])] + Frames(rest[n..], credit - n).0
            && Frames(rest, credit).1 == Frames(rest[n..], credit - n).1
  {
  }

  lemma FramesNext(chunk: Octets, off: nat, credit: int)
    requires off < |chunk| && credit > 0
    ensures var n := Min(Min(PORT_CHUNK_RAW_BYTES, credit), |chunk| - off);
            && Frames(chunk[off..], credit).0 == [PortData(chunk[off..off + n])] + Frames(chunk[off + n..], credit - n).0
            && Frames(chunk[off..], credit).1 == Frames(chunk[off + n..], credit - n).1
  {
    hide Frames;
    var n := Min(Min(PORT_CHUNK_RAW_BYTES, credit), |chunk| - off);
    FramesUnfold(chunk[off..], credit);
    assert chunk[off..][..n] == chunk[off..off + n] && chunk[off..][n..] == chunk[off + n..];
  }

  lemma FramesDone(rest: Octets, credit: int)
    requires rest == [] || credit <= 0
    ensures Frames(rest, credit) == ([], rest)
  {
  }

  /** The stream object; `out` records what it hands to the sandbox. */
  class PortDuplex {
    /** What is left of the window toward the guest. */
    var credit: int
    /** How much was delivered beyond what was acked. */
    var unackedOut: nat
    var pendingWrite: Option<Octets>
    var finished: bool
    /** The guest's own end went into the buffer behind its bytes. */
    var ended: bool
    var destroyed: bool
    /** Node's readable buffer, and its high-water mark. */
    var readable: Octets
    const highWaterMark: nat
    var out: seq<WorkItem>

    ghost function State(): Stream
      reads this
    {
      Stream(credit, pendingWrite, unackedOut, readable, finished, ended, destroyed, out)
    }

    constructor (highWaterMark: nat)
      ensures State() == Opened && this.highWaterMark == highWaterMark
    {
      this.highWaterMark := highWaterMark;
      credit, unackedOut, pendingWrite := PORT_STREAM_WINDOW_BYTES, 0, None;
      finished, ended, destroyed, readable, out := false, false, false, [], [];
    }

    /** Raises the credit and resumes a held write with it. */
    method Grant(bytes: nat)
      modifies this
      ensures State() == Spec.Grant(old(State()), bytes)
    {
      credit := Min(PORT_STREAM_WINDOW_BYTES, credit + bytes);
      if pendingWrite.Some? && credit > 0 {
        var chunk := pendingWrite.value;
        pendingWrite := None;
        Write(chunk);
      }
    }

    /** Emits frames of the chunk while credit lasts, and says how far it got. */
    method EmitFrames(chunk: Octets) returns (off: nat)
      modifies this`credit, this`out
      ensures off <= |chunk| && credit == old(credit) - off
      ensures out == old(out) + Frames(chunk, old(credit)).0 && chunk[off..] == Frames(chunk, old(credit)).1
    {
      hide Frames, FrameSize;
      off := 0;
      ghost var sent: seq<WorkItem> := [];
      assert chunk[0..] == chunk;
      while off < |chunk| && credit > 0
        invariant off <= |chunk| && credit + off == old(credit)
        invariant out == old(out) + sent
        invariant Frames(chunk, old(credit)).0 == sent + Frames(chunk[off..], credit).0
        invariant Frames(chunk, old(credit)).1 == Frames(chunk[off..], credit).1
        decreases |chunk| - off
      {
        var n := Min(Min(PORT_CHUNK_RAW_BYTES, credit), |chunk| - off);
        FramesNext(chunk, off, credit);
        ghost var frame := PortData(chunk[off..off + n]);
        assert sent + ([frame] + Frames(chunk[off + n..], credit - n).0) == (sent + [frame]) + Frames(chunk[off + n..], credit - n).0;
        sent := sent + [frame];
        out := out + [PortData(chunk[off..off + n])];
        credit := credit - n;
        off := off + n;
      }
      FramesDone(chunk[off..], credit);
      assert sent + [] == sent;
    }

    method Write(chunk: Octets)
      modifies this`credit, this`pendingWrite, this`out
      ensures State() == Spec.Write(old(State()), chunk)
    {
      hide Frames;
      var off := EmitFrames(chunk);
      if off < |chunk| {
        pendingWrite := Some(chunk[off..]);
      }
    }

    method Final()
      modifies this
      ensures State() == old(State()).(finished := true, out := old(out) + [PortEnd])
    {
      out := out + [PortEnd];
      finished := true;
    }

    method Read()
      modifies this
      ensures State() == Spec.Read(old(State()))
    {
      if unackedOut > 0 {
        var g := Min(unackedOut, PORT_STREAM_WINDOW_BYTES);
        unackedOut := unackedOut - g;
        out := out + [PortAck(g)];
      }
    }

    /** Buffers the bytes, or destroys the stream that would overflow. */
    method Deliver(bytes: Octets)
      modifies this
      ensures State() == Spec.Deliver(old(State()), bytes, highWaterMark)
    {
      unackedOut := unackedOut + |bytes|;
      if |readable| + |bytes| > highWaterMark + PORT_STREAM_WINDOW_BYTES + PORT_CHUNK_RAW_BYTES {
        Destroy();
        return;
      }
      if ended {
        if bytes != [] { Destroy(); }
        return;
      }
      readable := readable + bytes;
      if Wants(readable, highWaterMark) {
        Read();
      }
    }

    /** The guest closed its side: the reader ends behind what is buffered. */
    method End()
      modifies this`ended
      ensures State() == old(State()).(guestEnded := true)
    {
      ended := true;
    }

    method Destroy()
      modifies this
      ensures State() == Spec.Destroy(old(State()))
    {
      pendingWrite := None;
      destroyed := true;
    }
  }
}
