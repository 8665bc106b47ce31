/** The framing printer and the assembler are inverse: what a file's frames carry
    is what is handed on, whatever other sandboxes send in between. */
module FileRoundTrip {
  import opened Bytes
  import opened Base64
  import opened Attachments
  import opened FileParts

  /** The parts a sandbox sent, in order. */
  function OwnParts(ops: seq<Op>, sandboxId: SandboxId): seq<FilePart> {
    if ops == [] then []
    else
      OwnParts(ops[..|ops| - 1], sandboxId)
      + if IsOwn(ops[|ops| - 1], sandboxId) then [ops[|ops| - 1].part] else []
  }

  predicate IsOwn(op: Op, sandboxId: SandboxId) {
    op.Arrives? && op.sandboxId == sandboxId
  }

  /** When a sandbox last sent a part. */
  function LastAt(ops: seq<Op>, sandboxId: SandboxId): int {
    if ops == [] then 0
    else if IsOwn(ops[|ops| - 1], sandboxId) then ops[|ops| - 1].clock
    else LastAt(ops[..|ops| - 1], sandboxId)
  }

  /** No frame comes in, from anyone, when the sandbox's last part is stale. */
  predicate Unstalled(ops: seq<Op>, sandboxId: SandboxId) {
    ops == []
    || (var before, last := ops[..|ops| - 1], ops[|ops| - 1];
        && Unstalled(before, sandboxId)
        && (last.Arrives? && OwnParts(before, sandboxId) != [] ==> last.clock - LastAt(before, sandboxId) <= 60000))
  }

  function RelaysOf(relays: seq<Relay>, sandboxId: SandboxId): seq<Relay> {
    if relays == [] then []
    else
      RelaysOf(relays[..|relays| - 1], sandboxId)
      + if relays[|relays| - 1].sandboxId == sandboxId then [relays[|relays| - 1]] else []
  }

  lemma RelaysOfLast(relays: seq<Relay>, r: Relay, sandboxId: SandboxId)
    ensures RelaysOf(relays + [r], sandboxId) == RelaysOf(relays, sandboxId) + if r.sandboxId == sandboxId then [r] else []
  {
    assert (relays + [r])[..|relays|] == relays;
  }

  /** The sandbox's run has taken the first `k` parts of this file. */
  ghost predicate Carrying(f: Files, sandboxId: SandboxId, header: FileHeader, bytes: seq<byte>, k: nat, at: int) {
    && sandboxId in f.runs
    && var run := f.runs[sandboxId];
       && run.uploadId == header.uploadId
       && run.nextPart == k + 1
       && run.of == PartCount(|bytes|)
       && run.sizeBytes == |bytes|
       && run.total == |Before(bytes, k)|
       && Concat(run.chunks) == Before(bytes, k)
       && run.lastPartAt == at
  }

  ghost predicate Declares(sha256: Digest, header: FileHeader, bytes: seq<byte>) {
    header.sizeBytes == |bytes| <= 26214400 && header.sha256 == sha256(bytes)
  }

  /** The outcome of the last part. */
  ghost predicate HandsOn(f: Files, g: Files, sandboxId: SandboxId, header: FileHeader, bytes: seq<byte>) {
    if InFlight(f, sandboxId) < 2
    then exists r: Relay :: r.sandboxId == sandboxId && r.header == header && r.bytes == bytes && g.relays == f.relays + [r]
    else g.relays == f.relays
  }

  lemma TakenCarries(sha256: Digest, f: Files, sandboxId: SandboxId, header: FileHeader, bytes: seq<byte>, k: nat, at: int, clock: int)
    requires Declares(sha256, header, bytes) && k < PartCount(|bytes|) && f.frames != []
    requires Carrying(f, sandboxId, header, bytes, k, at)
    ensures var g := Taken(sha256, f, sandboxId, PartOf(header, bytes, k), clock);
            if k + 1 < PartCount(|bytes|)
            then Carrying(g, sandboxId, header, bytes, k + 1, clock) && g.relays == f.relays
            else HandsOn(f, g, sandboxId, header, bytes)
  {
    hide Encode, Decode, Before, Chunk, PartCount, EndAll;
    var part := PartOf(header, bytes, k);
    var chunk := Decode(part.dataBase64);
    DecodeEncode(Chunk(bytes, k));
    BeforeNext(bytes, k);
    var run := Longer(f.runs[sandboxId], chunk, clock, |f.frames| - 1);
    assert run.chunks[..|run.chunks| - 1] == f.runs[sandboxId].chunks;
    assert Concat(run.chunks) == Before(bytes, k + 1);
    BeforeWithin(bytes, k + 1);
  }

  lemma BeforeWithin(bytes: seq<byte>, k: nat)
    ensures |Before(bytes, k)| <= |bytes|
  {
  }

  lemma FirstCarries(sha256: Digest, f: Files, sandboxId: SandboxId, header: FileHeader, bytes: seq<byte>, clock: int)
    requires Declares(sha256, header, bytes)
    ensures Carrying(Begun(f, sandboxId, PartOf(header, bytes, 0), clock), sandboxId, header, bytes, 0, clock)
  {
    BeforeNext(bytes, 0);
    hide Encode, PartCount;
  }

  /** Noting a frame and sweeping leaves a fresh run and what was handed on. */
  lemma NotedStays(f: Files, x: SandboxId, part: FilePart, clock: int, sandboxId: SandboxId)
    ensures var g := Noted(f, x, part, clock);
            && g.relays == f.relays && g.inflight == f.inflight && g.frames != []
            && (sandboxId in f.runs && !IsStale(f.runs[sandboxId], clock) ==>
                  sandboxId in g.runs && g.runs[sandboxId] == f.runs[sandboxId])
  {
    hide EndAll;
  }

  /** A part of the file comes in. */
  lemma OwnCarries(sha256: Digest, f: Files, sandboxId: SandboxId, header: FileHeader, bytes: seq<byte>, k: nat, at: int, clock: int)
    requires Declares(sha256, header, bytes) && k < PartCount(|bytes|)
    requires k > 0 ==> Carrying(f, sandboxId, header, bytes, k, at) && clock - at <= 60000
    ensures var g := Arrived(sha256, f, sandboxId, PartOf(header, bytes, k), clock);
            if k + 1 < PartCount(|bytes|)
            then Carrying(g, sandboxId, header, bytes, k + 1, clock) && g.relays == f.relays
            else HandsOn(f, g, sandboxId, header, bytes)
  {
    hide Encode, Before, PartCount, EndAll, Taken, Noted;
    var part := PartOf(header, bytes, k);
    var g := Noted(f, sandboxId, part, clock);
    NotedStays(f, sandboxId, part, clock, sandboxId);
    if k > 0 {
      TakenCarries(sha256, g, sandboxId, header, bytes, k, at, clock);
    } else {
      var h := Abandoned(g, sandboxId, Superseded);
      FirstCarries(sha256, h, sandboxId, header, bytes, clock);
      TakenCarries(sha256, Begun(h, sandboxId, part, clock), sandboxId, header, bytes, 0, clock, clock);
    }
  }

  /** What a frame of another sandbox leaves alone. */
  ghost predicate Untouched(f: Files, g: Files, sandboxId: SandboxId) {
    && RelaysOf(g.relays, sandboxId) == RelaysOf(f.relays, sandboxId)
    && (sandboxId in f.runs ==> sandboxId in g.runs && g.runs[sandboxId] == f.runs[sandboxId])
  }

  lemma TakenElsewhere(sha256: Digest, f: Files, x: SandboxId, part: FilePart, clock: int, sandboxId: SandboxId)
    requires x != sandboxId && f.frames != []
    ensures Untouched(f, Taken(sha256, f, x, part, clock), sandboxId)
  {
    hide Decode, EndAll, RelaysOf;
    var g := Taken(sha256, f, x, part, clock);
    if g.relays != f.relays { RelaysOfLast(f.relays, g.relays[|f.relays|], sandboxId); }
  }

  lemma OtherCarries(sha256: Digest, f: Files, x: SandboxId, part: FilePart, clock: int, sandboxId: SandboxId)
    requires x != sandboxId
    ensures var g := Arrived(sha256, f, x, part, clock);
            && RelaysOf(g.relays, sandboxId) == RelaysOf(f.relays, sandboxId)
            && (sandboxId in f.runs && !IsStale(f.runs[sandboxId], clock) ==>
                  sandboxId in g.runs && g.runs[sandboxId] == f.runs[sandboxId])
  {
    hide EndAll, RelaysOf, Taken, Noted;
    var g := Noted(f, x, part, clock);
    NotedStays(f, x, part, clock, sandboxId);
    var h := Abandoned(g, x, Superseded);
    TakenElsewhere(sha256, g, x, part, clock, sandboxId);
    TakenElsewhere(sha256, Begun(h, x, part, clock), x, part, clock, sandboxId);
  }

  lemma SettlesCarries(f: Files, id: nat, ok: bool)
    requires id in f.uploads
    ensures Uploaded(f, id, ok).relays == f.relays && Uploaded(f, id, ok).runs == f.runs
  {
    hide EndAll, Fewer;
  }

  /** Until its last part is in, a file is carried and nothing of its sandbox is
      handed on. */
  lemma {:induction false} PartWay(sha256: Digest, f: Files, sandboxId: SandboxId, header: FileHeader, bytes: seq<byte>, ops: seq<Op>, k: nat)
    requires Declares(sha256, header, bytes) && k < PartCount(|bytes|)
    requires Possible(sha256, f, ops) && Unstalled(ops, sandboxId)
    requires OwnParts(ops, sandboxId) == PartFrames(header, bytes)[..k]
    ensures RelaysOf(Run(sha256, f, ops).relays, sandboxId) == RelaysOf(f.relays, sandboxId)
    ensures k > 0 ==> Carrying(Run(sha256, f, ops), sandboxId, header, bytes, k, LastAt(ops, sandboxId))
  {
    hide Declares, Arrived, Carrying, RelaysOf, PartOf, PartCount, Uploaded;
    if ops != [] {
      var before, op := ops[..|ops| - 1], ops[|ops| - 1];
      var g := Run(sha256, f, before);
      if IsOwn(op, sandboxId) {
        PartWay(sha256, f, sandboxId, header, bytes, before, k - 1);
        NextIs(header, bytes, OwnParts(before, sandboxId), op.part, k);
        OwnCarries(sha256, g, sandboxId, header, bytes, k - 1, LastAt(before, sandboxId), op.clock);
      } else {
        PartWay(sha256, f, sandboxId, header, bytes, before, k);
        if op.Arrives? {
          OtherCarries(sha256, g, op.sandboxId, op.part, op.clock, sandboxId);
          if k > 0 { CarriesOn(g, Run(sha256, f, ops), sandboxId, header, bytes, k, LastAt(ops, sandboxId), op.clock); }
        } else {
          SettlesCarries(g, op.run, op.ok);
          if k > 0 { SameRun(g, Run(sha256, f, ops), sandboxId, header, bytes, k, LastAt(ops, sandboxId)); }
        }
      }
    }
  }

  lemma NextIs(header: FileHeader, bytes: seq<byte>, parts: seq<FilePart>, part: FilePart, k: nat)
    requires 0 < k <= PartCount(|bytes|) && parts + [part] == PartFrames(header, bytes)[..k]
    ensures parts == PartFrames(header, bytes)[..k - 1] && part == PartOf(header, bytes, k - 1)
  {
    hide PartCount, PartOf;
    var frames := PartFrames(header, bytes);
    assert (parts + [part])[..|parts|] == parts && (parts + [part])[|parts|] == part;
    assert frames[..k][..k - 1] == frames[..k - 1] && frames[..k][k - 1] == frames[k - 1];
  }

  lemma CarriesOn(f: Files, g: Files, sandboxId: SandboxId, header: FileHeader, bytes: seq<byte>, k: nat, at: int, clock: int)
    requires Carrying(f, sandboxId, header, bytes, k, at) && clock - at <= 60000
    requires sandboxId in f.runs && !IsStale(f.runs[sandboxId], clock) ==>
               sandboxId in g.runs && g.runs[sandboxId] == f.runs[sandboxId]
    ensures Carrying(g, sandboxId, header, bytes, k, at)
  {
  }

  lemma SameRun(f: Files, g: Files, sandboxId: SandboxId, header: FileHeader, bytes: seq<byte>, k: nat, at: int)
    requires Carrying(f, sandboxId, header, bytes, k, at) && g.runs == f.runs
    ensures Carrying(g, sandboxId, header, bytes, k, at)
  {
  }

  /** The frames of a file within the cap, sent in order and unstalled into an
      assembler in any state, hand on exactly its bytes, once, when the last one
      comes in; only a sandbox with two uploads in flight already is refused. */
  lemma FramesRelayBytes(sha256: Digest, f: Files, sandboxId: SandboxId, header: FileHeader, bytes: seq<byte>, ops: seq<Op>)
    requires Declares(sha256, header, bytes) && ops != []
    requires Possible(sha256, f, ops) && Unstalled(ops, sandboxId)
    requires IsOwn(ops[|ops| - 1], sandboxId) && OwnParts(ops, sandboxId) == PartFrames(header, bytes)
    ensures var g, h := Run(sha256, f, ops[..|ops| - 1]), Run(sha256, f, ops);
            && RelaysOf(g.relays, sandboxId) == RelaysOf(f.relays, sandboxId)
            && (InFlight(g, sandboxId) < 2 ==>
                  exists r: Relay :: r.header == header && r.bytes == bytes
                              && RelaysOf(h.relays, sandboxId) == RelaysOf(f.relays, sandboxId) + [r])
            && (InFlight(g, sandboxId) >= 2 ==>
                  RelaysOf(h.relays, sandboxId) == RelaysOf(f.relays, sandboxId))
  {
    hide Declares, Arrived, Carrying, RelaysOf, PartOf, PartCount, Uploaded, InFlight;
    var k: nat := PartCount(|bytes|);
    var before, op := ops[..|ops| - 1], ops[|ops| - 1];
    var g, h := Run(sha256, f, before), Run(sha256, f, ops);
    assert PartFrames(header, bytes)[..k] == PartFrames(header, bytes);
    NextIs(header, bytes, OwnParts(before, sandboxId), op.part, k);
    PartWay(sha256, f, sandboxId, header, bytes, before, k - 1);
    OwnCarries(sha256, g, sandboxId, header, bytes, k - 1, LastAt(before, sandboxId), op.clock);
    if InFlight(g, sandboxId) < 2 {
      var r: Relay :| r.sandboxId == sandboxId && r.header == header && r.bytes == bytes && h.relays == g.relays + [r];
      RelaysOfLast(g.relays, r, sandboxId);
    }
  }
}
