/** Files sent out of a sandbox, put together part by part and handed on whole
    (apps/runner/src/supervisor-messages.ts:300-485). */
module FileParts {
  import opened Wrappers
  import opened Bytes
  import opened Base64
  import opened Attachments

  const MAX_OUTBOUND_ATTACHMENT_BYTES: nat := 26214400
  const FILE_UPLOAD_STALE_MS: int := 60000
  const MAX_INFLIGHT_FILE_UPLOADS_PER_SANDBOX: nat := 2

  type SandboxId = string
  type FilePart = Part<FileHeader>
  type Digest = seq<byte> -> string

  /** A frame that came in; frames are named by their place in the history. */
  datatype Arrival = Arrival(sandboxId: SandboxId, part: FilePart)

  /** A run in progress; `got` are the frames it took, `id` its number among all
      runs begun. */
  datatype FileRun = FileRun(
    id: nat, uploadId: string, nextPart: nat, of: nat, sizeBytes: nat,
    chunks: seq<seq<byte>>, total: nat, lastPartAt: int, got: seq<nat>)

  datatype Reason = Stalled | Superseded | OutOfOrder | TooLong | TooShort | BadChecksum | TooManyInFlight | TooBig

  /** The `file.result` that ends a run. */
  datatype Ending = Refused(why: Reason) | Answered(ok: bool)

  /** A whole file handed to the control plane. */
  datatype Relay = Relay(run: nat, sandboxId: SandboxId, header: FileHeader, bytes: seq<byte>, got: seq<nat>)

  /** A refusal of a part that belongs to no run. */
  datatype Stray = Stray(sandboxId: SandboxId, uploadId: string, why: Reason)

  datatype Files = Files(
    frames: seq<Arrival>,
    runs: map<SandboxId, FileRun>,
    begun: nat,
    ends: map<nat, seq<Ending>>,
    strays: seq<Stray>,
    inflight: map<SandboxId, nat>,
    uploads: map<nat, SandboxId>,
    relays: seq<Relay>)

  const NoFiles := Files([], map[], 0, map[], [], map[], map[], [])

  // ---------------------------------------------------------------- steps

  function EndsOf(ends: map<nat, seq<Ending>>, id: nat): seq<Ending> {
    if id in ends then ends[id] else []
  }

  function EndAll(ends: map<nat, seq<Ending>>, ids: set<nat>, e: Ending): map<nat, seq<Ending>> {
    map id | id in ends.Keys + ids :: if id in ids then EndsOf(ends, id) + [e] else ends[id]
  }

  function Ended(f: Files, id: nat, e: Ending): Files {
    f.(ends := EndAll(f.ends, {id}, e))
  }

  predicate IsStale(run: FileRun, clock: int) {
    clock - run.lastPartAt > FILE_UPLOAD_STALE_MS
  }

  function StaleRuns(runs: map<SandboxId, FileRun>, clock: int): set<nat> {
    set sandboxId | sandboxId in runs && IsStale(runs[sandboxId], clock) :: runs[sandboxId].id
  }

  function FreshRuns(runs: map<SandboxId, FileRun>, clock: int): map<SandboxId, FileRun> {
    map sandboxId | sandboxId in runs && !IsStale(runs[sandboxId], clock) :: runs[sandboxId]
  }

  function Swept(f: Files, clock: int): Files {
    f.(runs := FreshRuns(f.runs, clock), ends := EndAll(f.ends, StaleRuns(f.runs, clock), Refused(Stalled)))
  }

  function Abandoned(f: Files, sandboxId: SandboxId, why: Reason): Files {
    if sandboxId !in f.runs then f
    else Ended(f.(runs := f.runs - {sandboxId}), f.runs[sandboxId].id, Refused(why))
  }

  function Strayed(f: Files, sandboxId: SandboxId, uploadId: string, why: Reason): Files {
    f.(strays := f.strays + [Stray(sandboxId, uploadId, why)])
  }

  function Begun(f: Files, sandboxId: SandboxId, part: FilePart, clock: int): Files {
    f.(runs := f.runs[sandboxId := FileRun(f.begun, part.header.uploadId, 1, part.of, part.header.sizeBytes, [], 0, clock, [])],
       begun := f.begun + 1)
  }

  function InFlight(f: Files, sandboxId: SandboxId): nat {
    if sandboxId in f.inflight then f.inflight[sandboxId] else 0
  }

  function Relayed(f: Files, relay: Relay): Files {
    if InFlight(f, relay.sandboxId) >= MAX_INFLIGHT_FILE_UPLOADS_PER_SANDBOX
    then Ended(f, relay.run, Refused(TooManyInFlight))
    else f.(inflight := f.inflight[relay.sandboxId := InFlight(f, relay.sandboxId) + 1],
            uploads := f.uploads[relay.run := relay.sandboxId],
            relays := f.relays + [relay])
  }

  /** The final part is in: check the whole before handing it on. */
  function Completed(sha256: Digest, f: Files, sandboxId: SandboxId, run: FileRun, part: FilePart): Files {
    var bytes := Concat(run.chunks);
    if |bytes| != part.header.sizeBytes then Ended(f, run.id, Refused(TooShort))
    else if sha256(bytes) != part.header.sha256 then Ended(f, run.id, Refused(BadChecksum))
    else Relayed(f, Relay(run.id, sandboxId, part.header, bytes, run.got))
  }

  predicate Continues(f: Files, sandboxId: SandboxId, part: FilePart) {
    && sandboxId in f.runs
    && f.runs[sandboxId].uploadId == part.header.uploadId
    && f.runs[sandboxId].nextPart == part.part
    && f.runs[sandboxId].of == part.of
  }

  function Longer(run: FileRun, chunk: seq<byte>, clock: int, frame: nat): FileRun {
    run.(total := run.total + |chunk|, chunks := run.chunks + [chunk], nextPart := run.nextPart + 1,
         lastPartAt := clock, got := run.got + [frame])
  }

  /** The frame last come in, against the run its sandbox has. */
  function Taken(sha256: Digest, f: Files, sandboxId: SandboxId, part: FilePart, clock: int): Files
    requires f.frames != []
  {
    if !Continues(f, sandboxId, part) then
      var mine := sandboxId in f.runs && f.runs[sandboxId].uploadId == part.header.uploadId;
      var g := Abandoned(f, sandboxId, OutOfOrder);
      if mine then g else Strayed(g, sandboxId, part.header.uploadId, OutOfOrder)
    else
      var chunk := Decode(part.dataBase64);
      var run := Longer(f.runs[sandboxId], chunk, clock, |f.frames| - 1);
      if run.total > run.sizeBytes then Abandoned(f, sandboxId, TooLong)
      else if part.part < part.of then f.(runs := f.runs[sandboxId := run])
      else Completed(sha256, f.(runs := f.runs - {sandboxId}), sandboxId, run, part)
  }

  /** The files with this frame noted, and the stalled runs dropped. */
  function Noted(f: Files, sandboxId: SandboxId, part: FilePart, clock: int): Files {
    Swept(f.(frames := f.frames + [Arrival(sandboxId, part)]), clock)
  }

  function Arrived(sha256: Digest, f: Files, sandboxId: SandboxId, part: FilePart, clock: int): Files {
    var g := Noted(f, sandboxId, part, clock);
    if part.part != 1 then Taken(sha256, g, sandboxId, part, clock)
    else
      var h := Abandoned(g, sandboxId, Superseded);
      if part.header.sizeBytes > MAX_OUTBOUND_ATTACHMENT_BYTES then Strayed(h, sandboxId, part.header.uploadId, TooBig)
      else Taken(sha256, Begun(h, sandboxId, part, clock), sandboxId, part, clock)
  }

  function Fewer(inflight: map<SandboxId, nat>, sandboxId: SandboxId): map<SandboxId, nat> {
    var held: int := if sandboxId in inflight then inflight[sandboxId] else 1;
    if held - 1 <= 0 then inflight - {sandboxId} else inflight[sandboxId := held - 1]
  }

  /** The upload of a run came back, one way or the other. */
  function Uploaded(f: Files, id: nat, ok: bool): Files
    requires id in f.uploads
  {
    Ended(f.(inflight := Fewer(f.inflight, f.uploads[id]), uploads := f.uploads - {id}), id, Answered(ok))
  }

  datatype Op = Arrives(sandboxId: SandboxId, part: FilePart, clock: int) | UploadSettles(run: nat, ok: bool)

  predicate Legal(f: Files, op: Op) {
    op.UploadSettles? ==> op.run in f.uploads
  }

  function Step(sha256: Digest, f: Files, op: Op): Files
    requires Legal(f, op)
  {
    match op
    case Arrives(sandboxId, part, clock) => Arrived(sha256, f, sandboxId, part, clock)
    case UploadSettles(id, ok) => Uploaded(f, id, ok)
  }

  ghost predicate Possible(sha256: Digest, f: Files, ops: seq<Op>)
    decreases |ops|, 0
  {
    ops == []
    || (Possible(sha256, f, ops[..|ops| - 1]) && Legal(Run(sha256, f, ops[..|ops| - 1]), ops[|ops| - 1]))
  }

  ghost function Run(sha256: Digest, f: Files, ops: seq<Op>): Files
    requires Possible(sha256, f, ops)
    decreases |ops|, 1
  {
    if ops == [] then f else Step(sha256, Run(sha256, f, ops[..|ops| - 1]), ops[|ops| - 1])
  }

  // ---------------------------------------------------------------- what a run holds

  /** Frame `i` is part `k + 1` of the upload, and decodes to this chunk. */
  ghost predicate IsPart(frames: seq<Arrival>, i: nat, sandboxId: SandboxId, uploadId: string, of: nat, k: nat, chunk: seq<byte>) {
    && i < |frames|
    && frames[i].sandboxId == sandboxId
    && frames[i].part.header.uploadId == uploadId
    && frames[i].part.part == k + 1
    && frames[i].part.of == of
    && Decode(frames[i].part.dataBase64) == chunk
  }

  /** No frame of the sandbox from `i` up to `j`. */
  ghost predicate Silent(frames: seq<Arrival>, sandboxId: SandboxId, i: nat, j: nat) {
    forall x :: i <= x < j && x < |frames| ==> frames[x].sandboxId != sandboxId
  }

  /** The frames taken are parts 1, 2, ... of one upload of one sandbox, which sent
      no other frame between them; the chunks are what they carried. */
  ghost predicate InOrder(frames: seq<Arrival>, sandboxId: SandboxId, uploadId: string, of: nat, got: seq<nat>, chunks: seq<seq<byte>>) {
    && |got| == |chunks|
    && (forall k :: 0 <= k < |got| ==> IsPart(frames, got[k], sandboxId, uploadId, of, k, chunks[k]))
    && (forall k :: 1 <= k < |got| ==> got[k - 1] < got[k] && Silent(frames, sandboxId, got[k - 1] + 1, got[k]))
  }

  /** A run in progress whose sandbox has sent nothing since, before frame `upTo`. */
  ghost predicate RunKept(frames: seq<Arrival>, sandboxId: SandboxId, run: FileRun, upTo: nat) {
    && InOrder(frames, sandboxId, run.uploadId, run.of, run.got, run.chunks)
    && run.nextPart == |run.got| + 1 <= run.of
    && run.total == |Concat(run.chunks)| <= run.sizeBytes <= MAX_OUTBOUND_ATTACHMENT_BYTES
    && (run.got != [] ==> frames[run.got[0]].part.header.sizeBytes == run.sizeBytes
                          && run.got[|run.got| - 1] < upTo
                          && Silent(frames, sandboxId, run.got[|run.got| - 1] + 1, upTo))
  }

  /** All runs are kept; that of `busy`, whose frame is being dealt with, may be
      empty still. */
  ghost predicate RunsKept(f: Files, busy: Option<SandboxId>) {
    forall sandboxId :: sandboxId in f.runs ==>
      if busy == Some(sandboxId)
      then f.frames != [] && RunKept(f.frames, sandboxId, f.runs[sandboxId], |f.frames| - 1)
      else RunKept(f.frames, sandboxId, f.runs[sandboxId], |f.frames|) && f.runs[sandboxId].got != []
  }

  /** What was handed on: parts 1 to `of` of one upload of one sandbox in order,
      with the length and the checksum the final part declares. */
  ghost predicate Whole(sha256: Digest, frames: seq<Arrival>, r: Relay) {
    && r.got != []
    && r.got[|r.got| - 1] < |frames|
    && var last := frames[r.got[|r.got| - 1]].part;
       && r.header == last.header
       && |r.got| == last.of
       && r.bytes == Concat(ChunksAt(frames, r.got))
       && InOrder(frames, r.sandboxId, r.header.uploadId, last.of, r.got, ChunksAt(frames, r.got))
       && |r.bytes| == r.header.sizeBytes
       && |r.bytes| <= frames[r.got[0]].part.header.sizeBytes <= MAX_OUTBOUND_ATTACHMENT_BYTES
       && sha256(r.bytes) == r.header.sha256
  }

  function ChunksAt(frames: seq<Arrival>, got: seq<nat>): seq<seq<byte>> {
    seq(|got|, k requires 0 <= k < |got| => if got[k] < |frames| then Decode(frames[got[k]].part.dataBase64) else [])
  }

  ghost predicate AllWhole(sha256: Digest, f: Files) {
    forall p :: 0 <= p < |f.relays| ==> Whole(sha256, f.frames, f.relays[p])
  }

  // Frames that come later change nothing about what was taken.

  lemma MoreFrames(frames: seq<Arrival>, more: Arrival, sandboxId: SandboxId, uploadId: string, of: nat, got: seq<nat>, chunks: seq<seq<byte>>)
    requires InOrder(frames, sandboxId, uploadId, of, got, chunks)
    ensures InOrder(frames + [more], sandboxId, uploadId, of, got, chunks)
  {
    hide Decode;
    forall k | 1 <= k < |got| ensures got[k - 1] < got[k] && Silent(frames + [more], sandboxId, got[k - 1] + 1, got[k]) {
      assert IsPart(frames, got[k], sandboxId, uploadId, of, k, chunks[k]);
      assert Silent(frames, sandboxId, got[k - 1] + 1, got[k]);
    }
    forall k | 0 <= k < |got| ensures IsPart(frames + [more], got[k], sandboxId, uploadId, of, k, chunks[k]) {
      assert IsPart(frames, got[k], sandboxId, uploadId, of, k, chunks[k]);
    }
  }

  lemma RunMoreFrames(frames: seq<Arrival>, more: Arrival, sandboxId: SandboxId, run: FileRun)
    requires RunKept(frames, sandboxId, run, |frames|)
    ensures RunKept(frames + [more], sandboxId, run, |frames|)
    ensures more.sandboxId != sandboxId ==> RunKept(frames + [more], sandboxId, run, |frames| + 1)
  {
    MoreFrames(frames, more, sandboxId, run.uploadId, run.of, run.got, run.chunks);
    if run.got != [] { assert IsPart(frames, run.got[0], sandboxId, run.uploadId, run.of, 0, run.chunks[0]); }
    hide InOrder, IsPart, Decode;
  }

  lemma WholeMoreFrames(sha256: Digest, frames: seq<Arrival>, more: Arrival, r: Relay)
    requires Whole(sha256, frames, r)
    ensures Whole(sha256, frames + [more], r)
  {
    hide Decode;
    var last := frames[r.got[|r.got| - 1]].part;
    var chunks := ChunksAt(frames, r.got);
    MoreFrames(frames, more, r.sandboxId, r.header.uploadId, last.of, r.got, chunks);
    assert forall k :: 0 <= k < |r.got| ==> IsPart(frames, r.got[k], r.sandboxId, r.header.uploadId, last.of, k, chunks[k]);
    assert ChunksAt(frames + [more], r.got) == chunks;
    assert (frames + [more])[r.got[0]] == frames[r.got[0]];
  }

  lemma NotedKept(sha256: Digest, f: Files, sandboxId: SandboxId, part: FilePart, clock: int)
    requires RunsKept(f, None) && AllWhole(sha256, f)
    ensures RunsKept(Noted(f, sandboxId, part, clock), Some(sandboxId)) && AllWhole(sha256, Noted(f, sandboxId, part, clock))
  {
    hide RunKept, Whole;
    var more := Arrival(sandboxId, part);
    var g := Noted(f, sandboxId, part, clock);
    forall x | x in g.runs
      ensures if x == sandboxId then RunKept(g.frames, x, g.runs[x], |g.frames| - 1)
              else RunKept(g.frames, x, g.runs[x], |g.frames|) && g.runs[x].got != []
    {
      RunMoreFrames(f.frames, more, x, f.runs[x]);
    }
    forall p | 0 <= p < |g.relays| ensures Whole(sha256, g.frames, g.relays[p]) {
      WholeMoreFrames(sha256, f.frames, more, f.relays[p]);
    }
  }

  lemma OneMorePart(frames: seq<Arrival>, sandboxId: SandboxId, uploadId: string, of: nat, got: seq<nat>, chunks: seq<seq<byte>>,
                    n: nat, chunk: seq<byte>)
    requires InOrder(frames, sandboxId, uploadId, of, got, chunks)
    requires IsPart(frames, n, sandboxId, uploadId, of, |got|, chunk)
    requires got != [] ==> got[|got| - 1] < n && Silent(frames, sandboxId, got[|got| - 1] + 1, n)
    ensures InOrder(frames, sandboxId, uploadId, of, got + [n], chunks + [chunk])
  {
    hide IsPart, Silent;
    var g, c := got + [n], chunks + [chunk];
    forall k | 0 <= k < |g| ensures IsPart(frames, g[k], sandboxId, uploadId, of, k, c[k]) {
      if k < |got| { assert g[k] == got[k] && c[k] == chunks[k]; }
    }
    forall k | 1 <= k < |g| ensures g[k - 1] < g[k] && Silent(frames, sandboxId, g[k - 1] + 1, g[k]) {
      assert g[k - 1] == got[k - 1];
      if k < |got| { assert g[k] == got[k]; }
    }
  }

  /** What the first part of a run declared. */
  function Declared(frames: seq<Arrival>, run: FileRun): nat {
    if run.got != [] && run.got[0] < |frames| then frames[run.got[0]].part.header.sizeBytes else 0
  }

  /** Taking the frame that continues a run. */
  lemma LongerKept(f: Files, sandboxId: SandboxId, part: FilePart, clock: int)
    requires f.frames != [] && f.frames[|f.frames| - 1] == Arrival(sandboxId, part)
    requires Continues(f, sandboxId, part) && RunKept(f.frames, sandboxId, f.runs[sandboxId], |f.frames| - 1)
    requires f.runs[sandboxId].got == [] ==> f.runs[sandboxId].sizeBytes == part.header.sizeBytes
    ensures var run := Longer(f.runs[sandboxId], Decode(part.dataBase64), clock, |f.frames| - 1);
            && InOrder(f.frames, sandboxId, run.uploadId, run.of, run.got, run.chunks)
            && run.nextPart == |run.got| + 1
            && run.total == |Concat(run.chunks)|
            && Declared(f.frames, run) == run.sizeBytes <= MAX_OUTBOUND_ATTACHMENT_BYTES
            && (run.total <= run.sizeBytes && part.part < part.of ==> RunKept(f.frames, sandboxId, run, |f.frames|))
  {
    hide Decode, Silent, InOrder;
    var before := f.runs[sandboxId];
    var chunk := Decode(part.dataBase64);
    var n := |f.frames| - 1;
    var run := Longer(before, chunk, clock, n);
    assert run.chunks[..|run.chunks| - 1] == before.chunks;
    assert IsPart(f.frames, n, sandboxId, before.uploadId, before.of, |before.got|, chunk);
    OneMorePart(f.frames, sandboxId, before.uploadId, before.of, before.got, before.chunks, n, chunk);
    NothingSilent(f.frames, sandboxId, n + 1);
    if before.got != [] { FirstIn(f.frames, sandboxId, before.uploadId, before.of, before.got, before.chunks); }
  }

  lemma FirstIn(frames: seq<Arrival>, sandboxId: SandboxId, uploadId: string, of: nat, got: seq<nat>, chunks: seq<seq<byte>>)
    requires InOrder(frames, sandboxId, uploadId, of, got, chunks) && got != []
    ensures got[0] < |frames|
  {
  }

  lemma NothingSilent(frames: seq<Arrival>, sandboxId: SandboxId, i: nat)
    ensures Silent(frames, sandboxId, i, i)
  {
  }

  /** Dropping the run of the sandbox being dealt with leaves the others. */
  lemma DroppedKept(f: Files, g: Files, sandboxId: SandboxId)
    requires RunsKept(f, Some(sandboxId)) && g.frames == f.frames && g.runs == f.runs - {sandboxId}
    ensures RunsKept(g, Some(sandboxId)) && RunsKept(g, None)
  {
    hide RunKept;
  }

  lemma FirstKept(f: Files, sandboxId: SandboxId, part: FilePart, clock: int)
    requires RunsKept(f, Some(sandboxId)) && f.frames != [] && part.header.sizeBytes <= MAX_OUTBOUND_ATTACHMENT_BYTES
    ensures RunsKept(Begun(f, sandboxId, part, clock), Some(sandboxId))
  {
    var run := Begun(f, sandboxId, part, clock).runs[sandboxId];
    assert InOrder(f.frames, sandboxId, run.uploadId, run.of, [], []);
    hide InOrder;
    assert RunKept(f.frames, sandboxId, run, |f.frames| - 1);
    hide RunKept;
  }

  lemma WholeNow(sha256: Digest, f: Files, sandboxId: SandboxId, run: FileRun, part: FilePart)
    requires f.frames != [] && f.frames[|f.frames| - 1] == Arrival(sandboxId, part)
    requires InOrder(f.frames, sandboxId, run.uploadId, run.of, run.got, run.chunks)
    requires run.got != [] && run.got[|run.got| - 1] == |f.frames| - 1
    requires run.uploadId == part.header.uploadId && |run.got| == run.of == part.of
    requires |Concat(run.chunks)| == part.header.sizeBytes && sha256(Concat(run.chunks)) == part.header.sha256
    requires |Concat(run.chunks)| <= Declared(f.frames, run) <= MAX_OUTBOUND_ATTACHMENT_BYTES
    ensures Whole(sha256, f.frames, Relay(run.id, sandboxId, part.header, Concat(run.chunks), run.got))
  {
    hide Decode, Silent;
    assert IsPart(f.frames, run.got[0], sandboxId, run.uploadId, run.of, 0, run.chunks[0]);
    assert ChunksAt(f.frames, run.got) == run.chunks by {
      forall k | 0 <= k < |run.got| ensures ChunksAt(f.frames, run.got)[k] == run.chunks[k] {
        assert IsPart(f.frames, run.got[k], sandboxId, run.uploadId, run.of, k, run.chunks[k]);
      }
    }
  }

  lemma TakenKept(sha256: Digest, f: Files, sandboxId: SandboxId, part: FilePart, clock: int)
    requires RunsKept(f, Some(sandboxId)) && AllWhole(sha256, f)
    requires f.frames != [] && f.frames[|f.frames| - 1] == Arrival(sandboxId, part)
    requires sandboxId in f.runs && f.runs[sandboxId].got == [] ==> f.runs[sandboxId].sizeBytes == part.header.sizeBytes
    ensures RunsKept(Taken(sha256, f, sandboxId, part, clock), None) && AllWhole(sha256, Taken(sha256, f, sandboxId, part, clock))
  {
    hide RunKept, Whole, InOrder, Decode, EndAll;
    var g := Taken(sha256, f, sandboxId, part, clock);
    if !Continues(f, sandboxId, part) {
      DroppedKept(f, g, sandboxId);
    } else {
      var run := Longer(f.runs[sandboxId], Decode(part.dataBase64), clock, |f.frames| - 1);
      LongerKept(f, sandboxId, part, clock);
      if run.total > run.sizeBytes {
        DroppedKept(f, g, sandboxId);
      } else if part.part < part.of {
        OthersKept(f, g, sandboxId, run);
      } else {
        CompletedKept(sha256, f, sandboxId, run, part);
      }
    }
  }

  lemma CompletedKept(sha256: Digest, f: Files, sandboxId: SandboxId, run: FileRun, part: FilePart)
    requires RunsKept(f, Some(sandboxId)) && AllWhole(sha256, f)
    requires f.frames != [] && f.frames[|f.frames| - 1] == Arrival(sandboxId, part)
    requires Continues(f, sandboxId, part) && part.part >= part.of
    requires run.uploadId == part.header.uploadId && run.of == part.of
    requires run.got == f.runs[sandboxId].got + [|f.frames| - 1]
    requires InOrder(f.frames, sandboxId, run.uploadId, run.of, run.got, run.chunks)
    requires |Concat(run.chunks)| <= Declared(f.frames, run) <= MAX_OUTBOUND_ATTACHMENT_BYTES
    ensures var g := Completed(sha256, f.(runs := f.runs - {sandboxId}), sandboxId, run, part);
            RunsKept(g, None) && AllWhole(sha256, g)
  {
    hide Whole, InOrder, Decode, EndAll;
    var g := Completed(sha256, f.(runs := f.runs - {sandboxId}), sandboxId, run, part);
    RunWithin(f.frames, sandboxId, f.runs[sandboxId], |f.frames| - 1);
    hide RunKept;
    DroppedKept(f, g, sandboxId);
    if g.relays != f.relays { WholeNow(sha256, f, sandboxId, run, part); }
  }

  lemma RunWithin(frames: seq<Arrival>, sandboxId: SandboxId, run: FileRun, upTo: nat)
    requires RunKept(frames, sandboxId, run, upTo)
    ensures run.nextPart == |run.got| + 1 <= run.of
  {
  }

  lemma OthersKept(f: Files, g: Files, sandboxId: SandboxId, run: FileRun)
    requires RunsKept(f, Some(sandboxId)) && g.frames == f.frames && g.runs == f.runs[sandboxId := run]
    requires RunKept(f.frames, sandboxId, run, |f.frames|) && run.got != []
    ensures RunsKept(g, None)
  {
    hide RunKept;
  }

  lemma ArrivedKept(sha256: Digest, f: Files, sandboxId: SandboxId, part: FilePart, clock: int)
    requires RunsKept(f, None) && AllWhole(sha256, f)
    ensures RunsKept(Arrived(sha256, f, sandboxId, part, clock), None) && AllWhole(sha256, Arrived(sha256, f, sandboxId, part, clock))
  {
    hide RunsKept, Whole, Taken, EndAll;
    var g := Noted(f, sandboxId, part, clock);
    NotedKept(sha256, f, sandboxId, part, clock);
    if part.part != 1 {
      StillLong(f, sandboxId, part, clock);
      TakenKept(sha256, g, sandboxId, part, clock);
    } else {
      var h := Abandoned(g, sandboxId, Superseded);
      if sandboxId in g.runs { DroppedKept(g, h, sandboxId); } else { NotBusy(g, sandboxId); }
      if part.header.sizeBytes <= MAX_OUTBOUND_ATTACHMENT_BYTES {
        FirstKept(h, sandboxId, part, clock);
        TakenKept(sha256, Begun(h, sandboxId, part, clock), sandboxId, part, clock);
      } else {
        NotBusy(h, sandboxId);
        SameRuns(h, Strayed(h, sandboxId, part.header.uploadId, TooBig));
      }
    }
  }

  lemma SameRuns(f: Files, g: Files)
    requires RunsKept(f, None) && g.runs == f.runs && g.frames == f.frames
    ensures RunsKept(g, None)
  {
    hide RunKept;
  }

  lemma NotBusy(f: Files, sandboxId: SandboxId)
    requires RunsKept(f, Some(sandboxId)) && sandboxId !in f.runs
    ensures RunsKept(f, None)
  {
    hide RunKept;
  }

  lemma StillLong(f: Files, sandboxId: SandboxId, part: FilePart, clock: int)
    requires RunsKept(f, None)
    ensures var g := Noted(f, sandboxId, part, clock); sandboxId in g.runs ==> g.runs[sandboxId].got != []
  {
    hide RunKept;
  }

  // ---------------------------------------------------------------- every run ends once

  function InProgress(runs: map<SandboxId, FileRun>): set<nat> {
    set sandboxId | sandboxId in runs :: runs[sandboxId].id
  }

  ghost predicate Distinct(runs: map<SandboxId, FileRun>) {
    forall a, b :: a in runs && b in runs && a != b ==> runs[a].id != runs[b].id
  }

  /** A run is in progress, being uploaded, or has been answered, once. */
  ghost predicate OneFate(f: Files, id: nat) {
    (if id in InProgress(f.runs) then 1 else 0) + (if id in f.uploads then 1 else 0) + |EndsOf(f.ends, id)|
      == if id < f.begun then 1 else 0
  }

  ghost predicate Fates(f: Files) {
    Distinct(f.runs) && forall id :: OneFate(f, id)
  }

  /** A run was handed on whole: it is being uploaded or its upload was answered. */
  ghost predicate HandedOn(f: Files, id: nat) {
    id in f.uploads || exists ok :: EndsOf(f.ends, id) == [Answered(ok)]
  }

  ghost predicate IsRelayed(f: Files, id: nat) {
    exists p :: 0 <= p < |f.relays| && f.relays[p].run == id
  }

  /** What was handed on is exactly what was relayed, each run at most once. */
  ghost predicate RelaysAgree(f: Files) {
    && (forall id :: IsRelayed(f, id) <==> HandedOn(f, id))
    && (forall p, q :: 0 <= p < q < |f.relays| ==> f.relays[p].run != f.relays[q].run)
  }

  lemma EndedOnce(ends: map<nat, seq<Ending>>, ids: set<nat>, e: Ending, id: nat)
    ensures EndsOf(EndAll(ends, ids, e), id) == EndsOf(ends, id) + if id in ids then [e] else []
  {
  }

  lemma SweptFate(f: Files, clock: int, id: nat)
    requires Distinct(f.runs) && OneFate(f, id)
    ensures OneFate(Swept(f, clock), id)
  {
    EndedOnce(f.ends, StaleRuns(f.runs, clock), Refused(Stalled), id);
    hide EndAll, EndsOf, IsStale;
    var g := Swept(f, clock);
    if id in InProgress(f.runs) {
      var a :| a in f.runs && f.runs[a].id == id;
      assert IsStale(f.runs[a], clock) ==> id in StaleRuns(f.runs, clock);
      assert !IsStale(f.runs[a], clock) ==> a in g.runs && id in InProgress(g.runs);
    }
  }

  /** A run leaves the map and its fate is recorded. */
  lemma LeftFate(f: Files, g: Files, sandboxId: SandboxId, id: nat)
    requires Distinct(f.runs) && OneFate(f, id) && sandboxId in f.runs && g.runs == f.runs - {sandboxId} && g.begun == f.begun
    requires id != f.runs[sandboxId].id ==> EndsOf(g.ends, id) == EndsOf(f.ends, id) && (id in g.uploads <==> id in f.uploads)
    requires id == f.runs[sandboxId].id ==>
               |EndsOf(g.ends, id)| + (if id in g.uploads then 1 else 0) == |EndsOf(f.ends, id)| + (if id in f.uploads then 1 else 0) + 1
    ensures OneFate(g, id)
  {
    hide EndsOf;
    if id != f.runs[sandboxId].id {
      if id in InProgress(f.runs) {
        var a :| a in f.runs && f.runs[a].id == id;
        assert a in g.runs;
      }
    } else {
      assert id in InProgress(f.runs);
      assert forall a :: a in g.runs ==> g.runs[a].id != id;
    }
  }

  lemma DroppedFates(f: Files, sandboxId: SandboxId, e: Ending)
    requires Fates(f) && sandboxId in f.runs
    ensures Fates(Ended(f.(runs := f.runs - {sandboxId}), f.runs[sandboxId].id, e))
  {
    hide OneFate, EndAll, EndsOf;
    var run := f.runs[sandboxId].id;
    var g := Ended(f.(runs := f.runs - {sandboxId}), run, e);
    forall id ensures OneFate(g, id) {
      assert OneFate(f, id);
      EndedOnce(f.ends, {run}, e, id);
      LeftFate(f, g, sandboxId, id);
    }
  }

  lemma AbandonedFates(f: Files, sandboxId: SandboxId, why: Reason)
    requires Fates(f)
    ensures Fates(Abandoned(f, sandboxId, why))
  {
    if sandboxId in f.runs { DroppedFates(f, sandboxId, Refused(why)); }
  }

  lemma BegunFates(f: Files, sandboxId: SandboxId, part: FilePart, clock: int)
    requires Fates(f) && sandboxId !in f.runs
    ensures Fates(Begun(f, sandboxId, part, clock))
  {
    hide EndsOf;
    var g := Begun(f, sandboxId, part, clock);
    forall a | a in f.runs ensures f.runs[a].id < f.begun {
      assert OneFate(f, f.runs[a].id);
      assert f.runs[a].id in InProgress(f.runs);
    }
    forall id ensures OneFate(g, id) {
      assert OneFate(f, id);
      assert id in InProgress(g.runs) <==> id in InProgress(f.runs) || id == f.begun by {
        if id in InProgress(f.runs) {
          var a :| a in f.runs && f.runs[a].id == id;
          assert g.runs[a].id == id;
        }
        assert g.runs[sandboxId].id == f.begun;
      }
    }
  }

  lemma LongerFates(f: Files, g: Files, sandboxId: SandboxId, run: FileRun)
    requires Fates(f) && sandboxId in f.runs && f.runs[sandboxId].id == run.id
    requires g == f.(runs := f.runs[sandboxId := run])
    ensures Fates(g)
  {
    hide EndsOf;
    assert InProgress(g.runs) == InProgress(f.runs) by {
      forall id | id in InProgress(f.runs) ensures id in InProgress(g.runs) {
        var a :| a in f.runs && f.runs[a].id == id;
        assert g.runs[a].id == id;
      }
    }
    forall id ensures OneFate(g, id) { assert OneFate(f, id); }
  }

  lemma RelayedFates(f: Files, sandboxId: SandboxId, g: Files)
    requires Fates(f) && sandboxId in f.runs && g.runs == f.runs - {sandboxId} && g.begun == f.begun && g.ends == f.ends
    requires g.uploads == f.uploads[f.runs[sandboxId].id := sandboxId]
    ensures Fates(g)
  {
    hide OneFate, EndsOf;
    Alone(f, sandboxId);
    forall id ensures OneFate(g, id) {
      assert OneFate(f, id);
      LeftFate(f, g, sandboxId, id);
    }
  }

  lemma CompletedFates(sha256: Digest, f: Files, sandboxId: SandboxId, run: FileRun, part: FilePart)
    requires Fates(f) && sandboxId in f.runs && f.runs[sandboxId].id == run.id
    ensures Fates(Completed(sha256, f.(runs := f.runs - {sandboxId}), sandboxId, run, part))
  {
    hide Fates, EndAll, EndsOf;
    var left := f.(runs := f.runs - {sandboxId});
    DroppedFates(f, sandboxId, Refused(TooShort));
    DroppedFates(f, sandboxId, Refused(BadChecksum));
    DroppedFates(f, sandboxId, Refused(TooManyInFlight));
    var g := Completed(sha256, left, sandboxId, run, part);
    if g.uploads != f.uploads || g.relays != f.relays { RelayedFates(f, sandboxId, g); }
  }

  /** A run in progress is neither uploading nor answered. */
  lemma Alone(f: Files, sandboxId: SandboxId)
    requires Fates(f) && sandboxId in f.runs
    ensures f.runs[sandboxId].id !in f.uploads && EndsOf(f.ends, f.runs[sandboxId].id) == []
  {
    assert OneFate(f, f.runs[sandboxId].id);
    assert f.runs[sandboxId].id in InProgress(f.runs);
  }

  lemma SweptFates(f: Files, clock: int)
    requires Fates(f)
    ensures Fates(Swept(f, clock))
  {
    hide OneFate, EndAll;
    forall id ensures OneFate(Swept(f, clock), id) { SweptFate(f, clock, id); }
  }

  /** Only these parts matter to the fates. */
  lemma SameFates(f: Files, g: Files)
    requires Fates(f) && g.runs == f.runs && g.uploads == f.uploads && g.ends == f.ends && g.begun == f.begun
    ensures Fates(g)
  {
    forall id ensures OneFate(g, id) { assert OneFate(f, id); }
  }

  lemma TakenFates(sha256: Digest, f: Files, sandboxId: SandboxId, part: FilePart, clock: int)
    requires Fates(f) && f.frames != []
    ensures Fates(Taken(sha256, f, sandboxId, part, clock))
  {
    hide Fates, EndAll, Decode, Completed;
    if !Continues(f, sandboxId, part) {
      var g := Abandoned(f, sandboxId, OutOfOrder);
      AbandonedFates(f, sandboxId, OutOfOrder);
      SameFates(g, Strayed(g, sandboxId, part.header.uploadId, OutOfOrder));
    } else {
      var run := Longer(f.runs[sandboxId], Decode(part.dataBase64), clock, |f.frames| - 1);
      AbandonedFates(f, sandboxId, TooLong);
      LongerFates(f, f.(runs := f.runs[sandboxId := run]), sandboxId, run);
      CompletedFates(sha256, f, sandboxId, run, part);
    }
  }

  lemma ArrivedFates(sha256: Digest, f: Files, sandboxId: SandboxId, part: FilePart, clock: int)
    requires Fates(f)
    ensures Fates(Arrived(sha256, f, sandboxId, part, clock))
  {
    hide Fates, EndAll, Taken, Swept;
    var more := f.(frames := f.frames + [Arrival(sandboxId, part)]);
    SameFates(f, more);
    SweptFates(more, clock);
    var g := Noted(f, sandboxId, part, clock);
    NotedFrames(f, sandboxId, part, clock);
    if part.part != 1 {
      TakenFates(sha256, g, sandboxId, part, clock);
    } else {
      var h := Abandoned(g, sandboxId, Superseded);
      AbandonedFates(g, sandboxId, Superseded);
      if part.header.sizeBytes > MAX_OUTBOUND_ATTACHMENT_BYTES {
        SameFates(h, Strayed(h, sandboxId, part.header.uploadId, TooBig));
      } else {
        BegunFates(h, sandboxId, part, clock);
        TakenFates(sha256, Begun(h, sandboxId, part, clock), sandboxId, part, clock);
      }
    }
  }

  lemma NotedFrames(f: Files, sandboxId: SandboxId, part: FilePart, clock: int)
    ensures Noted(f, sandboxId, part, clock).frames == f.frames + [Arrival(sandboxId, part)]
  {
  }

  lemma UploadedFates(f: Files, id: nat, ok: bool)
    requires Fates(f) && id in f.uploads
    ensures Fates(Uploaded(f, id, ok))
  {
    hide EndAll, EndsOf, Fewer;
    forall x ensures OneFate(Uploaded(f, id, ok), x) {
      assert OneFate(f, x);
      EndedOnce(f.ends, {id}, Answered(ok), x);
    }
  }

  // ---------------------------------------------------------------- handed on exactly when relayed

  lemma SameHanded(f: Files, g: Files)
    requires RelaysAgree(f) && g.relays == f.relays
    requires forall id :: HandedOn(g, id) <==> HandedOn(f, id)
    ensures RelaysAgree(g)
  {
    hide HandedOn;
    forall id ensures IsRelayed(g, id) <==> HandedOn(g, id) {
      assert IsRelayed(f, id) <==> HandedOn(f, id);
    }
  }

  /** Refusing runs in progress hands nothing on. */
  lemma RefusedHanded(f: Files, g: Files, ids: set<nat>, why: Reason)
    requires Fates(f) && ids <= InProgress(f.runs)
    requires g.uploads == f.uploads && g.ends == EndAll(f.ends, ids, Refused(why))
    ensures forall id :: HandedOn(g, id) <==> HandedOn(f, id)
  {
    hide EndAll, EndsOf;
    forall id ensures HandedOn(g, id) <==> HandedOn(f, id) {
      EndedOnce(f.ends, ids, Refused(why), id);
      assert OneFate(f, id);
      if id in ids { assert EndsOf(f.ends, id) == []; assert EndsOf(g.ends, id) == [Refused(why)]; }
    }
  }

  lemma StaleInProgress(runs: map<SandboxId, FileRun>, clock: int)
    ensures StaleRuns(runs, clock) <= InProgress(runs)
  {
  }

  lemma AbandonedAgree(f: Files, sandboxId: SandboxId, why: Reason)
    requires Fates(f) && RelaysAgree(f)
    ensures RelaysAgree(Abandoned(f, sandboxId, why))
  {
    hide RelaysAgree, HandedOn, EndAll, Fates;
    var g := Abandoned(f, sandboxId, why);
    if sandboxId in f.runs { RefusedHanded(f, g, {f.runs[sandboxId].id}, why); }
    SameHanded(f, g);
  }

  lemma SweptAgree(f: Files, clock: int)
    requires Fates(f) && RelaysAgree(f)
    ensures RelaysAgree(Swept(f, clock))
  {
    hide RelaysAgree, HandedOn, EndAll, Fates, StaleRuns, InProgress;
    StaleInProgress(f.runs, clock);
    RefusedHanded(f, Swept(f, clock), StaleRuns(f.runs, clock), Stalled);
    SameHanded(f, Swept(f, clock));
  }

  lemma SameUploads(f: Files, g: Files)
    requires RelaysAgree(f) && g.relays == f.relays && g.uploads == f.uploads && g.ends == f.ends
    ensures RelaysAgree(g)
  {
    forall id ensures HandedOn(g, id) <==> HandedOn(f, id) {}
    SameHanded(f, g);
  }

  lemma NewRelay(f: Files, g: Files, relay: Relay)
    requires RelaysAgree(f) && g.relays == f.relays + [relay] && g.ends == f.ends
    requires relay.run !in f.uploads && EndsOf(f.ends, relay.run) == []
    requires g.uploads == f.uploads[relay.run := relay.sandboxId]
    ensures RelaysAgree(g)
  {
    hide EndsOf;
    assert !HandedOn(f, relay.run);
    assert !IsRelayed(f, relay.run);
    forall id ensures IsRelayed(g, id) <==> HandedOn(g, id) {
      assert IsRelayed(f, id) <==> HandedOn(f, id);
      assert g.relays[|f.relays|] == relay;
      if IsRelayed(f, id) {
        var p :| 0 <= p < |f.relays| && f.relays[p].run == id;
        assert g.relays[p].run == id;
      }
    }
  }

  lemma CompletedAgree(sha256: Digest, f: Files, sandboxId: SandboxId, run: FileRun, part: FilePart)
    requires Fates(f) && RelaysAgree(f) && sandboxId in f.runs && f.runs[sandboxId].id == run.id
    ensures RelaysAgree(Completed(sha256, f.(runs := f.runs - {sandboxId}), sandboxId, run, part))
  {
    hide Fates, RelaysAgree, HandedOn, EndAll, EndsOf;
    var g := Completed(sha256, f.(runs := f.runs - {sandboxId}), sandboxId, run, part);
    var relay := Relay(run.id, sandboxId, part.header, Concat(run.chunks), run.got);
    if g.relays != f.relays {
      Alone(f, sandboxId);
      NewRelay(f, g, relay);
    } else {
      assert {run.id} <= InProgress(f.runs);
      var why :| g.ends == EndAll(f.ends, {run.id}, Refused(why)) && g.uploads == f.uploads;
      RefusedHanded(f, g, {run.id}, why);
      SameHanded(f, g);
    }
  }

  lemma TakenAgree(sha256: Digest, f: Files, sandboxId: SandboxId, part: FilePart, clock: int)
    requires Fates(f) && RelaysAgree(f) && f.frames != []
    ensures RelaysAgree(Taken(sha256, f, sandboxId, part, clock))
  {
    hide Fates, RelaysAgree, EndAll, Decode, Completed;
    if !Continues(f, sandboxId, part) {
      var g := Abandoned(f, sandboxId, OutOfOrder);
      AbandonedAgree(f, sandboxId, OutOfOrder);
      SameUploads(g, Strayed(g, sandboxId, part.header.uploadId, OutOfOrder));
    } else {
      var run := Longer(f.runs[sandboxId], Decode(part.dataBase64), clock, |f.frames| - 1);
      AbandonedAgree(f, sandboxId, TooLong);
      SameUploads(f, f.(runs := f.runs[sandboxId := run]));
      CompletedAgree(sha256, f, sandboxId, run, part);
    }
  }

  lemma ArrivedAgree(sha256: Digest, f: Files, sandboxId: SandboxId, part: FilePart, clock: int)
    requires Fates(f) && RelaysAgree(f)
    ensures RelaysAgree(Arrived(sha256, f, sandboxId, part, clock))
  {
    hide Fates, RelaysAgree, EndAll, Taken, Swept;
    var more := f.(frames := f.frames + [Arrival(sandboxId, part)]);
    SameFates(f, more);
    SameUploads(f, more);
    SweptFates(more, clock);
    SweptAgree(more, clock);
    var g := Noted(f, sandboxId, part, clock);
    NotedFrames(f, sandboxId, part, clock);
    if part.part != 1 {
      TakenAgree(sha256, g, sandboxId, part, clock);
    } else {
      var h := Abandoned(g, sandboxId, Superseded);
      AbandonedFates(g, sandboxId, Superseded);
      AbandonedAgree(g, sandboxId, Superseded);
      if part.header.sizeBytes > MAX_OUTBOUND_ATTACHMENT_BYTES {
        SameUploads(h, Strayed(h, sandboxId, part.header.uploadId, TooBig));
      } else {
        BegunFates(h, sandboxId, part, clock);
        SameUploads(h, Begun(h, sandboxId, part, clock));
        TakenAgree(sha256, Begun(h, sandboxId, part, clock), sandboxId, part, clock);
      }
    }
  }

  lemma UploadedAgree(f: Files, id: nat, ok: bool)
    requires Fates(f) && RelaysAgree(f) && id in f.uploads
    ensures RelaysAgree(Uploaded(f, id, ok))
  {
    hide EndAll, EndsOf, Fewer, RelaysAgree;
    var g := Uploaded(f, id, ok);
    forall x ensures HandedOn(g, x) <==> HandedOn(f, x) {
      assert OneFate(f, x);
      EndedOnce(f.ends, {id}, Answered(ok), x);
      if x == id { assert EndsOf(g.ends, x) == [Answered(ok)]; } else { assert EndsOf(g.ends, x) == EndsOf(f.ends, x); }
    }
    SameHanded(f, g);
  }

  // ---------------------------------------------------------------- uploads in flight

  function UploadsOf(uploads: map<nat, SandboxId>, sandboxId: SandboxId): set<nat> {
    set id | id in uploads && uploads[id] == sandboxId
  }

  /** The counts are those of the uploads in flight, within the ceiling. */
  ghost predicate InFlightKept(f: Files) {
    forall sandboxId ::
      && InFlight(f, sandboxId) == |UploadsOf(f.uploads, sandboxId)| <= MAX_INFLIGHT_FILE_UPLOADS_PER_SANDBOX
      && (sandboxId in f.inflight ==> f.inflight[sandboxId] > 0)
  }

  lemma SameInFlight(f: Files, g: Files)
    requires InFlightKept(f) && g.inflight == f.inflight && g.uploads == f.uploads
    ensures InFlightKept(g)
  {
    forall x ensures InFlight(g, x) == InFlight(f, x) {}
  }

  lemma MoreUploads(uploads: map<nat, SandboxId>, id: nat, owner: SandboxId, x: SandboxId)
    requires id !in uploads
    ensures |UploadsOf(uploads[id := owner], x)| == |UploadsOf(uploads, x)| + if x == owner then 1 else 0
  {
    assert UploadsOf(uploads[id := owner], x) == UploadsOf(uploads, x) + if x == owner then {id} else {};
  }

  lemma FewerUploads(uploads: map<nat, SandboxId>, id: nat, x: SandboxId)
    requires id in uploads
    ensures |UploadsOf(uploads - {id}, x)| == |UploadsOf(uploads, x)| - if x == uploads[id] then 1 else 0
    ensures x == uploads[id] ==> |UploadsOf(uploads, x)| > 0
  {
    assert UploadsOf(uploads - {id}, x) == UploadsOf(uploads, x) - if x == uploads[id] then {id} else {};
    assert x == uploads[id] ==> id in UploadsOf(uploads, x);
  }

  lemma RelayedInFlight(f: Files, relay: Relay)
    requires InFlightKept(f) && relay.run !in f.uploads
    ensures InFlightKept(Relayed(f, relay))
  {
    hide UploadsOf, EndAll;
    var g := Relayed(f, relay);
    forall x ensures InFlight(g, x) == |UploadsOf(g.uploads, x)| <= MAX_INFLIGHT_FILE_UPLOADS_PER_SANDBOX {
      assert InFlight(f, x) == |UploadsOf(f.uploads, x)|;
      MoreUploads(f.uploads, relay.run, relay.sandboxId, x);
    }
  }

  lemma UploadedInFlight(f: Files, id: nat, ok: bool)
    requires InFlightKept(f) && id in f.uploads
    ensures InFlightKept(Uploaded(f, id, ok))
  {
    hide UploadsOf, EndAll;
    var g := Uploaded(f, id, ok);
    forall x ensures && InFlight(g, x) == |UploadsOf(g.uploads, x)| <= MAX_INFLIGHT_FILE_UPLOADS_PER_SANDBOX
                     && (x in g.inflight ==> g.inflight[x] > 0) {
      assert InFlight(f, x) == |UploadsOf(f.uploads, x)|;
      FewerUploads(f.uploads, id, x);
    }
  }

  lemma ContinuedInFlight(sha256: Digest, f: Files, sandboxId: SandboxId, part: FilePart, clock: int)
    requires Fates(f) && InFlightKept(f) && f.frames != [] && Continues(f, sandboxId, part)
    ensures InFlightKept(Taken(sha256, f, sandboxId, part, clock))
  {
    Alone(f, sandboxId);
    hide Fates, InFlightKept, Relayed, EndAll, Decode, Continues;
    var g := Taken(sha256, f, sandboxId, part, clock);
    var run := Longer(f.runs[sandboxId], Decode(part.dataBase64), clock, |f.frames| - 1);
    var left := f.(runs := f.runs - {sandboxId});
    SameInFlight(f, left);
    RelayedInFlight(left, Relay(run.id, sandboxId, part.header, Concat(run.chunks), run.got));
    if g.inflight == f.inflight && g.uploads == f.uploads { SameInFlight(f, g); }
  }

  lemma TakenInFlight(sha256: Digest, f: Files, sandboxId: SandboxId, part: FilePart, clock: int)
    requires Fates(f) && InFlightKept(f) && f.frames != []
    ensures InFlightKept(Taken(sha256, f, sandboxId, part, clock))
  {
    if Continues(f, sandboxId, part) {
      ContinuedInFlight(sha256, f, sandboxId, part, clock);
    } else {
      StrayInFlight(sha256, f, sandboxId, part, clock);
    }
  }

  lemma StrayInFlight(sha256: Digest, f: Files, sandboxId: SandboxId, part: FilePart, clock: int)
    requires InFlightKept(f) && f.frames != [] && !Continues(f, sandboxId, part)
    ensures InFlightKept(Taken(sha256, f, sandboxId, part, clock))
  {
    hide InFlightKept, EndAll, Continues;
    SameInFlight(f, Taken(sha256, f, sandboxId, part, clock));
  }

  lemma ArrivedInFlight(sha256: Digest, f: Files, sandboxId: SandboxId, part: FilePart, clock: int)
    requires Fates(f) && InFlightKept(f)
    ensures InFlightKept(Arrived(sha256, f, sandboxId, part, clock))
  {
    hide Fates, InFlightKept, EndAll, Taken, StaleRuns, FreshRuns;
    var g := Noted(f, sandboxId, part, clock);
    NotedFates(f, sandboxId, part, clock);
    SameInFlight(f, g);
    if part.part != 1 {
      TakenInFlight(sha256, g, sandboxId, part, clock);
    } else {
      var h := Abandoned(g, sandboxId, Superseded);
      AbandonedFates(g, sandboxId, Superseded);
      SameInFlight(f, h);
      if part.header.sizeBytes > MAX_OUTBOUND_ATTACHMENT_BYTES {
        SameInFlight(h, Strayed(h, sandboxId, part.header.uploadId, TooBig));
      } else {
        GoneFrom(g, sandboxId, Superseded);
        BegunFates(h, sandboxId, part, clock);
        SameInFlight(h, Begun(h, sandboxId, part, clock));
        TakenInFlight(sha256, Begun(h, sandboxId, part, clock), sandboxId, part, clock);
      }
    }
  }

  lemma NotedFates(f: Files, sandboxId: SandboxId, part: FilePart, clock: int)
    requires Fates(f)
    ensures Fates(Noted(f, sandboxId, part, clock))
    ensures Noted(f, sandboxId, part, clock).frames == f.frames + [Arrival(sandboxId, part)]
  {
    hide Fates, Swept;
    var more := f.(frames := f.frames + [Arrival(sandboxId, part)]);
    SameFates(f, more);
    SweptFates(more, clock);
    NotedFrames(f, sandboxId, part, clock);
  }

  lemma GoneFrom(f: Files, sandboxId: SandboxId, why: Reason)
    ensures sandboxId !in Abandoned(f, sandboxId, why).runs && Abandoned(f, sandboxId, why).frames == f.frames
  {
  }

  // ---------------------------------------------------------------- runs of the assembler

  ghost predicate Keeps(sha256: Digest, f: Files) {
    RunsKept(f, None) && AllWhole(sha256, f) && Fates(f) && RelaysAgree(f) && InFlightKept(f)
  }

  lemma StepKeeps(sha256: Digest, f: Files, op: Op)
    requires Keeps(sha256, f) && Legal(f, op)
    ensures Keeps(sha256, Step(sha256, f, op))
  {
    hide RunsKept, AllWhole, Fates, RelaysAgree, InFlightKept, Arrived;
    match op
    case Arrives(sandboxId, part, clock) =>
      ArrivedKept(sha256, f, sandboxId, part, clock);
      ArrivedFates(sha256, f, sandboxId, part, clock);
      ArrivedAgree(sha256, f, sandboxId, part, clock);
      ArrivedInFlight(sha256, f, sandboxId, part, clock);
    case UploadSettles(id, ok) =>
      UploadedKept(sha256, f, id, ok);
      UploadedFates(f, id, ok);
      UploadedAgree(f, id, ok);
      UploadedInFlight(f, id, ok);
  }

  lemma UploadedKept(sha256: Digest, f: Files, id: nat, ok: bool)
    requires RunsKept(f, None) && AllWhole(sha256, f) && id in f.uploads
    ensures RunsKept(Uploaded(f, id, ok), None) && AllWhole(sha256, Uploaded(f, id, ok))
  {
    hide EndAll, Fewer, RunsKept, Whole;
    SameRuns(f, Uploaded(f, id, ok));
  }

  lemma NoFilesKeeps(sha256: Digest)
    ensures Keeps(sha256, NoFiles)
  {
    assert forall x :: UploadsOf(map[], x) == {};
  }

  lemma {:induction false} RunKeeps(sha256: Digest, ops: seq<Op>)
    requires Possible(sha256, NoFiles, ops)
    ensures Keeps(sha256, Run(sha256, NoFiles, ops))
  {
    hide Keeps, Step;
    if ops == [] {
      NoFilesKeeps(sha256);
    } else {
      RunKeeps(sha256, ops[..|ops| - 1]);
      StepKeeps(sha256, Run(sha256, NoFiles, ops[..|ops| - 1]), ops[|ops| - 1]);
    }
  }

  /** A sandbox's one run buffers no more than it declared, which is within the cap. */
  lemma BufferBounded(sha256: Digest, ops: seq<Op>, sandboxId: SandboxId)
    requires Possible(sha256, NoFiles, ops) && sandboxId in Run(sha256, NoFiles, ops).runs
    ensures var run := Run(sha256, NoFiles, ops).runs[sandboxId];
            |Concat(run.chunks)| <= run.sizeBytes <= 26214400
  {
    hide Run, Possible, InOrder;
    RunKeeps(sha256, ops);
  }

  /** A file handed to the control plane is parts 1 to `of` of one upload of one
      sandbox, in order and with no other frame of it between, of the length and
      checksum its final part declared. */
  lemma RelayedWhole(sha256: Digest, ops: seq<Op>, p: nat)
    requires Possible(sha256, NoFiles, ops) && p < |Run(sha256, NoFiles, ops).relays|
    ensures Whole(sha256, Run(sha256, NoFiles, ops).frames, Run(sha256, NoFiles, ops).relays[p])
  {
    hide Run, Possible, Whole;
    RunKeeps(sha256, ops);
  }

  /** Every run ever begun is exactly one of in progress, being uploaded, or
      answered by one `file.result`; it is relayed, once, exactly when it was
      uploaded or is being so. */
  lemma OneFateEach(sha256: Digest, ops: seq<Op>, id: nat)
    requires Possible(sha256, NoFiles, ops) && id < Run(sha256, NoFiles, ops).begun
    ensures var f := Run(sha256, NoFiles, ops);
            && (if id in InProgress(f.runs) then 1 else 0) + (if id in f.uploads then 1 else 0) + |EndsOf(f.ends, id)| == 1
            && (IsRelayed(f, id) <==> id in f.uploads || exists ok :: EndsOf(f.ends, id) == [Answered(ok)])
            && (forall p, q :: 0 <= p < q < |f.relays| ==> f.relays[p].run != f.relays[q].run)
  {
    hide Run, Possible, EndsOf, IsRelayed;
    RunKeeps(sha256, ops);
    assert OneFate(Run(sha256, NoFiles, ops), id);
    assert HandedOn(Run(sha256, NoFiles, ops), id) <==> IsRelayed(Run(sha256, NoFiles, ops), id);
  }

  /** At most two uploads of a sandbox are ever in flight, whatever it sends. */
  lemma UploadsBounded(sha256: Digest, ops: seq<Op>, sandboxId: SandboxId)
    requires Possible(sha256, NoFiles, ops)
    ensures |UploadsOf(Run(sha256, NoFiles, ops).uploads, sandboxId)| <= 2
  {
    hide Run, Possible, UploadsOf;
    RunKeeps(sha256, ops);
  }

  // ---------------------------------------------------------------- nobody is left waiting

  /** Once a frame came in, from any sandbox, no run whose last part is over a minute
      old is left, and the frame leaves every younger run of another sandbox. */
  lemma NothingStale(sha256: Digest, f: Files, sandboxId: SandboxId, part: FilePart, clock: int)
    ensures var g := Arrived(sha256, f, sandboxId, part, clock);
            && (forall x :: x in g.runs ==> clock - g.runs[x].lastPartAt <= 60000)
            && (forall x :: x in f.runs && x != sandboxId ==>
                  if clock - f.runs[x].lastPartAt <= 60000 then x in g.runs && g.runs[x] == f.runs[x] else x !in g.runs)
  {
    hide EndAll, Taken, Noted;
    var g := Noted(f, sandboxId, part, clock);
    NotedFresh(f, sandboxId, part, clock);
    var after := Arrived(sha256, f, sandboxId, part, clock);
    if part.part != 1 {
      TakenFresh(sha256, g, sandboxId, part, clock);
    } else {
      var h := Abandoned(g, sandboxId, Superseded);
      if part.header.sizeBytes <= MAX_OUTBOUND_ATTACHMENT_BYTES {
        var b := Begun(h, sandboxId, part, clock);
        TakenFresh(sha256, b, sandboxId, part, clock);
        forall x | x != sandboxId ensures SameAt(g.runs, after.runs, x) { assert SameAt(b.runs, after.runs, x); }
      } else {
        forall x | x != sandboxId ensures SameAt(g.runs, after.runs, x) {}
      }
    }
    forall x | x in f.runs && x != sandboxId
      ensures if clock - f.runs[x].lastPartAt <= 60000 then x in after.runs && after.runs[x] == f.runs[x] else x !in after.runs
    {
      assert SameAt(g.runs, after.runs, x);
    }
    forall x | x in after.runs && x != sandboxId ensures clock - after.runs[x].lastPartAt <= 60000 {
      assert SameAt(g.runs, after.runs, x);
    }
  }

  lemma NotedFresh(f: Files, sandboxId: SandboxId, part: FilePart, clock: int)
    ensures var g := Noted(f, sandboxId, part, clock);
            && g.frames != []
            && forall x :: if x in f.runs && clock - f.runs[x].lastPartAt <= 60000 then x in g.runs && g.runs[x] == f.runs[x] else x !in g.runs
  {
    hide EndAll, StaleRuns;
  }

  predicate SameAt(runs: map<SandboxId, FileRun>, after: map<SandboxId, FileRun>, x: SandboxId) {
    if x in runs then x in after && after[x] == runs[x] else x !in after
  }

  /** Taking a part leaves the runs of other sandboxes, and its own is fresh. */
  lemma TakenFresh(sha256: Digest, f: Files, sandboxId: SandboxId, part: FilePart, clock: int)
    requires f.frames != []
    ensures var g := Taken(sha256, f, sandboxId, part, clock);
            && (forall x :: x != sandboxId ==> SameAt(f.runs, g.runs, x))
            && (sandboxId in g.runs ==> g.runs[sandboxId].lastPartAt == clock)
  {
    hide Decode, EndAll, Completed;
    var run := if sandboxId in f.runs then Longer(f.runs[sandboxId], Decode(part.dataBase64), clock, |f.frames| - 1) else FileRun(0, "", 0, 0, 0, [], 0, 0, []);
    CompletedRuns(sha256, f.(runs := f.runs - {sandboxId}), sandboxId, run, part);
  }

  lemma CompletedRuns(sha256: Digest, f: Files, sandboxId: SandboxId, run: FileRun, part: FilePart)
    ensures Completed(sha256, f, sandboxId, run, part).runs == f.runs
  {
    hide InFlight, EndAll;
  }

  /** The upload a frame names has a run in progress now, or was answered just now
      without one. */
  ghost predicate Attended(f: Files, g: Files, sandboxId: SandboxId, uploadId: string) {
    || (sandboxId in g.runs && g.runs[sandboxId].uploadId == uploadId)
    || (exists why :: g.strays == f.strays + [Stray(sandboxId, uploadId, why)])
    || (exists id: nat :: EndedOrUploading(f, g, sandboxId, uploadId, id))
  }

  /** A run of the upload, from before or begun by this frame, was answered by it or
      is being uploaded since. */
  ghost predicate EndedOrUploading(f: Files, g: Files, sandboxId: SandboxId, uploadId: string, id: nat) {
    && (id >= f.begun || (sandboxId in f.runs && f.runs[sandboxId].id == id && f.runs[sandboxId].uploadId == uploadId))
    && EndsOf(f.ends, id) == [] && id !in f.uploads
    && (EndsOf(g.ends, id) != [] || id in g.uploads)
  }

  lemma CompletedEnds(sha256: Digest, f: Files, sandboxId: SandboxId, run: FileRun, part: FilePart)
    ensures var g := Completed(sha256, f, sandboxId, run, part);
            (EndsOf(g.ends, run.id) != [] || run.id in g.uploads) && g.runs == f.runs
  {
    hide InFlight, EndAll, EndsOf;
    EndedOnce(f.ends, {run.id}, Refused(TooShort), run.id);
    EndedOnce(f.ends, {run.id}, Refused(BadChecksum), run.id);
    EndedOnce(f.ends, {run.id}, Refused(TooManyInFlight), run.id);
  }

  lemma TakenAttends(sha256: Digest, f: Files, sandboxId: SandboxId, part: FilePart, clock: int)
    requires Fates(f) && f.frames != []
    ensures Attended(f, Taken(sha256, f, sandboxId, part, clock), sandboxId, part.header.uploadId)
  {
    hide Fates, Decode, Completed, EndAll, EndsOf;
    var g := Taken(sha256, f, sandboxId, part, clock);
    if sandboxId in f.runs {
      var id := f.runs[sandboxId].id;
      Alone(f, sandboxId);
      EndedOnce(f.ends, {id}, Refused(OutOfOrder), id);
      EndedOnce(f.ends, {id}, Refused(TooLong), id);
      var run := Longer(f.runs[sandboxId], Decode(part.dataBase64), clock, |f.frames| - 1);
      CompletedEnds(sha256, f.(runs := f.runs - {sandboxId}), sandboxId, run, part);
      if f.runs[sandboxId].uploadId == part.header.uploadId && !(sandboxId in g.runs) {
        assert EndedOrUploading(f, g, sandboxId, part.header.uploadId, id);
      }
    }
    if !(sandboxId in f.runs && f.runs[sandboxId].uploadId == part.header.uploadId) {
      assert g.strays == f.strays + [Stray(sandboxId, part.header.uploadId, OutOfOrder)];
    }
  }

  /** After any run, the upload named by a frame that comes in is never left
      waiting: its run goes on, or it gets its answer, or it is being uploaded. */
  lemma NoneLeftWaiting(sha256: Digest, ops: seq<Op>, sandboxId: SandboxId, part: FilePart, clock: int)
    requires Possible(sha256, NoFiles, ops)
    ensures var f := Run(sha256, NoFiles, ops);
            Attended(Noted(f, sandboxId, part, clock), Arrived(sha256, f, sandboxId, part, clock), sandboxId, part.header.uploadId)
  {
    hide Run, Possible, Fates, Taken, EndAll, EndsOf, Swept, EndedOrUploading;
    RunKeeps(sha256, ops);
    var f := Run(sha256, NoFiles, ops);
    var g := Noted(f, sandboxId, part, clock);
    NotedFates(f, sandboxId, part, clock);
    if part.part != 1 {
      TakenAttends(sha256, g, sandboxId, part, clock);
    } else if part.header.sizeBytes <= MAX_OUTBOUND_ATTACHMENT_BYTES {
      var h := Abandoned(g, sandboxId, Superseded);
      AbandonedFates(g, sandboxId, Superseded);
      GoneFrom(g, sandboxId, Superseded);
      BegunFates(h, sandboxId, part, clock);
      var b := Begun(h, sandboxId, part, clock);
      TakenAttends(sha256, b, sandboxId, part, clock);
      BegunAttends(g, h, b, Taken(sha256, b, sandboxId, part, clock), sandboxId, part, clock);
    } else {
      var h := Abandoned(g, sandboxId, Superseded);
      assert Strayed(h, sandboxId, part.header.uploadId, TooBig).strays == g.strays + [Stray(sandboxId, part.header.uploadId, TooBig)];
    }
  }

  lemma BegunAttends(g: Files, h: Files, b: Files, t: Files, sandboxId: SandboxId, part: FilePart, clock: int)
    requires Fates(g) && h == Abandoned(g, sandboxId, Superseded) && b == Begun(h, sandboxId, part, clock)
    requires Attended(b, t, sandboxId, part.header.uploadId)
    ensures Attended(g, t, sandboxId, part.header.uploadId)
  {
    hide EndAll, EndsOf;
    if id: nat :| EndedOrUploading(b, t, sandboxId, part.header.uploadId, id) {
      assert OneFate(g, id);
      assert g.begun <= id;
      assert EndedOrUploading(g, t, sandboxId, part.header.uploadId, id);
    }
  }
}
