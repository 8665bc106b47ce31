/** Which `file.result` every frame and every upload that comes back leaves, and why. */
module FileAnswers {
  import opened Bytes
  import opened Base64
  import opened FileParts

  /** Why a run with this much in it is refused on the part that came in for it, if
      it is. */
  function PartAnswer(sha256: Digest, run: FileRun, part: FilePart, inflight: nat): seq<Ending> {
    var chunk := Decode(part.dataBase64);
    if (part.header.uploadId, part.part, part.of) != (run.uploadId, run.nextPart, run.of) then [Refused(OutOfOrder)]
    else if run.total + |chunk| > run.sizeBytes then [Refused(TooLong)]
    else if part.part < part.of then []
    else WholeAnswer(sha256, Concat(run.chunks) + chunk, part, inflight)
  }

  /** What is said of a whole that is in. */
  function WholeAnswer(sha256: Digest, bytes: seq<byte>, part: FilePart, inflight: nat): seq<Ending> {
    if |bytes| != part.header.sizeBytes then [Refused(TooShort)]
    else if sha256(bytes) != part.header.sha256 then [Refused(BadChecksum)]
    else if inflight >= 2 then [Refused(TooManyInFlight)]
    else []
  }

  ghost predicate HasStalled(f: Files, id: nat, clock: int) {
    exists x :: x in f.runs && f.runs[x].id == id && clock - f.runs[x].lastPartAt > 60000
  }

  /** The answers a step leaves a run. */
  ghost function AnswersOf(sha256: Digest, f: Files, op: Op, id: nat): seq<Ending> {
    match op
    case UploadSettles(run, ok) => if id == run then [Answered(ok)] else []
    case Arrives(sandboxId, part, clock) =>
      if HasStalled(f, id, clock) then [Refused(Stalled)]
      else if sandboxId in f.runs && f.runs[sandboxId].id == id then
        if part.part == 1 then [Refused(Superseded)]
        else PartAnswer(sha256, f.runs[sandboxId], part, |UploadsOf(f.uploads, sandboxId)|)
      else if id == f.begun && part.part == 1 && part.header.sizeBytes <= 26214400 then
        PartAnswer(sha256, FirstOf(id, part, clock), part, |UploadsOf(f.uploads, sandboxId)|)
      else []
  }

  /** A run that awaits this part first. */
  function FirstOf(id: nat, part: FilePart, clock: int): FileRun {
    FileRun(id, part.header.uploadId, 1, part.of, part.header.sizeBytes, [], 0, clock, [])
  }

  /** The refusals of a part that belongs to no run. */
  ghost function StraysOf(f: Files, op: Op): seq<Stray> {
    if op.UploadSettles? then []
    else if op.part.part == 1 then
      if op.part.header.sizeBytes > 26214400 then [Stray(op.sandboxId, op.part.header.uploadId, TooBig)] else []
    else if op.sandboxId in f.runs && f.runs[op.sandboxId].uploadId == op.part.header.uploadId
            && op.clock - f.runs[op.sandboxId].lastPartAt <= 60000 then []
    else [Stray(op.sandboxId, op.part.header.uploadId, OutOfOrder)]
  }

  // ---------------------------------------------------------------- one step

  lemma SweptAnswers(f: Files, clock: int, id: nat)
    ensures EndsOf(Swept(f, clock).ends, id) == EndsOf(f.ends, id) + if HasStalled(f, id, clock) then [Refused(Stalled)] else []
  {
    EndedOnce(f.ends, StaleRuns(f.runs, clock), Refused(Stalled), id);
    hide EndAll, EndsOf;
  }

  lemma AbandonedAnswers(f: Files, sandboxId: SandboxId, why: Reason, id: nat)
    ensures EndsOf(Abandoned(f, sandboxId, why).ends, id)
         == EndsOf(f.ends, id) + if sandboxId in f.runs && f.runs[sandboxId].id == id then [Refused(why)] else []
  {
    if sandboxId in f.runs { EndedOnce(f.ends, {f.runs[sandboxId].id}, Refused(why), id); }
    hide EndAll, EndsOf;
  }

  lemma EndedAnswers(f: Files, run: nat, e: Ending, id: nat)
    ensures EndsOf(Ended(f, run, e).ends, id) == EndsOf(f.ends, id) + if id == run then [e] else []
    ensures Ended(f, run, e).strays == f.strays
  {
    EndedOnce(f.ends, {run}, e, id);
    hide EndAll, EndsOf;
  }

  lemma CompletedAnswers(sha256: Digest, f: Files, sandboxId: SandboxId, run: FileRun, part: FilePart, id: nat)
    ensures var g := Completed(sha256, f, sandboxId, run, part);
            && g.strays == f.strays
            && EndsOf(g.ends, id) == EndsOf(f.ends, id)
                 + if id == run.id then WholeAnswer(sha256, Concat(run.chunks), part, InFlight(f, sandboxId)) else []
  {
    EndedAnswers(f, run.id, Refused(TooShort), id);
    EndedAnswers(f, run.id, Refused(BadChecksum), id);
    EndedAnswers(f, run.id, Refused(TooManyInFlight), id);
    hide Ended, EndsOf, InFlight;
  }

  lemma SameCount(f: Files, g: Files, sandboxId: SandboxId)
    requires f.inflight == g.inflight
    ensures InFlight(f, sandboxId) == InFlight(g, sandboxId)
  {
  }

  lemma TakenAnswers(sha256: Digest, f: Files, sandboxId: SandboxId, part: FilePart, clock: int, id: nat)
    requires f.frames != []
    ensures var g := Taken(sha256, f, sandboxId, part, clock);
            && EndsOf(g.ends, id) == EndsOf(f.ends, id)
                 + (if sandboxId in f.runs && f.runs[sandboxId].id == id
                    then PartAnswer(sha256, f.runs[sandboxId], part, InFlight(f, sandboxId)) else [])
            && g.strays == f.strays
                 + if sandboxId in f.runs && f.runs[sandboxId].uploadId == part.header.uploadId then []
                   else [Stray(sandboxId, part.header.uploadId, OutOfOrder)]
  {
    hide EndAll, EndsOf, Decode, Completed, InFlight;
    AbandonedAnswers(f, sandboxId, OutOfOrder, id);
    AbandonedAnswers(f, sandboxId, TooLong, id);
    if Continues(f, sandboxId, part) {
      var run := Longer(f.runs[sandboxId], Decode(part.dataBase64), clock, |f.frames| - 1);
      var left := f.(runs := f.runs - {sandboxId});
      CompletedAnswers(sha256, left, sandboxId, run, part, id);
      assert run.chunks[..|run.chunks| - 1] == f.runs[sandboxId].chunks;
      assert InFlight(left, sandboxId) == InFlight(f, sandboxId) by { SameCount(left, f, sandboxId); }
    }
  }

  /** The run of a sandbox once a frame is noted: as before, unless it stalled. */
  lemma NotedRun(f: Files, sandboxId: SandboxId, part: FilePart, clock: int)
    ensures var g := Noted(f, sandboxId, part, clock);
            && g.frames != [] && g.strays == f.strays && g.inflight == f.inflight && g.begun == f.begun
            && (sandboxId in g.runs <==> sandboxId in f.runs && clock - f.runs[sandboxId].lastPartAt <= 60000)
            && (sandboxId in g.runs ==> g.runs[sandboxId] == f.runs[sandboxId])
  {
    hide EndAll, StaleRuns;
  }

  lemma NotedAnswers(f: Files, sandboxId: SandboxId, part: FilePart, clock: int, id: nat)
    ensures EndsOf(Noted(f, sandboxId, part, clock).ends, id)
         == EndsOf(f.ends, id) + if HasStalled(f, id, clock) then [Refused(Stalled)] else []
  {
    hide EndsOf, Swept;
    var more := f.(frames := f.frames + [Arrival(sandboxId, part)]);
    SweptAnswers(more, clock, id);
    assert HasStalled(more, id, clock) <==> HasStalled(f, id, clock);
  }

  lemma OwnStalled(f: Files, sandboxId: SandboxId, clock: int)
    requires Distinct(f.runs) && sandboxId in f.runs
    ensures HasStalled(f, f.runs[sandboxId].id, clock) <==> clock - f.runs[sandboxId].lastPartAt > 60000
  {
  }

  lemma NewId(f: Files, clock: int, x: SandboxId)
    requires Fates(f)
    ensures !HasStalled(f, f.begun, clock) && (x in f.runs ==> f.runs[x].id != f.begun)
  {
    hide EndsOf;
    assert OneFate(f, f.begun);
    assert f.begun !in InProgress(f.runs);
  }

  lemma ArrivedAnswers(sha256: Digest, f: Files, op: Op, id: nat)
    requires Fates(f) && InFlightKept(f) && op.Arrives?
    ensures var g := Arrived(sha256, f, op.sandboxId, op.part, op.clock);
            && EndsOf(g.ends, id) == EndsOf(f.ends, id) + AnswersOf(sha256, f, op, id)
            && g.strays == f.strays + StraysOf(f, op)
  {
    var sandboxId, part, clock := op.sandboxId, op.part, op.clock;
    var g := Noted(f, sandboxId, part, clock);
    NotedRun(f, sandboxId, part, clock);
    NotedAnswers(f, sandboxId, part, clock, id);
    NewId(f, clock, sandboxId);
    if sandboxId in f.runs { OwnStalled(f, sandboxId, clock); }
    assert InFlight(f, sandboxId) == |UploadsOf(f.uploads, sandboxId)|;
    SameCount(g, f, sandboxId);
    hide Fates, InFlightKept, Noted, Taken, EndAll, EndsOf, Decode, PartAnswer, InFlight, HasStalled, UploadsOf;
    if part.part != 1 {
      TakenAnswers(sha256, g, sandboxId, part, clock, id);
    } else {
      FirstAnswers(sha256, f, g, sandboxId, part, clock, id);
    }
  }

  /** A first part: the run before it, if any, is superseded. */
  lemma FirstAnswers(sha256: Digest, f: Files, g: Files, sandboxId: SandboxId, part: FilePart, clock: int, id: nat)
    requires part.part == 1 && g == Noted(f, sandboxId, part, clock)
    ensures var after := Arrived(sha256, f, sandboxId, part, clock);
            && EndsOf(after.ends, id) == EndsOf(g.ends, id)
                 + (if sandboxId in g.runs && g.runs[sandboxId].id == id then [Refused(Superseded)] else [])
                 + (if part.header.sizeBytes <= 26214400 && id == g.begun
                    then PartAnswer(sha256, FirstOf(id, part, clock), part, InFlight(g, sandboxId)) else [])
            && after.strays == g.strays
                 + if part.header.sizeBytes > 26214400 then [Stray(sandboxId, part.header.uploadId, TooBig)] else []
  {
    hide Noted, Taken, EndAll, EndsOf, Decode, PartAnswer, InFlight;
    NotedRun(f, sandboxId, part, clock);
    var h := Abandoned(g, sandboxId, Superseded);
    AbandonedAnswers(g, sandboxId, Superseded, id);
    if part.header.sizeBytes <= MAX_OUTBOUND_ATTACHMENT_BYTES {
      var b := Begun(h, sandboxId, part, clock);
      SameCount(b, g, sandboxId);
      TakenAnswers(sha256, b, sandboxId, part, clock, id);
    }
  }

  /** From any state that keeps the books, what each step answers, and whom. */
  lemma StepAnswers(sha256: Digest, f: Files, op: Op, id: nat)
    requires Keeps(sha256, f) && Legal(f, op)
    ensures var g := Step(sha256, f, op);
            && EndsOf(g.ends, id) == EndsOf(f.ends, id) + AnswersOf(sha256, f, op, id)
            && g.strays == f.strays + StraysOf(f, op)
  {
    match op
    case Arrives(sandboxId, part, clock) => ArrivedAnswers(sha256, f, op, id);
    case UploadSettles(run, ok) => EndedOnce(f.ends, {run}, Answered(ok), id);
  }

  // ---------------------------------------------------------------- whole runs

  lemma OnlyUploadsAnswer(sha256: Digest, f: Files, op: Op, id: nat, ok: bool)
    requires AnswersOf(sha256, f, op, id) == [Answered(ok)]
    ensures op == UploadSettles(id, ok)
  {
    hide HasStalled, Decode;
  }

  lemma OneAtMost(sha256: Digest, f: Files, id: nat)
    requires Keeps(sha256, f)
    ensures |EndsOf(f.ends, id)| <= 1 && (id in f.uploads ==> EndsOf(f.ends, id) == [])
  {
    hide EndsOf, InProgress, RunsKept, AllWhole, RelaysAgree, InFlightKept;
    assert OneFate(f, id);
  }

  lemma AnsweredNext(sha256: Digest, f: Files, op: Op, id: nat, ok: bool)
    requires Keeps(sha256, f) && Legal(f, op)
    ensures EndsOf(Step(sha256, f, op).ends, id) == [Answered(ok)] <==> EndsOf(f.ends, id) == [Answered(ok)] || op == UploadSettles(id, ok)
  {
    hide Keeps, EndsOf, Step, HasStalled;
    StepAnswers(sha256, f, op, id);
    StepKeeps(sha256, f, op);
    OneAtMost(sha256, f, id);
    OneAtMost(sha256, Step(sha256, f, op), id);
    if AnswersOf(sha256, f, op, id) == [Answered(ok)] { OnlyUploadsAnswer(sha256, f, op, id, ok); }
  }

  /** A run is told that its file was sent, or was not, exactly when its upload came
      back so. */
  lemma {:induction false} AnsweredAsUploaded(sha256: Digest, ops: seq<Op>, id: nat, ok: bool)
    requires Possible(sha256, NoFiles, ops)
    ensures EndsOf(Run(sha256, NoFiles, ops).ends, id) == [Answered(ok)] <==> UploadSettles(id, ok) in ops
  {
    hide Keeps, Step, Legal;
    if ops != [] {
      var before, op := ops[..|ops| - 1], ops[|ops| - 1];
      AnsweredAsUploaded(sha256, before, id, ok);
      RunKeeps(sha256, before);
      AnsweredNext(sha256, Run(sha256, NoFiles, before), op, id, ok);
      assert ops == before + [op];
    }
  }
}
