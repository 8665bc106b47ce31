/** The assembler as the closure the source runs (apps/runner/src/supervisor-messages.ts:300-485). */
module FilePartsObject {
  import opened Bytes
  import opened Base64
  import opened Spec = FileParts

  /** Ending one more run. */
  lemma EndOneMore(ends: map<nat, seq<Ending>>, ids: set<nat>, id: nat, e: Ending)
    requires id !in ids
    ensures EndAll(EndAll(ends, ids, e), {id}, e) == EndAll(ends, ids + {id}, e)
  {
    var a, b := EndAll(EndAll(ends, ids, e), {id}, e), EndAll(ends, ids + {id}, e);
    assert a.Keys == b.Keys;
  }

  /** The ids of the stale runs among some sandboxes. */
  ghost function StaleIn(runs: map<SandboxId, FileRun>, done: set<SandboxId>, clock: int): set<nat> {
    set x | x in done && x in runs && IsStale(runs[x], clock) :: runs[x].id
  }

  lemma StaleOneMore(runs: map<SandboxId, FileRun>, done: set<SandboxId>, clock: int, x: SandboxId)
    requires Distinct(runs) && x in runs && x !in done
    ensures IsStale(runs[x], clock) ==> StaleIn(runs, done + {x}, clock) == StaleIn(runs, done, clock) + {runs[x].id}
    ensures !IsStale(runs[x], clock) ==> StaleIn(runs, done + {x}, clock) == StaleIn(runs, done, clock)
    ensures runs[x].id !in StaleIn(runs, done, clock)
  {
    hide IsStale;
  }

  lemma StaleAll(runs: map<SandboxId, FileRun>, clock: int)
    ensures StaleIn(runs, runs.Keys, clock) == StaleRuns(runs, clock) && StaleIn(runs, {}, clock) == {}
  {
  }

  class FileAssembler {
    var frames: seq<Arrival>
    var fileRuns: map<SandboxId, FileRun>
    var begun: nat
    var ends: map<nat, seq<Ending>>
    var strays: seq<Stray>
    var inflightUploads: map<SandboxId, nat>
    var uploads: map<nat, SandboxId>
    var relays: seq<Relay>
    const sha256: Digest

    ghost function State(): Files
      reads this
    {
      Files(frames, fileRuns, begun, ends, strays, inflightUploads, uploads, relays)
    }

    constructor (sha256: Digest)
      ensures State() == NoFiles && this.sha256 == sha256
    {
      this.sha256 := sha256;
      frames, fileRuns, begun, ends, strays, inflightUploads, uploads, relays := [], map[], 0, map[], [], map[], map[], [];
    }

    /** The one `file.result` that ends a run. */
    method FileResult(id: nat, e: Ending)
      modifies this`ends
      ensures State() == Ended(old(State()), id, e)
    {
      var soFar := if id in ends then ends[id] else [];
      var was := ends;
      ends := ends[id := soFar + [e]];
      assert ends.Keys == EndAll(was, {id}, e).Keys;
    }

    method AbandonRun(sandboxId: SandboxId, why: Reason)
      modifies this`fileRuns, this`ends
      ensures State() == Abandoned(old(State()), sandboxId, why)
    {
      hide EndAll;
      if sandboxId !in fileRuns { return; }
      var run := fileRuns[sandboxId];
      fileRuns := fileRuns - {sandboxId};
      FileResult(run.id, Refused(why));
    }

    /** Drop every run whose last part is too long ago. */
    method Sweep(clock: int)
      requires Distinct(fileRuns)
      modifies this`fileRuns, this`ends
      ensures State() == Swept(old(State()), clock)
    {
      hide EndAll, IsStale, StaleIn;
      ghost var runs := fileRuns;
      var todo := fileRuns.Keys;
      ghost var done: set<SandboxId> := {};
      NoneEnded(ends);
      StaleAll(runs, clock);
      while todo != {}
        invariant todo !! done && todo + done == runs.Keys
        invariant forall x :: x in fileRuns <==> x in runs && !(x in done && IsStale(runs[x], clock))
        invariant forall x :: x in fileRuns ==> fileRuns[x] == runs[x]
        invariant ends == EndAll(old(ends), StaleIn(runs, done, clock), Refused(Stalled))
        invariant State() == old(State()).(runs := fileRuns, ends := ends)
        decreases todo
      {
        var other :| other in todo;
        var run := fileRuns[other];
        StaleOneMore(runs, done, clock, other);
        EndOneMore(old(ends), StaleIn(runs, done, clock), run.id, Refused(Stalled));
        todo, done := todo - {other}, done + {other};
        if IsStale(run, clock) { AbandonRun(other, Stalled); }
      }
      assert fileRuns == FreshRuns(runs, clock);
    }

    method RelayFile(relay: Relay)
      modifies this
      ensures State() == Relayed(old(State()), relay)
    {
      hide EndAll;
      var inflight := if relay.sandboxId in inflightUploads then inflightUploads[relay.sandboxId] else 0;
      if inflight >= MAX_INFLIGHT_FILE_UPLOADS_PER_SANDBOX {
        FileResult(relay.run, Refused(TooManyInFlight));
        return;
      }
      inflightUploads := inflightUploads[relay.sandboxId := inflight + 1];
      uploads := uploads[relay.run := relay.sandboxId];
      relays := relays + [relay];
    }

    /** The upload came back, or failed: its run is answered either way. */
    method UploadSettled(id: nat, ok: bool)
      requires id in uploads
      modifies this
      ensures State() == Uploaded(old(State()), id, ok)
    {
      hide EndAll;
      var sandboxId := uploads[id];
      uploads := uploads - {id};
      var held: int := if sandboxId in inflightUploads then inflightUploads[sandboxId] else 1;
      var remaining := held - 1;
      if remaining <= 0 {
        inflightUploads := inflightUploads - {sandboxId};
      } else {
        inflightUploads := inflightUploads[sandboxId := remaining];
      }
      FileResult(id, Answered(ok));
    }

    /** The final part is in: check the whole, then hand it on. */
    method Complete(sandboxId: SandboxId, run: FileRun, part: FilePart)
      modifies this
      ensures State() == Completed(sha256, old(State()), sandboxId, run, part)
    {
      hide EndAll, Relayed;
      var bytes := Concat(run.chunks);
      if |bytes| != part.header.sizeBytes {
        FileResult(run.id, Refused(TooShort));
      } else if sha256(bytes) != part.header.sha256 {
        FileResult(run.id, Refused(BadChecksum));
      } else {
        RelayFile(Relay(run.id, sandboxId, part.header, bytes, run.got));
      }
    }

    method TakePart(sandboxId: SandboxId, part: FilePart, clock: int)
      requires frames != []
      modifies this
      ensures State() == Taken(sha256, old(State()), sandboxId, part, clock)
    {
      hide EndAll, Completed, Decode;
      if sandboxId !in fileRuns || fileRuns[sandboxId].uploadId != part.header.uploadId
         || fileRuns[sandboxId].nextPart != part.part || fileRuns[sandboxId].of != part.of
      {
        var mine := sandboxId in fileRuns && fileRuns[sandboxId].uploadId == part.header.uploadId;
        AbandonRun(sandboxId, OutOfOrder);
        if !mine { strays := strays + [Stray(sandboxId, part.header.uploadId, OutOfOrder)]; }
        return;
      }
      var run := fileRuns[sandboxId];
      var chunk := Decode(part.dataBase64);
      run := run.(total := run.total + |chunk|);
      if run.total > run.sizeBytes {
        AbandonRun(sandboxId, TooLong);
        return;
      }
      run := run.(chunks := run.chunks + [chunk], nextPart := run.nextPart + 1, lastPartAt := clock,
                  got := run.got + [|frames| - 1]);
      if part.part < part.of {
        fileRuns := fileRuns[sandboxId := run];
        return;
      }
      fileRuns := fileRuns - {sandboxId};
      Complete(sandboxId, run, part);
    }

    method ApplyFilePart(sandboxId: SandboxId, part: FilePart, clock: int)
      requires Distinct(fileRuns)
      modifies this
      ensures State() == Arrived(sha256, old(State()), sandboxId, part, clock)
    {
      hide EndAll, Taken, StaleRuns, FreshRuns;
      frames := frames + [Arrival(sandboxId, part)];
      Sweep(clock);
      if part.part == 1 {
        AbandonRun(sandboxId, Superseded);
        if part.header.sizeBytes > MAX_OUTBOUND_ATTACHMENT_BYTES {
          strays := strays + [Stray(sandboxId, part.header.uploadId, TooBig)];
          return;
        }
        fileRuns := fileRuns[sandboxId := FileRun(begun, part.header.uploadId, 1, part.of, part.header.sizeBytes, [], 0, clock, [])];
        begun := begun + 1;
      }
      TakePart(sandboxId, part, clock);
    }
  }

  lemma NoneEnded(ends: map<nat, seq<Ending>>)
    ensures EndAll(ends, {}, Refused(Stalled)) == ends
  {
    assert EndAll(ends, {}, Refused(Stalled)).Keys == ends.Keys;
  }
}
