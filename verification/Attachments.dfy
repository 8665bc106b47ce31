/** A file's bytes as ordered frames (apps/runner/src/attachments.ts:15-44); the
    supervisor frames the files it sends the same way
    (apps/sandbox-supervisor/src/capabilities/send-file.ts:302-326). */
module Attachments {
  import opened Wrappers
  import opened Bytes
  import opened Base64

  const ATTACHMENT_CHUNK_RAW_BYTES: nat := 144000
  const ATTACHMENT_CHUNK_BASE64_CHARS: nat := 192000

  type Positive = x: nat | 1 <= x witness 1

  datatype ManifestEntry = ManifestEntry(id: string, path: string, name: string, mimeType: string, sizeBytes: nat, sha256: string)

  /** What every part of a file repeats, and the part itself. */
  datatype AttachmentHeader = AttachmentHeader(turnId: string, entry: ManifestEntry)
  datatype FileHeader = FileHeader(
    uploadId: string, conversationId: string, turnId: string, name: string, mimeType: string,
    sizeBytes: nat, sha256: string, caption: Option<string>, purpose: Option<string>)
  datatype Part<H> = Part(header: H, part: Positive, of: Positive, dataBase64: string)

  function PartCount(size: nat): Positive {
    Max(1, (size + ATTACHMENT_CHUNK_RAW_BYTES - 1) / ATTACHMENT_CHUNK_RAW_BYTES)
  }

  /** The bytes of the parts before part `k + 1`. */
  function Before(bytes: seq<byte>, k: nat): seq<byte> {
    bytes[..Min(k * ATTACHMENT_CHUNK_RAW_BYTES, |bytes|)]
  }

  function Chunk(bytes: seq<byte>, k: nat): seq<byte> {
    bytes[Min(k * ATTACHMENT_CHUNK_RAW_BYTES, |bytes|)..Min((k + 1) * ATTACHMENT_CHUNK_RAW_BYTES, |bytes|)]
  }

  function PartOf<H>(header: H, bytes: seq<byte>, k: nat): Part<H> {
    Part(header, k + 1, PartCount(|bytes|), Encode(Chunk(bytes, k)))
  }

  function PartFrames<H>(header: H, bytes: seq<byte>): seq<Part<H>> {
    seq(PartCount(|bytes|), k requires 0 <= k => PartOf(header, bytes, k))
  }

  method FramesOf<H>(header: H, bytes: seq<byte>) returns (frames: seq<Part<H>>)
    ensures frames == PartFrames(header, bytes)
  {
    hide Encode, PartCount;
    var of := PartCount(|bytes|);
    frames := [];
    for part := 1 to of + 1
      invariant frames == PartFrames(header, bytes)[..part - 1]
    {
      var start := (part - 1) * ATTACHMENT_CHUNK_RAW_BYTES;
      var piece := bytes[Min(start, |bytes|)..Min(start + ATTACHMENT_CHUNK_RAW_BYTES, |bytes|)];
      frames := frames + [Part(header, part, of, Encode(piece))];
    }
  }

  method AttachmentPartFrames(turnId: string, entry: ManifestEntry, bytes: seq<byte>) returns (frames: seq<Part<AttachmentHeader>>)
    ensures frames == PartFrames(AttachmentHeader(turnId, entry), bytes)
  {
    frames := FramesOf(AttachmentHeader(turnId, entry), bytes);
  }

  // ---------------------------------------------------------------- what the frames carry

  function Texts<H>(frames: seq<Part<H>>): seq<string> {
    if frames == [] then [] else Texts(frames[..|frames| - 1]) + [frames[|frames| - 1].dataBase64]
  }

  function Payloads<H>(frames: seq<Part<H>>): seq<seq<byte>> {
    if frames == [] then [] else Payloads(frames[..|frames| - 1]) + [Decode(frames[|frames| - 1].dataBase64)]
  }

  lemma BeforeNext(bytes: seq<byte>, k: nat)
    ensures Before(bytes, k + 1) == Before(bytes, k) + Chunk(bytes, k)
    ensures k < PartCount(|bytes|) ==> |Before(bytes, k)| == k * ATTACHMENT_CHUNK_RAW_BYTES
    ensures Before(bytes, PartCount(|bytes|)) == bytes && Before(bytes, 0) == []
  {
  }

  lemma ChunkGroups(k: nat)
    ensures k * ATTACHMENT_CHUNK_RAW_BYTES % 3 == 0
  {
    assert k * ATTACHMENT_CHUNK_RAW_BYTES == 3 * (k * 48000);
  }

  /** Every part but the last holds whole groups of three bytes. */
  lemma WholeGroups(bytes: seq<byte>, k: nat)
    requires k < PartCount(|bytes|)
    ensures |Before(bytes, k)| % 3 == 0
  {
    hide Before, PartCount;
    BeforeNext(bytes, k);
    ChunkGroups(k);
  }

  lemma OneMoreFrame<H>(frames: seq<Part<H>>, k: nat)
    requires k < |frames|
    ensures Concat(Payloads(frames[..k + 1])) == Concat(Payloads(frames[..k])) + Decode(frames[k].dataBase64)
    ensures Concat(Texts(frames[..k + 1])) == Concat(Texts(frames[..k])) + frames[k].dataBase64
  {
    hide Decode;
    assert frames[..k + 1][..k] == frames[..k];
    var payloads, texts := Payloads(frames[..k + 1]), Texts(frames[..k + 1]);
    assert payloads[..|payloads| - 1] == Payloads(frames[..k]);
    assert texts[..|texts| - 1] == Texts(frames[..k]);
  }

  lemma {:induction false} PayloadsUpTo<H>(header: H, bytes: seq<byte>, k: nat)
    requires k <= PartCount(|bytes|)
    ensures Concat(Payloads(PartFrames(header, bytes)[..k])) == Before(bytes, k)
    ensures Concat(Texts(PartFrames(header, bytes)[..k])) == Encode(Before(bytes, k))
  {
    hide Encode, Decode, PartCount, Before, Chunk;
    BeforeNext(bytes, 0);
    var frames := PartFrames(header, bytes);
    if k == 0 {
      EncodeNothing();
      assert frames[..0] == [];
    } else {
      WholeGroups(bytes, k - 1);
      PayloadsUpTo(header, bytes, k - 1);
      OneMoreFrame(frames, k - 1);
      DecodeEncode(Chunk(bytes, k - 1));
      BeforeNext(bytes, k - 1);
      EncodeAppend(Before(bytes, k - 1), Chunk(bytes, k - 1));
    }
  }

  lemma EncodeNothing()
    ensures Encode([]) == ""
  {
  }

  /** The parts are numbered 1 to their count, each within the chunk size and the
      wire's limit; their payloads concatenate to the bytes and, since the chunk
      size is divisible by 3, their texts to the base64 of the whole. */
  lemma FramesCarryBytes<H>(header: H, bytes: seq<byte>)
    ensures var frames := PartFrames(header, bytes);
            && |frames| == PartCount(|bytes|)
            && (forall k :: 0 <= k < |frames| ==>
                  && frames[k].header == header && frames[k].part == k + 1 && frames[k].of == |frames|
                  && |Decode(frames[k].dataBase64)| <= ATTACHMENT_CHUNK_RAW_BYTES
                  && |frames[k].dataBase64| <= ATTACHMENT_CHUNK_BASE64_CHARS
                  && (bytes != [] ==> frames[k].dataBase64 != ""))
            && Concat(Payloads(frames)) == bytes
            && Concat(Texts(frames)) == Encode(bytes)
  {
    hide Encode, Decode, Payloads, Texts;
    var frames := PartFrames(header, bytes);
    PayloadsUpTo(header, bytes, |frames|);
    assert frames[..|frames|] == frames;
    BeforeNext(bytes, 0);
    forall k | 0 <= k < |frames|
      ensures |Decode(frames[k].dataBase64)| <= ATTACHMENT_CHUNK_RAW_BYTES
      ensures |frames[k].dataBase64| <= ATTACHMENT_CHUNK_BASE64_CHARS
      ensures bytes != [] ==> frames[k].dataBase64 != ""
    {
      DecodeEncode(Chunk(bytes, k));
      EncodeLength(Chunk(bytes, k));
    }
  }
}
