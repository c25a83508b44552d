/** The CMTRK1/CMTRK2 container as a value: what `finish` writes, what the reader and the indexer
    make of any byte string.  Serialisation of one entry is an abstract codec. */
module Container {
  import opened Model

  type Byte = b: int | 0 <= b < 256

  const U32_LIMIT: int := 0x1_0000_0000

  datatype Version = V1 | V2

  datatype Manifest = Manifest(recordingId: Uuid, scene: Uuid, started: nat, stopped: nat, frameCount: nat)

  datatype RecordedAttribute = RecordedAttribute(obj: Uuid, attribute: string, value: AttributeValue)

  datatype Frame = Frame(timestamp: nat, mode: Mode, attributes: seq<RecordedAttribute>)

  /** A mapping's source, target and mask. */
  datatype Wiring = Wiring(sourceDevice: Uuid, sourceOutput: string, target: Address, mask: Mask)

  datatype Marker =
    | ModeTransition(timestamp: nat, from: Mode, to: Mode)
    | MappingCreated(timestamp: nat, id: Uuid, wiring: Wiring)
    | MappingUpdated(timestamp: nat, id: Uuid, wiring: Wiring)
    | MappingRemoved(timestamp: nat, id: Uuid)
    | MappingLockSet(timestamp: nat, id: Uuid, lock: bool)

  datatype RecordingError = UnexpectedEof | Encoding | InvalidFormat

  datatype Codec<!T> = Codec(encode: T -> seq<Byte>, decode: seq<Byte> -> Option<T>)

  datatype Codecs = Codecs(manifest: Codec<Manifest>, markers: Codec<seq<Marker>>, frame: Codec<Frame>)

  /** Decoding gives this value back: all that is asked of the serialiser, and only of values written. */
  predicate Lawful<T(==)>(c: Codec<T>, x: T) {
    c.decode(c.encode(x)) == Some(x)
  }

  // ----- The writer's state -----

  datatype Writer = Writer(manifest: Manifest, frames: seq<Frame>, markers: seq<Marker>, version: Version)

  function StartWriter(recordingId: Uuid, scene: Uuid, started: nat, version: Version): Writer {
    Writer(Manifest(recordingId, scene, started, started, 0), [], [], version)
  }

  function PushFrame(w: Writer, frame: Frame): Writer {
    w.(manifest := w.manifest.(stopped := frame.timestamp, frameCount := |w.frames| + 1), frames := w.frames + [frame])
  }

  function PushMarker(w: Writer, marker: Marker): Writer {
    if w.version == V2 then w.(markers := w.markers + [marker]) else w
  }

  /** What starting and pushing guarantee. */
  predicate WriterValid(w: Writer) {
    w.manifest.frameCount == |w.frames| && (w.version == V1 ==> w.markers == [])
  }

  lemma WriterStaysValid(w: Writer, id: Uuid, scene: Uuid, started: nat, version: Version, frame: Frame, marker: Marker)
    ensures WriterValid(StartWriter(id, scene, started, version))
    ensures WriterValid(w) ==> WriterValid(PushFrame(w, frame)) && WriterValid(PushMarker(w, marker))
  {
  }

  /** The codecs give back the header of the file and its first n frames. */
  predicate LawfulTo(cs: Codecs, w: Writer, n: nat)
    requires n <= |w.frames|
  {
    && Lawful(cs.manifest, w.manifest) && (w.version == V2 ==> Lawful(cs.markers, w.markers))
    && forall i :: 0 <= i < n ==> Lawful(cs.frame, w.frames[i])
  }

  predicate AllLawful(cs: Codecs, w: Writer) {
    LawfulTo(cs, w, |w.frames|)
  }

  // ----- Blobs -----

  function MagicOf(version: Version): seq<Byte> {
    [0x43, 0x4d, 0x54, 0x52, 0x4b, if version == V1 then 0x31 else 0x32]
  }

  /** `to_le_bytes`: four base-256 digits, least significant first. */
  function U32Bytes(n: nat): seq<Byte>
    requires n < U32_LIMIT
  {
    [n % 256, n / 256 % 256, n / 256 / 256 % 256, n / 256 / 256 / 256]
  }

  function BytesU32(b: seq<Byte>): nat
    requires |b| == 4
  {
    (b[0] as int) + 256 * ((b[1] as int) + 256 * ((b[2] as int) + 256 * (b[3] as int)))
  }

  lemma U32RoundTrip(n: nat)
    requires n < U32_LIMIT
    ensures BytesU32(U32Bytes(n)) == n
  {
    var n1 := n / 256;
    var n2 := n1 / 256;
    var n3 := n2 / 256;
    assert n == n % 256 + 256 * n1 && n1 == n1 % 256 + 256 * n2 && n2 == n2 % 256 + 256 * n3;
  }

  /** `write_blob`: the length is truncated to 32 bits, as `as u32` does. */
  function Blob(payload: seq<Byte>): seq<Byte> {
    U32Bytes(|payload| % U32_LIMIT) + payload
  }

  /** `read_blob` before decoding: the payload and the cursor after it. */
  function ReadBlobAt(file: seq<Byte>, pos: nat): Result<(seq<Byte>, nat), RecordingError> {
    if pos + 4 > |file| then Err(UnexpectedEof)
    else
      var len := BytesU32(file[pos..pos + 4]);
      if pos + 4 + len > |file| then Err(UnexpectedEof) else Ok((file[pos + 4..pos + 4 + len], pos + 4 + len))
  }

  /** `skip_blob`: seeking past the end of the file succeeds. */
  function SkipBlobAt(file: seq<Byte>, pos: nat): Result<nat, RecordingError> {
    if pos + 4 > |file| then Err(UnexpectedEof) else Ok(pos + 4 + BytesU32(file[pos..pos + 4]))
  }

  function Decode<T>(c: Codec<T>, payload: seq<Byte>): Result<T, RecordingError> {
    match c.decode(payload)
    case Some(x) => Ok(x)
    case None => Err(Encoding)
  }

  /** The file shows `chunk` at `pos`. */
  ghost predicate Holds(file: seq<Byte>, pos: nat, chunk: seq<Byte>) {
    pos + |chunk| <= |file| && file[pos..pos + |chunk|] == chunk
  }

  lemma HoldsSplit(file: seq<Byte>, pos: nat, x: seq<Byte>, y: seq<Byte>)
    ensures Holds(file, pos, x + y) <==> Holds(file, pos, x) && Holds(file, pos + |x|, y)
  {
    if Holds(file, pos, x + y) {
      assert x == (x + y)[..|x|] && y == (x + y)[|x|..];
    }
  }

  lemma BlobHeader(file: seq<Byte>, pos: nat, n: nat)
    requires n < U32_LIMIT && Holds(file, pos, U32Bytes(n))
    ensures BytesU32(file[pos..pos + 4]) == n
  {
    U32RoundTrip(n);
  }

  /** A blob in a file reads back exactly when its length fits the 32-bit header. */
  lemma BlobReadsBackExactly(file: seq<Byte>, pos: nat, payload: seq<Byte>)
    requires Holds(file, pos, Blob(payload))
    ensures |payload| < U32_LIMIT <==> ReadBlobAt(file, pos) == Ok((payload, pos + |Blob(payload)|))
    ensures |payload| < U32_LIMIT ==> SkipBlobAt(file, pos) == Ok(pos + |Blob(payload)|)
  {
    var n := |payload| % U32_LIMIT;
    HoldsSplit(file, pos, U32Bytes(n), payload);
    BlobHeader(file, pos, n);
  }

  lemma PrefixOfConcat(x: seq<Byte>, y: seq<Byte>, k: nat)
    requires |x| <= k <= |x| + |y|
    ensures (x + y)[..k] == x + y[..k - |x|]
  {
  }

  /** A blob cut short is not read; it is skipped as soon as its header is complete. */
  lemma CutBlob(file: seq<Byte>, pos: nat, payload: seq<Byte>)
    requires |payload| < U32_LIMIT && pos <= |file| < pos + |Blob(payload)|
    requires Holds(file, pos, Blob(payload)[..|file| - pos])
    ensures ReadBlobAt(file, pos) == Err(UnexpectedEof)
    ensures SkipBlobAt(file, pos) == if |file| < pos + 4 then Err(UnexpectedEof) else Ok(pos + |Blob(payload)|)
  {
    if |file| >= pos + 4 {
      var k := |file| - pos;
      PrefixOfConcat(U32Bytes(|payload|), payload, k);
      HoldsSplit(file, pos, U32Bytes(|payload|), payload[..k - 4]);
      BlobHeader(file, pos, |payload|);
    }
  }

  // ----- Files -----

  function FrameBlob(cs: Codecs, f: Frame): seq<Byte> {
    Blob(cs.frame.encode(f))
  }

  function FrameBlobs(cs: Codecs, frames: seq<Frame>): seq<Byte>
    decreases frames
  {
    if frames == [] then [] else FrameBlob(cs, frames[0]) + FrameBlobs(cs, frames[1..])
  }

  function MarkerBlob(cs: Codecs, w: Writer): seq<Byte> {
    if w.version == V2 then Blob(cs.markers.encode(w.markers)) else []
  }

  function Header(cs: Codecs, w: Writer): seq<Byte> {
    MagicOf(w.version) + Blob(cs.manifest.encode(w.manifest)) + MarkerBlob(cs, w)
  }

  /** The bytes `finish` leaves in the file. */
  function FileOf(cs: Codecs, w: Writer): seq<Byte> {
    Header(cs, w) + FrameBlobs(cs, w.frames)
  }

  datatype RecordingFile = RecordingFile(manifest: Manifest, markers: seq<Marker>, frames: seq<Frame>, version: Version)

  datatype Index = Index(manifestOffset: nat, markerOffset: Option<nat>, frameOffsets: seq<nat>, version: Version)

  function ReadMagic(file: seq<Byte>): Result<Version, RecordingError> {
    if |file| < 6 then Err(UnexpectedEof)
    else if file[..6] == MagicOf(V1) then Ok(V1)
    else if file[..6] == MagicOf(V2) then Ok(V2)
    else Err(InvalidFormat)
  }

  /** Frames until the first one that ends beyond the file. */
  function ReadFrames(c: Codec<Frame>, file: seq<Byte>, pos: nat): Result<seq<Frame>, RecordingError>
    decreases |file| - pos
  {
    var blob := ReadBlobAt(file, pos);
    if blob.Err? then Ok([])
    else
      var frame :- Decode(c, blob.value.0);
      var rest :- ReadFrames(c, file, blob.value.1);
      Ok([frame] + rest)
  }

  function ReadRecording(cs: Codecs, file: seq<Byte>): Result<RecordingFile, RecordingError> {
    var version :- ReadMagic(file);
    var m :- ReadBlobAt(file, 6);
    var manifest :- Decode(cs.manifest, m.0);
    if version == V1 then
      var frames :- ReadFrames(cs.frame, file, m.1);
      Ok(RecordingFile(manifest, [], frames, version))
    else
      var k :- ReadBlobAt(file, m.1);
      var markers :- Decode(cs.markers, k.0);
      var frames :- ReadFrames(cs.frame, file, k.1);
      Ok(RecordingFile(manifest, markers, frames, version))
  }

  function SkipFrames(file: seq<Byte>, pos: nat): seq<nat>
    decreases |file| - pos
  {
    var next := SkipBlobAt(file, pos);
    if next.Err? then [] else [pos] + SkipFrames(file, next.value)
  }

  function BuildIndex(file: seq<Byte>): Result<Index, RecordingError> {
    var version :- ReadMagic(file);
    var m :- SkipBlobAt(file, 6);
    if version == V1 then Ok(Index(6, None, SkipFrames(file, m), version))
    else
      var k :- SkipBlobAt(file, m);
      Ok(Index(6, Some(m), SkipFrames(file, k), version))
  }

  // ----- What a cut leaves -----

  /** Every blob fits its 32-bit header. */
  predicate Fits(cs: Codecs, w: Writer) {
    && |cs.manifest.encode(w.manifest)| < U32_LIMIT
    && |cs.markers.encode(w.markers)| < U32_LIMIT
    && FramesFit(cs, w.frames)
  }

  predicate FramesFit(cs: Codecs, frames: seq<Frame>) {
    forall i :: 0 <= i < |frames| ==> |cs.frame.encode(frames[i])| < U32_LIMIT
  }

  /** Where a frame first occurs. */
  function Place(frames: seq<Frame>, f: Frame): (i: nat)
    ensures i <= |frames| && (i < |frames| ==> frames[i] == f)
    ensures f in frames ==> i < |frames|
  {
    if frames == [] || frames[0] == f then 0 else 1 + Place(frames[1..], f)
  }

  /** Every writer has such codecs, and they fit whenever the frames can be numbered in 32 bits. */
  lemma LawfulCodecs(w: Writer) returns (cs: Codecs)
    ensures AllLawful(cs, w)
    ensures |w.frames| < U32_LIMIT ==> Fits(cs, w)
  {
    var manifest := Codec((m: Manifest) => [], (b: seq<Byte>) => Some(w.manifest));
    var markers := Codec((m: seq<Marker>) => [], (b: seq<Byte>) => Some(w.markers));
    var frame := Codec((f: Frame) => seq(Place(w.frames, f), _ => 0),
                       (b: seq<Byte>) => if |b| < |w.frames| then Some(w.frames[|b|]) else None);
    cs := Codecs(manifest, markers, frame);
    forall i | 0 <= i < |w.frames| ensures Lawful(frame, w.frames[i]) {
      assert w.frames[i] in w.frames;
    }
  }

  /** How many whole frames the first k bytes of the frame section hold. */
  function Complete(cs: Codecs, frames: seq<Frame>, k: nat): (n: nat)
    ensures n <= |frames|
    decreases frames
  {
    if frames == [] || k < |FrameBlob(cs, frames[0])| then 0
    else 1 + Complete(cs, frames[1..], k - |FrameBlob(cs, frames[0])|)
  }

  /** The bytes of the cut frame, if any, that follow the last whole one. */
  function Leftover(cs: Codecs, frames: seq<Frame>, k: nat): nat
    decreases frames
  {
    if frames == [] || k < |FrameBlob(cs, frames[0])| then k
    else Leftover(cs, frames[1..], k - |FrameBlob(cs, frames[0])|)
  }

  /** `Complete` and `Leftover` divide the cut: n whole frames, and then too little for another. */
  lemma {:induction false} CutDivides(cs: Codecs, frames: seq<Frame>, k: nat)
    requires k <= |FrameBlobs(cs, frames)|
    ensures var n := Complete(cs, frames, k);
            && k == |FrameBlobs(cs, frames[..n])| + Leftover(cs, frames, k)
            && (n == |frames| ==> Leftover(cs, frames, k) == 0)
            && (n < |frames| ==> Leftover(cs, frames, k) < |FrameBlob(cs, frames[n])|)
    decreases frames
  {
    if frames != [] && k >= |FrameBlob(cs, frames[0])| {
      var b := |FrameBlob(cs, frames[0])|;
      CutDivides(cs, frames[1..], k - b);
      var n := Complete(cs, frames, k);
      assert frames[..n][1..] == frames[1..][..n - 1];
    }
  }

  /** The file ends k bytes into the frame section, which starts at `pos`. */
  ghost predicate EndsInFrames(cs: Codecs, frames: seq<Frame>, file: seq<Byte>, pos: nat) {
    && pos <= |file| <= pos + |FrameBlobs(cs, frames)|
    && Holds(file, pos, FrameBlobs(cs, frames)[..|file| - pos])
  }

  /** The first frame of such a file is whole and followed by a section of the same kind, or it is cut. */
  lemma FirstFrame(cs: Codecs, frames: seq<Frame>, file: seq<Byte>, pos: nat)
    requires frames != [] && EndsInFrames(cs, frames, file, pos)
    ensures var b := FrameBlob(cs, frames[0]);
            if |file| - pos < |b| then Holds(file, pos, b[..|file| - pos])
            else Holds(file, pos, b) && EndsInFrames(cs, frames[1..], file, pos + |b|)
  {
    var b, rest, k := FrameBlob(cs, frames[0]), FrameBlobs(cs, frames[1..]), |file| - pos;
    if k < |b| {
      assert (b + rest)[..k] == b[..k];
    } else {
      assert (b + rest)[..k] == b + rest[..k - |b|];
      HoldsSplit(file, pos, b, rest[..k - |b|]);
    }
  }

  /** What the reader and the indexer make of the first frame. */
  lemma FirstFrameReads(cs: Codecs, frames: seq<Frame>, file: seq<Byte>, pos: nat)
    requires frames != [] && FramesFit(cs, frames) && EndsInFrames(cs, frames, file, pos)
    ensures var b := |FrameBlob(cs, frames[0])|;
            if |file| - pos < b then
              && ReadBlobAt(file, pos) == Err(UnexpectedEof)
              && SkipBlobAt(file, pos) == if |file| < pos + 4 then Err(UnexpectedEof) else Ok(pos + b)
            else
              && ReadBlobAt(file, pos) == Ok((cs.frame.encode(frames[0]), pos + b))
              && SkipBlobAt(file, pos) == Ok(pos + b)
              && EndsInFrames(cs, frames[1..], file, pos + b)
  {
    var payload := cs.frame.encode(frames[0]);
    FirstFrame(cs, frames, file, pos);
    if |file| - pos < |Blob(payload)| {
      CutBlob(file, pos, payload);
    } else {
      BlobReadsBackExactly(file, pos, payload);
    }
  }

  /** The frames as the codec gives them back, up to the first it does not decode. */
  function Decoded(c: Codec<Frame>, frames: seq<Frame>): Result<seq<Frame>, RecordingError>
    decreases frames
  {
    if frames == [] then Ok([])
    else
      var first :- Decode(c, c.encode(frames[0]));
      var rest :- Decoded(c, frames[1..]);
      Ok([first] + rest)
  }

  lemma {:induction false} DecodedExactly(c: Codec<Frame>, frames: seq<Frame>)
    ensures Decoded(c, frames) == Ok(frames) <==> forall i :: 0 <= i < |frames| ==> Lawful(c, frames[i])
    decreases frames
  {
    if frames != [] {
      var rest := frames[1..];
      DecodedExactly(c, rest);
      assert frames == [frames[0]] + rest;
      if Decoded(c, frames).Ok? {
        assert Decoded(c, frames).value[1..] == Decoded(c, rest).value;
      }
      if forall i :: 0 <= i < |frames| ==> Lawful(c, frames[i]) {
        forall i | 0 <= i < |rest| ensures Lawful(c, rest[i]) { assert rest[i] == frames[i + 1]; }
      }
    }
  }

  lemma ReadFramesNext(c: Codec<Frame>, file: seq<Byte>, pos: nat, next: nat, frames: seq<Frame>)
    requires frames != [] && ReadBlobAt(file, pos) == Ok((c.encode(frames[0]), next))
    requires ReadFrames(c, file, next) == Decoded(c, frames[1..])
    ensures ReadFrames(c, file, pos) == Decoded(c, frames)
  {
  }

  lemma {:induction false} ReadCutFrames(cs: Codecs, frames: seq<Frame>, file: seq<Byte>, pos: nat)
    requires FramesFit(cs, frames) && EndsInFrames(cs, frames, file, pos)
    ensures ReadFrames(cs.frame, file, pos) == Decoded(cs.frame, frames[..Complete(cs, frames, |file| - pos)])
    decreases frames
  {
    if frames != [] {
      var b, n := |FrameBlob(cs, frames[0])|, Complete(cs, frames, |file| - pos);
      FirstFrameReads(cs, frames, file, pos);
      if |file| - pos >= b {
        ReadCutFrames(cs, frames[1..], file, pos + b);
        assert frames[..n][1..] == frames[1..][..n - 1];
        ReadFramesNext(cs.frame, file, pos, pos + b, frames[..n]);
      }
    }
  }

  /** The offsets the indexer collects from a cut section starting at `start`. */
  function Offsets(cs: Codecs, frames: seq<Frame>, n: nat, start: nat): seq<nat>
    requires n <= |frames|
  {
    seq(n, i requires 0 <= i < n => start + |FrameBlobs(cs, frames[..i])|)
  }

  lemma OffsetsFirst(cs: Codecs, frames: seq<Frame>, n: nat, start: nat)
    requires 0 < n <= |frames|
    ensures Offsets(cs, frames, n, start)
            == [start] + Offsets(cs, frames[1..], n - 1, start + |FrameBlob(cs, frames[0])|)
  {
    forall i | 0 < i < n
      ensures |FrameBlobs(cs, frames[..i])| == |FrameBlob(cs, frames[0])| + |FrameBlobs(cs, frames[1..][..i - 1])|
    {
      assert frames[..i][1..] == frames[1..][..i - 1];
    }
  }

  /** How many frames the indexer reports on the first k bytes of the section. */
  function Indexed(cs: Codecs, frames: seq<Frame>, k: nat): (n: nat)
    ensures n <= |frames|
  {
    var n := Complete(cs, frames, k);
    if n < |frames| && Leftover(cs, frames, k) >= 4 then n + 1 else n
  }

  lemma SkipPastEnd(file: seq<Byte>, pos: nat)
    requires pos + 4 > |file|
    ensures SkipFrames(file, pos) == []
  {
  }

  lemma IndexedFirst(cs: Codecs, frames: seq<Frame>, k: nat)
    requires frames != []
    ensures var b := |FrameBlob(cs, frames[0])|;
            Indexed(cs, frames, k) == if k >= b then 1 + Indexed(cs, frames[1..], k - b) else if k >= 4 then 1 else 0
  {
  }

  lemma SkipFramesNext(file: seq<Byte>, pos: nat, next: nat)
    requires SkipBlobAt(file, pos) == Ok(next)
    ensures SkipFrames(file, pos) == [pos] + SkipFrames(file, next)
  {
  }

  lemma {:induction false} SkipCutFrames(cs: Codecs, frames: seq<Frame>, file: seq<Byte>, pos: nat)
    requires FramesFit(cs, frames) && EndsInFrames(cs, frames, file, pos)
    ensures SkipFrames(file, pos) == Offsets(cs, frames, Indexed(cs, frames, |file| - pos), pos)
    decreases frames
  {
    if frames != [] {
      var b, n := |FrameBlob(cs, frames[0])|, Indexed(cs, frames, |file| - pos);
      FirstFrameReads(cs, frames, file, pos);
      IndexedFirst(cs, frames, |file| - pos);
      if n > 0 { OffsetsFirst(cs, frames, n, pos); }
      if |file| < pos + 4 { SkipPastEnd(file, pos); } else { SkipFramesNext(file, pos, pos + b); }
      if |file| - pos < b { SkipPastEnd(file, pos + b); } else { SkipCutFrames(cs, frames[1..], file, pos + b); }
    }
  }

  // ----- Whole files -----

  lemma MagicReads(version: Version, file: seq<Byte>)
    requires Holds(file, 0, MagicOf(version))
    ensures ReadMagic(file) == Ok(version)
  {
    assert file[..6] == MagicOf(version);
    assert MagicOf(V1)[5] != MagicOf(V2)[5];
  }

  /** What the reader makes of the header, once the frames are read. */
  function WithHeader(cs: Codecs, w: Writer, frames: Result<seq<Frame>, RecordingError>)
    : Result<RecordingFile, RecordingError>
  {
    var manifest :- Decode(cs.manifest, cs.manifest.encode(w.manifest));
    var markers :- if w.version == V1 then Ok([]) else Decode(cs.markers, cs.markers.encode(w.markers));
    var read :- frames;
    Ok(RecordingFile(manifest, markers, read, w.version))
  }

  /** Reading and indexing a file that holds the whole header come down to its frame section. */
  lemma HeaderReads(cs: Codecs, w: Writer, file: seq<Byte>)
    requires Fits(cs, w) && Holds(file, 0, Header(cs, w))
    ensures var start := |Header(cs, w)|;
            var markerOffset := if w.version == V1 then None else Some(start - |MarkerBlob(cs, w)|);
            && ReadRecording(cs, file) == WithHeader(cs, w, ReadFrames(cs.frame, file, start))
            && BuildIndex(file) == Ok(Index(6, markerOffset, SkipFrames(file, start), w.version))
  {
    var magic, m := MagicOf(w.version), cs.manifest.encode(w.manifest);
    HoldsSplit(file, 0, magic + Blob(m), MarkerBlob(cs, w));
    HoldsSplit(file, 0, magic, Blob(m));
    MagicReads(w.version, file);
    BlobReadsBackExactly(file, 6, m);
    if w.version == V2 { BlobReadsBackExactly(file, 6 + |Blob(m)|, cs.markers.encode(w.markers)); }
  }

  /** A file cut after the header shows the header and ends in its frames. */
  lemma CutSection(cs: Codecs, w: Writer, k: nat)
    requires k <= |FrameBlobs(cs, w.frames)|
    ensures var cut := FileOf(cs, w)[..|Header(cs, w)| + k];
            Holds(cut, 0, Header(cs, w)) && EndsInFrames(cs, w.frames, cut, |Header(cs, w)|)
  {
    var cut := FileOf(cs, w)[..|Header(cs, w)| + k];
    assert cut == Header(cs, w) + FrameBlobs(cs, w.frames)[..k];
    HoldsSplit(cut, 0, Header(cs, w), FrameBlobs(cs, w.frames)[..k]);
  }

  /** The first n frames of a writer, as a file of its own. */
  function FirstFrames(w: Writer, n: nat): RecordingFile
    requires n <= |w.frames|
  {
    RecordingFile(w.manifest, w.markers, w.frames[..n], w.version)
  }

  lemma WithHeaderExactly(cs: Codecs, w: Writer, n: nat)
    requires WriterValid(w) && n <= |w.frames|
    ensures WithHeader(cs, w, Decoded(cs.frame, w.frames[..n])) == Ok(FirstFrames(w, n)) <==> LawfulTo(cs, w, n)
  {
    DecodedExactly(cs.frame, w.frames[..n]);
    assert forall i :: 0 <= i < n ==> w.frames[..n][i] == w.frames[i];
  }

  /** Truncation: cut k bytes into the frame section, a file reads back as its whole frames exactly when
      the codecs give back what is read. */
  lemma TruncatedRead(cs: Codecs, w: Writer, k: nat)
    requires Fits(cs, w) && WriterValid(w) && k <= |FrameBlobs(cs, w.frames)|
    ensures var n := Complete(cs, w.frames, k);
            ReadRecording(cs, FileOf(cs, w)[..|Header(cs, w)| + k]) == Ok(FirstFrames(w, n)) <==> LawfulTo(cs, w, n)
  {
    var cut := FileOf(cs, w)[..|Header(cs, w)| + k];
    CutSection(cs, w, k);
    ReadCutFrames(cs, w.frames, cut, |Header(cs, w)|);
    HeaderReads(cs, w, cut);
    WithHeaderExactly(cs, w, Complete(cs, w.frames, k));
  }

  lemma {:induction false} AllComplete(cs: Codecs, frames: seq<Frame>)
    ensures Complete(cs, frames, |FrameBlobs(cs, frames)|) == |frames|
    decreases frames
  {
    if frames != [] { AllComplete(cs, frames[1..]); }
  }

  /** Round trip: what `finish` wrote reads back exactly when the codecs give back what was written, and
      then with as many frames as the manifest counts. */
  lemma RoundTrip(cs: Codecs, w: Writer)
    requires Fits(cs, w) && WriterValid(w)
    ensures ReadRecording(cs, FileOf(cs, w)) == Ok(RecordingFile(w.manifest, w.markers, w.frames, w.version))
            <==> AllLawful(cs, w)
    ensures w.manifest.frameCount == |w.frames|
  {
    var k := |FrameBlobs(cs, w.frames)|;
    TruncatedRead(cs, w, k);
    AllComplete(cs, w.frames);
    assert FileOf(cs, w)[..|Header(cs, w)| + k] == FileOf(cs, w);
    assert w.frames[..|w.frames|] == w.frames;
  }

  lemma CutManifest(cs: Codecs, w: Writer, cut: nat)
    requires Fits(cs, w) && 6 <= cut < 6 + |Blob(cs.manifest.encode(w.manifest))|
    ensures ReadRecording(cs, FileOf(cs, w)[..cut]) == Err(UnexpectedEof)
  {
    var magic, m := MagicOf(w.version), Blob(cs.manifest.encode(w.manifest));
    var file := FileOf(cs, w)[..cut];
    assert file == magic + m[..cut - 6];
    HoldsSplit(file, 0, magic, m[..cut - 6]);
    MagicReads(w.version, file);
    CutBlob(file, 6, cs.manifest.encode(w.manifest));
  }

  lemma CutMarkers(cs: Codecs, w: Writer, cut: nat)
    requires Fits(cs, w) && 6 + |Blob(cs.manifest.encode(w.manifest))| <= cut < |Header(cs, w)|
    ensures ReadRecording(cs, FileOf(cs, w)[..cut])
         == Err(if Decode(cs.manifest, cs.manifest.encode(w.manifest)).Err? then Encoding else UnexpectedEof)
  {
    var magic, m := MagicOf(w.version), Blob(cs.manifest.encode(w.manifest));
    var file, k := FileOf(cs, w)[..cut], cut - 6 - |m|;
    assert file == magic + (m + MarkerBlob(cs, w)[..k]);
    HoldsSplit(file, 0, magic, m + MarkerBlob(cs, w)[..k]);
    HoldsSplit(file, 6, m, MarkerBlob(cs, w)[..k]);
    MagicReads(w.version, file);
    BlobReadsBackExactly(file, 6, cs.manifest.encode(w.manifest));
    CutBlob(file, 6 + |m|, cs.markers.encode(w.markers));
  }

  /** A cut anywhere in the header is an error and not an empty recording: an unexpected end of file,
      unless the manifest is whole and does not decode. */
  lemma CutHeader(cs: Codecs, w: Writer, cut: nat)
    requires Fits(cs, w) && cut < |Header(cs, w)|
    ensures var m := cs.manifest.encode(w.manifest);
            var undecoded := cut >= 6 + |Blob(m)| && Decode(cs.manifest, m).Err?;
            ReadRecording(cs, FileOf(cs, w)[..cut]) == Err(if undecoded then Encoding else UnexpectedEof)
  {
    if cut < 6 { assert |FileOf(cs, w)[..cut]| == cut; }
    else if cut < 6 + |Blob(cs.manifest.encode(w.manifest))| { CutManifest(cs, w, cut); }
    else { CutMarkers(cs, w, cut); }
  }

  /** The indexer on a cut file: one offset per frame whose length header is whole. */
  lemma TruncatedIndex(cs: Codecs, w: Writer, k: nat)
    requires Fits(cs, w) && k <= |FrameBlobs(cs, w.frames)|
    ensures var index := BuildIndex(FileOf(cs, w)[..|Header(cs, w)| + k]);
            && index.Ok?
            && index.value.frameOffsets == Offsets(cs, w.frames, Indexed(cs, w.frames, k), |Header(cs, w)|)
  {
    var cut := FileOf(cs, w)[..|Header(cs, w)| + k];
    CutSection(cs, w, k);
    SkipCutFrames(cs, w.frames, cut, |Header(cs, w)|);
    HeaderReads(cs, w, cut);
  }

  /** Indexer and reader count the same frames exactly when the cut is not inside a payload;
      inside one the indexer reports one frame more. */
  lemma IndexAgreesExactly(cs: Codecs, w: Writer, k: nat)
    requires Fits(cs, w) && WriterValid(w) && k <= |FrameBlobs(cs, w.frames)|
    requires LawfulTo(cs, w, Complete(cs, w.frames, k))
    ensures var cut := FileOf(cs, w)[..|Header(cs, w)| + k];
            var read, index := ReadRecording(cs, cut), BuildIndex(cut);
            && read.Ok? && index.Ok?
            && |index.value.frameOffsets| == |read.value.frames| + (if Leftover(cs, w.frames, k) >= 4 then 1 else 0)
  {
    TruncatedRead(cs, w, k);
    TruncatedIndex(cs, w, k);
    CutDivides(cs, w.frames, k);
  }

  lemma {:induction false} FrameBlobsSplit(cs: Codecs, frames: seq<Frame>, i: nat)
    requires i < |frames|
    ensures FrameBlobs(cs, frames)
            == FrameBlobs(cs, frames[..i]) + FrameBlob(cs, frames[i]) + FrameBlobs(cs, frames[i + 1..])
    decreases frames
  {
    if i == 0 {
      assert frames[..0] == [];
    } else {
      FrameBlobsSplit(cs, frames[1..], i - 1);
      assert frames[..i][1..] == frames[1..][..i - 1];
      assert frames[1..][i - 1 + 1..] == frames[i + 1..];
    }
  }

  lemma IndexComplete(cs: Codecs, w: Writer)
    requires Fits(cs, w)
    ensures BuildIndex(FileOf(cs, w)).Ok?
    ensures BuildIndex(FileOf(cs, w)).value.frameOffsets == Offsets(cs, w.frames, |w.frames|, |Header(cs, w)|)
  {
    var k := |FrameBlobs(cs, w.frames)|;
    TruncatedIndex(cs, w, k);
    AllComplete(cs, w.frames);
    assert FileOf(cs, w)[..|Header(cs, w)| + k] == FileOf(cs, w);
  }

  lemma FrameAt(cs: Codecs, w: Writer, i: nat)
    requires FramesFit(cs, w.frames) && i < |w.frames|
    ensures var blob := ReadBlobAt(FileOf(cs, w), |Header(cs, w)| + |FrameBlobs(cs, w.frames[..i])|);
            blob.Ok? && blob.value.0 == cs.frame.encode(w.frames[i])
  {
    var file, b := FileOf(cs, w), FrameBlob(cs, w.frames[i]);
    var before, after := FrameBlobs(cs, w.frames[..i]), FrameBlobs(cs, w.frames[i + 1..]);
    FrameBlobsSplit(cs, w.frames, i);
    HoldsSplit(file, 0, Header(cs, w), before + b + after);
    HoldsSplit(file, |Header(cs, w)|, before + b, after);
    HoldsSplit(file, |Header(cs, w)|, before, b);
    BlobReadsBackExactly(file, |Header(cs, w)| + |before|, cs.frame.encode(w.frames[i]));
  }

  /** On a complete file there is one offset per frame, and at offset i lies the blob of frame i. */
  lemma IndexLocatesFrames(cs: Codecs, w: Writer, i: nat)
    requires Fits(cs, w) && i < |w.frames|
    ensures var index := BuildIndex(FileOf(cs, w));
            && index.Ok? && |index.value.frameOffsets| == |w.frames|
            && var blob := ReadBlobAt(FileOf(cs, w), index.value.frameOffsets[i]);
               && blob.Ok? && blob.value.0 == cs.frame.encode(w.frames[i])
               && (Decode(cs.frame, blob.value.0) == Ok(w.frames[i]) <==> Lawful(cs.frame, w.frames[i]))
  {
    IndexComplete(cs, w);
    FrameAt(cs, w, i);
  }
}
