/** The recording file format, byte by byte: what a file must look like to be read as a recording, on
    any bytes, and that what is written looks so. */
module FileFormat {
  import opened Model
  import opened Container

  // ----- Blobs -----

  /** The number four bytes spell, the least significant first. */
  function Number(b: seq<Byte>): nat
    requires |b| == 4
  {
    var b0: int, b1: int, b2: int, b3: int := b[0], b[1], b[2], b[3];
    b0 + 0x100 * b1 + 0x1_0000 * b2 + 0x100_0000 * b3
  }

  /** At pos the file shows the payload's length and then the payload. */
  ghost predicate Shows(file: seq<Byte>, pos: nat, payload: seq<Byte>) {
    && pos + 4 + |payload| <= |file|
    && Number(file[pos..pos + 4]) == |payload| && file[pos + 4..pos + 4 + |payload|] == payload
  }

  ghost predicate ShowsNone(file: seq<Byte>, pos: nat) {
    forall p :: !Shows(file, pos, p)
  }

  lemma ReadBlobExactly(file: seq<Byte>, pos: nat)
    ensures var r := ReadBlobAt(file, pos);
            if r.Ok? then Shows(file, pos, r.value.0) && r.value.1 == pos + 4 + |r.value.0|
            else ShowsNone(file, pos) && r == Err(UnexpectedEof)
  {
  }

  lemma ShowsOne(file: seq<Byte>, pos: nat, p: seq<Byte>)
    requires Shows(file, pos, p)
    ensures ReadBlobAt(file, pos) == Ok((p, pos + 4 + |p|))
  {
  }

  // ----- Files -----

  /** From pos on, the file shows the frames' encodings and then no further one. */
  ghost predicate ShowsFrames(c: Codec<Frame>, file: seq<Byte>, pos: nat, frames: seq<Frame>)
    decreases frames
  {
    if frames == [] then ShowsNone(file, pos)
    else exists p :: Shows(file, pos, p) && c.decode(p) == Some(frames[0])
           && ShowsFrames(c, file, pos + 4 + |p|, frames[1..])
  }

  /** The six characters CMTRK1 or CMTRK2. */
  function Magic(version: Version): string {
    if version == V1 then "CMTRK1" else "CMTRK2"
  }

  ghost predicate Begins(file: seq<Byte>, version: Version) {
    |file| >= 6 && forall i :: 0 <= i < 6 ==> file[i] as int == Magic(version)[i] as int
  }

  /** The file is the recording r: its magic, its manifest, for version 2 its markers, and its frames. */
  ghost predicate IsRecording(cs: Codecs, file: seq<Byte>, r: RecordingFile) {
    Begins(file, r.version) && ShowsBody(cs, file, r)
  }

  ghost predicate ShowsBody(cs: Codecs, file: seq<Byte>, r: RecordingFile) {
    exists m :: Shows(file, 6, m) && cs.manifest.decode(m) == Some(r.manifest) && ShowsTail(cs, file, 10 + |m|, r)
  }

  ghost predicate ShowsTail(cs: Codecs, file: seq<Byte>, pos: nat, r: RecordingFile) {
    if r.version == V1 then r.markers == [] && ShowsFrames(cs.frame, file, pos, r.frames)
    else ShowsRest(cs, file, pos, r)
  }

  ghost predicate ShowsRest(cs: Codecs, file: seq<Byte>, pos: nat, r: RecordingFile) {
    exists k :: Shows(file, pos, k) && cs.markers.decode(k) == Some(r.markers)
      && ShowsFrames(cs.frame, file, pos + 4 + |k|, r.frames)
  }

  lemma MagicExactly(file: seq<Byte>)
    ensures ReadMagic(file) ==
            if |file| < 6 then Err(UnexpectedEof)
            else if Begins(file, V1) then Ok(V1)
            else if Begins(file, V2) then Ok(V2)
            else Err(InvalidFormat)
  {
    if |file| >= 6 {
      var head := file[..6];
      BeginsIsMagic(file, head, V1);
      BeginsIsMagic(file, head, V2);
    }
  }

  lemma BeginsIsMagic(file: seq<Byte>, head: seq<Byte>, version: Version)
    requires |file| >= 6 && head == file[..6]
    ensures Begins(file, version) <==> head == MagicOf(version)
  {
    var magic, text := MagicOf(version), Magic(version);
    assert forall i :: 0 <= i < 6 ==> magic[i] as int == text[i] as int;
    assert forall i :: 0 <= i < 6 ==> head[i] == file[i];
    if Begins(file, version) {
      forall i | 0 <= i < 6 ensures head[i] == magic[i] { assert file[i] as int == text[i] as int; }
    }
  }

  lemma FramesRead(c: Codec<Frame>, file: seq<Byte>, pos: nat, frames: seq<Frame>)
    requires frames != [] && ShowsFrames(c, file, pos, frames)
    ensures var k := ReadBlobAt(file, pos);
            k.Ok? && c.decode(k.value.0) == Some(frames[0]) && ShowsFrames(c, file, k.value.1, frames[1..])
  {
    var q :| Shows(file, pos, q) && c.decode(q) == Some(frames[0])
      && ShowsFrames(c, file, pos + 4 + |q|, frames[1..]);
    ShowsOne(file, pos, q);
  }

  lemma FramesShow(c: Codec<Frame>, file: seq<Byte>, pos: nat, frames: seq<Frame>, p: seq<Byte>)
    requires frames != [] && Shows(file, pos, p) && c.decode(p) == Some(frames[0])
    requires ShowsFrames(c, file, pos + 4 + |p|, frames[1..])
    ensures ShowsFrames(c, file, pos, frames)
  {
  }

  lemma NoFrames(c: Codec<Frame>, file: seq<Byte>, pos: nat)
    ensures ShowsFrames(c, file, pos, []) <==> ReadBlobAt(file, pos).Err?
  {
    ReadBlobExactly(file, pos);
  }

  lemma ShowsNext(c: Codec<Frame>, file: seq<Byte>, pos: nat, frames: seq<Frame>)
    requires frames != []
    ensures var k := ReadBlobAt(file, pos);
            ShowsFrames(c, file, pos, frames) <==>
            k.Ok? && c.decode(k.value.0) == Some(frames[0]) && ShowsFrames(c, file, k.value.1, frames[1..])
  {
    var k := ReadBlobAt(file, pos);
    if ShowsFrames(c, file, pos, frames) { FramesRead(c, file, pos, frames); }
    if k.Ok? && c.decode(k.value.0) == Some(frames[0]) && ShowsFrames(c, file, k.value.1, frames[1..]) {
      ReadBlobExactly(file, pos);
      FramesShow(c, file, pos, frames, k.value.0);
    }
  }

  lemma ReadsNext(c: Codec<Frame>, file: seq<Byte>, pos: nat, frames: seq<Frame>)
    requires ReadBlobAt(file, pos).Ok?
    ensures var (p, next) := ReadBlobAt(file, pos).value;
            ReadFrames(c, file, pos) == Ok(frames) <==>
            frames != [] && c.decode(p) == Some(frames[0]) && ReadFrames(c, file, next) == Ok(frames[1..])
  {
    if frames != [] { assert frames == [frames[0]] + frames[1..]; }
  }

  lemma {:induction false} FramesExactly(c: Codec<Frame>, file: seq<Byte>, pos: nat, frames: seq<Frame>)
    ensures ReadFrames(c, file, pos) == Ok(frames) <==> ShowsFrames(c, file, pos, frames)
    decreases frames
  {
    if frames == [] {
      NoFrames(c, file, pos);
    } else {
      ShowsNext(c, file, pos, frames);
      if ReadBlobAt(file, pos).Ok? {
        ReadsNext(c, file, pos, frames);
        FramesExactly(c, file, ReadBlobAt(file, pos).value.1, frames[1..]);
      }
    }
  }

  lemma {:induction false} FramesError(c: Codec<Frame>, file: seq<Byte>, pos: nat)
    ensures ReadFrames(c, file, pos).Err? ==> ReadFrames(c, file, pos) == Err(Encoding)
    decreases |file| - pos
  {
    if ReadBlobAt(file, pos).Ok? { FramesError(c, file, ReadBlobAt(file, pos).value.1); }
  }

  lemma RestReads(cs: Codecs, file: seq<Byte>, pos: nat, r: RecordingFile)
    requires ShowsRest(cs, file, pos, r)
    ensures var k := ReadBlobAt(file, pos);
            k.Ok? && cs.markers.decode(k.value.0) == Some(r.markers)
            && ShowsFrames(cs.frame, file, k.value.1, r.frames)
  {
    var q :| Shows(file, pos, q) && cs.markers.decode(q) == Some(r.markers)
      && ShowsFrames(cs.frame, file, pos + 4 + |q|, r.frames);
    ShowsOne(file, pos, q);
  }

  lemma RestShows(cs: Codecs, file: seq<Byte>, pos: nat, r: RecordingFile, k: seq<Byte>)
    requires Shows(file, pos, k) && cs.markers.decode(k) == Some(r.markers)
    requires ShowsFrames(cs.frame, file, pos + 4 + |k|, r.frames)
    ensures ShowsRest(cs, file, pos, r)
  {
  }

  lemma RestExactly(cs: Codecs, file: seq<Byte>, pos: nat, r: RecordingFile)
    ensures var k := ReadBlobAt(file, pos);
            ShowsRest(cs, file, pos, r) <==>
            k.Ok? && cs.markers.decode(k.value.0) == Some(r.markers)
            && ShowsFrames(cs.frame, file, k.value.1, r.frames)
  {
    var k := ReadBlobAt(file, pos);
    if ShowsRest(cs, file, pos, r) { RestReads(cs, file, pos, r); }
    if k.Ok? && cs.markers.decode(k.value.0) == Some(r.markers) && ShowsFrames(cs.frame, file, k.value.1, r.frames) {
      ReadBlobExactly(file, pos);
      RestShows(cs, file, pos, r, k.value.0);
    }
  }

  lemma BodyExactly(cs: Codecs, file: seq<Byte>, r: RecordingFile)
    ensures var m := ReadBlobAt(file, 6);
            ShowsBody(cs, file, r) <==>
            m.Ok? && cs.manifest.decode(m.value.0) == Some(r.manifest) && ShowsTail(cs, file, m.value.1, r)
  {
    ReadBlobExactly(file, 6);
    if ShowsBody(cs, file, r) {
      var q :| Shows(file, 6, q) && cs.manifest.decode(q) == Some(r.manifest) && ShowsTail(cs, file, 10 + |q|, r);
      ShowsOne(file, 6, q);
    }
  }

  lemma TailReads(cs: Codecs, file: seq<Byte>, r: RecordingFile)
    requires ReadMagic(file) == Ok(r.version)
    ensures var m := ReadBlobAt(file, 6);
            ReadRecording(cs, file) == Ok(r) <==>
            m.Ok? && cs.manifest.decode(m.value.0) == Some(r.manifest) && ShowsTail(cs, file, m.value.1, r)
  {
    var m := ReadBlobAt(file, 6);
    if m.Ok? && r.version == V1 {
      FramesExactly(cs.frame, file, m.value.1, r.frames);
    } else if m.Ok? {
      RestExactly(cs, file, m.value.1, r);
      var k := ReadBlobAt(file, m.value.1);
      if k.Ok? { FramesExactly(cs.frame, file, k.value.1, r.frames); }
    }
  }

  /** Whatever the bytes, the reader answers with a recording exactly when the file is that recording. */
  lemma ReaderExactly(cs: Codecs, file: seq<Byte>, r: RecordingFile)
    ensures ReadRecording(cs, file) == Ok(r) <==> IsRecording(cs, file, r)
  {
    MagicExactly(file);
    assert Begins(file, V2) ==> file[5] as int == Magic(V2)[5] as int != Magic(V1)[5] as int;
    if Begins(file, r.version) {
      TailReads(cs, file, r);
      BodyExactly(cs, file, r);
    }
  }

  /** The manifest decodes and no markers follow it. */
  ghost predicate LacksMarkers(cs: Codecs, file: seq<Byte>) {
    exists m :: Shows(file, 6, m) && cs.manifest.decode(m) != None && ShowsNone(file, 10 + |m|)
  }

  /** Why a file is refused: too short for its header, another magic, or a part that does not decode. */
  lemma RefusalExactly(cs: Codecs, file: seq<Byte>)
    requires ReadRecording(cs, file).Err?
    ensures var e := ReadRecording(cs, file).error;
            && (e == InvalidFormat <==> |file| >= 6 && !Begins(file, V1) && !Begins(file, V2))
            && (e == UnexpectedEof <==>
                  || |file| < 6
                  || ((Begins(file, V1) || Begins(file, V2)) && ShowsNone(file, 6))
                  || (Begins(file, V2) && LacksMarkers(cs, file)))
  {
    MagicExactly(file);
    ReadBlobExactly(file, 6);
    var m := ReadBlobAt(file, 6);
    if m.Ok? {
      ReadBlobExactly(file, m.value.1);
      FramesError(cs.frame, file, m.value.1);
      var k := ReadBlobAt(file, m.value.1);
      if k.Ok? { FramesError(cs.frame, file, k.value.1); }
      forall q | Shows(file, 6, q) ensures q == m.value.0 { ShowsOne(file, 6, q); }
    }
  }

  // ----- What is written -----

  /** A length and the payload; a length of more than 32 bits is cut down to its lowest 32. */
  lemma BlobExactly(payload: seq<Byte>)
    ensures |Blob(payload)| == 4 + |payload| && Blob(payload)[4..] == payload
    ensures Number(Blob(payload)[..4]) == |payload| % 0x1_0000_0000
  {
    var n := |payload| % U32_LIMIT;
    U32RoundTrip(n);
    assert Blob(payload)[..4] == U32Bytes(n);
  }

  /** A file is its parts one after the other: the magic, the manifest, for version 2 the markers, the frames. */
  lemma FileExactly(cs: Codecs, w: Writer)
    ensures Begins(FileOf(cs, w), w.version)
    ensures FileOf(cs, w)[6..] ==
            Blob(cs.manifest.encode(w.manifest)) + (if w.version == V1 then [] else Blob(cs.markers.encode(w.markers)))
            + FrameBlobs(cs, w.frames)
  {
    var rest := Blob(cs.manifest.encode(w.manifest)) + MarkerBlob(cs, w) + FrameBlobs(cs, w.frames);
    assert FileOf(cs, w) == MagicOf(w.version) + rest;
    BeginsIsMagic(FileOf(cs, w), FileOf(cs, w)[..6], w.version);
  }
}
