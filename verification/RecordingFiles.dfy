/** The recording crate's objects: a writer that collects frames and markers in place, and the
    reader and indexer that move a cursor over a file. */
module RecordingFiles {
  import opened Model
  import opened Container

  /** An open file: its bytes and the stream position. */
  class File {
    var bytes: seq<Byte>
    var pos: nat

    constructor Create()
      ensures bytes == [] && pos == 0
    {
      bytes, pos := [], 0;
    }

    constructor Open(contents: seq<Byte>)
      ensures bytes == contents && pos == 0
    {
      bytes, pos := contents, 0;
    }

    /** A file is written at its end alone, where the position then is. */
    method WriteAll(chunk: seq<Byte>)
      modifies this
      ensures bytes == old(bytes) + chunk && pos == |bytes|
    {
      bytes := bytes + chunk;
      pos := |bytes|;
    }

    /** The position after a read that did not find enough: where the file ends, or as it was beyond that. */
    function AtEnd(from: nat): nat
      reads this`bytes
    {
      if from < |bytes| then |bytes| else from
    }

    /** `read_exact`. */
    method ReadExact(n: nat) returns (r: Result<seq<Byte>, RecordingError>)
      modifies this`pos
      ensures r == if n == 0 then Ok([])
                   else if old(pos) + n <= |bytes| then Ok(bytes[old(pos)..old(pos) + n])
                   else Err(UnexpectedEof)
      ensures pos == if r.Ok? then old(pos) + n else AtEnd(old(pos))
    {
      if n == 0 { return Ok([]); }
      if pos + n <= |bytes| {
        pos := pos + n;
        return Ok(bytes[pos - n..pos]);
      }
      if pos < |bytes| { pos := |bytes|; }
      return Err(UnexpectedEof);
    }

    /** `seek(SeekFrom::Current(n))`: never fails, even past the end. */
    method SeekForward(n: nat)
      modifies this`pos
      ensures pos == old(pos) + n
    {
      pos := pos + n;
    }

    method WriteBlob(payload: seq<Byte>)
      modifies this
      ensures bytes == old(bytes) + Blob(payload) && pos == |bytes|
    {
      var len := |payload| % U32_LIMIT;
      WriteAll(U32Bytes(len));
      WriteAll(payload);
      assert bytes == old(bytes) + (U32Bytes(len) + payload);
    }

    method ReadBlob() returns (r: Result<seq<Byte>, RecordingError>)
      modifies this`pos
      ensures r.Ok? <==> ReadBlobAt(bytes, old(pos)).Ok?
      ensures r.Ok? ==> ReadBlobAt(bytes, old(pos)) == Ok((r.value, pos)) && pos <= |bytes|
      ensures r.Err? ==> r.error == UnexpectedEof && pos == AtEnd(old(pos))
    {
      var header :- ReadExact(4);
      var len := BytesU32(header);
      r := ReadExact(len);
      assert len == 0 ==> bytes[old(pos) + 4..old(pos) + 4 + len] == [];
    }

    method SkipBlob() returns (r: Result<(), RecordingError>)
      modifies this`pos
      ensures r.Ok? <==> SkipBlobAt(bytes, old(pos)).Ok?
      ensures r.Ok? ==> SkipBlobAt(bytes, old(pos)) == Ok(pos)
      ensures r.Err? ==> r.error == UnexpectedEof && pos == AtEnd(old(pos))
    {
      var header :- ReadExact(4);
      SeekForward(BytesU32(header));
      return Ok(());
    }

    method TakeMagic() returns (r: Result<Version, RecordingError>)
      requires pos == 0
      modifies this`pos
      ensures r == ReadMagic(bytes)
      ensures pos == if |bytes| < 6 then |bytes| else 6
    {
      var magic :- ReadExact(6);
      assert magic == bytes[..6];
      if magic == MagicOf(V1) { return Ok(V1); }
      if magic == MagicOf(V2) { return Ok(V2); }
      return Err(InvalidFormat);
    }
  }

  class RecordingWriter {
    var manifest: Manifest
    var frames: seq<Frame>
    var markers: seq<Marker>
    const version: Version

    ghost function State(): Writer
      reads this
    {
      Writer(manifest, frames, markers, version)
    }

    constructor Start(recordingId: Uuid, scene: Uuid, started: nat, version: Version)
      ensures State() == StartWriter(recordingId, scene, started, version)
    {
      manifest := Manifest(recordingId, scene, started, started, 0);
      frames, markers := [], [];
      this.version := version;
    }

    method PushFrame(frame: Frame)
      modifies this
      ensures State() == Container.PushFrame(old(State()), frame)
    {
      manifest := manifest.(stopped := frame.timestamp);
      frames := frames + [frame];
      manifest := manifest.(frameCount := |frames|);
    }

    method PushMarker(marker: Marker)
      modifies this
      ensures State() == Container.PushMarker(old(State()), marker)
    {
      if version == V2 { markers := markers + [marker]; }
    }

    /** The part of the file before the frames. */
    method WriteHeader(cs: Codecs) returns (file: File)
      ensures fresh(file) && file.bytes == Header(cs, State()) && file.pos == |file.bytes|
    {
      file := new File.Create();
      file.WriteAll(MagicOf(version));
      assert file.bytes == MagicOf(version);
      file.WriteBlob(cs.manifest.encode(manifest));
      ghost var written := file.bytes;
      assert written + [] == written;
      if version == V2 { file.WriteBlob(cs.markers.encode(markers)); }
      assert file.bytes == written + MarkerBlob(cs, State());
    }

    /** Writes the whole file; the bytes are those of the container format. */
    method Finish(cs: Codecs) returns (file: File, result: Manifest)
      ensures fresh(file) && file.bytes == FileOf(cs, State()) && file.pos == |file.bytes| && result == manifest
    {
      file := WriteHeader(cs);
      for i := 0 to |frames|
        invariant fresh(file) && file.pos == |file.bytes|
        invariant FileOf(cs, State()) == file.bytes + FrameBlobs(cs, frames[i..])
      {
        assert frames[i..][1..] == frames[i + 1..];
        file.WriteBlob(cs.frame.encode(frames[i]));
      }
      result := manifest;
    }
  }

  /** What frames read so far add to the outcome of reading on. */
  ghost function Prefixed(frames: seq<Frame>, rest: Result<seq<Frame>, RecordingError>)
    : Result<seq<Frame>, RecordingError>
  {
    if rest.Ok? then Ok(frames + rest.value) else rest
  }

  lemma PrefixedNone(rest: Result<seq<Frame>, RecordingError>)
    ensures Prefixed([], rest) == rest
  {
    if rest.Ok? { assert [] + rest.value == rest.value; }
  }

  lemma PrefixedTwice(frames: seq<Frame>, frame: Frame, rest: Result<seq<Frame>, RecordingError>)
    ensures Prefixed(frames, Prefixed([frame], rest)) == Prefixed(frames + [frame], rest)
  {
    if rest.Ok? { assert frames + ([frame] + rest.value) == frames + [frame] + rest.value; }
  }

  /** The reader's loop: frames until the file ends. */
  method ReadAllFrames(cs: Codecs, file: File) returns (r: Result<seq<Frame>, RecordingError>)
    modifies file`pos
    ensures r == ReadFrames(cs.frame, file.bytes, old(file.pos))
  {
    ghost var start := file.pos;
    var frames: seq<Frame> := [];
    var atEnd := false;
    PrefixedNone(ReadFrames(cs.frame, file.bytes, start));
    while !atEnd
      invariant ReadFrames(cs.frame, file.bytes, start) ==
                if atEnd then Ok(frames) else Prefixed(frames, ReadFrames(cs.frame, file.bytes, file.pos))
      decreases !atEnd, |file.bytes| - file.pos
    {
      var blob := file.ReadBlob();
      if blob.Err? {
        assert frames + [] == frames;
        atEnd := true;
      } else {
        var frame := Decode(cs.frame, blob.value);
        if frame.Err? { return Err(frame.error); }
        PrefixedTwice(frames, frame.value, ReadFrames(cs.frame, file.bytes, file.pos));
        frames := frames + [frame.value];
      }
    }
    return Ok(frames);
  }

  /** The indexer's loop: an offset for every blob that can be skipped. */
  method SkipAllFrames(file: File) returns (offsets: seq<nat>)
    modifies file`pos
    ensures offsets == SkipFrames(file.bytes, old(file.pos))
  {
    ghost var first := file.pos;
    offsets := [];
    var atEnd := false;
    while !atEnd
      invariant SkipFrames(file.bytes, first) == if atEnd then offsets else offsets + SkipFrames(file.bytes, file.pos)
      decreases !atEnd, |file.bytes| - file.pos
    {
      var start := file.pos;
      var skip := file.SkipBlob();
      if skip.Err? {
        assert offsets + [] == offsets;
        atEnd := true;
      } else {
        SkipFramesNext(file.bytes, start, file.pos);
        assert offsets + ([start] + SkipFrames(file.bytes, file.pos))
               == offsets + [start] + SkipFrames(file.bytes, file.pos);
        offsets := offsets + [start];
      }
    }
  }

  /** `read_recording` over an open file. */
  method ReadRecordingFile(cs: Codecs, file: File) returns (r: Result<RecordingFile, RecordingError>)
    requires file.pos == 0
    modifies file`pos
    ensures r == ReadRecording(cs, file.bytes)
  {
    var version :- file.TakeMagic();
    var m :- file.ReadBlob();
    var manifest :- Decode(cs.manifest, m);
    var markers := [];
    if version == V2 {
      var k :- file.ReadBlob();
      markers :- Decode(cs.markers, k);
    }
    var frames :- ReadAllFrames(cs, file);
    return Ok(RecordingFile(manifest, markers, frames, version));
  }

  /** `build_index` over an open file. */
  method BuildIndexFile(file: File) returns (r: Result<Index, RecordingError>)
    requires file.pos == 0
    modifies file`pos
    ensures r == BuildIndex(file.bytes)
  {
    var version :- file.TakeMagic();
    var manifestOffset := file.pos;
    var skipped :- file.SkipBlob();
    var markerOffset := None;
    if version == V2 {
      markerOffset := Some(file.pos);
      skipped :- file.SkipBlob();
    }
    var offsets := SkipAllFrames(file);
    return Ok(Index(manifestOffset, markerOffset, offsets, version));
  }
}
