/** Chunked read into multipart write: what arrives is what was read, whatever the chunks were. */
module StreamCopy {
  import opened Wrappers

  type Bytes = seq<bv8>

  const CHUNK_SIZE := 1024 * 1024
  const MIN_PART_SIZE := 5 * 1024 * 1024

  function Flatten(pieces: seq<Bytes>): Bytes {
    if pieces == [] then [] else Flatten(pieces[..|pieces| - 1]) + pieces[|pieces| - 1]
  }

  // ---------------------------------------------------------------- how bytes fall into parts

  /** The full parts of a byte string, and what is left over. */
  function FullParts(s: Bytes): seq<Bytes> {
    if |s| < MIN_PART_SIZE then [] else [s[..MIN_PART_SIZE]] + FullParts(s[MIN_PART_SIZE..])
  }

  function Remainder(s: Bytes): Bytes {
    if |s| < MIN_PART_SIZE then s else Remainder(s[MIN_PART_SIZE..])
  }

  /** The parts of an upload: a remainder is sent when it is not empty, or when nothing was sent before it. */
  function Parts(s: Bytes): seq<Bytes> {
    FullParts(s) + (if Remainder(s) != [] || FullParts(s) == [] then [Remainder(s)] else [])
  }

  /** What is wanted of an upload: nothing lost, at least one part, every part but the last of the minimum size. */
  predicate WellCut(parts: seq<Bytes>, s: Bytes) {
    && Flatten(parts) == s
    && |parts| >= 1
    && (forall i :: 0 <= i < |parts| - 1 ==> |parts[i]| == MIN_PART_SIZE)
    && |parts[|parts| - 1]| <= MIN_PART_SIZE
    && (parts[|parts| - 1] == [] ==> |parts| == 1)
  }

  lemma FlattenLast(pieces: seq<Bytes>, last: Bytes)
    ensures Flatten(pieces + [last]) == Flatten(pieces) + last
  {
    assert (pieces + [last])[..|pieces|] == pieces;
  }

  lemma {:induction false} FlattenHead(pieces: seq<Bytes>)
    requires pieces != []
    ensures Flatten(pieces) == pieces[0] + Flatten(pieces[1..])
  {
    var front, last := pieces[..|pieces| - 1], pieces[|pieces| - 1];
    Ends(pieces);
    FlattenLast(front, last);
    if |pieces| == 1 {
      FlattenNothing();
      hide Flatten;
    } else {
      FlattenHead(front);
      FlattenLast(front[1..], last);
      hide *;
      Regroup(pieces[0], Flatten(front[1..]), last);
    }
  }

  lemma Ends<T>(s: seq<T>)
    requires s != []
    ensures var front, last := s[..|s| - 1], s[|s| - 1];
      && s == front + [last]
      && (if |s| == 1 then front == [] && s[1..] == [] else front[0] == s[0] && s[1..] == front[1..] + [last])
  {
  }

  lemma Regroup<T>(a: seq<T>, b: seq<T>, c: seq<T>)
    ensures (a + b) + c == a + (b + c)
  {
  }

  lemma FlattenNothing()
    ensures Flatten([]) == []
  {
  }

  lemma CutOne(buffer: Bytes)
    requires |buffer| >= MIN_PART_SIZE
    ensures FullParts(buffer) == [buffer[..MIN_PART_SIZE]] + FullParts(buffer[MIN_PART_SIZE..])
    ensures Remainder(buffer) == Remainder(buffer[MIN_PART_SIZE..])
  {
  }

  lemma CutNone(buffer: Bytes)
    requires |buffer| < MIN_PART_SIZE
    ensures FullParts(buffer) == [] && Remainder(buffer) == buffer
  {
  }

  lemma {:induction false} FullPartsFill(s: Bytes)
    ensures Flatten(FullParts(s)) + Remainder(s) == s && |Remainder(s)| < MIN_PART_SIZE
    ensures forall i :: 0 <= i < |FullParts(s)| ==> |FullParts(s)[i]| == MIN_PART_SIZE
    decreases |s|
  {
    if |s| < MIN_PART_SIZE {
      CutNone(s);
      FlattenNothing();
    } else {
      hide *;
      var first, rest := s[..MIN_PART_SIZE], s[MIN_PART_SIZE..];
      FullPartsFill(rest);
      CutOne(s);
      FlattenCons(first, FullParts(rest));
      Regroup(first, Flatten(FullParts(rest)), Remainder(rest));
      assert first + rest == s;
    }
  }

  lemma FlattenCons(first: Bytes, rest: seq<Bytes>)
    ensures Flatten([first] + rest) == first + Flatten(rest)
  {
    FlattenHead([first] + rest);
    assert ([first] + rest)[1..] == rest;
  }

  /** The parts sent are the one way to cut the bytes well. */
  lemma {:induction false} PartsAreUnique(parts: seq<Bytes>, s: Bytes)
    ensures WellCut(parts, s) <==> parts == Parts(s)
  {
    PartsAreWellCut(s);
    if WellCut(parts, s) {
      WellCutIsParts(parts, s);
    }
  }

  lemma PartsAreWellCut(s: Bytes)
    ensures WellCut(Parts(s), s)
  {
    FullPartsFill(s);
    var full := FullParts(s);
    if Remainder(s) != [] || full == [] {
      assert Parts(s)[..|full|] == full;
    } else {
      assert Parts(s) == full;
    }
  }

  lemma {:induction false} WellCutIsParts(parts: seq<Bytes>, s: Bytes)
    requires WellCut(parts, s)
    ensures parts == Parts(s)
    decreases |parts|
  {
    FlattenHead(parts);
    if |parts| == 1 {
      assert s == parts[0];
      if |s| == MIN_PART_SIZE {
        assert s[MIN_PART_SIZE..] == [] && s[..MIN_PART_SIZE] == s;
        assert FullParts([]) == [] && Remainder([]) == [];
        assert Parts(s) == [s];
      } else {
        assert Parts(s) == [s];
      }
    } else {
      assert s[..MIN_PART_SIZE] == parts[0] && s[MIN_PART_SIZE..] == Flatten(parts[1..]);
      WellCutIsParts(parts[1..], s[MIN_PART_SIZE..]);
      assert parts == [parts[0]] + parts[1..];
      FlattenHead(parts[1..]);
    }
  }

  /** Cutting as the bytes come in gives the same full parts as cutting the whole. */
  lemma {:induction false} CutAsTheyCome(a: Bytes, b: Bytes)
    ensures FullParts(a + b) == FullParts(a) + FullParts(Remainder(a) + b)
    ensures Remainder(a + b) == Remainder(Remainder(a) + b)
    decreases |a|
  {
    if |a| >= MIN_PART_SIZE {
      assert (a + b)[..MIN_PART_SIZE] == a[..MIN_PART_SIZE];
      assert (a + b)[MIN_PART_SIZE..] == a[MIN_PART_SIZE..] + b;
      CutAsTheyCome(a[MIN_PART_SIZE..], b);
    }
  }

  // ---------------------------------------------------------------- reading

  /** Whether an operation goes through, which the code does not decide; where things are steady it does. */
  method Succeeds(steady: bool) returns (b: bool)
    ensures steady ==> b
  {
    b := *;
    b := b || steady;
  }

  /**
   What cuts a stream short: it raises, as a read error or a cancelled migration makes it do, or the copy that
   waits for it is itself cancelled, which no handler of ordinary exceptions sees.
   */
  datatype Fault = Raised | Interrupted

  method Mishap(steady: bool) returns (fault: Option<Fault>)
    ensures steady ==> fault.None?
  {
    fault := *;
    if steady {
      fault := None;
    }
  }

  /** A read returns at least one byte, at most what was asked for. */
  method ReadFileChunk(source: Bytes, offset: nat, length: nat) returns (chunk: Bytes)
    requires length > 0 && offset + length <= |source|
    ensures 0 < |chunk| <= length && chunk == source[offset..offset + |chunk|]
  {
    var n: nat :| 0 < n <= length;
    chunk := source[offset..offset + n];
  }

  /**
   Short reads or not, the chunks are the file, and each is within the chunk size; a stream that is cut short has
   given the first bytes of it.
   */
  method ReadFileStreaming(source: Bytes, chunkSize: nat, steady: bool)
      returns (chunks: seq<Bytes>, fault: Option<Fault>)
    requires chunkSize > 0
    ensures steady ==> fault.None?
    ensures Flatten(chunks) <= source && (fault.None? ==> Flatten(chunks) == source)
    ensures forall i :: 0 <= i < |chunks| ==> 0 < |chunks[i]| <= chunkSize
  {
    chunks := [];
    fault := Mishap(steady);
    var totalSize := |source|;
    var offset := 0;
    while offset < totalSize && fault.None?
      invariant 0 <= offset <= totalSize && Flatten(chunks) == source[..offset] && (steady ==> fault.None?)
      invariant forall i :: 0 <= i < |chunks| ==> 0 < |chunks[i]| <= chunkSize
    {
      var length := if chunkSize < totalSize - offset then chunkSize else totalSize - offset;
      var chunk := ReadFileChunk(source, offset, length);
      FlattenLast(chunks, chunk);
      chunks := chunks + [chunk];
      offset := offset + |chunk|;
      fault := Mishap(steady);
    }
  }

  // ---------------------------------------------------------------- object storage

  datatype Failure = RequestFailed | Rejected | StreamRaised | StreamInterrupted

  type Uploaded = map<nat, Bytes>

  /** The service takes a list of known parts in ascending order, all but the last of the minimum size. */
  predicate Acceptable(uploaded: Uploaded, numbers: seq<nat>) {
    && numbers != []
    && (forall i :: 0 <= i < |numbers| ==> 1 <= numbers[i] && numbers[i] in uploaded)
    && (forall i, j :: 0 <= i < j < |numbers| ==> numbers[i] < numbers[j])
    && (forall i :: 0 <= i < |numbers| - 1 ==> |uploaded[numbers[i]]| >= MIN_PART_SIZE)
  }

  function Bodies(uploaded: Uploaded, numbers: seq<nat>): seq<Bytes>
    requires forall i :: 0 <= i < |numbers| ==> numbers[i] in uploaded
  {
    seq(|numbers|, i requires 0 <= i < |numbers| => uploaded[numbers[i]])
  }

  /** One key of a bucket, with the multipart upload that may be open on it. */
  class ObjectStore {
    var content: Option<Bytes>
    var open: bool
    var uploaded: Uploaded
    /** Requests that failed in transit. */
    ghost var faults: nat
    /** No request fails in transit. */
    const steady: bool

    constructor (content: Option<Bytes>, steady: bool)
      ensures this.content == content && !open && faults == 0 && this.steady == steady
    {
      this.content, open, uploaded, faults := content, false, map[], 0;
      this.steady := steady;
    }

    method CreateMultipartUpload() returns (ok: bool)
      modifies this
      ensures content == old(content)
      ensures ok ==> open && uploaded == map[] && faults == old(faults)
      ensures !ok ==> open == old(open) && faults == old(faults) + 1
      ensures steady ==> ok
    {
      ok := Succeeds(steady);
      if ok {
        open, uploaded := true, map[];
      } else {
        faults := faults + 1;
      }
    }

    method UploadPart(number: nat, body: Bytes) returns (ok: bool)
      requires open
      modifies `uploaded, `faults
      ensures ok ==> uploaded == old(uploaded)[number := body] && faults == old(faults)
      ensures !ok ==> uploaded == old(uploaded) && faults == old(faults) + 1
      ensures steady ==> ok
    {
      ok := Succeeds(steady);
      if ok {
        uploaded := uploaded[number := body];
      } else {
        faults := faults + 1;
      }
    }

    method CompleteMultipartUpload(numbers: seq<nat>) returns (r: Result<(), Failure>)
      requires open
      modifies this
      ensures uploaded == old(uploaded)
      ensures r.Ok? ==> Acceptable(old(uploaded), numbers) && !open && faults == old(faults)
      ensures r.Ok? ==> content == Some(Flatten(Bodies(old(uploaded), numbers)))
      ensures r == Err(Rejected) ==> !Acceptable(old(uploaded), numbers)
      ensures r.Err? ==> content == old(content) && open && r.error in {RequestFailed, Rejected}
      ensures r == Err(RequestFailed) ==> faults == old(faults) + 1 && !steady
    {
      var sent := Succeeds(steady);
      if !sent {
        faults := faults + 1;
        return Err(RequestFailed);
      }
      if !Acceptable(uploaded, numbers) {
        return Err(Rejected);
      }
      content := Some(Flatten(Bodies(uploaded, numbers)));
      open := false;
      r := Ok(());
    }

    method AbortMultipartUpload() returns (ok: bool)
      modifies `open, `faults
      ensures open == !ok && faults == old(faults) + (if ok then 0 else 1) && (steady ==> ok)
    {
      ok := Succeeds(steady);
      open := !ok;
      faults := faults + (if ok then 0 else 1);
    }
  }

  /** The part numbers in use: 1 to n. */
  function Numbers(n: nat): (numbers: seq<nat>)
    ensures |numbers| == n && forall i :: 0 <= i < n ==> numbers[i] == i + 1
  {
    seq(n, i => i + 1)
  }

  /** Exactly these bodies are uploaded, under the numbers 1 to n. */
  ghost predicate UploadedAre(uploaded: Uploaded, bodies: seq<Bytes>) {
    forall n :: (n in uploaded <==> 1 <= n <= |bodies|) && (n in uploaded ==> uploaded[n] == bodies[n - 1])
  }

  lemma OneMoreUploaded(before: Uploaded, bodies: seq<Bytes>, body: Bytes)
    requires UploadedAre(before, bodies)
    ensures UploadedAre(before[|bodies| + 1 := body], bodies + [body])
    ensures Numbers(|bodies|) + [|bodies| + 1] == Numbers(|bodies| + 1)
  {
  }

  lemma UploadedBodies(uploaded: Uploaded, bodies: seq<Bytes>)
    requires UploadedAre(uploaded, bodies)
    ensures forall i :: 0 <= i < |bodies| ==> Numbers(|bodies|)[i] in uploaded
    ensures Bodies(uploaded, Numbers(|bodies|)) == bodies
  {
  }

  lemma WellCutIsAcceptable(uploaded: Uploaded, bodies: seq<Bytes>, s: Bytes)
    requires UploadedAre(uploaded, bodies) && WellCut(bodies, s)
    ensures Acceptable(uploaded, Numbers(|bodies|)) && Bodies(uploaded, Numbers(|bodies|)) == bodies
  {
    hide Flatten, UploadedAre;
    UploadedBodies(uploaded, bodies);
    var numbers := Numbers(|bodies|);
    forall i | 0 <= i < |bodies| - 1 ensures |uploaded[numbers[i]]| == MIN_PART_SIZE {
      assert Bodies(uploaded, numbers)[i] == bodies[i];
    }
  }

  lemma WellCutIsWhole(parts: seq<Bytes>, s: Bytes)
    requires WellCut(parts, s)
    ensures Flatten(parts) == s
  {
  }

  lemma StartUpload()
    ensures UploadedAre(map[], []) && Numbers(0) == []
    ensures FullParts(Flatten([])) == [] && Remainder(Flatten([])) == [] && Flatten([]) == []
  {
  }

  lemma FlattenNext(chunks: seq<Bytes>, i: nat)
    requires i < |chunks|
    ensures Flatten(chunks[..i + 1]) == Flatten(chunks[..i]) + chunks[i]
  {
    assert chunks[..i + 1][..i] == chunks[..i];
  }

  /**
   All of the stream arrives or the key is as it was.  The parts are numbered from 1, and they are the one good
   cut of the stream.  A write fails only when a request did or the stream was cut short; it leaves an upload open
   only when abandoning it failed, or was not even tried because the copy itself was cancelled.
   */
  method WriteFileStreaming(store: ObjectStore, chunks: seq<Bytes>, fault: Option<Fault>)
      returns (r: Result<nat, Failure>)
    modifies store
    ensures r.Ok? ==>
      && fault.None? && !store.open && r.result == |Flatten(chunks)| && store.content == Some(Flatten(chunks))
      && UploadedAre(store.uploaded, Parts(Flatten(chunks)))
    ensures r.Err? ==> store.content == old(store.content)
    ensures r == Err(StreamRaised) ==> fault == Some(Raised) && !store.open && store.faults == old(store.faults)
    ensures r == Err(StreamInterrupted) ==> fault == Some(Interrupted) && store.open
    ensures store.steady ==> match fault
      case None => r.Ok?
      case Some(Raised) => r == Err(StreamRaised)
      case Some(Interrupted) => r == Err(StreamInterrupted)
    ensures r.Err? && r.error != StreamRaised && r.error != StreamInterrupted ==>
      && store.faults > old(store.faults)
      && (store.open ==> old(store.open) || fault == Some(Raised) || store.faults >= old(store.faults) + 2)
  {
    hide Flatten, FullParts, Remainder, Acceptable, WellCut, UploadedAre, Numbers, Bodies;
    var created := store.CreateMultipartUpload();
    if !created {
      return Err(RequestFailed);
    }
    StartUpload();
    var parts: seq<nat>, partNumber: nat, totalWritten, buffer: Bytes := [], 1, 0, [];
    ghost var bodies: seq<Bytes> := [];
    for i := 0 to |chunks|
      invariant store.open && store.content == old(store.content) && store.faults == old(store.faults)
      invariant bodies == FullParts(Flatten(chunks[..i])) && buffer == Remainder(Flatten(chunks[..i]))
      invariant totalWritten == |Flatten(chunks[..i])|
      invariant parts == Numbers(|bodies|) && partNumber == |bodies| + 1 && UploadedAre(store.uploaded, bodies)
    {
      var chunk := chunks[i];
      FlattenNext(chunks, i);
      CutAsTheyCome(Flatten(chunks[..i]), chunk);
      buffer := buffer + chunk;
      totalWritten := totalWritten + |chunk|;
      while |buffer| >= MIN_PART_SIZE
        invariant store.open && store.content == old(store.content) && store.faults == old(store.faults)
        invariant bodies + FullParts(buffer) == FullParts(Flatten(chunks[..i + 1]))
        invariant Remainder(buffer) == Remainder(Flatten(chunks[..i + 1]))
        invariant parts == Numbers(|bodies|) && partNumber == |bodies| + 1 && UploadedAre(store.uploaded, bodies)
        decreases |buffer|
      {
        CutOne(buffer);
        var partData := buffer[..MIN_PART_SIZE];
        buffer := buffer[MIN_PART_SIZE..];
        OneMoreUploaded(store.uploaded, bodies, partData);
        var ok := store.UploadPart(partNumber, partData);
        if !ok {
          var aborted := store.AbortMultipartUpload();
          return Err(RequestFailed);
        }
        parts, partNumber, bodies := parts + [partNumber], partNumber + 1, bodies + [partData];
      }
      CutNone(buffer);
    }
    assert chunks[..|chunks|] == chunks;
    if fault.Some? {
      if fault.value.Interrupted? {
        return Err(StreamInterrupted);
      }
      var aborted := store.AbortMultipartUpload();
      return Err(if aborted then StreamRaised else RequestFailed);
    }
    if buffer != [] || parts == [] {
      OneMoreUploaded(store.uploaded, bodies, buffer);
      var ok := store.UploadPart(partNumber, buffer);
      if !ok {
        var aborted := store.AbortMultipartUpload();
        return Err(RequestFailed);
      }
      parts, bodies := parts + [partNumber], bodies + [buffer];
    }
    assert bodies == Parts(Flatten(chunks));
    PartsAreUnique(bodies, Flatten(chunks));
    WellCutIsAcceptable(store.uploaded, bodies, Flatten(chunks));
    assert Flatten(bodies) == Flatten(chunks) by { WellCutIsWhole(bodies, Flatten(chunks)); }
    var done := store.CompleteMultipartUpload(parts);
    if done.Err? {
      assert done.error != Rejected;
      var aborted := store.AbortMultipartUpload();
      return Err(done.error);
    }
    r := Ok(totalWritten);
  }

  /** A copy between backends delivers the source, byte for byte, or leaves the target key alone. */
  method CopyToObjectStore(source: Bytes, store: ObjectStore, steady: bool) returns (r: Result<nat, Failure>)
    modifies store
    ensures steady && store.steady ==> r.Ok?
    ensures r.Ok? ==> r.result == |source| && store.content == Some(source)
    ensures r.Ok? ==> UploadedAre(store.uploaded, Parts(source))
    ensures r.Err? ==> store.content == old(store.content)
    ensures r.Err? && r.error != StreamRaised && r.error != StreamInterrupted ==> store.faults > old(store.faults)
  {
    var chunks, fault := ReadFileStreaming(source, CHUNK_SIZE, steady);
    r := WriteFileStreaming(store, chunks, fault);
  }

  // ---------------------------------------------------------------- local files

  /** The file could not be opened, or so many bytes had been written when the write ended. */
  datatype LocalFailure = NotOpened | CutOff(kept: nat)

  class LocalFile {
    var content: Option<Bytes>
    /** The file can be opened and written. */
    const steady: bool

    constructor (content: Option<Bytes>, steady: bool)
      ensures this.content == content && this.steady == steady
    {
      this.content, this.steady := content, steady;
    }

    /**
     The file is rewritten in place: a write that breaks leaves the bytes written so far, even part of a chunk, and
     a stream that is cut short leaves all it gave.
     */
    method WriteFileStreaming(chunks: seq<Bytes>, fault: Option<Fault>) returns (r: Result<nat, LocalFailure>)
      modifies this
      ensures r.Ok? ==> fault.None? && r.result == |Flatten(chunks)| && content == Some(Flatten(chunks))
      ensures r == Err(NotOpened) ==> content == old(content)
      ensures steady ==> r == if fault.None? then Ok(|Flatten(chunks)|) else Err(CutOff(|Flatten(chunks)|))
      ensures r.Err? && r.error.CutOff? ==>
        r.error.kept <= |Flatten(chunks)| && content == Some(Flatten(chunks)[..r.error.kept])
    {
      var isOpen := Succeeds(steady);
      if !isOpen {
        return Err(NotOpened);
      }
      var totalWritten := 0;
      content := Some([]);
      for i := 0 to |chunks|
        invariant content == Some(Flatten(chunks[..i])) && totalWritten == |Flatten(chunks[..i])|
      {
        FlattenNext(chunks, i);
        FlattenPrefix(chunks, i + 1);
        var ok := Succeeds(steady);
        if !ok {
          var torn: nat :| torn <= |chunks[i]|;
          PrefixCut(Flatten(chunks), Flatten(chunks[..i]), chunks[i], torn);
          content := Some(content.value + chunks[i][..torn]);
          return Err(CutOff(totalWritten + torn));
        }
        content := Some(content.value + chunks[i]);
        totalWritten := totalWritten + |chunks[i]|;
      }
      assert chunks[..|chunks|] == chunks;
      assert Flatten(chunks)[..totalWritten] == Flatten(chunks);
      r := if fault.None? then Ok(totalWritten) else Err(CutOff(totalWritten));
    }

    /** A copy to a local file delivers the source, or leaves the file as it was or with a first part of the source. */
    method CopyFrom(source: Bytes, readable: bool) returns (r: Result<nat, LocalFailure>)
      modifies this
      ensures steady && readable ==> r.Ok?
      ensures r.Ok? ==> r.result == |source| && content == Some(source)
      ensures r == Err(NotOpened) ==> content == old(content)
      ensures r.Err? && r.error.CutOff? ==> r.error.kept <= |source| && content == Some(source[..r.error.kept])
    {
      var chunks, fault := ReadFileStreaming(source, CHUNK_SIZE, readable);
      r := WriteFileStreaming(chunks, fault);
      assert r.Err? && r.error.CutOff? ==> Flatten(chunks)[..r.error.kept] == source[..r.error.kept];
    }
  }

  lemma PrefixCut(whole: Bytes, front: Bytes, chunk: Bytes, n: nat)
    requires front + chunk <= whole && n <= |chunk|
    ensures |front| + n <= |whole| && front + chunk[..n] == whole[..|front| + n]
  {
  }

  /** The first chunks are the first bytes. */
  lemma {:induction false} FlattenPrefix(chunks: seq<Bytes>, n: nat)
    requires n <= |chunks|
    ensures Flatten(chunks[..n]) <= Flatten(chunks)
    decreases |chunks|
  {
    if n == |chunks| {
      assert chunks[..n] == chunks;
    } else {
      var front := chunks[..|chunks| - 1];
      assert front[..n] == chunks[..n];
      FlattenPrefix(front, n);
    }
  }
}
