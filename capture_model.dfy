/**
 * The chunked capture-and-upload loop of client-rivora/src/hooks/useLocalRecorder.js,
 * as a state machine over values. Every React ref and state variable of the hook is a
 * field of `Capture`; every callback the browser delivers (a timer firing, a recorder's
 * onstop, an upload's onload/onerror/progress) is an `Event`; `Step` is what the hook's
 * code does with it. The class in local_recorder.dfy runs the same transitions in place.
 */
module CaptureModel {
  import opened Wrappers
  import opened JsString

  /** Identity of a browser object the hook creates: a MediaRecorder or an XMLHttpRequest. */
  type Handle = nat

  /**
   * A MediaRecorder made by one cycle: the chunk number it records, and whether its
   * state is still "recording" (false once stop() was called and its onstop is due).
   */
  datatype Sink = Sink(chunk: nat, recording: bool)

  /** An upload request that has been sent and whose onload or onerror is still due. */
  datatype Upload = Upload(chunk: nat, publicId: string)

  /** The arguments of the hook: the session and the participant's role. */
  datatype Params = Params(sessionId: string, userRole: string)

  datatype Capture = Capture(
    streamHeld: bool,                  // mediaStreamRef.current is a live stream
    active: bool,                      // recordingActiveRef.current
    isRecording: bool,
    chunkCounter: nat,                 // chunkCounterRef.current
    currentRecorder: Option<Handle>,   // currentRecorderRef.current
    uploadedUrls: seq<string>,         // uploadedChunkUrls
    isUploading: bool,
    uploadProgress: int,
    pendingCycles: nat,                // setTimeout(recordChunk, 100) calls not yet run
    sinks: map<Handle, Sink>,          // recorders whose onstop has not run yet
    uploads: map<Handle, Upload>,      // requests whose onload/onerror has not run yet
    nextHandle: Handle,                // the next object identity to hand out
    acquiring: nat,                    // startRecording calls still awaiting getUserMedia
    leakedStreams: nat)                // live streams mediaStreamRef no longer points to

  /** The state right after the hook is mounted. */
  function Initial(): Capture
  {
    Capture(false, false, false, 0, None, [], false, 0, 0, map[], map[], 0, 0, 0)
  }

  /**
   * What the state always satisfies: the stream, the active flag and the recording
   * flag agree, the current recorder is a live one, and every live object has an
   * identity below the allocator's.
   */
  predicate Inv(s: Capture)
  {
    && s.streamHeld == s.active
    && s.isRecording == s.active
    && (s.currentRecorder.Some? ==> s.currentRecorder.value in s.sinks)
    && (forall h :: h in s.sinks ==> h < s.nextHandle)
    && (forall h :: h in s.uploads ==> h < s.nextHandle)
  }

  /**
   * The public identifier an upload is tagged with, `{sessionId}/{role}/chunk-{n}-{ms}`:
   * the chunk number can be read back from it, whatever the session id and role.
   */
  function PublicId(p: Params, chunk: nat, now: nat): (r: string)
    ensures ChunkOfPublicId(r) == Some(chunk)
  {
    var prefix := p.sessionId + "/" + p.userRole + "/chunk";
    ChunkIdRoundTrip(prefix, chunk, now);
    prefix + "-" + DecimalString(chunk) + "-" + DecimalString(now)
  }

  /** Reads the chunk number back out of a public identifier: the digits between its last two dashes. */
  function ChunkOfPublicId(publicId: string): Option<nat>
  {
    match LastIndexOf(publicId, '-')
    case None => None
    case Some(k) =>
      match LastIndexOf(publicId[..k], '-')
      case None => None
      case Some(k2) =>
        var digits := publicId[k2 + 1..k];
        if digits != [] && AllDigits(digits) then Some(DecimalValue(digits)) else None
  }

  /** Whatever precedes them, the two numbers after the last two dashes give back the first one. */
  lemma ChunkIdRoundTrip(prefix: string, chunk: nat, now: nat)
    ensures ChunkOfPublicId(prefix + "-" + DecimalString(chunk) + "-" + DecimalString(now)) == Some(chunk)
  {
    var d1, d2 := DecimalString(chunk), DecimalString(now);
    var a := prefix + ['-'] + d1;
    var id := a + ['-'] + d2;
    assert prefix + "-" + d1 + "-" + d2 == id;
    NoDashInDigits(d1);
    NoDashInDigits(d2);
    LastIndexOfSplit(a, '-', d2);
    assert id[..|a|] == a;
    LastIndexOfSplit(prefix, '-', d1);
    assert a[|prefix| + 1..|a|] == d1;
    DecimalRoundTrip(chunk);
  }

  /** Decimal digits hold no dash. */
  lemma NoDashInDigits(d: string)
    requires AllDigits(d)
    ensures forall j :: 0 <= j < |d| ==> d[j] != '-'
  {
  }

  /** The recorder `h` is told to stop: its state leaves "recording" and its onstop becomes due. */
  function StopSink(s: Capture, h: Handle): Capture
    requires h in s.sinks
  {
    s.(sinks := s.sinks[h := s.sinks[h].(recording := false)])
  }

  /** The handles of the recorders whose state is "recording". */
  function RecordingSinks(s: Capture): set<Handle>
  {
    set h | h in s.sinks && s.sinks[h].recording
  }

  /** The current recorder, if its state is "recording". */
  predicate CurrentIsRecording(s: Capture)
  {
    s.currentRecorder.Some? && s.currentRecorder.value in s.sinks && s.sinks[s.currentRecorder.value].recording
  }

  /**
   * One run of `recordChunk`: the guard, the chunk number, then creating the recorder
   * (`sinkOk`) or failing to, which aborts the capture.
   */
  function RecordChunk(s: Capture, sinkOk: bool): (t: Capture)
    ensures !s.active || !s.streamHeld ==> t == s
    ensures s.active && s.streamHeld ==> t.chunkCounter == s.chunkCounter + 1
    ensures s.active && s.streamHeld && !sinkOk ==>
      !t.active && !t.isRecording && !t.streamHeld && t.currentRecorder == None && t.sinks == s.sinks
    ensures s.active && s.streamHeld && sinkOk ==>
      && t.currentRecorder == Some(s.nextHandle)
      && t.sinks == s.sinks[s.nextHandle := Sink(s.chunkCounter, true)]
      && t.nextHandle == s.nextHandle + 1
      && t.active && t.streamHeld && t.isRecording == s.isRecording
    ensures t.pendingCycles == s.pendingCycles && t.uploadedUrls == s.uploadedUrls && t.uploads == s.uploads
    ensures t.isUploading == s.isUploading && t.uploadProgress == s.uploadProgress
    ensures t.acquiring == s.acquiring && t.leakedStreams == s.leakedStreams
  {
    if !s.active || !s.streamHeld then s
    else
      var n := s.chunkCounter;
      if !sinkOk then
        s.(chunkCounter := n + 1, active := false, isRecording := false,
           streamHeld := false, currentRecorder := None)
      else
        var h := s.nextHandle;
        s.(chunkCounter := n + 1, currentRecorder := Some(h),
           sinks := s.sinks[h := Sink(n, true)], nextHandle := h + 1)
  }

  /**
   * `startRecording` up to its `await`: a no-op while recording; otherwise the call
   * asks for the camera and microphone and waits. Nothing else changes before the
   * answer comes, so further calls, callbacks and the cleanup can run in between.
   */
  function StartCall(s: Capture): (t: Capture)
    ensures s.isRecording ==> t == s
    ensures !s.isRecording ==> t.acquiring == s.acquiring + 1
    ensures t.(acquiring := s.acquiring) == s
  {
    if s.isRecording then s else s.(acquiring := s.acquiring + 1)
  }

  /**
   * The rest of `startRecording` once `getUserMedia` settles, without a second look at
   * the guard. On success (`acquired`) the new stream replaces whatever stream the ref
   * held, which is then never stopped; the counters and the URL list are reset and the
   * first cycle runs. On failure everything is released, including a stream that
   * another call acquired meanwhile.
   */
  function AcquireDone(s: Capture, acquired: bool, sinkOk: bool): (t: Capture)
    requires s.acquiring > 0
    ensures t.acquiring == s.acquiring - 1
    ensures acquired ==>
      && t.leakedStreams == s.leakedStreams + (if s.streamHeld then 1 else 0)
      && t.chunkCounter == 1
      && t.uploadedUrls == []
      && !t.isUploading && t.uploadProgress == 0
      && t.active == sinkOk && t.isRecording == sinkOk && t.streamHeld == sinkOk
      && t.currentRecorder == (if sinkOk then Some(s.nextHandle) else None)
      && t.sinks == (if sinkOk then s.sinks[s.nextHandle := Sink(0, true)] else s.sinks)
    ensures !acquired ==>
      && t.leakedStreams == s.leakedStreams
      && !t.active && !t.isRecording && !t.streamHeld
      && !t.isUploading && t.uploadProgress == 0
      && t.chunkCounter == s.chunkCounter && t.uploadedUrls == s.uploadedUrls
      && t.currentRecorder == s.currentRecorder && t.sinks == s.sinks
    ensures t.pendingCycles == s.pendingCycles && t.uploads == s.uploads
  {
    var s0 := s.(acquiring := s.acquiring - 1);
    if acquired then
      var leaked := if s.streamHeld then s.leakedStreams + 1 else s.leakedStreams;
      RecordChunk(s0.(streamHeld := true, leakedStreams := leaked, isRecording := true, active := true,
                      chunkCounter := 0, uploadedUrls := [], isUploading := false, uploadProgress := 0), sinkOk)
    else
      s0.(isRecording := false, active := false, isUploading := false, uploadProgress := 0,
          streamHeld := false)
  }

  /**
   * `stopRecording`: a no-op unless the loop is active; otherwise it clears the active
   * flag, stops the current recorder if it is still recording, and releases the stream.
   */
  function Stop(s: Capture): (t: Capture)
    ensures !s.active ==> t == s
    ensures s.active ==> !t.active && !t.isRecording && !t.streamHeld
    ensures s.active && CurrentIsRecording(s) ==>
      t.currentRecorder == None && t.sinks == StopSink(s, s.currentRecorder.value).sinks
    ensures s.active && !CurrentIsRecording(s) ==>
      t.currentRecorder == s.currentRecorder && t.sinks == s.sinks
    ensures t.chunkCounter == s.chunkCounter && t.pendingCycles == s.pendingCycles
    ensures t.uploadedUrls == s.uploadedUrls && t.uploads == s.uploads
    ensures t.isUploading == s.isUploading && t.uploadProgress == s.uploadProgress
    ensures t.acquiring == s.acquiring && t.leakedStreams == s.leakedStreams
  {
    if !s.active then s
    else
      var s1 := s.(isRecording := false, active := false);
      var s2 := if CurrentIsRecording(s) then StopSink(s1, s.currentRecorder.value).(currentRecorder := None) else s1;
      s2.(streamHeld := false)
  }

  /**
   * The cleanup of the hook's effect, run on unmount and whenever `userRole` changes: unconditionally releases the stream, stops the current
   * recorder if it is still recording, forgets it, and clears every status flag.
   */
  function Teardown(s: Capture): (t: Capture)
    ensures !t.active && !t.isRecording && !t.streamHeld && t.currentRecorder == None
    ensures !t.isUploading && t.uploadProgress == 0
    ensures t.sinks == if CurrentIsRecording(s) then StopSink(s, s.currentRecorder.value).sinks else s.sinks
    ensures t.chunkCounter == s.chunkCounter && t.pendingCycles == s.pendingCycles
    ensures t.uploadedUrls == s.uploadedUrls && t.uploads == s.uploads
    ensures t.acquiring == s.acquiring && t.leakedStreams == s.leakedStreams
  {
    var s1 := if CurrentIsRecording(s) then StopSink(s, s.currentRecorder.value) else s;
    s1.(streamHeld := false, currentRecorder := None, active := false, isRecording := false,
        isUploading := false, uploadProgress := 0)
  }

  /** The 5-second timer of recorder `h`: it stops the recorder only if it is still recording. */
  function SegmentTimer(s: Capture, h: Handle): (t: Capture)
    ensures RecordingSinks(t) == RecordingSinks(s) - {h}
    ensures t.sinks.Keys == s.sinks.Keys
    ensures forall k :: k in s.sinks ==> t.sinks[k].chunk == s.sinks[k].chunk
    ensures t.(sinks := s.sinks) == s
  {
    if h in s.sinks && s.sinks[h].recording then StopSink(s, h) else s
  }

  /**
   * The onstop of recorder `h`, with the assembled blob empty or not. An empty chunk is
   * skipped; a non-empty one starts an upload. Either way the next cycle is scheduled
   * exactly when the loop is still active, without waiting for the upload.
   */
  function SinkStopped(p: Params, s: Capture, h: Handle, blobEmpty: bool, now: nat): (t: Capture)
    requires h in s.sinks
    ensures t.sinks == s.sinks - {h}
    ensures t.currentRecorder == if s.currentRecorder == Some(h) then None else s.currentRecorder
    ensures t.pendingCycles == s.pendingCycles + (if s.active then 1 else 0)
    ensures t.uploadedUrls == s.uploadedUrls && t.chunkCounter == s.chunkCounter
    ensures t.active == s.active && t.isRecording == s.isRecording && t.streamHeld == s.streamHeld
    ensures t.acquiring == s.acquiring && t.leakedStreams == s.leakedStreams
    ensures blobEmpty ==>
      t.uploads == s.uploads && t.isUploading == s.isUploading && t.uploadProgress == s.uploadProgress
    ensures !blobEmpty ==>
      var chunk := s.sinks[h].chunk;
      && t.isUploading && t.uploadProgress == 0
      && t.uploads == s.uploads[s.nextHandle := Upload(chunk, PublicId(p, chunk, now))]
  {
    var chunk := s.sinks[h].chunk;
    var s1 := s.(sinks := s.sinks - {h},
                 currentRecorder := if s.currentRecorder == Some(h) then None else s.currentRecorder);
    var next := if s.active then s.pendingCycles + 1 else s.pendingCycles;
    if blobEmpty then s1.(pendingCycles := next)
    else
      s1.(isUploading := true, uploadProgress := 0,
          uploads := s.uploads[s.nextHandle := Upload(chunk, PublicId(p, chunk, now))],
          nextHandle := s.nextHandle + 1, pendingCycles := next)
  }

  /** A scheduled `setTimeout(recordChunk, 100)` fires and runs one cycle. */
  function CycleTimer(s: Capture, sinkOk: bool): (t: Capture)
    requires s.pendingCycles > 0
    ensures t.pendingCycles == s.pendingCycles - 1
    ensures t.chunkCounter == s.chunkCounter + (if s.active && s.streamHeld then 1 else 0)
    ensures !s.active || !s.streamHeld ==> t == s.(pendingCycles := s.pendingCycles - 1)
    ensures s.active && s.streamHeld && sinkOk ==>
      && t.currentRecorder == Some(s.nextHandle)
      && t.sinks == s.sinks[s.nextHandle := Sink(s.chunkCounter, true)]
      && t.nextHandle == s.nextHandle + 1
      && t.active && t.streamHeld && t.isRecording == s.isRecording
    ensures s.active && s.streamHeld && !sinkOk ==>
      !t.active && !t.isRecording && !t.streamHeld && t.currentRecorder == None && t.sinks == s.sinks
    ensures t.uploadedUrls == s.uploadedUrls && t.uploads == s.uploads
    ensures t.isUploading == s.isUploading && t.uploadProgress == s.uploadProgress
  {
    RecordChunk(s.(pendingCycles := s.pendingCycles - 1), sinkOk)
  }

  /** A progress event of upload `h`; only a computable length changes the percentage. */
  function UploadProgress(s: Capture, h: Handle, computable: bool, percent: int): (t: Capture)
    requires h in s.uploads
    ensures t.uploadProgress == if computable then percent else s.uploadProgress
    ensures t.(uploadProgress := s.uploadProgress) == s
  {
    if computable then s.(uploadProgress := percent) else s
  }

  /** The onload of upload `h`: only a 2xx status appends the returned URL. */
  function UploadLoad(s: Capture, h: Handle, status: int, url: string): (t: Capture)
    requires h in s.uploads
    ensures !t.isUploading && t.uploadProgress == 0 && t.uploads == s.uploads - {h}
    ensures 200 <= status < 300 ==> t.uploadedUrls == s.uploadedUrls + [url]
    ensures !(200 <= status < 300) ==> t.uploadedUrls == s.uploadedUrls
    ensures t.(uploadedUrls := s.uploadedUrls, uploads := s.uploads, isUploading := s.isUploading,
               uploadProgress := s.uploadProgress) == s
  {
    var s1 := s.(uploads := s.uploads - {h}, isUploading := false, uploadProgress := 0);
    if 200 <= status < 300 then s1.(uploadedUrls := s.uploadedUrls + [url]) else s1
  }

  /** The onerror of upload `h`: the flags are reset and the URL list is left alone. */
  function UploadError(s: Capture, h: Handle): (t: Capture)
    requires h in s.uploads
    ensures !t.isUploading && t.uploadProgress == 0 && t.uploads == s.uploads - {h}
    ensures t.(uploads := s.uploads, isUploading := s.isUploading, uploadProgress := s.uploadProgress) == s
  {
    s.(uploads := s.uploads - {h}, isUploading := false, uploadProgress := 0)
  }

  /** Everything that can happen to the hook: the two calls it exports, its unmount, and the browser callbacks. */
  datatype Event =
    | StartEv
    | AcquireEv(acquired: bool, sinkOk: bool)
    | StopEv
    | TeardownEv
    | SegmentTimerEv(sink: Handle)
    | SinkStoppedEv(sink: Handle, blobEmpty: bool, now: nat)
    | CycleTimerEv(sinkOk: bool)
    | ProgressEv(upload: Handle, computable: bool, percent: int)
    | LoadEv(upload: Handle, status: int, url: string)
    | ErrorEv(upload: Handle)

  /** The browser only delivers a callback for an object that exists and a timer that was set. */
  predicate Enabled(s: Capture, e: Event)
  {
    match e
    case AcquireEv(_, _) => s.acquiring > 0
    case SinkStoppedEv(h, _, _) => h in s.sinks
    case CycleTimerEv(_) => s.pendingCycles > 0
    case ProgressEv(h, _, _) => h in s.uploads
    case LoadEv(h, _, _) => h in s.uploads
    case ErrorEv(h) => h in s.uploads
    case _ => true
  }

  function Step(p: Params, s: Capture, e: Event): Capture
    requires Enabled(s, e)
  {
    match e
    case StartEv => StartCall(s)
    case AcquireEv(acquired, sinkOk) => AcquireDone(s, acquired, sinkOk)
    case StopEv => Stop(s)
    case TeardownEv => Teardown(s)
    case SegmentTimerEv(h) => SegmentTimer(s, h)
    case SinkStoppedEv(h, blobEmpty, now) => SinkStopped(p, s, h, blobEmpty, now)
    case CycleTimerEv(sinkOk) => CycleTimer(s, sinkOk)
    case ProgressEv(h, computable, percent) => UploadProgress(s, h, computable, percent)
    case LoadEv(h, status, url) => UploadLoad(s, h, status, url)
    case ErrorEv(h) => UploadError(s, h)
  }

  /** The state after a sequence of events; an event that cannot be delivered in the state it meets is dropped. */
  function Run(p: Params, s: Capture, es: seq<Event>): Capture
    decreases |es|
  {
    if es == [] then s
    else Run(p, if Enabled(s, es[0]) then Step(p, s, es[0]) else s, es[1..])
  }

  /** No event of `es` is a call of startRecording. */
  predicate NoStart(es: seq<Event>)
  {
    forall i :: 0 <= i < |es| ==> !es[i].StartEv?
  }

  /** No acquisition of `es` completes: the events of one capture session. */
  predicate NoAcquire(es: seq<Event>)
  {
    forall i :: 0 <= i < |es| ==> !es[i].AcquireEv?
  }

  lemma InitialInv()
    ensures Inv(Initial())
  {
  }

  /** Every transition keeps the invariant. */
  lemma StepPreservesInv(p: Params, s: Capture, e: Event)
    requires Inv(s) && Enabled(s, e)
    ensures Inv(Step(p, s, e))
  {
    var t := Step(p, s, e);
    match e
    case AcquireEv(acquired, sinkOk) =>
      if acquired && sinkOk {
        assert t.sinks == s.sinks[s.nextHandle := Sink(0, true)];
      }
    case CycleTimerEv(sinkOk) =>
      var s1 := s.(pendingCycles := s.pendingCycles - 1);
      assert Inv(s1);
    case SinkStoppedEv(h, blobEmpty, now) =>
    case _ =>
  }

  /** An onstop keeps the invariant: it only removes a recorder and adds a fresh upload. */
  lemma SinkStoppedPreservesInv(p: Params, s: Capture, h: Handle, blobEmpty: bool, now: nat)
    requires Inv(s) && h in s.sinks
    ensures Inv(SinkStopped(p, s, h, blobEmpty, now))
  {
  }

  /** The cleanup keeps the invariant: it switches everything off together. */
  lemma TeardownPreservesInv(s: Capture)
    requires Inv(s)
    ensures Inv(Teardown(s))
  {
  }

  /** `stopRecording` keeps the invariant. */
  lemma StopPreservesInv(s: Capture)
    requires Inv(s)
    ensures Inv(Stop(s))
  {
  }

  /** One cycle keeps the invariant: it only adds a fresh recorder, or switches everything off together. */
  lemma RecordChunkPreservesInv(s: Capture, sinkOk: bool)
    requires Inv(s)
    ensures Inv(RecordChunk(s, sinkOk))
  {
    if s.active && s.streamHeld && sinkOk {
      assert RecordChunk(s, sinkOk).sinks == s.sinks[s.nextHandle := Sink(s.chunkCounter, true)];
    }
  }

  /** A settled acquisition keeps the invariant: it only adds a fresh recorder. */
  lemma AcquireDonePreservesInv(s: Capture, acquired: bool, sinkOk: bool)
    requires Inv(s) && s.acquiring > 0
    ensures Inv(AcquireDone(s, acquired, sinkOk))
  {
    if acquired && sinkOk {
      assert AcquireDone(s, acquired, sinkOk).sinks == s.sinks[s.nextHandle := Sink(0, true)];
    }
  }

  /** Every reachable state satisfies the invariant. */
  lemma {:induction false} RunPreservesInv(p: Params, s: Capture, es: seq<Event>)
    requires Inv(s)
    ensures Inv(Run(p, s, es))
    decreases |es|
  {
    if es != [] {
      var s1 := if Enabled(s, es[0]) then Step(p, s, es[0]) else s;
      if Enabled(s, es[0]) { StepPreservesInv(p, s, es[0]); }
      RunPreservesInv(p, s1, es[1..]);
    }
  }

  /** The numbers `a`, `a + 1`, ..., `b - 1`. */
  function Interval(a: nat, b: nat): (r: seq<nat>)
    ensures |r| == if a <= b then b - a else 0
    decreases b
  {
    if b <= a then [] else Interval(a, b - 1) + [b - 1]
  }

  lemma {:induction false} IntervalAt(a: nat, b: nat, i: nat)
    requires a <= b && i < b - a
    ensures |Interval(a, b)| == b - a && Interval(a, b)[i] == a + i
    decreases b
  {
    if i < b - 1 - a {
      IntervalAt(a, b - 1, i);
    } else if b - 1 > a {
      IntervalAt(a, b - 1, 0);
    }
  }

  lemma {:induction false} IntervalConcat(a: nat, b: nat, c: nat)
    requires a <= b <= c
    ensures Interval(a, b) + Interval(b, c) == Interval(a, c)
    decreases c
  {
    if c > b {
      IntervalConcat(a, b, c - 1);
    }
  }

  /** The chunk numbers a step hands out (a cycle that gets past the guard takes one). */
  function Assigned(s: Capture, e: Event): seq<nat>
  {
    match e
    case AcquireEv(acquired, _) => if acquired then [0] else []
    case CycleTimerEv(_) => if s.active && s.streamHeld then [s.chunkCounter] else []
    case _ => []
  }

  /** The chunk numbers handed out along a run, in order. */
  function AssignedIn(p: Params, s: Capture, es: seq<Event>): seq<nat>
    decreases |es|
  {
    if es == [] then []
    else if Enabled(s, es[0]) then Assigned(s, es[0]) + AssignedIn(p, Step(p, s, es[0]), es[1..])
    else AssignedIn(p, s, es[1..])
  }

  /** Outside a completing acquisition, a step hands out exactly the numbers by which it advances the counter. */
  lemma StepAssigns(p: Params, s: Capture, e: Event)
    requires Enabled(s, e) && !e.AcquireEv?
    ensures s.chunkCounter <= Step(p, s, e).chunkCounter
    ensures Assigned(s, e) == Interval(s.chunkCounter, Step(p, s, e).chunkCounter)
  {
    var c := s.chunkCounter;
    assert Interval(c, c) == [];
    assert Interval(c, c + 1) == [c] by {
      assert Interval(c, c + 1) == Interval(c, c) + [c];
    }
  }

  /**
   * Within one capture session the chunk numbers handed out are exactly the counter's
   * values from its start to its end, in order: contiguous in attempts (an empty chunk
   * or a failed recorder still uses its number) and strictly increasing.
   */
  lemma {:induction false} ChunkNumbersContiguous(p: Params, s: Capture, es: seq<Event>)
    requires NoAcquire(es)
    ensures s.chunkCounter <= Run(p, s, es).chunkCounter
    ensures AssignedIn(p, s, es) == Interval(s.chunkCounter, Run(p, s, es).chunkCounter)
    decreases |es|
  {
    if es == [] {
    } else {
      assert !es[0].AcquireEv?;
      var s1 := if Enabled(s, es[0]) then Step(p, s, es[0]) else s;
      assert NoAcquire(es[1..]) by {
        forall i | 0 <= i < |es[1..]| ensures !es[1..][i].AcquireEv? {
          assert es[1..][i] == es[i + 1];
        }
      }
      ChunkNumbersContiguous(p, s1, es[1..]);
      if Enabled(s, es[0]) {
        StepAssigns(p, s, es[0]);
        IntervalConcat(s.chunkCounter, s1.chunkCounter, Run(p, s, es).chunkCounter);
      }
    }
  }

  /** Hence the numbers handed out within one capture session never repeat and only grow. */
  lemma ChunkNumbersIncrease(p: Params, s: Capture, es: seq<Event>, i: nat, j: nat)
    requires NoAcquire(es)
    requires i < j < |AssignedIn(p, s, es)|
    ensures AssignedIn(p, s, es)[i] < AssignedIn(p, s, es)[j]
  {
    ChunkNumbersContiguous(p, s, es);
    var a, b := s.chunkCounter, Run(p, s, es).chunkCounter;
    IntervalAt(a, b, i);
    IntervalAt(a, b, j);
  }

  /** The URL a step appends: the one a 2xx onload returns. */
  function Appended(e: Event): seq<string>
  {
    if e.LoadEv? && 200 <= e.status < 300 then [e.url] else []
  }

  /** The URLs appended along a run, in order. */
  function AppendedIn(s: Capture, es: seq<Event>, p: Params): seq<string>
    decreases |es|
  {
    if es == [] then []
    else if Enabled(s, es[0]) then Appended(es[0]) + AppendedIn(Step(p, s, es[0]), es[1..], p)
    else AppendedIn(s, es[1..], p)
  }

  /** One step changes the URL list only by appending what `Appended` names. */
  lemma StepAppends(p: Params, s: Capture, e: Event)
    requires Enabled(s, e) && !e.AcquireEv?
    ensures Step(p, s, e).uploadedUrls == s.uploadedUrls + Appended(e)
  {
  }

  /**
   * Within one capture session the URL list only grows at its end, by one URL for each
   * successful upload and by nothing else.
   */
  lemma {:induction false} UrlsAppendOnly(p: Params, s: Capture, es: seq<Event>)
    requires NoAcquire(es)
    ensures Run(p, s, es).uploadedUrls == s.uploadedUrls + AppendedIn(s, es, p)
    decreases |es|
  {
    if es != [] {
      assert !es[0].AcquireEv?;
      var s1 := if Enabled(s, es[0]) then Step(p, s, es[0]) else s;
      assert NoAcquire(es[1..]) by {
        forall i | 0 <= i < |es[1..]| ensures !es[1..][i].AcquireEv? {
          assert es[1..][i] == es[i + 1];
        }
      }
      UrlsAppendOnly(p, s1, es[1..]);
      assert Run(p, s, es) == Run(p, s1, es[1..]);
      if Enabled(s, es[0]) {
        StepAppends(p, s, es[0]);
        assert AppendedIn(s, es, p) == Appended(es[0]) + AppendedIn(s1, es[1..], p);
        assert s.uploadedUrls + Appended(es[0]) + AppendedIn(s1, es[1..], p)
            == s.uploadedUrls + (Appended(es[0]) + AppendedIn(s1, es[1..], p));
      }
    }
  }

  /** The capture is over: no loop is active, the stream is released, and the UI says so. */
  predicate Stopped(s: Capture)
  {
    !s.active && !s.streamHeld && !s.isRecording
  }

  /** After stopRecording or the unmount cleanup the capture is over. */
  lemma StopAndTeardownStop(s: Capture)
    requires Inv(s)
    ensures Stopped(Stop(s)) && Stopped(Teardown(s))
  {
  }

  /** The cleanup is idempotent, and a stopRecording before it changes nothing. */
  lemma TeardownIdempotent(s: Capture)
    ensures Teardown(Teardown(s)) == Teardown(s)
    ensures Teardown(Stop(s)) == Teardown(s)
  {
  }

  /**
   * Once the capture is over and until startRecording is called again, no callback
   * restarts it: the stream stays released, no further cycle is scheduled (the timers
   * already set may still fire, as no-ops), no chunk number is handed out, and no
   * recorder starts recording.
   */
  lemma {:induction false} QuietAfterStop(p: Params, s: Capture, es: seq<Event>)
    requires Stopped(s) && NoAcquire(es)
    ensures Stopped(Run(p, s, es))
    ensures Run(p, s, es).pendingCycles <= s.pendingCycles
    ensures Run(p, s, es).chunkCounter == s.chunkCounter
    ensures RecordingSinks(Run(p, s, es)) <= RecordingSinks(s)
    decreases |es|
  {
    if es != [] {
      assert !es[0].AcquireEv?;
      var s1 := if Enabled(s, es[0]) then Step(p, s, es[0]) else s;
      assert NoAcquire(es[1..]) by {
        forall i | 0 <= i < |es[1..]| ensures !es[1..][i].AcquireEv? {
          assert es[1..][i] == es[i + 1];
        }
      }
      assert RecordingSinks(s1) <= RecordingSinks(s);
      QuietAfterStop(p, s1, es[1..]);
    }
  }

  /** At most one recorder is alive, about to be created or awaiting its stream: one loop, one open recorder. */
  predicate OneLoop(s: Capture)
  {
    |s.sinks| + s.pendingCycles + s.acquiring <= 1
  }

  lemma RecordingSinksBound(s: Capture)
    ensures |RecordingSinks(s)| <= |s.sinks|
  {
    assert RecordingSinks(s) <= s.sinks.Keys;
    assert |s.sinks.Keys| == |s.sinks|;
    SubsetCardinality(RecordingSinks(s), s.sinks.Keys);
  }

  lemma {:induction false} SubsetCardinality(a: set<Handle>, b: set<Handle>)
    requires a <= b
    ensures |a| <= |b|
    decreases |b|
  {
    if a != {} {
      var x :| x in a;
      SubsetCardinality(a - {x}, b - {x});
    }
  }

  /** Only a call of startRecording can add a loop: an acquisition, a cycle's onstop, timer or recorder never does. */
  lemma StepKeepsOneLoop(p: Params, s: Capture, e: Event)
    requires Inv(s) && Enabled(s, e) && OneLoop(s) && !e.StartEv?
    ensures OneLoop(Step(p, s, e))
  {
    var t := Step(p, s, e);
    match e
    case AcquireEv(acquired, sinkOk) =>
      assert s.sinks == map[];
      if acquired && sinkOk {
        assert t.sinks.Keys == {s.nextHandle};
      }
    case CycleTimerEv(sinkOk) =>
      assert s.sinks == map[];
      if s.active && s.streamHeld && sinkOk {
        assert t.sinks.Keys == {s.nextHandle};
      }
    case SinkStoppedEv(h, blobEmpty, now) =>
      assert t.sinks.Keys == s.sinks.Keys - {h};
    case StopEv =>
      assert t.sinks.Keys == s.sinks.Keys;
    case TeardownEv =>
      assert t.sinks.Keys == s.sinks.Keys;
    case _ =>
  }

  /**
   * Started from a state with at most one recorder alive, pending or awaited, a run
   * without a further call of startRecording never has more than one recorder
   * recording at a time.
   */
  lemma {:induction false} OneRecorderWithinSession(p: Params, s: Capture, es: seq<Event>)
    requires Inv(s) && OneLoop(s) && NoStart(es)
    ensures OneLoop(Run(p, s, es))
    ensures |RecordingSinks(Run(p, s, es))| <= 1
    decreases |es|
  {
    if es == [] {
      RecordingSinksBound(s);
    } else {
      assert !es[0].StartEv?;
      var s1 := if Enabled(s, es[0]) then Step(p, s, es[0]) else s;
      if Enabled(s, es[0]) {
        StepKeepsOneLoop(p, s, es[0]);
        StepPreservesInv(p, s, es[0]);
      }
      assert NoStart(es[1..]) by {
        forall i | 0 <= i < |es[1..]| ensures !es[1..][i].StartEv? {
          assert es[1..][i] == es[i + 1];
        }
      }
      OneRecorderWithinSession(p, s1, es[1..]);
    }
  }

  /** Running `[e] + rest` delivers `e` first. */
  lemma RunFirst(p: Params, s: Capture, e: Event, rest: seq<Event>)
    requires Enabled(s, e)
    ensures Run(p, s, [e] + rest) == Run(p, Step(p, s, e), rest)
  {
    assert ([e] + rest)[1..] == rest;
  }

  /**
   * One startRecording from a state with no recorder alive, no cycle pending and no
   * acquisition under way, followed by any callbacks but no second call, never has two
   * recorders recording at once.
   */
  lemma StartFromIdleIsOneLoop(p: Params, s: Capture, es: seq<Event>)
    requires Inv(s) && s.sinks == map[] && s.pendingCycles == 0 && s.acquiring == 0 && NoStart(es)
    ensures OneLoop(Run(p, s, [StartEv] + es))
    ensures |RecordingSinks(Run(p, s, [StartEv] + es))| <= 1
  {
    RunFirst(p, s, StartEv, es);
    OneRecorderWithinSession(p, StartCall(s), es);
  }

  /** Running `es` from `ss[0]`, where each event takes `ss[k]` to `ss[k + 1]`, ends in the last of the states. */
  lemma {:induction false} RunThrough(p: Params, ss: seq<Capture>, es: seq<Event>)
    requires |ss| == |es| + 1
    requires forall k :: 0 <= k < |es| ==> Enabled(ss[k], es[k]) && Step(p, ss[k], es[k]) == ss[k + 1]
    ensures Run(p, ss[0], es) == ss[|es|]
    decreases |es|
  {
    if es != [] {
      forall k | 0 <= k < |es[1..]|
        ensures Enabled(ss[1..][k], es[1..][k]) && Step(p, ss[1..][k], es[1..][k]) == ss[1..][k + 1]
      {
        assert ss[1..][k] == ss[k + 1] && ss[1..][k + 1] == ss[k + 2] && es[1..][k] == es[k + 1];
      }
      RunThrough(p, ss[1..], es[1..]);
    }
  }

  /** Two calls of startRecording before the first `getUserMedia` settles, such as a double click during the permission prompt. */
  function OverlapTrace(): seq<Event>
  {
    [StartEv, StartEv, AcquireEv(true, true), AcquireEv(true, true)]
  }

  /** The states `OverlapTrace` goes through from the mounted hook. */
  function OverlapState(k: nat): Capture
  {
    var on := Initial().(streamHeld := true, active := true, isRecording := true);
    if k == 0 then Initial()
    else if k == 1 then Initial().(acquiring := 1)
    else if k == 2 then Initial().(acquiring := 2)
    else if k == 3 then
      on.(chunkCounter := 1, currentRecorder := Some(0), sinks := map[0 := Sink(0, true)], nextHandle := 1,
          acquiring := 1)
    else
      on.(chunkCounter := 1, currentRecorder := Some(1), sinks := map[0 := Sink(0, true), 1 := Sink(0, true)],
          nextHandle := 2, leakedStreams := 1)
  }

  lemma OverlapStep(p: Params, k: nat)
    requires k < 4
    ensures Enabled(OverlapState(k), OverlapTrace()[k])
    ensures Step(p, OverlapState(k), OverlapTrace()[k]) == OverlapState(k + 1)
  {
  }

  function OverlapStates(): (ss: seq<Capture>)
    ensures |ss| == 5 && forall k :: 0 <= k < 5 ==> ss[k] == OverlapState(k)
  {
    seq(5, k requires 0 <= k => OverlapState(k))
  }

  lemma OverlapRun(p: Params)
    ensures Run(p, Initial(), OverlapTrace()) == OverlapState(4)
  {
    var ss := OverlapStates();
    forall k | 0 <= k < 4
      ensures Enabled(ss[k], OverlapTrace()[k]) && Step(p, ss[k], OverlapTrace()[k]) == ss[k + 1]
    {
      OverlapStep(p, k);
    }
    RunThrough(p, ss, OverlapTrace());
  }

  /**
   * Both overlapping calls pass the `isRecording` guard and both acquire a stream: the
   * second stream replaces the first, which is never stopped, the counter is reset
   * twice, and two recorders record chunk 0 at the same time.
   */
  lemma OverlappingStartsDoubleLoop(p: Params)
    ensures var t := Run(p, Initial(), OverlapTrace());
            && t.sinks == map[0 := Sink(0, true), 1 := Sink(0, true)]
            && t.currentRecorder == Some(1)
            && t.leakedStreams == 1
            && |RecordingSinks(t)| == 2
  {
    OverlapRun(p);
    var t := OverlapState(4);
    assert RecordingSinks(t) == {0, 1};
  }

  /** startRecording, the cleanup while `getUserMedia` is pending, then the stream arrives. */
  function CleanupTrace(): seq<Event>
  {
    [StartEv, TeardownEv, AcquireEv(true, true)]
  }

  function CleanupState(k: nat): Capture
  {
    var on := Initial().(streamHeld := true, active := true, isRecording := true);
    if k == 0 then Initial()
    else if k <= 2 then Initial().(acquiring := 1)
    else on.(chunkCounter := 1, currentRecorder := Some(0), sinks := map[0 := Sink(0, true)], nextHandle := 1)
  }

  lemma CleanupStep(p: Params, k: nat)
    requires k < 3
    ensures Enabled(CleanupState(k), CleanupTrace()[k])
    ensures Step(p, CleanupState(k), CleanupTrace()[k]) == CleanupState(k + 1)
  {
  }

  /**
   * The cleanup does not cancel an acquisition under way: once the stream arrives the
   * loop runs, holding the camera and recording, after the hook was torn down.
   */
  lemma AcquisitionOutlivesCleanup(p: Params)
    ensures var t := Run(p, Initial(), CleanupTrace());
            && t.active && t.streamHeld && t.isRecording
            && t.sinks == map[0 := Sink(0, true)]
  {
    var ss := seq(4, k requires 0 <= k => CleanupState(k));
    forall k | 0 <= k < 3
      ensures Enabled(ss[k], CleanupTrace()[k]) && Step(p, ss[k], CleanupTrace()[k]) == ss[k + 1]
    {
      CleanupStep(p, k);
    }
    RunThrough(p, ss, CleanupTrace());
  }

  /** A restart before the old recorder's onstop: start, stop, start, the old onstop, its cycle timer. */
  function RestartTrace(): seq<Event>
  {
    [StartEv, AcquireEv(true, true), StopEv, StartEv, AcquireEv(true, true),
     SinkStoppedEv(0, false, 7), CycleTimerEv(true)]
  }

  /** The states `RestartTrace` goes through from the mounted hook. */
  function RestartState(p: Params, k: nat): Capture
  {
    var ups := map[2 := Upload(0, PublicId(p, 0, 7))];
    var on := Initial().(streamHeld := true, active := true, isRecording := true);
    var stopped := Initial().(chunkCounter := 1, sinks := map[0 := Sink(0, false)], nextHandle := 1);
    if k == 0 then Initial()
    else if k == 1 then Initial().(acquiring := 1)
    else if k == 2 then on.(chunkCounter := 1, currentRecorder := Some(0), sinks := map[0 := Sink(0, true)], nextHandle := 1)
    else if k == 3 then stopped
    else if k == 4 then stopped.(acquiring := 1)
    else if k == 5 then
      on.(chunkCounter := 1, currentRecorder := Some(1), sinks := map[0 := Sink(0, false), 1 := Sink(0, true)],
          nextHandle := 2)
    else if k == 6 then
      on.(chunkCounter := 1, currentRecorder := Some(1), isUploading := true, pendingCycles := 1,
          sinks := map[1 := Sink(0, true)], uploads := ups, nextHandle := 3)
    else
      on.(chunkCounter := 2, currentRecorder := Some(3), isUploading := true,
          sinks := map[1 := Sink(0, true), 3 := Sink(1, true)], uploads := ups, nextHandle := 4)
  }

  lemma RestartStep(p: Params, k: nat)
    requires k < 7
    ensures Enabled(RestartState(p, k), RestartTrace()[k])
    ensures Step(p, RestartState(p, k), RestartTrace()[k]) == RestartState(p, k + 1)
  {
    if k == 5 {
      RestartOnstop(p);
    } else if k == 6 {
      RestartCycle(p);
    }
  }

  /** The old recorder's onstop, with a non-empty chunk, in the trace above. */
  lemma RestartOnstop(p: Params)
    ensures Enabled(RestartState(p, 5), SinkStoppedEv(0, false, 7))
    ensures Step(p, RestartState(p, 5), SinkStoppedEv(0, false, 7)) == RestartState(p, 6)
  {
    assert RestartState(p, 5).sinks - {0} == map[1 := Sink(0, true)];
  }

  /** The cycle that onstop scheduled, in the trace above. */
  lemma RestartCycle(p: Params)
    ensures Enabled(RestartState(p, 6), CycleTimerEv(true))
    ensures Step(p, RestartState(p, 6), CycleTimerEv(true)) == RestartState(p, 7)
  {
  }

  /** The states of `RestartTrace`, in order. */
  function RestartStates(p: Params): (ss: seq<Capture>)
    ensures |ss| == 8 && forall k :: 0 <= k < 8 ==> ss[k] == RestartState(p, k)
  {
    seq(8, k requires 0 <= k => RestartState(p, k))
  }

  lemma RestartSteps(p: Params)
    ensures var ss := RestartStates(p);
      forall k :: 0 <= k < 7 ==> Enabled(ss[k], RestartTrace()[k]) && Step(p, ss[k], RestartTrace()[k]) == ss[k + 1]
  {
    var ss := RestartStates(p);
    forall k | 0 <= k < 7
      ensures Enabled(ss[k], RestartTrace()[k]) && Step(p, ss[k], RestartTrace()[k]) == ss[k + 1]
    {
      RestartStep(p, k);
    }
  }

  lemma RestartRun(p: Params)
    ensures Run(p, Initial(), RestartTrace()) == RestartState(p, 7)
  {
    RestartSteps(p);
    RunThrough(p, RestartStates(p), RestartTrace());
  }

  /** Where the restart ends: recorders 1 and 3 both recording, 3 the current one. */
  lemma RestartFinal(p: Params)
    ensures var t := RestartState(p, 7);
            && t.sinks == map[1 := Sink(0, true), 3 := Sink(1, true)]
            && t.currentRecorder == Some(3)
  {
  }

  /**
   * stopRecording followed by startRecording before the old recorder's onstop has run
   * leaves two recorders recording: the old onstop sees the loop active again and
   * schedules a cycle beside the new one, whose recorder then becomes the current one
   * while recorder 1 keeps recording unnoticed.
   */
  lemma RestartBeforeOnstopDoublesLoop(p: Params)
    ensures var t := Run(p, Initial(), RestartTrace());
            && 1 in t.sinks && t.sinks[1].recording
            && 3 in t.sinks && t.sinks[3].recording
            && t.currentRecorder == Some(3)
  {
    RestartRun(p);
    RestartFinal(p);
  }
}
