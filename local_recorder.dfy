/**
 * The hook of client-rivora/src/hooks/useLocalRecorder.js as an object: its refs and
 * state variables are fields updated in place, `startRecording` and `stopRecording`
 * are methods, and so are the effect's cleanup and every browser callback. As
 * `startRecording` awaits `getUserMedia`, its part after the `await` is a callback of
 * its own, `OnStreamAcquired`. Each method's new state is the matching transition
 * of CaptureModel, so the properties proved there hold of this object. Fragments the
 * hook repeats (releasing the stream, stopping a recorder, switching the loop flags,
 * resetting the upload status, scheduling the next cycle) are small methods that touch
 * only their own fields.
 */
module LocalRecorder {
  import opened Wrappers
  import CM = CaptureModel

  class Recorder {
    const sessionId: string
    const userRole: string

    var streamHeld: bool                     // mediaStreamRef.current is a live stream
    var active: bool                         // recordingActiveRef.current
    var isRecording: bool
    var chunkCounter: nat                    // chunkCounterRef.current
    var currentRecorder: Option<CM.Handle>   // currentRecorderRef.current
    var uploadedUrls: seq<string>            // uploadedChunkUrls
    var isUploading: bool
    var uploadProgress: int
    var pendingCycles: nat                   // setTimeout(recordChunk, 100) calls not yet run
    var sinks: map<CM.Handle, CM.Sink>       // MediaRecorders whose onstop has not run yet
    var uploads: map<CM.Handle, CM.Upload>   // XMLHttpRequests whose onload/onerror has not run yet
    var nextHandle: CM.Handle                // identity of the next object created
    var acquiring: nat                       // startRecording calls awaiting getUserMedia
    var leakedStreams: nat                   // live streams mediaStreamRef no longer points to

    function State(): CM.Capture
      reads this
    {
      CM.Capture(streamHeld, active, isRecording, chunkCounter, currentRecorder, uploadedUrls,
                 isUploading, uploadProgress, pendingCycles, sinks, uploads, nextHandle,
                 acquiring, leakedStreams)
    }

    function Config(): CM.Params
    {
      CM.Params(sessionId, userRole)
    }

    ghost predicate Valid()
      reads this
    {
      CM.Inv(State())
    }

    /** Mounting the hook: no stream, no loop, counter 0, no URLs. */
    constructor (sessionId: string, userRole: string)
      ensures Valid() && State() == CM.Initial()
      ensures this.sessionId == sessionId && this.userRole == userRole
    {
      this.sessionId := sessionId;
      this.userRole := userRole;
      streamHeld, active, isRecording := false, false, false;
      chunkCounter := 0;
      currentRecorder := None;
      uploadedUrls := [];
      isUploading, uploadProgress := false, 0;
      pendingCycles := 0;
      sinks, uploads := map[], map[];
      nextHandle := 0;
      acquiring, leakedStreams := 0, 0;
      CM.InitialInv();
    }

    /** Stops every track of the stream the ref holds, if any, and clears the ref. */
    method ReleaseStream()
      modifies this`streamHeld
      ensures State() == old(State()).(streamHeld := false)
    {
      if streamHeld {
        streamHeld := false;
      }
    }

    /** `recorder.stop()` on a recorder that is still alive: its state leaves "recording" and its onstop becomes due. */
    method StopRecorder(r: CM.Handle)
      requires r in sinks
      modifies this`sinks
      ensures State() == old(State()).(sinks := old(sinks)[r := old(sinks)[r].(recording := false)])
    {
      sinks := sinks[r := sinks[r].(recording := false)];
    }

    /** `if (recordingActiveRef.current) setTimeout(recordChunk, 100)`: the next cycle is scheduled only while the loop is active. */
    method ScheduleNextCycle()
      modifies this`pendingCycles
      ensures State() == old(State()).(pendingCycles := old(pendingCycles) + (if active then 1 else 0))
    {
      if active {
        pendingCycles := pendingCycles + 1;
      }
    }

    /** `recordChunk`: the guard, the chunk number, then a new recorder or, if it cannot be made, the end of the capture. */
    method RecordChunk(sinkOk: bool)
      requires Valid()
      modifies this
      ensures State() == CM.RecordChunk(old(State()), sinkOk)
      ensures Valid()
    {
      CM.RecordChunkPreservesInv(State(), sinkOk);
      if !active || !streamHeld {
        return;
      }
      var currentChunkNum := chunkCounter;
      chunkCounter := chunkCounter + 1;
      if !sinkOk {
        SetLoop(false);
        ReleaseStream();
        currentRecorder := None;
        return;
      }
      var recorder := nextHandle;
      nextHandle := nextHandle + 1;
      currentRecorder := Some(recorder);
      sinks := sinks[recorder := CM.Sink(currentChunkNum, true)];
    }

    /** `startRecording` up to its `await`: unless already recording, ask for the camera and microphone. */
    method StartRecording()
      requires Valid()
      modifies this
      ensures State() == CM.StartCall(old(State()))
      ensures Valid()
    {
      CM.StepPreservesInv(Config(), State(), CM.StartEv);
      if isRecording {
        return;
      }
      acquiring := acquiring + 1;
    }

    /**
     * `getUserMedia` settles for one waiting `startRecording` call, with the outcome of
     * acquiring the stream and of creating the first recorder; the guard is not checked again.
     */
    method OnStreamAcquired(acquired: bool, sinkOk: bool)
      requires Valid() && acquiring > 0
      modifies this
      ensures State() == CM.AcquireDone(old(State()), acquired, sinkOk)
      ensures Valid()
    {
      CM.AcquireDonePreservesInv(State(), acquired, sinkOk);
      acquiring := acquiring - 1;
      if !acquired {
        SetLoop(false);
        ResetUploadStatus();
        ReleaseStream();  // whatever stream the ref holds, even one another call acquired
        return;
      }
      AdoptStream();
      SetLoop(true);
      RestartNumbering();
      ResetUploadStatus();
      RecordChunk(sinkOk);
    }

    /** The ref takes the new stream; a stream it held before is overwritten without stopping its tracks. */
    method AdoptStream()
      modifies this`streamHeld, this`leakedStreams
      ensures State() == old(State()).(streamHeld := true,
                                       leakedStreams := old(leakedStreams) + (if old(streamHeld) then 1 else 0))
    {
      if streamHeld {
        leakedStreams := leakedStreams + 1;
      }
      streamHeld := true;
    }

    /** `setIsRecording(on)` together with `recordingActiveRef.current = on`. */
    method SetLoop(on: bool)
      modifies this`isRecording, this`active
      ensures State() == old(State()).(isRecording := on, active := on)
    {
      isRecording := on;
      active := on;
    }

    /** `chunkCounterRef.current = 0` and `setUploadedChunkUrls([])`: a new capture numbers its chunks from 0 and lists no URL. */
    method RestartNumbering()
      modifies this`chunkCounter, this`uploadedUrls
      ensures State() == old(State()).(chunkCounter := 0, uploadedUrls := [])
    {
      chunkCounter := 0;
      uploadedUrls := [];
    }

    /** `setIsUploading(false)` and `setUploadProgress(0)`. */
    method ResetUploadStatus()
      modifies this`isUploading, this`uploadProgress
      ensures State() == old(State()).(isUploading := false, uploadProgress := 0)
    {
      isUploading := false;
      uploadProgress := 0;
    }

    /** `stopRecording`. */
    method StopRecording()
      requires Valid()
      modifies this
      ensures State() == CM.Stop(old(State()))
      ensures Valid()
    {
      CM.StopPreservesInv(State());
      if !active {
        return;
      }
      SetLoop(false);
      if currentRecorder.Some? && currentRecorder.value in sinks && sinks[currentRecorder.value].recording {
        StopRecorder(currentRecorder.value);
        currentRecorder := None;
      }
      ReleaseStream();
    }

    /** The cleanup the hook's effect returns, run on unmount and whenever `userRole` changes. */
    method Teardown()
      requires Valid()
      modifies this
      ensures State() == CM.Teardown(old(State()))
      ensures Valid()
    {
      CM.TeardownPreservesInv(State());
      ReleaseStream();
      if currentRecorder.Some? && currentRecorder.value in sinks && sinks[currentRecorder.value].recording {
        StopRecorder(currentRecorder.value);
      }
      currentRecorder := None;
      SetLoop(false);
      ResetUploadStatus();
    }

    /** The 5-second timer set for recorder `h`. */
    method OnSegmentTimer(h: CM.Handle)
      requires Valid()
      modifies this
      ensures State() == CM.SegmentTimer(old(State()), h)
      ensures Valid()
    {
      CM.StepPreservesInv(Config(), State(), CM.SegmentTimerEv(h));
      if h in sinks && sinks[h].recording {
        StopRecorder(h);
      }
    }

    /** `setIsUploading(true)` and `setUploadProgress(0)`. */
    method ShowUploading()
      modifies this`isUploading, this`uploadProgress
      ensures State() == old(State()).(isUploading := true, uploadProgress := 0)
    {
      isUploading := true;
      uploadProgress := 0;
    }

    /** `xhr.send(formData)`: a new request for chunk `chunk`, tagged with `publicId`, is due to answer. */
    method SendUpload(chunk: nat, publicId: string)
      modifies this`uploads, this`nextHandle
      ensures State() == old(State()).(uploads := old(uploads)[old(nextHandle) := CM.Upload(chunk, publicId)],
                                       nextHandle := old(nextHandle) + 1)
    {
      var xhr := nextHandle;
      nextHandle := nextHandle + 1;
      uploads := uploads[xhr := CM.Upload(chunk, publicId)];
    }

    /** The onstop of recorder `h`, with the assembled blob empty or not, at time `now`. */
    method OnSinkStop(h: CM.Handle, blobEmpty: bool, now: nat)
      requires Valid() && h in sinks
      modifies this
      ensures State() == CM.SinkStopped(Config(), old(State()), h, blobEmpty, now)
      ensures Valid()
    {
      CM.SinkStoppedPreservesInv(Config(), State(), h, blobEmpty, now);
      var currentChunkNum := sinks[h].chunk;
      ForgetRecorder(h);
      if !blobEmpty {
        ShowUploading();
        var publicId := CM.PublicId(Config(), currentChunkNum, now);
        SendUpload(currentChunkNum, publicId);
      }
      ScheduleNextCycle();
    }

    /** The recorder `h` is gone: it leaves the live set, and the current-recorder ref if it pointed to it. */
    method ForgetRecorder(h: CM.Handle)
      modifies this`sinks, this`currentRecorder
      ensures State() == old(State()).(sinks := old(sinks) - {h},
                                       currentRecorder := if old(currentRecorder) == Some(h) then None else old(currentRecorder))
    {
      sinks := sinks - {h};
      if currentRecorder == Some(h) {
        currentRecorder := None;
      }
    }

    /** A `setTimeout(recordChunk, 100)` fires. */
    method OnCycleTimer(sinkOk: bool)
      requires Valid() && pendingCycles > 0
      modifies this
      ensures State() == CM.CycleTimer(old(State()), sinkOk)
      ensures Valid()
    {
      CM.StepPreservesInv(Config(), State(), CM.CycleTimerEv(sinkOk));
      pendingCycles := pendingCycles - 1;
      RecordChunk(sinkOk);
    }

    /** A progress event of upload `h`. */
    method OnUploadProgress(h: CM.Handle, computable: bool, percent: int)
      requires Valid() && h in uploads
      modifies this
      ensures State() == CM.UploadProgress(old(State()), h, computable, percent)
      ensures Valid()
    {
      CM.StepPreservesInv(Config(), State(), CM.ProgressEv(h, computable, percent));
      if computable {
        uploadProgress := percent;
      }
    }

    /** The onload of upload `h`, with the response's status and, on success, its secure URL. */
    method OnUploadLoad(h: CM.Handle, status: int, url: string)
      requires Valid() && h in uploads
      modifies this
      ensures State() == CM.UploadLoad(old(State()), h, status, url)
      ensures Valid()
    {
      CM.StepPreservesInv(Config(), State(), CM.LoadEv(h, status, url));
      EndUpload(h);
      if 200 <= status < 300 {
        uploadedUrls := uploadedUrls + [url];
      }
    }

    /** Upload `h` has answered: it is no longer due, and the upload flags are reset. */
    method EndUpload(h: CM.Handle)
      modifies this`uploads, this`isUploading, this`uploadProgress
      ensures State() == old(State()).(uploads := old(uploads) - {h}, isUploading := false, uploadProgress := 0)
    {
      uploads := uploads - {h};
      ResetUploadStatus();
    }

    /** The onerror of upload `h`. */
    method OnUploadError(h: CM.Handle)
      requires Valid() && h in uploads
      modifies this
      ensures State() == CM.UploadError(old(State()), h)
      ensures Valid()
    {
      CM.StepPreservesInv(Config(), State(), CM.ErrorEv(h));
      EndUpload(h);
    }
  }
}
