# Rivora capture-and-merge pipeline, modelled in Dafny

Rivora records the two participants of a podcast session on their own devices and
merges the recordings on the server. This project models three pieces of it:

- **The chunked capture-and-upload loop** (`useLocalRecorder`). While a session is
  live, the client records 5-second chunks one after another. Each finished chunk is
  uploaded without holding up the next one, and the URLs of the uploaded chunks are
  collected. `CaptureModel` gives every ref and state variable of the hook as a field
  of the value `Capture`. It turns every call and browser callback into an `Event`, and
  the hook's code for it into a transition function. `LocalRecorder.Recorder` is the
  same hook as an object. Its fields are updated in place, and each method's new state
  is stated to be that transition.
- **The merge-job handler** (`videoWorker.js`). It merges a finished session and
  writes the three URLs into the session document. It marks the session as no longer
  live and emails the host a link. `VideoWorker` models the document store and the
  sent mail as a `Store` object and the handler as a method over it.
- **The display helpers of the schedule panel** (`Schedule.jsx`). These are the
  ordinal suffix of a day and the time-zone abbreviation table. They also include the
  A.M./P.M. rewriting and the dialog/scheduled flags that the handlers flip.

Browser objects (a `MediaRecorder`, an `XMLHttpRequest`) are identified by handles from
a counter. A `setTimeout(recordChunk, 100)` that is set but has not fired yet is
counted in `pendingCycles`. Device, network, clock and merge-routine outcomes are
parameters: whether the stream was acquired, whether a recorder could be made, whether
a blob is empty, an upload's status and URL, `Date.now()`, and the merge routine's
result.

Points where the code does less than the system is meant to do, and which the model
keeps as written:
- Only one recorder is meant to be open at a time. The code breaks this in two ways.
  `stopRecording` followed by `startRecording` before the old recorder's `onstop` has
  run lets that `onstop` see the loop active again and schedule a cycle beside the new
  one (`CaptureModel.RestartBeforeOnstopDoublesLoop`). Two `startRecording` calls made
  before `getUserMedia` answers both pass the `isRecording` guard, since the guard is
  read before the `await` at line 139 and the flag is set only after it. Both calls
  then acquire a stream and start a loop. The first stream is never stopped, and two
  recorders record chunk 0 (`CaptureModel.OverlappingStartsDoubleLoop`). Without a
  further start, at most one recorder is recording at any time
  (`CaptureModel.OneRecorderWithinSession`). Starting from idle gives one loop
  (`CaptureModel.StartFromIdleIsOneLoop`).
- A stream that arrives after the cleanup has run is still adopted, and its loop
  starts (`CaptureModel.AcquisitionOutlivesCleanup`).
- `stopRecording` clears `currentRecorderRef` only when that recorder is still
  recording. A recorder that its 5-second timer has already stopped stays current
  until its `onstop` runs.
- There is no `Failed` state. A failed start or a failed recorder clears the active,
  recording and stream flags. A failed start does not reset the URL list or the
  counter. It does release the stream the ref holds, even one that another pending
  start acquired.
- Only the URL of an uploaded chunk is kept, not its chunk number. A late upload of an
  earlier session is appended to whatever list is current, because the code updates
  the list with a function of its current value.

## Model

| member | source | states |
|---|---|---|
| `JsString.IndexOfFrom` | client-rivora/src/components/Schedule.jsx:91 | the index found is an occurrence of the pattern and no earlier index is; none means no occurrence at all |
| `JsString.ReplaceFirst` | client-rivora/src/components/Schedule.jsx:91 | a string `replace` changes exactly the first occurrence of the pattern and keeps the text around it; a string without an occurrence comes back unchanged |
| `JsString.ReplaceFirstAbsent` | client-rivora/src/components/Schedule.jsx:91 | when the pattern cannot occur, `replace` returns the string unchanged |
| `JsString.DecimalString` | client-rivora/src/hooks/useLocalRecorder.js:78 | a number in a template string is a non-empty run of digits without leading zeros |
| `JsString.DecimalRoundTrip` | client-rivora/src/hooks/useLocalRecorder.js:78 | the digits written for a chunk number or time stamp read back as that number |
| `CaptureModel.PublicId` | client-rivora/src/hooks/useLocalRecorder.js:78 | the chunk number can be read back from `sessionId/role/chunk-{n}-{ts}`, whatever the session id and role |
| `CaptureModel.ChunkIdRoundTrip` | client-rivora/src/hooks/useLocalRecorder.js:78 | after any prefix, `-{n}-{ts}` reads back as `n`: the two last dashes delimit the chunk number |
| `CaptureModel.RecordChunk` | client-rivora/src/hooks/useLocalRecorder.js:17-42 | no change without an active loop and a stream; otherwise the counter goes up by one; if the recorder can be made it becomes current under a fresh handle, recording with the old counter as its chunk number, and the stream and flags stay as they were; if it cannot, the loop stops, the stream is released and the current recorder is cleared; the URL list, the uploads, the upload flags and the pending cycles never change |
| `CaptureModel.StartCall` | client-rivora/src/hooks/useLocalRecorder.js:132-139 | no change while recording; otherwise one more call waits for `getUserMedia`, and nothing else changes before it answers |
| `CaptureModel.AcquireDone` | client-rivora/src/hooks/useLocalRecorder.js:139-163 | when `getUserMedia` answers, the guard is not read again; on success the new stream replaces the held one, which leaks if there was one, the URL list is empty, the upload flags are cleared and the first cycle takes chunk 0; on failure the loop is off, the stream the ref holds is released while streams leaked earlier stay open, and the list and counter are kept |
| `CaptureModel.AcquireDonePreservesInv` | client-rivora/src/hooks/useLocalRecorder.js:139-163 | an answered `getUserMedia` keeps the invariant |
| `CaptureModel.Stop` | client-rivora/src/hooks/useLocalRecorder.js:166-186 | no change without an active loop; otherwise the loop, the recording flag and the stream are off, and the current recorder is stopped and forgotten if it was recording; counter, URLs and pending cycles are unchanged |
| `CaptureModel.Teardown` | client-rivora/src/hooks/useLocalRecorder.js:188-203 | always leaves the loop, recording, uploading and stream off, progress 0 and no current recorder; it stops that recorder only if it was recording |
| `CaptureModel.SegmentTimer` | client-rivora/src/hooks/useLocalRecorder.js:121-129 | the 5-second timer stops only its own recorder, and only if it is still recording; every recorder stays alive with its chunk number, and nothing else changes |
| `CaptureModel.SinkStopped` | client-rivora/src/hooks/useLocalRecorder.js:52-119 | a recorder's onstop removes it and clears it if it is current; the next cycle is scheduled exactly when the loop is still active; an empty chunk starts no upload and keeps the upload state; a non-empty chunk starts one upload with its public id, with uploading on and progress 0 |
| `CaptureModel.CycleTimer` | client-rivora/src/hooks/useLocalRecorder.js:17-42 | a scheduled cycle uses up one pending timer; when the loop has stopped it changes nothing else; otherwise it takes the next chunk number and either makes that recorder current and recording under a fresh handle, or, if it cannot be made, stops the loop, releases the stream and clears the current recorder; the URL list and the upload state are kept |
| `CaptureModel.UploadProgress` | client-rivora/src/hooks/useLocalRecorder.js:84-89 | only a progress event with a computable length sets the percentage; nothing else changes |
| `CaptureModel.UploadLoad` | client-rivora/src/hooks/useLocalRecorder.js:91-105 | always clears uploading and progress; a 2xx status appends exactly its URL at the end of the list, and any other status keeps the list |
| `CaptureModel.UploadError` | client-rivora/src/hooks/useLocalRecorder.js:107-110 | a network error clears uploading and progress and leaves the URL list alone |
| `CaptureModel.StepPreservesInv` | client-rivora/src/hooks/useLocalRecorder.js:17-203 | every transition keeps the stream, the active flag and the recording flag equal, keeps the current recorder alive, and gives new objects fresh identities |
| `CaptureModel.RunPreservesInv` | client-rivora/src/hooks/useLocalRecorder.js:17-203 | so does every sequence of calls and callbacks |
| `CaptureModel.StepAssigns` | client-rivora/src/hooks/useLocalRecorder.js:22 | every step other than an answered `getUserMedia` hands out exactly the chunk numbers by which it advances the counter |
| `CaptureModel.ChunkNumbersContiguous` | client-rivora/src/hooks/useLocalRecorder.js:22 | while no `getUserMedia` answer resets the counter, the chunk numbers handed out are its successive values with no gaps, including those of empty chunks and failed recorders |
| `CaptureModel.ChunkNumbersIncrease` | client-rivora/src/hooks/useLocalRecorder.js:22 | while no `getUserMedia` answer resets the counter, chunk numbers strictly increase and are never reused |
| `CaptureModel.StepAppends` | client-rivora/src/hooks/useLocalRecorder.js:91-105 | every step other than an answered `getUserMedia` changes the URL list only by appending the URL of a 2xx onload |
| `CaptureModel.UrlsAppendOnly` | client-rivora/src/hooks/useLocalRecorder.js:91-105 | while no `getUserMedia` answer resets the list, it only grows at its end, by the URL of each 2xx upload and nothing else |
| `CaptureModel.StopAndTeardownStop` | client-rivora/src/hooks/useLocalRecorder.js:166-201 | after `stopRecording` or the cleanup, the loop is inactive, the stream is released and the recording flag is off |
| `CaptureModel.TeardownIdempotent` | client-rivora/src/hooks/useLocalRecorder.js:188-201 | running the cleanup twice, or after `stopRecording`, ends in the same state as running it once |
| `CaptureModel.QuietAfterStop` | client-rivora/src/hooks/useLocalRecorder.js:18-20 | after a stop and until a `getUserMedia` call answers (one made before the stop included), no callback reacquires the stream, schedules a further cycle, hands out a chunk number or starts a recorder |
| `CaptureModel.StepKeepsOneLoop` | client-rivora/src/hooks/useLocalRecorder.js:52-67 | with at most one recorder alive, cycle pending or stream request waiting, no step other than a `startRecording` call makes two |
| `CaptureModel.OneRecorderWithinSession` | client-rivora/src/hooks/useLocalRecorder.js:114-129 | from such a state and without a further `startRecording` call, at most one recorder is recording at any time |
| `CaptureModel.StartFromIdleIsOneLoop` | client-rivora/src/hooks/useLocalRecorder.js:132-151 | one `startRecording` call with no recorder alive, no cycle pending and no other call waiting begins a single loop, as long as no second call follows |
| `CaptureModel.RestartBeforeOnstopDoublesLoop` | client-rivora/src/hooks/useLocalRecorder.js:52-115 | stop, start and then the old recorder's onstop leave two recorders recording at once |
| `CaptureModel.OverlappingStartsDoubleLoop` | client-rivora/src/hooks/useLocalRecorder.js:132-151 | two `startRecording` calls before `getUserMedia` answers both pass the guard: one stream leaks, and two recorders record chunk 0 at once |
| `CaptureModel.AcquisitionOutlivesCleanup` | client-rivora/src/hooks/useLocalRecorder.js:139-151 | a stream that arrives after the cleanup has run is adopted, and its loop runs with a recorder recording |
| `LocalRecorder.Recorder.constructor` | client-rivora/src/hooks/useLocalRecorder.js:8-15 | the hook starts with no stream, no loop, counter 0, no URLs and no upload |
| `LocalRecorder.Recorder.ReleaseStream` | client-rivora/src/hooks/useLocalRecorder.js:36-39 | the stream is released and the ref cleared; nothing else changes |
| `LocalRecorder.Recorder.StopRecorder` | client-rivora/src/hooks/useLocalRecorder.js:125 | only that recorder leaves "recording"; nothing else changes |
| `LocalRecorder.Recorder.ScheduleNextCycle` | client-rivora/src/hooks/useLocalRecorder.js:62-63 | one more cycle is pending exactly when the loop is active; nothing else changes |
| `LocalRecorder.Recorder.RecordChunk` | client-rivora/src/hooks/useLocalRecorder.js:17-42 | updates the fields in place as `CaptureModel.RecordChunk` and keeps the invariant |
| `LocalRecorder.Recorder.StartRecording` | client-rivora/src/hooks/useLocalRecorder.js:132-139 | updates the fields in place as `CaptureModel.StartCall` and keeps the invariant |
| `LocalRecorder.Recorder.OnStreamAcquired` | client-rivora/src/hooks/useLocalRecorder.js:139-163 | updates the fields in place as `CaptureModel.AcquireDone` and keeps the invariant |
| `LocalRecorder.Recorder.AdoptStream` | client-rivora/src/hooks/useLocalRecorder.js:139 | the ref takes the new stream, and a stream it held is counted as leaked; nothing else changes |
| `LocalRecorder.Recorder.SetLoop` | client-rivora/src/hooks/useLocalRecorder.js:144-145 | the recording flag and the active ref take the same value; nothing else changes |
| `LocalRecorder.Recorder.RestartNumbering` | client-rivora/src/hooks/useLocalRecorder.js:146-147 | the counter restarts at 0 and the URL list is emptied; nothing else changes |
| `LocalRecorder.Recorder.ResetUploadStatus` | client-rivora/src/hooks/useLocalRecorder.js:148-149 | uploading is off and progress 0; nothing else changes |
| `LocalRecorder.Recorder.StopRecording` | client-rivora/src/hooks/useLocalRecorder.js:166-186 | updates the fields in place as `CaptureModel.Stop` and keeps the invariant |
| `LocalRecorder.Recorder.Teardown` | client-rivora/src/hooks/useLocalRecorder.js:188-203 | updates the fields in place as `CaptureModel.Teardown` and keeps the invariant |
| `LocalRecorder.Recorder.OnSegmentTimer` | client-rivora/src/hooks/useLocalRecorder.js:123-129 | updates the fields in place as `CaptureModel.SegmentTimer` |
| `LocalRecorder.Recorder.ForgetRecorder` | client-rivora/src/hooks/useLocalRecorder.js:55-57 | the stopped recorder is no longer alive, and no longer current if it was; nothing else changes |
| `LocalRecorder.Recorder.ShowUploading` | client-rivora/src/hooks/useLocalRecorder.js:70-71 | uploading is on and progress 0; nothing else changes |
| `LocalRecorder.Recorder.SendUpload` | client-rivora/src/hooks/useLocalRecorder.js:81-112 | one new request for the chunk, tagged with its public id, is due to answer; nothing else changes |
| `LocalRecorder.Recorder.OnSinkStop` | client-rivora/src/hooks/useLocalRecorder.js:52-119 | updates the fields in place as `CaptureModel.SinkStopped` |
| `LocalRecorder.Recorder.OnCycleTimer` | client-rivora/src/hooks/useLocalRecorder.js:17-42 | updates the fields in place as `CaptureModel.CycleTimer` |
| `LocalRecorder.Recorder.OnUploadProgress` | client-rivora/src/hooks/useLocalRecorder.js:84-89 | updates the fields in place as `CaptureModel.UploadProgress` |
| `LocalRecorder.Recorder.EndUpload` | client-rivora/src/hooks/useLocalRecorder.js:92-93 | the request is no longer due, uploading is off and progress 0; nothing else changes |
| `LocalRecorder.Recorder.OnUploadLoad` | client-rivora/src/hooks/useLocalRecorder.js:91-105 | updates the fields in place as `CaptureModel.UploadLoad` |
| `LocalRecorder.Recorder.OnUploadError` | client-rivora/src/hooks/useLocalRecorder.js:107-110 | updates the fields in place as `CaptureModel.UploadError` |
| `VideoWorker.Merged` | server/workers/videoWorker.js:37-44 | the `$set` writes the three URLs, sets `isLive` false and keeps the host and every other field |
| `VideoWorker.ApplyMerge` | server/workers/videoWorker.js:35-46 | the update by id changes only that session and changes nothing when no session has that id |
| `VideoWorker.StoreAfter` | server/workers/videoWorker.js:31-46 | a failed merge leaves the sessions untouched; a successful one gives the job's session, if it exists, the URLs and leaves every other session as it was |
| `VideoWorker.RedeliveryConverges` | server/workers/videoWorker.js:35-46 | re-running a job with the same merge result leaves the store as one run did; the last successful run decides the URLs |
| `VideoWorker.HostOf` | server/workers/videoWorker.js:47 | the populated host exists exactly when the session names a user that exists |
| `VideoWorker.HostName` | server/workers/videoWorker.js:67 | the greeting uses the host's name, or "Host" when the name is missing or empty, so it is never empty |
| `VideoWorker.SessionLink` | server/workers/videoWorker.js:57 | the link lies under `FRONTEND_URL` and leads back, through `/my-studios/{id}`, to exactly that session id |
| `VideoWorker.Notification` | server/workers/videoWorker.js:70-88 | the email goes to the host's address with the fixed subject, greets the host and links the merged session |
| `VideoWorker.HandleMergeJob` | server/workers/videoWorker.js:24-92 | a failed merge changes nothing and sends nothing; a missing session fails with "Session not found." and leaves the store alone; a missing host fails with "Host user not found." after the update, with no email; a mail failure fails after the update; otherwise exactly one notification is sent and the merge's three URLs are returned |
| `Schedule.JsRem` | client-rivora/src/components/Schedule.jsx:41 | JavaScript's `%` agrees with the mathematical remainder on non-negative days and stays strictly between -10 and 10 |
| `Schedule.OrdinalSuffix` | client-rivora/src/components/Schedule.jsx:39-47 | the suffix is one of st, nd, rd, th; it is th from 4 to 20; for every day 1 to 31 it is the English ordinal suffix |
| `Schedule.OrdinalExamples` | client-rivora/src/components/Schedule.jsx:39-47 | 1st, 2nd, 3rd, 11th, 12th, 13th, 21st, 22nd, 23rd, 31st |
| `Schedule.TimeZoneAbbr` | client-rivora/src/components/Schedule.jsx:63-71 | the four listed zones give IST, EST, PST and GMT; any other zone is returned as it is |
| `Schedule.TimeZoneAbbrFallback` | client-rivora/src/components/Schedule.jsx:71 | a zone comes back unchanged exactly when the table does not list it, and abbreviating twice is abbreviating once |
| `Schedule.FormatTimeForDisplay` | client-rivora/src/components/Schedule.jsx:81-97 | a falsy input gives ''; a formatter failure returns the input; otherwise the marker is rewritten |
| `Schedule.Meridiem` | client-rivora/src/components/Schedule.jsx:91 | a rendering without any A or P, such as a 24-hour clock, comes back unchanged |
| `Schedule.MeridiemDotsMarker` | client-rivora/src/components/Schedule.jsx:91 | a rendered time ending in AM or PM gets exactly that marker dotted, with the clock part kept |
| `Schedule.FormatDateForDisplay` | client-rivora/src/components/Schedule.jsx:33-73 | a falsy input gives ''; otherwise the zone's abbreviation follows in parentheses |
| `Schedule.ScheduleState.constructor` | client-rivora/src/components/Schedule.jsx:6-7 | the panel starts with the dialog closed, the studio unscheduled and nothing submitted |
| `Schedule.ScheduleState.HandleOpenDialog` | client-rivora/src/components/Schedule.jsx:9-11 | opens the dialog and touches nothing else |
| `Schedule.ScheduleState.HandleCloseDialog` | client-rivora/src/components/Schedule.jsx:13-15 | closes the dialog and touches nothing else |
| `Schedule.ScheduleState.HandleScheduleSubmit` | client-rivora/src/components/Schedule.jsx:17-23 | hands the UTC date to the parent, marks the studio scheduled and closes the dialog; an invalid date throws first and changes nothing |
| `Schedule.ScheduleState.HandleEditSchedule` | client-rivora/src/components/Schedule.jsx:25-27 | opens the dialog and touches nothing else |
| `Schedule.ScheduleState.HandleRemoveSchedule` | client-rivora/src/components/Schedule.jsx:29-31 | unschedules without touching the dialog flag |

## Left out

- Media and device APIs are left out: `getUserMedia`, `MediaRecorder` internals, `ondataavailable` and `Blob` assembly, and `track.stop()`. Acquiring the stream, creating a recorder and the emptiness of a chunk are boolean inputs, and a stream is only held or released.
- Real time is left out: the 5000 ms segment timer and the 100 ms reschedule are events in any order, not durations.
- The upload request is left out: `FormData`, the Cloudinary endpoint and preset, `JSON.parse` of the response, and the logged error text. The status, the secure URL and `Date.now()` are inputs. A response body that fails to parse is not modelled.
- `CaptureModel.UploadProgress`: the percentage `Math.round(loaded * 100 / total)` is floating-point rounding and is an opaque integer input.
- React is left out: state batching, stale closures in `useCallback`, and state updates after unmount being dropped. All state is immediately visible, and callbacks arriving after the cleanup still update it. In particular the `isRecording` guard of `startRecording` reads the current flag, where the code reads the value its closure captured at the last render.
- The `await` inside `startRecording` is modelled as two events: the call (`StartCall`), and `getUserMedia` answering (`AcquireDone`), with any other event possible in between. A leaked stream is only counted, as the tracks it keeps open are outside the model.
- `processSession`, the merge routine, is not part of this model. Its result or failure message is an input. `mailError` stands for `transporter.sendMail` failing. Mongoose connection handling and the cast of the id are left out.
- `VideoWorker.Notification`: of the email body only the greeting name and the link are modelled. The HTML around them is not.
- Job-queue behaviour is left out: the limit of 5 jobs per 1000 ms, the poll and stall intervals, redelivery and the `failed` event log. It lives in the queue library. Redelivery appears only as running the handler again (`VideoWorker.RedeliveryConverges`).
- `server/server.js` and `server/queues/videoQueue.js` are left out. They only wire up connections.
- `Schedule.FormatDateForDisplay`: the `Date`/`Intl` rendering and the digit replacement at line 73 depend on the locale. Their result is an input, `dayText`.
- `Schedule.TimeZoneAbbr`: zone names that are properties of every JavaScript object (such as "constructor") would find a value in the table. Real zone names never do, so this is not modelled.
- `JsString.DecimalString`: JavaScript writes integers from 1e21 on in exponent notation. Chunk numbers and millisecond time stamps stay far below that, so only plain decimal notation is modelled.
- The JSX layout is left out.
