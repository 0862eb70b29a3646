/**
 * Upload and transcode: the hex digest, the deduplicating upload slot, and the bounded loop that polls
 * the transcode job (`uploadAndTranscode`, and `getTranscodeStatus` with and without `--wait`).
 *
 * The server is abstract: `UploadServer` bundles its answer to the upload-slot request and the
 * outcome of the PUT, and `jobs(i)` is the job state it reports on the i-th status request.
 * The 5-second sleep between attempts has no observable effect here and is left as an empty step.
 */
module Transcode {
  import opened Wrappers
  import opened Schemas
  import opened Text
  import opened Hex
  import opened Sources
  import opened Errors

  const MaxAttempts := 60
  const PollIntervalSeconds := 5

  /** Phases that keep `uploadAndTranscode` polling. */
  const UploadInProgress := {"queued", "processing", "transcoding"}
  /** Phases that keep `getTranscodeStatus --wait` polling: "transcoding" is not among them. */
  const StatusInProgress := {"queued", "processing"}

  datatype PollOutcome = Done(sha256: Option<string>, duration: Option<real>) | Failed(phase: string) | TimedOut

  /** What one status response means to the loop: stop with an outcome, or try again. */
  datatype Step = Finished(outcome: PollOutcome) | Pending

  /**
   * One attempt: success when the phase is "complete" or a transcoded hash is present; failure when
   * a (non-empty) phase is not one of the in-progress phases; otherwise keep polling.
   */
  function Classify(job: TranscodeJob, inProgress: set<string>): (r: Step)
    ensures r.Finished? ==> !r.outcome.TimedOut?
  {
    var phase := PhaseOf(job);
    if phase == Some("complete") || Truthy(job.transcodedSha256) then
      Finished(Done(job.transcodedSha256, TranscodedDuration(job)))
    else if Truthy(phase) && phase.value !in inProgress then
      Finished(Failed(phase.value))
    else
      Pending
  }

  /**
   * The three rules of one attempt, for every job.  It succeeds exactly when the phase is "complete"
   * or a transcoded hash is present, with that hash and duration.  It fails exactly when neither
   * holds and the phase is a non-empty one outside `inProgress`, reporting that phase.  Otherwise it
   * keeps polling: in particular a job with neither a phase nor a hash is pending.
   */
  lemma AttemptRules(job: TranscodeJob, inProgress: set<string>)
    ensures var r := Classify(job, inProgress);
            var done := PhaseOf(job) == Some("complete") || Truthy(job.transcodedSha256);
            && (r.Finished? && r.outcome.Done? <==> done)
            && (done ==> r == Finished(Done(job.transcodedSha256, TranscodedDuration(job))))
            && (r.Finished? && r.outcome.Failed? <==>
                  !done && Truthy(PhaseOf(job)) && PhaseOf(job).value !in inProgress)
            && (r.Finished? && r.outcome.Failed? ==> r.outcome.phase == PhaseOf(job).value)
            && (r == Pending <==> !done && (!Truthy(PhaseOf(job)) || PhaseOf(job).value in inProgress))
            && (!Truthy(PhaseOf(job)) && !Truthy(job.transcodedSha256) ==> r == Pending)
  {
  }

  /** The outcome of the attempts from number `i` on. */
  function PollFrom(jobs: nat -> TranscodeJob, inProgress: set<string>, i: nat): PollOutcome
    requires i <= MaxAttempts
    decreases MaxAttempts - i
  {
    if i == MaxAttempts then TimedOut
    else
      match Classify(jobs(i), inProgress)
      case Finished(outcome) => outcome
      case Pending => PollFrom(jobs, inProgress, i + 1)
  }

  /** The outcome of the whole poll loop. */
  function Poll(jobs: nat -> TranscodeJob, inProgress: set<string>): PollOutcome {
    PollFrom(jobs, inProgress, 0)
  }

  /** The loop: at most 60 status requests, stopping at the first that finishes. */
  method PollTranscode(jobs: nat -> TranscodeJob, inProgress: set<string>) returns (outcome: PollOutcome, attempts: nat)
    ensures outcome == Poll(jobs, inProgress)
    ensures 1 <= attempts <= MaxAttempts
    ensures forall i :: 0 <= i < attempts - 1 ==> Classify(jobs(i), inProgress) == Pending
    ensures outcome.TimedOut? ==> attempts == MaxAttempts && Classify(jobs(attempts - 1), inProgress) == Pending
    ensures !outcome.TimedOut? ==> Classify(jobs(attempts - 1), inProgress) == Finished(outcome)
  {
    for i := 0 to MaxAttempts
      invariant forall k :: 0 <= k < i ==> Classify(jobs(k), inProgress) == Pending
      invariant PollFrom(jobs, inProgress, i) == Poll(jobs, inProgress)
    {
      var step := Classify(jobs(i), inProgress);
      if step.Finished? {
        return step.outcome, i + 1;
      }
    }
    return TimedOut, MaxAttempts;
  }

  /** The loop times out exactly when all 60 attempts stay pending. */
  lemma {:induction false} TimesOutIffAllPending(jobs: nat -> TranscodeJob, inProgress: set<string>, i: nat)
    requires i <= MaxAttempts
    ensures PollFrom(jobs, inProgress, i) == TimedOut <==>
            forall k :: i <= k < MaxAttempts ==> Classify(jobs(k), inProgress) == Pending
    decreases MaxAttempts - i
  {
    if i < MaxAttempts {
      TimesOutIffAllPending(jobs, inProgress, i + 1);
    }
  }

  /** Otherwise the first attempt that finishes decides the outcome. */
  lemma {:induction false} FirstFinishedDecides(jobs: nat -> TranscodeJob, inProgress: set<string>, i: nat, k: nat)
    requires i <= k < MaxAttempts
    requires forall j :: i <= j < k ==> Classify(jobs(j), inProgress) == Pending
    requires Classify(jobs(k), inProgress).Finished?
    ensures PollFrom(jobs, inProgress, i) == Classify(jobs(k), inProgress).outcome
    decreases k - i
  {
    if i < k {
      FirstFinishedDecides(jobs, inProgress, i + 1, k);
    }
  }

  /**
   * Polling that tolerates more in-progress phases never loses a success: whenever the stricter
   * loop succeeds, the more tolerant one succeeds with the same hash and duration.
   */
  lemma {:induction false} TolerantPollKeepsSuccess(jobs: nat -> TranscodeJob, strict: set<string>, tolerant: set<string>, i: nat)
    requires strict <= tolerant && i <= MaxAttempts
    requires PollFrom(jobs, strict, i).Done?
    ensures PollFrom(jobs, tolerant, i) == PollFrom(jobs, strict, i)
    decreases MaxAttempts - i
  {
    if Classify(jobs(i), strict).Pending? {
      TolerantPollKeepsSuccess(jobs, strict, tolerant, i + 1);
    }
  }

  /** So whenever `track status --wait` succeeds, the upload loop succeeds on the same responses. */
  lemma StatusSuccessIsUploadSuccess(jobs: nat -> TranscodeJob)
    requires Poll(jobs, StatusInProgress).Done?
    ensures Poll(jobs, UploadInProgress) == Poll(jobs, StatusInProgress)
  {
    TolerantPollKeepsSuccess(jobs, StatusInProgress, UploadInProgress, 0);
  }

  /** A job in the "processing" phase with no hash yet. */
  function ProcessingJob(): TranscodeJob {
    TranscodeJob("u", "s", Some(Progress("processing", None)), None, None)
  }

  /** The same job reported in the "transcoding" phase. */
  function TranscodingJob(): TranscodeJob {
    TranscodeJob("u", "s", Some(Progress("transcoding", None)), None, None)
  }

  /** The job once complete, with its transcoded hash and duration. */
  function CompleteJob(sha: string, duration: real): TranscodeJob {
    TranscodeJob("u", "s", Some(Progress("complete", Some(100.0))), Some(sha),
                 Some(TranscodedInfo(Some(duration), None, None, None, None)))
  }

  /** "transcoding" keeps the upload loop waiting but is a failure to `track status --wait`. */
  lemma TranscodingPhaseDiffers()
    ensures Poll(_ => TranscodingJob(), UploadInProgress) == TimedOut
    ensures Poll(_ => TranscodingJob(), StatusInProgress) == Failed("transcoding")
  {
    var jobs: nat -> TranscodeJob := _ => TranscodingJob();
    assert forall k :: 0 <= k < MaxAttempts ==> Classify(jobs(k), UploadInProgress) == Pending;
    TimesOutIffAllPending(jobs, UploadInProgress, 0);
    FirstFinishedDecides(jobs, StatusInProgress, 0, 0);
  }

  /** A job that completes on the third attempt ends the loop there with its hash and duration. */
  lemma CompletesOnThirdAttempt(sha: string, duration: real)
    ensures var jobs: nat -> TranscodeJob := i => if i < 2 then ProcessingJob() else CompleteJob(sha, duration);
            Poll(jobs, UploadInProgress) == Done(Some(sha), Some(duration))
  {
    var jobs: nat -> TranscodeJob := i => if i < 2 then ProcessingJob() else CompleteJob(sha, duration);
    assert Classify(ProcessingJob(), UploadInProgress) == Pending;
    assert jobs(2) == CompleteJob(sha, duration);
    assert PhaseOf(CompleteJob(sha, duration)) == Some("complete");
    FirstFinishedDecides(jobs, UploadInProgress, 0, 2);
  }

  /** A job that never leaves "processing" makes the loop use all 60 attempts and time out. */
  method NeverLeavesProcessing() returns (outcome: PollOutcome, attempts: nat)
    ensures outcome == TimedOut && attempts == MaxAttempts
  {
    var jobs: nat -> TranscodeJob := _ => ProcessingJob();
    outcome, attempts := PollTranscode(jobs, UploadInProgress);
    TimesOutIffAllPending(jobs, UploadInProgress, 0);
  }

  // ---------------------------------------------------------------------------------------------
  // Upload
  // ---------------------------------------------------------------------------------------------

  /** What `uploadAndTranscode` returns; only `uploadId` is set when it does not wait. */
  datatype UploadResult = UploadResult(
    uploadId: string,
    trackUrl: Option<string>,
    sha256: Option<string>,
    duration: Option<real>)

  /** `yoto:#${transcodedSha256}`: a missing hash is printed by JavaScript as "undefined". */
  function TrackUrlFor(sha: Option<string>): string {
    YotoPrefix + (if sha.Some? then sha.value else "undefined")
  }

  /** A job that reports "complete" without a hash yields the reference "yoto:#undefined". */
  lemma CompleteWithoutHash(duration: Option<real>)
    ensures var job := TranscodeJob("u", "s", Some(Progress("complete", None)), None,
                                    Some(TranscodedInfo(duration, None, None, None, None)));
            Classify(job, UploadInProgress) == Finished(Done(None, duration))
    ensures TrackUrlFor(None) == "yoto:#undefined"
  {
  }

  /** The value or the error the caller sees once the loop has ended. */
  function ResultOf(uploadId: string, outcome: PollOutcome): Result<UploadResult, Error> {
    match outcome
    case Done(sha, duration) => Success(UploadResult(uploadId, Some(TrackUrlFor(sha)), sha, duration))
    case Failed(phase) => Failure(TranscodeFailed(phase))
    case TimedOut => Failure(TranscodeTimedOut(MaxAttempts * PollIntervalSeconds))
  }

  /** The timeout is reported as 300 seconds: 60 attempts, 5 seconds apart. */
  lemma TimeoutIsFiveMinutes(uploadId: string)
    ensures ResultOf(uploadId, TimedOut) == Failure(TranscodeTimedOut(300))
  {
  }

  /**
   * Everything outside the program that one upload depends on: the SHA-256 digest of the file's
   * bytes, the server's answer to the upload-slot request (given the hex digest and the file name),
   * whether the PUT of the bytes succeeds, and the job states the server reports, attempt by attempt.
   */
  datatype UploadServer = UploadServer(
    digest: seq<byte>,
    requestSlot: (string, string) -> UploadSlot,
    putAccepted: bool,
    jobs: nat -> TranscodeJob)

  /** The slot handed out for the file at `path`, requested under its hex digest and base name. */
  function SlotFor(path: string, server: UploadServer): UploadSlot {
    server.requestSlot(HexDigest(server.digest), Basename(path))
  }

  /** The bytes are sent only when the slot carries an upload URL; none means the server has them. */
  predicate Transfers(path: string, server: UploadServer) {
    Truthy(SlotFor(path, server).uploadUrl)
  }

  /** What `uploadAndTranscode(path, { wait: true })` returns, or the error it exits with. */
  function WaitedUpload(path: string, server: UploadServer): Result<UploadResult, Error> {
    if Transfers(path, server) && !server.putAccepted then Failure(UploadFailed)
    else ResultOf(SlotFor(path, server).uploadId, Poll(server.jobs, UploadInProgress))
  }

  /**
   * After waiting, a successful upload always carries a non-empty track reference beginning "yoto:#",
   * so the commands' "Failed to get track URL" exit cannot be reached after it.
   */
  lemma WaitedUploadHasTrackUrl(path: string, server: UploadServer)
    requires WaitedUpload(path, server).Success?
    ensures var res := WaitedUpload(path, server).value;
            Truthy(res.trackUrl) && StartsWith(res.trackUrl.value, YotoPrefix) &&
            res.uploadId == SlotFor(path, server).uploadId
  {
    var url := TrackUrlFor(Poll(server.jobs, UploadInProgress).sha256);
    assert url[..|YotoPrefix|] == YotoPrefix;
  }

  /** When the server already has the bytes, the PUT is skipped and its outcome cannot matter. */
  lemma DeduplicatedUploadIgnoresTransfer(path: string, server: UploadServer)
    requires !Transfers(path, server)
    ensures WaitedUpload(path, server) == WaitedUpload(path, server.(putAccepted := false))
    ensures WaitedUpload(path, server) != Failure(UploadFailed)
  {
  }

  /**
   * `uploadAndTranscode`: hash the file, ask for an upload slot under that hash, PUT the bytes only
   * when the slot has an upload URL, then, unless told not to wait, poll the transcode job.
   */
  method UploadAndTranscode(path: string, server: UploadServer, wait: bool)
    returns (r: Result<UploadResult, Error>, transferred: bool, attempts: nat)
    ensures transferred == Transfers(path, server)
    ensures wait ==> r == WaitedUpload(path, server)
    ensures !wait ==> r == if transferred && !server.putAccepted then Failure(UploadFailed)
                           else Success(UploadResult(SlotFor(path, server).uploadId, None, None, None))
    ensures attempts <= MaxAttempts
    ensures attempts == 0 <==> !wait || (transferred && !server.putAccepted)
  {
    var sha256 := HexDigest(server.digest);
    var slot := server.requestSlot(sha256, Basename(path));
    transferred := Truthy(slot.uploadUrl);
    if transferred && !server.putAccepted {
      return Failure(UploadFailed), transferred, 0;
    }
    if !wait {
      return Success(UploadResult(slot.uploadId, None, None, None)), transferred, 0;
    }
    var outcome;
    outcome, attempts := PollTranscode(server.jobs, UploadInProgress);
    r := ResultOf(slot.uploadId, outcome);
  }

  // ---------------------------------------------------------------------------------------------
  // Status
  // ---------------------------------------------------------------------------------------------

  /** What `track status` reports about a job. */
  datatype StatusReport = Complete(trackUrl: string, duration: Option<real>) | InProgress(phase: string, percent: Option<real>)

  /** `track status` without `--wait`: one request; an empty or missing phase shows as "unknown". */
  function CheckOnce(job: TranscodeJob): StatusReport {
    var phase := if Truthy(PhaseOf(job)) then PhaseOf(job).value else "unknown";
    if phase == "complete" || Truthy(job.transcodedSha256) then
      Complete(TrackUrlFor(job.transcodedSha256), TranscodedDuration(job))
    else
      InProgress(phase, if job.progress.Some? then job.progress.value.percent else None)
  }

  /**
   * The single check reports completion exactly when a polling attempt would succeed, with the same
   * reference and duration; a failed phase is only shown, never treated as a failure.
   */
  lemma CheckOnceAgreesWithPolling(job: TranscodeJob, inProgress: set<string>)
    ensures CheckOnce(job).Complete? <==> Classify(job, inProgress).Finished? && Classify(job, inProgress).outcome.Done?
    ensures CheckOnce(job).Complete? ==>
            CheckOnce(job) == Complete(TrackUrlFor(Classify(job, inProgress).outcome.sha256),
                                       Classify(job, inProgress).outcome.duration)
    ensures PhaseOf(job).Some? && Classify(job, inProgress) == Finished(Failed(PhaseOf(job).value)) ==>
            CheckOnce(job) == InProgress(PhaseOf(job).value, job.progress.value.percent)
  {
  }

  /** `getTranscodeStatus`: poll with the status loop's phases when waiting, otherwise check once. */
  method GetTranscodeStatus(wait: bool, jobs: nat -> TranscodeJob) returns (r: Result<StatusReport, Error>, attempts: nat)
    ensures wait ==> 1 <= attempts <= MaxAttempts &&
                     r == match Poll(jobs, StatusInProgress)
                          case Done(sha, duration) => Success(Complete(TrackUrlFor(sha), duration))
                          case Failed(phase) => Failure(TranscodeFailed(phase))
                          case TimedOut => Failure(TranscodeTimedOut(MaxAttempts * PollIntervalSeconds))
    ensures !wait ==> r == Success(CheckOnce(jobs(0))) && attempts == 1
  {
    if wait {
      var outcome;
      outcome, attempts := PollTranscode(jobs, StatusInProgress);
      match outcome
      case Done(sha, duration) => r := Success(Complete(TrackUrlFor(sha), duration));
      case Failed(phase) => r := Failure(TranscodeFailed(phase));
      case TimedOut => r := Failure(TranscodeTimedOut(MaxAttempts * PollIntervalSeconds));
    } else {
      r, attempts := Success(CheckOnce(jobs(0))), 1;
    }
  }
}
