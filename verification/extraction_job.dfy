// One extraction run (`ThumbnailExtractionJob`): its life cycle, its
// progress record, the frames and thumbnails each stage collects, and the
// statistics recorded when it ends. The clock is a parameter (`now`, in
// seconds); the progress and completion callbacks are modelled by the
// notices they receive.

module ExtractionJob {
  import opened Errors
  import opened PyMath
  import Text
  import opened Ordering
  import opened VideoFile
  import opened Frame
  import opened UserSettings
  import opened Thumbnail

  datatype JobStatus = Created | Queued | Running | Paused | Completed | Failed | Cancelled

  datatype JobPhase =
    | Initializing | ExtractingFrames | DetectingFaces | SelectingFrames
    | GeneratingThumbnails | SavingFiles | Finalizing

  /** The progress message: the fixed texts of the life-cycle operations, or
      one given by the caller. */
  datatype ProgressMessage =
    | Custom(text: string) | JobStarting | JobPaused | JobResuming | JobFinished
    | JobFailed(reason: string) | JobCancelled

  /** `JobProgress`; the remaining-time estimate in seconds. */
  datatype JobProgress = JobProgress(phase: JobPhase, currentStep: int, totalSteps: int,
                                     percentage: real, message: ProgressMessage,
                                     remaining: Option<real>)

  const InitialProgress: JobProgress := JobProgress(Initializing, 0, 0, 0.0, Custom(""), None)

  /** What `_update_statistics` records about the video. */
  datatype VideoStats = VideoStats(duration: real, fps: real, resolution: string,
                                   framesPerSecondProcessed: real)

  /** What `_update_statistics` records. */
  datatype Statistics = Statistics(extracted: nat, filtered: nat, selected: nat, generated: nat,
                                   successRate: real, durationSeconds: real, speed: Option<real>,
                                   averageScore: real, averageDiversity: real,
                                   video: Option<VideoStats>)

  // ---------------------------------------------------------------------
  // Life cycle

  datatype JobCommand = Start | Pause | Resume | Complete | Fail | Cancel

  /** The status each life-cycle operation moves to, or none when it is
      refused with a ValueError. `fail` is accepted in every status. */
  function Next(c: JobCommand, s: JobStatus): Option<JobStatus>
  {
    match c
    case Start => if s == JobStatus.Created then Some(Running) else None
    case Pause => if s == Running then Some(Paused) else None
    case Resume => if s == Paused then Some(Running) else None
    case Complete => if s == Running || s == Paused then Some(JobStatus.Completed) else None
    case Fail => Some(JobStatus.Failed)
    case Cancel => if s == JobStatus.Completed || s == JobStatus.Failed then None else Some(Cancelled)
  }

  /** `is_completed`. */
  predicate IsFinished(s: JobStatus)
  {
    s == JobStatus.Completed || s == JobStatus.Failed || s == Cancelled
  }

  /** A finished job stays finished: from a finished status only `fail`
      and (from Cancelled) `cancel` are accepted, and both end in a finished
      status. No operation leads back to Created or into Queued, and only
      `start` and `resume` lead to Running. */
  lemma FinishedIsFinal(c: JobCommand, s: JobStatus)
    ensures IsFinished(s) && Next(c, s).Some? ==> IsFinished(Next(c, s).value)
    ensures IsFinished(s) && Next(c, s).Some? ==> c == Fail || (c == Cancel && s == Cancelled)
    ensures Next(c, s).Some? ==> Next(c, s).value != JobStatus.Created && Next(c, s).value != Queued
    ensures Next(c, s) == Some(Running) <==> (c == Start && s == JobStatus.Created) || (c == Resume && s == Paused)
  {
  }

  /** The operations that end a job are exactly complete, fail and cancel. */
  lemma FinishingCommands(c: JobCommand, s: JobStatus)
    requires !IsFinished(s) && Next(c, s).Some?
    ensures IsFinished(Next(c, s).value) <==> c == Complete || c == Fail || c == Cancel
  {
  }

  /** `success_rate`: 0 without settings, 1 for a target of 0, otherwise the
      share of the target generated, at most 1. */
  function SuccessRate(target: Option<int>, generated: nat): (r: real)
    ensures target.Some? && target.value >= 0 ==> 0.0 <= r <= 1.0
    ensures target.Some? && target.value > 0 ==> (r == 1.0 <==> generated >= target.value)
    ensures target.None? ==> r == 0.0
  {
    if target.None? then 0.0
    else if target.value == 0 then 1.0
    else
      var share := generated as real / target.value as real;
      if target.value > 0 then
        RatioBounds(generated, target.value);
        Min(1.0, share)
      else Min(1.0, share)
  }

  /** The percentage `update_progress` derives: current / total * 100. */
  function Percentage(current: int, total: int): (p: real)
    requires total > 0
    ensures 0 <= current <= total ==> 0.0 <= p <= 100.0
    ensures current == total ==> p == 100.0
    ensures p * total as real == current as real * 100.0
  {
    RatioBounds(current, total);
    var q := current as real / total as real;
    assert q * 100.0 * total as real == (q * total as real) * 100.0;
    q * 100.0
  }

  /** a / b for a positive b: in [0, 1] when 0 <= a <= b, and at least 1
      exactly when a >= b. */
  lemma RatioBounds(a: int, b: int)
    requires b > 0
    ensures (a as real / b as real) * b as real == a as real
    ensures 0 <= a <= b ==> 0.0 <= a as real / b as real <= 1.0
    ensures a as real / b as real >= 1.0 <==> a >= b
  {
    ProductBounds(a as real / b as real, a as real, b as real);
  }

  /** For q * d == a with d positive: q is in [0, 1] when 0 <= a <= d, at
      least 1 exactly when a >= d, and negative only when a is. */
  lemma ProductBounds(q: real, a: real, d: real)
    requires d > 0.0 && q * d == a
    ensures 0.0 <= a <= d ==> 0.0 <= q <= 1.0
    ensures q >= 1.0 <==> a >= d
  {
    if q >= 1.0 {
      MulMonotone(1.0, q, d);
    } else {
      MulStrict(q, 1.0, d);
    }
    if q < 0.0 {
      MulStrict(q, 0.0, d);
    }
  }

  /** The scores of a list of thumbnails, in order. */
  function TotalScores(ts: seq<Thumbnail>): (ks: seq<real>)
    reads set t | t in ts
    ensures |ks| == |ts| && forall i :: 0 <= i < |ts| ==> ks[i] == ts[i].totalScore
  {
    seq(|ts|, i reads set t | t in ts requires 0 <= i < |ts| => ts[i].totalScore)
  }

  function DiversityScores(ts: seq<Thumbnail>): (ks: seq<real>)
    reads set t | t in ts
    ensures |ks| == |ts| && forall i :: 0 <= i < |ts| ==> ks[i] == ts[i].diversityScore
  {
    seq(|ts|, i reads set t | t in ts requires 0 <= i < |ts| => ts[i].diversityScore)
  }

  /** The first `count` thumbnails by descending key, ties in list order. */
  function BestBy(ts: seq<Thumbnail>, keys: seq<real>, count: int): seq<Thumbnail>
    requires |keys| == |ts|
  {
    TopIsBest(keys, count);
    At(ts, Top(keys, count))
  }

  /** The thumbnails chosen are in descending key order, and every
      thumbnail of the list that is not chosen has a key no higher than any
      chosen one; a count of at least the length keeps every thumbnail. */
  lemma BestByIsBest(ts: seq<Thumbnail>, keys: seq<real>, count: int)
    requires |keys| == |ts|
    ensures var b := BestBy(ts, keys, count);
            forall i, j :: 0 <= i < j < |b| ==> keys[Top(keys, count)[i]] >= keys[Top(keys, count)[j]]
    ensures var b := BestBy(ts, keys, count);
            forall i, p :: 0 <= i < |b| && 0 <= p < |ts| && ts[p] !in b ==> keys[Top(keys, count)[i]] >= keys[p]
    ensures count >= |ts| ==> multiset(BestBy(ts, keys, count)) == multiset(ts)
  {
    var t := Top(keys, count);
    var b := BestBy(ts, keys, count);
    TopIsBest(keys, count);
    if count >= |ts| {
      PositionsOfAll(ts, t);
    }
  }

  /** The entries at a permutation of all positions are the list permuted. */
  lemma {:induction false} PositionsOfAll<T>(ts: seq<T>, positions: seq<nat>)
    requires multiset(positions) == multiset(Range(|ts|))
    ensures forall i :: 0 <= i < |positions| ==> positions[i] < |ts|
    ensures multiset(At(ts, positions)) == multiset(ts)
  {
    if |ts| == 0 {
      assert |positions| == |multiset(positions)| == 0;
    } else {
      var k, rest := TakeOutLast(positions, |ts|);
      PositionsOfAll(ts[..|ts| - 1], rest);
      SplitAt(ts, positions, k, rest);
    }
  }

  /** A permutation of 0..n-1 holds n-1 at some `k`; without it, it is a
      permutation of 0..n-2. */
  lemma TakeOutLast(positions: seq<nat>, n: nat) returns (k: nat, rest: seq<nat>)
    requires n > 0 && multiset(positions) == multiset(Range(n))
    ensures k < |positions| && positions[k] == n - 1 && rest == positions[..k] + positions[k + 1..]
    ensures multiset(rest) == multiset(Range(n - 1))
  {
    var last: nat := n - 1;
    assert last in positions by {
      assert Range(n)[last] == last;
      assert last in multiset(Range(n));
    }
    k :| 0 <= k < |positions| && positions[k] == last;
    rest := positions[..k] + positions[k + 1..];
    assert positions == positions[..k] + [last] + positions[k + 1..];
    assert Range(n) == Range(last) + [last];
    CancelOne(multiset(rest), multiset(Range(last)), last);
  }

  /** Equal multisets after adding the same element were equal before. */
  lemma CancelOne(a: multiset<nat>, b: multiset<nat>, x: nat)
    requires a + multiset{x} == b + multiset{x}
    ensures a == b
  {
    forall y
      ensures a[y] == b[y]
    {
      assert (a + multiset{x})[y] == (b + multiset{x})[y];
    }
  }

  /** Taking the last entry out at `k`: the entries at `positions` are
      those of the shorter list at the remaining positions, with the last
      entry put back at `k`. */
  lemma SplitAt<T>(ts: seq<T>, positions: seq<nat>, k: nat, rest: seq<nat>)
    requires |ts| > 0 && k < |positions| && positions[k] == |ts| - 1
    requires rest == positions[..k] + positions[k + 1..]
    requires forall i :: 0 <= i < |rest| ==> rest[i] < |ts| - 1
    requires multiset(At(ts[..|ts| - 1], rest)) == multiset(ts[..|ts| - 1])
    ensures forall i :: 0 <= i < |positions| ==> positions[i] < |ts|
    ensures multiset(At(ts, positions)) == multiset(ts)
  {
    var last := |ts| - 1;
    forall i | 0 <= i < |positions|
      ensures positions[i] < |ts|
    {
      if i < k {
        assert positions[i] == rest[i];
      } else if i > k {
        assert positions[i] == rest[i - 1];
      }
    }
    var a := At(ts, positions);
    var b := At(ts[..last], rest);
    var c := b[..k] + [ts[last]] + b[k..];
    forall i | 0 <= i < |a|
      ensures a[i] == c[i]
    {
      if i < k {
        assert rest[i] == positions[i];
      } else if i > k {
        assert rest[i - 1] == positions[i];
      }
    }
    assert a == c;
    assert b[..k] + b[k..] == b;
    assert ts == ts[..last] + [ts[last]];
  }

  /** What `_update_statistics` records, from the frame counts, the total
      and diversity scores of the generated thumbnails, the duration and
      speed, the target count and the video's duration, frame rate and
      size. */
  function Summary(extracted: nat, filtered: nat, selected: nat, totals: seq<real>,
                   diversities: seq<real>, duration: Option<real>, speed: Option<real>,
                   target: Option<int>, video: Option<(real, real, int, int)>): (s: Statistics)
    ensures s.extracted == extracted && s.generated == |totals|
    ensures s.video.Some? <==> video.Some?
  {
    var n := |totals|;
    Statistics(
      extracted, filtered, selected, n,
      SuccessRate(target, n),
      if duration.Some? then duration.value else 0.0,
      speed,
      if n > 0 then Mean(totals) else 0.0,
      if |diversities| > 0 then Mean(diversities) else 0.0,
      if video.Some? then
        var (d, fps, w, h) := video.value;
        Some(VideoStats(d, fps, Text.FormatInt(w, 0) + "x" + Text.FormatInt(h, 0),
                        if d > 0.0 then extracted as real / d else 0.0))
      else None)
  }

  /** With scores in [0, 1] and a non-negative target, the success rate and
      both averages are in [0, 1]; the averages are those of the scores. */
  lemma SummaryBounds(extracted: nat, filtered: nat, selected: nat, totals: seq<real>,
                      diversities: seq<real>, duration: Option<real>, speed: Option<real>,
                      target: Option<int>, video: Option<(real, real, int, int)>)
    requires forall i :: 0 <= i < |totals| ==> 0.0 <= totals[i] <= 1.0
    requires forall i :: 0 <= i < |diversities| ==> 0.0 <= diversities[i] <= 1.0
    requires target.Some? ==> target.value >= 0
    ensures var s := Summary(extracted, filtered, selected, totals, diversities, duration, speed, target, video);
            0.0 <= s.successRate <= 1.0 && 0.0 <= s.averageScore <= 1.0 && 0.0 <= s.averageDiversity <= 1.0
  {
    if |totals| > 0 {
      MeanBounds(totals, 0.0, 1.0);
    }
    if |diversities| > 0 {
      MeanBounds(diversities, 0.0, 1.0);
    }
  }

  // ---------------------------------------------------------------------
  // The entity

  class ExtractionJob {
    const jobId: string
    const videoFile: Option<VideoFile>
    const userSettings: Option<UserSettings>
    const createdAt: real
    /** Whether a progress callback, and a completion callback, is set. */
    const progressListener: bool
    const completionListener: bool
    var status: JobStatus
    var progress: JobProgress
    var extractedFrames: seq<Frame>
    var filteredFrames: seq<Frame>
    var selectedFrames: seq<Frame>
    var generatedThumbnails: seq<Thumbnail>
    var startedAt: Option<real>
    var completedAt: Option<real>
    var errorMessage: Option<string>
    var errorDetails: Option<map<string, Meta>>
    var statistics: Option<Statistics>
    var metadata: map<string, Meta>
    /** What the callbacks have received: progress snapshots, and how many
        times the completion callback ran. */
    var progressNotices: seq<JobProgress>
    var completionNotices: nat

    constructor(jobId: string, videoFile: Option<VideoFile>, userSettings: Option<UserSettings>,
                createdAt: real, progressListener: bool, completionListener: bool)
      ensures this.jobId == jobId && this.videoFile == videoFile && this.userSettings == userSettings
      ensures this.createdAt == createdAt
      ensures this.progressListener == progressListener && this.completionListener == completionListener
      ensures status == JobStatus.Created && progress == InitialProgress
      ensures extractedFrames == [] && filteredFrames == [] && selectedFrames == []
      ensures generatedThumbnails == []
      ensures startedAt == None && completedAt == None && errorMessage == None && errorDetails == None
      ensures statistics == None && metadata == map[]
      ensures progressNotices == [] && completionNotices == 0
    {
      this.jobId := jobId;
      this.videoFile := videoFile;
      this.userSettings := userSettings;
      this.createdAt := createdAt;
      this.progressListener := progressListener;
      this.completionListener := completionListener;
      status := JobStatus.Created;
      progress := InitialProgress;
      extractedFrames := [];
      filteredFrames := [];
      selectedFrames := [];
      generatedThumbnails := [];
      startedAt := None;
      completedAt := None;
      errorMessage := None;
      errorDetails := None;
      statistics := None;
      metadata := map[];
      progressNotices := [];
      completionNotices := 0;
    }

    /** The notices after `_notify_progress` with the given progress. */
    function Notified(notices: seq<JobProgress>, p: JobProgress): seq<JobProgress>
    {
      if progressListener then notices + [p] else notices
    }

    /** The completion count after `_notify_completion`. */
    function Completions(n: nat): nat
    {
      if completionListener then n + 1 else n
    }

    /** `duration`: from the start to the end, or to now while unfinished. */
    function Duration(now: real): Option<real>
      reads this`startedAt, this`completedAt
    {
      if startedAt.None? then None
      else if completedAt.Some? then Some(completedAt.value - startedAt.value)
      else Some(now - startedAt.value)
    }

    /** `processing_speed`: extracted frames per second of duration. */
    function ProcessingSpeed(now: real): Option<real>
      reads this`startedAt, this`completedAt, this`extractedFrames
    {
      var d := Duration(now);
      if d.None? || d.value == 0.0 then None else Some(|extractedFrames| as real / d.value)
    }

    /** The target thumbnail count of the settings, if any. */
    function Target(): Option<int>
    {
      if userSettings.Some? then Some(userSettings.value.settings.thumbnailCount) else None
    }

    /** `success_rate`. */
    function GetSuccessRate(): real
      reads this`generatedThumbnails
    {
      SuccessRate(Target(), |generatedThumbnails|)
    }

    /** The duration, frame rate and size of the job's video, if any. */
    function VideoFacts(): Option<(real, real, int, int)>
      reads if videoFile.Some? then {videoFile.value} else {}
    {
      if videoFile.Some? then
        Some((videoFile.value.duration, videoFile.value.fps, videoFile.value.width, videoFile.value.height))
      else None
    }

    /** The statistics as `_update_statistics` records them now. */
    function CurrentStatistics(now: real): Statistics
      reads this`startedAt, this`completedAt, this`extractedFrames, this`filteredFrames
      reads this`selectedFrames, this`generatedThumbnails, set t | t in generatedThumbnails
      reads if videoFile.Some? then {videoFile.value} else {}
    {
      Summary(|extractedFrames|, |filteredFrames|, |selectedFrames|,
              TotalScores(generatedThumbnails), DiversityScores(generatedThumbnails),
              Duration(now), ProcessingSpeed(now), Target(), VideoFacts())
    }

    /** `_update_statistics`: records the statistics and changes nothing else. */
    method UpdateStatistics(now: real)
      modifies this`statistics
      ensures statistics == Some(CurrentStatistics(now))
    {
      statistics := Some(CurrentStatistics(now));
    }

    /** Records the end time `now` and then the statistics as of then. */
    method Close(now: real)
      modifies this`completedAt, this`statistics
      ensures completedAt == Some(now) && statistics == Some(CurrentStatistics(now))
    {
      completedAt := Some(now);
      UpdateStatistics(now);
    }

    /** `start`: from Created only, to Running, recording the start time. */
    method StartJob(now: real) returns (failure: Option<ErrorKind>)
      modifies this`status, this`startedAt, this`progress, this`progressNotices
      ensures failure.None? <==> Next(Start, old(status)).Some?
      ensures failure.Some? ==> failure.value == ValueError && unchanged(this)
      ensures failure.None? ==> status == Running && startedAt == Some(now)
                                && progress == old(progress).(phase := Initializing, message := JobStarting)
                                && progressNotices == Notified(old(progressNotices), progress)
    {
      if status != JobStatus.Created {
        return Some(ValueError);
      }
      status := Running;
      startedAt := Some(now);
      progress := progress.(phase := Initializing, message := JobStarting);
      progressNotices := Notified(progressNotices, progress);
      return None;
    }

    /** `pause`: from Running only, to Paused. */
    method PauseJob() returns (failure: Option<ErrorKind>)
      modifies this`status, this`progress, this`progressNotices
      ensures failure.None? <==> Next(Pause, old(status)).Some?
      ensures failure.Some? ==> failure.value == ValueError && unchanged(this)
      ensures failure.None? ==> status == Paused && progress == old(progress).(message := JobPaused)
                                && progressNotices == Notified(old(progressNotices), progress)
    {
      if status != Running {
        return Some(ValueError);
      }
      status := Paused;
      progress := progress.(message := JobPaused);
      progressNotices := Notified(progressNotices, progress);
      return None;
    }

    /** `resume`: from Paused only, back to Running. */
    method ResumeJob() returns (failure: Option<ErrorKind>)
      modifies this`status, this`progress, this`progressNotices
      ensures failure.None? <==> Next(Resume, old(status)).Some?
      ensures failure.Some? ==> failure.value == ValueError && unchanged(this)
      ensures failure.None? ==> status == Running && progress == old(progress).(message := JobResuming)
                                && progressNotices == Notified(old(progressNotices), progress)
    {
      if status != Paused {
        return Some(ValueError);
      }
      status := Running;
      progress := progress.(message := JobResuming);
      progressNotices := Notified(progressNotices, progress);
      return None;
    }

    /** The common end of `complete`, `fail` and `cancel`: the new status
        and progress, the end time, the statistics, then both callbacks. */
    method Finish(newStatus: JobStatus, newProgress: JobProgress, now: real)
      modifies this`status, this`progress, this`progressNotices, this`completionNotices
      modifies this`completedAt, this`statistics
      ensures status == newStatus && progress == newProgress && completedAt == Some(now)
      ensures statistics == Some(CurrentStatistics(now))
      ensures progressNotices == Notified(old(progressNotices), newProgress)
      ensures completionNotices == Completions(old(completionNotices))
    {
      status := newStatus;
      progress := newProgress;
      progressNotices := Notified(progressNotices, progress);
      completionNotices := Completions(completionNotices);
      Close(now);
    }

    /** `complete`: from Running or Paused, to Completed with every step
        done and 100 percent; the statistics are recorded and both
        callbacks notified. */
    method CompleteJob(now: real) returns (failure: Option<ErrorKind>)
      modifies this`status, this`progress, this`progressNotices, this`completionNotices
      modifies this`completedAt, this`statistics
      ensures failure.None? <==> Next(Complete, old(status)).Some?
      ensures failure.Some? ==> failure.value == ValueError
                                && unchanged(this`status, this`completedAt, this`progress, this`statistics)
                                && unchanged(this`progressNotices, this`completionNotices)
      ensures failure.None? ==> status == JobStatus.Completed && completedAt == Some(now)
      ensures failure.None? ==> progress == old(progress).(phase := Finalizing,
                                                         currentStep := old(progress).totalSteps,
                                                         percentage := 100.0, message := JobFinished)
      ensures failure.None? ==> statistics == Some(CurrentStatistics(now))
                                && progressNotices == Notified(old(progressNotices), progress)
                                && completionNotices == Completions(old(completionNotices))
    {
      if status != Running && status != Paused {
        return Some(ValueError);
      }
      Finish(JobStatus.Completed,
             progress.(phase := Finalizing, currentStep := progress.totalSteps,
                       percentage := 100.0, message := JobFinished),
             now);
      return None;
    }

    /** `fail(message, details)`: from any status, to Failed, recording the
        message and the details (empty when none are given). */
    method FailJob(message: string, details: Option<map<string, Meta>>, now: real)
      modifies this`status, this`progress, this`progressNotices, this`completionNotices
      modifies this`completedAt, this`statistics, this`errorMessage, this`errorDetails
      ensures status == JobStatus.Failed && completedAt == Some(now) && errorMessage == Some(message)
      ensures errorDetails == Some(if details.Some? then details.value else map[])
      ensures progress == old(progress).(message := JobFailed(message))
      ensures statistics == Some(CurrentStatistics(now))
      ensures progressNotices == Notified(old(progressNotices), progress)
      ensures completionNotices == Completions(old(completionNotices))
    {
      errorMessage := Some(message);
      errorDetails := Some(if details.Some? then details.value else map[]);
      Finish(JobStatus.Failed, progress.(message := JobFailed(message)), now);
    }

    /** `cancel`: refused once Completed or Failed; otherwise to Cancelled,
        with the statistics recorded and both callbacks notified. */
    method CancelJob(now: real) returns (failure: Option<ErrorKind>)
      modifies this`status, this`progress, this`progressNotices, this`completionNotices
      modifies this`completedAt, this`statistics
      ensures failure.None? <==> Next(Cancel, old(status)).Some?
      ensures failure.Some? ==> failure.value == ValueError
                                && unchanged(this`status, this`completedAt, this`progress, this`statistics)
                                && unchanged(this`progressNotices, this`completionNotices)
      ensures failure.None? ==> status == Cancelled && completedAt == Some(now)
                                && progress == old(progress).(message := JobCancelled)
                                && statistics == Some(CurrentStatistics(now))
                                && progressNotices == Notified(old(progressNotices), progress)
                                && completionNotices == Completions(old(completionNotices))
    {
      if status == JobStatus.Completed || status == JobStatus.Failed {
        return Some(ValueError);
      }
      Finish(Cancelled, progress.(message := JobCancelled), now);
      return None;
    }

    /** `update_progress`: the supplied fields replaced, the others kept;
        the percentage recomputed from the steps when the total is positive
        and kept otherwise. */
    method UpdateProgress(phase: Option<JobPhase>, currentStep: Option<int>, totalSteps: Option<int>,
                          message: Option<ProgressMessage>, remaining: Option<real>)
      modifies this`progress, this`progressNotices
      ensures progress.phase == (if phase.Some? then phase.value else old(progress).phase)
      ensures progress.currentStep == (if currentStep.Some? then currentStep.value else old(progress).currentStep)
      ensures progress.totalSteps == (if totalSteps.Some? then totalSteps.value else old(progress).totalSteps)
      ensures progress.message == (if message.Some? then message.value else old(progress).message)
      ensures progress.remaining == (if remaining.Some? then remaining else old(progress).remaining)
      ensures progress.totalSteps > 0 ==> progress.percentage == Percentage(progress.currentStep, progress.totalSteps)
      ensures progress.totalSteps <= 0 ==> progress.percentage == old(progress).percentage
      ensures progressNotices == Notified(old(progressNotices), progress)
    {
      var p := progress;
      if phase.Some? { p := p.(phase := phase.value); }
      if currentStep.Some? { p := p.(currentStep := currentStep.value); }
      if totalSteps.Some? { p := p.(totalSteps := totalSteps.value); }
      if message.Some? { p := p.(message := message.value); }
      if remaining.Some? { p := p.(remaining := remaining); }
      if p.totalSteps > 0 {
        p := p.(percentage := p.currentStep as real / p.totalSteps as real * 100.0);
      }
      progress := p;
      progressNotices := Notified(progressNotices, progress);
    }

    /** `add_extracted_frame`. */
    method AddExtractedFrame(frame: Frame)
      modifies this`extractedFrames
      ensures extractedFrames == old(extractedFrames) + [frame]
    {
      extractedFrames := extractedFrames + [frame];
    }

    /** `add_filtered_frame`. */
    method AddFilteredFrame(frame: Frame)
      modifies this`filteredFrames
      ensures filteredFrames == old(filteredFrames) + [frame]
    {
      filteredFrames := filteredFrames + [frame];
    }

    /** `add_selected_frame`. */
    method AddSelectedFrame(frame: Frame)
      modifies this`selectedFrames
      ensures selectedFrames == old(selectedFrames) + [frame]
    {
      selectedFrames := selectedFrames + [frame];
    }

    /** `add_generated_thumbnail`. */
    method AddGeneratedThumbnail(thumbnail: Thumbnail)
      modifies this`generatedThumbnails
      ensures generatedThumbnails == old(generatedThumbnails) + [thumbnail]
    {
      generatedThumbnails := generatedThumbnails + [thumbnail];
    }

    /** The count used when none is given: the settings' target, or every
        thumbnail without settings. */
    function DefaultCount(count: Option<int>): int
      reads this
    {
      if count.Some? then count.value
      else if userSettings.Some? then userSettings.value.settings.thumbnailCount
      else |generatedThumbnails|
    }

    /** `get_best_thumbnails(count)`. */
    function BestThumbnails(count: Option<int>): seq<Thumbnail>
      reads this, set t | t in generatedThumbnails
    {
      BestBy(generatedThumbnails, TotalScores(generatedThumbnails), DefaultCount(count))
    }

    /** `get_most_diverse_thumbnails(count)`. */
    function MostDiverseThumbnails(count: Option<int>): seq<Thumbnail>
      reads this, set t | t in generatedThumbnails
    {
      BestBy(generatedThumbnails, DiversityScores(generatedThumbnails), DefaultCount(count))
    }

    /** `add_metadata`. */
    method AddMetadata(key: string, value: Meta)
      modifies this`metadata
      ensures metadata == old(metadata)[key := value]
    {
      metadata := metadata[key := value];
    }

    /** `get_metadata(key, default)`. */
    function GetMetadata(key: string, default: Option<Meta>): (v: Option<Meta>)
      reads this
      ensures key in metadata ==> v == Some(metadata[key])
      ensures key !in metadata ==> v == default
    {
      if key in metadata then Some(metadata[key]) else default
    }

    /** `__eq__`: the same job identifier. */
    predicate SameJob(other: ExtractionJob)
    {
      jobId == other.jobId
    }
  }

  /** The best thumbnails are ordered by descending total score and none
      left out scores higher than one returned; the most diverse likewise
      by diversity score. */
  lemma BestThumbnailsAreBest(job: ExtractionJob, count: Option<int>)
    ensures var b := job.BestThumbnails(count);
            forall t, u :: t in b && u in job.generatedThumbnails && u !in b ==> t.totalScore >= u.totalScore
    ensures var b := job.MostDiverseThumbnails(count);
            forall t, u :: t in b && u in job.generatedThumbnails && u !in b ==> t.diversityScore >= u.diversityScore
  {
    var ts := job.generatedThumbnails;
    var k := job.DefaultCount(count);
    BestByIsBest(ts, TotalScores(ts), k);
    BestByIsBest(ts, DiversityScores(ts), k);
    forall t, u | t in job.BestThumbnails(count) && u in ts && u !in job.BestThumbnails(count)
      ensures t.totalScore >= u.totalScore
    {
      var b := job.BestThumbnails(count);
      var i :| 0 <= i < |b| && b[i] == t;
      var p :| 0 <= p < |ts| && ts[p] == u;
    }
    forall t, u | t in job.MostDiverseThumbnails(count) && u in ts && u !in job.MostDiverseThumbnails(count)
      ensures t.diversityScore >= u.diversityScore
    {
      var b := job.MostDiverseThumbnails(count);
      var i :| 0 <= i < |b| && b[i] == t;
      var p :| 0 <= p < |ts| && ts[p] == u;
    }
  }

  /** `ThumbnailExtractionJob.create`: a new job for the video and settings;
      an identifier that is empty or blank is refused with a ValueError. */
  method Create(jobId: string, videoFile: VideoFile, userSettings: UserSettings, createdAt: real,
                progressListener: bool, completionListener: bool) returns (r: Result<ExtractionJob>)
    ensures r.Ok? <==> !Text.IsBlank(jobId)
    ensures r.Err? ==> r.error == ValueError
    ensures r.Ok? ==> fresh(r.value) && r.value.jobId == jobId && r.value.status == JobStatus.Created
                      && r.value.videoFile == Some(videoFile) && r.value.userSettings == Some(userSettings)
                      && r.value.progress == InitialProgress && r.value.generatedThumbnails == []
                      && r.value.extractedFrames == []
  {
    if Text.IsBlank(jobId) {
      return Err(ValueError);
    }
    var job := new ExtractionJob(jobId, Some(videoFile), Some(userSettings), createdAt,
                                 progressListener, completionListener);
    return Ok(job);
  }
}
