// The background worker of the GUI: its status machine (start, pause,
// resume, cancel, the end of the worker function), progress reports and
// the monitor that moves them into the history, the pool that registers
// workers by name, and the progress arithmetic of the extraction run.
// Threads are not modelled: what another thread does is a method of its
// own (`Finish`, `MonitorStep`), and whether a thread starts or stops in
// time is a parameter; the clock is a parameter `now`.

module AsyncWorker {

  import opened Errors

  /** `WorkerStatus`. */
  datatype WorkerStatus = Idle | Running | Paused | Cancelled | Completed | Failed

  /** `max(0.0, min(100.0, progress))`. */
  function Clamp(p: real): (r: real)
    ensures 0.0 <= r <= 100.0
    ensures 0.0 <= p <= 100.0 ==> r == p
    ensures p < 0.0 ==> r == 0.0
    ensures p > 100.0 ==> r == 100.0
  {
    var low := if 100.0 < p then 100.0 else p;
    if 0.0 > low then 0.0 else low
  }

  /** `ProgressUpdate`: the clamped progress and the elapsed time when it
      was reported. */
  datatype ProgressUpdate = ProgressUpdate(progress: real, elapsed: real)

  /** Every update holds a percentage. */
  predicate InPercent(us: seq<ProgressUpdate>)
  {
    forall k :: 0 <= k < |us| ==> 0.0 <= us[k].progress <= 100.0
  }

  /** How the worker function ended: it returned a value or raised. */
  datatype Outcome<R> = Returned(value: R) | Raised(kind: ErrorKind)

  /** `WorkerResult`: a snapshot of a worker. */
  datatype WorkerResult<R> = WorkerResult(status: WorkerStatus, result: Option<R>,
                                          error: Option<ErrorKind>, elapsed: real,
                                          history: seq<ProgressUpdate>)

  /** Everything a worker holds besides its name. */
  datatype WorkerState<R> = WorkerState(status: WorkerStatus, result: Option<R>, error: Option<ErrorKind>,
                                        startTime: Option<real>, endTime: Option<real>,
                                        cancelRequested: bool, pauseRequested: bool,
                                        queue: seq<ProgressUpdate>, history: seq<ProgressUpdate>,
                                        monitoring: bool)

  /** `AsyncWorker`. `cancelRequested` and `pauseRequested` are the two
      events, `queue` the progress queue and `monitoring` whether the
      progress monitor thread is still looping. */
  class Worker<R> {
    const name: string
    var status: WorkerStatus
    var result: Option<R>
    var error: Option<ErrorKind>
    var startTime: Option<real>
    var endTime: Option<real>
    var cancelRequested: bool
    var pauseRequested: bool
    var queue: seq<ProgressUpdate>
    var history: seq<ProgressUpdate>
    var monitoring: bool

    /** What every operation keeps: an active worker has started and not
        ended, the pause event is set exactly while paused, a finished
        worker has its end time (and a completed one its result, a failed
        one its error), and every stored progress is a percentage. */
    predicate Valid()
      reads this
    {
      (status == Running || status == Paused ==> startTime.Some? && endTime.None?)
      && (status == Running ==> !pauseRequested)
      && (status == Paused ==> pauseRequested)
      && (status == Completed ==> result.Some? && endTime.Some?)
      && (status == Cancelled ==> endTime.Some?)
      && (status == Failed ==> error.Some?)
      && InPercent(queue) && InPercent(history)
    }

    /** `AsyncWorker(name)`: idle, nothing recorded. */
    constructor (name: string)
      ensures Valid() && this.name == name && status == Idle
      ensures result == None && error == None && startTime == None && endTime == None
      ensures !cancelRequested && !pauseRequested && queue == [] && history == [] && !monitoring
    {
      this.name := name;
      status := Idle;
      result := None;
      error := None;
      startTime := None;
      endTime := None;
      cancelRequested := false;
      pauseRequested := false;
      queue := [];
      history := [];
      monitoring := false;
    }

    /** `is_running`. */
    predicate IsRunning()
      reads this
    {
      status == Running
    }

    /** `is_finished`: completed, cancelled or failed. */
    predicate IsFinished()
      reads this
    {
      status in [Completed, Cancelled, Failed]
    }

    /** The worker's state. */
    function State(): WorkerState<R>
      reads this
    {
      WorkerState(status, result, error, startTime, endTime, cancelRequested, pauseRequested,
                  queue, history, monitoring)
    }

    /** The status and the cancel event, which decide how the worker
        answers its next call. */
    function CurrentPhase(): Phase
      reads this`status, this`cancelRequested
    {
      Phase(status, cancelRequested)
    }

    /** `get_elapsed_time`: 0 before a start; afterwards up to the end time,
        or up to `now` while there is none (an end time of 0.0 is falsy and
        counts as none). */
    function ElapsedTime(now: real): (r: real)
      reads this`startTime, this`endTime
      ensures startTime.None? ==> r == 0.0
      ensures startTime.Some? && endTime.None? ==> r == now - startTime.value
    {
      if startTime.None? then 0.0
      else
        var end := if endTime.Some? && endTime.value != 0.0 then endTime.value else now;
        end - startTime.value
    }

    /** While the worker is active its elapsed time runs with the clock;
        once it has a (non-zero) end time the elapsed time is fixed. */
    lemma ElapsedRunsUntilEnd(now: real, later: real)
      requires Valid()
      ensures (status == Running || status == Paused) ==>
                ElapsedTime(later) - ElapsedTime(now) == later - now
      ensures startTime.Some? && endTime.Some? && endTime.value != 0.0 ==>
                ElapsedTime(later) == ElapsedTime(now)
    {
    }

    /** `get_result`: a snapshot whose history is a copy. */
    function GetResult(now: real): (r: WorkerResult<R>)
      reads this
      ensures r.status == status && r.result == result && r.error == error
      ensures r.elapsed == ElapsedTime(now) && r.history == history
      ensures Valid() ==> InPercent(r.history)
    {
      WorkerResult(status, result, error, ElapsedTime(now), history)
    }

    /** `start`: refused while running (nothing changes); otherwise the
        state is reset and the worker runs from `now`. A thread that fails
        to start (`spawnError`) leaves it failed with that error. Starting
        while paused is allowed. */
    method Start(now: real, spawnError: Option<ErrorKind>) returns (ok: bool)
      requires Valid()
      modifies this
      ensures Valid() && CurrentPhase() == Step(old(CurrentPhase()), StartCall(spawnError.Some?))
      ensures old(status) == Running ==>
                !ok && status == old(status) && result == old(result) && error == old(error)
                && startTime == old(startTime) && endTime == old(endTime)
                && cancelRequested == old(cancelRequested) && pauseRequested == old(pauseRequested)
                && queue == old(queue) && history == old(history) && monitoring == old(monitoring)
      ensures old(status) != Running ==>
                ok == spawnError.None?
                && status == (if ok then Running else Failed)
                && result == None && error == spawnError
                && startTime == Some(now) && endTime == None
                && !cancelRequested && !pauseRequested
                && queue == [] && history == [] && monitoring == ok
    {
      if status == Running {
        return false;
      }
      ResetState();
      status := Running;
      startTime := Some(now);
      if spawnError.Some? {
        status := Failed;
        error := spawnError;
        monitoring := false;
        return false;
      }
      monitoring := true;
      return true;
    }

    /** `_reset_state`. */
    method ResetState()
      modifies this
      ensures Valid() && status == Idle && result == None && error == None
      ensures startTime == None && endTime == None
      ensures !cancelRequested && !pauseRequested && queue == [] && history == []
      ensures monitoring == old(monitoring)
    {
      status := Idle;
      result := None;
      error := None;
      startTime := None;
      endTime := None;
      history := [];
      cancelRequested := false;
      pauseRequested := false;
      queue := [];
    }

    /** `cancel`: refused unless running, so also while paused. Otherwise
        the cancel event is set; when the thread does not stop within the
        join timeout (`stops` false) the result is false and the worker
        stays running, else it is cancelled at `now`. */
    method Cancel(now: real, stops: bool) returns (ok: bool)
      requires Valid()
      modifies this
      ensures Valid() && CurrentPhase() == Step(old(CurrentPhase()), CancelCall(stops))
      ensures old(status) != Running ==>
                !ok && status == old(status) && cancelRequested == old(cancelRequested)
                && endTime == old(endTime)
      ensures old(status) == Running ==>
                ok == stops && cancelRequested
                && status == (if stops then Cancelled else Running)
                && endTime == (if stops then Some(now) else old(endTime))
      ensures result == old(result) && error == old(error) && startTime == old(startTime)
      ensures pauseRequested == old(pauseRequested) && queue == old(queue)
      ensures history == old(history) && monitoring == old(monitoring)
    {
      if status != Running {
        return false;
      }
      cancelRequested := true;
      if !stops {
        return false;
      }
      status := Cancelled;
      endTime := Some(now);
      return true;
    }

    /** `pause`: only a running worker pauses. */
    method Pause() returns (ok: bool)
      requires Valid()
      modifies this`status, this`pauseRequested
      ensures Valid() && CurrentPhase() == Step(old(CurrentPhase()), PauseCall)
      ensures ok <==> old(status) == Running
      ensures status == (if ok then Paused else old(status))
      ensures pauseRequested == (if ok then true else old(pauseRequested))
    {
      if status != Running {
        return false;
      }
      status := Paused;
      pauseRequested := true;
      return true;
    }

    /** `resume`: only a paused worker resumes. */
    method Resume() returns (ok: bool)
      requires Valid()
      modifies this`status, this`pauseRequested
      ensures Valid() && CurrentPhase() == Step(old(CurrentPhase()), ResumeCall)
      ensures ok <==> old(status) == Paused
      ensures status == (if ok then Running else old(status))
      ensures pauseRequested == (if ok then false else old(pauseRequested))
    {
      if status != Paused {
        return false;
      }
      status := Running;
      pauseRequested := false;
      return true;
    }

    /** `report_progress`: ignored unless running; otherwise the clamped
        progress is queued with the elapsed time. */
    method ReportProgress(progress: real, now: real)
      requires Valid()
      modifies this`queue
      ensures Valid()
      ensures queue == if status == Running
                       then old(queue) + [ProgressUpdate(Clamp(progress), ElapsedTime(now))]
                       else old(queue)
    {
      if status != Running {
        return;
      }
      queue := queue + [ProgressUpdate(Clamp(progress), ElapsedTime(now))];
    }

    /** One turn of the progress monitor's loop: it stops for good once the
        worker is not running (a resumed worker gets no new monitor), and
        otherwise moves the oldest queued update into the history. */
    method MonitorStep()
      requires Valid()
      modifies this`queue, this`history, this`monitoring
      ensures Valid()
      ensures monitoring == (old(monitoring) && status == Running)
      ensures old(monitoring) && status == Running && old(queue) != [] ==>
                history == old(history) + [old(queue)[0]] && queue == old(queue)[1..]
      ensures !(old(monitoring) && status == Running && old(queue) != []) ==>
                history == old(history) && queue == old(queue)
      ensures history + queue == old(history) + old(queue)
    {
      if !monitoring {
        return;
      }
      if status != Running {
        monitoring := false;
        return;
      }
      if queue != [] {
        history := history + [queue[0]];
        queue := queue[1..];
        assert history + queue == old(history) + old(queue) by {
          assert old(queue) == [old(queue)[0]] + queue;
        }
      }
    }

    /** The end of `_worker_wrapper`: a returned value completes the worker
        unless a cancel was requested (then nothing changes); a raised
        exception makes it fail, cancelled or not. */
    method Finish(outcome: Outcome<R>, now: real)
      requires Valid()
      modifies this`result, this`status, this`endTime, this`error
      ensures Valid() && CurrentPhase() == Step(old(CurrentPhase()), FinishCall(outcome.Returned?))
      ensures outcome.Returned? && cancelRequested ==>
                status == old(status) && result == old(result) && endTime == old(endTime)
                && error == old(error)
      ensures outcome.Returned? && !cancelRequested ==>
                status == Completed && result == Some(outcome.value) && endTime == Some(now)
                && error == old(error)
      ensures outcome.Raised? ==>
                status == Failed && error == Some(outcome.kind) && endTime == Some(now)
                && result == old(result)
    {
      match outcome
      case Returned(v) =>
        if !cancelRequested {
          result := Some(v);
          status := Completed;
          endTime := Some(now);
        }
      case Raised(k) =>
        error := Some(k);
        status := Failed;
        endTime := Some(now);
    }
  }

  // ---------------------------------------------------------------------
  // The life cycle

  /** What decides a worker's next status: its status and whether a
      cancel was requested. */
  datatype Phase = Phase(status: WorkerStatus, cancelRequested: bool)

  /** The calls that can change it: `start` (whose thread may fail to
      spawn), `cancel` (whose thread may not stop in time), `pause`,
      `resume`, and the end of `_worker_wrapper` (a value returned or an
      exception raised). Progress reports and the monitor leave it alone. */
  datatype Call = StartCall(spawnFails: bool) | CancelCall(stops: bool) | PauseCall | ResumeCall
                | FinishCall(returned: bool)

  /** The phase after one call. */
  function Step(p: Phase, c: Call): Phase
  {
    match c
    case StartCall(spawnFails) =>
      if p.status == Running then p else Phase(if spawnFails then Failed else Running, false)
    case CancelCall(stops) =>
      if p.status != Running then p else Phase(if stops then Cancelled else Running, true)
    case PauseCall => if p.status == Running then Phase(Paused, p.cancelRequested) else p
    case ResumeCall => if p.status == Paused then Phase(Running, p.cancelRequested) else p
    case FinishCall(returned) =>
      if !returned then Phase(Failed, p.cancelRequested)
      else if p.cancelRequested then p
      else Phase(Completed, p.cancelRequested)
  }

  /** The phase after a series of calls. */
  function Replay(p: Phase, calls: seq<Call>): Phase
    decreases |calls|
  {
    if calls == [] then p else Replay(Step(p, calls[0]), calls[1..])
  }

  /** `is_finished` on a phase. */
  predicate Finished(p: Phase)
  {
    p.status in [Completed, Cancelled, Failed]
  }

  /** Only `start` takes a worker out of the finished statuses: every other
      call leaves a finished worker finished (a failure may still replace
      a cancellation). */
  lemma FinishedStaysFinished(p: Phase, c: Call)
    requires Finished(p) && !c.StartCall?
    ensures Finished(Step(p, c))
    ensures !c.FinishCall? ==> Step(p, c) == p
  {
  }

  /** The same over any series of calls without a `start`. */
  lemma {:induction false} FinishedIsFinal(p: Phase, calls: seq<Call>)
    requires Finished(p)
    requires forall k :: 0 <= k < |calls| ==> !calls[k].StartCall?
    ensures Finished(Replay(p, calls))
    decreases |calls|
  {
    if calls != [] {
      FinishedStaysFinished(p, calls[0]);
      FinishedIsFinal(Step(p, calls[0]), calls[1..]);
    }
  }

  /** Once a cancel was requested no later call but `start` clears the
      request, and a returned value can no longer complete the worker. */
  lemma {:induction false} CancelRequestSticks(p: Phase, calls: seq<Call>)
    requires p.cancelRequested
    requires forall k :: 0 <= k < |calls| ==> !calls[k].StartCall?
    ensures Replay(p, calls).cancelRequested
    ensures p.status != Completed ==> Replay(p, calls).status != Completed
    decreases |calls|
  {
    if calls != [] {
      CancelRequestSticks(Step(p, calls[0]), calls[1..]);
    }
  }

  // ---------------------------------------------------------------------
  // The pool

  /** What `cancel` does to a worker that may be running, the thread
      stopping in time when `stops`: a running worker gets the cancel
      event and, when it stops, the cancelled status and the end time
      `now`; nothing else changes. */
  function AfterCancel<R>(s: WorkerState<R>, now: real, stops: bool): WorkerState<R>
  {
    if s.status != Running then s
    else s.(status := if stops then Cancelled else Running, cancelRequested := true,
            endTime := if stops then Some(now) else s.endTime)
  }

  /** One step of `cancel_all`: cancel the worker if it is running. */
  method CancelIfRunning<R>(w: Worker<R>, now: real, stops: bool)
    requires w.Valid()
    modifies w
    ensures w.Valid() && w.State() == AfterCancel(old(w.State()), now, stops)
  {
    if w.IsRunning() {
      var _ := w.Cancel(now, stops);
    }
  }

  /** The names whose worker has status `s`. */
  function WithStatus(census: map<string, WorkerStatus>, s: WorkerStatus): set<string>
  {
    set n | n in census && census[n] == s
  }

  /** The number of names whose worker has status `s`. */
  function Count(census: map<string, WorkerStatus>, s: WorkerStatus): nat
  {
    |WithStatus(census, s)|
  }

  /** The same among the names in `names`. */
  function CountAmong(census: map<string, WorkerStatus>, names: set<string>, s: WorkerStatus): nat
  {
    |names * WithStatus(census, s)|
  }

  /** Counting one more name adds one for its status and none for the
      others. */
  lemma CountAmongStep(census: map<string, WorkerStatus>, names: set<string>, n: string, s: WorkerStatus)
    requires n in census && n !in names
    ensures CountAmong(census, names + {n}, s)
            == CountAmong(census, names, s) + (if census[n] == s then 1 else 0)
  {
    var w := WithStatus(census, s);
    if census[n] == s {
      assert (names + {n}) * w == names * w + {n};
    } else {
      assert (names + {n}) * w == names * w;
    }
  }

  /** Every worker has exactly one status, so the counts of the six
      statuses add up to the number of workers. */
  lemma {:induction false} CountsSum(census: map<string, WorkerStatus>, names: set<string>)
    requires names <= census.Keys
    ensures CountAmong(census, names, Idle) + CountAmong(census, names, Running)
            + CountAmong(census, names, Paused) + CountAmong(census, names, Cancelled)
            + CountAmong(census, names, Completed) + CountAmong(census, names, Failed) == |names|
    decreases names
  {
    if names == {} {
      forall s ensures CountAmong(census, names, s) == 0 {
        assert names * WithStatus(census, s) == {};
      }
    } else {
      var n :| n in names;
      var rest := names - {n};
      CountsSum(census, rest);
      PutBack(names, n);
      CountAmongStep(census, rest, n, Idle);
      CountAmongStep(census, rest, n, Running);
      CountAmongStep(census, rest, n, Paused);
      CountAmongStep(census, rest, n, Cancelled);
      CountAmongStep(census, rest, n, Completed);
      CountAmongStep(census, rest, n, Failed);
    }
  }

  /** Counting among all names is the plain count. */
  lemma CountAmongAll(census: map<string, WorkerStatus>, s: WorkerStatus)
    ensures CountAmong(census, census.Keys, s) == Count(census, s)
  {
    assert census.Keys * WithStatus(census, s) == WithStatus(census, s);
  }

  /** Taking an element out and putting it back changes nothing. */
  lemma PutBack<T>(s: set<T>, x: T)
    requires x in s
    ensures (s - {x}) + {x} == s && |s - {x}| == |s| - 1
  {
  }

  /** Taking `n` out of the names still to visit adds it to the names
      visited. */
  lemma TakeOne<T>(all: set<T>, rest: set<T>, n: T)
    requires n in rest && rest <= all
    ensures all - (rest - {n}) == (all - rest) + {n}
  {
  }

  /** `WorkerPool`: workers registered under their names. */
  class WorkerPool<R> {
    const maxWorkers: int
    var workers: map<string, Worker<R>>

    /** Each worker is registered under its own name. */
    predicate Valid()
      reads this
    {
      forall n | n in workers :: workers[n].name == n
    }

    /** `WorkerPool(max_workers)`: empty. */
    constructor (maxWorkers: int)
      ensures Valid() && this.maxWorkers == maxWorkers && workers == map[]
    {
      this.maxWorkers := maxWorkers;
      workers := map[];
    }

    /** `get_worker`. */
    function GetWorker(name: string): (w: Option<Worker<R>>)
      reads this
      ensures w.Some? <==> name in workers
      ensures w.Some? ==> w.value == workers[name]
    {
      if name in workers then Some(workers[name]) else None
    }

    /** `create_worker`: an existing name raises ValueError and nothing
        changes; otherwise a new idle worker is registered under it. */
    method CreateWorker(name: string) returns (r: Result<Worker<R>>)
      requires Valid()
      modifies this
      ensures Valid()
      ensures name in old(workers) ==> r == Err(ValueError) && workers == old(workers)
      ensures name !in old(workers) ==>
                r.Ok? && fresh(r.value) && r.value.name == name && r.value.status == Idle
                && r.value.Valid() && workers == old(workers)[name := r.value]
                && GetWorker(name) == Some(r.value)
    {
      if name in workers {
        return Err(ValueError);
      }
      var w := new Worker(name);
      workers := workers[name := w];
      return Ok(w);
    }

    /** `remove_worker`: false for an unknown name; otherwise a running
        worker is cancelled first and exactly that entry is removed. */
    method RemoveWorker(name: string, now: real, stops: bool) returns (ok: bool)
      requires Valid() && (name in workers ==> workers[name].Valid())
      modifies this, if name in workers then {workers[name]} else {}
      ensures Valid()
      ensures ok <==> name in old(workers)
      ensures workers == old(workers) - {name}
      ensures ok ==>
                var w := old(workers)[name];
                w.Valid() && w.State() == AfterCancel(old(w.State()), now, stops)
    {
      if name !in workers {
        return false;
      }
      var w := workers[name];
      if w.IsRunning() {
        var _ := w.Cancel(now, stops);
      }
      workers := workers - {name};
      return true;
    }

    /** `cancel_all`: every running worker is asked to cancel; the others
        are untouched. Whether a worker's thread stops in time is
        `stops(name)`. */
    method CancelAll(now: real, stops: string -> bool)
      requires Valid() && forall w | w in workers.Values :: w.Valid()
      modifies workers.Values
      ensures forall w | w in workers.Values :: w.Valid()
      ensures forall w | w in workers.Values :: w.State() == AfterCancel(old(w.State()), now, stops(w.name))
    {
      var rest := workers.Values;
      while rest != {}
        invariant rest <= workers.Values
        invariant forall w | w in workers.Values :: w.Valid()
        invariant forall w | w in rest :: w.State() == old(w.State())
        invariant forall w | w in workers.Values && w !in rest ::
                    w.State() == AfterCancel(old(w.State()), now, stops(w.name))
        decreases rest
      {
        var w :| w in rest;
        CancelIfRunning(w, now, stops(w.name));
        rest := rest - {w};
      }
    }

    /** Each registered name with its worker's status. */
    function Census(): (c: map<string, WorkerStatus>)
      reads this, workers.Values
      ensures c.Keys == workers.Keys
      ensures forall n | n in c :: c[n] == workers[n].status
    {
      map n | n in workers :: workers[n].status
    }

    /** `get_active_count`: how many workers are running. */
    function ActiveCount(): (k: nat)
      reads this, workers.Values
      ensures k == Count(Census(), Running)
    {
      assert (set n | n in workers && workers[n].status == Running) == WithStatus(Census(), Running);
      |set n | n in workers && workers[n].status == Running|
    }

    /** `get_status_summary`: for each status some worker has, how many
        have it; the counts add up to the number of workers and the
        running count is the active count. */
    method StatusSummary() returns (summary: map<WorkerStatus, nat>)
      ensures forall s :: s in summary <==> Count(Census(), s) > 0
      ensures forall s | s in summary :: summary[s] == Count(Census(), s)
      ensures ActiveCount() == if Running in summary then summary[Running] else 0
      ensures Count(Census(), Idle) + Count(Census(), Running) + Count(Census(), Paused)
              + Count(Census(), Cancelled) + Count(Census(), Completed)
              + Count(Census(), Failed) == |workers|
    {
      var census := Census();
      summary := Tally(census);
      CensusSum(census);
      assert census.Keys == workers.Keys;
    }
  }

  /** The summary of the names in `names`: each status they have, with
      how many have it. */
  function SummaryOf(census: map<string, WorkerStatus>, names: set<string>): map<WorkerStatus, nat>
  {
    map s: WorkerStatus | CountAmong(census, names, s) > 0 :: CountAmong(census, names, s)
  }

  /** Counting one more name adds one to its status's entry. */
  lemma SummaryStep(census: map<string, WorkerStatus>, names: set<string>, n: string)
    requires n in census && n !in names
    ensures SummaryOf(census, names + {n})
            == var m := SummaryOf(census, names);
               m[census[n] := (if census[n] in m then m[census[n]] else 0) + 1]
  {
    forall s ensures CountAmong(census, names + {n}, s)
                     == CountAmong(census, names, s) + (if census[n] == s then 1 else 0) {
      CountAmongStep(census, names, n, s);
    }
  }

  /** The loop of `get_status_summary` over a census of the pool. */
  method Tally(census: map<string, WorkerStatus>) returns (summary: map<WorkerStatus, nat>)
    ensures forall s :: s in summary <==> Count(census, s) > 0
    ensures forall s | s in summary :: summary[s] == Count(census, s)
  {
    summary := map[];
    var rest := census.Keys;
    assert census.Keys - rest == {};
    SummaryOfNone(census);
    while rest != {}
      invariant rest <= census.Keys
      invariant summary == SummaryOf(census, census.Keys - rest)
      decreases rest
    {
      var n :| n in rest;
      var status := census[n];
      SummaryStep(census, census.Keys - rest, n);
      summary := summary[status := (if status in summary then summary[status] else 0) + 1];
      TakeOne(census.Keys, rest, n);
      rest := rest - {n};
    }
    assert census.Keys - rest == census.Keys;
    SummaryOfAll(census);
  }

  /** No names, no entries. */
  lemma SummaryOfNone(census: map<string, WorkerStatus>)
    ensures SummaryOf(census, {}) == map[]
  {
    forall s ensures CountAmong(census, {}, s) == 0 {
      assert {} * WithStatus(census, s) == {};
    }
  }

  /** The summary of all names holds the plain counts. */
  lemma SummaryOfAll(census: map<string, WorkerStatus>)
    ensures forall s :: s in SummaryOf(census, census.Keys) <==> Count(census, s) > 0
    ensures forall s | s in SummaryOf(census, census.Keys) :: SummaryOf(census, census.Keys)[s] == Count(census, s)
  {
    forall s ensures CountAmong(census, census.Keys, s) == Count(census, s) {
      CountAmongAll(census, s);
    }
  }

  /** The six counts of a census add up to its size. */
  lemma CensusSum(census: map<string, WorkerStatus>)
    ensures Count(census, Idle) + Count(census, Running) + Count(census, Paused)
            + Count(census, Cancelled) + Count(census, Completed) + Count(census, Failed) == |census|
  {
    CountsSum(census, census.Keys);
    CountAmongAll(census, Idle);
    CountAmongAll(census, Running);
    CountAmongAll(census, Paused);
    CountAmongAll(census, Cancelled);
    CountAmongAll(census, Completed);
    CountAmongAll(census, Failed);
  }

  // ---------------------------------------------------------------------
  // The extraction run

  /** The progress `thumbnail_extraction_worker` reports after item `i` of
      a loop over `n` items: `start + (i / total) * span`, where `total` is
      `n`, or 1 when there is no item. */
  function StepProgress(start: real, span: real, i: nat, n: nat): real
  {
    start + (i as real / (if n > 0 then n else 1) as real) * span
  }

  /** A loop's reports lie in [start, start + span) and grow with `i`. */
  lemma PhaseProgress(start: real, span: real, i: nat, n: nat)
    requires span > 0.0 && i < n
    ensures start <= StepProgress(start, span, i, n) < start + span
    ensures i + 1 < n ==> StepProgress(start, span, i, n) < StepProgress(start, span, i + 1, n)
  {
    var q := i as real / n as real;
    assert q * n as real == i as real;
    assert 0.0 <= q < 1.0;
    if i + 1 < n {
      var q' := (i + 1) as real / n as real;
      assert q' * n as real == (i + 1) as real;
      assert q < q';
    }
  }

  /** The reports of the first `i` items of a loop over `n` items. */
  function LoopReports(start: real, span: real, i: nat, n: nat): (ps: seq<real>)
    ensures |ps| == i
    ensures forall k :: 0 <= k < i ==> ps[k] == StepProgress(start, span, k, n)
  {
    if i == 0 then [] else LoopReports(start, span, i - 1, n) + [StepProgress(start, span, i - 1, n)]
  }

  /** A loop stopped before item `i` has reported the first `i` reports
      of the whole loop. */
  lemma LoopReportsPrefix(start: real, span: real, i: nat, n: nat)
    requires i <= n
    ensures LoopReports(start, span, i, n) == LoopReports(start, span, n, n)[..i]
  {
    var whole := LoopReports(start, span, n, n);
    assert forall k :: 0 <= k < i ==> whole[..i][k] == whole[k];
  }

  /** Non-decreasing. */
  predicate Ascending(ps: seq<real>)
  {
    forall j, k :: 0 <= j <= k < |ps| ==> ps[j] <= ps[k]
  }

  /** Every value is a percentage. */
  predicate Percentages(ps: seq<real>)
  {
    forall k :: 0 <= k < |ps| ==> 0.0 <= ps[k] <= 100.0
  }

  /** A sequence that rises at every step is ascending. */
  lemma {:induction false} StepsAscending(ps: seq<real>)
    requires forall i :: 0 <= i < |ps| - 1 ==> ps[i] <= ps[i + 1]
    ensures Ascending(ps)
    decreases |ps|
  {
    if |ps| > 1 {
      var init := ps[..|ps| - 1];
      StepsAscending(init);
      forall j, k | 0 <= j <= k < |ps| ensures ps[j] <= ps[k] {
        if k == |ps| - 1 && j < k {
          assert init[j] <= init[|init| - 1];
        } else if k < |ps| - 1 {
          assert init[j] <= init[k];
        }
      }
    }
  }

  /** A prefix of an ascending sequence is ascending. */
  lemma AscendingPrefix(ps: seq<real>, i: nat)
    requires Ascending(ps) && i <= |ps|
    ensures Ascending(ps[..i])
  {
    forall j, k | 0 <= j <= k < i ensures ps[..i][j] <= ps[..i][k] {
      assert ps[j] <= ps[k];
    }
  }

  /** Two ascending runs where the first ends no higher than the second
      begins make one ascending run. */
  lemma AscendingJoin(a: seq<real>, b: seq<real>)
    requires Ascending(a) && Ascending(b)
    requires a != [] && b != [] ==> a[|a| - 1] <= b[0]
    ensures Ascending(a + b)
  {
    forall j, k | 0 <= j <= k < |a + b| ensures (a + b)[j] <= (a + b)[k] {
      if j < |a| && k >= |a| {
        assert a[j] <= a[|a| - 1];
        assert b[0] <= b[k - |a|];
      }
    }
  }

  /** A whole loop's reports rise within [start, start + span). */
  lemma LoopReportsRise(start: real, span: real, n: nat)
    requires span > 0.0
    ensures Ascending(LoopReports(start, span, n, n))
    ensures forall k :: 0 <= k < n ==> start <= LoopReports(start, span, n, n)[k] < start + span
  {
    var ps := LoopReports(start, span, n, n);
    forall i | 0 <= i < n
      ensures start <= ps[i] < start + span && (i + 1 < n ==> ps[i] < ps[i + 1])
    {
      PhaseProgress(start, span, i, n);
    }
    StepsAscending(ps);
  }

  /** The reports of the face detection loop over `n` frames. */
  function DetectionReports(n: nat): seq<real>
  {
    LoopReports(30.0, 30.0, n, n)
  }

  /** The reports of the generation loop over `m` selected frames. */
  function GenerationReports(m: nat): seq<real>
  {
    LoopReports(85.0, 15.0, m, m)
  }

  /** The reports of a run up to the end of face detection over `n`
      frames. */
  function DetectionRun(n: nat): seq<real>
  {
    [0.0, 25.0, 30.0] + DetectionReports(n)
  }

  /** The reports of a run that detects faces in `n` frames and generates
      `m` thumbnails. */
  function FullRun(n: nat, m: nat): seq<real>
  {
    DetectionRun(n) + [60.0, 65.0, 80.0, 85.0] + GenerationReports(m) + [100.0]
  }

  /** The run up to the end of face detection rises and stays below 60. */
  lemma DetectionRunRises(n: nat)
    ensures Ascending(DetectionRun(n))
    ensures forall k :: 0 <= k < |DetectionRun(n)| ==> 0.0 <= DetectionRun(n)[k] < 60.0
  {
    var d := DetectionReports(n);
    LoopReportsRise(30.0, 30.0, n);
    assert Ascending([0.0, 25.0, 30.0]);
    AscendingJoin([0.0, 25.0, 30.0], d);
  }

  /** A whole run never goes back and ends at 100, the only report that
      reaches it; detection reports lie in [30, 60) and generation reports
      in [85, 100). */
  lemma FullRunRises(n: nat, m: nat)
    ensures Ascending(FullRun(n, m)) && Percentages(FullRun(n, m))
    ensures FullRun(n, m)[|FullRun(n, m)| - 1] == 100.0
    ensures forall k :: 0 <= k < |FullRun(n, m)| - 1 ==> FullRun(n, m)[k] < 100.0
  {
    var head := DetectionRun(n);
    DetectionRunRises(n);
    var g := GenerationReports(m);
    LoopReportsRise(85.0, 15.0, m);
    assert Ascending([60.0, 65.0, 80.0, 85.0]);
    AscendingJoin(head, [60.0, 65.0, 80.0, 85.0]);
    var mid := head + [60.0, 65.0, 80.0, 85.0];
    AscendingJoin(mid, g);
    var body := mid + g;
    assert forall k :: 0 <= k < |body| ==> 0.0 <= body[k] < 100.0;
    AscendingJoin(body, [100.0]);
    assert FullRun(n, m) == body + [100.0];
  }

  /** The bands of the two loops inside a whole run. */
  lemma FullRunBands(n: nat, m: nat)
    ensures forall i :: 3 <= i < 3 + n ==> 30.0 <= FullRun(n, m)[i] < 60.0
    ensures forall i :: 7 + n <= i < 7 + n + m ==> 85.0 <= FullRun(n, m)[i] < 100.0
  {
    LoopReportsRise(30.0, 30.0, n);
    LoopReportsRise(85.0, 15.0, m);
    var run := FullRun(n, m);
    forall i | 3 <= i < 3 + n ensures run[i] == DetectionReports(n)[i - 3] {
    }
    forall i | 7 + n <= i < 7 + n + m ensures run[i] == GenerationReports(m)[i - 7 - n] {
    }
  }

  /** `check_cancellation` as the run sees it: `cancelAt` is the number of
      checks that come before a cancel request arrives (none when it is
      `None`), and the event stays set, so check `k` (counting from 0)
      answers true from then on. */
  predicate CancelSeen(cancelAt: Option<nat>, k: nat)
  {
    cancelAt.Some? && cancelAt.value <= k
  }

  /** The first service call of a run that raises, and what it raises.
      Call 0 is `extract_frames`, call `1 + i` is `detect_faces` on frame
      `i`, call `n + 1` is `select_diverse_frames` and call `n + 2 + j` is
      `generate_thumbnail` on selected frame `j`. */
  datatype ServiceFailure = ServiceFailure(call: nat, kind: ErrorKind)

  /** Whether one of the service calls up to call `k` raises. */
  predicate Fails(failAt: Option<ServiceFailure>, k: nat)
  {
    failAt.Some? && failAt.value.call <= k
  }

  /** Whether the run stops by check or call `k` at the latest. */
  predicate Halted(cancelAt: Option<nat>, failAt: Option<ServiceFailure>, k: nat)
  {
    CancelSeen(cancelAt, k) || Fails(failAt, k)
  }

  /** The first check that sees a cancel request, or the first call that
      raises, whichever is earlier. */
  function StopAt(cancelAt: Option<nat>, failAt: Option<ServiceFailure>): (k: nat)
    requires cancelAt.Some? || failAt.Some?
    ensures Halted(cancelAt, failAt, k)
    ensures forall j :: 0 <= j < k ==> !Halted(cancelAt, failAt, j)
  {
    if cancelAt.None? then failAt.value.call
    else if failAt.None? || cancelAt.value <= failAt.value.call then cancelAt.value
    else failAt.value.call
  }

  /** How a loop stopped at `StopAt` ends: inside both loops the check
      comes before the call, so a cancel request wins a tie. */
  function Interrupted(cancelAt: Option<nat>, failAt: Option<ServiceFailure>): Outcome<nat>
    requires cancelAt.Some? || failAt.Some?
  {
    if CancelSeen(cancelAt, StopAt(cancelAt, failAt)) then Returned(0) else Raised(failAt.value.kind)
  }

  /** Whether any frame has a face. */
  predicate AnyFace(faces: seq<bool>)
  {
    exists i :: 0 <= i < |faces| && faces[i]
  }

  /** The progress a run reports: `n` frames, of which some have faces
      when `anyFaces`, `m` of them selected. Check 0 comes after the first
      report, check `1 + i` before frame `i`, check `n + 1` after the
      selection and check `n + 2 + j` before thumbnail `j`; the calls are
      numbered as in `ServiceFailure`. */
  function RunReports(n: nat, m: nat, anyFaces: bool, cancelAt: Option<nat>,
                      failAt: Option<ServiceFailure>): seq<real>
  {
    if Halted(cancelAt, failAt, 0) then [0.0]
    else if Halted(cancelAt, failAt, n) then
      [0.0, 25.0, 30.0] + LoopReports(30.0, 30.0, StopAt(cancelAt, failAt) - 1, n)
    else if !anyFaces then DetectionRun(n)
    else if Halted(cancelAt, failAt, n + 1) then DetectionRun(n) + [60.0, 65.0]
    else if Halted(cancelAt, failAt, n + 1 + m) then
      DetectionRun(n) + [60.0, 65.0, 80.0, 85.0] + LoopReports(85.0, 15.0, StopAt(cancelAt, failAt) - n - 2, m)
    else FullRun(n, m)
  }

  /** How a run ends: the number of thumbnails it returns (none when it
      is cancelled), `NoFacesDetectedError`, or the error of the service
      call that raised, which the worker re-raises. `extract_frames` and
      `select_diverse_frames` run before the check that follows them. */
  function RunOutcome(n: nat, m: nat, anyFaces: bool, cancelAt: Option<nat>,
                      failAt: Option<ServiceFailure>): Outcome<nat>
  {
    if Fails(failAt, 0) then Raised(failAt.value.kind)
    else if CancelSeen(cancelAt, 0) then Returned(0)
    else if Halted(cancelAt, failAt, n) then Interrupted(cancelAt, failAt)
    else if !anyFaces then Raised(NoFacesDetectedError)
    else if Fails(failAt, n + 1) then Raised(failAt.value.kind)
    else if CancelSeen(cancelAt, n + 1) then Returned(0)
    else if Halted(cancelAt, failAt, n + 1 + m) then Interrupted(cancelAt, failAt)
    else Returned(m)
  }

  /** Whatever happens, a run reports a prefix of the whole run. */
  lemma RunReportsPrefix(n: nat, m: nat, anyFaces: bool, cancelAt: Option<nat>, failAt: Option<ServiceFailure>)
    ensures |RunReports(n, m, anyFaces, cancelAt, failAt)| <= |FullRun(n, m)|
    ensures RunReports(n, m, anyFaces, cancelAt, failAt)
            == FullRun(n, m)[..|RunReports(n, m, anyFaces, cancelAt, failAt)|]
  {
    var full := FullRun(n, m);
    var r := RunReports(n, m, anyFaces, cancelAt, failAt);
    assert full == DetectionRun(n) + ([60.0, 65.0, 80.0, 85.0] + GenerationReports(m) + [100.0]);
    if Halted(cancelAt, failAt, 0) {
    } else if Halted(cancelAt, failAt, n) {
      var i := StopAt(cancelAt, failAt) - 1;
      LoopReportsPrefix(30.0, 30.0, i, n);
      assert r == DetectionRun(n)[..3 + i];
    } else if !anyFaces {
    } else if Halted(cancelAt, failAt, n + 1 + m) {
      assert full == DetectionRun(n) + [60.0, 65.0, 80.0, 85.0] + (GenerationReports(m) + [100.0]);
      if !Halted(cancelAt, failAt, n + 1) {
        var j := StopAt(cancelAt, failAt) - n - 2;
        LoopReportsPrefix(85.0, 15.0, j, m);
        assert (GenerationReports(m) + [100.0])[..j] == GenerationReports(m)[..j];
      }
    }
  }

  /** Whatever happens, a run's progress never goes back, stays a
      percentage, and reaches 100 exactly when faces were found and
      neither a cancel request nor a service error stopped the run. */
  lemma RunProgressRises(n: nat, m: nat, anyFaces: bool, cancelAt: Option<nat>, failAt: Option<ServiceFailure>)
    ensures Ascending(RunReports(n, m, anyFaces, cancelAt, failAt))
    ensures Percentages(RunReports(n, m, anyFaces, cancelAt, failAt))
    ensures 100.0 in RunReports(n, m, anyFaces, cancelAt, failAt)
            <==> anyFaces && !Halted(cancelAt, failAt, n + 1 + m)
    ensures 100.0 in RunReports(n, m, anyFaces, cancelAt, failAt)
            ==> RunOutcome(n, m, anyFaces, cancelAt, failAt) == Returned(m)
  {
    var full := FullRun(n, m);
    var r := RunReports(n, m, anyFaces, cancelAt, failAt);
    RunReportsPrefix(n, m, anyFaces, cancelAt, failAt);
    FullRunRises(n, m);
    AscendingPrefix(full, |r|);
    if anyFaces && !Halted(cancelAt, failAt, n + 1 + m) {
      assert r[|r| - 1] == 100.0;
    } else {
      assert |r| < |full|;
      assert forall k :: 0 <= k < |r| ==> r[k] == full[k];
    }
  }

  /** What a run raises: `NoFacesDetectedError` exactly when no frame has
      a face and nothing stopped face detection, having then reported the
      whole detection phase; otherwise only the error of the failing
      service call. Without a service error it raises exactly in the
      first case, and without a cancel request exactly when no face was
      found or one of the calls it makes raises. */
  lemma RunRaisesIff(n: nat, m: nat, anyFaces: bool, cancelAt: Option<nat>, failAt: Option<ServiceFailure>)
    ensures var o := RunOutcome(n, m, anyFaces, cancelAt, failAt);
            o.Raised? ==> (o.kind == NoFacesDetectedError && !anyFaces && !Halted(cancelAt, failAt, n))
                          || (failAt.Some? && o.kind == failAt.value.kind)
    ensures !anyFaces && !Halted(cancelAt, failAt, n) ==>
              RunOutcome(n, m, anyFaces, cancelAt, failAt) == Raised(NoFacesDetectedError)
              && RunReports(n, m, anyFaces, cancelAt, failAt) == DetectionRun(n)
    ensures failAt.None? ==>
              (RunOutcome(n, m, anyFaces, cancelAt, failAt).Raised? <==> !anyFaces && !CancelSeen(cancelAt, n))
    ensures cancelAt.None? ==>
              (RunOutcome(n, m, anyFaces, cancelAt, failAt).Raised? <==> !anyFaces || Fails(failAt, n + 1 + m))
  {
  }

  /** A cancel request seen by a check before any service call raises
      ends the run with an empty result, whatever the later calls would
      have raised. */
  lemma CancelBeforeFailureReturns(n: nat, m: nat, anyFaces: bool, cancelAt: Option<nat>, failAt: Option<ServiceFailure>)
    requires cancelAt.Some? && cancelAt.value <= n + 1 + m
    requires failAt.Some? ==> cancelAt.value < failAt.value.call
    requires anyFaces || cancelAt.value <= n
    ensures RunOutcome(n, m, anyFaces, cancelAt, failAt) == Returned(0)
  {
  }

  /** The updates that reports of `ps` queue at elapsed time `t`. */
  function Updates(ps: seq<real>, t: real): (us: seq<ProgressUpdate>)
    ensures |us| == |ps|
    ensures forall k :: 0 <= k < |ps| ==> us[k] == ProgressUpdate(Clamp(ps[k]), t)
  {
    seq(|ps|, k requires 0 <= k < |ps| => ProgressUpdate(Clamp(ps[k]), t))
  }

  /** The worker's queue holds `q0` followed by the updates of `reported`
      when it is running, and just `q0` otherwise. */
  predicate Queued<R>(w: Worker<R>, q0: seq<ProgressUpdate>, reported: seq<real>, now: real)
    reads w
  {
    w.queue == if w.status == Running then q0 + Updates(reported, w.ElapsedTime(now)) else q0
  }

  /** One `worker.report_progress` call of the run, recorded in
      `reported`. */
  method Report<R>(w: Worker<R>, p: real, now: real, ghost q0: seq<ProgressUpdate>, reported: seq<real>)
    returns (reported': seq<real>)
    requires w.Valid() && Queued(w, q0, reported, now)
    modifies w`queue
    ensures w.Valid() && reported' == reported + [p] && Queued(w, q0, reported', now)
  {
    w.ReportProgress(p, now);
    reported' := reported + [p];
    assert Updates(reported', w.ElapsedTime(now))
        == Updates(reported, w.ElapsedTime(now)) + [ProgressUpdate(Clamp(p), w.ElapsedTime(now))];
  }

  /** The face detection loop of `thumbnail_extraction_worker` over `n`
      frames (`faces[i]` says whether frame `i` has faces), whose checks
      and calls are numbered from 1: one report per frame, and a cancel
      request or a raising `detect_faces` ends it at that frame. */
  method DetectFaces<R>(w: Worker<R>, faces: seq<bool>, cancelAt: Option<nat>, failAt: Option<ServiceFailure>,
                        now: real, ghost q0: seq<ProgressUpdate>, reported: seq<real>)
    returns (halted: bool, withFaces: nat, reported': seq<real>)
    requires w.Valid() && Queued(w, q0, reported, now)
    requires !Halted(cancelAt, failAt, 0)
    modifies w`queue
    ensures w.Valid() && Queued(w, q0, reported', now)
    ensures halted == Halted(cancelAt, failAt, |faces|)
    ensures halted ==> reported' == reported + LoopReports(30.0, 30.0, StopAt(cancelAt, failAt) - 1, |faces|)
    ensures !halted ==> reported' == reported + DetectionReports(|faces|)
    ensures !halted ==> (withFaces == 0 <==> !AnyFace(faces))
  {
    reported' := reported;
    withFaces := 0;
    var total := if |faces| > 0 then |faces| else 1;
    for i := 0 to |faces|
      invariant w.Valid() && Queued(w, q0, reported', now)
      invariant !Halted(cancelAt, failAt, i)
      invariant reported' == reported + LoopReports(30.0, 30.0, i, |faces|)
      invariant withFaces == 0 <==> forall k :: 0 <= k < i ==> !faces[k]
    {
      if CancelSeen(cancelAt, 1 + i) || Fails(failAt, 1 + i) {
        return true, withFaces, reported';
      }
      if faces[i] {
        withFaces := withFaces + 1;
      }
      var progress := 30.0 + (i as real / total as real) * 30.0;
      reported' := Report(w, progress, now, q0, reported');
    }
    return false, withFaces, reported';
  }

  /** The generation loop of `thumbnail_extraction_worker` over `m`
      selected frames, whose checks and calls are numbered from `first`:
      one thumbnail and one report per frame, and a cancel request or a
      raising `generate_thumbnail` ends it at that frame. */
  method GenerateThumbnails<R>(w: Worker<R>, m: nat, first: nat, cancelAt: Option<nat>,
                               failAt: Option<ServiceFailure>, now: real,
                               ghost q0: seq<ProgressUpdate>, reported: seq<real>)
    returns (halted: bool, made: nat, reported': seq<real>)
    requires w.Valid() && Queued(w, q0, reported, now)
    requires first > 0 && !Halted(cancelAt, failAt, first - 1)
    modifies w`queue
    ensures w.Valid() && Queued(w, q0, reported', now)
    ensures halted == Halted(cancelAt, failAt, first - 1 + m)
    ensures halted ==> reported' == reported + LoopReports(85.0, 15.0, StopAt(cancelAt, failAt) - first, m)
    ensures !halted ==> reported' == reported + GenerationReports(m) && made == m
  {
    reported' := reported;
    made := 0;
    var total := if m > 0 then m else 1;
    for i := 0 to m
      invariant w.Valid() && Queued(w, q0, reported', now)
      invariant !Halted(cancelAt, failAt, first - 1 + i)
      invariant reported' == reported + LoopReports(85.0, 15.0, i, m) && made == i
    {
      if CancelSeen(cancelAt, first + i) || Fails(failAt, first + i) {
        return true, made, reported';
      }
      made := made + 1;
      var progress := 85.0 + (i as real / total as real) * 15.0;
      reported' := Report(w, progress, now, q0, reported');
    }
    return false, made, reported';
  }

  /** `thumbnail_extraction_worker` on a video of `|faces|` frames whose
      selection keeps `selected` of the frames with faces, where `failAt`
      names the first service call that raises: what it returns or
      raises, and the progress it reports into the worker's queue. */
  method RunExtraction<R>(w: Worker<R>, faces: seq<bool>, selected: nat, cancelAt: Option<nat>,
                          failAt: Option<ServiceFailure>, now: real)
    returns (outcome: Outcome<nat>, reported: seq<real>)
    requires w.Valid()
    modifies w`queue
    ensures w.Valid() && Queued(w, old(w.queue), reported, now)
    ensures outcome == RunOutcome(|faces|, selected, AnyFace(faces), cancelAt, failAt)
    ensures reported == RunReports(|faces|, selected, AnyFace(faces), cancelAt, failAt)
  {
    ghost var q0 := w.queue;
    assert Updates([], w.ElapsedTime(now)) == [];
    reported := Report(w, 0.0, now, q0, []);
    if Fails(failAt, 0) {
      return Raised(failAt.value.kind), reported;
    }
    if CancelSeen(cancelAt, 0) {
      return Returned(0), reported;
    }
    reported := Report(w, 25.0, now, q0, reported);
    reported := Report(w, 30.0, now, q0, reported);
    assert reported == [0.0, 25.0, 30.0];
    var halted, withFaces;
    halted, withFaces, reported := DetectFaces(w, faces, cancelAt, failAt, now, q0, reported);
    if halted {
      outcome := if CancelSeen(cancelAt, StopAt(cancelAt, failAt)) then Returned(0)
                 else Raised(failAt.value.kind);
      return outcome, reported;
    }
    if withFaces == 0 {
      return Raised(NoFacesDetectedError), reported;
    }
    outcome, reported := SelectAndGenerate(w, |faces|, selected, cancelAt, failAt, now, q0, reported);
  }

  /** The rest of `thumbnail_extraction_worker` once faces were found in
      some of the `n` frames. */
  method SelectAndGenerate<R>(w: Worker<R>, n: nat, m: nat, cancelAt: Option<nat>,
                              failAt: Option<ServiceFailure>, now: real,
                              ghost q0: seq<ProgressUpdate>, reported: seq<real>)
    returns (outcome: Outcome<nat>, reported': seq<real>)
    requires w.Valid() && Queued(w, q0, reported, now)
    requires !Halted(cancelAt, failAt, n) && reported == DetectionRun(n)
    modifies w`queue
    ensures w.Valid() && Queued(w, q0, reported', now)
    ensures outcome == RunOutcome(n, m, true, cancelAt, failAt)
    ensures reported' == RunReports(n, m, true, cancelAt, failAt)
  {
    reported' := Report(w, 60.0, now, q0, reported);
    reported' := Report(w, 65.0, now, q0, reported');
    assert reported' == DetectionRun(n) + [60.0, 65.0];
    if Fails(failAt, n + 1) {
      return Raised(failAt.value.kind), reported';
    }
    if CancelSeen(cancelAt, n + 1) {
      return Returned(0), reported';
    }
    reported' := Report(w, 80.0, now, q0, reported');
    reported' := Report(w, 85.0, now, q0, reported');
    ghost var head := DetectionRun(n) + [60.0, 65.0, 80.0, 85.0];
    assert reported' == head;
    var halted, made;
    halted, made, reported' := GenerateThumbnails(w, m, n + 2, cancelAt, failAt, now, q0, reported');
    if halted {
      outcome := if CancelSeen(cancelAt, StopAt(cancelAt, failAt)) then Returned(0)
                 else Raised(failAt.value.kind);
      return outcome, reported';
    }
    reported' := Report(w, 100.0, now, q0, reported');
    return Returned(made), reported';
  }
}
