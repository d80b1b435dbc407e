/**
 One worker process: claim cycles that share a semaphore, a stop flag and the table of active jobs, against the job rows of the
 repository, which other workers, the operator and the clock change too. Every await of a cycle is a point where all of them
 may act. What the repository answers follows from the row at that moment; what the pipeline does to itself is free.
 */
module Worker {
  import opened Options

  // ---- the job rows ----

  datatype JobState = Due | Leased | Failed | Final

  datatype Owner = Nobody | Elsewhere | Cycle(id: nat)

  datatype Row = Row(state: JobState, attempt: nat, owner: Owner, until: nat, cancelRequested: bool)

  /** A due job is claimed under its next attempt, a cancelled one without a live lease for clean-up under its own. */
  predicate Claimable(row: Row, now: nat) {
    row.state == Due || (row.state == Leased && row.cancelRequested && (row.owner == Nobody || row.until <= now))
  }

  function ClaimedBy(row: Row, owner: Owner, until: nat): Row {
    if row.state == Due then Row(Leased, row.attempt + 1, owner, until, false) else row.(owner := owner, until := until)
  }

  function Left(row: Row, state: JobState): Row {
    row.(state := state, owner := Nobody, cancelRequested := false)
  }

  // ---- claim cycles ----

  datatype Phase =
    | Waiting            // for the semaphore
    | Claiming
    | Claimed            // the claim is committed but has not returned
    | Releasing          // the claim came back after the stop
    | Checking           // whether the claimed job is to be cancelled
    | Cleaning
    | Running            // the pipeline, beside the lease renewal
    | CheckingLoss       // the renewal lost the lease and the pipeline was stopped
    | CleaningLoss
    | Recording          // a failure
    | Finishing          // a cancellation
    | Ended

  /** One claim cycle; the flags are its history. */
  datatype ClaimCycle = ClaimCycle(
    phase: Phase,
    job: nat,
    attempt: nat,
    late: bool,          // its claim was returned after the stop
    started: bool,       // the pipeline ran
    lost: bool,          // the lease was found lost
    cancelSeen: bool,    // the durable cancellation was seen under the lease
    cleaned: bool,       // a clean-up finished
    released: bool,      // the repository took the claim back
    recorded: bool,      // the repository accepted a failure
    cancelled: bool,     // the repository accepted the end of the cancellation
    completed: bool,     // the pipeline committed the completion
    raised: bool,        // an error left the cycle
    failure: Option<bool>)   // how it failed, if it did: whether in a way worth a retry

  const NewCycle := ClaimCycle(Waiting, 0, 0, false, false, false, false, false, false, false, false, false, false, None)

  datatype Worker = Worker(
    concurrency: nat,
    maxAttempts: nat,
    leaseSeconds: nat,
    now: nat,
    permits: int,
    stopping: bool,
    active: map<nat, nat>,
    cycles: map<nat, ClaimCycle>,
    jobs: map<nat, Row>)

  datatype Cleanup = CleanedUp | CleanupLostLease | CleanupFailed(retryable: bool)
  datatype Result = PipelineCompleted | PipelineCancelled | PipelineLostLease | PipelineFailed(retryable: bool)

  /** What the await of a cycle comes back with. */
  datatype Step =
    | Acquire
    | Finds(job: nat)
    | FindsNothing
    | ClaimReturns
    | ReleaseReturns
    | CancelChecked
    | CleanupRenews
    | CleanupEnds(cleanup: Cleanup)
    | PipelineRenews
    | PipelineSeesCancel
    | PipelineCommits
    | PipelineEnds(result: Result)
    | RenewalLosesLease
    | RenewalFails(retryable: bool)
    | LossChecked
    | RecordReturns
    | FinishReturns
    | QueryFails(retryable: bool)
    | Raises
    | Interrupted

  datatype Event =
    | Stop
    | Spawn(id: nat)
    | Do(id: nat, step: Step)
    | Tick
    | Enqueue(job: nat)
    | RequestCancel(job: nat)
    | Recover(job: nat)
    | RetryFailed(job: nat)
    | ClaimElsewhere(job: nat)
    | ActElsewhere(job: nat, row: Row)

  function Initial(concurrency: nat, maxAttempts: nat, leaseSeconds: nat): Worker {
    Worker(concurrency, maxAttempts, leaseSeconds, 0, concurrency, false, map[], map[], map[])
  }

  // ---- what the repository answers ----

  datatype Standing = Fenced | Cancelling | Gone

  /** How the claim of a cycle on an attempt of a job stands: live, live but to be cancelled, or gone. */
  function StandingOf(w: Worker, id: nat, job: nat, attempt: nat): Standing {
    if job in w.jobs && var row := w.jobs[job];
       row.state == Leased && row.owner == Cycle(id) && row.attempt == attempt && row.until > w.now
    then if w.jobs[job].cancelRequested then Cancelling else Fenced
    else Gone
  }

  predicate Holds(p: Phase) {
    !p.Waiting? && !p.Ended?
  }

  /** Phases in which the cycle's job is in the table of active jobs. */
  predicate Active(p: Phase) {
    Holds(p) && !p.Claiming? && !p.Claimed? && !p.Releasing?
  }

  /** What the await of a cycle can come back with, as its claim stands. */
  predicate Ready(c: ClaimCycle, step: Step, standing: Standing) {
    match step
    case Acquire => c.phase.Waiting?
    case Finds(_) | FindsNothing => c.phase.Claiming?
    case ClaimReturns => c.phase.Claimed?
    case ReleaseReturns => c.phase.Releasing?
    case CancelChecked => c.phase.Checking?
    case CleanupRenews => (c.phase.Cleaning? || c.phase.CleaningLoss?) && standing == Cancelling
    case CleanupEnds(cleanup) =>
      (c.phase.Cleaning? || c.phase.CleaningLoss?) && (cleanup.CleanupLostLease? ==> standing != Cancelling)
    case PipelineRenews => c.phase.Running? && standing == Fenced
    case PipelineSeesCancel => c.phase.Running? && standing == Cancelling
    case PipelineCommits => c.phase.Running? && standing == Fenced
    case PipelineEnds(result) =>
      && c.phase.Running?
      && (result.PipelineCompleted? ==> c.completed)
      && (result.PipelineCancelled? ==> c.cancelSeen)
      && (result.PipelineLostLease? ==> standing != Fenced)
    case RenewalLosesLease => c.phase.Running? && standing != Fenced
    case RenewalFails(_) => c.phase.Running?
    case LossChecked => c.phase.CheckingLoss?
    case RecordReturns => c.phase.Recording?
    case FinishReturns => c.phase.Finishing?
    case QueryFails(_) => c.phase.Checking? || c.phase.CheckingLoss?
    case Raises =>
      c.phase.Waiting? || c.phase.Claiming? || c.phase.Claimed? || c.phase.Releasing? || c.phase.Recording? || c.phase.Finishing?
    case Interrupted => Active(c.phase)
  }

  /** Where the cycle goes on. */
  function PhaseAfter(stopping: bool, exhausted: bool, p: Phase, step: Step, standing: Standing): Phase {
    match step
    case Acquire => if stopping then Ended else Claiming
    case Finds(_) => Claimed
    case ClaimReturns => if stopping then Releasing else Checking
    case CancelChecked => if standing == Cancelling then Cleaning else if exhausted then Recording else Running
    case CleanupEnds(cleanup) =>
      if cleanup.CleanedUp? then Finishing
      else if cleanup.CleanupLostLease? || p.Cleaning? then Ended
      else Recording
    case CleanupRenews | PipelineRenews | PipelineSeesCancel | PipelineCommits => p
    case PipelineEnds(result) =>
      if result.PipelineCancelled? then Finishing else if result.PipelineFailed? then Recording else Ended
    case RenewalLosesLease => CheckingLoss
    case RenewalFails(_) | QueryFails(_) => Recording
    case LossChecked => if standing == Cancelling then CleaningLoss else Ended
    case FindsNothing | ReleaseReturns | RecordReturns | FinishReturns | Raises | Interrupted => Ended
  }

  predicate FindsLeaseLost(step: Step, standing: Standing) {
    || step.RenewalLosesLease? || ((step.ReleaseReturns? || step.RecordReturns?) && standing != Fenced)
    || (step.CleanupEnds? && step.cleanup.CleanupLostLease?) || (step.PipelineEnds? && step.result.PipelineLostLease?)
  }

  predicate SeesCancel(step: Step, standing: Standing) {
    step.PipelineSeesCancel? || ((step.CancelChecked? || step.LossChecked?) && standing == Cancelling)
  }

  /** A pipeline that ends cancelled has cleaned up itself. */
  predicate FinishesCleanup(step: Step) {
    (step.PipelineEnds? && step.result.PipelineCancelled?) || (step.CleanupEnds? && step.cleanup.CleanedUp?)
  }

  /** A claim beyond the last attempt is failed for good; every other failure says itself whether it is worth a retry. */
  function FailureIn(step: Step): bool {
    match step
    case RenewalFails(retryable) => retryable
    case QueryFails(retryable) => retryable
    case PipelineEnds(result) => result.PipelineFailed? && result.retryable
    case CleanupEnds(cleanup) => cleanup.CleanupFailed? && cleanup.retryable
    case _ => false
  }

  function Stepped(stopping: bool, maxAttempts: nat, c: ClaimCycle, step: Step, standing: Standing, attempt: nat): ClaimCycle {
    var phase := PhaseAfter(stopping, c.attempt > maxAttempts, c.phase, step, standing);
    ClaimCycle(
      phase,
      if step.Finds? then step.job else c.job,
      if step.Finds? then attempt else c.attempt,
      c.late || (step.ClaimReturns? && stopping),
      c.started || (step.CancelChecked? && phase.Running?),
      c.lost || FindsLeaseLost(step, standing),
      c.cancelSeen || SeesCancel(step, standing),
      c.cleaned || FinishesCleanup(step),
      c.released || (step.ReleaseReturns? && standing == Fenced),
      c.recorded || (step.RecordReturns? && standing == Fenced),
      c.cancelled || (step.FinishReturns? && standing == Cancelling),
      c.completed || step.PipelineCommits?,
      c.raised || step.Interrupted? || step.Raises? || (step.FinishReturns? && standing != Cancelling),
      if phase.Recording? then Some(FailureIn(step)) else c.failure)
  }

  /** Where the claim of a cycle stands now. */
  function Now(w: Worker, id: nat): Standing
    requires id in w.cycles
  {
    StandingOf(w, id, w.cycles[id].job, w.cycles[id].attempt)
  }

  predicate CanDo(w: Worker, id: nat, step: Step) {
    && id in w.cycles && Ready(w.cycles[id], step, Now(w, id))
    && (step.Acquire? ==> w.permits > 0)
    && (step.Finds? ==> step.job in w.jobs && Claimable(w.jobs[step.job], w.now))
  }

  function CycleAfter(w: Worker, id: nat, step: Step): ClaimCycle
    requires CanDo(w, id, step)
  {
    var attempt := if step.Finds? then ClaimedBy(w.jobs[step.job], Cycle(id), w.now).attempt else w.cycles[id].attempt;
    Stepped(w.stopping, w.maxAttempts, w.cycles[id], step, Now(w, id), attempt)
  }

  /** What the step writes into the row of the job. */
  function RowAfter(w: Worker, id: nat, c: ClaimCycle, row: Row, step: Step, standing: Standing): Row {
    match step
    case Finds(_) => ClaimedBy(row, Cycle(id), w.now + w.leaseSeconds)
    case ReleaseReturns =>
      if standing == Fenced then Left(row, Due).(attempt := if row.attempt > 0 then row.attempt - 1 else 0) else row
    case CleanupRenews | PipelineRenews => row.(until := w.now + w.leaseSeconds)
    case PipelineCommits => Left(row, Final)
    case RecordReturns =>
      if standing == Fenced then Left(row, if c.failure == Some(true) && c.attempt < w.maxAttempts then Due else Failed) else row
    case FinishReturns => if standing == Cancelling then Left(row, Final) else row
    case _ => row
  }

  function JobsAfter(w: Worker, id: nat, step: Step): map<nat, Row>
    requires CanDo(w, id, step)
  {
    var c := w.cycles[id];
    var job := if step.Finds? then step.job else c.job;
    if job in w.jobs then w.jobs[job := RowAfter(w, id, c, w.jobs[job], step, Now(w, id))] else w.jobs
  }

  // ---- events ----

  predicate Enabled(w: Worker, e: Event) {
    match e
    case Stop | Tick => true
    case Spawn(id) => id !in w.cycles && !w.stopping
    case Do(id, step) => CanDo(w, id, step)
    case Enqueue(job) => job !in w.jobs
    case RequestCancel(job) => job in w.jobs
    case Recover(job) => job in w.jobs && w.jobs[job].state == Leased && w.jobs[job].owner != Nobody && w.jobs[job].until <= w.now
    case RetryFailed(job) => job in w.jobs && w.jobs[job].state == Failed
    case ClaimElsewhere(job) => job in w.jobs && Claimable(w.jobs[job], w.now)
    case ActElsewhere(job, row) => job in w.jobs && w.jobs[job].owner == Elsewhere && !row.owner.Cycle?
  }

  function CancelRequested(row: Row, now: nat): Row {
    match row.state
    case Due => Left(row, Final)
    case Leased => row.(cancelRequested := true, owner := if row.until <= now then Nobody else row.owner)
    case _ => row
  }

  function Recovered(row: Row): Row {
    if row.cancelRequested then row.(owner := Nobody) else Left(row, Due)
  }

  /** The table of active jobs is keyed by job: a cycle enters its job when it starts on it and removes it when it ends. */
  function Listing(active: map<nat, nat>, id: nat, before: ClaimCycle, after: ClaimCycle): map<nat, nat> {
    if !Active(before.phase) && Active(after.phase) then active[after.job := id]
    else if Active(before.phase) && !Active(after.phase) then active - {before.job}
    else active
  }

  function Permits(permits: int, before: ClaimCycle, after: ClaimCycle): int {
    permits - (if before.phase.Waiting? then 1 else 0) + (if after.phase.Ended? then 1 else 0)
  }

  function Apply(w: Worker, e: Event): Worker
    requires Enabled(w, e)
  {
    match e
    case Stop => w.(stopping := true)
    case Tick => w.(now := w.now + 1)
    case Spawn(id) => w.(cycles := w.cycles[id := NewCycle])
    case Do(id, step) =>
      var before := w.cycles[id];
      var after := CycleAfter(w, id, step);
      Worker(w.concurrency, w.maxAttempts, w.leaseSeconds, w.now, Permits(w.permits, before, after), w.stopping,
             Listing(w.active, id, before, after), w.cycles[id := after], JobsAfter(w, id, step))
    case Enqueue(job) => w.(jobs := w.jobs[job := Row(Due, 0, Nobody, 0, false)])
    case RequestCancel(job) => w.(jobs := w.jobs[job := CancelRequested(w.jobs[job], w.now)])
    case Recover(job) => w.(jobs := w.jobs[job := Recovered(w.jobs[job])])
    case RetryFailed(job) => w.(jobs := w.jobs[job := Left(w.jobs[job], Due)])
    case ClaimElsewhere(job) => w.(jobs := w.jobs[job := ClaimedBy(w.jobs[job], Elsewhere, w.now + w.leaseSeconds)])
    case ActElsewhere(job, row) => w.(jobs := w.jobs[job := row])
  }

  predicate Legal(w: Worker, run: seq<Event>)
    decreases |run|
  {
    run == [] || (Enabled(w, run[0]) && Legal(Apply(w, run[0]), run[1..]))
  }

  function After(w: Worker, run: seq<Event>): Worker
    requires Legal(w, run)
    decreases |run|
  {
    if run == [] then w else After(Apply(w, run[0]), run[1..])
  }

  // ---- a claim only ever gets weaker ----

  function Strength(s: Standing): nat {
    match s
    case Fenced => 2
    case Cancelling => 1
    case Gone => 0
  }

  predicate Weaker(a: Standing, b: Standing) {
    Strength(a) <= Strength(b)
  }

  lemma StepWeakens(w: Worker, id: nat, step: Step, i: nat, job: nat, attempt: nat)
    requires CanDo(w, id, step) && (i == id ==> !step.Finds?)
    ensures Weaker(StandingOf(w.(jobs := JobsAfter(w, id, step)), i, job, attempt), StandingOf(w, i, job, attempt))
  {
    hide PhaseAfter, Stepped;
  }

  lemma AroundWeakens(w: Worker, e: Event, i: nat, job: nat, attempt: nat)
    requires Enabled(w, e) && !e.Do?
    ensures Weaker(StandingOf(Apply(w, e), i, job, attempt), StandingOf(w, i, job, attempt))
  {
    hide PhaseAfter, Stepped, Permits, Listing, JobsAfter;
  }

  // ---- the invariant ----

  function Holders(cycles: map<nat, ClaimCycle>): set<nat> {
    set i | i in cycles && Holds(cycles[i].phase)
  }

  function One(b: bool): nat {
    if b then 1 else 0
  }

  /** In how many ways the cycle settled its claim in the repository. */
  function Outcomes(c: ClaimCycle): nat {
    One(c.released) + One(c.recorded) + One(c.cancelled) + One(c.completed)
  }

  /** Before its claim has returned a cycle has no history. */
  predicate Fresh(c: ClaimCycle) {
    && (c.phase.Waiting? || c.phase.Claiming? ==> c == NewCycle.(phase := c.phase))
    && (c.phase.Claimed? ==> c == NewCycle.(phase := Claimed, job := c.job, attempt := c.attempt))
  }

  /** A claim that came back after the stop is only given back. */
  predicate LateSound(c: ClaimCycle) {
    && (c.late ==> c.phase.Releasing? || c.phase.Ended?)
    && (c.late ==> !c.started && !c.cleaned && !c.recorded && !c.cancelled && !c.cancelSeen && !c.completed)
    && (c.phase.Releasing? ==> c.late)
    && (c.late && c.phase.Ended? ==> c.released || c.lost || c.raised)
    && (c.released ==> c.late && !c.lost && c.phase.Ended?)
  }

  /** What a cycle's history says in each phase. */
  predicate HistorySound(c: ClaimCycle) {
    && (c.cancelled ==> c.cleaned && c.cancelSeen && c.phase.Ended?)
    && (c.phase.Finishing? ==> c.cleaned && c.cancelSeen)
    && (c.phase.Cleaning? || c.phase.CleaningLoss? ==> c.cancelSeen)
    && (c.recorded ==> c.phase.Ended? && !c.lost && !c.cancelSeen)
    && (c.completed ==> c.started)
    && (c.phase.Running? ==> c.started)
  }

  predicate Behaved(c: ClaimCycle) {
    Fresh(c) && LateSound(c) && HistorySound(c) && Outcomes(c) <= 1
  }

  /** What a cycle has seen of its claim is true of it. */
  predicate Agrees(c: ClaimCycle, standing: Standing) {
    && (c.lost || c.cancelSeen ==> standing != Fenced)
    && (Outcomes(c) > 0 ==> standing == Gone)
  }

  predicate Stands(w: Worker, id: nat, c: ClaimCycle) {
    Agrees(c, StandingOf(w, id, c.job, c.attempt))
  }

  predicate Counted(w: Worker) {
    w.permits >= 0 && w.permits + |Holders(w.cycles)| == w.concurrency
  }

  predicate Listed(w: Worker) {
    forall j :: j in w.active ==> w.active[j] in w.cycles && w.cycles[w.active[j]].job == j && Active(w.cycles[w.active[j]].phase)
  }

  predicate Inv(w: Worker) {
    && Counted(w) && Listed(w)
    && forall i :: i in w.cycles ==> Behaved(w.cycles[i]) && Stands(w, i, w.cycles[i])
  }

  lemma StepFresh(stopping: bool, maxAttempts: nat, c: ClaimCycle, step: Step, standing: Standing, attempt: nat)
    requires Ready(c, step, standing) && Fresh(c)
    ensures Fresh(Stepped(stopping, maxAttempts, c, step, standing, attempt))
  {
  }

  lemma StepLate(stopping: bool, maxAttempts: nat, c: ClaimCycle, step: Step, standing: Standing, attempt: nat)
    requires Ready(c, step, standing) && Fresh(c) && LateSound(c) && Agrees(c, standing)
    ensures LateSound(Stepped(stopping, maxAttempts, c, step, standing, attempt))
  {
    hide FailureIn, Outcomes, FinishesCleanup;
    if c.phase.Claimed? || c.phase.Releasing? {
      ClaimComesBack(stopping, maxAttempts, c, step, standing, attempt);
    } else {
      NotLate(stopping, maxAttempts, c, step, standing, attempt);
    }
  }

  lemma ClaimComesBack(stopping: bool, maxAttempts: nat, c: ClaimCycle, step: Step, standing: Standing, attempt: nat)
    requires Ready(c, step, standing) && Fresh(c) && LateSound(c) && Agrees(c, standing)
    requires c.phase.Claimed? || c.phase.Releasing?
    ensures LateSound(Stepped(stopping, maxAttempts, c, step, standing, attempt))
  {
    hide FailureIn;
  }

  lemma NotLate(stopping: bool, maxAttempts: nat, c: ClaimCycle, step: Step, standing: Standing, attempt: nat)
    requires Ready(c, step, standing) && LateSound(c) && !c.phase.Claimed? && !c.phase.Releasing?
    ensures LateSound(Stepped(stopping, maxAttempts, c, step, standing, attempt))
  {
    hide FailureIn, FinishesCleanup, SeesCancel;
  }

  predicate Around(step: Step) {
    || step.Acquire? || step.Finds? || step.FindsNothing? || step.ClaimReturns? || step.ReleaseReturns? || step.Raises?
    || step.Interrupted? || step.QueryFails?
  }

  predicate OfPipeline(step: Step) {
    || step.PipelineRenews? || step.PipelineSeesCancel? || step.PipelineCommits? || step.PipelineEnds?
    || step.RenewalLosesLease? || step.RenewalFails?
  }

  lemma HistoryAround(stopping: bool, maxAttempts: nat, c: ClaimCycle, step: Step, standing: Standing, attempt: nat)
    requires Ready(c, step, standing) && Around(step) && HistorySound(c)
    ensures HistorySound(Stepped(stopping, maxAttempts, c, step, standing, attempt))
  {
  }

  lemma HistoryOfPipeline(stopping: bool, maxAttempts: nat, c: ClaimCycle, step: Step, standing: Standing, attempt: nat)
    requires Ready(c, step, standing) && OfPipeline(step) && HistorySound(c)
    ensures HistorySound(Stepped(stopping, maxAttempts, c, step, standing, attempt))
  {
  }

  lemma HistoryAfter(stopping: bool, maxAttempts: nat, c: ClaimCycle, step: Step, standing: Standing, attempt: nat)
    requires Ready(c, step, standing) && !Around(step) && !OfPipeline(step) && HistorySound(c) && Agrees(c, standing)
    ensures HistorySound(Stepped(stopping, maxAttempts, c, step, standing, attempt))
  {
    hide Outcomes;
  }

  lemma StepHistory(stopping: bool, maxAttempts: nat, c: ClaimCycle, step: Step, standing: Standing, attempt: nat)
    requires Ready(c, step, standing) && HistorySound(c) && Agrees(c, standing)
    ensures HistorySound(Stepped(stopping, maxAttempts, c, step, standing, attempt))
  {
    hide Ready, HistorySound, Agrees, Stepped;
    if Around(step) {
      HistoryAround(stopping, maxAttempts, c, step, standing, attempt);
    } else if OfPipeline(step) {
      HistoryOfPipeline(stopping, maxAttempts, c, step, standing, attempt);
    } else {
      HistoryAfter(stopping, maxAttempts, c, step, standing, attempt);
    }
  }

  lemma StepOutcomes(stopping: bool, maxAttempts: nat, c: ClaimCycle, step: Step, standing: Standing, attempt: nat)
    requires Ready(c, step, standing) && Agrees(c, standing) && Outcomes(c) <= 1
    ensures Outcomes(Stepped(stopping, maxAttempts, c, step, standing, attempt)) <= 1
  {
  }

  lemma StepBehaves(w: Worker, id: nat, step: Step)
    requires CanDo(w, id, step) && Behaved(w.cycles[id]) && Stands(w, id, w.cycles[id])
    ensures Behaved(CycleAfter(w, id, step))
  {
    hide Ready, Fresh, LateSound, HistorySound, Outcomes, Agrees, Stepped, StandingOf;
    var c, standing := w.cycles[id], Now(w, id);
    var attempt := if step.Finds? then ClaimedBy(w.jobs[step.job], Cycle(id), w.now).attempt else c.attempt;
    StepFresh(w.stopping, w.maxAttempts, c, step, standing, attempt);
    StepLate(w.stopping, w.maxAttempts, c, step, standing, attempt);
    StepHistory(w.stopping, w.maxAttempts, c, step, standing, attempt);
    StepOutcomes(w.stopping, w.maxAttempts, c, step, standing, attempt);
  }

  predicate Settles(step: Step, standing: Standing) {
    || ((step.ReleaseReturns? || step.RecordReturns?) && standing == Fenced)
    || (step.FinishReturns? && standing == Cancelling) || step.PipelineCommits?
  }

  /** What a step adds to the history agrees with the claim as it stands; settling it gives it up. */
  lemma LossAgrees(stopping: bool, maxAttempts: nat, c: ClaimCycle, step: Step, standing: Standing, attempt: nat)
    requires Ready(c, step, standing) && HistorySound(c) && (c.lost || c.cancelSeen ==> standing != Fenced)
    ensures
      var c' := Stepped(stopping, maxAttempts, c, step, standing, attempt);
      c'.lost || c'.cancelSeen ==> standing != Fenced
  {
    hide PhaseAfter;
  }

  lemma OutcomesAgree(stopping: bool, maxAttempts: nat, c: ClaimCycle, step: Step, standing: Standing, attempt: nat)
    requires Outcomes(c) > 0 ==> standing == Gone
    ensures
      var c' := Stepped(stopping, maxAttempts, c, step, standing, attempt);
      Outcomes(c') > 0 ==> standing == Gone || Settles(step, standing)
  {
    hide PhaseAfter;
  }

  lemma FindsFresh(stopping: bool, maxAttempts: nat, c: ClaimCycle, step: Step, standing: Standing, attempt: nat)
    requires Ready(c, step, standing) && Fresh(c)
    ensures
      var c' := Stepped(stopping, maxAttempts, c, step, standing, attempt);
      && (step.Finds? ==> !c'.lost && !c'.cancelSeen && Outcomes(c') == 0)
      && (!step.Finds? ==> c'.job == c.job && c'.attempt == c.attempt)
  {
    hide PhaseAfter;
  }

  lemma SettlingGivesUp(w: Worker, id: nat, step: Step)
    requires CanDo(w, id, step) && Settles(step, Now(w, id))
    ensures StandingOf(w.(jobs := JobsAfter(w, id, step)), id, w.cycles[id].job, w.cycles[id].attempt) == Gone
  {
    hide PhaseAfter, Stepped;
  }

  lemma OwnStands(w: Worker, id: nat, step: Step)
    requires CanDo(w, id, step) && Behaved(w.cycles[id]) && Stands(w, id, w.cycles[id])
    ensures Stands(w.(jobs := JobsAfter(w, id, step)), id, CycleAfter(w, id, step))
  {
    hide Ready, Fresh, LateSound, HistorySound, Outcomes, Stepped, StandingOf, JobsAfter, Settles;
    var c, standing := w.cycles[id], Now(w, id);
    var attempt := if step.Finds? then ClaimedBy(w.jobs[step.job], Cycle(id), w.now).attempt else c.attempt;
    LossAgrees(w.stopping, w.maxAttempts, c, step, standing, attempt);
    OutcomesAgree(w.stopping, w.maxAttempts, c, step, standing, attempt);
    FindsFresh(w.stopping, w.maxAttempts, c, step, standing, attempt);
    if !step.Finds? { StepWeakens(w, id, step, id, c.job, c.attempt); }
    if Settles(step, standing) { SettlingGivesUp(w, id, step); }
  }

  /** A cycle takes its permit when it gets past the semaphore, gives it back when it ends, and keeps its job in between. */
  lemma StepMoves(w: Worker, id: nat, step: Step)
    requires CanDo(w, id, step)
    ensures
      var c, c' := w.cycles[id], CycleAfter(w, id, step);
      && !c.phase.Ended? && !c'.phase.Waiting?
      && (c.phase.Waiting? ==> w.permits > 0 || c'.phase.Ended?)
      && (Active(c.phase) ==> c'.job == c.job)
  {
    hide StandingOf;
  }

  lemma HoldersPut(cycles: map<nat, ClaimCycle>, id: nat, after: ClaimCycle)
    requires id in cycles
    ensures |Holders(cycles[id := after])| == |Holders(cycles)| - One(Holds(cycles[id].phase)) + One(Holds(after.phase))
  {
    if Holds(cycles[id].phase) == Holds(after.phase) {
      assert Holders(cycles[id := after]) == Holders(cycles);
    } else if Holds(after.phase) {
      assert Holders(cycles[id := after]) == Holders(cycles) + {id};
    } else {
      assert Holders(cycles[id := after]) == Holders(cycles) - {id};
    }
  }

  lemma StepCounts(w: Worker, id: nat, step: Step)
    requires Counted(w) && id in w.cycles && CanDo(w, id, step)
    ensures Counted(Apply(w, Do(id, step)))
  {
    hide CanDo, CycleAfter, JobsAfter, Listing, Holders;
    StepMoves(w, id, step);
    HoldersPut(w.cycles, id, CycleAfter(w, id, step));
  }

  lemma StepLists(w: Worker, id: nat, step: Step)
    requires Listed(w) && id in w.cycles && CanDo(w, id, step)
    ensures Listed(Apply(w, Do(id, step)))
  {
    hide CanDo, CycleAfter, JobsAfter;
    StepMoves(w, id, step);
  }

  lemma OtherStands(w: Worker, id: nat, step: Step, i: nat, c: ClaimCycle)
    requires CanDo(w, id, step) && Stands(w, i, c) && i != id
    ensures Stands(w.(jobs := JobsAfter(w, id, step)), i, c)
  {
    hide CanDo, JobsAfter, StandingOf, Outcomes;
    StepWeakens(w, id, step, i, c.job, c.attempt);
  }

  lemma AroundStands(w: Worker, e: Event, i: nat, c: ClaimCycle)
    requires Enabled(w, e) && !e.Do? && Stands(w, i, c)
    ensures Stands(Apply(w, e), i, c)
  {
    hide Enabled, Apply, StandingOf, Outcomes;
    AroundWeakens(w, e, i, c.job, c.attempt);
  }

  lemma OnlyRowsMatter(w: Worker, v: Worker, i: nat, c: ClaimCycle)
    requires v.jobs == w.jobs && v.now == w.now && Stands(w, i, c)
    ensures Stands(v, i, c)
  {
  }

  lemma DoKept(w: Worker, id: nat, step: Step)
    requires Inv(w) && id in w.cycles && CanDo(w, id, step)
    ensures Inv(Apply(w, Do(id, step)))
  {
    hide CanDo, CycleAfter, Behaved, Stands, JobsAfter, Counted, Listed;
    StepBehaves(w, id, step);
    StepCounts(w, id, step);
    StepLists(w, id, step);
    var u, t := w.(jobs := JobsAfter(w, id, step)), Apply(w, Do(id, step));
    OwnStands(w, id, step);
    OnlyRowsMatter(u, t, id, CycleAfter(w, id, step));
    forall i | i in w.cycles && i != id ensures Stands(t, i, w.cycles[i]) {
      OtherStands(w, id, step, i, w.cycles[i]);
      OnlyRowsMatter(u, t, i, w.cycles[i]);
    }
  }

  lemma AroundKept(w: Worker, e: Event)
    requires Inv(w) && Enabled(w, e) && !e.Do?
    ensures Inv(Apply(w, e))
  {
    hide Behaved, Stands, StandingOf;
    NewBehaves(w, e);
    assert Holders(Apply(w, e).cycles) == Holders(w.cycles);
    forall i | i in w.cycles ensures Stands(Apply(w, e), i, w.cycles[i]) {
      AroundStands(w, e, i, w.cycles[i]);
    }
  }

  lemma NewBehaves(w: Worker, e: Event)
    requires Enabled(w, e)
    ensures Behaved(NewCycle) && forall i :: Stands(Apply(w, e), i, NewCycle)
  {
  }

  lemma EventKept(w: Worker, e: Event)
    requires Inv(w) && Enabled(w, e)
    ensures Inv(Apply(w, e)) && Apply(w, e).concurrency == w.concurrency
  {
    hide Inv, CycleAfter, JobsAfter;
    if e.Do? { DoKept(w, e.id, e.step); } else { AroundKept(w, e); }
  }

  lemma {:induction false} RunKept(w: Worker, run: seq<Event>)
    requires Inv(w) && Legal(w, run)
    ensures Inv(After(w, run)) && After(w, run).concurrency == w.concurrency
    decreases |run|
  {
    hide Inv, Enabled, Apply;
    if run != [] {
      EventKept(w, run[0]);
      RunKept(Apply(w, run[0]), run[1..]);
    }
  }

  ghost predicate Reached(concurrency: nat, maxAttempts: nat, leaseSeconds: nat, run: seq<Event>, w: Worker) {
    Legal(Initial(concurrency, maxAttempts, leaseSeconds), run) && After(Initial(concurrency, maxAttempts, leaseSeconds), run) == w
  }

  lemma ReachedInv(concurrency: nat, maxAttempts: nat, leaseSeconds: nat, run: seq<Event>, w: Worker)
    requires Reached(concurrency, maxAttempts, leaseSeconds, run, w)
    ensures Inv(w) && w.concurrency == concurrency
  {
    var start := Initial(concurrency, maxAttempts, leaseSeconds);
    assert Holders(start.cycles) == {};
    RunKept(start, run);
  }

  // ---- what holds in every interleaving ----

  lemma {:induction false} Injects(active: map<nat, nat>, jobs: set<nat>, holders: set<nat>, cycles: map<nat, ClaimCycle>)
    requires forall j :: j in jobs ==> j in active && active[j] in holders && active[j] in cycles && cycles[active[j]].job == j
    ensures |jobs| <= |holders|
    decreases jobs
  {
    if j :| j in jobs {
      Injects(active, jobs - {j}, holders - {active[j]}, cycles);
    }
  }

  /** The number of active jobs never exceeds the concurrency. */
  lemma ActiveJobsBounded(concurrency: nat, maxAttempts: nat, leaseSeconds: nat, run: seq<Event>, w: Worker)
    requires Reached(concurrency, maxAttempts, leaseSeconds, run, w)
    ensures |w.active| <= concurrency
  {
    ReachedInv(concurrency, maxAttempts, leaseSeconds, run, w);
    Injects(w.active, w.active.Keys, Holders(w.cycles), w.cycles);
    assert |w.active| == |w.active.Keys|;
  }

  /**
   A claim that came back after the stop is taken back by the repository, was lost, or ends in an error of that call, and its
   job is never run, cleaned up or recorded.
   */
  lemma LateClaimsAreReleased(concurrency: nat, maxAttempts: nat, leaseSeconds: nat, run: seq<Event>, w: Worker, id: nat)
    requires Reached(concurrency, maxAttempts, leaseSeconds, run, w) && id in w.cycles && w.cycles[id].late
    ensures
      var c := w.cycles[id];
      && !c.started && !c.cleaned && !c.recorded && !c.cancelled && !c.completed
      && (c.phase == Ended ==> c.released || c.lost || c.raised)
      && (c.phase == Releasing || c.phase == Ended)
  {
    ReachedInv(concurrency, maxAttempts, leaseSeconds, run, w);
  }

  /** A claim that has been found lost, or to be cancelled, never comes back, whatever happens to the job afterwards. */
  lemma {:induction false} LossIsFinal(w: Worker, run: seq<Event>, id: nat)
    requires Inv(w) && Legal(w, run) && id in w.cycles && (w.cycles[id].lost || w.cycles[id].cancelSeen)
    ensures id in After(w, run).cycles && Now(After(w, run), id) != Fenced
    ensures After(w, run).cycles[id].recorded == w.cycles[id].recorded
    decreases |run|
  {
    hide Enabled, Apply, Behaved, Counted, Listed, StandingOf;
    if run != [] {
      EventKept(w, run[0]);
      HistoryKept(w, run[0], id);
      LossIsFinal(Apply(w, run[0]), run[1..], id);
    }
  }

  lemma HistoryKept(w: Worker, e: Event, id: nat)
    requires Inv(w) && Enabled(w, e) && id in w.cycles && (w.cycles[id].lost || w.cycles[id].cancelSeen)
    ensures id in Apply(w, e).cycles
    ensures
      var c, c' := w.cycles[id], Apply(w, e).cycles[id];
      (c'.lost || c'.cancelSeen) && c'.recorded == c.recorded
  {
    hide StandingOf, Behaved, Counted, Listed, Permits, Listing, JobsAfter, PhaseAfter;
  }

  /**
   A cycle that has lost its lease, or seen the cancellation, gets no failure recorded; it can at most have finished the
   cancellation, after a clean-up.
   */
  lemma LostLeaseRecordsNothing(concurrency: nat, maxAttempts: nat, leaseSeconds: nat, run: seq<Event>, w: Worker, id: nat)
    requires Reached(concurrency, maxAttempts, leaseSeconds, run, w) && id in w.cycles
    requires w.cycles[id].lost || w.cycles[id].cancelSeen
    ensures !w.cycles[id].recorded
    ensures w.cycles[id].cancelled ==> w.cycles[id].cancelSeen && w.cycles[id].cleaned
  {
    ReachedInv(concurrency, maxAttempts, leaseSeconds, run, w);
  }

  /** A claim is settled in at most one way: taken back, failed or retried, cancelled after its clean-up, or completed. */
  lemma OneOutcome(concurrency: nat, maxAttempts: nat, leaseSeconds: nat, run: seq<Event>, w: Worker, id: nat)
    requires Reached(concurrency, maxAttempts, leaseSeconds, run, w) && id in w.cycles
    ensures Outcomes(w.cycles[id]) <= 1
    ensures Outcomes(w.cycles[id]) == 1 ==> Now(w, id) == Gone
    ensures w.cycles[id].cancelled ==> w.cycles[id].cleaned
    ensures w.cycles[id].phase == Finishing ==> w.cycles[id].cleaned
  {
    ReachedInv(concurrency, maxAttempts, leaseSeconds, run, w);
  }

  lemma StopStep(w: Worker, e: Event)
    requires Enabled(w, e) && w.stopping
    ensures Apply(w, e).stopping && Apply(w, e).active.Keys <= w.active.Keys && Apply(w, e).cycles.Keys == w.cycles.Keys
  {
    hide StandingOf, JobsAfter, Permits;
  }

  /** After the stop no cycle begins and no job becomes active any more, whatever claims were still on their way. */
  lemma {:induction false} NothingNewAfterStop(w: Worker, run: seq<Event>)
    requires Legal(w, run) && w.stopping
    ensures After(w, run).active.Keys <= w.active.Keys && After(w, run).cycles.Keys == w.cycles.Keys
    decreases |run|
  {
    hide Enabled, Apply;
    if run != [] {
      StopStep(w, run[0]);
      NothingNewAfterStop(Apply(w, run[0]), run[1..]);
    }
  }

  // ---- claimed jobs are run ----

  /** A failure of a cycle, and whether it may be worth a retry. */
  function Failing(e: Event, id: nat): Option<bool> {
    if e.Do? && e.id == id then
      match e.step
      case QueryFails(retryable) => Some(retryable)
      case RenewalFails(retryable) => Some(retryable)
      case PipelineEnds(PipelineFailed(retryable)) => Some(retryable)
      case CleanupEnds(CleanupFailed(retryable)) => Some(retryable)
      case _ => None
    else None
  }

  /** How cycle `id` failed last. */
  function LastFailure(run: seq<Event>, id: nat): Option<bool>
    decreases |run|
  {
    if run == [] then None
    else
      var last := Failing(run[|run| - 1], id);
      if last.Some? then last else LastFailure(run[..|run| - 1], id)
  }

  predicate QueryFailed(run: seq<Event>, id: nat) {
    exists i :: 0 <= i < |run| && run[i].Do? && run[i].id == id && run[i].step.QueryFails?
  }

  /** Where a cycle is before it has failed. */
  predicate Unfailed(p: Phase) {
    p.Waiting? || p.Claiming? || p.Claimed? || p.Releasing? || p.Checking? || p.Running?
  }

  /** How a cycle came to start its job, or to record a failure of it. */
  predicate Grounds(c: ClaimCycle, maxAttempts: nat, failure: Option<bool>, queryFailed: bool) {
    && (c.started ==> c.attempt <= maxAttempts)
    && (c.phase.Running? ==> c.started)
    && (c.phase.CheckingLoss? || c.phase.CleaningLoss? ==> c.started)
    && (Unfailed(c.phase) ==> failure.None?)
    && (c.phase.Recording? ==> c.failure.Some?)
    && (c.recorded || c.phase.Recording? ==>
          || (c.failure == failure && failure.Some? && (c.started || queryFailed))
          || (c.failure == Some(false) && failure.None? && c.attempt > maxAttempts && !c.started))
    && (c.recorded ==> c.phase.Ended?)
  }

  lemma GroundsStep(stopping: bool, maxAttempts: nat, c: ClaimCycle, step: Step, standing: Standing, attempt: nat, id: nat,
                    failure: Option<bool>, queryFailed: bool)
    requires Ready(c, step, standing) && Fresh(c) && Grounds(c, maxAttempts, failure, queryFailed)
    ensures
      var last := Failing(Do(id, step), id);
      Grounds(Stepped(stopping, maxAttempts, c, step, standing, attempt), maxAttempts,
              if last.Some? then last else failure, queryFailed || step.QueryFails?)
  {
    hide Agrees, FindsLeaseLost, SeesCancel, FinishesCleanup;
  }

  ghost predicate Grounded(run: seq<Event>, w: Worker, id: nat) {
    if id in w.cycles then Grounds(w.cycles[id], w.maxAttempts, LastFailure(run, id), QueryFailed(run, id))
    else LastFailure(run, id).None?
  }

  /** The last event of a run, taken off. */
  lemma {:induction false} Shortened(w: Worker, run: seq<Event>)
    requires run != [] && Legal(w, run)
    ensures
      var n := |run| - 1;
      && Legal(w, run[..n]) && Enabled(After(w, run[..n]), run[n])
      && After(w, run) == Apply(After(w, run[..n]), run[n])
    decreases |run|
  {
    hide Enabled, Apply;
    var n := |run| - 1;
    if n == 0 {
      assert run == [run[0]];
      assert run[..0] == [] && run[1..] == [];
    } else {
      Shortened(Apply(w, run[0]), run[1..]);
      assert run[1..][..n - 1] == run[..n][1..];
      assert run[..n][0] == run[0];
    }
  }

  lemma QueryFailedStep(run: seq<Event>, id: nat)
    requires run != []
    ensures
      var e := run[|run| - 1];
      QueryFailed(run, id) <==> QueryFailed(run[..|run| - 1], id) || (e.Do? && e.id == id && e.step.QueryFails?)
  {
    var n := |run| - 1;
    assert run == run[..n] + [run[n]];
    if QueryFailed(run[..n], id) {
      var i :| 0 <= i < n && run[..n][i].Do? && run[..n][i].id == id && run[..n][i].step.QueryFails?;
      assert run[i] == run[..n][i];
    }
    if QueryFailed(run, id) {
      var i :| 0 <= i < |run| && run[i].Do? && run[i].id == id && run[i].step.QueryFails?;
      if i < n { assert run[..n][i] == run[i]; }
    }
  }

  lemma {:induction false} RunGrounded(w: Worker, run: seq<Event>, id: nat)
    requires Inv(w) && id !in w.cycles && Legal(w, run)
    ensures Grounded(run, After(w, run), id) && After(w, run).maxAttempts == w.maxAttempts
    ensures Inv(After(w, run))
    decreases |run|
  {
    hide Inv, Ready, CycleAfter, JobsAfter, Grounds, QueryFailed, Claimable, Permits, Listing, StandingOf;
    if run != [] {
      var n := |run| - 1;
      Shortened(w, run);
      RunGrounded(w, run[..n], id);
      var before := After(w, run[..n]);
      QueryFailedStep(run, id);
      EventKept(before, run[n]);
      if run[n].Do? && run[n].id == id {
        CycleGrounds(before, id, run[n].step, LastFailure(run[..n], id), QueryFailed(run[..n], id));
      } else if run[n].Spawn? && run[n].id == id {
        NewGrounds(w.maxAttempts, QueryFailed(run, id));
      }
    }
  }

  lemma CycleGrounds(w: Worker, id: nat, step: Step, failure: Option<bool>, queryFailed: bool)
    requires Inv(w) && CanDo(w, id, step) && Grounds(w.cycles[id], w.maxAttempts, failure, queryFailed)
    ensures
      var last := Failing(Do(id, step), id);
      Grounds(CycleAfter(w, id, step), w.maxAttempts, if last.Some? then last else failure, queryFailed || step.QueryFails?)
  {
    hide Ready, Stepped, Grounds, StandingOf, LateSound, HistorySound, Outcomes, Agrees, Counted, Listed;
    var c := w.cycles[id];
    var attempt := if step.Finds? then ClaimedBy(w.jobs[step.job], Cycle(id), w.now).attempt else c.attempt;
    GroundsStep(w.stopping, w.maxAttempts, c, step, Now(w, id), attempt, id, failure, queryFailed);
  }

  lemma NewGrounds(maxAttempts: nat, queryFailed: bool)
    ensures Grounds(NewCycle, maxAttempts, None, queryFailed)
  {
  }

  lemma ReachedGrounded(concurrency: nat, maxAttempts: nat, leaseSeconds: nat, run: seq<Event>, w: Worker, id: nat)
    requires Reached(concurrency, maxAttempts, leaseSeconds, run, w)
    ensures Grounded(run, w, id) && w.maxAttempts == maxAttempts
  {
    var start := Initial(concurrency, maxAttempts, leaseSeconds);
    assert Holders(start.cycles) == {};
    RunGrounded(start, run, id);
  }

  /** The pipeline is started only within the attempts a job has, and a failure is recorded only if there was one. */
  lemma RecordedForCause(concurrency: nat, maxAttempts: nat, leaseSeconds: nat, run: seq<Event>, w: Worker, id: nat)
    requires Reached(concurrency, maxAttempts, leaseSeconds, run, w) && id in w.cycles
    ensures w.cycles[id].started ==> w.cycles[id].attempt <= maxAttempts
    ensures w.cycles[id].recorded ==> w.cycles[id].attempt > maxAttempts || LastFailure(run, id).Some?
    ensures w.cycles[id].recorded && !w.cycles[id].started ==> w.cycles[id].attempt > maxAttempts || QueryFailed(run, id)
  {
    ReachedGrounded(concurrency, maxAttempts, leaseSeconds, run, w, id);
  }

  lemma ClaimedJobsStartCycle(w: Worker, id: nat)
    requires id in w.cycles && w.cycles[id].phase == Checking && Now(w, id) == Fenced && w.cycles[id].attempt <= w.maxAttempts
    ensures CanDo(w, id, CancelChecked) && CycleAfter(w, id, CancelChecked) == w.cycles[id].(phase := Running, started := true)
  {
    hide ClaimedBy, Claimable;
  }

  /** A claimed job that is neither cancelled nor out of attempts has its pipeline started by the cancellation check. */
  lemma ClaimedJobsStart(w: Worker, id: nat)
    requires id in w.cycles && w.cycles[id].phase == Checking && Now(w, id) == Fenced && w.cycles[id].attempt <= w.maxAttempts
    ensures Enabled(w, Do(id, CancelChecked))
    ensures
      var c, t := w.cycles[id], Apply(w, Do(id, CancelChecked));
      && t.cycles == w.cycles[id := c.(phase := Running, started := true)]
      && t.jobs == w.jobs && t.now == w.now && t.maxAttempts == w.maxAttempts
  {
    hide Apply, CycleAfter, JobsAfter, StandingOf;
    var step := CancelChecked;
    DoTouches(w, id, step);
    RowsUntouched(w, id, step);
    ClaimedJobsStartCycle(w, id);
  }

  /**
   A failure that is recorded under the claim makes the job due again exactly when the cycle failed in a way worth a retry and
   an attempt is left, and fails it for good otherwise.
   */
  lemma RetriedIff(concurrency: nat, maxAttempts: nat, leaseSeconds: nat, run: seq<Event>, w: Worker, id: nat)
    requires Reached(concurrency, maxAttempts, leaseSeconds, run, w)
    requires Enabled(w, Do(id, RecordReturns)) && Now(w, id) == Fenced
    ensures
      var job, t := w.cycles[id].job, Apply(w, Do(id, RecordReturns));
      job in t.jobs
      && t.jobs[job].state
           == (if LastFailure(run, id) == Some(true) && w.cycles[id].attempt < maxAttempts then Due else Failed)
      && t.jobs[job].attempt == w.cycles[id].attempt && t.jobs[job].owner == Nobody
  {
    ReachedGrounded(concurrency, maxAttempts, leaseSeconds, run, w, id);
  }

  // ---- undisturbed cycles ----

  ghost predicate Leads(w: Worker, run: seq<Event>, t: Worker) {
    Legal(w, run) && After(w, run) == t
  }

  lemma {:induction false} Then(w: Worker, run: seq<Event>, t: Worker, e: Event) returns (run': seq<Event>, t': Worker)
    requires Leads(w, run, t) && Enabled(t, e)
    ensures run' == run + [e] && t' == Apply(t, e) && Leads(w, run', t')
    decreases |run|
  {
    hide Enabled, Apply;
    run', t' := run + [e], Apply(t, e);
    assert Leads(t', [], t');
    if run == [] {
      assert run' == [e] && [e][1..] == [];
    } else {
      var rest, u := Then(Apply(w, run[0]), run[1..], t, e);
      assert run'[0] == run[0] && run'[1..] == rest;
    }
  }

  /** Cycle `id` is checking the claim it has just got on `job`, which is as it was but for the claim. */
  predicate HasClaimed(w: Worker, t: Worker, id: nat, job: nat) {
    && job in w.jobs && job in t.jobs && t.jobs[job] == ClaimedBy(w.jobs[job], Cycle(id), w.now + w.leaseSeconds)
    && id in t.cycles && t.cycles[id] == NewCycle.(phase := Checking, job := job, attempt := t.jobs[job].attempt)
    && t.now == w.now && t.maxAttempts == w.maxAttempts && t.leaseSeconds == w.leaseSeconds && !t.stopping
  }

  lemma Begins(w: Worker, id: nat) returns (run: seq<Event>, t: Worker)
    requires id !in w.cycles && !w.stopping && w.permits > 0
    ensures Leads(w, run, t) && t == w.(cycles := w.cycles[id := NewCycle.(phase := Claiming)], permits := w.permits - 1)
  {
    hide Leads;
    run, t := Stay(w);
    run, t := Then(w, run, t, Spawn(id));
    run, t := Then(w, run, t, Do(id, Acquire));
  }

  lemma FindsJob(w: Worker, id: nat, job: nat)
    requires id in w.cycles && w.cycles[id] == NewCycle.(phase := Claiming) && job in w.jobs && Claimable(w.jobs[job], w.now)
    ensures Enabled(w, Do(id, Finds(job)))
    ensures
      var row := ClaimedBy(w.jobs[job], Cycle(id), w.now + w.leaseSeconds);
      var c := NewCycle.(phase := Claimed, job := job, attempt := row.attempt);
      Apply(w, Do(id, Finds(job))) == w.(cycles := w.cycles[id := c], jobs := w.jobs[job := row])
  {
  }

  /** What one step of a cycle touches. */
  lemma DoTouches(w: Worker, id: nat, step: Step)
    requires CanDo(w, id, step)
    ensures
      var t := Apply(w, Do(id, step));
      && t.cycles == w.cycles[id := CycleAfter(w, id, step)] && t.jobs == JobsAfter(w, id, step)
      && t.now == w.now && t.maxAttempts == w.maxAttempts && t.leaseSeconds == w.leaseSeconds && t.stopping == w.stopping
  {
    hide CycleAfter, JobsAfter, Listing, Permits;
  }

  predicate OffRows(step: Step) {
    step.ClaimReturns? || step.CancelChecked? || step.CleanupEnds? || step.PipelineEnds?
  }

  lemma RowsUntouched(w: Worker, id: nat, step: Step)
    requires CanDo(w, id, step) && OffRows(step)
    ensures JobsAfter(w, id, step) == w.jobs
  {
    hide StandingOf, Stepped, ClaimedBy, Ready;
    var c := w.cycles[id];
    if c.job in w.jobs {
      assert RowAfter(w, id, c, w.jobs[c.job], step, Now(w, id)) == w.jobs[c.job];
    }
  }

  lemma RowSettled(w: Worker, id: nat, step: Step)
    requires CanDo(w, id, step) && (step.PipelineCommits? || (step.FinishReturns? && Now(w, id) == Cancelling))
    ensures w.cycles[id].job in w.jobs
    ensures JobsAfter(w, id, step) == w.jobs[w.cycles[id].job := Left(w.jobs[w.cycles[id].job], Final)]
  {
    hide Stepped, ClaimedBy;
  }

  lemma ClaimReachesCycle(w: Worker, id: nat)
    requires id in w.cycles && w.cycles[id].phase == Claimed && !w.stopping
    ensures CanDo(w, id, ClaimReturns) && CycleAfter(w, id, ClaimReturns) == w.cycles[id].(phase := Checking)
  {
    hide ClaimedBy, Claimable;
  }

  lemma ClaimReaches(w: Worker, id: nat)
    requires id in w.cycles && w.cycles[id].phase == Claimed && !w.stopping
    ensures Enabled(w, Do(id, ClaimReturns))
    ensures
      var c, t := w.cycles[id], Apply(w, Do(id, ClaimReturns));
      && t.cycles == w.cycles[id := c.(phase := Checking)] && t.jobs == w.jobs
      && t.now == w.now && t.maxAttempts == w.maxAttempts && t.leaseSeconds == w.leaseSeconds && !t.stopping
  {
    hide Apply, CycleAfter, JobsAfter, StandingOf;
    var step := ClaimReturns;
    DoTouches(w, id, step);
    RowsUntouched(w, id, step);
    ClaimReachesCycle(w, id);
  }

  lemma ClaimsJob(w: Worker, id: nat, job: nat) returns (run: seq<Event>, t: Worker)
    requires id !in w.cycles && !w.stopping && w.permits > 0 && job in w.jobs && Claimable(w.jobs[job], w.now)
    ensures Leads(w, run, t) && HasClaimed(w, t, id, job)
  {
    hide Leads, Enabled, Apply, ClaimedBy, Claimable;
    run, t := Begins(w, id);
    FindsJob(t, id, job);
    run, t := Then(w, run, t, Do(id, Finds(job)));
    ClaimReaches(t, id);
    run, t := Then(w, run, t, Do(id, ClaimReturns));
  }

  lemma Stay(w: Worker) returns (run: seq<Event>, t: Worker)
    ensures Leads(w, run, t) && run == [] && t == w
  {
    run, t := [], w;
  }

  lemma CommitsCycle(w: Worker, id: nat)
    requires id in w.cycles && w.cycles[id].phase == Running && Now(w, id) == Fenced
    ensures CanDo(w, id, PipelineCommits) && CycleAfter(w, id, PipelineCommits) == w.cycles[id].(completed := true)
  {
    hide ClaimedBy, Claimable;
  }

  lemma Commits(w: Worker, id: nat)
    requires id in w.cycles && w.cycles[id].phase == Running && Now(w, id) == Fenced
    ensures w.cycles[id].job in w.jobs && Enabled(w, Do(id, PipelineCommits))
    ensures
      var c, t := w.cycles[id], Apply(w, Do(id, PipelineCommits));
      t.cycles == w.cycles[id := c.(completed := true)] && t.jobs == w.jobs[c.job := Left(w.jobs[c.job], Final)]
  {
    hide Apply, CycleAfter, JobsAfter, StandingOf;
    var step := PipelineCommits;
    DoTouches(w, id, step);
    RowSettled(w, id, step);
    CommitsCycle(w, id);
  }

  lemma EndsCompletedCycle(w: Worker, id: nat)
    requires id in w.cycles && w.cycles[id].phase == Running && w.cycles[id].completed
    ensures CanDo(w, id, PipelineEnds(PipelineCompleted)) && CycleAfter(w, id, PipelineEnds(PipelineCompleted)) == w.cycles[id].(phase := Ended)
  {
    hide ClaimedBy, Claimable;
  }

  lemma EndsCompleted(w: Worker, id: nat)
    requires id in w.cycles && w.cycles[id].phase == Running && w.cycles[id].completed
    ensures Enabled(w, Do(id, PipelineEnds(PipelineCompleted)))
    ensures
      var c, t := w.cycles[id], Apply(w, Do(id, PipelineEnds(PipelineCompleted)));
      t.cycles == w.cycles[id := c.(phase := Ended)] && t.jobs == w.jobs
  {
    hide Apply, CycleAfter, JobsAfter, StandingOf;
    var step := PipelineEnds(PipelineCompleted);
    DoTouches(w, id, step);
    RowsUntouched(w, id, step);
    EndsCompletedCycle(w, id);
  }

  /** A worker that is not stopping, has a free permit and finds a due job with an attempt left completes it, left alone. */
  lemma DueJobCompletes(w: Worker, id: nat, job: nat) returns (run: seq<Event>, t: Worker)
    requires id !in w.cycles && !w.stopping && w.permits > 0 && w.leaseSeconds > 0
    requires job in w.jobs && w.jobs[job].state == Due && w.jobs[job].attempt < w.maxAttempts
    ensures Leads(w, run, t) && id in t.cycles && t.cycles[id].completed && t.cycles[id].started && t.cycles[id].phase == Ended
    ensures job in t.jobs && t.jobs[job].state == Final && t.jobs[job].attempt == t.cycles[id].attempt == w.jobs[job].attempt + 1
  {
    hide Leads, Enabled, Apply;
    run, t := ClaimsJob(w, id, job);
    ClaimedJobsStart(t, id);
    run, t := Then(w, run, t, Do(id, CancelChecked));
    Commits(t, id);
    run, t := Then(w, run, t, Do(id, PipelineCommits));
    EndsCompleted(t, id);
    run, t := Then(w, run, t, Do(id, PipelineEnds(PipelineCompleted)));
  }

  lemma SeesCancellationCycle(w: Worker, id: nat)
    requires id in w.cycles && w.cycles[id].phase == Checking && Now(w, id) == Cancelling
    ensures CanDo(w, id, CancelChecked) && CycleAfter(w, id, CancelChecked) == w.cycles[id].(phase := Cleaning, cancelSeen := true)
  {
    hide ClaimedBy, Claimable;
  }

  lemma SeesCancellation(w: Worker, id: nat)
    requires id in w.cycles && w.cycles[id].phase == Checking && Now(w, id) == Cancelling
    ensures Enabled(w, Do(id, CancelChecked))
    ensures
      var c, t := w.cycles[id], Apply(w, Do(id, CancelChecked));
      t.cycles == w.cycles[id := c.(phase := Cleaning, cancelSeen := true)] && t.jobs == w.jobs && t.now == w.now
  {
    hide Apply, CycleAfter, JobsAfter, StandingOf;
    var step := CancelChecked;
    DoTouches(w, id, step);
    RowsUntouched(w, id, step);
    SeesCancellationCycle(w, id);
  }

  lemma CleansUpCycle(w: Worker, id: nat)
    requires id in w.cycles && w.cycles[id].phase == Cleaning
    ensures CanDo(w, id, CleanupEnds(CleanedUp)) && CycleAfter(w, id, CleanupEnds(CleanedUp)) == w.cycles[id].(phase := Finishing, cleaned := true)
  {
    hide ClaimedBy, Claimable;
  }

  lemma CleansUp(w: Worker, id: nat)
    requires id in w.cycles && w.cycles[id].phase == Cleaning
    ensures Enabled(w, Do(id, CleanupEnds(CleanedUp)))
    ensures
      var c, t := w.cycles[id], Apply(w, Do(id, CleanupEnds(CleanedUp)));
      t.cycles == w.cycles[id := c.(phase := Finishing, cleaned := true)] && t.jobs == w.jobs && t.now == w.now
  {
    hide Apply, CycleAfter, JobsAfter, StandingOf;
    var step := CleanupEnds(CleanedUp);
    DoTouches(w, id, step);
    RowsUntouched(w, id, step);
    CleansUpCycle(w, id);
  }

  lemma FinishesCancellationCycle(w: Worker, id: nat)
    requires id in w.cycles && w.cycles[id].phase == Finishing && Now(w, id) == Cancelling
    ensures CanDo(w, id, FinishReturns) && CycleAfter(w, id, FinishReturns) == w.cycles[id].(phase := Ended, cancelled := true)
  {
    hide ClaimedBy, Claimable;
  }

  lemma FinishesCancellation(w: Worker, id: nat)
    requires id in w.cycles && w.cycles[id].phase == Finishing && Now(w, id) == Cancelling
    ensures w.cycles[id].job in w.jobs && Enabled(w, Do(id, FinishReturns))
    ensures
      var c, t := w.cycles[id], Apply(w, Do(id, FinishReturns));
      && t.cycles == w.cycles[id := c.(phase := Ended, cancelled := true)]
      && t.jobs == w.jobs[c.job := Left(w.jobs[c.job], Final)]
  {
    hide Apply, CycleAfter, JobsAfter, StandingOf;
    var step := FinishReturns;
    DoTouches(w, id, step);
    RowSettled(w, id, step);
    FinishesCancellationCycle(w, id);
  }

  /** A cancelled job whose lease is over is claimed, cleaned up and brought to its end without being run, on any attempt. */
  lemma CancelledJobIsCleanedUp(w: Worker, id: nat, job: nat) returns (run: seq<Event>, t: Worker)
    requires id !in w.cycles && !w.stopping && w.permits > 0 && w.leaseSeconds > 0
    requires job in w.jobs && w.jobs[job].state == Leased && w.jobs[job].cancelRequested && w.jobs[job].until <= w.now
    ensures Leads(w, run, t) && id in t.cycles && t.cycles[id].cancelled && t.cycles[id].cleaned && t.cycles[id].phase == Ended
    ensures job in t.jobs && t.jobs[job].state == Final && !t.cycles[id].started
  {
    hide Leads, Enabled, Apply;
    run, t := ClaimsJob(w, id, job);
    SeesCancellation(t, id);
    run, t := Then(w, run, t, Do(id, CancelChecked));
    CleansUp(t, id);
    run, t := Then(w, run, t, Do(id, CleanupEnds(CleanedUp)));
    FinishesCancellation(t, id);
    run, t := Then(w, run, t, Do(id, FinishReturns));
  }

  /** A renewal, of a running attempt or of a clean-up, keeps the claim as it stands for the whole lease. */
  lemma RenewalLasts(w: Worker, id: nat, step: Step, ticks: nat)
    requires id in w.cycles && Enabled(w, Do(id, step)) && (step == PipelineRenews || step == CleanupRenews)
    requires ticks < w.leaseSeconds
    ensures
      var t := Apply(w, Do(id, step));
      t.cycles[id] == w.cycles[id] && Now(t.(now := w.now + ticks), id) == Now(w, id) != Gone
  {
    hide ClaimedBy, Claimable;
  }

  /** A late claim that still stands is given back: the job is due again under the attempt it had. */
  lemma LateClaimIsGivenBack(w: Worker, id: nat)
    requires id in w.cycles && w.cycles[id].phase == Releasing && Now(w, id) == Fenced && w.cycles[id].attempt > 0
    ensures Enabled(w, Do(id, ReleaseReturns))
    ensures
      var t := Apply(w, Do(id, ReleaseReturns));
      w.cycles[id].job in t.jobs && t.jobs[w.cycles[id].job] == Row(Due, w.cycles[id].attempt - 1, Nobody, w.jobs[w.cycles[id].job].until, false)
  {
  }

  lemma StartsWith(w: Worker, e: Event, run: seq<Event>, t: Worker)
    requires Enabled(w, e) && Leads(Apply(w, e), run, t)
    ensures Leads(w, [e] + run, t)
  {
    hide Enabled, Apply;
    assert ([e] + run)[0] == e && ([e] + run)[1..] == run;
  }

  /** From the start: an enqueued job is claimed by the first cycle and ends completed. */
  lemma EnqueuedJobCompletes(concurrency: nat, maxAttempts: nat, leaseSeconds: nat, job: nat) returns (run: seq<Event>, t: Worker)
    requires concurrency > 0 && maxAttempts > 0 && leaseSeconds > 0
    ensures Reached(concurrency, maxAttempts, leaseSeconds, [Enqueue(job)] + run, t)
    ensures 0 in t.cycles && t.cycles[0].completed && t.cycles[0].attempt == 1 && job in t.jobs && t.jobs[job].state == Final
  {
    var start := Initial(concurrency, maxAttempts, leaseSeconds);
    var w := Apply(start, Enqueue(job));
    run, t := DueJobCompletes(w, 0, job);
    StartsWith(start, Enqueue(job), run, t);
  }
}
