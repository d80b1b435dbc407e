/**
 One recorded-video job as a machine of small steps: the durable store (the leased job row, its
 recorded steps, the attempt-scoped manifests on disk and the search projection) and every worker
 process that ever claimed the job. A process may stall for any time between two of its steps, may die
 at any step, and keeps running after its lease is gone until one of its own fences notices.

 Time is a natural number. A digest is a constructor application, so equal digests mean equal contents.
 A stage body is a relation: the same stage may answer differently on another attempt.
 */
module Engine {
  import opened Options
  import opened Projection

  datatype JobStatus = Queued | Running | RetryWait | Completed | Failed | Cancelled

  // Checkpointed stages in order, then the publish stage.
  const PROBING := 0
  const SEGMENTING := 1
  const EXTRACTING := 2
  const ANALYZING := 3
  const EMBEDDING := 4
  const INDEXING := 5
  const PUBLISH := 6

  datatype Output = Output(body: int, documents: seq<Document>)

  datatype Digest = SourceDigest(source: int) | OutputDigest(output: Output)

  datatype Entry = Entry(input: Digest, checksum: Digest, output: Output) {
    predicate Intact() { checksum == OutputDigest(output) }
  }

  datatype Manifest = Manifest(identity: int, stages: map<nat, Entry>)

  // `manifest` is the attempt whose manifest key the step carries.
  datatype StepRow = StepRow(manifest: nat, checksum: Digest)

  datatype Lease = Lease(owner: nat, until: nat)

  /** Everything about a job that its processes cannot change. */
  datatype World = World(
    assetId: string,
    jobId: string,
    source: int,
    maxAttempts: nat,
    leaseSeconds: nat,
    identity: nat -> int,                              // configuration of the worker that runs an attempt
    produces: (nat, nat, seq<Output>, Output) -> bool, // stage, attempt, earlier outputs, output
    accepts: (nat, seq<Output>, Output) -> bool)       // validators, without the attempt check of indexing

  /** What survives a crash of every process. */
  datatype Store = Store(
    now: nat,
    status: JobStatus,
    attempt: nat,
    lease: Option<Lease>,
    cancelRequested: bool,
    nextRunAt: Option<nat>,
    stage: Option<nat>,
    steps: map<nat, StepRow>,
    disk: map<nat, Manifest>,
    docs: Index,
    deletionRequested: bool,
    deleted: bool,
    // history, read by no guard
    lastStarted: nat,            // highest attempt that passed the starting fence
    damaged: set<nat>,           // manifests damaged since they were last written
    completedBy: nat,            // the claim that committed the completion
    projectionDeleted: bool)     // a document was removed by the deletion of the asset

  datatype Pc =
    | Claimed
    | Opening
    | Deciding
    | Adopting(found: Entry)
    | Resetting
    | Executing
    | Writing(output: Output)
    | Recording(output: Output)
    | Projecting(sent: nat, refused: bool)
    | WritingPublish
    | Completing
    | Committed
    | RollingBack(todo: set<SegmentId>, retryable: bool)
    | CleaningUp(todo: set<SegmentId>)
    | CleanedUp
    | Errored(retryable: bool, rolledBack: bool)
    | Done
    | Dead

  /** One claim of the job by one worker process, with the local variables of its pipeline run. */
  datatype Runner = Runner(
    attempt: nat,
    pc: Pc,
    cleared: bool,               // the last fence passed and no awaited operation ran since
    started: bool,               // passed the starting fence of the pipeline
    mem: map<nat, Entry>,        // stages of the manifest under construction
    stored: map<nat, StepRow>,   // recorded steps as this run knows them
    outs: seq<Output>,           // outputs of the stages this run is done with
    executed: seq<bool>,         // for each of them, executed here rather than reused
    projecting: bool,            // the projection call has been entered
    interrupted: bool,           // an exception followed the completing commit
    swept: bool)                 // the worker cleaned up once more after the pipeline had ended

  datatype State = State(store: Store, runners: map<nat, Runner>)

  const Initial :=
    State(Store(0, Queued, 0, None, false, Some(0), None, map[], map[], map[], false, false, 0, {}, 0, false), map[])

  // ---- shared definitions ----

  function InputDigest(w: World, outs: seq<Output>): Digest {
    if outs == [] then SourceDigest(w.source) else OutputDigest(outs[|outs| - 1])
  }

  predicate DocumentsBound(w: World, attempt: nat, documents: seq<Document>) {
    && documents != []
    && DistinctIds(documents)
    && forall i :: 0 <= i < |documents| ==>
         ValidDocument(documents[i]) && OwnedBy(documents[i], w.assetId, w.jobId, attempt)
  }

  /** The validator of a stage; only the one of the indexing stage looks at the attempt. */
  predicate Validates(w: World, k: nat, attempt: nat, outs: seq<Output>, o: Output) {
    && w.accepts(k, outs, o)
    && (k == INDEXING ==> DocumentsBound(w, attempt, o.documents))
  }

  predicate LeaseFree(st: Store) {
    st.lease.None? || st.lease.value.until <= st.now
  }

  predicate Holds(st: Store, id: nat) {
    st.lease.Some? && st.lease.value.owner == id
  }

  predicate LeaseLive(st: Store, id: nat, r: Runner) {
    st.status == Running && Holds(st, id) && st.lease.value.until > st.now && st.attempt == r.attempt && !st.deleted
  }

  /** The transaction fence of the job row: the live lease of exactly this claim and no cancellation. */
  predicate Fenced(st: Store, id: nat, r: Runner) {
    LeaseLive(st, id, r) && !st.cancelRequested
  }

  /** Retry delays in seconds by attempt, the last one repeating. */
  function Backoff(attempt: nat): nat {
    if attempt <= 1 then 30 else if attempt == 2 then 120 else 600
  }

  function OfAttempt(docs: Index, attempt: nat): set<SegmentId> {
    set d | d in docs && docs[d].jobAttempt == attempt
  }

  function Below<T>(m: map<nat, T>, k: nat): map<nat, T> {
    map i | i in m && i < k :: m[i]
  }

  function LatestBelow(steps: map<nat, StepRow>, k: nat): Option<nat> {
    if k == 0 then None
    else if k - 1 in steps then Some(k - 1)
    else LatestBelow(steps, k - 1)
  }

  // ---- a stage: reuse, adopt, or execute ----

  function Candidate(r: Runner): nat {
    if |r.outs| in r.stored then r.stored[|r.outs|].manifest else r.attempt
  }

  /** Whether the checkpoint of the next stage may be reused; `artifactsMatch` is the streamed file check. */
  predicate Reusable(w: World, st: Store, r: Runner, artifactsMatch: bool) {
    var k := |r.outs|;
    var c := Candidate(r);
    && artifactsMatch
    && c in st.disk
    && st.disk[c].identity == w.identity(r.attempt)
    && k in st.disk[c].stages
    && var e := st.disk[c].stages[k];
       && e.Intact()
       && e.input == InputDigest(w, r.outs)
       && (k in r.stored ==> r.stored[k].checksum == e.checksum)
       && Validates(w, k, r.attempt, r.outs, e.output)
  }

  /** A step may be recorded when it repeats the recorded one or does not go back behind the current stage. */
  predicate CheckpointFits(st: Store, k: nat, row: StepRow) {
    if k in st.steps then st.steps[k] == row else st.stage.Some? ==> st.stage.value <= k
  }

  function Checkpointed(st: Store, k: nat, row: StepRow): Store {
    if k in st.steps then st else st.(steps := st.steps[k := row], stage := Some(k))
  }

  // ---- events ----

  /** What happens around the worker processes: time, other transactions, the operator, the disk. */
  datatype Change =
    | Tick
    | Promote
    | Recover
    | RequestCancel
    | RetryFailed
    | RequestDeletion
    | DeleteDocument(id: SegmentId)
    | Finalize
    | Damage(attempt: nat, found: Manifest)

  /** One atomic step of one worker process. */
  datatype Action =
    // the worker around the pipeline
    | Renew
    | RenewCleanup
    | Release
    | Refuse
    | ScheduleRetry
    | MarkFailed
    | FinishCancel
    | Die
    // the stages
    | Fence
    | SawCancel
    | Start
    | ReadSteps
    | Decide(artifactsMatch: bool)
    | Adopt
    | Reset
    | Execute(output: Output)
    | WriteManifest
    | Record
    // publication and compensation
    | BeginPublish
    | ProjectDocument(accepted: bool)
    | Acknowledge
    | WritePublish
    | Complete
    | Return
    | Interrupt
    | Fail(retryable: bool)
    | RemoveDocument(id: SegmentId)
    | EndRollback(succeeded: bool)
    | EndCleanup

  datatype Event = Environment(change: Change) | Claim(runner: nat) | Act(runner: nat, action: Action)

  // ---- the environment ----

  predicate MayChange(w: World, st: Store, c: Change) {
    match c
    case Tick => true
    case Promote =>
      !st.deleted && st.status == RetryWait && !st.deletionRequested && st.nextRunAt.Some? && st.nextRunAt.value <= st.now
    case Recover => !st.deleted && st.status == Running && st.lease.Some? && st.lease.value.until <= st.now
    case RequestCancel => !st.deleted
    case RetryFailed => !st.deleted && st.status == Failed && !st.deletionRequested
    case RequestDeletion => !st.deleted
    case DeleteDocument(_) => st.deletionRequested && !st.deleted && st.status != Running
    case Finalize => st.deletionRequested && !st.deleted && st.status != Running
    case Damage(a, m) =>
      && a in st.disk && m.identity == st.disk[a].identity
      && forall k :: k in m.stages ==> !m.stages[k].Intact() || (k in st.disk[a].stages && m.stages[k] == st.disk[a].stages[k])
  }

  /** Waiting jobs are cancelled at once; a running one is asked to, and loses a lease that is over. */
  function Cancelling(st: Store): Store {
    var waiting := st.status == Queued || st.status == RetryWait;
    st.(status := if waiting then Cancelled else st.status,
        lease := if waiting || (st.status == Running && LeaseFree(st)) then None else st.lease,
        cancelRequested := st.cancelRequested || st.status == Running)
  }

  function Changed(w: World, st: Store, c: Change): Store
    requires MayChange(w, st, c)
  {
    match c
    case Tick => st.(now := st.now + 1)
    case Promote => st.(status := Queued)
    case Recover =>
      if st.cancelRequested || st.deletionRequested then st.(nextRunAt := None, lease := None, cancelRequested := true)
      else st.(status := Queued, nextRunAt := Some(st.now), lease := None)
    case RequestCancel => Cancelling(st)
    case RetryFailed => st.(status := Queued, nextRunAt := Some(st.now), lease := None, cancelRequested := false)
    case RequestDeletion => Cancelling(st).(deletionRequested := true)
    case DeleteDocument(d) => st.(docs := st.docs - {d}, projectionDeleted := true)
    case Finalize => st.(deleted := true, steps := map[], stage := None)
    case Damage(a, m) => st.(disk := st.disk[a := m], damaged := st.damaged + {a})
  }

  // ---- claiming ----

  predicate CleanupDue(st: Store) {
    !st.deleted && st.status == Running && st.cancelRequested && LeaseFree(st)
  }

  predicate RunDue(st: Store) {
    !st.deleted && st.status == Queued && !st.deletionRequested && (st.nextRunAt.Some? ==> st.nextRunAt.value <= st.now)
  }

  function NewRunner(attempt: nat): Runner {
    Runner(attempt, Claimed, false, false, map[], map[], [], [], false, false, false)
  }

  /** A cancelled running job is claimed for clean-up under its own attempt, a queued one under the next. */
  function ClaimedStore(w: World, st: Store, id: nat): Store
    requires CleanupDue(st) || RunDue(st)
  {
    var lease := Some(Lease(id, st.now + w.leaseSeconds));
    if CleanupDue(st) then st.(lease := lease)
    else st.(status := Running, attempt := st.attempt + 1, lease := lease, cancelRequested := false)
  }

  // ---- one process ----

  predicate InPipeline(pc: Pc) {
    pc.Opening? || pc.Deciding? || pc.Adopting? || pc.Resetting? || pc.Executing? || pc.Writing? || pc.Recording? ||
    pc.Projecting? || pc.WritingPublish? || pc.Completing?
  }

  predicate Removing(pc: Pc, d: SegmentId) {
    (pc.RollingBack? && d in pc.todo) || (pc.CleaningUp? && d in pc.todo)
  }

  predicate Can(w: World, st: Store, id: nat, r: Runner, a: Action) {
    match a
    case Renew => Fenced(st, id, r)
    case RenewCleanup => LeaseLive(st, id, r) && st.cancelRequested
    case Release => Fenced(st, id, r) && r.pc == Claimed && st.attempt > 0
    case Refuse => r.pc == Claimed && r.attempt > w.maxAttempts
    case ScheduleRetry => Fenced(st, id, r) && r.pc.Errored? && r.pc.retryable && r.attempt < w.maxAttempts
    case MarkFailed => Fenced(st, id, r) && r.pc.Errored? && !(r.pc.retryable && r.attempt < w.maxAttempts)
    case FinishCancel => LeaseLive(st, id, r) && st.cancelRequested && r.pc == CleanedUp
    case Die => true
    case Fence => Fenced(st, id, r) && InPipeline(r.pc)
    case SawCancel =>
      LeaseLive(st, id, r) && st.cancelRequested && (r.pc == Claimed || (r.pc.Errored? && !r.swept) || InPipeline(r.pc))
    case Start => Fenced(st, id, r) && r.pc == Claimed && r.attempt <= w.maxAttempts
    case ReadSteps => r.pc == Opening && r.cleared
    case Decide(artifactsMatch) =>
      r.pc == Deciding && r.cleared && |r.outs| < PUBLISH && (|r.outs| != EXTRACTING ==> artifactsMatch)
    case Adopt =>
      LeaseLive(st, id, r) && r.pc.Adopting? && CheckpointFits(st, |r.outs|, StepRow(r.attempt, r.pc.found.checksum))
    case Reset => Fenced(st, id, r) && r.pc == Resetting
    case Execute(o) =>
      && r.pc == Executing && r.cleared
      && w.produces(|r.outs|, r.attempt, r.outs, o) && Validates(w, |r.outs|, r.attempt, r.outs, o)
    case WriteManifest => r.pc.Writing? && r.cleared
    case Record =>
      LeaseLive(st, id, r) && r.pc.Recording? && CheckpointFits(st, |r.outs|, StepRow(r.attempt, OutputDigest(r.pc.output)))
    case BeginPublish => r.pc == Deciding && r.cleared && |r.outs| == PUBLISH
    case ProjectDocument(_) => r.pc.Projecting? && |r.outs| == PUBLISH && r.pc.sent < |r.outs[INDEXING].documents|
    case Acknowledge =>
      && r.pc.Projecting? && r.cleared && |r.outs| == PUBLISH
      && !r.pc.refused && r.pc.sent == |r.outs[INDEXING].documents|
    case WritePublish => r.pc == WritingPublish && r.cleared && |r.outs| == PUBLISH
    case Complete =>
      && Fenced(st, id, r) && r.pc == Completing && r.cleared
      && (forall k: nat :: k < PUBLISH ==> k in st.steps)
      && PUBLISH in r.mem
      && (PUBLISH in st.steps ==> st.steps[PUBLISH] == StepRow(r.attempt, r.mem[PUBLISH].checksum))
    case Return => r.pc == Committed
    case Interrupt => r.pc == Committed
    case Fail(_) => r.pc == Claimed || InPipeline(r.pc) || r.pc.CleaningUp?
    case RemoveDocument(d) => Removing(r.pc, d)
    case EndRollback(succeeded) => r.pc.RollingBack? && (succeeded ==> r.pc.todo == {})
    case EndCleanup => r.pc.CleaningUp? && r.pc.todo == {}
  }

  /** Where the process goes on. */
  function PcAfter(w: World, st: Store, id: nat, r: Runner, a: Action): Pc
    requires Can(w, st, id, r, a)
  {
    match a
    case Renew | RenewCleanup | Fence => r.pc
    case Release | ScheduleRetry | MarkFailed | FinishCancel | Return => Done
    case Refuse => Errored(false, false)
    case Die => Dead
    case SawCancel => CleaningUp(OfAttempt(st.docs, r.attempt))
    case Start => Opening
    case ReadSteps | Adopt | Record => Deciding
    case Decide(artifactsMatch) =>
      if Reusable(w, st, r, artifactsMatch) then
        if |r.outs| in r.stored then Deciding else Adopting(st.disk[Candidate(r)].stages[|r.outs|])
      else if |r.outs| in r.stored then Resetting
      else Executing
    case Reset => Executing
    case Execute(o) => Writing(o)
    case WriteManifest => Recording(r.pc.output)
    case BeginPublish => Projecting(0, false)
    case ProjectDocument(accepted) => Projecting(r.pc.sent + 1, r.pc.refused || !accepted)
    case Acknowledge => WritingPublish
    case WritePublish => Completing
    case Complete => Committed
    case Interrupt => RollingBack(OfAttempt(st.docs, r.attempt), false)
    case Fail(retryable) =>
      if r.projecting && !r.swept then RollingBack(OfAttempt(st.docs, r.attempt), retryable) else Errored(retryable, false)
    case RemoveDocument(d) =>
      if r.pc.RollingBack? then RollingBack(r.pc.todo - {d}, r.pc.retryable) else CleaningUp(r.pc.todo - {d})
    case EndRollback(succeeded) => Errored(r.pc.retryable, succeeded)
    case EndCleanup => CleanedUp
  }

  /** The manifest under construction; a stage that is not reused is taken out of it. */
  function MemAfter(w: World, st: Store, id: nat, r: Runner, a: Action): map<nat, Entry>
    requires Can(w, st, id, r, a)
  {
    match a
    case Decide(artifactsMatch) =>
      if Reusable(w, st, r, artifactsMatch) then r.mem[|r.outs| := st.disk[Candidate(r)].stages[|r.outs|]]
      else Below(r.mem, |r.outs|)
    case WriteManifest => r.mem[|r.outs| := Entry(InputDigest(w, r.outs), OutputDigest(r.pc.output), r.pc.output)]
    case WritePublish =>
      var o := Output(-1, r.outs[INDEXING].documents);
      r.mem[PUBLISH := Entry(InputDigest(w, r.outs), OutputDigest(o), o)]
    case _ => r.mem
  }

  function StoredAfter(w: World, st: Store, id: nat, r: Runner, a: Action): map<nat, StepRow>
    requires Can(w, st, id, r, a)
  {
    match a
    case ReadSteps => st.steps
    case Reset => Below(r.stored, |r.outs|)
    case Adopt => r.stored[|r.outs| := StepRow(r.attempt, r.pc.found.checksum)]
    case Record => r.stored[|r.outs| := StepRow(r.attempt, OutputDigest(r.pc.output))]
    case _ => r.stored
  }

  /** The stage the process gets done with, if any. */
  function Passed(w: World, st: Store, id: nat, r: Runner, a: Action): Option<Output>
    requires Can(w, st, id, r, a)
  {
    match a
    case Decide(artifactsMatch) =>
      if Reusable(w, st, r, artifactsMatch) && |r.outs| in r.stored then Some(st.disk[Candidate(r)].stages[|r.outs|].output)
      else None
    case Adopt => Some(r.pc.found.output)
    case Record => Some(r.pc.output)
    case _ => None
  }

  /** The process after its step. */
  function Moved(w: World, st: Store, id: nat, r: Runner, a: Action): Runner
    requires Can(w, st, id, r, a)
  {
    var passed := Passed(w, st, id, r, a);
    Runner(
      r.attempt,
      PcAfter(w, st, id, r, a),
      a.Fence? || (r.cleared && (a.Renew? || a.RenewCleanup?)),
      r.started || a.Start?,
      MemAfter(w, st, id, r, a),
      StoredAfter(w, st, id, r, a),
      if passed.Some? then r.outs + [passed.value] else r.outs,
      if passed.Some? then r.executed + [a.Record?] else r.executed,
      r.projecting || a.BeginPublish?,
      r.interrupted || a.Interrupt?,
      r.swept || (a.SawCancel? && r.pc.Errored?))
  }

  /** The store after the step of a process. */
  function Stepped(w: World, st: Store, id: nat, r: Runner, a: Action): Store
    requires Can(w, st, id, r, a)
  {
    match a
    case Renew | RenewCleanup => st.(lease := Some(Lease(id, st.now + w.leaseSeconds)))
    case Release => st.(status := RetryWait, attempt := st.attempt - 1, nextRunAt := Some(st.now), lease := None)
    case ScheduleRetry => st.(status := RetryWait, nextRunAt := Some(st.now + Backoff(st.attempt)), lease := None)
    case MarkFailed => st.(status := Failed, nextRunAt := None, lease := None)
    case FinishCancel => st.(status := Cancelled, nextRunAt := None, lease := None, cancelRequested := false)
    case Start => st.(lastStarted := r.attempt)
    case Adopt => Checkpointed(st, |r.outs|, StepRow(r.attempt, r.pc.found.checksum))
    case Reset => st.(steps := Below(st.steps, |r.outs|), stage := LatestBelow(st.steps, |r.outs|))
    case WriteManifest | WritePublish =>
      st.(disk := st.disk[r.attempt := Manifest(w.identity(r.attempt), MemAfter(w, st, id, r, a))], damaged := st.damaged - {r.attempt})
    case Record => Checkpointed(st, |r.outs|, StepRow(r.attempt, OutputDigest(r.pc.output)))
    case ProjectDocument(accepted) =>
      if accepted then st.(docs := Upsert(st.docs, r.outs[INDEXING].documents[r.pc.sent], r.attempt)) else st
    case Complete =>
      st.(status := Completed, stage := Some(PUBLISH), nextRunAt := None, lease := None, completedBy := id,
          steps := st.steps[PUBLISH := StepRow(r.attempt, r.mem[PUBLISH].checksum)])
    case RemoveDocument(d) => st.(docs := RemoveOwned(st.docs, d, w.assetId, w.jobId, r.attempt))
    case _ => st
  }

  // ---- the machine and its runs ----

  predicate Enabled(w: World, s: State, e: Event) {
    match e
    case Environment(c) => MayChange(w, s.store, c)
    case Claim(id) => id !in s.runners && (CleanupDue(s.store) || RunDue(s.store))
    case Act(id, a) => id in s.runners && Can(w, s.store, id, s.runners[id], a)
  }

  function Apply(w: World, s: State, e: Event): State
    requires Enabled(w, s, e)
  {
    match e
    case Environment(c) => State(Changed(w, s.store, c), s.runners)
    case Claim(id) =>
      var st := ClaimedStore(w, s.store, id);
      State(st, s.runners[id := NewRunner(st.attempt)])
    case Act(id, a) =>
      State(Stepped(w, s.store, id, s.runners[id], a), s.runners[id := Moved(w, s.store, id, s.runners[id], a)])
  }

  /** A run is legal when every event is enabled where it happens. */
  predicate Legal(w: World, s: State, run: seq<Event>)
    decreases |run|
  {
    run == [] || (Enabled(w, s, run[0]) && Legal(w, Apply(w, s, run[0]), run[1..]))
  }

  function After(w: World, s: State, run: seq<Event>): State
    requires Legal(w, s, run)
    decreases |run|
  {
    if run == [] then s else After(w, Apply(w, s, run[0]), run[1..])
  }
}
