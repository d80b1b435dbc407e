/** The inductive invariant of the job machine: what the store keeps, and how each process fits the store. */
module EngineInvariant {
  import opened Options
  import opened Projection
  import opened Engine

  type StepTable = map<nat, StepRow>
  type Files = map<nat, Manifest>

  // ---- recorded steps ----

  function Next(stage: Option<nat>): nat {
    if stage.Some? then stage.value + 1 else 0
  }

  function RecordedOutput(steps: StepTable, k: nat): Output
    requires k in steps
  {
    if steps[k].checksum.OutputDigest? then steps[k].checksum.output else Output(0, [])
  }

  function RecordedOutputs(steps: StepTable, k: nat): (r: seq<Output>)
    requires forall i: nat :: i < k ==> i in steps
    ensures |r| == k
    ensures forall i :: 0 <= i < k ==> r[i] == RecordedOutput(steps, i)
  {
    seq(k, i requires 0 <= i < k => RecordedOutput(steps, i))
  }

  /** A recorded output was produced and validated by its attempt from exactly the recorded outputs before it. */
  ghost predicate StepLinked(w: World, steps: StepTable, k: nat) {
    && (forall i: nat :: i <= k ==> i in steps)
    && steps[k].checksum.OutputDigest?
    && w.produces(k, steps[k].manifest, RecordedOutputs(steps, k), RecordedOutput(steps, k))
    && Validates(w, k, steps[k].manifest, RecordedOutputs(steps, k), RecordedOutput(steps, k))
  }

  ghost predicate Steps(w: World, steps: StepTable, stage: Option<nat>, last: nat) {
    && Next(stage) <= PUBLISH + 1
    && (forall k: nat :: k in steps <==> k < Next(stage))
    && (forall k: nat :: k in steps ==> 1 <= steps[k].manifest <= last)
    && (forall j: nat, k: nat :: j < k && j in steps && k in steps ==> steps[j].manifest <= steps[k].manifest)
    && (forall k: nat :: k in steps && k < PUBLISH ==> StepLinked(w, steps, k))
  }

  // ---- row, disk and index ----

  predicate Row(st: Store) {
    && (st.lease.Some? ==> st.status == Running && !st.deleted)
    && st.lastStarted <= st.attempt
    && (st.cancelRequested ==> st.status == Running)
    && (st.deleted ==> st.status != Running)
    && (st.projectionDeleted ==> st.deletionRequested && st.status != Running)
    && (st.stage == Some(PUBLISH) <==> st.status == Completed && !st.deleted)
  }

  function CanonicalEntry(w: World, outs: seq<Output>, k: nat): Entry
    requires k < |outs|
  {
    Entry(InputDigest(w, outs[..k]), OutputDigest(outs[k]), outs[k])
  }

  /** The manifest a recorded step points to holds that step's entry, chained to the step before it. */
  ghost predicate OnDisk(w: World, steps: StepTable, disk: Files, damaged: set<nat>, k: nat) {
    && (forall i: nat :: i <= k ==> i in steps)
    && var a := steps[k].manifest;
       a !in damaged ==>
         && a in disk && k in disk[a].stages
         && disk[a].stages[k] == CanonicalEntry(w, RecordedOutputs(steps, k + 1), k)
  }

  ghost predicate Checkpoints(w: World, steps: StepTable, disk: Files, damaged: set<nat>) {
    forall k: nat :: k in steps && k < PUBLISH ==> OnDisk(w, steps, disk, damaged, k)
  }

  ghost predicate Disk(w: World, disk: Files, last: nat) {
    forall a :: a in disk ==> 1 <= a <= last && disk[a].identity == w.identity(a)
  }

  ghost predicate Documents(docs: Index, last: nat) {
    forall d :: d in docs ==> docs[d].id == d && 1 <= docs[d].jobAttempt <= last
  }

  ghost predicate StoreInv(w: World, st: Store) {
    && Row(st)
    && Steps(w, st.steps, st.stage, st.lastStarted)
    && Disk(w, st.disk, st.lastStarted)
    && Checkpoints(w, st.steps, st.disk, st.damaged)
    && Documents(st.docs, st.lastStarted)
  }

  // ---- one process on its own ----

  predicate InStages(pc: Pc) {
    pc.Deciding? || pc.Adopting? || pc.Resetting? || pc.Executing? || pc.Writing? || pc.Recording?
  }

  predicate Publishing(pc: Pc) {
    pc.Projecting? || pc.WritingPublish? || pc.Completing? || pc.Committed?
  }

  predicate PastReading(pc: Pc) {
    InStages(pc) || (Publishing(pc) && !pc.Committed?)
  }

  ghost predicate Produced(w: World, r: Runner, o: Output) {
    w.produces(|r.outs|, r.attempt, r.outs, o) && Validates(w, |r.outs|, r.attempt, r.outs, o)
  }

  /** The manifest a run builds holds its own chain of outputs. */
  ghost predicate Chain(w: World, outs: seq<Output>, mem: map<nat, Entry>) {
    forall k :: 0 <= k < |outs| ==> k in mem && mem[k] == CanonicalEntry(w, outs, k)
  }

  ghost predicate KeysBelow<T>(m: map<nat, T>, n: nat) {
    forall k: nat :: k in m ==> k < n
  }

  /** One stage more than the run is done with while its entry waits to be recorded, and the publish entry at the end. */
  function MemBound(r: Runner): nat {
    if r.pc.Recording? || |r.outs| == PUBLISH then |r.outs| + 1 else |r.outs|
  }

  ghost predicate Memory(w: World, r: Runner) {
    && Chain(w, r.outs, r.mem)
    && (InPipeline(r.pc) ==> KeysBelow(r.mem, MemBound(r)))
    && (r.pc.Recording? ==>
          |r.outs| in r.mem && r.mem[|r.outs|] == Entry(InputDigest(w, r.outs), OutputDigest(r.pc.output), r.pc.output))
    && (r.pc.Completing? ==> PUBLISH in r.mem && r.mem[PUBLISH].checksum.OutputDigest?)
  }

  ghost predicate Shape(w: World, r: Runner) {
    && |r.executed| == |r.outs| <= PUBLISH
    && !r.pc.Adopting?
    && (InPipeline(r.pc) ==> r.started)
    && (r.started ==> r.pc != Claimed)
    && (!r.started ==> r.outs == [] && r.mem == map[] && !r.projecting && !Publishing(r.pc) && !r.pc.RollingBack? && !r.interrupted)
    && (r.pc.Opening? ==> r.outs == [] && r.mem == map[])
    && (InStages(r.pc) || r.pc.Opening? ==> !r.projecting)
    && (Publishing(r.pc) || r.pc.RollingBack? ==> r.projecting)
    && (r.projecting ==> |r.outs| == PUBLISH)
    && (InStages(r.pc) && !r.pc.Deciding? ==> |r.outs| < PUBLISH)
    && (|r.outs| == PUBLISH ==> DocumentsBound(w, r.attempt, r.outs[INDEXING].documents) && r.executed[INDEXING])
    && (r.pc.Projecting? ==> r.pc.sent <= |r.outs[INDEXING].documents|)
    && (r.interrupted ==> r.pc.RollingBack? || r.pc.Errored? || r.pc.Dead?)
    && (r.swept ==> r.pc.CleaningUp? || r.pc.CleanedUp? || r.pc.Errored? || r.pc.Done? || r.pc.Dead?)
    && (r.pc.Writing? ==> Produced(w, r, r.pc.output))
    && (r.pc.Recording? ==> Produced(w, r, r.pc.output))
  }

  /** Once a stage was executed, every later one was. */
  ghost predicate ExecutedSuffix(executed: seq<bool>) {
    forall i, j :: 0 <= i < j < |executed| && executed[i] ==> executed[j]
  }

  /** The steps a run knows have no gap, and none ahead of it is its own. */
  ghost predicate StoredSteps(w: World, stored: StepTable, attempt: nat, done: nat) {
    && (forall j: nat, k: nat :: j < k && k in stored ==> j in stored)
    && (forall k: nat :: k in stored && done <= k < PUBLISH ==> stored[k].manifest != attempt)
    && (INDEXING in stored && INDEXING >= done ==>
          && stored[INDEXING].checksum.OutputDigest?
          && DocumentsBound(w, stored[INDEXING].manifest, stored[INDEXING].checksum.output.documents))
  }

  predicate ReuseOver(r: Runner) {
    r.pc.Executing? || r.pc.Writing? || r.pc.Recording? || true in r.executed
  }

  ghost predicate Reuse(w: World, r: Runner) {
    && ExecutedSuffix(r.executed)
    && (PastReading(r.pc) ==> StoredSteps(w, r.stored, r.attempt, |r.outs|))
    && (PastReading(r.pc) && ReuseOver(r) ==> KeysBelow(r.stored, |r.outs|))
    && (r.pc.Resetting? ==> |r.outs| in r.stored)
  }

  // ---- a process against the store ----

  /** A step that carries the attempt of a process holds what that process computed, and so do all steps before it. */
  ghost predicate StepTraces(steps: StepTable, attempt: nat, outs: seq<Output>) {
    forall k: nat :: k in steps && steps[k].manifest == attempt && k < PUBLISH ==>
      && k < |outs|
      && forall j: nat :: j <= k ==> j in steps && steps[j].checksum == OutputDigest(outs[j])
  }

  /** Every intact entry in the manifest of an attempt is in the memory of its process. */
  ghost predicate DiskTraces(disk: Files, attempt: nat, mem: map<nat, Entry>) {
    attempt in disk ==>
      forall k: nat :: k in disk[attempt].stages && disk[attempt].stages[k].Intact() ==>
        k in mem && mem[k] == disk[attempt].stages[k]
  }

  predicate Written(st: Store, r: Runner) {
    r.pc.Recording? && r.attempt !in st.damaged ==> r.attempt in st.disk && st.disk[r.attempt].stages == r.mem
  }

  ghost predicate DocumentTraces(docs: Index, r: Runner) {
    forall d :: d in docs && docs[d].jobAttempt == r.attempt ==>
      r.projecting && |r.outs| == PUBLISH && docs[d] in r.outs[INDEXING].documents
  }

  /** What a process still has to remove covers every document of its attempt; when it is done none is left. */
  ghost predicate Compensation(docs: Index, r: Runner) {
    forall d :: d in docs && docs[d].jobAttempt == r.attempt ==>
      && (r.pc.RollingBack? || r.pc.CleaningUp? ==> d in r.pc.todo)
      && !r.pc.CleanedUp?
      && !(r.pc.Errored? && r.pc.rolledBack)
  }

  predicate Claims(w: World, st: Store, id: nat, r: Runner) {
    && (r.started ==> 1 <= r.attempt <= st.lastStarted && r.attempt <= w.maxAttempts)
    && (Holds(st, id) ==>
          && r.attempt == st.attempt
          && (!r.started && !st.cancelRequested ==> st.lastStarted < st.attempt)
          && r.pc != Committed && r.pc != Done && !r.interrupted)
    && (r.pc.CleaningUp? || r.pc.CleanedUp? ==>
          st.attempt == r.attempt && ((st.status == Running && st.cancelRequested) || st.status == Cancelled))
  }

  /** The recorded steps begin with the outputs of a run, made under the same worker configuration. */
  ghost predicate RecordedPrefix(w: World, steps: StepTable, outs: seq<Output>, attempt: nat) {
    forall k: nat :: k < |outs| ==>
      k in steps && steps[k].checksum == OutputDigest(outs[k]) && w.identity(steps[k].manifest) == w.identity(attempt)
  }

  /** The process with the current claim knows the recorded steps, and they begin with its outputs. */
  ghost predicate Current(w: World, st: Store, id: nat, r: Runner) {
    Holds(st, id) && PastReading(r.pc) ==> r.stored == st.steps && RecordedPrefix(w, st.steps, r.outs, r.attempt)
  }

  /** The first `n` documents of a run are in the index as that run wrote them. */
  ghost predicate Visible(docs: Index, documents: seq<Document>, n: nat) {
    forall i :: 0 <= i < n && i < |documents| ==> documents[i].id in docs && docs[documents[i].id] == documents[i]
  }

  function SentCount(r: Runner): nat
    requires |r.outs| == PUBLISH
  {
    if r.pc.Projecting? then r.pc.sent else |r.outs[INDEXING].documents|
  }

  /** Nothing the current attempt sent without a refusal has left the index, unless it is being cancelled. */
  ghost predicate Sent(st: Store, id: nat, r: Runner) {
    Holds(st, id) && !st.cancelRequested && Publishing(r.pc) && |r.outs| == PUBLISH && (r.pc.Projecting? ==> !r.pc.refused) ==>
      Visible(st.docs, r.outs[INDEXING].documents, SentCount(r))
  }

  predicate IsCompleter(st: Store, id: nat) {
    st.status == Completed && !st.deleted && st.completedBy == id
  }

  ghost predicate Completer(w: World, st: Store, id: nat, r: Runner) {
    IsCompleter(st, id) ==>
      && r.started && r.attempt == st.attempt && |r.outs| == PUBLISH
      && (r.pc.Committed? || r.pc.Done? || r.pc.RollingBack? || r.pc.Errored? || r.pc.Dead?)
      && (r.pc.RollingBack? || r.pc.Errored? ==> r.interrupted)
      && RecordedPrefix(w, st.steps, r.outs, r.attempt)
      && (!r.interrupted && !st.projectionDeleted ==>
            Visible(st.docs, r.outs[INDEXING].documents, |r.outs[INDEXING].documents|))
  }

  ghost predicate Alone(w: World, r: Runner) {
    Shape(w, r) && Memory(w, r) && Reuse(w, r)
  }

  ghost predicate Traces(st: Store, r: Runner) {
    r.started ==>
      && StepTraces(st.steps, r.attempt, r.outs)
      && DiskTraces(st.disk, r.attempt, r.mem)
      && Written(st, r)
      && DocumentTraces(st.docs, r)
      && Compensation(st.docs, r)
  }

  ghost predicate Standing(w: World, st: Store, id: nat, r: Runner) {
    Claims(w, st, id, r) && Current(w, st, id, r) && Sent(st, id, r) && Completer(w, st, id, r)
  }

  ghost predicate Fits(w: World, st: Store, id: nat, r: Runner) {
    Alone(w, r) && Traces(st, r) && Standing(w, st, id, r)
  }

  // ---- the whole machine ----

  /** Two started processes never share an attempt. */
  ghost predicate Apart(runners: map<nat, Runner>) {
    forall i, j :: i in runners && j in runners && i != j && runners[i].started && runners[j].started ==>
      runners[i].attempt != runners[j].attempt
  }

  ghost predicate Present(s: State) {
    && (s.store.lease.Some? ==> s.store.lease.value.owner in s.runners)
    && (s.store.status == Completed && !s.store.deleted ==> s.store.completedBy in s.runners)
  }

  ghost predicate Inv(w: World, s: State) {
    && StoreInv(w, s.store)
    && Apart(s.runners)
    && Present(s)
    && forall i :: i in s.runners ==> Fits(w, s.store, i, s.runners[i])
  }
}
