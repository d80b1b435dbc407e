/** What the invariant of the job machine means for every run, over all crashes, resumes and stalled processes. */
module EngineTheorems {
  import opened Options
  import opened Projection
  import opened Engine
  import opened EngineInvariant
  import opened EngineProofs

  ghost predicate Reached(w: World, run: seq<Event>, s: State) {
    Legal(w, Initial, run) && After(w, Initial, run) == s
  }

  lemma ReachedInv(w: World, run: seq<Event>, s: State)
    requires Reached(w, run, s)
    ensures Inv(w, s)
  {
    InitialInv(w);
    RunKept(w, Initial, run);
  }

  lemma {:induction false} Appended(w: World, s: State, run: seq<Event>, e: Event)
    requires Legal(w, s, run) && Enabled(w, After(w, s, run), e)
    ensures Legal(w, s, run + [e]) && After(w, s, run + [e]) == Apply(w, After(w, s, run), e)
    decreases |run|
  {
    if run == [] {
      assert [e][1..] == [];
    } else {
      Appended(w, Apply(w, s, run[0]), run[1..], e);
      assert (run + [e])[0] == run[0] && (run + [e])[1..] == run[1..] + [e];
    }
  }

  /** The last event of a run, taken off. */
  lemma {:induction false} Shortened(w: World, s: State, run: seq<Event>)
    requires run != [] && Legal(w, s, run)
    ensures
      var n := |run| - 1;
      && Legal(w, s, run[..n]) && Enabled(w, After(w, s, run[..n]), run[n])
      && After(w, s, run) == Apply(w, After(w, s, run[..n]), run[n])
    decreases |run|
  {
    hide Enabled, Apply;
    var n := |run| - 1;
    if n == 0 {
      assert run == [run[0]];
      assert run[..0] == [] && run[1..] == [];
    } else {
      Shortened(w, Apply(w, s, run[0]), run[1..]);
      assert run[1..][..n - 1] == run[..n][1..];
      assert run[..n][0] == run[0];
    }
  }

  // ---- recorded checkpoints ----

  /**
   In every reachable state the recorded steps are a prefix of the stage order, their attempts never decrease, and each
   step's manifest, unless the disk itself was damaged, holds an entry with the recorded checksum that is chained to the
   step before it, whatever stalled older attempts are still writing.
   */
  lemma CheckpointsHold(w: World, run: seq<Event>, s: State)
    requires Reached(w, run, s)
    ensures forall j: nat, k: nat :: j < k && k in s.store.steps ==>
      j in s.store.steps && s.store.steps[j].manifest <= s.store.steps[k].manifest
    ensures forall k: nat :: k in s.store.steps && k < PUBLISH ==>
      var row := s.store.steps[k];
      row.manifest !in s.store.damaged ==>
        && row.manifest in s.store.disk && k in s.store.disk[row.manifest].stages
        && var e := s.store.disk[row.manifest].stages[k];
           && e.Intact() && e.checksum == row.checksum
           && e.input == if k == 0 then SourceDigest(w.source) else s.store.steps[(k - 1) as nat].checksum
  {
    ReachedInv(w, run, s);
    var st := s.store;
    forall k: nat | k in st.steps && k < PUBLISH && st.steps[k].manifest !in st.damaged
      ensures
        var row := st.steps[k];
        && row.manifest in st.disk && k in st.disk[row.manifest].stages
        && var e := st.disk[row.manifest].stages[k];
           && e.Intact() && e.checksum == row.checksum
           && e.input == if k == 0 then SourceDigest(w.source) else st.steps[(k - 1) as nat].checksum
    {
      assert OnDisk(w, st.steps, st.disk, st.damaged, k);
      assert StepLinked(w, st.steps, k);
      if k > 0 {
        assert StepLinked(w, st.steps, (k - 1) as nat);
        assert RecordedOutputs(st.steps, k + 1)[..k][k - 1] == RecordedOutput(st.steps, (k - 1) as nat);
      }
    }
  }

  // ---- a completed job is a clean run ----

  predicate Finished(st: Store) {
    st.status == Completed && !st.deleted
  }

  lemma AllRecorded(w: World, st: Store)
    requires StoreInv(w, st) && Finished(st)
    ensures forall k: nat :: k <= PUBLISH <==> k in st.steps
  {
  }

  /** What every checkpoint of a finished job is worth: produced and accepted on exactly the outputs before it. */
  lemma FinishedIsAChain(w: World, run: seq<Event>, s: State)
    requires Reached(w, run, s) && Finished(s.store)
    ensures forall k: nat :: k <= PUBLISH <==> k in s.store.steps
    ensures forall k: nat :: k < PUBLISH ==>
      var a, outs := s.store.steps[k].manifest, RecordedOutputs(s.store.steps, k);
      && s.store.steps[k].checksum == OutputDigest(RecordedOutput(s.store.steps, k))
      && w.produces(k, a, outs, RecordedOutput(s.store.steps, k))
      && Validates(w, k, a, outs, RecordedOutput(s.store.steps, k))
      && a <= s.store.attempt && w.identity(a) == w.identity(s.store.attempt)
    ensures s.store.steps[INDEXING].manifest == s.store.attempt
  {
    ReachedInv(w, run, s);
    var st := s.store;
    AllRecorded(w, st);
    var c := st.completedBy;
    assert Fits(w, st, c, s.runners[c]);
    forall k: nat | k < PUBLISH
      ensures StepLinked(w, st.steps, k) && w.identity(st.steps[k].manifest) == w.identity(st.attempt)
    {
    }
    assert StepLinked(w, st.steps, INDEXING);
    BoundOnce(w, st.steps[INDEXING].manifest, st.attempt, RecordedOutput(st.steps, INDEXING).documents);
  }

  // Stage functions that answer alike on every attempt; only the indexing stage writes its attempt into its documents.
  type StageFunction = (nat, nat, seq<Output>) -> Output

  ghost predicate Deterministic(w: World, f: StageFunction) {
    && (forall k: nat, a: nat, outs, o :: w.produces(k, a, outs, o) ==> o == f(k, a, outs))
    && (forall k: nat, a: nat, b: nat, outs :: k < INDEXING ==> f(k, a, outs) == f(k, b, outs))
  }

  /** The outputs of an undisturbed run of the first `n` stages in one attempt. */
  function CleanOutputs(f: StageFunction, attempt: nat, n: nat): (r: seq<Output>)
    ensures |r| == n
  {
    if n == 0 then [] else
      var before := CleanOutputs(f, attempt, n - 1);
      before + [f(n - 1, attempt, before)]
  }

  lemma {:induction false} ChainIsClean(w: World, f: StageFunction, steps: StepTable, attempt: nat, n: nat)
    requires Deterministic(w, f) && n <= PUBLISH
    requires forall k: nat :: k < n ==> StepLinked(w, steps, k)
    requires forall k: nat :: k < n ==> k in steps && (k == INDEXING ==> steps[k].manifest == attempt)
    ensures RecordedOutputs(steps, n) == CleanOutputs(f, attempt, n)
  {
    if n > 0 {
      ChainIsClean(w, f, steps, attempt, n - 1);
      assert StepLinked(w, steps, (n - 1) as nat);
      assert RecordedOutputs(steps, n) == RecordedOutputs(steps, n - 1) + [RecordedOutput(steps, (n - 1) as nat)];
    }
  }

  /**
   Resume refines a clean run: however a job was interrupted, resumed and overtaken, when it finishes its recorded outputs
   are those of one undisturbed run of the completing attempt.
   */
  lemma ResumeEqualsCleanRun(w: World, f: StageFunction, run: seq<Event>, s: State)
    requires Reached(w, run, s) && Finished(s.store) && Deterministic(w, f)
    ensures forall k: nat :: k < PUBLISH ==>
      k in s.store.steps && s.store.steps[k].checksum == OutputDigest(CleanOutputs(f, s.store.attempt, PUBLISH)[k])
  {
    FinishedIsAChain(w, run, s);
    ReachedInv(w, run, s);
    forall k: nat | k < PUBLISH ensures StepLinked(w, s.store.steps, k) {
    }
    ChainIsClean(w, f, s.store.steps, s.store.attempt, PUBLISH);
  }

  // ---- reuse ----

  predicate ReusesFirst(executed: seq<bool>, n: nat) {
    n <= |executed| && forall i :: 0 <= i < |executed| ==> executed[i] == (i >= n)
  }

  /** In every run of the pipeline the reused stages are a prefix, the executed ones a suffix, and indexing is executed. */
  lemma ReusedPrefixExecutedSuffix(w: World, run: seq<Event>, s: State, id: nat)
    requires Reached(w, run, s) && id in s.runners
    ensures |s.runners[id].executed| == |s.runners[id].outs| <= PUBLISH
    ensures exists n: nat :: n <= INDEXING && ReusesFirst(s.runners[id].executed, n)
  {
    ReachedInv(w, run, s);
    assert Fits(w, s.store, id, s.runners[id]);
    var n := SuffixSplits(s.runners[id].executed);
  }

  /** What the checkpoint of a stage must be, on disk and in the row, for the stage to be skipped. */
  predicate SoundCheckpoint(w: World, st: Store, attempt: nat, outs: seq<Output>, o: Output) {
    var k := |outs|;
    && k in st.steps && st.steps[k].checksum == OutputDigest(o)
    && var c := st.steps[k].manifest;
       && c in st.disk && st.disk[c].identity == w.identity(attempt) && k in st.disk[c].stages
       && st.disk[c].stages[k] == Entry(InputDigest(w, outs), OutputDigest(o), o) && Validates(w, k, attempt, outs, o)
  }

  /**
   A process with the claim skips a stage with output `o` exactly when the recorded step of that stage points to an undamaged
   manifest entry that holds `o`, made from the very outputs before it under its own configuration, that the validator accepts
   `o`, and that the artifact files match; otherwise it goes on to execute the stage, discarding a recorded step first.
   */
  lemma ReusedIff(w: World, run: seq<Event>, s: State, id: nat, artifactsMatch: bool, o: Output)
    requires Reached(w, run, s) && id in s.runners && LeaseLive(s.store, id, s.runners[id])
    requires Enabled(w, s, Act(id, Decide(artifactsMatch)))
    ensures
      var r, r' := s.runners[id], Apply(w, s, Act(id, Decide(artifactsMatch))).runners[id];
      && (r'.outs == r.outs + [o] <==> artifactsMatch && SoundCheckpoint(w, s.store, r.attempt, r.outs, o))
      && (r'.outs == r.outs ==> r'.pc == if |r.outs| in s.store.steps then Resetting else Executing)
      && (r'.outs == r.outs || |r'.outs| == |r.outs| + 1)
  {
    hide Can, Moved, Stepped, Reusable, SoundCheckpoint, Inv, LeaseLive;
    var r, t := s.runners[id], Apply(w, s, Act(id, Decide(artifactsMatch)));
    ReachedInv(w, run, s);
    EventKept(w, s, Act(id, Decide(artifactsMatch)));
    DecisionMoves(w, s.store, id, r, artifactsMatch);
    HolderKnows(w, s, id);
    NoAdoption(w, t, id);
    SoundIff(w, s.store, r, artifactsMatch, o);
    assert (r.outs + [o])[|r.outs|] == o;
  }

  lemma HolderKnows(w: World, s: State, id: nat)
    requires Inv(w, s) && id in s.runners && LeaseLive(s.store, id, s.runners[id]) && s.runners[id].pc == Deciding
    ensures s.runners[id].stored == s.store.steps
  {
    assert Fits(w, s.store, id, s.runners[id]);
  }

  lemma NoAdoption(w: World, s: State, id: nat)
    requires Inv(w, s) && id in s.runners
    ensures !s.runners[id].pc.Adopting?
  {
    assert Fits(w, s.store, id, s.runners[id]);
  }

  lemma DecisionMoves(w: World, st: Store, id: nat, r: Runner, artifactsMatch: bool)
    requires Can(w, st, id, r, Decide(artifactsMatch))
    ensures r.pc == Deciding && |r.outs| < PUBLISH
    ensures
      var r' := Moved(w, st, id, r, Decide(artifactsMatch));
      if !Reusable(w, st, r, artifactsMatch) then
        r'.outs == r.outs && r'.pc == (if |r.outs| in r.stored then Resetting else Executing)
      else if |r.outs| in r.stored then r'.outs == r.outs + [st.disk[Candidate(r)].stages[|r.outs|].output]
      else r'.pc.Adopting?
  {
    hide Validates, InputDigest, OfAttempt, Below, Stepped;
  }

  lemma SoundIff(w: World, st: Store, r: Runner, artifactsMatch: bool, o: Output)
    requires r.stored == st.steps
    ensures artifactsMatch && SoundCheckpoint(w, st, r.attempt, r.outs, o) <==>
      |r.outs| in st.steps && Reusable(w, st, r, artifactsMatch) && st.disk[Candidate(r)].stages[|r.outs|].output == o
  {
    hide Validates, InputDigest;
  }

  lemma SuffixSplits(executed: seq<bool>) returns (n: nat)
    requires ExecutedSuffix(executed) && (|executed| == PUBLISH ==> executed[INDEXING]) && |executed| <= PUBLISH
    ensures n <= INDEXING && ReusesFirst(executed, n)
  {
    n := 0;
    while n < |executed| && !executed[n]
      invariant n <= |executed|
      invariant forall i :: 0 <= i < n ==> !executed[i]
    {
      n := n + 1;
    }
  }

  // ---- bounded life ----

  function StartedIds(s: State): set<nat> {
    set i | i in s.runners && s.runners[i].started
  }

  /** At most `maxAttempts` runs of the pipeline are ever started, each under an attempt of its own. */
  lemma StartsBounded(w: World, run: seq<Event>, s: State)
    requires Reached(w, run, s)
    ensures forall i, j :: i in s.runners && j in s.runners && i != j && s.runners[i].started && s.runners[j].started ==>
      s.runners[i].attempt != s.runners[j].attempt
    ensures |StartedIds(s)| <= w.maxAttempts
  {
    ReachedInv(w, run, s);
    AllClaims(w, s);
    Pigeonhole(StartedIds(s), s.runners, w.maxAttempts);
  }

  lemma {:induction false} Pigeonhole(ids: set<nat>, runners: map<nat, Runner>, n: nat)
    requires forall i :: i in ids ==> i in runners && runners[i].started && 1 <= runners[i].attempt <= n
    requires Apart(runners)
    ensures |ids| <= n
    decreases n
  {
    if n == 0 {
      if i :| i in ids { assert false; }
    } else if i :| i in ids && runners[i].attempt == n {
      Pigeonhole(ids - {i}, runners, n - 1);
    } else {
      Pigeonhole(ids, runners, n - 1);
    }
  }

  /** The attempt is at least `n`, but for a claim that was handed back before anything ran. */
  predicate Floor(n: nat, st: Store) {
    st.attempt >= n || (st.attempt + 1 == n && st.status != Running && st.status != Completed)
  }

  lemma ActFloor(w: World, st: Store, id: nat, r: Runner, a: Action, n: nat)
    requires Floor(n, st) && Can(w, st, id, r, a)
    ensures Floor(n, Stepped(w, st, id, r, a))
  {
    hide Moved, MemAfter, LatestBelow, Below, Upsert, RemoveOwned, Backoff;
    if !OnRow(a) && !InRun(a) && !OnDocuments(a) { IdleStore(w, st, id, r, a); }
  }

  lemma ChangeFloor(w: World, st: Store, c: Change, n: nat)
    requires Floor(n, st) && MayChange(w, st, c)
    ensures Floor(n, Changed(w, st, c))
  {
  }

  lemma ClaimFloor(w: World, st: Store, id: nat, n: nat)
    requires Floor(n, st) && (CleanupDue(st) || RunDue(st))
    ensures Floor(n, ClaimedStore(w, st, id))
  {
  }

  lemma StepFloor(w: World, s: State, e: Event, n: nat)
    requires Floor(n, s.store) && Enabled(w, s, e)
    ensures Floor(n, Apply(w, s, e).store)
  {
    hide Floor, CleanupDue, RunDue, ClaimedStore, MayChange, Changed, Can, Stepped, Moved;
    match e
    case Environment(c) => ChangeFloor(w, s.store, c, n);
    case Claim(id) => ClaimFloor(w, s.store, id, n);
    case Act(id, a) => ActFloor(w, s.store, id, s.runners[id], a, n);
  }

  lemma {:induction false} RunFloor(w: World, s: State, run: seq<Event>, n: nat)
    requires Floor(n, s.store) && Legal(w, s, run)
    ensures Floor(n, After(w, s, run).store)
    decreases |run|
  {
    if run != [] {
      StepFloor(w, s, run[0], n);
      RunFloor(w, Apply(w, s, run[0]), run[1..], n);
    }
  }

  lemma RetryLowersFloor(w: World, s: State, id: nat)
    requires Enabled(w, s, Act(id, ScheduleRetry))
    ensures s.store.attempt < w.maxAttempts && Floor(s.store.attempt + 1, Apply(w, s, Act(id, ScheduleRetry)).store)
    ensures Apply(w, s, Act(id, ScheduleRetry)).store.nextRunAt == Some(s.store.now + Backoff(s.store.attempt))
  {
  }

  /**
   Retries are scheduled only while an attempt is left; a later retry of the same job, whatever happens in between, is always
   one of a higher attempt and never waits for less.
   */
  lemma LaterRetriesWaitLonger(w: World, s: State, id: nat, run: seq<Event>, later: nat)
    requires Enabled(w, s, Act(id, ScheduleRetry)) && Legal(w, Apply(w, s, Act(id, ScheduleRetry)), run)
    requires Enabled(w, After(w, Apply(w, s, Act(id, ScheduleRetry)), run), Act(later, ScheduleRetry))
    ensures
      var t := After(w, Apply(w, s, Act(id, ScheduleRetry)), run);
      && s.store.attempt < t.store.attempt < w.maxAttempts
      && Backoff(s.store.attempt) <= Backoff(t.store.attempt)
  {
    RetryLowersFloor(w, s, id);
    RunFloor(w, Apply(w, s, Act(id, ScheduleRetry)), run, s.store.attempt + 1);
    RetryLowersFloor(w, After(w, Apply(w, s, Act(id, ScheduleRetry)), run), later);
  }

  // ---- documents ----

  function CompletedDocuments(st: Store): seq<Document>
    requires INDEXING in st.steps
  {
    RecordedOutput(st.steps, INDEXING).documents
  }

  lemma CompleterKnows(w: World, s: State)
    requires Inv(w, s) && Finished(s.store)
    ensures s.store.completedBy in s.runners && INDEXING in s.store.steps
    ensures
      var r := s.runners[s.store.completedBy];
      && Fits(w, s.store, s.store.completedBy, r) && |r.outs| == PUBLISH && r.started && r.attempt == s.store.attempt
      && r.outs[INDEXING].documents == CompletedDocuments(s.store)
  {
    var c := s.store.completedBy;
    assert Fits(w, s.store, c, s.runners[c]);
    assert INDEXING in s.store.steps && s.store.steps[INDEXING].checksum == OutputDigest(s.runners[c].outs[INDEXING]);
  }

  /** Once completed, a job keeps every document, exactly as recorded, unless its own process is interrupted after the commit. */
  lemma CompletedJobsKeepDocuments(w: World, run: seq<Event>, s: State)
    requires Reached(w, run, s) && Finished(s.store) && !s.store.projectionDeleted
    ensures s.store.completedBy in s.runners && INDEXING in s.store.steps
    ensures !s.runners[s.store.completedBy].interrupted ==>
      forall d: Document :: d.jobAttempt == s.store.attempt ==>
        (d in CompletedDocuments(s.store) <==> d.id in s.store.docs && s.store.docs[d.id] == d)
  {
    ReachedInv(w, run, s);
    CompleterKnows(w, s);
    var documents := CompletedDocuments(s.store);
    var r := s.runners[s.store.completedBy];
    if !r.interrupted {
      assert Visible(s.store.docs, documents, |documents|);
      assert DocumentTraces(s.store.docs, r);
      forall d: Document | d.jobAttempt == s.store.attempt
        ensures d in documents <==> d.id in s.store.docs && s.store.docs[d.id] == d
      {
        if i :| 0 <= i < |documents| && documents[i] == d {
          assert documents[i].id in s.store.docs && s.store.docs[documents[i].id] == documents[i];
        }
      }
    }
  }

  /**
   The promise "a completed job keeps its documents" fails exactly when an exception follows the commit: once the
   completing process has ended with its rollback through, the documents are there if and only if it was not interrupted.
   */
  lemma CompletedDocumentsIff(w: World, run: seq<Event>, s: State)
    requires Reached(w, run, s) && Finished(s.store) && !s.store.projectionDeleted
    requires s.store.completedBy in s.runners
    requires
      var pc := s.runners[s.store.completedBy].pc;
      pc.Committed? || pc.Done? || (pc.Errored? && pc.rolledBack)
    ensures INDEXING in s.store.steps
    ensures Visible(s.store.docs, CompletedDocuments(s.store), |CompletedDocuments(s.store)|)
      <==> !s.runners[s.store.completedBy].interrupted
  {
    ReachedInv(w, run, s);
    CompleterKnows(w, s);
    var r := s.runners[s.store.completedBy];
    var documents := CompletedDocuments(s.store);
    assert documents != [] && OwnedBy(documents[0], w.assetId, w.jobId, r.attempt);
    if r.interrupted {
      assert Compensation(s.store.docs, r);
    }
  }

  /** However its process ended, a completed job has only recorded documents of its attempt in the index. */
  lemma OnlyRecordedRemain(w: World, run: seq<Event>, s: State)
    requires Reached(w, run, s) && Finished(s.store)
    ensures INDEXING in s.store.steps
    ensures forall d :: d in s.store.docs && s.store.docs[d].jobAttempt == s.store.attempt ==>
      s.store.docs[d] in CompletedDocuments(s.store)
  {
    ReachedInv(w, run, s);
    CompleterKnows(w, s);
    assert DocumentTraces(s.store.docs, s.runners[s.store.completedBy]);
  }

  /** The durable state under which a document's job identity may be served. */
  predicate SearchReady(st: Store, d: Document) {
    Finished(st) && PUBLISH in st.steps && d.jobAttempt == d.readiness.attempt == st.attempt
  }

  /** Whatever stale attempts left in the index, search serves only recorded documents of the completing attempt. */
  lemma ServedOnlyWhenRecorded(w: World, run: seq<Event>, s: State, d: SegmentId)
    requires Reached(w, run, s) && d in s.store.docs && SearchReady(s.store, s.store.docs[d])
    ensures INDEXING in s.store.steps && s.store.docs[d] in CompletedDocuments(s.store)
  {
    OnlyRecordedRemain(w, run, s);
  }

  /**
   A process that ended in an error with its rollback through, or finished the clean-up of its own attempt, leaves no
   document of its attempt, and no other process ever writes one.
   */
  lemma CompensatedLeavesNothing(w: World, run: seq<Event>, s: State, id: nat)
    requires Reached(w, run, s) && id in s.runners && s.runners[id].started
    requires
      var r := s.runners[id];
      r.pc.CleanedUp? || (r.pc.Errored? && (r.pc.rolledBack || !r.projecting))
    ensures forall d :: d in s.store.docs ==> s.store.docs[d].jobAttempt != s.runners[id].attempt
  {
    ReachedInv(w, run, s);
    assert Fits(w, s.store, id, s.runners[id]);
  }

  lemma OtherActionsKeepDocuments(w: World, st: Store, id: nat, r: Runner, a: Action)
    requires Can(w, st, id, r, a) && !a.ProjectDocument? && !a.RemoveDocument?
    ensures Stepped(w, st, id, r, a).docs == st.docs
  {
    hide Can, Moved, LatestBelow, Below, Upsert, RemoveOwned, Backoff;
    if !OnRow(a) && !InRun(a) && !OnDocuments(a) { IdleStore(w, st, id, r, a); }
  }

  predicate SameAt(before: Index, after: Index, d: SegmentId) {
    d in before ==> d in after && after[d] == before[d]
  }

  predicate RemovesOrWrites(r: Runner, a: Action, held: Document, d: SegmentId) {
    || (a == RemoveDocument(d) && r.attempt == held.jobAttempt)
    || (a.ProjectDocument? && r.attempt >= held.jobAttempt)
  }

  lemma RemovalStep(w: World, st: Store, id: nat, r: Runner, x: SegmentId, d: SegmentId)
    requires Can(w, st, id, r, RemoveDocument(x))
    requires d in st.docs && !SameAt(st.docs, Stepped(w, st, id, r, RemoveDocument(x)).docs, d)
    ensures x == d && r.attempt == st.docs[d].jobAttempt
  {
    hide Can, Moved;
  }

  lemma ProjectionStep(w: World, st: Store, id: nat, r: Runner, accepted: bool, d: SegmentId)
    requires Can(w, st, id, r, ProjectDocument(accepted))
    requires d in st.docs && !SameAt(st.docs, Stepped(w, st, id, r, ProjectDocument(accepted)).docs, d)
    ensures r.attempt >= st.docs[d].jobAttempt
  {
    hide Moved;
  }

  lemma DocumentStep(w: World, st: Store, id: nat, r: Runner, a: Action, d: SegmentId)
    requires Can(w, st, id, r, a)
    requires d in st.docs && !SameAt(st.docs, Stepped(w, st, id, r, a).docs, d)
    ensures RemovesOrWrites(r, a, st.docs[d], d)
  {
    hide Can, Stepped, Moved;
    match a
    case RemoveDocument(x) => RemovalStep(w, st, id, r, x, d);
    case ProjectDocument(accepted) => ProjectionStep(w, st, id, r, accepted, d);
    case _ => OtherActionsKeepDocuments(w, st, id, r, a);
  }

  lemma DocumentChange(w: World, st: Store, c: Change, d: SegmentId)
    requires MayChange(w, st, c) && d in st.docs && !SameAt(st.docs, Changed(w, st, c).docs, d)
    ensures c == DeleteDocument(d) && st.deletionRequested && st.status != Running
  {
    hide LeaseFree;
    match c {
      case DeleteDocument(_) => case Damage(_, _) => case Recover => case Tick =>
      case Promote => case RequestCancel => case RetryFailed => case RequestDeletion => case Finalize =>
    }
  }

  /**
   Whatever happens, a document is replaced only by its own attempt or a higher one, and removed only by exact attempt or,
   while no job runs, by the deletion of its asset.
   */
  lemma NeverByALowerAttempt(w: World, s: State, e: Event, d: SegmentId)
    requires Enabled(w, s, e) && d in s.store.docs && !SameAt(s.store.docs, Apply(w, s, e).store.docs, d)
    ensures
      || (e == Environment(DeleteDocument(d)) && s.store.deletionRequested && s.store.status != Running)
      || (e.Act? && RemovesOrWrites(s.runners[e.runner], e.action, s.store.docs[d], d))
  {
    hide SameAt, RemovesOrWrites, Can, Stepped, Moved, MayChange, Changed, CleanupDue, RunDue, ClaimedStore;
    match e
    case Act(id, a) => DocumentStep(w, s.store, id, s.runners[id], a, d);
    case Environment(c) => DocumentChange(w, s.store, c, d);
    case Claim(id) => ClaimKeepsDocuments(w, s.store, id, d);
  }

  lemma ClaimKeepsDocuments(w: World, st: Store, id: nat, d: SegmentId)
    requires CleanupDue(st) || RunDue(st)
    ensures SameAt(st.docs, ClaimedStore(w, st, id).docs, d)
  {
  }
}
