/** Why a job that was interrupted and resumed passes the recovery check, and exactly when it does not. */
module ResumedJobs {
  import opened Options
  import opened Projection
  import opened Engine
  import opened EngineInvariant
  import opened EngineProofs
  import opened EngineTheorems
  import opened EngineProgress
  import opened EngineLosses
  import opened EngineLife
  import opened Recovery
  import opened Transitions

  /** The rows of the recorded steps below stage `n`, in stage order. */
  function Rows(steps: StepTable, n: nat): seq<Evidence> {
    if n == 0 then []
    else
      Rows(steps, n - 1) +
      (if n - 1 in steps then [Evidence(n - 1, true, steps[n - 1].manifest, steps[n - 1].checksum)] else [])
  }

  /** The persisted state of one job as the check reads it; segments are persisted by the completing transaction. */
  function SnapshotOf(w: World, st: Store): Snapshot {
    Snapshot(w.assetId, w.jobId, st.status, st.stage, st.attempt, Rows(st.steps, PUBLISH + 1),
      if Finished(st) && INDEXING in st.steps then Ids(CompletedDocuments(st)) else [])
  }

  /** All workers run one configuration, and the disk and the artifacts stay as they were written. */
  ghost predicate SameConfiguration(w: World) {
    forall a, b :: w.identity(a) == w.identity(b)
  }

  predicate Gentle(e: Event) {
    !(e.Environment? && e.change.Damage?) && !(e.Act? && e.action == Decide(false))
  }

  predicate AllGentle(run: seq<Event>) {
    forall i :: 0 <= i < |run| ==> Gentle(run[i])
  }

  ghost predicate Undisturbed(s: State) {
    && s.store.damaged == {}
    && forall i :: i in s.runners && Holds(s.store, i) && s.runners[i].pc.Resetting? ==> |s.runners[i].outs| >= INDEXING
  }

  /** The recorded steps below `n` are the same, or the asset is gone. */
  ghost predicate KeepsBelow(before: Store, after: Store, n: nat) {
    !after.deleted ==>
      && !before.deleted
      && forall k: nat :: k in before.steps && k < n ==> k in after.steps && after.steps[k] == before.steps[k]
  }

  lemma ActKeepsBelow(w: World, st: Store, id: nat, r: Runner, a: Action, n: nat)
    requires Can(w, st, id, r, a) && (a.Reset? ==> |r.outs| >= n)
    ensures KeepsBelow(st, Stepped(w, st, id, r, a), n)
  {
    hide Moved, LatestBelow, Upsert, RemoveOwned, Validates, OfAttempt, Backoff, MemAfter;
    if !OnRow(a) && !InRun(a) && !OnDocuments(a) { IdleStore(w, st, id, r, a); }
  }

  lemma ChangeKeepsBelow(w: World, st: Store, c: Change, n: nat)
    requires MayChange(w, st, c)
    ensures KeepsBelow(st, Changed(w, st, c), n)
  {
    match c {
      case Tick => case Promote => case Recover => case RequestCancel => case RetryFailed => case RequestDeletion =>
      case DeleteDocument(_) => case Finalize => case Damage(_, _) =>
    }
  }

  lemma StepKeepsBelow(w: World, s: State, e: Event, n: nat)
    requires Enabled(w, s, e) && !DiscardsBelow(s, e, n)
    ensures KeepsBelow(s.store, Apply(w, s, e).store, n)
  {
    hide Can, Stepped, Moved, MayChange, Changed, KeepsBelow, CleanupDue, RunDue, ClaimedStore;
    match e
    case Environment(c) => ChangeKeepsBelow(w, s.store, c, n);
    case Claim(id) => ClaimKeepsBelow(w, s.store, id, n);
    case Act(id, a) => ActKeepsBelow(w, s.store, id, s.runners[id], a, n);
  }

  lemma ClaimKeepsBelow(w: World, st: Store, id: nat, n: nat)
    requires CleanupDue(st) || RunDue(st)
    ensures KeepsBelow(st, ClaimedStore(w, st, id), n)
  {
  }

  predicate DiscardsBelow(s: State, e: Event, n: nat) {
    e.Act? && e.action == Reset && e.runner in s.runners && |s.runners[e.runner].outs| < n
  }

  /** Some process throws away the recorded steps from a stage below `n` on. */
  ghost predicate Discards(w: World, s: State, run: seq<Event>, n: nat)
    requires Legal(w, s, run)
    decreases |run|
  {
    run != [] &&
    (|| DiscardsBelow(s, run[0], n)
     || Discards(w, Apply(w, s, run[0]), run[1..], n))
  }

  lemma {:induction false} RunKeepsBelow(w: World, s: State, run: seq<Event>, n: nat)
    requires Legal(w, s, run) && !Discards(w, s, run, n)
    ensures KeepsBelow(s.store, After(w, s, run).store, n)
    decreases |run|
  {
    hide Enabled, Apply;
    if run != [] {
      StepKeepsBelow(w, s, run[0], n);
      RunKeepsBelow(w, Apply(w, s, run[0]), run[1..], n);
    }
  }

  // ---- a recorded step below indexing is always reused ----

  lemma IntactStepsAreReusable(w: World, st: Store, id: nat, r: Runner)
    requires StoreInv(w, st) && Fits(w, st, id, r) && SameConfiguration(w) && st.damaged == {}
    requires Holds(st, id) && r.pc == Deciding && |r.outs| in r.stored && |r.outs| < INDEXING
    ensures Reusable(w, st, r, true)
  {
    var k: nat := |r.outs|;
    assert Current(w, st, id, r) && k in st.steps;
    assert StepLinked(w, st.steps, k) && OnDisk(w, st.steps, st.disk, st.damaged, k);
    assert RecordedOutputs(st.steps, k) == r.outs;
    assert RecordedOutputs(st.steps, k + 1)[..k] == RecordedOutputs(st.steps, k);
  }

  lemma ResetsOnlyIndexing(w: World, st: Store, id: nat, r: Runner, a: Action)
    requires StoreInv(w, st) && Fits(w, st, id, r) && SameConfiguration(w) && st.damaged == {}
    requires Can(w, st, id, r, a) && Gentle(Act(id, a)) && Holds(st, id)
    requires r.pc.Resetting? ==> |r.outs| >= INDEXING
    ensures Moved(w, st, id, r, a).pc.Resetting? ==> |Moved(w, st, id, r, a).outs| >= INDEXING
  {
    hide StoreInv, Fits, LatestBelow, Validates, CheckpointFits, OfAttempt;
    if a.Decide? && |r.outs| in r.stored && |r.outs| < INDEXING {
      IntactStepsAreReusable(w, st, id, r);
    }
  }

  lemma ActKeepsHolders(w: World, st: Store, id: nat, r: Runner, a: Action)
    requires Can(w, st, id, r, a)
    ensures Stepped(w, st, id, r, a).damaged <= st.damaged
    ensures Holds(Stepped(w, st, id, r, a), id) ==> Holds(st, id)
    ensures forall i :: i != id && Holds(Stepped(w, st, id, r, a), i) ==> Holds(st, i)
  {
    hide Moved, LatestBelow, Upsert, RemoveOwned, Validates, OfAttempt, Backoff, MemAfter;
    if !OnRow(a) && !InRun(a) && !OnDocuments(a) { IdleStore(w, st, id, r, a); }
  }

  lemma ActUndisturbed(w: World, s: State, id: nat, a: Action)
    requires Inv(w, s) && Undisturbed(s) && SameConfiguration(w) && Enabled(w, s, Act(id, a)) && Gentle(Act(id, a))
    ensures Undisturbed(Apply(w, s, Act(id, a))) && !DiscardsBelow(s, Act(id, a), INDEXING)
  {
    hide StoreInv, Fits, Can, Stepped, Moved;
    var r := s.runners[id];
    assert Fits(w, s.store, id, r);
    if a.Reset? { ResetIsFenced(w, s.store, id, r); }
    ActKeepsHolders(w, s.store, id, r, a);
    if Holds(s.store, id) { ResetsOnlyIndexing(w, s.store, id, r, a); }
  }

  lemma ResetIsFenced(w: World, st: Store, id: nat, r: Runner)
    requires Can(w, st, id, r, Reset)
    ensures Holds(st, id) && r.pc.Resetting?
  {
  }

  lemma ChangeUndisturbed(w: World, s: State, c: Change)
    requires Undisturbed(s) && MayChange(w, s.store, c) && Gentle(Environment(c))
    ensures Undisturbed(State(Changed(w, s.store, c), s.runners))
  {
    match c {
      case Tick => case Promote => case Recover => case RequestCancel => case RetryFailed => case RequestDeletion =>
      case DeleteDocument(_) => case Finalize => case Damage(_, _) =>
    }
  }

  lemma ClaimUndisturbed(w: World, s: State, id: nat)
    requires Undisturbed(s) && Enabled(w, s, Claim(id))
    ensures Undisturbed(Apply(w, s, Claim(id)))
  {
  }

  lemma StepUndisturbed(w: World, s: State, e: Event)
    requires Inv(w, s) && Undisturbed(s) && SameConfiguration(w) && Enabled(w, s, e) && Gentle(e)
    ensures Undisturbed(Apply(w, s, e)) && !DiscardsBelow(s, e, INDEXING)
  {
    hide Inv, Undisturbed, SameConfiguration, Gentle, MayChange, Changed, Can, Stepped, Moved;
    match e
    case Environment(c) => ChangeUndisturbed(w, s, c);
    case Claim(id) => ClaimUndisturbed(w, s, id);
    case Act(id, a) => ActUndisturbed(w, s, id, a);
  }

  lemma {:induction false} RunUndisturbed(w: World, s: State, run: seq<Event>)
    requires Inv(w, s) && Undisturbed(s) && SameConfiguration(w) && Legal(w, s, run) && AllGentle(run)
    ensures !Discards(w, s, run, INDEXING)
    decreases |run|
  {
    if run != [] {
      var t := Apply(w, s, run[0]);
      assert Gentle(run[0]);
      StepUndisturbed(w, s, run[0]);
      EventKept(w, s, run[0]);
      assert forall i :: 0 <= i < |run[1..]| ==> run[1..][i] == run[i + 1];
      RunUndisturbed(w, t, run[1..]);
    }
  }

  // ---- attempts only grow ----

  /** A finished job has an attempt no lower than any it had before. */
  lemma AttemptsGrow(w: World, s: State, run: seq<Event>)
    requires Legal(w, s, run) && Finished(After(w, s, run).store)
    ensures After(w, s, run).store.attempt >= s.store.attempt
  {
    RunFloor(w, s, run, s.store.attempt);
  }

  // ---- a finished job stays as it is ----

  ghost predicate FinishedAs(attempt: nat, steps: StepTable, st: Store) {
    st.status == Completed && st.lease.None? && (!st.deleted ==> st.attempt == attempt && st.steps == steps)
  }

  lemma ActFinished(w: World, st: Store, id: nat, r: Runner, a: Action, attempt: nat, steps: StepTable)
    requires FinishedAs(attempt, steps, st) && Can(w, st, id, r, a)
    ensures FinishedAs(attempt, steps, Stepped(w, st, id, r, a))
  {
    hide Moved, LatestBelow, Below, Upsert, RemoveOwned, Validates, CheckpointFits;
  }

  lemma ChangeFinished(w: World, st: Store, c: Change, attempt: nat, steps: StepTable)
    requires FinishedAs(attempt, steps, st) && MayChange(w, st, c)
    ensures FinishedAs(attempt, steps, Changed(w, st, c))
  {
  }

  lemma {:induction false} StaysFinished(w: World, s: State, run: seq<Event>, attempt: nat, steps: StepTable)
    requires FinishedAs(attempt, steps, s.store) && Legal(w, s, run)
    ensures FinishedAs(attempt, steps, After(w, s, run).store)
    decreases |run|
  {
    if run != [] {
      hide Can, Stepped, Moved, MayChange, Changed;
      match run[0] {
        case Environment(c) => ChangeFinished(w, s.store, c, attempt, steps);
        case Claim(id) =>
        case Act(id, a) => ActFinished(w, s.store, id, s.runners[id], a, attempt, steps);
      }
      StaysFinished(w, Apply(w, s, run[0]), run[1..], attempt, steps);
    }
  }

  // ---- a process keeps its attempt and its outputs ----

  predicate GrownInto(r: Runner, r': Runner) {
    Grown(r, r', r'.started) && (r.started ==> r'.started)
  }

  /** Process `id` has grown since `s`, or it started above every attempt started by then. */
  predicate GrownSince(last: nat, before: map<nat, Runner>, after: State, id: nat) {
    && last <= after.store.lastStarted
    && (id in before && before[id].started ==> id in after.runners && after.runners[id].started)
    && (id in after.runners && after.runners[id].started ==>
          if id in before && before[id].started then GrownInto(before[id], after.runners[id]) else after.runners[id].attempt > last)
  }

  lemma LastStarted(w: World, st: Store, id: nat, r: Runner, a: Action)
    requires Can(w, st, id, r, a)
    ensures Stepped(w, st, id, r, a).lastStarted == if a.Start? then r.attempt else st.lastStarted
  {
    hide Can, Moved, LatestBelow, Below, Upsert, RemoveOwned, Validates, CheckpointFits;
    if !OnRow(a) && !InRun(a) && !OnDocuments(a) { IdleStore(w, st, id, r, a); }
  }

  lemma StartsAbove(w: World, st: Store, id: nat, r: Runner)
    requires Can(w, st, id, r, Start) && Claims(w, st, id, r) && Shape(w, r)
    ensures !r.started && r.attempt > st.lastStarted
  {
  }

  lemma ActGrows(w: World, st: Store, id: nat, r: Runner, a: Action)
    requires Can(w, st, id, r, a) && Claims(w, st, id, r) && Shape(w, r)
    ensures GrownInto(r, Moved(w, st, id, r, a)) && st.lastStarted <= Stepped(w, st, id, r, a).lastStarted
    ensures !r.started && Moved(w, st, id, r, a).started ==> r.attempt > st.lastStarted
  {
    hide Can, Moved, Stepped, Claims, Shape;
    Grows(w, st, id, r, a);
    LastStarted(w, st, id, r, a);
    if a.Start? { StartsAbove(w, st, id, r); }
  }

  lemma StepGrows(w: World, s: State, e: Event, last: nat, before: map<nat, Runner>, id: nat)
    requires Inv(w, s) && Enabled(w, s, e) && GrownSince(last, before, s, id)
    requires id in before ==> id in s.runners && before[id].attempt == s.runners[id].attempt
    ensures GrownSince(last, before, Apply(w, s, e), id)
    ensures id in before ==> id in Apply(w, s, e).runners && before[id].attempt == Apply(w, s, e).runners[id].attempt
  {
    hide StoreInv, Shape, Claims, Memory, Reuse, Traces, Current, Sent, Completer, Can, Moved, Stepped, Changed, MayChange;
    match e
    case Environment(c) => ChangeKeepsStarts(w, s.store, c);
    case Claim(_) =>
    case Act(i, a) =>
      assert Fits(w, s.store, i, s.runners[i]);
      ActGrows(w, s.store, i, s.runners[i], a);
      if i == id && id in before && before[id].started && s.runners[id].started {
        GrownTransitive(before[id], s.runners[id], Moved(w, s.store, id, s.runners[id], a));
      }
  }

  lemma GrownTransitive(a: Runner, b: Runner, c: Runner)
    requires GrownInto(a, b) && GrownInto(b, c)
    ensures GrownInto(a, c)
  {
    assert forall i :: 0 <= i < |a.outs| ==> c.outs[i] == b.outs[i];
  }

  lemma ChangeKeepsStarts(w: World, st: Store, c: Change)
    requires MayChange(w, st, c)
    ensures Changed(w, st, c).lastStarted == st.lastStarted
  {
    match c {
      case Tick => case Promote => case Recover => case RequestCancel => case RetryFailed => case RequestDeletion =>
      case DeleteDocument(_) => case Finalize => case Damage(_, _) =>
    }
  }

  lemma {:induction false} RunGrows(w: World, s: State, run: seq<Event>, last: nat, before: map<nat, Runner>, id: nat)
    requires Inv(w, s) && Legal(w, s, run) && GrownSince(last, before, s, id)
    requires id in before ==> id in s.runners && before[id].attempt == s.runners[id].attempt
    ensures GrownSince(last, before, After(w, s, run), id)
    decreases |run|
  {
    if run != [] {
      StepGrows(w, s, run[0], last, before, id);
      EventKept(w, s, run[0]);
      RunGrows(w, Apply(w, s, run[0]), run[1..], last, before, id);
    }
  }

  // ---- the check on one job ----

  /** A recorded indexing step is still the recorded one exactly when the attempt that made it is the one that completed. */
  lemma IndexingSurvivesIff(w: World, run: seq<Event>, s: State, more: seq<Event>, t: State)
    requires Reached(w, run, s) && Leads(w, s, more, t) && Finished(t.store) && INDEXING in s.store.steps
    ensures INDEXING in t.store.steps
    ensures t.store.steps[INDEXING] == s.store.steps[INDEXING] <==> s.store.steps[INDEXING].manifest == t.store.attempt
  {
    Joined(w, Initial, run, s, more, t);
    FinishedIsAChain(w, run + more, t);
    if s.store.steps[INDEXING].manifest == t.store.attempt {
      ReachedInv(w, run, s);
      ReachedInv(w, run + more, t);
      CompleterKnows(w, t);
      var c := t.store.completedBy;
      RunGrows(w, s, more, s.store.lastStarted, s.runners, c);
      assert StepTraces(s.store.steps, s.runners[c].attempt, s.runners[c].outs) by {
        assert Fits(w, s.store, c, s.runners[c]);
      }
      assert s.store.steps[INDEXING].checksum == OutputDigest(s.runners[c].outs[INDEXING]);
      assert t.store.steps[INDEXING].checksum == OutputDigest(t.runners[c].outs[INDEXING]);
    }
  }

  lemma StepsAreAPrefix(w: World, run: seq<Event>, s: State)
    requires Reached(w, run, s)
    ensures Next(s.store.stage) <= PUBLISH + 1 && forall k: nat :: k in s.store.steps <==> k < Next(s.store.stage)
    ensures PUBLISH in s.store.steps <==> Finished(s.store)
  {
    ReachedInv(w, run, s);
  }

  lemma {:induction false} RowsOf(steps: StepTable, n: nat)
    ensures forall i :: 0 <= i < |Rows(steps, n)| ==>
      var row := Rows(steps, n)[i];
      row.stage < n && row.stage in steps && row == Evidence(row.stage, true, steps[row.stage].manifest, steps[row.stage].checksum)
    ensures forall k: nat :: k < n && k in steps ==> Evidence(k, true, steps[k].manifest, steps[k].checksum) in Rows(steps, n)
    ensures Distinct(Stages(Rows(steps, n)))
  {
    if n > 0 {
      RowsOf(steps, n - 1);
      var before := Rows(steps, n - 1);
      if n - 1 in steps {
        var row := Evidence(n - 1, true, steps[n - 1].manifest, steps[n - 1].checksum);
        assert Rows(steps, n) == before + [row];
        assert Stages(before + [row]) == Stages(before) + [row.stage];
        forall k: nat | k < n && k in steps
          ensures Evidence(k, true, steps[k].manifest, steps[k].checksum) in before + [row]
        {
        }
      }
    }
  }

  /** The checkpoints of a snapshot survive in another one exactly when the step tables agree on them. */
  lemma SurviveIffKept(a: StepTable, b: StepTable, n: nat)
    requires forall k: nat :: k in a || k in b ==> k < n
    ensures AllSurvive(Rows(a, n), Rows(b, n)) <==> forall k: nat :: k in a ==> k in b && b[k] == a[k]
  {
    RowsOf(a, n);
    RowsOf(b, n);
    if AllSurvive(Rows(a, n), Rows(b, n)) {
      forall k: nat | k in a ensures k in b && b[k] == a[k] {
        var row := Evidence(k, true, a[k].manifest, a[k].checksum);
        var i :| 0 <= i < |Rows(a, n)| && Rows(a, n)[i] == row;
        assert Survives(row, Rows(b, n));
      }
    }
    if forall k: nat :: k in a ==> k in b && b[k] == a[k] {
      forall i | 0 <= i < |Rows(a, n)| ensures Survives(Rows(a, n)[i], Rows(b, n)) {
        var row := Rows(a, n)[i];
        assert row in Rows(b, n);
      }
    }
  }

  /** Once finished, both snapshots are of the same steps. */
  lemma FinishedTwice(w: World, run: seq<Event>, s: State, more: seq<Event>, t: State)
    requires Reached(w, run, s) && Leads(w, s, more, t) && Finished(s.store) && Finished(t.store)
    ensures t.store.steps == s.store.steps && t.store.attempt == s.store.attempt
  {
    ReachedInv(w, run, s);
    StaysFinished(w, s, more, s.store.attempt, s.store.steps);
  }

  lemma KeptIff(w: World, run: seq<Event>, s: State, more: seq<Event>, t: State)
    requires Reached(w, run, s) && Leads(w, s, more, t) && Finished(t.store)
    requires SameConfiguration(w) && Undisturbed(s) && AllGentle(more)
    ensures (forall k: nat :: k in s.store.steps ==> k in t.store.steps && t.store.steps[k] == s.store.steps[k])
      <==> (INDEXING in s.store.steps ==> s.store.steps[INDEXING].manifest == t.store.attempt)
  {
    ReachedInv(w, run, s);
    RunUndisturbed(w, s, more);
    RunKeepsBelow(w, s, more, INDEXING);
    StepsAreAPrefix(w, run, s);
    if INDEXING in s.store.steps { IndexingSurvivesIff(w, run, s, more, t); }
    if Finished(s.store) { FinishedTwice(w, run, s, more, t); }
    forall k: nat | k in s.store.steps && (INDEXING in s.store.steps ==> s.store.steps[INDEXING].manifest == t.store.attempt)
      ensures k in t.store.steps && t.store.steps[k] == s.store.steps[k]
    {
    }
  }

  /**
   An interrupted and resumed job passes the check on it exactly when a step of indexing, if it was recorded before the
   interruption, was made by the attempt that later completed; in particular whenever all of its steps precede indexing.
   */
  lemma ResumedJobRecoversIff(w: World, run: seq<Event>, s: State, more: seq<Event>, t: State)
    requires Reached(w, run, s) && Leads(w, s, more, t) && Finished(t.store)
    requires SameConfiguration(w) && Undisturbed(s) && AllGentle(more)
    ensures JobRecovered(SnapshotOf(w, s.store), SnapshotOf(w, t.store))
      <==> (INDEXING in s.store.steps ==> s.store.steps[INDEXING].manifest == t.store.attempt)
  {
    hide JobRecovered, SnapshotOf, Undisturbed, SameConfiguration, AllGentle;
    KeptIff(w, run, s, more, t);
    RecoversIffHolding(w, run, s, more, t);
  }

  lemma SegmentsPersist(w: World, run: seq<Event>, s: State, more: seq<Event>, t: State)
    requires Reached(w, run, s) && Leads(w, s, more, t) && Finished(t.store)
    ensures t.store.stage == Some(PUBLISH) && SnapshotOf(w, t.store).segmentIds != []
    ensures Distinct(SnapshotOf(w, t.store).segmentIds)
    ensures forall i :: 0 <= i < |SnapshotOf(w, t.store).segmentIds| ==> SnapshotOf(w, t.store).segmentIds[i].assetId == w.assetId
    ensures Contained(SnapshotOf(w, s.store).segmentIds, SnapshotOf(w, t.store).segmentIds)
  {
    Joined(w, Initial, run, s, more, t);
    ReachedInv(w, run + more, t);
    CompleterKnows(w, t);
    var documents := CompletedDocuments(t.store);
    assert DocumentsBound(w, t.store.attempt, documents);
    assert forall i :: 0 <= i < |documents| ==>
      ValidDocument(documents[i]) && OwnedBy(documents[i], w.assetId, w.jobId, t.store.attempt);
    if Finished(s.store) { FinishedTwice(w, run, s, more, t); }
  }

  // ---- the check on one job, whatever happened in between ----

  /** Stage `k` is not recorded, or only by attempt `a` or a later one. */
  predicate Redone(st: Store, k: nat, a: nat) {
    st.lastStarted >= a && (k in st.steps ==> st.steps[k].manifest >= a)
  }

  lemma RecordRedoes(w: World, st: Store, id: nat, r: Runner, a: Action, k: nat, n: nat)
    requires StoreInv(w, st) && Fits(w, st, id, r) && Can(w, st, id, r, a) && Redone(st, k, n) && (a == Record || a == Complete)
    ensures Redone(Stepped(w, st, id, r, a), k, n)
  {
    hide Checkpoints, Disk, Documents, Memory, Traces, Sent, Completer, Moved, StepLinked;
    if a == Record {
      RecordingExtends(w, st, id, r);
    }
  }

  lemma ActRedoes(w: World, st: Store, id: nat, r: Runner, a: Action, k: nat, n: nat)
    requires StoreInv(w, st) && Fits(w, st, id, r) && Can(w, st, id, r, a) && Redone(st, k, n)
    ensures Redone(Stepped(w, st, id, r, a), k, n)
  {
    hide StoreInv, Memory, Reuse, Shape, Traces, Claims, Current, Sent, Completer, Can, Stepped, Moved;
    if a == Record || a == Complete {
      RecordRedoes(w, st, id, r, a, k, n);
    } else if a == Adopt {
      NeverAdopts(w, st, id, r);
    } else {
      OthersRecordNothing(w, st, id, r, a, k);
    }
  }

  lemma OthersRecordNothing(w: World, st: Store, id: nat, r: Runner, a: Action, k: nat)
    requires Can(w, st, id, r, a) && Claims(w, st, id, r) && Shape(w, r) && a != Record && a != Complete && a != Adopt
    ensures st.lastStarted <= Stepped(w, st, id, r, a).lastStarted
    ensures k in Stepped(w, st, id, r, a).steps ==> k in st.steps && Stepped(w, st, id, r, a).steps[k] == st.steps[k]
  {
    hide Can, Moved, Claims, Shape, LatestBelow, Upsert, RemoveOwned, MemAfter;
    LastStarted(w, st, id, r, a);
    if a.Start? {
      StartsAbove(w, st, id, r);
    } else if OnRow(a) || InRun(a) || OnDocuments(a) {
      match a {
        case Renew => case RenewCleanup => case Release => case ScheduleRetry => case MarkFailed => case FinishCancel =>
        case Reset => case WriteManifest => case ProjectDocument(_) => case WritePublish => case RemoveDocument(_) =>
      }
    } else {
      IdleStore(w, st, id, r, a);
    }
  }

  lemma StepRedoes(w: World, s: State, e: Event, k: nat, n: nat)
    requires Inv(w, s) && Enabled(w, s, e) && Redone(s.store, k, n)
    ensures Redone(Apply(w, s, e).store, k, n)
  {
    hide StoreInv, Fits, Can, Stepped, Moved, MayChange, Changed;
    match e
    case Environment(c) => ChangeRedoes(w, s.store, c, k, n);
    case Claim(_) =>
    case Act(id, a) => ActRedoes(w, s.store, id, s.runners[id], a, k, n);
  }

  lemma ChangeRedoes(w: World, st: Store, c: Change, k: nat, n: nat)
    requires MayChange(w, st, c) && Redone(st, k, n)
    ensures Redone(Changed(w, st, c), k, n)
  {
    match c {
      case Tick => case Promote => case Recover => case RequestCancel => case RetryFailed => case RequestDeletion =>
      case DeleteDocument(_) => case Finalize => case Damage(_, _) =>
    }
  }

  lemma {:induction false} RunRedoes(w: World, s: State, run: seq<Event>, k: nat, n: nat)
    requires Inv(w, s) && Legal(w, s, run) && Redone(s.store, k, n)
    ensures Redone(After(w, s, run).store, k, n)
    decreases |run|
  {
    hide Inv, Enabled, Apply, Redone;
    if run != [] {
      StepRedoes(w, s, run[0], k, n);
      EventKept(w, s, run[0]);
      RunRedoes(w, Apply(w, s, run[0]), run[1..], k, n);
    }
  }

  /** What a process throws away was recorded by an earlier attempt, and can come back only with its own attempt or a later one. */
  lemma ResetRedoes(w: World, st: Store, id: nat, r: Runner)
    requires StoreInv(w, st) && Fits(w, st, id, r) && Can(w, st, id, r, Reset)
    ensures
      var k: nat := |r.outs|;
      k in st.steps && st.steps[k].manifest < r.attempt && Redone(Stepped(w, st, id, r, Reset), k, r.attempt)
  {
    hide Checkpoints, Disk, Documents, Memory, Traces, Sent, Completer, Moved, StepLinked;
  }

  lemma DiscardLoses(w: World, s: State, id: nat)
    requires Inv(w, s) && Enabled(w, s, Act(id, Reset))
    ensures
      var k: nat, a := |s.runners[id].outs|, s.runners[id].attempt;
      && !s.store.deleted && k in s.store.steps && s.store.steps[k].manifest < a
      && Redone(Apply(w, s, Act(id, Reset)).store, k, a)
  {
    hide StoreInv, Alone, Traces, Claims, Current, Sent, Completer, Stepped, Moved, Redone;
    assert Fits(w, s.store, id, s.runners[id]);
    ResetRedoes(w, s.store, id, s.runners[id]);
  }

  predicate Holding(steps: StepTable, st: Store) {
    forall k: nat :: k in steps ==> k in st.steps && st.steps[k] == steps[k]
  }

  /** A discarded step never comes back as it was. */
  lemma {:induction false} DiscardedIsLost(w: World, s: State, run: seq<Event>, steps: StepTable, n: nat)
    requires Inv(w, s) && Legal(w, s, run) && Discards(w, s, run, n)
    requires !s.store.deleted ==> Holding(steps, s.store)
    requires forall k: nat :: k in steps <==> k < n
    ensures !Holding(steps, After(w, s, run).store)
    decreases |run|
  {
    hide Inv, Apply, Can, MayChange, CleanupDue, RunDue;
    var e, t := run[0], Apply(w, s, run[0]);
    EventKept(w, s, e);
    if DiscardsBelow(s, e, n) {
      var k: nat, a := |s.runners[e.runner].outs|, s.runners[e.runner].attempt;
      DiscardLoses(w, s, e.runner);
      RunRedoes(w, t, run[1..], k, a);
    } else {
      StepKeepsBelow(w, s, e, n);
      DiscardedIsLost(w, t, run[1..], steps, n);
    }
  }

  /**
   A resumed job passes the check on it exactly when no process threw away a step that had been recorded before the
   interruption; whatever the configurations, whatever happened to the files, and however often it was interrupted again.
   */
  lemma RecoversIffNothingDiscarded(w: World, run: seq<Event>, s: State, more: seq<Event>, t: State)
    requires Reached(w, run, s) && Leads(w, s, more, t) && Finished(t.store)
    ensures JobRecovered(SnapshotOf(w, s.store), SnapshotOf(w, t.store)) <==> !Discards(w, s, more, Next(s.store.stage))
  {
    hide Inv, Legal, After, JobRecovered, SnapshotOf, Discards;
    StepsAreAPrefix(w, run, s);
    ReachedInv(w, run, s);
    RecoversIffHolding(w, run, s, more, t);
    if Discards(w, s, more, Next(s.store.stage)) {
      DiscardedIsLost(w, s, more, s.store.steps, Next(s.store.stage));
    } else {
      RunKeepsBelow(w, s, more, Next(s.store.stage));
    }
  }

  lemma RecoversIffHolding(w: World, run: seq<Event>, s: State, more: seq<Event>, t: State)
    requires Reached(w, run, s) && Leads(w, s, more, t) && Finished(t.store)
    ensures JobRecovered(SnapshotOf(w, s.store), SnapshotOf(w, t.store)) <==> Holding(s.store.steps, t.store)
  {
    hide Legal, After, Rows, Contained, Distinct;
    Joined(w, Initial, run, s, more, t);
    StepsAreAPrefix(w, run, s);
    StepsAreAPrefix(w, run + more, t);
    SurviveIffKept(s.store.steps, t.store.steps, PUBLISH + 1);
    RowsOf(t.store.steps, PUBLISH + 1);
    AttemptsGrow(w, s, more);
    SegmentsPersist(w, run, s, more, t);
  }

  // ---- the check on all three jobs ----

  /** One job of the check: its run up to the interruption and the run that finished it. */
  datatype Resumption = Resumption(world: World, run: seq<Event>, before: State, more: seq<Event>, after: State) {
    ghost predicate Valid() {
      Reached(world, run, before) && Leads(world, before, more, after) && Finished(after.store)
    }

    /** No process threw away a step that was recorded before the interruption. */
    ghost predicate KeptItsSteps()
      requires Valid()
    {
      !Discards(world, before, more, Next(before.store.stage))
    }

    /** One configuration, and neither the disk nor the artifacts were touched. */
    ghost predicate Calm() {
      SameConfiguration(world) && Undisturbed(before) && AllGentle(more)
    }

    predicate IndexedByTheLastAttempt() {
      INDEXING in before.store.steps ==> before.store.steps[INDEXING].manifest == after.store.attempt
    }

    predicate ChangedAttempt() { after.store.attempt > before.store.attempt }

    function Before(): Snapshot { SnapshotOf(world, before.store) }

    function After(): Snapshot { SnapshotOf(world, after.store) }
  }

  lemma DistinctJoin(a: seq<SegmentId>, b: seq<SegmentId>)
    requires Distinct(a) && Distinct(b)
    requires forall i, j :: 0 <= i < |a| && 0 <= j < |b| ==> a[i] != b[j]
    ensures Distinct(a + b)
  {
  }

  lemma SegmentsJoin(after: seq<Snapshot>, last: Snapshot)
    ensures Segments(after + [last]) == Segments(after) + last.segmentIds
  {
    assert (after + [last])[..|after|] == after;
  }

  lemma OnlyOf(assetId: string, ids: seq<SegmentId>, other: string, others: seq<SegmentId>)
    requires assetId != other
    requires forall i :: 0 <= i < |ids| ==> ids[i].assetId == assetId
    requires forall i :: 0 <= i < |others| ==> others[i].assetId == other
    ensures forall i, j :: 0 <= i < |ids| && 0 <= j < |others| ==> ids[i] != others[j]
  {
  }

  predicate OwnSegments(s: Snapshot) {
    Distinct(s.segmentIds) && forall i :: 0 <= i < |s.segmentIds| ==> s.segmentIds[i].assetId == s.assetId
  }

  lemma ThreeDistinct(a: Snapshot, b: Snapshot, c: Snapshot)
    requires OwnSegments(a) && OwnSegments(b) && OwnSegments(c)
    requires a.assetId != b.assetId && a.assetId != c.assetId && b.assetId != c.assetId
    ensures Distinct(Segments([a, b, c]))
  {
    hide Segments;
    OnlyOf(a.assetId, a.segmentIds, b.assetId, b.segmentIds);
    DistinctJoin(a.segmentIds, b.segmentIds);
    OnlyOf(a.assetId, a.segmentIds, c.assetId, c.segmentIds);
    OnlyOf(b.assetId, b.segmentIds, c.assetId, c.segmentIds);
    DistinctJoin(a.segmentIds + b.segmentIds, c.segmentIds);
    ThreeJoined(a, b, c);
  }

  lemma NoSegments()
    ensures Segments([]) == []
  {
  }

  lemma ThreeJoined(a: Snapshot, b: Snapshot, c: Snapshot)
    ensures Segments([a, b, c]) == a.segmentIds + b.segmentIds + c.segmentIds
  {
    hide Segments;
    NoSegments();
    SegmentsJoin([], a);
    SegmentsJoin([a], b);
    SegmentsJoin([a, b], c);
    assert [] + [a] == [a] && [a] + [b] == [a, b] && [a, b] + [c] == [a, b, c];
    assert [] + a.segmentIds == a.segmentIds;
  }

  lemma RecoveredOfThree(a: Snapshot, b: Snapshot, c: Snapshot, a': Snapshot, b': Snapshot, c': Snapshot)
    requires a'.assetId != b'.assetId && a'.assetId != c'.assetId && b'.assetId != c'.assetId
    requires Distinct(Segments([a', b', c']))
    ensures Recovered([a, b, c], [a', b', c']) <==>
      (&& JobRecovered(a, a') && JobRecovered(b, b') && JobRecovered(c, c')
       && (a'.attempt > a.attempt || b'.attempt > b.attempt || c'.attempt > c.attempt))
  {
    hide JobRecovered, Segments;
    var before, after := [a, b, c], [a', b', c'];
    assert before[0] == a && before[1] == b && before[2] == c && after[0] == a' && after[1] == b' && after[2] == c';
    assert Distinct(Assets(after));
  }

  lemma OneResumption(j: Resumption)
    requires j.Valid()
    ensures JobRecovered(j.Before(), j.After()) <==> j.KeptItsSteps()
    ensures j.Calm() ==> (j.KeptItsSteps() <==> j.IndexedByTheLastAttempt())
    ensures j.ChangedAttempt() <==> j.After().attempt > j.Before().attempt
    ensures j.After().assetId == j.world.assetId && OwnSegments(j.After())
  {
    hide JobRecovered, Discards, Legal, AllGentle, Undisturbed, SameConfiguration;
    RecoversIffNothingDiscarded(j.world, j.run, j.before, j.more, j.after);
    if j.Calm() {
      ResumedJobRecoversIff(j.world, j.run, j.before, j.more, j.after);
    }
    SegmentsPersist(j.world, j.run, j.before, j.more, j.after);
  }

  /**
   Three jobs of different assets, interrupted anywhere and later finished, pass the whole check exactly when none of them
   threw away a step recorded before, and at least one did change its attempt.
   */
  lemma InterruptedJobsPassIff(a: Resumption, b: Resumption, c: Resumption)
    requires a.Valid() && b.Valid() && c.Valid()
    requires a.world.assetId != b.world.assetId && a.world.assetId != c.world.assetId && b.world.assetId != c.world.assetId
    ensures Recovered([a.Before(), b.Before(), c.Before()], [a.After(), b.After(), c.After()]) <==>
      (&& a.KeptItsSteps() && b.KeptItsSteps() && c.KeptItsSteps()
       && (a.ChangedAttempt() || b.ChangedAttempt() || c.ChangedAttempt()))
    ensures a.Calm() && b.Calm() && c.Calm() ==>
      (Recovered([a.Before(), b.Before(), c.Before()], [a.After(), b.After(), c.After()]) <==>
         (&& a.IndexedByTheLastAttempt() && b.IndexedByTheLastAttempt() && c.IndexedByTheLastAttempt()
          && (a.ChangedAttempt() || b.ChangedAttempt() || c.ChangedAttempt())))
  {
    hide JobRecovered, SnapshotOf, Recovered, Segments, Discards, Legal, SameConfiguration, Undisturbed, AllGentle;
    OneResumption(a);
    OneResumption(b);
    OneResumption(c);
    ThreeDistinct(a.After(), b.After(), c.After());
    RecoveredOfThree(a.Before(), b.Before(), c.Before(), a.After(), b.After(), c.After());
  }

  // ---- a baseline the check rejects ----

  lemma SampleProductive()
    ensures Productive(SampleWorld())
  {
    var w := SampleWorld();
    forall attempt: nat, outs: seq<Output> | attempt >= 1 && |outs| < PUBLISH ensures Answers(w, attempt, outs) {
      var o := Output(0, [SampleDocument(attempt)]);
      assert DocumentsBound(w, attempt, o.documents);
      assert w.produces(|outs|, attempt, outs, o) && Validates(w, |outs|, attempt, outs, o);
    }
  }

  lemma RetriesAfterIndexing(w: World, id: nat, outs: seq<Output>, s: State) returns (more: seq<Event>, t: State)
    requires AtStage(w, s, id, outs) && |outs| == PUBLISH && w.maxAttempts > 1
    ensures Leads(w, s, more, t) && t.store.status == RetryWait && !t.store.deleted && t.store.attempt == 1
    ensures Floor(2, t.store) && t.store.steps == s.store.steps
  {
    hide Leads, Legal;
    more, t := First(w, s, Act(id, Fail(true)));
    more, t := Then(w, s, more, t, Act(id, ScheduleRetry));
  }

  /** The only attempt so far made every recorded step. */
  lemma FirstAttemptIndexed(w: World, run: seq<Event>, s: State, id: nat, outs: seq<Output>)
    requires Reached(w, run, s) && AtStage(w, s, id, outs) && |outs| == PUBLISH
    ensures INDEXING in s.store.steps && s.store.steps[INDEXING].manifest == 1
  {
    hide StepLinked;
    ReachedInv(w, run, s);
    assert INDEXING in s.store.steps;
  }

  /**
   The failure exists: a first attempt records its indexing step and fails, the job is resumed and completes, and the check
   rejects it because the later attempt had to index again.
   */
  lemma ResumedIndexingIsRejected() returns (run: seq<Event>, s: State, more: seq<Event>, t: State)
    ensures Reached(SampleWorld(), run, s) && Leads(SampleWorld(), s, more, t) && Finished(t.store)
    ensures INDEXING in s.store.steps && s.store.steps[INDEXING].manifest < t.store.attempt
    ensures !JobRecovered(SnapshotOf(SampleWorld(), s.store), SnapshotOf(SampleWorld(), t.store))
  {
    hide Leads, Legal, After, AtStage, JobRecovered, SnapshotOf, Productive, Discards, Floor;
    var w := SampleWorld();
    SampleProducible();
    SampleProductive();
    run, s := CleanStages(w, 0, SampleOutputs());
    assert Reached(w, run, s) by { LeadsReaches(w, run, s); }
    FirstAttemptIndexed(w, run, s, 0, SampleOutputs());
    var retry, u := RetriesAfterIndexing(w, 0, SampleOutputs(), s);
    Joined(w, Initial, run, s, retry, u);
    assert Reached(w, run + retry, u) by { LeadsReaches(w, run + retry, u); }
    var rest;
    rest, t := AttemptLeftCompletes(w, run + retry, u);
    Joined(w, s, retry, u, rest, t);
    more := retry + rest;
    SecondAttempt(w, u, rest, t);
    IndexingSurvivesIff(w, run, s, more, t);
    RecoversIffHolding(w, run, s, more, t);
  }

  lemma LeadsReaches(w: World, run: seq<Event>, s: State)
    requires Leads(w, Initial, run, s)
    ensures Reached(w, run, s)
  {
  }

  lemma SecondAttempt(w: World, u: State, rest: seq<Event>, t: State)
    requires Leads(w, u, rest, t) && Floor(2, u.store) && Finished(t.store)
    ensures t.store.attempt >= 2
  {
    RunFloor(w, u, rest, 2);
  }
}
