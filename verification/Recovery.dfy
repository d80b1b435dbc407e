/** The recovery check that compares three jobs before and after their worker was interrupted, and why resumed jobs pass it. */
module Recovery {
  import opened Options
  import opened Projection
  import opened Engine
  import opened EngineInvariant
  import opened EngineProofs
  import opened EngineTheorems
  import opened EngineProgress
  import opened Transitions

  datatype Evidence = Evidence(stage: nat, completed: bool, manifest: nat, checksum: Digest)

  datatype Snapshot = Snapshot(
    assetId: string,
    jobId: string,
    status: JobStatus,
    stage: Option<nat>,
    attempt: nat,
    checkpoints: seq<Evidence>,
    segmentIds: seq<SegmentId>)

  predicate Distinct<T(==)>(s: seq<T>) {
    forall i, j :: 0 <= i < j < |s| ==> s[i] != s[j]
  }

  function Stages(checkpoints: seq<Evidence>): (r: seq<nat>)
    ensures |r| == |checkpoints|
    ensures forall i :: 0 <= i < |r| ==> r[i] == checkpoints[i].stage
  {
    seq(|checkpoints|, i requires 0 <= i < |checkpoints| => checkpoints[i].stage)
  }

  /** A completed checkpoint is found again with the same manifest and the same checksum. */
  predicate Survives(checkpoint: Evidence, checkpoints: seq<Evidence>) {
    checkpoint.completed ==> exists i :: 0 <= i < |checkpoints| && checkpoints[i] == checkpoint
  }

  predicate AllSurvive(before: seq<Evidence>, after: seq<Evidence>) {
    forall i :: 0 <= i < |before| ==> Survives(before[i], after)
  }

  predicate Contained(a: seq<SegmentId>, b: seq<SegmentId>) {
    forall i :: 0 <= i < |a| ==> a[i] in b
  }

  /** What the check demands of one job. */
  predicate JobRecovered(before: Snapshot, after: Snapshot) {
    && after.jobId == before.jobId && after.assetId == before.assetId
    && after.status == Completed && after.stage == Some(PUBLISH)
    && after.attempt >= before.attempt
    && Distinct(Stages(after.checkpoints))
    && AllSurvive(before.checkpoints, after.checkpoints)
    && after.segmentIds != []
    && Contained(before.segmentIds, after.segmentIds)
  }

  function Assets(after: seq<Snapshot>): (r: seq<string>)
    ensures |r| == |after|
    ensures forall i :: 0 <= i < |r| ==> r[i] == after[i].assetId
  {
    seq(|after|, i requires 0 <= i < |after| => after[i].assetId)
  }

  function Segments(after: seq<Snapshot>): seq<SegmentId> {
    if after == [] then [] else Segments(after[..|after| - 1]) + after[|after| - 1].segmentIds
  }

  predicate Resumed(before: seq<Snapshot>, after: seq<Snapshot>)
    requires |before| == |after|
  {
    exists i :: 0 <= i < |before| && after[i].attempt > before[i].attempt
  }

  /** What the check demands of all three jobs together. */
  predicate Recovered(before: seq<Snapshot>, after: seq<Snapshot>) {
    && |before| == |after| == 3
    && (forall i :: 0 <= i < 3 ==> JobRecovered(before[i], after[i]))
    && Distinct(Assets(after)) && Distinct(Segments(after)) && Resumed(before, after)
  }

  datatype Rejection =
    | IdentityChanged | NotCompleted | AttemptBackwards | DuplicateStages | CheckpointLost
    | NoSegments | SegmentsLost | DuplicateAssets | DuplicateSegments | NothingResumed | WrongJobs

  method FindEvidence(checkpoints: seq<Evidence>, stage: nat) returns (found: Option<Evidence>)
    ensures found.Some? ==> found.value in checkpoints && found.value.stage == stage
    ensures found.None? ==> forall i :: 0 <= i < |checkpoints| ==> checkpoints[i].stage != stage
  {
    for i := 0 to |checkpoints|
      invariant forall j :: 0 <= j < i ==> checkpoints[j].stage != stage
    {
      if checkpoints[i].stage == stage {
        return Some(checkpoints[i]);
      }
    }
    return None;
  }

  lemma OnePerStage(checkpoint: Evidence, after: seq<Evidence>, observed: Option<Evidence>)
    requires Distinct(Stages(after)) && checkpoint.completed && observed != Some(checkpoint)
    requires observed.Some? ==> observed.value in after && observed.value.stage == checkpoint.stage
    requires observed.None? ==> forall i :: 0 <= i < |after| ==> after[i].stage != checkpoint.stage
    ensures !Survives(checkpoint, after)
  {
    forall i | 0 <= i < |after| ensures after[i] != checkpoint {
      if observed.Some? {
        var j :| 0 <= j < |after| && after[j] == observed.value;
        assert Stages(after)[i] == after[i].stage && Stages(after)[j] == after[j].stage;
      }
    }
  }

  method CheckpointsSurvive(before: seq<Evidence>, after: seq<Evidence>) returns (ok: bool)
    requires Distinct(Stages(after))
    ensures ok <==> AllSurvive(before, after)
  {
    for i := 0 to |before|
      invariant forall j :: 0 <= j < i ==> Survives(before[j], after)
    {
      if before[i].completed {
        var observed := FindEvidence(after, before[i].stage);
        if observed != Some(before[i]) {
          OnePerStage(before[i], after, observed);
          return false;
        }
      }
    }
    return true;
  }

  method HasDuplicates<T(==)>(s: seq<T>) returns (duplicate: bool)
    ensures duplicate <==> !Distinct(s)
  {
    var seen: set<T> := {};
    for i := 0 to |s|
      invariant seen == set j | 0 <= j < i :: s[j]
      invariant Distinct(s[..i])
    {
      if s[i] in seen {
        return true;
      }
      seen := seen + {s[i]};
    }
    assert s[..|s|] == s;
    return false;
  }

  method CheckJob(previous: Snapshot, current: Snapshot) returns (rejection: Option<Rejection>)
    ensures rejection.None? <==> JobRecovered(previous, current)
    ensures rejection == Some(IdentityChanged) <==> current.jobId != previous.jobId || current.assetId != previous.assetId
    ensures rejection == Some(NotCompleted) ==> current.status != Completed || current.stage != Some(PUBLISH)
    ensures rejection == Some(AttemptBackwards) ==> current.attempt < previous.attempt
    ensures rejection == Some(DuplicateStages) ==> !Distinct(Stages(current.checkpoints))
    ensures rejection == Some(NoSegments) ==> current.segmentIds == []
    ensures rejection == Some(SegmentsLost) ==>
      exists i :: 0 <= i < |previous.segmentIds| && previous.segmentIds[i] !in current.segmentIds
  {
    if current.jobId != previous.jobId || current.assetId != previous.assetId {
      return Some(IdentityChanged);
    }
    if current.status != Completed || current.stage != Some(PUBLISH) {
      return Some(NotCompleted);
    }
    if current.attempt < previous.attempt {
      return Some(AttemptBackwards);
    }
    var duplicate := HasDuplicates(Stages(current.checkpoints));
    if duplicate {
      return Some(DuplicateStages);
    }
    var survive := CheckpointsSurvive(previous.checkpoints, current.checkpoints);
    if !survive {
      return Some(CheckpointLost);
    }
    if current.segmentIds == [] {
      return Some(NoSegments);
    }
    if exists i :: 0 <= i < |previous.segmentIds| && previous.segmentIds[i] !in current.segmentIds {
      return Some(SegmentsLost);
    }
    return None;
  }

  lemma ResumedGrows(before: seq<Snapshot>, after: seq<Snapshot>, i: nat)
    requires |before| == |after| && i < |before|
    ensures Resumed(before[..i + 1], after[..i + 1]) <==> Resumed(before[..i], after[..i]) || after[i].attempt > before[i].attempt
    ensures !Resumed(before[..0], after[..0])
  {
    if Resumed(before[..i], after[..i]) {
      var j :| 0 <= j < i && after[..i][j].attempt > before[..i][j].attempt;
      assert after[..i + 1][j].attempt > before[..i + 1][j].attempt;
    }
    if after[i].attempt > before[i].attempt {
      assert after[..i + 1][i].attempt > before[..i + 1][i].attempt;
    }
    if Resumed(before[..i + 1], after[..i + 1]) {
      var j :| 0 <= j < i + 1 && after[..i + 1][j].attempt > before[..i + 1][j].attempt;
      if j < i { assert after[..i][j].attempt > before[..i][j].attempt; }
    }
  }

  lemma SegmentsGrow(after: seq<Snapshot>, i: nat)
    requires i < |after|
    ensures Segments(after[..i + 1]) == Segments(after[..i]) + after[i].segmentIds && Segments(after[..0]) == []
  {
    assert after[..i + 1][..i] == after[..i];
  }

  /** Job by job, accumulating assets, segments and the number of resumed attempts. */
  method AssertRecovery(before: seq<Snapshot>, after: seq<Snapshot>) returns (rejection: Option<Rejection>)
    ensures rejection.None? <==> Recovered(before, after)
  {
    hide JobRecovered, Resumed, Segments, Distinct;
    if |before| != 3 || |after| != 3 {
      return Some(WrongJobs);
    }
    var assets, segments, resumed := [], [], 0;
    ResumedGrows(before, after, 0);
    SegmentsGrow(after, 0);
    for i := 0 to 3
      invariant forall j :: 0 <= j < i ==> JobRecovered(before[j], after[j])
      invariant assets == Assets(after[..i]) && segments == Segments(after[..i])
      invariant resumed > 0 <==> Resumed(before[..i], after[..i])
    {
      var jobRejection := CheckJob(before[i], after[i]);
      if jobRejection.Some? {
        return jobRejection;
      }
      ResumedGrows(before, after, i);
      SegmentsGrow(after, i);
      if after[i].attempt > before[i].attempt {
        resumed := resumed + 1;
      }
      assets := assets + [after[i].assetId];
      segments := segments + after[i].segmentIds;
    }
    assert before[..3] == before && after[..3] == after;
    var duplicateAssets := HasDuplicates(assets);
    if duplicateAssets {
      return Some(DuplicateAssets);
    }
    var duplicateSegments := HasDuplicates(segments);
    if duplicateSegments {
      return Some(DuplicateSegments);
    }
    if resumed == 0 {
      return Some(NothingResumed);
    }
    return None;
  }

  // ---- the moment to interrupt the worker ----

  datatype Moment = TooLate(failed: bool) | Interruptible | NotYet

  predicate Failed(s: Snapshot) {
    s.status == JobStatus.Failed || s.status == JobStatus.Cancelled
  }

  predicate InFlight(s: Snapshot) {
    s.status != JobStatus.Completed
  }

  predicate HasCheckpoint(s: Snapshot) {
    exists i :: 0 <= i < |s.checkpoints| && s.checkpoints[i].completed
  }

  /**
   One look at the jobs: too late when one failed or all completed, the moment when something is recorded and something is
   still in flight, and otherwise to be looked at again.
   */
  method LookForBaseline(latest: seq<Snapshot>) returns (moment: Moment)
    ensures moment == TooLate(true) <==> exists i :: 0 <= i < |latest| && Failed(latest[i])
    ensures moment == TooLate(false) <==> forall i :: 0 <= i < |latest| ==> !InFlight(latest[i])
    ensures moment == Interruptible <==>
      && (forall i :: 0 <= i < |latest| ==> !Failed(latest[i]))
      && (exists i :: 0 <= i < |latest| && HasCheckpoint(latest[i]))
      && exists i :: 0 <= i < |latest| && InFlight(latest[i])
  {
    var recorded, inFlight := false, false;
    for i := 0 to |latest|
      invariant forall j :: 0 <= j < i ==> !Failed(latest[j])
      invariant recorded <==> exists j :: 0 <= j < i && HasCheckpoint(latest[j])
      invariant inFlight <==> exists j :: 0 <= j < i && InFlight(latest[j])
    {
      if Failed(latest[i]) {
        return TooLate(true);
      }
      recorded := recorded || HasCheckpoint(latest[i]);
      inFlight := inFlight || InFlight(latest[i]);
    }
    return if recorded && inFlight then Interruptible else if !inFlight then TooLate(false) else NotYet;
  }
}
