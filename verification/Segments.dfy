/** Cutting a video into segments of a fixed duration, the check of such a cut, and the frames taken from a segment. */
module Segments {
  import opened Options
  import opened Arithmetic
  import opened Text

  const MAX_REPRESENTATIVE_FRAMES := 16

  // Times in milliseconds; `durationMs` is absent until the video was probed.
  datatype Asset = Asset(assetId: string, durationMs: Option<nat>, timelineOrigin: int)

  datatype Segment = Segment(
    name: string,
    assetId: string,
    pipelineVersion: string,
    ordinal: nat,
    startOffsetMs: nat,
    endOffsetMs: nat,
    startTime: int,
    endTime: int)

  /** The name whose version-5 UUID is the segment's identifier. */
  function SegmentName(assetId: string, pipelineVersion: string, ordinal: nat): string {
    Join([assetId, pipelineVersion, Decimal(ordinal)], ':')
  }

  /** Names are distinct across assets, pipeline versions and ordinals, none of which holds a colon. */
  lemma SegmentNameInjective(a: string, v: string, n: nat, a': string, v': string, n': nat)
    requires ':' !in a && ':' !in v && ':' !in a' && ':' !in v'
    requires SegmentName(a, v, n) == SegmentName(a', v', n')
    ensures a == a' && v == v' && n == n'
  {
    var parts, parts' := [a, v, Decimal(n)], [a', v', Decimal(n')];
    SplitJoin(parts, ':');
    SplitJoin(parts', ':');
    assert parts[0] == parts'[0] && parts[1] == parts'[1] && parts[2] == parts'[2];
    DecimalInjective(n, n');
  }

  predicate SegmentOf(s: Segment, asset: Asset, pipelineVersion: string, ordinal: nat) {
    && s.name == SegmentName(asset.assetId, pipelineVersion, ordinal)
    && s.assetId == asset.assetId && s.pipelineVersion == pipelineVersion && s.ordinal == ordinal
    && s.startTime == asset.timelineOrigin + s.startOffsetMs && s.endTime == asset.timelineOrigin + s.endOffsetMs
    && s.startOffsetMs < s.endOffsetMs
  }

  /** Where the segment at `i` has to start: where the one before it ended. */
  function ExpectedStart(segments: seq<Segment>, i: nat): nat
    requires i <= |segments|
  {
    if i == 0 then 0 else segments[i - 1].endOffsetMs
  }

  /** A complete cut of the asset: non-empty, in order, each segment its own, and together the whole duration. */
  predicate CompleteCut(segments: seq<Segment>, asset: Asset, pipelineVersion: string) {
    && segments != [] && asset.durationMs == Some(ExpectedStart(segments, |segments|))
    && forall i :: 0 <= i < |segments| ==>
         SegmentOf(segments[i], asset, pipelineVersion, i) && segments[i].startOffsetMs == ExpectedStart(segments, i)
  }

  method CheckSegment(s: Segment, asset: Asset, pipelineVersion: string, ordinal: nat, expectedStart: nat) returns (ok: bool)
    ensures ok <==> SegmentOf(s, asset, pipelineVersion, ordinal) && s.startOffsetMs == expectedStart
  {
    hide SegmentName;
    ok := !(s.assetId != asset.assetId || s.pipelineVersion != pipelineVersion || s.ordinal != ordinal
      || s.name != SegmentName(asset.assetId, pipelineVersion, ordinal) || s.startOffsetMs != expectedStart
      || s.startTime != asset.timelineOrigin + s.startOffsetMs || s.endTime != asset.timelineOrigin + s.endOffsetMs
      || s.endOffsetMs <= s.startOffsetMs);
  }

  /** The validator's single pass accepts exactly the complete cuts. */
  method ValidateSegments(segments: seq<Segment>, asset: Asset, pipelineVersion: string) returns (accepted: bool)
    ensures accepted <==> CompleteCut(segments, asset, pipelineVersion)
  {
    hide SegmentOf;
    if segments == [] {
      return false;
    }
    var expectedStart := 0;
    for ordinal := 0 to |segments|
      invariant expectedStart == ExpectedStart(segments, ordinal)
      invariant forall i :: 0 <= i < ordinal ==>
        SegmentOf(segments[i], asset, pipelineVersion, i) && segments[i].startOffsetMs == ExpectedStart(segments, i)
    {
      var ok := CheckSegment(segments[ordinal], asset, pipelineVersion, ordinal, expectedStart);
      if !ok {
        return false;
      }
      expectedStart := segments[ordinal].endOffsetMs;
    }
    accepted := asset.durationMs == Some(expectedStart);
  }

  predicate Within(s: Segment, t: nat) {
    s.startOffsetMs <= t < s.endOffsetMs
  }

  lemma {:induction false} EndsIncrease(segments: seq<Segment>, asset: Asset, pipelineVersion: string, i: nat, j: nat)
    requires CompleteCut(segments, asset, pipelineVersion) && i < j < |segments|
    ensures segments[i].endOffsetMs <= segments[j].startOffsetMs
  {
    if i + 1 < j {
      EndsIncrease(segments, asset, pipelineVersion, i, j - 1);
      assert SegmentOf(segments[j - 1], asset, pipelineVersion, j - 1);
    }
  }

  lemma {:induction false} SomeSegment(segments: seq<Segment>, asset: Asset, pipelineVersion: string, t: nat, n: nat) returns (i: nat)
    requires CompleteCut(segments, asset, pipelineVersion) && 0 < n <= |segments| && t < segments[n - 1].endOffsetMs
    ensures i < n && Within(segments[i], t)
  {
    assert segments[n - 1].startOffsetMs == ExpectedStart(segments, n - 1);
    if t >= segments[n - 1].startOffsetMs {
      i := n - 1;
    } else {
      i := SomeSegment(segments, asset, pipelineVersion, t, n - 1);
    }
  }

  /** Every instant of the video lies in exactly one segment of a complete cut, and no other instant in any. */
  lemma ExactlyOneSegment(segments: seq<Segment>, asset: Asset, pipelineVersion: string, t: nat)
    requires CompleteCut(segments, asset, pipelineVersion)
    ensures t < asset.durationMs.value <==> exists i :: 0 <= i < |segments| && Within(segments[i], t)
    ensures forall i, j :: 0 <= i < |segments| && 0 <= j < |segments| && Within(segments[i], t) && Within(segments[j], t) ==> i == j
  {
    if t < asset.durationMs.value {
      var i := SomeSegment(segments, asset, pipelineVersion, t, |segments|);
    }
    forall i, j | 0 <= i < j < |segments| ensures !(Within(segments[i], t) && Within(segments[j], t)) {
      EndsIncrease(segments, asset, pipelineVersion, i, j);
    }
    forall i | 0 <= i < |segments| && Within(segments[i], t) ensures t < asset.durationMs.value {
      if i < |segments| - 1 {
        EndsIncrease(segments, asset, pipelineVersion, i, |segments| - 1);
        assert SegmentOf(segments[|segments| - 1], asset, pipelineVersion, |segments| - 1);
      }
    }
  }

  // ---- planning ----

  function PlannedSegment(asset: Asset, pipelineVersion: string, step: nat, i: nat): Segment
    requires asset.durationMs.Some? && i * step <= asset.durationMs.value
  {
    var start := i * step;
    var end := if start + step <= asset.durationMs.value then start + step else asset.durationMs.value;
    Segment(SegmentName(asset.assetId, pipelineVersion, i), asset.assetId, pipelineVersion, i, start, end,
            asset.timelineOrigin + start, asset.timelineOrigin + end)
  }

  /** One segment for every multiple of the step inside the video. */
  function PlanOf(asset: Asset, pipelineVersion: string, step: nat, n: nat): (r: seq<Segment>)
    requires asset.durationMs.Some? && step > 0 && n <= CeilingQuotient(asset.durationMs.value, step)
    ensures |r| == n
    ensures forall i :: 0 <= i < n ==> i * step < asset.durationMs.value && r[i] == PlannedSegment(asset, pipelineVersion, step, i)
  {
    if n == 0 then [] else
      StartsInside(asset.durationMs.value, step, n - 1);
      PlanOf(asset, pipelineVersion, step, n - 1) + [PlannedSegment(asset, pipelineVersion, step, n - 1)]
  }

  /** The planning loop; without a probed duration there is nothing to plan. */
  method Plan(asset: Asset, pipelineVersion: string, durationSeconds: nat) returns (plan: Option<seq<Segment>>)
    requires durationSeconds > 0
    ensures plan.None? <==> asset.durationMs.None?
    ensures plan.Some? ==>
      var step := durationSeconds * 1000;
      plan.value == PlanOf(asset, pipelineVersion, step, CeilingQuotient(asset.durationMs.value, step))
  {
    if asset.durationMs.None? {
      return None;
    }
    var duration, step := asset.durationMs.value, durationSeconds * 1000;
    var segments, start := [], 0;
    StartsInside(duration, step, 0);
    while start < duration
      invariant start == |segments| * step
      invariant |segments| <= CeilingQuotient(duration, step)
      invariant segments == PlanOf(asset, pipelineVersion, step, |segments|)
      decreases duration + step - start
    {
      StartsInside(duration, step, |segments|);
      NextMultiple(|segments|, step);
      segments := segments + [PlannedSegment(asset, pipelineVersion, step, |segments|)];
      start := start + step;
    }
    StartsInside(duration, step, |segments|);
    return Some(segments);
  }

  /** A plan is a complete cut for every positive duration; an empty video has no segments and is refused. */
  lemma PlanIsComplete(asset: Asset, pipelineVersion: string, step: nat)
    requires asset.durationMs.Some? && step > 0
    ensures
      var n := CeilingQuotient(asset.durationMs.value, step);
      CompleteCut(PlanOf(asset, pipelineVersion, step, n), asset, pipelineVersion) <==> asset.durationMs.value > 0
  {
    var duration := asset.durationMs.value;
    var n := CeilingQuotient(duration, step);
    var plan := PlanOf(asset, pipelineVersion, step, n);
    StartsInside(duration, step, 0);
    StartsInside(duration, step, n);
    forall i | 0 <= i < n
      ensures SegmentOf(plan[i], asset, pipelineVersion, i) && plan[i].startOffsetMs == ExpectedStart(plan, i)
      ensures i == n - 1 ==> plan[i].endOffsetMs == duration
    {
      NextMultiple(i, step);
      if i > 0 {
        NextMultiple(i - 1, step);
        assert plan[i - 1] == PlannedSegment(asset, pipelineVersion, step, i - 1);
      }
    }
  }

  /** All segments of a plan but the last are full, and the last is not longer than the others. */
  lemma PlanIsEven(asset: Asset, pipelineVersion: string, step: nat, i: nat)
    requires asset.durationMs.Some? && step > 0 && i < CeilingQuotient(asset.durationMs.value, step)
    ensures
      var n := CeilingQuotient(asset.durationMs.value, step);
      var s := PlanOf(asset, pipelineVersion, step, n)[i];
      && 0 < s.endOffsetMs - s.startOffsetMs <= step
      && (i < n - 1 ==> s.endOffsetMs - s.startOffsetMs == step)
  {
    StartsInside(asset.durationMs.value, step, i);
    StartsInside(asset.durationMs.value, step, i + 1);
    NextMultiple(i, step);
  }

  // ---- representative frames ----

  /** The `index`-th of `n` equal parts of `duration`, rounded down. */
  function Share(duration: nat, n: nat, index: nat): nat
    requires n > 0
  {
    duration * index / n
  }

  function FrameOffset(s: Segment, frames: nat, index: nat): nat
    requires s.startOffsetMs < s.endOffsetMs
  {
    s.startOffsetMs + Share(s.endOffsetMs - s.startOffsetMs, frames + 1, index)
  }

  datatype FrameError = BadFrameCount | CorruptMedia

  /** The offsets of the frames, spread evenly over the segment without its ends. */
  method FrameOffsets(s: Segment, frameCount: nat) returns (offsets: Result<seq<nat>, FrameError>)
    ensures offsets == Err(BadFrameCount) <==> !(1 <= frameCount <= MAX_REPRESENTATIVE_FRAMES)
    ensures offsets == Err(CorruptMedia) <==> 1 <= frameCount <= MAX_REPRESENTATIVE_FRAMES && s.endOffsetMs <= s.startOffsetMs
    ensures offsets.Ok? <==> 1 <= frameCount <= MAX_REPRESENTATIVE_FRAMES && s.startOffsetMs < s.endOffsetMs
    ensures offsets.Ok? ==> |offsets.value| == frameCount
    ensures offsets.Ok? ==> forall i :: 0 <= i < frameCount ==> offsets.value[i] == FrameOffset(s, frameCount, i + 1)
  {
    if !(1 <= frameCount <= MAX_REPRESENTATIVE_FRAMES) {
      return Err(BadFrameCount);
    }
    if s.endOffsetMs <= s.startOffsetMs {
      return Err(CorruptMedia);
    }
    var found := [];
    for index := 1 to frameCount + 1
      invariant |found| == index - 1
      invariant forall i :: 0 <= i < index - 1 ==> found[i] == FrameOffset(s, frameCount, i + 1)
    {
      found := found + [FrameOffset(s, frameCount, index)];
    }
    return Ok(found);
  }

  lemma Products(d: nat, i: nat, n: nat)
    requires i < n
    ensures d * (i + 1) == d * i + d && d * i + d <= d * n
  {
    MulMonotone(i + 1, n, d);
  }

  lemma Shares(d: nat, i: nat, n: nat)
    requires d > 0 && i < n
    ensures Share(d, n, i) < d && Share(d, n, i) <= Share(d, n, i + 1)
  {
    Products(d, i, n);
    var x, y := d * i, d * (i + 1);
    QuotientBelow(x, n, d);
    DivMonotone(x, y, n);
  }

  /** Frames lie inside their segment, in order. */
  lemma FramesInside(s: Segment, frames: nat, index: nat)
    requires s.startOffsetMs < s.endOffsetMs && 1 <= index <= frames
    ensures s.startOffsetMs <= FrameOffset(s, frames, index) < s.endOffsetMs
    ensures FrameOffset(s, frames, index) <= FrameOffset(s, frames, index + 1)
  {
    hide Share;
    Shares(s.endOffsetMs - s.startOffsetMs, index, frames + 1);
  }

  predicate DistinctFrames(s: Segment, frames: nat)
    requires s.startOffsetMs < s.endOffsetMs
  {
    forall i: nat :: 1 <= i < frames ==> FrameOffset(s, frames, i) < FrameOffset(s, frames, i + 1)
  }

  lemma Telescoped(n: nat, i: nat)
    requires 1 <= i < n
    ensures (n - 1) * i == (i - 1) * n + (n - i)
  {
  }

  lemma SharesSeparate(d: nat, i: nat, n: nat)
    requires 1 <= i < n - 1 <= d
    ensures Share(d, n, i) < Share(d, n, i + 1)
  {
    Products(d, i, n);
    var x, y := d * i, d * (i + 1);
    if d >= n {
      QuotientShift(x, n);
      DivMonotone(x + n, y, n);
    } else {
      Telescoped(n, i);
      Telescoped(n, i + 1);
      QuotientUnique(x, n, i - 1);
      QuotientUnique(y, n, i);
    }
  }

  /** With at least one millisecond per frame, consecutive frames are at different offsets. */
  lemma LongSegmentsSeparate(s: Segment, frames: nat, index: nat)
    requires s.startOffsetMs < s.endOffsetMs && 1 <= index < frames <= s.endOffsetMs - s.startOffsetMs
    ensures FrameOffset(s, frames, index) < FrameOffset(s, frames, index + 1)
  {
    hide Share;
    SharesSeparate(s.endOffsetMs - s.startOffsetMs, index, frames + 1);
  }

  lemma {:induction false} FramesClimb(s: Segment, frames: nat, index: nat)
    requires s.startOffsetMs < s.endOffsetMs && 1 <= index <= frames && DistinctFrames(s, frames)
    ensures FrameOffset(s, frames, index) >= s.startOffsetMs + index - 1
  {
    if index > 1 {
      FramesClimb(s, frames, index - 1);
    } else {
      FramesInside(s, frames, 1);
    }
  }

  /** All frames of a segment are different exactly when it has a millisecond for each; in a shorter one some coincide. */
  lemma DistinctFramesIff(s: Segment, frames: nat)
    requires s.startOffsetMs < s.endOffsetMs && frames >= 1
    ensures DistinctFrames(s, frames) <==> frames <= s.endOffsetMs - s.startOffsetMs
  {
    if frames <= s.endOffsetMs - s.startOffsetMs {
      forall i: nat | 1 <= i < frames ensures FrameOffset(s, frames, i) < FrameOffset(s, frames, i + 1) {
        LongSegmentsSeparate(s, frames, i);
      }
    } else if DistinctFrames(s, frames) {
      FramesClimb(s, frames, frames);
      FramesInside(s, frames, frames);
    }
  }

  lemma OneMillisecond(s: Segment, index: nat)
    requires s.endOffsetMs == s.startOffsetMs + 1 && 1 <= index <= 2
    ensures FrameOffset(s, 2, index) == s.startOffsetMs
  {
  }

  /** A segment of one millisecond, as the plan cuts it at the end of a video, has both of two frames at the same offset. */
  method ShortSegmentRepeatsAFrame(s: Segment) returns (offsets: Result<seq<nat>, FrameError>)
    requires s.endOffsetMs == s.startOffsetMs + 1
    ensures offsets == Ok([s.startOffsetMs, s.startOffsetMs])
  {
    hide FrameOffset;
    offsets := FrameOffsets(s, 2);
    OneMillisecond(s, 1);
    OneMillisecond(s, 2);
    assert offsets.value[0] == FrameOffset(s, 2, 0 + 1) && offsets.value[1] == FrameOffset(s, 2, 1 + 1);
    assert offsets.value == [s.startOffsetMs, s.startOffsetMs];
  }
}
