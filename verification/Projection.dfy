/**
 The attempt-fenced search projection: one document per segment, written by a scripted upsert
 that an older attempt cannot win, removed by exact attempt or by asset.

 Each bulk item and each deletion is one atomic document operation, so operations of different
 writers may interleave between them.
 */
module Projection {
  import opened Options

  // uuid5 over "asset:pipeline:ordinal", taken as injective; module Segments shows that the name is.
  datatype SegmentId = SegmentId(assetId: string, pipelineVersion: string, ordinal: nat)

  datatype Readiness = Readiness(assetId: string, jobId: string, pipelineVersion: string, attempt: nat)

  datatype Document = Document(
    id: SegmentId,
    assetId: string,
    videoId: string,
    segmentId: SegmentId,
    ordinal: nat,
    sensorId: string,
    jobId: string,
    jobAttempt: nat,
    readiness: Readiness,
    pipelineVersion: string,
    embeddingModel: string,
    startOffsetMs: nat,
    endOffsetMs: nat,
    dims: nat,
    content: nat)

  type Index = map<SegmentId, Document>

  /** The identity, readiness, range and vector rules a document must meet before it is sent. */
  predicate ValidDocument(d: Document) {
    && d.id == d.segmentId == SegmentId(d.assetId, d.pipelineVersion, d.ordinal)
    && d.assetId == d.videoId == d.sensorId
    && d.jobAttempt > 0
    && d.readiness == Readiness(d.assetId, d.jobId, d.pipelineVersion, d.jobAttempt)
    && d.startOffsetMs < d.endOffsetMs
    && d.dims > 0
  }

  /** One scripted upsert: the stored document survives only when a higher attempt wrote it. */
  function Upsert(index: Index, d: Document, attempt: nat): Index {
    if d.id in index && index[d.id].jobAttempt > attempt then index else index[d.id := d]
  }

  predicate OwnedBy(d: Document, assetId: string, jobId: string, attempt: nat) {
    d.assetId == assetId && d.jobId == jobId && d.jobAttempt == attempt
  }

  /** Removes one document if it still belongs to exactly this attempt. */
  function RemoveOwned(index: Index, id: SegmentId, assetId: string, jobId: string, attempt: nat): Index {
    if id in index && OwnedBy(index[id], assetId, jobId, attempt) then index - {id} else index
  }

  function RemoveAttempt(index: Index, assetId: string, jobId: string, attempt: nat): Index {
    map id | id in index && !OwnedBy(index[id], assetId, jobId, attempt) :: index[id]
  }


  /** The effect of a bulk whose i-th item succeeds exactly when `accepted[i]`. */
  function Bulk(index: Index, documents: seq<Document>, attempt: nat, accepted: seq<bool>): Index
    requires |documents| == |accepted|
  {
    if documents == [] then index
    else
      var last := |documents| - 1;
      var before := Bulk(index, documents[..last], attempt, accepted[..last]);
      if accepted[last] then Upsert(before, documents[last], attempt) else before
  }

  function Ids(documents: seq<Document>): (r: seq<SegmentId>)
    ensures |r| == |documents|
    ensures forall i :: 0 <= i < |r| ==> r[i] == documents[i].id
  {
    seq(|documents|, i requires 0 <= i < |documents| => documents[i].id)
  }

  predicate DistinctIds(documents: seq<Document>) {
    forall i, j :: 0 <= i < j < |documents| ==> documents[i].id != documents[j].id
  }

  /** The document identities at the positions where `accepted` is `value`. */
  function Selected(documents: seq<Document>, accepted: seq<bool>, value: bool): seq<SegmentId>
    requires |documents| == |accepted|
  {
    if documents == [] then []
    else
      var last := |documents| - 1;
      Selected(documents[..last], accepted[..last], value) +
      (if accepted[last] == value then [documents[last].id] else [])
  }

  datatype ProjectionError = InvalidDocument | IdentityMismatch | MixedContract

  datatype Acknowledged = Acknowledged(indexed: seq<SegmentId>, failed: seq<SegmentId>)

  /** The index object; `Project` and the two deletions change it in place. */
  class ProjectionStore {
    var index: Index

    constructor ()
      ensures index == map[]
    {
      index := map[];
    }

    /** Validates the whole bulk before the first write, then sends one upsert per document. */
    method Project(documents: seq<Document>, jobId: string, attempt: nat, accepted: seq<bool>)
      returns (result: Result<Acknowledged, ProjectionError>)
      requires |accepted| == |documents|
      modifies this
      ensures result.Err? ==> index == old(index)
      ensures result.Ok? <==>
        (forall i :: 0 <= i < |documents| ==>
          && ValidDocument(documents[i])
          && documents[i].jobId == jobId && documents[i].jobAttempt == attempt
          && documents[i].embeddingModel == documents[0].embeddingModel && documents[i].dims == documents[0].dims)
      ensures result == Err(InvalidDocument) <==> exists i :: 0 <= i < |documents| && !ValidDocument(documents[i])
      ensures result == Err(IdentityMismatch) ==>
        exists i :: 0 <= i < |documents| && (documents[i].jobId != jobId || documents[i].jobAttempt != attempt)
      ensures result == Err(MixedContract) ==>
        forall i :: 0 <= i < |documents| ==> documents[i].jobId == jobId && documents[i].jobAttempt == attempt
      ensures result.Ok? ==>
        && index == Bulk(old(index), documents, attempt, accepted)
        && result.value.indexed == Selected(documents, accepted, true)
        && result.value.failed == Selected(documents, accepted, false)
    {
      if documents == [] {
        return Ok(Acknowledged([], []));
      }
      if exists i :: 0 <= i < |documents| && !ValidDocument(documents[i]) {
        return Err(InvalidDocument);
      }
      if exists i :: 0 <= i < |documents| && (documents[i].jobId != jobId || documents[i].jobAttempt != attempt) {
        return Err(IdentityMismatch);
      }
      if exists i :: 0 <= i < |documents| &&
          (documents[i].embeddingModel != documents[0].embeddingModel || documents[i].dims != documents[0].dims) {
        return Err(MixedContract);
      }
      var indexed, failed := [], [];
      for i := 0 to |documents|
        invariant index == Bulk(old(index), documents[..i], attempt, accepted[..i])
        invariant indexed == Selected(documents[..i], accepted[..i], true)
        invariant failed == Selected(documents[..i], accepted[..i], false)
      {
        assert documents[..i + 1][..i] == documents[..i] && accepted[..i + 1][..i] == accepted[..i];
        if accepted[i] {
          index := Upsert(index, documents[i], attempt);
          indexed := indexed + [documents[i].id];
        } else {
          failed := failed + [documents[i].id];
        }
      }
      assert documents[..|documents|] == documents && accepted[..|documents|] == accepted;
      return Ok(Acknowledged(indexed, failed));
    }

    /** One document operation per hit; documents that could not be removed make the whole deletion fail. */
    method DeleteByQuery(query: Document -> bool, failures: set<SegmentId>) returns (ok: bool)
      modifies this
      ensures forall id :: id in index <==> id in old(index) && (query(old(index)[id]) ==> id in failures)
      ensures forall id :: id in index ==> index[id] == old(index)[id]
      ensures ok <==> forall id :: id in index ==> !query(index[id])
    {
      ok := true;
      var hits := set id | id in index && query(index[id]);
      while hits != {}
        invariant forall id :: id in hits ==> id in index && query(index[id])
        invariant forall id :: id in index <==> id in old(index) && (query(old(index)[id]) ==> id in hits || id in failures)
        invariant forall id :: id in index ==> index[id] == old(index)[id]
        invariant ok <==> forall id :: id in index && query(index[id]) ==> id in hits
        decreases hits
      {
        var id :| id in hits;
        hits := hits - {id};
        if id in failures {
          ok := false;
        } else {
          index := index - {id};
        }
      }
    }

    /** Exactly the documents of this asset, job and attempt go, but for removals that fail; it succeeds when none is left. */
    method DeleteProjection(assetId: string, jobId: string, attempt: nat, failures: set<SegmentId>) returns (ok: bool)
      modifies this
      ensures forall id :: id in index ==> id in old(index) && index[id] == old(index)[id]
      ensures forall id :: id in old(index) ==>
        (id !in index <==>
          && old(index)[id].assetId == assetId && old(index)[id].jobId == jobId && old(index)[id].jobAttempt == attempt
          && id !in failures)
      ensures ok <==> forall id :: id in index && index[id].assetId == assetId && index[id].jobId == jobId ==>
        index[id].jobAttempt != attempt
      ensures ok ==> index == RemoveAttempt(old(index), assetId, jobId, attempt)
    {
      ok := DeleteByQuery((d: Document) => d.assetId == assetId && d.jobId == jobId && d.jobAttempt == attempt, failures);
    }

    /** Exactly the documents of this asset go, whatever their job or attempt, but for removals that fail. */
    method DeleteAsset(assetId: string, failures: set<SegmentId>) returns (ok: bool)
      modifies this
      ensures forall id :: id in index ==> id in old(index) && index[id] == old(index)[id]
      ensures forall id :: id in old(index) ==> (id !in index <==> old(index)[id].assetId == assetId && id !in failures)
      ensures ok <==> forall id :: id in index ==> index[id].assetId != assetId
    {
      ok := DeleteByQuery((d: Document) => d.assetId == assetId, failures);
    }
  }

  /** The publish check: nothing failed, as many acknowledged as expected, and the same set. */
  predicate Acknowledges(documents: seq<Document>, result: Acknowledged) {
    && result.failed == []
    && |result.indexed| == |Ids(documents)|
    && (set id | id in result.indexed) == (set id | id in Ids(documents))
  }

  /** The check passes exactly when every item of the bulk was accepted. */
  lemma AcknowledgedExactly(documents: seq<Document>, accepted: seq<bool>)
    requires |documents| == |accepted|
    ensures Acknowledges(documents, Acknowledged(Selected(documents, accepted, true), Selected(documents, accepted, false)))
      <==> forall i :: 0 <= i < |accepted| ==> accepted[i]
  {
    SelectedAll(documents, accepted);
  }

  lemma {:induction false} SelectedAll(documents: seq<Document>, accepted: seq<bool>)
    requires |documents| == |accepted|
    ensures Selected(documents, accepted, false) == [] <==> forall i :: 0 <= i < |accepted| ==> accepted[i]
    ensures (forall i :: 0 <= i < |accepted| ==> accepted[i]) ==> Selected(documents, accepted, true) == Ids(documents)
  {
    if documents != [] {
      var last := |documents| - 1;
      SelectedAll(documents[..last], accepted[..last]);
      if forall i :: 0 <= i < |accepted| ==> accepted[i] {
        assert Ids(documents) == Ids(documents[..last]) + [documents[last].id];
      }
      if Selected(documents, accepted, false) == [] {
        forall i | 0 <= i < |accepted| ensures accepted[i] {
          if i < last { assert accepted[..last][i]; }
        }
      }
    }
  }

  /** The position of the last accepted document of one identity. */
  function LastAccepted(documents: seq<Document>, accepted: seq<bool>, id: SegmentId): (r: Option<nat>)
    requires |documents| == |accepted|
    ensures r.Some? ==> r.value < |documents| && documents[r.value].id == id && accepted[r.value]
    ensures forall i :: 0 <= i < |documents| && documents[i].id == id && accepted[i] ==> r.Some? && i <= r.value
  {
    if documents == [] then None
    else
      var last := |documents| - 1;
      if documents[last].id == id && accepted[last] then Some(last) else LastAccepted(documents[..last], accepted[..last], id)
  }

  /** What becomes of an identity when documents of one attempt are sent. */
  function Survivor(index: Index, documents: seq<Document>, attempt: nat, accepted: seq<bool>, id: SegmentId): Option<Document>
    requires |documents| == |accepted|
  {
    var last := LastAccepted(documents, accepted, id);
    if last.Some? && !(id in index && index[id].jobAttempt > attempt) then Some(documents[last.value])
    else if id in index then Some(index[id])
    else None
  }

  /**
   What a bulk leaves for each identity: the last accepted document that carries it, unless the stored document was already
   of a higher attempt; an identity of which nothing was accepted is untouched.
   */
  lemma {:induction false} BulkOutcome(index: Index, documents: seq<Document>, attempt: nat, accepted: seq<bool>, id: SegmentId)
    requires |documents| == |accepted|
    requires forall i :: 0 <= i < |documents| ==> documents[i].jobAttempt == attempt
    ensures
      var after := Bulk(index, documents, attempt, accepted);
      (if id in after then Some(after[id]) else None) == Survivor(index, documents, attempt, accepted, id)
  {
    if documents != [] {
      var last := |documents| - 1;
      BulkOutcome(index, documents[..last], attempt, accepted[..last], id);
    }
  }

  /**
   Rolling back attempt `a` after any bulk of it, over an index without documents of `a`: what was there before stays exactly
   unless an accepted document took its place, and nothing else is there.
   */
  lemma RollbackUndoesBulk(index: Index, documents: seq<Document>, assetId: string, jobId: string, attempt: nat, accepted: seq<bool>)
    requires |documents| == |accepted|
    requires forall i :: 0 <= i < |documents| ==> OwnedBy(documents[i], assetId, jobId, attempt)
    requires forall id :: id in index ==> !OwnedBy(index[id], assetId, jobId, attempt)
    ensures
      var after := RemoveAttempt(Bulk(index, documents, attempt, accepted), assetId, jobId, attempt);
      && (forall id :: id in after <==>
            id in index && (index[id].jobAttempt > attempt || LastAccepted(documents, accepted, id).None?))
      && (forall id :: id in after ==> after[id] == index[id])
  {
    var bulk := Bulk(index, documents, attempt, accepted);
    var after := RemoveAttempt(bulk, assetId, jobId, attempt);
    forall id
      ensures id in after <==>
        id in index && (index[id].jobAttempt > attempt || LastAccepted(documents, accepted, id).None?)
      ensures id in after ==> after[id] == index[id]
    {
      BulkOutcome(index, documents, attempt, accepted, id);
    }
  }
}
