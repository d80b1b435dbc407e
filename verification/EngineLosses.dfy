/** What a bulk and its rollback leave in the index, and the two ways in which documents are lost or left behind. */
module EngineLosses {
  import opened Options
  import opened Projection
  import opened Engine
  import opened EngineInvariant
  import opened EngineProofs
  import opened EngineTheorems
  import opened EngineProgress

  // ---- a rollback as steps ----

  lemma RemovesOne(w: World, s: State, id: nat, d: SegmentId) returns (t: State)
    requires id in s.runners && s.runners[id].pc.RollingBack? && d in s.runners[id].pc.todo
    ensures Enabled(w, s, Act(id, RemoveDocument(d))) && t == Apply(w, s, Act(id, RemoveDocument(d))) && id in t.runners
    ensures t.runners[id] == s.runners[id].(pc := RollingBack(s.runners[id].pc.todo - {d}, s.runners[id].pc.retryable), cleared := false)
    ensures t.store == s.store.(docs := RemoveOwned(s.store.docs, d, w.assetId, w.jobId, s.runners[id].attempt))
  {
    hide RemoveOwned;
    t := Apply(w, s, Act(id, RemoveDocument(d)));
  }

  lemma RemoveOneOfSome(w: World, docs: Index, attempt: nat, d: SegmentId, todo: set<SegmentId>)
    requires d in todo
    ensures RemoveSome(w, RemoveOwned(docs, d, w.assetId, w.jobId, attempt), attempt, todo - {d}) == RemoveSome(w, docs, attempt, todo)
    ensures RemoveSome(w, docs, attempt, {}) == docs
  {
  }

  lemma {:induction false} RollsBack(w: World, s: State, id: nat) returns (run: seq<Event>, t: State)
    requires id in s.runners && s.runners[id].pc.RollingBack?
    ensures Leads(w, s, run, t) && id in t.runners
    ensures t.store == s.store.(docs := RemoveSome(w, s.store.docs, s.runners[id].attempt, s.runners[id].pc.todo))
    ensures t.runners[id] == s.runners[id].(pc := Errored(s.runners[id].pc.retryable, true), cleared := false)
    decreases s.runners[id].pc.todo
  {
    hide Leads, Legal, After, RemoveSome, RemoveOwned, Can, Moved, Stepped;
    var r := s.runners[id];
    if r.pc.todo == {} {
      RollbackEnds(w, s.store, id, r);
      run, t := First(w, s, Act(id, EndRollback(true)));
    } else {
      var d :| d in r.pc.todo;
      RemoveOneOfSome(w, s.store.docs, r.attempt, d, r.pc.todo);
      var next := RemovesOne(w, s, id, d);
      run, t := First(w, s, Act(id, RemoveDocument(d)));
      var rest, u := RollsBack(w, next, id);
      Joined(w, s, run, t, rest, u);
      run, t := run + rest, u;
    }
  }

  lemma RollbackEnds(w: World, st: Store, id: nat, r: Runner)
    requires r.pc.RollingBack? && r.pc.todo == {}
    ensures Can(w, st, id, r, EndRollback(true))
    ensures Moved(w, st, id, r, EndRollback(true)) == r.(pc := Errored(r.pc.retryable, true), cleared := false)
    ensures Stepped(w, st, id, r, EndRollback(true)) == st.(docs := RemoveSome(w, st.docs, r.attempt, {}))
  {
    assert RemoveSome(w, st.docs, r.attempt, {}) == st.docs;
  }

  /** The index without those of some documents that are of one attempt. */
  function RemoveSome(w: World, docs: Index, attempt: nat, todo: set<SegmentId>): Index {
    map d | d in docs && !(d in todo && OwnedBy(docs[d], w.assetId, w.jobId, attempt)) :: docs[d]
  }

  // ---- the bulk and its rollback as steps ----

  function BulkRun(id: nat, accepted: seq<bool>): (run: seq<Event>)
    ensures |run| == |accepted| && forall i :: 0 <= i < |run| ==> run[i] == Act(id, ProjectDocument(accepted[i]))
  {
    seq(|accepted|, i requires 0 <= i < |accepted| => Act(id, ProjectDocument(accepted[i])))
  }

  /** A process that is about to send, with the answers the index is going to give. */
  predicate AboutToSend(r: Runner, accepted: seq<bool>) {
    r.pc == Projecting(0, false) && |r.outs| == PUBLISH && |r.outs[INDEXING].documents| == |accepted|
  }

  lemma SendsOne(w: World, s: State, id: nat, accepted: bool) returns (t: State)
    requires id in s.runners && s.runners[id].pc.Projecting? && |s.runners[id].outs| == PUBLISH
    requires s.runners[id].pc.sent < |s.runners[id].outs[INDEXING].documents|
    ensures Enabled(w, s, Act(id, ProjectDocument(accepted))) && t == Apply(w, s, Act(id, ProjectDocument(accepted)))
    ensures
      var r := s.runners[id];
      t.runners == s.runners[id := r.(pc := Projecting(r.pc.sent + 1, r.pc.refused || !accepted), cleared := false)]
    ensures
      var r := s.runners[id];
      var d := r.outs[INDEXING].documents[r.pc.sent];
      t.store == s.store.(docs := if accepted then Upsert(s.store.docs, d, r.attempt) else s.store.docs)
  {
    hide Upsert;
    t := Apply(w, s, Act(id, ProjectDocument(accepted)));
  }

  lemma BulkGrows(docs: Index, documents: seq<Document>, attempt: nat, accepted: seq<bool>, n: nat)
    requires |documents| == |accepted| && n < |documents|
    ensures
      var before := Bulk(docs, documents[..n], attempt, accepted[..n]);
      Bulk(docs, documents[..n + 1], attempt, accepted[..n + 1])
        == if accepted[n] then Upsert(before, documents[n], attempt) else before
    ensures false in accepted[..n + 1] <==> false in accepted[..n] || !accepted[n]
  {
    assert documents[..n + 1][..n] == documents[..n] && accepted[..n + 1][..n] == accepted[..n];
    assert accepted[..n + 1] == accepted[..n] + [accepted[n]];
  }

  lemma {:induction false} BulkPrefix(w: World, s: State, id: nat, accepted: seq<bool>, n: nat) returns (t: State)
    requires id in s.runners && AboutToSend(s.runners[id], accepted) && n <= |accepted|
    ensures Leads(w, s, BulkRun(id, accepted[..n]), t) && id in t.runners
    ensures t.runners[id] == s.runners[id].(pc := Projecting(n, false in accepted[..n]), cleared := n == 0 && s.runners[id].cleared)
    ensures
      var r := s.runners[id];
      t.store == s.store.(docs := Bulk(s.store.docs, r.outs[INDEXING].documents[..n], r.attempt, accepted[..n]))
  {
    hide Leads, Bulk, Upsert, Enabled, Apply;
    if n == 0 {
      t := s;
      Here(w, s);
      NothingSent(s.store.docs, s.runners[id].attempt);
      assert BulkRun(id, accepted[..0]) == [];
    } else {
      var u := BulkPrefix(w, s, id, accepted, n - 1);
      BulkGrows(s.store.docs, s.runners[id].outs[INDEXING].documents, s.runners[id].attempt, accepted, n - 1);
      t := SendsOne(w, u, id, accepted[n - 1]);
      var run, _ := Then(w, s, BulkRun(id, accepted[..n - 1]), u, Act(id, ProjectDocument(accepted[n - 1])));
      assert run == BulkRun(id, accepted[..n]);
    }
  }

  lemma NothingSent(docs: Index, attempt: nat)
    ensures Bulk(docs, [], attempt, []) == docs
  {
  }

  /**
   The bulk as the steps of one process is the bulk of the projection, and the process counts a refusal exactly when the
   publish check on the acknowledged identities fails.
   */
  lemma BulkIsItsSteps(w: World, s: State, id: nat, accepted: seq<bool>) returns (t: State)
    requires id in s.runners && AboutToSend(s.runners[id], accepted)
    ensures Leads(w, s, BulkRun(id, accepted), t) && id in t.runners
    ensures
      var r := s.runners[id];
      var documents := r.outs[INDEXING].documents;
      && t.store == s.store.(docs := Bulk(s.store.docs, documents, r.attempt, accepted))
      && t.runners[id].pc.Projecting?
      && t.runners[id] == r.(pc := Projecting(|documents|, t.runners[id].pc.refused), cleared := t.runners[id].cleared)
      && (!t.runners[id].pc.refused <==>
            Acknowledges(documents, Acknowledged(Selected(documents, accepted, true), Selected(documents, accepted, false))))
  {
    var documents := s.runners[id].outs[INDEXING].documents;
    t := BulkPrefix(w, s, id, accepted, |accepted|);
    assert accepted[..|accepted|] == accepted && documents[..|documents|] == documents;
    AcknowledgedExactly(documents, accepted);
  }

  lemma AttemptRemoved(w: World, docs: Index, attempt: nat)
    ensures RemoveSome(w, docs, attempt, OfAttempt(docs, attempt)) == RemoveAttempt(docs, w.assetId, w.jobId, attempt)
  {
  }

  lemma NothingProjectedYet(w: World, run: seq<Event>, s: State, id: nat)
    requires Reached(w, run, s) && id in s.runners && Can(w, s.store, id, s.runners[id], BeginPublish)
    ensures
      var r := s.runners[id];
      && |r.outs| == PUBLISH && !r.projecting && !r.swept && DocumentsBound(w, r.attempt, r.outs[INDEXING].documents)
      && forall d :: d in s.store.docs ==> !OwnedBy(s.store.docs[d], w.assetId, w.jobId, r.attempt)
  {
    ReachedInv(w, run, s);
    var r := s.runners[id];
    assert Fits(w, s.store, id, r);
    assert DocumentTraces(s.store.docs, r);
  }

  lemma Begins(w: World, s: State, id: nat, accepted: seq<bool>) returns (t: State)
    requires id in s.runners && Can(w, s.store, id, s.runners[id], BeginPublish)
    requires |s.runners[id].outs[INDEXING].documents| == |accepted|
    ensures Enabled(w, s, Act(id, BeginPublish)) && t == Apply(w, s, Act(id, BeginPublish))
    ensures t == s.(runners := s.runners[id := s.runners[id].(pc := Projecting(0, false), projecting := true, cleared := false)])
    ensures AboutToSend(t.runners[id], accepted)
  {
    t := Apply(w, s, Act(id, BeginPublish));
  }

  lemma FailsPublishing(w: World, s: State, id: nat, retryable: bool) returns (t: State)
    requires id in s.runners && s.runners[id].pc.Projecting? && s.runners[id].projecting && !s.runners[id].swept
    ensures Enabled(w, s, Act(id, Fail(retryable))) && t == Apply(w, s, Act(id, Fail(retryable)))
    ensures t.store == s.store && id in t.runners
    ensures t.runners[id] == s.runners[id].(pc := RollingBack(OfAttempt(s.store.docs, s.runners[id].attempt), retryable), cleared := false)
  {
    t := Apply(w, s, Act(id, Fail(retryable)));
  }

  lemma BeginsAndFails(w: World, s: State, id: nat, accepted: seq<bool>, retryable: bool) returns (run: seq<Event>, t: State)
    requires id in s.runners && Can(w, s.store, id, s.runners[id], BeginPublish) && !s.runners[id].swept
    requires |s.runners[id].outs[INDEXING].documents| == |accepted|
    ensures Leads(w, s, run, t) && id in t.runners
    ensures
      var r := s.runners[id];
      var docs := Bulk(s.store.docs, r.outs[INDEXING].documents, r.attempt, accepted);
      && t.store.docs == docs && t.runners[id].attempt == r.attempt
      && t.runners[id].pc == RollingBack(OfAttempt(docs, r.attempt), retryable)
  {
    hide Leads, Bulk, OfAttempt, Acknowledges, Enabled, Apply;
    t := Begins(w, s, id, accepted);
    var begun, _ := First(w, s, Act(id, BeginPublish));
    var u := BulkIsItsSteps(w, t, id, accepted);
    Joined(w, s, begun, t, BulkRun(id, accepted), u);
    t := FailsPublishing(w, u, id, retryable);
    var failed;
    run, failed := Then(w, s, begun + BulkRun(id, accepted), u, Act(id, Fail(retryable)));
  }

  /**
   A publication that fails after its bulk, whatever the index accepted of it, and is then rolled back leaves the index as
   it was before, but for those documents of lower attempts that an accepted document had replaced.
   */
  lemma FailedPublicationRestores(w: World, run: seq<Event>, s: State, id: nat, accepted: seq<bool>, retryable: bool)
    returns (more: seq<Event>, t: State)
    requires Reached(w, run, s) && id in s.runners && Can(w, s.store, id, s.runners[id], BeginPublish)
    requires |s.runners[id].outs[INDEXING].documents| == |accepted|
    ensures Leads(w, s, more, t) && id in t.runners && t.runners[id].pc == Errored(retryable, true)
    ensures forall d :: d in t.store.docs <==>
      d in s.store.docs && (s.store.docs[d].jobAttempt > s.runners[id].attempt
                            || LastAccepted(s.runners[id].outs[INDEXING].documents, accepted, d).None?)
    ensures forall d :: d in t.store.docs ==> t.store.docs[d] == s.store.docs[d]
  {
    hide Leads, Can, Bulk, RemoveSome, RemoveAttempt, LastAccepted, ValidDocument;
    NothingProjectedYet(w, run, s, id);
    var documents, attempt := s.runners[id].outs[INDEXING].documents, s.runners[id].attempt;
    more, t := BeginsAndFails(w, s, id, accepted, retryable);
    AttemptRemoved(w, t.store.docs, attempt);
    RollbackUndoesBulk(s.store.docs, documents, w.assetId, w.jobId, attempt, accepted);
    var rest, u := RollsBack(w, t, id);
    Joined(w, s, more, t, rest, u);
    more, t := more + rest, u;
  }

  // ---- what an exception after the commit costs ----

  /** Any committed completion, however undisturbed, loses all its documents when an exception follows the commit. */
  lemma InterruptedCompletionLosesDocuments(w: World, run: seq<Event>, s: State) returns (more: seq<Event>, t: State)
    requires Reached(w, run, s) && Finished(s.store) && !s.store.projectionDeleted
    requires s.store.completedBy in s.runners && s.runners[s.store.completedBy].pc == Committed
    ensures Leads(w, s, more, t) && Finished(t.store) && !t.store.projectionDeleted && INDEXING in t.store.steps
    ensures CompletedDocuments(t.store) != []
    ensures forall d: Document :: d in CompletedDocuments(t.store) ==> d.id !in t.store.docs || t.store.docs[d.id] != d
  {
    hide Leads, Legal, After;
    var id := s.store.completedBy;
    more, t := First(w, s, Act(id, Interrupt));
    var rest, u := RollsBack(w, t, id);
    Joined(w, s, more, t, rest, u);
    more, t := more + rest, u;
    Joined(w, Initial, run, s, more, t);
    ReachedInv(w, run + more, t);
    CompleterKnows(w, t);
    var r := t.runners[id];
    assert Compensation(t.store.docs, r) && DocumentsBound(w, r.attempt, CompletedDocuments(t.store));
    forall d: Document | d in CompletedDocuments(t.store) ensures d.id !in t.store.docs || t.store.docs[d.id] != d {
      assert OwnedBy(d, w.assetId, w.jobId, r.attempt);
    }
  }

  lemma {:induction false} RemovesAll(w: World, s: State, id: nat, gone: set<SegmentId>) returns (run: seq<Event>, t: State)
    requires id in s.runners && s.runners[id].pc.RollingBack? && gone <= s.runners[id].pc.todo
    ensures Leads(w, s, run, t) && id in t.runners
    ensures t.store == s.store.(docs := RemoveSome(w, s.store.docs, s.runners[id].attempt, gone))
    ensures t.runners[id].pc == RollingBack(s.runners[id].pc.todo - gone, s.runners[id].pc.retryable)
    decreases gone
  {
    hide Leads, RemoveSome, RemoveOwned, Enabled, Apply;
    var r := s.runners[id];
    if gone == {} {
      Here(w, s);
      NoneRemoved(w, s.store.docs, r.attempt);
      run, t := [], s;
    } else {
      var d :| d in gone;
      RemoveOneOfSome(w, s.store.docs, r.attempt, d, gone);
      var next := RemovesOne(w, s, id, d);
      run, t := First(w, s, Act(id, RemoveDocument(d)));
      var rest, u := RemovesAll(w, next, id, gone - {d});
      Joined(w, s, run, t, rest, u);
      assert r.pc.todo - {d} - (gone - {d}) == r.pc.todo - gone;
      run, t := run + rest, u;
    }
  }

  lemma NoneRemoved(w: World, docs: Index, attempt: nat)
    ensures RemoveSome(w, docs, attempt, {}) == docs
  {
  }

  /** The documents of the completing attempt that are in the index. */
  function KeptDocuments(st: Store): set<SegmentId> {
    OfAttempt(st.docs, st.attempt)
  }

  lemma CommittedOwns(w: World, run: seq<Event>, s: State)
    requires Reached(w, run, s) && Finished(s.store) && !s.store.projectionDeleted
    requires s.store.completedBy in s.runners && s.runners[s.store.completedBy].pc == Committed
    ensures s.runners[s.store.completedBy].attempt == s.store.attempt
    ensures forall d :: d in s.store.docs && s.store.docs[d].jobAttempt == s.store.attempt ==>
      OwnedBy(s.store.docs[d], w.assetId, w.jobId, s.store.attempt)
  {
    ReachedInv(w, run, s);
    CompleterKnows(w, s);
    var r := s.runners[s.store.completedBy];
    assert DocumentTraces(s.store.docs, r);
    forall d | d in s.store.docs && s.store.docs[d].jobAttempt == s.store.attempt
      ensures OwnedBy(s.store.docs[d], w.assetId, w.jobId, s.store.attempt)
    {
      assert s.store.docs[d] in r.outs[INDEXING].documents;
    }
  }

  /** When the rollback after the commit itself fails, any part of the documents, all and none included, may be what remains. */
  lemma FailedRollbackLeavesAnyPart(w: World, run: seq<Event>, s: State, kept: set<SegmentId>) returns (more: seq<Event>, t: State)
    requires Reached(w, run, s) && Finished(s.store) && !s.store.projectionDeleted
    requires s.store.completedBy in s.runners && s.runners[s.store.completedBy].pc == Committed
    requires kept <= KeptDocuments(s.store)
    ensures Leads(w, s, more, t) && Finished(t.store) && !t.store.projectionDeleted && t.store.steps == s.store.steps
    ensures s.store.completedBy in t.runners && t.runners[s.store.completedBy].pc == Errored(false, false)
    ensures KeptDocuments(t.store) == kept && forall d :: d in kept ==> t.store.docs[d] == s.store.docs[d]
  {
    hide Leads, Legal, After, ValidDocument, DocumentsBound;
    var id := s.store.completedBy;
    CommittedOwns(w, run, s);
    more, t := First(w, s, Act(id, Interrupt));
    var rest, u := RemovesAll(w, t, id, KeptDocuments(s.store) - kept);
    Joined(w, s, more, t, rest, u);
    more, t := Then(w, s, more + rest, u, Act(id, EndRollback(false)));
  }

  // ---- what a second owner of a cancelled attempt cannot clean up ----

  lemma ClaimedForCleanup(w: World, s: State, id: nat, other: nat) returns (run: seq<Event>, t: State)
    requires w.leaseSeconds > 0 && id in s.runners && other !in s.runners && Fenced(s.store, id, s.runners[id])
    ensures Leads(w, s, run, t) && id in t.runners && t.runners[id] == s.runners[id]
    ensures other in t.runners && t.runners[other] == NewRunner(s.store.attempt)
    ensures LeaseLive(t.store, other, t.runners[other]) && t.store.cancelRequested
    ensures t.store.docs == s.store.docs && t.store.attempt == s.store.attempt
  {
    hide Leads, Legal, After;
    run, t := First(w, s, Environment(RequestCancel));
    var more, u := Wait(w, t, s.store.lease.value.until);
    Joined(w, s, run, t, more, u);
    run, t := Then(w, s, run + more, u, Claim(other));
  }

  lemma CancelBehindItsBack(w: World, s: State, id: nat, other: nat) returns (run: seq<Event>, t: State)
    requires w.leaseSeconds > 0 && id in s.runners && other !in s.runners && Fenced(s.store, id, s.runners[id])
    requires s.store.docs == map[]
    ensures Leads(w, s, run, t) && id in t.runners && t.runners[id] == s.runners[id]
    ensures t.store.status == Cancelled && t.store.docs == map[] && t.store.attempt == s.store.attempt
  {
    run, t := ClaimedForCleanup(w, s, id, other);
    run, t := Then(w, s, run, t, Act(other, SawCancel));
    run, t := Then(w, s, run, t, Act(other, EndCleanup));
    run, t := Then(w, s, run, t, Act(other, FinishCancel));
  }

  /** A bulk stalled over the expiry of its lease can land after another worker has finished the cancellation. */
  lemma LateBulkSurvivesCancel(w: World, outs: seq<Output>) returns (run: seq<Event>, s: State)
    requires w.leaseSeconds > 0 && w.maxAttempts > 0 && Producible(w, outs) && |outs| == PUBLISH
    ensures Reached(w, run, s) && s.store.status == Cancelled && Ended(s.store)
    ensures exists d :: d in s.store.docs && s.store.docs[d].jobAttempt == s.store.attempt
  {
    run, s := CleanStages(w, 0, outs);
    run, s := Then(w, Initial, run, s, Act(0, Fence));
    run, s := Then(w, Initial, run, s, Act(0, BeginPublish));
    var other := FreshRunner(s);
    var more, u := CancelBehindItsBack(w, s, 0, other);
    Joined(w, Initial, run, s, more, u);
    run, s := Then(w, Initial, run + more, u, Act(0, ProjectDocument(true)));
    var first := outs[INDEXING].documents[0];
    assert first.id in s.store.docs && s.store.docs[first.id] == first;
  }

  // ---- one concrete job ----

  function SampleDocument(attempt: nat): Document {
    var id := SegmentId("a", "v1", 0);
    Document(id, "a", "a", id, 0, "a", "j", attempt, Readiness("a", "j", "v1", attempt), "v1", "m", 0, 1000, 3, 7)
  }

  function SampleWorld(): World {
    World("a", "j", 5, 3, 60, _ => 0, (k, a, outs, o) => true, (k, outs, o) => true)
  }

  function SampleOutputs(): seq<Output> {
    seq(PUBLISH, k => Output(k, if k == INDEXING then [SampleDocument(1)] else []))
  }

  lemma SampleProducible()
    ensures Producible(SampleWorld(), SampleOutputs()) && |SampleOutputs()| == PUBLISH
  {
    assert DocumentsBound(SampleWorld(), 1, [SampleDocument(1)]);
  }

  /** The promise is false of the code: a job that is completed, untouched by any deletion, and has no document left. */
  lemma CompletedJobCanLoseItsDocuments() returns (run: seq<Event>, s: State)
    ensures Reached(SampleWorld(), run, s) && Finished(s.store) && !s.store.projectionDeleted && INDEXING in s.store.steps
    ensures CompletedDocuments(s.store) != []
    ensures forall d: Document :: d in CompletedDocuments(s.store) ==> d.id !in s.store.docs || s.store.docs[d.id] != d
  {
    SampleProducible();
    run, s := CleanRunCompletes(SampleWorld(), 0, SampleOutputs());
    var more, t := InterruptedCompletionLosesDocuments(SampleWorld(), run, s);
    Joined(SampleWorld(), Initial, run, s, more, t);
    run, s := run + more, t;
  }

  /** The same for a cancelled job whose first process stalled inside its bulk. */
  lemma CancelledJobCanKeepADocument() returns (run: seq<Event>, s: State)
    ensures Reached(SampleWorld(), run, s) && s.store.status == Cancelled && s.store.docs != map[]
  {
    SampleProducible();
    run, s := LateBulkSurvivesCancel(SampleWorld(), SampleOutputs());
  }
}
