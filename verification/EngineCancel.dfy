/** Exactly when the clean-up of a cancelled attempt leaves nothing of it in the index, and when something can still land. */
module EngineCancel {
  import opened Options
  import opened Projection
  import opened Engine
  import opened EngineInvariant
  import opened EngineProofs
  import opened EngineTheorems
  import opened EngineProgress
  import opened EngineWork
  import opened Transitions

  /** A process that can send one more document of its attempt without passing another fence. */
  predicate CanSend(r: Runner) {
    r.started && |r.outs| == PUBLISH &&
    ((r.pc.Projecting? && r.pc.sent < |r.outs[INDEXING].documents|) || (r.pc == Deciding && r.cleared))
  }

  /** The attempt is being cancelled, or is cancelled: nobody passes a fence any more. */
  predicate Closing(st: Store, attempt: nat) {
    st.attempt == attempt && ((st.status == Running && st.cancelRequested) || st.status == Cancelled)
  }

  ghost predicate NobodySends(s: State, attempt: nat) {
    forall i :: i in s.runners && s.runners[i].attempt == attempt ==> !CanSend(s.runners[i])
  }

  /** Every document is one of this asset and job. */
  ghost predicate AllOwned(w: World, docs: Index) {
    forall d :: d in docs ==> OwnedBy(docs[d], w.assetId, w.jobId, docs[d].jobAttempt)
  }

  /** What the process that cleans up still has to remove covers the attempt, and when it is done nothing is left. */
  ghost predicate Sweeping(docs: Index, r: Runner, attempt: nat) {
    && r.attempt == attempt
    && (r.pc.CleaningUp? || r.pc.CleanedUp? || r.pc.RollingBack? || r.pc.Errored? || r.pc.Done? || r.pc.Dead?)
    && (r.pc.CleaningUp? ==> OfAttempt(docs, attempt) <= r.pc.todo)
    && (r.pc.CleanedUp? || r.pc.Done? ==> OfAttempt(docs, attempt) == {})
  }

  // ---- everything is owned ----

  lemma ActOwned(w: World, st: Store, id: nat, r: Runner, a: Action)
    requires AllOwned(w, st.docs) && Can(w, st, id, r, a) && Shape(w, r)
    ensures AllOwned(w, Stepped(w, st, id, r, a).docs)
  {
    hide Moved, MemAfter, LatestBelow, Below, Produced, ValidDocument;
    if a.ProjectDocument? {
      assert DocumentsBound(w, r.attempt, r.outs[INDEXING].documents);
    } else if !a.RemoveDocument? {
      OtherActionsKeepDocuments(w, st, id, r, a);
    }
  }

  lemma ChangeShrinks(w: World, st: Store, c: Change)
    requires MayChange(w, st, c)
    ensures Changed(w, st, c).docs.Keys <= st.docs.Keys
    ensures forall d :: d in Changed(w, st, c).docs ==> Changed(w, st, c).docs[d] == st.docs[d]
  {
    match c {
      case Tick => case Promote => case Recover => case RequestCancel => case RetryFailed => case RequestDeletion =>
      case DeleteDocument(_) => case Finalize => case Damage(_, _) =>
    }
  }

  lemma FewerOwned(w: World, docs: Index, docs': Index)
    requires docs'.Keys <= docs.Keys && forall d :: d in docs' ==> docs'[d] == docs[d]
    ensures AllOwned(w, docs) ==> AllOwned(w, docs')
    ensures forall attempt: nat :: OfAttempt(docs', attempt) <= OfAttempt(docs, attempt)
  {
  }

  lemma ClaimKeepsIndex(w: World, st: Store, id: nat)
    requires CleanupDue(st) || RunDue(st)
    ensures ClaimedStore(w, st, id).docs == st.docs
  {
  }

  lemma StepOwned(w: World, s: State, e: Event)
    requires Inv(w, s) && AllOwned(w, s.store.docs) && Enabled(w, s, e)
    ensures AllOwned(w, Apply(w, s, e).store.docs)
  {
    hide Inv, AllOwned, Can, Stepped, Moved, MayChange, Changed, ClaimedStore, CleanupDue, RunDue;
    match e
    case Environment(c) =>
      ChangeShrinks(w, s.store, c);
      FewerOwned(w, s.store.docs, Changed(w, s.store, c).docs);
    case Claim(id) => ClaimKeepsIndex(w, s.store, id);
    case Act(id, a) =>
      ActorShape(w, s, id);
      ActOwned(w, s.store, id, s.runners[id], a);
  }

  lemma {:induction false} RunOwned(w: World, s: State, run: seq<Event>)
    requires Inv(w, s) && AllOwned(w, s.store.docs) && Legal(w, s, run)
    ensures AllOwned(w, After(w, s, run).store.docs)
    decreases |run|
  {
    hide Inv, Enabled, Apply, AllOwned;
    if run != [] {
      EventKept(w, s, run[0]);
      StepOwned(w, s, run[0]);
      RunOwned(w, Apply(w, s, run[0]), run[1..]);
    }
  }

  // ---- nobody gets to send any more ----

  predicate Unended(st: Store) {
    st.status == Queued || st.status == RetryWait || st.status == Running
  }

  predicate PassesFence(e: Event) {
    e.Act? && (e.action.Fence? || e.action.Start? || e.action.Complete?)
  }

  lemma NoFencePassed(w: World, s: State, e: Event, attempt: nat)
    requires Closing(s.store, attempt) && Enabled(w, s, e)
    ensures !PassesFence(e)
  {
    hide Can, Stepped, Moved;
    match e
    case Act(id, a) => NoFenceWhileClosing(w, s.store, id, s.runners[id], a, attempt);
    case _ =>
  }

  lemma {:induction false} RunCloses(w: World, s: State, more: seq<Event>, attempt: nat)
    requires Closing(s.store, attempt) && Legal(w, s, more)
    ensures Closing(After(w, s, more).store, attempt) && forall i :: 0 <= i < |more| ==> !PassesFence(more[i])
    decreases |more|
  {
    hide Closing, Enabled, Apply, PassesFence;
    if more != [] {
      NoFencePassed(w, s, more[0], attempt);
      StepCloses(w, s, more[0], attempt);
      RunCloses(w, Apply(w, s, more[0]), more[1..], attempt);
      assert forall i :: 0 < i < |more| ==> more[i] == more[1..][i - 1];
    }
  }

  /**
   A cancellation that reaches a job before its end is final: a waiting job is cancelled at once, a running one passes no fence
   any more, is neither completed nor failed nor retried, and can only end cancelled, whatever happens.
   */
  lemma CancellationIsFinal(w: World, s: State, more: seq<Event>)
    requires Unended(s.store) && Enabled(w, s, Environment(RequestCancel))
    requires Legal(w, Apply(w, s, Environment(RequestCancel)), more)
    ensures Apply(w, s, Environment(RequestCancel)).store.status == Cancelled <==> s.store.status != Running
    ensures
      var t := After(w, Apply(w, s, Environment(RequestCancel)), more);
      t.store.status == Cancelled || (t.store.status == Running && t.store.cancelRequested && s.store.status == Running)
    ensures forall i :: 0 <= i < |more| ==> !PassesFence(more[i])
  {
    var u := Apply(w, s, Environment(RequestCancel));
    RunCloses(w, u, more, u.store.attempt);
    if u.store.status == Cancelled {
      FinalForever(w, u, more);
    }
  }

  lemma NoFenceWhileClosing(w: World, st: Store, id: nat, r: Runner, a: Action, attempt: nat)
    requires Closing(st, attempt) && Can(w, st, id, r, a)
    ensures !a.Fence? && !a.Complete? && (OnRow(a) ==> a.RenewCleanup? || a.FinishCancel?)
  {
  }

  lemma ActCloses(w: World, st: Store, id: nat, r: Runner, a: Action, attempt: nat)
    requires Closing(st, attempt) && Can(w, st, id, r, a)
    ensures Closing(Stepped(w, st, id, r, a), attempt)
  {
    hide Can, Moved, MemAfter, OnRow, LatestBelow, Below, Upsert, RemoveOwned, Checkpointed;
    NoFenceWhileClosing(w, st, id, r, a, attempt);
    if !a.RenewCleanup? && !a.FinishCancel? { RowStaysPut(w, st, id, r, a); }
  }

  lemma StepCloses(w: World, s: State, e: Event, attempt: nat)
    requires Closing(s.store, attempt) && Enabled(w, s, e)
    ensures Closing(Apply(w, s, e).store, attempt)
  {
    hide Can, Stepped, Moved;
    match e
    case Environment(c) => ChangeCloses(w, s.store, c, attempt);
    case Claim(_) =>
    case Act(id, a) => ActCloses(w, s.store, id, s.runners[id], a, attempt);
  }

  lemma ChangeCloses(w: World, st: Store, c: Change, attempt: nat)
    requires Closing(st, attempt) && MayChange(w, st, c)
    ensures Closing(Changed(w, st, c), attempt)
  {
  }

  /** Only a fence lets a process begin to send. */
  lemma StaysSilent(w: World, st: Store, id: nat, r: Runner, a: Action)
    requires Can(w, st, id, r, a) && Shape(w, r) && !CanSend(r) && !a.Fence?
    ensures !CanSend(Moved(w, st, id, r, a))
  {
    hide MemAfter, StoredAfter, OfAttempt, LeaseLive, Produced, DocumentsBound;
  }

  lemma StepSilent(w: World, s: State, e: Event, attempt: nat)
    requires Inv(w, s) && Closing(s.store, attempt) && NobodySends(s, attempt) && Enabled(w, s, e)
    ensures NobodySends(Apply(w, s, e), attempt)
  {
    hide Inv, Can, Stepped, Moved, MayChange, Changed, CanSend;
    match e
    case Environment(_) =>
    case Claim(_) => NewcomersAreSilent(Apply(w, s, e).store.attempt);
    case Act(id, a) =>
      var r := s.runners[id];
      if r.attempt == attempt {
        ActorShape(w, s, id);
        NoFenceWhileClosing(w, s.store, id, r, a, attempt);
        StaysSilent(w, s.store, id, r, a);
      }
      Grows(w, s.store, id, r, a);
  }

  lemma NewcomersAreSilent(attempt: nat)
    ensures !CanSend(NewRunner(attempt))
  {
  }

  /** Then the documents of the attempt only get fewer. */
  lemma ActShrinks(w: World, st: Store, id: nat, r: Runner, a: Action, attempt: nat)
    requires Fits(w, st, id, r) && Can(w, st, id, r, a) && (r.attempt == attempt ==> !CanSend(r))
    ensures OfAttempt(Stepped(w, st, id, r, a).docs, attempt) <= OfAttempt(st.docs, attempt)
  {
    hide Fits, Can, Stepped, Moved, CanSend, OfAttempt;
    DocumentsShrink(w, st, id, r, a, attempt);
    if a.ProjectDocument? { SendersCanSend(w, st, id, r, a); }
  }

  lemma StepShrinks(w: World, s: State, e: Event, attempt: nat)
    requires Inv(w, s) && NobodySends(s, attempt) && Enabled(w, s, e)
    ensures OfAttempt(Apply(w, s, e).store.docs, attempt) <= OfAttempt(s.store.docs, attempt)
  {
    hide StoreInv, Fits, Can, Stepped, Moved, MayChange, Changed, ClaimedStore, CleanupDue, RunDue, CanSend, OfAttempt;
    match e
    case Environment(c) =>
      ChangeShrinks(w, s.store, c);
      FewerOwned(w, s.store.docs, Changed(w, s.store, c).docs);
    case Claim(id) => ClaimKeepsIndex(w, s.store, id);
    case Act(id, a) =>
      assert Fits(w, s.store, id, s.runners[id]);
      ActShrinks(w, s.store, id, s.runners[id], a, attempt);
  }

  lemma SendersCanSend(w: World, st: Store, id: nat, r: Runner, a: Action)
    requires Fits(w, st, id, r) && Can(w, st, id, r, a) && a.ProjectDocument?
    ensures CanSend(r)
  {
    ProjectingStarted(w, st, id, r, a);
  }

  // ---- the sweep ----

  lemma RemovedIsGone(w: World, docs: Index, d: SegmentId, attempt: nat, todo: set<SegmentId>)
    requires AllOwned(w, docs) && OfAttempt(docs, attempt) <= todo
    ensures OfAttempt(RemoveOwned(docs, d, w.assetId, w.jobId, attempt), attempt) <= todo - {d}
  {
  }

  lemma RemovalSweeps(w: World, st: Store, id: nat, r: Runner, d: SegmentId, attempt: nat)
    requires AllOwned(w, st.docs) && Sweeping(st.docs, r, attempt) && Can(w, st, id, r, RemoveDocument(d))
    ensures Sweeping(Stepped(w, st, id, r, RemoveDocument(d)).docs, Moved(w, st, id, r, RemoveDocument(d)), attempt)
  {
    hide MemAfter, StoredAfter, Passed, RemoveOwned, OfAttempt, AllOwned;
    if r.pc.CleaningUp? { RemovedIsGone(w, st.docs, d, attempt, r.pc.todo); }
  }

  lemma OtherSweeps(w: World, st: Store, id: nat, r: Runner, a: Action, attempt: nat)
    requires Sweeping(st.docs, r, attempt) && Closing(st, attempt) && Can(w, st, id, r, a)
    requires !a.RemoveDocument? && !a.ProjectDocument?
    ensures Sweeping(st.docs, Moved(w, st, id, r, a), attempt)
  {
    hide MemAfter, StoredAfter, Passed, OfAttempt;
  }

  lemma SweepShrinks(docs: Index, docs': Index, r: Runner, attempt: nat)
    requires Sweeping(docs, r, attempt) && OfAttempt(docs', attempt) <= OfAttempt(docs, attempt)
    ensures Sweeping(docs', r, attempt)
  {
  }

  lemma StepSweeps(w: World, s: State, e: Event, id: nat, attempt: nat)
    requires Inv(w, s) && AllOwned(w, s.store.docs) && Closing(s.store, attempt) && NobodySends(s, attempt) && Enabled(w, s, e)
    requires id in s.runners && Sweeping(s.store.docs, s.runners[id], attempt)
    ensures id in Apply(w, s, e).runners && Sweeping(Apply(w, s, e).store.docs, Apply(w, s, e).runners[id], attempt)
  {
    hide Inv, AllOwned, NobodySends, Sweeping, Can, Stepped, Moved, MayChange, Changed, OfAttempt;
    var t := Apply(w, s, e);
    StepShrinks(w, s, e, attempt);
    if e.Act? && e.runner == id {
      SweeperActs(w, s, e.action, id, attempt);
    } else {
      SweepShrinks(s.store.docs, t.store.docs, s.runners[id], attempt);
    }
  }

  lemma SweeperActs(w: World, s: State, a: Action, id: nat, attempt: nat)
    requires Inv(w, s) && AllOwned(w, s.store.docs) && Closing(s.store, attempt) && Enabled(w, s, Act(id, a))
    requires id in s.runners && Sweeping(s.store.docs, s.runners[id], attempt)
    ensures Sweeping(Apply(w, s, Act(id, a)).store.docs, Apply(w, s, Act(id, a)).runners[id], attempt)
  {
    hide Inv, AllOwned, Can, Stepped, Moved, OfAttempt;
    var r := s.runners[id];
    if a.RemoveDocument? {
      RemovalSweeps(w, s.store, id, r, a.id, attempt);
    } else {
      SweepersDoNotSend(w, s.store, id, r, a, attempt);
      OtherSweeps(w, s.store, id, r, a, attempt);
      OtherActionsKeepDocuments(w, s.store, id, r, a);
    }
  }

  lemma SweepersDoNotSend(w: World, st: Store, id: nat, r: Runner, a: Action, attempt: nat)
    requires Sweeping(st.docs, r, attempt) && Can(w, st, id, r, a)
    ensures !a.ProjectDocument?
  {
  }

  lemma {:induction false} RunSweeps(w: World, s: State, run: seq<Event>, id: nat, attempt: nat)
    requires Inv(w, s) && AllOwned(w, s.store.docs) && Closing(s.store, attempt) && NobodySends(s, attempt) && Legal(w, s, run)
    requires id in s.runners && Sweeping(s.store.docs, s.runners[id], attempt)
    ensures id in After(w, s, run).runners && Sweeping(After(w, s, run).store.docs, After(w, s, run).runners[id], attempt)
    decreases |run|
  {
    hide Inv, AllOwned, Closing, NobodySends, Sweeping, Enabled, Apply;
    if run != [] {
      EventKept(w, s, run[0]);
      StepOwned(w, s, run[0]);
      StepCloses(w, s, run[0], attempt);
      StepSilent(w, s, run[0], attempt);
      StepSweeps(w, s, run[0], id, attempt);
      RunSweeps(w, Apply(w, s, run[0]), run[1..], id, attempt);
    }
  }

  /** No other process of the same attempt can send one more document. */
  ghost predicate AloneInItsAttempt(s: State, id: nat)
    requires id in s.runners
  {
    forall i :: i in s.runners && i != id && s.runners[i].attempt == s.runners[id].attempt ==> !CanSend(s.runners[i])
  }

  lemma SweepBegins(w: World, s: State, id: nat)
    requires Inv(w, s) && Enabled(w, s, Act(id, SawCancel)) && AloneInItsAttempt(s, id)
    ensures
      var t, attempt := Apply(w, s, Act(id, SawCancel)), s.runners[id].attempt;
      && t.store == s.store && Closing(t.store, attempt) && NobodySends(t, attempt)
      && id in t.runners && Sweeping(t.store.docs, t.runners[id], attempt)
  {
    hide Inv, MemAfter, StoredAfter, Passed, OfAttempt;
  }

  /**
   When a process begins to clean up after a cancellation, and no other process of the same attempt can send any more, then
   once it has cleaned up and finished the cancellation no document of the attempt is there, nor ever again.
   */
  lemma SweepLeavesNothing(w: World, run: seq<Event>, s: State, id: nat, more: seq<Event>, t: State)
    requires Reached(w, run, s) && Enabled(w, s, Act(id, SawCancel)) && AloneInItsAttempt(s, id)
    requires Leads(w, Apply(w, s, Act(id, SawCancel)), more, t) && id in t.runners
    requires t.runners[id].pc == CleanedUp || t.runners[id].pc == Done
    ensures OfAttempt(t.store.docs, s.runners[id].attempt) == {}
  {
    hide Inv, AllOwned, Closing, NobodySends, Legal, After, OfAttempt;
    ReachedInv(w, run, s);
    InitialInv(w);
    NothingToOwn(w);
    RunOwned(w, Initial, run);
    EventKept(w, s, Act(id, SawCancel));
    SweepBegins(w, s, id);
    RunSweeps(w, Apply(w, s, Act(id, SawCancel)), more, id, s.runners[id].attempt);
  }

  lemma NothingToOwn(w: World)
    ensures AllOwned(w, Initial.store.docs)
  {
  }

  // ---- and otherwise something can remain ----

  lemma CleansOne(w: World, s: State, id: nat, d: SegmentId) returns (t: State)
    requires id in s.runners && s.runners[id].pc.CleaningUp? && d in s.runners[id].pc.todo
    ensures Enabled(w, s, Act(id, RemoveDocument(d))) && t == Apply(w, s, Act(id, RemoveDocument(d)))
    ensures t.store == s.store.(docs := t.store.docs)
    ensures t.runners == s.runners[id := s.runners[id].(pc := CleaningUp(s.runners[id].pc.todo - {d}), cleared := false)]
  {
    hide RemoveOwned;
    t := Apply(w, s, Act(id, RemoveDocument(d)));
  }

  lemma FinishesCleanup(w: World, s: State, id: nat) returns (run: seq<Event>, t: State)
    requires id in s.runners && s.runners[id].pc == CleaningUp({})
    requires LeaseLive(s.store, id, s.runners[id]) && s.store.cancelRequested
    ensures Leads(w, s, run, t) && id in t.runners && t.runners == s.runners[id := t.runners[id]]
    ensures t.runners[id].pc == Done && t.runners[id].attempt == s.runners[id].attempt
    ensures t.store.status == Cancelled && t.store.attempt == s.store.attempt
  {
    hide Leads;
    run, t := First(w, s, Act(id, EndCleanup));
    run, t := Then(w, s, run, t, Act(id, FinishCancel));
  }

  lemma {:induction false} CleansUp(w: World, s: State, id: nat) returns (run: seq<Event>, t: State)
    requires id in s.runners && s.runners[id].pc.CleaningUp? && LeaseLive(s.store, id, s.runners[id]) && s.store.cancelRequested
    ensures Leads(w, s, run, t) && id in t.runners && t.runners == s.runners[id := t.runners[id]]
    ensures t.runners[id].pc == Done && t.runners[id].attempt == s.runners[id].attempt
    ensures t.store.status == Cancelled && t.store.attempt == s.store.attempt
    decreases s.runners[id].pc.todo
  {
    hide Leads, Enabled, Apply;
    if s.runners[id].pc.todo == {} {
      run, t := FinishesCleanup(w, s, id);
    } else {
      var d :| d in s.runners[id].pc.todo;
      var u := CleansOne(w, s, id, d);
      var first, _ := First(w, s, Act(id, RemoveDocument(d)));
      var rest;
      rest, t := CleansUp(w, u, id);
      Joined(w, s, first, u, rest, t);
      run := first + rest;
    }
  }

  lemma SendsAgain(w: World, s: State, i: nat) returns (run: seq<Event>, t: State)
    requires Inv(w, s) && i in s.runners && CanSend(s.runners[i])
    ensures Leads(w, s, run, t) && t.store == s.store && t.runners.Keys == s.runners.Keys
    ensures t.runners == s.runners[i := t.runners[i]] && t.runners[i].attempt == s.runners[i].attempt
    ensures t.runners[i].pc.Projecting? && |t.runners[i].outs| == PUBLISH
    ensures t.runners[i].pc.sent < |t.runners[i].outs[INDEXING].documents|
  {
    hide Leads, Legal;
    if s.runners[i].pc.Projecting? {
      run, t := [], s;
      Here(w, s);
    } else {
      ActorShape(w, s, i);
      run, t := First(w, s, Act(i, BeginPublish));
    }
  }

  /** Nothing in the index is of an attempt above the current one, so the document lands. */
  lemma LandsInTheIndex(w: World, s: State, i: nat) returns (t: State)
    requires Inv(w, s) && i in s.runners && s.runners[i].pc.Projecting? && |s.runners[i].outs| == PUBLISH
    requires s.runners[i].pc.sent < |s.runners[i].outs[INDEXING].documents| && s.runners[i].attempt == s.store.attempt
    ensures Enabled(w, s, Act(i, ProjectDocument(true))) && t == Apply(w, s, Act(i, ProjectDocument(true)))
    ensures t.store.status == s.store.status && OfAttempt(t.store.docs, s.store.attempt) != {}
    ensures t.runners == s.runners[i := t.runners[i]]
  {
    hide Steps, Disk, Checkpoints, Fits;
    ActorShape(w, s, i);
    OwnDocuments(w, s.runners[i]);
    var r := s.runners[i];
    var d := r.outs[INDEXING].documents[r.pc.sent];
    t := Apply(w, s, Act(i, ProjectDocument(true)));
    assert d.id in s.store.docs ==> s.store.docs[d.id].jobAttempt <= s.store.lastStarted <= s.store.attempt;
    assert d.id in OfAttempt(t.store.docs, s.store.attempt);
  }

  /** If another process of the attempt can still send, the cancellation can be finished and one of its documents be there. */
  lemma OtherwiseSomethingRemains(w: World, run: seq<Event>, s: State, id: nat) returns (more: seq<Event>, t: State)
    requires Reached(w, run, s) && Enabled(w, s, Act(id, SawCancel)) && !AloneInItsAttempt(s, id)
    ensures Leads(w, Apply(w, s, Act(id, SawCancel)), more, t) && id in t.runners && t.runners[id].pc == Done
    ensures t.store.status == Cancelled && OfAttempt(t.store.docs, s.runners[id].attempt) != {}
  {
    hide Inv, Leads, Legal, After, CanSend, OfAttempt;
    var i :| i in s.runners && i != id && s.runners[i].attempt == s.runners[id].attempt && CanSend(s.runners[i]);
    ReachedInv(w, run, s);
    EventKept(w, s, Act(id, SawCancel));
    var u := Apply(w, s, Act(id, SawCancel));
    SeenAndCleaning(w, s, id);
    more, t := CleansUp(w, u, id);
    LeadsKeeps(w, u, more, t);
    var begin, v := SendsAgain(w, t, i);
    Joined(w, u, more, t, begin, v);
    LeadsKeeps(w, t, begin, v);
    more := more + begin;
    var landed := LandsInTheIndex(w, v, i);
    more, t := Then(w, u, more, v, Act(i, ProjectDocument(true)));
  }

  lemma SeenAndCleaning(w: World, s: State, id: nat)
    requires Enabled(w, s, Act(id, SawCancel))
    ensures
      var u := Apply(w, s, Act(id, SawCancel));
      && u.store == s.store && id in u.runners && u.runners == s.runners[id := u.runners[id]]
      && u.runners[id].pc.CleaningUp? && LeaseLive(u.store, id, u.runners[id]) && u.store.cancelRequested
      && u.runners[id].attempt == s.runners[id].attempt == s.store.attempt
  {
    hide OfAttempt, MemAfter, StoredAfter, Passed;
  }

  lemma LeadsKeeps(w: World, s: State, run: seq<Event>, t: State)
    requires Inv(w, s) && Leads(w, s, run, t)
    ensures Inv(w, t)
  {
    RunKept(w, s, run);
  }
}
