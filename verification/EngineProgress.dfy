/** Composing runs, what a waiting and a running job have, and the undisturbed run that completes. */
module EngineProgress {
  import opened Options
  import opened Projection
  import opened Engine
  import opened EngineInvariant
  import opened EngineProofs
  import opened EngineTheorems

  // ---- composing runs ----

  ghost predicate Leads(w: World, s: State, run: seq<Event>, t: State) {
    Legal(w, s, run) && After(w, s, run) == t
  }

  lemma {:induction false} Joined(w: World, s: State, run: seq<Event>, t: State, more: seq<Event>, u: State)
    requires Leads(w, s, run, t) && Leads(w, t, more, u)
    ensures Leads(w, s, run + more, u)
    decreases |run|
  {
    if run == [] {
      assert run + more == more;
    } else {
      Joined(w, Apply(w, s, run[0]), run[1..], t, more, u);
      assert (run + more)[0] == run[0] && (run + more)[1..] == run[1..] + more;
    }
  }

  /** One more event at the end of a run. */
  lemma Then(w: World, s: State, run: seq<Event>, t: State, e: Event) returns (run': seq<Event>, t': State)
    requires Leads(w, s, run, t) && Enabled(w, t, e)
    ensures t' == Apply(w, t, e) && run' == run + [e] && Leads(w, s, run', t')
  {
    run', t' := run + [e], Apply(w, t, e);
    assert Leads(w, t', [], t');
    assert [e][1..] == [];
    assert Leads(w, t, [e], t');
    Joined(w, s, run, t, [e], t');
  }

  lemma Here(w: World, s: State)
    ensures Leads(w, s, [], s)
  {
  }

  /** The first event of a run. */
  lemma First(w: World, s: State, e: Event) returns (run: seq<Event>, t: State)
    requires Enabled(w, s, e)
    ensures t == Apply(w, s, e) && run == [e] && Leads(w, s, run, t)
  {
    run, t := Then(w, s, [], s, e);
  }

  // ---- what a waiting and a running job have ----

  /** A job that is to be deleted is not going to run, a waiting one has a date, and a running one a lease or a cancellation. */
  predicate Alive(st: Store) {
    && (st.deletionRequested ==> st.status != Queued && st.status != RetryWait && (st.status == Running ==> st.cancelRequested))
    && (st.status == RetryWait ==> st.nextRunAt.Some?)
    && (st.status == Running && st.lease.None? ==> st.cancelRequested)
  }

  lemma AliveThroughAct(w: World, st: Store, id: nat, r: Runner, a: Action)
    requires Alive(st) && Can(w, st, id, r, a)
    ensures Alive(Stepped(w, st, id, r, a))
  {
    hide Moved, Checkpointed, LatestBelow, Below, Upsert, RemoveOwned, Validates, CheckpointFits;
    if OnRow(a) {
    } else {
      RowUntouched(w, st, id, r, a);
    }
  }

  lemma RowUntouched(w: World, st: Store, id: nat, r: Runner, a: Action)
    requires Can(w, st, id, r, a) && !OnRow(a) && Alive(st)
    ensures Alive(Stepped(w, st, id, r, a))
  {
    hide Moved, LatestBelow, Below, Upsert, RemoveOwned, Validates, CheckpointFits;
  }

  lemma AliveThroughChange(w: World, st: Store, c: Change)
    requires Alive(st) && MayChange(w, st, c)
    ensures Alive(Changed(w, st, c))
  {
  }

  lemma AliveThroughClaim(w: World, st: Store, id: nat)
    requires Alive(st) && (CleanupDue(st) || RunDue(st))
    ensures Alive(ClaimedStore(w, st, id))
  {
  }

  lemma AliveThrough(w: World, s: State, e: Event)
    requires Alive(s.store) && Enabled(w, s, e)
    ensures Alive(Apply(w, s, e).store)
  {
    hide Alive, CleanupDue, RunDue, MayChange, Changed, ClaimedStore, Can, Stepped, Moved;
    match e
    case Act(id, a) => AliveThroughAct(w, s.store, id, s.runners[id], a);
    case Claim(id) => AliveThroughClaim(w, s.store, id);
    case Environment(c) => AliveThroughChange(w, s.store, c);
  }

  lemma {:induction false} ReachedAlive(w: World, s: State, run: seq<Event>)
    requires Alive(s.store) && Legal(w, s, run)
    ensures Alive(After(w, s, run).store)
    decreases |run|
  {
    if run != [] {
      AliveThrough(w, s, run[0]);
      ReachedAlive(w, Apply(w, s, run[0]), run[1..]);
    }
  }

  predicate Ended(st: Store) {
    st.status == Completed || st.status == Failed || st.status == Cancelled
  }

  lemma {:induction false} Wait(w: World, s: State, n: nat) returns (run: seq<Event>, t: State)
    ensures Leads(w, s, run, t) && t == s.(store := s.store.(now := s.store.now + n))
  {
    run, t := [], s;
    for i := 0 to n
      invariant Leads(w, s, run, t) && t == s.(store := s.store.(now := s.store.now + i))
    {
      run, t := Then(w, s, run, t, Environment(Tick));
    }
  }

  lemma FreshRunner(s: State) returns (id: nat)
    ensures id !in s.runners
  {
    var bound: nat := 0;
    var rest := s.runners.Keys;
    while rest != {}
      invariant rest <= s.runners.Keys
      invariant forall i :: i in s.runners && i !in rest ==> i < bound
      decreases rest
    {
      var i :| i in rest;
      rest := rest - {i};
      bound := if i < bound then bound else i + 1;
    }
    id := bound;
  }

  // ---- an undisturbed run ----

  /** Process `id` runs the job's first attempt without having met any checkpoint, and is about to decide on the next stage. */
  ghost predicate AtStage(w: World, s: State, id: nat, outs: seq<Output>) {
    && id in s.runners && Fenced(s.store, id, s.runners[id])
    && var r := s.runners[id];
       && r.pc == Deciding && r.outs == outs && r.stored == s.store.steps && r.attempt == 1 && r.started
       && !r.projecting && !r.interrupted
       && s.store.docs == map[] && !s.store.deletionRequested && !s.store.projectionDeleted && !s.store.deleted
       && (forall k: nat :: k in r.stored <==> k < |outs|) && s.store.stage == (if outs == [] then None else Some(|outs| - 1))
       && (1 in s.store.disk ==> forall k: nat :: k in s.store.disk[1].stages ==> k < |outs|)
  }

  lemma CleanStart(w: World, id: nat) returns (run: seq<Event>, t: State)
    requires w.leaseSeconds > 0 && w.maxAttempts > 0
    ensures Leads(w, Initial, run, t) && AtStage(w, t, id, [])
  {
    hide Leads, Legal, After;
    run, t := First(w, Initial, Claim(id));
    run, t := Then(w, Initial, run, t, Act(id, Start));
    run, t := Then(w, Initial, run, t, Act(id, Fence));
    run, t := Then(w, Initial, run, t, Act(id, ReadSteps));
  }

  lemma CleanDecision(w: World, s: State, id: nat, outs: seq<Output>) returns (run: seq<Event>, t: State)
    requires AtStage(w, s, id, outs) && |outs| < PUBLISH
    ensures Leads(w, s, run, t) && id in t.runners && t.store == s.store
    ensures t.runners[id] == s.runners[id].(pc := Executing, mem := Below(s.runners[id].mem, |outs|), cleared := true)
  {
    hide Leads, Legal, After;
    run, t := First(w, s, Act(id, Fence));
    run, t := Then(w, s, run, t, Act(id, Decide(true)));
    run, t := Then(w, s, run, t, Act(id, Fence));
  }

  lemma CleanProduction(w: World, s: State, id: nat, o: Output) returns (run: seq<Event>, t: State)
    requires id in s.runners && s.runners[id].pc == Executing && s.runners[id].cleared && Fenced(s.store, id, s.runners[id])
    requires
      var r := s.runners[id];
      w.produces(|r.outs|, r.attempt, r.outs, o) && Validates(w, |r.outs|, r.attempt, r.outs, o)
    ensures Leads(w, s, run, t) && t == s.(runners := s.runners[id := s.runners[id].(pc := Writing(o), cleared := true)])
  {
    hide Leads, Validates;
    run, t := First(w, s, Act(id, Execute(o)));
    run, t := Then(w, s, run, t, Act(id, Fence));
  }

  lemma CleanWrite(w: World, s: State, id: nat) returns (run: seq<Event>, t: State)
    requires id in s.runners && s.runners[id].pc.Writing? && s.runners[id].cleared
    ensures Leads(w, s, run, t) && id in t.runners
    ensures
      var r := s.runners[id];
      var o := r.pc.output;
      var mem := r.mem[|r.outs| := Entry(InputDigest(w, r.outs), OutputDigest(o), o)];
      && t.runners[id] == r.(pc := Recording(o), mem := mem, cleared := false)
      && t.store == s.store.(disk := s.store.disk[r.attempt := Manifest(w.identity(r.attempt), mem)],
                            damaged := s.store.damaged - {r.attempt})
  {
    hide Leads, InputDigest;
    run, t := First(w, s, Act(id, WriteManifest));
  }

  lemma CleanExecution(w: World, s: State, id: nat, o: Output) returns (run: seq<Event>, t: State)
    requires id in s.runners && s.runners[id].pc == Executing && s.runners[id].cleared && Fenced(s.store, id, s.runners[id])
    requires
      var r := s.runners[id];
      w.produces(|r.outs|, r.attempt, r.outs, o) && Validates(w, |r.outs|, r.attempt, r.outs, o)
    ensures Leads(w, s, run, t) && id in t.runners
    ensures
      var r := s.runners[id];
      var mem := r.mem[|r.outs| := Entry(InputDigest(w, r.outs), OutputDigest(o), o)];
      && t.runners[id] == r.(pc := Recording(o), mem := mem, cleared := false)
      && t.store == s.store.(disk := s.store.disk[r.attempt := Manifest(w.identity(r.attempt), mem)],
                            damaged := s.store.damaged - {r.attempt})
  {
    hide Leads, InputDigest, Validates, Fenced;
    run, t := CleanProduction(w, s, id, o);
    var more, u := CleanWrite(w, t, id);
    Joined(w, s, run, t, more, u);
    run, t := run + more, u;
  }

  lemma CleanExecuted(w: World, s: State, id: nat, outs: seq<Output>, o: Output) returns (run: seq<Event>, t: State)
    requires AtStage(w, s, id, outs) && |outs| < PUBLISH
    requires w.produces(|outs|, 1, outs, o) && Validates(w, |outs|, 1, outs, o)
    ensures Leads(w, s, run, t) && id in t.runners
    ensures
      var r := s.runners[id];
      var mem := Below(r.mem, |outs|)[|outs| := Entry(InputDigest(w, outs), OutputDigest(o), o)];
      && t.runners[id] == r.(pc := Recording(o), mem := mem, cleared := false)
      && t.store == s.store.(disk := s.store.disk[1 := Manifest(w.identity(1), mem)], damaged := s.store.damaged - {1})
  {
    var more, u;
    run, t := CleanDecision(w, s, id, outs);
    more, u := CleanExecution(w, t, id, o);
    Joined(w, s, run, t, more, u);
    run, t := run + more, u;
  }

  lemma CleanRecord(w: World, s: State, u: State, id: nat, outs: seq<Output>, o: Output)
    requires AtStage(w, s, id, outs) && |outs| < PUBLISH && id in u.runners
    requires
      var r := s.runners[id];
      var mem := Below(r.mem, |outs|)[|outs| := Entry(InputDigest(w, outs), OutputDigest(o), o)];
      && u.runners[id] == r.(pc := Recording(o), mem := mem, cleared := false)
      && u.store == s.store.(disk := s.store.disk[1 := Manifest(w.identity(1), mem)], damaged := s.store.damaged - {1})
    ensures Enabled(w, u, Act(id, Record)) && AtStage(w, Apply(w, u, Act(id, Record)), id, outs + [o])
  {
    hide InputDigest;
  }

  lemma CleanStage(w: World, s: State, id: nat, outs: seq<Output>, o: Output) returns (run: seq<Event>, t: State)
    requires AtStage(w, s, id, outs) && |outs| < PUBLISH
    requires w.produces(|outs|, 1, outs, o) && Validates(w, |outs|, 1, outs, o)
    ensures Leads(w, s, run, t) && AtStage(w, t, id, outs + [o])
  {
    hide Leads, AtStage, Enabled, Apply, Validates;
    run, t := CleanExecuted(w, s, id, outs, o);
    CleanRecord(w, s, t, id, outs, o);
    run, t := Then(w, s, run, t, Act(id, Record));
  }

  /** Outputs that the stages of a first attempt can produce one after the other. */
  ghost predicate Producible(w: World, outs: seq<Output>) {
    forall k :: 0 <= k < |outs| ==> w.produces(k, 1, outs[..k], outs[k]) && Validates(w, k, 1, outs[..k], outs[k])
  }

  lemma {:induction false} CleanStages(w: World, id: nat, outs: seq<Output>) returns (run: seq<Event>, t: State)
    requires w.leaseSeconds > 0 && w.maxAttempts > 0 && Producible(w, outs) && |outs| <= PUBLISH
    ensures Leads(w, Initial, run, t) && AtStage(w, t, id, outs)
    decreases |outs|
  {
    if outs == [] {
      run, t := CleanStart(w, id);
    } else {
      var k := |outs| - 1;
      assert forall i :: 0 <= i < k ==> outs[..k][..i] == outs[..i];
      run, t := CleanStages(w, id, outs[..k]);
      var more, u := CleanStage(w, t, id, outs[..k], outs[k]);
      Joined(w, Initial, run, t, more, u);
      assert outs[..k] + [outs[k]] == outs;
      run, t := run + more, u;
    }
  }

  lemma CleanProjection(w: World, s: State, id: nat, outs: seq<Output>) returns (run: seq<Event>, t: State)
    requires AtStage(w, s, id, outs) && |outs| == PUBLISH
    ensures Leads(w, s, run, t) && id in t.runners && t.store == s.store.(docs := t.store.docs)
    ensures t.runners[id] == s.runners[id].(pc := Projecting(|outs[INDEXING].documents|, false), projecting := true, cleared := false)
  {
    hide Leads, Legal, After;
    run, t := First(w, s, Act(id, Fence));
    run, t := Then(w, s, run, t, Act(id, BeginPublish));
    var documents := outs[INDEXING].documents;
    for i := 0 to |documents|
      invariant Leads(w, s, run, t) && id in t.runners && t.store == s.store.(docs := t.store.docs)
      invariant t.runners[id] == s.runners[id].(pc := Projecting(i, false), projecting := true, cleared := false)
    {
      run, t := Then(w, s, run, t, Act(id, ProjectDocument(true)));
    }
  }

  lemma CleanAcknowledgement(w: World, s: State, id: nat) returns (run: seq<Event>, t: State)
    requires id in s.runners && Fenced(s.store, id, s.runners[id]) && |s.runners[id].outs| == PUBLISH
    requires s.runners[id].pc == Projecting(|s.runners[id].outs[INDEXING].documents|, false)
    ensures Leads(w, s, run, t) && id in t.runners && t.store == s.store
    ensures t.runners[id] == s.runners[id].(pc := WritingPublish, cleared := true)
  {
    hide Leads, Legal, After;
    run, t := First(w, s, Act(id, Fence));
    run, t := Then(w, s, run, t, Act(id, Acknowledge));
    run, t := Then(w, s, run, t, Act(id, Fence));
  }

  lemma CleanPublication(w: World, s: State, id: nat) returns (run: seq<Event>, t: State)
    requires id in s.runners && Fenced(s.store, id, s.runners[id]) && |s.runners[id].outs| == PUBLISH
    requires s.runners[id].pc == Projecting(|s.runners[id].outs[INDEXING].documents|, false)
    ensures Leads(w, s, run, t) && id in t.runners && PUBLISH in t.runners[id].mem
    ensures t.runners[id] == s.runners[id].(pc := Completing, mem := t.runners[id].mem, cleared := true)
    ensures t.store == s.store.(disk := t.store.disk, damaged := t.store.damaged)
  {
    run, t := CleanAcknowledgement(w, s, id);
    run, t := Then(w, s, run, t, Act(id, WritePublish));
    run, t := Then(w, s, run, t, Act(id, Fence));
  }

  lemma CleanCommit(w: World, s: State, id: nat) returns (run: seq<Event>, t: State)
    requires id in s.runners && Fenced(s.store, id, s.runners[id]) && |s.runners[id].outs| == PUBLISH && !s.runners[id].interrupted
    requires s.runners[id].pc == Projecting(|s.runners[id].outs[INDEXING].documents|, false)
    requires forall k: nat :: k in s.store.steps <==> k < PUBLISH
    ensures Leads(w, s, run, t) && id in t.runners && t.runners[id].pc == Committed && !t.runners[id].interrupted
    ensures Finished(t.store) && t.store.completedBy == id
    ensures t.store.projectionDeleted == s.store.projectionDeleted
  {
    run, t := CleanPublication(w, s, id);
    run, t := Then(w, s, run, t, Act(id, Complete));
  }

  /** An undisturbed first attempt completes the job with any outputs its stages can produce. */
  lemma CleanRunCompletes(w: World, id: nat, outs: seq<Output>) returns (run: seq<Event>, s: State)
    requires w.leaseSeconds > 0 && w.maxAttempts > 0 && Producible(w, outs) && |outs| == PUBLISH
    ensures Reached(w, run, s) && Finished(s.store) && s.store.completedBy == id && !s.store.projectionDeleted
    ensures id in s.runners && s.runners[id].pc == Committed && !s.runners[id].interrupted
  {
    run, s := CleanStages(w, id, outs);
    var more, u := CleanProjection(w, s, id, outs);
    Joined(w, Initial, run, s, more, u);
    run, s := run + more, u;
    more, u := CleanCommit(w, s, id);
    Joined(w, Initial, run, s, more, u);
    run, s := run + more, u;
  }
}
