/**
 How the life of a job ends. Until it is over some process can go on, so without disturbances it ends after boundedly much
 work, and with an attempt left and answering stages it ends completed.
 */
module EngineLife {
  import opened Options
  import opened Projection
  import opened Engine
  import opened EngineInvariant
  import opened EngineProofs
  import opened EngineTheorems
  import opened EngineProgress
  import opened EngineWork

  // ---- the process with the claim can go on ----

  /** The next stage can produce an output on this attempt that its validator accepts. */
  ghost predicate Answers(w: World, attempt: nat, outs: seq<Output>) {
    exists o :: w.produces(|outs|, attempt, outs, o) && Validates(w, |outs|, attempt, outs, o)
  }

  /** No way forward: the stage has no acceptable output, or the index has refused a document. */
  ghost predicate Hopeless(w: World, r: Runner) {
    (r.pc == Executing && !Answers(w, r.attempt, r.outs)) || (r.pc.Projecting? && r.pc.refused)
  }

  /**
   Nothing happens before the lease is over: it is over already, its process is dead, or that process has failed while the
   job was being cancelled, which the repository does not let it record.
   */
  predicate Rests(s: State) {
    s.store.status == Running &&
    (|| s.store.lease.None?
     || s.store.lease.value.until <= s.store.now
     || (s.store.lease.value.owner in s.runners &&
         var r := s.runners[s.store.lease.value.owner];
         r.pc.Dead? || ((r.pc.Errored? || r.pc.RollingBack?) && s.store.cancelRequested)))
  }

  predicate Goes(w: World, st: Store, id: nat, r: Runner, a: Action) {
    if Fenced(st, id, r) && InPipeline(r.pc) then Can(w, st, id, r.(cleared := true), a) else Can(w, st, id, r, a)
  }

  /** Work that neither gives the claim back nor fails without need. */
  ghost predicate Diligent(w: World, r: Runner, a: Action) {
    Lowers(a) && !a.Release? && !a.Interrupt? && (a.Fail? ==> Hopeless(w, r)) && (a.Decide? ==> a.artifactsMatch)
    && (a.ProjectDocument? ==> a.accepted)
  }

  predicate Fails(a: Action) {
    a.Fail? || a.Refuse?
  }

  lemma CancelledGoes(w: World, st: Store, id: nat, r: Runner) returns (a: Action)
    requires LeaseLive(st, id, r) && st.cancelRequested
    requires r.pc == Claimed || InPipeline(r.pc) || r.pc.CleaningUp? || r.pc.CleanedUp?
    ensures Goes(w, st, id, r, a) && Diligent(w, r, a) && !Fails(a)
  {
    hide Hopeless;
    match r.pc
    case CleaningUp(todo) => a := Compensation(todo, EndCleanup);
    case CleanedUp => a := FinishCancel;
    case _ => a := SawCancel;
  }

  ghost function Compensation(todo: set<SegmentId>, end: Action): Action {
    if todo == {} then end else (var d :| d in todo; RemoveDocument(d))
  }

  lemma RecordGoes(w: World, st: Store, id: nat, r: Runner)
    requires Steps(w, st.steps, st.stage, st.lastStarted) && Shape(w, r) && Reuse(w, r) && Current(w, st, id, r)
    requires LeaseLive(st, id, r) && r.pc.Recording?
    ensures Can(w, st, id, r, Record)
  {
    hide StepLinked, DocumentsBound, Produced;
    if r.outs != [] {
      assert (|r.outs| - 1) as nat in st.steps;
    }
  }

  lemma CompleteGoes(w: World, st: Store, id: nat, r: Runner)
    requires Alone(w, r) && Current(w, st, id, r) && Fenced(st, id, r) && r.pc == Completing
    ensures Can(w, st, id, r.(cleared := true), Complete)
  {
    hide DocumentsBound, Chain;
    assert true in r.executed;
  }

  lemma ExecutingGoes(w: World, st: Store, id: nat, r: Runner) returns (a: Action)
    requires Fenced(st, id, r) && r.pc == Executing
    ensures Goes(w, st, id, r, a) && Diligent(w, r, a)
  {
    hide DocumentsBound;
    if Answers(w, r.attempt, r.outs) {
      var o :| w.produces(|r.outs|, r.attempt, r.outs, o) && Validates(w, |r.outs|, r.attempt, r.outs, o);
      a := Execute(o);
    } else {
      a := Fail(false);
    }
  }

  lemma StageGoes(w: World, st: Store, id: nat, r: Runner) returns (a: Action)
    requires StoreInv(w, st) && Alone(w, r) && Current(w, st, id, r) && Fenced(st, id, r) && InStages(r.pc)
    ensures Goes(w, st, id, r, a) && Diligent(w, r, a)
  {
    hide Steps, Disk, Checkpoints, Documents, Memory, Reuse, Current, DocumentsBound, Answers, Validates;
    match r.pc
    case Deciding => a := if |r.outs| < PUBLISH then Decide(true) else BeginPublish;
    case Resetting => a := Reset;
    case Executing => a := ExecutingGoes(w, st, id, r);
    case Writing(_) => a := WriteManifest;
    case Recording(_) =>
      RecordGoes(w, st, id, r);
      a := Record;
  }

  lemma PublicationGoes(w: World, st: Store, id: nat, r: Runner) returns (a: Action)
    requires Alone(w, r) && Current(w, st, id, r) && Fenced(st, id, r) && Publishing(r.pc) && r.pc != Committed
    ensures Goes(w, st, id, r, a) && Diligent(w, r, a)
  {
    hide Memory, Reuse, Current, DocumentsBound, Answers;
    match r.pc
    case Projecting(sent, refused) =>
      a := if sent < |r.outs[INDEXING].documents| then ProjectDocument(true) else if refused then Fail(true) else Acknowledge;
    case WritingPublish => a := WritePublish;
    case Completing =>
      CompleteGoes(w, st, id, r);
      a := Complete;
  }

  lemma AroundGoes(w: World, st: Store, id: nat, r: Runner) returns (a: Action)
    requires Claims(w, st, id, r) && Fenced(st, id, r) && !InStages(r.pc) && !Publishing(r.pc) && r.pc != Dead
    ensures Goes(w, st, id, r, a) && Diligent(w, r, a) && !a.Fail?
  {
    hide Hopeless;
    match r.pc
    case Claimed => a := if r.attempt <= w.maxAttempts then Start else Refuse;
    case Opening => a := ReadSteps;
    case RollingBack(todo, _) => a := Compensation(todo, EndRollback(true));
    case Errored(retryable, _) => a := if retryable && r.attempt < w.maxAttempts then ScheduleRetry else MarkFailed;
  }

  /** While its claim holds and nothing rests, the process with the claim can do diligent work, if need be after fencing. */
  lemma HolderGoes(w: World, s: State) returns (id: nat, a: Action)
    requires Inv(w, s) && s.store.status == Running && !Rests(s)
    ensures s.store.lease.Some? && id == s.store.lease.value.owner && id in s.runners
    ensures LeaseLive(s.store, id, s.runners[id])
    ensures Goes(w, s.store, id, s.runners[id], a) && Diligent(w, s.runners[id], a)
    ensures s.store.cancelRequested ==> !Fails(a)
  {
    hide StoreInv, Alone, Current, Sent, Completer, Traces, Goes, Diligent;
    id := s.store.lease.value.owner;
    var r := s.runners[id];
    assert Fits(w, s.store, id, r);
    assert Row(s.store) by { RowOf(w, s.store); }
    if s.store.cancelRequested {
      a := CancelledGoes(w, s.store, id, r);
    } else if InStages(r.pc) {
      a := StageGoes(w, s.store, id, r);
    } else if Publishing(r.pc) {
      a := PublicationGoes(w, s.store, id, r);
    } else {
      a := AroundGoes(w, s.store, id, r);
    }
  }

  // ---- until it is over, something can go on ----

  /** What happens on its own and without a fault: time, the promotion of a due retry, a due claim, and diligent work. */
  ghost predicate Industrious(w: World, s: State, e: Event) {
    match e
    case Environment(c) => c == Tick || c == Promote
    case Claim(_) => !CleanupDue(s.store)
    case Act(id, a) => id in s.runners && (a == Fence || Diligent(w, s.runners[id], a))
  }

  ghost predicate Industry(w: World, s: State, run: seq<Event>, t: State)
    decreases |run|
  {
    if run == [] then s == t
    else Enabled(w, s, run[0]) && Industrious(w, s, run[0]) && Industry(w, Apply(w, s, run[0]), run[1..], t)
  }

  lemma IndustryFirst(w: World, s: State, e: Event, run: seq<Event>, t: State)
    requires Enabled(w, s, e) && Industrious(w, s, e) && Industry(w, Apply(w, s, e), run, t)
    ensures Industry(w, s, [e] + run, t) && Work([e] + run) == One(Works(e)) + Work(run)
  {
    assert ([e] + run)[1..] == run;
  }

  lemma {:induction false} IndustryLeads(w: World, s: State, run: seq<Event>, t: State)
    requires Industry(w, s, run, t)
    ensures Leads(w, s, run, t) && Disturbances(w, s, run) == 0
    decreases |run|
  {
    if run != [] {
      IndustryLeads(w, Apply(w, s, run[0]), run[1..], t);
    }
  }

  function Phase(st: Store): nat {
    if st.status == Running then 2 else if st.status == RetryWait then 1 else 0
  }

  function OwnerOf(s: State): Runner
    requires s.store.lease.Some? && s.store.lease.value.owner in s.runners
  {
    s.runners[s.store.lease.value.owner]
  }

  predicate Owned(s: State) {
    s.store.status == Running && s.store.lease.Some? && s.store.lease.value.owner in s.runners
  }

  function OwnerLevel(s: State): nat {
    if Owned(s) then Level(OwnerOf(s)) else 0
  }

  function OwnerPending(s: State): nat {
    if Owned(s) then Pending(OwnerOf(s)) else 0
  }

  /** A state from which industry goes on to an end. */
  ghost predicate Awake(w: World, s: State) {
    Inv(w, s) && Alive(s.store) && !s.store.deleted && !Rests(s)
  }

  /** Every stage can answer any outputs of the stages before it, on every attempt. */
  ghost predicate Productive(w: World) {
    forall attempt: nat, outs: seq<Output> :: attempt >= 1 && |outs| < PUBLISH ==> Answers(w, attempt, outs)
  }

  /** The job can still complete: an attempt is left, or one is under way that is neither cancelled nor refused. */
  predicate Hopeful(w: World, s: State) {
    || s.store.status == Completed
    || (Waiting(s.store) && s.store.attempt < w.maxAttempts)
    || (Owned(s) && !s.store.cancelRequested && Promising(w, OwnerOf(s)))
  }

  predicate Promising(w: World, r: Runner) {
    r.attempt <= w.maxAttempts && (r.pc == Claimed || (r.started && InPipeline(r.pc) && !(r.pc.Projecting? && r.pc.refused)))
  }

  function Later(s: State, n: nat): State {
    s.(store := s.store.(now := s.store.now + n))
  }

  lemma Ticks(w: World, s: State, n: nat)
    ensures Enabled(w, s, Environment(Tick)) && Industrious(w, s, Environment(Tick)) && !Works(Environment(Tick))
    ensures Apply(w, s, Environment(Tick)) == Later(s, 1) && Later(Later(s, 1), n) == Later(s, n + 1) && Later(s, 0) == s
  {
  }

  lemma {:induction false} IndustryAfterWaiting(w: World, s: State, n: nat, run: seq<Event>, t: State) returns (run': seq<Event>)
    requires Industry(w, Later(s, n), run, t)
    ensures Industry(w, s, run', t) && Work(run') == Work(run)
    decreases n
  {
    hide Industry, Later, Enabled, Apply, Industrious, Works, Work;
    if n == 0 {
      Ticks(w, s, 0);
      run' := run;
    } else {
      Ticks(w, s, n - 1);
      run' := IndustryAfterWaiting(w, Later(s, 1), n - 1, run, t);
      IndustryFirst(w, s, Environment(Tick), run', t);
      run' := [Environment(Tick)] + run';
    }
  }

  lemma {:induction false} AwakeLater(w: World, s: State, n: nat)
    requires Awake(w, s) && Waiting(s.store)
    ensures Awake(w, Later(s, n))
    decreases n
  {
    hide Inv;
    if n > 0 {
      EventKept(w, s, Environment(Tick));
      AwakeLater(w, Later(s, 1), n - 1);
    }
  }

  lemma RowEnds(w: World, st: Store, id: nat, r: Runner, a: Action)
    requires Can(w, st, id, r, a) && (a.ScheduleRetry? || a.MarkFailed? || a.FinishCancel? || a.Complete?)
    ensures
      var t := Stepped(w, st, id, r, a);
      Ended(t) || (t.status == RetryWait && t.attempt == st.attempt < w.maxAttempts && t.deleted == st.deleted)
  {
    hide Moved, MemAfter;
  }

  lemma StaysUp(w: World, st: Store, id: nat, r: Runner, a: Action)
    requires Can(w, st, id, r, a) && Diligent(w, r, a) && !Fails(a) && !r.pc.RollingBack? && !r.pc.Errored?
    requires a != ScheduleRetry && a != MarkFailed
    ensures !Moved(w, st, id, r, a).pc.Errored? && !Moved(w, st, id, r, a).pc.RollingBack?
  {
    hide MemAfter, StoredAfter, Passed, OfAttempt, LeaseLive, Hopeless;
  }

  lemma StaysAlive(w: World, st: Store, id: nat, r: Runner, a: Action)
    requires Can(w, st, id, r, a) && !a.Die?
    ensures Moved(w, st, id, r, a).pc.Dead? ==> r.pc.Dead?
  {
    hide MemAfter, StoredAfter, Passed, OfAttempt, LeaseLive;
  }

  predicate OwnsAwake(s: State, id: nat) {
    s.store.status == Running && !Rests(s) && s.store.lease.Some? && s.store.lease.value.owner == id && id in s.runners
  }

  lemma ActKeepsUp(w: World, s: State, id: nat, a: Action)
    requires OwnsAwake(s, id) && Enabled(w, s, Act(id, a)) && Diligent(w, s.runners[id], a)
    requires s.store.cancelRequested ==> !Fails(a)
    requires (!OnRow(a) || a.Start?) && !a.Complete?
    ensures OwnsAwake(Apply(w, s, Act(id, a)), id)
  {
    hide Can, Stepped, Moved, Hopeless;
    var r := s.runners[id];
    RowStaysPut(w, s.store, id, r, a);
    StaysAlive(w, s.store, id, r, a);
    if s.store.cancelRequested { StaysUp(w, s.store, id, r, a); }
  }

  /** One piece of diligent work ends the job, schedules its retry, or brings the process with the claim nearer to its end. */
  lemma ActGoesOn(w: World, s: State, id: nat, a: Action)
    requires Awake(w, s) && OwnsAwake(s, id) && Enabled(w, s, Act(id, a)) && Diligent(w, s.runners[id], a)
    requires s.store.cancelRequested ==> !Fails(a)
    ensures
      var t := Apply(w, s, Act(id, a));
      || Ended(t.store)
      || (&& Awake(w, t) && ClaimsLeft(w, t.store) <= ClaimsLeft(w, s.store)
          && (t.store.status == RetryWait || (OwnsAwake(t, id) && Nearer(s.runners[id], t.runners[id]))))
  {
    hide Inv, Alive, Can, Stepped, Moved, Nearer, Hopeless, Rests, ClaimsLeft;
    var r, t := s.runners[id], Apply(w, s, Act(id, a));
    EventKept(w, s, Act(id, a));
    AliveThrough(w, s, Act(id, a));
    ActUsesClaims(w, s.store, id, r, a);
    if (OnRow(a) && !a.Start?) || a.Complete? {
      RowEnds(w, s.store, id, r, a);
      WaitingIsAwake(t);
    } else {
      ActKeepsUp(w, s, id, a);
      RowStaysPut(w, s.store, id, r, a);
      ActorShape(w, s, id);
      EveryStepWorks(w, s.store, id, r, a);
    }
  }

  lemma WaitingIsAwake(t: State)
    ensures t.store.status != Running ==> !Rests(t)
  {
  }

  lemma ClaimAwake(w: World, s: State, id: nat)
    requires Awake(w, s) && Enabled(w, s, Claim(id)) && w.leaseSeconds > 0
    ensures Awake(w, Apply(w, s, Claim(id))) && OwnsAwake(Apply(w, s, Claim(id)), id)
  {
    hide Inv;
    EventKept(w, s, Claim(id));
    AliveThrough(w, s, Claim(id));
  }

  lemma PromoteAwake(w: World, s: State)
    requires Awake(w, s) && Enabled(w, s, Environment(Promote))
    ensures Awake(w, Apply(w, s, Environment(Promote)))
  {
    hide Inv;
    EventKept(w, s, Environment(Promote));
    AliveThrough(w, s, Environment(Promote));
  }

  /** The fence before an awaited operation, where one is needed. */
  lemma Fencing(w: World, s: State, id: nat) returns (u: State)
    requires id in s.runners && Fenced(s.store, id, s.runners[id]) && InPipeline(s.runners[id].pc)
    ensures Enabled(w, s, Act(id, Fence)) && Industrious(w, s, Act(id, Fence)) && u == Apply(w, s, Act(id, Fence))
    ensures u == State(s.store, s.runners[id := s.runners[id].(cleared := true)])
  {
    u := Apply(w, s, Act(id, Fence));
    FenceOnly(w, s.store, id, s.runners[id]);
  }

  /** The fence before an awaited operation, where one is needed. */
  lemma FencesFirst(w: World, s: State, id: nat, a: Action) returns (fence: seq<Event>, u: State)
    requires Awake(w, s) && OwnsAwake(s, id) && Goes(w, s.store, id, s.runners[id], a)
    ensures Industry(w, s, fence, u) && u.store == s.store && id in u.runners && Work(fence) == 0
    ensures u.runners[id] == s.runners[id] || u.runners[id] == s.runners[id].(cleared := true)
    ensures Enabled(w, u, Act(id, a)) && Awake(w, u) && OwnsAwake(u, id)
  {
    hide Inv, Alive, Can, Apply, Industrious, Fenced, InPipeline;
    var r := s.runners[id];
    if Fenced(s.store, id, r) && InPipeline(r.pc) {
      u := Fencing(w, s, id);
      fence := [Act(id, Fence)];
      EventKept(w, s, Act(id, Fence));
      StandsStill(w, u);
      IndustryFirst(w, s, Act(id, Fence), [], u);
      assert [Act(id, Fence)] + [] == [Act(id, Fence)];
    } else {
      fence, u := [], s;
    }
  }

  lemma FenceOnly(w: World, st: Store, id: nat, r: Runner)
    requires Can(w, st, id, r, Fence)
    ensures Stepped(w, st, id, r, Fence) == st && Moved(w, st, id, r, Fence) == r.(cleared := true)
  {
  }

  /** Nearer to the end of the job: fewer claims left, a later phase of the claim, or a process nearer to its end. */
  predicate Progress(w: World, s: State, u: State) {
    || ClaimsLeft(w, u.store) < ClaimsLeft(w, s.store)
    || (&& ClaimsLeft(w, u.store) == ClaimsLeft(w, s.store)
        && (|| Phase(u.store) < Phase(s.store)
            || (&& Phase(u.store) == Phase(s.store)
                && (|| OwnerLevel(u) < OwnerLevel(s)
                    || (OwnerLevel(u) == OwnerLevel(s) && OwnerPending(u) < OwnerPending(s))))))
  }

  ghost predicate KeepsHope(w: World, s: State, u: State) {
    Productive(w) && Hopeful(w, s) ==> Hopeful(w, u)
  }

  lemma NextFromQueued(w: World, s: State) returns (e: Event)
    requires Awake(w, s) && s.store.status == Queued && w.leaseSeconds > 0
    requires s.store.nextRunAt.Some? ==> s.store.nextRunAt.value <= s.store.now
    ensures Enabled(w, s, e) && Industrious(w, s, e) && Works(e)
    ensures Awake(w, Apply(w, s, e)) && Progress(w, s, Apply(w, s, e)) && KeepsHope(w, s, Apply(w, s, e))
  {
    hide Inv, Productive, Rests;
    var id := FreshRunner(s);
    e := Claim(id);
    ClaimAwake(w, s, id);
    ClaimUsesClaims(w, s.store, id);
  }

  lemma NextFromRetry(w: World, s: State) returns (e: Event)
    requires Awake(w, s) && s.store.status == RetryWait && s.store.nextRunAt.Some? && s.store.nextRunAt.value <= s.store.now
    ensures Enabled(w, s, e) && Industrious(w, s, e) && Works(e)
    ensures Awake(w, Apply(w, s, e)) && Progress(w, s, Apply(w, s, e)) && KeepsHope(w, s, Apply(w, s, e))
  {
    hide Inv, Productive, Rests;
    e := Environment(Promote);
    PromoteAwake(w, s);
  }

  /** A waiting job is promoted or claimed once it is due. */
  lemma NextFromWaiting(w: World, s: State) returns (n: nat, e: Event)
    requires Awake(w, s) && Waiting(s.store) && w.leaseSeconds > 0
    ensures Enabled(w, Later(s, n), e) && Industrious(w, Later(s, n), e) && Works(e)
    ensures Awake(w, Apply(w, Later(s, n), e))
    ensures Progress(w, s, Apply(w, Later(s, n), e)) && KeepsHope(w, s, Apply(w, Later(s, n), e))
  {
    hide Awake, Enabled, Apply, Industrious, Works, Productive;
    n := if s.store.nextRunAt.Some? then s.store.nextRunAt.value else 0;
    AwakeLater(w, s, n);
    AwakeMeans(w, s);
    if s.store.status == Queued {
      e := NextFromQueued(w, Later(s, n));
    } else {
      e := NextFromRetry(w, Later(s, n));
    }
  }

  lemma AwakeMeans(w: World, s: State)
    requires Awake(w, s)
    ensures Alive(s.store) && !s.store.deleted
  {
  }

  lemma HopeKept(w: World, s: State, id: nat, a: Action)
    requires Inv(w, s) && OwnsAwake(s, id) && Enabled(w, s, Act(id, a)) && Diligent(w, s.runners[id], a)
    ensures KeepsHope(w, s, Apply(w, s, Act(id, a)))
  {
    hide Inv, Can, Stepped, Moved, Hopeless, Productive, Promising, OnRow;
    var r := s.runners[id];
    if Productive(w) && Hopeful(w, s) {
      AttemptStarted(w, s, id);
      PromiseKept(w, s.store, id, r, a);
      if !a.Complete? {
        RowStaysPut(w, s.store, id, r, a);
      } else {
        CompleteEnds(w, s.store, id, r);
      }
    }
  }

  lemma CompleteEnds(w: World, st: Store, id: nat, r: Runner)
    requires Can(w, st, id, r, Complete)
    ensures Stepped(w, st, id, r, Complete).status == Completed
  {
  }

  lemma AttemptStarted(w: World, s: State, id: nat)
    requires Inv(w, s) && id in s.runners
    ensures s.runners[id].started ==> s.runners[id].attempt >= 1 && Shape(w, s.runners[id])
  {
    assert Fits(w, s.store, id, s.runners[id]);
  }

  predicate GoesForward(a: Action) {
    || a.Start? || a.ReadSteps? || a.Decide? || a.Adopt? || a.Reset? || a.Execute? || a.WriteManifest? || a.Record?
    || a.BeginPublish? || a.ProjectDocument? || a.Acknowledge? || a.WritePublish? || a.Complete?
  }

  lemma OnlyForward(w: World, st: Store, id: nat, r: Runner, a: Action)
    requires Can(w, st, id, r, a) && Diligent(w, r, a) && Promising(w, r) && Productive(w) && !st.cancelRequested
    requires r.started ==> r.attempt >= 1 && Shape(w, r)
    ensures GoesForward(a)
  {
    hide Answers, DocumentsBound, Produced, CheckpointFits, Validates;
  }

  lemma ForwardPromises(w: World, st: Store, id: nat, r: Runner, a: Action)
    requires Can(w, st, id, r, a) && GoesForward(a) && Promising(w, r) && (a.ProjectDocument? ==> a.accepted)
    ensures a.Complete? || Promising(w, Moved(w, st, id, r, a))
  {
    hide MemAfter, StoredAfter, Passed, OfAttempt, CheckpointFits, Validates;
  }

  lemma PromiseKept(w: World, st: Store, id: nat, r: Runner, a: Action)
    requires Can(w, st, id, r, a) && Diligent(w, r, a) && Promising(w, r) && Productive(w) && !st.cancelRequested
    requires r.started ==> r.attempt >= 1 && Shape(w, r)
    ensures !OnRow(a) || a.Start?
    ensures a.Complete? || Promising(w, Moved(w, st, id, r, a))
  {
    hide Can, Moved, Promising, Productive, Shape, Hopeless;
    OnlyForward(w, st, id, r, a);
    ForwardPromises(w, st, id, r, a);
  }

  lemma NextFromRunning(w: World, s: State) returns (fence: seq<Event>, v: State, e: Event)
    requires Awake(w, s) && s.store.status == Running
    ensures Industry(w, s, fence, v) && Work(fence) == 0 && Enabled(w, v, e) && Industrious(w, v, e) && Works(e)
    ensures Ended(Apply(w, v, e).store) || (Awake(w, Apply(w, v, e)) && Progress(w, s, Apply(w, v, e)))
    ensures KeepsHope(w, s, Apply(w, v, e))
  {
    hide Inv, Alive, Industry, Work, Enabled, Apply, Goes, Diligent, Productive, ClaimsLeft;
    var id, a := HolderGoes(w, s);
    fence, v := FencesFirst(w, s, id, a);
    e := Act(id, a);
    assert Diligent(w, v.runners[id], a) by { DiligentAlike(w, s.runners[id], v.runners[id], a); }
    ActGoesOn(w, v, id, a);
    HopeKept(w, v, id, a);
    Worked(w, v.runners[id], a);
  }

  lemma Worked(w: World, r: Runner, a: Action)
    requires Diligent(w, r, a)
    ensures Lowers(a)
  {
  }

  lemma DiligentAlike(w: World, r: Runner, r': Runner, a: Action)
    requires Diligent(w, r, a) && (r' == r || r' == r.(cleared := true))
    ensures Diligent(w, r', a)
  {
  }

  lemma {:induction false} IndustryJoined(w: World, s: State, run: seq<Event>, t: State, more: seq<Event>, u: State)
    requires Industry(w, s, run, t) && Industry(w, t, more, u)
    ensures Industry(w, s, run + more, u) && Work(run + more) == Work(run) + Work(more)
    decreases |run|
  {
    hide Enabled, Apply, Industrious, Works;
    if run == [] {
      assert run + more == more;
    } else {
      var next := Apply(w, s, run[0]);
      IndustryJoined(w, next, run[1..], t, more, u);
      IndustryFirst(w, s, run[0], run[1..] + more, u);
      assert [run[0]] + (run[1..] + more) == run + more;
    }
  }

  /**
   From every state in which nothing rests, industry alone brings the job to its end; and when every stage can answer, and
   an attempt is left or well under way, that end is its completion, whatever earlier attempts have left behind.
   */
  lemma {:induction false} IndustryEnds(w: World, s: State) returns (run: seq<Event>, t: State)
    requires Awake(w, s) && w.leaseSeconds > 0
    ensures Industry(w, s, run, t) && Ended(t.store)
    ensures !Ended(s.store) ==> Work(run) > 0
    ensures Productive(w) && Hopeful(w, s) ==> t.store.status == Completed
    decreases ClaimsLeft(w, s.store), Phase(s.store), OwnerLevel(s), OwnerPending(s)
  {
    hide Awake, Industry, Enabled, Apply, Industrious, Works, Work, ClaimsLeft, OwnerLevel, OwnerPending, Productive;
    if Ended(s.store) {
      run, t := [], s;
      assert Industry(w, s, [], s) by { StandsStill(w, s); }
    } else if Waiting(s.store) {
      var n, e := NextFromWaiting(w, s);
      run, t := IndustryEnds(w, Apply(w, Later(s, n), e));
      IndustryFirst(w, Later(s, n), e, run, t);
      run := IndustryAfterWaiting(w, s, n, [e] + run, t);
    } else {
      var fence, v, e := NextFromRunning(w, s);
      var u := Apply(w, v, e);
      if Ended(u.store) {
        run, t := [], u;
        StandsStill(w, u);
      } else {
        run, t := IndustryEnds(w, u);
      }
      IndustryFirst(w, v, e, run, t);
      IndustryJoined(w, s, fence, v, [e] + run, t);
      run := fence + ([e] + run);
    }
  }

  lemma StandsStill(w: World, s: State)
    ensures Industry(w, s, [], s)
  {
  }

  /**
   A job that nothing rests on is not over while it is not ended: if no work at all is possible without a disturbance, the
   job is completed, failed or cancelled.
   */
  lemma ExhaustedMeansOver(w: World, run: seq<Event>, s: State)
    requires Reached(w, run, s) && w.leaseSeconds > 0 && !s.store.deleted
    requires forall more :: Legal(w, s, more) && Disturbances(w, s, more) == 0 ==> Work(more) == 0
    ensures Ended(s.store) || Rests(s)
  {
    ReachedInv(w, run, s);
    ReachedAlive(w, Initial, run);
    if !Rests(s) {
      var more, t := IndustryEnds(w, s);
      IndustryLeads(w, s, more, t);
    }
  }

  /** A queued or retried job with an attempt left can be completed, whatever its earlier attempts have left behind. */
  lemma AttemptLeftCompletes(w: World, run: seq<Event>, s: State) returns (more: seq<Event>, t: State)
    requires Reached(w, run, s) && w.leaseSeconds > 0 && !s.store.deleted && Productive(w)
    requires Waiting(s.store) && s.store.attempt < w.maxAttempts
    ensures Leads(w, s, more, t) && Disturbances(w, s, more) == 0 && Finished(t.store)
  {
    ReachedInv(w, run, s);
    ReachedAlive(w, Initial, run);
    more, t := IndustryEnds(w, s);
    IndustryLeads(w, s, more, t);
    IndustryKeepsAsset(w, s, more, t);
  }

  lemma {:induction false} IndustryKeepsAsset(w: World, s: State, run: seq<Event>, t: State)
    requires Industry(w, s, run, t)
    ensures t.store.deleted == s.store.deleted
    decreases |run|
  {
    if run != [] {
      IndustrialStep(w, s, run[0]);
      IndustryKeepsAsset(w, Apply(w, s, run[0]), run[1..], t);
    }
  }

  lemma IndustrialStep(w: World, s: State, e: Event)
    requires Enabled(w, s, e) && Industrious(w, s, e)
    ensures Apply(w, s, e).store.deleted == s.store.deleted
  {
    hide Can, Moved, Stepped, Hopeless, OnRow;
    match e
    case Environment(_) =>
    case Claim(_) =>
    case Act(id, a) =>
      var r := s.runners[id];
      if (OnRow(a) && !a.Start?) || a.Complete? {
        RowKeepsAsset(w, s.store, id, r, a);
      } else {
        RowStaysPut(w, s.store, id, r, a);
      }
  }

  lemma RowKeepsAsset(w: World, st: Store, id: nat, r: Runner, a: Action)
    requires Can(w, st, id, r, a) && (OnRow(a) || a.Complete?)
    ensures Stepped(w, st, id, r, a).deleted == st.deleted
  {
    hide Can, Moved, MemAfter;
  }

  // ---- and when it rests ----

  /** A cancelled job whose lease is free is claimed for clean-up. */
  lemma TakenOver(w: World, s: State) returns (e: Event)
    requires Inv(w, s) && Alive(s.store) && w.leaseSeconds > 0 && CleanupDue(s.store)
    ensures Enabled(w, s, e) && e.Claim? && Awake(w, Apply(w, s, e))
  {
    hide Inv;
    var id := FreshRunner(s);
    e := Claim(id);
    EventKept(w, s, e);
    AliveThrough(w, s, e);
  }

  /**
   From every reachable state, whatever has crashed, the job can still reach an end; all that is needed besides industry is
   that a lease that ran out is noticed and the job taken over, at most once each.
   */
  lemma NeverStuck(w: World, run: seq<Event>, s: State)
    returns (noticed: seq<Event>, u: State, more: seq<Event>, t: State)
    requires Reached(w, run, s) && w.leaseSeconds > 0 && !s.store.deleted
    ensures Leads(w, s, noticed, u) && Disturbances(w, s, noticed) <= 2 && Work(noticed) <= 1
    ensures Industry(w, u, more, t) && Ended(t.store)
  {
    hide Inv, Leads, Legal, After, Work, Disturbances;
    ReachedInv(w, run, s);
    ReachedAlive(w, Initial, run);
    noticed, u := Wakes(w, s);
    more, t := IndustryEnds(w, u);
  }

  lemma LeadsFirst(w: World, s: State, e: Event, run: seq<Event>, t: State)
    requires Enabled(w, s, e) && Leads(w, Apply(w, s, e), run, t)
    ensures Leads(w, s, [e] + run, t) && Work([e] + run) == One(Works(e)) + Work(run)
    ensures Disturbances(w, s, [e] + run) == One(Disturbs(s.store, e)) + Disturbances(w, Apply(w, s, e), run)
  {
    assert ([e] + run)[1..] == run;
  }

  /** A run that wakes the job, with the little it costs. */
  ghost predicate Waking(w: World, s: State, run: seq<Event>, t: State) {
    Leads(w, s, run, t) && Awake(w, t) && Disturbances(w, s, run) <= 2 && Work(run) <= 1
  }

  lemma {:induction false} WakesLater(w: World, s: State, n: nat, run: seq<Event>, t: State) returns (run': seq<Event>)
    requires Waking(w, Later(s, n), run, t)
    ensures Waking(w, s, run', t)
    decreases n
  {
    hide Leads, Later, Enabled, Apply, Work, Disturbances, Awake, Industrious;
    Ticks(w, s, if n > 0 then n - 1 else 0);
    if n == 0 {
      run' := run;
    } else {
      run' := WakesLater(w, Later(s, 1), n - 1, run, t);
      LeadsFirst(w, s, Environment(Tick), run', t);
      run' := [Environment(Tick)] + run';
    }
  }

  lemma {:induction false} InvLater(w: World, s: State, n: nat)
    requires Inv(w, s) && Alive(s.store)
    ensures Inv(w, Later(s, n)) && Alive(Later(s, n).store)
    decreases n
  {
    hide Inv;
    if n > 0 {
      EventKept(w, s, Environment(Tick));
      InvLater(w, Later(s, 1), n - 1);
    }
  }

  lemma AlreadyAwake(w: World, s: State)
    requires Awake(w, s)
    ensures Waking(w, s, [], s)
  {
  }

  lemma WakesByClaim(w: World, s: State) returns (run: seq<Event>, t: State)
    requires Inv(w, s) && Alive(s.store) && w.leaseSeconds > 0 && CleanupDue(s.store)
    ensures Waking(w, s, run, t) && Disturbances(w, s, run) == 1
  {
    hide Inv, Awake, Apply;
    var e := TakenOver(w, s);
    run, t := [e], Apply(w, s, e);
    AlreadyAwake(w, t);
    LeadsFirst(w, s, e, [], t);
    assert [e] + [] == [e];
  }

  lemma Recovers(w: World, s: State)
    requires Inv(w, s) && Alive(s.store) && Enabled(w, s, Environment(Recover))
    ensures
      var t := Apply(w, s, Environment(Recover));
      Inv(w, t) && Alive(t.store) && (Awake(w, t) || CleanupDue(t.store))
  {
    hide Inv;
    EventKept(w, s, Environment(Recover));
    AliveThrough(w, s, Environment(Recover));
  }

  lemma WakesByRecovery(w: World, s: State) returns (run: seq<Event>, t: State)
    requires Inv(w, s) && Alive(s.store) && w.leaseSeconds > 0 && Enabled(w, s, Environment(Recover))
    ensures Waking(w, s, run, t)
  {
    hide Inv, Alive, Awake, Enabled, Apply, CleanupDue;
    Recovers(w, s);
    var u := Apply(w, s, Environment(Recover));
    if Awake(w, u) {
      AlreadyAwake(w, u);
      run, t := [], u;
    } else {
      run, t := WakesByClaim(w, u);
    }
    LeadsFirst(w, s, Environment(Recover), run, t);
    run := [Environment(Recover)] + run;
  }

  /** Waiting for the lease to run out, noticing that, and taking a cancelled job over. */
  lemma Wakes(w: World, s: State) returns (run: seq<Event>, t: State)
    requires Inv(w, s) && Alive(s.store) && w.leaseSeconds > 0 && !s.store.deleted
    ensures Waking(w, s, run, t)
  {
    hide Inv, Waking, Disturbances;
    if !Rests(s) {
      AlreadyAwake(w, s);
      run, t := [], s;
    } else if s.store.lease.None? {
      run, t := WakesByClaim(w, s);
    } else {
      var until := s.store.lease.value.until;
      InvLater(w, s, until);
      run, t := WakesByRecovery(w, Later(s, until));
      run := WakesLater(w, s, until, run, t);
    }
  }
}
