/** Which failures are retried, how long a retry waits, and for how long nobody else gets at a job. */
module EngineRetries {
  import opened Options
  import opened Projection
  import opened Engine
  import opened EngineInvariant
  import opened EngineProofs
  import opened EngineTheorems
  import opened EngineProgress
  import opened EngineWork
  import opened EngineLife

  // ---- how an attempt failed ----

  /** An event in which a process fails, and whether that failure may be worth a retry. */
  function Failing(e: Event, id: nat): Option<bool> {
    if e.Act? && e.runner == id then
      match e.action
      case Fail(retryable) => Some(retryable)
      case Refuse | Interrupt => Some(false)
      case _ => None
    else None
  }

  /** How process `id` failed last. */
  function LastFailure(run: seq<Event>, id: nat): Option<bool>
    decreases |run|
  {
    if run == [] then None
    else
      var last := Failing(run[|run| - 1], id);
      if last.Some? then last else LastFailure(run[..|run| - 1], id)
  }

  predicate GaveUp(pc: Pc) {
    pc.RollingBack? || pc.Errored? || pc.CleaningUp? || pc.CleanedUp? || pc.Done? || pc.Dead?
  }

  /** A process remembers how it failed, and does not go on after it has. */
  predicate Remembers(failure: Option<bool>, r: Runner) {
    && (r.pc.RollingBack? || r.pc.Errored? ==> failure == Some(r.pc.retryable))
    && (failure.Some? ==> GaveUp(r.pc))
  }

  lemma RemembersStep(w: World, st: Store, id: nat, r: Runner, a: Action, failure: Option<bool>)
    requires Can(w, st, id, r, a) && Remembers(failure, r)
    ensures
      var now := Failing(Act(id, a), id);
      Remembers(if now.Some? then now else failure, Moved(w, st, id, r, a))
  {
    hide MemAfter, StoredAfter, Passed, Reusable, Validates, OfAttempt, Stepped, CheckpointFits, InputDigest;
  }

  ghost predicate RemembersAll(run: seq<Event>, s: State, id: nat) {
    if id in s.runners then Remembers(LastFailure(run, id), s.runners[id]) else LastFailure(run, id).None?
  }

  lemma {:induction false} FailuresRemembered(w: World, run: seq<Event>, s: State, id: nat)
    requires Reached(w, run, s)
    ensures RemembersAll(run, s, id)
    decreases |run|
  {
    hide Can, Moved, Stepped, MayChange, Changed, CleanupDue, RunDue, ClaimedStore, Remembers;
    if run != [] {
      var n := |run| - 1;
      Shortened(w, Initial, run);
      var before := After(w, Initial, run[..n]);
      FailuresRemembered(w, run[..n], before, id);
      match run[n] {
        case Act(i, a) => if i == id { RemembersStep(w, before.store, id, before.runners[id], a, LastFailure(run[..n], id)); }
        case Claim(i) => if i == id { FreshRemembers(ClaimedStore(w, before.store, id).attempt); }
        case Environment(_) =>
      }
    }
  }

  lemma FreshRemembers(attempt: nat)
    ensures Remembers(None, NewRunner(attempt))
  {
  }

  // ---- what becomes of a failed attempt ----

  /**
   A process that failed while its claim holds leaves the job waiting for a retry exactly when it failed in a way worth one
   and an attempt is left, with the delay its attempt asks for; it leaves it failed for good in every other case.
   */
  lemma RetriedIff(w: World, run: seq<Event>, s: State, id: nat, a: Action, t: State)
    requires Reached(w, run, s) && id in s.runners && Fenced(s.store, id, s.runners[id]) && LastFailure(run, id).Some?
    requires Enabled(w, s, Act(id, a)) && t == Apply(w, s, Act(id, a)) && t.store.status != Running
    ensures t.store.status == if LastFailure(run, id) == Some(true) && s.store.attempt < w.maxAttempts then RetryWait else Failed
    ensures t.store.lease == None && t.store.attempt == s.store.attempt
    ensures t.store.status == RetryWait ==>
      t.store.nextRunAt == Some(s.store.now + if s.store.attempt == 1 then 30 else if s.store.attempt == 2 then 120 else 600)
  {
    hide Can, Stepped, Moved, Inv;
    FailuresRemembered(w, run, s, id);
    ReachedInv(w, run, s);
    ClaimedBeforeFailing(w, s, id);
    SettlesRow(w, s.store, id, s.runners[id], a);
  }

  /** What a process that gave up does to the row when it gives up its claim. */
  lemma SettlesRow(w: World, st: Store, id: nat, r: Runner, a: Action)
    requires Fenced(st, id, r) && GaveUp(r.pc) && !r.pc.CleaningUp? && !r.pc.CleanedUp?
    requires Can(w, st, id, r, a) && Stepped(w, st, id, r, a).status != Running
    ensures r.pc.Errored?
    ensures
      var t := Stepped(w, st, id, r, a);
      && t.status == (if r.pc.retryable && r.attempt < w.maxAttempts then RetryWait else Failed)
      && t.lease == None && t.attempt == st.attempt
      && (t.status == RetryWait ==> t.nextRunAt == Some(st.now + Backoff(st.attempt)))
  {
    hide Moved, Backoff;
    if !OnRow(a) || a.Start? {
      StatusStays(w, st, id, r, a);
    } else {
      match a {
        case Renew => case RenewCleanup => case Release => case ScheduleRetry => case MarkFailed => case FinishCancel =>
      }
    }
  }

  lemma ClaimedBeforeFailing(w: World, s: State, id: nat)
    requires Inv(w, s) && id in s.runners && LeaseLive(s.store, id, s.runners[id])
    ensures !s.store.cancelRequested ==> s.store.attempt >= 1
    ensures !s.store.cancelRequested ==> !s.runners[id].pc.CleaningUp? && !s.runners[id].pc.CleanedUp?
    ensures !s.runners[id].pc.Done?
  {
    assert Fits(w, s.store, id, s.runners[id]);
  }

  lemma StatusStays(w: World, st: Store, id: nat, r: Runner, a: Action)
    requires Can(w, st, id, r, a) && (!OnRow(a) || a.Start?) && GaveUp(r.pc)
    ensures Stepped(w, st, id, r, a).status == st.status
  {
    hide Moved, Stepped, MemAfter;
    RowStaysPut(w, st, id, r, a);
  }

  lemma RemovedOne(w: World, st: Store, id: nat, r: Runner, d: SegmentId)
    requires r.pc.RollingBack? && d in r.pc.todo
    ensures Can(w, st, id, r, RemoveDocument(d))
    ensures
      var r', st' := Moved(w, st, id, r, RemoveDocument(d)), Stepped(w, st, id, r, RemoveDocument(d));
      && r'.pc == RollingBack(r.pc.todo - {d}, r.pc.retryable) && r'.attempt == r.attempt
      && (Fenced(st, id, r) ==> Fenced(st', id, r')) && st'.attempt == st.attempt
  {
  }

  /** A rollback that nothing disturbs gets through. */
  lemma {:induction false} RollsBackAll(w: World, s: State, id: nat) returns (more: seq<Event>, t: State)
    requires id in s.runners && s.runners[id].pc.RollingBack? && Fenced(s.store, id, s.runners[id])
    ensures Leads(w, s, more, t) && id in t.runners && t.runners[id].pc == Errored(s.runners[id].pc.retryable, true)
    ensures Fenced(t.store, id, t.runners[id]) && t.runners[id].attempt == s.runners[id].attempt
    decreases |s.runners[id].pc.todo|
  {
    hide Can, Moved, Stepped, Leads, Fenced;
    var r := s.runners[id];
    if d :| d in r.pc.todo {
      RemovedOne(w, s.store, id, r, d);
      more, t := First(w, s, Act(id, RemoveDocument(d)));
      var rest, u := RollsBackAll(w, t, id);
      Joined(w, s, more, t, rest, u);
      more, t := more + rest, u;
    } else {
      RolledBack(w, s.store, id, r);
      more, t := First(w, s, Act(id, EndRollback(true)));
    }
  }

  lemma RolledBack(w: World, st: Store, id: nat, r: Runner)
    requires r.pc.RollingBack? && r.pc.todo == {}
    ensures Can(w, st, id, r, EndRollback(true)) && Stepped(w, st, id, r, EndRollback(true)) == st
    ensures
      var r' := Moved(w, st, id, r, EndRollback(true));
      && r'.pc == Errored(r.pc.retryable, true) && r'.attempt == r.attempt && (Fenced(st, id, r) <==> Fenced(st, id, r'))
  {
  }

  lemma SettlesNow(w: World, s: State, id: nat) returns (a: Action)
    requires id in s.runners && s.runners[id].pc.Errored? && Fenced(s.store, id, s.runners[id])
    ensures Enabled(w, s, Act(id, a)) && Apply(w, s, Act(id, a)).store.status != Running
  {
    hide Moved;
    var r := s.runners[id];
    a := if r.pc.retryable && r.attempt < w.maxAttempts then ScheduleRetry else MarkFailed;
  }

  /** A process that failed, is alive and keeps its claim can undo its projection and settle its failure, by its own steps. */
  lemma SettlesItsFailure(w: World, run: seq<Event>, s: State, id: nat) returns (more: seq<Event>, t: State)
    requires Reached(w, run, s) && id in s.runners && Fenced(s.store, id, s.runners[id])
    requires LastFailure(run, id).Some? && !s.runners[id].pc.Dead?
    ensures Leads(w, s, more, t)
    ensures t.store.status == if LastFailure(run, id) == Some(true) && s.store.attempt < w.maxAttempts then RetryWait else Failed
  {
    hide Can, Moved, Stepped, Leads;
    FailuresRemembered(w, run, s, id);
    ReachedInv(w, run, s);
    ClaimedBeforeFailing(w, s, id);
    more, t := [], s;
    Here(w, s);
    if s.runners[id].pc.RollingBack? {
      more, t := RollsBackAll(w, s, id);
    }
    var a := SettlesNow(w, t, id);
    Settled(w, t, id, a);
    more, t := Then(w, s, more, t, Act(id, a));
  }

  lemma Settled(w: World, s: State, id: nat, a: Action)
    requires id in s.runners && s.runners[id].pc.Errored? && Fenced(s.store, id, s.runners[id])
    requires Enabled(w, s, Act(id, a)) && Apply(w, s, Act(id, a)).store.status != Running
    ensures Apply(w, s, Act(id, a)).store.status
      == if s.runners[id].pc.retryable && s.runners[id].attempt < w.maxAttempts then RetryWait else Failed
  {
    hide Moved, MemAfter;
    if !OnRow(a) || a.Start? { StatusStays(w, s.store, id, s.runners[id], a); }
  }

  // ---- a retry waits ----

  /** A job that waits until `date`, or was cancelled while it did. */
  predicate WaitsFor(st: Store, date: nat) {
    st.lease.None? && st.nextRunAt == Some(date) && (Waiting(st) || st.status == Cancelled)
  }

  lemma WaitsThroughAct(w: World, st: Store, id: nat, r: Runner, a: Action, date: nat)
    requires WaitsFor(st, date) && Can(w, st, id, r, a)
    ensures WaitsFor(Stepped(w, st, id, r, a), date)
  {
    hide Moved, LatestBelow, Below, Upsert, RemoveOwned, MemAfter, Validates, CheckpointFits;
  }

  lemma WaitsThroughChange(w: World, st: Store, c: Change, date: nat)
    requires WaitsFor(st, date) && MayChange(w, st, c)
    ensures WaitsFor(Changed(w, st, c), date)
  {
  }

  lemma {:induction false} WaitsOn(w: World, s: State, more: seq<Event>, date: nat)
    requires WaitsFor(s.store, date) && Legal(w, s, more) && forall i :: 0 <= i < |more| ==> !more[i].Claim?
    ensures WaitsFor(After(w, s, more).store, date)
    decreases |more|
  {
    hide WaitsFor, Can, Moved, Stepped, MayChange, Changed;
    if more != [] {
      match more[0] {
        case Act(id, a) => WaitsThroughAct(w, s.store, id, s.runners[id], a, date);
        case Environment(c) => WaitsThroughChange(w, s.store, c, date);
      }
      assert forall i :: 0 <= i < |more[1..]| ==> more[1..][i] == more[i + 1];
      WaitsOn(w, Apply(w, s, more[0]), more[1..], date);
    }
  }

  /** Whatever happens in between, the next claim after a scheduled retry comes no earlier than the delay of the attempt. */
  lemma RetryWaitsItsDelay(w: World, s: State, id: nat, more: seq<Event>, j: nat)
    requires Enabled(w, s, Act(id, ScheduleRetry)) && Legal(w, Apply(w, s, Act(id, ScheduleRetry)), more)
    requires forall i :: 0 <= i < |more| ==> !more[i].Claim?
    requires Enabled(w, After(w, Apply(w, s, Act(id, ScheduleRetry)), more), Claim(j))
    ensures After(w, Apply(w, s, Act(id, ScheduleRetry)), more).store.now
      >= s.store.now + if s.store.attempt <= 1 then 30 else if s.store.attempt == 2 then 120 else 600
  {
    WaitsOn(w, Apply(w, s, Act(id, ScheduleRetry)), more, s.store.now + Backoff(s.store.attempt));
  }

  // ---- a claim that is renewed ----

  predicate GivesUp(a: Action) {
    a.Release? || a.ScheduleRetry? || a.MarkFailed? || a.FinishCancel? || a.Complete?
  }

  predicate Renews(a: Action) {
    a.Renew? || a.RenewCleanup?
  }

  /** Process `id` keeps its claim and always renews it before the `left` ticks its lease has left are over. */
  predicate Punctual(w: World, id: nat, left: nat, more: seq<Event>)
    decreases |more|
  {
    more == [] ||
    match more[0]
    case Environment(c) =>
      if c == Tick then left > 1 && Punctual(w, id, left - 1, more[1..]) else Punctual(w, id, left, more[1..])
    case Claim(_) => Punctual(w, id, left, more[1..])
    case Act(i, a) =>
      if i == id && GivesUp(a) then false
      else Punctual(w, id, if i == id && Renews(a) then w.leaseSeconds else left, more[1..])
  }

  /** The row is leased to process `id` under its own attempt for at least `left` more ticks. */
  predicate Leased(s: State, id: nat, left: nat) {
    id in s.runners && LeaseLive(s.store, id, s.runners[id]) && s.store.lease.value.until >= s.store.now + left
  }

  lemma LeasedThroughOwn(w: World, s: State, id: nat, a: Action, left: nat)
    requires Leased(s, id, left) && Enabled(w, s, Act(id, a)) && !GivesUp(a) && w.leaseSeconds > 0
    ensures Leased(Apply(w, s, Act(id, a)), id, if Renews(a) then w.leaseSeconds else left)
  {
    hide Can, Stepped, Moved;
    if Renews(a) {
      Renewed(w, s.store, id, s.runners[id], a);
    } else {
      RowStaysPut(w, s.store, id, s.runners[id], a);
      SameAttempt(w, s.store, id, s.runners[id], a);
    }
  }

  lemma SameAttempt(w: World, st: Store, id: nat, r: Runner, a: Action)
    requires Can(w, st, id, r, a)
    ensures Moved(w, st, id, r, a).attempt == r.attempt
  {
    hide Can, PcAfter, MemAfter, StoredAfter, Passed;
  }

  lemma Renewed(w: World, st: Store, id: nat, r: Runner, a: Action)
    requires Can(w, st, id, r, a) && Renews(a) && LeaseLive(st, id, r)
    ensures Stepped(w, st, id, r, a) == st.(lease := Some(Lease(id, st.now + w.leaseSeconds)))
    ensures Moved(w, st, id, r, a).attempt == r.attempt
  {
  }

  lemma LeasedThroughOther(w: World, s: State, id: nat, i: nat, a: Action, left: nat)
    requires Leased(s, id, left) && i != id && Enabled(w, s, Act(i, a))
    ensures Leased(Apply(w, s, Act(i, a)), id, left)
  {
    hide Can, Stepped, Moved;
    OnlyTheHolder(w, s.store, i, s.runners[i], a);
    RowStaysPut(w, s.store, i, s.runners[i], a);
  }

  lemma OnlyTheHolder(w: World, st: Store, id: nat, r: Runner, a: Action)
    requires Can(w, st, id, r, a) && !Holds(st, id)
    ensures (!OnRow(a) || a.Start?) && !a.Complete?
  {
    hide CheckpointFits, Validates;
  }

  lemma LeasedThroughChange(w: World, s: State, id: nat, c: Change, left: nat)
    requires Leased(s, id, left) && MayChange(w, s.store, c) && (c == Tick ==> left > 1)
    ensures Leased(Apply(w, s, Environment(c)), id, if c == Tick then left - 1 else left)
  {
  }

  /**
   As long as a process renews its claim before its lease is over and does not give it up, whether it works or cleans up, the
   lease is its own and nobody takes the job over.
   */
  lemma {:induction false} RenewedClaimsAreKept(w: World, s: State, id: nat, left: nat, more: seq<Event>)
    requires Leased(s, id, left) && left > 0 && w.leaseSeconds > 0 && Legal(w, s, more) && Punctual(w, id, left, more)
    ensures
      var t := After(w, s, more);
      id in t.runners && LeaseLive(t.store, id, t.runners[id])
    ensures forall i :: 0 <= i < |more| ==> !more[i].Claim?
    decreases |more|
  {
    hide Can, Stepped, Moved, MayChange, Changed, ClaimedStore;
    if more != [] {
      var t, rest := Apply(w, s, more[0]), more[1..];
      match more[0] {
        case Environment(c) =>
          LeasedThroughChange(w, s, id, c, left);
          RenewedClaimsAreKept(w, t, id, if c == Tick then left - 1 else left, rest);
        case Act(i, a) =>
          if i == id {
            LeasedThroughOwn(w, s, id, a, left);
            RenewedClaimsAreKept(w, t, id, if Renews(a) then w.leaseSeconds else left, rest);
          } else {
            LeasedThroughOther(w, s, id, i, a, left);
            RenewedClaimsAreKept(w, t, id, left, rest);
          }
        case Claim(i) =>
          assert false;
      }
      assert forall i :: 0 < i < |more| ==> more[i] == rest[i - 1];
    }
  }

  /** A claim that is handed back before anything ran costs no attempt and no time. */
  lemma ReleasedClaimCostsNothing(w: World, s: State, id: nat) returns (t: State)
    requires Enabled(w, s, Claim(id)) && s.store.status == Queued && w.leaseSeconds > 0
    ensures Leads(w, s, [Claim(id), Act(id, Release)], t)
    ensures t.store == s.store.(status := RetryWait, nextRunAt := Some(s.store.now), lease := None, cancelRequested := false)
  {
    hide Leads;
    var run;
    run, t := First(w, s, Claim(id));
    run, t := Then(w, s, run, t, Act(id, Release));
    assert run == [Claim(id), Act(id, Release)];
  }

  // ---- the operator's retry ----

  /** An operator's retry of a failed job that has an attempt left can complete it. */
  lemma RetriedFailureCompletes(w: World, run: seq<Event>, s: State) returns (more: seq<Event>, t: State)
    requires Reached(w, run, s) && Enabled(w, s, Environment(RetryFailed)) && s.store.attempt < w.maxAttempts
    requires w.leaseSeconds > 0 && Productive(w)
    ensures Leads(w, s, [Environment(RetryFailed)] + more, t) && Finished(t.store)
  {
    hide Productive;
    var e := Environment(RetryFailed);
    var first, u := First(w, s, e);
    Appended(w, Initial, run, e);
    more, t := AttemptLeftCompletes(w, run + [e], u);
    Joined(w, s, first, u, more, t);
  }

  /**
   A job that failed with no attempt left never completes, however often it is retried: the promise to make a failed job
   eligible for another attempt is kept exactly for jobs that have one left.
   */
  lemma ExhaustedNeverCompletes(w: World, run: seq<Event>, s: State, more: seq<Event>)
    requires Reached(w, run, s) && s.store.status == JobStatus.Failed && s.store.attempt >= w.maxAttempts && Legal(w, s, more)
    ensures !Finished(After(w, s, more).store)
  {
    hide Inv;
    var t := After(w, s, more);
    ReachedInv(w, run, s);
    RunKept(w, s, more);
    RunFloor(w, s, more, s.store.attempt + 1);
    if Finished(t.store) {
      CompleterKnows(w, t);
      CompletedWithin(w, t);
    }
  }

  lemma CompletedWithin(w: World, s: State)
    requires Inv(w, s) && Finished(s.store)
    ensures s.store.attempt <= w.maxAttempts
  {
    CompleterKnows(w, s);
    assert Fits(w, s.store, s.store.completedBy, s.runners[s.store.completedBy]);
  }

  /** In particular a failure worth a retry that is settled as final is beyond the help of an operator. */
  lemma GivenUpForGood(w: World, run: seq<Event>, s: State, id: nat, a: Action, more: seq<Event>)
    requires Reached(w, run, s) && id in s.runners && Fenced(s.store, id, s.runners[id]) && LastFailure(run, id) == Some(true)
    requires Enabled(w, s, Act(id, a)) && Apply(w, s, Act(id, a)).store.status == JobStatus.Failed
    requires Legal(w, Apply(w, s, Act(id, a)), more)
    ensures !Finished(After(w, Apply(w, s, Act(id, a)), more).store)
  {
    hide Can, Moved, Stepped;
    var t := Apply(w, s, Act(id, a));
    RetriedIff(w, run, s, id, a, t);
    Appended(w, Initial, run, Act(id, a));
    ExhaustedNeverCompletes(w, run + [Act(id, a)], t, more);
  }
}
