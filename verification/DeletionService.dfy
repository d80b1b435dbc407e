/**
 A deletion request as the program the API runs for it, over the deletion saga: at every await other requests, jobs, the
 upload and the clock may do any legal thing, and an external operation may fail with or without having removed anything.
 What the request does not decide itself is a parameter, so that for every exit there is a cause to name.
 */
module DeletionService {
  import opened Deletion

  datatype Fate = Succeeds | Fails(removed: bool)

  datatype Outside = Outside(
    interference: nat -> seq<Event>,   // what everyone else tries during an await
    operation: nat -> Fate)            // what becomes of the external operation of a step

  /** What keeps a request from deleting the asset. */
  datatype Cause = JobRuns | HeldByAnother | ClaimLost

  ghost predicate Shows(cause: Cause, run: seq<Event>, id: nat) {
    Legal(Initial, run) &&
    var s := After(Initial, run);
    match cause
    case JobRuns => s.saga.running
    case HeldByAnother =>
      exists k :: k in s.saga.claims && k < STEPS && s.saga.claims[k].owner != id && s.saga.claims[k].until > s.saga.now
    case ClaimLost => id in s.requests && s.requests[id].phase.Recording? && !Owns(s.saga, id, s.requests[id].phase.step)
  }

  ghost predicate Since(cause: Cause, run: seq<Event>, from: nat, id: nat) {
    exists i :: from <= i <= |run| && Shows(cause, run[..i], id)
  }

  predicate Intervenes(id: nat, s: State, e: Event) {
    Enabled(s, e) && !(e.Do? && e.id == id)
  }

  /** What happens of the things that others try one after the other. */
  function Happening(id: nat, s: State, events: seq<Event>): seq<Event>
    decreases |events|
  {
    if events == [] then []
    else if Intervenes(id, s, events[0]) then [events[0]] + Happening(id, Apply(s, events[0]), events[1..])
    else Happening(id, s, events[1..])
  }

  lemma ShowsNow(cause: Cause, run: seq<Event>, id: nat)
    requires Shows(cause, run, id)
    ensures Since(cause, run, |run|, id)
  {
    assert run[..|run|] == run;
  }

  lemma Earlier(cause: Cause, run: seq<Event>, from: nat, run': seq<Event>, from': nat, id: nat)
    requires Since(cause, run, from, id) && run <= run' && from' <= from
    ensures Since(cause, run', from', id)
  {
    hide Shows;
    var i :| from <= i <= |run| && Shows(cause, run[..i], id);
    assert run'[..i] == run[..i];
  }

  predicate OperationFails(outside: Outside) {
    exists k: nat :: k < STEPS && outside.operation(k).Fails?
  }

  /** Another request is at work, or a job was running when the request arrived. */
  ghost predicate PendingFor(run: seq<Event>, from: nat, id: nat) {
    Since(JobRuns, run, from, id) || Since(HeldByAnother, run, from, id)
  }

  ghost predicate RaisedFor(outside: Outside, run: seq<Event>, from: nat, id: nat) {
    OperationFails(outside) || Since(ClaimLost, run, from, id) || Since(JobRuns, run, from, id)
  }

  ghost predicate Explained(outside: Outside, phase: Phase, run: seq<Event>, from: nat, id: nat) {
    && (phase == Exited(Pending) ==> PendingFor(run, from, id))
    && (phase == Exited(Raised) ==> RaisedFor(outside, run, from, id))
  }

  class Deleter {
    const id: nat
    const leaseSeconds: nat
    const outside: Outside
    ghost const start: nat
    var awaits: nat
    var state: State
    ghost var run: seq<Event>

    ghost predicate Undisturbed()
      reads this
    {
      start <= |run| && forall i :: start <= i < |run| ==> run[i].Do? && run[i].id == id
    }

    ghost predicate Valid()
      reads this
    {
      Reached(run, state) && id in state.requests && leaseSeconds > 0
      && ((forall n: nat :: outside.interference(n) == []) ==> Undisturbed())
    }

    function Me(): Request
      requires id in state.requests
      reads this
    {
      state.requests[id]
    }

    constructor (id: nat, leaseSeconds: nat, outside: Outside, state: State, ghost run: seq<Event>)
      requires Reached(run, state) && id in state.requests && leaseSeconds > 0
      ensures Valid() && this.id == id && this.outside == outside && this.state == state && this.run == run && start == |run|
    {
      this.id, this.leaseSeconds, this.outside, this.start, this.awaits := id, leaseSeconds, outside, |run|, 0;
      this.state, this.run := state, run;
    }

    method Happen(e: Event)
      requires Valid() && Enabled(state, e)
      requires (forall n: nat :: outside.interference(n) == []) ==> e.Do? && e.id == id
      modifies this`state, this`run
      ensures Valid() && state == Apply(old(state), e) && run == old(run) + [e]
    {
      Appended(Initial, run, e);
      run := run + [e];
      state := Apply(state, e);
    }

    /** Whatever everyone else does while this request awaits. */
    method Await()
      requires Valid()
      modifies this
      ensures Valid() && Me() == old(Me()) && old(state.saga.recorded) <= state.saga.recorded && awaits == old(awaits) + 1
      ensures run == old(run) + Happening(id, old(state), outside.interference(old(awaits)))
    {
      hide Enabled, Apply, Reached;
      var events := outside.interference(awaits);
      awaits := awaits + 1;
      for i := 0 to |events|
        invariant Valid() && Me() == old(Me()) && old(state.saga.recorded) <= state.saga.recorded && awaits == old(awaits) + 1
        invariant run + Happening(id, state, events[i..]) == old(run) + Happening(id, old(state), events)
      {
        assert events[i..][0] == events[i] && events[i..][1..] == events[i + 1..];
        if Intervenes(id, state, events[i]) {
          OthersLeaveMe(state, events[i], id);
          RecordedGrows(state, events[i]);
          Happen(events[i]);
        }
      }
    }

    method Take(a: Act)
      requires Valid() && Can(state.saga, id, Me(), a)
      modifies this`state, this`run
      ensures Valid() && run == old(run) + [Do(id, a)]
      ensures Me() == Moved(old(state.saga), id, old(Me()), a) && state.saga == Stepped(old(state.saga), id, old(Me()), a)
    {
      Happen(Do(id, a));
    }

    /** The checkpoint of a step operated on: recorded under the claim, and refused only when the claim was lost. */
    method Settle()
      requires Valid() && Me().phase.Recording?
      modifies this
      ensures Valid() && old(run) <= run
      ensures Me().phase == At(old(Me()).phase.step + 1) || (Me().phase == Exited(Raised) && Since(ClaimLost, run, |old(run)|, id))
    {
      Await();
      ghost var before := run;
      if !Owns(state.saga, id, Me().phase.step) {
        ShowsNow(ClaimLost, run, id);
      }
      Take(Record);
      if Me().phase.Exited? {
        Earlier(ClaimLost, before, |before|, run, |old(run)|, id);
      }
    }

    /** The external operation under the claim, then the checkpoint; a failure gives the claim back. */
    method Perform()
      requires Valid() && Me().phase.Operating? && Me().phase.step < STEPS
      modifies this
      ensures Valid() && old(run) <= run
      ensures
        || Me().phase == At(old(Me()).phase.step + 1)
        || (Me().phase == Exited(Raised) && (OperationFails(outside) || Since(ClaimLost, run, |old(run)|, id)))
    {
      Await();
      var fate := outside.operation(Me().phase.step);
      Take(Operate(Me().phase.step, fate.Succeeds?, fate.Fails? && fate.removed));
      if fate.Succeeds? {
        ghost var n := |run|;
        Settle();
        if Me().phase.Exited? { Earlier(ClaimLost, run, n, run, |old(run)|, id); }
      } else {
        Await();
        Take(Release);
      }
    }

    /** Claims a step: refused only when the step is recorded by now, or another request holds its claim. */
    method Acquire()
      requires Valid() && Me().phase.At? && Me().phase.step < STEPS && Me().phase.step !in Me().completed
      modifies this
      ensures Valid() && old(run) <= run
      ensures Me().phase == Operating(old(Me()).phase.step) || Me().phase == Refused(old(Me()).phase.step)
      ensures Me().phase.Refused? ==>
        Me().phase.step in state.saga.recorded || Since(HeldByAnother, run, |old(run)|, id)
    {
      Await();
      ghost var before := run;
      if !Claimable(state.saga, id, Me().phase.step) && Me().phase.step !in state.saga.recorded {
        ShowsNow(HeldByAnother, run, id);
      }
      Take(TakeClaim(state.saga.now + leaseSeconds));
      if Me().phase.Refused? && Me().phase.step !in state.saga.recorded {
        Earlier(HeldByAnother, before, |before|, run, |old(run)|, id);
      }
    }

    /** One external step: skipped when done, refused when another request is at it, else performed. */
    method Step()
      requires Valid() && Me().phase.At? && Me().phase.step < STEPS
      modifies this
      ensures Valid() && old(run) <= run && Explained(outside, Me().phase, run, |old(run)|, id)
      ensures Me().phase == At(old(Me()).phase.step + 1) || Me().phase == Exited(Raised) || Me().phase == Exited(Pending)
    {
      if Me().phase.step in Me().completed {
        Take(Skip);
        return;
      }
      Acquire();
      ghost var claimed := run;
      if Me().phase.Refused? {
        Await();
        Take(Reread);
        if Me().phase.Exited? { Earlier(HeldByAnother, claimed, |old(run)|, run, |old(run)|, id); }
      } else {
        Perform();
        if Me().phase.Exited? && !OperationFails(outside) { Earlier(ClaimLost, run, |claimed|, run, |old(run)|, id); }
      }
    }

    /** The closing transaction: refused only while a job runs. */
    method Close()
      requires Valid() && Me().phase == At(STEPS)
      modifies this
      ensures Valid() && old(run) <= run && Me().phase.Exited? && Explained(outside, Me().phase, run, |old(run)|, id)
    {
      Await();
      ghost var before := run;
      if state.saga.running {
        ShowsNow(JobRuns, run, id);
      }
      Take(Finalize);
      if Me().phase == Exited(Raised) { Earlier(JobRuns, before, |before|, run, |old(run)|, id); }
    }

    method Open()
      requires Valid() && Me().phase == Preparing
      modifies this
      ensures Valid() && old(run) <= run && (Me().phase == Loading || Me().phase == Exited(Deleted) || Me().phase == Exited(Pending))
      ensures Explained(outside, Me().phase, run, |old(run)|, id)
    {
      Await();
      ghost var before := run;
      if state.saga.running {
        ShowsNow(JobRuns, run, id);
      }
      Take(Prepare);
      if Me().phase == Exited(Pending) { Earlier(JobRuns, before, |before|, run, |old(run)|, id); }
    }


    method Steps()
      requires Valid() && Me().phase == Loading
      modifies this
      ensures Valid() && old(run) <= run && Explained(outside, Me().phase, run, |old(run)|, id)
      ensures Me().phase == At(STEPS) || Me().phase == Exited(Raised) || Me().phase == Exited(Pending)
    {
      hide Explained;
      Await();
      Take(Load);
      NothingToExplain(outside, 0, run, |old(run)|, id);
      var k := 0;
      while k < STEPS && Me().phase.At?
        invariant Valid() && old(run) <= run && k <= STEPS && Explained(outside, Me().phase, run, |old(run)|, id)
        invariant Me().phase == At(k) || Me().phase == Exited(Raised) || Me().phase == Exited(Pending)
        decreases STEPS - k
      {
        ghost var n := |run|;
        Step();
        ExplainedEarlier(outside, Me().phase, run, n, |old(run)|, id);
        k := k + 1;
      }
    }

    /**
     Reports the asset deleted exactly when it is closed, with every step recorded and no job running. It ends otherwise only
     for a cause: a job that ran, another request at work, a lost claim, or an operation that failed.
     */
    method Delete() returns (outcome: Outcome)
      requires Valid() && Me().phase == Preparing
      modifies this
      ensures Valid() && old(run) <= run && Me().phase == Exited(outcome)
      ensures outcome == Deleted ==> state.saga.deleted && state.saga.recorded == {PROJECTION, DERIVED, SOURCE, UPLOAD}
      ensures outcome == Deleted ==> !state.saga.running
      ensures outcome == Pending ==> PendingFor(run, |old(run)|, id)
      ensures outcome == Raised ==> RaisedFor(outside, run, |old(run)|, id)
      ensures
        var ready := !old(state).saga.running && old(ClaimsExpired(state.saga)) && start == |old(run)|;
        ready && Untroubled(outside) ==> outcome == Deleted
    {
      ghost var before := state;
      Open();
      ghost var n := |run|;
      if Me().phase == Loading {
        Steps();
        ExplainedEarlier(outside, Me().phase, run, n, |old(run)|, id);
        n := |run|;
        if Me().phase.At? {
          Close();
          ExplainedEarlier(outside, Me().phase, run, n, |old(run)|, id);
        }
      }
      outcome := Me().phase.outcome;
      if outcome == Deleted {
        DeletedMeansRecorded(run, state);
      }
      if !before.saga.running && ClaimsExpired(before.saga) && start == |old(run)| && Untroubled(outside) {
        NothingShows(old(run), before, run, id);
      }
    }
  }

  lemma ExplainedEarlier(outside: Outside, phase: Phase, run: seq<Event>, from: nat, from': nat, id: nat)
    requires Explained(outside, phase, run, from, id) && from' <= from
    ensures Explained(outside, phase, run, from', id)
  {
    hide Since, OperationFails;
    forall cause: Cause | Since(cause, run, from, id) ensures Since(cause, run, from', id) {
      Earlier(cause, run, from, run, from', id);
    }
  }

  lemma NothingToExplain(outside: Outside, k: nat, run: seq<Event>, from: nat, id: nat)
    ensures Explained(outside, At(k), run, from, id)
  {
  }

  /** Nobody else does anything, and every operation succeeds. */
  ghost predicate Untroubled(outside: Outside) {
    (forall n: nat :: outside.interference(n) == []) && !OperationFails(outside)
  }

  /** A request that acts alone sees no job, no claim of another, and keeps its own. */
  predicate Free(s: State, id: nat) {
    && id in s.requests && !s.saga.running
    && (forall k :: k in s.saga.claims ==> s.saga.claims[k].owner == id || s.saga.claims[k].until <= s.saga.now)
    && var phase := s.requests[id].phase;
       phase.Operating? || phase.Recording? ==> Owns(s.saga, id, phase.step)
  }

  lemma StaysFree(s: State, id: nat, a: Act)
    requires Free(s, id) && Can(s.saga, id, s.requests[id], a)
    ensures Free(Apply(s, Do(id, a)), id)
  {
  }

  lemma {:induction false} FreeAlone(before: seq<Event>, s: State, run: seq<Event>, id: nat)
    requires Reached(before, s) && Free(s, id) && before <= run && Legal(Initial, run)
    requires forall i :: |before| <= i < |run| ==> run[i].Do? && run[i].id == id
    ensures Free(After(Initial, run), id)
    decreases |run|
  {
    if run != before {
      var n := |run| - 1;
      Shortened(Initial, run);
      FreeAlone(before, s, run[..n], id);
      StaysFree(After(Initial, run[..n]), id, run[n].act);
    }
  }

  lemma NothingShows(before: seq<Event>, s: State, run: seq<Event>, id: nat)
    requires Reached(before, s) && id in s.requests && s.requests[id].phase == Preparing && !s.saga.running
    requires ClaimsExpired(s.saga) && before <= run && Legal(Initial, run)
    requires forall i :: |before| <= i < |run| ==> run[i].Do? && run[i].id == id
    ensures forall cause: Cause :: !Since(cause, run, |before|, id)
  {
    forall cause: Cause, i | |before| <= i <= |run| ensures !Shows(cause, run[..i], id) {
      if Shows(cause, run[..i], id) {
        FreeAlone(before, s, run[..i], id);
        assert false;
      }
    }
  }

  /** The last event of a run, taken off. */
  lemma {:induction false} Shortened(s: State, run: seq<Event>)
    requires run != [] && Legal(s, run)
    ensures
      var n := |run| - 1;
      && Legal(s, run[..n]) && Enabled(After(s, run[..n]), run[n])
      && After(s, run) == Apply(After(s, run[..n]), run[n])
    decreases |run|
  {
    hide Enabled, Apply;
    var n := |run| - 1;
    if n == 0 {
      assert run == [run[0]];
      assert run[..0] == [] && run[1..] == [];
    } else {
      Shortened(Apply(s, run[0]), run[1..]);
      assert run[1..][..n - 1] == run[..n][1..];
      assert run[..n][0] == run[0];
    }
  }

  lemma OthersLeaveMe(s: State, e: Event, id: nat)
    requires Enabled(s, e) && id in s.requests && !(e.Do? && e.id == id)
    ensures id in Apply(s, e).requests && Apply(s, e).requests[id] == s.requests[id]
  {
    hide Can, Stepped, Moved;
  }

  lemma RecordedGrows(s: State, e: Event)
    requires Enabled(s, e)
    ensures s.saga.recorded <= Apply(s, e).saga.recorded
  {
    hide Can, Moved, Claimable, Owns;
  }
}
