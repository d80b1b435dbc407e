/**
 The pipeline as the program one process executes. Between any two of its steps the other processes, the operator, the
 clock and the disk may do any legal thing; every step the program takes is a step of the job machine. What it does not
 decide itself is a parameter, so that for every stop there is a cause to name.
 */
module PipelineProcess {
  import opened Options
  import opened Projection
  import opened Engine
  import opened EngineInvariant
  import opened EngineProofs
  import opened EngineTheorems
  import opened EngineProgress
  import opened EngineWork
  import opened EngineLife

  datatype Exit = Returned | CleanedAfterCancel | Raised

  datatype StageAnswer = Answer(output: Output) | Failure(retryable: bool)

  /** Everything a process does not decide itself. Awaits are numbered from the creation of the process. */
  datatype Outside = Outside(
    interference: nat -> seq<Event>,              // what everyone else tries during an await
    raises: nat -> Option<bool>,                  // the error an awaited operation ends in, and whether it is retryable
    answers: (nat, seq<Output>) -> StageAnswer,   // what the body of a stage makes of the outputs before it
    artifactsMatch: bool,                         // the streamed check of the extraction checkpoint's files
    accepts: nat -> bool)                         // whether the index takes a document of the bulk

  // ---- causes of a stop ----

  predicate Attempting(pc: Pc) {
    pc == Claimed || InPipeline(pc)
  }

  /** At the end of `run` process `id` is at work on its attempt, but its claim does not pass the fence. */
  ghost predicate LapsedAt(w: World, run: seq<Event>, id: nat) {
    Legal(w, Initial, run) &&
    var s := After(w, Initial, run);
    id in s.runners && Attempting(s.runners[id].pc) && !Fenced(s.store, id, s.runners[id])
  }

  ghost predicate LapsedSince(w: World, run: seq<Event>, from: nat, id: nat) {
    exists i :: from <= i <= |run| && LapsedAt(w, run[..i], id)
  }

  predicate RaisedBetween(outside: Outside, from: nat, to: nat) {
    exists n :: from <= n < to && outside.raises(n).Some?
  }

  predicate Acceptable(w: World, attempt: nat, outs: seq<Output>, answer: StageAnswer) {
    answer.Answer? && w.produces(|outs|, attempt, outs, answer.output) && Validates(w, |outs|, attempt, outs, answer.output)
  }

  /** The stage the process got to has no acceptable answer. */
  predicate Unanswered(w: World, outside: Outside, r: Runner) {
    |r.outs| < PUBLISH && !Acceptable(w, r.attempt, r.outs, outside.answers(|r.outs|, r.outs))
  }

  predicate AllAccepted(outside: Outside, n: nat) {
    forall i: nat :: i < n ==> outside.accepts(i)
  }

  predicate Refused(outside: Outside, r: Runner) {
    |r.outs| == PUBLISH && !AllAccepted(outside, |r.outs[INDEXING].documents|)
  }

  /** A failed stage decides itself whether it is retried, an invalid output never is, and a refused document always. */
  predicate WorthARetry(outside: Outside, r: Runner) {
    |r.outs| == PUBLISH || (var answer := outside.answers(|r.outs|, r.outs); answer.Failure? && answer.retryable)
  }

  /** The process was stopped by its own work: a stage without an acceptable answer, or a refused document. */
  predicate FailedItself(w: World, outside: Outside, r: Runner) {
    (Unanswered(w, outside, r) || Refused(outside, r)) && r.pc.Errored? && (r.pc.retryable <==> WorthARetry(outside, r))
  }

  /** The steps of the program, as against those of the worker around it. */
  predicate Own(e: Event, id: nat) {
    e.Act? && e.runner == id && !e.action.Renew? && !e.action.RenewCleanup? && !e.action.Die?
  }

  predicate Dies(e: Event, id: nat) {
    e == Act(id, Die)
  }

  predicate SameKind(pc: Pc, pc': Pc) {
    match pc
    case RollingBack(_, retryable) => pc'.RollingBack? && pc'.retryable == retryable
    case CleaningUp(_) => pc'.CleaningUp?
    case _ => false
  }

  /** An event of others, or of the worker around the program, that can happen in this state. */
  predicate Intervenes(w: World, id: nat, s: State, e: Event) {
    Enabled(w, s, e) && !Own(e, id) && !Dies(e, id)
  }

  /** What happens of the things that others try one after the other. */
  function Happening(w: World, id: nat, s: State, events: seq<Event>): seq<Event>
    decreases |events|
  {
    if events == [] then []
    else if Intervenes(w, id, s, events[0]) then [events[0]] + Happening(w, id, Apply(w, s, events[0]), events[1..])
    else Happening(w, id, s, events[1..])
  }

  lemma LapsedNow(w: World, run: seq<Event>, s: State, id: nat)
    requires Reached(w, run, s) && id in s.runners && Attempting(s.runners[id].pc) && !Fenced(s.store, id, s.runners[id])
    ensures LapsedSince(w, run, |run|, id)
  {
    assert run[..|run|] == run;
    assert LapsedAt(w, run[..|run|], id);
  }

  lemma LapsedEarlier(w: World, run: seq<Event>, from: nat, run': seq<Event>, from': nat, id: nat)
    requires LapsedSince(w, run, from, id) && run <= run' && from' <= from
    ensures LapsedSince(w, run', from', id)
  {
    var i :| from <= i <= |run| && LapsedAt(w, run[..i], id);
    assert run'[..i] == run[..i];
  }

  class Process {
    const w: World
    const id: nat
    const outside: Outside
    ghost const start: nat
    var awaits: nat
    var state: State
    ghost var run: seq<Event>

    /** Every event since the process began was a step of its program. */
    ghost predicate Undisturbed()
      reads this
    {
      start <= |run| && forall i :: start <= i < |run| ==> Own(run[i], id)
    }

    ghost predicate Valid()
      reads this
    {
      Reached(w, run, state) && id in state.runners && ((forall n: nat :: outside.interference(n) == []) ==> Undisturbed())
    }

    function Me(): Runner
      requires id in state.runners
      reads this
    {
      state.runners[id]
    }

    constructor (w: World, id: nat, outside: Outside, state: State, ghost run: seq<Event>)
      requires Reached(w, run, state) && id in state.runners
      ensures Valid() && this.w == w && this.id == id && this.outside == outside && this.state == state && this.run == run
      ensures start == |run| && awaits == 0
    {
      this.w, this.id, this.outside, this.state, this.run, this.awaits, this.start := w, id, outside, state, run, 0, |run|;
    }

    method Happen(e: Event)
      requires Valid() && Enabled(w, state, e)
      requires (forall n: nat :: outside.interference(n) == []) ==> Own(e, id)
      modifies this`run, this`state
      ensures Valid() && state == Apply(w, old(state), e) && run == old(run) + [e]
    {
      ReachedThen(w, run, state, e);
      run := run + [e];
      state := Apply(w, state, e);
    }

    method Take(a: Action)
      requires Valid() && Can(w, state.store, id, Me(), a) && Own(Act(id, a), id)
      modifies this`run, this`state
      ensures Valid() && run == old(run) + [Act(id, a)]
      ensures Me() == Moved(w, old(state.store), id, old(Me()), a)
      ensures state.store == Stepped(w, old(state.store), id, old(Me()), a)
    {
      Happen(Act(id, a));
    }

    /** Whatever the rest of the system, and the worker that renews the claim, do while this process awaits. */
    method Await()
      requires Valid()
      modifies this
      ensures Valid() && Me() == old(Me()) && awaits == old(awaits) + 1
      ensures run == old(run) + Happening(w, id, old(state), outside.interference(old(awaits)))
    {
      hide Enabled, Apply, Reached;
      var events := outside.interference(awaits);
      awaits := awaits + 1;
      for i := 0 to |events|
        invariant Valid() && Me() == old(Me()) && awaits == old(awaits) + 1
        invariant run + Happening(w, id, state, events[i..]) == old(run) + Happening(w, id, old(state), events)
      {
        assert events[i..][0] == events[i] && events[i..][1..] == events[i + 1..];
        if Intervenes(w, id, state, events[i]) {
          OthersLeaveMe(w, state, events[i], id);
          Happen(events[i]);
        }
      }
    }

    ghost predicate Stopped()
      requires id in state.runners
      reads this
    {
      Me().pc.CleanedUp? || Me().pc.Errored?
    }

    /** Why a process that stopped did stop: its claim lapsed, an awaited operation raised, or its own work failed. */
    ghost predicate Excused(events: nat, awaited: nat)
      requires id in state.runners
      reads this
    {
      || LapsedSince(w, run, events, id)
      || RaisedBetween(outside, awaited, awaits)
      || FailedItself(w, outside, Me())
    }

    method RemoveOne() returns (ok: bool)
      requires Valid() && (Me().pc.RollingBack? || Me().pc.CleaningUp?) && Me().pc.todo != {}
      modifies this
      ensures Valid() && old(run) <= run && awaits == old(awaits) + 1 && (ok <==> outside.raises(old(awaits)).None?)
      ensures ok ==> Me().outs == old(Me()).outs && Me().attempt == old(Me()).attempt
      ensures ok ==> SameKind(old(Me()).pc, Me().pc) && Me().pc.todo < old(Me()).pc.todo
      ensures !ok ==> Me() == old(Me())
    {
      hide Can, Moved, Stepped;
      var n := awaits;
      Await();
      ok := outside.raises(n).None?;
      if ok {
        var d :| d in Me().pc.todo;
        Removes(w, state.store, id, Me(), d);
        Take(RemoveDocument(d));
      }
    }

    method RemoveAll() returns (ok: bool)
      requires Valid() && (Me().pc.CleaningUp? || Me().pc.RollingBack?)
      modifies this
      ensures Valid() && old(run) <= run && old(awaits) <= awaits
      ensures Me().outs == old(Me()).outs && Me().attempt == old(Me()).attempt && SameKind(old(Me()).pc, Me().pc)
      ensures ok ==> Me().pc.todo == {} && !RaisedBetween(outside, old(awaits), awaits)
      ensures !ok ==> awaits > 0 && outside.raises(awaits - 1).Some? && RaisedBetween(outside, old(awaits), awaits)
    {
      hide Can, Moved, Stepped, Reached;
      ok := true;
      while ok && Me().pc.todo != {}
        invariant Valid() && old(run) <= run && old(awaits) <= awaits
        invariant Me().outs == old(Me()).outs && Me().attempt == old(Me()).attempt && SameKind(old(Me()).pc, Me().pc)
        invariant ok ==> !RaisedBetween(outside, old(awaits), awaits)
        invariant !ok ==> old(awaits) < awaits && outside.raises(awaits - 1).Some?
        decreases ok, Me().pc.todo
      {
        ok := RemoveOne();
      }
    }

    /** The compensation of an exception once the projection was entered; a failure of its own is suppressed. */
    method RollBack()
      requires Valid() && Me().pc.RollingBack?
      modifies this
      ensures Valid() && old(run) <= run && old(awaits) <= awaits
      ensures Me().pc == Errored(old(Me()).pc.retryable, !RaisedBetween(outside, old(awaits), awaits))
      ensures Me().outs == old(Me()).outs && Me().attempt == old(Me()).attempt
    {
      hide Can, Moved, Stepped, Reached;
      var ok := RemoveAll();
      EndsRollback(w, state.store, id, Me(), ok);
      Take(EndRollback(ok));
    }

    method Raise(retryable: bool)
      requires Valid() && (Attempting(Me().pc) || Me().pc.CleaningUp?)
      modifies this
      ensures Valid() && old(run) <= run && old(awaits) <= awaits
      ensures Me().pc.Errored? && Me().pc.retryable == retryable
      ensures Me().outs == old(Me()).outs && Me().attempt == old(Me()).attempt
    {
      hide Can, Moved, Stepped, Reached;
      FailsTo(w, state.store, id, Me(), retryable);
      Take(Fail(retryable));
      if Me().pc.RollingBack? {
        RollBack();
      }
    }

    method CleanUp()
      requires Valid() && Me().pc.CleaningUp?
      modifies this
      ensures Valid() && old(run) <= run && old(awaits) <= awaits && Stopped()
      ensures Me().pc.CleanedUp? <==> !RaisedBetween(outside, old(awaits), awaits)
    {
      hide Can, Moved, Stepped, Reached;
      var ok := RemoveAll();
      if ok {
        EndsCleanup(w, state.store, id, Me());
        Take(EndCleanup);
      } else {
        ghost var n := awaits;
        Raise(outside.raises(awaits - 1).value);
        RaisedEarlier(outside, old(awaits), n, old(awaits), awaits);
      }
    }

    /** The claim does not pass the fence any more: clean up if it is to be cancelled, and raise otherwise. */
    method Lapse()
      requires Valid() && Attempting(Me().pc) && !Fenced(state.store, id, Me())
      modifies this
      ensures Valid() && old(run) <= run && old(awaits) <= awaits && Stopped()
      ensures LapsedSince(w, run, |old(run)|, id)
      ensures Me().pc.CleanedUp? <==>
        old(LeaseLive(state.store, id, Me()) && state.store.cancelRequested) && !RaisedBetween(outside, old(awaits), awaits)
    {
      LapsedNow(w, run, state, id);
      if LeaseLive(state.store, id, Me()) && state.store.cancelRequested {
        Take(SawCancel);
        CleanUp();
      } else {
        Raise(false);
      }
      LapsedEarlier(w, old(run), |old(run)|, run, |old(run)|, id);
    }

    /** The cancellation point around every awaited operation: it stops the process only when the claim has lapsed. */
    method CancelPoint() returns (ok: bool)
      requires Valid() && InPipeline(Me().pc)
      modifies this
      ensures Valid() && old(run) <= run && old(awaits) <= awaits
      ensures ok ==> Me() == old(Me()).(cleared := true)
      ensures !ok ==> Stopped() && LapsedSince(w, run, |old(run)|, id)
    {
      Await();
      if Fenced(state.store, id, Me()) {
        Take(Fence);
        return true;
      }
      ghost var n := |run|;
      Lapse();
      LapsedEarlier(w, run, n, run, |old(run)|, id);
      return false;
    }

    /** An awaited operation may raise; it then stops the process. */
    method Operation() returns (ok: bool)
      requires Valid() && Attempting(Me().pc)
      modifies this
      ensures Valid() && old(run) <= run && old(awaits) <= awaits
      ensures ok ==> Me() == old(Me())
      ensures !ok ==> Stopped() && RaisedBetween(outside, old(awaits), awaits)
    {
      var n := awaits;
      Await();
      ok := outside.raises(n).None?;
      if !ok {
        Raise(outside.raises(n).value);
      }
    }

    /** A transaction of its own found the claim lapsed: it raises. */
    method LoseAfter(ghost from: nat)
      requires Valid() && Attempting(Me().pc) && !Fenced(state.store, id, Me()) && from <= |run|
      modifies this
      ensures Valid() && old(run) <= run && old(awaits) <= awaits && Stopped() && LapsedSince(w, run, from, id)
    {
      LapsedNow(w, run, state, id);
      Raise(false);
      LapsedEarlier(w, old(run), |old(run)|, run, from, id);
    }

    /** A cancellation point, and then what the repository does before it commits. */
    method Transaction() returns (ok: bool)
      requires Valid() && InPipeline(Me().pc)
      modifies this
      ensures Valid() && old(run) <= run && old(awaits) <= awaits
      ensures ok ==> Me() == old(Me()).(cleared := true)
      ensures !ok ==> Stopped() && Excused(|old(run)|, old(awaits))
    {
      hide Can, Moved, Stepped, FailedItself, LapsedSince;
      ok := CancelPoint();
      if ok {
        ghost var k := awaits;
        ok := Operation();
        if !ok { RaisedEarlier(outside, k, awaits, old(awaits), awaits); }
      }
    }

    /** A repository transaction that changes the recorded steps: under a live claim it commits. */
    method Transact(a: Action) returns (ok: bool)
      requires Valid() && InPipeline(Me().pc) && (a == Reset || a == Record)
      requires a == Reset <==> Me().pc.Resetting?
      requires a == Record <==> Me().pc.Recording?
      modifies this
      ensures Valid() && old(run) <= run && old(awaits) <= awaits
      ensures ok ==> Me().pc == (if a == Reset then Executing else Deciding)
      ensures ok ==> Me().outs == old(Me()).outs + (if a == Record then [old(Me()).pc.output] else [])
      ensures !ok ==> Stopped() && Excused(|old(run)|, old(awaits))
    {
      hide Can, Moved, Stepped, FailedItself;
      ok := Transaction();
      if !ok { return; }
      ok := Can(w, state.store, id, Me(), a);
      if ok {
        Transacts(w, state.store, id, Me(), a);
        Take(a);
      } else {
        TransactsFenced(w, run, state, id, a);
        LoseAfter(|old(run)|);
      }
    }

    /** Looks at the checkpoint of the next stage; only the extraction stage has artifact files to compare. */
    method Look() returns (ok: bool)
      requires Valid() && Me().pc == Deciding && |Me().outs| < PUBLISH
      modifies this
      ensures Valid() && old(run) <= run && old(awaits) <= awaits
      ensures ok ==>
        var reused := Reusable(w, state.store, old(Me()), |old(Me()).outs| != EXTRACTING || outside.artifactsMatch);
        if reused then Me().pc == Deciding && |Me().outs| == |old(Me()).outs| + 1
        else Me().outs == old(Me()).outs
             && Me().pc == (if |Me().outs| in Me().stored then Resetting else Executing)
      ensures !ok ==> Stopped() && Excused(|old(run)|, old(awaits))
    {
      hide Can, Moved, Stepped, Reusable, FailedItself;
      ok := CancelPoint();
      if !ok { return; }
      var artifactsMatch := |Me().outs| != EXTRACTING || outside.artifactsMatch;
      Decides(w, state.store, id, Me(), artifactsMatch);
      Take(Decide(artifactsMatch));
      DecidesOnRecorded(w, run, state, id);
      ReusesAlike(w, state.store, old(Me()), artifactsMatch);
    }

    /** Decides on the next stage: either its checkpoint is reused, or the process is left ready to execute it. */
    method Decision() returns (ok: bool)
      requires Valid() && Me().pc == Deciding && |Me().outs| < PUBLISH
      modifies this
      ensures Valid() && old(run) <= run && old(awaits) <= awaits
      ensures ok ==>
        || (Me().pc == Deciding && |Me().outs| == |old(Me()).outs| + 1)
        || (Me().pc == Executing && |Me().outs| == |old(Me()).outs|)
      ensures !ok ==> Stopped() && Excused(|old(run)|, old(awaits))
    {
      hide Reusable;
      ok := Look();
      if ok && Me().pc == Resetting {
        ghost var n, k := |run|, awaits;
        ok := Transact(Reset);
        if !ok { ExcusedEarlier(n, k, |old(run)|, old(awaits)); }
      }
    }

    /** The stage body and its validator: an acceptable answer is what the stage goes on with. */
    method Execution() returns (ok: bool)
      requires Valid() && Me().pc == Executing && |Me().outs| < PUBLISH
      modifies this
      ensures Valid() && old(run) <= run && old(awaits) <= awaits
      ensures ok ==> Me().outs == old(Me()).outs
      ensures ok ==>
        var answer := outside.answers(|Me().outs|, Me().outs);
        answer.Answer? && Me().pc == Writing(answer.output)
      ensures !ok ==> Stopped() && Excused(|old(run)|, old(awaits))
    {
      hide Can, Moved, Stepped, Validates, Reached, Unanswered, FailedItself;
      ok := CancelPoint();
      if !ok { return; }
      var answer := outside.answers(|Me().outs|, Me().outs);
      Executes(w, outside, state.store, id, Me());
      ok := answer.Answer? && Can(w, state.store, id, Me(), Execute(answer.output));
      if ok {
        Take(Execute(answer.output));
      } else {
        ghost var r := Me();
        Raise(answer.Failure? && answer.retryable);
        StaysUnanswered(w, outside, r, Me());
      }
    }

    /** The manifest is replaced before the step that points to it is recorded. */
    method Checkpoint() returns (ok: bool)
      requires Valid() && Me().pc.Writing? && |Me().outs| < PUBLISH
      modifies this
      ensures Valid() && old(run) <= run && old(awaits) <= awaits
      ensures ok ==> Me().pc == Deciding && Me().outs == old(Me()).outs + [old(Me()).pc.output]
      ensures !ok ==> Stopped() && Excused(|old(run)|, old(awaits))
    {
      ok := CancelPoint();
      if !ok { return; }
      Take(WriteManifest);
      ghost var n, k := |run|, awaits;
      ok := Transact(Record);
      if !ok { ExcusedEarlier(n, k, |old(run)|, old(awaits)); }
    }

    /** One stage: its checkpoint is reused, or the answer of its body is checkpointed. */
    method RunStage() returns (ok: bool)
      requires Valid() && Me().pc == Deciding && |Me().outs| < PUBLISH
      modifies this
      ensures Valid() && old(run) <= run && old(awaits) <= awaits
      ensures ok ==> Me().pc == Deciding && |Me().outs| == |old(Me()).outs| + 1
      ensures !ok ==> Stopped() && Excused(|old(run)|, old(awaits))
    {
      ok := Decision();
      if ok && Me().pc == Executing {
        ghost var n, k := |run|, awaits;
        ok := Execution();
        if ok {
          ghost var n', k' := |run|, awaits;
          ok := Checkpoint();
          if !ok { ExcusedEarlier(n', k', |old(run)|, old(awaits)); }
        } else {
          ExcusedEarlier(n, k, |old(run)|, old(awaits));
        }
      }
    }

    /** The next document of the bulk; whether it is accepted is up to the index. */
    method ProjectOne()
      requires Valid() && |Me().outs| == PUBLISH && Me().pc.Projecting? && Me().pc.sent < |Me().outs[INDEXING].documents|
      modifies this
      ensures Valid() && old(run) <= run && old(awaits) <= awaits && Me().outs == old(Me()).outs
      ensures Me().pc == Projecting(old(Me()).pc.sent + 1, old(Me()).pc.refused || !outside.accepts(old(Me()).pc.sent))
    {
      hide Can, Moved, Stepped;
      Await();
      var accepted := outside.accepts(Me().pc.sent);
      Projects(w, state.store, id, Me(), accepted);
      Take(ProjectDocument(accepted));
    }

    /** The bulk, one document after the other; it fails exactly when the index does not accept them all. */
    method Project() returns (ok: bool)
      requires Valid() && Me().pc == Projecting(0, false) && |Me().outs| == PUBLISH
      modifies this
      ensures Valid() && old(run) <= run && old(awaits) <= awaits
      ensures ok ==> Me().outs == old(Me()).outs && Me().pc == Projecting(|Me().outs[INDEXING].documents|, false)
      ensures ok <==> AllAccepted(outside, |old(Me()).outs[INDEXING].documents|)
      ensures !ok ==> Stopped() && FailedItself(w, outside, Me()) && Excused(|old(run)|, old(awaits))
    {
      hide Can, Moved, Stepped;
      while Me().pc.sent < |Me().outs[INDEXING].documents|
        invariant Valid() && old(run) <= run && old(awaits) <= awaits && Me().outs == old(Me()).outs
        invariant Me().pc.Projecting? && Me().pc.sent <= |Me().outs[INDEXING].documents|
        invariant Me().pc.refused <==> !AllAccepted(outside, Me().pc.sent)
        decreases |Me().outs[INDEXING].documents| - Me().pc.sent
      {
        ProjectOne();
      }
      ok := !Me().pc.refused;
      if !ok {
        Raise(true);
      }
    }

    /** A cancellation point followed by one step of the publication. */
    method Guarded(a: Action) returns (ok: bool)
      requires Valid() && |Me().outs| == PUBLISH
      requires a == BeginPublish || a == Acknowledge || a == WritePublish
      requires a == BeginPublish ==> Me().pc == Deciding
      requires a == Acknowledge ==> Me().pc == Projecting(|Me().outs[INDEXING].documents|, false)
      requires a == WritePublish ==> Me().pc == WritingPublish
      modifies this
      ensures Valid() && old(run) <= run && old(awaits) <= awaits
      ensures ok ==> Me().outs == old(Me()).outs
      ensures ok ==>
        Me().pc == (if a == BeginPublish then Projecting(0, false) else if a == Acknowledge then WritingPublish else Completing)
      ensures !ok ==> Stopped() && Excused(|old(run)|, old(awaits))
    {
      ok := CancelPoint();
      if ok {
        Take(a);
      }
    }

    method SendAll() returns (ok: bool)
      requires Valid() && Me().pc == Deciding && |Me().outs| == PUBLISH
      modifies this
      ensures Valid() && old(run) <= run && old(awaits) <= awaits
      ensures ok ==> Me().outs == old(Me()).outs && Me().pc == Projecting(|Me().outs[INDEXING].documents|, false)
      ensures ok ==> AllAccepted(outside, |Me().outs[INDEXING].documents|)
      ensures !ok ==> Stopped() && Excused(|old(run)|, old(awaits))
    {
      hide Reached, Stopped, Excused, Undisturbed, Can, Moved, Stepped, AllAccepted, FailedItself;
      ok := Guarded(BeginPublish);
      if ok {
        ghost var n, k := |run|, awaits;
        ok := Project();
        if !ok { ExcusedEarlier(n, k, |old(run)|, old(awaits)); }
      }
    }

    method Projected() returns (ok: bool)
      requires Valid() && Me().pc == Deciding && |Me().outs| == PUBLISH
      modifies this
      ensures Valid() && old(run) <= run && old(awaits) <= awaits
      ensures ok ==> Me().pc == WritingPublish && |Me().outs| == PUBLISH
      ensures !ok ==> Stopped() && Excused(|old(run)|, old(awaits))
    {
      hide Reached, Stopped, Excused, Undisturbed, Can, Moved, Stepped, AllAccepted, FailedItself;
      ok := SendAll();
      if ok {
        ghost var n, k := |run|, awaits;
        ok := Guarded(Acknowledge);
        if !ok { ExcusedEarlier(n, k, |old(run)|, old(awaits)); }
      }
    }

    method CommitNow()
      requires Valid() && Can(w, state.store, id, Me(), Action.Complete)
      modifies this`run, this`state
      ensures Valid() && old(run) <= run && Me().pc == Committed && Finished(state.store) && state.store.completedBy == id
      ensures !state.store.projectionDeleted && !Me().interrupted
    {
      hide Can, Moved, Stepped, Reached;
      CompletesUndisturbed(w, run, state, id);
      Completes(w, state.store, id, Me());
      Take(Action.Complete);
    }

    /** The completing transaction, fenced like every other one: under a live claim it commits. */
    method Complete() returns (ok: bool)
      requires Valid() && Me().pc == Completing
      modifies this
      ensures Valid() && old(run) <= run && old(awaits) <= awaits
      ensures ok ==> Me().pc == Committed && Finished(state.store) && state.store.completedBy == id
      ensures ok ==> !state.store.projectionDeleted && !Me().interrupted
      ensures !ok ==> Stopped() && Excused(|old(run)|, old(awaits))
    {
      hide Can, Moved, Stepped, FailedItself;
      ok := Transaction();
      if !ok { return; }
      ok := Can(w, state.store, id, Me(), Action.Complete);
      if ok {
        CommitNow();
      } else {
        CompletesFenced(w, run, state, id);
        LoseAfter(|old(run)|);
      }
    }

    /** The completing transaction; an exception may still arrive after it committed. */
    method Commit() returns (ok: bool)
      requires Valid() && Me().pc == Completing
      modifies this
      ensures Valid() && old(run) <= run && old(awaits) <= awaits
      ensures ok ==> Me().pc == Committed && Finished(state.store) && state.store.completedBy == id
      ensures ok ==> !state.store.projectionDeleted && !Me().interrupted
      ensures !ok ==> Stopped() && Excused(|old(run)|, old(awaits))
    {
      hide Can, Moved, Stepped, Reached;
      ok := Complete();
      if ok {
        var n := awaits;
        awaits := awaits + 1;
        if outside.raises(n).Some? {
          IsInterrupted(w, state.store, id, Me());
          Take(Interrupt);
          RollBack();
          ok := false;
        }
      }
    }

    /** Projects, publishes the final manifest and commits the completion. */
    method Publish() returns (ok: bool)
      requires Valid() && Me().pc == Deciding && |Me().outs| == PUBLISH
      modifies this
      ensures Valid() && old(run) <= run && old(awaits) <= awaits
      ensures ok ==> Me().pc == Committed && Finished(state.store) && state.store.completedBy == id
      ensures ok ==> !state.store.projectionDeleted && !Me().interrupted
      ensures !ok ==> Stopped() && Excused(|old(run)|, old(awaits))
    {
      hide Reached, Stopped, Excused, Undisturbed, Can, Moved, Stepped, AllAccepted, FailedItself;
      ok := Projected();
      if !ok { return; }
      ghost var n, k := |run|, awaits;
      ok := Guarded(WritePublish);
      if !ok {
        ExcusedEarlier(n, k, |old(run)|, old(awaits));
        return;
      }
      n, k := |run|, awaits;
      ok := Commit();
      if !ok { ExcusedEarlier(n, k, |old(run)|, old(awaits)); }
    }

    /** The starting fence, after a cancellation point of its own: a live claim with an attempt left passes it. */
    method Begin() returns (ok: bool)
      requires Valid() && Me().pc == Claimed
      modifies this
      ensures Valid() && old(run) <= run && old(awaits) <= awaits
      ensures ok ==> Me().pc == Opening && Me().started && Me().outs == []
      ensures !ok ==> Stopped() && (Excused(|old(run)|, old(awaits)) || old(Me()).attempt > w.maxAttempts)
    {
      ok := Operation();
      if !ok { return; }
      ghost var n := |run|;
      StartsEmpty(w, run, state, id);
      if !Fenced(state.store, id, Me()) {
        Lapse();
        LapsedEarlier(w, run, n, run, |old(run)|, id);
        return false;
      }
      if Me().attempt > w.maxAttempts {
        Raise(false);
        return false;
      }
      Take(Start);
      return true;
    }

    /** Excuses hold over any longer stretch of the run. */
    lemma ExcusedEarlier(events: nat, awaited: nat, events': nat, awaited': nat)
      requires id in state.runners && Excused(events, awaited) && events' <= events && awaited' <= awaited
      ensures Excused(events', awaited')
    {
      hide LapsedAt, FailedItself;
      if LapsedSince(w, run, events, id) {
        LapsedEarlier(w, run, events, run, events', id);
      }
    }

    /** Another cancellation point, and the recorded steps are read. */
    method Open() returns (ok: bool)
      requires Valid() && Me().pc == Opening && Me().outs == []
      modifies this
      ensures Valid() && old(run) <= run && old(awaits) <= awaits
      ensures ok ==> Me().pc == Deciding && Me().outs == []
      ensures !ok ==> Stopped() && Excused(|old(run)|, old(awaits))
    {
      ok := CancelPoint();
      if ok {
        Take(ReadSteps);
      }
    }

    method Stages() returns (ok: bool)
      requires Valid() && Me().pc == Opening && Me().outs == []
      modifies this
      ensures Valid() && old(run) <= run && old(awaits) <= awaits
      ensures ok ==> Me().pc == Deciding && |Me().outs| == PUBLISH
      ensures !ok ==> Stopped() && Excused(|old(run)|, old(awaits))
    {
      hide Reached, Stopped, Excused, Undisturbed, Can, Moved, Stepped, AllAccepted, FailedItself;
      ok := Open();
      while ok && |Me().outs| < PUBLISH
        invariant Valid() && old(run) <= run && old(awaits) <= awaits
        invariant ok ==> Me().pc == Deciding && |Me().outs| <= PUBLISH
        invariant !ok ==> Stopped() && Excused(|old(run)|, old(awaits))
        decreases ok, if ok then PUBLISH - |Me().outs| else 0
      {
        ghost var n, k := |run|, awaits;
        ok := RunStage();
        if !ok { ExcusedEarlier(n, k, |old(run)|, old(awaits)); }
      }
    }

    method Attempt() returns (ok: bool)
      requires Valid() && Me().pc == Claimed
      modifies this
      ensures Valid() && old(run) <= run && old(awaits) <= awaits
      ensures ok ==> Me().pc == Committed && Finished(state.store) && state.store.completedBy == id
      ensures ok ==> !state.store.projectionDeleted && !Me().interrupted
      ensures !ok ==> Stopped() && (Excused(|old(run)|, old(awaits)) || old(Me()).attempt > w.maxAttempts)
    {
      hide Reached, Stopped, Excused, Undisturbed, Can, Moved, Stepped, AllAccepted, FailedItself;
      ok := Begin();
      if !ok { return; }
      ghost var n, k := |run|, awaits;
      ok := Stages();
      if !ok {
        ExcusedEarlier(n, k, |old(run)|, old(awaits));
        return;
      }
      n, k := |run|, awaits;
      ok := Publish();
      if !ok { ExcusedEarlier(n, k, |old(run)|, old(awaits)); }
    }

    /**
     One attempt. It either commits with every recorded document in the index, or ends with none of its documents
     there, unless the rollback itself failed. It stops short only for a cause outside or in its own work, and so a live
     claim with an attempt left that nothing disturbs, whose stages answer and whose documents are accepted commits.
     */
    method Run() returns (exit: Exit)
      requires Valid() && Me().pc == Claimed
      modifies this
      ensures Valid() && old(run) <= run
      ensures exit == Returned ==> Finished(state.store) && state.store.completedBy == id && INDEXING in state.store.steps
      ensures exit == Returned ==>
        forall d: Document :: d in CompletedDocuments(state.store) ==> d.id in state.store.docs && state.store.docs[d.id] == d
      ensures exit == CleanedAfterCancel && Me().started ==> OfAttempt(state.store.docs, Me().attempt) == {}
      ensures exit == Raised ==> Me().pc.Errored?
      ensures exit == Raised && Me().started && (Me().pc.rolledBack || !Me().projecting) ==>
        OfAttempt(state.store.docs, Me().attempt) == {}
      ensures exit != Returned ==> Excused(|old(run)|, old(awaits)) || old(Me()).attempt > w.maxAttempts
      ensures
        var ready := old(Fenced(state.store, id, Me())) && old(Me()).attempt <= w.maxAttempts && start == |old(run)|;
        ready && Untroubled(w, outside) ==> exit == Returned
    {
      ghost var before := state;
      var ok := Attempt();
      if ok {
        CompletedJobsKeepDocuments(w, run, state);
        RecordedDocumentsOwned(w, run, state);
        return Returned;
      }
      if Me().started {
        LeavesNothing(w, run, state, id);
      }
      if Untroubled(w, outside) && start == |old(run)| && Fenced(before.store, id, before.runners[id]) {
        NothingToExcuse(old(run), before);
      }
      return if Me().pc.CleanedUp? then CleanedAfterCancel else Raised;
    }

    lemma NothingToExcuse(before: seq<Event>, s: State)
      requires Valid() && Untroubled(w, outside) && start == |before| && before <= run
      requires Reached(w, before, s) && id in s.runners && Fenced(s.store, id, s.runners[id])
      ensures forall awaited :: !Excused(|before|, awaited)
    {
      NeverLapses(w, before, s, run, id);
    }
  }

  /** Nobody else does anything, no awaited operation raises, every stage answers, and every document is accepted. */
  ghost predicate Untroubled(w: World, outside: Outside) {
    && (forall n: nat :: outside.interference(n) == [])
    && (forall n: nat :: outside.raises(n).None?)
    && (forall attempt: nat, outs: seq<Output> :: |outs| < PUBLISH ==>
          Acceptable(w, attempt, outs, outside.answers(|outs|, outs)))
    && (forall i: nat :: outside.accepts(i))
  }

  /** A process that acts alone keeps its claim until it is done with its attempt. */
  lemma {:induction false} NeverLapses(w: World, before: seq<Event>, s: State, run: seq<Event>, id: nat)
    requires Reached(w, before, s) && id in s.runners && Fenced(s.store, id, s.runners[id])
    requires before <= run && Legal(w, Initial, run)
    requires forall i :: |before| <= i < |run| ==> Own(run[i], id)
    ensures !LapsedSince(w, run, |before|, id)
  {
    forall i | |before| <= i <= |run| ensures !LapsedAt(w, run[..i], id) {
      if LapsedAt(w, run[..i], id) {
        StaysFenced(w, before, s, run[..i], id);
        assert false;
      }
    }
  }

  lemma {:induction false} StaysFenced(w: World, before: seq<Event>, s: State, run: seq<Event>, id: nat)
    requires Reached(w, before, s) && id in s.runners && Fenced(s.store, id, s.runners[id])
    requires before <= run && Legal(w, Initial, run)
    requires forall i :: |before| <= i < |run| ==> Own(run[i], id)
    ensures
      var t := After(w, Initial, run);
      id in t.runners && (Attempting(t.runners[id].pc) ==> Fenced(t.store, id, t.runners[id]))
    decreases |run|
  {
    if run == before {
    } else {
      var n := |run| - 1;
      Shortened(w, Initial, run);
      StaysFenced(w, before, s, run[..n], id);
      var t := After(w, Initial, run[..n]);
      OwnActKeepsClaim(w, t.store, id, t.runners[id], run[n].action);
    }
  }

  lemma OwnActKeepsClaim(w: World, st: Store, id: nat, r: Runner, a: Action)
    requires Can(w, st, id, r, a) && Own(Act(id, a), id) && (Attempting(r.pc) ==> Fenced(st, id, r))
    ensures
      var r' := Moved(w, st, id, r, a);
      Attempting(r'.pc) ==> Fenced(Stepped(w, st, id, r, a), id, r')
  {
    hide MemAfter, StoredAfter, Passed, Reusable, Validates, OfAttempt, Below, LatestBelow, Upsert, RemoveOwned;
  }

  lemma Removes(w: World, st: Store, id: nat, r: Runner, d: SegmentId)
    requires Removing(r.pc, d)
    ensures Can(w, st, id, r, RemoveDocument(d))
    ensures
      var r' := Moved(w, st, id, r, RemoveDocument(d));
      && r'.outs == r.outs && r'.attempt == r.attempt
      && r'.pc == if r.pc.RollingBack? then r.pc.(todo := r.pc.todo - {d}) else CleaningUp(r.pc.todo - {d})
  {
  }

  lemma FailsTo(w: World, st: Store, id: nat, r: Runner, retryable: bool)
    requires Attempting(r.pc) || r.pc.CleaningUp?
    ensures Can(w, st, id, r, Fail(retryable))
    ensures
      var r' := Moved(w, st, id, r, Fail(retryable));
      && r'.outs == r.outs && r'.attempt == r.attempt
      && (r'.pc.RollingBack? || r'.pc.Errored?) && r'.pc.retryable == retryable
  {
  }

  lemma IsInterrupted(w: World, st: Store, id: nat, r: Runner)
    requires r.pc == Committed
    ensures Can(w, st, id, r, Interrupt) && Moved(w, st, id, r, Interrupt).pc.RollingBack?
  {
  }

  lemma EndsRollback(w: World, st: Store, id: nat, r: Runner, succeeded: bool)
    requires r.pc.RollingBack? && (succeeded ==> r.pc.todo == {})
    ensures Can(w, st, id, r, EndRollback(succeeded))
    ensures
      var r' := Moved(w, st, id, r, EndRollback(succeeded));
      r'.outs == r.outs && r'.attempt == r.attempt && r'.pc == Errored(r.pc.retryable, succeeded)
  {
  }

  lemma EndsCleanup(w: World, st: Store, id: nat, r: Runner)
    requires r.pc == CleaningUp({})
    ensures Can(w, st, id, r, EndCleanup) && Moved(w, st, id, r, EndCleanup).pc == CleanedUp
  {
  }

  lemma Transacts(w: World, st: Store, id: nat, r: Runner, a: Action)
    requires Can(w, st, id, r, a) && (a == Reset || a == Record)
    ensures
      var r' := Moved(w, st, id, r, a);
      && r'.pc == (if a == Reset then Executing else Deciding)
      && r'.outs == r.outs + (if a == Record then [r.pc.output] else [])
  {
  }

  lemma Completes(w: World, st: Store, id: nat, r: Runner)
    requires Can(w, st, id, r, Action.Complete) && !st.projectionDeleted && !st.deleted && !r.interrupted
    ensures
      var r', st' := Moved(w, st, id, r, Action.Complete), Stepped(w, st, id, r, Action.Complete);
      r'.pc == Committed && !r'.interrupted && Finished(st') && st'.completedBy == id && !st'.projectionDeleted
  {
  }

  lemma Projects(w: World, st: Store, id: nat, r: Runner, accepted: bool)
    requires |r.outs| == PUBLISH && r.pc.Projecting? && r.pc.sent < |r.outs[INDEXING].documents|
    ensures Can(w, st, id, r, ProjectDocument(accepted))
    ensures
      var r' := Moved(w, st, id, r, ProjectDocument(accepted));
      r'.outs == r.outs && r'.pc == Projecting(r.pc.sent + 1, r.pc.refused || !accepted)
  {
  }

  lemma Decides(w: World, st: Store, id: nat, r: Runner, artifactsMatch: bool)
    requires r.pc == Deciding && r.cleared && |r.outs| < PUBLISH && (|r.outs| != EXTRACTING ==> artifactsMatch)
    ensures Can(w, st, id, r, Decide(artifactsMatch)) && Stepped(w, st, id, r, Decide(artifactsMatch)) == st
    ensures
      var r' := Moved(w, st, id, r, Decide(artifactsMatch));
      && r'.stored == r.stored
      && if !Reusable(w, st, r, artifactsMatch) then
           r'.outs == r.outs && r'.pc == (if |r.outs| in r.stored then Resetting else Executing)
         else if |r.outs| in r.stored then r'.pc == Deciding && |r'.outs| == |r.outs| + 1
         else r'.pc.Adopting?
  {
    hide Validates, InputDigest, OfAttempt, Below;
  }

  lemma ReusesAlike(w: World, st: Store, r: Runner, artifactsMatch: bool)
    ensures Reusable(w, st, r.(cleared := true), artifactsMatch) <==> Reusable(w, st, r, artifactsMatch)
  {
    hide Validates, InputDigest;
  }

  lemma Executes(w: World, outside: Outside, st: Store, id: nat, r: Runner)
    requires r.pc == Executing && r.cleared && |r.outs| < PUBLISH
    ensures
      var answer := outside.answers(|r.outs|, r.outs);
      if Unanswered(w, outside, r) then answer.Answer? ==> !Can(w, st, id, r, Execute(answer.output))
      else
        && answer.Answer? && Can(w, st, id, r, Execute(answer.output))
        && var r' := Moved(w, st, id, r, Execute(answer.output));
           r'.pc == Writing(answer.output) && r'.outs == r.outs
  {
    hide Validates;
  }

  lemma StaysUnanswered(w: World, outside: Outside, r: Runner, r': Runner)
    requires Unanswered(w, outside, r) && r'.outs == r.outs && r'.attempt == r.attempt
    requires
      var answer := outside.answers(|r.outs|, r.outs);
      r'.pc.Errored? && (r'.pc.retryable <==> answer.Failure? && answer.retryable)
    ensures FailedItself(w, outside, r')
  {
    hide Acceptable;
  }

  lemma TransactsFenced(w: World, run: seq<Event>, s: State, id: nat, a: Action)
    requires Reached(w, run, s) && id in s.runners && !Can(w, s.store, id, s.runners[id], a)
    requires (a == Reset && s.runners[id].pc.Resetting?) || (a == Record && s.runners[id].pc.Recording?)
    ensures !Fenced(s.store, id, s.runners[id])
  {
    ReachedInv(w, run, s);
    assert Fits(w, s.store, id, s.runners[id]);
    if a == Record && LeaseLive(s.store, id, s.runners[id]) {
      RecordGoes(w, s.store, id, s.runners[id]);
    }
  }

  lemma CompletesFenced(w: World, run: seq<Event>, s: State, id: nat)
    requires Reached(w, run, s) && id in s.runners && s.runners[id].pc == Completing && s.runners[id].cleared
    requires !Can(w, s.store, id, s.runners[id], Action.Complete)
    ensures !Fenced(s.store, id, s.runners[id])
  {
    ReachedInv(w, run, s);
    var r := s.runners[id];
    assert Fits(w, s.store, id, r);
    if Fenced(s.store, id, r) {
      CompleteGoes(w, s.store, id, r);
    }
  }

  lemma RaisedEarlier(outside: Outside, from: nat, to: nat, from': nat, to': nat)
    requires RaisedBetween(outside, from, to) && from' <= from && to <= to'
    ensures RaisedBetween(outside, from', to')
  {
  }

  lemma OthersLeaveMe(w: World, s: State, e: Event, id: nat)
    requires Enabled(w, s, e) && id in s.runners && !Own(e, id) && !Dies(e, id)
    ensures id in Apply(w, s, e).runners && Apply(w, s, e).runners[id] == s.runners[id]
  {
    hide Can, Stepped, Moved, MayChange, Changed, ClaimedStore;
    if e.Act? && e.runner == id {
      RenewalLeavesMe(w, s.store, id, s.runners[id], e.action);
    }
  }

  lemma RenewalLeavesMe(w: World, st: Store, id: nat, r: Runner, a: Action)
    requires Can(w, st, id, r, a) && (a.Renew? || a.RenewCleanup?)
    ensures Moved(w, st, id, r, a) == r
  {
  }

  lemma DecidesOnRecorded(w: World, run: seq<Event>, s: State, id: nat)
    requires Reached(w, run, s) && id in s.runners
    ensures !s.runners[id].pc.Adopting?
  {
    ReachedInv(w, run, s);
    assert Fits(w, s.store, id, s.runners[id]);
  }

  lemma StartsEmpty(w: World, run: seq<Event>, s: State, id: nat)
    requires Reached(w, run, s) && id in s.runners && s.runners[id].pc == Claimed
    ensures !s.runners[id].started && s.runners[id].outs == []
  {
    ReachedInv(w, run, s);
    assert Fits(w, s.store, id, s.runners[id]);
  }

  lemma CompletesUndisturbed(w: World, run: seq<Event>, s: State, id: nat)
    requires Reached(w, run, s) && id in s.runners && Can(w, s.store, id, s.runners[id], Action.Complete)
    ensures !s.store.projectionDeleted && !s.store.deleted && !s.runners[id].interrupted
  {
    ReachedInv(w, run, s);
    assert Fits(w, s.store, id, s.runners[id]);
  }

  lemma RecordedDocumentsOwned(w: World, run: seq<Event>, s: State)
    requires Reached(w, run, s) && Finished(s.store)
    ensures INDEXING in s.store.steps
    ensures forall d: Document :: d in CompletedDocuments(s.store) ==> d.jobAttempt == s.store.attempt
  {
    ReachedInv(w, run, s);
    CompleterKnows(w, s);
    forall d: Document | d in CompletedDocuments(s.store) ensures d.jobAttempt == s.store.attempt {
      assert OwnedBy(d, w.assetId, w.jobId, s.store.attempt);
    }
  }

  lemma LeavesNothing(w: World, run: seq<Event>, s: State, id: nat)
    requires Reached(w, run, s) && id in s.runners && s.runners[id].started
    ensures
      var r := s.runners[id];
      r.pc.CleanedUp? || (r.pc.Errored? && (r.pc.rolledBack || !r.projecting)) ==> OfAttempt(s.store.docs, r.attempt) == {}
  {
    var r := s.runners[id];
    if r.pc.CleanedUp? || (r.pc.Errored? && (r.pc.rolledBack || !r.projecting)) {
      CompensatedLeavesNothing(w, run, s, id);
    }
  }

  lemma ReachedThen(w: World, run: seq<Event>, s: State, e: Event)
    requires Reached(w, run, s) && Enabled(w, s, e)
    ensures Reached(w, run + [e], Apply(w, s, e))
  {
    Appended(w, Initial, run, e);
  }
}
