/**
 Deleting one asset: a saga of four external steps, each done under a claim with a lease and then recorded, by any number of
 concurrent requests that may stall, fail or die at any point, followed by one closing transaction.

 Beside them live the processes that can put something of the asset back: a job's process writes documents and derived files
 as long as it lives, even after its job has stopped running, and an upload request writes chunks and the assembled source.
 */
module Deletion {
  // The external steps in order.
  const PROJECTION := 0
  const DERIVED := 1
  const SOURCE := 2
  const UPLOAD := 3
  const STEPS := 4

  datatype Claim = Claim(owner: nat, until: nat)

  datatype Kind = JobProcess | UploadRequest

  datatype Saga = Saga(
    now: nat,
    uploading: bool,
    requested: bool,              // the durable deletion request, which keeps jobs from being claimed
    running: bool,                // some job of the asset is running
    recorded: set<nat>,           // durable step checkpoints
    claims: map<nat, Claim>,
    deleted: bool,
    present: set<nat>,            // what each step removes is still, or again, there
    writers: map<nat, Kind>)      // the processes that are alive and may still write

  datatype Outcome = Deleted | Pending | Raised

  datatype Phase =
    | Preparing
    | Loading
    | At(step: nat)
    | Refused(step: nat)
    | Operating(step: nat)
    | Recording(step: nat)
    | Releasing(step: nat)
    | Exited(outcome: Outcome)

  /** One request; its owner token is the request itself. `guarded` says that it left a durable deletion request behind. */
  datatype Request = Request(phase: Phase, completed: set<nat>, guarded: bool)

  datatype State = State(saga: Saga, requests: map<nat, Request>)

  datatype Act =
    | Prepare
    | Load
    | Skip
    | TakeClaim(until: nat)
    | Reread
    | Operate(step: nat, succeeded: bool, removed: bool)
    | Record
    | Release
    | Finalize

  datatype Event =
    | Tick
    | UploadCompletes
    | JobStarts(writer: nat)
    | JobStops
    | UploadBegins(writer: nat)
    | WriterEnds(writer: nat)
    | Write(writer: nat, step: nat)
    | Arrive(id: nat)
    | Do(id: nat, act: Act)

  const Initial := State(Saga(0, true, false, false, {}, map[], false, {PROJECTION, DERIVED, SOURCE, UPLOAD}, map[]), map[])

  /** What a writer of each kind can put back. */
  function Writable(kind: Kind): set<nat> {
    match kind
    case JobProcess => {PROJECTION, DERIVED}
    case UploadRequest => {SOURCE, UPLOAD}
  }

  predicate Claimable(s: Saga, id: nat, k: nat) {
    k !in s.recorded && (k !in s.claims || s.claims[k].owner == id || s.claims[k].until <= s.now)
  }

  predicate Owns(s: Saga, id: nat, k: nat) {
    k in s.claims && s.claims[k].owner == id
  }

  predicate Can(s: Saga, id: nat, r: Request, a: Act) {
    match a
    case Prepare => r.phase == Preparing
    case Load => r.phase == Loading
    case Skip => r.phase.At? && r.phase.step < STEPS && r.phase.step in r.completed
    case TakeClaim(until) => r.phase.At? && r.phase.step < STEPS && r.phase.step !in r.completed && until > s.now
    case Reread => r.phase.Refused?
    case Operate(k, _, _) => r.phase == Operating(k)
    case Record => r.phase.Recording?
    case Release => r.phase.Releasing?
    case Finalize => r.phase.At? && r.phase.step == STEPS
  }

  function Past(r: Request): Request
    requires r.phase.Refused? || r.phase.Recording?
  {
    r.(phase := At(r.phase.step + 1), completed := r.completed + {r.phase.step})
  }

  function Moved(s: Saga, id: nat, r: Request, a: Act): Request
    requires Can(s, id, r, a)
  {
    match a
    case Prepare =>
      r.(phase := if s.deleted then Exited(Deleted) else if !s.uploading && s.running then Exited(Pending) else Loading,
         guarded := !s.deleted && !s.uploading)
    case Load => r.(phase := At(0), completed := s.recorded)
    case Skip => r.(phase := At(r.phase.step + 1))
    case TakeClaim(_) => r.(phase := if Claimable(s, id, r.phase.step) then Operating(r.phase.step) else Refused(r.phase.step))
    case Reread =>
      if r.phase.step in s.recorded then Past(r) else r.(phase := Exited(Pending))
    case Operate(_, succeeded, _) => r.(phase := if succeeded then Recording(r.phase.step) else Releasing(r.phase.step))
    case Record =>
      if Owns(s, id, r.phase.step) then Past(r) else r.(phase := Exited(Raised))
    case Release => r.(phase := Exited(Raised))
    case Finalize => r.(phase := Exited(if s.running then Raised else Deleted))
  }

  function Stepped(s: Saga, id: nat, r: Request, a: Act): Saga
    requires Can(s, id, r, a)
  {
    match a
    case Prepare => if s.deleted || s.uploading then s else s.(requested := true)
    case TakeClaim(until) => if Claimable(s, id, r.phase.step) then s.(claims := s.claims[r.phase.step := Claim(id, until)]) else s
    case Operate(k, succeeded, removed) => if succeeded || removed then s.(present := s.present - {k}) else s
    case Record =>
      if Owns(s, id, r.phase.step) then s.(recorded := s.recorded + {r.phase.step}, claims := s.claims - {r.phase.step}) else s
    case Release => if Owns(s, id, r.phase.step) then s.(claims := s.claims - {r.phase.step}) else s
    case Finalize => if s.running then s else s.(deleted := true, requested := false, claims := map[], uploading := false)
    case Load | Skip | Reread => s
  }

  predicate Enabled(s: State, e: Event) {
    match e
    case Tick => true
    case UploadCompletes => s.saga.uploading && !s.saga.deleted && !s.saga.requested
    case JobStarts(p) => p !in s.saga.writers && !s.saga.uploading && !s.saga.deleted && !s.saga.requested
    case JobStops => true
    case UploadBegins(p) => p !in s.saga.writers && !s.saga.deleted
    case WriterEnds(p) => p in s.saga.writers
    case Write(p, k) => p in s.saga.writers && k in Writable(s.saga.writers[p])
    case Arrive(id) => id !in s.requests
    case Do(id, a) => id in s.requests && Can(s.saga, id, s.requests[id], a)
  }

  function Apply(s: State, e: Event): State
    requires Enabled(s, e)
  {
    match e
    case Tick => s.(saga := s.saga.(now := s.saga.now + 1))
    case UploadCompletes => s.(saga := s.saga.(uploading := false))
    case JobStarts(p) => s.(saga := s.saga.(running := true, writers := s.saga.writers[p := JobProcess]))
    case JobStops => s.(saga := s.saga.(running := false))
    case UploadBegins(p) => s.(saga := s.saga.(writers := s.saga.writers[p := UploadRequest]))
    case WriterEnds(p) => s.(saga := s.saga.(writers := s.saga.writers - {p}))
    case Write(_, k) => s.(saga := s.saga.(present := s.saga.present + {k}))
    case Arrive(id) => s.(requests := s.requests[id := Request(Preparing, {}, false)])
    case Do(id, a) =>
      State(Stepped(s.saga, id, s.requests[id], a), s.requests[id := Moved(s.saga, id, s.requests[id], a)])
  }

  predicate Legal(s: State, run: seq<Event>)
    decreases |run|
  {
    run == [] || (Enabled(s, run[0]) && Legal(Apply(s, run[0]), run[1..]))
  }

  function After(s: State, run: seq<Event>): State
    requires Legal(s, run)
    decreases |run|
  {
    if run == [] then s else After(Apply(s, run[0]), run[1..])
  }

  // ---- the invariant ----

  predicate Upto(recorded: set<nat>, k: nat) {
    forall i: nat :: i < k ==> i in recorded
  }

  predicate Sound(s: Saga) {
    && (forall k :: k in s.recorded ==> k < STEPS && Upto(s.recorded, k))
    && (forall k :: k in s.claims ==> k < STEPS && Upto(s.recorded, k) && k !in s.recorded)
    && (forall k: nat :: k < STEPS && k !in s.present ==> Upto(s.recorded, k))
    && (forall k :: k in s.present ==> k < STEPS)
    && (s.deleted ==> Upto(s.recorded, STEPS) && !s.running && !s.requested)
  }

  predicate Handled(p: Phase, completed: set<nat>) {
    match p
    case At(k) => k <= STEPS && Upto(completed, k)
    case Refused(k) => k < STEPS && Upto(completed, k)
    case Operating(k) => k < STEPS && Upto(completed, k)
    case Recording(k) => k < STEPS && Upto(completed, k)
    case Releasing(k) => k < STEPS && Upto(completed, k)
    case _ => true
  }

  predicate Fits(s: Saga, r: Request) {
    && r.completed <= s.recorded
    && Handled(r.phase, r.completed)
    && (r.phase == Exited(Deleted) ==> s.deleted)
    && (r.guarded && !r.phase.Exited? && !s.deleted ==> s.requested && !s.running)
    && (r.phase.Preparing? ==> !r.guarded)
  }

  predicate Inv(s: State) {
    Sound(s.saga) && forall i :: i in s.requests ==> Fits(s.saga, s.requests[i])
  }

  lemma UptoGrows(a: set<nat>, b: set<nat>, k: nat)
    requires Upto(a, k) && a <= b
    ensures Upto(b, k)
  {
  }

  lemma DoSound(s: Saga, id: nat, r: Request, a: Act)
    requires Sound(s) && Fits(s, r) && Can(s, id, r, a)
    ensures Sound(Stepped(s, id, r, a))
    ensures s.recorded <= Stepped(s, id, r, a).recorded && (s.deleted ==> Stepped(s, id, r, a).deleted)
    ensures Stepped(s, id, r, a).present <= s.present
  {
    if r.phase.At? && r.phase.step == STEPS { UptoGrows(r.completed, s.recorded, STEPS); }
    if Handled(r.phase, r.completed) && (r.phase.At? || r.phase.Operating? || r.phase.Recording?) {
      UptoGrows(r.completed, s.recorded, r.phase.step);
    }
  }

  lemma DoFits(s: Saga, id: nat, r: Request, a: Act)
    requires Sound(s) && Fits(s, r) && Can(s, id, r, a)
    ensures Fits(Stepped(s, id, r, a), Moved(s, id, r, a))
  {
  }

  lemma EventKept(s: State, e: Event)
    requires Inv(s) && Enabled(s, e)
    ensures Inv(Apply(s, e))
  {
    if e.Do? {
      DoSound(s.saga, e.id, s.requests[e.id], e.act);
      DoFits(s.saga, e.id, s.requests[e.id], e.act);
    }
  }

  lemma {:induction false} RunKept(s: State, run: seq<Event>)
    requires Inv(s) && Legal(s, run)
    ensures Inv(After(s, run))
    decreases |run|
  {
    if run != [] {
      EventKept(s, run[0]);
      RunKept(Apply(s, run[0]), run[1..]);
    }
  }

  ghost predicate Reached(run: seq<Event>, s: State) {
    Legal(Initial, run) && After(Initial, run) == s
  }

  // ---- what holds of every run ----

  /** The recorded steps are a prefix of projection, derived, source, upload. */
  lemma RecordedPrefix(run: seq<Event>, s: State)
    requires Reached(run, s)
    ensures forall j: nat, k: nat :: j < k && k in s.saga.recorded ==> j in s.saga.recorded
    ensures forall k :: k in s.saga.recorded ==> k < STEPS
  {
    RunKept(Initial, run);
  }

  /** Nothing is removed before every earlier step is recorded; in particular the source goes only after the projection. */
  lemma RemovedInOrder(run: seq<Event>, s: State, k: nat)
    requires Reached(run, s) && k < STEPS && k !in s.saga.present
    ensures forall j: nat :: j < k ==> j in s.saga.recorded
  {
    RunKept(Initial, run);
  }

  lemma SourceAfterProjection(run: seq<Event>, s: State)
    requires Reached(run, s) && PROJECTION !in s.saga.recorded
    ensures SOURCE in s.saga.present && UPLOAD in s.saga.present && DERIVED in s.saga.present
  {
    RunKept(Initial, run);
    assert forall k: nat :: 0 < k < STEPS && k !in s.saga.present ==> Upto(s.saga.recorded, k);
  }

  // ---- what is left ----

  predicate Writes(e: Event, k: nat) {
    e.Write? && e.step == k
  }

  predicate Removes(e: Event, k: nat) {
    e.Do? && e.act.Operate? && e.act.step == k && (e.act.succeeded || e.act.removed)
  }

  /** Some writer wrote, and nothing was removed since. */
  predicate WrittenLast(run: seq<Event>, k: nat) {
    exists i :: 0 <= i < |run| && Writes(run[i], k) && forall j :: i < j < |run| ==> !Removes(run[j], k)
  }

  predicate EverRemoved(run: seq<Event>, k: nat) {
    exists i :: 0 <= i < |run| && Removes(run[i], k)
  }

  lemma WrittenLastStep(run: seq<Event>, k: nat)
    requires run != []
    ensures WrittenLast(run, k) <==> WrittenLast(run[1..], k) || (Writes(run[0], k) && !EverRemoved(run[1..], k))
    ensures EverRemoved(run, k) <==> Removes(run[0], k) || EverRemoved(run[1..], k)
  {
    var rest := run[1..];
    assert forall i :: 0 <= i < |rest| ==> rest[i] == run[i + 1];
    if WrittenLast(run, k) {
      var i :| 0 <= i < |run| && Writes(run[i], k) && forall j :: i < j < |run| ==> !Removes(run[j], k);
      if i > 0 {
        assert Writes(rest[i - 1], k) && forall j :: i - 1 < j < |rest| ==> !Removes(rest[j], k);
      }
    }
    if WrittenLast(rest, k) {
      var i :| 0 <= i < |rest| && Writes(rest[i], k) && forall j :: i < j < |rest| ==> !Removes(rest[j], k);
      assert Writes(run[i + 1], k) && forall j :: i + 1 < j < |run| ==> !Removes(run[j], k);
    }
    if Writes(run[0], k) && !EverRemoved(rest, k) {
      forall j | 0 < j < |run| ensures !Removes(run[j], k) {
        assert !Removes(rest[j - 1], k);
      }
    }
    if EverRemoved(rest, k) {
      var i :| 0 <= i < |rest| && Removes(rest[i], k);
      assert Removes(run[i + 1], k);
    }
    if EverRemoved(run, k) {
      var i :| 0 <= i < |run| && Removes(run[i], k);
      if i > 0 { assert Removes(rest[i - 1], k); }
    }
  }

  lemma PresentStep(s: State, e: Event, k: nat)
    requires Enabled(s, e)
    ensures k in Apply(s, e).saga.present <==> Writes(e, k) || (k in s.saga.present && !Removes(e, k))
  {
    hide Claimable, Owns, Past, Moved;
  }

  lemma {:induction false} PresentAfter(s: State, run: seq<Event>, k: nat)
    requires Legal(s, run)
    ensures k in After(s, run).saga.present <==> WrittenLast(run, k) || (k in s.saga.present && !EverRemoved(run, k))
    decreases |run|
  {
    hide Enabled, Apply, WrittenLast, EverRemoved;
    if run != [] {
      PresentStep(s, run[0], k);
      PresentAfter(Apply(s, run[0]), run[1..], k);
      WrittenLastStep(run, k);
    } else {
      NothingHappened(k);
    }
  }

  lemma NothingHappened(k: nat)
    ensures !WrittenLast([], k) && !EverRemoved([], k)
  {
  }

  /** Step `k` is recorded, or about to be. */
  predicate Settling(s: State, k: nat) {
    k in s.saga.recorded || exists i :: i in s.requests && s.requests[i].phase == Recording(k)
  }

  lemma SettlingStep(s: State, e: Event, k: nat)
    requires Enabled(s, e) && Settling(Apply(s, e), k)
    ensures Settling(s, k) || Removes(e, k)
  {
    var t := Apply(s, e);
    if k !in t.saga.recorded {
      var i :| i in t.requests && t.requests[i].phase == Recording(k);
      if e.Do? && e.id == i {
        assert e.act.Operate?;
      } else {
        assert s.requests[i].phase == Recording(k);
      }
    } else if k !in s.saga.recorded {
      assert s.requests[e.id].phase == Recording(k);
    }
  }

  lemma {:induction false} SettlingMeansRemoved(s: State, run: seq<Event>, k: nat)
    requires Legal(s, run) && Settling(After(s, run), k)
    ensures Settling(s, k) || EverRemoved(run, k)
    decreases |run|
  {
    hide Enabled, Apply, Settling, WrittenLast, EverRemoved;
    if run != [] {
      SettlingMeansRemoved(Apply(s, run[0]), run[1..], k);
      WrittenLastStep(run, k);
      if Settling(Apply(s, run[0]), k) { SettlingStep(s, run[0], k); }
    }
  }

  /**
   Exactly when a recorded step is not done after all: what it removes is there again if and only if a writer that was alive
   put it back after the last time it was removed.
   */
  lemma RecordedLeavesIff(run: seq<Event>, s: State, k: nat)
    requires Reached(run, s) && k in s.saga.recorded
    ensures EverRemoved(run, k)
    ensures k in s.saga.present <==> WrittenLast(run, k)
  {
    PresentAfter(Initial, run, k);
    SettlingMeansRemoved(Initial, run, k);
  }

  /** A deleted asset has nothing left exactly when no writer came back to it after each step was last operated on. */
  lemma DeletedLeavesIff(run: seq<Event>, s: State)
    requires Reached(run, s) && s.saga.deleted
    ensures s.saga.present == {} <==> forall k: nat :: k < STEPS ==> !WrittenLast(run, k)
    ensures PROJECTION in s.saga.present <==> WrittenLast(run, PROJECTION)
  {
    hide WrittenLast, EverRemoved, Legal, After;
    DeletedMeansRecorded(run, s);
    RecordedLeavesIff(run, s, PROJECTION);
    RecordedLeavesIff(run, s, DERIVED);
    RecordedLeavesIff(run, s, SOURCE);
    RecordedLeavesIff(run, s, UPLOAD);
    PresentBelow(run, s);
  }

  lemma PresentBelow(run: seq<Event>, s: State)
    requires Reached(run, s)
    ensures s.saga.present <= {PROJECTION, DERIVED, SOURCE, UPLOAD}
  {
    RunKept(Initial, run);
  }

  // ---- when nothing is left ----

  predicate NoWriters(s: Saga, kind: Kind) {
    forall p :: p in s.writers ==> s.writers[p] != kind
  }

  /** A guarded deletion is under way or over, and what the steps of one kind remove is gone once they are settled. */
  predicate ShutOut(s: State, kind: Kind) {
    && NoWriters(s.saga, kind)
    && forall k :: k in Writable(kind) && Settling(s, k) ==> k !in s.saga.present
  }

  predicate Guarded(s: Saga) {
    (s.requested && !s.running) || s.deleted
  }

  lemma GuardedStep(s: State, e: Event)
    requires Inv(s) && Guarded(s.saga) && Enabled(s, e)
    ensures Guarded(Apply(s, e).saga) && !e.JobStarts?
  {
  }

  lemma ShutOutStep(s: State, e: Event, kind: Kind)
    requires ShutOut(s, kind) && Enabled(s, e)
    requires kind.JobProcess? ==> !e.JobStarts?
    requires kind.UploadRequest? ==> !e.UploadBegins?
    ensures ShutOut(Apply(s, e), kind)
  {
    hide Settling;
    forall k | k in Writable(kind) && Settling(Apply(s, e), k) ensures k !in Apply(s, e).saga.present {
      PresentStep(s, e, k);
      SettlingStep(s, e, k);
    }
  }

  predicate NoUploadBegins(run: seq<Event>) {
    forall i :: 0 <= i < |run| ==> !run[i].UploadBegins?
  }

  lemma {:induction false} StaysShutOut(s: State, run: seq<Event>, kind: Kind)
    requires Inv(s) && Guarded(s.saga) && ShutOut(s, kind) && Legal(s, run)
    requires kind.UploadRequest? ==> NoUploadBegins(run)
    ensures ShutOut(After(s, run), kind)
    decreases |run|
  {
    hide Inv, Enabled, Apply, ShutOut, Guarded;
    if run != [] {
      GuardedStep(s, run[0]);
      ShutOutStep(s, run[0], kind);
      EventKept(s, run[0]);
      assert forall i :: 0 <= i < |run[1..]| ==> run[1..][i] == run[i + 1];
      StaysShutOut(Apply(s, run[0]), run[1..], kind);
    }
  }

  /** What a caller can see before the call: the upload is over, no job process is alive, and no earlier request is half done. */
  predicate Quiet(s: State, id: nat, kind: Kind) {
    && !s.saga.uploading && !s.saga.deleted && !s.saga.running
    && id in s.requests && s.requests[id].phase == Preparing
    && ShutOut(s, kind)
  }

  lemma PreparesGuarded(s: State, id: nat, kind: Kind)
    requires Quiet(s, id, kind)
    ensures Enabled(s, Do(id, Prepare))
    ensures Guarded(Apply(s, Do(id, Prepare)).saga) && ShutOut(Apply(s, Do(id, Prepare)), kind)
  {
    ShutOutStep(s, Do(id, Prepare), kind);
  }

  lemma DeletedIsShut(run: seq<Event>, t: State, kind: Kind)
    requires Reached(run, t) && ShutOut(t, kind) && t.saga.deleted
    ensures t.saga.present !! Writable(kind)
  {
    DeletedMeansRecorded(run, t);
    assert forall k :: k in Writable(kind) ==> Settling(t, k);
  }

  /**
   A request that finds the upload over and no job process alive leaves no document and no derived file behind, at the
   deletion and ever after, whatever everyone else does; and nothing at all if no upload request is alive or comes any more.
   */
  lemma QuietDeletionLeavesNothing(run: seq<Event>, s: State, id: nat, more: seq<Event>, t: State)
    requires Reached(run, s) && Quiet(s, id, JobProcess)
    requires Legal(s, [Do(id, Prepare)] + more) && t == After(s, [Do(id, Prepare)] + more) && t.saga.deleted
    ensures PROJECTION !in t.saga.present && DERIVED !in t.saga.present
    ensures ShutOut(s, UploadRequest) && NoUploadBegins(more) ==> t.saga.present == {}
  {
    hide Legal, After, ShutOut, Guarded, Inv, Apply;
    var u := Apply(s, Do(id, Prepare));
    RunKept(Initial, run);
    EventKept(s, Do(id, Prepare));
    PreparesGuarded(s, id, JobProcess);
    OneThenMore(s, Do(id, Prepare), more);
    Continued(run, s, [Do(id, Prepare)] + more);
    StaysShutOut(u, more, JobProcess);
    DeletedIsShut(run + ([Do(id, Prepare)] + more), t, JobProcess);
    if ShutOut(s, UploadRequest) && NoUploadBegins(more) {
      PreparesGuarded(s, id, UploadRequest);
      StaysShutOut(u, more, UploadRequest);
      DeletedIsShut(run + ([Do(id, Prepare)] + more), t, UploadRequest);
      PresentBelow(run + ([Do(id, Prepare)] + more), t);
    }
  }

  lemma OneThenMore(s: State, e: Event, more: seq<Event>)
    requires Legal(s, [e] + more)
    ensures Enabled(s, e) && Legal(Apply(s, e), more) && After(s, [e] + more) == After(Apply(s, e), more)
  {
    assert ([e] + more)[1..] == more;
  }

  lemma {:induction false} Continues(s: State, run: seq<Event>, more: seq<Event>)
    requires Legal(s, run) && Legal(After(s, run), more)
    ensures Legal(s, run + more) && After(s, run + more) == After(After(s, run), more)
    decreases |run|
  {
    hide Enabled, Apply;
    if run == [] {
      assert run + more == more;
    } else {
      Continues(Apply(s, run[0]), run[1..], more);
      assert (run + more)[0] == run[0] && (run + more)[1..] == run[1..] + more;
    }
  }

  lemma Continued(run: seq<Event>, s: State, more: seq<Event>)
    requires Reached(run, s) && Legal(s, more)
    ensures Reached(run + more, After(s, more))
  {
    Continues(Initial, run, more);
  }

  predicate Closed(s: Saga) {
    s.deleted && s.claims == map[] && !s.requested
  }

  /** The asset is deleted, and reported deleted, only with all four steps recorded, no claim left and no job running. */
  lemma DeletedMeansRecorded(run: seq<Event>, s: State)
    requires Reached(run, s)
    requires s.saga.deleted || exists i :: i in s.requests && s.requests[i].phase == Exited(Deleted)
    ensures s.saga.deleted && s.saga.recorded == {PROJECTION, DERIVED, SOURCE, UPLOAD} && !s.saga.running && Closed(s.saga)
  {
    RunKept(Initial, run);
    assert forall i :: i in s.requests ==> Fits(s.saga, s.requests[i]);
    assert Upto(s.saga.recorded, STEPS);
  }

  // ---- one request at a step at a time ----

  lemma NowGrows(s: State, e: Event)
    requires Enabled(s, e)
    ensures s.saga.now <= Apply(s, e).saga.now
  {
    hide Claimable, Owns, Past, Moved;
  }

  lemma {:induction false} NowOnlyGrows(s: State, run: seq<Event>)
    requires Legal(s, run)
    ensures s.saga.now <= After(s, run).saga.now
    decreases |run|
  {
    hide Enabled, Apply;
    if run != [] {
      NowGrows(s, run[0]);
      NowOnlyGrows(Apply(s, run[0]), run[1..]);
    }
  }

  predicate HasClaim(s: Saga, k: nat, claim: Claim) {
    k in s.claims && s.claims[k] == claim
  }

  predicate OperatesOn(s: State, i: nat, k: nat) {
    i in s.requests && s.requests[i].phase == Operating(k)
  }

  lemma LiveClaimStep(s: State, e: Event, k: nat, claim: Claim, i: nat)
    requires Inv(s) && Enabled(s, e) && HasClaim(s.saga, k, claim) && s.saga.now < claim.until
    requires i != claim.owner && !(e.Do? && e.id == claim.owner)
    ensures HasClaim(Apply(s, e).saga, k, claim) && (OperatesOn(Apply(s, e), i, k) ==> OperatesOn(s, i, k))
  {
    if e.Do? {
      assert Fits(s.saga, s.requests[e.id]);
    }
  }

  /**
   Whoever holds the claim of a step keeps it until the claim is over or they act on it themselves; as long as it lasts no
   other request starts to operate on that step.
   */
  lemma {:induction false} LiveClaimExcludes(s: State, more: seq<Event>, k: nat, claim: Claim, i: nat)
    requires Inv(s) && Legal(s, more) && HasClaim(s.saga, k, claim) && After(s, more).saga.now < claim.until
    requires i != claim.owner && forall j :: 0 <= j < |more| ==> !(more[j].Do? && more[j].id == claim.owner)
    ensures HasClaim(After(s, more).saga, k, claim)
    ensures OperatesOn(After(s, more), i, k) ==> OperatesOn(s, i, k)
    decreases |more|
  {
    hide Inv, Enabled, Apply, HasClaim, OperatesOn;
    if more != [] {
      var t := Apply(s, more[0]);
      NowOnlyGrows(t, more[1..]);
      NowGrows(s, more[0]);
      LiveClaimStep(s, more[0], k, claim, i);
      EventKept(s, more[0]);
      LiveClaimExcludes(t, more[1..], k, claim, i);
    }
  }

  // ---- after the deletion ----

  predicate SameRecords(a: Saga, b: Saga) {
    b.deleted == a.deleted && b.recorded == a.recorded && b.claims == a.claims && b.requested == a.requested
  }

  lemma ClosedStep(s: State, e: Event)
    requires Inv(s) && Enabled(s, e) && Closed(s.saga)
    ensures Closed(Apply(s, e).saga) && SameRecords(s.saga, Apply(s, e).saga)
  {
  }

  lemma {:induction false} StaysClosed(s: State, run: seq<Event>)
    requires Inv(s) && Legal(s, run) && Closed(s.saga)
    ensures Closed(After(s, run).saga) && SameRecords(s.saga, After(s, run).saga)
    decreases |run|
  {
    if run != [] {
      ClosedStep(s, run[0]);
      EventKept(s, run[0]);
      StaysClosed(Apply(s, run[0]), run[1..]);
    }
  }

  /** After a deletion nothing that later requests, retries or stalled requests do changes the durable records. */
  lemma LaterDeletesChangeNothing(run: seq<Event>, s: State, more: seq<Event>)
    requires Reached(run, s) && s.saga.deleted && Legal(s, more)
    ensures SameRecords(s.saga, After(s, more).saga)
  {
    RunKept(Initial, run);
    DeletedMeansRecorded(run, s);
    StaysClosed(s, more);
  }

  // ---- jobs and deletions ----

  /** Once a request found the asset no longer uploading, and until it is deleted, no job of it runs or can start. */
  lemma GuardedRequestsKeepJobsOut(run: seq<Event>, s: State, id: nat)
    requires Reached(run, s) && id in s.requests && s.requests[id].guarded && !s.requests[id].phase.Exited?
    ensures !s.saga.running && forall p :: !Enabled(s, JobStarts(p))
  {
    RunKept(Initial, run);
    assert Fits(s.saga, s.requests[id]);
  }

  lemma {:induction false} Appended(s: State, run: seq<Event>, e: Event)
    requires Legal(s, run) && Enabled(After(s, run), e)
    ensures Legal(s, run + [e]) && After(s, run + [e]) == Apply(After(s, run), e)
    decreases |run|
  {
    if run == [] {
      assert [e][1..] == [];
    } else {
      Appended(Apply(s, run[0]), run[1..], e);
      assert (run + [e])[0] == run[0] && (run + [e])[1..] == run[1..] + [e];
    }
  }

  lemma Then(run: seq<Event>, s: State, e: Event) returns (run': seq<Event>, s': State)
    requires Reached(run, s) && Enabled(s, e)
    ensures run' == run + [e] && s' == Apply(s, e) && Reached(run', s')
  {
    Appended(Initial, run, e);
    run', s' := run + [e], Apply(s, e);
  }

  predicate ClaimsExpired(s: Saga) {
    forall k :: k in s.claims ==> s.claims[k].until <= s.now
  }

  /** What doing step `k` leaves untouched. */
  ghost predicate OnlyStep(k: nat, a: Saga, b: Saga) {
    && b.running == a.running && b.uploading == a.uploading && b.requested == a.requested
    && b.deleted == a.deleted && b.now == a.now && b.writers == a.writers
    && forall j :: j != k ==> (j in b.present <==> j in a.present) && (j in b.recorded <==> j in a.recorded)
  }

  lemma ClaimedStepDone(run: seq<Event>, s: State, id: nat) returns (run': seq<Event>, s': State)
    requires Reached(run, s) && id in s.requests
    requires s.requests[id].phase.Operating? && Owns(s.saga, id, s.requests[id].phase.step)
    requires forall k :: k in s.saga.claims && k != s.requests[id].phase.step ==> s.saga.claims[k].until <= s.saga.now
    ensures Reached(run', s') && run <= run' && id in s'.requests && s'.requests[id].phase == At(s.requests[id].phase.step + 1)
    ensures ClaimsExpired(s'.saga) && OnlyStep(s.requests[id].phase.step, s.saga, s'.saga)
    ensures s.requests[id].phase.step !in s'.saga.present
  {
    run', s' := Then(run, s, Do(id, Operate(s.requests[id].phase.step, true, true)));
    run', s' := Then(run', s', Do(id, Record));
  }

  /** One step done by a request that nobody disturbs. */
  lemma StepDone(run: seq<Event>, s: State, id: nat) returns (run': seq<Event>, s': State)
    requires Reached(run, s) && id in s.requests && s.requests[id].phase.At? && s.requests[id].phase.step < STEPS
    requires ClaimsExpired(s.saga)
    ensures Reached(run', s') && run <= run' && id in s'.requests && s'.requests[id].phase == At(s.requests[id].phase.step + 1)
    ensures ClaimsExpired(s'.saga) && OnlyStep(s.requests[id].phase.step, s.saga, s'.saga)
    ensures s.requests[id].phase.step !in s.saga.recorded ==> s.requests[id].phase.step !in s'.saga.present
  {
    hide Reached;
    RequestFits(run, s, id);
    if s.requests[id].phase.step in s.requests[id].completed {
      run', s' := Then(run, s, Do(id, Skip));
    } else {
      run', s' := Then(run, s, Do(id, TakeClaim(s.saga.now + 1)));
      if s'.requests[id].phase.Refused? {
        run', s' := Then(run', s', Do(id, Reread));
      } else {
        run', s' := ClaimedStepDone(run', s', id);
      }
    }
  }

  lemma RequestFits(run: seq<Event>, s: State, id: nat)
    requires Reached(run, s) && id in s.requests
    ensures Fits(s.saga, s.requests[id])
  {
    RunKept(Initial, run);
  }

  lemma {:induction false} StepsDone(run: seq<Event>, s: State, id: nat) returns (run': seq<Event>, s': State)
    requires Reached(run, s) && id in s.requests && !s.saga.running
    requires s.requests[id].phase.At? && s.requests[id].phase.step <= STEPS
    requires ClaimsExpired(s.saga)
    ensures Reached(run', s') && s'.saga.deleted && id in s'.requests && s'.requests[id].phase == Exited(Deleted)
    decreases STEPS - s.requests[id].phase.step
  {
    if s.requests[id].phase.step == STEPS {
      run', s' := Then(run, s, Do(id, Finalize));
    } else {
      run', s' := StepDone(run, s, id);
      run', s' := StepsDone(run', s', id);
    }
  }

  /** Wherever earlier requests died, a fresh one that is left alone after their claims have expired deletes the asset. */
  lemma UndisturbedRequestDeletes(run: seq<Event>, s: State, id: nat) returns (run': seq<Event>, s': State)
    requires Reached(run, s) && id !in s.requests && !s.saga.running && ClaimsExpired(s.saga)
    ensures Reached(run', s') && s'.saga.deleted && id in s'.requests && s'.requests[id].phase == Exited(Deleted)
  {
    run', s' := Then(run, s, Arrive(id));
    run', s' := Then(run', s', Do(id, Prepare));
    if s'.requests[id].phase == Loading {
      run', s' := Then(run', s', Do(id, Load));
      run', s' := StepsDone(run', s', id);
    }
  }

  /** What becomes of step `k` while the steps from `from` on are done: it stays there. */
  lemma {:induction false} StepsLeave(run: seq<Event>, s: State, id: nat, k: nat) returns (more: seq<Event>, s': State)
    requires Reached(run, s) && id in s.requests && !s.saga.running && ClaimsExpired(s.saga)
    requires s.requests[id].phase.At? && k < s.requests[id].phase.step <= STEPS
    requires k in s.saga.present
    ensures Reached(run + more, s') && s'.saga.deleted && k in s'.saga.present
    decreases STEPS - s.requests[id].phase.step
  {
    var run';
    if s.requests[id].phase.step == STEPS {
      run', s' := Then(run, s, Do(id, Finalize));
      more := [Do(id, Finalize)];
    } else {
      var u, rest;
      run', u := StepDone(run, s, id);
      rest, s' := StepsLeave(run', u, id, k);
      more := run'[|run|..] + rest;
      assert run + more == run' + rest;
    }
  }

  /** Request 0 has done the projection step while the asset was still uploading. */
  predicate ProjectionDoneEarly(s: State) {
    && 0 in s.requests && s.requests[0].phase == At(DERIVED) && ClaimsExpired(s.saga)
    && s.saga.uploading && !s.saga.requested && !s.saga.deleted && !s.saga.running && 1 !in s.saga.writers
  }

  lemma EarlyProjection() returns (run: seq<Event>, s: State)
    ensures Reached(run, s) && ProjectionDoneEarly(s) && [Arrive(0), Do(0, Prepare)] <= run
  {
    hide Reached;
    Begun();
    run, s := Then([], Initial, Arrive(0));
    run, s := Then(run, s, Do(0, Prepare));
    run, s := Then(run, s, Do(0, Load));
    run, s := StepDone(run, s, 0);
  }

  function LateJob(): seq<Event> {
    [UploadCompletes, JobStarts(1), Write(1, PROJECTION), JobStops, WriterEnds(1)]
  }

  lemma JobAfterProjection(before: seq<Event>, s: State) returns (t: State)
    requires Reached(before, s) && ProjectionDoneEarly(s)
    ensures Reached(before + LateJob(), t) && 0 in t.requests && t.requests[0].phase == At(DERIVED)
    ensures ClaimsExpired(t.saga) && !t.saga.running && PROJECTION in t.saga.present
  {
    hide Reached;
    var run;
    run, t := Then(before, s, UploadCompletes);
    run, t := Then(run, t, JobStarts(1));
    run, t := Then(run, t, Write(1, PROJECTION));
    run, t := Then(run, t, JobStops);
    run, t := Then(run, t, WriterEnds(1));
    assert run == before + LateJob();
  }

  /**
   A request that arrives while the asset is still uploading leaves no deletion request behind, so the upload may complete
   and a job start after the projection step was recorded; that job's documents are there when the asset is deleted.
   */
  lemma DeletingAnUploadCanLeaveDocuments() returns (before: seq<Event>, after: seq<Event>, s: State)
    ensures Reached(before + LateJob() + after, s) && [Arrive(0), Do(0, Prepare)] <= before
    ensures s.saga.deleted && PROJECTION in s.saga.present
  {
    hide Reached, LateJob, ProjectionDoneEarly, ClaimsExpired;
    before, s := EarlyProjection();
    s := JobAfterProjection(before, s);
    after, s := StepsLeave(before + LateJob(), s, 0, PROJECTION);
  }

  lemma Begun()
    ensures Reached([], Initial)
  {
  }

  lemma ThreeStepsDone(run: seq<Event>, s: State, id: nat) returns (run': seq<Event>, s': State)
    requires Reached(run, s) && id in s.requests && s.requests[id].phase == At(0) && ClaimsExpired(s.saga) && !s.saga.running
    ensures Reached(run', s') && run <= run' && id in s'.requests && s'.requests[id].phase == At(UPLOAD)
    ensures ClaimsExpired(s'.saga) && !s'.saga.running && s'.saga.deleted == s.saga.deleted && s'.saga.writers == s.saga.writers
  {
    hide Reached, Legal, After, ClaimsExpired;
    run', s' := StepDone(run, s, id);
    run', s' := StepDone(run', s', id);
    run', s' := StepDone(run', s', id);
  }

  function GuardedStart(): seq<Event> {
    [UploadCompletes, Arrive(0), Do(0, Prepare)]
  }

  function RepeatedChunk(): seq<Event> {
    [UploadBegins(1), Write(1, SOURCE), WriterEnds(1)]
  }

  lemma SourceStepDone() returns (steps: seq<Event>, s: State)
    ensures Reached(GuardedStart() + steps, s) && 0 in s.requests && s.requests[0].phase == At(UPLOAD)
    ensures ClaimsExpired(s.saga) && !s.saga.running && !s.saga.deleted && 1 !in s.saga.writers
  {
    hide Reached;
    Begun();
    var run;
    run, s := Then([], Initial, UploadCompletes);
    run, s := Then(run, s, Arrive(0));
    run, s := Then(run, s, Do(0, Prepare));
    assert run == GuardedStart();
    run, s := Then(run, s, Do(0, Load));
    run, s := ThreeStepsDone(run, s, 0);
    steps := run[|GuardedStart()|..];
    assert run == GuardedStart() + steps;
  }

  lemma ChunkAfterSource(before: seq<Event>, s: State) returns (t: State)
    requires Reached(before, s) && 0 in s.requests && s.requests[0].phase == At(UPLOAD)
    requires ClaimsExpired(s.saga) && !s.saga.running && !s.saga.deleted && 1 !in s.saga.writers
    ensures Reached(before + RepeatedChunk(), t) && 0 in t.requests && t.requests[0].phase == At(UPLOAD)
    ensures ClaimsExpired(t.saga) && !t.saga.running && SOURCE in t.saga.present
  {
    hide Reached;
    var run;
    run, t := Then(before, s, UploadBegins(1));
    run, t := Then(run, t, Write(1, SOURCE));
    run, t := Then(run, t, WriterEnds(1));
    assert run == before + RepeatedChunk();
  }

  /**
   A request that repeats the last chunk is still served while its asset is being deleted: arriving after the source was
   removed, and before the chunks are, it assembles the source again, and the deleted asset keeps it.
   */
  lemma RepeatedChunkCanLeaveTheSource() returns (steps: seq<Event>, after: seq<Event>, s: State)
    ensures Reached(GuardedStart() + steps + RepeatedChunk() + after, s) && s.saga.deleted && SOURCE in s.saga.present
  {
    hide Reached, GuardedStart, RepeatedChunk, ClaimsExpired;
    steps, s := SourceStepDone();
    s := ChunkAfterSource(GuardedStart() + steps, s);
    after, s := StepsLeave(GuardedStart() + steps + RepeatedChunk(), s, 0, SOURCE);
  }
}
