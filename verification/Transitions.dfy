/** The declared job status transitions, and which of the machine's status changes they cover. */
module Transitions {
  import opened Projection
  import opened Engine
  import opened EngineInvariant
  import opened EngineProofs
  import opened EngineTheorems
  import opened EngineProgress
  import opened EngineLosses

  function Allowed(status: JobStatus): set<JobStatus> {
    match status
    case Queued => {Running, Cancelled}
    case Running => {Completed, RetryWait, Failed, Cancelled}
    case RetryWait => {Queued}
    case Failed => {Queued}
    case Completed | Cancelled => {}
  }

  /** Cancelling a waiting job takes two declared transitions inside one transaction. */
  predicate Declared(before: JobStatus, after: JobStatus) {
    after in Allowed(before) || (before == RetryWait && after == Cancelled)
  }

  predicate ReleasesExpired(st: Store, e: Event) {
    e == Environment(Recover) && !st.cancelRequested && !st.deletionRequested
  }

  predicate Kept(before: Store, after: Store) {
    before.status == after.status || Declared(before.status, after.status)
  }

  lemma ActsAreDeclared(w: World, st: Store, id: nat, r: Runner, a: Action)
    requires Can(w, st, id, r, a)
    ensures Kept(st, Stepped(w, st, id, r, a))
  {
    hide Moved, LatestBelow, Below, Upsert, RemoveOwned, Validates, CheckpointFits;
    if !OnRow(a) && !a.Complete? { StatusUntouched(w, st, id, r, a); }
  }

  lemma StatusUntouched(w: World, st: Store, id: nat, r: Runner, a: Action)
    requires Can(w, st, id, r, a) && !OnRow(a) && !a.Complete?
    ensures Stepped(w, st, id, r, a).status == st.status
  {
    hide Can, Moved, LatestBelow, Below, Upsert, RemoveOwned, Validates, CheckpointFits;
  }

  lemma ChangesAreDeclared(w: World, st: Store, c: Change)
    requires MayChange(w, st, c)
    ensures Kept(st, Changed(w, st, c)) <==> !ReleasesExpired(st, Environment(c))
  {
  }

  lemma ClaimsAreDeclared(w: World, st: Store, id: nat)
    requires CleanupDue(st) || RunDue(st)
    ensures Kept(st, ClaimedStore(w, st, id))
  {
  }

  /**
   Every status change of every run is a declared transition, except exactly one: recovering the expired lease of a job
   that is not being cancelled takes it from running straight back to queued, which the table does not list.
   */
  lemma StatusChangesDeclared(w: World, s: State, e: Event)
    requires Enabled(w, s, e)
    ensures Kept(s.store, Apply(w, s, e).store) <==> !ReleasesExpired(s.store, e)
  {
    hide Kept, CleanupDue, RunDue, MayChange, Changed, ClaimedStore, Can, Stepped, Moved;
    match e
    case Act(id, a) => ActsAreDeclared(w, s.store, id, s.runners[id], a);
    case Claim(id) => ClaimsAreDeclared(w, s.store, id);
    case Environment(c) => ChangesAreDeclared(w, s.store, c);
  }

  /** Such a recovery happens: a first attempt whose lease ran out goes straight back to the queue. */
  lemma RecoveryIsUndeclared() returns (run: seq<Event>, s: State)
    ensures Reached(SampleWorld(), run, s) && Enabled(SampleWorld(), s, Environment(Recover))
    ensures s.store.status == Running && Apply(SampleWorld(), s, Environment(Recover)).store.status == Queued
    ensures !Declared(Running, Queued)
  {
    var w := SampleWorld();
    run, s := First(w, Initial, Claim(0));
    run, s := Then(w, Initial, run, s, Act(0, Start));
    var more, t := Wait(w, s, w.leaseSeconds);
    Joined(w, Initial, run, s, more, t);
    run, s := run + more, t;
  }

  /** Completed and cancelled are final. */
  lemma {:induction false} FinalForever(w: World, s: State, run: seq<Event>)
    requires Legal(w, s, run) && (s.store.status == Completed || s.store.status == Cancelled)
    ensures After(w, s, run).store.status == s.store.status
    decreases |run|
  {
    if run != [] {
      StatusChangesDeclared(w, s, run[0]);
      assert Enabled(w, s, run[0]);
      FinalForever(w, Apply(w, s, run[0]), run[1..]);
    }
  }
}
