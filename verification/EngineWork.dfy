/**
 How much work there is in the life of a job. Every step of a process but fencing and renewing brings it nearer to its end,
 and every claim uses up an attempt, so only a disturbance can make more work.
 */
module EngineWork {
  import opened Options
  import opened Projection
  import opened Engine
  import opened EngineInvariant
  import opened EngineProofs
  import opened EngineTheorems

  // ---- one process ----

  /** Fencing and renewing may be repeated at will, and a process may die at any point; everything else is work. */
  predicate Lowers(a: Action) {
    !a.Fence? && !a.Renew? && !a.RenewCleanup? && !a.Die?
  }

  function StagesLeft(r: Runner): nat {
    if |r.outs| < PUBLISH then PUBLISH - |r.outs| else 0
  }

  /** How far a process is from its end. */
  function Level(r: Runner): nat {
    match r.pc
    case Done | Dead => 0
    case CleanedUp => 1
    case Errored(_, _) => if r.swept then 2 else 4
    case RollingBack(_, _) => if r.swept then 3 else 5
    case CleaningUp(_) => if r.swept then 3 else 6
    case Committed => 6
    case Completing => 7
    case WritingPublish => 8
    case Projecting(_, _) => 9
    case Recording(_) => 6 + 6 * StagesLeft(r)
    case Writing(_) => 7 + 6 * StagesLeft(r)
    case Executing => 8 + 6 * StagesLeft(r)
    case Adopting(_) | Resetting => 9 + 6 * StagesLeft(r)
    case Deciding => 10 + 6 * StagesLeft(r)
    case Opening => 47
    case Claimed => 48
  }

  /** The documents it still has to remove, or to send, before it gets to the next level. */
  function Pending(r: Runner): nat {
    match r.pc
    case RollingBack(todo, _) => |todo|
    case CleaningUp(todo) => |todo|
    case Projecting(sent, _) =>
      if |r.outs| == PUBLISH && sent < |r.outs[INDEXING].documents| then |r.outs[INDEXING].documents| - sent else 0
    case _ => 0
  }

  predicate Nearer(r: Runner, r': Runner) {
    Level(r') < Level(r) || (Level(r') == Level(r) && Pending(r') < Pending(r))
  }

  lemma StageWorks(w: World, st: Store, id: nat, r: Runner, a: Action)
    requires Can(w, st, id, r, a) && Shape(w, r)
    requires a.Start? || a.ReadSteps? || a.Adopt? || a.Reset? || a.Execute? || a.WriteManifest? || a.Record?
    ensures Nearer(r, Moved(w, st, id, r, a))
  {
    hide DocumentsBound, Validates, MemAfter, StoredAfter;
  }

  lemma DecisionWorks(w: World, st: Store, id: nat, r: Runner, b: bool)
    requires Can(w, st, id, r, Decide(b)) && Shape(w, r)
    ensures Nearer(r, Moved(w, st, id, r, Decide(b)))
  {
    hide DocumentsBound, Validates, MemAfter, StoredAfter;
  }

  lemma PublicationWorks(w: World, st: Store, id: nat, r: Runner, a: Action)
    requires Can(w, st, id, r, a) && Shape(w, r)
    requires a.BeginPublish? || a.ProjectDocument? || a.Acknowledge? || a.WritePublish?
    ensures Nearer(r, Moved(w, st, id, r, a))
  {
    hide Shape, MemAfter, StoredAfter, OfAttempt, LeaseLive;
  }

  lemma CommitWorks(w: World, st: Store, id: nat, r: Runner, a: Action)
    requires Can(w, st, id, r, a) && Shape(w, r) && (a.Complete? || a.Return? || a.Interrupt?)
    ensures Nearer(r, Moved(w, st, id, r, a))
  {
    hide Shape, Passed, MemAfter, StoredAfter, OfAttempt, LeaseLive;
  }

  lemma RemovalWorks(w: World, st: Store, id: nat, r: Runner, d: SegmentId)
    requires Can(w, st, id, r, RemoveDocument(d)) && Shape(w, r)
    ensures Nearer(r, Moved(w, st, id, r, RemoveDocument(d)))
  {
    hide Shape, MemAfter, StoredAfter, OfAttempt, Passed;
  }

  lemma CompensationWorks(w: World, st: Store, id: nat, r: Runner, a: Action)
    requires Can(w, st, id, r, a) && Shape(w, r)
    requires a.SawCancel? || a.Fail? || a.EndRollback? || a.EndCleanup?
    ensures Nearer(r, Moved(w, st, id, r, a))
  {
    hide MemAfter, StoredAfter, OfAttempt, Passed, LeaseLive, Produced, DocumentsBound;
  }

  lemma RowWorks(w: World, st: Store, id: nat, r: Runner, a: Action)
    requires Can(w, st, id, r, a) && Shape(w, r)
    requires a.Release? || a.Refuse? || a.ScheduleRetry? || a.MarkFailed? || a.FinishCancel?
    ensures Nearer(r, Moved(w, st, id, r, a))
  {
    hide DocumentsBound, Validates, MemAfter, StoredAfter, OfAttempt;
  }

  /** Every step of a process but fencing, renewing and dying brings it nearer to its end, in whatever state the job is. */
  lemma EveryStepWorks(w: World, st: Store, id: nat, r: Runner, a: Action)
    requires Can(w, st, id, r, a) && Shape(w, r) && Lowers(a)
    ensures Nearer(r, Moved(w, st, id, r, a))
  {
    hide Can, Moved, Shape, Nearer;
    match a
    case Release | Refuse | ScheduleRetry | MarkFailed | FinishCancel => RowWorks(w, st, id, r, a);
    case RemoveDocument(d) => RemovalWorks(w, st, id, r, d);
    case SawCancel | Fail(_) | EndRollback(_) | EndCleanup => CompensationWorks(w, st, id, r, a);
    case Decide(b) => DecisionWorks(w, st, id, r, b);
    case Start | ReadSteps | Adopt | Reset | Execute(_) | WriteManifest | Record => StageWorks(w, st, id, r, a);
    case BeginPublish | ProjectDocument(_) | Acknowledge | WritePublish => PublicationWorks(w, st, id, r, a);
    case Complete | Return | Interrupt => CommitWorks(w, st, id, r, a);
  }

  lemma OthersKeepLevel(w: World, st: Store, id: nat, r: Runner, a: Action)
    requires Can(w, st, id, r, a) && !Lowers(a)
    ensures var r' := Moved(w, st, id, r, a); r'.pc == r.pc || r'.pc == Dead
    ensures var r' := Moved(w, st, id, r, a); r'.outs == r.outs && r'.swept == r.swept
  {
    hide DocumentsBound, Validates, MemAfter, StoredAfter, OfAttempt;
  }

  // ---- the job ----

  /** What a claim or a step of work is. */
  predicate Works(e: Event) {
    e.Claim? || e == Environment(Promote) || (e.Act? && Lowers(e.action))
  }

  /** What can make more work: a claim handed back, a lease that ran out and was taken over, a retry by the operator. */
  predicate Disturbs(st: Store, e: Event) {
    || e == Environment(Recover) || e == Environment(RetryFailed)
    || (e.Claim? && CleanupDue(st)) || (e.Act? && e.action == Release)
  }

  function Work(run: seq<Event>): nat {
    if run == [] then 0 else (if Works(run[0]) then 1 else 0) + Work(run[1..])
  }

  function Disturbances(w: World, s: State, run: seq<Event>): nat
    requires Legal(w, s, run)
    decreases |run|
  {
    if run == [] then 0 else (if Disturbs(s.store, run[0]) then 1 else 0) + Disturbances(w, Apply(w, s, run[0]), run[1..])
  }

  predicate Waiting(st: Store) {
    st.status == Queued || st.status == RetryWait
  }

  /** How often the job can still be claimed while nothing disturbs it. */
  function ClaimsLeft(w: World, st: Store): nat {
    if st.attempt < w.maxAttempts then w.maxAttempts - st.attempt else if Waiting(st) then 1 else 0
  }

  function PhasesLeft(st: Store): nat {
    if st.status == RetryWait then 1 else 0
  }

  predicate SameRow(st: Store, t: Store) {
    && t.status == st.status && t.lease == st.lease && t.cancelRequested == st.cancelRequested && t.now == st.now
    && t.attempt == st.attempt && t.deleted == st.deleted
  }

  lemma RowStaysPut(w: World, st: Store, id: nat, r: Runner, a: Action)
    requires Can(w, st, id, r, a) && (!OnRow(a) || a.Start?) && !a.Complete?
    ensures SameRow(st, Stepped(w, st, id, r, a))
  {
    hide Can, Moved, LatestBelow, Below, Upsert, RemoveOwned, MemAfter;
    if InRun(a) || OnDocuments(a) || a.Start? {
      match a {
        case Start => case Adopt => case Reset => case WriteManifest => case Record =>
        case ProjectDocument(_) => case WritePublish => case RemoveDocument(_) =>
      }
    } else {
      IdleStore(w, st, id, r, a);
    }
  }

  lemma RowUsesClaims(w: World, st: Store, id: nat, r: Runner, a: Action)
    requires Can(w, st, id, r, a) && ((OnRow(a) && !a.Start?) || a.Complete?)
    ensures ClaimsLeft(w, Stepped(w, st, id, r, a)) <= ClaimsLeft(w, st) + (if a == Release then 1 else 0)
    ensures PhasesLeft(Stepped(w, st, id, r, a))
      <= PhasesLeft(st) + (if a == Release || a == ScheduleRetry then 1 else 0)
  {
    hide Moved, MemAfter, Backoff;
    match a {
      case Renew => case RenewCleanup => case Release => case ScheduleRetry => case MarkFailed => case FinishCancel => case Complete =>
    }
  }

  lemma ActUsesClaims(w: World, st: Store, id: nat, r: Runner, a: Action)
    requires Can(w, st, id, r, a)
    ensures ClaimsLeft(w, Stepped(w, st, id, r, a)) <= ClaimsLeft(w, st) + (if a == Release then 1 else 0)
    ensures PhasesLeft(Stepped(w, st, id, r, a))
      <= PhasesLeft(st) + (if a == Release || a == ScheduleRetry then 1 else 0)
  {
    hide Can, Stepped, Moved;
    if (OnRow(a) && !a.Start?) || a.Complete? {
      RowUsesClaims(w, st, id, r, a);
    } else {
      RowStaysPut(w, st, id, r, a);
    }
  }


  lemma ChangeUsesClaims(w: World, st: Store, c: Change)
    requires MayChange(w, st, c)
    ensures ClaimsLeft(w, Changed(w, st, c)) <= ClaimsLeft(w, st) + (if c == Recover || c == RetryFailed then 1 else 0)
    ensures PhasesLeft(Changed(w, st, c)) + (if c == Promote then 1 else 0) <= PhasesLeft(st)
  {
  }

  lemma ClaimUsesClaims(w: World, st: Store, id: nat)
    requires CleanupDue(st) || RunDue(st)
    ensures ClaimsLeft(w, ClaimedStore(w, st, id)) + (if CleanupDue(st) then 0 else 1) <= ClaimsLeft(w, st)
    ensures PhasesLeft(ClaimedStore(w, st, id)) == PhasesLeft(st) == 0
  {
  }

  // ---- the amount of work ----

  /** No index and no bulk ever holds more than `n` documents of one attempt: the indexing validator ties them to the segments. */
  ghost predicate Small(w: World, n: nat) {
    forall outs, o :: w.accepts(INDEXING, outs, o) ==> |o.documents| <= n
  }

  ghost predicate SmallRun(n: nat, r: Runner) {
    (|r.outs| > INDEXING ==> |r.outs[INDEXING].documents| <= n) && Pending(r) <= n
  }

  ghost predicate Bounded(n: nat, s: State) {
    && (forall i :: i in s.runners ==> SmallRun(n, s.runners[i]))
    && forall a: nat :: |OfAttempt(s.store.docs, a)| <= n
  }

  lemma RunStaysSmall(w: World, n: nat, st: Store, id: nat, r: Runner, a: Action)
    requires Small(w, n) && Shape(w, r) && SmallRun(n, r) && Can(w, st, id, r, a) && |OfAttempt(st.docs, r.attempt)| <= n
    ensures SmallRun(n, Moved(w, st, id, r, a))
  {
    hide SmallRun, Can, Moved;
    OutputsStaySmall(w, n, st, id, r, a);
    PendingStaysSmall(w, n, st, id, r, a);
    BothSmall(n, Moved(w, st, id, r, a));
  }

  lemma BothSmall(n: nat, r: Runner)
    requires |r.outs| > INDEXING ==> |r.outs[INDEXING].documents| <= n
    requires Pending(r) <= n
    ensures SmallRun(n, r)
  {
  }

  lemma OutputsStaySmall(w: World, n: nat, st: Store, id: nat, r: Runner, a: Action)
    requires Small(w, n) && Shape(w, r) && SmallRun(n, r) && Can(w, st, id, r, a)
    ensures var r' := Moved(w, st, id, r, a); |r'.outs| > INDEXING ==> |r'.outs[INDEXING].documents| <= n
  {
    hide DocumentsBound, OfAttempt, MemAfter, StoredAfter, PcAfter, Pending;
  }

  lemma PendingStaysSmall(w: World, n: nat, st: Store, id: nat, r: Runner, a: Action)
    requires Shape(w, r) && SmallRun(n, r) && Can(w, st, id, r, a) && |OfAttempt(st.docs, r.attempt)| <= n
    ensures Pending(Moved(w, st, id, r, a)) <= n
  {
    hide Shape, SmallRun, Can, Moved, OfAttempt;
    if a.SawCancel? || a.Fail? || a.Interrupt? {
      CompensationStaysSmall(w, n, st, id, r, a);
    } else if a.RemoveDocument? {
      RemovalStaysSmall(w, n, st, id, r, a.id);
    } else if a.BeginPublish? || a.ProjectDocument? {
      BulkStaysSmall(w, n, st, id, r, a);
    } else {
      NothingPending(w, n, st, id, r, a);
    }
  }

  lemma CompensationStaysSmall(w: World, n: nat, st: Store, id: nat, r: Runner, a: Action)
    requires Can(w, st, id, r, a) && (a.SawCancel? || a.Fail? || a.Interrupt?) && |OfAttempt(st.docs, r.attempt)| <= n
    ensures Pending(Moved(w, st, id, r, a)) <= n
  {
    hide OfAttempt, MemAfter, StoredAfter, Passed, LeaseLive;
  }

  lemma RemovalStaysSmall(w: World, n: nat, st: Store, id: nat, r: Runner, d: SegmentId)
    requires Can(w, st, id, r, RemoveDocument(d)) && SmallRun(n, r)
    ensures Pending(Moved(w, st, id, r, RemoveDocument(d))) <= n
  {
    hide MemAfter, StoredAfter, Passed;
  }

  lemma BulkStaysSmall(w: World, n: nat, st: Store, id: nat, r: Runner, a: Action)
    requires Can(w, st, id, r, a) && (a.BeginPublish? || a.ProjectDocument?) && SmallRun(n, r)
    ensures Pending(Moved(w, st, id, r, a)) <= n
  {
    hide MemAfter, StoredAfter;
  }

  lemma NothingPending(w: World, n: nat, st: Store, id: nat, r: Runner, a: Action)
    requires Can(w, st, id, r, a) && SmallRun(n, r)
    requires !a.SawCancel? && !a.Fail? && !a.Interrupt? && !a.RemoveDocument? && !a.BeginPublish? && !a.ProjectDocument?
    ensures Pending(Moved(w, st, id, r, a)) <= n
  {
    hide MemAfter, StoredAfter, LeaseLive, Reusable;
  }

  lemma {:induction false} IdsBounded(documents: seq<Document>)
    ensures |set i | 0 <= i < |documents| :: documents[i].id| <= |documents|
  {
    var ids := set i | 0 <= i < |documents| :: documents[i].id;
    if documents == [] {
      assert ids == {};
    } else {
      var last := |documents| - 1;
      var before := documents[..last];
      IdsBounded(before);
      assert ids == (set i | 0 <= i < |before| :: before[i].id) + {documents[last].id};
    }
  }

  lemma SubsetBounded<T>(a: set<T>, b: set<T>)
    requires a <= b
    ensures |a| <= |b|
  {
    assert b == a + (b - a);
  }

  /** The documents of a process in the index are among its own. */
  lemma OwnDocumentsBounded(w: World, n: nat, st: Store, id: nat, r: Runner)
    requires Fits(w, st, id, r) && r.started && SmallRun(n, r) && Documents(st.docs, st.lastStarted)
    ensures |OfAttempt(st.docs, r.attempt)| <= n
  {
    hide Alone, Claims, Current, Sent, Completer, StepTraces, DiskTraces, Compensation;
    var own := OfAttempt(st.docs, r.attempt);
    if d :| d in own {
      assert r.projecting && |r.outs| == PUBLISH;
      var documents := r.outs[INDEXING].documents;
      var ids := set i | 0 <= i < |documents| :: documents[i].id;
      assert own <= ids;
      SubsetBounded(own, ids);
      IdsBounded(documents);
    }
  }

  lemma DocumentsStayBounded(w: World, n: nat, st: Store, id: nat, r: Runner, a: Action, attempt: nat)
    requires Can(w, st, id, r, a) && Fits(w, st, id, r) && |OfAttempt(st.docs, attempt)| <= n
    requires SmallRun(n, Moved(w, st, id, r, a)) && Fits(w, Stepped(w, st, id, r, a), id, Moved(w, st, id, r, a))
    requires StoreInv(w, Stepped(w, st, id, r, a))
    ensures |OfAttempt(Stepped(w, st, id, r, a).docs, attempt)| <= n
  {
    hide Row, Steps, Checkpoints, Disk, Documents, Alone, Traces, Standing, Can, Moved, Stepped, SmallRun, OfAttempt;
    DocumentsShrink(w, st, id, r, a, attempt);
    if a.ProjectDocument? && attempt == r.attempt {
      Grows(w, st, id, r, a);
      ProjectingStarted(w, st, id, r, a);
      OwnDocumentsBounded(w, n, Stepped(w, st, id, r, a), id, Moved(w, st, id, r, a));
    } else {
      SubsetBounded(OfAttempt(Stepped(w, st, id, r, a).docs, attempt), OfAttempt(st.docs, attempt));
    }
  }


  lemma ProjectingStarted(w: World, st: Store, id: nat, r: Runner, a: Action)
    requires Fits(w, st, id, r) && Can(w, st, id, r, a) && a.ProjectDocument?
    ensures r.started
  {
  }

  lemma DocumentsShrink(w: World, st: Store, id: nat, r: Runner, a: Action, attempt: nat)
    requires Can(w, st, id, r, a) && Fits(w, st, id, r)
    ensures (a.ProjectDocument? && attempt == r.attempt)
      || OfAttempt(Stepped(w, st, id, r, a).docs, attempt) <= OfAttempt(st.docs, attempt)
  {
    hide Can, Stepped, Moved, Shape, Memory, Reuse, Traces, Standing;
    if a.ProjectDocument? {
      if attempt != r.attempt { ProjectShrinks(w, st, id, r, a, attempt); }
    } else if a.RemoveDocument? {
      RemoveShrinks(w, st, id, r, a.id, attempt);
    } else {
      OtherActionsKeepDocuments(w, st, id, r, a);
    }
  }

  lemma RemoveShrinks(w: World, st: Store, id: nat, r: Runner, d: SegmentId, attempt: nat)
    requires Can(w, st, id, r, RemoveDocument(d))
    ensures OfAttempt(Stepped(w, st, id, r, RemoveDocument(d)).docs, attempt) <= OfAttempt(st.docs, attempt)
  {
    hide Moved, MemAfter;
  }

  lemma ProjectShrinks(w: World, st: Store, id: nat, r: Runner, a: Action, attempt: nat)
    requires Shape(w, r) && Can(w, st, id, r, a) && a.ProjectDocument? && attempt != r.attempt
    ensures OfAttempt(Stepped(w, st, id, r, a).docs, attempt) <= OfAttempt(st.docs, attempt)
  {
    hide Moved, MemAfter, Produced;
    OwnDocuments(w, r);
  }


  lemma ChangeStaysBounded(w: World, n: nat, st: Store, c: Change, attempt: nat)
    requires MayChange(w, st, c) && |OfAttempt(st.docs, attempt)| <= n
    ensures |OfAttempt(Changed(w, st, c).docs, attempt)| <= n
  {
    SubsetBounded(OfAttempt(Changed(w, st, c).docs, attempt), OfAttempt(st.docs, attempt));
  }

  lemma StaysBounded(w: World, n: nat, s: State, e: Event)
    requires Inv(w, s) && Small(w, n) && Bounded(n, s) && Enabled(w, s, e)
    ensures Bounded(n, Apply(w, s, e))
  {
    hide StoreInv, Fits, Can, Moved, Stepped, MayChange, Changed, Small, SmallRun, OfAttempt;
    var t := Apply(w, s, e);
    match e
    case Environment(c) =>
      forall a: nat ensures |OfAttempt(t.store.docs, a)| <= n {
        ChangeStaysBounded(w, n, s.store, c, a);
      }
    case Claim(id) =>
      NewRunsAreSmall(n, t.store.attempt);
    case Act(id, action) =>
      EventKept(w, s, e);
      assert Fits(w, t.store, id, t.runners[id]);
      assert Alone(w, s.runners[id]) by { FitsAlone(w, s.store, id, s.runners[id]); }
      RunStaysSmall(w, n, s.store, id, s.runners[id], action);
      forall a: nat ensures |OfAttempt(t.store.docs, a)| <= n {
        DocumentsStayBounded(w, n, s.store, id, s.runners[id], action, a);
      }
  }

  lemma FitsAlone(w: World, st: Store, id: nat, r: Runner)
    requires Fits(w, st, id, r)
    ensures Alone(w, r)
  {
  }

  lemma NewRunsAreSmall(n: nat, attempt: nat)
    ensures SmallRun(n, NewRunner(attempt))
  {
  }

  function Rank(n: nat, r: Runner): nat {
    Level(r) * (n + 1) + Pending(r)
  }

  lemma RankFalls(n: nat, r: Runner, r': Runner)
    requires Nearer(r, r') && Pending(r') <= n
    ensures Rank(n, r') < Rank(n, r)
  {
    hide Level, Pending;
    if Level(r') < Level(r) {
      assert (Level(r') + 1) * (n + 1) <= Level(r) * (n + 1);
    }
  }

  function Ranks(n: nat, runners: map<nat, Runner>, m: nat): nat {
    if m == 0 then 0 else Ranks(n, runners, m - 1) + (if m - 1 in runners then Rank(n, runners[m - 1]) else 0)
  }

  lemma {:induction false} RanksPut(n: nat, runners: map<nat, Runner>, id: nat, r: Runner, m: nat)
    ensures Ranks(n, runners[id := r], m)
      == Ranks(n, runners, m) + (if id < m then Rank(n, r) - (if id in runners then Rank(n, runners[id]) else 0) else 0)
  {
    hide Rank;
    if m > 0 {
      RanksPut(n, runners, id, r, m - 1);
    }
  }

  /** What one claim can cost: the steps of a process with `n` documents, and the claim itself. */
  function Cost(n: nat): nat {
    49 * (n + 1)
  }

  function Times(k: nat, cost: nat): nat {
    if k == 0 then 0 else cost + Times(k - 1, cost)
  }

  lemma {:induction false} TimesGrows(k: nat, l: nat, cost: nat)
    requires k <= l
    ensures Times(k, cost) <= Times(l, cost) && Times(l, cost) == l * cost
  {
    if l > 0 {
      TimesGrows(if k == l then k - 1 else k, l - 1, cost);
    }
  }

  /** The work left when nothing disturbs the job any more. */
  function WorkLeft(w: World, n: nat, m: nat, s: State): nat {
    Times(ClaimsLeft(w, s.store), Cost(n)) + PhasesLeft(s.store) + Ranks(n, s.runners, m)
  }

  function One(b: bool): nat {
    if b then 1 else 0
  }

  lemma LeftMonotone(w: World, n: nat, before: Store, after: Store, disturbs: bool)
    requires ClaimsLeft(w, after) <= ClaimsLeft(w, before) + One(disturbs)
    ensures Times(ClaimsLeft(w, after), Cost(n)) <= Times(ClaimsLeft(w, before), Cost(n)) + (if disturbs then Cost(n) else 0)
  {
    hide ClaimsLeft, Cost;
    TimesGrows(ClaimsLeft(w, after), ClaimsLeft(w, before) + One(disturbs), Cost(n));
  }

  lemma ChangeWork(w: World, n: nat, m: nat, s: State, c: Change)
    requires MayChange(w, s.store, c)
    ensures WorkLeft(w, n, m, Apply(w, s, Environment(c))) + One(Works(Environment(c)))
      <= WorkLeft(w, n, m, s) + (if Disturbs(s.store, Environment(c)) then Cost(n) else 0)
  {
    hide MayChange, Changed, ClaimsLeft, PhasesLeft, Ranks, Times;
    ChangeUsesClaims(w, s.store, c);
    LeftMonotone(w, n, s.store, Changed(w, s.store, c), c == Recover || c == RetryFailed);
  }

  lemma ClaimWork(w: World, n: nat, m: nat, s: State, id: nat)
    requires Enabled(w, s, Claim(id)) && id < m
    ensures WorkLeft(w, n, m, Apply(w, s, Claim(id))) + One(Works(Claim(id)))
      <= WorkLeft(w, n, m, s) + (if Disturbs(s.store, Claim(id)) then Cost(n) else 0)
  {
    hide CleanupDue, RunDue, ClaimedStore, ClaimsLeft, PhasesLeft, Ranks;
    var t := ClaimedStore(w, s.store, id);
    ClaimUsesClaims(w, s.store, id);
    RanksPut(n, s.runners, id, NewRunner(t.attempt), m);
    if CleanupDue(s.store) {
      LeftMonotone(w, n, s.store, t, false);
    } else {
      TimesGrows(ClaimsLeft(w, t), ClaimsLeft(w, s.store) - 1, Cost(n));
    }
  }

  lemma RankStep(w: World, n: nat, st: Store, id: nat, r: Runner, a: Action)
    requires Can(w, st, id, r, a) && Shape(w, r) && Pending(Moved(w, st, id, r, a)) <= n
    ensures Rank(n, Moved(w, st, id, r, a)) + One(Lowers(a)) + One(a == ScheduleRetry) + One(a == Release) <= Rank(n, r)
  {
    hide Can, Moved, Shape;
    var r' := Moved(w, st, id, r, a);
    if Lowers(a) {
      EveryStepWorks(w, st, id, r, a);
      RankFalls(n, r, r');
      if a == ScheduleRetry || a == Release { LeavesFromAbove(w, st, id, r, a); }
    } else {
      OthersKeepLevel(w, st, id, r, a);
    }
  }

  lemma LeavesFromAbove(w: World, st: Store, id: nat, r: Runner, a: Action)
    requires Can(w, st, id, r, a) && (a == ScheduleRetry || a == Release)
    ensures Level(r) >= 2 && Moved(w, st, id, r, a).pc == Done
  {
  }

  lemma ActWork(w: World, n: nat, m: nat, s: State, id: nat, a: Action)
    requires Enabled(w, s, Act(id, a)) && id < m && Shape(w, s.runners[id])
    requires Pending(Moved(w, s.store, id, s.runners[id], a)) <= n
    ensures WorkLeft(w, n, m, Apply(w, s, Act(id, a))) + One(Works(Act(id, a)))
      <= WorkLeft(w, n, m, s) + (if Disturbs(s.store, Act(id, a)) then Cost(n) else 0)
  {
    hide Can, Moved, Stepped, Shape, ClaimsLeft, PhasesLeft, Ranks, Times, Pending, Rank, Lowers;
    var r := s.runners[id];
    ActUsesClaims(w, s.store, id, r, a);
    LeftMonotone(w, n, s.store, Stepped(w, s.store, id, r, a), a == Release);
    RankStep(w, n, s.store, id, r, a);
    RanksPut(n, s.runners, id, Moved(w, s.store, id, r, a), m);
  }

  /** Work uses up what is left of it, and only a disturbance adds to that, at most the cost of one more claim. */
  lemma StepWork(w: World, n: nat, m: nat, s: State, e: Event)
    requires Inv(w, s) && Small(w, n) && Bounded(n, s) && Enabled(w, s, e)
    requires (forall i :: i in s.runners ==> i < m) && (e.Claim? ==> e.runner < m)
    ensures WorkLeft(w, n, m, Apply(w, s, e)) + One(Works(e))
      <= WorkLeft(w, n, m, s) + (if Disturbs(s.store, e) then Cost(n) else 0)
  {
    hide Inv, Small, Can, Moved, Stepped, MayChange, Changed, CleanupDue, RunDue, ClaimedStore, WorkLeft, Works, Disturbs, Cost;
    match e
    case Environment(c) => ChangeWork(w, n, m, s, c);
    case Claim(id) => ClaimWork(w, n, m, s, id);
    case Act(id, a) =>
      StaysBounded(w, n, s, e);
      assert SmallRun(n, Apply(w, s, e).runners[id]);
      ActorShape(w, s, id);
      ActWork(w, n, m, s, id, a);
  }

  lemma ActorShape(w: World, s: State, id: nat)
    requires Inv(w, s) && id in s.runners
    ensures Shape(w, s.runners[id])
  {
    assert Fits(w, s.store, id, s.runners[id]);
  }

  predicate ClaimsBelow(run: seq<Event>, m: nat) {
    forall i :: 0 <= i < |run| && run[i].Claim? ==> run[i].runner < m
  }

  lemma {:induction false} RunWork(w: World, n: nat, m: nat, s: State, run: seq<Event>)
    requires Inv(w, s) && Small(w, n) && Bounded(n, s) && Legal(w, s, run) && ClaimsBelow(run, m)
    requires forall i :: i in s.runners ==> i < m
    ensures WorkLeft(w, n, m, After(w, s, run)) + Work(run) <= WorkLeft(w, n, m, s) + Times(Disturbances(w, s, run), Cost(n))
    decreases |run|
  {
    hide Inv, Small, Bounded, Enabled, Apply, WorkLeft, Works, Disturbs, Cost, ClaimsBelow;
    if run != [] {
      var t := Apply(w, s, run[0]);
      ClaimsBelowTail(run, m);
      EventKept(w, s, run[0]);
      StaysBounded(w, n, s, run[0]);
      StepWork(w, n, m, s, run[0]);
      IdsStayBelow(w, s, run[0], m);
      RunWork(w, n, m, t, run[1..]);
    }
  }

  lemma ClaimsBelowTail(run: seq<Event>, m: nat)
    requires run != [] && ClaimsBelow(run, m)
    ensures ClaimsBelow(run[1..], m) && (run[0].Claim? ==> run[0].runner < m)
  {
    assert forall i :: 0 <= i < |run[1..]| ==> run[1..][i] == run[i + 1];
  }

  lemma IdsStayBelow(w: World, s: State, e: Event, m: nat)
    requires Enabled(w, s, e) && (forall i :: i in s.runners ==> i < m) && (e.Claim? ==> e.runner < m)
    ensures forall i :: i in Apply(w, s, e).runners ==> i < m
  {
    hide Can, Stepped, Moved, MayChange, Changed, ClaimedStore, CleanupDue, RunDue;
  }

  lemma SomeBound(run: seq<Event>) returns (m: nat)
    ensures ClaimsBelow(run, m)
  {
    m := 0;
    for i := 0 to |run|
      invariant ClaimsBelow(run[..i], m)
    {
      assert forall j :: 0 <= j < i ==> run[..i + 1][j] == run[..i][j];
      if run[i].Claim? && run[i].runner >= m {
        m := run[i].runner + 1;
      }
    }
    assert run[..|run|] == run;
  }

  lemma InitiallyBounded(n: nat)
    ensures Bounded(n, Initial)
  {
    assert forall a: nat :: OfAttempt(map[], a) == {};
  }

  lemma {:induction false} NoRanks(n: nat, m: nat)
    ensures Ranks(n, map[], m) == 0
  {
    if m > 0 { NoRanks(n, m - 1); }
  }

  /**
   The bounded life of a job: over any run, with any number of stalled, dead and late processes, the claims and steps are no
   more than the attempts, and one claim for each disturbance, can cost.
   */
  lemma WorkIsBounded(w: World, n: nat, run: seq<Event>, s: State)
    requires Reached(w, run, s) && Small(w, n)
    ensures Work(run) <= ((if w.maxAttempts == 0 then 1 else w.maxAttempts) + Disturbances(w, Initial, run)) * (49 * (n + 1))
  {
    hide Inv, Small, Bounded, Legal, After, ClaimsBelow, Disturbances, Work, Times, Ranks;
    var m := SomeBound(run);
    InitialInv(w);
    InitiallyBounded(n);
    RunWork(w, n, m, Initial, run);
    NoRanks(n, m);
    var claims, d := ClaimsLeft(w, Initial.store), Disturbances(w, Initial, run);
    TimesGrows(claims, claims, Cost(n));
    TimesGrows(d, d, Cost(n));
    assert claims * Cost(n) + d * Cost(n) == (claims + d) * Cost(n);
  }

  function OwnWork(run: seq<Event>, id: nat): nat {
    if run == [] then 0 else One(run[0].Act? && run[0].runner == id && Lowers(run[0].action)) + OwnWork(run[1..], id)
  }

  lemma OwnStep(w: World, n: nat, s: State, e: Event, id: nat)
    requires Inv(w, s) && Small(w, n) && Bounded(n, s) && Enabled(w, s, e) && id in s.runners
    ensures id in Apply(w, s, e).runners
    ensures Rank(n, Apply(w, s, e).runners[id]) + One(e.Act? && e.runner == id && Lowers(e.action)) <= Rank(n, s.runners[id])
  {
    hide Inv, Small, Can, Moved, Stepped, MayChange, Changed, CleanupDue, RunDue, ClaimedStore, Rank, Lowers, Pending;
    if e.Act? && e.runner == id {
      StaysBounded(w, n, s, e);
      assert SmallRun(n, Apply(w, s, e).runners[id]);
      ActorShape(w, s, id);
      RankStep(w, n, s.store, id, s.runners[id], e.action);
    }
  }

  /** However the others interfere and whatever becomes of its lease, one process does at most this much from any point on. */
  lemma {:induction false} OwnWorkIsBounded(w: World, n: nat, s: State, run: seq<Event>, id: nat)
    requires Inv(w, s) && Small(w, n) && Bounded(n, s) && Legal(w, s, run) && id in s.runners
    ensures id in After(w, s, run).runners
    ensures OwnWork(run, id) + Rank(n, After(w, s, run).runners[id]) <= Rank(n, s.runners[id])
    decreases |run|
  {
    hide Inv, Small, Bounded, Enabled, Apply, Rank, Lowers;
    if run != [] {
      OwnStep(w, n, s, run[0], id);
      EventKept(w, s, run[0]);
      StaysBounded(w, n, s, run[0]);
      OwnWorkIsBounded(w, n, Apply(w, s, run[0]), run[1..], id);
    }
  }
}
