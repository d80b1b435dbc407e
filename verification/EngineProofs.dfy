/** Preservation of the invariant of the job machine by every step. */
module EngineProofs {
  import opened Options
  import opened Projection
  import opened Engine
  import opened EngineInvariant

  // ---- step tables that agree below a stage ----

  predicate Agree(a: StepTable, b: StepTable, n: nat) {
    forall i: nat :: i < n ==> i in a && i in b && a[i] == b[i]
  }

  lemma OutputsAgree(a: StepTable, b: StepTable, k: nat)
    requires Agree(a, b, k)
    ensures RecordedOutputs(a, k) == RecordedOutputs(b, k)
  {
  }

  lemma LinkAgrees(w: World, a: StepTable, b: StepTable, k: nat)
    requires StepLinked(w, a, k) && Agree(a, b, k + 1)
    ensures StepLinked(w, b, k)
  {
    OutputsAgree(a, b, k);
  }

  lemma OnDiskAgrees(w: World, a: StepTable, b: StepTable, disk: Files, damaged: set<nat>, k: nat)
    requires OnDisk(w, a, disk, damaged, k) && Agree(a, b, k + 1)
    ensures OnDisk(w, b, disk, damaged, k)
  {
    OutputsAgree(a, b, k + 1);
  }

  lemma {:induction false} LatestBelowPrefix(steps: StepTable, n: nat, k: nat)
    requires forall i: nat :: i in steps <==> i < n
    ensures LatestBelow(steps, k) == if k == 0 || n == 0 then None else Some((if k < n then k else n) - 1)
  {
    if k > 0 && k - 1 !in steps {
      LatestBelowPrefix(steps, n, k - 1);
    }
  }

  // ---- recording a stage ----

  /** The process about to record a stage extends the recorded prefix by exactly that stage, at its own attempt. */
  lemma RecordingExtends(w: World, st: Store, id: nat, r: Runner)
    requires Row(st) && Steps(w, st.steps, st.stage, st.lastStarted)
    requires Shape(w, r) && Reuse(w, r) && Claims(w, st, id, r) && Current(w, st, id, r) && Can(w, st, id, r, Record)
    ensures |r.outs| == Next(st.stage) < PUBLISH && forall k: nat :: k in st.steps <==> k < |r.outs|
    ensures 1 <= r.attempt == st.lastStarted == st.attempt
    ensures RecordedPrefix(w, st.steps, r.outs, r.attempt)
    ensures Stepped(w, st, id, r, Record)
      == st.(steps := st.steps[|r.outs| := StepRow(r.attempt, OutputDigest(r.pc.output))], stage := Some(|r.outs|))
  {
    assert |r.outs| !in r.stored;
    if r.outs != [] {
      assert (|r.outs| - 1) as nat in st.steps;
    }
  }

  lemma RecordLinks(w: World, steps: StepTable, r: Runner, o: Output, j: nat)
    requires Produced(w, r, o) && RecordedPrefix(w, steps, r.outs, r.attempt) && j <= |r.outs|
    requires j < |r.outs| ==> StepLinked(w, steps, j)
    requires forall i: nat :: i < |r.outs| ==> i in steps
    ensures StepLinked(w, steps[|r.outs| := StepRow(r.attempt, OutputDigest(o))], j)
  {
    var table := steps[|r.outs| := StepRow(r.attempt, OutputDigest(o))];
    if j < |r.outs| {
      LinkAgrees(w, steps, table, j);
    } else {
      assert RecordedOutputs(table, j) == r.outs;
    }
  }

  lemma RecordSteps(w: World, steps: StepTable, stage: Option<nat>, r: Runner, o: Output)
    requires Steps(w, steps, stage, r.attempt) && Produced(w, r, o)
    requires |r.outs| == Next(stage) < PUBLISH && RecordedPrefix(w, steps, r.outs, r.attempt) && r.attempt >= 1
    ensures Steps(w, steps[|r.outs| := StepRow(r.attempt, OutputDigest(o))], Some(|r.outs|), r.attempt)
  {
    hide StepLinked, Produced, RecordedPrefix;
    var table := steps[|r.outs| := StepRow(r.attempt, OutputDigest(o))];
    forall j: nat | j in table && j < PUBLISH ensures StepLinked(w, table, j) {
      RecordLinks(w, steps, r, o, j);
    }
  }

  lemma RecordCheckpoints(w: World, st: Store, r: Runner)
    requires Checkpoints(w, st.steps, st.disk, st.damaged) && r.pc.Recording? && Memory(w, r) && Written(st, r)
    requires |r.outs| < PUBLISH && RecordedPrefix(w, st.steps, r.outs, r.attempt)
    requires forall k: nat :: k in st.steps <==> k < |r.outs|
    ensures Checkpoints(w, st.steps[|r.outs| := StepRow(r.attempt, OutputDigest(r.pc.output))], st.disk, st.damaged)
  {
    var k: nat := |r.outs|;
    var table := st.steps[k := StepRow(r.attempt, OutputDigest(r.pc.output))];
    forall j: nat | j in table && j < PUBLISH ensures OnDisk(w, table, st.disk, st.damaged, j) {
      if j < k {
        OnDiskAgrees(w, st.steps, table, st.disk, st.damaged, j);
      } else {
        assert RecordedOutputs(table, k + 1) == r.outs + [r.pc.output];
        assert (r.outs + [r.pc.output])[..k] == r.outs;
      }
    }
  }

  lemma RecordStore(w: World, st: Store, id: nat, r: Runner)
    requires StoreInv(w, st) && Fits(w, st, id, r) && Can(w, st, id, r, Record)
    ensures StoreInv(w, Stepped(w, st, id, r, Record))
  {
    RecordingExtends(w, st, id, r);
    RecordSteps(w, st.steps, st.stage, r, r.pc.output);
    RecordCheckpoints(w, st, r);
  }

  lemma ChainAdvances(w: World, outs: seq<Output>, mem: map<nat, Entry>, o: Output, mem': map<nat, Entry>)
    requires Chain(w, outs, mem)
    requires mem' == mem[|outs| := Entry(InputDigest(w, outs), OutputDigest(o), o)]
    ensures Chain(w, outs + [o], mem')
  {
    forall k | 0 <= k <= |outs| ensures k in mem' && mem'[k] == CanonicalEntry(w, outs + [o], k) {
      assert (outs + [o])[..k] == outs[..k];
      if k == |outs| { assert outs[..k] == outs; }
    }
  }

  lemma RecordMemory(w: World, r: Runner)
    requires Shape(w, r) && Memory(w, r) && r.pc.Recording?
    ensures Chain(w, r.outs + [r.pc.output], r.mem) && KeysBelow(r.mem, |r.outs| + 1)
  {
    ChainAdvances(w, r.outs, r.mem, r.pc.output, r.mem[|r.outs| := r.mem[|r.outs|]]);
    assert r.mem == r.mem[|r.outs| := r.mem[|r.outs|]];
  }

  lemma RecordReuse(w: World, st: Store, id: nat, r: Runner)
    requires Shape(w, r) && Reuse(w, r) && Can(w, st, id, r, Record)
    requires forall k: nat :: k < |r.outs| ==> k in r.stored
    ensures Reuse(w, Moved(w, st, id, r, Record))
  {
    hide Produced, DocumentsBound;
    var r' := Moved(w, st, id, r, Record);
    assert forall i :: 0 <= i < |r.outs| ==> r'.executed[i] == r.executed[i];
    assert KeysBelow(r'.stored, |r'.outs|);
  }

  lemma RecordAlone(w: World, st: Store, id: nat, r: Runner)
    requires Alone(w, r) && Can(w, st, id, r, Record)
    requires forall k: nat :: k < |r.outs| ==> k in r.stored
    ensures Alone(w, Moved(w, st, id, r, Record))
  {
    hide Reuse, Chain;
    RecordMemory(w, r);
    RecordReuse(w, st, id, r);
  }

  lemma RecordPrefix(w: World, steps: StepTable, outs: seq<Output>, attempt: nat, o: Output)
    requires RecordedPrefix(w, steps, outs, attempt)
    ensures RecordedPrefix(w, steps[|outs| := StepRow(attempt, OutputDigest(o))], outs + [o], attempt)
  {
  }

  lemma RecordStepTraces(w: World, steps: StepTable, outs: seq<Output>, attempt: nat, o: Output)
    requires StepTraces(steps, attempt, outs) && RecordedPrefix(w, steps, outs, attempt)
    requires forall k: nat :: k in steps <==> k < |outs|
    ensures StepTraces(steps[|outs| := StepRow(attempt, OutputDigest(o))], attempt, outs + [o])
  {
  }

  lemma RecordTraces(w: World, st: Store, id: nat, r: Runner)
    requires Traces(st, r) && Can(w, st, id, r, Record) && |r.outs| < PUBLISH && RecordedPrefix(w, st.steps, r.outs, r.attempt)
    requires forall k: nat :: k in st.steps <==> k < |r.outs|
    ensures Traces(Stepped(w, st, id, r, Record), Moved(w, st, id, r, Record))
    ensures RecordedPrefix(w, Stepped(w, st, id, r, Record).steps, Moved(w, st, id, r, Record).outs, r.attempt)
  {
    hide StepTraces, DiskTraces, RecordedPrefix;
    RecordPrefix(w, st.steps, r.outs, r.attempt, r.pc.output);
    if r.started { RecordStepTraces(w, st.steps, r.outs, r.attempt, r.pc.output); }
  }

  lemma RecordStanding(w: World, st: Store, id: nat, r: Runner)
    requires Row(st) && Shape(w, r) && Standing(w, st, id, r) && Can(w, st, id, r, Record)
    requires r.stored == st.steps && |r.outs| == Next(st.stage) && |r.outs| !in st.steps
    requires RecordedPrefix(w, Stepped(w, st, id, r, Record).steps, Moved(w, st, id, r, Record).outs, r.attempt)
    ensures Standing(w, Stepped(w, st, id, r, Record), id, Moved(w, st, id, r, Record))
  {
    hide RecordedPrefix, Visible, Produced, DocumentsBound;
  }

  lemma RecordOwn(w: World, st: Store, id: nat, r: Runner)
    requires Row(st) && Steps(w, st.steps, st.stage, st.lastStarted) && Fits(w, st, id, r) && Can(w, st, id, r, Record)
    ensures Fits(w, Stepped(w, st, id, r, Record), id, Moved(w, st, id, r, Record))
  {
    hide Row, Shape, Memory, Reuse, Traces, Claims, Sent, Completer, Stepped, Moved, RecordedPrefix, Steps;
    RecordingExtends(w, st, id, r);
    RecordAlone(w, st, id, r);
    RecordTraces(w, st, id, r);
    RecordStanding(w, st, id, r);
  }

  lemma RecordOther(w: World, st: Store, id: nat, r: Runner, i: nat, q: Runner)
    requires Row(st) && Steps(w, st.steps, st.stage, st.lastStarted) && Fits(w, st, id, r) && Can(w, st, id, r, Record)
    requires Fits(w, st, i, q) && i != id && (q.started ==> q.attempt != r.attempt)
    ensures Fits(w, Stepped(w, st, id, r, Record), i, q)
  {
    hide Memory, Produced, DocumentsBound, DiskTraces, DocumentTraces, Compensation, Visible, Steps;
    RecordingExtends(w, st, id, r);
    assert q.started ==> StepTraces(Stepped(w, st, id, r, Record).steps, q.attempt, q.outs);
  }

  // ---- writing a manifest ----

  lemma RecordedFromTraces(steps: StepTable, r: Runner, k: nat)
    requires StepTraces(steps, r.attempt, r.outs) && k in steps && steps[k].manifest == r.attempt && k < PUBLISH
    ensures k < |r.outs| && (forall i: nat :: i <= k ==> i in steps) && RecordedOutputs(steps, k + 1) == r.outs[..k + 1]
  {
  }

  /** Whenever a process writes its manifest, however late, the steps that point to it find their entries. */
  lemma WriteCheckpoints(w: World, st: Store, r: Runner, mem: map<nat, Entry>)
    requires Checkpoints(w, st.steps, st.disk, st.damaged) && StepTraces(st.steps, r.attempt, r.outs) && Chain(w, r.outs, mem)
    ensures Checkpoints(w, st.steps, st.disk[r.attempt := Manifest(w.identity(r.attempt), mem)], st.damaged - {r.attempt})
  {
    var disk := st.disk[r.attempt := Manifest(w.identity(r.attempt), mem)];
    forall k: nat | k in st.steps && k < PUBLISH ensures OnDisk(w, st.steps, disk, st.damaged - {r.attempt}, k) {
      assert OnDisk(w, st.steps, st.disk, st.damaged, k);
      if st.steps[k].manifest == r.attempt {
        RecordedFromTraces(st.steps, r, k);
        assert r.outs[..k + 1][..k] == r.outs[..k];
      }
    }
  }

  lemma WriteShape(w: World, st: Store, id: nat, r: Runner, a: Action)
    requires Shape(w, r) && Reuse(w, r) && Can(w, st, id, r, a) && (a.WriteManifest? || a.WritePublish?)
    ensures Shape(w, Moved(w, st, id, r, a)) && Reuse(w, Moved(w, st, id, r, a))
  {
    hide DocumentsBound, KeysBelow, StoredSteps, ExecutedSuffix;
  }

  lemma WriteMemory(w: World, st: Store, id: nat, r: Runner, a: Action)
    requires Shape(w, r) && Memory(w, r) && Can(w, st, id, r, a) && (a.WriteManifest? || a.WritePublish?)
    ensures Memory(w, Moved(w, st, id, r, a))
  {
    hide DocumentsBound, Validates;
  }

  lemma WriteAlone(w: World, st: Store, id: nat, r: Runner, a: Action)
    requires Alone(w, r) && Can(w, st, id, r, a) && (a.WriteManifest? || a.WritePublish?)
    ensures Alone(w, Moved(w, st, id, r, a))
  {
    hide Shape, Memory, Reuse, Can, Moved;
    WriteShape(w, st, id, r, a);
    WriteMemory(w, st, id, r, a);
  }

  lemma WriteStore(w: World, st: Store, id: nat, r: Runner, a: Action)
    requires StoreInv(w, st) && Fits(w, st, id, r) && Can(w, st, id, r, a) && (a.WriteManifest? || a.WritePublish?)
    ensures StoreInv(w, Stepped(w, st, id, r, a))
  {
    WriteChain(w, st, id, r, a);
    hide Steps, Checkpoints, Documents, Memory, Reuse, Chain, StepTraces, MemAfter, Produced, DocumentsBound;
    WriteCheckpoints(w, st, r, MemAfter(w, st, id, r, a));
  }

  lemma WriteChain(w: World, st: Store, id: nat, r: Runner, a: Action)
    requires Alone(w, r) && Can(w, st, id, r, a) && (a.WriteManifest? || a.WritePublish?)
    ensures Chain(w, r.outs, MemAfter(w, st, id, r, a))
  {
    hide Reuse, Produced, DocumentsBound;
  }

  lemma WriteTraces(w: World, st: Store, id: nat, r: Runner, a: Action)
    requires Memory(w, r) && Shape(w, r) && Traces(st, r) && Can(w, st, id, r, a) && (a.WriteManifest? || a.WritePublish?)
    ensures Traces(Stepped(w, st, id, r, a), Moved(w, st, id, r, a))
  {
  }

  lemma WriteStanding(w: World, st: Store, id: nat, r: Runner, a: Action)
    requires Standing(w, st, id, r) && Can(w, st, id, r, a) && (a.WriteManifest? || a.WritePublish?)
    ensures Standing(w, Stepped(w, st, id, r, a), id, Moved(w, st, id, r, a))
  {
    hide RecordedPrefix, Visible, InputDigest, MemAfter;
  }

  lemma WriteOwn(w: World, st: Store, id: nat, r: Runner, a: Action)
    requires Fits(w, st, id, r) && Can(w, st, id, r, a) && (a.WriteManifest? || a.WritePublish?)
    ensures Fits(w, Stepped(w, st, id, r, a), id, Moved(w, st, id, r, a))
  {
    hide Shape, Memory, Reuse, Traces, Standing, Can, Stepped, Moved;
    WriteAlone(w, st, id, r, a);
    WriteTraces(w, st, id, r, a);
    WriteStanding(w, st, id, r, a);
  }

  lemma WriteOther(w: World, st: Store, id: nat, r: Runner, a: Action, i: nat, q: Runner)
    requires Can(w, st, id, r, a) && (a.WriteManifest? || a.WritePublish?)
    requires Fits(w, st, i, q) && i != id && (q.started ==> q.attempt != r.attempt)
    ensures Fits(w, Stepped(w, st, id, r, a), i, q)
  {
  }

  // ---- resetting ----

  lemma ResetLinks(w: World, st: Store, n: nat, j: nat)
    requires Steps(w, st.steps, st.stage, st.lastStarted) && Checkpoints(w, st.steps, st.disk, st.damaged)
    requires j in Below(st.steps, n) && j < PUBLISH
    ensures StepLinked(w, Below(st.steps, n), j) && OnDisk(w, Below(st.steps, n), st.disk, st.damaged, j)
  {
    hide StepLinked, OnDisk;
    LinkAgrees(w, st.steps, Below(st.steps, n), j);
    OnDiskAgrees(w, st.steps, Below(st.steps, n), st.disk, st.damaged, j);
  }

  lemma ResetTables(w: World, st: Store, n: nat)
    requires Steps(w, st.steps, st.stage, st.lastStarted) && Checkpoints(w, st.steps, st.disk, st.damaged) && n < PUBLISH
    ensures Steps(w, Below(st.steps, n), LatestBelow(st.steps, n), st.lastStarted)
    ensures Checkpoints(w, Below(st.steps, n), st.disk, st.damaged)
  {
    hide StepLinked, OnDisk, LatestBelow;
    LatestBelowPrefix(st.steps, Next(st.stage), n);
    forall j: nat | j in Below(st.steps, n) && j < PUBLISH
      ensures StepLinked(w, Below(st.steps, n), j) && OnDisk(w, Below(st.steps, n), st.disk, st.damaged, j)
    {
      ResetLinks(w, st, n, j);
    }
  }

  lemma ResetStore(w: World, st: Store, id: nat, r: Runner)
    requires StoreInv(w, st) && Shape(w, r) && Can(w, st, id, r, Reset)
    ensures StoreInv(w, Stepped(w, st, id, r, Reset))
  {
    hide Steps, Checkpoints, Disk, Documents, LatestBelow, DocumentsBound, Produced;
    ResetTables(w, st, |r.outs|);
    ResetStage(st.steps, |r.outs|);
  }

  lemma {:induction false} ResetStage(steps: StepTable, n: nat)
    ensures Next(LatestBelow(steps, n)) <= n
  {
    if n > 0 && n - 1 !in steps {
      ResetStage(steps, n - 1);
    }
  }

  lemma ResetTraces(steps: StepTable, n: nat, q: Runner)
    requires StepTraces(steps, q.attempt, q.outs)
    ensures StepTraces(Below(steps, n), q.attempt, q.outs)
  {
  }

  lemma ResetAlone(w: World, st: Store, id: nat, r: Runner)
    requires Alone(w, r) && Can(w, st, id, r, Reset)
    ensures Alone(w, Moved(w, st, id, r, Reset))
  {
    assert StoredSteps(w, Below(r.stored, |r.outs|), r.attempt, |r.outs|);
  }

  lemma ResetOwn(w: World, st: Store, id: nat, r: Runner)
    requires Row(st) && Fits(w, st, id, r) && Can(w, st, id, r, Reset)
    ensures Fits(w, Stepped(w, st, id, r, Reset), id, Moved(w, st, id, r, Reset))
  {
    ResetAlone(w, st, id, r);
    ResetTraces(st.steps, |r.outs|, r);
    assert RecordedPrefix(w, Below(st.steps, |r.outs|), r.outs, r.attempt);
  }

  lemma ResetOther(w: World, st: Store, id: nat, r: Runner, i: nat, q: Runner)
    requires Row(st) && Can(w, st, id, r, Reset)
    requires Fits(w, st, i, q) && i != id
    ensures Fits(w, Stepped(w, st, id, r, Reset), i, q)
  {
    if q.started { ResetTraces(st.steps, |r.outs|, q); }
  }

  // ---- deciding ----

  /** What is reused was recorded by an earlier attempt, and it is never the indexing stage. */
  lemma DecideGuided(w: World, st: Store, id: nat, r: Runner, b: bool)
    requires Alone(w, r) && Traces(st, r) && Can(w, st, id, r, Decide(b)) && Reusable(w, st, r, b)
    ensures |r.outs| in r.stored && |r.outs| != INDEXING
  {
    if |r.outs| in r.stored && |r.outs| == INDEXING {
      DecideIndexing(w, st, r, b);
    }
  }

  lemma BoundOnce(w: World, a: nat, b: nat, documents: seq<Document>)
    requires DocumentsBound(w, a, documents) && DocumentsBound(w, b, documents)
    ensures a == b
  {
    assert OwnedBy(documents[0], w.assetId, w.jobId, a);
  }

  lemma DecideIndexing(w: World, st: Store, r: Runner, b: bool)
    requires StoredSteps(w, r.stored, r.attempt, |r.outs|) && |r.outs| == INDEXING && INDEXING in r.stored
    ensures !Reusable(w, st, r, b)
  {
    if Reusable(w, st, r, b) {
      BoundOnce(w, r.attempt, r.stored[INDEXING].manifest, r.stored[INDEXING].checksum.output.documents);
    }
  }

  lemma ReuseAlone(w: World, st: Store, id: nat, r: Runner, b: bool)
    requires Alone(w, r) && Can(w, st, id, r, Decide(b)) && Reusable(w, st, r, b)
    requires |r.outs| in r.stored && |r.outs| != INDEXING
    ensures Alone(w, Moved(w, st, id, r, Decide(b)))
  {
    var r' := Moved(w, st, id, r, Decide(b));
    ChainAdvances(w, r.outs, r.mem, st.disk[Candidate(r)].stages[|r.outs|].output, r'.mem);
    assert forall i :: 0 <= i < |r.outs| ==> r'.executed[i] == r.executed[i];
    assert true !in r.executed;
  }

  lemma ReuseTraces(w: World, st: Store, id: nat, r: Runner, b: bool)
    requires Traces(st, r) && KeysBelow(r.mem, MemBound(r)) && |r.outs| < PUBLISH
    requires Can(w, st, id, r, Decide(b)) && Reusable(w, st, r, b) && |r.outs| in r.stored
    ensures Traces(st, Moved(w, st, id, r, Decide(b)))
  {
    hide Reusable, Validates;
    var r' := Moved(w, st, id, r, Decide(b));
    assert r.started ==> StepTraces(st.steps, r'.attempt, r'.outs) && DiskTraces(st.disk, r'.attempt, r'.mem);
  }

  lemma ReusePrefix(w: World, st: Store, r: Runner, b: bool)
    requires Disk(w, st.disk, st.lastStarted) && RecordedPrefix(w, st.steps, r.outs, r.attempt) && r.stored == st.steps
    requires Reusable(w, st, r, b) && |r.outs| in r.stored
    ensures RecordedPrefix(w, st.steps, r.outs + [st.disk[Candidate(r)].stages[|r.outs|].output], r.attempt)
  {
    hide Validates;
  }

  lemma ReuseStanding(w: World, st: Store, id: nat, r: Runner, b: bool)
    requires Disk(w, st.disk, st.lastStarted) && Standing(w, st, id, r)
    requires Can(w, st, id, r, Decide(b)) && Reusable(w, st, r, b) && |r.outs| in r.stored
    ensures Stepped(w, st, id, r, Decide(b)) == st
    ensures Standing(w, st, id, Moved(w, st, id, r, Decide(b)))
  {
    hide Visible, MemAfter, RecordedPrefix, Reusable, Disk;
    if Holds(st, id) {
      ReusePrefix(w, st, r, b);
    }
  }

  lemma ReuseOwn(w: World, st: Store, id: nat, r: Runner, b: bool)
    requires Disk(w, st.disk, st.lastStarted) && Fits(w, st, id, r) && Can(w, st, id, r, Decide(b)) && Reusable(w, st, r, b)
    ensures Fits(w, Stepped(w, st, id, r, Decide(b)), id, Moved(w, st, id, r, Decide(b)))
  {
    hide Disk, Can, Stepped, Moved, Reusable, Shape, Memory, Reuse, Traces, Standing;
    DecideGuided(w, st, id, r, b);
    DecideBounds(w, st, id, r, b);
    ReuseAlone(w, st, id, r, b);
    ReuseTraces(w, st, id, r, b);
    ReuseStanding(w, st, id, r, b);
  }

  lemma DecideBounds(w: World, st: Store, id: nat, r: Runner, b: bool)
    requires Alone(w, r) && Can(w, st, id, r, Decide(b))
    ensures KeysBelow(r.mem, MemBound(r)) && |r.outs| < PUBLISH
  {
  }

  lemma RedoMemory(w: World, r: Runner)
    requires Shape(w, r) && Memory(w, r) && r.pc.Deciding? && |r.outs| < PUBLISH
    ensures Below(r.mem, |r.outs|) == r.mem
  {
    hide Chain, Produced, DocumentsBound;
  }

  lemma RedoAlone(w: World, st: Store, id: nat, r: Runner, b: bool)
    requires Alone(w, r) && Can(w, st, id, r, Decide(b)) && !Reusable(w, st, r, b)
    ensures Alone(w, Moved(w, st, id, r, Decide(b)))
    ensures Moved(w, st, id, r, Decide(b)).mem == r.mem
  {
    hide Reusable, Chain, Below, Produced, DocumentsBound;
    RedoMemory(w, r);
  }

  lemma RedoOwn(w: World, st: Store, id: nat, r: Runner, b: bool)
    requires Fits(w, st, id, r) && Can(w, st, id, r, Decide(b)) && !Reusable(w, st, r, b)
    ensures Fits(w, Stepped(w, st, id, r, Decide(b)), id, Moved(w, st, id, r, Decide(b)))
  {
    RedoAlone(w, st, id, r, b);
  }

  lemma DecideOwn(w: World, st: Store, id: nat, r: Runner, b: bool)
    requires Disk(w, st.disk, st.lastStarted) && Fits(w, st, id, r) && Can(w, st, id, r, Decide(b))
    ensures Fits(w, Stepped(w, st, id, r, Decide(b)), id, Moved(w, st, id, r, Decide(b)))
  {
    hide Disk, Fits, Can, Stepped, Moved, Reusable;
    if Reusable(w, st, r, b) { ReuseOwn(w, st, id, r, b); } else { RedoOwn(w, st, id, r, b); }
  }

  // ---- publication ----

  lemma ProjectStore(w: World, st: Store, id: nat, r: Runner, b: bool)
    requires StoreInv(w, st) && Shape(w, r) && Claims(w, st, id, r) && Can(w, st, id, r, ProjectDocument(b))
    ensures StoreInv(w, Stepped(w, st, id, r, ProjectDocument(b)))
  {
  }

  lemma ProjectAlone(w: World, st: Store, id: nat, r: Runner, b: bool)
    requires Alone(w, r) && Can(w, st, id, r, ProjectDocument(b))
    ensures Alone(w, Moved(w, st, id, r, ProjectDocument(b)))
  {
  }

  lemma ProjectSent(w: World, st: Store, id: nat, r: Runner, b: bool)
    requires Documents(st.docs, st.lastStarted) && Shape(w, r) && Claims(w, st, id, r) && Row(st)
    requires Sent(st, id, r) && Can(w, st, id, r, ProjectDocument(b))
    ensures Sent(Stepped(w, st, id, r, ProjectDocument(b)), id, Moved(w, st, id, r, ProjectDocument(b)))
  {
    hide Produced, ValidDocument;
    var documents, n := r.outs[INDEXING].documents, r.pc.sent;
    if Holds(st, id) && !st.cancelRequested && !r.pc.refused && b {
      VisibleOneMore(w, st, documents, n, r.attempt);
    }
  }

  lemma VisibleOneMore(w: World, st: Store, documents: seq<Document>, n: nat, attempt: nat)
    requires Documents(st.docs, st.lastStarted) && DocumentsBound(w, attempt, documents) && st.lastStarted <= attempt
    requires n < |documents| && Visible(st.docs, documents, n)
    ensures Visible(Upsert(st.docs, documents[n], attempt), documents, n + 1)
  {
  }

  lemma ProjectTraces(w: World, st: Store, id: nat, r: Runner, b: bool)
    requires Documents(st.docs, st.lastStarted) && Shape(w, r) && Traces(st, r) && Can(w, st, id, r, ProjectDocument(b))
    ensures Traces(Stepped(w, st, id, r, ProjectDocument(b)), Moved(w, st, id, r, ProjectDocument(b)))
  {
    hide StepTraces, DiskTraces;
    assert DocumentTraces(Stepped(w, st, id, r, ProjectDocument(b)).docs, Moved(w, st, id, r, ProjectDocument(b)));
  }

  lemma ProjectStanding(w: World, st: Store, id: nat, r: Runner, b: bool)
    requires Row(st) && Documents(st.docs, st.lastStarted) && Shape(w, r) && Standing(w, st, id, r)
    requires Can(w, st, id, r, ProjectDocument(b))
    ensures Standing(w, Stepped(w, st, id, r, ProjectDocument(b)), id, Moved(w, st, id, r, ProjectDocument(b)))
  {
    hide Sent, Visible, RecordedPrefix, DocumentsBound, Documents, Upsert;
    ProjectSent(w, st, id, r, b);
  }

  lemma ProjectOwn(w: World, st: Store, id: nat, r: Runner, b: bool)
    requires Row(st) && Documents(st.docs, st.lastStarted) && Fits(w, st, id, r) && Can(w, st, id, r, ProjectDocument(b))
    ensures Fits(w, Stepped(w, st, id, r, ProjectDocument(b)), id, Moved(w, st, id, r, ProjectDocument(b)))
  {
    hide Row, Documents, Shape, Memory, Reuse, Traces, Standing, Can, Stepped, Moved;
    ProjectAlone(w, st, id, r, b);
    ProjectTraces(w, st, id, r, b);
    ProjectStanding(w, st, id, r, b);
  }

  lemma OwnDocuments(w: World, q: Runner)
    requires Shape(w, q) && |q.outs| == PUBLISH
    ensures forall i :: 0 <= i < |q.outs[INDEXING].documents| ==> q.outs[INDEXING].documents[i].jobAttempt == q.attempt
  {
    hide Produced;
    forall i | 0 <= i < |q.outs[INDEXING].documents| ensures q.outs[INDEXING].documents[i].jobAttempt == q.attempt {
      assert OwnedBy(q.outs[INDEXING].documents[i], w.assetId, w.jobId, q.attempt);
    }
  }

  lemma ProjectForeign(w: World, st: Store, id: nat, r: Runner, b: bool, i: nat, q: Runner)
    requires Row(st) && Shape(w, r) && Claims(w, st, id, r) && Can(w, st, id, r, ProjectDocument(b))
    requires Shape(w, q) && Claims(w, st, i, q) && Sent(st, i, q) && Completer(w, st, i, q)
    requires i != id && (q.started ==> q.attempt != r.attempt)
    ensures Sent(Stepped(w, st, id, r, ProjectDocument(b)), i, q)
    ensures Completer(w, Stepped(w, st, id, r, ProjectDocument(b)), i, q)
  {
    hide Produced, RecordedPrefix;
  }

  lemma ProjectForeignTraces(w: World, st: Store, id: nat, r: Runner, b: bool, q: Runner)
    requires Shape(w, r) && Can(w, st, id, r, ProjectDocument(b)) && Traces(st, q) && (q.started ==> q.attempt != r.attempt)
    ensures Traces(Stepped(w, st, id, r, ProjectDocument(b)), q)
  {
    hide StepTraces, DiskTraces, Produced, Upsert;
    if q.started { ProjectOthersDocuments(w, st.docs, r, r.outs[INDEXING].documents[r.pc.sent], q); }
  }

  lemma ProjectOthersDocuments(w: World, docs: Index, r: Runner, d: Document, q: Runner)
    requires Shape(w, r) && |r.outs| == PUBLISH && d in r.outs[INDEXING].documents && q.attempt != r.attempt
    ensures DocumentTraces(docs, q) ==> DocumentTraces(Upsert(docs, d, r.attempt), q)
    ensures Compensation(docs, q) ==> Compensation(Upsert(docs, d, r.attempt), q)
  {
    hide Produced;
    OwnDocuments(w, r);
  }

  /** A document of the current or the completing attempt is of a higher attempt than any other writer's. */
  lemma ProjectOther(w: World, st: Store, id: nat, r: Runner, b: bool, i: nat, q: Runner)
    requires Row(st) && Shape(w, r) && Claims(w, st, id, r) && Can(w, st, id, r, ProjectDocument(b))
    requires Fits(w, st, i, q) && i != id && (q.started ==> q.attempt != r.attempt)
    ensures Fits(w, Stepped(w, st, id, r, ProjectDocument(b)), i, q)
  {
    hide Row, Shape, Memory, Reuse, Traces, Sent, Completer, RecordedPrefix, Upsert;
    ProjectForeign(w, st, id, r, b, i, q);
    ProjectForeignTraces(w, st, id, r, b, q);
  }

  lemma CompleteTables(w: World, st: Store, row: StepRow)
    requires Steps(w, st.steps, st.stage, st.lastStarted) && Checkpoints(w, st.steps, st.disk, st.damaged)
    requires Next(st.stage) == PUBLISH && 1 <= row.manifest == st.lastStarted
    ensures Steps(w, st.steps[PUBLISH := row], Some(PUBLISH), st.lastStarted)
    ensures Checkpoints(w, st.steps[PUBLISH := row], st.disk, st.damaged)
  {
    var table := st.steps[PUBLISH := row];
    forall j: nat | j in table && j < PUBLISH
      ensures StepLinked(w, table, j) && OnDisk(w, table, st.disk, st.damaged, j)
    {
      LinkAgrees(w, st.steps, table, j);
      OnDiskAgrees(w, st.steps, table, st.disk, st.damaged, j);
    }
  }

  lemma CompleteStore(w: World, st: Store, id: nat, r: Runner)
    requires StoreInv(w, st) && Shape(w, r) && Claims(w, st, id, r) && Can(w, st, id, r, Complete)
    ensures StoreInv(w, Stepped(w, st, id, r, Complete))
  {
    assert (PUBLISH - 1) as nat in st.steps;
    CompleteTables(w, st, StepRow(r.attempt, r.mem[PUBLISH].checksum));
  }

  lemma CompleteAlone(w: World, st: Store, id: nat, r: Runner)
    requires Alone(w, r) && Traces(st, r) && Can(w, st, id, r, Complete)
    ensures Alone(w, Moved(w, st, id, r, Complete)) && Traces(Stepped(w, st, id, r, Complete), Moved(w, st, id, r, Complete))
  {
  }

  lemma CompleteStanding(w: World, st: Store, id: nat, r: Runner)
    requires Row(st) && Shape(w, r) && Standing(w, st, id, r) && Can(w, st, id, r, Complete)
    ensures Standing(w, Stepped(w, st, id, r, Complete), id, Moved(w, st, id, r, Complete))
  {
    hide DocumentsBound, Visible;
  }

  lemma CompleteOwn(w: World, st: Store, id: nat, r: Runner)
    requires Row(st) && Fits(w, st, id, r) && Can(w, st, id, r, Complete)
    ensures Fits(w, Stepped(w, st, id, r, Complete), id, Moved(w, st, id, r, Complete))
  {
    hide Row, Shape, Memory, Reuse, Traces, Standing, Can, Stepped, Moved;
    CompleteAlone(w, st, id, r);
    CompleteStanding(w, st, id, r);
  }

  lemma CompleteOther(w: World, st: Store, id: nat, r: Runner, i: nat, q: Runner)
    requires Row(st) && Claims(w, st, id, r) && Can(w, st, id, r, Complete)
    requires Fits(w, st, i, q) && i != id
    ensures Fits(w, Stepped(w, st, id, r, Complete), i, q)
  {
  }

  lemma RemoveStore(w: World, st: Store, id: nat, r: Runner, d: SegmentId)
    requires StoreInv(w, st) && Can(w, st, id, r, RemoveDocument(d))
    ensures StoreInv(w, Stepped(w, st, id, r, RemoveDocument(d)))
  {
  }

  lemma RemoveAlone(w: World, st: Store, id: nat, r: Runner, d: SegmentId)
    requires Alone(w, r) && Can(w, st, id, r, RemoveDocument(d))
    ensures Alone(w, Moved(w, st, id, r, RemoveDocument(d)))
  {
  }

  lemma RemoveTraces(w: World, st: Store, id: nat, r: Runner, d: SegmentId)
    requires Traces(st, r) && Shape(w, r) && Can(w, st, id, r, RemoveDocument(d))
    ensures Traces(Stepped(w, st, id, r, RemoveDocument(d)), Moved(w, st, id, r, RemoveDocument(d)))
  {
  }

  lemma RemoveStanding(w: World, st: Store, id: nat, r: Runner, d: SegmentId)
    requires Standing(w, st, id, r) && Can(w, st, id, r, RemoveDocument(d))
    requires r.interrupted || !IsCompleter(st, id)
    ensures Standing(w, Stepped(w, st, id, r, RemoveDocument(d)), id, Moved(w, st, id, r, RemoveDocument(d)))
  {
    hide RecordedPrefix, Visible, RemoveOwned;
  }

  lemma RemoveOwn(w: World, st: Store, id: nat, r: Runner, d: SegmentId)
    requires Fits(w, st, id, r) && Can(w, st, id, r, RemoveDocument(d))
    ensures Fits(w, Stepped(w, st, id, r, RemoveDocument(d)), id, Moved(w, st, id, r, RemoveDocument(d)))
  {
    hide Shape, Memory, Reuse, Traces, Claims, Current, Sent, Stepped, Moved, Visible, RecordedPrefix;
    RemoveAlone(w, st, id, r, d);
    RemoveTraces(w, st, id, r, d);
    RemoveStanding(w, st, id, r, d);
  }

  /** A process that removes documents while another one holds or completed the job is of another attempt than that one. */
  lemma RemoverApart(w: World, st: Store, id: nat, r: Runner, d: SegmentId, i: nat, q: Runner)
    requires Row(st) && Shape(w, r) && Claims(w, st, id, r) && Can(w, st, id, r, RemoveDocument(d))
    requires Shape(w, q) && Claims(w, st, i, q) && Completer(w, st, i, q)
    requires i != id && (q.started && r.started ==> q.attempt != r.attempt)
    requires (Holds(st, i) && !st.cancelRequested && Publishing(q.pc)) || IsCompleter(st, i)
    ensures r.attempt != q.attempt
  {
    hide DocumentsBound, RecordedPrefix, Visible, Produced;
  }

  lemma RemoveKeepsVisible(w: World, docs: Index, d: SegmentId, attempt: nat, documents: seq<Document>, n: nat, own: nat)
    requires Visible(docs, documents, n) && attempt != own
    requires forall i :: 0 <= i < |documents| ==> documents[i].jobAttempt == own
    ensures Visible(RemoveOwned(docs, d, w.assetId, w.jobId, attempt), documents, n)
  {
  }

  lemma RemoveSent(w: World, st: Store, id: nat, r: Runner, d: SegmentId, i: nat, q: Runner)
    requires Row(st) && Shape(w, r) && Claims(w, st, id, r) && Can(w, st, id, r, RemoveDocument(d))
    requires Shape(w, q) && Claims(w, st, i, q) && Sent(st, i, q) && Completer(w, st, i, q)
    requires i != id && (q.started && r.started ==> q.attempt != r.attempt)
    ensures Sent(Stepped(w, st, id, r, RemoveDocument(d)), i, q)
  {
    hide Row, Shape, Claims, Visible, Completer, RemoveOwned;
    if Holds(st, i) && !st.cancelRequested && Publishing(q.pc) && |q.outs| == PUBLISH && (q.pc.Projecting? ==> !q.pc.refused) {
      RemoverApart(w, st, id, r, d, i, q);
      OwnDocuments(w, q);
      RemoveKeepsVisible(w, st.docs, d, r.attempt, q.outs[INDEXING].documents, SentCount(q), q.attempt);
    }
  }

  lemma RemoveCompleter(w: World, st: Store, id: nat, r: Runner, d: SegmentId, i: nat, q: Runner)
    requires Row(st) && Shape(w, r) && Claims(w, st, id, r) && Can(w, st, id, r, RemoveDocument(d))
    requires Shape(w, q) && Claims(w, st, i, q) && Completer(w, st, i, q)
    requires i != id && (q.started && r.started ==> q.attempt != r.attempt)
    ensures Completer(w, Stepped(w, st, id, r, RemoveDocument(d)), i, q)
  {
    hide Row, Shape, Claims, Visible, RecordedPrefix, RemoveOwned;
    if IsCompleter(st, i) && !q.interrupted && !st.projectionDeleted {
      RemoverApart(w, st, id, r, d, i, q);
      OwnDocuments(w, q);
      var documents := q.outs[INDEXING].documents;
      RemoveKeepsVisible(w, st.docs, d, r.attempt, documents, |documents|, q.attempt);
    }
  }

  /** Only its own process and a clean-up of the same attempt remove documents of an attempt. */
  lemma RemoveOther(w: World, st: Store, id: nat, r: Runner, d: SegmentId, i: nat, q: Runner)
    requires Row(st) && Shape(w, r) && Claims(w, st, id, r) && Can(w, st, id, r, RemoveDocument(d))
    requires Fits(w, st, i, q) && i != id && (q.started && r.started ==> q.attempt != r.attempt)
    ensures Fits(w, Stepped(w, st, id, r, RemoveDocument(d)), i, q)
  {
    hide Row, Shape, Memory, Reuse, Sent, Completer, RecordedPrefix;
    RemoveSent(w, st, id, r, d, i, q);
    RemoveCompleter(w, st, id, r, d, i, q);
  }

  // ---- the row and the control of a process ----

  predicate OnRow(a: Action) {
    a.Renew? || a.RenewCleanup? || a.Release? || a.ScheduleRetry? || a.MarkFailed? || a.FinishCancel? || a.Start?
  }

  lemma LastGrows(w: World, st: Store, last: nat)
    requires StoreInv(w, st) && st.lastStarted <= last
    ensures Steps(w, st.steps, st.stage, last) && Disk(w, st.disk, last) && Documents(st.docs, last)
  {
    hide StepLinked, Checkpoints, Row;
  }

  lemma RowOnly(w: World, st: Store, id: nat, r: Runner, a: Action)
    requires Row(st) && Shape(w, r) && Claims(w, st, id, r) && Can(w, st, id, r, a) && OnRow(a)
    ensures var t := Stepped(w, st, id, r, a); Row(t) && SameTables(st.(lastStarted := t.lastStarted), t) && st.lastStarted <= t.lastStarted
  {
    hide Moved, MemAfter, Produced, DocumentsBound;
  }

  lemma RowStore(w: World, st: Store, id: nat, r: Runner, a: Action)
    requires StoreInv(w, st) && Shape(w, r) && Claims(w, st, id, r) && Can(w, st, id, r, a) && OnRow(a)
    ensures StoreInv(w, Stepped(w, st, id, r, a))
  {
    hide Row, Steps, Disk, Checkpoints, Documents, Shape, Claims, Can, Stepped;
    RowOnly(w, st, id, r, a);
    LastGrows(w, st, Stepped(w, st, id, r, a).lastStarted);
  }

  lemma LeaseAlone(w: World, st: Store, id: nat, r: Runner, a: Action)
    requires Alone(w, r) && Can(w, st, id, r, a) && (a.Renew? || a.RenewCleanup? || a.Start?)
    ensures Alone(w, Moved(w, st, id, r, a))
  {
    hide Produced, DocumentsBound, Chain;
  }

  lemma LeaseRest(w: World, st: Store, id: nat, r: Runner, a: Action)
    requires StoreInv(w, st) && Shape(w, r) && Traces(st, r) && Standing(w, st, id, r)
    requires Can(w, st, id, r, a) && (a.Renew? || a.RenewCleanup? || a.Start?)
    ensures Traces(Stepped(w, st, id, r, a), Moved(w, st, id, r, a))
    ensures Standing(w, Stepped(w, st, id, r, a), id, Moved(w, st, id, r, a))
  {
    hide RecordedPrefix, Visible, Produced, DocumentsBound, Checkpoints;
  }

  lemma LeaseOwn(w: World, st: Store, id: nat, r: Runner, a: Action)
    requires StoreInv(w, st) && Fits(w, st, id, r) && Can(w, st, id, r, a) && (a.Renew? || a.RenewCleanup? || a.Start?)
    ensures Fits(w, Stepped(w, st, id, r, a), id, Moved(w, st, id, r, a))
  {
    hide StoreInv, Shape, Memory, Reuse, Traces, Standing, Can, Stepped, Moved;
    LeaseAlone(w, st, id, r, a);
    LeaseRest(w, st, id, r, a);
  }

  lemma LeavingRest(w: World, st: Store, id: nat, r: Runner, a: Action)
    requires Row(st) && Shape(w, r) && Traces(st, r) && Standing(w, st, id, r) && Can(w, st, id, r, a)
    requires a.Release? || a.ScheduleRetry? || a.MarkFailed? || a.FinishCancel?
    ensures Traces(Stepped(w, st, id, r, a), Moved(w, st, id, r, a))
    ensures Standing(w, Stepped(w, st, id, r, a), id, Moved(w, st, id, r, a))
  {
    hide RecordedPrefix, Visible, Produced, DocumentsBound, StepTraces, DiskTraces;
  }

  lemma LeavingAlone(w: World, st: Store, id: nat, r: Runner, a: Action)
    requires Alone(w, r) && Claims(w, st, id, r) && Can(w, st, id, r, a)
    requires a.Release? || a.ScheduleRetry? || a.MarkFailed? || a.FinishCancel?
    ensures Alone(w, Moved(w, st, id, r, a))
  {
    hide Produced, DocumentsBound, Chain;
    assert LeaseLive(st, id, r);
  }

  lemma LeavingOwn(w: World, st: Store, id: nat, r: Runner, a: Action)
    requires StoreInv(w, st) && Fits(w, st, id, r) && Can(w, st, id, r, a)
    requires a.Release? || a.ScheduleRetry? || a.MarkFailed? || a.FinishCancel?
    ensures Fits(w, Stepped(w, st, id, r, a), id, Moved(w, st, id, r, a))
  {
    hide Row, Steps, Checkpoints, Disk, Documents, Shape, Memory, Reuse, Traces, Claims, Current, Sent, Completer, Can, Stepped, Moved;
    LeavingAlone(w, st, id, r, a);
    LeavingRest(w, st, id, r, a);
  }

  lemma RowOwn(w: World, st: Store, id: nat, r: Runner, a: Action)
    requires StoreInv(w, st) && Fits(w, st, id, r) && Can(w, st, id, r, a) && OnRow(a)
    ensures Fits(w, Stepped(w, st, id, r, a), id, Moved(w, st, id, r, a))
  {
    hide StoreInv, Fits, Can, Stepped, Moved;
    if a.Renew? || a.RenewCleanup? || a.Start? { LeaseOwn(w, st, id, r, a); } else { LeavingOwn(w, st, id, r, a); }
  }

  lemma RowClaims(w: World, st: Store, id: nat, r: Runner, a: Action, i: nat, q: Runner)
    requires Row(st) && Claims(w, st, id, r) && Can(w, st, id, r, a) && OnRow(a) && Claims(w, st, i, q) && i != id
    ensures Claims(w, Stepped(w, st, id, r, a), i, q)
  {
    hide Moved, MemAfter;
  }

  lemma RowStanding(w: World, st: Store, id: nat, r: Runner, a: Action, i: nat, q: Runner)
    requires Row(st) && Shape(w, r) && Claims(w, st, id, r) && Can(w, st, id, r, a) && OnRow(a)
    requires Shape(w, q) && Standing(w, st, i, q) && i != id
    ensures Standing(w, Stepped(w, st, id, r, a), i, q)
  {
    hide Shape, Claims, RecordedPrefix, Visible, Moved, MemAfter;
    RowClaims(w, st, id, r, a, i, q);
  }

  lemma RowTraces(w: World, st: Store, id: nat, r: Runner, a: Action, q: Runner)
    requires Traces(st, q) && Can(w, st, id, r, a) && OnRow(a)
    ensures Traces(Stepped(w, st, id, r, a), q)
  {
    hide StepTraces, DiskTraces, DocumentTraces, Compensation;
  }

  lemma RowOther(w: World, st: Store, id: nat, r: Runner, a: Action, i: nat, q: Runner)
    requires Row(st) && Shape(w, r) && Claims(w, st, id, r) && Can(w, st, id, r, a) && OnRow(a)
    requires Fits(w, st, i, q) && i != id
    ensures Fits(w, Stepped(w, st, id, r, a), i, q)
  {
    hide Row, Shape, Memory, Reuse, Traces, Standing, Claims, Can, Stepped;
    RowStanding(w, st, id, r, a, i, q);
    RowTraces(w, st, id, r, a, q);
  }

  predicate Ending(a: Action) {
    a.Refuse? || a.Die? || a.Return? || a.EndRollback? || a.EndCleanup?
  }

  predicate Compensating(a: Action) {
    a.SawCancel? || a.Interrupt? || a.Fail?
  }

  predicate Advancing(a: Action) {
    a.Fence? || a.Execute? || a.BeginPublish? || a.Acknowledge?
  }

  lemma EndingAlone(w: World, st: Store, id: nat, r: Runner, a: Action)
    requires Alone(w, r) && Can(w, st, id, r, a) && Ending(a)
    ensures Alone(w, Moved(w, st, id, r, a))
  {
  }

  lemma ClosingTraces(w: World, st: Store, id: nat, r: Runner, a: Action)
    requires Traces(st, r) && Can(w, st, id, r, a) && (a.EndRollback? || a.EndCleanup?)
    ensures Traces(Stepped(w, st, id, r, a), Moved(w, st, id, r, a))
  {
    hide StepTraces, DiskTraces;
  }

  lemma ClosingStanding(w: World, st: Store, id: nat, r: Runner, a: Action)
    requires Row(st) && Standing(w, st, id, r) && Can(w, st, id, r, a) && (a.EndRollback? || a.EndCleanup?)
    ensures Standing(w, Stepped(w, st, id, r, a), id, Moved(w, st, id, r, a))
  {
    hide RecordedPrefix, Visible;
  }

  lemma ClosingOwn(w: World, st: Store, id: nat, r: Runner, a: Action)
    requires Row(st) && Fits(w, st, id, r) && Can(w, st, id, r, a) && (a.EndRollback? || a.EndCleanup?)
    ensures Fits(w, Stepped(w, st, id, r, a), id, Moved(w, st, id, r, a))
  {
    hide Row, Shape, Memory, Reuse, Traces, Standing, Can, Stepped, Moved;
    EndingAlone(w, st, id, r, a);
    ClosingTraces(w, st, id, r, a);
    ClosingStanding(w, st, id, r, a);
  }

  lemma StoppingRest(w: World, st: Store, id: nat, r: Runner, a: Action)
    requires Row(st) && Traces(st, r) && Standing(w, st, id, r) && Can(w, st, id, r, a) && (a.Refuse? || a.Die? || a.Return?)
    ensures Traces(Stepped(w, st, id, r, a), Moved(w, st, id, r, a))
    ensures Standing(w, Stepped(w, st, id, r, a), id, Moved(w, st, id, r, a))
  {
    hide RecordedPrefix, Visible, StepTraces, DiskTraces;
  }

  lemma StoppingOwn(w: World, st: Store, id: nat, r: Runner, a: Action)
    requires Row(st) && Fits(w, st, id, r) && Can(w, st, id, r, a) && (a.Refuse? || a.Die? || a.Return?)
    ensures Fits(w, Stepped(w, st, id, r, a), id, Moved(w, st, id, r, a))
  {
    hide Row, Shape, Memory, Reuse, Traces, Standing, Can, Stepped, Moved;
    EndingAlone(w, st, id, r, a);
    StoppingRest(w, st, id, r, a);
  }

  /** Ending a run, in whatever state it is, leaves its traces as they are. */
  lemma EndingOwn(w: World, st: Store, id: nat, r: Runner, a: Action)
    requires Row(st) && Fits(w, st, id, r) && Can(w, st, id, r, a) && Ending(a)
    ensures Fits(w, Stepped(w, st, id, r, a), id, Moved(w, st, id, r, a))
  {
    hide Row, Fits, Can, Stepped, Moved;
    if a.EndRollback? || a.EndCleanup? { ClosingOwn(w, st, id, r, a); } else { StoppingOwn(w, st, id, r, a); }
  }

  lemma CompensatingAlone(w: World, st: Store, id: nat, r: Runner, a: Action)
    requires Alone(w, r) && Can(w, st, id, r, a) && Compensating(a)
    requires r.interrupted ==> !Holds(st, id)
    ensures Alone(w, Moved(w, st, id, r, a))
  {
  }

  lemma SawCancelOwn(w: World, st: Store, id: nat, r: Runner)
    requires Row(st) && Fits(w, st, id, r) && Can(w, st, id, r, SawCancel)
    ensures Fits(w, Stepped(w, st, id, r, SawCancel), id, Moved(w, st, id, r, SawCancel))
  {
    CompensatingAlone(w, st, id, r, SawCancel);
  }

  lemma FailAlone(w: World, st: Store, id: nat, r: Runner, retryable: bool)
    requires Alone(w, r) && Claims(w, st, id, r) && Can(w, st, id, r, Fail(retryable))
    ensures Alone(w, Moved(w, st, id, r, Fail(retryable)))
  {
    CompensatingAlone(w, st, id, r, Fail(retryable));
  }

  lemma FailTraces(w: World, st: Store, id: nat, r: Runner, retryable: bool)
    requires Traces(st, r) && Can(w, st, id, r, Fail(retryable))
    ensures Traces(Stepped(w, st, id, r, Fail(retryable)), Moved(w, st, id, r, Fail(retryable)))
  {
  }

  lemma FailRest(w: World, st: Store, id: nat, r: Runner, retryable: bool)
    requires Row(st) && Claims(w, st, id, r) && Completer(w, st, id, r) && Can(w, st, id, r, Fail(retryable))
    ensures Stepped(w, st, id, r, Fail(retryable)) == st
    ensures Claims(w, st, id, Moved(w, st, id, r, Fail(retryable)))
    ensures Current(w, st, id, Moved(w, st, id, r, Fail(retryable)))
    ensures Sent(st, id, Moved(w, st, id, r, Fail(retryable)))
    ensures Completer(w, st, id, Moved(w, st, id, r, Fail(retryable)))
  {
    hide RecordedPrefix, Visible;
  }

  lemma FailOwn(w: World, st: Store, id: nat, r: Runner, retryable: bool)
    requires Row(st) && Fits(w, st, id, r) && Can(w, st, id, r, Fail(retryable))
    ensures Fits(w, Stepped(w, st, id, r, Fail(retryable)), id, Moved(w, st, id, r, Fail(retryable)))
  {
    hide Can, Stepped, Moved, Alone, Traces, Claims, Current, Sent, Completer;
    FailAlone(w, st, id, r, retryable);
    FailTraces(w, st, id, r, retryable);
    FailRest(w, st, id, r, retryable);
  }

  lemma InterruptOwn(w: World, st: Store, id: nat, r: Runner)
    requires Row(st) && Fits(w, st, id, r) && Can(w, st, id, r, Interrupt)
    ensures Fits(w, Stepped(w, st, id, r, Interrupt), id, Moved(w, st, id, r, Interrupt))
  {
    CompensatingAlone(w, st, id, r, Interrupt);
  }

  lemma AdvancingAlone(w: World, st: Store, id: nat, r: Runner, a: Action)
    requires Alone(w, r) && Can(w, st, id, r, a) && Advancing(a)
    ensures Alone(w, Moved(w, st, id, r, a))
  {
  }

  lemma ExecuteOwn(w: World, st: Store, id: nat, r: Runner, a: Action)
    requires Row(st) && Fits(w, st, id, r) && Can(w, st, id, r, a) && a.Execute?
    ensures Fits(w, Stepped(w, st, id, r, a), id, Moved(w, st, id, r, a))
  {
    AdvancingAlone(w, st, id, r, a);
  }

  lemma PassingTraces(w: World, st: Store, id: nat, r: Runner, a: Action)
    requires Traces(st, r) && Can(w, st, id, r, a) && (a.Fence? || a.BeginPublish? || a.Acknowledge?)
    ensures Traces(Stepped(w, st, id, r, a), Moved(w, st, id, r, a))
  {
    hide LeaseLive, StepTraces, DiskTraces;
  }

  lemma PassingStanding(w: World, st: Store, id: nat, r: Runner, a: Action)
    requires Row(st) && Shape(w, r) && Standing(w, st, id, r)
    requires Can(w, st, id, r, a) && (a.Fence? || a.BeginPublish? || a.Acknowledge?)
    ensures Standing(w, Stepped(w, st, id, r, a), id, Moved(w, st, id, r, a))
  {
    hide RecordedPrefix, DocumentsBound;
  }

  lemma PassingOwn(w: World, st: Store, id: nat, r: Runner, a: Action)
    requires Row(st) && Fits(w, st, id, r) && Can(w, st, id, r, a) && (a.Fence? || a.BeginPublish? || a.Acknowledge?)
    ensures Fits(w, Stepped(w, st, id, r, a), id, Moved(w, st, id, r, a))
  {
    hide Row, Shape, Memory, Reuse, Traces, Standing, Can, Stepped, Moved;
    AdvancingAlone(w, st, id, r, a);
    PassingTraces(w, st, id, r, a);
    PassingStanding(w, st, id, r, a);
  }

  lemma AdvancingOwn(w: World, st: Store, id: nat, r: Runner, a: Action)
    requires Row(st) && Fits(w, st, id, r) && Can(w, st, id, r, a) && Advancing(a)
    ensures Fits(w, Stepped(w, st, id, r, a), id, Moved(w, st, id, r, a))
  {
    hide Row, Fits, Can, Stepped, Moved;
    if a.Execute? { ExecuteOwn(w, st, id, r, a); } else { PassingOwn(w, st, id, r, a); }
  }

  lemma ReadOwn(w: World, st: Store, id: nat, r: Runner)
    requires Steps(w, st.steps, st.stage, st.lastStarted) && Fits(w, st, id, r) && Can(w, st, id, r, ReadSteps)
    ensures Fits(w, Stepped(w, st, id, r, ReadSteps), id, Moved(w, st, id, r, ReadSteps))
  {
    if INDEXING in st.steps {
      assert StepLinked(w, st.steps, INDEXING);
    }
    assert StoredSteps(w, st.steps, r.attempt, 0);
  }

  // ---- every action of a process ----

  predicate InRun(a: Action) {
    a.Record? || a.Reset? || a.WriteManifest? || a.Adopt?
  }

  predicate OnDocuments(a: Action) {
    a.ProjectDocument? || a.WritePublish? || a.Complete? || a.RemoveDocument?
  }

  /** Without a recorded step there is no manifest to adopt from. */
  lemma NeverAdopts(w: World, st: Store, id: nat, r: Runner)
    requires Fits(w, st, id, r)
    ensures !Can(w, st, id, r, Adopt)
  {
  }

  lemma IdleStore(w: World, st: Store, id: nat, r: Runner, a: Action)
    requires Can(w, st, id, r, a) && !OnRow(a) && !InRun(a) && !OnDocuments(a)
    ensures Stepped(w, st, id, r, a) == st
  {
  }

  lemma StoreInRun(w: World, st: Store, id: nat, r: Runner, a: Action)
    requires StoreInv(w, st) && Fits(w, st, id, r) && Can(w, st, id, r, a) && InRun(a)
    ensures StoreInv(w, Stepped(w, st, id, r, a))
  {
    match a
    case Record => RecordStore(w, st, id, r);
    case Reset => ResetStore(w, st, id, r);
    case WriteManifest => WriteStore(w, st, id, r, a);
    case Adopt => NeverAdopts(w, st, id, r);
  }

  lemma StoreOnDocuments(w: World, st: Store, id: nat, r: Runner, a: Action)
    requires StoreInv(w, st) && Fits(w, st, id, r) && Can(w, st, id, r, a) && OnDocuments(a)
    ensures StoreInv(w, Stepped(w, st, id, r, a))
  {
    match a
    case WritePublish => WriteStore(w, st, id, r, a);
    case ProjectDocument(b) => ProjectStore(w, st, id, r, b);
    case Complete => CompleteStore(w, st, id, r);
    case RemoveDocument(d) => RemoveStore(w, st, id, r, d);
  }

  lemma StoreKept(w: World, st: Store, id: nat, r: Runner, a: Action)
    requires StoreInv(w, st) && Fits(w, st, id, r) && Can(w, st, id, r, a)
    ensures StoreInv(w, Stepped(w, st, id, r, a))
  {
    hide StoreInv, Can, Stepped, Shape, Memory, Reuse, Traces, Claims, Current, Sent, Completer;
    if OnRow(a) {
      RowStore(w, st, id, r, a);
    } else if InRun(a) {
      StoreInRun(w, st, id, r, a);
    } else if OnDocuments(a) {
      StoreOnDocuments(w, st, id, r, a);
    } else {
      IdleStore(w, st, id, r, a);
    }
  }

  lemma OwnInRun(w: World, st: Store, id: nat, r: Runner, a: Action)
    requires StoreInv(w, st) && Fits(w, st, id, r) && Can(w, st, id, r, a) && InRun(a)
    ensures Fits(w, Stepped(w, st, id, r, a), id, Moved(w, st, id, r, a))
  {
    hide Row, Steps, Disk, Checkpoints, Documents, Fits, Can, Stepped, Moved, Reusable;
    match a
    case Record => RecordOwn(w, st, id, r);
    case Reset => ResetOwn(w, st, id, r);
    case WriteManifest => WriteOwn(w, st, id, r, a);
    case Adopt => NeverAdopts(w, st, id, r);
  }

  lemma OwnOnDocuments(w: World, st: Store, id: nat, r: Runner, a: Action)
    requires StoreInv(w, st) && Fits(w, st, id, r) && Can(w, st, id, r, a) && OnDocuments(a)
    ensures Fits(w, Stepped(w, st, id, r, a), id, Moved(w, st, id, r, a))
  {
    hide Row, Steps, Disk, Checkpoints, Documents, Fits, Can, Stepped, Moved;
    match a
    case WritePublish => WriteOwn(w, st, id, r, a);
    case ProjectDocument(b) => ProjectOwn(w, st, id, r, b);
    case Complete => CompleteOwn(w, st, id, r);
    case RemoveDocument(d) => RemoveOwn(w, st, id, r, d);
  }

  lemma OwnGoingOn(w: World, st: Store, id: nat, r: Runner, a: Action)
    requires StoreInv(w, st) && Fits(w, st, id, r) && Can(w, st, id, r, a)
    requires Advancing(a) || a.ReadSteps? || a.Decide?
    ensures Fits(w, Stepped(w, st, id, r, a), id, Moved(w, st, id, r, a))
  {
    hide Row, Steps, Disk, Checkpoints, Documents, Fits, Can, Stepped, Moved;
    if a.ReadSteps? {
      ReadOwn(w, st, id, r);
    } else if a.Decide? {
      DecideOwn(w, st, id, r, a.artifactsMatch);
    } else {
      AdvancingOwn(w, st, id, r, a);
    }
  }

  lemma OwnKept(w: World, st: Store, id: nat, r: Runner, a: Action)
    requires StoreInv(w, st) && Fits(w, st, id, r) && Can(w, st, id, r, a)
    ensures Fits(w, Stepped(w, st, id, r, a), id, Moved(w, st, id, r, a))
  {
    hide Row, Steps, Disk, Checkpoints, Documents, Fits, Can, Stepped, Moved;
    if OnRow(a) {
      RowOwn(w, st, id, r, a);
    } else if InRun(a) {
      OwnInRun(w, st, id, r, a);
    } else if OnDocuments(a) {
      OwnOnDocuments(w, st, id, r, a);
    } else if Ending(a) {
      EndingOwn(w, st, id, r, a);
    } else if a.SawCancel? {
      SawCancelOwn(w, st, id, r);
    } else if a.Interrupt? {
      InterruptOwn(w, st, id, r);
    } else if a.Fail? {
      FailOwn(w, st, id, r, a.retryable);
    } else {
      OwnGoingOn(w, st, id, r, a);
    }
  }

  predicate Foreign(id: nat, r: Runner, i: nat, q: Runner) {
    i != id && (q.started && r.started ==> q.attempt != r.attempt)
  }

  lemma OtherInRun(w: World, st: Store, id: nat, r: Runner, a: Action, i: nat, q: Runner)
    requires StoreInv(w, st) && Fits(w, st, id, r) && Can(w, st, id, r, a) && InRun(a)
    requires Fits(w, st, i, q) && Foreign(id, r, i, q)
    ensures Fits(w, Stepped(w, st, id, r, a), i, q)
  {
    match a
    case Record => RecordOther(w, st, id, r, i, q);
    case Reset => ResetOther(w, st, id, r, i, q);
    case WriteManifest => WriteOther(w, st, id, r, a, i, q);
    case Adopt => NeverAdopts(w, st, id, r);
  }

  lemma OtherOnDocuments(w: World, st: Store, id: nat, r: Runner, a: Action, i: nat, q: Runner)
    requires StoreInv(w, st) && Fits(w, st, id, r) && Can(w, st, id, r, a) && OnDocuments(a)
    requires Fits(w, st, i, q) && Foreign(id, r, i, q)
    ensures Fits(w, Stepped(w, st, id, r, a), i, q)
  {
    hide Row, Steps, Disk, Checkpoints, Documents, Memory, Reuse, Traces, Current, Sent, Completer, Stepped, Produced, DocumentsBound;
    assert !a.RemoveDocument? ==> r.started;
    match a
    case WritePublish => WriteOther(w, st, id, r, a, i, q);
    case ProjectDocument(b) => ProjectOther(w, st, id, r, b, i, q);
    case Complete => CompleteOther(w, st, id, r, i, q);
    case RemoveDocument(d) => RemoveOther(w, st, id, r, d, i, q);
  }

  /** Interference: a step of one process never breaks what holds of another. */
  lemma OtherKept(w: World, st: Store, id: nat, r: Runner, a: Action, i: nat, q: Runner)
    requires StoreInv(w, st) && Fits(w, st, id, r) && Can(w, st, id, r, a)
    requires Fits(w, st, i, q) && Foreign(id, r, i, q)
    ensures Fits(w, Stepped(w, st, id, r, a), i, q)
  {
    hide Row, Steps, Disk, Checkpoints, Documents, Shape, Memory, Reuse, Traces, Claims, Current, Sent, Completer, Can, Stepped;
    if OnRow(a) {
      RowOther(w, st, id, r, a, i, q);
    } else if InRun(a) {
      OtherInRun(w, st, id, r, a, i, q);
    } else if OnDocuments(a) {
      OtherOnDocuments(w, st, id, r, a, i, q);
    } else {
      IdleStore(w, st, id, r, a);
    }
  }

  // ---- claims and the environment ----

  lemma ClaimKept(w: World, s: State, id: nat)
    requires Inv(w, s) && Enabled(w, s, Claim(id))
    ensures Inv(w, Apply(w, s, Claim(id)))
  {
    hide Steps, Disk, Checkpoints, Documents, Fits;
    var t := Apply(w, s, Claim(id));
    ClaimOwn(w, s.store, id);
    forall i | i in t.runners ensures Fits(w, t.store, i, t.runners[i]) {
      if i != id { ClaimOther(w, s.store, id, i, s.runners[i]); }
    }
  }

  lemma ClaimOwn(w: World, st: Store, id: nat)
    requires Row(st) && (CleanupDue(st) || RunDue(st))
    ensures Fits(w, ClaimedStore(w, st, id), id, NewRunner(ClaimedStore(w, st, id).attempt))
  {
  }

  lemma ClaimOther(w: World, st: Store, id: nat, i: nat, q: Runner)
    requires Row(st) && (CleanupDue(st) || RunDue(st)) && Fits(w, st, i, q) && i != id
    ensures Fits(w, ClaimedStore(w, st, id), i, q)
  {
  }

  lemma DamageStore(w: World, st: Store, a: nat, m: Manifest)
    requires StoreInv(w, st) && MayChange(w, st, Damage(a, m))
    ensures StoreInv(w, Changed(w, st, Damage(a, m)))
  {
    var t := Changed(w, st, Damage(a, m));
    forall k: nat | k in t.steps && k < PUBLISH ensures OnDisk(w, t.steps, t.disk, t.damaged, k) {
      assert OnDisk(w, st.steps, st.disk, st.damaged, k);
    }
  }

  predicate OffRow(c: Change) {
    c.Tick? || c.DeleteDocument? || c.Finalize? || c.Damage?
  }

  lemma ChangedRow(w: World, st: Store, c: Change)
    requires Row(st) && MayChange(w, st, c) && (!OffRow(c) || c.Tick?)
    ensures Row(Changed(w, st, c))
  {
  }

  lemma ChangedRowStore(w: World, st: Store, c: Change)
    requires StoreInv(w, st) && MayChange(w, st, c) && (!OffRow(c) || c.Tick?)
    ensures StoreInv(w, Changed(w, st, c))
  {
    hide StoreInv, Row, MayChange, Changed;
    assert Row(st) by { RowOf(w, st); }
    ChangedRow(w, st, c);
    ChangedTables(w, st, c);
    TablesDecide(w, st, Changed(w, st, c));
  }

  predicate SameTables(st: Store, t: Store) {
    && t.steps == st.steps && t.stage == st.stage && t.lastStarted == st.lastStarted
    && t.disk == st.disk && t.damaged == st.damaged && t.docs == st.docs
  }

  lemma ChangedTables(w: World, st: Store, c: Change)
    requires MayChange(w, st, c) && (!OffRow(c) || c.Tick?)
    ensures SameTables(st, Changed(w, st, c))
  {
    hide LeaseFree;
    match c { case Tick => case Promote => case Recover => case RequestCancel => case RetryFailed => case RequestDeletion => }
  }

  lemma TablesDecide(w: World, st: Store, t: Store)
    requires StoreInv(w, st) && SameTables(st, t) && Row(t)
    ensures StoreInv(w, t)
  {
    hide Row, Steps, Disk, Checkpoints, Documents;
  }

  lemma RowOf(w: World, st: Store)
    requires StoreInv(w, st)
    ensures Row(st)
  {
    hide Row, Steps, Disk, Checkpoints, Documents;
  }

  lemma ChangedContentsStore(w: World, st: Store, c: Change)
    requires StoreInv(w, st) && MayChange(w, st, c) && (c.DeleteDocument? || c.Finalize?)
    ensures StoreInv(w, Changed(w, st, c))
  {
    hide StepLinked, OnDisk;
  }

  lemma ChangedStore(w: World, st: Store, c: Change)
    requires StoreInv(w, st) && MayChange(w, st, c)
    ensures StoreInv(w, Changed(w, st, c))
  {
    hide StoreInv, MayChange, Changed;
    if c.Damage? {
      DamageStore(w, st, c.attempt, c.found);
    } else if !OffRow(c) || c.Tick? {
      ChangedRowStore(w, st, c);
    } else {
      ChangedContentsStore(w, st, c);
    }
  }

  lemma CancellingClaims(w: World, st: Store, i: nat, q: Runner)
    requires Row(st) && Claims(w, st, i, q)
    ensures Claims(w, Cancelling(st), i, q)
  {
  }

  lemma CancellingCurrent(w: World, st: Store, i: nat, q: Runner)
    requires Row(st) && Current(w, st, i, q) && Sent(st, i, q) && Completer(w, st, i, q)
    ensures Current(w, Cancelling(st), i, q) && Sent(Cancelling(st), i, q) && Completer(w, Cancelling(st), i, q)
  {
    hide RecordedPrefix, Visible;
  }

  lemma CancellingTraces(st: Store, q: Runner)
    requires Traces(st, q)
    ensures Traces(Cancelling(st), q)
  {
    hide StepTraces, DiskTraces, DocumentTraces, Compensation;
  }

  lemma CancellingOther(w: World, st: Store, i: nat, q: Runner)
    requires Row(st) && Fits(w, st, i, q)
    ensures Fits(w, Cancelling(st), i, q)
  {
    hide Row, Alone, Traces, Claims, Current, Sent, Completer, Cancelling;
    CancellingClaims(w, st, i, q);
    CancellingCurrent(w, st, i, q);
    CancellingTraces(st, q);
  }

  lemma ChangedStatus(w: World, st: Store, c: Change, i: nat, q: Runner)
    requires Row(st) && MayChange(w, st, c) && Fits(w, st, i, q) && (c.Promote? || c.Recover? || c.RetryFailed?)
    ensures Fits(w, Changed(w, st, c), i, q)
  {
  }

  lemma ChangedContents(w: World, st: Store, c: Change, i: nat, q: Runner)
    requires Row(st) && MayChange(w, st, c) && Fits(w, st, i, q) && OffRow(c)
    ensures Fits(w, Changed(w, st, c), i, q)
  {
    if c.DeleteDocument? {
      assert Sent(Changed(w, st, c), i, q);
    }
  }

  lemma ChangedOther(w: World, st: Store, c: Change, i: nat, q: Runner)
    requires Row(st) && MayChange(w, st, c) && Fits(w, st, i, q)
    ensures Fits(w, Changed(w, st, c), i, q)
  {
    if OffRow(c) {
      ChangedContents(w, st, c, i, q);
    } else if c.RequestCancel? || c.RequestDeletion? {
      CancellingOther(w, st, i, q);
    } else {
      ChangedStatus(w, st, c, i, q);
    }
  }

  // ---- every event ----

  lemma ChangeKept(w: World, s: State, c: Change)
    requires Inv(w, s) && MayChange(w, s.store, c)
    ensures Inv(w, State(Changed(w, s.store, c), s.runners))
  {
    hide Steps, Disk, Checkpoints, Documents, Fits, MayChange;
    ChangedStore(w, s.store, c);
    forall i | i in s.runners ensures Fits(w, Changed(w, s.store, c), i, s.runners[i]) {
      ChangedOther(w, s.store, c, i, s.runners[i]);
    }
    ChangePresent(w, s, c);
  }

  lemma ChangePresent(w: World, s: State, c: Change)
    requires Present(s) && MayChange(w, s.store, c)
    ensures Present(State(Changed(w, s.store, c), s.runners))
  {
  }

  lemma EventKept(w: World, s: State, e: Event)
    requires Inv(w, s) && Enabled(w, s, e)
    ensures Inv(w, Apply(w, s, e))
  {
    hide Inv, Can, Stepped, Moved, MayChange, Changed;
    match e
    case Claim(id) => ClaimKept(w, s, id);
    case Environment(c) => ChangeKept(w, s, c);
    case Act(id, a) => ActKept(w, s, id, a);
  }

  lemma ActKept(w: World, s: State, id: nat, a: Action)
    requires Inv(w, s) && Enabled(w, s, Act(id, a))
    ensures Inv(w, Apply(w, s, Act(id, a)))
  {
    hide StoreInv, Fits, Can, Stepped, Moved;
    var r := s.runners[id];
    StoreKept(w, s.store, id, r, a);
    OwnKept(w, s.store, id, r, a);
    var t := Apply(w, s, Act(id, a));
    forall i | i in t.runners ensures Fits(w, t.store, i, t.runners[i]) {
      if i != id { OtherKept(w, s.store, id, r, a, i, s.runners[i]); }
    }
    ActPresent(w, s, id, a);
    AllClaims(w, s);
    ActApart(w, s.store, s.runners, id, a);
  }

  lemma AllClaims(w: World, s: State)
    requires Inv(w, s)
    ensures forall i :: i in s.runners ==> Claims(w, s.store, i, s.runners[i])
  {
    forall i | i in s.runners ensures Claims(w, s.store, i, s.runners[i]) {
      assert Fits(w, s.store, i, s.runners[i]);
    }
  }

  lemma ActPresent(w: World, s: State, id: nat, a: Action)
    requires Present(s) && id in s.runners && Can(w, s.store, id, s.runners[id], a)
    ensures Present(State(Stepped(w, s.store, id, s.runners[id], a), s.runners[id := Moved(w, s.store, id, s.runners[id], a)]))
  {
  }

  /** Only the starting fence starts a process, and then its attempt is above every attempt started before. */
  lemma ActApart(w: World, st: Store, runners: map<nat, Runner>, id: nat, a: Action)
    requires Apart(runners) && id in runners && Can(w, st, id, runners[id], a)
    requires forall i :: i in runners ==> Claims(w, st, i, runners[i])
    ensures Apart(runners[id := Moved(w, st, id, runners[id], a)])
  {
    Grows(w, st, id, runners[id], a);
    if a.Start? { assert Claims(w, st, id, runners[id]); }
  }

  predicate Extends(outs: seq<Output>, outs': seq<Output>) {
    outs <= outs'
  }

  lemma ExtendsBy(outs: seq<Output>, o: Output)
    ensures Extends(outs, outs) && Extends(outs, outs + [o])
  {
  }

  /** A process keeps its attempt and its outputs, and only the starting fence starts it. */
  predicate Grown(r: Runner, r': Runner, starts: bool) {
    r'.attempt == r.attempt && r'.started == (r.started || starts) && Extends(r.outs, r'.outs)
  }

  lemma GrowsAdvancing(w: World, st: Store, id: nat, r: Runner, a: Action)
    requires Can(w, st, id, r, a) && (a.Record? || a.Adopt?)
    ensures Grown(r, Moved(w, st, id, r, a), false)
  {
    hide Extends, CheckpointFits;
    ExtendsBy(r.outs, if a.Record? then r.pc.output else r.pc.found.output);
  }

  lemma GrowsDeciding(w: World, st: Store, id: nat, r: Runner, b: bool)
    requires Can(w, st, id, r, Decide(b))
    ensures Grown(r, Moved(w, st, id, r, Decide(b)), false)
  {
    hide Extends, Validates, InputDigest, Below;
    ExtendsBy(r.outs, if Reusable(w, st, r, b) then st.disk[Candidate(r)].stages[|r.outs|].output else Output(0, []));
  }

  lemma StaysInRun(w: World, st: Store, id: nat, r: Runner, a: Action)
    requires Can(w, st, id, r, a) && !a.Record? && !a.Adopt? && !a.Decide? && (InRun(a) || OnDocuments(a))
    ensures Moved(w, st, id, r, a).(pc := r.pc, cleared := r.cleared, mem := r.mem, stored := r.stored) == r
  {
    hide Reusable, Validates, InputDigest, Below, OfAttempt, CheckpointFits, LeaseLive;
  }

  lemma StaysAround(w: World, st: Store, id: nat, r: Runner, a: Action)
    requires Can(w, st, id, r, a) && !a.Decide? && !InRun(a) && !OnDocuments(a) && !Compensating(a)
    ensures
      var r' := Moved(w, st, id, r, a);
      r'.attempt == r.attempt && r'.started == (r.started || a.Start?) && r'.outs == r.outs
  {
    hide Reusable, Validates, InputDigest, Below, OfAttempt, CheckpointFits, LeaseLive;
  }

  lemma StaysCompensating(w: World, st: Store, id: nat, r: Runner, a: Action)
    requires Can(w, st, id, r, a) && Compensating(a)
    ensures
      var r' := Moved(w, st, id, r, a);
      r'.attempt == r.attempt && r'.started == r.started && r'.outs == r.outs
  {
    hide Reusable, Validates, InputDigest, Below, OfAttempt, CheckpointFits, LeaseLive;
  }

  lemma Grows(w: World, st: Store, id: nat, r: Runner, a: Action)
    requires Can(w, st, id, r, a)
    ensures Grown(r, Moved(w, st, id, r, a), a.Start?)
  {
    hide Can, Moved, Extends;
    ExtendsBy(r.outs, Output(0, []));
    if a.Decide? {
      GrowsDeciding(w, st, id, r, a.artifactsMatch);
    } else if a.Record? || a.Adopt? {
      GrowsAdvancing(w, st, id, r, a);
    } else if InRun(a) || OnDocuments(a) {
      StaysInRun(w, st, id, r, a);
    } else if Compensating(a) {
      StaysCompensating(w, st, id, r, a);
    } else {
      StaysAround(w, st, id, r, a);
    }
  }

  /** Every state of every run satisfies the invariant. */
  lemma {:induction false} RunKept(w: World, s: State, run: seq<Event>)
    requires Inv(w, s) && Legal(w, s, run)
    ensures Inv(w, After(w, s, run))
    decreases |run|
  {
    if run != [] {
      EventKept(w, s, run[0]);
      RunKept(w, Apply(w, s, run[0]), run[1..]);
    }
  }

  lemma InitialInv(w: World)
    ensures Inv(w, Initial)
  {
  }
}
