/**
 The pump between two readers and one consumer over a bounded queue. Each method is one atomic step of one thread; any
 interleaving of the three threads, with failures and a cancellation at any point, is a schedule of such steps.
 */
module LogPump {
  import opened Options
  import LogLines
  import opened Sequences

  const QUEUE_CAPACITY := 128

  datatype Entry = Entry(text: string, source: nat)

  /** The entries of one stream, in order. */
  function Of(entries: seq<Entry>, source: nat): seq<string> {
    if entries == [] then []
    else
      var last := entries[|entries| - 1];
      Of(entries[..|entries| - 1], source) + (if last.source == source then [last.text] else [])
  }

  function Held(held: Option<Entry>): seq<Entry> {
    if held.Some? then [held.value] else []
  }

  lemma {:induction false} OfJoin(a: seq<Entry>, b: seq<Entry>, source: nat)
    ensures Of(a + b, source) == Of(a, source) + Of(b, source)
  {
    if b == [] {
      assert a + b == a;
    } else {
      var n := |b| - 1;
      OfJoin(a, b[..n], source);
      assert (a + b)[..|a + b| - 1] == a + b[..n];
    }
  }

  lemma OfAppend(a: seq<Entry>, e: Entry, source: nat)
    ensures Of(a + [e], source) == Of(a, source) + (if e.source == source then [e.text] else [])
  {
    assert (a + [e])[..|a|] == a;
  }

  lemma {:induction false} OfTail(a: seq<Entry>, source: nat)
    requires a != []
    ensures Of(a, source) == (if a[0].source == source then [a[0].text] else []) + Of(a[1..], source)
  {
    assert a == [a[0]] + a[1..];
    OfJoin([a[0]], a[1..], source);
    OfAppend([], a[0], source);
    assert [] + [a[0]] == [a[0]];
  }

  lemma OfOne(e: Entry, source: nat)
    ensures Of([e], source) == if e.source == source then [e.text] else []
  {
    OfAppend([], e, source);
    assert [] + [e] == [e];
  }

  predicate Conserved(published: seq<Entry>, held: Option<Entry>, queue: seq<Entry>, stream: seq<string>, source: nat) {
    Of(published, source) + Of(Held(held), source) + Of(queue, source) == stream
  }

  lemma EnqueueConserves(published: seq<Entry>, held: Option<Entry>, queue: seq<Entry>, stream: seq<string>, source: nat, e: Entry)
    requires Conserved(published, held, queue, stream, source)
    ensures Conserved(published, held, queue + [e], if e.source == source then stream + [e.text] else stream, source)
  {
    OfAppend(queue, e, source);
  }

  lemma DequeueConserves(published: seq<Entry>, queue: seq<Entry>, stream: seq<string>, source: nat)
    requires queue != [] && Conserved(published, None, queue, stream, source)
    ensures Conserved(published, Some(queue[0]), queue[1..], stream, source)
  {
    OfTail(queue, source);
    OfOne(queue[0], source);
  }

  lemma PublishConserves(published: seq<Entry>, e: Entry, queue: seq<Entry>, stream: seq<string>, source: nat)
    requires Conserved(published, Some(e), queue, stream, source)
    ensures Conserved(published + [e], None, queue, stream, source)
  {
    OfAppend(published, e, source);
    OfOne(e, source);
  }

  datatype Step =
    | Enqueue(source: nat)      // a reader adds its next entry
    | EndOfStream(source: nat)  // a reader is done
    | ReadError(source: nat)    // a reader's stream fails
    | Unwind(source: nat)       // a reader meets the cancellation, or a queue that takes no more
    | Dequeue
    | Publish
    | PublishError
    | Finish                    // the consumer meets the end of a completed queue
    | Abandon                   // the consumer meets the cancellation
    | Cancel                    // a timeout while completing, or disposal

  /** How a call to complete the pump ends. */
  datatype Completion = InvalidTimeout | AlreadyStarted | Completed | TimedOut | PumpFailed

  class Pump {
    const streams: seq<seq<string>>   // the entries the two readers find in their streams
    var sent: seq<nat>
    var ended: seq<bool>
    var remainingReaders: nat
    var queue: seq<Entry>
    var addingCompleted: bool
    var held: Option<Entry>
    var published: seq<Entry>
    var consuming: bool
    var failed: bool
    var cancelled: bool
    var completeStarted: bool

    predicate Counts()
      reads this
    {
      && |streams| == |sent| == |ended| == 2
      && remainingReaders == (if ended[0] then 0 else 1) + (if ended[1] then 0 else 1)
      && forall s :: 0 <= s < 2 ==> sent[s] <= |streams[s]|
    }

    /** Published, in the consumer's hands and queued, in this order: exactly what the reader of the stream has sent. */
    predicate Conserves(source: nat)
      requires Counts() && source < 2
      reads this
    {
      Conserved(published, held, queue, streams[source][..sent[source]], source)
    }

    predicate Valid()
      reads this
    {
      && Counts() && Conserves(0) && Conserves(1)
      && |queue| <= QUEUE_CAPACITY
      && (addingCompleted <==> remainingReaders == 0 || cancelled)
      && (failed ==> cancelled)
      && (forall s :: 0 <= s < 2 ==> ended[s] && !cancelled ==> sent[s] == |streams[s]|)
      && (!consuming && !cancelled ==> addingCompleted && queue == [] && held == None)
    }

    constructor (out: seq<string>, err: seq<string>)
      ensures Valid() && streams == [out, err] && published == [] && !cancelled && !completeStarted
    {
      streams, sent, ended, remainingReaders := [out, err], [0, 0], [false, false], 2;
      queue, addingCompleted, held, published := [], false, None, [];
      consuming, failed, cancelled, completeStarted := true, false, false, false;
    }

    predicate Can(step: Step)
      requires Valid()
      reads this
    {
      match step
      case Enqueue(s) => s < 2 && !ended[s] && sent[s] < |streams[s]| && |queue| < QUEUE_CAPACITY && !addingCompleted && !cancelled
      case EndOfStream(s) => s < 2 && !ended[s] && sent[s] == |streams[s]|
      case ReadError(s) => s < 2 && !ended[s]
      case Unwind(s) => s < 2 && !ended[s] && sent[s] < |streams[s]| && (cancelled || addingCompleted)
      case Dequeue => consuming && held == None && queue != [] && !cancelled
      case Publish => consuming && held.Some?
      case PublishError => consuming && held.Some?
      case Finish => consuming && held == None && queue == [] && addingCompleted
      case Abandon => consuming && held == None && cancelled
      case Cancel => true
    }

    /** How many steps the threads have left: an entry is enqueued, dequeued and published, and every thread ends. */
    function ToDo(): nat
      requires Valid()
      reads this
    {
      3 * (|streams[0]| - sent[0]) + 3 * (|streams[1]| - sent[1]) + 2 * |queue| + |Held(held)|
      + remainingReaders + (if consuming then 1 else 0)
    }

    /** A step that some thread can take without anything going wrong. */
    function NextStep(): (step: Step)
      requires Valid() && !Drained()
      reads this
      ensures Can(step) && Harmless([step])
    {
      if consuming && held.Some? then Step.Publish
      else if consuming && cancelled then Step.Abandon
      else if consuming && queue != [] then Step.Dequeue
      else if ended[0] && ended[1] then Step.Finish
      else
        var s := if ended[0] then 1 else 0;
        if sent[s] == |streams[s]| then Step.EndOfStream(s)
        else if cancelled || addingCompleted then Step.Unwind(s)
        else Step.Enqueue(s)
    }

    /** A reader adds its next entry at the end of the queue. */
    method Enqueue(s: nat)
      requires Valid() && Can(Step.Enqueue(s))
      modifies this`queue, this`sent
      ensures Valid() && queue == old(queue) + [Entry(streams[s][old(sent[s])], s)]
      ensures sent == old(sent)[s := old(sent[s]) + 1] && ToDo() == old(ToDo()) - 1
    {
      hide Conserved;
      var e := Entry(streams[s][sent[s]], s);
      EnqueueConserves(published, held, queue, streams[0][..sent[0]], 0, e);
      EnqueueConserves(published, held, queue, streams[1][..sent[1]], 1, e);
      assert streams[s][..sent[s] + 1] == streams[s][..sent[s]] + [e.text];
      queue := queue + [e];
      sent := sent[s := sent[s] + 1];
    }

    /** The consumer takes the first entry of the queue. */
    method Dequeue()
      requires Valid() && Can(Step.Dequeue)
      modifies this`queue, this`held
      ensures Valid() && held == Some(old(queue[0])) && queue == old(queue[1..]) && ToDo() == old(ToDo()) - 1
    {
      hide Conserved;
      DequeueConserves(published, queue, streams[0][..sent[0]], 0);
      DequeueConserves(published, queue, streams[1][..sent[1]], 1);
      held, queue := Some(queue[0]), queue[1..];
    }

    /** The consumer appends the entry it holds to the logs. */
    method Publish()
      requires Valid() && Can(Step.Publish)
      modifies this`published, this`held
      ensures Valid() && published == old(published) + [old(held).value] && held == None && ToDo() == old(ToDo()) - 1
    {
      hide Conserved;
      PublishConserves(published, held.value, queue, streams[0][..sent[0]], 0);
      PublishConserves(published, held.value, queue, streams[1][..sent[1]], 1);
      published, held := published + [held.value], None;
    }

    /** One step of one thread. */
    method Perform(step: Step)
      requires Valid() && Can(step)
      modifies this`sent, this`ended, this`remainingReaders, this`queue, this`addingCompleted, this`held, this`published,
        this`consuming, this`failed, this`cancelled
      ensures Valid()
      ensures published == old(published) + (if step.Publish? then old(Held(held)) else [])
      ensures cancelled <==> old(cancelled) || step == Cancel || step.ReadError? || step == PublishError
      ensures failed <==> old(failed) || step.ReadError? || step == PublishError
      ensures ToDo() == old(ToDo()) - (if step == Cancel then 0 else 1)
    {
      hide Conserved, ToDo;
      match step
      case Enqueue(s) => Enqueue(s);
      case EndOfStream(s) => EndReader(s);
      case ReadError(s) =>
        RecordFailure();
        EndReader(s);
      case Unwind(s) => EndReader(s);
      case Dequeue => Dequeue();
      case Publish => Publish();
      case PublishError =>
        RecordFailure();
        EndConsumer();
      case Finish => EndConsumer();
      case Abandon => EndConsumer();
      case Cancel => CancelAll();
    }

    method CancelAll()
      requires Valid()
      modifies this`cancelled, this`addingCompleted
      ensures Valid() && cancelled && addingCompleted && ToDo() == old(ToDo())
    {
      cancelled := true;
      addingCompleted := true;
    }

    /** The reader's last action: the second one to end completes the queue. */
    method EndReader(s: nat)
      requires Valid() && s < 2 && !ended[s] && (sent[s] == |streams[s]| || cancelled || addingCompleted)
      modifies this`ended, this`remainingReaders, this`addingCompleted
      ensures Valid() && ended == old(ended)[s := true] && ToDo() == old(ToDo()) - 1
      ensures addingCompleted <==> old(addingCompleted) || old(ended[1 - s])
    {
      ended := ended[s := true];
      remainingReaders := remainingReaders - 1;
      if remainingReaders == 0 {
        addingCompleted := true;
      }
    }

    method EndConsumer()
      requires Valid() && consuming && (cancelled || (addingCompleted && queue == [] && held == None))
      modifies this`consuming
      ensures Valid() && !consuming && ToDo() == old(ToDo()) - 1
    {
      consuming := false;
    }

    method RecordFailure()
      requires Valid()
      modifies this`failed, this`cancelled, this`addingCompleted
      ensures Valid() && failed && cancelled && addingCompleted && ToDo() == old(ToDo())
    {
      failed := true;
      cancelled := true;
      addingCompleted := true;
    }

    /** Any schedule keeps the pump valid, and gets something done if it has a step that can be done. */
    method Run(schedule: seq<Step>)
      requires Valid()
      modifies this`sent, this`ended, this`remainingReaders, this`queue, this`addingCompleted, this`held, this`published,
        this`consuming, this`failed, this`cancelled
      ensures Valid() && old(published) <= published && ToDo() <= old(ToDo())
      ensures Harmless(schedule) ==> cancelled == old(cancelled) && failed == old(failed)
      ensures Harmless(schedule) && (exists i :: 0 <= i < |schedule| && old(Can(schedule[i]))) ==> ToDo() < old(ToDo())
    {
      hide Conserved, ToDo;
      for i := 0 to |schedule|
        invariant Valid() && old(published) <= published && ToDo() <= old(ToDo())
        invariant Harmless(schedule) ==> cancelled == old(cancelled) && failed == old(failed)
        invariant Harmless(schedule) && ToDo() == old(ToDo()) ==>
          unchanged(this) && forall j :: 0 <= j < i ==> !old(Can(schedule[j]))
      {
        if Can(schedule[i]) {
          Perform(schedule[i]);
        }
      }
    }

    /** All threads come to their end if nothing else goes wrong, also after a cancellation. */
    method RunToEnd()
      requires Valid()
      modifies this`sent, this`ended, this`remainingReaders, this`queue, this`addingCompleted, this`held, this`published,
        this`consuming, this`failed, this`cancelled
      ensures Valid() && old(published) <= published && Drained() && cancelled == old(cancelled) && failed == old(failed)
    {
      hide Conserved;
      while !Drained()
        invariant Valid() && old(published) <= published && cancelled == old(cancelled) && failed == old(failed)
        decreases ToDo()
      {
        var step := NextStep();
        assert Harmless([step]) && [step][0] == step;
        Perform(step);
      }
    }

    predicate Drained()
      requires Valid()
      reads this
    {
      ended[0] && ended[1] && !consuming
    }

    /**
     Waits for the readers and then for the consumer, which meanwhile do their steps, until the deadline; `inTime` says that
     they get to do all of them. Only the first call drains; any later one returns at once. A deadline that passes, or a
     failure, cancels what is left.
     */
    method Complete(timeout: int, untilReadersEnd: seq<Step>, untilConsumerEnds: seq<Step>, inTime: bool)
      returns (completion: Completion)
      requires Valid()
      modifies this
      ensures Valid() && old(published) <= published
      ensures completion == InvalidTimeout <==> timeout <= 0
      ensures completion == AlreadyStarted <==> timeout > 0 && old(completeStarted)
      ensures completion == InvalidTimeout || completion == AlreadyStarted ==>
        published == old(published) && queue == old(queue) && held == old(held) && cancelled == old(cancelled)
      ensures timeout > 0 ==> completeStarted
      ensures timeout > 0 && !old(completeStarted) ==>
        && (completion == Completed <==> Drained() && !failed)
        && (completion == PumpFailed <==> Drained() && failed)
        && (completion == TimedOut <==> !Drained())
      ensures completion == TimedOut || completion == PumpFailed ==> cancelled && addingCompleted
      ensures completion == TimedOut ==> !inTime
      ensures completion == PumpFailed ==> old(failed) || !Harmless(untilReadersEnd) || !Harmless(untilConsumerEnds)
      ensures completion == Completed && !old(cancelled) && Harmless(untilReadersEnd) && Harmless(untilConsumerEnds) ==> !cancelled
      ensures completion == Completed && !cancelled ==> Of(published, 0) == streams[0] && Of(published, 1) == streams[1]
      ensures Of(published, 0) <= streams[0] && Of(published, 1) <= streams[1]
    {
      if timeout <= 0 {
        completion := InvalidTimeout;
      } else if completeStarted {
        completion := AlreadyStarted;
      } else {
        completion := Drain(untilReadersEnd, untilConsumerEnds, inTime);
      }
      Prefixes(this, 0);
      Prefixes(this, 1);
    }

    method Drain(untilReadersEnd: seq<Step>, untilConsumerEnds: seq<Step>, inTime: bool) returns (completion: Completion)
      requires Valid()
      modifies this
      ensures Valid() && old(published) <= published && completeStarted
      ensures completion == if !Drained() then TimedOut else if failed then PumpFailed else Completed
      ensures completion != Completed ==> cancelled && addingCompleted
      ensures inTime ==> completion != TimedOut
      ensures Harmless(untilReadersEnd) && Harmless(untilConsumerEnds) ==>
        failed == old(failed) && (completion == Completed ==> cancelled == old(cancelled))
    {
      hide Conserved, ToDo, Harmless;
      completeStarted := true;
      Run(untilReadersEnd);
      if ended[0] && ended[1] {
        Run(untilConsumerEnds);
      }
      if inTime {
        RunToEnd();
      }
      completion := if !Drained() then TimedOut else if failed then PumpFailed else Completed;
      if completion != Completed {
        CancelAll();
      }
    }
  }

  /** What is published of a stream is a prefix of it, all of it once the queue is drained. */
  lemma Prefixes(p: Pump, source: nat)
    requires p.Valid() && source < 2
    ensures Of(p.published, source) <= p.streams[source]
    ensures p.Drained() && !p.cancelled ==> Of(p.published, source) == p.streams[source]
  {
    assert p.Conserves(source);
    assert Of(p.published, source) <= Of(p.published, source) + Of(Held(p.held), source) + Of(p.queue, source);
    if p.Drained() && !p.cancelled {
      assert p.streams[source][..|p.streams[source]|] == p.streams[source];
    }
  }

  /** No stream fails, no log refuses an entry, and nobody cancels. */
  predicate Harmless(schedule: seq<Step>) {
    forall i :: 0 <= i < |schedule| ==> !schedule[i].ReadError? && schedule[i] != PublishError && schedule[i] != Cancel
  }

  predicate Ordinary(step: Step) {
    step.Enqueue? || step.EndOfStream? || step == Dequeue || step == Publish || step == Finish
  }

  /** While nothing has failed or been cancelled, some thread can always go on until all are done. */
  lemma NoDeadlock(p: Pump)
    requires p.Valid() && !p.cancelled && !p.Drained()
    ensures exists step: Step :: Ordinary(step) && p.Can(step)
  {
    if p.consuming && p.held.Some? {
      assert p.Can(Publish);
    } else if p.consuming && p.queue != [] {
      assert p.Can(Dequeue);
    } else if p.ended[0] && p.ended[1] {
      assert p.Can(Finish);
    } else {
      var s := if p.ended[0] then 1 else 0;
      if p.sent[s] == |p.streams[s]| {
        assert p.Can(EndOfStream(s));
      } else {
        assert p.Can(Enqueue(s));
      }
    }
  }

  /** Without a failure or cancellation the queue is completed exactly when the second reader has ended. */
  lemma CompletedBySecondReader(p: Pump)
    requires p.Valid() && !p.cancelled
    ensures p.addingCompleted <==> p.ended[0] && p.ended[1]
  {
  }

  /**
   From the two process streams to the log: whatever pieces the streams arrive in and however the threads are scheduled, an
   uncancelled completion has published exactly the lines of each stream, in order; and when nothing fails and the deadline
   leaves the threads their time, that is how it ends.
   */
  method PumpProcess(output: seq<string>, error: seq<string>, before: seq<Step>, timeout: int,
                     untilReadersEnd: seq<Step>, untilConsumerEnds: seq<Step>, inTime: bool)
    returns (published: seq<Entry>, completion: Completion, cancelled: bool)
    requires LogLines.Delivers(output) && LogLines.Delivers(error)
    ensures Of(published, 0) <= LogLines.Entries(Flatten(output)) && Of(published, 1) <= LogLines.Entries(Flatten(error))
    ensures completion == Completed && !cancelled ==>
      Of(published, 0) == LogLines.Entries(Flatten(output)) && Of(published, 1) == LogLines.Entries(Flatten(error))
    ensures timeout > 0 && inTime && Harmless(before) && Harmless(untilReadersEnd) && Harmless(untilConsumerEnds) ==>
      completion == Completed && !cancelled
  {
    hide LogLines.Entries, Of, Conserved, Harmless;
    var outLines := LogLines.ReadStream(output);
    var errLines := LogLines.ReadStream(error);
    var pump := new Pump(outLines, errLines);
    pump.Run(before);
    completion := pump.Complete(timeout, untilReadersEnd, untilConsumerEnds, inTime);
    published, cancelled := pump.published, pump.cancelled;
  }
}
