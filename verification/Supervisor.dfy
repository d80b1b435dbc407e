/**
 Supervisors of one run share a stack log and its lock. Each component's supervisor moves the component's status file through
 its life cycle; other processes publish lines only while every component they require is running. Each method below is one
 critical section of the lock, and every file operation inside it may fail as its `Faults` say.
 */
module Supervisor {
  import opened Options

  datatype Status = Starting | Running | Stopping | Exited

  function Next(state: Option<Status>): set<Status> {
    match state
    case None => {Starting}
    case Some(Starting) => {Running}
    case Some(Running) => {Stopping, Exited}
    case Some(Stopping) => {Exited}
    case Some(Exited) => {}
  }

  predicate Terminal(state: Status) {
    state == Stopping || state == Exited
  }

  // Replacing a file either happens or not, and may raise in both cases; appending a line may stop half-way.
  datatype Replacing = Replaced | NotReplaced | ReplacedThenRaised
  datatype Appending = Whole | AllButLineEnd | Torn | Nothing

  datatype Faults = Faults(marker: Replacing, status: Replacing, again: Replacing, cleared: bool, event: Appending)

  /** What one write left in the log; without a line end the next write continues its line. A torn event is no event. */
  datatype Item = Item(isEvent: bool, ended: bool)

  type Log = seq<Item>

  /** An event can be parsed when it has a line of its own; the last line needs no end. */
  predicate Readable(log: Log, i: nat) {
    i < |log| && log[i].isEvent && (i == 0 || log[i - 1].ended) && (log[i].ended || i == |log| - 1)
  }

  predicate HasEvent(log: Log) {
    exists i :: 0 <= i < |log| && Readable(log, i)
  }

  /** An event that ended its line is found for good; one that lacks the line end only until the next write. */
  predicate HasDurableEvent(log: Log) {
    exists i :: 0 <= i < |log| && Readable(log, i) && log[i].ended
  }

  function Appended(log: Log, isEvent: bool, how: Appending): Log {
    match how
    case Whole => log + [Item(isEvent, true)]
    case AllButLineEnd => log + [Item(isEvent, false)]
    case Torn => log + [Item(false, false)]
    case Nothing => log
  }

  /** A component as its supervisor holds it in memory and as it stands on disk. */
  datatype Component = Component(
    called: Option<Status>,     // the last state the supervisor tried to write
    memory: Option<Status>,
    disk: Option<Status>,
    marker: bool,
    stopped: bool,              // a failed start ended the supervisor
    broken: bool)               // its log writer refuses every write after a failed one

  const Fresh := Component(None, None, None, false, false, false)

  predicate MayCall(c: Component, state: Status) {
    !c.stopped && state in Next(c.called)
  }

  /** The supervisor's view is never ahead of the disk, and once running it is behind by at most the stopping write. */
  predicate InOrder(c: Component) {
    && (c.called == None ==> c.memory == c.disk == None)
    && (c.called == Some(Starting) && !c.stopped ==> c.memory == c.disk == Some(Starting))
    && (c.called == Some(Running) && !c.stopped ==> c.memory == c.disk == Some(Running))
    && (c.called == Some(Stopping) ==>
          && (c.memory == Some(Running) || c.memory == Some(Stopping))
          && (c.disk == Some(Running) || c.disk == Some(Stopping)) && (c.memory == Some(Stopping) ==> c.disk == Some(Stopping)))
    && (c.marker ==> c.called.Some? && Terminal(c.called.value))
    && (c.called.Some? && Terminal(c.called.value) ==> !c.stopped)
  }

  /** What keeps the guard shut for good. */
  predicate Sealed(c: Component, log: Log) {
    c.marker || HasDurableEvent(log) || c.disk == Some(Stopping) || c.disk == Some(Exited)
  }

  /** What keeps the guard shut at this moment. */
  predicate Shut(c: Component, log: Log) {
    c.marker || HasEvent(log) || c.disk == Some(Stopping) || c.disk == Some(Exited)
  }

  /** The check a publisher makes under the lock before its line. */
  predicate GuardPasses(components: map<nat, Component>, log: Log, required: set<nat>) {
    !HasEvent(log) && forall c :: c in required ==> c in components && !components[c].marker && components[c].disk == Some(Running)
  }

  lemma AppendKeepsEvents(log: Log, isEvent: bool, how: Appending)
    requires HasDurableEvent(log)
    ensures HasDurableEvent(Appended(log, isEvent, how)) && HasEvent(Appended(log, isEvent, how))
  {
    var i :| 0 <= i < |log| && Readable(log, i) && log[i].ended;
    var after := Appended(log, isEvent, how);
    assert Readable(after, i) && after[i].ended;
  }

  predicate EndsLine(log: Log) {
    log == [] || log[|log| - 1].ended
  }

  /** The failure event is found exactly when it got onto a line of its own, and for good exactly with its line end. */
  lemma EventAppears(log: Log, how: Appending)
    ensures HasDurableEvent(Appended(log, true, how)) <==> HasDurableEvent(log) || (how == Whole && EndsLine(log))
    ensures HasEvent(Appended(log, true, how)) <==>
      || HasDurableEvent(log) || (HasEvent(log) && how == Nothing)
      || ((how == Whole || how == AllButLineEnd) && EndsLine(log))
  {
    var after := Appended(log, true, how);
    if HasDurableEvent(log) { AppendKeepsEvents(log, true, how); }
    if (how == Whole || how == AllButLineEnd) && EndsLine(log) {
      assert Readable(after, |log|);
    }
    if i :| 0 <= i < |after| && Readable(after, i) && i < |log| {
      assert Readable(log, i);
    }
    if i :| 0 <= i < |after| && Readable(after, i) && after[i].ended && i < |log| {
      assert Readable(log, i);
    }
  }

  /** A line that is no event never makes one appear, and hides one that lacks its line end. */
  lemma LineIsNoEvent(log: Log, how: Appending)
    ensures HasDurableEvent(Appended(log, false, how)) <==> HasDurableEvent(log)
    ensures HasEvent(Appended(log, false, how)) <==> HasDurableEvent(log) || (HasEvent(log) && how == Nothing)
  {
    var after := Appended(log, false, how);
    if HasDurableEvent(log) { AppendKeepsEvents(log, false, how); }
    if i :| 0 <= i < |after| && Readable(after, i) {
      assert Readable(log, i);
    }
    if i :| 0 <= i < |after| && Readable(after, i) && after[i].ended {
      assert Readable(log, i);
    }
  }

  /** Whether a terminal transition left a trace that every later guard sees. */
  predicate Secured(c: Component, log: Log, f: Faults) {
    f.marker != NotReplaced || HasDurableEvent(log) || (f.event == Whole && !c.broken && EndsLine(log))
  }

  /** Whether it left one that a guard sees before anything else is written. */
  predicate Noticed(c: Component, log: Log, f: Faults) {
    f.marker != NotReplaced || ((f.event == Whole || f.event == AllButLineEnd) && !c.broken && EndsLine(log))
  }

  // ---- one status transition ----

  predicate EventTried(c: Component, state: Status, f: Faults) {
    Terminal(state) &&
    (f.marker != Replaced || (f.again != Replaced && !(state in Next(c.memory) && f.status == Replaced)))
  }

  predicate StatusReached(c: Component, state: Status, f: Faults) {
    (Terminal(state) ==> f.marker == Replaced) && state in Next(c.memory)
  }

  predicate Succeeds(c: Component, state: Status, f: Faults) {
    StatusReached(c, state, f) && f.status == Replaced && (Terminal(state) ==> f.cleared)
  }

  function Transitioned(c: Component, state: Status, f: Faults): Component {
    var written := StatusReached(c, state, f) && f.status == Replaced;
    Component(
      Some(state),
      if written then Some(state) else c.memory,
      if StatusReached(c, state, f) && f.status != NotReplaced then Some(state) else c.disk,
      if !Terminal(state) then c.marker else if written then !f.cleared else c.marker || f.marker != NotReplaced,
      c.stopped || (!Terminal(state) && !written),
      c.broken || (EventTried(c, state, f) && f.event != Whole))
  }

  function LogAfter(c: Component, log: Log, state: Status, f: Faults): Log {
    if EventTried(c, state, f) && !c.broken then Appended(log, true, f.event) else log
  }

  predicate Moves(before: Option<Status>, after: Option<Status>) {
    before == after || (after.Some? && after.value in Next(before))
  }

  /** The supervisor never asks for a forbidden transition, and whatever fails, the status on disk follows the graph. */
  lemma TransitionKeepsOrder(c: Component, log: Log, state: Status, f: Faults)
    requires InOrder(c) && MayCall(c, state)
    ensures state in Next(c.memory)
    ensures InOrder(Transitioned(c, state, f)) && Moves(c.disk, Transitioned(c, state, f).disk)
  {
  }

  /**
   A component that passed the guard is shut right after a terminal transition if and only if the transition was noticed,
   and shut for good if and only if it was secured.
   */
  lemma TransitionSeals(c: Component, log: Log, state: Status, f: Faults)
    requires InOrder(c) && MayCall(c, state) && Terminal(state)
    ensures Secured(c, log, f) ==> Sealed(Transitioned(c, state, f), LogAfter(c, log, state, f))
    ensures !HasEvent(log) && !c.marker && c.disk == Some(Running) ==>
      && (Noticed(c, log, f) <==> Shut(Transitioned(c, state, f), LogAfter(c, log, state, f)))
      && (Secured(c, log, f) <==> Sealed(Transitioned(c, state, f), LogAfter(c, log, state, f)))
  {
    EventAppears(log, f.event);
    DurableIsFound(log);
  }

  lemma DurableIsFound(log: Log)
    ensures HasDurableEvent(log) ==> HasEvent(log)
  {
  }

  /** A component has the running status on its disk only once that status got there. */
  lemma RunningGetsThere(c: Component, state: Status, f: Faults)
    requires InOrder(c) && MayCall(c, state) && Transitioned(c, state, f).disk == Some(Running)
    ensures c.disk == Some(Running) || (state == Running && f.status != NotReplaced)
  {
  }

  /** What was sealed stays sealed through any transition of any component. */
  lemma SealsStay(components: map<nat, Component>, log: Log, sealed: set<nat>, c: nat, state: Status, f: Faults)
    requires c in components && InOrder(components[c]) && MayCall(components[c], state)
    requires forall d :: d in sealed ==> d in components && Sealed(components[d], log)
    ensures forall d :: d in sealed ==>
      Sealed(if d == c then Transitioned(components[c], state, f) else components[d], LogAfter(components[c], log, state, f))
  {
    if HasDurableEvent(log) { AppendKeepsEvents(log, true, f.event); }
  }

  datatype Publication = Publication(required: set<nat>, sealedBefore: set<nat>, ranBefore: set<nat>)

  /** Running, and not asked to stop yet. */
  predicate Up(c: Component) {
    c.called == Some(Running) && !c.stopped
  }

  datatype Section =
    | Begin(component: nat)
    | Transition(component: nat, state: Status, faults: Faults)
    | Line(how: Appending)
    | Guarded(required: set<nat>, how: Appending)

  /** What all processes share: the components' files and the log. */
  datatype Shared = Shared(components: map<nat, Component>, log: Log)

  function Effect(s: Shared, section: Section): Shared {
    match section
    case Begin(c) => if c in s.components then s else s.(components := s.components[c := Fresh])
    case Transition(c, state, f) =>
      if c in s.components && MayCall(s.components[c], state) then
        Shared(s.components[c := Transitioned(s.components[c], state, f)], LogAfter(s.components[c], s.log, state, f))
      else s
    case Line(how) => s.(log := Appended(s.log, false, how))
    case Guarded(required, how) =>
      if GuardPasses(s.components, s.log, required) then s.(log := Appended(s.log, false, how)) else s
  }

  function Effects(s: Shared, schedule: seq<Section>): Shared {
    if schedule == [] then s else Effect(Effects(s, schedule[..|schedule| - 1]), schedule[|schedule| - 1])
  }

  class Stack {
    var components: map<nat, Component>
    var log: Log
    ghost var ran: set<nat>                    // got the running status onto the disk
    ghost var sealed: set<nat>                 // began a terminal transition that was secured
    ghost var publications: seq<Publication>   // guarded lines in lock order, with what ran and what was sealed by then

    predicate Ordered()
      reads this
    {
      forall c :: c in components ==> InOrder(components[c])
    }

    ghost predicate Valid()
      reads this
    {
      && Ordered()
      && (forall c :: c in sealed ==> c in components && Sealed(components[c], log))
      && (forall c :: c in components && components[c].disk == Some(Running) ==> c in ran)
      && forall i :: 0 <= i < |publications| ==>
           publications[i].required !! publications[i].sealedBefore && publications[i].required <= publications[i].ranBefore
    }

    constructor ()
      ensures Valid() && components == map[] && log == [] && ran == sealed == {} && publications == []
    {
      components, log, ran, sealed, publications := map[], [], {}, {}, [];
    }

    method Start(c: nat)
      requires Valid() && c !in components
      modifies this`components
      ensures Valid() && components == old(components)[c := Fresh]
    {
      components := components[c := Fresh];
    }

    /** The supervisor's failure event; a writer that failed once refuses to write again. */
    method WriteEvent(me: Component, how: Appending) returns (after: Component)
      modifies this`log
      ensures log == (if me.broken then old(log) else Appended(old(log), true, how))
      ensures after == me.(broken := me.broken || how != Whole)
    {
      if !me.broken {
        log := Appended(log, true, how);
      }
      after := me.(broken := me.broken || how != Whole);
    }

    /** One status transition of a supervisor under the lock: pending marker, then status, then the marker is cleared. */
    method WriteStatus(c: nat, state: Status, f: Faults) returns (ok: bool)
      requires Valid() && c in components && MayCall(components[c], state)
      modifies this
      ensures Valid()
      ensures components == old(components)[c := Transitioned(old(components[c]), state, f)]
      ensures log == LogAfter(old(components[c]), old(log), state, f)
      ensures ok <==> Succeeds(old(components[c]), state, f)
      ensures sealed == old(sealed) + (if Terminal(state) && Secured(old(components[c]), old(log), f) then {c} else {})
      ensures ran == old(ran) + (if state == Running && f.status != NotReplaced then {c} else {})
      ensures publications == old(publications)
    {
      hide HasEvent, HasDurableEvent, Sealed, Secured, InOrder, Appended, Succeeds, StatusReached, EventTried, LogAfter;
      var me := components[c];
      TransitionKeepsOrder(me, log, state, f);
      if Transitioned(me, state, f).disk == Some(Running) { RunningGetsThere(me, state, f); }
      ghost var logBefore := log;
      var after;
      ok, after := Write(me, state, f);
      SealsStay(components, logBefore, sealed, c, state, f);
      if Terminal(state) && Secured(me, logBefore, f) {
        TransitionSeals(me, logBefore, state, f);
        sealed := sealed + {c};
      }
      if state == Running && f.status != NotReplaced {
        ran := ran + {c};
      }
      components := components[c := after];
    }

    /** The files of one transition, in the order in which they are written. */
    method Write(before: Component, state: Status, f: Faults) returns (ok: bool, me: Component)
      modifies this`log
      ensures me == Transitioned(before, state, f) && log == LogAfter(before, old(log), state, f)
      ensures ok <==> Succeeds(before, state, f)
    {
      hide Appended;
      me := before.(called := Some(state));
      if Terminal(state) && f.marker != Replaced {
        me := WriteEvent(me.(marker := me.marker || f.marker == ReplacedThenRaised), f.event);
        ok := false;
      } else {
        me := me.(marker := me.marker || Terminal(state));
        ok := state in Next(me.memory) && f.status == Replaced;
        if state in Next(me.memory) && f.status != NotReplaced {
          me := me.(disk := Some(state));
        }
        if ok {
          me := me.(memory := Some(state));
          if Terminal(state) {
            ok := f.cleared;
            me := me.(marker := !f.cleared);
          }
        } else if Terminal(state) {
          if f.again != Replaced {
            me := WriteEvent(me, f.event);
          }
        } else {
          me := me.(stopped := true);
        }
      }
    }

    /** Any unguarded line, whole or torn: program output, or the report of a failed status write. */
    method WriteLine(how: Appending)
      requires Valid()
      modifies this`log
      ensures Valid() && log == Appended(old(log), false, how)
    {
      LineIsNoEvent(log, how);
      log := Appended(log, false, how);
    }

    /**
     A guarded line is written while every required component is up and no failure is reported, and only for components that
     once ran and were never sealed.
     */
    method Publish(required: set<nat>, how: Appending) returns (published: bool)
      requires Valid()
      modifies this`log, this`publications
      ensures Valid()
      ensures published <==> GuardPasses(old(components), old(log), required)
      ensures log == (if published then Appended(old(log), false, how) else old(log))
      ensures publications == old(publications) + (if published then [Publication(required, sealed, ran)] else [])
      ensures published ==> required !! sealed && required <= ran
      ensures !HasEvent(old(log)) && (forall c :: c in required ==> c in components && Up(components[c])) ==> published
    {
      published := !(exists i :: 0 <= i < |log| && Readable(log, i))
        && forall c :: c in required ==> c in components && !components[c].marker && components[c].disk == Some(Running);
      if published {
        publications := publications + [Publication(required, sealed, ran)];
        LineIsNoEvent(log, how);
        log := Appended(log, false, how);
      }
    }

    /** Any sequence of critical sections of any processes. */
    method Run(schedule: seq<Section>)
      requires Valid()
      modifies this
      ensures Valid() && old(sealed) <= sealed && old(ran) <= ran && old(publications) <= publications
      ensures Shared(components, log) == Effects(Shared(old(components), old(log)), schedule)
    {
      hide HasEvent, GuardPasses, Transitioned, LogAfter, Appended, Secured, Succeeds, Sealed, InOrder;
      for i := 0 to |schedule|
        invariant Valid() && old(sealed) <= sealed && old(ran) <= ran && old(publications) <= publications
        invariant Shared(components, log) == Effects(Shared(old(components), old(log)), schedule[..i])
      {
        assert schedule[..i + 1][..i] == schedule[..i];
        match schedule[i]
        case Begin(c) =>
          if c !in components {
            Start(c);
          }
        case Transition(c, state, f) =>
          if c in components && MayCall(components[c], state) {
            var ok := WriteStatus(c, state, f);
          }
        case Line(how) => WriteLine(how);
        case Guarded(required, how) => var published := Publish(required, how);
      }
      assert schedule[..|schedule|] == schedule;
    }
  }

  /** A stack whose one component is up, with an empty log. */
  method OneRunning() returns (stack: Stack)
    ensures fresh(stack) && stack.Valid() && stack.log == []
    ensures stack.components == map[0 := Component(Some(Running), Some(Running), Some(Running), false, false, false)]
  {
    hide HasEvent, HasDurableEvent, Sealed, Secured, Appended;
    stack := new Stack();
    stack.Start(0);
    var none := Faults(Replaced, Replaced, Replaced, true, Nothing);
    var ok := stack.WriteStatus(0, Starting, none);
    ok := stack.WriteStatus(0, Running, none);
  }

  /**
   The protocol's limit: when neither the marker nor the event gets through, a component that has begun to stop still passes
   the guard, and a torn line before the event is enough to hide it.
   */
  method UnsecuredTransitionIsInvisible() returns (published: bool)
    ensures published
  {
    var stack := OneRunning();
    stack.WriteLine(Torn);
    var ok := stack.WriteStatus(0, Exited, Faults(NotReplaced, Replaced, Replaced, true, Whole));
    assert !HasEvent(stack.log);
    published := stack.Publish({0}, Whole);
  }

  /**
   An event that lacks only its line end shuts the guard until anybody writes the next line: the component that has exited
   passes it again.
   */
  method UnendedEventReopens() returns (first: bool, second: bool)
    ensures !first && second
  {
    var stack := OneRunning();
    var ok := stack.WriteStatus(0, Exited, Faults(NotReplaced, Replaced, Replaced, true, AllButLineEnd));
    assert Readable(stack.log, 0);
    first := stack.Publish({0}, Whole);
    stack.WriteLine(Whole);
    assert !HasEvent(stack.log);
    second := stack.Publish({0}, Whole);
  }
}
