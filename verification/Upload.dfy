/**
 One upload session with any number of concurrent, repeated, stalled or crashed chunk requests. Each step is one repository
 transaction or one creation of a chunk file; a reservation is owned by a fresh token and expires with its lease.
 */
module Upload {
  import opened Options
  import opened ChunkFiles
  import opened Sequences

  datatype Reservation = Reserved(token: nat, until: nat) | Confirmed

  // A digest is as good as the content itself.
  datatype Row = Row(content: Bytes, reservation: Reservation)

  datatype Session = Session(
    now: nat,
    identifier: Option<string>,    // unbound until the first reservation
    totalChunks: nat,
    maxBytes: nat,
    leaseSeconds: nat,
    rows: map<nat, Row>,
    files: map<nat, Bytes>,
    nextToken: nat)

  datatype Phase =
    | Arrived
    | Writing(token: nat)
    | Confirming(token: nat)
    | Releasing(token: nat)
    | Answered(ok: bool)

  datatype Uploader = Uploader(identifier: string, request: Request, phase: Phase)

  datatype State = State(session: Session, uploaders: map<nat, Uploader>)

  datatype Event =
    | Tick
    | Arrive(id: nat, identifier: string, request: Request)
    | Reserve(id: nat)
    | Link(id: nat)
    | LinkFails(id: nat)
    | Confirm(id: nat)
    | Release(id: nat)

  function Initial(maxBytes: nat, leaseSeconds: nat): State {
    State(Session(0, None, 1, maxBytes, leaseSeconds, map[], map[], 0), map[])
  }

  /** The bytes of all rows up to chunk `n`. */
  function Stored(rows: map<nat, Row>, n: nat): nat {
    if n == 0 then 0 else Stored(rows, n - 1) + (if n in rows then |rows[n].content| else 0)
  }

  // ---- reserving ----

  predicate Binds(s: Session, u: Uploader) {
    s.rows == map[] || (s.identifier == Some(u.identifier) && s.totalChunks == u.request.totalChunks)
  }

  predicate SameChunk(s: Session, u: Uploader) {
    u.request.chunkNumber in s.rows && s.rows[u.request.chunkNumber].content == u.request.content
  }

  predicate Expired(s: Session, row: Row) {
    row.reservation.Reserved? && row.reservation.until <= s.now
  }

  /** The chunk can be reserved: new within the quota, or taken over from an expired reservation of the same bytes. */
  predicate Reservable(s: Session, u: Uploader) {
    var k := u.request.chunkNumber;
    && Binds(s, u)
    && if k in s.rows then SameChunk(s, u) && Expired(s, s.rows[k])
       else Stored(s.rows, s.totalChunks) + |u.request.content| <= s.maxBytes
  }

  predicate AlreadyConfirmed(s: Session, u: Uploader) {
    Binds(s, u) && SameChunk(s, u) && s.rows[u.request.chunkNumber].reservation == Confirmed
  }

  function ReservedBy(s: Session, u: Uploader): Session {
    s.(identifier := Some(u.identifier), totalChunks := u.request.totalChunks,
       rows := s.rows[u.request.chunkNumber := Row(u.request.content, Reserved(s.nextToken, s.now + s.leaseSeconds))],
       nextToken := s.nextToken + 1)
  }

  predicate OwnsRow(s: Session, u: Uploader, token: nat) {
    var k := u.request.chunkNumber;
    k in s.rows && s.rows[k].reservation.Reserved? && s.rows[k].reservation.token == token
  }

  predicate Enabled(s: State, e: Event) {
    match e
    case Tick => true
    case Arrive(id, _, r) => id !in s.uploaders && HeadersAccepted(r)
    case Reserve(id) => id in s.uploaders && s.uploaders[id].phase == Arrived
    case Link(id) => id in s.uploaders && s.uploaders[id].phase.Writing?
    case LinkFails(id) => id in s.uploaders && s.uploaders[id].phase.Writing?
    case Confirm(id) => id in s.uploaders && s.uploaders[id].phase.Confirming?
    case Release(id) => id in s.uploaders && s.uploaders[id].phase.Releasing?
  }

  function Reach(s: State, session: Session, id: nat, phase: Phase): State
    requires id in s.uploaders
  {
    State(session, s.uploaders[id := s.uploaders[id].(phase := phase)])
  }

  function Apply(s: State, e: Event): State
    requires Enabled(s, e)
  {
    var st := s.session;
    match e
    case Tick => s.(session := st.(now := st.now + 1))
    case Arrive(id, identifier, r) => s.(uploaders := s.uploaders[id := Uploader(identifier, r, Arrived)])
    case Reserve(id) =>
      var u := s.uploaders[id];
      if Reservable(st, u) then Reach(s, ReservedBy(st, u), id, Writing(st.nextToken))
      else Reach(s, st, id, Answered(AlreadyConfirmed(st, u)))
    case Link(id) =>
      var u := s.uploaders[id];
      var k := u.request.chunkNumber;
      if k !in st.files then Reach(s, st.(files := st.files[k := u.request.content]), id, Confirming(u.phase.token))
      else Reach(s, st, id, if st.files[k] == u.request.content then Confirming(u.phase.token) else Releasing(u.phase.token))
    case LinkFails(id) => Reach(s, st, id, Releasing(s.uploaders[id].phase.token))
    case Confirm(id) =>
      var u := s.uploaders[id];
      var k := u.request.chunkNumber;
      if OwnsRow(st, u, u.phase.token)
      then Reach(s, st.(rows := st.rows[k := Row(st.rows[k].content, Confirmed)]), id, Answered(true))
      else Reach(s, st, id, Releasing(u.phase.token))
    case Release(id) =>
      var u := s.uploaders[id];
      var rows := if OwnsRow(st, u, u.phase.token) then st.rows - {u.request.chunkNumber} else st.rows;
      var reset := OwnsRow(st, u, u.phase.token) && rows == map[];
      var identifier, total := if reset then None else st.identifier, if reset then 1 else st.totalChunks;
      Reach(s, st.(rows := rows, identifier := identifier, totalChunks := total), id, Answered(false))
  }

  predicate Legal(s: State, run: seq<Event>)
    decreases |run|
  {
    run == [] || (Enabled(s, run[0]) && Legal(Apply(s, run[0]), run[1..]))
  }

  function After(s: State, run: seq<Event>): State
    requires Legal(s, run)
    decreases |run|
  {
    if run == [] then s else After(Apply(s, run[0]), run[1..])
  }

  // ---- the invariant ----

  predicate Holding(p: Phase) {
    p.Writing? || p.Confirming? || p.Releasing?
  }

  predicate RowSound(s: Session, k: nat)
    requires k in s.rows
  {
    && 1 <= k <= s.totalChunks
    && (s.rows[k].reservation == Confirmed ==> k in s.files && s.files[k] == s.rows[k].content)
    && (s.rows[k].reservation.Reserved? ==> s.rows[k].reservation.token < s.nextToken)
  }

  predicate SessionSound(s: Session) {
    && (forall k :: k in s.rows ==> RowSound(s, k))
    && Stored(s.rows, s.totalChunks) <= s.maxBytes
    && s.totalChunks >= 1
  }

  predicate UploaderSound(s: Session, u: Uploader) {
    var k := u.request.chunkNumber;
    && HeadersAccepted(u.request)
    && (u.phase.Confirming? || u.phase == Answered(true) ==> k in s.files && s.files[k] == u.request.content)
    && (Holding(u.phase) && OwnsRow(s, u, u.phase.token) ==> s.totalChunks == u.request.totalChunks)
    && (u.phase == Answered(true) ==>
          k in s.rows && s.rows[k] == Row(u.request.content, Confirmed) && s.totalChunks == u.request.totalChunks)
    && (Holding(u.phase) ==> u.phase.token < s.nextToken)
    && (Holding(u.phase) ==>
          forall j :: j in s.rows && s.rows[j].reservation.Reserved? && s.rows[j].reservation.token == u.phase.token ==>
            j == k && s.rows[j].content == u.request.content)
  }

  predicate TokensDistinct(uploaders: map<nat, Uploader>) {
    forall i, j :: i in uploaders && j in uploaders && i != j && Holding(uploaders[i].phase) && Holding(uploaders[j].phase) ==>
      uploaders[i].phase.token != uploaders[j].phase.token
  }

  predicate Inv(s: State) {
    SessionSound(s.session) && TokensDistinct(s.uploaders) && forall i :: i in s.uploaders ==> UploaderSound(s.session, s.uploaders[i])
  }

  lemma {:induction false} StoredPut(rows: map<nat, Row>, k: nat, row: Row, n: nat)
    ensures Stored(rows[k := row], n)
      == Stored(rows, n) + (if 1 <= k <= n then |row.content| - (if k in rows then |rows[k].content| else 0) else 0)
  {
    if n > 0 {
      StoredPut(rows, k, row, n - 1);
    }
  }

  lemma {:induction false} StoredLess(rows: map<nat, Row>, k: nat, n: nat)
    ensures Stored(rows - {k}, n) <= Stored(rows, n)
  {
    if n > 0 {
      StoredLess(rows, k, n - 1);
    }
  }

  lemma {:induction false} StoredNothing(n: nat)
    ensures Stored(map[], n) == 0
  {
    if n > 0 {
      StoredNothing(n - 1);
    }
  }

  lemma ReserveSession(st: Session, u: Uploader)
    requires SessionSound(st) && 1 <= u.request.chunkNumber <= u.request.totalChunks && Reservable(st, u)
    ensures SessionSound(ReservedBy(st, u))
  {
    var k := u.request.chunkNumber;
    StoredPut(st.rows, k, Row(u.request.content, Reserved(st.nextToken, st.now + st.leaseSeconds)), u.request.totalChunks);
    StoredNothing(u.request.totalChunks);
    StoredNothing(st.totalChunks);
  }

  lemma ReserveOther(st: Session, u: Uploader, q: Uploader)
    requires Reservable(st, u) && UploaderSound(st, q)
    ensures UploaderSound(ReservedBy(st, u), q)
  {
    hide HeadersAccepted, Stored;
  }

  lemma ReserveOwn(st: Session, u: Uploader)
    requires SessionSound(st) && UploaderSound(st, u) && u.phase == Arrived
    ensures Reservable(st, u) ==> UploaderSound(ReservedBy(st, u), u.(phase := Writing(st.nextToken)))
    ensures UploaderSound(st, u.(phase := Answered(AlreadyConfirmed(st, u))))
  {
    hide HeadersAccepted, Stored;
    if u.request.chunkNumber in st.rows { assert RowSound(st, u.request.chunkNumber); }
    assert forall k :: k in st.rows ==> RowSound(st, k);
  }

  lemma ReserveKept(s: State, id: nat)
    requires Inv(s) && Enabled(s, Reserve(id))
    ensures Inv(Apply(s, Reserve(id)))
  {
    hide HeadersAccepted, SessionSound, Reservable, AlreadyConfirmed, ReservedBy;
    var st, u := s.session, s.uploaders[id];
    SoundHeaders(st, u);
    ReserveOwn(st, u);
    if Reservable(st, u) {
      ReserveSession(st, u);
      NewToken(st, u);
      forall i | i in s.uploaders ensures UploaderSound(ReservedBy(st, u), s.uploaders[i]) {
        ReserveOther(st, u, s.uploaders[i]);
      }
    }
  }

  lemma NewToken(st: Session, u: Uploader)
    ensures ReservedBy(st, u).nextToken == st.nextToken + 1
  {
  }

  lemma SoundHeaders(s: Session, u: Uploader)
    requires UploaderSound(s, u)
    ensures 1 <= u.request.chunkNumber <= u.request.totalChunks
  {
  }

  lemma LinkKept(s: State, id: nat)
    requires Inv(s) && Enabled(s, Link(id))
    ensures Inv(Apply(s, Link(id)))
  {
    hide HeadersAccepted, Stored;
  }

  function ConfirmedBy(st: Session, k: nat): Session
    requires k in st.rows
  {
    st.(rows := st.rows[k := Row(st.rows[k].content, Confirmed)])
  }

  lemma ConfirmSession(st: Session, u: Uploader)
    requires SessionSound(st) && UploaderSound(st, u) && u.phase.Confirming? && OwnsRow(st, u, u.phase.token)
    ensures SessionSound(ConfirmedBy(st, u.request.chunkNumber))
    ensures UploaderSound(ConfirmedBy(st, u.request.chunkNumber), u.(phase := Answered(true)))
  {
    hide HeadersAccepted;
    var k := u.request.chunkNumber;
    StoredPut(st.rows, k, Row(st.rows[k].content, Confirmed), st.totalChunks);
    assert RowSound(st, k);
  }

  lemma ConfirmOther(st: Session, k: nat, q: Uploader)
    requires UploaderSound(st, q) && k in st.rows && st.rows[k].reservation.Reserved?
    ensures UploaderSound(ConfirmedBy(st, k), q)
  {
    hide HeadersAccepted;
  }

  lemma ConfirmKept(s: State, id: nat)
    requires Inv(s) && Enabled(s, Confirm(id))
    ensures Inv(Apply(s, Confirm(id)))
  {
    hide HeadersAccepted, SessionSound;
    var st, u := s.session, s.uploaders[id];
    var k := u.request.chunkNumber;
    if OwnsRow(st, u, u.phase.token) {
      ConfirmSession(st, u);
      forall i | i in s.uploaders ensures UploaderSound(ConfirmedBy(st, k), s.uploaders[i]) {
        ConfirmOther(st, k, s.uploaders[i]);
      }
    }
  }

  lemma ReleaseKept(s: State, id: nat)
    requires Inv(s) && Enabled(s, Release(id))
    ensures Inv(Apply(s, Release(id)))
  {
    var st, u := s.session, s.uploaders[id];
    StoredLess(st.rows, u.request.chunkNumber, st.totalChunks);
    StoredNothing(1);
  }

  lemma EventKept(s: State, e: Event)
    requires Inv(s) && Enabled(s, e)
    ensures Inv(Apply(s, e)) && Apply(s, e).session.maxBytes == s.session.maxBytes
  {
    match e
    case Reserve(id) => ReserveKept(s, id);
    case Link(id) => LinkKept(s, id);
    case Confirm(id) => ConfirmKept(s, id);
    case Release(id) => ReleaseKept(s, id);
    case Tick | Arrive(_, _, _) | LinkFails(_) =>
  }

  lemma {:induction false} RunKept(s: State, run: seq<Event>)
    requires Inv(s) && Legal(s, run)
    ensures Inv(After(s, run)) && After(s, run).session.maxBytes == s.session.maxBytes
    decreases |run|
  {
    if run != [] {
      EventKept(s, run[0]);
      RunKept(Apply(s, run[0]), run[1..]);
    }
  }

  ghost predicate Reached(maxBytes: nat, leaseSeconds: nat, run: seq<Event>, s: State) {
    Legal(Initial(maxBytes, leaseSeconds), run) && After(Initial(maxBytes, leaseSeconds), run) == s
  }

  // ---- what holds of every run ----

  /** Reserved and confirmed chunks together never exceed the quota, however many requests race. */
  lemma QuotaHolds(maxBytes: nat, leaseSeconds: nat, run: seq<Event>, s: State)
    requires Reached(maxBytes, leaseSeconds, run, s)
    ensures Stored(s.session.rows, s.session.totalChunks) <= maxBytes
    ensures forall k :: k in s.session.rows ==> 1 <= k <= s.session.totalChunks
  {
    RunKept(Initial(maxBytes, leaseSeconds), run);
    assert forall k :: k in s.session.rows ==> RowSound(s.session, k);
  }

  lemma FilesStay(s: State, e: Event, k: nat)
    requires Enabled(s, e) && k in s.session.files
    ensures k in Apply(s, e).session.files && Apply(s, e).session.files[k] == s.session.files[k]
  {
  }

  /** A published chunk never changes. */
  lemma {:induction false} PublishedNeverChanges(s: State, run: seq<Event>, k: nat)
    requires Legal(s, run) && k in s.session.files
    ensures k in After(s, run).session.files && After(s, run).session.files[k] == s.session.files[k]
    decreases |run|
  {
    if run != [] {
      FilesStay(s, run[0], k);
      PublishedNeverChanges(Apply(s, run[0]), run[1..], k);
    }
  }

  /**
   A request that was answered with success finds exactly its bytes in the chunk file, its row confirmed, and the session
   with its number of chunks, at any later time.
   */
  lemma SuccessMeansStored(maxBytes: nat, leaseSeconds: nat, run: seq<Event>, s: State, id: nat)
    requires Reached(maxBytes, leaseSeconds, run, s) && id in s.uploaders && s.uploaders[id].phase == Answered(true)
    ensures
      var r := s.uploaders[id].request;
      && r.chunkNumber in s.session.files && s.session.files[r.chunkNumber] == r.content
      && r.chunkNumber in s.session.rows && s.session.rows[r.chunkNumber] == Row(r.content, Confirmed)
      && s.session.totalChunks == r.totalChunks
  {
    RunKept(Initial(maxBytes, leaseSeconds), run);
    assert UploaderSound(s.session, s.uploaders[id]);
  }

  /** A request was answered with success. */
  predicate Delivered(s: State, r: Request) {
    exists id :: id in s.uploaders && s.uploaders[id].phase == Answered(true) && s.uploaders[id].request == r
  }

  lemma DeliveredIsStored(maxBytes: nat, leaseSeconds: nat, run: seq<Event>, s: State, r: Request)
    requires Reached(maxBytes, leaseSeconds, run, s) && Delivered(s, r)
    ensures r.chunkNumber in s.session.files && s.session.files[r.chunkNumber] == r.content
    ensures r.chunkNumber in s.session.rows && s.session.rows[r.chunkNumber].reservation == Confirmed
    ensures s.session.totalChunks == r.totalChunks
  {
    var id :| id in s.uploaders && s.uploaders[id].phase == Answered(true) && s.uploaders[id].request == r;
    SuccessMeansStored(maxBytes, leaseSeconds, run, s, id);
  }

  lemma {:induction false} DeliveredAreStored(maxBytes: nat, leaseSeconds: nat, run: seq<Event>, s: State, requests: seq<Request>)
    requires Reached(maxBytes, leaseSeconds, run, s)
    requires forall i :: 0 <= i < |requests| ==> requests[i].chunkNumber == i + 1 && Delivered(s, requests[i])
    ensures HoldsChunks(s.session.files, Contents(requests))
  {
    if requests != [] {
      var n := |requests| - 1;
      DeliveredAreStored(maxBytes, leaseSeconds, run, s, requests[..n]);
      DeliveredIsStored(maxBytes, leaseSeconds, run, s, requests[n]);
      assert Contents(requests)[..n] == Contents(requests[..n]);
    }
  }

  predicate AllConfirmed(s: Session) {
    forall k: nat :: 1 <= k <= s.totalChunks ==> k in s.rows && s.rows[k].reservation == Confirmed
  }

  /**
   The upload round trip, file to file: once every chunk of a cut file was answered with success, in whatever order, however
   often, and among whatever other requests, the session is complete, with as many chunks as the client cut, and what the
   server assembles is the file.
   */
  lemma UploadRoundTrip(maxBytes: nat, leaseSeconds: nat, run: seq<Event>, s: State,
                        file: Bytes, chunkSize: nat, requests: seq<Request>)
    requires Reached(maxBytes, leaseSeconds, run, s)
    requires chunkSize > 0 && CutOf(file, chunkSize, requests)
    requires forall i :: 0 <= i < |requests| ==> Delivered(s, requests[i])
    ensures s.session.totalChunks == |requests| == TotalChunks(|file|, chunkSize) && AllConfirmed(s.session)
    ensures Complete(s.session.files, s.session.totalChunks)
    ensures Assembled(s.session.files, s.session.totalChunks) == file
  {
    hide Reached, Delivered;
    DeliveredIsStored(maxBytes, leaseSeconds, run, s, requests[0]);
    forall k: nat | 1 <= k <= |requests| ensures k in s.session.rows && s.session.rows[k].reservation == Confirmed {
      DeliveredIsStored(maxBytes, leaseSeconds, run, s, requests[k - 1]);
    }
    DeliveredAreStored(maxBytes, leaseSeconds, run, s, requests);
    AssemblyUndoesTheCut(s.session.files, Contents(requests));
  }

  lemma {:induction false} AssembledSize(s: Session, n: nat)
    requires SessionSound(s) && AllConfirmed(s) && n <= s.totalChunks
    ensures Complete(s.files, n) && |Assembled(s.files, n)| == Stored(s.rows, n)
  {
    forall k: nat | 1 <= k <= n ensures k in s.files && s.files[k] == s.rows[k].content {
      assert RowSound(s, k);
    }
    if n > 0 {
      AssembledSize(s, n - 1);
    }
  }

  /** When every chunk is confirmed the source can be assembled, and its size is the confirmed size, inside the quota. */
  lemma ConfirmedCanBeAssembled(maxBytes: nat, leaseSeconds: nat, run: seq<Event>, s: State)
    requires Reached(maxBytes, leaseSeconds, run, s) && AllConfirmed(s.session)
    ensures Complete(s.session.files, s.session.totalChunks)
    ensures |Assembled(s.session.files, s.session.totalChunks)| == Stored(s.session.rows, s.session.totalChunks) <= maxBytes
  {
    RunKept(Initial(maxBytes, leaseSeconds), run);
    AssembledSize(s.session, s.session.totalChunks);
  }

  // ---- requests that succeed ----

  predicate SameSession(s: Session, u: Uploader) {
    s.identifier == Some(u.identifier) && s.totalChunks == u.request.totalChunks
  }

  /** What a request needs to store its chunk, all of it settled before it begins. */
  predicate Welcome(s: Session, u: Uploader) {
    var k, content := u.request.chunkNumber, u.request.content;
    && (s.rows == map[] || SameSession(s, u))
    && (k in s.rows ==> s.rows[k].content == content && s.rows[k].reservation.Reserved? && s.rows[k].reservation.until <= s.now)
    && (k !in s.rows ==> Stored(s.rows, s.totalChunks) + |content| <= s.maxBytes)
    && (k in s.files ==> s.files[k] == content)
  }

  /** The very same chunk was confirmed before. */
  predicate Repeats(s: Session, u: Uploader) {
    var k := u.request.chunkNumber;
    SameSession(s, u) && k in s.rows && s.rows[k] == Row(u.request.content, Confirmed)
  }

  function Serving(id: nat): seq<Event> {
    [Reserve(id), Link(id), Confirm(id)]
  }

  /** The session with the chunk of a request stored and confirmed. */
  function StoredBy(s: Session, u: Uploader): Session {
    s.(identifier := Some(u.identifier), totalChunks := u.request.totalChunks,
       rows := s.rows[u.request.chunkNumber := Row(u.request.content, Confirmed)],
       files := s.files[u.request.chunkNumber := u.request.content],
       nextToken := s.nextToken + 1)
  }

  function Settled(s: State, id: nat, session: Session, ok: bool): State
    requires id in s.uploaders
  {
    State(session, s.uploaders[id := s.uploaders[id].(phase := Answered(ok))])
  }

  lemma {:induction false} Then(s: State, run: seq<Event>, e: Event)
    requires Legal(s, run) && Enabled(After(s, run), e)
    ensures Legal(s, run + [e]) && After(s, run + [e]) == Apply(After(s, run), e)
    decreases |run|
  {
    hide Enabled, Apply;
    if run == [] {
      assert [e][1..] == [];
      assert Legal(Apply(s, e), []);
    } else {
      Then(Apply(s, run[0]), run[1..], e);
      assert (run + [e])[0] == run[0] && (run + [e])[1..] == run[1..] + [e];
    }
  }

  /** Reserved, linked and confirmed without a disturbance, a welcome chunk is stored and answered with success. */
  lemma WelcomeSucceeds(s: State, id: nat)
    requires id in s.uploaders && s.uploaders[id].phase == Arrived && Welcome(s.session, s.uploaders[id])
    ensures Legal(s, Serving(id))
    ensures After(s, Serving(id)) == Settled(s, id, StoredBy(s.session, s.uploaders[id]), true)
  {
    hide Stored, Legal, After;
    var u := s.uploaders[id];
    var k := u.request.chunkNumber;
    var reserved := Apply(s, Reserve(id));
    Reserves(s, id);
    Links(reserved, id);
    var linked := Apply(reserved, Link(id));
    Confirms(linked, id);
    Three(s, Reserve(id), Link(id), Confirm(id));
    var t := Apply(linked, Confirm(id));
    assert t.session.rows == StoredBy(s.session, u).rows;
    assert t.uploaders == Settled(s, id, StoredBy(s.session, u), true).uploaders;
  }

  lemma Three(s: State, a: Event, b: Event, c: Event)
    requires Enabled(s, a) && Enabled(Apply(s, a), b) && Enabled(Apply(Apply(s, a), b), c)
    ensures Legal(s, [a, b, c]) && After(s, [a, b, c]) == Apply(Apply(Apply(s, a), b), c)
  {
    hide Enabled, Apply;
    Nothing(s);
    Then(s, [], a);
    assert [] + [a] == [a];
    Then(s, [a], b);
    assert [a] + [b] == [a, b];
    Then(s, [a, b], c);
    assert [a, b] + [c] == [a, b, c];
  }

  lemma Nothing(s: State)
    ensures Legal(s, []) && After(s, []) == s
  {
  }

  lemma Reserves(s: State, id: nat)
    requires id in s.uploaders && s.uploaders[id].phase == Arrived && Welcome(s.session, s.uploaders[id])
    ensures
      var u := s.uploaders[id];
      Apply(s, Reserve(id))
        == State(ReservedBy(s.session, u), s.uploaders[id := u.(phase := Writing(s.session.nextToken))])
  {
    hide Stored;
    StoredNothing(s.session.totalChunks);
  }

  lemma Links(s: State, id: nat)
    requires id in s.uploaders && s.uploaders[id].phase.Writing?
    requires
      var r := s.uploaders[id].request;
      r.chunkNumber in s.session.files ==> s.session.files[r.chunkNumber] == r.content
    ensures
      var u := s.uploaders[id];
      Apply(s, Link(id))
        == State(s.session.(files := s.session.files[u.request.chunkNumber := u.request.content]),
                 s.uploaders[id := u.(phase := Confirming(u.phase.token))])
  {
    var r := s.uploaders[id].request;
    if r.chunkNumber in s.session.files {
      assert s.session.files[r.chunkNumber := r.content] == s.session.files;
    }
  }

  lemma Confirms(s: State, id: nat)
    requires id in s.uploaders && s.uploaders[id].phase.Confirming?
    requires
      var u := s.uploaders[id];
      var k := u.request.chunkNumber;
      k in s.session.rows && s.session.rows[k].reservation.Reserved? && s.session.rows[k].reservation.token == u.phase.token
    ensures
      var u := s.uploaders[id];
      var k := u.request.chunkNumber;
      Apply(s, Confirm(id))
        == Settled(s, id, s.session.(rows := s.session.rows[k := Row(s.session.rows[k].content, Confirmed)]), true)
  {
  }

  /** A repeated chunk is answered with success at once, and changes nothing. */
  lemma RepeatSucceeds(s: State, id: nat)
    requires id in s.uploaders && s.uploaders[id].phase == Arrived && Repeats(s.session, s.uploaders[id])
    ensures Enabled(s, Reserve(id)) && Apply(s, Reserve(id)) == Settled(s, id, s.session, true)
  {
    hide Stored;
  }

  /**
   Everything else is refused, undisturbed as it may be: by the reservation, or by the chunk file when that holds other bytes.
   What was confirmed, and every chunk file, is as before, and no reservation is left behind.
   */
  lemma EverythingElseFails(s: State, id: nat) returns (run: seq<Event>, t: State)
    requires Inv(s) && id in s.uploaders && s.uploaders[id].phase == Arrived
    requires !Welcome(s.session, s.uploaders[id]) && !Repeats(s.session, s.uploaders[id])
    ensures Legal(s, run) && t == After(s, run) && (run == [Reserve(id)] || run == [Reserve(id), Link(id), Release(id)])
    ensures id in t.uploaders && t.uploaders[id].phase == Answered(false) && t.session.files == s.session.files
    ensures forall j :: j in t.session.rows ==> j in s.session.rows && t.session.rows[j] == s.session.rows[j]
    ensures forall j :: j in s.session.rows && s.session.rows[j].reservation == Confirmed ==> j in t.session.rows
  {
    hide Stored, Legal, After;
    var u := s.uploaders[id];
    var reserved := Apply(s, Reserve(id));
    if Reservable(s.session, u) {
      FileDiffers(s, id);
      var linked := Apply(reserved, Link(id));
      run, t := [Reserve(id), Link(id), Release(id)], Apply(linked, Release(id));
      Three(s, Reserve(id), Link(id), Release(id));
    } else {
      ConfirmedNeedsSession(s.session, u);
      Nothing(s);
      Then(s, [], Reserve(id));
      run, t := [Reserve(id)], reserved;
      assert [] + [Reserve(id)] == run;
    }
  }

  lemma FileDiffers(s: State, id: nat)
    requires id in s.uploaders && s.uploaders[id].phase == Arrived
    requires Reservable(s.session, s.uploaders[id]) && !Welcome(s.session, s.uploaders[id])
    ensures
      var r := s.uploaders[id].request;
      r.chunkNumber in s.session.files && s.session.files[r.chunkNumber] != r.content
  {
    hide Stored;
  }

  lemma ConfirmedNeedsSession(s: Session, u: Uploader)
    requires !Repeats(s, u)
    ensures !AlreadyConfirmed(s, u)
  {
  }

  // ---- a whole file ----

  /** The first `n` requests were answered with success, and nothing else is in the session. */
  ghost predicate DeliveredFirst(s: State, identifier: string, requests: seq<Request>, n: nat)
    requires n <= |requests|
  {
    && (forall k :: k in s.session.rows <==> 1 <= k <= n)
    && (forall k :: k in s.session.files ==> 1 <= k <= n)
    && (n > 0 ==> s.session.identifier == Some(identifier) && s.session.totalChunks == |requests|)
    && Stored(s.session.rows, |requests|) == |Flatten(Contents(requests[..n]))|
    && (forall i :: i in s.uploaders <==> 0 <= i < n)
    && forall i: nat :: i < n ==> s.uploaders[i] == Uploader(identifier, requests[i], Answered(true))
  }

  lemma {:induction false} PrefixIsNoLonger(parts: seq<Bytes>, n: nat)
    requires n <= |parts|
    ensures |Flatten(parts[..n])| <= |Flatten(parts)|
    decreases |parts|
  {
    if n == |parts| {
      assert parts[..n] == parts;
    } else {
      var m := |parts| - 1;
      PrefixIsNoLonger(parts[..m], n);
      assert parts[..m][..n] == parts[..n];
    }
  }

  lemma RoomForNext(maxBytes: nat, file: Bytes, chunkSize: nat, requests: seq<Request>, n: nat)
    requires chunkSize > 0 && CutOf(file, chunkSize, requests) && |file| <= maxBytes && n < |requests|
    ensures |Flatten(Contents(requests[..n + 1]))| == |Flatten(Contents(requests[..n]))| + |requests[n].content| <= maxBytes
  {
    PrefixIsNoLonger(Contents(requests), n + 1);
    assert Contents(requests)[..n + 1] == Contents(requests[..n + 1]);
    assert Contents(requests[..n + 1])[..n] == Contents(requests[..n]);
  }

  lemma DeliversNext(s: State, identifier: string, maxBytes: nat, file: Bytes, chunkSize: nat, requests: seq<Request>, n: nat)
    returns (u: State)
    requires chunkSize > 0 && CutOf(file, chunkSize, requests) && |file| <= maxBytes && n < |requests|
    requires DeliveredFirst(s, identifier, requests, n) && s.session.maxBytes == maxBytes
    ensures Enabled(s, Arrive(n, identifier, requests[n])) && Legal(Apply(s, Arrive(n, identifier, requests[n])), Serving(n))
    ensures u == After(Apply(s, Arrive(n, identifier, requests[n])), Serving(n))
    ensures DeliveredFirst(u, identifier, requests, n + 1) && u.session.maxBytes == maxBytes
  {
    hide Legal, After, Enabled, Serving, Stored;
    ArrivesWelcome(s, identifier, maxBytes, file, chunkSize, requests, n);
    var t := Apply(s, Arrive(n, identifier, requests[n]));
    WelcomeSucceeds(t, n);
    u := After(t, Serving(n));
    RoomForNext(maxBytes, file, chunkSize, requests, n);
    StoredPut(s.session.rows, n + 1, Row(requests[n].content, Confirmed), |requests|);
  }

  lemma ArrivesWelcome(s: State, identifier: string, maxBytes: nat, file: Bytes, chunkSize: nat, requests: seq<Request>, n: nat)
    requires chunkSize > 0 && CutOf(file, chunkSize, requests) && |file| <= maxBytes && n < |requests|
    requires DeliveredFirst(s, identifier, requests, n) && s.session.maxBytes == maxBytes
    ensures Enabled(s, Arrive(n, identifier, requests[n]))
    ensures
      var t := Apply(s, Arrive(n, identifier, requests[n]));
      && t == State(s.session, s.uploaders[n := Uploader(identifier, requests[n], Arrived)])
      && Welcome(t.session, t.uploaders[n])
  {
    hide Stored;
    RoomForNext(maxBytes, file, chunkSize, requests, n);
    StoredNothing(s.session.totalChunks);
    if n == 0 { assert s.session.rows == map[]; }
  }

  lemma {:induction false} Joined(s: State, run: seq<Event>, more: seq<Event>)
    requires Legal(s, run) && Legal(After(s, run), more)
    ensures Legal(s, run + more) && After(s, run + more) == After(After(s, run), more)
    decreases |run|
  {
    hide Enabled, Apply;
    if run == [] {
      assert run + more == more;
    } else {
      Joined(Apply(s, run[0]), run[1..], more);
      assert (run + more)[0] == run[0] && (run + more)[1..] == run[1..] + more;
    }
  }

  lemma {:induction false} DeliversFirst(maxBytes: nat, leaseSeconds: nat, identifier: string, file: Bytes, chunkSize: nat,
                                         requests: seq<Request>, n: nat) returns (run: seq<Event>, s: State)
    requires chunkSize > 0 && CutOf(file, chunkSize, requests) && |file| <= maxBytes && n <= |requests|
    ensures Reached(maxBytes, leaseSeconds, run, s)
    ensures DeliveredFirst(s, identifier, requests, n) && s.session.maxBytes == maxBytes
    decreases n
  {
    hide CutOf, DeliveredFirst, Enabled, Apply, Serving;
    var start := Initial(maxBytes, leaseSeconds);
    if n == 0 {
      run, s := [], start;
      StartsEmpty(maxBytes, leaseSeconds, identifier, requests);
    } else {
      var before, t := DeliversFirst(maxBytes, leaseSeconds, identifier, file, chunkSize, requests, n - 1);
      s := DeliversNext(t, identifier, maxBytes, file, chunkSize, requests, n - 1);
      Then(start, before, Arrive(n - 1, identifier, requests[n - 1]));
      Joined(start, before + [Arrive(n - 1, identifier, requests[n - 1])], Serving(n - 1));
      run := before + [Arrive(n - 1, identifier, requests[n - 1])] + Serving(n - 1);
    }
  }

  lemma StartsEmpty(maxBytes: nat, leaseSeconds: nat, identifier: string, requests: seq<Request>)
    ensures DeliveredFirst(Initial(maxBytes, leaseSeconds), identifier, requests, 0)
  {
    StoredNothing(|requests|);
    assert Contents(requests[..0]) == [];
  }

  /** Every file inside the quota can be uploaded, whatever the chunk size, and is assembled as it was. */
  lemma EveryFileArrives(maxBytes: nat, leaseSeconds: nat, identifier: string, file: Bytes, chunkSize: nat, requests: seq<Request>)
    returns (run: seq<Event>, s: State)
    requires chunkSize > 0 && CutOf(file, chunkSize, requests) && |file| <= maxBytes
    ensures Reached(maxBytes, leaseSeconds, run, s)
    ensures forall i :: 0 <= i < |requests| ==> Delivered(s, requests[i])
    ensures Complete(s.session.files, |requests|) && Assembled(s.session.files, |requests|) == file
  {
    hide CutOf, Reached;
    run, s := DeliversFirst(maxBytes, leaseSeconds, identifier, file, chunkSize, requests, |requests|);
    forall i | 0 <= i < |requests| ensures Delivered(s, requests[i]) {
      assert s.uploaders[i] == Uploader(identifier, requests[i], Answered(true));
    }
    UploadRoundTrip(maxBytes, leaseSeconds, run, s, file, chunkSize, requests);
  }
}
