// From a request for a document to the notification that it is ready: every relay on the way may
// crash and repeat itself, and the effects happen once.
module Documents {
  import opened Model
  import opened Paging

  datatype Kind = TransportCard | TripTask | HandoverProtocol | ServiceReport | CancellationNotice | DeliveryConfirmation

  // Both subjects the document service consumes. A completed delivery is confirmed under its order.
  datatype Message =
    | DocumentRequested(reference: Id, kind: Kind, order: Id, user: Id, recipients: seq<Id>)
    | DeliveryCompleted(order: Id, user: Id, recipients: seq<Id>)

  datatype Document = Document(order: Id, reference: Id, kind: Kind, owner: Id)
  datatype ReadyEvent = ReadyEvent(eventId: Id, document: Id, order: Id, user: Id, kind: Kind)
  datatype Row = Row(ready: ReadyEvent, published: bool)
  datatype Notification = Notification(document: Id, user: Id)

  predicate WellFormed(m: Message) { m.DocumentRequested? ==> m.kind != DeliveryConfirmation }

  function KindOf(m: Message): Kind { if m.DocumentRequested? then m.kind else DeliveryConfirmation }

  function ReferenceOf(m: Message): Id { if m.DocumentRequested? then m.reference else m.order }

  function PeopleOf(m: Message): set<Id> { {m.user} + set u | u in m.recipients }

  function DocumentOf(m: Message): Document { Document(m.order, ReferenceOf(m), KindOf(m), m.user) }

  type Worker = nat

  // `looked`: workers between finding no document and inserting one. `stream` is what was published,
  // `handled` and `acked` what was acknowledged, `missed` the events whose user was gone, `source` the
  // message each document was made for.
  datatype State = State(
    documents: map<Id, Document>, shared: set<(Id, Id)>, outbox: map<Id, Row>,
    looked: map<Worker, Message>, handled: set<Message>,
    stream: set<ReadyEvent>, inbox: set<Id>, notifications: map<Id, Notification>, missed: set<Id>, acked: set<Id>, source: map<Id, Message>)

  const BLANK := State(map[], {}, map[], map[], {}, {}, {}, map[], {}, {}, map[])

  // ---- The document service -----------------------------------------------------------------------

  // The query of accept_operational_document, and that of accept_delivery, which goes by the order.
  predicate Found(documents: map<Id, Document>, m: Message) {
    exists d :: d in documents && documents[d].kind == KindOf(m)
      && (if m.DocumentRequested? then documents[d].reference == m.reference else documents[d].order == m.order)
  }

  // uq_documents_reference_type
  predicate Clashes(documents: map<Id, Document>, doc: Document) {
    exists d :: d in documents && documents[d].reference == doc.reference && documents[d].kind == doc.kind
  }

  predicate AllDistinct(ids: seq<Id>) { forall i, j :: 0 <= i < j < |ids| ==> ids[i] != ids[j] }

  function ReadyFor(id: Id, d: Id, doc: Document, user: Id): Row {
    Row(ReadyEvent(id, d, doc.order, user, doc.kind), false)
  }

  // One row per person, under the identifiers drawn for them.
  function ReadyRows(d: Id, doc: Document, people: seq<Id>, ids: seq<Id>): map<Id, Row>
    requires |people| <= |ids| && AllDistinct(ids)
  {
    map i | 0 <= i < |people| :: ids[i] := ReadyFor(ids[i], d, doc, people[i])
  }

  ghost function Listed(m: Message): seq<Id> {
    IdsAscend();
    Sorted(PeopleOf(m), Ascends)
  }

  predicate Ascends(x: Id, y: Id) { x < y }

  lemma IdsAscend()
    ensures TotalOrder(Ascends)
  {
  }

  // Whether the insertion would break a key; `ids` are the event identifiers drawn.
  ghost predicate Insertable(s: State, m: Message, d: Id, ids: seq<Id>) {
    !Clashes(s.documents, DocumentOf(m)) && d !in s.documents
    && |Listed(m)| <= |ids| && AllDistinct(ids) && forall i :: 0 <= i < |ids| ==> ids[i] !in s.outbox
  }

  // Everyone but the owner gets the document shared.
  function Shares(d: Id, people: set<Id>, owner: Id): set<(Id, Id)> {
    set u | u in people && u != owner :: (d, u)
  }

  ghost function Inserted(s: State, m: Message, d: Id, ids: seq<Id>): State
    requires Insertable(s, m, d, ids)
  {
    s.(documents := s.documents[d := DocumentOf(m)],
       shared := s.shared + Shares(d, PeopleOf(m), m.user),
       outbox := s.outbox + ReadyRows(d, DocumentOf(m), Listed(m), ids),
       source := s.source[d := m])
  }

  // ---- Steps ------------------------------------------------------------------------------------------

  datatype Event =
    | Look(worker: Worker, message: Message, acks: bool)
    | Insert(worker: Worker, document: Id, ids: seq<Id>, acks: bool)
    | Crash(worker: Worker)
    | Publish(batch: set<Id>, delivered: set<Id>, commits: bool)
    | Deliver(ready: ReadyEvent, note: Id, userExists: bool, commits: bool, acks: bool)

  function MessagesOf(outbox: map<Id, Row>, batch: set<Id>): set<ReadyEvent> {
    set e | e in batch && e in outbox :: outbox[e].ready
  }

  function PublishedIn(outbox: map<Id, Row>, batch: set<Id>): map<Id, Row> {
    map e | e in outbox :: if e in batch then outbox[e].(published := true) else outbox[e]
  }

  ghost function Step(s: State, e: Event): State {
    match e
    case Look(worker, m, acks) =>
      if worker in s.looked || !WellFormed(m) then s
      else if Found(s.documents, m) then s.(handled := if acks then s.handled + {m} else s.handled)
      else s.(looked := s.looked[worker := m])
    case Insert(worker, d, ids, acks) =>
      if worker !in s.looked then s
      else
        var m := s.looked[worker];
        var rest := s.(looked := s.looked - {worker});
        if !Insertable(s, m, d, ids) then rest
        else Inserted(rest, m, d, ids).(handled := if acks then s.handled + {m} else s.handled)
    case Crash(worker) => s.(looked := s.looked - {worker})
    case Publish(batch, delivered, commits) =>
      if !(delivered <= batch <= s.outbox.Keys) then s
      else s.(stream := s.stream + MessagesOf(s.outbox, delivered),
              outbox := if commits && delivered == batch then PublishedIn(s.outbox, batch) else s.outbox)
    case Deliver(ready, note, userExists, commits, acks) =>
      if ready !in s.stream || !commits || (ready.eventId !in s.inbox && userExists && note in s.notifications) then s
      else if ready.eventId in s.inbox then s.(acked := if acks then s.acked + {ready.eventId} else s.acked)
      else s.(inbox := s.inbox + {ready.eventId},
              notifications := if userExists then s.notifications[note := Notification(ready.document, ready.user)] else s.notifications,
              missed := if userExists then s.missed else s.missed + {ready.eventId},
              acked := if acks then s.acked + {ready.eventId} else s.acked)
  }

  // ---- What holds in every run ----------------------------------------------------------------------

  predicate Concerns(s: State, d: Id, u: Id) {
    d in s.documents && (u == s.documents[d].owner || (d, u) in s.shared)
  }

  predicate SameMatter(d: Document, e: Document) { d.reference == e.reference && d.kind == e.kind }

  // One document per reference and kind.
  ghost predicate OneDocument(s: State) {
    && (forall d, e :: d in s.documents && e in s.documents && SameMatter(s.documents[d], s.documents[e]) ==> d == e)
    && (forall d :: d in s.documents && s.documents[d].kind == DeliveryConfirmation ==> s.documents[d].reference == s.documents[d].order)
  }

  predicate Tells(row: Row, d: Id, u: Id) { row.ready.document == d && row.ready.user == u }

  ghost predicate EventsAddressed(s: State) {
    forall e :: e in s.outbox ==> s.outbox[e].ready.eventId == e && Concerns(s, s.outbox[e].ready.document, s.outbox[e].ready.user)
  }

  ghost predicate EventsDistinct(s: State) {
    forall e, f :: e in s.outbox && f in s.outbox && SamePerson(s.outbox[e].ready, s.outbox[f].ready) ==> e == f
  }

  predicate SamePerson(r: ReadyEvent, t: ReadyEvent) { r.document == t.document && r.user == t.user }

  ghost predicate Told(s: State, d: Id, u: Id) { exists e :: e in s.outbox && Tells(s.outbox[e], d, u) }

  ghost predicate EveryoneTold(s: State) {
    forall d, u :: Concerns(s, d, u) ==> Told(s, d, u)
  }

  ghost predicate SharesKnown(s: State) {
    forall p :: p in s.shared ==> p.0 in s.documents
  }

  // One ready event per document and person concerned, and none for anybody else.
  ghost predicate OneEvent(s: State) {
    EventsAddressed(s) && EventsDistinct(s) && EveryoneTold(s) && SharesKnown(s)
  }

  ghost predicate Streamed(s: State) {
    && (forall r :: r in s.stream ==> r.eventId in s.outbox && s.outbox[r.eventId].ready == r)
    && (forall e :: e in s.outbox && s.outbox[e].published ==> s.outbox[e].ready in s.stream)
  }

  predicate Says(n: Notification, r: ReadyEvent) { n.document == r.document && n.user == r.user }

  predicate Served(s: State, e: Id) { e in s.inbox && e !in s.missed && e in s.outbox }

  ghost predicate NotesFounded(s: State) {
    forall n :: n in s.notifications ==> exists e :: Served(s, e) && Says(s.notifications[n], s.outbox[e].ready)
  }

  ghost predicate NotesMade(s: State) {
    forall e :: Served(s, e) ==> exists n :: n in s.notifications && Says(s.notifications[n], s.outbox[e].ready)
  }

  ghost predicate NotesDistinct(s: State) {
    forall m, n :: m in s.notifications && n in s.notifications && s.notifications[m] == s.notifications[n] ==> m == n
  }

  ghost predicate Inboxed(s: State) {
    s.inbox <= s.outbox.Keys && s.missed <= s.inbox && s.acked <= s.inbox
  }

  // One notification per event received for an existing user, and no other.
  ghost predicate OneNotification(s: State) {
    Inboxed(s) && NotesFounded(s) && NotesMade(s) && NotesDistinct(s)
  }

  ghost predicate Handled(s: State) {
    && (forall m :: m in s.handled ==> WellFormed(m) && Clashes(s.documents, DocumentOf(m)))
    && (forall w :: w in s.looked ==> WellFormed(s.looked[w]))
  }

  // A document says what its message says, and its events what it says.
  predicate Renders(doc: Document, m: Message) {
    match m
    case DocumentRequested(reference, kind, order, user, _) => doc == Document(order, reference, kind, user)
    case DeliveryCompleted(order, user, _) => doc == Document(order, order, DeliveryConfirmation, user)
  }

  predicate Addressee(m: Message, u: Id) { u == m.user || u in m.recipients }

  predicate Announces(r: ReadyEvent, doc: Document) { r.order == doc.order && r.kind == doc.kind }

  // It concerns the user and the recipients of its message, and nobody else.
  ghost predicate Sourced(s: State) {
    && s.source.Keys == s.documents.Keys
    && (forall d :: d in s.documents ==> Renders(s.documents[d], s.source[d]))
    && (forall d, u :: d in s.documents ==> (Concerns(s, d, u) <==> Addressee(s.source[d], u)))
    && (forall e :: e in s.outbox ==>
          s.outbox[e].ready.document in s.documents && Announces(s.outbox[e].ready, s.documents[s.outbox[e].ready.document]))
  }

  ghost predicate Inv(s: State) {
    OneDocument(s) && OneEvent(s) && Streamed(s) && OneNotification(s) && Handled(s) && Sourced(s)
  }

  // ---- Every step keeps it ----------------------------------------------------------------------------

  // The two queries look for the same row.
  lemma FoundIsClash(s: State, m: Message)
    requires OneDocument(s) && WellFormed(m)
    ensures Found(s.documents, m) <==> Clashes(s.documents, DocumentOf(m))
  {
  }

  lemma InsertOneDocument(s: State, m: Message, d: Id, ids: seq<Id>)
    requires OneDocument(s) && WellFormed(m) && Insertable(s, m, d, ids)
    ensures OneDocument(Inserted(s, m, d, ids))
  {
    hide Listed, ReadyRows;
  }

  lemma InsertConcerns(s: State, m: Message, d: Id, ids: seq<Id>, c: Id, u: Id)
    requires SharesKnown(s) && Insertable(s, m, d, ids)
    ensures Concerns(Inserted(s, m, d, ids), c, u) <==> Concerns(s, c, u) || (c == d && u in PeopleOf(m))
    ensures Concerns(s, c, u) ==> c != d
  {
    hide Listed, ReadyRows;
  }

  // The rows of one insertion, by number.
  lemma NewRow(s: State, m: Message, d: Id, ids: seq<Id>, i: nat)
    requires Insertable(s, m, d, ids) && i < |Listed(m)|
    ensures var rows := ReadyRows(d, DocumentOf(m), Listed(m), ids);
            ids[i] in rows && rows[ids[i]] == ReadyFor(ids[i], d, DocumentOf(m), Listed(m)[i]) && ids[i] !in s.outbox
    ensures Listed(m)[i] in PeopleOf(m)
  {
    IdsAscend();
    assert Listed(m)[i] in Listed(m);
    hide Listed, TotalOrder;
  }

  lemma ListedPeople(m: Message)
    ensures forall u :: u in PeopleOf(m) <==> u in Listed(m)
    ensures forall i, j :: 0 <= i < j < |Listed(m)| ==> Listed(m)[i] != Listed(m)[j]
  {
    IdsAscend();
  }

  lemma NewRowNumber(s: State, m: Message, d: Id, ids: seq<Id>, e: Id) returns (i: nat)
    requires Insertable(s, m, d, ids) && e in ReadyRows(d, DocumentOf(m), Listed(m), ids)
    ensures i < |Listed(m)| && ids[i] == e
  {
    hide Listed;
    i :| 0 <= i < |Listed(m)| && ids[i] == e;
  }

  lemma InsertAddressed(s: State, m: Message, d: Id, ids: seq<Id>)
    requires EventsAddressed(s) && SharesKnown(s) && Insertable(s, m, d, ids)
    ensures EventsAddressed(Inserted(s, m, d, ids))
  {
    hide Listed, ReadyRows, Concerns, PeopleOf;
    var after := Inserted(s, m, d, ids);
    var rows := ReadyRows(d, DocumentOf(m), Listed(m), ids);
    forall e | e in after.outbox
      ensures after.outbox[e].ready.eventId == e && Concerns(after, after.outbox[e].ready.document, after.outbox[e].ready.user)
    {
      InsertConcerns(s, m, d, ids, after.outbox[e].ready.document, after.outbox[e].ready.user);
      if e in rows {
        var i := NewRowNumber(s, m, d, ids, e);
        NewRow(s, m, d, ids, i);
      }
    }
  }

  lemma InsertDistinct(s: State, m: Message, d: Id, ids: seq<Id>)
    requires EventsAddressed(s) && EventsDistinct(s) && Insertable(s, m, d, ids)
    ensures EventsDistinct(Inserted(s, m, d, ids))
  {
    hide Listed, ReadyRows, PeopleOf;
    var after := Inserted(s, m, d, ids);
    var rows := ReadyRows(d, DocumentOf(m), Listed(m), ids);
    ListedPeople(m);
    forall e, f | e in after.outbox && f in after.outbox && SamePerson(after.outbox[e].ready, after.outbox[f].ready) ensures e == f {
      if e in rows {
        var i := NewRowNumber(s, m, d, ids, e);
        NewRow(s, m, d, ids, i);
      }
      if f in rows {
        var j := NewRowNumber(s, m, d, ids, f);
        NewRow(s, m, d, ids, j);
      }
    }
  }

  lemma InsertTold(s: State, m: Message, d: Id, ids: seq<Id>)
    requires EveryoneTold(s) && SharesKnown(s) && Insertable(s, m, d, ids)
    ensures EveryoneTold(Inserted(s, m, d, ids))
  {
    hide Listed, ReadyRows, PeopleOf, Concerns;
    var after := Inserted(s, m, d, ids);
    ListedPeople(m);
    forall c, u | Concerns(after, c, u) ensures Told(after, c, u) {
      InsertConcerns(s, m, d, ids, c, u);
      if Concerns(s, c, u) {
        var e :| e in s.outbox && Tells(s.outbox[e], c, u);
        OldRow(s, m, d, ids, e);
        assert Tells(after.outbox[e], c, u);
      } else {
        var i :| 0 <= i < |Listed(m)| && Listed(m)[i] == u;
        NewRow(s, m, d, ids, i);
        assert Tells(after.outbox[ids[i]], c, u);
      }
    }
  }

  lemma OldRow(s: State, m: Message, d: Id, ids: seq<Id>, e: Id)
    requires Insertable(s, m, d, ids) && e in s.outbox
    ensures e in Inserted(s, m, d, ids).outbox && Inserted(s, m, d, ids).outbox[e] == s.outbox[e]
  {
    hide Listed;
  }

  lemma InsertOneEvent(s: State, m: Message, d: Id, ids: seq<Id>)
    requires OneEvent(s) && Insertable(s, m, d, ids)
    ensures OneEvent(Inserted(s, m, d, ids))
  {
    hide EventsAddressed, EventsDistinct, EveryoneTold, Insertable, Listed, ReadyRows, PeopleOf;
    InsertAddressed(s, m, d, ids);
    InsertDistinct(s, m, d, ids);
    InsertTold(s, m, d, ids);
  }

  // Rows downstream of the outbox only need the old rows to stay.
  lemma DownstreamStays(s: State, after: State)
    requires OneNotification(s) && Streamed(s)
    requires after == s.(documents := after.documents, shared := after.shared, outbox := after.outbox, looked := after.looked,
                         handled := after.handled, source := after.source)
    requires forall e :: e in s.outbox ==> e in after.outbox && after.outbox[e] == s.outbox[e]
    requires forall e :: e in after.outbox && e !in s.outbox ==> !after.outbox[e].published
    ensures OneNotification(after) && Streamed(after)
  {
    hide NotesFounded, NotesMade, Streamed;
    FoundedStays(s, after);
    MadeStays(s, after);
    StreamStays(s, after);
  }

  lemma StreamStays(s: State, after: State)
    requires Streamed(s) && after.stream == s.stream
    requires forall e :: e in s.outbox ==> e in after.outbox && after.outbox[e] == s.outbox[e]
    requires forall e :: e in after.outbox && e !in s.outbox ==> !after.outbox[e].published
    ensures Streamed(after)
  {
  }

  lemma FoundedStays(s: State, after: State)
    requires NotesFounded(s) && after.inbox == s.inbox && after.missed == s.missed && after.notifications == s.notifications
    requires forall e :: e in s.outbox ==> e in after.outbox && after.outbox[e].ready == s.outbox[e].ready
    ensures NotesFounded(after)
  {
    forall n | n in after.notifications ensures exists e :: Served(after, e) && Says(after.notifications[n], after.outbox[e].ready) {
      var e :| Served(s, e) && Says(s.notifications[n], s.outbox[e].ready);
      assert Served(after, e);
    }
  }

  lemma MadeStays(s: State, after: State)
    requires NotesMade(s) && Inboxed(s) && after.inbox == s.inbox && after.missed == s.missed && after.notifications == s.notifications
    requires forall e :: e in s.outbox ==> e in after.outbox && after.outbox[e].ready == s.outbox[e].ready
    ensures NotesMade(after)
  {
    forall e | Served(after, e) ensures exists n :: n in after.notifications && Says(after.notifications[n], after.outbox[e].ready) {
      assert Served(s, e);
      var n :| n in s.notifications && Says(s.notifications[n], s.outbox[e].ready);
    }
  }

  lemma InsertHandled(s: State, m: Message, d: Id, ids: seq<Id>)
    requires Handled(s) && Insertable(s, m, d, ids)
    ensures Handled(Inserted(s, m, d, ids)) && Clashes(Inserted(s, m, d, ids).documents, DocumentOf(m))
  {
    hide Listed, ReadyRows, PeopleOf;
    var after := Inserted(s, m, d, ids);
    assert after.documents[d] == DocumentOf(m);
    forall n | n in after.handled ensures WellFormed(n) && Clashes(after.documents, DocumentOf(n)) {
      var c :| c in s.documents && s.documents[c].reference == ReferenceOf(n) && s.documents[c].kind == KindOf(n);
      assert after.documents[c] == s.documents[c];
    }
  }

  lemma Parts(s: State)
    requires OneEvent(s)
    ensures EventsAddressed(s) && EventsDistinct(s) && EveryoneTold(s) && SharesKnown(s)
  {
    hide EventsAddressed, EventsDistinct, EveryoneTold, SharesKnown;
  }

  lemma InsertSourced(s: State, m: Message, d: Id, ids: seq<Id>)
    requires Sourced(s) && SharesKnown(s) && Insertable(s, m, d, ids)
    ensures Sourced(Inserted(s, m, d, ids))
  {
    hide Listed, ReadyRows, Concerns;
    var after := Inserted(s, m, d, ids);
    var rows := ReadyRows(d, DocumentOf(m), Listed(m), ids);
    forall c, u | c in after.documents ensures Concerns(after, c, u) <==> Addressee(after.source[c], u) {
      InsertConcerns(s, m, d, ids, c, u);
      UnknownConcerns(s, d, u);
    }
    forall e | e in after.outbox
      ensures after.outbox[e].ready.document in after.documents
              && Announces(after.outbox[e].ready, after.documents[after.outbox[e].ready.document])
    {
      if e in rows {
        var i := NewRowNumber(s, m, d, ids, e);
        NewRow(s, m, d, ids, i);
      }
    }
  }

  lemma UnknownConcerns(s: State, d: Id, u: Id)
    ensures d !in s.documents ==> !Concerns(s, d, u)
  {
  }

  lemma SameSource(s: State, after: State)
    requires Sourced(s) && after.documents == s.documents && after.shared == s.shared && after.source == s.source
    requires after.outbox.Keys == s.outbox.Keys && forall e :: e in s.outbox ==> after.outbox[e].ready == s.outbox[e].ready
    ensures Sourced(after)
  {
    forall d, u ensures Concerns(after, d, u) == Concerns(s, d, u) {}
  }

  lemma InsertKeeps(s: State, m: Message, d: Id, ids: seq<Id>)
    requires Inv(s) && WellFormed(m) && Insertable(s, m, d, ids)
    ensures Inv(Inserted(s, m, d, ids)) && Clashes(Inserted(s, m, d, ids).documents, DocumentOf(m))
  {
    hide OneDocument, OneEvent, Handled, OneNotification, Streamed, Listed, Clashes, Sourced;
    assert SharesKnown(s) by { Parts(s); }
    InsertSourced(s, m, d, ids);
    InsertOneDocument(s, m, d, ids);
    InsertOneEvent(s, m, d, ids);
    InsertHandled(s, m, d, ids);
    forall e | e in s.outbox ensures e in Inserted(s, m, d, ids).outbox && Inserted(s, m, d, ids).outbox[e] == s.outbox[e] {
      OldRow(s, m, d, ids, e);
    }
    NewUnpublished(s, m, d, ids);
    DownstreamStays(s, Inserted(s, m, d, ids));
  }

  lemma NewUnpublished(s: State, m: Message, d: Id, ids: seq<Id>)
    requires Insertable(s, m, d, ids)
    ensures forall e :: e in Inserted(s, m, d, ids).outbox && e !in s.outbox ==> !Inserted(s, m, d, ids).outbox[e].published
  {
    hide Listed;
  }

  // Workers and acknowledgements aside, the rows are what matters.
  lemma SameRows(s: State, after: State)
    requires Inv(s) && after == s.(looked := after.looked, handled := after.handled) && Handled(after)
    ensures Inv(after)
  {
    hide OneNotification, Streamed, Handled, Sourced;
    SameEvents(s, after);
    SameSource(s, after);
    DownstreamStays(s, after);
  }

  lemma SameEvents(s: State, after: State)
    requires OneEvent(s) && after.documents == s.documents && after.shared == s.shared && after.outbox.Keys == s.outbox.Keys
    requires forall e :: e in s.outbox ==> after.outbox[e].ready == s.outbox[e].ready
    ensures OneEvent(after)
  {
    hide EveryoneTold;
    assert forall c, u :: Concerns(after, c, u) == Concerns(s, c, u);
    SameTold(s, after);
  }

  lemma SameTold(s: State, after: State)
    requires EveryoneTold(s) && after.documents == s.documents && after.shared == s.shared && after.outbox.Keys == s.outbox.Keys
    requires forall e :: e in s.outbox ==> after.outbox[e].ready == s.outbox[e].ready
    ensures EveryoneTold(after)
  {
    forall d, u | Concerns(after, d, u) ensures Told(after, d, u) {
      assert Concerns(s, d, u);
      var e :| e in s.outbox && Tells(s.outbox[e], d, u);
      assert Tells(after.outbox[e], d, u);
    }
  }

  lemma PublishKeeps(s: State, batch: set<Id>, delivered: set<Id>, commits: bool)
    requires Inv(s)
    ensures Inv(Step(s, Publish(batch, delivered, commits)))
  {
    var after := Step(s, Publish(batch, delivered, commits));
    PublishStreams(s, batch, delivered, commits);
    hide OneEvent, NotesFounded, NotesMade, NotesDistinct, Streamed, OneDocument, Handled, Sourced;
    PublishSame(s, batch, delivered, commits);
    hide Step;
    SameEvents(s, after);
    SameSource(s, after);
    FoundedStays(s, after);
    MadeStays(s, after);
    SameOthers(s, after);
  }

  lemma PublishStreams(s: State, batch: set<Id>, delivered: set<Id>, commits: bool)
    requires Streamed(s) && EventsAddressed(s)
    ensures Streamed(Step(s, Publish(batch, delivered, commits)))
  {
  }

  lemma PublishSame(s: State, batch: set<Id>, delivered: set<Id>, commits: bool)
    ensures var after := Step(s, Publish(batch, delivered, commits));
            && after == s.(stream := after.stream, outbox := after.outbox) && after.outbox.Keys == s.outbox.Keys
            && forall e :: e in s.outbox ==> after.outbox[e].ready == s.outbox[e].ready
  {
  }

  lemma SameOthers(s: State, after: State)
    requires OneDocument(s) && Handled(s) && NotesDistinct(s) && Inboxed(s)
    requires after == s.(stream := after.stream, outbox := after.outbox) && after.outbox.Keys == s.outbox.Keys
    ensures OneDocument(after) && Handled(after) && NotesDistinct(after) && Inboxed(after)
  {
  }

  // An event taken in for the first time is about nobody notified before.
  lemma NobodyNotified(s: State, ready: ReadyEvent, n: Id)
    requires NotesFounded(s) && EventsDistinct(s) && Streamed(s) && ready in s.stream && ready.eventId !in s.inbox
    requires n in s.notifications
    ensures !Says(s.notifications[n], ready)
  {
    var e :| Served(s, e) && Says(s.notifications[n], s.outbox[e].ready);
    assert s.outbox[ready.eventId].ready == ready && (SamePerson(s.outbox[e].ready, ready) ==> e == ready.eventId);
  }

  lemma DeliverNotifies(s: State, ready: ReadyEvent, note: Id, userExists: bool, commits: bool, acks: bool)
    requires OneNotification(s) && EventsDistinct(s) && Streamed(s)
    ensures OneNotification(Step(s, Deliver(ready, note, userExists, commits, acks)))
  {
    DeliverInboxed(s, ready, note, userExists, commits, acks);
    DeliverDistinct(s, ready, note, userExists, commits, acks);
    DeliverFounded(s, ready, note, userExists, commits, acks);
    DeliverMade(s, ready, note, userExists, commits, acks);
    hide NotesFounded, NotesMade, NotesDistinct, Inboxed, EventsDistinct, Streamed, Step;
  }

  lemma DeliverInboxed(s: State, ready: ReadyEvent, note: Id, userExists: bool, commits: bool, acks: bool)
    requires Inboxed(s) && Streamed(s)
    ensures Inboxed(Step(s, Deliver(ready, note, userExists, commits, acks)))
  {
  }

  lemma DeliverDistinct(s: State, ready: ReadyEvent, note: Id, userExists: bool, commits: bool, acks: bool)
    requires NotesDistinct(s) && NotesFounded(s) && EventsDistinct(s) && Streamed(s)
    ensures NotesDistinct(Step(s, Deliver(ready, note, userExists, commits, acks)))
  {
    hide NotesFounded, EventsDistinct, Streamed;
    if ready in s.stream && ready.eventId !in s.inbox {
      forall n | n in s.notifications ensures !Says(s.notifications[n], ready) { NobodyNotified(s, ready, n); }
    }
  }

  lemma DeliverFounded(s: State, ready: ReadyEvent, note: Id, userExists: bool, commits: bool, acks: bool)
    requires NotesFounded(s) && Inboxed(s) && Streamed(s)
    ensures NotesFounded(Step(s, Deliver(ready, note, userExists, commits, acks)))
  {
    var after := Step(s, Deliver(ready, note, userExists, commits, acks));
    forall n | n in after.notifications ensures exists e :: Served(after, e) && Says(after.notifications[n], after.outbox[e].ready) {
      if n in s.notifications && after.notifications[n] == s.notifications[n] {
        var e :| Served(s, e) && Says(s.notifications[n], s.outbox[e].ready);
        assert Served(after, e);
      } else {
        assert Served(after, ready.eventId);
      }
    }
  }

  lemma DeliverMade(s: State, ready: ReadyEvent, note: Id, userExists: bool, commits: bool, acks: bool)
    requires NotesMade(s) && Inboxed(s) && Streamed(s)
    ensures NotesMade(Step(s, Deliver(ready, note, userExists, commits, acks)))
  {
    var after := Step(s, Deliver(ready, note, userExists, commits, acks));
    forall e | Served(after, e) ensures exists n :: n in after.notifications && Says(after.notifications[n], after.outbox[e].ready) {
      if Served(s, e) {
        var n :| n in s.notifications && Says(s.notifications[n], s.outbox[e].ready);
        assert n in after.notifications && after.notifications[n] == s.notifications[n];
      } else {
        assert after.notifications[note] == Notification(ready.document, ready.user);
      }
    }
  }

  lemma DeliverAside(s: State, ready: ReadyEvent, note: Id, userExists: bool, commits: bool, acks: bool)
    ensures var after := Step(s, Deliver(ready, note, userExists, commits, acks));
            after == s.(inbox := after.inbox, notifications := after.notifications, missed := after.missed, acked := after.acked)
  {
  }

  lemma DeliverKeeps(s: State, ready: ReadyEvent, note: Id, userExists: bool, commits: bool, acks: bool)
    requires Inv(s)
    ensures Inv(Step(s, Deliver(ready, note, userExists, commits, acks)))
  {
    hide Step, OneNotification, EventsAddressed, EventsDistinct, EveryoneTold, Sourced;
    DeliverAside(s, ready, note, userExists, commits, acks);
    DeliverNotifies(s, ready, note, userExists, commits, acks);
    hide OneEvent;
    SameSource(s, Step(s, Deliver(ready, note, userExists, commits, acks)));
    SameEvents(s, Step(s, Deliver(ready, note, userExists, commits, acks)));
  }

  lemma LookKeeps(s: State, worker: Worker, m: Message, acks: bool)
    requires Inv(s)
    ensures Inv(Step(s, Look(worker, m, acks)))
  {
    hide OneEvent, Streamed, OneNotification, OneDocument, Sourced;
    LookHandled(s, worker, m, acks);
    hide Handled, Found;
    SameRows(s, Step(s, Look(worker, m, acks)));
  }

  lemma LookHandled(s: State, worker: Worker, m: Message, acks: bool)
    requires OneDocument(s) && Handled(s)
    ensures Handled(Step(s, Look(worker, m, acks)))
  {
    if WellFormed(m) { FoundIsClash(s, m); }
    hide OneDocument, Found, Clashes;
  }

  lemma InsertStepKeeps(s: State, worker: Worker, d: Id, ids: seq<Id>, acks: bool)
    requires Inv(s)
    ensures Inv(Step(s, Insert(worker, d, ids, acks)))
  {
    hide OneDocument, OneEvent, Streamed, OneNotification, Clashes, Insertable, Inserted, Sourced;
    if worker in s.looked {
      var m, rest := s.looked[worker], s.(looked := s.looked - {worker});
      SameRows(s, rest);
      SameInsertable(s, rest, m, d, ids);
      if Insertable(s, m, d, ids) {
        InsertKeeps(rest, m, d, ids);
        InsertedAside(rest, m, d, ids);
        SameRows(Inserted(rest, m, d, ids), Step(s, Insert(worker, d, ids, acks)));
      }
    }
  }

  lemma InsertedAside(s: State, m: Message, d: Id, ids: seq<Id>)
    requires Insertable(s, m, d, ids)
    ensures Inserted(s, m, d, ids).handled == s.handled && Inserted(s, m, d, ids).looked == s.looked
  {
    hide Listed, ReadyRows;
  }

  lemma SameInsertable(s: State, rest: State, m: Message, d: Id, ids: seq<Id>)
    requires rest == s.(looked := rest.looked)
    ensures Insertable(s, m, d, ids) == Insertable(rest, m, d, ids)
  {
    hide Listed, Clashes;
  }

  lemma StepKeeps(s: State, e: Event)
    requires Inv(s)
    ensures Inv(Step(s, e))
  {
    hide Inv;
    match e {
      case Look(worker, m, acks) => LookKeeps(s, worker, m, acks);
      case Insert(worker, d, ids, acks) => InsertStepKeeps(s, worker, d, ids, acks);
      case Crash(worker) => CrashKeeps(s, worker);
      case Publish(batch, delivered, commits) => PublishKeeps(s, batch, delivered, commits);
      case Deliver(ready, note, userExists, commits, acks) => DeliverKeeps(s, ready, note, userExists, commits, acks);
    }
  }

  lemma CrashKeeps(s: State, worker: Worker)
    requires Inv(s)
    ensures Inv(Step(s, Crash(worker)))
  {
    hide OneDocument, OneEvent, Streamed, OneNotification, Clashes, Sourced;
    SameRows(s, Step(s, Crash(worker)));
  }

  // ---- Runs -------------------------------------------------------------------------------------------

  ghost function Run(s: State, events: seq<Event>): State
    decreases |events|
  {
    if events == [] then s else Run(Step(s, events[0]), events[1..])
  }

  lemma {:induction false} RunKeeps(s: State, events: seq<Event>)
    requires Inv(s)
    ensures Inv(Run(s, events))
    decreases |events|
  {
    hide Inv, Step;
    if events != [] {
      StepKeeps(s, events[0]);
      RunKeeps(Step(s, events[0]), events[1..]);
    }
  }

  lemma BlankHolds()
    ensures Inv(BLANK)
  {
  }

  // A handled request has exactly one document.
  ghost predicate RequestsServed(s: State) {
    && (forall m :: m in s.handled ==>
          exists d :: d in s.documents && s.documents[d].reference == ReferenceOf(m) && s.documents[d].kind == KindOf(m))
    && (forall d, e :: d in s.documents && e in s.documents && SameMatter(s.documents[d], s.documents[e]) ==> d == e)
  }

  // The user and the recipients of the message a document was made for have exactly one ready event
  // about it each, and nobody else has any; document and events say what the message said.
  ghost predicate PeopleTold(s: State) {
    && s.source.Keys == s.documents.Keys
    && (forall d, u :: d in s.documents ==> (Told(s, d, u) <==> u == s.source[d].user || u in s.source[d].recipients))
    && (forall d :: d in s.documents ==> Renders(s.documents[d], s.source[d]))
    && (forall e :: e in s.outbox ==>
          s.outbox[e].ready.document in s.documents && Announces(s.outbox[e].ready, s.documents[s.outbox[e].ready.document]))
    && (forall e, f :: e in s.outbox && f in s.outbox && SamePerson(s.outbox[e].ready, s.outbox[f].ready) ==> e == f)
  }

  // No two notifications say the same, each was told, and an event acknowledged for a user who was
  // there has one.
  ghost predicate UsersNotified(s: State) {
    && (forall m, n :: m in s.notifications && n in s.notifications && s.notifications[m] == s.notifications[n] ==> m == n)
    && (forall n :: n in s.notifications ==> Told(s, s.notifications[n].document, s.notifications[n].user))
    && (forall e :: e in s.acked && e !in s.missed ==>
          e in s.outbox && exists n :: n in s.notifications && Says(s.notifications[n], s.outbox[e].ready))
  }

  lemma InvServes(s: State)
    requires OneDocument(s) && Handled(s)
    ensures RequestsServed(s)
  {
  }

  lemma ToldExactly(s: State, d: Id, u: Id)
    requires OneEvent(s)
    ensures Told(s, d, u) <==> Concerns(s, d, u)
  {
    hide Concerns, EventsDistinct, SharesKnown;
    if Told(s, d, u) {
      var e :| e in s.outbox && Tells(s.outbox[e], d, u);
    }
  }

  lemma InvTells(s: State)
    requires OneEvent(s) && Sourced(s)
    ensures PeopleTold(s)
  {
    hide Concerns, Told, EventsAddressed, EveryoneTold, SharesKnown, Renders;
    forall d, u ensures Told(s, d, u) <==> Concerns(s, d, u) { ToldExactly(s, d, u); }
  }

  // What one insertion does, for either kind of message.
  lemma InsertionTells(s: State, m: Message, d: Id, ids: seq<Id>, u: Id)
    requires Inv(s) && WellFormed(m) && Insertable(s, m, d, ids)
    ensures Told(Inserted(s, m, d, ids), d, u) <==> u == m.user || u in m.recipients
  {
    InsertKeeps(s, m, d, ids);
    hide OneDocument, Streamed, OneNotification, Handled, Listed, ReadyRows, Insertable, Told, Concerns, PeopleOf, Renders;
    ToldExactly(Inserted(s, m, d, ids), d, u);
  }

  lemma InvNotifies(s: State)
    requires OneNotification(s)
    ensures UsersNotified(s)
  {
    hide NotesFounded, Told, NotesMade;
    NotesTold(s);
    forall e | e in s.acked && e !in s.missed
      ensures e in s.outbox && exists n :: n in s.notifications && Says(s.notifications[n], s.outbox[e].ready) {
      AcknowledgedIsNoted(s, e);
    }
  }

  lemma AcknowledgedIsNoted(s: State, e: Id)
    requires NotesMade(s) && Inboxed(s) && e in s.acked && e !in s.missed
    ensures e in s.outbox && exists n :: n in s.notifications && Says(s.notifications[n], s.outbox[e].ready)
  {
    assert Served(s, e);
  }

  lemma NotesTold(s: State)
    requires NotesFounded(s)
    ensures forall n :: n in s.notifications ==> Told(s, s.notifications[n].document, s.notifications[n].user)
  {
    forall n | n in s.notifications ensures Told(s, s.notifications[n].document, s.notifications[n].user) {
      var e :| Served(s, e) && Says(s.notifications[n], s.outbox[e].ready);
      assert Tells(s.outbox[e], s.notifications[n].document, s.notifications[n].user);
    }
  }

  // However often messages come, workers race and crash and publishers repeat themselves, the
  // effects of a request happen once.
  lemma ExactlyOnce(events: seq<Event>)
    ensures RequestsServed(Run(BLANK, events)) && PeopleTold(Run(BLANK, events)) && UsersNotified(Run(BLANK, events))
  {
    hide Run, OneDocument, OneEvent, OneNotification, Handled, Streamed, Sourced, RequestsServed, PeopleTold, UsersNotified;
    BlankHolds();
    RunKeeps(BLANK, events);
    InvServes(Run(BLANK, events));
    InvTells(Run(BLANK, events));
    InvNotifies(Run(BLANK, events));
  }

  // ---- What must happen -------------------------------------------------------------------------------

  // None of the identifiers drawn is in use.
  ghost predicate Unused(s: State, m: Message, d: Id, ids: seq<Id>) {
    d !in s.documents && AllDistinct(ids) && |PeopleOf(m)| <= |ids| && forall i :: 0 <= i < |ids| ==> ids[i] !in s.outbox
  }

  // A well-formed message that a worker takes up and nobody disturbs ends acknowledged, with its
  // document in place if there was none of its matter.
  lemma MessagesAreServed(s: State, worker: Worker, m: Message, d: Id, ids: seq<Id>)
    requires Inv(s) && worker !in s.looked && WellFormed(m) && Unused(s, m, d, ids)
    ensures var after := Step(Step(s, Look(worker, m, true)), Insert(worker, d, ids, true));
            && m in after.handled
            && (if Clashes(s.documents, DocumentOf(m)) then after.documents == s.documents && after.outbox == s.outbox
                else after.documents == s.documents[d := DocumentOf(m)] && after.source[d] == m)
  {
    hide Inv, Inserted, Found, Insertable, Clashes, Step, DocumentOf, Unused, WellFormed;
    QueriesAgree(s, m);
    if Clashes(s.documents, DocumentOf(m)) {
      OldMatter(s, worker, m, d, ids);
    } else {
      FreshInsertable(s, m, d, ids);
      NewMatter(s, worker, m, d, ids);
      InsertedDocuments(s, m, d, ids);
    }
  }

  lemma QueriesAgree(s: State, m: Message)
    requires Inv(s) && WellFormed(m)
    ensures Found(s.documents, m) <==> Clashes(s.documents, DocumentOf(m))
  {
    FoundIsClash(s, m);
  }

  lemma OldMatter(s: State, worker: Worker, m: Message, d: Id, ids: seq<Id>)
    requires worker !in s.looked && WellFormed(m) && Found(s.documents, m)
    ensures Step(Step(s, Look(worker, m, true)), Insert(worker, d, ids, true)) == s.(handled := s.handled + {m})
  {
    hide Found;
  }

  lemma NewMatter(s: State, worker: Worker, m: Message, d: Id, ids: seq<Id>)
    requires worker !in s.looked && WellFormed(m) && !Found(s.documents, m) && Insertable(s, m, d, ids)
    ensures var after := Inserted(s, m, d, ids);
            Step(Step(s, Look(worker, m, true)), Insert(worker, d, ids, true)) == after.(handled := after.handled + {m})
  {
    hide Found, Insertable, Inserted;
    var looked := Step(s, Look(worker, m, true));
    BackAgain(s, looked, worker, m);
    SameInsertable(looked, s, m, d, ids);
    InsertedAside(s, m, d, ids);
  }

  lemma FreshInsertable(s: State, m: Message, d: Id, ids: seq<Id>)
    requires !Clashes(s.documents, DocumentOf(m)) && Unused(s, m, d, ids)
    ensures Insertable(s, m, d, ids)
  {
    ListedCount(m);
    hide Listed, PeopleOf;
  }

  lemma InsertedDocuments(s: State, m: Message, d: Id, ids: seq<Id>)
    requires Insertable(s, m, d, ids)
    ensures Inserted(s, m, d, ids).documents == s.documents[d := DocumentOf(m)] && Inserted(s, m, d, ids).source == s.source[d := m]
  {
    hide Listed, ReadyRows;
  }

  // An event on the stream, taken in and committed for an existing user, leaves one notification; a
  // second delivery leaves everything as it is.
  lemma EventsAreServed(s: State, ready: ReadyEvent, note: Id, again: Id)
    requires Inv(s) && ready in s.stream && ready.eventId !in s.inbox && note !in s.notifications
    ensures var once := Step(s, Deliver(ready, note, true, true, true));
            && once.notifications == s.notifications[note := Notification(ready.document, ready.user)]
            && ready.eventId in once.acked && ready.eventId in once.inbox
            && Step(once, Deliver(ready, again, true, true, true)) == once
  {
    hide Inv;
  }

  // ---- A whole batch, committed -------------------------------------------------------------------------

  // It leaves every row of the batch marked and every message of it on the stream; any other attempt
  // leaves the rows as they were.
  lemma WholeBatchesAreMarked(s: State, batch: set<Id>, delivered: set<Id>, commits: bool)
    requires delivered <= batch <= s.outbox.Keys
    ensures var after := Step(s, Publish(batch, delivered, commits));
            && after.outbox.Keys == s.outbox.Keys
            && (forall e :: e in delivered ==> s.outbox[e].ready in after.stream)
            && (forall r :: r in after.stream && r !in s.stream ==> exists e :: e in delivered && s.outbox[e].ready == r)
            && (forall e :: e in s.outbox ==>
                  after.outbox[e].ready == s.outbox[e].ready
                  && (after.outbox[e].published <==> s.outbox[e].published || (e in batch && commits && delivered == batch)))
  {
  }

  // ---- The loops behind the steps ------------------------------------------------------------------------

  // add_ready_event: over the distinct people in order, one recipient row and one event each.
  method AddReadyEvent(s: State, d: Id, m: Message, ids: seq<Id>) returns (after: State)
    requires Insertable(s, m, d, ids)
    ensures after == Inserted(s, m, d, ids)
  {
    hide TotalOrder, IsPage, Listed, Insertable, Shares, ReadyRows, PeopleOf, Inserted, AllDistinct, ReadyFor;
    IdsAscend();
    var people := SelectPage(PeopleOf(m), None, |PeopleOf(m)|, Ascends);
    WholePage(m, people);
    NobodyYet(s, m, d, ids);
    var shared, outbox := AddRows(s.shared, s.outbox, d, DocumentOf(m), m.user, people, ids);
    after := s.(documents := s.documents[d := DocumentOf(m)], shared := shared, outbox := outbox, source := s.source[d := m]);
    InsertedIs(s, m, d, ids, people, after);
  }

  method AddRows(shared: set<(Id, Id)>, outbox: map<Id, Row>, d: Id, doc: Document, owner: Id, people: seq<Id>, ids: seq<Id>)
    returns (sharedAfter: set<(Id, Id)>, outboxAfter: map<Id, Row>)
    requires |people| <= |ids| && AllDistinct(ids)
    ensures sharedAfter == shared + Shares(d, Those(people), owner) && outboxAfter == outbox + ReadyRows(d, doc, people, ids)
  {
    hide Shares, ReadyRows, Those, AllDistinct;
    NoRows(shared, outbox, d, doc, owner, ids);
    sharedAfter, outboxAfter := shared, outbox;
    for i := 0 to |people|
      invariant sharedAfter == shared + Shares(d, Those(people[..i]), owner)
      invariant outboxAfter == outbox + ReadyRows(d, doc, people[..i], ids)
    {
      OneMoreRow(outbox, d, doc, people, ids, i);
      OneMoreShare(shared, d, people, i, owner);
      if people[i] != owner { sharedAfter := sharedAfter + {(d, people[i])}; }
      outboxAfter := outboxAfter[ids[i] := ReadyFor(ids[i], d, doc, people[i])];
    }
    assert people[..|people|] == people;
  }

  lemma NoRows(shared: set<(Id, Id)>, outbox: map<Id, Row>, d: Id, doc: Document, owner: Id, ids: seq<Id>)
    requires AllDistinct(ids)
    ensures shared + Shares(d, Those([]), owner) == shared && outbox + ReadyRows(d, doc, [], ids) == outbox
  {
  }

  lemma InsertedIs(s: State, m: Message, d: Id, ids: seq<Id>, people: seq<Id>, after: State)
    requires Insertable(s, m, d, ids) && people == Listed(m)
    requires |people| <= |ids| && AllDistinct(ids)
    requires after == s.(documents := s.documents[d := DocumentOf(m)],
                         shared := s.shared + Shares(d, Those(people), m.user),
                         outbox := s.outbox + ReadyRows(d, DocumentOf(m), people, ids),
                         source := s.source[d := m])
    ensures after == Inserted(s, m, d, ids)
  {
    ListedPeople(m);
    assert Those(people) == PeopleOf(m);
  }

  lemma WholePage(m: Message, people: seq<Id>)
    requires IsPage(people, PeopleOf(m), None, |PeopleOf(m)|, Ascends)
    ensures people == Listed(m)
  {
    IdsAscend();
    PageIsThePage(people, PeopleOf(m), None, |PeopleOf(m)|, Ascends);
    assert After(PeopleOf(m), None, Ascends) == PeopleOf(m);
    var q := Sorted(PeopleOf(m), Ascends);
    assert q[..|q|] == q;
  }

  function Those(people: seq<Id>): set<Id> { set u | u in people }

  lemma NobodyYet(s: State, m: Message, d: Id, ids: seq<Id>)
    requires Insertable(s, m, d, ids)
    ensures AllDistinct(ids) && |Listed(m)| <= |ids|
  {
    hide Listed;
  }

  lemma OneMoreShare(shared: set<(Id, Id)>, d: Id, people: seq<Id>, i: nat, owner: Id)
    requires i < |people|
    ensures shared + Shares(d, Those(people[..i + 1]), owner)
            == shared + Shares(d, Those(people[..i]), owner) + if people[i] == owner then {} else {(d, people[i])}
  {
    assert people[..i + 1] == people[..i] + [people[i]];
    assert Those(people[..i + 1]) == Those(people[..i]) + {people[i]};
  }

  lemma OneMoreKey(d: Id, doc: Document, people: seq<Id>, ids: seq<Id>, n: nat)
    requires n <= |people| <= |ids| && AllDistinct(ids)
    ensures ReadyRows(d, doc, people[..n], ids).Keys == Those(ids[..n])
    ensures forall j :: 0 <= j < n ==>
              ids[j] in ReadyRows(d, doc, people[..n], ids) && ReadyRows(d, doc, people[..n], ids)[ids[j]] == ReadyFor(ids[j], d, doc, people[j])
  {
    hide ReadyFor;
    var rows := ReadyRows(d, doc, people[..n], ids);
    forall e | e in rows ensures e in Those(ids[..n]) {
      var j :| 0 <= j < n && ids[j] == e;
      assert ids[..n][j] == e;
    }
    forall e | e in Those(ids[..n]) ensures e in rows {
      var j :| 0 <= j < n && ids[..n][j] == e;
      assert ids[j] == e;
    }
  }

  lemma OneMoreRow(outbox: map<Id, Row>, d: Id, doc: Document, people: seq<Id>, ids: seq<Id>, i: nat)
    requires i < |people| <= |ids| && AllDistinct(ids)
    ensures outbox + ReadyRows(d, doc, people[..i + 1], ids)
            == (outbox + ReadyRows(d, doc, people[..i], ids))[ids[i] := ReadyFor(ids[i], d, doc, people[i])]
  {
    var before, after := ReadyRows(d, doc, people[..i], ids), ReadyRows(d, doc, people[..i + 1], ids);
    var row := ReadyFor(ids[i], d, doc, people[i]);
    OneMoreKey(d, doc, people, ids, i);
    OneMoreKey(d, doc, people, ids, i + 1);
    hide ReadyRows, ReadyFor, AllDistinct;
    assert after == before[ids[i] := row] by {
      OneMoreKeySet(ids, i);
      forall j | 0 <= j < i + 1 ensures ids[j] in after && after[ids[j]] == before[ids[i] := row][ids[j]] {}
      SameMap(after, before[ids[i] := row], ids[..i + 1]);
    }
    MergeLast(outbox, before, ids[i], row);
  }

  lemma OneMoreKeySet(ids: seq<Id>, i: nat)
    requires i < |ids|
    ensures Those(ids[..i + 1]) == Those(ids[..i]) + {ids[i]}
    ensures forall j :: 0 <= j < i ==> ids[j] in Those(ids[..i])
  {
    assert ids[..i + 1] == ids[..i] + [ids[i]];
    forall j | 0 <= j < i ensures ids[j] in Those(ids[..i]) { assert ids[..i][j] == ids[j]; }
  }

  lemma SameMap(m: map<Id, Row>, n: map<Id, Row>, keys: seq<Id>)
    requires m.Keys == n.Keys == Those(keys) && forall j :: 0 <= j < |keys| ==> keys[j] in m && keys[j] in n && m[keys[j]] == n[keys[j]]
    ensures m == n
  {
    forall e | e in m ensures m[e] == n[e] {
      var j :| 0 <= j < |keys| && keys[j] == e;
    }
  }

  lemma MergeLast(outbox: map<Id, Row>, rows: map<Id, Row>, id: Id, row: Row)
    ensures outbox + rows[id := row] == (outbox + rows)[id := row]
  {
  }

  // accept_operational_document and accept_delivery with the acknowledgement that follows, as one
  // worker runs them when no other comes between its query and its insertion.
  method ProcessDeliveryMessage(s: State, worker: Worker, m: Message, d: Id, ids: seq<Id>, acks: bool) returns (after: State)
    requires worker !in s.looked && AllDistinct(ids) && |PeopleOf(m)| <= |ids|
    ensures after == Step(Step(s, Look(worker, m, acks)), Insert(worker, d, ids, acks))
  {
    hide PeopleOf, Listed, Found, Clashes, Inserted, AllDistinct;
    ghost var looked := Step(s, Look(worker, m, acks));
    if !WellFormed(m) { return s; }
    if Found(s.documents, m) { return s.(handled := if acks then s.handled + {m} else s.handled); }
    BackAgain(s, looked, worker, m);
    SameInsertable(looked, s, m, d, ids);
    ListedCount(m);
    if Clashes(s.documents, DocumentOf(m)) || d in s.documents || exists i :: 0 <= i < |ids| && ids[i] in s.outbox { return s; }
    after := AddReadyEvent(s, d, m, ids);
    InsertedAside(s, m, d, ids);
    if acks { after := after.(handled := after.handled + {m}); }
  }

  lemma BackAgain(s: State, looked: State, worker: Worker, m: Message)
    requires worker !in s.looked && looked == s.(looked := s.looked[worker := m])
    ensures looked.(looked := looked.looked - {worker}) == s
  {
  }

  lemma ListedCount(m: Message)
    ensures |Listed(m)| == |PeopleOf(m)|
  {
    IdsAscend();
  }

  // publish_ready_events: one message a row, until the stream fails; only a whole batch commits.
  method PublishReadyEvents(s: State, batch: seq<Id>, delivered: nat, commits: bool) returns (after: State)
    requires AllDistinct(batch) && delivered <= |batch| && forall e :: e in batch ==> e in s.outbox
    ensures after == Step(s, Publish(Those(batch), Those(batch[..delivered]), commits))
  {
    var stream, outbox := s.stream, s.outbox;
    var i := 0;
    assert outbox == PublishedIn(s.outbox, Those(batch[..0])) && stream == s.stream + MessagesOf(s.outbox, Those(batch[..0]));
    while i < |batch|
      invariant i <= delivered
      invariant stream == s.stream + MessagesOf(s.outbox, Those(batch[..i]))
      invariant outbox == PublishedIn(s.outbox, Those(batch[..i]))
    {
      if i == delivered {
        PrefixIsPart(batch, i);
        return s.(stream := stream);
      }
      var e := batch[i];
      assert e in batch;
      OneMoreKeySet(batch, i);
      stream := stream + {s.outbox[e].ready};
      outbox := outbox[e := outbox[e].(published := true)];
      i := i + 1;
    }
    assert batch[..|batch|] == batch;
    return s.(stream := stream, outbox := if commits then outbox else s.outbox);
  }

  lemma PrefixIsPart(ids: seq<Id>, n: nat)
    requires AllDistinct(ids) && n < |ids|
    ensures Those(ids[..n]) <= Those(ids) && Those(ids[..n]) != Those(ids)
  {
    assert ids[n] in Those(ids) && ids[n] !in Those(ids[..n]);
  }

  // receiveDocumentReady, and the acknowledgement that follows a commit.
  method ReceiveDocumentReady(s: State, ready: ReadyEvent, note: Id, userExists: bool, commits: bool, acks: bool) returns (after: State)
    requires ready in s.stream
    ensures after == Step(s, Deliver(ready, note, userExists, commits, acks))
  {
    var tx := s;
    var inserted := ready.eventId !in tx.inbox;
    if inserted {
      tx := tx.(inbox := tx.inbox + {ready.eventId});
      if userExists {
        if note in tx.notifications { return s; }
        tx := tx.(notifications := tx.notifications[note := Notification(ready.document, ready.user)]);
      } else {
        tx := tx.(missed := tx.missed + {ready.eventId});
      }
    }
    if !commits { return s; }
    if acks { tx := tx.(acked := tx.acked + {ready.eventId}); }
    return tx;
  }
}
