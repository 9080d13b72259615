// The integration outbox: one unsent dispatch request per order, sent rows kept as they were sent.
module Outbox {
  import opened Model
  import opened Paging

  datatype Request = Request(eventId: Id, order: Id, submittedAt: Time, requestedAt: Time)

  // What a row carries: a dispatch request, or some document event whose content does not matter here.
  datatype Payload = Dispatch(request: Request) | Document(eventId: Id)

  datatype Row = Row(payload: Payload, createdAt: Time, publishedAt: Option<Time>)

  type Rows = map<Id, Row>

  predicate Awaits(row: Row, order: Id) {
    row.publishedAt.None? && row.payload.Dispatch? && row.payload.request.order == order
  }

  predicate Rivals(x: Row, y: Row) {
    x.payload.Dispatch? && Awaits(x, x.payload.request.order) && Awaits(y, x.payload.request.order)
  }

  // The partial unique index on unsent requests.
  ghost predicate OneUnsent(rows: Rows) {
    forall i, j :: i in rows && j in rows && Rivals(rows[i], rows[j]) ==> i == j
  }

  // A row is known by the event it carries, and a request is as old as its row.
  predicate Faithful(i: Id, row: Row) {
    match row.payload
    case Dispatch(request) => request.eventId == i && row.createdAt == request.requestedAt
    case Document(eventId) => eventId == i
  }

  ghost predicate Sound(rows: Rows) {
    OneUnsent(rows) && forall i :: i in rows ==> Faithful(i, rows[i])
  }

  // The unsent request of an order: one row at most.
  function Unsent(rows: Rows, order: Id): set<Id> {
    set i | i in rows && Awaits(rows[i], order)
  }

  // Inserts the request, or overwrites the unsent one of its order unless that is newer.
  // None: the new identifier is taken, and the transaction fails.
  function Upsert(rows: Rows, request: Request): Option<Rows> {
    var pending := Unsent(rows, request.order);
    if exists i :: i in pending && rows[i].createdAt > request.requestedAt then Some(rows)
    else if request.eventId in rows && request.eventId !in pending then None
    else Some((rows - pending)[request.eventId := Row(Dispatch(request), request.requestedAt, None)])
  }

  // Some unsent row asks for the order, and not about an older state than `at`.
  ghost predicate AskedSince(rows: Rows, order: Id, at: Time) {
    exists i :: i in rows && Awaits(rows[i], order) && rows[i].payload.request.requestedAt >= at
  }

  // Some row, sent or not, does.
  ghost predicate Recorded(rows: Rows, order: Id, at: Time) {
    exists i :: i in rows && rows[i].payload.Dispatch? && rows[i].payload.request.order == order
      && rows[i].payload.request.requestedAt >= at
  }

  ghost predicate SentStay(rows: Rows, after: Rows) {
    forall i :: i in rows && rows[i].publishedAt.Some? ==> i in after && after[i] == rows[i]
  }

  // After an upsert some unsent row asks at least as recently, whichever row won.
  lemma UpsertAsks(rows: Rows, request: Request)
    requires Sound(rows) && Upsert(rows, request).Some?
    ensures AskedSince(Upsert(rows, request).value, request.order, request.requestedAt)
  {
    var after := Upsert(rows, request).value;
    if i :| i in Unsent(rows, request.order) && rows[i].createdAt > request.requestedAt {
      assert Faithful(i, rows[i]) && Awaits(after[i], request.order);
    } else {
      assert Awaits(after[request.eventId], request.order);
    }
  }

  lemma UpsertSound(rows: Rows, request: Request)
    requires Sound(rows) && Upsert(rows, request).Some?
    ensures Sound(Upsert(rows, request).value) && SentStay(rows, Upsert(rows, request).value)
  {
    var after, e := Upsert(rows, request).value, request.eventId;
    if after != rows {
      assert forall i :: i in after && i != e ==> i in rows && after[i] == rows[i] && !Awaits(rows[i], request.order);
    }
  }

  // A request answered by a newer one stays answered.
  lemma UpsertRecords(rows: Rows, request: Request, order: Id, at: Time)
    requires Sound(rows) && Upsert(rows, request).Some?
    ensures AskedSince(rows, order, at) ==> AskedSince(Upsert(rows, request).value, order, at)
    ensures Recorded(rows, order, at) ==> Recorded(Upsert(rows, request).value, order, at)
  {
    var after, e := Upsert(rows, request).value, request.eventId;
    UpsertAsks(rows, request);
    if j :| j in rows && Awaits(rows[j], order) && rows[j].payload.request.requestedAt >= at {
      assert Faithful(j, rows[j]);
      if j in after && after[j] == rows[j] { assert Awaits(after[j], order); } else { assert after[e].payload.request == request; }
    }
    if j :| j in rows && rows[j].payload.Dispatch? && rows[j].payload.request.order == order && rows[j].payload.request.requestedAt >= at {
      assert Faithful(j, rows[j]);
      if j in after && after[j] == rows[j] { assert after[j].payload.Dispatch?; } else { assert after[e].payload.request == request; }
    }
  }

  // Unless the unsent request of the order is newer, the new one takes its place under its own
  // identifier; rows of other orders, sent rows and documents are left alone.
  lemma UpsertReplaces(rows: Rows, request: Request)
    requires Sound(rows) && Upsert(rows, request).Some?
    ensures var after := Upsert(rows, request).value;
            if forall i :: i in rows && Awaits(rows[i], request.order) ==> rows[i].payload.request.requestedAt <= request.requestedAt
            then && request.eventId in after && after[request.eventId] == Row(Dispatch(request), request.requestedAt, None)
                 && (forall i :: i in after && i != request.eventId ==> i in rows && after[i] == rows[i] && !Awaits(rows[i], request.order))
                 && (forall i :: i in rows && !Awaits(rows[i], request.order) ==> i in after && after[i] == rows[i])
            else after == rows
  {
    forall i | i in rows && Awaits(rows[i], request.order) ensures rows[i].createdAt == rows[i].payload.request.requestedAt {
      assert Faithful(i, rows[i]);
    }
  }

  // It fails exactly when it would insert under an identifier that another row has.
  lemma UpsertFails(rows: Rows, request: Request)
    requires Sound(rows)
    ensures Upsert(rows, request).None?
            <==> && request.eventId in rows && !Awaits(rows[request.eventId], request.order)
                 && forall i :: i in rows && Awaits(rows[i], request.order) ==> rows[i].payload.request.requestedAt <= request.requestedAt
  {
    forall i | i in rows && Awaits(rows[i], request.order) ensures rows[i].createdAt == rows[i].payload.request.requestedAt {
      assert Faithful(i, rows[i]);
    }
  }

  // enqueueDispatchRequest
  method EnqueueDispatchRequest(rows: Rows, order: Order, eventId: Id, now: Time) returns (after: Option<Rows>)
    requires Sound(rows) && order.submittedAt.Some?
    ensures after == Upsert(rows, Request(eventId, order.id, order.submittedAt.value, now))
  {
    var row := Row(Dispatch(Request(eventId, order.id, order.submittedAt.value, now)), now, None);
    if i :| i in rows && Awaits(rows[i], order.id) {
      assert Unsent(rows, order.id) == {i} by {
        forall j | j in Unsent(rows, order.id) ensures j == i { assert Rivals(rows[i], rows[j]); }
      }
      if rows[i].createdAt > now { return Some(rows); }
      if eventId in rows && eventId != i { return None; }
      after := Some((rows - {i})[eventId := row]);
    } else {
      assert Unsent(rows, order.id) == {};
      if eventId in rows { return None; }
      after := Some(rows[eventId := row]);
      assert rows - {} == rows;
    }
  }

  // ---- The relay ------------------------------------------------------------------------------

  // `sent` is everything the stream was given, by identifier and payload; it is no column.
  datatype Store = Store(rows: Rows, sent: seq<(Id, Payload)>)

  ghost predicate AllSent(s: Store) {
    forall i :: i in s.rows && s.rows[i].publishedAt.Some? ==> (i, s.rows[i].payload) in s.sent
  }

  function Pending(rows: Rows): set<Key> {
    set i | i in rows && rows[i].publishedAt.None? :: (rows[i].createdAt, i)
  }

  function Marked(rows: Rows, batch: seq<Key>, now: Time): Rows {
    map i | i in rows :: if exists k :: k in batch && k.1 == i then rows[i].(publishedAt := Some(now)) else rows[i]
  }

  function Messages(rows: Rows, batch: seq<Key>): seq<(Id, Payload)>
    requires forall k :: k in batch ==> k.1 in rows
  {
    seq(|batch|, n requires 0 <= n < |batch| => assert batch[n] in batch; (batch[n].1, rows[batch[n].1].payload))
  }

  lemma PageIsPending(batch: seq<Key>, rows: Rows, limit: nat)
    requires IsPage(batch, Pending(rows), None, limit, KeyBefore)
    ensures forall k :: k in batch ==> k.1 in rows && rows[k.1].publishedAt.None?
  {
  }

  lemma OneMoreMessage(rows: Rows, batch: seq<Key>, i: nat, now: Time)
    requires i < |batch| && forall k :: k in batch ==> k.1 in rows
    ensures forall k :: k in batch[..i + 1] ==> k.1 in rows
    ensures Messages(rows, batch[..i + 1]) == Messages(rows, batch[..i]) + [(batch[i].1, rows[batch[i].1].payload)]
    ensures Marked(rows, batch[..i + 1], now)
            == Marked(rows, batch[..i], now)[batch[i].1 := rows[batch[i].1].(publishedAt := Some(now))]
  {
    assert batch[..i + 1] == batch[..i] + [batch[i]];
    assert batch[i] in batch[..i + 1];
  }

  // publishPending: `delivered` messages reach the stream before it fails; only a whole batch commits.
  method PublishPending(s: Store, limit: nat, delivered: nat, commits: bool, now: Time) returns (after: Store)
    ensures after == Step(s, Relay(limit, delivered, commits, now))
  {
    hide TotalOrder, IsPage, Marked, Messages, Step;
    KeysOrdered();
    var page := SelectPage(Pending(s.rows), None, limit, KeyBefore);
    PageIsPending(page, s.rows, limit);
    var tx, sent := s.rows, s.sent;
    NoneMarked(s.rows, now);
    for i := 0 to |page|
      invariant i <= delivered
      invariant tx == Marked(s.rows, page[..i], now) && sent == s.sent + Messages(s.rows, page[..i])
    {
      var id := page[i].1;
      if i >= delivered {
        RelayIsPublish(s, limit, delivered, commits, now, Store(s.rows, sent), page);
        return Store(s.rows, sent);
      }
      OneMoreMessage(s.rows, page, i, now);
      assert page[i] in page;
      sent := sent + [(id, s.rows[id].payload)];
      tx := tx[id := s.rows[id].(publishedAt := Some(now))];
    }
    assert page[..|page|] == page;
    after := Store(if commits then tx else s.rows, sent);
    RelayIsPublish(s, limit, delivered, commits, now, after, page);
  }

  lemma NoneMarked(rows: Rows, now: Time)
    ensures Marked(rows, [], now) == rows && Messages(rows, []) == []
  {
  }

  // ---- Runs: requests, documents and relays in any order, relays failing at any point ------------

  datatype Event =
    | Ask(request: Request)
    | File(document: Id, at: Time)
    | Relay(limit: nat, delivered: nat, commits: bool, now: Time)

  ghost function Step(s: Store, e: Event): Store {
    match e
    case Ask(request) =>
      var rows := Upsert(s.rows, request);
      if rows.None? then s else s.(rows := rows.value)
    case File(document, at) =>
      if document in s.rows then s else s.(rows := s.rows[document := Row(Document(document), at, None)])
    case Relay(limit, delivered, commits, now) => Relayed(s, limit, delivered, commits, now)
  }

  ghost function Relayed(s: Store, limit: nat, delivered: nat, commits: bool, now: Time): Store {
    KeysOrdered();
    PendingPage(s.rows, limit);
    var batch := ThePage(Pending(s.rows), None, limit, KeyBefore);
    Store(if commits && delivered >= |batch| then Marked(s.rows, batch, now) else s.rows,
          s.sent + Messages(s.rows, batch[..Min(delivered, |batch|)]))
  }

  // What a relay does to the page it selected is this step.
  lemma RelayIsPublish(s: Store, limit: nat, delivered: nat, commits: bool, now: Time, after: Store, batch: seq<Key>)
    requires IsPage(batch, Pending(s.rows), None, limit, KeyBefore)
    requires forall k :: k in batch ==> k.1 in s.rows
    requires after.sent == s.sent + Messages(s.rows, batch[..Min(delivered, |batch|)])
    requires after.rows == if commits && delivered >= |batch| then Marked(s.rows, batch, now) else s.rows
    ensures after == Step(s, Relay(limit, delivered, commits, now))
  {
    hide TotalOrder, IsPage, Marked, Messages, ThePage;
    KeysOrdered();
    PageIsThePage(batch, Pending(s.rows), None, limit, KeyBefore);
  }

  lemma PendingPage(rows: Rows, limit: nat)
    ensures TotalOrder(KeyBefore)
    ensures forall k :: k in ThePage(Pending(rows), None, limit, KeyBefore) ==> k.1 in rows && rows[k.1].publishedAt.None?
  {
    KeysOrdered();
    hide TotalOrder, ThePage;
    ThePageIsPage(Pending(rows), None, limit, KeyBefore);
  }

  ghost predicate Kept(s: Store) { Sound(s.rows) && AllSent(s) }

  // From one store to a later one: sent rows stay as they are, and no request is forgotten.
  ghost predicate Remembers(s: Store, after: Store) {
    && SentStay(s.rows, after.rows) && s.sent <= after.sent
    && forall order, at :: Recorded(s.rows, order, at) ==> Recorded(after.rows, order, at)
  }

  lemma MarkingKeeps(s: Store, batch: seq<Key>, now: Time)
    requires Kept(s) && forall k :: k in batch ==> k.1 in s.rows && s.rows[k.1].publishedAt.None?
    ensures Kept(Store(Marked(s.rows, batch, now), s.sent + Messages(s.rows, batch)))
    ensures Remembers(s, Store(Marked(s.rows, batch, now), s.sent + Messages(s.rows, batch)))
  {
    var rows, sent := Marked(s.rows, batch, now), s.sent + Messages(s.rows, batch);
    forall i | i in rows && rows[i].publishedAt.Some? ensures (i, rows[i].payload) in sent {
      if k :| k in batch && k.1 == i {
        var n :| 0 <= n < |batch| && batch[n] == k;
        assert Messages(s.rows, batch)[n] == (i, s.rows[i].payload);
      }
    }
    forall i, j | i in rows && j in rows && Rivals(rows[i], rows[j]) ensures i == j { assert Rivals(s.rows[i], s.rows[j]); }
    forall order, at | Recorded(s.rows, order, at) ensures Recorded(rows, order, at) {
      var i :| i in s.rows && s.rows[i].payload.Dispatch? && s.rows[i].payload.request.order == order
        && s.rows[i].payload.request.requestedAt >= at;
      assert rows[i].payload == s.rows[i].payload;
    }
  }

  lemma FilingKeeps(s: Store, document: Id, at: Time)
    requires Kept(s) && document !in s.rows
    ensures var after := s.(rows := s.rows[document := Row(Document(document), at, None)]); Kept(after) && Remembers(s, after)
  {
    var rows := s.rows[document := Row(Document(document), at, None)];
    forall order, since | Recorded(s.rows, order, since) ensures Recorded(rows, order, since) {
      var i :| i in s.rows && s.rows[i].payload.Dispatch? && s.rows[i].payload.request.order == order
        && s.rows[i].payload.request.requestedAt >= since;
      assert rows[i] == s.rows[i];
    }
  }

  lemma StepKeeps(s: Store, e: Event)
    requires Kept(s)
    ensures Kept(Step(s, e)) && Remembers(s, Step(s, e))
  {
    hide Recorded, Upsert, Relayed;
    match e {
      case Ask(request) =>
        var rows := Upsert(s.rows, request);
        if rows.Some? {
          UpsertSound(s.rows, request);
          forall order, at | Recorded(s.rows, order, at) ensures Recorded(rows.value, order, at) {
            UpsertRecords(s.rows, request, order, at);
          }
          AskingSends(s, request);
        }
      case File(document, at) => if document !in s.rows { FilingKeeps(s, document, at); }
      case Relay(limit, delivered, commits, now) => RelayKeeps(s, limit, delivered, commits, now);
    }
  }

  lemma RelayKeeps(s: Store, limit: nat, delivered: nat, commits: bool, now: Time)
    requires Kept(s)
    ensures Kept(Relayed(s, limit, delivered, commits, now)) && Remembers(s, Relayed(s, limit, delivered, commits, now))
  {
    hide Recorded, Marked, ThePage, TotalOrder;
    KeysOrdered();
    PendingPage(s.rows, limit);
    var batch := ThePage(Pending(s.rows), None, limit, KeyBefore);
    if commits && delivered >= |batch| {
      assert batch[..|batch|] == batch;
      MarkingKeeps(s, batch, now);
    }
  }

  // An upsert publishes nothing.
  lemma AskingSends(s: Store, request: Request)
    requires AllSent(s) && Upsert(s.rows, request).Some?
    ensures AllSent(s.(rows := Upsert(s.rows, request).value))
  {
  }

  ghost function Run(s: Store, events: seq<Event>): Store
    decreases |events|
  {
    if events == [] then s else Run(Step(s, events[0]), events[1..])
  }

  lemma {:induction false} RunKeeps(s: Store, events: seq<Event>)
    requires Kept(s)
    ensures Kept(Run(s, events)) && Remembers(s, Run(s, events))
    decreases |events|
  {
    hide Kept, Step, Recorded;
    if events != [] {
      StepKeeps(s, events[0]);
      RunKeeps(Step(s, events[0]), events[1..]);
    }
  }

  // A request once taken is never lost: while its order has an unsent row, that row or a newer one
  // waits; when it has none, a request at least as recent has gone to the stream.
  lemma RequestsSurvive(s: Store, request: Request, events: seq<Event>)
    requires Kept(s) && Upsert(s.rows, request).Some?
    ensures var end := Run(Step(s, Ask(request)), events);
            && OneUnsent(end.rows)
            && Recorded(end.rows, request.order, request.requestedAt)
            && (Unsent(end.rows, request.order) == {} ==>
                  exists m :: m in end.sent && m.1.Dispatch? && m.1.request.order == request.order
                    && m.1.request.requestedAt >= request.requestedAt && m.0 == m.1.request.eventId)
  {
    hide Step, Upsert;
    StepKeeps(s, Ask(request));
    var taken := Step(s, Ask(request));
    assert Recorded(taken.rows, request.order, request.requestedAt) by {
      UpsertAsks(s.rows, request);
      Asking(s, request);
      var i :| i in taken.rows && Awaits(taken.rows[i], request.order)
        && taken.rows[i].payload.request.requestedAt >= request.requestedAt;
    }
    RunKeeps(taken, events);
    var end := Run(taken, events);
    if Unsent(end.rows, request.order) == {} {
      var i :| i in end.rows && end.rows[i].payload.Dispatch? && end.rows[i].payload.request.order == request.order
        && end.rows[i].payload.request.requestedAt >= request.requestedAt;
      assert i !in Unsent(end.rows, request.order) && Faithful(i, end.rows[i]);
      assert (i, end.rows[i].payload) in end.sent;
    }
  }

  lemma Asking(s: Store, request: Request)
    requires Upsert(s.rows, request).Some?
    ensures Step(s, Ask(request)).rows == Upsert(s.rows, request).value
  {
  }

  // ---- Relays that succeed ------------------------------------------------------------------------------

  ghost function Whole(limit: nat, now: Time): Event { Relay(limit, limit, true, now) }

  ghost function Batch(rows: Rows, limit: nat): seq<Key> {
    KeysOrdered();
    ThePage(Pending(rows), None, limit, KeyBefore)
  }

  lemma BatchIs(rows: Rows, limit: nat)
    ensures IsPage(Batch(rows, limit), Pending(rows), None, limit, KeyBefore)
    ensures forall k :: k in Batch(rows, limit) ==> k.1 in rows && rows[k.1].publishedAt.None?
    ensures |Batch(rows, limit)| <= limit && forall k :: k in Batch(rows, limit) ==> k in Pending(rows)
  {
    KeysOrdered();
    hide TotalOrder, ThePage;
    ThePageIsPage(Pending(rows), None, limit, KeyBefore);
    PageIsPending(Batch(rows, limit), rows, limit);
  }

  lemma WholeStep(s: Store, limit: nat, now: Time)
    ensures forall k :: k in Batch(s.rows, limit) ==> k.1 in s.rows
    ensures var batch := Batch(s.rows, limit);
            Step(s, Whole(limit, now)) == Store(Marked(s.rows, batch, now), s.sent + Messages(s.rows, batch))
  {
    BatchIs(s.rows, limit);
    hide Batch, Marked, Messages, Pending;
    var batch := Batch(s.rows, limit);
    assert batch[..Min(limit, |batch|)] == batch;
    RelayIsPublish(s, limit, limit, true, now, Store(Marked(s.rows, batch, now), s.sent + Messages(s.rows, batch)), batch);
  }

  // A wholly delivered, committed batch: its rows are marked as sent now and no others, its messages
  // follow what was sent, oldest first.
  lemma WholeBatchesAreMarked(s: Store, limit: nat, now: Time)
    ensures forall k :: k in Batch(s.rows, limit) ==> k.1 in s.rows && s.rows[k.1].publishedAt.None?
    ensures var after, batch := Step(s, Whole(limit, now)), Batch(s.rows, limit);
            && after.rows.Keys == s.rows.Keys
            && (forall i :: i in s.rows ==>
                  if exists k :: k in batch && k.1 == i then after.rows[i] == s.rows[i].(publishedAt := Some(now))
                  else after.rows[i] == s.rows[i])
            && |after.sent| == |s.sent| + |batch| && s.sent <= after.sent
            && (forall n :: 0 <= n < |batch| ==> after.sent[|s.sent| + n] == (batch[n].1, s.rows[batch[n].1].payload))
            && forall x, y :: 0 <= x < y < |batch| ==> KeyBefore(batch[x], batch[y])
  {
    hide Batch, Step, Pending, Marked, Messages, IsPage;
    var batch := Batch(s.rows, limit);
    BatchIs(s.rows, limit);
    WholeStep(s, limit, now);
    MarksOnly(s.rows, batch, now);
    MessagesOnly(s.rows, batch);
    PageAscends(s.rows, batch, limit);
  }

  lemma MessagesOnly(rows: Rows, batch: seq<Key>)
    requires forall k :: k in batch ==> k.1 in rows
    ensures |Messages(rows, batch)| == |batch|
    ensures forall n :: 0 <= n < |batch| ==> batch[n].1 in rows && Messages(rows, batch)[n] == (batch[n].1, rows[batch[n].1].payload)
  {
    forall n | 0 <= n < |batch| ensures batch[n].1 in rows { assert batch[n] in batch; }
  }

  lemma PageAscends(rows: Rows, batch: seq<Key>, limit: nat)
    requires IsPage(batch, Pending(rows), None, limit, KeyBefore)
    ensures forall x, y :: 0 <= x < y < |batch| ==> KeyBefore(batch[x], batch[y])
  {
  }

  lemma MarksOnly(rows: Rows, batch: seq<Key>, now: Time)
    ensures Marked(rows, batch, now).Keys == rows.Keys
    ensures forall i :: i in rows ==>
              Marked(rows, batch, now)[i]
              == if exists k :: k in batch && k.1 == i then rows[i].(publishedAt := Some(now)) else rows[i]
  {
  }

  // A full batch, or all there is, leaves the queue: the oldest.
  lemma RelayDrains(s: Store, limit: nat, now: Time)
    requires limit > 0
    ensures var left, were := Pending(Step(s, Whole(limit, now)).rows), Pending(s.rows);
            && left <= were && |left| == |were| - Min(limit, |were|)
            && forall k, l :: k in were && k !in left && l in left ==> KeyBefore(k, l)
  {
    BatchIs(s.rows, limit);
    BatchSize(s.rows, limit);
    WholeStep(s, limit, now);
    hide Batch, Step;
    MarkedLeaves(s.rows, Batch(s.rows, limit), limit, now);
  }

  lemma BatchSize(rows: Rows, limit: nat)
    requires limit > 0
    ensures |Batch(rows, limit)| == Min(limit, |Pending(rows)|)
  {
    KeysOrdered();
    hide Pending, TotalOrder, ThePage;
    RestAfterPage(Pending(rows), None, limit, KeyBefore);
    assert After(Pending(rows), None, KeyBefore) == Pending(rows);
  }

  lemma MarkedLeaves(rows: Rows, batch: seq<Key>, limit: nat, now: Time)
    requires IsPage(batch, Pending(rows), None, limit, KeyBefore) && forall k :: k in batch ==> k in Pending(rows)
    ensures var left, were := Pending(Marked(rows, batch, now)), Pending(rows);
            && left <= were && |left| == |were| - |batch|
            && forall k, l :: k in were && k !in left && l in left ==> KeyBefore(k, l)
  {
    KeysOrdered();
    var were, left := Pending(rows), Pending(Marked(rows, batch, now));
    var gone := set k | k in batch;
    MarkedPending(rows, batch, now);
    hide Pending, Marked, TotalOrder;
    assert After(were, None, KeyBefore) == were;
    assert left == were - gone && gone <= were;
    AscendingCount(batch, KeyBefore);
  }

  lemma MarkedPending(rows: Rows, batch: seq<Key>, now: Time)
    requires forall k :: k in batch ==> k in Pending(rows)
    ensures forall k :: k in Pending(Marked(rows, batch, now)) <==> k in Pending(rows) && k !in batch
  {
    var after := Marked(rows, batch, now);
    forall k: Key | k in Pending(rows) && k !in batch ensures k in Pending(after) {
      forall l | l in batch ensures l.1 != k.1 { assert l in Pending(rows); }
      assert after[k.1] == rows[k.1];
    }
    forall k: Key | k in Pending(after) ensures k in Pending(rows) && k !in batch {
      assert after[k.1].publishedAt.None?;
    }
  }

  // So k successful relays with nothing new send all but the newest N - k*B, and enough of them send
  // everything.
  lemma {:induction false} RelaysDrain(s: Store, limit: nat, nows: seq<Time>)
    requires limit > 0
    ensures |Pending(Relays(s, limit, nows).rows)| == Less(|Pending(s.rows)|, |nows|, limit)
    decreases |nows|
  {
    hide Step, Pending, Less;
    NothingLess(|Pending(s.rows)|, limit);
    if nows != [] {
      RelayDrains(s, limit, nows[0]);
      RelaysDrain(Step(s, Whole(limit, nows[0])), limit, nows[1..]);
      LessOnce(|Pending(s.rows)|, |nows| - 1, limit);
    }
  }

  ghost function Relays(s: Store, limit: nat, nows: seq<Time>): Store
    decreases |nows|
  {
    if nows == [] then s else Relays(Step(s, Whole(limit, nows[0])), limit, nows[1..])
  }

  // n without k batches.
  function Less(n: nat, k: nat, limit: nat): nat { if k * limit <= n then n - k * limit else 0 }

  lemma NothingLess(n: nat, limit: nat)
    ensures Less(n, 0, limit) == n
  {
  }

  lemma LessOnce(n: nat, k: nat, limit: nat)
    ensures Less(n, k + 1, limit) == Less(n - Min(limit, n), k, limit)
  {
    assert (k + 1) * limit == k * limit + limit;
    assert k * limit >= 0;
  }
}
