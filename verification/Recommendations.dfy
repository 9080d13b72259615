// Results from Dispatch: delivered at least once and in any order, kept by the newest request.
module Recommendations {
  import opened Model

  datatype Result = Result(
    eventId: Id, order: Id, submittedAt: Time, requestedAt: Time, createdAt: Time, candidates: seq<Candidate>,
    wellFormed: bool)  // identifiers set, timestamps set, scores finite

  datatype Stored = Stored(eventId: Id, submittedAt: Time, requestedAt: Time, createdAt: Time, candidates: seq<Candidate>)

  datatype Store = Store(inbox: set<Id>, rows: map<Id, Stored>)

  datatype Failure = Malformed | Unreadable

  predicate Valid(e: Result) { e.wellFormed && |e.candidates| <= 5 }

  function RowOf(e: Result): Stored { Stored(e.eventId, e.submittedAt, e.requestedAt, e.createdAt, e.candidates) }

  // The order still waits for the state of it that the result was computed from.
  predicate Current(orders: map<Id, Order>, e: Result) {
    e.order in orders && orders[e.order].status == Ready && orders[e.order].submittedAt == Some(e.submittedAt)
  }

  // A result is put aside when it is malformed, known, about no order or about another state; an
  // order never submitted makes its row unreadable, and the message is delivered again.
  function Received(s: Store, orders: map<Id, Order>, e: Result): Store {
    if !Valid(e) || e.eventId in s.inbox || (e.order in orders && orders[e.order].submittedAt.None?) then s
    else
      var inbox := s.inbox + {e.eventId};
      if Current(orders, e) && (e.order in s.rows ==> s.rows[e.order].requestedAt <= e.requestedAt) then
        Store(inbox, s.rows[e.order := RowOf(e)])
      else Store(inbox, s.rows)
  }

  // StoreDispatchRecommended
  method StoreDispatchRecommended(s: Store, orders: map<Id, Order>, e: Result) returns (after: Store, failure: Option<Failure>)
    ensures after == Received(s, orders, e)
    ensures failure == if !Valid(e) then Some(Malformed)
                       else if e.eventId !in s.inbox && e.order in orders && orders[e.order].submittedAt.None? then Some(Unreadable)
                       else None
  {
    if !e.wellFormed || |e.candidates| > 5 { return s, Some(Malformed); }
    var tx := s;
    var inserted := e.eventId !in tx.inbox;
    if !inserted { return tx, None; }
    tx := tx.(inbox := tx.inbox + {e.eventId});
    if e.order !in orders { return tx, None; }
    if orders[e.order].submittedAt.None? { return s, Some(Unreadable); }
    if orders[e.order].status == Ready && orders[e.order].submittedAt.value == e.submittedAt {
      if e.order !in tx.rows {
        tx := tx.(rows := tx.rows[e.order := RowOf(e)]);
      } else if tx.rows[e.order].requestedAt <= e.requestedAt {
        tx := tx.(rows := tx.rows[e.order := RowOf(e)]);
      }
    }
    return tx, None;
  }

  // ---- Deliveries --------------------------------------------------------------------------------

  // A delivery finds the orders in some state; nothing is said about the others.
  datatype Delivery = Delivery(event: Result, orders: map<Id, Order>)

  function Deliver(s: Store, deliveries: seq<Delivery>): Store {
    if deliveries == [] then s
    else
      var last := deliveries[|deliveries| - 1];
      Received(Deliver(s, deliveries[..|deliveries| - 1]), last.orders, last.event)
  }

  // Order o stays ready, submitted at that instant, through every delivery.
  ghost predicate StaysReady(deliveries: seq<Delivery>, o: Id, submittedAt: Time) {
    forall i :: 0 <= i < |deliveries| ==>
      o in deliveries[i].orders && deliveries[i].orders[o].status == Ready && deliveries[i].orders[o].submittedAt == Some(submittedAt)
  }

  // What these deliveries say about o as it stands, to a store that has not seen it.
  ghost function News(s: Store, deliveries: seq<Delivery>, o: Id, submittedAt: Time): set<Result> {
    set i | 0 <= i < |deliveries| && Telling(s, deliveries[i].event, o, submittedAt) :: deliveries[i].event
  }

  predicate Telling(s: Store, e: Result, o: Id, submittedAt: Time) {
    Valid(e) && e.order == o && e.submittedAt == submittedAt && e.eventId !in s.inbox
  }

  function RowAt(s: Store, o: Id): Option<Stored> { if o in s.rows then Some(s.rows[o]) else None }

  predicate NoOlder(e: Result, row: Option<Stored>) { row.Some? ==> row.value.requestedAt <= e.requestedAt }

  // Newest of the news, and no older than the row there was.
  ghost predicate Wins(e: Result, first: Option<Stored>, news: set<Result>) {
    e in news && NoOlder(e, first) && forall d :: d in news ==> d.requestedAt <= e.requestedAt
  }

  // The row of a newest result, or the first row where all the news is older.
  ghost predicate IsNewest(row: Option<Stored>, first: Option<Stored>, news: set<Result>) {
    (exists e :: Wins(e, first, news) && row == Some(RowOf(e)))
    || (row == first && forall e :: e in news ==> !NoOlder(e, first))
  }

  // One event, one identifier, one content.
  ghost predicate Identified(deliveries: seq<Delivery>) {
    forall i, j :: 0 <= i < |deliveries| && 0 <= j < |deliveries| && deliveries[i].event.eventId == deliveries[j].event.eventId ==>
      deliveries[i].event == deliveries[j].event
  }

  lemma NewsGrow(s: Store, deliveries: seq<Delivery>, n: nat, o: Id, submittedAt: Time)
    requires n < |deliveries|
    ensures News(s, deliveries[..n + 1], o, submittedAt)
            == News(s, deliveries[..n], o, submittedAt)
               + if Telling(s, deliveries[n].event, o, submittedAt) then {deliveries[n].event} else {}
  {
    var longer, shorter := deliveries[..n + 1], deliveries[..n];
    assert forall i :: 0 <= i < n ==> longer[i] == shorter[i];
    assert longer[n] == deliveries[n];
  }

  // The inbox holds what was received, and nothing else that was not there before.
  ghost predicate Remembered(s: Store, after: Store, deliveries: seq<Delivery>, o: Id) {
    && s.inbox <= after.inbox
    && (forall i :: 0 <= i < |deliveries| && Valid(deliveries[i].event) && deliveries[i].event.order == o ==>
          deliveries[i].event.eventId in after.inbox)
    && (forall x :: x in after.inbox && x !in s.inbox ==> exists i :: 0 <= i < |deliveries| && deliveries[i].event.eventId == x)
  }

  ghost predicate Following(s: Store, deliveries: seq<Delivery>, o: Id, submittedAt: Time) {
    var after := Deliver(s, deliveries);
    Remembered(s, after, deliveries, o) && IsNewest(RowAt(after, o), RowAt(s, o), News(s, deliveries, o, submittedAt))
  }

  lemma RememberOne(s: Store, deliveries: seq<Delivery>, n: nat, o: Id, submittedAt: Time)
    requires n < |deliveries| && StaysReady(deliveries, o, submittedAt)
    requires Remembered(s, Deliver(s, deliveries[..n]), deliveries[..n], o)
    ensures Remembered(s, Deliver(s, deliveries[..n + 1]), deliveries[..n + 1], o)
  {
    var shorter, longer, d := deliveries[..n], deliveries[..n + 1], deliveries[n];
    assert longer[..n] == shorter && longer[n] == d;
    var after := Deliver(s, longer);
    assert after == Received(Deliver(s, shorter), d.orders, d.event);
    forall x | x in after.inbox && x !in s.inbox ensures exists i :: 0 <= i < |longer| && longer[i].event.eventId == x {
      if x in Deliver(s, shorter).inbox {
        var i :| 0 <= i < |shorter| && shorter[i].event.eventId == x;
        assert longer[i].event.eventId == x;
      } else {
        assert longer[n].event.eventId == x;
      }
    }
    forall i | 0 <= i < |longer| && Valid(longer[i].event) && longer[i].event.order == o ensures longer[i].event.eventId in after.inbox {
      if i < n { assert longer[i] == shorter[i]; }
    }
  }

  // A result that tells nothing new leaves the order's row alone; a new one is kept if it is newest.
  lemma RowAfter(s: Store, now: Store, e: Result, orders: map<Id, Order>, o: Id, submittedAt: Time)
    requires o in orders && orders[o].status == Ready && orders[o].submittedAt == Some(submittedAt) && s.inbox <= now.inbox
    ensures RowAt(Received(now, orders, e), o) ==
      if Telling(s, e, o, submittedAt) && e.eventId !in now.inbox
         && (o in now.rows ==> now.rows[o].requestedAt <= e.requestedAt) then Some(RowOf(e))
      else RowAt(now, o)
  {
  }

  lemma NewestStays(row: Option<Stored>, first: Option<Stored>, news: set<Result>, e: Result)
    requires IsNewest(row, first, news)
    ensures IsNewest(if NoOlder(e, row) then Some(RowOf(e)) else row, first, news + {e})
    ensures e in news ==> IsNewest(row, first, news + {e})
  {
    var more := news + {e};
    if w :| Wins(w, first, news) && row == Some(RowOf(w)) {
      assert if NoOlder(e, row) then Wins(e, first, more) else Wins(w, first, more);
    } else if NoOlder(e, first) {
      assert Wins(e, first, more);
    }
    if e in news { assert more == news; }
  }

  lemma {:induction false} FollowsNewest(s: Store, deliveries: seq<Delivery>, o: Id, submittedAt: Time)
    requires StaysReady(deliveries, o, submittedAt) && Identified(deliveries)
    ensures Following(s, deliveries, o, submittedAt)
    decreases |deliveries|
  {
    hide Received, Valid;
    if deliveries == [] {
      assert News(s, deliveries, o, submittedAt) == {};
    } else {
      var n := |deliveries| - 1;
      var shorter, d := deliveries[..n], deliveries[n];
      assert deliveries[..n + 1] == deliveries;
      assert Identified(shorter) && StaysReady(shorter, o, submittedAt);
      FollowsNewest(s, shorter, o, submittedAt);
      RememberOne(s, deliveries, n, o, submittedAt);
      FollowsOneMore(s, deliveries, n, o, submittedAt);
    }
  }

  lemma FollowsOneMore(s: Store, deliveries: seq<Delivery>, n: nat, o: Id, submittedAt: Time)
    requires n + 1 == |deliveries| && StaysReady(deliveries, o, submittedAt) && Identified(deliveries)
    requires Following(s, deliveries[..n], o, submittedAt)
    ensures IsNewest(RowAt(Deliver(s, deliveries), o), RowAt(s, o), News(s, deliveries, o, submittedAt))
  {
    var shorter, d, e := deliveries[..n], deliveries[n], deliveries[n].event;
    var now := Deliver(s, shorter);
    assert deliveries[..n + 1] == deliveries;
    NewsGrow(s, deliveries, n, o, submittedAt);
    RowAfter(s, now, e, d.orders, o, submittedAt);
    if Telling(s, e, o, submittedAt) {
      NewestStays(RowAt(now, o), RowAt(s, o), News(s, shorter, o, submittedAt), e);
      if e.eventId in now.inbox {
        var i :| 0 <= i < |shorter| && shorter[i].event.eventId == e.eventId;
        assert shorter[i] == deliveries[i] && deliveries[i].event == e;
        assert e in News(s, shorter, o, submittedAt);
      }
    }
  }

  // Two newest results of one instant, no older than the row there was.
  ghost predicate Tied(first: Option<Stored>, news: set<Result>) {
    exists d, e :: d != e && Wins(d, first, news) && Wins(e, first, news)
  }

  lemma NewestIsUnique(row: Option<Stored>, other: Option<Stored>, first: Option<Stored>, news: set<Result>)
    requires IsNewest(row, first, news) && IsNewest(other, first, news) && !Tied(first, news)
    ensures row == other
  {
  }

  // While an order stays ready, the stored row is that of the newest request delivered: whatever
  // the order of delivery and however often each result came, the same results leave the same row.
  lemma StoreConverges(s: Store, one: seq<Delivery>, two: seq<Delivery>, o: Id, submittedAt: Time)
    requires StaysReady(one, o, submittedAt) && StaysReady(two, o, submittedAt) && Identified(one) && Identified(two)
    requires News(s, one, o, submittedAt) == News(s, two, o, submittedAt)
    requires !Tied(RowAt(s, o), News(s, one, o, submittedAt))
    ensures RowAt(Deliver(s, one), o) == RowAt(Deliver(s, two), o)
    ensures IsNewest(RowAt(Deliver(s, one), o), RowAt(s, o), News(s, one, o, submittedAt))
  {
    hide StaysReady, Identified, IsNewest, Tied;
    FollowsNewest(s, one, o, submittedAt);
    FollowsNewest(s, two, o, submittedAt);
    NewestIsUnique(RowAt(Deliver(s, one), o), RowAt(Deliver(s, two), o), RowAt(s, o), News(s, one, o, submittedAt));
  }

  // ---- Exactly when the order of delivery matters ----------------------------------------------

  // A way to deliver just this news about o.
  ghost predicate Brings(s: Store, deliveries: seq<Delivery>, news: set<Result>, o: Id, submittedAt: Time) {
    StaysReady(deliveries, o, submittedAt) && Identified(deliveries) && News(s, deliveries, o, submittedAt) == news
  }

  // Results that are news to s, known apart by their identifiers.
  ghost predicate Newsworthy(s: Store, news: set<Result>, o: Id, submittedAt: Time) {
    && (forall e :: e in news ==> Telling(s, e, o, submittedAt))
    && (forall d, e :: d in news && e in news && d.eventId == e.eventId ==> d == e)
  }

  function Waiting(o: Id, submittedAt: Time): map<Id, Order> {
    map[o := Order(o, None, None, None, None, 0.0, 0.0, true, true, Ready, None, None, 1, None,
                   Some(submittedAt), None, None, None, None, None)]
  }

  ghost predicate FromNews(deliveries: seq<Delivery>, news: set<Result>, o: Id, submittedAt: Time) {
    forall i :: 0 <= i < |deliveries| ==> deliveries[i].event in news && deliveries[i].orders == Waiting(o, submittedAt)
  }

  // Any news can be delivered.
  lemma {:induction false} SomeDelivery(s: Store, news: set<Result>, o: Id, submittedAt: Time) returns (deliveries: seq<Delivery>)
    requires Newsworthy(s, news, o, submittedAt)
    ensures Brings(s, deliveries, news, o, submittedAt) && FromNews(deliveries, news, o, submittedAt)
    decreases |news|
  {
    deliveries := [];
    if news != {} {
      var e :| e in news;
      var shorter := SomeDelivery(s, news - {e}, o, submittedAt);
      deliveries := DeliverAlso(s, shorter, news - {e}, e, o, submittedAt);
      assert news - {e} + {e} == news;
    }
  }

  lemma DeliverAlso(s: Store, shorter: seq<Delivery>, news: set<Result>, e: Result, o: Id, submittedAt: Time)
    returns (deliveries: seq<Delivery>)
    requires Newsworthy(s, news + {e}, o, submittedAt) && e !in news
    requires Brings(s, shorter, news, o, submittedAt) && FromNews(shorter, news, o, submittedAt)
    ensures deliveries == shorter + [Delivery(e, Waiting(o, submittedAt))]
    ensures Brings(s, deliveries, news + {e}, o, submittedAt) && FromNews(deliveries, news + {e}, o, submittedAt)
  {
    deliveries := shorter + [Delivery(e, Waiting(o, submittedAt))];
    var n := |shorter|;
    assert deliveries[..n] == shorter && deliveries[..n + 1] == deliveries;
    assert e in news + {e};
    NewsGrow(s, deliveries, n, o, submittedAt);
    assert forall i :: 0 <= i < n ==> deliveries[i] == shorter[i];
  }

  // A newest result can be delivered last, and is then the row.
  lemma DeliveredLast(s: Store, news: set<Result>, e: Result, o: Id, submittedAt: Time) returns (deliveries: seq<Delivery>)
    requires Newsworthy(s, news, o, submittedAt) && Wins(e, RowAt(s, o), news)
    ensures Brings(s, deliveries, news, o, submittedAt) && RowAt(Deliver(s, deliveries), o) == Some(RowOf(e))
  {
    hide Received, Deliver, IsNewest, Valid;
    var shorter := SomeDelivery(s, news - {e}, o, submittedAt);
    FollowsNewest(s, shorter, o, submittedAt);
    deliveries := DeliverAlso(s, shorter, news - {e}, e, o, submittedAt);
    assert news - {e} + {e} == news;
    LastOne(s, shorter, Delivery(e, Waiting(o, submittedAt)));
    var before := Deliver(s, shorter);
    assert e.eventId !in before.inbox by { NotYetIn(s, shorter, news, e, o, submittedAt); }
    RowAfter(s, before, e, Waiting(o, submittedAt), o, submittedAt);
    OlderRow(RowAt(before, o), RowAt(s, o), news, e);
  }

  lemma NotYetIn(s: Store, shorter: seq<Delivery>, news: set<Result>, e: Result, o: Id, submittedAt: Time)
    requires Newsworthy(s, news, o, submittedAt) && e in news && FromNews(shorter, news - {e}, o, submittedAt)
    requires Remembered(s, Deliver(s, shorter), shorter, o)
    ensures e.eventId !in Deliver(s, shorter).inbox
  {
    forall i | 0 <= i < |shorter| ensures shorter[i].event.eventId != e.eventId {
      assert shorter[i].event in news - {e};
    }
  }

  lemma OlderRow(row: Option<Stored>, first: Option<Stored>, news: set<Result>, e: Result)
    requires IsNewest(row, first, news - {e}) && Wins(e, first, news)
    ensures NoOlder(e, row)
  {
  }

  lemma LastOne(s: Store, shorter: seq<Delivery>, last: Delivery)
    ensures Deliver(s, shorter + [last]) == Received(Deliver(s, shorter), last.orders, last.event)
  {
    hide Received;
    assert (shorter + [last])[..|shorter|] == shorter;
  }

  // Two newest results of one instant: each is the row after some delivery of the same news.
  lemma TiesDependOnOrder(s: Store, news: set<Result>, d: Result, e: Result, o: Id, submittedAt: Time)
    returns (one: seq<Delivery>, two: seq<Delivery>)
    requires Newsworthy(s, news, o, submittedAt) && d != e && Wins(d, RowAt(s, o), news) && Wins(e, RowAt(s, o), news)
    ensures Brings(s, one, news, o, submittedAt) && Brings(s, two, news, o, submittedAt)
    ensures RowAt(Deliver(s, one), o) == Some(RowOf(d)) && RowAt(Deliver(s, two), o) == Some(RowOf(e)) && RowOf(d) != RowOf(e)
  {
    hide Deliver, Brings, Wins, Telling, RowAt;
    one := DeliveredLast(s, news, d, o, submittedAt);
    two := DeliveredLast(s, news, e, o, submittedAt);
    assert d in news && e in news by { Winners(d, e, RowAt(s, o), news); }
  }

  lemma Winners(d: Result, e: Result, first: Option<Stored>, news: set<Result>)
    requires Wins(d, first, news) && Wins(e, first, news)
    ensures d in news && e in news
  {
  }

  // Every way to deliver some news leaves the same row, unless two newest results are of one
  // instant: then one delivery ends with the one and another with the other.
  lemma OrderMattersExactly(s: Store, news: set<Result>, o: Id, submittedAt: Time)
    requires Newsworthy(s, news, o, submittedAt)
    ensures (forall one, two :: Brings(s, one, news, o, submittedAt) && Brings(s, two, news, o, submittedAt) ==>
               RowAt(Deliver(s, one), o) == RowAt(Deliver(s, two), o))
            <==> !Tied(RowAt(s, o), news)
  {
    hide Deliver, IsNewest, Valid, RowAt, StaysReady, Identified, News;
    if Tied(RowAt(s, o), news) {
      var d, e :| d != e && Wins(d, RowAt(s, o), news) && Wins(e, RowAt(s, o), news);
      var one, two := TiesDependOnOrder(s, news, d, e, o, submittedAt);
      assert RowAt(Deliver(s, one), o) != RowAt(Deliver(s, two), o);
    } else {
      forall one, two | Brings(s, one, news, o, submittedAt) && Brings(s, two, news, o, submittedAt)
        ensures RowAt(Deliver(s, one), o) == RowAt(Deliver(s, two), o)
      {
        StoreConverges(s, one, two, o, submittedAt);
      }
    }
  }

  // Whatever becomes of the orders, no row ever gives way to an older request's.
  lemma {:induction false} NeverOlder(s: Store, deliveries: seq<Delivery>, o: Id)
    requires o in s.rows
    ensures var after := Deliver(s, deliveries); o in after.rows && after.rows[o].requestedAt >= s.rows[o].requestedAt
    decreases |deliveries|
  {
    if deliveries != [] { NeverOlder(s, deliveries[..|deliveries| - 1], o); }
  }

  // ---- Where a row comes from -------------------------------------------------------------------------

  // A well-formed result of at most five candidates, about the order as it stood ready when it came.
  predicate Witnesses(d: Delivery, o: Id, row: Stored) {
    var e := d.event;
    && e.wellFormed && |e.candidates| <= 5 && e.order == o
    && o in d.orders && d.orders[o].status == Ready && d.orders[o].submittedAt == Some(e.submittedAt)
    && row == Stored(e.eventId, e.submittedAt, e.requestedAt, e.createdAt, e.candidates)
  }

  // Whatever becomes of the orders, a stored row is that of a result delivered while its order was
  // ready and submitted as the result says, or was there before.
  lemma {:induction false} RowsAreEarned(s: Store, deliveries: seq<Delivery>, o: Id)
    requires o in Deliver(s, deliveries).rows
    ensures (o in s.rows && s.rows[o] == Deliver(s, deliveries).rows[o])
            || exists i :: 0 <= i < |deliveries| && Witnesses(deliveries[i], o, Deliver(s, deliveries).rows[o])
    decreases |deliveries|
  {
    if deliveries != [] {
      var n := |deliveries| - 1;
      var before, d := Deliver(s, deliveries[..n]), deliveries[n];
      if o in before.rows && before.rows[o] == Deliver(s, deliveries).rows[o] {
        RowsAreEarned(s, deliveries[..n], o);
        if i :| 0 <= i < n && Witnesses(deliveries[..n][i], o, before.rows[o]) {
          assert Witnesses(deliveries[i], o, Deliver(s, deliveries).rows[o]);
        }
      } else {
        assert Witnesses(deliveries[n], o, Deliver(s, deliveries).rows[o]);
      }
    }
  }
}
