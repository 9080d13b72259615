// The legs a service report lists: the chain of custody itself, from the start of the trip to its end.
module CustodyReport {
  import opened Model
  import opened Trips
  import opened Soundness
  import opened Database
  import opened Core
  import opened Guarantees

  function StartOf(t: Trip, a: Id): Time
    requires Started(t, a)
  {
    t.assignments[a].startedAt.value
  }

  // By the start of the leg, then by identifier.
  predicate ListedBefore(t: Trip, a: Id, b: Id)
    requires Started(t, a) && Started(t, b)
  {
    StartOf(t, a) < StartOf(t, b) || (StartOf(t, a) == StartOf(t, b) && a < b)
  }

  // The rows of the order that have started, each once, in the order the query asks for.
  ghost predicate Listing(t: Trip, history: seq<Id>) {
    && (forall i :: 0 <= i < |history| ==> Started(t, history[i]))
    && (forall a :: Started(t, a) ==> a in history)
    && (forall i, j :: 0 <= i < j < |history| ==> ListedBefore(t, history[i], history[j]))
  }

  // Two strictly ascending sequences of the same elements are the same sequence.
  lemma {:induction false} AscendingIsUnique(xs: seq<Id>, ys: seq<Id>, key: map<Id, Time>)
    requires forall x :: x in xs <==> x in ys
    requires forall x :: x in xs ==> x in key
    requires forall i, j :: 0 <= i < j < |xs| ==> key[xs[i]] < key[xs[j]]
    requires forall i, j :: 0 <= i < j < |ys| ==> key[ys[i]] < key[ys[j]]
    ensures xs == ys
  {
    assert |ys| == 0 || ys[0] in xs;
    if xs != [] {
      assert xs[0] in ys;
      assert ys[0] in xs;
      assert xs[0] == ys[0];
      forall x ensures x in xs[1..] <==> x in ys[1..] {
        if x in xs[1..] { assert x in ys && x != xs[0]; }
        if x in ys[1..] { assert x in xs && x != ys[0]; }
      }
      AscendingIsUnique(xs[1..], ys[1..], key);
    }
  }

  // Legs start at different instants, so the identifiers never decide their order.
  lemma ListingIsTheChain(t: Trip, history: seq<Id>, legs: seq<Id>)
    requires Tiles(t, legs) && Listing(t, history)
    ensures history == legs
  {
    var key := map a | a in t.assignments && t.assignments[a].startedAt.Some? :: t.assignments[a].startedAt.value;
    forall i, j | 0 <= i < j < |history| ensures key[history[i]] < key[history[j]] {
      assert history[i] in legs && history[j] in legs;
      assert ListedBefore(t, history[i], history[j]);
    }
    AscendingIsUnique(history, legs, key);
  }

  datatype Leg = Leg(assignment: Id, driver: Id, vehicle: Id, started: Time, ended: Option<Time>)

  // The report's line about one leg: the instant of completion, or else of release.
  function LegOf(t: Trip, a: Id): Leg
    requires Started(t, a)
  {
    var row := t.assignments[a];
    Leg(a, row.driver, row.vehicle, row.startedAt.value, if row.completedAt.Some? then row.completedAt else row.releasedAt)
  }

  // The legs follow each other without a gap from the start of the trip to the delivery.
  ghost predicate Seamless(t: Trip, legs: seq<Leg>) {
    && legs != []
    && t.order.startedAt == Some(legs[0].started) && t.order.deliveredAt == legs[|legs| - 1].ended
    && forall i, j :: 0 <= i && j == i + 1 && j < |legs| ==>
         legs[i].started < legs[j].started && legs[i].ended == Some(legs[j].started) && JoinedByHandover(t, legs[i], legs[j])
  }

  // Some completed handover passed the cargo from one to the other at that instant.
  ghost predicate JoinedByHandover(t: Trip, a: Leg, b: Leg) {
    exists h :: h in t.handovers && t.handovers[h].status == HandoverCompleted && t.handovers[h].previous == a.assignment
      && t.handovers[h].next == Some(b.assignment) && t.handovers[h].completedAt == Some(b.started)
      && t.handovers[h].driver == b.driver && t.handovers[h].vehicle == b.vehicle
  }

  // The loop of CompleteAssignment over the listed rows.
  method ServiceReport(t: Trip, history: seq<Id>) returns (legs: seq<Leg>)
    requires Listing(t, history)
    ensures |legs| == |history| && forall i :: 0 <= i < |history| ==> legs[i] == LegOf(t, history[i])
  {
    legs := [];
    for i := 0 to |history|
      invariant |legs| == i && forall j :: 0 <= j < i ==> legs[j] == LegOf(t, history[j])
    {
      var leg := t.assignments[history[i]];
      var ended: Option<Time> := None;
      if leg.releasedAt.Some? { ended := leg.releasedAt; }
      if leg.completedAt.Some? { ended := leg.completedAt; }
      legs := legs + [Leg(history[i], leg.driver, leg.vehicle, leg.startedAt.value, ended)];
    }
  }

  lemma ReportIsSeamless(t: Trip, history: seq<Id>, legs: seq<Leg>)
    requires Custody(t) && Stamped(t) && t.order.status == OrderStatus.Completed && Listing(t, history)
    requires |legs| == |history| && forall i :: 0 <= i < |history| ==> legs[i] == LegOf(t, history[i])
    ensures Seamless(t, legs)
  {
    var chain :| Chain(t, chain);
    ListingIsTheChain(t, history, chain);
    forall i, j | 0 <= i && j == i + 1 && j < |legs|
      ensures legs[i].started < legs[j].started && legs[i].ended == Some(legs[j].started) && JoinedByHandover(t, legs[i], legs[j])
    {
      assert HandedOver(t, chain[i], chain[j]);
    }
  }

  // The time on the road, leg by leg.
  function Travelled(legs: seq<Leg>): int {
    if legs == [] then 0
    else Travelled(legs[..|legs| - 1]) + (if legs[|legs| - 1].ended.Some? then legs[|legs| - 1].ended.value - legs[|legs| - 1].started else 0)
  }

  lemma {:induction false} TravelledAdds(t: Trip, legs: seq<Leg>, n: nat)
    requires Seamless(t, legs) && legs[|legs| - 1].ended.Some? && 0 < n <= |legs|
    ensures legs[n - 1].ended.Some? && Travelled(legs[..n]) == legs[n - 1].ended.value - legs[0].started
  {
    if n == 1 {
      assert legs[..1][..0] == [];
      if |legs| > 1 { assert legs[0].ended == Some(legs[1].started); }
    } else {
      TravelledAdds(t, legs, n - 1);
      assert legs[..n][..n - 1] == legs[..n - 1];
      assert legs[n - 2].ended == Some(legs[n - 1].started);
      if n < |legs| { assert legs[n - 1].ended == Some(legs[n].started); }
    }
  }

  // In every run, delivered or not, the started assignments of an order form one chain, and any
  // listing by start and identifier is that chain.
  lemma ChainInEveryRun(s: State, events: seq<Event>, o: Id, history: seq<Id>)
    requires Inv(s) && Legal(s, events) && o in Run(s, events).db.orders
    requires Listing(TripOf(Run(s, events).db, o), history)
    ensures Chain(TripOf(Run(s, events).db, o), history)
  {
    hide Inv, Run, Legal, Crewed, Formed, Logged, Journalled, Accounted, Listing, Bounds, Tiles;
    RunKeeps(s, events);
    SoundOf(Run(s, events), o);
    var t := TripOf(Run(s, events).db, o);
    var legs :| Chain(t, legs);
    ListingIsTheChain(t, history, legs);
  }

  // In every run the report of a delivered order accounts for the whole trip, no instant twice.
  lemma CustodyTilesTheTrip(s: State, events: seq<Event>, o: Id, history: seq<Id>, legs: seq<Leg>)
    requires Inv(s) && Legal(s, events) && o in Run(s, events).db.orders
    requires Run(s, events).db.orders[o].status == OrderStatus.Completed
    requires var t := TripOf(Run(s, events).db, o);
             Listing(t, history) && |legs| == |history| && forall i :: 0 <= i < |history| ==> legs[i] == LegOf(t, history[i])
    ensures var t := TripOf(Run(s, events).db, o);
            && Seamless(t, legs) && t.order.startedAt.Some? && t.order.deliveredAt.Some?
            && Travelled(legs) == t.order.deliveredAt.value - t.order.startedAt.value
  {
    hide Inv, Run, Legal, Crewed, Owned, Proven, StartedBy, OneInvitation, Logged, Journalled, Accounted, Custody, Listing, LegOf,
         Seamless;
    RunKeeps(s, events);
    SoundOf(Run(s, events), o);
    SameRow(Run(s, events).db, o);
    var t := TripOf(Run(s, events).db, o);
    ReportIsSeamless(t, history, legs);
    SeamlessTravel(t, legs);
  }

  lemma SeamlessTravel(t: Trip, legs: seq<Leg>)
    requires Seamless(t, legs) && t.order.deliveredAt.Some?
    ensures t.order.startedAt.Some? && Travelled(legs) == t.order.deliveredAt.value - t.order.startedAt.value
  {
    TravelledAdds(t, legs, |legs|);
    assert legs[..|legs|] == legs;
  }
}
