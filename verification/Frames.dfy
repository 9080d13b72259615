// What each part of soundness depends on: the parts a command does not touch stay as they are.
module Frames {
  import opened Model
  import opened Eligibility
  import opened Trips
  import opened Soundness

  // ---- Frames: what a part of soundness depends on ---------------------------------------

  ghost predicate SameCompletedHandovers(t: Trip, u: Trip) {
    forall h :: h in t.handovers && t.handovers[h].status == HandoverCompleted ==>
      h in u.handovers && u.handovers[h] == t.handovers[h]
  }

  // The last leg may change in every way but its start.
  lemma TilesFrame(t: Trip, u: Trip, legs: seq<Id>)
    requires Tiles(t, legs) && SameCompletedHandovers(t, u)
    requires forall a :: Started(u, a) <==> Started(t, a)
    requires forall i :: 0 <= i < |legs| ==>
               Started(u, legs[i]) && u.assignments[legs[i]].startedAt == t.assignments[legs[i]].startedAt
               && SamePlan(t.assignments[legs[i]], u.assignments[legs[i]])
               && (i < |legs| - 1 ==> u.assignments[legs[i]] == t.assignments[legs[i]])
    ensures Tiles(u, legs)
  {
    forall i, j | 0 <= i && j == i + 1 && j < |legs| ensures HandedOver(u, legs[i], legs[j]) {
      assert HandedOver(t, legs[i], legs[j]);
    }
  }

  // A leg handed over by the last one lengthens the chain.
  lemma TilesExtend(t: Trip, u: Trip, legs: seq<Id>, id: Id)
    requires Tiles(t, legs) && SameCompletedHandovers(t, u) && legs != []
    requires Started(u, id)
    requires forall a :: Started(u, a) ==> Started(t, a) || a == id
    requires forall i :: 0 <= i < |legs| ==>
               Started(u, legs[i]) && u.assignments[legs[i]].startedAt == t.assignments[legs[i]].startedAt
               && SamePlan(t.assignments[legs[i]], u.assignments[legs[i]])
               && u.assignments[legs[i]].startedAt.value < u.assignments[id].startedAt.value
               && (i < |legs| - 1 ==> u.assignments[legs[i]] == t.assignments[legs[i]])
    requires Started(u, legs[|legs| - 1]) && HandedOver(u, legs[|legs| - 1], id)
    ensures Tiles(u, legs + [id])
  {
    var longer := legs + [id];
    assert longer[|legs|] == id;
    forall a | Started(u, a) ensures a in longer {
      if a != id { assert a in legs; }
    }
    forall i, j | 0 <= i && j == i + 1 && j < |longer| ensures HandedOver(u, longer[i], longer[j]) {
      if j < |legs| { assert HandedOver(t, legs[i], legs[j]); }
    }
  }

  lemma CustodyFrame(t: Trip, u: Trip)
    requires Custody(t) && SameCompletedHandovers(t, u)
    requires forall a :: Started(u, a) <==> Started(t, a)
    requires forall a :: Started(t, a) ==> a in u.assignments && u.assignments[a] == t.assignments[a]
    requires u.order.startedAt == t.order.startedAt && u.order.deliveredAt == t.order.deliveredAt
    requires u.order.status == OrderStatus.Completed <==> t.order.status == OrderStatus.Completed
    ensures Custody(u)
  {
    var legs :| Chain(t, legs);
    TilesFrame(t, u, legs);
    assert Chain(u, legs);
  }

  ghost predicate SameSites(t: Trip, u: Trip) {
    u.order.id == t.order.id && u.order.origin == t.order.origin && u.order.destination == t.order.destination
  }

  predicate SamePlan(a: Assignment, b: Assignment) {
    b.order == a.order && b.driver == a.driver && b.vehicle == a.vehicle
    && b.plannedFrom == a.plannedFrom && b.plannedTo == a.plannedTo
  }

  // No journal row depends on how assignment a looks beyond this.
  ghost predicate SameHistory(a: Assignment, b: Assignment) {
    && (!Open(a) ==> b == a)
    && (Serving(a) || a.startedAt.Some? ==> Serving(b) || b.startedAt.Some?)
    && (Moving(a) ==> Moving(b))
  }

  lemma FiledFrame(t: Trip, u: Trip)
    requires Filed(t) && SameSites(t, u) && u.operations == t.operations
    requires t.order.status == Cancelled ==> u.order.status == Cancelled
    ensures Filed(u)
  {
    forall a | Performed(u, Load, Some(a)) ensures Performed(u, Receive, None) {
      assert Performed(t, Load, Some(a));
    }
    assert Performed(u, ReturnToSender, None) ==> Performed(t, ReturnToSender, None);
  }

  lemma LoadsFrame(t: Trip, u: Trip)
    requires LoadsHeld(t) && SameSites(t, u) && u.operations == t.operations
    requires forall a :: a in t.assignments ==> a in u.assignments && SameHistory(t.assignments[a], u.assignments[a])
    ensures LoadsHeld(u)
  {
    forall a ensures Effective(u, a) == Effective(t, a)
                     && Performed(u, UndoLoad, Some(a)) == Performed(t, UndoLoad, Some(a))
                     && Performed(u, Load, Some(a)) == Performed(t, Load, Some(a)) {}
  }

  lemma UnloadsFrame(t: Trip, u: Trip)
    requires UnloadsHeld(t) && SameSites(t, u) && u.operations == t.operations
    requires forall a :: a in t.assignments ==> a in u.assignments && SameHistory(t.assignments[a], u.assignments[a])
    requires t.order.status == Arrived || t.order.status == OrderStatus.Completed ==>
               u.order.status == Arrived || u.order.status == OrderStatus.Completed
    ensures UnloadsHeld(u)
  {
    forall a | Performed(u, Unload, Some(a))
      ensures a in u.assignments && (u.order.status == Arrived || u.order.status == OrderStatus.Completed)
              && Moving(u.assignments[a])
    {
      assert Performed(t, Unload, Some(a));
    }
  }

  lemma JournalFrame(t: Trip, u: Trip)
    requires Journalled(t) && SameSites(t, u)
    requires u.operations == t.operations
    requires forall a :: a in t.assignments ==> a in u.assignments && SameHistory(t.assignments[a], u.assignments[a])
    requires t.order.status == Arrived || t.order.status == OrderStatus.Completed ==>
               u.order.status == Arrived || u.order.status == OrderStatus.Completed
    requires t.order.status == Cancelled ==> u.order.status == Cancelled
    requires u.order.startedAt.Some? ==> t.order.startedAt.Some?
    ensures Journalled(u)
  {
    hide Filed, LoadsHeld, UnloadsHeld;
    FiledFrame(t, u);
    LoadsFrame(t, u);
    UnloadsFrame(t, u);
    if u.order.startedAt.Some? && u.order.origin.Some? {
      var a :| Effective(t, a);
      assert Effective(u, a);
    }
  }

  lemma AccountFrame(t: Trip, u: Trip)
    requires Accounted(t) && SameSites(t, u)
    requires u.operations == t.operations && u.incidents == t.incidents && u.receipt == t.receipt
    requires u.order.declared == t.order.declared
    ensures Accounted(u)
  {
    hide JournalAccounted, Resolutions, ShortfallNoted;
  }

  // A command that leaves the order, its assignments and its log alone.
  ghost predicate SameCrew(t: Trip, u: Trip) {
    u.order == t.order && u.assignments == t.assignments && u.history == t.history
  }

  lemma CrewFrame(t: Trip, u: Trip)
    requires SameCrew(t, u) && Crewed(t) && t.order.status != Draft
    ensures Crewed(u)
  {
    if Resubmitted(t) { StillResubmitted(t, u); }
  }

  lemma LogStep(history: seq<StatusChange>, change: StatusChange)
    requires Logged(history, change.from) && CanTransition(change.from, change.to)
    ensures Logged(history + [change], change.to)
  {
    var longer := history + [change];
    forall k, l | 0 <= k && l == k + 1 && l < |longer| ensures longer[k].to == longer[l].from {
      if l == |history| { assert longer[k] == history[k]; }
    }
  }

  lemma StillResubmitted(t: Trip, u: Trip)
    requires Resubmitted(t) && t.history <= u.history
    ensures Resubmitted(u)
  {
    var k :| 0 <= k < |t.history| && IsResubmission(t.history[k]);
    assert u.history[k] == t.history[k];
  }

  // ---- The load in effect -----------------------------------------------------------------

  ghost predicate OneEffective(journal: Journal, o: Id) {
    forall a, b :: EffectiveIn(journal, o, a) && EffectiveIn(journal, o, b) ==> a == b
  }

  // With one load in effect at most, the query for the latest has one answer.
  lemma LatestLoadIsTheOne(journal: Journal, o: Id, a: Id)
    requires OneEffective(journal, o) && EffectiveIn(journal, o, a)
    ensures LatestLoadIn(journal, o) == Some(journal[OpKey(o, Load, Some(a))].packages)
  {
    assert IsLatestLoad(journal, o, a);
  }

  lemma LatestLoadStays(journal: Journal, o: Id, k: OpKey, op: Operation)
    requires OneEffective(journal, o) && k.kind != Load && k.kind != UndoLoad
    ensures LatestLoadIn(journal[k := op], o) == LatestLoadIn(journal, o)
  {
    var after := journal[k := op];
    forall a ensures EffectiveIn(after, o, a) == EffectiveIn(journal, o, a) {}
    if a :| EffectiveIn(journal, o, a) {
      LatestLoadIsTheOne(journal, o, a);
      LatestLoadIsTheOne(after, o, a);
    }
  }

  // ---- New incidents -------------------------------------------------------------------------

  // Adding an incident about one thing leaves the account of every other thing alone.
  lemma NotedStill(incidents: map<Id, Incident>, i: Id, row: Incident, cause: Cause, expected: Option<nat>, actual: nat)
    requires ShortfallNoted(incidents, cause, expected, actual) && row.cause != cause && i !in incidents
    ensures ShortfallNoted(incidents[i := row], cause, expected, actual)
  {
    if expected.Some? && expected.value != actual {
      var j :| j in incidents && incidents[j].cause == cause
        && incidents[j].expected == expected && incidents[j].actual == Some(actual)
        && forall l :: l in incidents && incidents[l].cause == cause ==> l == j;
      assert incidents[i := row][j] == incidents[j];
    }
  }

  // Closing an incident keeps what it is about.
  lemma NotedAfterClosing(incidents: map<Id, Incident>, i: Id, row: Incident, cause: Cause, expected: Option<nat>, actual: nat)
    requires ShortfallNoted(incidents, cause, expected, actual) && i in incidents
    requires row.cause == incidents[i].cause && row.expected == incidents[i].expected && row.actual == incidents[i].actual
    ensures ShortfallNoted(incidents[i := row], cause, expected, actual)
  {
    if expected.Some? && expected.value != actual {
      var j :| j in incidents && incidents[j].cause == cause
        && incidents[j].expected == expected && incidents[j].actual == Some(actual)
        && forall l :: l in incidents && incidents[l].cause == cause ==> l == j;
      assert incidents[i := row][j].cause == cause;
    }
  }
}
