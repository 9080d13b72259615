// What every reachable order looks like, stated over one trip.
module Soundness {
  import opened Model
  import opened Trips

  // ---- Rows belong to the order and to each other --------------------------------------

  predicate NeedsAssignment(kind: OperationKind) { kind == Load || kind == Unload || kind == UndoLoad }

  predicate NamesOwn(t: Trip, a: Option<Id>) { a.Some? ==> a.value in t.assignments }

  ghost predicate Owned(t: Trip) {
    && (forall a :: a in t.assignments ==> t.assignments[a].order == t.order.id)
    && (forall i :: i in t.incidents ==> t.incidents[i].order == t.order.id && NamesOwn(t, t.incidents[i].assignment))
    && (forall h :: h in t.handovers ==> t.handovers[h].order == t.order.id && t.handovers[h].previous in t.assignments)
    && (forall k :: k in t.operations ==>
          k.order == t.order.id && k.assignment.Some? == NeedsAssignment(k.kind)
          && (k.assignment.Some? ==> k.assignment.value in t.assignments))
  }

  // ---- One open assignment, coupled to the order's status --------------------------------

  ghost predicate OneOpen(t: Trip) {
    forall a, b :: a in t.assignments && b in t.assignments && Open(t.assignments[a]) && Open(t.assignments[b]) ==> a == b
  }

  ghost predicate Held(t: Trip, status: AssignmentStatus) {
    exists a :: a in t.assignments && t.assignments[a].status == status && t.order.driver == Some(t.assignments[a].driver)
  }

  predicate Delivered(a: Assignment) { a.status == AssignmentStatus.Completed }

  predicate Untouched(t: Trip) {
    t.assignments == map[] && t.operations == map[] && t.incidents == map[] && t.receipt.None?
    && t.handovers == map[] && t.history == [] && t.order.driver.None?
  }

  ghost predicate Coupled(t: Trip) {
    && OneOpen(t)
    && (forall a :: a in t.assignments && Open(t.assignments[a]) ==>
          match t.order.status
          case Ready => t.assignments[a].status != Active
          case Assigned => t.assignments[a].status == Accepted
          case InTransit => t.assignments[a].status == Active
          case Arrived => t.assignments[a].status == Active
          case _ => false)
    && (t.order.status == Draft ==> Untouched(t))
    && (t.order.status == Assigned ==> Held(t, Accepted))
    && (t.order.status == InTransit || t.order.status == Arrived ==> Held(t, Active))
    && (t.order.status == OrderStatus.Completed ==> Held(t, AssignmentStatus.Completed))
    && (forall a, b :: a in t.assignments && b in t.assignments && Delivered(t.assignments[a]) && Delivered(t.assignments[b]) ==> a == b)
    && (forall a :: a in t.assignments && Delivered(t.assignments[a]) ==> t.order.status == OrderStatus.Completed)
  }

  // The form the design states for a ready order: nothing accepted, nobody named.
  ghost predicate Strict(t: Trip) {
    t.order.status == Ready ==>
      t.order.driver.None? && forall a :: a in t.assignments && Open(t.assignments[a]) ==> t.assignments[a].status == Pending
  }

  // Submitting an assigned order is the one change from assigned to ready that gives no reason.
  ghost predicate Resubmitted(t: Trip) {
    exists k :: 0 <= k < |t.history| && IsResubmission(t.history[k])
  }

  predicate IsResubmission(change: StatusChange) {
    change.from == Assigned && change.to == Ready && change.reason.None?
  }

  predicate Moving(a: Assignment) { a.status == Active || a.status == AssignmentStatus.Completed }

  ghost predicate Stamped(t: Trip) {
    var o := t.order;
    var started := o.status == InTransit || o.status == Arrived || o.status == OrderStatus.Completed;
    && (o.startedAt.Some? <==> started)
    && (o.arrivedAt.Some? <==> o.status == Arrived || o.status == OrderStatus.Completed)
    && (o.deliveredAt.Some? <==> o.status == OrderStatus.Completed)
    && (o.status != Draft && o.status != Cancelled ==> o.submittedAt.Some?)
    && (o.policy == 1 && o.submittedAt.Some? ==> o.declared.Some?)
    && (forall a :: a in t.assignments && t.assignments[a].startedAt.Some? ==> started)
    && (forall a :: a in t.assignments && Moving(t.assignments[a]) ==> t.assignments[a].startedAt.Some?)
    && (forall a :: a in t.assignments && Open(t.assignments[a]) && !Moving(t.assignments[a]) ==>
          t.assignments[a].startedAt.None?)
    && (forall a :: a in t.assignments ==> (t.assignments[a].completedAt.Some? <==> Delivered(t.assignments[a])))
  }

  // ---- The status log replays to the status ------------------------------------------------

  ghost predicate Logged(history: seq<StatusChange>, status: OrderStatus) {
    && (forall k :: 0 <= k < |history| ==> CanTransition(history[k].from, history[k].to))
    && (forall k, l :: 0 <= k && l == k + 1 && l < |history| ==> history[k].to == history[l].from)
    && (if history == [] then status == Draft
        else history[0].from == Draft && history[|history| - 1].to == status)
  }

  // ---- The warehouse journal -----------------------------------------------------------------

  ghost predicate Filed(t: Trip) {
    && (forall k :: k in t.operations ==> Some(t.operations[k].warehouse) == Site(t.order, k.kind))
    && (forall k, l :: k in t.operations && l in t.operations && t.operations[k].id == t.operations[l].id ==> k == l)
    && (forall a :: Performed(t, Load, Some(a)) ==> Performed(t, Receive, None))
    && (Performed(t, ReturnToSender, None) ==> t.order.status == Cancelled && Performed(t, Receive, None))
  }

  ghost predicate LoadsHeld(t: Trip) {
    && (forall a :: Performed(t, UndoLoad, Some(a)) ==>
          Performed(t, Load, Some(a)) && a in t.assignments
          && t.assignments[a].status == Released && t.assignments[a].startedAt.None?)
    && (forall a :: Effective(t, a) ==> a in t.assignments && (Serving(t.assignments[a]) || t.assignments[a].startedAt.Some?))
    && (forall a, b :: Effective(t, a) && Effective(t, b) ==> a == b)
  }

  ghost predicate LoadedToStart(t: Trip) {
    t.order.startedAt.Some? && t.order.origin.Some? ==> exists a :: Effective(t, a)
  }

  ghost predicate UnloadsHeld(t: Trip) {
    forall a :: Performed(t, Unload, Some(a)) ==>
      a in t.assignments && (t.order.status == Arrived || t.order.status == OrderStatus.Completed)
      && Moving(t.assignments[a])
  }

  ghost predicate Journalled(t: Trip) {
    Filed(t) && LoadsHeld(t) && UnloadsHeld(t) && LoadedToStart(t)
  }

  // ---- Each count that differs from the count it is compared with has one incident ---------------

  ghost predicate ShortfallNoted(incidents: map<Id, Incident>, cause: Cause, expected: Option<nat>, actual: nat) {
    if expected.Some? && expected.value != actual then
      exists i :: i in incidents && incidents[i].cause == cause
        && incidents[i].expected == expected && incidents[i].actual == Some(actual)
        && forall j :: j in incidents && incidents[j].cause == cause ==> j == i
    else forall i :: i in incidents ==> incidents[i].cause != cause
  }

  // Each operation against the count its kind is compared with, re-read from the journal as it stands.
  ghost predicate JournalAccounted(journal: Journal, o: Id, declared: Option<nat>, incidents: map<Id, Incident>) {
    && (forall k :: k in journal ==>
          ShortfallNoted(incidents, OfOperation(journal[k].id),
                         ExpectedIn(journal, o, declared, k.kind, k.assignment), journal[k].packages))
    && (forall i :: i in incidents && incidents[i].cause.OfOperation? ==>
          exists k :: k in journal && journal[k].id == incidents[i].cause.operation)
  }

  ghost predicate ReceiptAccounted(t: Trip) {
    if t.receipt.Some? then ShortfallNoted(t.incidents, OfReceipt, ExpectedAtReceipt(t), t.receipt.value.packages)
    else forall i :: i in t.incidents ==> t.incidents[i].cause != OfReceipt
  }

  ghost predicate Resolutions(incidents: map<Id, Incident>) {
    && (forall i :: i in incidents && incidents[i].cause != Reported ==> incidents[i].kind == QuantityDiscrepancy)
    && (forall i :: i in incidents && incidents[i].kind == QuantityDiscrepancy && !incidents[i].open ==>
          incidents[i].resolution == AcceptDiscrepancy)
  }

  ghost predicate Accounted(t: Trip) {
    && JournalAccounted(t.operations, t.order.id, t.order.declared, t.incidents)
    && ReceiptAccounted(t)
    && Resolutions(t.incidents)
  }

  // ---- The receipt and the end of the trip --------------------------------------------------------

  ghost predicate Proven(t: Trip) {
    && (t.receipt.Some? ==>
          var a := t.receipt.value.assignment;
          && a in t.assignments && (t.order.status == Arrived || t.order.status == OrderStatus.Completed)
          && Moving(t.assignments[a])
          && (t.order.destination.Some? ==>
                Performed(t, Unload, Some(a)) && t.operations[KeyOf(t, Unload, Some(a))].packages == t.receipt.value.packages))
    && (t.order.status == OrderStatus.Completed ==>
          && !HasOpenIncident(t)
          && (t.order.policy == 1 ==> t.receipt.Some?)
          && (t.order.destination.Some? ==>
                forall a :: a in t.assignments && Delivered(t.assignments[a]) ==> Performed(t, Unload, Some(a))))
  }

  // ---- Custody: the started legs tile the trip -------------------------------------------------------

  predicate Started(t: Trip, a: Id) { a in t.assignments && t.assignments[a].startedAt.Some? }

  // Leg a ends the instant leg b starts, and a completed handover between them says so.
  ghost predicate HandedOver(t: Trip, a: Id, b: Id)
    requires Started(t, a) && Started(t, b)
  {
    && t.assignments[a].status == Released
    && t.assignments[a].releasedAt == t.assignments[b].startedAt
    && exists h :: h in t.handovers && t.handovers[h].status == HandoverCompleted
         && t.handovers[h].previous == a && t.handovers[h].next == Some(b)
         && t.handovers[h].completedAt == t.assignments[b].startedAt
         && t.handovers[h].driver == t.assignments[b].driver && t.handovers[h].vehicle == t.assignments[b].vehicle
  }

  // The started legs in order: each ends the instant the next starts.
  ghost predicate Tiles(t: Trip, legs: seq<Id>) {
    && (forall i :: 0 <= i < |legs| ==> Started(t, legs[i]))
    && (forall a :: Started(t, a) ==> a in legs)
    && (forall i, j :: 0 <= i < j < |legs| ==>
          t.assignments[legs[i]].startedAt.value < t.assignments[legs[j]].startedAt.value)
    && (forall i, j :: 0 <= i && j == i + 1 && j < |legs| ==> HandedOver(t, legs[i], legs[j]))
  }

  // The first leg starts the trip and the last one ends it or is still under way.
  ghost predicate Bounds(t: Trip, legs: seq<Id>) {
    && (t.order.startedAt.Some? ==> legs != [])
    && (legs != [] ==>
          var first, last := legs[0], legs[|legs| - 1];
          && Started(t, first) && Started(t, last)
          && t.order.startedAt == t.assignments[first].startedAt
          && (if t.order.status == OrderStatus.Completed
              then t.assignments[last].status == AssignmentStatus.Completed
                   && t.assignments[last].completedAt == t.order.deliveredAt
              else t.assignments[last].status == Active))
  }

  ghost predicate Chain(t: Trip, legs: seq<Id>) { Tiles(t, legs) && Bounds(t, legs) }

  ghost predicate Custody(t: Trip) { exists legs :: Chain(t, legs) }

  ghost predicate StartedBy(t: Trip, clock: Time) {
    forall a :: Started(t, a) ==> t.assignments[a].startedAt.value <= clock
  }

  predicate Waiting(h: Handover) { h.status == HandoverPending }

  ghost predicate OneInvitation(t: Trip) {
    forall g, h :: g in t.handovers && h in t.handovers && Waiting(t.handovers[g]) && Waiting(t.handovers[h]) ==> g == h
  }

  // ---- All of it -----------------------------------------------------------------------------

  // Who holds the order, and what its status says about it.
  ghost predicate Crewed(t: Trip) {
    Coupled(t) && (Strict(t) || Resubmitted(t))
  }

  ghost predicate Formed(t: Trip, clock: Time) {
    Owned(t) && Stamped(t) && Proven(t) && StartedBy(t, clock) && OneInvitation(t)
  }

  ghost predicate Recorded(t: Trip) {
    Logged(t.history, t.order.status) && Journalled(t) && Accounted(t) && Custody(t)
  }

  ghost predicate Sound(t: Trip, clock: Time) {
    Crewed(t) && Formed(t, clock) && Recorded(t)
  }
}
