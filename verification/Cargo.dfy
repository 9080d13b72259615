// Where the cargo went: the declared count, the received count, and the discrepancies between.
module Cargo {
  import opened Model
  import opened Eligibility
  import opened Trips
  import opened Soundness
  import opened Frames
  import opened Verdicts
  import opened Database
  import opened Core
  import opened CoreSafety
  import opened Guarantees

  // ---- Sums over incidents -----------------------------------------------------------------

  function Missing(i: Incident): int {
    if i.expected.Some? && i.actual.Some? then i.expected.value - i.actual.value else 0
  }

  ghost function Total(incidents: map<Id, Incident>, among: set<Id>): int
    requires among <= incidents.Keys
  {
    if among == {} then 0
    else var i :| i in among; Missing(incidents[i]) + Total(incidents, among - {i})
  }

  // Any element may be counted first.
  lemma {:induction false} TotalPeels(incidents: map<Id, Incident>, among: set<Id>, i: Id)
    requires among <= incidents.Keys && i in among
    ensures Total(incidents, among) == Missing(incidents[i]) + Total(incidents, among - {i})
    decreases |among|
  {
    var j :| j in among && Total(incidents, among) == Missing(incidents[j]) + Total(incidents, among - {j});
    if j != i {
      TotalPeels(incidents, among - {j}, i);
      TotalPeels(incidents, among - {i}, j);
      assert among - {j} - {i} == among - {i} - {j};
    }
  }

  lemma {:induction false} TotalOfUnion(incidents: map<Id, Incident>, left: set<Id>, right: set<Id>)
    requires left + right <= incidents.Keys && left !! right
    ensures Total(incidents, left + right) == Total(incidents, left) + Total(incidents, right)
    decreases |left|
  {
    if left == {} {
      assert left + right == right;
    } else {
      var i :| i in left;
      TotalPeels(incidents, left, i);
      TotalPeels(incidents, left + right, i);
      TotalOfUnion(incidents, left - {i}, right);
      assert (left + right) - {i} == (left - {i}) + right;
    }
  }

  function About(incidents: map<Id, Incident>, cause: Cause): (found: set<Id>)
    ensures found <= incidents.Keys
  {
    set i | i in incidents && incidents[i].cause == cause
  }

  // One comparison, one difference.
  lemma NotedTotals(incidents: map<Id, Incident>, cause: Cause, expected: Option<nat>, actual: nat)
    requires ShortfallNoted(incidents, cause, expected, actual)
    ensures Total(incidents, About(incidents, cause)) == if expected.Some? then expected.value - actual else 0
  {
    if expected.Some? && expected.value != actual {
      var i :| i in incidents && incidents[i].cause == cause
        && incidents[i].expected == expected && incidents[i].actual == Some(actual)
        && forall j :: j in incidents && incidents[j].cause == cause ==> j == i;
      assert About(incidents, cause) == {i};
      TotalPeels(incidents, {i}, i);
      assert {i} - {i} == {};
    } else {
      assert About(incidents, cause) == {};
    }
  }

  // ---- The counts that make up the account of one order ---------------------------------------

  // Receiving, the load still in effect, unloading and the receipt.
  ghost predicate Counted(t: Trip, k: OpKey) {
    k in t.operations
    && (k == KeyOf(t, Receive, None)
        || (k.kind == Load && k.assignment.Some? && Effective(t, k.assignment.value))
        || k.kind == Unload)
  }

  ghost predicate AboutCargo(t: Trip, cause: Cause) {
    cause == OfReceipt || exists k :: Counted(t, k) && cause == OfOperation(t.operations[k].id)
  }

  ghost function CargoIncidents(t: Trip): (found: set<Id>)
    ensures found <= t.incidents.Keys
  {
    set i | i in t.incidents && AboutCargo(t, t.incidents[i].cause)
  }

  // What the quantity incidents of the order add up to.
  ghost function Lost(t: Trip): int { Total(t.incidents, CargoIncidents(t)) }

  ghost function Difference(expected: Option<nat>, actual: nat): int {
    if expected.Some? then expected.value - actual else 0
  }

  ghost function OfKey(t: Trip, k: OpKey): (found: set<Id>)
    ensures found <= t.incidents.Keys
  {
    if Counted(t, k) then About(t.incidents, OfOperation(t.operations[k].id)) else {}
  }

  // No key but these is counted: one receipt of goods, one load, one unload.
  ghost predicate OnlyCounted(t: Trip, load: OpKey, unload: OpKey) {
    load.kind == Load && unload.kind == Unload
    && forall k :: Counted(t, k) ==> k == KeyOf(t, Receive, None) || k == load || k == unload
  }

  lemma CargoSplits(t: Trip, load: OpKey, unload: OpKey)
    requires Filed(t) && OnlyCounted(t, load, unload)
    ensures CargoIncidents(t)
            == OfKey(t, KeyOf(t, Receive, None)) + OfKey(t, load) + OfKey(t, unload) + About(t.incidents, OfReceipt)
    ensures OfKey(t, KeyOf(t, Receive, None)) !! OfKey(t, load)
    ensures (OfKey(t, KeyOf(t, Receive, None)) + OfKey(t, load)) !! OfKey(t, unload)
    ensures (OfKey(t, KeyOf(t, Receive, None)) + OfKey(t, load) + OfKey(t, unload)) !! About(t.incidents, OfReceipt)
  {
  }

  ghost function KeyTotal(t: Trip, k: OpKey): int { Total(t.incidents, OfKey(t, k)) }

  lemma LostSplits(t: Trip, load: OpKey, unload: OpKey)
    requires Filed(t) && OnlyCounted(t, load, unload)
    ensures Lost(t) == KeyTotal(t, KeyOf(t, Receive, None)) + KeyTotal(t, load) + KeyTotal(t, unload)
                       + Total(t.incidents, About(t.incidents, OfReceipt))
  {
    hide Filed, OnlyCounted, OfKey, CargoIncidents, About;
    CargoSplits(t, load, unload);
    var receive := KeyOf(t, Receive, None);
    TotalOfUnion(t.incidents, OfKey(t, receive), OfKey(t, load));
    TotalOfUnion(t.incidents, OfKey(t, receive) + OfKey(t, load), OfKey(t, unload));
    TotalOfUnion(t.incidents, OfKey(t, receive) + OfKey(t, load) + OfKey(t, unload), About(t.incidents, OfReceipt));
  }

  lemma KeyTotals(t: Trip, k: OpKey)
    requires JournalAccounted(t.operations, t.order.id, t.order.declared, t.incidents)
    ensures Counted(t, k) ==>
              KeyTotal(t, k) == Difference(ExpectedIn(t.operations, t.order.id, t.order.declared, k.kind, k.assignment), t.operations[k].packages)
    ensures !Counted(t, k) ==> KeyTotal(t, k) == 0
  {
    hide ExpectedIn;
    if Counted(t, k) {
      NotedTotals(t.incidents, OfOperation(t.operations[k].id),
                  ExpectedIn(t.operations, t.order.id, t.order.declared, k.kind, k.assignment), t.operations[k].packages);
    }
  }

  // ---- A delivered order's account --------------------------------------------------------------

  ghost predicate Settling(t: Trip) {
    Owned(t) && Coupled(t) && Stamped(t) && Proven(t) && Journalled(t) && Accounted(t) && t.order.status == OrderStatus.Completed
  }

  // The load in effect (if the cargo left from a warehouse) and the delivering unload (if it came
  // to one) are the only ones counted.
  lemma CountedOnce(t: Trip, a: Id, b: Id)
    requires Settling(t) && (Effective(t, a) || forall x :: !Effective(t, x)) && b in t.assignments && Delivered(t.assignments[b])
    ensures OnlyCounted(t, KeyOf(t, Load, Some(a)), KeyOf(t, Unload, Some(b)))
  {
    forall k | Counted(t, k) ensures k == KeyOf(t, Receive, None) || k == KeyOf(t, Load, Some(a)) || k == KeyOf(t, Unload, Some(b)) {
      if k.kind == Unload {
        assert Performed(t, Unload, Some(k.assignment.value));
        assert Delivered(t.assignments[k.assignment.value]);
      }
    }
  }

  lemma ReceiptTotal(t: Trip)
    requires ReceiptAccounted(t) && t.receipt.Some?
    ensures Total(t.incidents, About(t.incidents, OfReceipt)) == Difference(ExpectedAtReceipt(t), t.receipt.value.packages)
  {
    hide ExpectedAtReceipt;
    NotedTotals(t.incidents, OfReceipt, ExpectedAtReceipt(t), t.receipt.value.packages);
  }

  lemma OneLoadInEffect(t: Trip)
    requires LoadsHeld(t)
    ensures OneEffective(t.operations, t.order.id)
  {
    forall a, b | EffectiveIn(t.operations, t.order.id, a) && EffectiveIn(t.operations, t.order.id, b) ensures a == b {
      assert Effective(t, a) && Effective(t, b);
    }
  }

  ghost predicate DeliveredBy(t: Trip, b: Id) {
    b in t.assignments && Delivered(t.assignments[b]) && t.receipt.Some? && t.order.declared.Some?
    && (t.order.destination.Some? ==>
          Performed(t, Unload, Some(b)) && t.operations[KeyOf(t, Unload, Some(b))].packages == t.receipt.value.packages)
  }

  lemma DeliveredBySomeone(t: Trip) returns (b: Id)
    requires Settling(t) && t.order.policy == 1
    ensures DeliveredBy(t, b)
  {
    b :| b in t.assignments && t.assignments[b].status == AssignmentStatus.Completed && t.order.driver == Some(t.assignments[b].driver);
    assert Delivered(t.assignments[b]);
    assert Delivered(t.assignments[t.receipt.value.assignment]);
  }

  lemma LoadedFromOrigin(t: Trip) returns (a: Id)
    requires Settling(t) && t.order.origin.Some?
    ensures Effective(t, a) && Performed(t, Receive, None)
  {
    hide Coupled, Proven, Accounted, Owned;
    a :| Effective(t, a);
    assert Performed(t, Load, Some(a));
  }

  // From an origin warehouse: every package declared and not received is in some incident.
  lemma AccountFromOrigin(t: Trip)
    requires Settling(t) && t.order.policy == 1 && t.order.origin.Some?
    ensures t.order.declared.Some? && t.receipt.Some?
    ensures Lost(t) == t.order.declared.value - t.receipt.value.packages
  {
    hide Coupled, Stamped, Proven, Owned, Filed, LoadsHeld, UnloadsHeld, Settling, Resolutions, ShortfallNoted, About, LatestLoadIn,
         OnlyCounted, KeyTotal, Lost, Total;
    SettlingParts(t);
    var b := DeliveredBySomeone(t);
    var a := LoadedFromOrigin(t);
    CountedOnce(t, a, b);
    var load, unload := KeyOf(t, Load, Some(a)), KeyOf(t, Unload, Some(b));
    LostSplits(t, load, unload);
    KeyTotals(t, KeyOf(t, Receive, None));
    KeyTotals(t, load);
    KeyTotals(t, unload);
    ReceiptTotal(t);
    OneLoadInEffect(t);
    LatestLoadIsTheOne(t.operations, t.order.id, a);
    if t.order.destination.None? { NoUnloadWithoutDestination(t, unload); }
  }

  lemma SettlingParts(t: Trip)
    requires Settling(t)
    ensures Filed(t) && LoadsHeld(t) && Owned(t)
    ensures JournalAccounted(t.operations, t.order.id, t.order.declared, t.incidents) && ReceiptAccounted(t)
  {
    hide Coupled, Stamped, Proven, JournalAccounted, ReceiptAccounted, Resolutions, UnloadsHeld, Filed, LoadsHeld, Owned;
  }

  lemma NoUnloadWithoutDestination(t: Trip, unload: OpKey)
    requires Filed(t) && t.order.destination.None? && unload.kind == Unload
    ensures !Counted(t, unload)
  {
  }

  lemma NothingFromNowhere(t: Trip)
    requires Filed(t) && t.order.origin.None?
    ensures !Performed(t, Receive, None) && forall a :: !Performed(t, Load, Some(a)) && !Effective(t, a)
    ensures LatestLoad(t).None?
  {
  }

  // With no origin warehouse only the receipt is ever compared with the declaration, and only when
  // there is no destination warehouse either.
  lemma AccountFromNowhere(t: Trip)
    requires Settling(t) && t.order.policy == 1 && t.order.origin.None?
    ensures t.order.declared.Some? && t.receipt.Some?
    ensures Lost(t) == if t.order.destination.Some? then 0 else t.order.declared.value - t.receipt.value.packages
  {
    hide Coupled, Stamped, Proven, Owned, Filed, LoadsHeld, UnloadsHeld, Settling, Resolutions, ShortfallNoted, About, LatestLoadIn,
         OnlyCounted, KeyTotal, Lost, Total;
    SettlingParts(t);
    var b := DeliveredBySomeone(t);
    NothingFromNowhere(t);
    CountedOnce(t, b, b);
    var load, unload := KeyOf(t, Load, Some(b)), KeyOf(t, Unload, Some(b));
    LostSplits(t, load, unload);
    KeyTotals(t, KeyOf(t, Receive, None));
    KeyTotals(t, load);
    KeyTotals(t, unload);
    ReceiptTotal(t);
    if t.order.destination.None? { NoUnloadWithoutDestination(t, unload); }
  }

  lemma SoundIsSettling(t: Trip, clock: Time)
    requires Sound(t, clock) && t.order.status == OrderStatus.Completed
    ensures Settling(t)
  {
    hide Coupled, Strict, Resubmitted, Owned, Stamped, Proven, StartedBy, OneInvitation, Logged, Journalled, Accounted, Custody;
  }

  lemma AllAccepted(t: Trip)
    requires Settling(t)
    ensures forall i :: i in CargoIncidents(t) ==>
              t.incidents[i].kind == QuantityDiscrepancy && !t.incidents[i].open && t.incidents[i].resolution == AcceptDiscrepancy
  {
    hide Coupled, Stamped, Owned, Journalled, JournalAccounted, ReceiptAccounted;
    forall i | i in CargoIncidents(t) ensures t.incidents[i].cause != Reported && !t.incidents[i].open {
      assert !(HasOpenIncident(t));
    }
  }

  // In every run: the incidents of a delivered order add up to what went missing between the
  // declaration and the receipt, unless the cargo came from no warehouse to a warehouse, where they
  // add up to nothing; each of them was accepted.
  lemma CargoAccounted(s: State, events: seq<Event>, o: Id)
    requires Inv(s) && Legal(s, events) && o in Run(s, events).db.orders
    requires var row := Run(s, events).db.orders[o]; row.status == OrderStatus.Completed && row.policy == 1
    ensures var t := TripOf(Run(s, events).db, o);
            && t.order.declared.Some? && t.receipt.Some?
            && Lost(t) == (if t.order.origin.None? && t.order.destination.Some? then 0
                           else t.order.declared.value - t.receipt.value.packages)
            && forall i :: i in CargoIncidents(t) ==>
                 t.incidents[i].kind == QuantityDiscrepancy && !t.incidents[i].open && t.incidents[i].resolution == AcceptDiscrepancy
  {
    hide Inv, Run, Legal, Sound, Crewed, Formed, Recorded, Settling, Lost, CargoIncidents;
    RunKeeps(s, events);
    SoundOf(Run(s, events), o);
    SameRow(Run(s, events).db, o);
    var t := TripOf(Run(s, events).db, o);
    hide TripOf;
    SoundIsSettling(t, Run(s, events).clock);
    AllAccepted(t);
    if t.order.origin.Some? { AccountFromOrigin(t); } else { AccountFromNowhere(t); }
  }

  // So the account of a delivered order closes exactly when it has an origin warehouse, or no
  // destination warehouse, or nothing was missing.
  lemma AccountClosesExactly(s: State, events: seq<Event>, o: Id)
    requires Inv(s) && Legal(s, events) && o in Run(s, events).db.orders
    requires var row := Run(s, events).db.orders[o]; row.status == OrderStatus.Completed && row.policy == 1
    ensures var t := TripOf(Run(s, events).db, o);
            && t.order.declared.Some? && t.receipt.Some?
            && (Lost(t) == t.order.declared.value - t.receipt.value.packages
                <==> t.order.origin.Some? || t.order.destination.None? || t.order.declared.value == t.receipt.value.packages)
  {
    hide Inv, Run, Legal, Lost, CargoIncidents, TripOf;
    CargoAccounted(s, events, o);
  }

  // Why the incidents then say nothing: without an origin warehouse any count is unloaded, and none raises an incident.
  lemma UnloadUnquestioned(t: Trip, who: Actor, now: Time, request: OperationRequest, other: nat, fleet: Registry,
                           elsewhere: bool, id: Id, taken: bool, incident: Id, spent: bool)
    requires Filed(t) && t.order.origin.None? && request.kind == Unload && request.packages >= 0
    ensures var v := Operate(t, who, now, request, fleet, elsewhere, id, taken, incident, spent);
            var w := Operate(t, who, now, request.(packages := other), fleet, elsewhere, id, taken, incident, spent);
            v.Commit? == w.Commit? && (v.Commit? ==> v.trip.incidents == t.incidents == w.trip.incidents)
  {
    hide LatestLoadIn, SiteObjection, HasOpenIncident, Filed;
    NothingFromNowhere(t);
  }
}
