// The warehouse queue: how its stage is computed, what the stage means, and which command it announces.
module WarehouseQueue {
  import opened Model
  import opened Trips
  import opened Soundness
  import opened Frames
  import opened Preservation
  import opened Database
  import opened Core
  import opened Guarantees
  import opened Effects
  import opened Resubmission
  import Permissions

  datatype Stage =
    | Expected | AwaitingReceipt | AwaitingAssignment | AwaitingLoading | ReadyToDepart | Departed
    | AwaitingUnloading | Received | Closed(status: OrderStatus) | AwaitingReturn | ReturnedToSender | IncidentStage

  datatype Item = Item(order: Order, stage: Stage, openIncidents: nat)

  ghost predicate Loaded(t: Trip) { exists a :: Effective(t, a) }

  ghost predicate AnyUnload(t: Trip) { exists a :: Performed(t, Unload, Some(a)) }

  // What a stage says about the order, for the manager of warehouse w.
  ghost function StageOf(t: Trip, w: Id): Stage {
    var o := t.order;
    var received := o.origin == Some(w) && Performed(t, Receive, None);
    if HasOpenIncident(t) then IncidentStage
    else if o.status == Cancelled && received then
      if Performed(t, ReturnToSender, None) then ReturnedToSender else AwaitingReturn
    else if o.status == OrderStatus.Completed || o.status == Cancelled then Closed(o.status)
    else if o.destination == Some(w) && AnyUnload(t) then Received
    else if o.origin == Some(w) then
      if o.startedAt.Some? then Departed
      else if Loaded(t) then ReadyToDepart
      else if received then if o.status == Assigned then AwaitingLoading else AwaitingAssignment
      else AwaitingReceipt
    else if o.status == Arrived then AwaitingUnloading
    else Expected
  }

  // ---- The fold over the journal ---------------------------------------------------------------

  // The rows the three queries return for one page of orders: every journal row of the warehouse
  // and every open incident of those orders, each once, in any order.
  ghost predicate PageOf(db: Tables, w: Id, page: seq<Order>, journal: seq<OpKey>, incidents: seq<Id>) {
    && (forall i :: 0 <= i < |page| ==> page[i].id in db.orders && db.orders[page[i].id] == page[i])
    && (forall k :: k in journal <==>
          k in db.operations && db.operations[k].warehouse == w && (exists i :: 0 <= i < |page| && page[i].id == k.order))
    && (forall n :: n in incidents <==>
          n in db.incidents && db.incidents[n].open && (exists i :: 0 <= i < |page| && page[i].id == db.incidents[n].order))
    && (forall i, j :: 0 <= i < j < |incidents| ==> incidents[i] != incidents[j])
  }

  ghost function OpenIncidents(db: Tables, o: Id): set<Id> {
    set n | n in db.incidents && db.incidents[n].open && db.incidents[n].order == o
  }

  function Lookup<T>(m: map<Id, T>, o: Id, default: T): T { if o in m then m[o] else default }

  ghost function OpenAmong(db: Tables, incidents: seq<Id>, o: Id): set<Id>
    requires forall n :: n in incidents ==> n in db.incidents
  {
    set n | n in incidents && db.incidents[n].order == o
  }

  // Counts per order, incident by incident.
  method CountOpen(db: Tables, incidents: seq<Id>) returns (openCounts: map<Id, nat>)
    requires forall n :: n in incidents ==> n in db.incidents
    requires forall i, j :: 0 <= i < j < |incidents| ==> incidents[i] != incidents[j]
    ensures forall o :: Lookup(openCounts, o, 0) == |OpenAmong(db, incidents, o)|
  {
    openCounts := map[];
    for i := 0 to |incidents|
      invariant forall o :: Lookup(openCounts, o, 0) == |OpenAmong(db, incidents[..i], o)|
    {
      var o := db.incidents[incidents[i]].order;
      ghost var before := openCounts;
      openCounts := openCounts[o := Lookup(openCounts, o, 0) + 1];
      OneMoreOpen(db, incidents, i);
      forall p ensures Lookup(openCounts, p, 0) == |OpenAmong(db, incidents[..i + 1], p)| {
        assert Lookup(before, p, 0) == |OpenAmong(db, incidents[..i], p)|;
      }
    }
    assert incidents[..|incidents|] == incidents;
  }

  lemma OneMoreOpen(db: Tables, incidents: seq<Id>, i: nat)
    requires i < |incidents| && forall n :: n in incidents ==> n in db.incidents
    requires forall j, k :: 0 <= j < k < |incidents| ==> incidents[j] != incidents[k]
    ensures forall n :: n in incidents[..i + 1] ==> n in db.incidents
    ensures forall p :: |OpenAmong(db, incidents[..i + 1], p)|
                     == |OpenAmong(db, incidents[..i], p)| + if p == db.incidents[incidents[i]].order then 1 else 0
  {
    var o := db.incidents[incidents[i]].order;
    assert incidents[..i + 1] == incidents[..i] + [incidents[i]];
    forall p ensures |OpenAmong(db, incidents[..i + 1], p)| == |OpenAmong(db, incidents[..i], p)| + if p == o then 1 else 0 {
      assert OpenAmong(db, incidents[..i + 1], p) == OpenAmong(db, incidents[..i], p) + if p == o then {incidents[i]} else {};
    }
  }

  function KindsIn(journal: seq<OpKey>, o: Id): set<OperationKind> {
    set k | k in journal && k.order == o :: k.kind
  }

  function LoadsIn(journal: seq<OpKey>, o: Id): set<Id> {
    set k | k in journal && k.order == o && k.kind == Load && k.assignment.Some? :: k.assignment.value
  }

  function UndoneIn(journal: seq<OpKey>): set<Id> {
    set k | k in journal && k.kind == UndoLoad && k.assignment.Some? :: k.assignment.value
  }

  // Which kinds of row an order has, which assignments loaded, and which loads were undone.
  method FoldJournal(journal: seq<OpKey>)
    returns (seen: map<Id, set<OperationKind>>, loads: map<Id, set<Id>>, undone: set<Id>)
    ensures forall o :: Lookup(seen, o, {}) == KindsIn(journal, o)
    ensures forall o :: Lookup(loads, o, {}) == LoadsIn(journal, o)
    ensures undone == UndoneIn(journal)
  {
    seen, loads, undone := map[], map[], {};
    for i := 0 to |journal|
      invariant forall o :: Lookup(seen, o, {}) == KindsIn(journal[..i], o)
      invariant forall o :: Lookup(loads, o, {}) == LoadsIn(journal[..i], o)
      invariant undone == UndoneIn(journal[..i])
    {
      var op := journal[i];
      assert journal[..i + 1] == journal[..i] + [op];
      OneMoreRow(journal[..i], op);
      seen := seen[op.order := Lookup(seen, op.order, {}) + {op.kind}];
      if op.kind == Load && op.assignment.Some? {
        loads := loads[op.order := Lookup(loads, op.order, {}) + {op.assignment.value}];
      }
      if op.kind == UndoLoad && op.assignment.Some? {
        undone := undone + {op.assignment.value};
      }
    }
    assert journal[..|journal|] == journal;
  }

  lemma OneMoreRow(journal: seq<OpKey>, op: OpKey)
    ensures forall o :: KindsIn(journal + [op], o) == KindsIn(journal, o) + if op.order == o then {op.kind} else {}
    ensures forall o :: LoadsIn(journal + [op], o)
                     == LoadsIn(journal, o) + if op.order == o && op.kind == Load && op.assignment.Some? then {op.assignment.value} else {}
    ensures UndoneIn(journal + [op])
         == UndoneIn(journal) + if op.kind == UndoLoad && op.assignment.Some? then {op.assignment.value} else {}
  {
    var longer := journal + [op];
    assert forall k :: k in longer <==> k in journal || k == op;
    forall o ensures KindsIn(longer, o) == KindsIn(journal, o) + if op.order == o then {op.kind} else {} {
      if op.order == o { assert op in longer; }
    }
    forall o ensures LoadsIn(longer, o)
                  == LoadsIn(journal, o) + if op.order == o && op.kind == Load && op.assignment.Some? then {op.assignment.value} else {} {
      if op.order == o { assert op in longer; }
    }
    assert op in longer;
  }

  // Looks through the loads of one order, in any order, for one that no undo lifted.
  method AnyLoadStands(loads: set<Id>, undone: set<Id>) returns (loaded: bool)
    ensures loaded <==> exists a :: a in loads && a !in undone
  {
    loaded := false;
    var rest := loads;
    while rest != {}
      invariant rest <= loads
      invariant loaded <==> exists a :: a in loads - rest && a !in undone
      decreases |rest|
    {
      var id :| id in rest;
      if id !in undone { loaded := true; }
      rest := rest - {id};
    }
  }

  function FoldStage(order: Order, w: Id, ops: set<OperationKind>, loaded: bool, openCount: nat): Stage {
    var received := order.origin == Some(w) && Receive in ops;
    if openCount > 0 then IncidentStage
    else if order.status == Cancelled && received then
      if ReturnToSender in ops then ReturnedToSender else AwaitingReturn
    else if order.status == OrderStatus.Completed || order.status == Cancelled then Closed(order.status)
    else if Unload in ops then Received
    else if order.origin == Some(w) then
      if order.startedAt.Some? then Departed
      else if loaded then ReadyToDepart
      else if received then if order.status == Assigned then AwaitingLoading else AwaitingAssignment
      else AwaitingReceipt
    else if order.status == Arrived then AwaitingUnloading
    else Expected
  }

  // Later lines override earlier ones; read backwards they are the cases above.
  method StageFromFold(order: Order, w: Id, ops: set<OperationKind>, loads: set<Id>, undone: set<Id>, openCount: nat)
    returns (stage: Stage)
    ensures stage == FoldStage(order, w, ops, exists a :: a in loads && a !in undone, openCount)
  {
    stage := Expected;
    if order.origin == Some(w) {
      stage := AwaitingReceipt;
      if Receive in ops { stage := AwaitingAssignment; }
      if order.status == Assigned && Receive in ops { stage := AwaitingLoading; }
      var loaded := AnyLoadStands(loads, undone);
      if loaded { stage := ReadyToDepart; }
      if order.startedAt.Some? { stage := Departed; }
    } else if order.status == Arrived {
      stage := AwaitingUnloading;
    }
    if Unload in ops { stage := Received; }
    if order.status == OrderStatus.Completed || order.status == Cancelled { stage := Closed(order.status); }
    if order.status == Cancelled && order.origin == Some(w) && Receive in ops {
      stage := AwaitingReturn;
      if ReturnToSender in ops { stage := ReturnedToSender; }
    }
    if openCount > 0 { stage := IncidentStage; }
  }

  // Each journal row lies at the site of its kind and names an assignment of its own order, if any.
  ghost predicate WellFiled(db: Tables) {
    forall k :: k in db.operations ==>
      k.order in db.orders && Some(db.operations[k].warehouse) == Site(db.orders[k.order], k.kind)
      && k.assignment.Some? == NeedsAssignment(k.kind)
      && (k.assignment.Some? ==> k.assignment.value in db.assignments && db.assignments[k.assignment.value].order == k.order)
  }

  lemma InvariantFiles(s: State)
    requires Inv(s)
    ensures WellFiled(s.db)
  {
    hide Inv, Sound, Crewed, Formed, Recorded, Site;
    forall k | k in s.db.operations
      ensures k.order in s.db.orders && Some(s.db.operations[k].warehouse) == Site(s.db.orders[k.order], k.kind)
              && k.assignment.Some? == NeedsAssignment(k.kind)
              && (k.assignment.Some? ==> k.assignment.value in s.db.assignments && s.db.assignments[k.assignment.value].order == k.order)
    {
      RowExists(s, k);
      SoundOf(s, k.order);
      RowFiled(s.db, k, s.clock);
    }
  }

  lemma RowExists(s: State, k: OpKey)
    requires Inv(s) && k in s.db.operations
    ensures k.order in s.db.orders
  {
    hide AllSound, NoDoubleBooking, ReleasesKept;
  }

  lemma RowFiled(db: Tables, k: OpKey, clock: Time)
    requires k in db.operations && k.order in db.orders && Sound(TripOf(db, k.order), clock)
    ensures Some(db.operations[k].warehouse) == Site(db.orders[k.order], k.kind) && k.assignment.Some? == NeedsAssignment(k.kind)
    ensures k.assignment.Some? ==> k.assignment.value in db.assignments && db.assignments[k.assignment.value].order == k.order
  {
    hide Crewed, Stamped, Proven, StartedBy, OneInvitation, Logged, Accounted, Custody, LoadsHeld, UnloadsHeld, LoadedToStart, Site;
    assert k in TripOf(db, k.order).operations;
  }

  lemma PerformedFlat(db: Tables, o: Id, kind: OperationKind, a: Option<Id>)
    requires o in db.orders && db.orders[o].id == o
    ensures Performed(TripOf(db, o), kind, a) <==> OpKey(o, kind, a) in db.operations
  {
  }

  ghost predicate OnPage(page: seq<Order>, o: Id) { exists i :: 0 <= i < |page| && page[i].id == o }

  // The rows of this warehouse show the kinds whose site it is.
  lemma KindsSeen(db: Tables, w: Id, page: seq<Order>, journal: seq<OpKey>, incidents: seq<Id>, o: Id, kind: OperationKind)
    requires WellFiled(db) && PageOf(db, w, page, journal, incidents) && OnPage(page, o) && o in db.orders
    ensures kind in KindsIn(journal, o) <==> Site(db.orders[o], kind) == Some(w) && exists a :: OpKey(o, kind, a) in db.operations
  {
    if kind in KindsIn(journal, o) {
      var k :| k in journal && k.order == o && k.kind == kind;
      assert OpKey(o, kind, k.assignment) in db.operations;
    }
    if Site(db.orders[o], kind) == Some(w) && exists a :: OpKey(o, kind, a) in db.operations {
      var a :| OpKey(o, kind, a) in db.operations;
      assert OpKey(o, kind, a) in journal;
    }
  }

  // No other order's row can undo this order's load.
  lemma LoadSeen(db: Tables, w: Id, page: seq<Order>, journal: seq<OpKey>, incidents: seq<Id>, o: Id, a: Id)
    requires WellFiled(db) && PageOf(db, w, page, journal, incidents) && OnPage(page, o) && o in db.orders
    ensures a in LoadsIn(journal, o) <==> db.orders[o].origin == Some(w) && OpKey(o, Load, Some(a)) in db.operations
    ensures db.orders[o].origin == Some(w) && OpKey(o, Load, Some(a)) in db.operations ==>
              (a in UndoneIn(journal) <==> OpKey(o, UndoLoad, Some(a)) in db.operations)
  {
    if a in LoadsIn(journal, o) {
      var k :| k in journal && k.order == o && k.kind == Load && k.assignment == Some(a);
      assert k == OpKey(o, Load, Some(a));
    }
    if db.orders[o].origin == Some(w) && OpKey(o, Load, Some(a)) in db.operations {
      assert OpKey(o, Load, Some(a)) in journal;
      if a in UndoneIn(journal) {
        var k :| k in journal && k.kind == UndoLoad && k.assignment == Some(a);
        assert k == OpKey(o, UndoLoad, Some(a));
      }
      if OpKey(o, UndoLoad, Some(a)) in db.operations { assert OpKey(o, UndoLoad, Some(a)) in journal; }
    }
  }

  lemma LoadsSeen(db: Tables, w: Id, page: seq<Order>, journal: seq<OpKey>, incidents: seq<Id>, o: Id)
    requires WellFiled(db) && PageOf(db, w, page, journal, incidents) && OnPage(page, o) && o in db.orders
    ensures (exists a :: a in LoadsIn(journal, o) && a !in UndoneIn(journal))
            <==> db.orders[o].origin == Some(w) && exists a :: EffectiveIn(db.operations, o, a)
  {
    hide WellFiled, PageOf, OnPage, LoadsIn, UndoneIn;
    forall a ensures a in LoadsIn(journal, o) && a !in UndoneIn(journal)
                     <==> db.orders[o].origin == Some(w) && EffectiveIn(db.operations, o, a)
    {
      LoadSeen(db, w, page, journal, incidents, o, a);
    }
  }

  lemma OpenSeen(db: Tables, w: Id, page: seq<Order>, journal: seq<OpKey>, incidents: seq<Id>, o: Id)
    requires PageOf(db, w, page, journal, incidents) && OnPage(page, o)
    ensures forall n :: n in incidents ==> n in db.incidents
    ensures OpenAmong(db, incidents, o) == OpenIncidents(db, o)
  {
    forall n | n in OpenIncidents(db, o) ensures n in incidents {}
  }

  lemma OpenCounts(db: Tables, o: Id)
    requires o in db.orders
    ensures |OpenIncidents(db, o)| > 0 <==> HasOpenIncident(TripOf(db, o))
  {
    if HasOpenIncident(TripOf(db, o)) {
      var i :| i in TripOf(db, o).incidents && TripOf(db, o).incidents[i].open;
      assert i in OpenIncidents(db, o);
    }
    if |OpenIncidents(db, o)| > 0 {
      var i :| i in OpenIncidents(db, o);
      assert i in TripOf(db, o).incidents && TripOf(db, o).incidents[i].open;
    }
  }

  // What the fold computes for an order on the page is what the stage means.
  lemma FoldIsStage(db: Tables, w: Id, page: seq<Order>, journal: seq<OpKey>, incidents: seq<Id>, o: Id)
    requires WellFiled(db) && PageOf(db, w, page, journal, incidents) && OnPage(page, o) && o in db.orders && db.orders[o].id == o
    ensures FoldStage(db.orders[o], w, KindsIn(journal, o),
                      exists a :: a in LoadsIn(journal, o) && a !in UndoneIn(journal), |OpenIncidents(db, o)|)
            == StageOf(TripOf(db, o), w)
  {
    hide WellFiled, PageOf, OnPage, KindsIn, LoadsIn, UndoneIn, OpenIncidents, HasOpenIncident;
    var t := TripOf(db, o);
    KindsSeen(db, w, page, journal, incidents, o, Receive);
    KindsSeen(db, w, page, journal, incidents, o, ReturnToSender);
    KindsSeen(db, w, page, journal, incidents, o, Unload);
    LoadsSeen(db, w, page, journal, incidents, o);
    OpenCounts(db, o);
    JournalFlat(db, o);
  }

  lemma JournalFlat(db: Tables, o: Id)
    requires WellFiled(db) && o in db.orders && db.orders[o].id == o
    ensures var t := TripOf(db, o);
            && (Performed(t, Receive, None) <==> exists a :: OpKey(o, Receive, a) in db.operations)
            && (Performed(t, ReturnToSender, None) <==> exists a :: OpKey(o, ReturnToSender, a) in db.operations)
            && (AnyUnload(t) <==> exists a :: OpKey(o, Unload, a) in db.operations)
            && (Loaded(t) <==> exists a :: EffectiveIn(db.operations, o, a))
  {
    var t := TripOf(db, o);
    forall kind, a ensures Performed(t, kind, a) <==> OpKey(o, kind, a) in db.operations { PerformedFlat(db, o, kind, a); }
    if a :| OpKey(o, Receive, a) in db.operations { assert a == None; }
    if a :| OpKey(o, ReturnToSender, a) in db.operations { assert a == None; }
    if a :| OpKey(o, Unload, a) in db.operations { assert Performed(t, Unload, Some(a.value)); }
    forall a ensures Effective(t, a) <==> EffectiveIn(db.operations, o, a) {}
  }

  method ListWarehouseQueue(db: Tables, w: Id, page: seq<Order>, journal: seq<OpKey>, incidents: seq<Id>)
    returns (result: seq<Item>)
    requires WellFiled(db) && PageOf(db, w, page, journal, incidents)
    ensures |result| == |page|
    ensures forall i :: 0 <= i < |page| ==>
              page[i].id in db.orders
              && result[i] == Item(page[i], StageOf(TripOf(db, page[i].id), w), |OpenIncidents(db, page[i].id)|)
  {
    result := [];
    var openCounts := CountOpen(db, incidents);
    var seen, loads, undone := FoldJournal(journal);
    for i := 0 to |page|
      invariant |result| == i
      invariant forall j :: 0 <= j < i ==>
                  result[j] == Item(page[j], StageOf(TripOf(db, page[j].id), w), |OpenIncidents(db, page[j].id)|)
    {
      var o := page[i].id;
      assert OnPage(page, o);
      OpenSeen(db, w, page, journal, incidents, o);
      FoldIsStage(db, w, page, journal, incidents, o);
      var stage := StageFromFold(page[i], w, Lookup(seen, o, {}), Lookup(loads, o, {}), undone, Lookup(openCounts, o, 0));
      result := result + [Item(page[i], stage, Lookup(openCounts, o, 0))];
    }
  }

  // ---- What each stage announces ------------------------------------------------------------------

  // The filter of the default listing.
  ghost predicate Listed(t: Trip, w: Id) {
    (t.order.status != OrderStatus.Completed && t.order.status != Cancelled)
    || (t.order.status == Cancelled && t.order.origin == Some(w) && Performed(t, Receive, None) && !Performed(t, ReturnToSender, None))
    || HasOpenIncident(t)
  }

  // It hides exactly the orders this warehouse is done with.
  lemma HiddenIsDone(t: Trip, w: Id)
    ensures !Listed(t, w) <==> StageOf(t, w).Closed? || StageOf(t, w) == ReturnedToSender
  {
  }

  predicate Crewable(t: Trip, fleet: Registry) {
    forall a :: a in t.assignments ==> t.assignments[a].driver in fleet.drivers && t.assignments[a].vehicle in fleet.vehicles
  }

  function DriverOf(t: Trip, a: Id, fleet: Registry): Actor
    requires a in t.assignments && Crewable(t, fleet)
  {
    Actor(DriverRole, fleet.drivers[t.assignments[a].driver].user, None)
  }

  // The assigned driver may start.
  ghost predicate CanStart(t: Trip, now: Time, fleet: Registry)
    requires Crewable(t, fleet)
  {
    exists a :: a in t.assignments && Start(t, a, DriverOf(t, a, fleet), now, fleet).Commit?
  }

  // The manager of the site may record an operation of this kind and count: the request passes the
  // checks made before any table is read, and those of the order.
  ghost predicate CanPerform(t: Trip, kind: OperationKind, packages: nat, who: Actor, now: Time, fleet: Registry, id: Id, incident: Id) {
    exists a :: Admissible(t, kind, a, packages, who, now, id, incident)
      && Operate(t, who, now, OperationRequest(kind, a, packages, true), fleet, false, id, false, incident, false).Commit?
  }

  predicate Admissible(t: Trip, kind: OperationKind, a: Option<Id>, packages: nat, who: Actor, now: Time, id: Id, incident: Id) {
    Precheck(CreateWarehouseOperation(who, t.order.id, OperationRequest(kind, a, packages, true), id, incident), now).None?
  }

  lemma LoadedWhileAssigned(t: Trip, clock: Time, a: Id)
    requires Coupled(t) && Stamped(t) && LoadsHeld(t) && t.order.status == Assigned
    requires a in t.assignments && t.assignments[a].status == Accepted
    ensures Loaded(t) <==> Performed(t, Load, Some(a))
  {
    AcceptedLoadIsEffective(t, a);
  }

  lemma ReadyStageFacts(t: Trip, w: Id, clock: Time)
    requires Sound(t, clock) && t.order.origin == Some(w) && t.order.status == Assigned
    ensures t.order.startedAt.None? && !AnyUnload(t) && !Performed(t, ReturnToSender, None)
    ensures Held(t, Accepted)
    ensures forall a :: a in t.assignments && t.assignments[a].status == Accepted ==>
              (Loaded(t) <==> Performed(t, Load, Some(a))) && (Performed(t, Load, Some(a)) ==> Performed(t, Receive, None))
  {
    hide Strict, Resubmitted, Owned, Proven, StartedBy, OneInvitation, Accounted, Custody, Logged, LoadedToStart, Filed, LoadsHeld,
         UnloadsHeld, OneOpen, Held, Stamped, Loaded;
    AssignedFacts(t, clock);
    forall a | a in t.assignments && t.assignments[a].status == Accepted
      ensures (Loaded(t) <==> Performed(t, Load, Some(a))) && (Performed(t, Load, Some(a)) ==> Performed(t, Receive, None))
    {
      LoadedWhileAssigned(t, clock, a);
      LoadNeedsReceipt(t, a);
    }
  }

  lemma LoadNeedsReceipt(t: Trip, a: Id)
    requires Filed(t)
    ensures Performed(t, Load, Some(a)) ==> Performed(t, Receive, None)
  {
  }

  lemma AssignedFacts(t: Trip, clock: Time)
    requires Filed(t) && UnloadsHeld(t) && Stamped(t) && t.order.status == Assigned
    ensures t.order.startedAt.None? && !AnyUnload(t) && !Performed(t, ReturnToSender, None)
  {
  }

  // ready_to_depart on an assigned order is exactly when its driver may start.
  lemma StartAgrees(t: Trip, w: Id, clock: Time, now: Time, fleet: Registry)
    requires Sound(t, clock) && t.order.origin == Some(w) && Crewable(t, fleet)
    ensures CanStart(t, now, fleet) <==> StageOf(t, w) == ReadyToDepart && t.order.status == Assigned
  {
    hide Sound, HasOpenIncident, Loaded, AnyUnload, Performed;
    if t.order.status == Assigned {
      ReadyStageFacts(t, w, clock);
      var a :| a in t.assignments && t.assignments[a].status == Accepted && t.order.driver == Some(t.assignments[a].driver);
      assert Start(t, a, DriverOf(t, a, fleet), now, fleet).Commit? <==> !HasOpenIncident(t) && Performed(t, Load, Some(a));
    }
  }

  // A loaded order that is ready was resubmitted, and is stranded.
  lemma LoadedReadyIsStranded(t: Trip, clock: Time)
    requires Sound(t, clock) && t.order.status == Ready && Loaded(t)
    ensures Resubmitted(t) && exists a :: Stranded(t, a)
  {
    hide Resubmitted, Owned, Proven, StartedBy, OneInvitation, Accounted, Custody, Logged, LoadedToStart, UnloadsHeld, Held;
    var a :| Effective(t, a);
    assert Performed(t, Load, Some(a));
    assert Open(t.assignments[a]);
    assert Stranded(t, a);
  }

  // The stage and the guard of start disagree on stranded orders and on no others.
  lemma StartDisagreesOnStranded(t: Trip, w: Id, clock: Time, now: Time, fleet: Registry)
    requires Sound(t, clock) && t.order.origin == Some(w) && Crewable(t, fleet)
    ensures (StageOf(t, w) == ReadyToDepart <==> CanStart(t, now, fleet))
            <==> !(t.order.status == Ready && Loaded(t) && !HasOpenIncident(t))
  {
    hide Sound, HasOpenIncident, Loaded, CanStart, AnyUnload;
    StartAgrees(t, w, clock, now, fleet);
    DepartingStatus(t, w, clock);
  }

  lemma DepartingStatus(t: Trip, w: Id, clock: Time)
    requires Sound(t, clock) && t.order.origin == Some(w)
    ensures StageOf(t, w) == ReadyToDepart ==> t.order.status == Ready || t.order.status == Assigned
    ensures t.order.status == Ready && Loaded(t) && !HasOpenIncident(t) ==> StageOf(t, w) == ReadyToDepart
  {
    hide Resubmitted, Owned, Proven, StartedBy, OneInvitation, Accounted, Custody, Logged, LoadedToStart, Held, Strict, OneOpen;
  }

  predicate Keeps(who: Actor, w: Id) {
    who.role == Admin || (who.role == Manager && who.warehouse == Some(w))
  }

  // awaiting_loading is exactly when a load may be recorded.
  lemma LoadAgrees(t: Trip, w: Id, packages: nat, who: Actor, clock: Time, now: Time, fleet: Registry, id: Id, incident: Id)
    requires Sound(t, clock) && t.order.origin == Some(w) && Keeps(who, w) && incident !in t.incidents
    requires w in fleet.warehouses && fleet.warehouses[w].active
    ensures CanPerform(t, Load, packages, who, now, fleet, id, incident) <==> StageOf(t, w) == AwaitingLoading && packages > 0
  {
    hide Sound, HasOpenIncident, Loaded, AnyUnload, Performed, ExpectedIn;
    if t.order.status == Assigned {
      ReadyStageFacts(t, w, clock);
      var a :| a in t.assignments && t.assignments[a].status == Accepted && t.order.driver == Some(t.assignments[a].driver);
      assert Operate(t, who, now, OperationRequest(Load, Some(a), packages, true), fleet, false, id, false, incident, false).Commit?
          <==> !HasOpenIncident(t) && Performed(t, Receive, None) && !Performed(t, Load, Some(a));
    }
  }

  lemma ReceiptFacts(t: Trip, w: Id, clock: Time)
    requires Sound(t, clock)
    ensures t.order.status == Draft ==> !Performed(t, Receive, None) && !Loaded(t)
    ensures t.order.status == Ready || t.order.status == Assigned ==>
              t.order.startedAt.None? && !AnyUnload(t) && !Performed(t, ReturnToSender, None)
    ensures Loaded(t) ==> Performed(t, Receive, None)
    ensures t.order.startedAt.Some? <==> t.order.status == InTransit || t.order.status == Arrived || t.order.status == OrderStatus.Completed
  {
    hide Resubmitted, Owned, Proven, StartedBy, OneInvitation, Accounted, Custody, Logged, LoadedToStart, Held, Strict, OneOpen;
    forall a | Effective(t, a) ensures Performed(t, Receive, None) { assert Performed(t, Load, Some(a)); }
  }

  // awaiting_receipt is exactly when the cargo may be received, once the order is submitted.
  lemma ReceiveAgrees(t: Trip, w: Id, packages: nat, who: Actor, clock: Time, now: Time, fleet: Registry, id: Id, incident: Id)
    requires Sound(t, clock) && t.order.origin == Some(w) && Keeps(who, w) && incident !in t.incidents
    requires w in fleet.warehouses && fleet.warehouses[w].active
    ensures CanPerform(t, Receive, packages, who, now, fleet, id, incident) && !HasOpenIncident(t)
            <==> StageOf(t, w) == AwaitingReceipt && t.order.status != Draft && packages > 0
  {
    hide Sound, HasOpenIncident, Loaded, AnyUnload, Performed, ExpectedIn;
    ReceiptFacts(t, w, clock);
    assert Operate(t, who, now, OperationRequest(Receive, None, packages, true), fleet, false, id, false, incident, false).Commit?
        <==> (t.order.status == Ready || t.order.status == Assigned) && !Performed(t, Receive, None);
  }

  // awaiting_return is exactly when the cargo may be handed back and no incident is open.
  lemma ReturnAgrees(t: Trip, w: Id, packages: nat, who: Actor, clock: Time, now: Time, fleet: Registry, id: Id, incident: Id)
    requires Sound(t, clock) && t.order.origin == Some(w) && Keeps(who, w) && incident !in t.incidents && w in fleet.warehouses
    ensures CanPerform(t, ReturnToSender, packages, who, now, fleet, id, incident) && !HasOpenIncident(t)
            <==> StageOf(t, w) == AwaitingReturn
  {
    hide Sound, HasOpenIncident, Loaded, AnyUnload, Performed, ExpectedIn;
    assert Operate(t, who, now, OperationRequest(ReturnToSender, None, packages, true), fleet, false, id, false, incident, false).Commit?
        <==> t.order.status == Cancelled && Performed(t, Receive, None) && !Performed(t, ReturnToSender, None);
  }

  lemma ArrivalFacts(t: Trip, clock: Time)
    requires Sound(t, clock) && t.order.status == Arrived
    ensures exists a :: a in t.assignments && t.assignments[a].status == Active && (AnyUnload(t) <==> Performed(t, Unload, Some(a)))
  {
    hide Resubmitted, Owned, Proven, StartedBy, OneInvitation, Accounted, Custody, Logged, LoadedToStart, Strict, Filed, LoadsHeld;
    var a :| a in t.assignments && t.assignments[a].status == Active && t.order.driver == Some(t.assignments[a].driver);
    hide Held, Stamped;
    forall b | Performed(t, Unload, Some(b)) ensures b == a {
      assert b in t.assignments && Moving(t.assignments[b]);
      assert !Delivered(t.assignments[b]);
      assert Open(t.assignments[a]) && Open(t.assignments[b]);
    }
  }

  // awaiting_unloading is exactly when the cargo may be unloaded and no incident is open, at a
  // destination that is not the origin; where one warehouse is both, the stage still says departed.
  lemma UnloadAgrees(t: Trip, w: Id, packages: nat, who: Actor, clock: Time, now: Time, fleet: Registry, id: Id, incident: Id)
    requires Sound(t, clock) && t.order.destination == Some(w) && Keeps(who, w) && incident !in t.incidents && w in fleet.warehouses
    ensures CanPerform(t, Unload, packages, who, now, fleet, id, incident) && !HasOpenIncident(t)
            <==> if t.order.origin == Some(w) then StageOf(t, w) == Departed && t.order.status == Arrived
                 else StageOf(t, w) == AwaitingUnloading
  {
    hide Sound, HasOpenIncident, Loaded, AnyUnload, Performed, ExpectedIn;
    ReceiptFacts(t, w, clock);
    if t.order.status == Arrived {
      ArrivalFacts(t, clock);
      var a :| a in t.assignments && t.assignments[a].status == Active && (AnyUnload(t) <==> Performed(t, Unload, Some(a)));
      assert Operate(t, who, now, OperationRequest(Unload, Some(a), packages, true), fleet, false, id, false, incident, false).Commit?
          <==> !Performed(t, Unload, Some(a));
      NoOtherUnload(t, clock, a);
    }
  }

  lemma NoOtherUnload(t: Trip, clock: Time, a: Id)
    requires Sound(t, clock) && t.order.status == Arrived && a in t.assignments && t.assignments[a].status == Active
    ensures forall b :: b in t.assignments && t.assignments[b].status == Active ==> b == a
  {
    hide Resubmitted, Formed, Recorded, Held, Strict;
    assert Open(t.assignments[a]);
  }

  // What every stage means, in terms of the order's status and the journal alone; the stages of which
  // a command is announced have their own lemmas besides.
  lemma StagesMean(t: Trip, w: Id, clock: Time)
    requires Sound(t, clock) && (t.order.origin == Some(w) || t.order.destination == Some(w))
    ensures var stage, o := StageOf(t, w), t.order;
            var leaves, untroubled := o.origin == Some(w), Permissions.Untroubled(t);
            var received, returned := Permissions.Entry(t, Receive, None), Permissions.Entry(t, ReturnToSender, None);
            var aboard, unloaded := exists a :: Permissions.OnBoard(t, a), exists a :: Permissions.Entry(t, Unload, Some(a));
            && (stage == IncidentStage <==> !untroubled)
            && (stage == Closed(OrderStatus.Completed) <==> untroubled && o.status == OrderStatus.Completed)
            && (stage == Closed(Cancelled) <==> untroubled && o.status == Cancelled && !(leaves && received))
            && (stage == AwaitingReturn <==> untroubled && o.status == Cancelled && leaves && received && !returned)
            && (stage == ReturnedToSender <==> untroubled && o.status == Cancelled && leaves && received && returned)
            && (stage == Received <==> untroubled && o.status == Arrived && o.destination == Some(w) && unloaded)
            && (stage == AwaitingReceipt
                <==> untroubled && leaves && !received && (o.status == Draft || o.status == Ready || o.status == Assigned))
            && (stage == AwaitingAssignment <==> untroubled && leaves && received && !aboard && o.status == Ready)
            && (stage == AwaitingLoading <==> untroubled && leaves && received && !aboard && o.status == Assigned)
            && (stage == ReadyToDepart <==> untroubled && leaves && aboard && (o.status == Ready || o.status == Assigned))
            && (stage == Departed
                <==> untroubled && leaves && (o.status == InTransit || (o.status == Arrived && !(o.destination == Some(w) && unloaded))))
            && (stage == AwaitingUnloading <==> untroubled && !leaves && o.status == Arrived && !unloaded)
            && (stage == Expected
                <==> untroubled && !leaves && (o.status == Draft || o.status == Ready || o.status == Assigned || o.status == InTransit))
  {
    hide Sound;
    SameWords(t);
    ReceiptFacts(t, w, clock);
    UnloadedLate(t, clock);
    hide Loaded, AnyUnload, Performed, HasOpenIncident, Permissions.Entry, Permissions.OnBoard, Permissions.Untroubled;
  }

  lemma SameWords(t: Trip)
    ensures HasOpenIncident(t) <==> !Permissions.Untroubled(t)
    ensures forall kind, a :: Performed(t, kind, a) <==> Permissions.Entry(t, kind, a)
    ensures Loaded(t) <==> exists a :: Permissions.OnBoard(t, a)
    ensures AnyUnload(t) <==> exists a :: Permissions.Entry(t, Unload, Some(a))
  {
    forall a ensures Effective(t, a) <==> Permissions.OnBoard(t, a) {}
    forall a ensures Performed(t, Unload, Some(a)) <==> Permissions.Entry(t, Unload, Some(a)) {}
  }

  lemma UnloadedLate(t: Trip, clock: Time)
    requires Sound(t, clock)
    ensures AnyUnload(t) ==> t.order.status == Arrived || t.order.status == OrderStatus.Completed
  {
    hide Resubmitted, Owned, Proven, StartedBy, OneInvitation, Accounted, Custody, Logged, LoadedToStart, Held, Strict, OneOpen, Filed, LoadsHeld;
  }

  // In every run, at the warehouse an order leaves from: each stage says exactly which command is
  // open to the driver or the manager, an open incident aside; ready_to_depart on a stranded order
  // is the one exception.
  lemma QueueAnnouncesCommands(s: State, events: seq<Event>, o: Id, w: Id, who: Actor, packages: nat, now: Time,
                               fleet: Registry, id: Id, incident: Id)
    requires Inv(s) && Legal(s, events) && o in Run(s, events).db.orders && Keeps(who, w)
    requires var t := TripOf(Run(s, events).db, o);
             t.order.origin == Some(w) && Crewable(t, fleet) && incident !in t.incidents
    requires w in fleet.warehouses && fleet.warehouses[w].active
    ensures var t := TripOf(Run(s, events).db, o);
            && (CanStart(t, now, fleet) <==> StageOf(t, w) == ReadyToDepart && !(t.order.status == Ready && Loaded(t)))
            && (t.order.status == Ready && Loaded(t) ==> Resubmitted(t))
            && (CanPerform(t, Load, packages, who, now, fleet, id, incident) <==> StageOf(t, w) == AwaitingLoading && packages > 0)
            && (CanPerform(t, Receive, packages, who, now, fleet, id, incident) && !HasOpenIncident(t)
                <==> StageOf(t, w) == AwaitingReceipt && t.order.status != Draft && packages > 0)
            && (CanPerform(t, ReturnToSender, packages, who, now, fleet, id, incident) && !HasOpenIncident(t)
                <==> StageOf(t, w) == AwaitingReturn)
            && (!Listed(t, w) <==> StageOf(t, w).Closed? || StageOf(t, w) == ReturnedToSender)
  {
    hide Inv, Run, Legal, CanStart, CanPerform, StageOf, Loaded, Resubmitted, HasOpenIncident, Sound, Listed, Keeps;
    RunKeeps(s, events);
    var end := Run(s, events);
    SoundOf(end, o);
    var t := TripOf(end.db, o);
    hide TripOf;
    StartAgrees(t, w, end.clock, now, fleet);
    ReadyStage(t, w, end.clock);
    LoadAgrees(t, w, packages, who, end.clock, now, fleet, id, incident);
    ReceiveAgrees(t, w, packages, who, end.clock, now, fleet, id, incident);
    ReturnAgrees(t, w, packages, who, end.clock, now, fleet, id, incident);
    HiddenIsDone(t, w);
    if t.order.status == Ready && Loaded(t) { LoadedReadyIsStranded(t, end.clock); }
  }

  lemma ReadyStage(t: Trip, w: Id, clock: Time)
    requires Sound(t, clock) && t.order.origin == Some(w)
    ensures StageOf(t, w) == ReadyToDepart ==>
              Loaded(t) && (t.order.status == Ready || t.order.status == Assigned)
  {
    hide Sound, Loaded;
    DepartingStatus(t, w, clock);
  }
}
