// Row locks: which rows each command locks, in which order, and why no set of transactions can wait
// for each other in a circle.
module Locks {
  import opened Model

  // A handover or an incident row belongs to one order for good.
  datatype Resource =
    | InboxRow(event: Id) | OrderRow(order: Id) | AssignmentRow(assignment: Id) | DriverLock(driver: Id) | VehicleLock(vehicle: Id)
    | PartyRow(party: Id) | WarehouseRow(warehouse: Id) | OutboxRow(about: Id)
    | HandoverRow(handover: Id, parent: Id) | IncidentRow(incident: Id, parent: Id)

  datatype Mode = Shared | Exclusive
  datatype Lock = Lock(on: Resource, mode: Mode)

  function X(on: Resource): Lock { Lock(on, Exclusive) }
  function S(on: Resource): Lock { Lock(on, Shared) }

  predicate Conflict(k: Lock, l: Lock) { k.on == l.on && (k.mode == Exclusive || l.mode == Exclusive) }

  predicate Child(r: Resource) { r.HandoverRow? || r.IncidentRow? }

  // The table's place in the order of locking; children have none.
  function Rank(r: Resource): nat
    requires !Child(r)
  {
    match r
    case InboxRow(_) => 0
    case OrderRow(_) => 1
    case AssignmentRow(_) => 2
    case DriverLock(_) => 3
    case VehicleLock(_) => 4
    case PartyRow(_) => 5
    case WarehouseRow(_) => 6
    case OutboxRow(_) => 7
  }

  function Number(r: Resource): Id
    requires !Child(r)
  {
    match r
    case InboxRow(e) => e
    case OrderRow(o) => o
    case AssignmentRow(a) => a
    case DriverLock(d) => d
    case VehicleLock(v) => v
    case PartyRow(p) => p
    case WarehouseRow(w) => w
    case OutboxRow(o) => o
  }

  predicate Precedes(r: Resource, t: Resource)
    requires !Child(r) && !Child(t)
  {
    Rank(r) < Rank(t) || (Rank(r) == Rank(t) && Number(r) < Number(t))
  }

  type Script = seq<Lock>

  // By table and then by identifier, children aside.
  ghost predicate Ordered(script: Script) {
    forall i, j :: 0 <= i < j < |script| && !Child(script[i].on) && !Child(script[j].on) ==> Precedes(script[i].on, script[j].on)
  }

  // A child row is only ever locked by a transaction that holds its order.
  ghost predicate Chaperoned(script: Script) {
    forall i :: 0 <= i < |script| && Child(script[i].on) ==>
      exists j :: 0 <= j < i && script[j] == X(OrderRow(script[i].on.parent))
  }

  // ---- The commands --------------------------------------------------------------------------------

  datatype Seat = Seat(assignment: Id, driver: Id, vehicle: Id)

  // The rows a transaction locks if nothing turns it back; it may stop after any of them.
  datatype Plan =
    | OrderOnly(order: Id)                                  // UpdateDraftOrder
    | Submitting(order: Id)                                 // SubmitOrder
    | Describing(order: Id, parties: seq<Id>)               // SetTransportDetails
    | Cancelling(order: Id, held: seq<Id>, seat: Option<Seat>)
    | Offering(order: Id, replaced: Option<Seat>, driver: Id, vehicle: Id)
    | InContext(order: Id, taken: Seat)                      // accept, reject, expire, start, arrive, complete
    | Operating(order: Id, assignment: Option<Id>, undo: Option<Seat>, warehouse: Id)
    | Reporting(order: Id, server: Option<Id>)
    | Resolving(order: Id, incident: Id)
    | Receiving(order: Id, delivered: Id)
    | Inviting(order: Id, leaving: Seat, driver: Id, vehicle: Id, lapsing: seq<Id>)
    | Answering(order: Id, leaving: Seat, handover: Id, driver: Id, vehicle: Id)
    | Recommending(event: Id, order: Id)                    // StoreDispatchRecommended
    | Refreshing(orders: seq<Id>)                           // processDispatchRelease
    | Editing(row: Resource)                                // one driver, vehicle, warehouse or counterparty

  predicate Increasing(ids: seq<Id>) { forall i, j :: 0 <= i < j < |ids| ==> ids[i] < ids[j] }

  function Twice(x: Id, y: Id): seq<Id> { if x == y then [x] else if x < y then [x, y] else [y, x] }

  function AssignmentLocks(ids: seq<Id>): Script { seq(|ids|, i requires 0 <= i < |ids| => X(AssignmentRow(ids[i]))) }
  function DriverLocks(ids: seq<Id>): Script { seq(|ids|, i requires 0 <= i < |ids| => X(DriverLock(ids[i]))) }
  function VehicleLocks(ids: seq<Id>): Script { seq(|ids|, i requires 0 <= i < |ids| => X(VehicleLock(ids[i]))) }
  function PartyLocks(ids: seq<Id>): Script { seq(|ids|, i requires 0 <= i < |ids| => S(PartyRow(ids[i]))) }
  function OutboxLocks(ids: seq<Id>): Script { seq(|ids|, i requires 0 <= i < |ids| => X(OutboxRow(ids[i]))) }
  function HandoverLocks(ids: seq<Id>, o: Id): Script { seq(|ids|, i requires 0 <= i < |ids| => X(HandoverRow(ids[i], o))) }

  function DriversOf(x: Id, y: Id): Script { DriverLocks(Twice(x, y)) }
  function VehiclesOf(x: Id, y: Id): Script { VehicleLocks(Twice(x, y)) }

  // What the queries guarantee about the lists: sorted where they sort, an editor locks one row.
  predicate Sensible(plan: Plan) {
    match plan
    case Describing(_, parties) => Increasing(parties)
    case Cancelling(_, held, seat) => Increasing(held) && (seat.Some? ==> held == [seat.value.assignment])
    case Operating(_, assignment, undo, _) => undo.Some? ==> assignment == Some(undo.value.assignment)
    case Refreshing(orders) => Increasing(orders)
    case Editing(row) => !Child(row)
    case _ => true
  }

  function Locking(plan: Plan): Script {
    match plan
    case OrderOnly(o) => [X(OrderRow(o))]
    case Submitting(o) => [X(OrderRow(o)), X(OutboxRow(o))]
    case Describing(o, parties) => [X(OrderRow(o))] + PartyLocks(parties)
    case Cancelling(o, held, seat) =>
      [X(OrderRow(o))] + AssignmentLocks(held)
      + if seat.Some? then [X(DriverLock(seat.value.driver)), X(VehicleLock(seat.value.vehicle))] else []
    case Offering(o, replaced, d, v) =>
      if replaced.None? then [X(OrderRow(o)), X(DriverLock(d)), X(VehicleLock(v))]
      else [X(OrderRow(o)), X(AssignmentRow(replaced.value.assignment))]
           + DriversOf(replaced.value.driver, d) + VehiclesOf(replaced.value.vehicle, v)
    case InContext(o, seat) => [X(OrderRow(o)), X(AssignmentRow(seat.assignment)), X(DriverLock(seat.driver)), X(VehicleLock(seat.vehicle))]
    case Operating(o, assignment, undo, w) =>
      [X(OrderRow(o))] + (if assignment.Some? then [X(AssignmentRow(assignment.value))] else [])
      + (if undo.Some? then [X(DriverLock(undo.value.driver)), X(VehicleLock(undo.value.vehicle))] else []) + [S(WarehouseRow(w))]
    case Reporting(o, server) => [X(OrderRow(o))] + if server.Some? then [X(AssignmentRow(server.value))] else []
    case Resolving(o, i) => [X(OrderRow(o)), X(IncidentRow(i, o))]
    case Receiving(o, a) => [X(OrderRow(o)), X(AssignmentRow(a))]
    case Inviting(o, leaving, d, v, lapsing) =>
      [X(OrderRow(o)), X(AssignmentRow(leaving.assignment))] + DriversOf(leaving.driver, d) + VehiclesOf(leaving.vehicle, v)
      + HandoverLocks(lapsing, o)
    case Answering(o, leaving, h, d, v) =>
      [X(OrderRow(o)), X(AssignmentRow(leaving.assignment)), X(HandoverRow(h, o))]
      + DriversOf(leaving.driver, d) + VehiclesOf(leaving.vehicle, v)
    case Recommending(e, o) => [X(InboxRow(e)), X(OrderRow(o))]
    case Refreshing(orders) => OutboxLocks(orders)
    case Editing(row) => [X(row)]
  }

  ghost predicate Below(script: Script, rank: int) {
    forall i :: 0 <= i < |script| && !Child(script[i].on) ==> Rank(script[i].on) <= rank
  }

  ghost predicate Above(script: Script, rank: int) {
    forall i :: 0 <= i < |script| && !Child(script[i].on) ==> Rank(script[i].on) > rank
  }

  lemma Join(p: Script, q: Script, rank: int)
    requires Ordered(p) && Ordered(q) && Below(p, rank) && Above(q, rank)
    ensures Ordered(p + q)
  {
    var script := p + q;
    forall i, j | 0 <= i < j < |script| && !Child(script[i].on) && !Child(script[j].on) ensures Precedes(script[i].on, script[j].on) {
      if j < |p| { assert script[i] == p[i] && script[j] == p[j]; }
      else if i < |p| { assert script[i] == p[i] && script[j] == q[j - |p|]; }
      else { assert script[i] == q[i - |p|] && script[j] == q[j - |p|]; }
    }
  }

  lemma JoinBelow(p: Script, q: Script, rank: int)
    requires Below(p, rank) && Below(q, rank)
    ensures Below(p + q, rank)
  {
  }

  lemma PairsOrdered(x: Id, y: Id)
    ensures Ordered(DriversOf(x, y)) && Below(DriversOf(x, y), 3) && Above(DriversOf(x, y), 2)
    ensures Ordered(VehiclesOf(x, y)) && Below(VehiclesOf(x, y), 4) && Above(VehiclesOf(x, y), 3)
  {
  }

  // Both drivers, then both vehicles, after whatever is locked by then.
  lemma FleetLast(before: Script, d: Id, e: Id, v: Id, w: Id)
    requires Ordered(before) && Below(before, 2)
    ensures Ordered(before + DriversOf(d, e) + VehiclesOf(v, w)) && Below(before + DriversOf(d, e) + VehiclesOf(v, w), 4)
  {
    hide Ordered, Below, Above, DriversOf, VehiclesOf;
    PairsOrdered(d, e);
    PairsOrdered(v, w);
    Join(before, DriversOf(d, e), 2);
    Weaken(before, 2, 3);
    JoinBelow(before, DriversOf(d, e), 3);
    Join(before + DriversOf(d, e), VehiclesOf(v, w), 3);
    Weaken(before + DriversOf(d, e), 3, 4);
    JoinBelow(before + DriversOf(d, e), VehiclesOf(v, w), 4);
  }

  lemma Weaken(p: Script, rank: int, more: int)
    requires Below(p, rank) && rank <= more
    ensures Below(p, more)
  {
  }

  lemma CancellingOrdered(o: Id, held: seq<Id>, seat: Option<Seat>)
    requires Sensible(Cancelling(o, held, seat))
    ensures Ordered(Locking(Cancelling(o, held, seat)))
  {
    var rows := AssignmentLocks(held);
    var fleet := if seat.Some? then [X(DriverLock(seat.value.driver)), X(VehicleLock(seat.value.vehicle))] else [];
    Join([X(OrderRow(o))], rows, 1);
    Join([X(OrderRow(o))] + rows, fleet, 2);
  }

  lemma InvitingOrdered(o: Id, leaving: Seat, d: Id, v: Id, lapsing: seq<Id>)
    ensures Ordered(Locking(Inviting(o, leaving, d, v, lapsing)))
  {
    var before := [X(OrderRow(o)), X(AssignmentRow(leaving.assignment))];
    var rows := HandoverLocks(lapsing, o);
    FleetLast(before, leaving.driver, d, leaving.vehicle, v);
    hide DriversOf, VehiclesOf;
    Join(before + DriversOf(leaving.driver, d) + VehiclesOf(leaving.vehicle, v), rows, 4);
  }

  lemma DescribingOrdered(o: Id, parties: seq<Id>)
    requires Increasing(parties)
    ensures Ordered(Locking(Describing(o, parties)))
  {
    Join([X(OrderRow(o))], PartyLocks(parties), 1);
  }

  // Every command locks tables in one order and rows of a table by identifier, children aside.
  lemma EveryCommandIsOrdered(plan: Plan)
    requires Sensible(plan)
    ensures Ordered(Locking(plan))
  {
    hide Ordered;
    match plan {
      case Describing(o, parties) => DescribingOrdered(o, parties);
      case Cancelling(o, held, seat) => CancellingOrdered(o, held, seat);
      case Offering(o, replaced, d, v) => OfferingOrdered(o, replaced, d, v);
      case Inviting(o, leaving, d, v, lapsing) => InvitingOrdered(o, leaving, d, v, lapsing);
      case Answering(o, leaving, h, d, v) => AnsweringOrdered(o, leaving, h, d, v);
      case Operating(o, assignment, undo, w) => OperatingOrdered(o, assignment, undo, w);
      case _ => ShortOrdered(plan);
    }
  }

  lemma OfferingOrdered(o: Id, replaced: Option<Seat>, d: Id, v: Id)
    ensures Ordered(Locking(Offering(o, replaced, d, v)))
  {
    if replaced.Some? {
      FleetLast([X(OrderRow(o)), X(AssignmentRow(replaced.value.assignment))], replaced.value.driver, d, replaced.value.vehicle, v);
    }
  }

  lemma AnsweringOrdered(o: Id, leaving: Seat, h: Id, d: Id, v: Id)
    ensures Ordered(Locking(Answering(o, leaving, h, d, v)))
  {
    FleetLast([X(OrderRow(o)), X(AssignmentRow(leaving.assignment)), X(HandoverRow(h, o))], leaving.driver, d, leaving.vehicle, v);
  }

  lemma OperatingOrdered(o: Id, assignment: Option<Id>, undo: Option<Seat>, w: Id)
    requires Sensible(Operating(o, assignment, undo, w))
    ensures Ordered(Locking(Operating(o, assignment, undo, w)))
  {
  }

  lemma ShortOrdered(plan: Plan)
    requires Sensible(plan) && !plan.Describing? && !plan.Cancelling? && !plan.Offering? && !plan.Inviting? && !plan.Answering? && !plan.Operating?
    ensures Ordered(Locking(plan))
  {
  }

  ghost predicate Childless(script: Script) {
    forall i :: 0 <= i < |script| ==> !Child(script[i].on)
  }

  // A script that begins with an order may lock that order's children.
  lemma OwnChildren(script: Script, o: Id)
    requires |script| > 0 && script[0] == X(OrderRow(o))
    requires forall i :: 0 <= i < |script| && Child(script[i].on) ==> script[i].on.parent == o
    ensures Chaperoned(script)
  {
    forall i | 0 <= i < |script| && Child(script[i].on) ensures exists j :: 0 <= j < i && script[j] == X(OrderRow(script[i].on.parent)) {
      assert script[0] == X(OrderRow(script[i].on.parent));
    }
  }

  lemma MostAreChildless(plan: Plan)
    requires Sensible(plan) && !plan.Inviting? && !plan.Answering? && !plan.Resolving?
    ensures Childless(Locking(plan))
  {
  }

  // And locks child rows of no order but its own, after that order.
  lemma EveryCommandIsChaperoned(plan: Plan)
    requires Sensible(plan)
    ensures Chaperoned(Locking(plan))
  {
    if plan.Inviting? || plan.Answering? || plan.Resolving? {
      OwnChildren(Locking(plan), plan.order);
    } else {
      hide Locking;
      MostAreChildless(plan);
    }
  }

  ghost predicate RankedBy(script: Script, key: Resource -> int) {
    forall i, j :: 0 <= i < j < |script| ==> key(script[i].on) < key(script[j].on)
  }

  // No order of all rows would do: one command locks handovers after drivers, another before them.
  lemma NoRankOfAllRows(key: Resource -> int, o: Id, leaving: Seat, h: Id, driver: Id, vehicle: Id)
    ensures !(RankedBy(Locking(Inviting(o, leaving, driver, vehicle, [h])), key)
              && RankedBy(Locking(Answering(o, leaving, h, driver, vehicle)), key))
  {
    var inviting, answering := Locking(Inviting(o, leaving, driver, vehicle, [h])), Locking(Answering(o, leaving, h, driver, vehicle));
    var n := |inviting| - 1;
    assert inviting[2] == answering[3] == X(DriverLock(Twice(leaving.driver, driver)[0]));
    assert inviting[n] == answering[2] == X(HandoverRow(h, o));
    assert !(key(inviting[2].on) < key(inviting[n].on) && key(answering[2].on) < key(answering[3].on));
  }

  // ---- Transactions side by side ---------------------------------------------------------------------

  // A transaction has taken the first `taken` locks of its script and keeps them until it is over.
  // One that is not patient (NOWAIT, SKIP LOCKED) gives up or passes by instead of waiting.
  datatype Tx = Tx(script: Script, taken: nat, patient: bool, over: bool)

  type System = map<nat, Tx>

  predicate Holds(tx: Tx, l: Lock) { !tx.over && exists i :: 0 <= i < tx.taken && i < |tx.script| && tx.script[i] == l }

  // The transaction's next lock conflicts with one that another holds.
  ghost predicate Waits(s: System, i: nat, j: nat) {
    i in s && j in s && i != j && !s[i].over && s[i].patient && s[i].taken < |s[i].script|
    && exists l :: Holds(s[j], l) && Conflict(s[i].script[s[i].taken], l)
  }

  ghost predicate Free(s: System, i: nat, l: Lock) {
    forall j, k :: j in s && j != i && Holds(s[j], k) ==> !Conflict(l, k)
  }

  ghost predicate Disciplined(tx: Tx) {
    tx.taken <= |tx.script| && Chaperoned(tx.script) && (tx.patient ==> Ordered(tx.script))
  }

  datatype Move = Begin(id: nat, plan: Plan, patient: bool) | Scan(id: nat, rows: Script) | Take(id: nat) | End(id: nat)

  // Begin: a command, waiting or not. Scan: a query that skips locked rows, in any order. End: commit
  // or rollback, at any point.
  ghost function Next(s: System, m: Move): System {
    match m
    case Begin(id, plan, patient) => if id in s || !Sensible(plan) then s else s[id := Tx(Locking(plan), 0, patient, false)]
    case Scan(id, rows) => if id in s || !Childless(rows) then s else s[id := Tx(rows, 0, false, false)]
    case Take(id) =>
      if id !in s || s[id].over || s[id].taken >= |s[id].script| || !Free(s, id, s[id].script[s[id].taken]) then s
      else s[id := s[id].(taken := s[id].taken + 1)]
    case End(id) => if id !in s then s else s[id := s[id].(over := true)]
  }

  ghost function Execute(s: System, moves: seq<Move>): System {
    if moves == [] then s else Next(Execute(s, moves[..|moves| - 1]), moves[|moves| - 1])
  }

  // No two transactions hold conflicting locks.
  ghost predicate Exclusion(s: System) {
    forall i, j, k, l :: i in s && j in s && i != j && Holds(s[i], k) && Holds(s[j], l) ==> !Conflict(k, l)
  }

  ghost predicate Sound(s: System) { Exclusion(s) && forall i :: i in s ==> Disciplined(s[i]) }

  lemma TakeKeepsExclusion(s: System, id: nat)
    requires Exclusion(s) && id in s && !s[id].over && s[id].taken < |s[id].script| && Free(s, id, s[id].script[s[id].taken])
    ensures Exclusion(s[id := s[id].(taken := s[id].taken + 1)])
  {
    hide Conflict;
    var after := s[id := s[id].(taken := s[id].taken + 1)];
    var wanted := s[id].script[s[id].taken];
    Symmetric();
    forall i, j, k, l | i in after && j in after && i != j && Holds(after[i], k) && Holds(after[j], l) ensures !Conflict(k, l) {
      if i == id { assert Holds(s[i], k) || k == wanted; }
      if j == id { assert Holds(s[j], l) || l == wanted; }
    }
  }

  lemma Symmetric()
    ensures forall k, l :: Conflict(k, l) == Conflict(l, k)
  {
  }

  lemma NextKeeps(s: System, m: Move)
    requires Sound(s)
    ensures Sound(Next(s, m))
  {
    match m {
      case Begin(id, plan, patient) =>
        if Sensible(plan) {
          EveryCommandIsOrdered(plan);
          EveryCommandIsChaperoned(plan);
        }
        hide Ordered, Chaperoned, Locking, Conflict;
      case Scan(id, rows) =>
      case Take(id) =>
        hide Ordered, Chaperoned, Exclusion, Free, Locking;
        if id in s && !s[id].over && s[id].taken < |s[id].script| && Free(s, id, s[id].script[s[id].taken]) {
          TakeKeepsExclusion(s, id);
        }
      case End(id) => hide Ordered, Chaperoned, Conflict, Locking;
    }
  }

  lemma {:induction false} ExecuteKeeps(moves: seq<Move>)
    ensures Sound(Execute(map[], moves))
    decreases |moves|
  {
    hide Next;
    if moves != [] {
      hide Sound;
      ExecuteKeeps(moves[..|moves| - 1]);
      NextKeeps(Execute(map[], moves[..|moves| - 1]), moves[|moves| - 1]);
    }
  }

  // ---- No circle of waiting ------------------------------------------------------------------------------

  // Nobody waits for a child row: its order is held by whoever asks and by whoever has it.
  lemma NobodyWaitsForChildren(s: System, i: nat, j: nat)
    requires Sound(s) && Waits(s, i, j)
    ensures !Child(s[i].script[s[i].taken].on)
  {
    var want := s[i].script[s[i].taken];
    if Child(want.on) {
      var order := X(OrderRow(want.on.parent));
      var l :| Holds(s[j], l) && Conflict(want, l);
      ChildHeldUnderOrder(s[j], l);
      var a :| 0 <= a < s[i].taken && s[i].script[a] == order;
      assert Holds(s[i], order) && Holds(s[j], order) && Conflict(order, order);
      assert false;
    }
  }

  lemma ChildHeldUnderOrder(tx: Tx, l: Lock)
    requires Disciplined(tx) && Holds(tx, l) && Child(l.on)
    ensures Holds(tx, X(OrderRow(l.on.parent)))
  {
    hide Ordered;
    var m :| 0 <= m < tx.taken && m < |tx.script| && tx.script[m] == l;
    var b :| 0 <= b < m && tx.script[b] == X(OrderRow(l.on.parent));
  }

  // What a waiting transaction wants.
  function Wanted(tx: Tx): Resource
    requires tx.taken < |tx.script|
  {
    tx.script[tx.taken].on
  }

  // Along the waiting, what is wanted only grows.
  lemma WaitingClimbs(s: System, i: nat, j: nat, k: nat)
    requires Sound(s) && Waits(s, i, j) && Waits(s, j, k)
    ensures !Child(Wanted(s[i])) && !Child(Wanted(s[j])) && Precedes(Wanted(s[i]), Wanted(s[j]))
  {
    NobodyWaitsForChildren(s, i, j);
    NobodyWaitsForChildren(s, j, k);
    hide Exclusion, Chaperoned;
    var l :| Holds(s[j], l) && Conflict(s[i].script[s[i].taken], l);
    var m :| 0 <= m < s[j].taken && m < |s[j].script| && s[j].script[m] == l;
    assert Disciplined(s[j]) && Ordered(s[j].script);
    assert s[j].script[m].on == Wanted(s[i]) && s[j].script[s[j].taken].on == Wanted(s[j]);
  }

  // Each waits for the next and the last for the first.
  ghost predicate Circle(s: System, txs: seq<nat>) {
    txs != [] && (forall n, m :: 0 <= n && m == n + 1 && m < |txs| ==> Waits(s, txs[n], txs[m]))
    && Waits(s, txs[|txs| - 1], txs[0])
  }

  // From the first on, each waits for the next.
  ghost predicate Queue(s: System, txs: seq<nat>) {
    txs != [] && forall n, m :: 0 <= n && m == n + 1 && m < |txs| ==> Waits(s, txs[n], txs[m])
  }

  lemma {:induction false} QueueClimbs(s: System, txs: seq<nat>, beyond: nat)
    requires Sound(s) && Queue(s, txs) && |txs| > 1 && Waits(s, txs[|txs| - 1], beyond)
    ensures Waits(s, txs[0], txs[1]) && !Child(Wanted(s[txs[0]])) && !Child(Wanted(s[txs[|txs| - 1]]))
    ensures Precedes(Wanted(s[txs[0]]), Wanted(s[txs[|txs| - 1]]))
    decreases |txs|
  {
    hide Sound, Waits;
    var n := |txs| - 2;
    assert Waits(s, txs[n], txs[n + 1]);
    assert Waits(s, txs[0], txs[1]);
    WaitingClimbs(s, txs[n], txs[n + 1], beyond);
    if n > 0 {
      assert Queue(s, txs[..n + 1]);
      QueueClimbs(s, txs[..n + 1], txs[n + 1]);
    }
  }

  lemma NobodyWaitsForItself(s: System, i: nat)
    ensures !Waits(s, i, i)
  {
  }

  lemma NoCircle(s: System, txs: seq<nat>)
    requires Sound(s)
    ensures !Circle(s, txs)
  {
    hide Sound;
    if Circle(s, txs) {
      NobodyWaitsForItself(s, txs[0]);
      if |txs| > 1 {
        hide Waits;
        QueueClimbs(s, txs, txs[0]);
        assert Waits(s, txs[|txs| - 1], txs[0]) && Waits(s, txs[0], txs[1]);
        WaitingClimbs(s, txs[|txs| - 1], txs[0], txs[1]);
        assert false;
      }
    }
  }

  // In no state that any number of transactions can reach do some of them wait in a circle.
  lemma NoDeadlock(moves: seq<Move>, txs: seq<nat>)
    ensures !Circle(Execute(map[], moves), txs)
  {
    ExecuteKeeps(moves);
    hide Execute, Sound, Circle;
    NoCircle(Execute(map[], moves), txs);
  }

  ghost predicate Stuck(s: System, i: nat) { exists j :: Waits(s, i, j) }

  ghost predicate Running(s: System, i: nat) { i in s && !s[i].over }

  function Elements(txs: seq<nat>): set<nat> { set i | i in txs }

  // Follow the waiting from one transaction: it never comes back, so it ends at one that may go on.
  lemma {:induction false} FollowTheQueue(s: System, txs: seq<nat>) returns (free: nat)
    requires Sound(s) && Queue(s, txs) && Running(s, txs[|txs| - 1])
    requires forall n :: 0 <= n < |txs| ==> txs[n] in s
    requires |Elements(txs)| == |txs|
    ensures Running(s, free) && !Stuck(s, free)
    decreases |s| - |txs|
  {
    hide Sound;
    var last := txs[|txs| - 1];
    if !Stuck(s, last) { return last; }
    var j :| Waits(s, last, j);
    WaitedForRuns(s, last, j);
    hide Waits;
    if j in txs {
      var n :| 0 <= n < |txs| && txs[n] == j;
      var tail := txs[n..];
      assert tail[|tail| - 1] == last && tail[0] == j;
      assert Circle(s, tail);
      NoCircle(s, tail);
      assert false;
    }
    var longer := txs + [j];
    assert Elements(longer) == Elements(txs) + {j};
    assert Elements(longer) <= s.Keys;
    Fewer(Elements(longer), s.Keys);
    assert longer[|txs|] == j;
    forall n, m | 0 <= n && m == n + 1 && m < |longer| ensures Waits(s, longer[n], longer[m]) {
      if m < |txs| { assert Waits(s, txs[n], txs[m]); }
    }
    free := FollowTheQueue(s, longer);
  }

  lemma WaitedForRuns(s: System, i: nat, j: nat)
    requires Waits(s, i, j)
    ensures Running(s, j)
  {
  }

  lemma Fewer(small: set<nat>, large: set<nat>)
    requires small <= large
    ensures |small| <= |large|
  {
    if small != {} {
      var x :| x in small;
      Fewer(small - {x}, large - {x});
    }
  }

  // As long as some transaction is under way, one of them waits for nobody.
  lemma SomebodyCanGoOn(moves: seq<Move>, i: nat)
    requires Running(Execute(map[], moves), i)
    ensures exists free :: Running(Execute(map[], moves), free) && !Stuck(Execute(map[], moves), free)
  {
    ExecuteKeeps(moves);
    hide Execute, Sound, Stuck;
    assert Elements([i]) == {i};
    var free := FollowTheQueue(Execute(map[], moves), [i]);
  }

  // ---- What is locked ------------------------------------------------------------------------------------

  // The order a command is about.
  function About(plan: Plan): Option<Id> {
    match plan
    case Refreshing(_) => None
    case Editing(_) => None
    case OrderOnly(o) => Some(o)
    case Submitting(o) => Some(o)
    case Describing(o, _) => Some(o)
    case Cancelling(o, _, _) => Some(o)
    case Offering(o, _, _, _) => Some(o)
    case InContext(o, _) => Some(o)
    case Operating(o, _, _, _) => Some(o)
    case Reporting(o, _) => Some(o)
    case Resolving(o, _) => Some(o)
    case Receiving(o, _) => Some(o)
    case Inviting(o, _, _, _, _) => Some(o)
    case Answering(o, _, _, _, _) => Some(o)
    case Recommending(_, o) => Some(o)
  }

  function Seats(seat: Option<Seat>): set<Seat> { if seat.Some? then {seat.value} else {} }

  // The seats it gives up, fills or checks: their drivers and vehicles.
  function SeatsOf(plan: Plan): set<Seat> {
    match plan
    case Cancelling(_, _, seat) => Seats(seat)
    case Offering(_, replaced, _, _) => Seats(replaced)
    case InContext(_, seat) => {seat}
    case Operating(_, _, undo, _) => Seats(undo)
    case Inviting(_, leaving, _, _, _) => {leaving}
    case Answering(_, leaving, _, _, _) => {leaving}
    case _ => {}
  }

  function NewPair(plan: Plan): Option<(Id, Id)> {
    match plan
    case Offering(_, _, d, v) => Some((d, v))
    case Inviting(_, _, d, v, _) => Some((d, v))
    case Answering(_, _, _, d, v) => Some((d, v))
    case _ => None
  }

  predicate Engages(plan: Plan, r: Resource) {
    || (r.OrderRow? && About(plan) == Some(r.order))
    || (r.AssignmentRow? && exists seat :: seat in SeatsOf(plan) && seat.assignment == r.assignment)
    || (r.DriverLock? && ((exists seat :: seat in SeatsOf(plan) && seat.driver == r.driver)
                          || (NewPair(plan).Some? && NewPair(plan).value.0 == r.driver)))
    || (r.VehicleLock? && ((exists seat :: seat in SeatsOf(plan) && seat.vehicle == r.vehicle)
                           || (NewPair(plan).Some? && NewPair(plan).value.1 == r.vehicle)))
  }

  lemma TwiceHasBoth(x: Id, y: Id)
    ensures X(DriverLock(x)) in DriversOf(x, y) && X(DriverLock(y)) in DriversOf(x, y)
    ensures X(VehicleLock(x)) in VehiclesOf(x, y) && X(VehicleLock(y)) in VehiclesOf(x, y)
  {
    var ids := Twice(x, y);
    forall i | 0 <= i < |ids| ensures X(DriverLock(ids[i])) in DriversOf(x, y) && X(VehicleLock(ids[i])) in VehiclesOf(x, y) {
      assert DriversOf(x, y)[i] == X(DriverLock(ids[i])) && VehiclesOf(x, y)[i] == X(VehicleLock(ids[i]));
    }
    if x == y { assert ids[0] == x; }
    else if x < y { assert ids[0] == x && ids[1] == y; }
    else { assert ids[0] == y && ids[1] == x; }
  }

  // Every command locks its order, and every assignment, driver and vehicle whose use it changes or
  // checks.
  lemma EveryCommandLocksItsRows(plan: Plan, r: Resource)
    requires Sensible(plan) && Engages(plan, r)
    ensures X(r) in Locking(plan)
  {
    match plan {
      case Offering(_, replaced, d, v) =>
        if replaced.Some? { TwiceHasBoth(replaced.value.driver, d); TwiceHasBoth(replaced.value.vehicle, v); }
      case Inviting(_, leaving, d, v, _) =>
        TwiceHasBoth(leaving.driver, d);
        TwiceHasBoth(leaving.vehicle, v);
      case Answering(_, leaving, _, d, v) =>
        TwiceHasBoth(leaving.driver, d);
        TwiceHasBoth(leaving.vehicle, v);
      case Cancelling(_, held, seat) =>
        if seat.Some? { assert AssignmentLocks(held)[0] == X(AssignmentRow(held[0])); }
      case _ =>
    }
  }

  // So no two commands that engage the same order, assignment, driver or vehicle are ever both
  // through with their locks.
  lemma CommandsTakeTurns(moves: seq<Move>, i: nat, j: nat, p: Plan, q: Plan, r: Resource)
    requires var s := Execute(map[], moves);
             && i in s && j in s && i != j && !s[i].over && !s[j].over
             && s[i].script == Locking(p) && s[j].script == Locking(q)
             && s[i].taken == |s[i].script| && s[j].taken == |s[j].script|
    requires Sensible(p) && Sensible(q) && Engages(p, r)
    ensures !Engages(q, r)
  {
    var s := Execute(map[], moves);
    ExecuteKeeps(moves);
    hide Execute, Locking, Engages;
    EveryCommandLocksItsRows(p, r);
    HoldsAll(s[i], X(r));
    assert !Holds(s[j], X(r)) by { assert Exclusion(s) && Conflict(X(r), X(r)); }
    if X(r) in Locking(q) { HoldsAll(s[j], X(r)); }
    if Engages(q, r) { EveryCommandLocksItsRows(q, r); }
  }

  lemma HoldsAll(tx: Tx, l: Lock)
    requires !tx.over && tx.taken == |tx.script| && l in tx.script
    ensures Holds(tx, l)
  {
    var k :| 0 <= k < |tx.script| && tx.script[k] == l;
  }
}
