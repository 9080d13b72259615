// Dispatch's own view of who may serve an order, against Core's: what Dispatch admits, Core accepts.
module DispatchEligibility {
  import opened Model
  import opened Eligibility
  import opened Trips
  import opened Soundness
  import opened Database
  import opened Core
  import opened RowWrites
  import opened Paging
  import Ranking
  import Permissions

  // ---- Dates ----------------------------------------------------------------------------------

  // $2::timestamptz::date, in UTC
  function DateOf(t: Time): int { t / DAY }

  // valid_until >= $2::date
  predicate CoversDate(paper: Paper, to: Time) { paper.valid && paper.validUntil >= DateOf(to) }

  lemma DatesOfInstants(t: Time, day: int)
    ensures day >= DateOf(t) <==> t < (day + 1) * DAY
  {
    var d := DateOf(t);
    assert d * DAY <= t < d * DAY + DAY;
    if day >= d { DaysInOrder(d + 1, day + 1); } else { DaysInOrder(day + 1, d); }
  }

  lemma DaysInOrder(d: int, e: int)
    requires d <= e
    ensures d * DAY <= e * DAY
  {
  }

  // Dispatch is stricter than Core by one instant: the midnight that ends the last day.
  lemma DateTestIsTighter(paper: Paper, to: Time)
    ensures CoversDate(paper, to) ==> Covers(paper, to)
    ensures Covers(paper, to) && !CoversDate(paper, to) <==> paper.valid && to == (paper.validUntil + 1) * DAY
  {
    DatesOfInstants(to, paper.validUntil);
  }

  // ---- The two queries -------------------------------------------------------------------------

  predicate LicensedOn(driver: DriverRow, to: Time) {
    (exists i :: 0 <= i < |driver.licenses| && CoversDate(driver.licenses[i], to))
    || (driver.licenses == [] && driver.licenseExpiry >= DateOf(to))
  }

  predicate Engaged(assignments: map<Id, Assignment>, driver: Id, from: Time, to: Time) {
    exists a :: a in assignments && assignments[a].driver == driver && Open(assignments[a]) && Overlap(assignments[a], from, to)
  }

  predicate InUse(assignments: map<Id, Assignment>, vehicle: Id, from: Time, to: Time) {
    exists a :: a in assignments && assignments[a].vehicle == vehicle && Open(assignments[a]) && Overlap(assignments[a], from, to)
  }

  // DRIVERS_SQL, before its limit
  predicate DriverAdmitted(db: Tables, fleet: Registry, d: Id, from: Time, to: Time) {
    d in fleet.drivers && fleet.drivers[d].available && LicensedOn(fleet.drivers[d], to) && OnShift(fleet.drivers[d], from, to)
    && !Engaged(db.assignments, d, from, to)
  }

  // VEHICLES_SQL, before its limit
  predicate VehicleAdmitted(db: Tables, fleet: Registry, v: Id, from: Time, to: Time, weight: real, volume: real) {
    v in fleet.vehicles && fleet.vehicles[v].available
    && fleet.vehicles[v].capacityKg >= weight && fleet.vehicles[v].capacityM3 >= volume
    && (exists i :: 0 <= i < |fleet.vehicles[v].registrations| && CoversDate(fleet.vehicles[v].registrations[i], to))
    && !InUse(db.assignments, v, from, to)
  }

  // LEAST(GREATEST(rating, 0), 5)
  function Clamped(rating: real): real { if rating < 0.0 then 0.0 else if rating > 5.0 then 5.0 else rating }

  function AdmittedDrivers(db: Tables, fleet: Registry, from: Time, to: Time): set<Ranking.Driver> {
    set d | d in fleet.drivers && DriverAdmitted(db, fleet, d, from, to) :: Ranking.Driver(d, Clamped(fleet.drivers[d].rating))
  }

  function AdmittedVehicles(db: Tables, fleet: Registry, from: Time, to: Time, weight: real, volume: real): set<Ranking.Vehicle> {
    set v | v in fleet.vehicles && VehicleAdmitted(db, fleet, v, from, to, weight, volume) ::
      Ranking.Vehicle(v, fleet.vehicles[v].capacityKg, fleet.vehicles[v].capacityM3)
  }

  const LIMIT := 30

  // load_request: nothing for an order that is no longer the one the trigger was about.
  predicate Loadable(db: Tables, o: Id, submittedAt: Time) {
    o in db.orders && db.orders[o].status == Ready && db.orders[o].submittedAt == Some(submittedAt)
    && db.orders[o].pickupFrom.Some? && db.orders[o].pickupTo.Some?
    && db.orders[o].pickupFrom.value < db.orders[o].pickupTo.value
  }

  // The five pairs recommended on one snapshot.
  ghost function Recommended(db: Tables, fleet: Registry, o: Id, submittedAt: Time): seq<Ranking.Ranked>
    requires Loadable(db, o, submittedAt)
  {
    var order := db.orders[o];
    var from, to := order.pickupFrom.value, order.pickupTo.value;
    Ranking.Best(
      Ranking.Feasible(
        Ranking.DriversIn(Ranking.KeptDrivers(AdmittedDrivers(db, fleet, from, to), LIMIT)),
        Ranking.VehiclesIn(Ranking.KeptVehicles(AdmittedVehicles(db, fleet, from, to, order.weight, order.volume), LIMIT)),
        order.weight, order.volume),
      Ranking.TOP)
  }

  // ---- What Dispatch admits, Core accepts -----------------------------------------------------------

  lemma LicenseRefines(driver: DriverRow, to: Time)
    requires LicensedOn(driver, to)
    ensures Licensed(driver, to)
  {
    if i :| 0 <= i < |driver.licenses| && CoversDate(driver.licenses[i], to) {
      DateTestIsTighter(driver.licenses[i], to);
    } else {
      DatesOfInstants(to, driver.licenseExpiry);
    }
  }

  lemma RegistrationRefines(vehicle: VehicleRow, to: Time, i: nat)
    requires i < |vehicle.registrations| && CoversDate(vehicle.registrations[i], to)
    ensures Registered(vehicle, to)
  {
    DateTestIsTighter(vehicle.registrations[i], to);
  }

  // Every pair both queries admit for an order's own cargo and window passes Core's resource check,
  // and nothing open stands in its way.
  lemma AdmissionRefinesCore(db: Tables, fleet: Registry, order: Order, d: Id, v: Id, from: Time, to: Time)
    requires DriverAdmitted(db, fleet, d, from, to) && VehicleAdmitted(db, fleet, v, from, to, order.weight, order.volume)
    ensures Objection(order, fleet.drivers[d], fleet.vehicles[v], from, to).None?
    ensures forall b :: b in db.assignments ==> !Reserves(db.assignments[b], d, v, from, to)
  {
    LicenseRefines(fleet.drivers[d], to);
    var i :| 0 <= i < |fleet.vehicles[v].registrations| && CoversDate(fleet.vehicles[v].registrations[i], to);
    RegistrationRefines(fleet.vehicles[v], to, i);
    hide LicensedOn, Licensed, Registered, OnShift;
    forall b | b in db.assignments ensures !Reserves(db.assignments[b], d, v, from, to) {
      assert !(db.assignments[b].driver == d && Open(db.assignments[b]) && Overlap(db.assignments[b], from, to));
      assert !(db.assignments[b].vehicle == v && Open(db.assignments[b]) && Overlap(db.assignments[b], from, to));
    }
  }

  lemma RecommendedAreAdmitted(db: Tables, fleet: Registry, o: Id, submittedAt: Time, x: Ranking.Ranked)
    requires Loadable(db, o, submittedAt) && x in Recommended(db, fleet, o, submittedAt)
    ensures var order := db.orders[o];
            var from, to := order.pickupFrom.value, order.pickupTo.value;
            DriverAdmitted(db, fleet, x.driver, from, to) && VehicleAdmitted(db, fleet, x.vehicle, from, to, order.weight, order.volume)
  {
    var order := db.orders[o];
    var from, to := order.pickupFrom.value, order.pickupTo.value;
    var drivers, vehicles := AdmittedDrivers(db, fleet, from, to), AdmittedVehicles(db, fleet, from, to, order.weight, order.volume);
    hide DriverAdmitted, VehicleAdmitted, Ranking.Score;
    Ranking.BestIsPage(Ranking.Feasible(Ranking.DriversIn(Ranking.KeptDrivers(drivers, LIMIT)),
                                        Ranking.VehiclesIn(Ranking.KeptVehicles(vehicles, LIMIT)), order.weight, order.volume), Ranking.TOP);
    KeptAreAdmitted(drivers, vehicles);
    hide Ranking.Best, Ranking.KeptDrivers, Ranking.KeptVehicles;
    var d, v :| d in Ranking.DriversIn(Ranking.KeptDrivers(drivers, LIMIT)) && v in Ranking.VehiclesIn(Ranking.KeptVehicles(vehicles, LIMIT))
      && Ranking.Carries(v, order.weight, order.volume) && x == Ranking.PairOf(d, v, order.weight, order.volume);
    assert d in drivers && v in vehicles;
  }

  lemma KeptAreAdmitted(drivers: set<Ranking.Driver>, vehicles: set<Ranking.Vehicle>)
    ensures forall d :: d in Ranking.KeptDrivers(drivers, LIMIT) ==> d in drivers
    ensures forall v :: v in Ranking.KeptVehicles(vehicles, LIMIT) ==> v in vehicles
  {
    Ranking.DriversOrdered();
    Ranking.VehiclesOrdered();
    hide TotalOrder, ThePage;
    ThePageIsPage(drivers, None, LIMIT, Ranking.RatedBefore);
    ThePageIsPage(vehicles, None, LIMIT, Ranking.LighterBefore);
  }

  // A recommended pair can be offered at once: an administrator's offer of it for the pickup window
  // is taken, while that window has not begun and nobody is open on the order.
  lemma RecommendedCanBeOffered(db: Tables, fleet: Registry, o: Id, submittedAt: Time, x: Ranking.Ranked, who: Actor, now: Time,
                                offer: OfferRequest, id: Id)
    requires Constrained(db) && Loadable(db, o, submittedAt) && x in Recommended(db, fleet, o, submittedAt)
    requires who.role == Admin && id !in db.assignments && !HasOpenAssignment(db.assignments, o)
    requires now <= db.orders[o].pickupFrom.value
    requires offer == OfferRequest(x.driver, x.vehicle, db.orders[o].pickupFrom.value, db.orders[o].pickupTo.value, None, Manual, None, None)
    ensures Offer(TripOf(db, o), who, now, offer, fleet, None, id,
                  AssignmentTaken(db, o, id, offer.driver, offer.vehicle, offer.plannedFrom, offer.plannedTo)).Commit?
  {
    hide Constrained, Recommended, Objection, HasOpenAssignment, DriverAdmitted, VehicleAdmitted, TripOf;
    RecommendedAreAdmitted(db, fleet, o, submittedAt, x);
    AdmissionRefinesCore(db, fleet, db.orders[o], x.driver, x.vehicle, offer.plannedFrom, offer.plannedTo);
    AdmittedExist(db, fleet, db.orders[o], x.driver, x.vehicle, offer.plannedFrom, offer.plannedTo);
    ReadOrder(db, o);
    BlockedRead(db.assignments, TripOf(db, o), o, id, false);
  }

  lemma AdmittedExist(db: Tables, fleet: Registry, order: Order, d: Id, v: Id, from: Time, to: Time)
    requires DriverAdmitted(db, fleet, d, from, to) && VehicleAdmitted(db, fleet, v, from, to, order.weight, order.volume)
    ensures d in fleet.drivers && v in fleet.vehicles
  {
  }

  // ---- What Core accepts, Dispatch admits, but for one midnight ------------------------------------

  lemma PaperExactly(validUntil: int, to: Time)
    ensures validUntil >= DateOf(to) <==> Permissions.Lasts(validUntil, to + 1)
    ensures to % DAY != 0 ==> (Permissions.Lasts(validUntil, to + 1) <==> Permissions.Lasts(validUntil, to))
  {
    DatesOfInstants(to, validUntil);
  }

  // Both queries together, papers aside: the two are available, big enough and on shift, and nobody
  // open, on this order or another, has either of them at any time of the window.
  predicate AtHand(order: Order, driver: DriverRow, vehicle: VehicleRow, from: Time, to: Time) {
    && driver.available && vehicle.available && order.weight <= vehicle.capacityKg && order.volume <= vehicle.capacityM3
    && (driver.shifts != [] ==> exists shift :: shift in driver.shifts && shift.startsAt <= from && to <= shift.endsAt)
  }

  predicate Unclaimed(assignments: map<Id, Assignment>, d: Id, v: Id, from: Time, to: Time) {
    forall b :: b in assignments && Permissions.Unfinished(assignments[b]) && (assignments[b].driver == d || assignments[b].vehicle == v) ==>
      assignments[b].plannedTo <= from || to <= assignments[b].plannedFrom
  }

  predicate Papered(driver: DriverRow, vehicle: VehicleRow, to: Time) {
    && (driver.licenses == [] ==> Permissions.Lasts(driver.licenseExpiry, to))
    && (driver.licenses != [] ==> exists paper :: paper in driver.licenses && paper.valid && Permissions.Lasts(paper.validUntil, to))
    && (exists paper :: paper in vehicle.registrations && paper.valid && Permissions.Lasts(paper.validUntil, to))
  }

  // A pair is admitted exactly when it is at hand, unclaimed, and its papers outlast the window by an
  // instant.
  lemma AdmissionExactly(db: Tables, fleet: Registry, order: Order, d: Id, v: Id, from: Time, to: Time)
    requires d in fleet.drivers && v in fleet.vehicles
    ensures DriverAdmitted(db, fleet, d, from, to) && VehicleAdmitted(db, fleet, v, from, to, order.weight, order.volume)
            <==> && AtHand(order, fleet.drivers[d], fleet.vehicles[v], from, to)
                 && Papered(fleet.drivers[d], fleet.vehicles[v], to + 1) && Unclaimed(db.assignments, d, v, from, to)
  {
    hide OnShift, Papered, LicensedOn, Unclaimed, Engaged, InUse, CoversDate;
    PapersExactly(fleet.drivers[d], fleet.vehicles[v], to);
    ShiftsExactly(fleet.drivers[d], from, to);
    ClaimsExactly(db.assignments, d, v, from, to);
  }

  lemma ShiftsExactly(driver: DriverRow, from: Time, to: Time)
    ensures OnShift(driver, from, to)
            <==> driver.shifts != [] ==> exists shift :: shift in driver.shifts && shift.startsAt <= from && to <= shift.endsAt
  {
    if shift :| shift in driver.shifts && shift.startsAt <= from && to <= shift.endsAt {
      var i :| 0 <= i < |driver.shifts| && driver.shifts[i] == shift;
      assert Within(driver.shifts[i], from, to);
    }
  }

  lemma ClaimsExactly(assignments: map<Id, Assignment>, d: Id, v: Id, from: Time, to: Time)
    ensures !Engaged(assignments, d, from, to) && !InUse(assignments, v, from, to) <==> Unclaimed(assignments, d, v, from, to)
  {
  }

  lemma PapersExactly(driver: DriverRow, vehicle: VehicleRow, to: Time)
    ensures LicensedOn(driver, to) && (exists i :: 0 <= i < |vehicle.registrations| && CoversDate(vehicle.registrations[i], to))
            <==> Papered(driver, vehicle, to + 1)
  {
    OnePaper(driver.licenses, to);
    OnePaper(vehicle.registrations, to);
    PaperExactly(driver.licenseExpiry, to);
    hide Permissions.Lasts, DateOf, CoversDate;
  }

  lemma OnePaper(papers: seq<Paper>, to: Time)
    ensures (exists i :: 0 <= i < |papers| && CoversDate(papers[i], to))
            <==> exists paper :: paper in papers && paper.valid && Permissions.Lasts(paper.validUntil, to + 1)
    ensures papers == [] ==> !(exists i :: 0 <= i < |papers| && CoversDate(papers[i], to))
  {
    forall paper: Paper ensures paper.validUntil >= DateOf(to) <==> Permissions.Lasts(paper.validUntil, to + 1) {
      PaperExactly(paper.validUntil, to);
    }
    hide Permissions.Lasts, DateOf;
    if paper :| paper in papers && paper.valid && Permissions.Lasts(paper.validUntil, to + 1) {
      var i :| 0 <= i < |papers| && papers[i] == paper;
      assert CoversDate(papers[i], to);
    }
  }

  // Unless the window ends at midnight, Dispatch admits exactly the pairs that Core accepts and that
  // nobody has claimed.
  lemma AdmissionMeetsCore(db: Tables, fleet: Registry, order: Order, d: Id, v: Id, from: Time, to: Time)
    requires to % DAY != 0
    ensures DriverAdmitted(db, fleet, d, from, to) && VehicleAdmitted(db, fleet, v, from, to, order.weight, order.volume)
            <==> Permissions.Suited(order, d, v, from, to, fleet) && Unclaimed(db.assignments, d, v, from, to)
  {
    hide DriverAdmitted, VehicleAdmitted, Unclaimed;
    if d in fleet.drivers && v in fleet.vehicles {
      AdmissionExactly(db, fleet, order, d, v, from, to);
      forall validUntil: int ensures Permissions.Lasts(validUntil, to + 1) <==> Permissions.Lasts(validUntil, to) {
        PaperExactly(validUntil, to);
      }
      hide Permissions.Lasts;
    } else {
      OnlyKnownAdmitted(db, fleet, order, d, v, from, to);
    }
  }

  lemma OnlyKnownAdmitted(db: Tables, fleet: Registry, order: Order, d: Id, v: Id, from: Time, to: Time)
    requires d !in fleet.drivers || v !in fleet.vehicles
    ensures !(DriverAdmitted(db, fleet, d, from, to) && VehicleAdmitted(db, fleet, v, from, to, order.weight, order.volume))
  {
  }
}
