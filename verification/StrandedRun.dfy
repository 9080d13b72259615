// A run that strands a loaded order, command by command from the empty database.
module StrandedRun {
  import opened Model
  import opened Eligibility
  import opened Trips
  import opened Soundness
  import opened Database
  import opened Core
  import opened CoreSafety
  import opened Guarantees
  import opened Effects
  import opened Resubmission
  import opened Scripts

  const ADMIN := Actor(Admin, 1, None)
  const DRIVER := Actor(DriverRole, 2, None)
  const FLEET := Registry(map[3 := DriverRow(2, true, 1, [], [], 4.5)],
                          map[4 := VehicleRow(true, [Paper(true, 1)], 1000.0, 10.0)], map[5 := WarehouseRecord(true, true, true)],
                          map[6 := Party(1, true, true, false)])

  const DRAFT := DraftRequest(Some(5), Some(5), false, false, Some(10.0), Some(1.0), Some(100), Some(200))
  const BLANK := NewDraft(0, ADMIN, DRAFT, FLEET)
  const DESCRIBED := BLANK.(declared := Some(20))
  const SUBMITTED := DESCRIBED.(status := Ready, submittedAt := Some(3))
  const OFFER := OfferRequest(3, 4, 100, 200, None, Manual, None, None)
  const OFFERED := OfferRow(0, ADMIN, 4, OFFER)
  const ACCEPTED := OFFERED.(status := Accepted, acceptedAt := Some(5))
  const TAKEN := SUBMITTED.(status := Assigned, driver := Some(3), assignedAt := Some(5))
  const RECEIVED := Operation(10, 5, 20, 1, 6)
  const LOADED := Operation(11, 5, 20, 1, 7)
  const LOG1 := [StatusChange(Draft, Ready, 1, None, 3)]
  const LOG2 := LOG1 + [StatusChange(Ready, Assigned, 2, None, 5)]
  const LOG3 := LOG2 + [StatusChange(Assigned, Ready, 1, None, 8)]
  const JOURNAL1: map<OpKey, Operation> := map[OpKey(0, Receive, None) := RECEIVED]
  const JOURNAL2 := JOURNAL1[OpKey(0, Load, Some(9)) := LOADED]

  function At(order: Order, row: map<Id, Assignment>, journal: map<OpKey, Operation>, log: seq<StatusChange>, clock: Time): State {
    Alone(TripAt(order, row, journal, log), map[], clock)
  }

  function Describe(): Event { Event(2, FLEET, SetTransportDetails(ADMIN, 0, 20, true, PartyRequest(6, 6, 6))) }
  function Create(): Event { Event(1, FLEET, CreateOrder(ADMIN, 0, DRAFT, None)) }
  function Send(now: Time): Event { Event(now, FLEET, SubmitOrder(ADMIN, 0, Some(Route(true)))) }
  function Offering(): Event { Event(4, FLEET, CreateAssignment(ADMIN, 0, OFFER, None, 9)) }
  function Accepting(): Event { Event(5, FLEET, AcceptAssignment(DRIVER, 9)) }
  function Receiving(): Event {
    Event(6, FLEET, CreateWarehouseOperation(ADMIN, 0, OperationRequest(Receive, None, 20, true), 10, 0))
  }
  function Loading(): Event {
    Event(7, FLEET, CreateWarehouseOperation(ADMIN, 0, OperationRequest(Load, Some(9), 20, true), 11, 0))
  }

  function TripAt(order: Order, row: map<Id, Assignment>, journal: map<OpKey, Operation>, log: seq<StatusChange>): Trip {
    Trip(order, row, journal, map[], None, map[], log)
  }

  lemma ReadAt(order: Order, row: map<Id, Assignment>, journal: map<OpKey, Operation>, log: seq<StatusChange>, clock: Time)
    requires OfOrder0(TripAt(order, row, journal, log))
    ensures TripOf(At(order, row, journal, log, clock).db, 0) == TripAt(order, row, journal, log)
  {
    ReadAlone(TripAt(order, row, journal, log), map[], clock);
  }

  lemma StepAt(t: Trip, clock: Time, e: Event, order: Order, row: map<Id, Assignment>, journal: map<OpKey, Operation>, log: seq<StatusChange>)
    requires Extends(t, TripAt(order, row, journal, log))
    requires Precheck(e.command, e.now).None? && Target(Alone(t, map[], clock).db, e.command) == Some(0)
    requires !e.command.FinishRelease? && !e.command.CreateOrder?
    requires Decide(Alone(t, map[], clock).db, 0, e) == Done(TripAt(order, row, journal, log), {})
    ensures Step(Alone(t, map[], clock), e) == At(order, row, journal, log, e.now)
  {
    hide Decide, Precheck, Target, Step, Enqueue;
    StepAlone(t, map[], clock, e, TripAt(order, row, journal, log), {});
    NothingClosed(map[], row);
  }

  lemma Created()
    ensures Enabled(INITIAL, Create()) && Step(INITIAL, Create()) == State(EMPTY.(orders := map[0 := BLANK]), 1, {})
  {
  }

  lemma Described()
    ensures var s := State(EMPTY.(orders := map[0 := BLANK]), 1, {});
            Enabled(s, Describe()) && Step(s, Describe()) == At(DESCRIBED, map[], map[], [], 2)
  {
  }

  lemma Sent()
    ensures var s := At(DESCRIBED, map[], map[], [], 2);
            Enabled(s, Send(3)) && Step(s, Send(3)) == At(SUBMITTED, map[], map[], LOG1, 3)
  {
    ReadAt(DESCRIBED, map[], map[], [], 2);
    assert Submit(TripAt(DESCRIBED, map[], map[], []), ADMIN, 3, Some(Route(true))) == Done(TripAt(SUBMITTED, map[], map[], LOG1), {});
    StepAt(TripAt(DESCRIBED, map[], map[], []), 2, Send(3), SUBMITTED, map[], map[], LOG1);
  }

  lemma Eligible()
    ensures Objection(SUBMITTED, FLEET.drivers[3], FLEET.vehicles[4], 100, 200).None?
  {
    assert Covers(FLEET.vehicles[4].registrations[0], 200);
  }

  lemma OfferedVerdict()
    ensures Offer(TripAt(SUBMITTED, map[], map[], LOG1), ADMIN, 4, OFFER, FLEET, None, 9, false)
        == Done(TripAt(SUBMITTED, map[9 := OFFERED], map[], LOG1), {})
  {
    hide Objection;
    Eligible();
  }

  lemma TakenVerdict()
    ensures Accept(TripAt(SUBMITTED, map[9 := OFFERED], map[], LOG1), 9, DRIVER, 5, FLEET)
        == Done(TripAt(TAKEN, map[9 := ACCEPTED], map[], LOG2), {})
  {
    hide Objection;
    Eligible();
  }

  lemma Offered()
    ensures var s := At(SUBMITTED, map[], map[], LOG1, 3);
            Enabled(s, Offering()) && Step(s, Offering()) == At(SUBMITTED, map[9 := OFFERED], map[], LOG1, 4)
  {
    ReadAt(SUBMITTED, map[], map[], LOG1, 3);
    OfferedVerdict();
    hide Offer, Step;
    StepAt(TripAt(SUBMITTED, map[], map[], LOG1), 3, Offering(), SUBMITTED, map[9 := OFFERED], map[], LOG1);
  }

  lemma Taken()
    ensures var s := At(SUBMITTED, map[9 := OFFERED], map[], LOG1, 4);
            Enabled(s, Accepting()) && Step(s, Accepting()) == At(TAKEN, map[9 := ACCEPTED], map[], LOG2, 5)
  {
    ReadAt(SUBMITTED, map[9 := OFFERED], map[], LOG1, 4);
    TakenVerdict();
    hide Accept, Step;
    StepAt(TripAt(SUBMITTED, map[9 := OFFERED], map[], LOG1), 4, Accepting(), TAKEN, map[9 := ACCEPTED], map[], LOG2);
  }

  lemma ReceivedVerdict()
    ensures Operate(TripAt(TAKEN, map[9 := ACCEPTED], map[], LOG2), ADMIN, 6, OperationRequest(Receive, None, 20, true), FLEET,
                    false, 10, false, 0, false)
        == Done(TripAt(TAKEN, map[9 := ACCEPTED], JOURNAL1, LOG2), {})
  {
  }

  lemma Received()
    ensures var s := At(TAKEN, map[9 := ACCEPTED], map[], LOG2, 5);
            Enabled(s, Receiving()) && Step(s, Receiving()) == At(TAKEN, map[9 := ACCEPTED], JOURNAL1, LOG2, 6)
  {
    hide Operate, Step;
    ReadAt(TAKEN, map[9 := ACCEPTED], map[], LOG2, 5);
    ReceivedVerdict();
    StepAt(TripAt(TAKEN, map[9 := ACCEPTED], map[], LOG2), 5, Receiving(), TAKEN, map[9 := ACCEPTED], JOURNAL1, LOG2);
  }

  lemma LoadedVerdict()
    ensures Operate(TripAt(TAKEN, map[9 := ACCEPTED], JOURNAL1, LOG2), ADMIN, 7, OperationRequest(Load, Some(9), 20, true), FLEET,
                    true, 11, false, 0, false)
        == Done(TripAt(TAKEN, map[9 := ACCEPTED], JOURNAL2, LOG2), {})
  {
  }

  lemma Loaded()
    ensures var s := At(TAKEN, map[9 := ACCEPTED], JOURNAL1, LOG2, 6);
            Enabled(s, Loading()) && Step(s, Loading()) == At(TAKEN, map[9 := ACCEPTED], JOURNAL2, LOG2, 7)
  {
    hide Operate, Step;
    ReadAt(TAKEN, map[9 := ACCEPTED], JOURNAL1, LOG2, 6);
    LoadedVerdict();
    StepAt(TripAt(TAKEN, map[9 := ACCEPTED], JOURNAL1, LOG2), 6, Loading(), TAKEN, map[9 := ACCEPTED], JOURNAL2, LOG2);
  }

  const AGAIN := TAKEN.(status := Ready, submittedAt := Some(8))

  lemma SentAgainVerdict()
    ensures Submit(TripAt(TAKEN, map[9 := ACCEPTED], JOURNAL2, LOG2), ADMIN, 8, Some(Route(true)))
        == Done(TripAt(AGAIN, map[9 := ACCEPTED], JOURNAL2, LOG3), {})
  {
  }

  lemma SentAgain()
    ensures var s := At(TAKEN, map[9 := ACCEPTED], JOURNAL2, LOG2, 7);
            Enabled(s, Send(8)) && Step(s, Send(8)) == At(AGAIN, map[9 := ACCEPTED], JOURNAL2, LOG3, 8)
  {
    hide Submit, Step;
    ReadAt(TAKEN, map[9 := ACCEPTED], JOURNAL2, LOG2, 7);
    SentAgainVerdict();
    StepAt(TripAt(TAKEN, map[9 := ACCEPTED], JOURNAL2, LOG2), 7, Send(8), AGAIN, map[9 := ACCEPTED], JOURNAL2, LOG3);
  }

  // ---- The whole run ---------------------------------------------------------------------------

  function Prefix(tail: seq<Event>): seq<Event> {
    [Create()] + ([Describe()] + ([Send(3)] + ([Offering()] + ([Accepting()] + ([Receiving()] + ([Loading()] + tail))))))
  }

  const READY := At(TAKEN, map[9 := ACCEPTED], JOURNAL2, LOG2, 7)

  // Seven commands from the empty database load an accepted order; what follows is open.
  lemma PrefixRuns(tail: seq<Event>)
    requires Legal(READY, tail)
    ensures Legal(INITIAL, Prefix(tail)) && Run(INITIAL, Prefix(tail)) == Run(READY, tail)
  {
    hide Enabled, Step, Run, Legal, At, Create, Describe, Send, Offering, Accepting, Receiving, Loading;
    Loaded();
    RunStep(At(TAKEN, map[9 := ACCEPTED], JOURNAL1, LOG2, 6), Loading(), READY, tail);
    Received();
    RunStep(At(TAKEN, map[9 := ACCEPTED], map[], LOG2, 5), Receiving(), At(TAKEN, map[9 := ACCEPTED], JOURNAL1, LOG2, 6),
            [Loading()] + tail);
    Taken();
    RunStep(At(SUBMITTED, map[9 := OFFERED], map[], LOG1, 4), Accepting(), At(TAKEN, map[9 := ACCEPTED], map[], LOG2, 5),
            [Receiving()] + ([Loading()] + tail));
    Offered();
    RunStep(At(SUBMITTED, map[], map[], LOG1, 3), Offering(), At(SUBMITTED, map[9 := OFFERED], map[], LOG1, 4),
            [Accepting()] + ([Receiving()] + ([Loading()] + tail)));
    Sent();
    RunStep(At(DESCRIBED, map[], map[], [], 2), Send(3), At(SUBMITTED, map[], map[], LOG1, 3),
            [Offering()] + ([Accepting()] + ([Receiving()] + ([Loading()] + tail))));
    Described();
    RunStep(State(EMPTY.(orders := map[0 := BLANK]), 1, {}), Describe(), At(DESCRIBED, map[], map[], [], 2),
            [Send(3)] + ([Offering()] + ([Accepting()] + ([Receiving()] + ([Loading()] + tail)))));
    Created();
    RunStep(INITIAL, Create(), State(EMPTY.(orders := map[0 := BLANK]), 1, {}),
            [Describe()] + ([Send(3)] + ([Offering()] + ([Accepting()] + ([Receiving()] + ([Loading()] + tail))))));
  }

  function Script(): seq<Event> { Prefix([Send(8)] + []) }

  const END := At(AGAIN, map[9 := ACCEPTED], JOURNAL2, LOG3, 8)

  lemma ScriptRuns()
    ensures Legal(INITIAL, Script()) && Run(INITIAL, Script()) == END
  {
    hide Enabled, Step, Run, Legal, At, Prefix, Send;
    RunNothing(END);
    SentAgain();
    RunStep(READY, Send(8), END, []);
    PrefixRuns([Send(8)] + []);
  }

  lemma EndIsStranded()
    ensures 0 in END.db.orders && Stranded(TripOf(END.db, 0), 9)
  {
    ReadAt(AGAIN, map[9 := ACCEPTED], JOURNAL2, LOG3, 8);
  }

  // Eight ordinary commands strand a loaded order, and nothing done later helps.
  lemma LoadedOrderCanBeStranded(later: seq<Event>)
    requires Legal(Run(INITIAL, Script()), later)
    ensures Legal(INITIAL, Script())
    ensures var end := Run(Run(INITIAL, Script()), later);
            0 in end.db.orders && Stranded(TripOf(end.db, 0), 9)
  {
    hide Inv, Legal, Run, Stranded, TripOf, Script;
    ScriptRuns();
    EndIsStranded();
    InitialHolds();
    RunKeeps(INITIAL, Script());
    StrandedForever(END, later, 0, 9);
  }
}
