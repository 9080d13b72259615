// A run that delivers fewer packages than were declared and raises no incident, command by command
// from the empty database.
module UncountedRun {
  import opened Model
  import opened Eligibility
  import opened Trips
  import opened Soundness
  import opened Database
  import opened Core
  import opened CoreSafety
  import opened Guarantees
  import opened Scripts
  import opened Cargo
  import StrandedRun

  const ADMIN := StrandedRun.ADMIN
  const DRIVER := StrandedRun.DRIVER
  const FLEET := StrandedRun.FLEET
  const OFFER := StrandedRun.OFFER

  // From an address to a warehouse.
  const DRAFT := DraftRequest(None, Some(5), true, false, Some(10.0), Some(1.0), Some(100), Some(200))
  const BLANK := NewDraft(0, ADMIN, DRAFT, FLEET)
  const DESCRIBED := BLANK.(declared := Some(20))
  const SUBMITTED := DESCRIBED.(status := Ready, submittedAt := Some(3))
  const TAKEN := SUBMITTED.(status := Assigned, driver := Some(3), assignedAt := Some(5))
  const MOVING := TAKEN.(status := InTransit, startedAt := Some(6))
  const THERE := MOVING.(status := Arrived, arrivedAt := Some(7))
  const DELIVERED := THERE.(status := OrderStatus.Completed, deliveredAt := Some(10))

  const OFFERED := OfferRow(0, ADMIN, 4, OFFER)
  const ACCEPTED := OFFERED.(status := Accepted, acceptedAt := Some(5))
  const ACTIVE := ACCEPTED.(status := Active, startedAt := Some(6))
  const DONE := ACTIVE.(status := AssignmentStatus.Completed, completedAt := Some(10))

  const JOURNAL: map<OpKey, Operation> := map[OpKey(0, Unload, Some(9)) := Operation(10, 5, 15, 1, 8)]
  const SIGNED := Receipt(9, "recipient", 15, 9, 9, 1)

  const LOG1 := [StatusChange(Draft, Ready, 1, None, 3)]
  const LOG2 := LOG1 + [StatusChange(Ready, Assigned, 2, None, 5)]
  const LOG3 := LOG2 + [StatusChange(Assigned, InTransit, 2, None, 6)]
  const LOG4 := LOG3 + [StatusChange(InTransit, Arrived, 2, None, 7)]
  const LOG5 := LOG4 + [StatusChange(Arrived, OrderStatus.Completed, 1, None, 10)]

  function Bare(order: Order): Trip { Trip(order, map[], map[], map[], None, map[], []) }
  function With(order: Order, row: Assignment, log: seq<StatusChange>): Trip { Trip(order, map[9 := row], map[], map[], None, map[], log) }

  const T1 := Bare(BLANK)
  const T2 := Bare(DESCRIBED)
  const T3 := Bare(SUBMITTED).(history := LOG1)
  const T4 := With(SUBMITTED, OFFERED, LOG1)
  const T5 := With(TAKEN, ACCEPTED, LOG2)
  const T6 := With(MOVING, ACTIVE, LOG3)
  const T7 := With(THERE, ACTIVE, LOG4)
  const T8 := T7.(operations := JOURNAL)
  const T9 := T8.(receipt := Some(SIGNED))
  const T10 := T9.(order := DELIVERED, assignments := map[9 := DONE], history := LOG5)

  function E1(): Event { Event(1, FLEET, CreateOrder(ADMIN, 0, DRAFT, None)) }
  function E2(): Event { Event(2, FLEET, SetTransportDetails(ADMIN, 0, 20, true, PartyRequest(6, 6, 6))) }
  function E3(): Event { Event(3, FLEET, SubmitOrder(ADMIN, 0, Some(Route(true)))) }
  function E4(): Event { Event(4, FLEET, CreateAssignment(ADMIN, 0, OFFER, None, 9)) }
  function E5(): Event { Event(5, FLEET, AcceptAssignment(DRIVER, 9)) }
  function E6(): Event { Event(6, FLEET, StartAssignment(DRIVER, 9)) }
  function E7(): Event { Event(7, FLEET, ArriveAssignment(DRIVER, 9)) }
  function E8(): Event { Event(8, FLEET, CreateWarehouseOperation(ADMIN, 0, OperationRequest(Unload, Some(9), 15, true), 10, 0)) }
  function E9(): Event { Event(9, FLEET, CreateDeliveryReceipt(ADMIN, 0, ReceiptRequest(9, "recipient", 15, None, true), 0)) }
  function E10(): Event { Event(10, FLEET, CompleteAssignment(ADMIN, 9, CompleteRequest(None, true))) }

  const QUEUE := Enqueue(map[], map[9 := DONE], {9})

  // ---- What each command decides ------------------------------------------------------------------

  lemma Described()
    ensures PartyObjection(ADMIN, BLANK.createdBy, PartyRequest(6, 6, 6), FLEET).None?
    ensures SetDetails(T1, ADMIN, 20, None) == Done(T2, {})
  {
    PartiesAccepted(ADMIN, BLANK.createdBy, PartyRequest(6, 6, 6), FLEET);
    hide PartyObjection;
  }

  lemma Submitted()
    ensures Submit(T2, ADMIN, 3, Some(Route(true))) == Done(T3, {})
  {
  }

  lemma Eligible()
    ensures Objection(SUBMITTED, FLEET.drivers[3], FLEET.vehicles[4], 100, 200).None?
  {
    assert Covers(FLEET.vehicles[4].registrations[0], 200);
  }

  lemma Offered()
    ensures Offer(T3, ADMIN, 4, OFFER, FLEET, None, 9, false) == Done(T4, {})
  {
    hide Objection;
    Eligible();
  }

  lemma Taken()
    ensures Accept(T4, 9, DRIVER, 5, FLEET) == Done(T5, {})
  {
    hide Objection;
    Eligible();
  }

  lemma OnTheWay()
    ensures Start(T5, 9, DRIVER, 6, FLEET) == Done(T6, {}) && Arrive(T6, 9, DRIVER, 7, FLEET) == Done(T7, {})
  {
  }

  lemma NothingLoaded(t: Trip)
    requires t.operations == map[]
    ensures LatestLoad(t).None?
  {
  }

  lemma UnloadedShort()
    ensures Operate(T7, ADMIN, 8, OperationRequest(Unload, Some(9), 15, true), FLEET, true, 10, false, 0, false) == Done(T8, {})
  {
    NothingLoaded(T7);
    hide LatestLoadIn;
  }

  lemma ReceivedShort()
    ensures Acknowledge(T8, ADMIN, 9, ReceiptRequest(9, "recipient", 15, None, true), FLEET, true, 0, false) == Done(T9, {})
  {
  }

  lemma Finished()
    ensures Complete(T9, 9, ADMIN, 10, CompleteRequest(None, true), FLEET) == Done(T10, {9})
  {
  }

  // ---- The run --------------------------------------------------------------------------------------

  lemma Step1()
    ensures Enabled(INITIAL, E1()) && Step(INITIAL, E1()) == Alone(T1, map[], 1)
  {
  }

  lemma Step2()
    ensures var s := Alone(T1, map[], 1); Enabled(s, E2()) && Step(s, E2()) == Alone(T2, map[], 2)
  {
    Described();
    hide Step, PartyObjection, SetDetails;
    ReadAlone(T1, map[], 1);
    NothingClosed(map[], T2.assignments);
    StepAlone(T1, map[], 1, E2(), T2, {});
  }

  lemma Step3()
    ensures var s := Alone(T2, map[], 2); Enabled(s, E3()) && Step(s, E3()) == Alone(T3, map[], 3)
  {
    Submitted();
    hide Step, Submit;
    ReadAlone(T2, map[], 2);
    NothingClosed(map[], T3.assignments);
    StepAlone(T2, map[], 2, E3(), T3, {});
  }

  lemma Step4()
    ensures var s := Alone(T3, map[], 3); Enabled(s, E4()) && Step(s, E4()) == Alone(T4, map[], 4)
  {
    Offered();
    hide Step, Offer;
    ReadAlone(T3, map[], 3);
    NothingClosed(map[], T4.assignments);
    StepAlone(T3, map[], 3, E4(), T4, {});
  }

  lemma Step5()
    ensures var s := Alone(T4, map[], 4); Enabled(s, E5()) && Step(s, E5()) == Alone(T5, map[], 5)
  {
    Taken();
    hide Step, Accept;
    ReadAlone(T4, map[], 4);
    NothingClosed(map[], T5.assignments);
    StepAlone(T4, map[], 4, E5(), T5, {});
  }

  lemma Step6()
    ensures var s := Alone(T5, map[], 5); Enabled(s, E6()) && Step(s, E6()) == Alone(T6, map[], 6)
  {
    OnTheWay();
    hide Step, Start;
    ReadAlone(T5, map[], 5);
    NothingClosed(map[], T6.assignments);
    StepAlone(T5, map[], 5, E6(), T6, {});
  }

  lemma Step7()
    ensures var s := Alone(T6, map[], 6); Enabled(s, E7()) && Step(s, E7()) == Alone(T7, map[], 7)
  {
    OnTheWay();
    hide Step, Arrive;
    ReadAlone(T6, map[], 6);
    NothingClosed(map[], T7.assignments);
    StepAlone(T6, map[], 6, E7(), T7, {});
  }

  lemma Step8()
    ensures var s := Alone(T7, map[], 7); Enabled(s, E8()) && Step(s, E8()) == Alone(T8, map[], 8)
  {
    UnloadedShort();
    hide Step, Operate;
    ReadAlone(T7, map[], 7);
    NothingClosed(map[], T8.assignments);
    StepAlone(T7, map[], 7, E8(), T8, {});
  }

  lemma Step9()
    ensures var s := Alone(T8, map[], 8); Enabled(s, E9()) && Step(s, E9()) == Alone(T9, map[], 9)
  {
    ReceivedShort();
    hide Step, Acknowledge;
    ReadAlone(T8, map[], 8);
    NothingClosed(map[], T9.assignments);
    StepAlone(T8, map[], 8, E9(), T9, {});
  }

  lemma Step10()
    ensures var s := Alone(T9, map[], 9); Enabled(s, E10()) && Step(s, E10()) == Alone(T10, QUEUE, 10)
  {
    Finished();
    hide Step, Complete, Enqueue;
    ReadAlone(T9, map[], 9);
    StepAlone(T9, map[], 9, E10(), T10, {9});
  }

  function FromE5(): seq<Event> { [E5()] + ([E6()] + ([E7()] + ([E8()] + ([E9()] + ([E10()] + []))))) }

  function Script(): seq<Event> { [E1()] + ([E2()] + ([E3()] + ([E4()] + FromE5()))) }

  lemma SecondHalf()
    ensures Legal(Alone(T4, map[], 4), FromE5()) && Run(Alone(T4, map[], 4), FromE5()) == Alone(T10, QUEUE, 10)
  {
    hide Enabled, Step, Run, Legal, Alone, E5, E6, E7, E8, E9, E10;
    RunNothing(Alone(T10, QUEUE, 10));
    Step10();
    RunStep(Alone(T9, map[], 9), E10(), Alone(T10, QUEUE, 10), []);
    Step9();
    RunStep(Alone(T8, map[], 8), E9(), Alone(T9, map[], 9), [E10()] + []);
    Step8();
    RunStep(Alone(T7, map[], 7), E8(), Alone(T8, map[], 8), [E9()] + ([E10()] + []));
    Step7();
    RunStep(Alone(T6, map[], 6), E7(), Alone(T7, map[], 7), [E8()] + ([E9()] + ([E10()] + [])));
    Step6();
    RunStep(Alone(T5, map[], 5), E6(), Alone(T6, map[], 6), [E7()] + ([E8()] + ([E9()] + ([E10()] + []))));
    Step5();
    RunStep(Alone(T4, map[], 4), E5(), Alone(T5, map[], 5), [E6()] + ([E7()] + ([E8()] + ([E9()] + ([E10()] + [])))));
  }

  lemma ScriptRuns()
    ensures Legal(INITIAL, Script()) && Run(INITIAL, Script()) == Alone(T10, QUEUE, 10)
  {
    hide Enabled, Step, Run, Legal, Alone, E1, E2, E3, E4, FromE5;
    SecondHalf();
    Step4();
    RunStep(Alone(T3, map[], 3), E4(), Alone(T4, map[], 4), FromE5());
    Step3();
    RunStep(Alone(T2, map[], 2), E3(), Alone(T3, map[], 3), [E4()] + FromE5());
    Step2();
    RunStep(Alone(T1, map[], 1), E2(), Alone(T2, map[], 2), [E3()] + ([E4()] + FromE5()));
    Step1();
    RunStep(INITIAL, E1(), Alone(T1, map[], 1), [E2()] + ([E3()] + ([E4()] + FromE5())));
  }

  // Ten ordinary commands deliver fifteen of twenty packages to a warehouse, and nothing says that
  // five are missing.
  lemma ShortDeliveryUnnoticed()
    ensures Legal(INITIAL, Script()) && 0 in Run(INITIAL, Script()).db.orders
    ensures var t := TripOf(Run(INITIAL, Script()).db, 0);
            && t.order.status == OrderStatus.Completed && t.order.policy == 1 && t.order.origin.None? && t.order.destination.Some?
            && t.order.declared == Some(20) && t.receipt.Some? && t.receipt.value.packages == 15
            && t.incidents == map[] && Lost(t) == 0
  {
    ScriptRuns();
    hide Legal, Run, Script, Lost;
    ReadAlone(T10, QUEUE, 10);
    NothingLost(T10);
  }

  lemma NothingLost(t: Trip)
    requires t.incidents == map[]
    ensures Lost(t) == 0
  {
    assert CargoIncidents(t) == {};
  }
}
