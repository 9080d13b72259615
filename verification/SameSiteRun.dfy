// A run from a warehouse back to it, up to the point where the queue hides that cargo may be unloaded.
module SameSiteRun {
  import opened Model
  import opened Trips
  import opened Soundness
  import opened Database
  import opened Core
  import opened CoreSafety
  import opened Guarantees
  import opened Scripts
  import opened StrandedRun
  import opened WarehouseQueue

  const GOING := TAKEN.(status := InTransit, startedAt := Some(8))
  const BACK := GOING.(status := Arrived, arrivedAt := Some(9))
  const CARRYING := ACCEPTED.(status := Active, startedAt := Some(8))
  const LOG_START := LOG2 + [StatusChange(Assigned, InTransit, 2, None, 8)]
  const LOG_ARRIVE := LOG_START + [StatusChange(InTransit, Arrived, 2, None, 9)]
  const OUT := TripAt(GOING, map[9 := CARRYING], JOURNAL2, LOG_START)
  const HOME := TripAt(BACK, map[9 := CARRYING], JOURNAL2, LOG_ARRIVE)

  function Departing(): Event { Event(8, FLEET, StartAssignment(DRIVER, 9)) }
  function Arriving(): Event { Event(9, FLEET, ArriveAssignment(DRIVER, 9)) }

  lemma Verdicts()
    ensures Start(TripAt(TAKEN, map[9 := ACCEPTED], JOURNAL2, LOG2), 9, DRIVER, 8, FLEET) == Done(OUT, {})
    ensures Arrive(OUT, 9, DRIVER, 9, FLEET) == Done(HOME, {})
  {
  }

  lemma Departed()
    ensures Enabled(READY, Departing()) && Step(READY, Departing()) == Alone(OUT, map[], 8)
  {
    Verdicts();
    hide Step, Start;
    var t := TripAt(TAKEN, map[9 := ACCEPTED], JOURNAL2, LOG2);
    ReadAlone(t, map[], 7);
    NothingClosed(map[], OUT.assignments);
    StepAlone(t, map[], 7, Departing(), OUT, {});
  }

  lemma CameBack()
    ensures Enabled(Alone(OUT, map[], 8), Arriving()) && Step(Alone(OUT, map[], 8), Arriving()) == Alone(HOME, map[], 9)
  {
    Verdicts();
    hide Step, Arrive;
    ReadAlone(OUT, map[], 8);
    NothingClosed(map[], HOME.assignments);
    StepAlone(OUT, map[], 8, Arriving(), HOME, {});
  }

  function Script(): seq<Event> { Prefix([Departing()] + ([Arriving()] + [])) }

  lemma ScriptRuns()
    ensures Legal(INITIAL, Script()) && Run(INITIAL, Script()) == Alone(HOME, map[], 9)
  {
    hide Enabled, Step, Run, Legal, Alone, Prefix, Departing, Arriving;
    RunNothing(Alone(HOME, map[], 9));
    CameBack();
    RunStep(Alone(OUT, map[], 8), Arriving(), Alone(HOME, map[], 9), []);
    Departed();
    RunStep(READY, Departing(), Alone(OUT, map[], 8), [Arriving()] + []);
    PrefixRuns([Departing()] + ([Arriving()] + []));
  }

  lemma EndIsHome()
    ensures var db := Run(INITIAL, Script()).db; 0 in db.orders && TripOf(db, 0) == HOME
  {
    ScriptRuns();
    hide Run, Script;
    ReadAlone(HOME, map[], 9);
  }

  lemma HomeIsSound()
    ensures Sound(HOME, 9)
  {
    ScriptRuns();
    EndIsHome();
    InitialHolds();
    hide Legal, Run, Script, Sound, Inv, TripOf;
    RunKeeps(INITIAL, Script());
    SoundOf(Run(INITIAL, Script()), 0);
  }

  lemma HomeStage()
    ensures StageOf(HOME, 5) == Stage.Departed && !HasOpenIncident(HOME)
  {
  }

  lemma HomeUnloads()
    ensures CanPerform(HOME, Unload, 20, ADMIN, 10, FLEET, 12, 0)
  {
    HomeIsSound();
    HomeStage();
    hide Sound, StageOf, CanPerform, HasOpenIncident;
    UnloadAgrees(HOME, 5, 20, ADMIN, 9, 10, FLEET, 12, 0);
  }

  // The cargo is back at warehouse 5 and may be unloaded there; the queue says it has departed.
  lemma StageMissesUnloading()
    ensures Legal(INITIAL, Script()) && 0 in Run(INITIAL, Script()).db.orders
    ensures var t := TripOf(Run(INITIAL, Script()).db, 0);
            && t.order.origin == Some(5) && t.order.destination == Some(5)
            && StageOf(t, 5) == Stage.Departed && !HasOpenIncident(t)
            && CanPerform(t, Unload, 20, ADMIN, 10, FLEET, 12, 0)
  {
    hide Legal, Run, Script, CanPerform, Sound, HasOpenIncident, TripOf, StageOf;
    ScriptRuns();
    EndIsHome();
    HomeStage();
    HomeUnloads();
  }
}
