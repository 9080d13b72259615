// The load in effect: the queries that look for it agree, and find one row at most.
module Loads {
  import opened Model
  import opened Trips
  import opened Soundness
  import opened Preservation
  import opened Database
  import opened Core
  import opened Guarantees
  import opened WarehouseQueue

  // warehouseLoadExists: a load of this order and assignment that no undo_load of both lifts.
  predicate LoadExists(operations: Journal, o: Id, a: Id) {
    exists l :: l in operations && l.order == o && l.assignment == Some(a) && l.kind == Load
      && !exists u :: u in operations && u.order == l.order && u.assignment == l.assignment && u.kind == UndoLoad
  }

  // The rows the queries for the latest load choose from: a load of this order whose assignment has no undo_load in any order.
  predicate StandingLoad(operations: Journal, o: Id, l: OpKey) {
    l in operations && l.order == o && l.kind == Load
    && !exists u :: u in operations && u.assignment == l.assignment && u.kind == UndoLoad
  }

  // requireWarehouseOperation as start uses it: any load row of the assignment will do.
  predicate LoadRecorded(operations: Journal, o: Id, a: Id) {
    exists l :: l in operations && l.order == o && l.kind == Load && l.assignment == Some(a)
  }

  lemma ExistsMeansEffective(operations: Journal, o: Id, a: Id)
    ensures LoadExists(operations, o, a) <==> EffectiveIn(operations, o, a)
    ensures LoadRecorded(operations, o, a) <==> OpKey(o, Load, Some(a)) in operations
  {
    if l :| l in operations && l.order == o && l.assignment == Some(a) && l.kind == Load {
      assert l == OpKey(o, Load, Some(a));
    }
    if OpKey(o, UndoLoad, Some(a)) in operations { assert OpKey(o, UndoLoad, Some(a)).kind == UndoLoad; }
    forall u | u in operations && u.order == o && u.assignment == Some(a) && u.kind == UndoLoad
      ensures u == OpKey(o, UndoLoad, Some(a)) {}
  }

  // An undo_load names its own order's assignment, so looking in every order finds nothing more.
  lemma FormulationsAgree(db: Tables, o: Id, l: OpKey)
    requires WellFiled(db)
    ensures StandingLoad(db.operations, o, l)
            <==> l in db.operations && l.order == o && l.kind == Load && l.assignment.Some?
                 && LoadExists(db.operations, o, l.assignment.value)
  {
    if l in db.operations && l.order == o && l.kind == Load {
      var a := l.assignment.value;
      assert l == OpKey(o, Load, Some(a));
      ExistsMeansEffective(db.operations, o, a);
      if u :| u in db.operations && u.assignment == l.assignment && u.kind == UndoLoad {
        assert u == OpKey(o, UndoLoad, Some(a));
      }
      if OpKey(o, UndoLoad, Some(a)) in db.operations { assert OpKey(o, UndoLoad, Some(a)).kind == UndoLoad; }
    }
  }

  lemma EffectiveFlat(db: Tables, o: Id, a: Id)
    requires o in db.orders && db.orders[o].id == o
    ensures Effective(TripOf(db, o), a) <==> EffectiveIn(db.operations, o, a)
    ensures Performed(TripOf(db, o), Load, Some(a)) <==> OpKey(o, Load, Some(a)) in db.operations
  {
  }

  // Whose load it is before departure, and that an accepted assignment's load is in effect.
  ghost predicate LoadFollowsAssignment(t: Trip) {
    && (forall a, b :: Effective(t, a) && Effective(t, b) ==> a == b)
    && (t.order.startedAt.None? ==> forall a :: Effective(t, a) ==>
          a in t.assignments && t.assignments[a].status == Accepted
          && (if t.order.status == Assigned then t.order.driver == Some(t.assignments[a].driver)
              else t.order.status == Ready && Resubmitted(t)))
    && (forall a :: a in t.assignments && t.assignments[a].status == Accepted ==>
          (Effective(t, a) <==> Performed(t, Load, Some(a))))
  }

  lemma SoundLoads(t: Trip, clock: Time)
    requires Sound(t, clock)
    ensures LoadFollowsAssignment(t)
  {
    hide Resubmitted, Owned, Proven, StartedBy, OneInvitation, Accounted, Custody, Logged, LoadedToStart, UnloadsHeld, Filed;
    forall a | a in t.assignments && t.assignments[a].status == Accepted
      ensures Effective(t, a) <==> Performed(t, Load, Some(a)) { AcceptedLoadIsEffective(t, a); }
    forall a | Effective(t, a) && t.order.startedAt.None?
      ensures a in t.assignments && t.assignments[a].status == Accepted
              && (if t.order.status == Assigned then t.order.driver == Some(t.assignments[a].driver)
                  else t.order.status == Ready && Resubmitted(t))
    {
      assert Performed(t, Load, Some(a)) && Open(t.assignments[a]);
    }
  }

  // In every run: the three queries about loads agree, the query for the latest has at most one row to
  // choose from, and before departure that row is the accepted assignment's.
  lemma LoadsInEveryRun(s: State, events: seq<Event>, o: Id)
    requires Inv(s) && Legal(s, events) && o in Run(s, events).db.orders
    ensures var db := Run(s, events).db;
            && (forall l, m :: StandingLoad(db.operations, o, l) && StandingLoad(db.operations, o, m) ==> l == m)
            && (forall l :: StandingLoad(db.operations, o, l) <==>
                  l in db.operations && l.order == o && l.kind == Load && l.assignment.Some?
                  && LoadExists(db.operations, o, l.assignment.value))
            && (forall a :: a in db.assignments && db.assignments[a].order == o && db.assignments[a].status == Accepted ==>
                  (LoadRecorded(db.operations, o, a) <==> LoadExists(db.operations, o, a)))
            && (forall a :: LoadExists(db.operations, o, a) && db.orders[o].startedAt.None? ==>
                  a in db.assignments && db.assignments[a].order == o && db.assignments[a].status == Accepted)
  {
    hide Inv, Run, Legal, StandingLoad, LoadExists, LoadRecorded, WellFiled, Sound;
    var end := Run(s, events);
    var db := end.db;
    RunKeeps(s, events);
    InvariantFiles(end);
    SoundOf(end, o);
    var t := TripOf(db, o);
    SoundLoads(t, end.clock);
    OwnId(end, o);
    forall a ensures LoadExists(db.operations, o, a) <==> Effective(t, a)
    { ExistsMeansEffective(db.operations, o, a); EffectiveFlat(db, o, a); }
    forall a ensures LoadRecorded(db.operations, o, a) <==> Performed(t, Load, Some(a))
    { ExistsMeansEffective(db.operations, o, a); EffectiveFlat(db, o, a); }
    forall l ensures StandingLoad(db.operations, o, l) <==>
                  l in db.operations && l.order == o && l.kind == Load && l.assignment.Some?
                  && LoadExists(db.operations, o, l.assignment.value)
    { FormulationsAgree(db, o, l); }
    forall l, m | StandingLoad(db.operations, o, l) && StandingLoad(db.operations, o, m) ensures l == m {
      assert Effective(t, l.assignment.value) && Effective(t, m.assignment.value);
    }
  }

  lemma OwnId(s: State, o: Id)
    requires Inv(s) && o in s.db.orders
    ensures s.db.orders[o].id == o
  {
    hide AllSound, NoDoubleBooking, ReleasesKept;
  }
}
