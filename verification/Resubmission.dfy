// Submitting an order that is already assigned: the one command that breaks the coupling of an
// order to its assignment, exactly when it does, and what becomes of a loaded order afterwards.
module Resubmission {
  import opened Model
  import opened Eligibility
  import opened Trips
  import opened Soundness
  import opened Frames
  import opened Verdicts
  import opened Database
  import opened Core
  import opened CoreSafety
  import opened Guarantees
  import opened Effects
  import Permissions

  // ---- Exactly which step breaks the coupling --------------------------------------------------

  // A submission in good order of an order that a driver has already accepted.
  ghost predicate Resubmits(db: Tables, e: Event) {
    e.command.SubmitOrder? && e.command.order in db.orders
    && db.orders[e.command.order].status == Assigned
    && Permissions.MaySubmit(db.orders[e.command.order], e.command.who, e.command.route)
  }

  lemma SubmitAsks(t: Trip, who: Actor, now: Time, route: Option<Route>)
    ensures Submit(t, who, now, route).Commit? <==> Permissions.MaySubmit(t.order, who, route)
    ensures var v := Submit(t, who, now, route); v.Commit? ==> v.reply.None? && v.closed == {}
  {
  }

  // A submission succeeds exactly for a draft or an assigned order that is otherwise in good order.
  lemma SubmissionSucceeds(db: Tables, e: Event)
    requires e.command.SubmitOrder?
    ensures Execute(db, e).reply.None?
            <==> e.command.order in db.orders && Permissions.MaySubmit(db.orders[e.command.order], e.command.who, e.command.route)
  {
    hide Submit, Permissions.MaySubmit, TripOf, Save;
    var o := e.command.order;
    if o in db.orders {
      SubmitAsks(TripOf(db, o), e.command.who, e.now, e.command.route);
      SameRow(db, o);
    }
  }

  ghost predicate AsDesigned(db: Tables) {
    forall o :: o in db.orders ==> CoupledAsDesigned(TripOf(db, o))
  }

  ghost predicate NeverResubmitted(db: Tables) {
    forall o :: o in db.orders ==> !Resubmitted(TripOf(db, o))
  }

  lemma SubmitDraftQuiet(t: Trip, who: Actor, now: Time, route: Option<Route>)
    requires t.order.status != Assigned
    ensures Quiet(t, Submit(t, who, now, route))
  {
  }

  lemma QuietKeeps(t: Trip, v: Verdict)
    requires Quiet(t, v) && v.Commit? && !Resubmitted(t)
    ensures !Resubmitted(v.trip)
  {
  }

  lemma SubmitAssignedBreaks(t: Trip, who: Actor, now: Time, route: Option<Route>)
    requires Crewed(t) && t.order.status == Assigned && Submit(t, who, now, route).Commit?
    ensures !CoupledAsDesigned(Submit(t, who, now, route).trip)
  {
    hide OneOpen, Resubmitted;
  }

  // Coupled as designed: coupled, and nothing is accepted on a ready order.
  lemma DesignedIsStrict(t: Trip)
    requires Crewed(t)
    ensures Coupled(t) && (CoupledAsDesigned(t) <==> Strict(t))
  {
    hide Resubmitted;
  }

  lemma QuietStaysDesigned(t: Trip, v: Verdict)
    requires Quiet(t, v) && v.Commit? && Crewed(t) && Crewed(v.trip) && CoupledAsDesigned(t)
    ensures CoupledAsDesigned(v.trip)
  {
    DesignedIsStrict(t);
    DesignedIsStrict(v.trip);
    hide Coupled, Strict, CoupledAsDesigned, Resubmitted;
  }

  lemma NeverResubmittedIsDesigned(db: Tables, clock: Time)
    requires AllSound(db, clock) && NeverResubmitted(db)
    ensures AsDesigned(db)
  {
    hide Crewed, Formed, Recorded, CoupledAsDesigned, Resubmitted;
    forall o | o in db.orders ensures CoupledAsDesigned(TripOf(db, o)) {
      assert Sound(TripOf(db, o), clock);
      CrewedIsCoupled(TripOf(db, o));
    }
  }

  // A submission is decided on the order it names.
  lemma SubmissionDecided(s: State, e: Event, p: Id, v: Verdict)
    requires e.command.SubmitOrder? && p in s.db.orders
    requires v.Commit? ==> Precheck(e.command, e.now).None? && Target(s.db, e.command) == Some(p) && v == Decide(s.db, p, e)
    ensures v.Commit? ==> e.command.order == p && v == Submit(TripOf(s.db, p), e.command.who, e.now, e.command.route)
    ensures v.Commit? && s.db.orders[p].status == Assigned ==> Resubmits(s.db, e)
  {
    hide Submit, TripOf, Permissions.MaySubmit;
    SameRow(s.db, p);
    if v.Commit? { SubmitAsks(TripOf(s.db, p), e.command.who, e.now, e.command.route); }
  }

  lemma ResubmissionDecided(s: State, e: Event)
    requires Resubmits(s.db, e)
    ensures Precheck(e.command, e.now).None? && Target(s.db, e.command) == Some(e.command.order)
    ensures var o := e.command.order;
            Decide(s.db, o, e) == Submit(TripOf(s.db, o), e.command.who, e.now, e.command.route) && Decide(s.db, o, e).Commit?
  {
    hide Submit, TripOf, Permissions.MaySubmit;
    SameRow(s.db, e.command.order);
    SubmitAsks(TripOf(s.db, e.command.order), e.command.who, e.now, e.command.route);
  }

  lemma StepStaysUnsubmitted(s: State, e: Event, p: Id)
    requires Inv(s) && Enabled(s, e) && p in s.db.orders && !Resubmits(s.db, e) && !Resubmitted(TripOf(s.db, p))
    ensures p in Step(s, e).db.orders && !Resubmitted(TripOf(Step(s, e).db, p))
  {
    hide Inv, Enabled, Step, TripOf, Resubmits, Quiet, Decide, Target, Precheck, Resubmitted, Submit;
    var v := StepVerdict(s, e, p);
    if v.Commit? {
      if e.command.SubmitOrder? {
        SubmissionDecided(s, e, p, v);
        SameRow(s.db, p);
        SubmitDraftQuiet(TripOf(s.db, p), e.command.who, e.now, e.command.route);
      }
      QuietKeeps(TripOf(s.db, p), v);
    }
  }

  lemma ResubmissionBreaks(s: State, e: Event)
    requires Inv(s) && Enabled(s, e) && Resubmits(s.db, e)
    ensures e.command.order in Step(s, e).db.orders && !CoupledAsDesigned(TripOf(Step(s, e).db, e.command.order))
  {
    hide Inv, Enabled, Submit, CoupledAsDesigned, TripOf, Precheck, Decide, Target, Sound, Crewed, Formed, Recorded, Execute, Permissions.MaySubmit;
    var o := e.command.order;
    ResubmissionDecided(s, e);
    var v := Decide(s.db, o, e);
    OtherOrdersStay(s, e, o, o);
    SoundOf(s, o);
    SameRow(s.db, o);
    assert Crewed(TripOf(s.db, o)) by { SoundParts(TripOf(s.db, o), s.clock); }
    SubmitAssignedBreaks(TripOf(s.db, o), e.command.who, e.now, e.command.route);
    StepKeepsOrders(s, e);
    SettledStep(s, e, o);
  }

  lemma SoundParts(t: Trip, clock: Time)
    requires Sound(t, clock)
    ensures Crewed(t) && Formed(t, clock) && Recorded(t)
  {
    hide Crewed, Formed, Recorded;
  }

  lemma SettledStep(s: State, e: Event, o: Id)
    requires Precheck(e.command, e.now).None? && Target(s.db, e.command) == Some(o) && o in s.db.orders
    ensures Step(s, e).db == Settle(s.db, Decide(s.db, o, e)).db
  {
    hide Precheck, Decide, Settle;
  }

  // No step but a resubmission of this very order ends its coupling.
  lemma StepStaysDesigned(s: State, e: Event, p: Id)
    requires Inv(s) && Enabled(s, e) && p in s.db.orders && CoupledAsDesigned(TripOf(s.db, p))
    requires !(Resubmits(s.db, e) && e.command.order == p)
    ensures p in Step(s, e).db.orders && CoupledAsDesigned(TripOf(Step(s, e).db, p))
  {
    hide Inv, Enabled, Step, TripOf, Resubmits, Quiet, Decide, Target, Precheck, CoupledAsDesigned, Submit, Sound, Strands, Spares,
         Crewed, Formed, Recorded;
    var v := StepVerdict(s, e, p);
    if v.Commit? {
      if e.command.SubmitOrder? {
        SubmissionDecided(s, e, p, v);
        SameRow(s.db, p);
        SubmitDraftQuiet(TripOf(s.db, p), e.command.who, e.now, e.command.route);
      }
      StepKeeps(s, e);
      SoundOf(s, p);
      SoundOf(Step(s, e), p);
      SoundParts(TripOf(s.db, p), s.clock);
      SoundParts(v.trip, Step(s, e).clock);
      QuietStaysDesigned(TripOf(s.db, p), v);
    }
  }

  // For one order, whatever the others are in: its coupling ends exactly when it is resubmitted.
  lemma OrderBreaksExactly(s: State, e: Event, p: Id)
    requires Inv(s) && Enabled(s, e) && p in s.db.orders && CoupledAsDesigned(TripOf(s.db, p))
    ensures p in Step(s, e).db.orders
    ensures CoupledAsDesigned(TripOf(Step(s, e).db, p)) <==> !(Resubmits(s.db, e) && e.command.order == p)
  {
    hide Inv, Enabled, Step, TripOf, Permissions.MaySubmit, CoupledAsDesigned;
    if Resubmits(s.db, e) && e.command.order == p { ResubmissionBreaks(s, e); } else { StepStaysDesigned(s, e, p); }
  }

  lemma NewOrdersDesigned(s: State, e: Event, p: Id)
    requires Inv(s) && Enabled(s, e) && p !in s.db.orders && p in Step(s, e).db.orders
    ensures CoupledAsDesigned(TripOf(Step(s, e).db, p)) && !Resubmitted(TripOf(Step(s, e).db, p))
  {
    hide Inv, Enabled, Step, TripOf, CoupledAsDesigned;
    NewOrders(s, e, p);
    NoRowsIsDesigned(TripOf(Step(s, e).db, p));
  }

  lemma NoRowsIsDesigned(t: Trip)
    requires t.order.status == Draft && t.order.driver.None? && t.assignments == map[] && t.history == []
    ensures CoupledAsDesigned(t) && !Resubmitted(t)
  {
  }

  // From a coupling as designed, a step breaks it exactly when it resubmits an assigned order.
  lemma CouplingBreaksExactly(s: State, e: Event)
    requires Inv(s) && Enabled(s, e) && AsDesigned(s.db)
    ensures AsDesigned(Step(s, e).db) <==> !Resubmits(s.db, e)
  {
    hide Inv, Enabled, Step, TripOf, CoupledAsDesigned, Permissions.MaySubmit;
    if Resubmits(s.db, e) {
      ResubmissionBreaks(s, e);
    } else {
      forall p | p in Step(s, e).db.orders ensures CoupledAsDesigned(TripOf(Step(s, e).db, p)) {
        if p in s.db.orders { StepStaysDesigned(s, e, p); } else { NewOrdersDesigned(s, e, p); }
      }
    }
  }

  // And no other step writes a resubmission into a log.
  lemma LogsStayClear(s: State, e: Event)
    requires Inv(s) && Enabled(s, e) && NeverResubmitted(s.db) && !Resubmits(s.db, e)
    ensures NeverResubmitted(Step(s, e).db)
  {
    hide Inv, Enabled, Step, TripOf, CoupledAsDesigned, Resubmitted, Resubmits;
    forall p | p in Step(s, e).db.orders ensures !Resubmitted(TripOf(Step(s, e).db, p)) {
      if p in s.db.orders { StepStaysUnsubmitted(s, e, p); } else { NewOrdersDesigned(s, e, p); }
    }
  }

  ghost predicate Resubmitting(s: State, events: seq<Event>)
    decreases |events|
  {
    events != [] && (Resubmits(s.db, events[0]) || Resubmitting(Step(s, events[0]), events[1..]))
  }

  // Without such a step the coupling stays as designed through every run.
  lemma {:induction false} CoupledUnlessResubmitted(s: State, events: seq<Event>)
    requires Inv(s) && AsDesigned(s.db) && Legal(s, events) && !Resubmitting(s, events)
    ensures AsDesigned(Run(s, events).db)
    decreases |events|
  {
    hide Inv, Enabled, Step, Resubmits, AsDesigned;
    if events != [] {
      StepKeeps(s, events[0]);
      CouplingBreaksExactly(s, events[0]);
      CoupledUnlessResubmitted(Step(s, events[0]), events[1..]);
    }
  }

  // ---- A loaded order resubmitted is stranded ------------------------------------------------------

  lemma SubmitLoadedStrands(t: Trip, who: Actor, now: Time, route: Option<Route>, a: Id)
    requires OneOpen(t) && Filed(t) && t.order.status == Assigned && Submit(t, who, now, route).Commit?
    requires a in t.assignments && t.assignments[a].status == Accepted && Effective(t, a)
    ensures Stranded(Submit(t, who, now, route).trip, a)
  {
    assert Performed(t, Load, Some(a));
  }

  lemma SubmissionStrands(s: State, e: Event, a: Id)
    requires Inv(s) && Enabled(s, e) && Resubmits(s.db, e)
    requires var t := TripOf(s.db, e.command.order);
             a in t.assignments && t.assignments[a].status == Accepted && Effective(t, a)
    ensures e.command.order in Step(s, e).db.orders && Stranded(TripOf(Step(s, e).db, e.command.order), a)
  {
    hide Inv, Enabled, Submit, TripOf, Precheck, Decide, Target, Sound, Crewed, Formed, Recorded, Execute, Stranded, Effective;
    var o := e.command.order;
    ResubmissionDecided(s, e);
    OtherOrdersStay(s, e, o, o);
    SoundOf(s, o);
    SameRow(s.db, o);
    LoadFacts(TripOf(s.db, o), s.clock);
    SubmitLoadedStrands(TripOf(s.db, o), e.command.who, e.now, e.command.route, a);
    StepKeepsOrders(s, e);
    SettledStep(s, e, o);
  }

  lemma LoadFacts(t: Trip, clock: Time)
    requires Sound(t, clock)
    ensures OneOpen(t) && Filed(t)
  {
    hide Formed, OneOpen, Filed, Held, Strict, Resubmitted, LoadsHeld, UnloadsHeld, LoadedToStart, Accounted, Custody, Logged;
  }

  // No command ever moves such an order again: it can be neither started nor unloaded, cancelled,
  // reassigned or returned.
  lemma {:induction false} StrandedForever(s: State, events: seq<Event>, o: Id, a: Id)
    requires Inv(s) && Legal(s, events) && o in s.db.orders && Stranded(TripOf(s.db, o), a)
    ensures o in Run(s, events).db.orders && Stranded(TripOf(Run(s, events).db, o), a)
    decreases |events|
  {
    hide Inv, Enabled, Step, TripOf, Stranded, Decide, Target, Precheck, Quiet;
    if events != [] {
      StepKeeps(s, events[0]);
      var v := StepVerdict(s, events[0], o);
      StrandedForever(Step(s, events[0]), events[1..], o, a);
    }
  }
}
