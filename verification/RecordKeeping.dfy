// Warehouse operations, incidents, receipts and invitations keep a sound trip sound.
module RecordKeeping {
  import opened Model
  import opened Eligibility
  import opened Trips
  import opened Soundness
  import opened Frames
  import opened Preservation

  // ---- A journal row and the incident its count calls for ---------------------------------------

  // When operation k may be recorded, as its guards and the invariants give it.
  ghost predicate Recordable(t: Trip, k: OpKey) {
    && k.order == t.order.id && k !in t.operations && k.assignment.Some? == NeedsAssignment(k.kind)
    && match k.kind
       case Receive => t.order.status == Ready || t.order.status == Assigned
       case ReturnToSender => t.order.status == Cancelled && Performed(t, Receive, None)
       case Load =>
         t.order.status == Assigned && Performed(t, Receive, None)
         && k.assignment.value in t.assignments && t.assignments[k.assignment.value].status == Accepted
       case UndoLoad =>
         t.order.status == Assigned && Effective(t, k.assignment.value)
         && k.assignment.value in t.assignments && t.assignments[k.assignment.value].status == Accepted
       case Unload =>
         t.order.status == Arrived
         && k.assignment.value in t.assignments && t.assignments[k.assignment.value].status == Active
  }

  ghost predicate Enters(t: Trip, u: Trip, k: OpKey, op: Operation, incident: Id, row: Incident) {
    var expected := ExpectedBy(t, k.kind, k.assignment);
    && Recordable(t, k) && Some(op.warehouse) == Site(t.order, k.kind)
    && (forall l :: l in t.operations ==> t.operations[l].id != op.id)
    && u.operations == t.operations[k := op]
    && u.receipt == t.receipt && u.handovers == t.handovers
    && u.order.id == t.order.id && u.order.declared == t.order.declared
    && (if expected.None? || expected.value == op.packages then u.incidents == t.incidents
        else incident !in t.incidents && u.incidents == t.incidents[incident := row]
             && row.cause == OfOperation(op.id) && row.kind == QuantityDiscrepancy && row.open && row.order == t.order.id
             && NamesOwn(t, row.assignment)
             && row.expected == expected && row.actual == Some(op.packages))
  }

  // What the rows already in the journal are compared with does not move.
  lemma ComparisonStays(t: Trip, k: OpKey, op: Operation, l: OpKey)
    requires Owned(t) && Filed(t) && LoadsHeld(t) && UnloadsHeld(t) && Recordable(t, k) && l in t.operations
    ensures ExpectedIn(t.operations[k := op], t.order.id, t.order.declared, l.kind, l.assignment)
            == ExpectedIn(t.operations, t.order.id, t.order.declared, l.kind, l.assignment)
  {
    assert l == OpKey(t.order.id, l.kind, l.assignment);
    match l.kind
    case Receive =>
    case ReturnToSender => assert Performed(t, ReturnToSender, None);
    case Load => assert Performed(t, Load, Some(l.assignment.value));
    case UndoLoad => assert Performed(t, UndoLoad, Some(l.assignment.value));
    case Unload =>
      assert Performed(t, Unload, Some(l.assignment.value));
      assert OneEffective(t.operations, t.order.id) by {
        forall a, b | EffectiveIn(t.operations, t.order.id, a) && EffectiveIn(t.operations, t.order.id, b) ensures a == b {
          assert Effective(t, a) && Effective(t, b);
        }
      }
      LatestLoadStays(t.operations, t.order.id, k, op);
  }

  // The new row is compared with what was read before it was inserted.
  lemma ComparisonOfNew(t: Trip, k: OpKey, op: Operation)
    requires LoadsHeld(t) && Recordable(t, k)
    ensures ExpectedIn(t.operations[k := op], t.order.id, t.order.declared, k.kind, k.assignment)
            == ExpectedBy(t, k.kind, k.assignment)
  {
    if k.kind == Unload {
      assert OneEffective(t.operations, t.order.id) by {
        forall a, b | EffectiveIn(t.operations, t.order.id, a) && EffectiveIn(t.operations, t.order.id, b) ensures a == b {
          assert Effective(t, a) && Effective(t, b);
        }
      }
      LatestLoadStays(t.operations, t.order.id, k, op);
    }
  }

  lemma NewRowNoted(t: Trip, u: Trip, k: OpKey, op: Operation, incident: Id, row: Incident)
    requires Enters(t, u, k, op, incident, row)
    requires JournalAccounted(t.operations, t.order.id, t.order.declared, t.incidents)
    ensures ShortfallNoted(u.incidents, OfOperation(op.id), ExpectedBy(t, k.kind, k.assignment), op.packages)
  {
    assert forall i :: i in t.incidents ==> t.incidents[i].cause != OfOperation(op.id);
    var expected := ExpectedBy(t, k.kind, k.assignment);
    if expected.Some? && expected.value != op.packages { assert u.incidents[incident] == row; }
  }

  lemma OldRowNoted(t: Trip, u: Trip, k: OpKey, op: Operation, incident: Id, row: Incident, cause: Cause, expected: Option<nat>, actual: nat)
    requires Enters(t, u, k, op, incident, row)
    requires ShortfallNoted(t.incidents, cause, expected, actual) && cause != OfOperation(op.id)
    ensures ShortfallNoted(u.incidents, cause, expected, actual)
  {
    hide ShortfallNoted;
    if u.incidents != t.incidents { NotedStill(t.incidents, incident, row, cause, expected, actual); }
  }

  lemma EntryRowNoted(t: Trip, u: Trip, k: OpKey, op: Operation, incident: Id, row: Incident, l: OpKey)
    requires Enters(t, u, k, op, incident, row) && l in u.operations
    requires Owned(t) && Journalled(t) && JournalAccounted(t.operations, t.order.id, t.order.declared, t.incidents)
    ensures ShortfallNoted(u.incidents, OfOperation(u.operations[l].id),
                           ExpectedIn(u.operations, u.order.id, u.order.declared, l.kind, l.assignment), u.operations[l].packages)
  {
    hide Owned, Filed, LoadsHeld, UnloadsHeld, LoadedToStart, ShortfallNoted;
    if l == k {
      ComparisonOfNew(t, k, op);
      NewRowNoted(t, u, k, op, incident, row);
    } else {
      ComparisonStays(t, k, op, l);
      OldRowNoted(t, u, k, op, incident, row, OfOperation(t.operations[l].id),
                  ExpectedIn(t.operations, t.order.id, t.order.declared, l.kind, l.assignment), t.operations[l].packages);
    }
  }

  lemma EntryAccounted(t: Trip, u: Trip, k: OpKey, op: Operation, incident: Id, row: Incident)
    requires Enters(t, u, k, op, incident, row)
    requires Owned(t) && Journalled(t) && JournalAccounted(t.operations, t.order.id, t.order.declared, t.incidents)
    ensures JournalAccounted(u.operations, u.order.id, u.order.declared, u.incidents)
  {
    hide Owned, Journalled, ShortfallNoted;
    forall l | l in u.operations
      ensures ShortfallNoted(u.incidents, OfOperation(u.operations[l].id),
                             ExpectedIn(u.operations, u.order.id, u.order.declared, l.kind, l.assignment), u.operations[l].packages)
    {
      EntryRowNoted(t, u, k, op, incident, row, l);
    }
    assert u.operations[k].id == op.id;
    forall i | i in u.incidents && u.incidents[i].cause.OfOperation?
      ensures exists l :: l in u.operations && u.operations[l].id == u.incidents[i].cause.operation
    {
      if i in t.incidents && u.incidents[i] == t.incidents[i] {
        var l :| l in t.operations && t.operations[l].id == t.incidents[i].cause.operation;
        assert l in u.operations && u.operations[l] == t.operations[l];
      }
    }
  }

  // The receipt comes after the last load can change.
  lemma EntryKeepsReceipt(t: Trip, u: Trip, k: OpKey, op: Operation, incident: Id, row: Incident)
    requires Enters(t, u, k, op, incident, row) && u.order.destination == t.order.destination
    requires ReceiptAccounted(t) && Proven(t) && LoadsHeld(t)
    ensures ReceiptAccounted(u)
  {
    if t.receipt.Some? {
      assert k.kind != Load && k.kind != UndoLoad;
      assert OneEffective(t.operations, t.order.id) by {
        forall a, b | EffectiveIn(t.operations, t.order.id, a) && EffectiveIn(t.operations, t.order.id, b) ensures a == b {
          assert Effective(t, a) && Effective(t, b);
        }
      }
      LatestLoadStays(t.operations, t.order.id, k, op);
      OldRowNoted(t, u, k, op, incident, row, OfReceipt, ExpectedAtReceipt(t), t.receipt.value.packages);
    }
  }

  lemma EntryRecord(t: Trip, u: Trip, k: OpKey, op: Operation, incident: Id, row: Incident)
    requires Enters(t, u, k, op, incident, row) && u.order.destination == t.order.destination
    requires Owned(t) && Proven(t) && Journalled(t) && Accounted(t)
    ensures Accounted(u)
  {
    hide Owned, Proven, Filed, LoadsHeld, UnloadsHeld, ReceiptAccounted, JournalAccounted, ShortfallNoted;
    assert Resolutions(u.incidents);
    EntryAccounted(t, u, k, op, incident, row);
    EntryKeepsReceipt(t, u, k, op, incident, row);
  }

  // ---- Every operation but undo_load: the crew stays ------------------------------------------------

  ghost predicate Performs(t: Trip, u: Trip, k: OpKey, op: Operation, incident: Id, row: Incident) {
    Enters(t, u, k, op, incident, row) && SameCrew(t, u) && k.kind != UndoLoad
  }

  lemma PerformFiled(t: Trip, u: Trip, k: OpKey, op: Operation, incident: Id, row: Incident)
    requires Performs(t, u, k, op, incident, row) && Filed(t)
    ensures Filed(u)
  {
    forall a | Performed(u, Load, Some(a)) ensures Performed(u, Receive, None) {
      if k != KeyOf(t, Load, Some(a)) { assert Performed(t, Load, Some(a)); }
    }
  }

  lemma PerformLoads(t: Trip, u: Trip, k: OpKey, op: Operation, incident: Id, row: Incident)
    requires Performs(t, u, k, op, incident, row) && LoadsHeld(t) && OneOpen(t) && Stamped(t)
    ensures LoadsHeld(u)
  {
    forall b ensures Performed(u, UndoLoad, Some(b)) == Performed(t, UndoLoad, Some(b))
                     && (Performed(u, Load, Some(b)) <==> Performed(t, Load, Some(b)) || k == KeyOf(t, Load, Some(b)))
                     && (Effective(u, b) ==> Effective(t, b) || k == KeyOf(t, Load, Some(b)))
                     && (Effective(t, b) && k.kind == Load ==> b == k.assignment.value) {}
  }

  lemma PerformUnloads(t: Trip, u: Trip, k: OpKey, op: Operation, incident: Id, row: Incident)
    requires Performs(t, u, k, op, incident, row) && UnloadsHeld(t)
    ensures UnloadsHeld(u)
  {
    forall b ensures Performed(u, Unload, Some(b)) <==> Performed(t, Unload, Some(b)) || k == KeyOf(t, Unload, Some(b)) {}
  }

  lemma PerformStarted(t: Trip, u: Trip, k: OpKey, op: Operation, incident: Id, row: Incident)
    requires Performs(t, u, k, op, incident, row) && LoadedToStart(t)
    ensures LoadedToStart(u)
  {
    if t.order.startedAt.Some? && t.order.origin.Some? {
      var a :| Effective(t, a);
      assert Effective(u, a);
    }
  }

  lemma PerformJournal(t: Trip, u: Trip, k: OpKey, op: Operation, incident: Id, row: Incident)
    requires Performs(t, u, k, op, incident, row) && Journalled(t) && OneOpen(t) && Stamped(t)
    ensures Journalled(u)
  {
    hide Filed, OneOpen, Stamped, LoadsHeld, UnloadsHeld, LoadedToStart, Performs;
    PerformLoads(t, u, k, op, incident, row);
    PerformFiled(t, u, k, op, incident, row);
    PerformUnloads(t, u, k, op, incident, row);
    PerformStarted(t, u, k, op, incident, row);
  }

  lemma PerformForm(t: Trip, u: Trip, k: OpKey, op: Operation, incident: Id, row: Incident, clock: Time, now: Time)
    requires Performs(t, u, k, op, incident, row) && Formed(t, clock) && clock <= now
    ensures Formed(u, now)
  {
  }

  lemma PerformKeeps(t: Trip, u: Trip, k: OpKey, op: Operation, incident: Id, row: Incident, clock: Time, now: Time)
    requires Performs(t, u, k, op, incident, row) && Sound(t, clock) && clock <= now
    ensures Sound(u, now)
  {
    hide Stamped, Owned, Proven, Logged, Journalled, Accounted, Custody, OneOpen;
    assert Crewed(u) by { CrewFrame(t, u); }
    PerformForm(t, u, k, op, incident, row, clock, now);
    PerformJournal(t, u, k, op, incident, row);
    EntryRecord(t, u, k, op, incident, row);
    CustodyFrame(t, u);
  }

  // ---- undo_load: the journal row, the released assignment, the order ready again ----------------------

  ghost predicate Undoes(t: Trip, u: Trip, k: OpKey, op: Operation, incident: Id, row: Incident, actor: Id, now: Time) {
    && Enters(t, u, k, op, incident, row) && k.kind == UndoLoad
    && var a := k.assignment.value;
       && u.order == t.order.(status := Ready, driver := None, assignedAt := None)
       && u.assignments == t.assignments[a := ReleasedRow(t.assignments[a], LoadingUndone, now)]
       && u.history == t.history + [StatusChange(Assigned, Ready, actor, Some(Because(LoadingUndone)), now)]
  }

  lemma UndoCrew(t: Trip, u: Trip, k: OpKey, op: Operation, incident: Id, row: Incident, actor: Id, now: Time)
    requires Undoes(t, u, k, op, incident, row, actor, now) && Crewed(t)
    ensures Crewed(u)
  {
    if Resubmitted(t) { StillResubmitted(t, u); }
  }

  lemma UndoForm(t: Trip, u: Trip, k: OpKey, op: Operation, incident: Id, row: Incident, actor: Id, now: Time, clock: Time)
    requires Undoes(t, u, k, op, incident, row, actor, now) && Formed(t, clock) && clock <= now
    ensures Formed(u, now)
  {
  }

  lemma UndoFiled(t: Trip, u: Trip, k: OpKey, op: Operation, incident: Id, row: Incident, actor: Id, now: Time)
    requires Undoes(t, u, k, op, incident, row, actor, now) && Filed(t)
    ensures Filed(u)
  {
    forall b | Performed(u, Load, Some(b)) ensures Performed(u, Receive, None) { assert Performed(t, Load, Some(b)); }
  }

  lemma UndoLoads(t: Trip, u: Trip, k: OpKey, op: Operation, incident: Id, row: Incident, actor: Id, now: Time)
    requires Undoes(t, u, k, op, incident, row, actor, now) && LoadsHeld(t) && Stamped(t)
    ensures LoadsHeld(u)
  {
    var a := k.assignment.value;
    forall b ensures (Performed(u, UndoLoad, Some(b)) <==> Performed(t, UndoLoad, Some(b)) || b == a)
                     && Performed(u, Load, Some(b)) == Performed(t, Load, Some(b))
                     && (Effective(u, b) <==> Effective(t, b) && b != a) {}
  }

  lemma UndoUnloads(t: Trip, u: Trip, k: OpKey, op: Operation, incident: Id, row: Incident, actor: Id, now: Time)
    requires Undoes(t, u, k, op, incident, row, actor, now) && UnloadsHeld(t)
    ensures UnloadsHeld(u)
  {
    forall b ensures Performed(u, Unload, Some(b)) == Performed(t, Unload, Some(b)) {}
  }

  lemma UndoJournal(t: Trip, u: Trip, k: OpKey, op: Operation, incident: Id, row: Incident, actor: Id, now: Time)
    requires Undoes(t, u, k, op, incident, row, actor, now) && Journalled(t) && Stamped(t)
    ensures Journalled(u)
  {
    hide Filed, LoadsHeld, UnloadsHeld;
    UndoFiled(t, u, k, op, incident, row, actor, now);
    UndoLoads(t, u, k, op, incident, row, actor, now);
    UndoUnloads(t, u, k, op, incident, row, actor, now);
  }

  lemma UndoKeeps(t: Trip, u: Trip, k: OpKey, op: Operation, incident: Id, row: Incident, actor: Id, now: Time, clock: Time)
    requires Undoes(t, u, k, op, incident, row, actor, now) && Sound(t, clock) && clock <= now
    ensures Sound(u, now)
  {
    hide Owned, Proven, Logged, Journalled, Accounted, Custody, Coupled, Strict, Resubmitted;
    assert Crewed(u) by { UndoCrew(t, u, k, op, incident, row, actor, now); }
    UndoForm(t, u, k, op, incident, row, actor, now, clock);
    UndoJournal(t, u, k, op, incident, row, actor, now);
    EntryRecord(t, u, k, op, incident, row);
    CustodyFrame(t, u);
    LogStep(t.history, u.history[|t.history|]);
  }

  // ---- Reports and resolutions ------------------------------------------------------------------------

  ghost predicate Reports(t: Trip, u: Trip, id: Id, row: Incident) {
    && id !in t.incidents && row.cause == Reported && row.order == t.order.id && row.open && NamesOwn(t, row.assignment)
    && (t.order.status == Ready || t.order.status == Assigned || t.order.status == InTransit || t.order.status == Arrived)
    && u == t.(incidents := t.incidents[id := row])
  }

  lemma ReportAccounted(t: Trip, u: Trip, id: Id, row: Incident)
    requires Reports(t, u, id, row) && Accounted(t)
    ensures Accounted(u)
  {
    forall k | k in u.operations
      ensures ShortfallNoted(u.incidents, OfOperation(u.operations[k].id),
                             ExpectedIn(u.operations, u.order.id, u.order.declared, k.kind, k.assignment), u.operations[k].packages)
    {
      NotedStill(t.incidents, id, row, OfOperation(u.operations[k].id),
                 ExpectedIn(u.operations, u.order.id, u.order.declared, k.kind, k.assignment), u.operations[k].packages);
    }
    if t.receipt.Some? {
      NotedStill(t.incidents, id, row, OfReceipt, ExpectedAtReceipt(t), t.receipt.value.packages);
    }
  }

  ghost predicate Resolves(t: Trip, u: Trip, id: Id, row: Incident) {
    && id in t.incidents && t.incidents[id].open && !row.open
    && row.cause == t.incidents[id].cause && row.order == t.incidents[id].order && row.kind == t.incidents[id].kind
    && row.assignment == t.incidents[id].assignment
    && row.expected == t.incidents[id].expected && row.actual == t.incidents[id].actual
    && (row.kind == QuantityDiscrepancy ==> row.resolution == AcceptDiscrepancy)
    && u == t.(incidents := t.incidents[id := row])
  }

  lemma ResolveAccounted(t: Trip, u: Trip, id: Id, row: Incident)
    requires Resolves(t, u, id, row) && Accounted(t)
    ensures Accounted(u)
  {
    forall k | k in u.operations
      ensures ShortfallNoted(u.incidents, OfOperation(u.operations[k].id),
                             ExpectedIn(u.operations, u.order.id, u.order.declared, k.kind, k.assignment), u.operations[k].packages)
    {
      NotedAfterClosing(t.incidents, id, row, OfOperation(u.operations[k].id),
                        ExpectedIn(u.operations, u.order.id, u.order.declared, k.kind, k.assignment), u.operations[k].packages);
    }
    if t.receipt.Some? {
      NotedAfterClosing(t.incidents, id, row, OfReceipt, ExpectedAtReceipt(t), t.receipt.value.packages);
    }
    forall i | i in u.incidents && u.incidents[i].cause.OfOperation?
      ensures exists k :: k in u.operations && u.operations[k].id == u.incidents[i].cause.operation
    {
      assert i in t.incidents && t.incidents[i].cause == u.incidents[i].cause;
    }
  }

  lemma IncidentForm(t: Trip, u: Trip, id: Id, row: Incident, clock: Time, now: Time)
    requires Reports(t, u, id, row) || Resolves(t, u, id, row)
    requires Formed(t, clock) && clock <= now
    ensures Formed(u, now)
  {
  }

  lemma IncidentKeeps(t: Trip, u: Trip, id: Id, row: Incident, clock: Time, now: Time)
    requires Reports(t, u, id, row) || (Resolves(t, u, id, row) && t.order.status != Draft)
    requires Sound(t, clock) && clock <= now
    ensures Sound(u, now)
  {
    hide Stamped, Owned, Proven, Logged, Journalled, Accounted, Custody, OneOpen, StartedBy, OneInvitation;
    assert Crewed(u) by { CrewFrame(t, u); }
    IncidentForm(t, u, id, row, clock, now);
    if Reports(t, u, id, row) { ReportAccounted(t, u, id, row); } else { ResolveAccounted(t, u, id, row); }
    CustodyFrame(t, u);
    JournalFrame(t, u);
  }

  // ---- The delivery receipt ------------------------------------------------------------------------------

  ghost predicate Signs(t: Trip, u: Trip, receipt: Receipt, incident: Id, row: Incident) {
    var a := receipt.assignment;
    var expected := ExpectedAtReceipt(t);
    && t.receipt.None? && t.order.status == Arrived
    && a in t.assignments && t.assignments[a].status == Active
    && (t.order.destination.Some? ==>
          Performed(t, Unload, Some(a)) && t.operations[KeyOf(t, Unload, Some(a))].packages == receipt.packages)
    && SameCrew(t, u) && u.operations == t.operations && u.handovers == t.handovers && u.receipt == Some(receipt)
    && (if expected.None? || expected.value == receipt.packages then u.incidents == t.incidents
        else incident !in t.incidents && u.incidents == t.incidents[incident := row]
             && row.cause == OfReceipt && row.kind == QuantityDiscrepancy && row.open && row.order == t.order.id
             && NamesOwn(t, row.assignment)
             && row.expected == expected && row.actual == Some(receipt.packages))
  }

  lemma SignJournal(t: Trip, u: Trip, receipt: Receipt, incident: Id, row: Incident)
    requires Signs(t, u, receipt, incident, row) && JournalAccounted(t.operations, t.order.id, t.order.declared, t.incidents)
    ensures JournalAccounted(u.operations, u.order.id, u.order.declared, u.incidents)
  {
    forall k | k in u.operations
      ensures ShortfallNoted(u.incidents, OfOperation(u.operations[k].id),
                             ExpectedIn(u.operations, u.order.id, u.order.declared, k.kind, k.assignment), u.operations[k].packages)
    {
      if u.incidents != t.incidents {
        NotedStill(t.incidents, incident, row, OfOperation(u.operations[k].id),
                   ExpectedIn(u.operations, u.order.id, u.order.declared, k.kind, k.assignment), u.operations[k].packages);
      }
    }
  }

  lemma SignReceipt(t: Trip, u: Trip, receipt: Receipt, incident: Id, row: Incident)
    requires Signs(t, u, receipt, incident, row) && ReceiptAccounted(t) && Resolutions(t.incidents)
    ensures ReceiptAccounted(u) && Resolutions(u.incidents)
  {
    var expected := ExpectedAtReceipt(t);
    if expected.Some? && expected.value != receipt.packages { assert u.incidents[incident] == row; }
  }

  lemma SignForm(t: Trip, u: Trip, receipt: Receipt, incident: Id, row: Incident, clock: Time, now: Time)
    requires Signs(t, u, receipt, incident, row) && Formed(t, clock) && clock <= now
    ensures Formed(u, now)
  {
  }

  lemma SignKeeps(t: Trip, u: Trip, receipt: Receipt, incident: Id, row: Incident, clock: Time, now: Time)
    requires Signs(t, u, receipt, incident, row) && Sound(t, clock) && clock <= now
    ensures Sound(u, now)
  {
    hide Stamped, Owned, Proven, Logged, Journalled, Custody, OneOpen, StartedBy, OneInvitation;
    hide JournalAccounted, ReceiptAccounted, Resolutions;
    assert Crewed(u) by { CrewFrame(t, u); }
    SignForm(t, u, receipt, incident, row, clock, now);
    SignJournal(t, u, receipt, incident, row);
    SignReceipt(t, u, receipt, incident, row);
    CustodyFrame(t, u);
    JournalFrame(t, u);
  }

  // ---- Invitations -----------------------------------------------------------------------------------------

  // Any change to the invitations that leaves the completed handovers alone.
  ghost predicate Invites(t: Trip, u: Trip) {
    && t.order.status != Draft && u == t.(handovers := u.handovers)
    && SameCompletedHandovers(t, u) && OneInvitation(u)
    && (forall h :: h in u.handovers ==> u.handovers[h].order == t.order.id && u.handovers[h].previous in t.assignments)
  }

  lemma InvitationForm(t: Trip, u: Trip, clock: Time, now: Time)
    requires Invites(t, u) && Formed(t, clock) && clock <= now
    ensures Formed(u, now)
  {
  }

  lemma InvitationKeeps(t: Trip, u: Trip, clock: Time, now: Time)
    requires Invites(t, u) && Sound(t, clock) && clock <= now
    ensures Sound(u, now)
  {
    hide Stamped, Owned, Proven, Logged, Journalled, Accounted, Custody, OneOpen, StartedBy, OneInvitation;
    assert Crewed(u) by { CrewFrame(t, u); }
    InvitationForm(t, u, clock, now);
    CustodyFrame(t, u);
    JournalFrame(t, u);
    AccountFrame(t, u);
  }
}
