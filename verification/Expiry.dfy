// The sweep that closes overdue offers: page by page behind a cursor, whatever is busy meanwhile.
module Expiry {
  import opened Model
  import opened Trips
  import opened Soundness
  import opened Frames
  import opened Database
  import opened Core
  import opened CoreSafety
  import opened Guarantees
  import opened Effects
  import opened RowWrites
  import opened Paging
  import OrderService

  predicate IsDue(row: Assignment, now: Time) { row.status == Pending && row.offerExpiresAt <= now }

  // The query orders by offer_expires_at, id.
  function Due(rows: map<Id, Assignment>, now: Time): set<Key> {
    set a | a in rows && IsDue(rows[a], now) :: (rows[a].offerExpiresAt, a)
  }

  // ---- One attempt ---------------------------------------------------------------------------

  predicate Resourced(row: Assignment, fleet: Registry) { row.driver in fleet.drivers && row.vehicle in fleet.vehicles }

  // A busy offer's rows are locked by someone: nothing happens to it.
  ghost function Attempt(s: State, a: Id, now: Time, fleet: Registry, busy: set<Id>): State {
    if a in busy then s else Step(s, Event(now, fleet, ExpireAssignment(a)))
  }

  function Tried(rows: map<Id, Assignment>, a: Id, now: Time, fleet: Registry, busy: bool): map<Id, Assignment> {
    if !busy && a in rows && IsDue(rows[a], now) && Resourced(rows[a], fleet) then rows[a := rows[a].(status := Expired)] else rows
  }

  lemma ExpiryWrites(db: Tables, a: Id, now: Time, fleet: Registry)
    requires Constrained(db) && a in db.assignments
    ensures Settle(db, Expire(TripOf(db, db.assignments[a].order), a, now, fleet)).db.assignments
            == Tried(db.assignments, a, now, fleet, false)
  {
    hide Constrained, Save, TripOf;
    ReadAssignment(db, a);
    var o, row := db.assignments[a].order, db.assignments[a];
    if Resourced(row, fleet) {
      if IsDue(row, now) {
        SaveMove(db, o, Put(TripOf(db, o), a, row.(status := Expired)), {a}, a, row.(status := Expired));
      } else {
        SaveOrder(db, o, TripOf(db, o));
      }
    }
  }

  lemma ExpiryExecutes(db: Tables, a: Id, now: Time, fleet: Registry)
    requires a in db.assignments && db.assignments[a].order in db.orders
    ensures Execute(db, Event(now, fleet, ExpireAssignment(a)))
            == Settle(db, Expire(TripOf(db, db.assignments[a].order), a, now, fleet))
  {
    hide Settle, Expire, TripOf;
  }

  lemma AttemptWrites(s: State, a: Id, now: Time, fleet: Registry, busy: set<Id>)
    requires Inv(s) && s.clock <= now && a in s.db.assignments
    ensures var after := Attempt(s, a, now, fleet, busy);
            && Inv(after) && after.clock <= now
            && after.db.assignments == Tried(s.db.assignments, a, now, fleet, a in busy)
  {
    hide Inv, Execute, Settle, Expire, TripOf, Constrained, Save;
    if a !in busy {
      StepKeeps(s, Event(now, fleet, ExpireAssignment(a)));
      InvariantConstrains(s);
      ReadAssignment(s.db, a);
      ExpiryExecutes(s.db, a, now, fleet);
      ExpiryWrites(s.db, a, now, fleet);
    }
  }

  // ---- One sweep --------------------------------------------------------------------------------

  ghost function AttemptAll(s: State, keys: seq<Key>, now: Time, fleet: Registry, busy: set<Id>): State {
    if keys == [] then s
    else Attempt(AttemptAll(s, keys[..|keys| - 1], now, fleet, busy), keys[|keys| - 1].1, now, fleet, busy)
  }

  datatype Try = Try(key: Key, busy: bool)

  function Tries(keys: seq<Key>, busy: set<Id>): seq<Try> {
    seq(|keys|, i requires 0 <= i < |keys| => Try(keys[i], keys[i].1 in busy))
  }

  function KeysOf(tried: seq<Try>): seq<Key> {
    seq(|tried|, i requires 0 <= i < |tried| => tried[i].key)
  }

  // A sweep meets some busy offers and may be interrupted after some attempts.
  datatype Round = Round(busy: set<Id>, stop: nat)

  datatype Worker = Worker(state: State, cursor: Option<Key>, tried: seq<Try>)

  // Where the cursor stands after n attempts on a page.
  function NextCursor(page: seq<Key>, n: nat, cursor: Option<Key>, limit: nat): Option<Key>
    requires n <= |page|
  {
    if n == |page| && |page| < limit then None else if n == 0 then cursor else Some(page[n - 1])
  }

  ghost function SweepStep(w: Worker, r: Round, now: Time, fleet: Registry, limit: nat): Worker {
    KeysOrdered();
    var page := ThePage(Due(w.state.db.assignments, now), w.cursor, limit, KeyBefore);
    var n := Min(r.stop, |page|);
    Worker(AttemptAll(w.state, page[..n], now, fleet, r.busy), NextCursor(page, n, w.cursor, limit),
           w.tried + Tries(page[..n], r.busy))
  }

  ghost function Sweeps(w: Worker, rounds: seq<Round>, now: Time, fleet: Registry, limit: nat): Worker {
    if rounds == [] then w
    else SweepStep(Sweeps(w, rounds[..|rounds| - 1], now, fleet, limit), rounds[|rounds| - 1], now, fleet, limit)
  }

  // ---- A pass over a frozen set of due offers -------------------------------------------------------

  // The offers a list of attempts closes.
  function Closes(tried: seq<Try>, rows: map<Id, Assignment>, fleet: Registry): set<Id> {
    set i | 0 <= i < |tried| && !tried[i].busy && tried[i].key.1 in rows && Resourced(rows[tried[i].key.1], fleet) :: tried[i].key.1
  }

  function WithExpired(rows: map<Id, Assignment>, closed: set<Id>): map<Id, Assignment> {
    map a | a in rows :: if a in closed then rows[a].(status := Expired) else rows[a]
  }

  // After n attempts of a pass that began with rows: the first n due offers were tried, in order,
  // and those tried and not busy are expired.
  ghost predicate Kept(rows: map<Id, Assignment>, q: seq<Key>, s: State, tried: seq<Try>, now: Time, fleet: Registry) {
    && Inv(s) && s.clock <= now
    && |tried| <= |q| && KeysOf(tried) == q[..|tried|]
    && s.db.assignments == WithExpired(rows, Closes(tried, rows, fleet))
  }

  ghost predicate InPass(rows: map<Id, Assignment>, q: seq<Key>, now: Time) {
    Ascending(q, KeyBefore) && forall k :: k in q <==> k in Due(rows, now)
  }

  lemma DueKey(rows: map<Id, Assignment>, q: seq<Key>, now: Time, i: nat)
    requires InPass(rows, q, now) && i < |q|
    ensures q[i].1 in rows && IsDue(rows[q[i].1], now) && q[i].0 == rows[q[i].1].offerExpiresAt
  {
    assert q[i] in q;
  }

  // No offer is due under two keys.
  lemma DistinctOffers(rows: map<Id, Assignment>, q: seq<Key>, now: Time, i: nat, j: nat)
    requires InPass(rows, q, now) && i < |q| && j < |q| && q[i].1 == q[j].1
    ensures i == j
  {
    DueKey(rows, q, now, i);
    DueKey(rows, q, now, j);
    assert q[i] == q[j];
  }

  lemma NotYetClosed(rows: map<Id, Assignment>, q: seq<Key>, tried: seq<Try>, now: Time, fleet: Registry, i: nat)
    requires InPass(rows, q, now) && |tried| <= i < |q| && KeysOf(tried) == q[..|tried|]
    ensures q[i].1 !in Closes(tried, rows, fleet)
  {
    if q[i].1 in Closes(tried, rows, fleet) {
      var j :| 0 <= j < |tried| && tried[j].key.1 == q[i].1;
      assert KeysOf(tried)[j] == q[j];
      DistinctOffers(rows, q, now, i, j);
    }
  }

  lemma OneMoreTry(rows: map<Id, Assignment>, q: seq<Key>, tried: seq<Try>, now: Time, fleet: Registry, busy: bool)
    requires InPass(rows, q, now) && |tried| < |q| && KeysOf(tried) == q[..|tried|]
    ensures var a := q[|tried|].1;
            && a in rows && a in WithExpired(rows, Closes(tried, rows, fleet))
            && Tried(WithExpired(rows, Closes(tried, rows, fleet)), a, now, fleet, busy)
               == WithExpired(rows, Closes(tried + [Try(q[|tried|], busy)], rows, fleet))
            && KeysOf(tried + [Try(q[|tried|], busy)]) == q[..|tried| + 1]
  {
    var n := |tried|;
    var a, longer := q[n].1, tried + [Try(q[n], busy)];
    DueKey(rows, q, now, n);
    NotYetClosed(rows, q, tried, now, fleet, n);
    assert Closes(longer, rows, fleet)
        == Closes(tried, rows, fleet) + (if !busy && Resourced(rows[a], fleet) then {a} else {}) by {
      assert longer[n] == Try(q[n], busy);
      assert forall i :: 0 <= i < n ==> longer[i] == tried[i];
    }
  }

  lemma AttemptKeeps(rows: map<Id, Assignment>, q: seq<Key>, s: State, tried: seq<Try>, now: Time, fleet: Registry, busy: set<Id>)
    requires InPass(rows, q, now) && Kept(rows, q, s, tried, now, fleet) && |tried| < |q|
    ensures var k := q[|tried|];
            Kept(rows, q, Attempt(s, k.1, now, fleet, busy), tried + [Try(k, k.1 in busy)], now, fleet)
  {
    hide Inv, Attempt, InPass, Closes, WithExpired, Tried;
    OneMoreTry(rows, q, tried, now, fleet, q[|tried|].1 in busy);
    AttemptWrites(s, q[|tried|].1, now, fleet, busy);
  }

  lemma {:induction false} AttemptsKeep(rows: map<Id, Assignment>, q: seq<Key>, s: State, tried: seq<Try>, keys: seq<Key>,
                                        now: Time, fleet: Registry, busy: set<Id>)
    requires InPass(rows, q, now) && Kept(rows, q, s, tried, now, fleet)
    requires |tried| + |keys| <= |q| && keys == q[|tried|..|tried| + |keys|]
    ensures Kept(rows, q, AttemptAll(s, keys, now, fleet, busy), tried + Tries(keys, busy), now, fleet)
    decreases |keys|
  {
    hide Kept, InPass, Attempt;
    if keys == [] {
      assert tried + Tries(keys, busy) == tried;
    } else {
      var n := |keys| - 1;
      var sooner := keys[..n];
      assert sooner == q[|tried|..|tried| + n];
      AttemptsKeep(rows, q, s, tried, sooner, now, fleet, busy);
      AttemptKeeps(rows, q, AttemptAll(s, sooner, now, fleet, busy), tried + Tries(sooner, busy), now, fleet, busy);
      assert keys[n] == q[|tried| + n];
      assert tried + Tries(keys, busy) == tried + Tries(sooner, busy) + [Try(keys[n], keys[n].1 in busy)];
    }
  }

  // What is still due after n attempts: nothing new, and all that was not tried.
  lemma StillDue(rows: map<Id, Assignment>, q: seq<Key>, tried: seq<Try>, now: Time, fleet: Registry)
    requires InPass(rows, q, now) && |tried| <= |q| && KeysOf(tried) == q[..|tried|]
    ensures var left := Due(WithExpired(rows, Closes(tried, rows, fleet)), now);
            (forall k :: k in q[|tried|..] ==> k in left) && (forall k :: k in left ==> k in q)
  {
    var closed := Closes(tried, rows, fleet);
    var left := Due(WithExpired(rows, closed), now);
    forall k | k in q[|tried|..] ensures k in left {
      var i :| 0 <= i < |q[|tried|..]| && q[|tried|..][i] == k;
      assert k == q[|tried| + i];
      DueKey(rows, q, now, |tried| + i);
      NotYetClosed(rows, q, tried, now, fleet, |tried| + i);
      assert WithExpired(rows, closed)[k.1] == rows[k.1];
    }
    forall k | k in left ensures k in q { assert k in Due(rows, now); }
  }

  // A worker n attempts into its pass.
  ghost predicate Midway(rows: map<Id, Assignment>, q: seq<Key>, w: Worker, now: Time, fleet: Registry) {
    Kept(rows, q, w.state, w.tried, now, fleet) && w.cursor == CursorAt(q, |w.tried|)
  }

  // A worker whose pass is over: every due offer tried once, the cursor back at the start.
  ghost predicate Finished(rows: map<Id, Assignment>, q: seq<Key>, w: Worker, now: Time, fleet: Registry) {
    Kept(rows, q, w.state, w.tried, now, fleet) && |w.tried| == |q| && w.cursor.None?
  }

  lemma PageOfPass(rows: map<Id, Assignment>, q: seq<Key>, w: Worker, now: Time, fleet: Registry, limit: nat)
    requires InPass(rows, q, now) && Midway(rows, q, w, now, fleet)
    ensures TotalOrder(KeyBefore)
    ensures ThePage(Due(w.state.db.assignments, now), w.cursor, limit, KeyBefore) == q[|w.tried|..Min(|w.tried| + limit, |q|)]
  {
    hide Inv, Closes, TotalOrder, ThePage, IsPage;
    KeysOrdered();
    StillDue(rows, q, w.tried, now, fleet);
    ThePageIsPage(Due(w.state.db.assignments, now), w.cursor, limit, KeyBefore);
    PageIsNext(ThePage(Due(w.state.db.assignments, now), w.cursor, limit, KeyBefore), q, Due(w.state.db.assignments, now), |w.tried|, limit, KeyBefore);
  }

  // A sweep tries the next stretch of the pass, and ends the pass exactly when its page is short
  // and nothing interrupts it.
  lemma SweepAdvances(rows: map<Id, Assignment>, q: seq<Key>, w: Worker, r: Round, now: Time, fleet: Registry, limit: nat)
    requires InPass(rows, q, now) && Midway(rows, q, w, now, fleet) && limit > 0
    ensures var after := SweepStep(w, r, now, fleet, limit);
            var page := Min(limit, |q| - |w.tried|);
            && |after.tried| == |w.tried| + Min(r.stop, page)
            && w.tried <= after.tried
            && if r.stop >= page && page < limit then Finished(rows, q, after, now, fleet) else Midway(rows, q, after, now, fleet)
  {
    hide Kept, InPass, AttemptAll, ThePage, Due, TotalOrder, IsPage;
    var n := |w.tried|;
    KeptLength(rows, q, w.state, w.tried, now, fleet);
    PageOfPass(rows, q, w, now, fleet, limit);
    var page := q[n..Min(n + limit, |q|)];
    var m := Min(r.stop, |page|);
    SliceOfSlice(q, n, Min(n + limit, |q|), m);
    AttemptsKeep(rows, q, w.state, w.tried, page[..m], now, fleet, r.busy);
  }

  lemma KeptLength(rows: map<Id, Assignment>, q: seq<Key>, s: State, tried: seq<Try>, now: Time, fleet: Registry)
    requires Kept(rows, q, s, tried, now, fleet)
    ensures |tried| <= |q|
  {
    hide Inv;
  }

  ghost predicate Uninterrupted(rounds: seq<Round>, limit: nat) {
    forall i :: 0 <= i < |rounds| ==> rounds[i].stop >= limit
  }

  // A pass starts with the cursor at the start of a due set that nobody else changes.
  ghost predicate Starting(w: Worker, q: seq<Key>, now: Time) {
    Inv(w.state) && w.state.clock <= now && w.cursor.None? && w.tried == [] && InPass(w.state.db.assignments, q, now)
  }

  lemma StartIsMidway(w: Worker, q: seq<Key>, now: Time, fleet: Registry)
    requires Starting(w, q, now)
    ensures Midway(w.state.db.assignments, q, w, now, fleet)
  {
    hide Inv, InPass;
    assert WithExpired(w.state.db.assignments, Closes(w.tried, w.state.db.assignments, fleet)) == w.state.db.assignments;
  }

  // Each full sweep but the last tries `limit` offers and leaves the cursor behind them.
  lemma {:induction false} FullSweeps(w: Worker, q: seq<Key>, rounds: seq<Round>, now: Time, fleet: Registry, limit: nat)
    requires Starting(w, q, now) && limit > 0 && Uninterrupted(rounds, limit) && |rounds| * limit <= |q|
    ensures var after := Sweeps(w, rounds, now, fleet, limit);
            Midway(w.state.db.assignments, q, after, now, fleet) && |after.tried| == |rounds| * limit
    decreases |rounds|
  {
    hide Starting, Midway, SweepStep, InPass;
    if rounds == [] {
      StartIsMidway(w, q, now, fleet);
      assert |w.tried| == 0 by { hide Inv, InPass; StartTried(w, q, now); }
    } else {
      var k := |rounds| - 1;
      assert k * limit + limit == |rounds| * limit;
      FullSweeps(w, q, rounds[..k], now, fleet, limit);
      StartPass(w, q, now);
      SweepAdvances(w.state.db.assignments, q, Sweeps(w, rounds[..k], now, fleet, limit), rounds[k], now, fleet, limit);
    }
  }

  lemma StartTried(w: Worker, q: seq<Key>, now: Time)
    requires Starting(w, q, now)
    ensures w.tried == []
  {
    hide Inv, InPass;
  }

  lemma StartPass(w: Worker, q: seq<Key>, now: Time)
    requires Starting(w, q, now)
    ensures InPass(w.state.db.assignments, q, now)
  {
    hide Inv, InPass;
  }

  // floor(N/B)+1 sweeps try each of the N due offers exactly once and bring the cursor back, and no
  // fewer do; what was busy each time is up to an adversary.
  lemma FairSweeps(w: Worker, q: seq<Key>, rounds: seq<Round>, now: Time, fleet: Registry, limit: nat)
    requires Starting(w, q, now) && limit > 0 && Uninterrupted(rounds, limit) && |rounds| == |q| / limit + 1
    ensures Finished(w.state.db.assignments, q, Sweeps(w, rounds, now, fleet, limit), now, fleet)
    ensures forall k :: 0 < k < |rounds| ==> Sweeps(w, rounds[..k], now, fleet, limit).cursor.Some?
  {
    hide Starting, SweepStep, InPass, Kept, Finished, Sweeps;
    var last := |rounds| - 1;
    assert last * limit <= |q| < last * limit + limit;
    FullSweeps(w, q, rounds[..last], now, fleet, limit);
    StartPass(w, q, now);
    SweepAdvances(w.state.db.assignments, q, Sweeps(w, rounds[..last], now, fleet, limit), rounds[last], now, fleet, limit);
    OneMoreSweep(w, rounds, now, fleet, limit);
    forall k | 0 < k < |rounds| ensures Sweeps(w, rounds[..k], now, fleet, limit).cursor.Some? {
      NotYetThrough(w, q, rounds[..k], now, fleet, limit, last);
    }
  }

  lemma NotYetThrough(w: Worker, q: seq<Key>, rounds: seq<Round>, now: Time, fleet: Registry, limit: nat, last: nat)
    requires Starting(w, q, now) && limit > 0 && Uninterrupted(rounds, limit) && 0 < |rounds| <= last && last * limit <= |q|
    ensures Sweeps(w, rounds, now, fleet, limit).cursor.Some?
  {
    hide Starting, SweepStep, InPass, Kept, Sweeps;
    assert |rounds| * limit <= last * limit;
    assert |rounds| * limit > 0;
    FullSweeps(w, q, rounds, now, fleet, limit);
  }

  lemma OneMoreSweep(w: Worker, rounds: seq<Round>, now: Time, fleet: Registry, limit: nat)
    requires rounds != []
    ensures Sweeps(w, rounds, now, fleet, limit)
            == SweepStep(Sweeps(w, rounds[..|rounds| - 1], now, fleet, limit), rounds[|rounds| - 1], now, fleet, limit)
  {
    hide SweepStep;
  }

  // However sweeps are cut short, the pass is a prefix of the due offers until it is finished:
  // none is skipped and none is tried twice.
  lemma {:induction false} InterruptedSweeps(w: Worker, q: seq<Key>, rounds: seq<Round>, now: Time, fleet: Registry, limit: nat)
    requires Starting(w, q, now) && limit > 0
    ensures Midway(w.state.db.assignments, q, Sweeps(w, rounds, now, fleet, limit), now, fleet)
            || exists k :: 0 < k <= |rounds|
                 && Finished(w.state.db.assignments, q, Sweeps(w, rounds[..k], now, fleet, limit), now, fleet)
    decreases |rounds|
  {
    hide Starting, SweepStep, InPass, Midway, Finished, Sweeps;
    if rounds == [] {
      StartIsMidway(w, q, now, fleet);
      NoSweeps(w, now, fleet, limit);
    } else {
      var n := |rounds| - 1;
      InterruptedSweeps(w, q, rounds[..n], now, fleet, limit);
      if Midway(w.state.db.assignments, q, Sweeps(w, rounds[..n], now, fleet, limit), now, fleet) {
        StartPass(w, q, now);
        SweepAdvances(w.state.db.assignments, q, Sweeps(w, rounds[..n], now, fleet, limit), rounds[n], now, fleet, limit);
        OneMoreSweep(w, rounds, now, fleet, limit);
        assert rounds[..|rounds|] == rounds;
      } else {
        var k :| 0 < k <= n && Finished(w.state.db.assignments, q, Sweeps(w, rounds[..n][..k], now, fleet, limit), now, fleet);
        assert rounds[..n][..k] == rounds[..k];
      }
    }
  }

  lemma NoSweeps(w: Worker, now: Time, fleet: Registry, limit: nat)
    ensures Sweeps(w, [], now, fleet, limit) == w
  {
    hide SweepStep;
  }

  // What a finished pass has done: tried the due offers in order, expired those it found free, and
  // left every other row as it was.
  lemma FinishedPass(rows: map<Id, Assignment>, q: seq<Key>, w: Worker, now: Time, fleet: Registry)
    requires InPass(rows, q, now) && Finished(rows, q, w, now, fleet)
    ensures KeysOf(w.tried) == q && w.state.db.assignments.Keys == rows.Keys
    ensures forall a :: a in rows ==>
              var free := exists i :: 0 <= i < |w.tried| && w.tried[i].key.1 == a && !w.tried[i].busy;
              w.state.db.assignments[a]
              == if IsDue(rows[a], now) && Resourced(rows[a], fleet) && free then rows[a].(status := Expired) else rows[a]
  {
    hide Inv;
    assert q[..|w.tried|] == q;
    forall i | 0 <= i < |w.tried| ensures w.tried[i].key.1 in rows && IsDue(rows[w.tried[i].key.1], now) {
      assert KeysOf(w.tried)[i] == q[i];
      DueKey(rows, q, now, i);
    }
  }

  lemma AttemptNext(s: State, keys: seq<Key>, i: nat, now: Time, fleet: Registry, busy: set<Id>)
    requires i < |keys|
    ensures AttemptAll(s, keys[..i + 1], now, fleet, busy)
            == Attempt(AttemptAll(s, keys[..i], now, fleet, busy), keys[i].1, now, fleet, busy)
    ensures Tries(keys[..i + 1], busy) == Tries(keys[..i], busy) + [Try(keys[i], keys[i].1 in busy)]
  {
    hide Attempt;
    assert keys[..i + 1][..i] == keys[..i];
  }

  // ---- Overdue offers expire --------------------------------------------------------------------------

  predicate NeverBusy(rounds: seq<Round>, a: Id) { forall i :: 0 <= i < |rounds| ==> a !in rounds[i].busy }

  ghost predicate TriedFree(tried: seq<Try>, a: Id) { forall i :: 0 <= i < |tried| && tried[i].key.1 == a ==> !tried[i].busy }

  lemma {:induction false} SweepsTryFree(w: Worker, rounds: seq<Round>, now: Time, fleet: Registry, limit: nat, a: Id)
    requires NeverBusy(rounds, a) && TriedFree(w.tried, a)
    ensures TriedFree(Sweeps(w, rounds, now, fleet, limit).tried, a)
    decreases |rounds|
  {
    hide AttemptAll, ThePage, Due;
    if rounds != [] { SweepsTryFree(w, rounds[..|rounds| - 1], now, fleet, limit, a); }
  }

  // An offer nobody has answered and whose time is up.
  predicate Overdue(row: Assignment, now: Time) { row.status == Pending && row.offerExpiresAt <= now }

  function OverdueIn(rows: map<Id, Assignment>, now: Time): set<Id> { set a | a in rows && Overdue(rows[a], now) }

  lemma DueCount(rows: map<Id, Assignment>, now: Time)
    ensures |Due(rows, now)| == |OverdueIn(rows, now)|
  {
    SameSize(Due(rows, now), OverdueIn(rows, now), rows);
  }

  lemma {:induction false} SameSize(keys: set<Key>, ids: set<Id>, rows: map<Id, Assignment>)
    requires forall k :: k in keys ==> k.1 in ids && k.1 in rows && k.0 == rows[k.1].offerExpiresAt
    requires forall a :: a in ids ==> a in rows && (rows[a].offerExpiresAt, a) in keys
    ensures |keys| == |ids|
    decreases ids
  {
    if ids != {} {
      var a :| a in ids;
      SameSize(keys - {(rows[a].offerExpiresAt, a)}, ids - {a}, rows);
    } else if k :| k in keys {
      assert false;
    }
  }

  // With N offers overdue, floor(N/B)+1 sweeps expire every one of them whose driver and vehicle are
  // known and that was never busy; one that was may stay as it is; every other row stays for sure.
  lemma OverdueOffersExpire(w: Worker, rounds: seq<Round>, now: Time, fleet: Registry, limit: nat, a: Id)
    requires Inv(w.state) && w.state.clock <= now && w.cursor.None? && w.tried == [] && limit > 0 && Uninterrupted(rounds, limit)
    requires var rows := w.state.db.assignments;
             a in rows && |rounds| == |OverdueIn(rows, now)| / limit + 1
    ensures var row, rows := w.state.db.assignments[a], Sweeps(w, rounds, now, fleet, limit).state.db.assignments;
            && a in rows
            && (!Overdue(row, now) ==> rows[a] == row)
            && (Overdue(row, now) && Resourced(row, fleet) && NeverBusy(rounds, a) ==> rows[a] == row.(status := Expired))
            && (rows[a] == row || rows[a] == row.(status := Expired))
  {
    hide Inv, Sweeps, Finished, Due;
    var rows := w.state.db.assignments;
    KeysOrdered();
    var q := Sorted(Due(rows, now), KeyBefore);
    DueCount(rows, now);
    StartsSorted(w, q, now);
    FairSweeps(w, q, rounds, now, fleet, limit);
    StartPass(w, q, now);
    var end := Sweeps(w, rounds, now, fleet, limit);
    FinishedPass(rows, q, end, now, fleet);
    if NeverBusy(rounds, a) { SweepsTryFree(w, rounds, now, fleet, limit, a); }
    if Overdue(rows[a], now) { TriedSomewhere(rows, q, end, now, a); }
  }

  lemma StartsSorted(w: Worker, q: seq<Key>, now: Time)
    requires TotalOrder(KeyBefore) && q == Sorted(Due(w.state.db.assignments, now), KeyBefore)
    requires Inv(w.state) && w.state.clock <= now && w.cursor.None? && w.tried == []
    ensures Starting(w, q, now) && |q| == |Due(w.state.db.assignments, now)|
  {
    hide Inv, Due;
  }

  lemma TriedSomewhere(rows: map<Id, Assignment>, q: seq<Key>, w: Worker, now: Time, a: Id)
    requires InPass(rows, q, now) && KeysOf(w.tried) == q && a in rows && IsDue(rows[a], now)
    ensures exists i :: 0 <= i < |w.tried| && w.tried[i].key.1 == a
  {
    var k := (rows[a].offerExpiresAt, a);
    assert k in Due(rows, now) && k in q;
    var i :| 0 <= i < |q| && q[i] == k;
    assert KeysOf(w.tried)[i] == k;
  }

  // ---- Sweeps among other commands, while the clock goes on ---------------------------------------------

  // What others do before a sweep, and the sweep.
  datatype Watch = Watch(others: seq<Event>, now: Time, fleet: Registry, busy: set<Id>)

  ghost function WatchStep(w: Worker, p: Watch, limit: nat): Worker {
    SweepStep(w.(state := Run(w.state, p.others)), Round(p.busy, limit), p.now, p.fleet, limit)
  }

  ghost function Watches(w: Worker, watches: seq<Watch>, limit: nat): Worker {
    if watches == [] then w
    else WatchStep(Watches(w, watches[..|watches| - 1], limit), watches[|watches| - 1], limit)
  }

  ghost predicate Timely(w: Worker, p: Watch) {
    Legal(w.state, p.others) && Run(w.state, p.others).clock <= p.now
  }

  ghost predicate AllTimely(w: Worker, watches: seq<Watch>, limit: nat) {
    watches == [] || (AllTimely(w, watches[..|watches| - 1], limit)
                      && Timely(Watches(w, watches[..|watches| - 1], limit), watches[|watches| - 1]))
  }

  predicate Waits(s: State, k: Key) { WaitsUntil(s.db.assignments, k.1, k.0) }

  predicate Beyond(cursor: Option<Key>, k: Key) { cursor.None? || KeyBefore(cursor.value, k) }

  function Passed(due: set<Key>, cursor: Option<Key>): set<Key> { set k | k in due && !Beyond(cursor, k) }

  // Of the offers due at h, nobody else can be waiting with as little time left.
  ghost predicate Bounded(due: set<Key>, h: Time, s: State) {
    Inv(s) && h <= s.clock && (forall k :: Waits(s, k) && k.0 <= h ==> k in due) && (forall k :: k in due ==> k.0 <= h)
  }

  // Each was tried or waits no longer.
  ghost predicate Attended(due: set<Key>, w: Worker) {
    forall k :: k in due && Waits(w.state, k) ==> k in KeysOf(w.tried)
  }

  ghost predicate Ahead(due: set<Key>, w: Worker) {
    forall k :: k in due && Waits(w.state, k) ==> k in KeysOf(w.tried) || Beyond(w.cursor, k)
  }

  // After `passed` of them: either all have been attended to, or the rest lies ahead.
  ghost predicate Pursuing(due: set<Key>, h: Time, w: Worker, passed: nat) {
    Bounded(due, h, w.state) && (Attended(due, w) || (Ahead(due, w) && |Passed(due, w.cursor)| >= passed))
  }

  // Others may close offers, and make none that is due already.
  lemma OthersKeep(due: set<Key>, h: Time, w: Worker, others: seq<Event>, passed: nat)
    requires Pursuing(due, h, w, passed) && Legal(w.state, others)
    ensures Pursuing(due, h, w.(state := Run(w.state, others)), passed)
  {
    hide Inv, Run, Legal, WaitsUntil;
    var after := Run(w.state, others);
    RunKeeps(w.state, others);
    ClockGoesOn(w.state, others);
    forall k | Waits(after, k) && k.0 <= h ensures Waits(w.state, k) {
      RunAddsNoOverdue(w.state, others, k.1, k.0);
    }
  }

  lemma {:induction false} AttemptsAddNothing(s: State, keys: seq<Key>, now: Time, fleet: Registry, busy: set<Id>, h: Time)
    requires Inv(s) && h <= s.clock <= now && forall k :: k in keys ==> k.1 in s.db.assignments
    ensures var after := AttemptAll(s, keys, now, fleet, busy);
            && Inv(after) && h <= after.clock <= now && s.db.assignments.Keys <= after.db.assignments.Keys
            && forall k: Key :: Waits(after, k) && k.0 <= h ==> Waits(s, k)
    decreases |keys|
  {
    hide Inv, Step, WaitsUntil;
    if keys != [] {
      var shorter, last := keys[..|keys| - 1], keys[|keys| - 1];
      AttemptsAddNothing(s, shorter, now, fleet, busy, h);
      var before := AttemptAll(s, shorter, now, fleet, busy);
      var after := Attempt(before, last.1, now, fleet, busy);
      assert last in keys;
      AttemptAddsNothing(before, last.1, now, fleet, busy, h);
    }
  }

  lemma AttemptAddsNothing(s: State, a: Id, now: Time, fleet: Registry, busy: set<Id>, h: Time)
    requires Inv(s) && h <= s.clock <= now && a in s.db.assignments
    ensures var after := Attempt(s, a, now, fleet, busy);
            && Inv(after) && h <= after.clock <= now && s.db.assignments.Keys <= after.db.assignments.Keys
            && forall k: Key :: Waits(after, k) && k.0 <= h ==> Waits(s, k)
  {
    hide Inv, Execute, WaitsUntil;
    var e := Event(now, fleet, ExpireAssignment(a));
    AttemptWrites(s, a, now, fleet, busy);
    if a !in busy {
      forall k: Key | Waits(Step(s, e), k) && k.0 <= h ensures Waits(s, k) { StepAddsNoOverdue(s, e, k.1, k.0); }
    }
  }

  // A full page moves `limit` of them behind the cursor, unless it reaches beyond them all.
  lemma PagePasses(due: set<Key>, h: Time, w: Worker, now: Time, page: seq<Key>, limit: nat, passed: nat)
    requires Bounded(due, h, w.state) && w.state.clock <= now && Ahead(due, w) && |Passed(due, w.cursor)| >= passed
    requires TotalOrder(KeyBefore) && IsPage(page, Due(w.state.db.assignments, now), w.cursor, limit, KeyBefore) && limit > 0
    ensures forall k :: k in due && Waits(w.state, k) && k !in KeysOf(w.tried) && k !in page ==>
              |page| == limit && Beyond(Some(page[limit - 1]), k)
    ensures |page| == limit && page[limit - 1].0 <= h ==> |Passed(due, Some(page[limit - 1]))| >= passed + limit
    ensures |page| == limit && page[limit - 1].0 > h ==> forall k :: k in due && Waits(w.state, k) ==> k in KeysOf(w.tried) || k in page
  {
    hide Inv, TotalOrder;
    var all := Due(w.state.db.assignments, now);
    forall k | k in due && Waits(w.state, k) && k !in KeysOf(w.tried) && k !in page
      ensures |page| == limit && Beyond(Some(page[limit - 1]), k)
    {
      assert k in After(all, w.cursor, KeyBefore);
      assert |page| == limit ==> page[limit - 1] in page;
    }
    if |page| == limit && page[limit - 1].0 <= h {
      forall k | k in page ensures k in due && Beyond(w.cursor, k) && !Beyond(Some(page[limit - 1]), k) {
        var i :| 0 <= i < |page| && page[i] == k;
        assert k in After(all, w.cursor, KeyBefore);
        if i < limit - 1 { assert KeyBefore(page[i], page[limit - 1]); }
        assert Waits(w.state, k);
      }
      var behind := set k | k in page;
      AscendingCount(page, KeyBefore);
      assert Passed(due, w.cursor) !! behind;
      forall k | k in Passed(due, w.cursor) ensures k in Passed(due, Some(page[limit - 1])) {
        var last := page[limit - 1];
        assert last in page && Beyond(w.cursor, last);
      }
      CountBoth(Passed(due, w.cursor), behind, Passed(due, Some(page[limit - 1])));
    }
  }

  lemma CountBoth(one: set<Key>, two: set<Key>, whole: set<Key>)
    requires one !! two && one <= whole && two <= whole
    ensures |one| + |two| <= |whole|
  {
    assert |one + two| == |one| + |two|;
    var rest := whole - (one + two);
    assert whole == (one + two) + rest;
  }

  lemma KeysOfTries(tried: seq<Try>, keys: seq<Key>, busy: set<Id>)
    ensures forall k :: k in KeysOf(tried) || k in keys ==> k in KeysOf(tried + Tries(keys, busy))
  {
    var longer := KeysOf(tried + Tries(keys, busy));
    forall k | k in KeysOf(tried) ensures k in longer {
      var i :| 0 <= i < |tried| && KeysOf(tried)[i] == k;
      assert longer[i] == k;
    }
    forall k | k in keys ensures k in longer {
      var i :| 0 <= i < |keys| && keys[i] == k;
      assert longer[|tried| + i] == k;
    }
  }

  lemma SweepPursues(due: set<Key>, h: Time, w: Worker, now: Time, fleet: Registry, busy: set<Id>, limit: nat, passed: nat)
    requires Pursuing(due, h, w, passed) && w.state.clock <= now && limit > 0
    ensures Pursuing(due, h, SweepStep(w, Round(busy, limit), now, fleet, limit), passed + limit)
  {
    hide Inv, WaitsUntil, AttemptAll, ThePage, TotalOrder, Due, IsPage, Passed;
    KeysOrdered();
    var all := Due(w.state.db.assignments, now);
    var page := ThePage(all, w.cursor, limit, KeyBefore);
    ThePageIsPage(all, w.cursor, limit, KeyBefore);
    PageSize(page, all, w.cursor, limit);
    assert page[..|page|] == page;
    assert forall k :: k in page ==> k.1 in w.state.db.assignments by { PageRows(page, w.state.db.assignments, now, w.cursor, limit); }
    AttemptsAddNothing(w.state, page, now, fleet, busy, h);
    KeysOfTries(w.tried, page, busy);
    if !Attended(due, w) { PagePasses(due, h, w, now, page, limit, passed); }
  }

  lemma PageSize(page: seq<Key>, all: set<Key>, cursor: Option<Key>, limit: nat)
    requires IsPage(page, all, cursor, limit, KeyBefore)
    ensures |page| <= limit
  {
  }

  lemma PageRows(page: seq<Key>, rows: map<Id, Assignment>, now: Time, cursor: Option<Key>, limit: nat)
    requires IsPage(page, Due(rows, now), cursor, limit, KeyBefore)
    ensures forall k :: k in page ==> k.1 in rows
  {
  }

  lemma WatchPursues(due: set<Key>, h: Time, w: Worker, p: Watch, limit: nat, passed: nat)
    requires Pursuing(due, h, w, passed) && Timely(w, p) && limit > 0
    ensures Pursuing(due, h, WatchStep(w, p, limit), passed + limit)
  {
    hide Inv, Run, Legal, Pursuing, SweepStep;
    OthersKeep(due, h, w, p.others, passed);
    SweepPursues(due, h, w.(state := Run(w.state, p.others)), p.now, p.fleet, p.busy, limit, passed);
  }

  lemma LastWatch(w: Worker, watches: seq<Watch>, limit: nat)
    requires watches != [] && AllTimely(w, watches, limit)
    ensures var sooner, p := watches[..|watches| - 1], watches[|watches| - 1];
            && AllTimely(w, sooner, limit) && Timely(Watches(w, sooner, limit), p)
            && Watches(w, watches, limit) == WatchStep(Watches(w, sooner, limit), p, limit)
  {
    hide Timely, WatchStep;
  }

  function Times(n: nat, limit: nat): nat { n * limit }

  lemma OneMoreTime(n: nat, limit: nat)
    ensures Times(0, limit) == 0 && Times(n + 1, limit) == Times(n, limit) + limit
  {
  }

  lemma NoWatch(w: Worker, limit: nat)
    ensures Watches(w, [], limit) == w
  {
    hide WatchStep;
  }

  lemma {:induction false} WatchesPursue(w: Worker, watches: seq<Watch>, limit: nat, due: set<Key>, h: Time)
    requires limit > 0 && AllTimely(w, watches, limit) && Pursuing(due, h, w, 0)
    ensures Pursuing(due, h, Watches(w, watches, limit), Times(|watches|, limit))
    decreases |watches|
  {
    hide Times, Timely, Pursuing, WatchStep, AllTimely, Watches;
    NoWatch(w, limit);
    OneMoreTime(0, limit);
    if watches != [] {
      var n := |watches| - 1;
      LastWatch(w, watches, limit);
      WatchesPursue(w, watches[..n], limit, due, h);
      WatchPursues(due, h, Watches(w, watches[..n], limit), watches[n], limit, Times(n, limit));
      OneMoreTime(n, limit);
    }
  }

  lemma PursuitStarts(w: Worker)
    requires Inv(w.state) && w.cursor.None?
    ensures Pursuing(Due(w.state.db.assignments, w.state.clock), w.state.clock, w, 0)
  {
    hide Inv;
  }

  // With the clock going on and others closing and making offers in between, floor(N/B)+1 sweeps
  // from a nil cursor still try every one of the N offers due at the start that somebody else has
  // not closed by then.
  lemma FairAmongOthers(w: Worker, watches: seq<Watch>, limit: nat)
    requires Inv(w.state) && w.cursor.None? && limit > 0 && AllTimely(w, watches, limit)
    requires |watches| == |Due(w.state.db.assignments, w.state.clock)| / limit + 1
    ensures Attended(Due(w.state.db.assignments, w.state.clock), Watches(w, watches, limit))
  {
    hide Inv, Watches, AllTimely, Attended, Ahead, Bounded;
    var due := Due(w.state.db.assignments, w.state.clock);
    PursuitStarts(w);
    WatchesPursue(w, watches, limit, due, w.state.clock);
    var n := |due| / limit;
    assert |due| < n * limit + limit == (n + 1) * limit;
    assert Passed(due, Watches(w, watches, limit).cursor) <= due;
    CountBoth(Passed(due, Watches(w, watches, limit).cursor), {}, due);
  }

  // ---- The worker ----------------------------------------------------------------------------------------

  class ExpiryWorker {
    const service: OrderService.OrderService
    const batch: nat
    var cursor: Option<Key>
    ghost var tried: seq<Try>

    constructor (service: OrderService.OrderService, batch: nat)
      ensures this.service == service && this.batch == batch && cursor.None? && tried == []
    {
      this.service, this.batch, cursor, tried := service, batch, None, [];
    }

    ghost function Here(): Worker
      reads this, service
    {
      Worker(service.Here(), cursor, tried)
    }

    // expireDueAssignmentsAfter: `busy` are the offers whose rows are locked, `stop` the number of
    // attempts after which the context is cancelled.
    method Sweep(now: Time, fleet: Registry, busy: set<Id>, stop: nat)
      requires Inv(service.Here()) && service.clock <= now
      modifies this, service
      ensures Here() == SweepStep(old(Here()), Round(busy, stop), now, fleet, batch)
      ensures Inv(service.Here()) && service.clock <= now
    {
      hide Inv, Execute, Step, IsPage, ThePage, TotalOrder, Due;
      KeysOrdered();
      var due := Due(service.db.assignments, now);
      var stale := SelectPage(due, cursor, batch, KeyBefore);
      PageIsThePage(stale, due, cursor, batch, KeyBefore);
      ghost var start, before := service.Here(), tried;
      var i := 0;
      while i < |stale|
        invariant i <= |stale| && i <= stop
        invariant service.Here() == AttemptAll(start, stale[..i], now, fleet, busy) && Inv(service.Here()) && service.clock <= now
        invariant cursor == if i == 0 then old(cursor) else Some(stale[i - 1])
        invariant tried == before + Tries(stale[..i], busy)
      {
        if i >= stop { return; }
        var candidate := stale[i];
        AttemptNext(start, stale, i, now, fleet, busy);
        if candidate.1 !in busy {
          var failure := service.Handle(Event(now, fleet, ExpireAssignment(candidate.1)));
        }
        cursor := Some(candidate);
        tried := tried + [Try(candidate, candidate.1 in busy)];
        i := i + 1;
      }
      assert stale[..|stale|] == stale;
      if |stale| < batch { cursor := None; }
    }
  }
}
