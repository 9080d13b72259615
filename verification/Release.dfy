// What a released assignment sets off: its job visits the orders it may help, page by page behind a
// cursor kept in the job's row, and asks Dispatch about each.
module Release {
  import opened Model
  import opened Trips
  import opened Database
  import opened Core
  import opened RowWrites
  import opened Paging
  import Outbox

  predicate IdBefore(x: Id, y: Id) { x < y }

  lemma IdsOrdered()
    ensures TotalOrder(IdBefore)
  {
  }

  // The orders one page may take: ready, nobody open on them, in the way of the released window or
  // released themselves. A missing end of a pickup window overlaps nothing.
  predicate Concerns(db: Tables, job: ReleaseJob, o: Id) {
    o in db.orders && db.orders[o].status == Ready && db.orders[o].submittedAt.Some?
    && (o == job.order
        || (db.orders[o].pickupFrom.Some? && db.orders[o].pickupTo.Some?
            && db.orders[o].pickupFrom.value < job.plannedTo && db.orders[o].pickupTo.value > job.plannedFrom))
    && !HasOpenAssignment(db.assignments, o)
  }

  function Eligible(db: Tables, job: ReleaseJob): set<Id> {
    set o | o in db.orders && Concerns(db, job, o)
  }

  // ---- One job, page by page ----------------------------------------------------------------------

  // `asked` are the orders a request was enqueued for by this job.
  datatype Progress = Progress(cursor: Option<Id>, asked: set<Id>, finished: bool)

  // What one attempt sees; a crashed one leaves the job's row as it was.
  datatype View = View(eligible: set<Id>, crashed: bool)

  function Elements(page: seq<Id>): set<Id> { set o | o in page }

  ghost function Turn(p: Progress, v: View, limit: nat): Progress {
    IdsOrdered();
    var page := ThePage(v.eligible, p.cursor, limit, IdBefore);
    if v.crashed || p.finished then p
    else Progress(if |page| < limit || page == [] then p.cursor else Some(page[|page| - 1]), p.asked + Elements(page), |page| < limit)
  }

  ghost function Turns(p: Progress, views: seq<View>, limit: nat): Progress {
    if views == [] then p else Turn(Turns(p, views[..|views| - 1], limit), views[|views| - 1], limit)
  }

  const FRESH := Progress(None, {}, false)

  // An order already behind the cursor has been asked about, if it stayed eligible so far.
  ghost predicate Visited(p: Progress, o: Id) {
    (p.finished || (p.cursor.Some? && o <= p.cursor.value)) ==> o in p.asked
  }

  lemma TurnVisits(p: Progress, v: View, limit: nat, o: Id)
    requires Visited(p, o) && o in v.eligible
    ensures Visited(Turn(p, v, limit), o)
  {
    IdsOrdered();
    hide TotalOrder, ThePage;
    ThePageIsPage(v.eligible, p.cursor, limit, IdBefore);
    var page := ThePage(v.eligible, p.cursor, limit, IdBefore);
    if !v.crashed && !p.finished && o !in p.asked && o !in page {
      assert o in After(v.eligible, p.cursor, IdBefore);
      assert page != [] ==> IdBefore(page[|page| - 1], o);
    }
  }

  lemma {:induction false} TurnsVisit(views: seq<View>, limit: nat, o: Id)
    requires forall i :: 0 <= i < |views| ==> o in views[i].eligible
    ensures Visited(Turns(FRESH, views, limit), o)
    decreases |views|
  {
    hide Turn;
    if views != [] {
      TurnsVisit(views[..|views| - 1], limit, o);
      TurnVisits(Turns(FRESH, views[..|views| - 1], limit), views[|views| - 1], limit, o);
    }
  }

  // An order eligible at every page of a finished job was asked about, whatever else changed
  // between its pages and however often the worker crashed.
  lemma FinishedJobReaches(views: seq<View>, limit: nat, o: Id)
    requires Turns(FRESH, views, limit).finished && forall i :: 0 <= i < |views| ==> o in views[i].eligible
    ensures o in Turns(FRESH, views, limit).asked
  {
    TurnsVisit(views, limit, o);
  }

  // ---- How many pages ----------------------------------------------------------------------------------

  function Completed(views: seq<View>): nat {
    if views == [] then 0 else Completed(views[..|views| - 1]) + (if views[|views| - 1].crashed then 0 else 1)
  }

  ghost predicate Steady(views: seq<View>, eligible: set<Id>) {
    forall i :: 0 <= i < |views| ==> views[i].eligible == eligible
  }

  // m orders into a steady set.
  ghost predicate PagesIn(p: Progress, q: seq<Id>, m: nat) {
    m <= |q| && p == Progress(CursorAt(q, m), Elements(q[..m]), false)
  }

  lemma SteadyPage(q: seq<Id>, eligible: set<Id>, m: nat, limit: nat)
    requires TotalOrder(IdBefore) && q == Sorted(eligible, IdBefore) && m <= |q|
    ensures ThePage(eligible, CursorAt(q, m), limit, IdBefore) == q[m..Min(m + limit, |q|)]
  {
    var page := ThePage(eligible, CursorAt(q, m), limit, IdBefore);
    ThePageIsPage(eligible, CursorAt(q, m), limit, IdBefore);
    hide TotalOrder, ThePage, IsPage, Sorted;
    assert forall x :: x in q[m..] ==> x in q;
    PageIsNext(page, q, eligible, m, limit, IdBefore);
  }

  lemma TurnIs(p: Progress, v: View, limit: nat, page: seq<Id>)
    requires TotalOrder(IdBefore) && page == ThePage(v.eligible, p.cursor, limit, IdBefore) && !v.crashed && !p.finished
    ensures Turn(p, v, limit) == Progress(if |page| < limit || page == [] then p.cursor else Some(page[|page| - 1]),
                                          p.asked + Elements(page), |page| < limit)
  {
    hide ThePage, TotalOrder;
  }

  lemma TurnOver(p: Progress, v: View, q: seq<Id>, m: nat, limit: nat)
    requires TotalOrder(IdBefore) && limit > 0 && !v.crashed && PagesIn(p, q, m) && q == Sorted(v.eligible, IdBefore)
    ensures if m + limit <= |q| then PagesIn(Turn(p, v, limit), q, m + limit)
            else Turn(p, v, limit).finished && Turn(p, v, limit).asked == v.eligible
  {
    hide TotalOrder, ThePage, Sorted, Turn, Elements;
    SteadyPage(q, v.eligible, m, limit);
    var end := Min(m + limit, |q|);
    var page := q[m..end];
    TurnIs(p, v, limit, page);
    Stretch(q, m, end);
    Joined(q[..m], page);
    if m + limit > |q| { AllElements(q, v.eligible); }
  }

  lemma Stretch(q: seq<Id>, m: nat, end: nat)
    requires m <= end <= |q|
    ensures q[..m] + q[m..end] == q[..end] && (m < end ==> q[m..end][end - m - 1] == q[end - 1]) && q[..|q|] == q
  {
  }

  lemma AllElements(q: seq<Id>, s: set<Id>)
    requires forall x :: x in q <==> x in s
    ensures Elements(q) == s
  {
  }

  lemma Joined(p: seq<Id>, q: seq<Id>)
    ensures Elements(p + q) == Elements(p) + Elements(q)
  {
  }

  lemma {:induction false} SteadyTurns(views: seq<View>, eligible: set<Id>, q: seq<Id>, limit: nat)
    requires TotalOrder(IdBefore) && q == Sorted(eligible, IdBefore) && limit > 0 && Steady(views, eligible)
    ensures if Completed(views) * limit <= |q| then PagesIn(Turns(FRESH, views, limit), q, Completed(views) * limit)
            else Turns(FRESH, views, limit).finished && Turns(FRESH, views, limit).asked == eligible
    decreases |views|
  {
    hide TotalOrder, Turn, Sorted, PagesIn;
    if views == [] {
      FreshPages(q);
    } else {
      var sooner, v := views[..|views| - 1], views[|views| - 1];
      SteadyTurns(sooner, eligible, q, limit);
      Idle(Turns(FRESH, sooner, limit), v, limit);
      if !v.crashed {
        var m := Completed(sooner) * limit;
        OneMoreTimes(Completed(sooner), limit);
        if m <= |q| { TurnOver(Turns(FRESH, sooner, limit), v, q, m, limit); }
      }
    }
  }

  lemma FreshPages(q: seq<Id>)
    ensures PagesIn(FRESH, q, 0)
  {
    assert Elements(q[..0]) == {};
  }

  lemma OneMoreTimes(n: nat, limit: nat)
    ensures (n + 1) * limit == n * limit + limit
  {
  }

  lemma Idle(p: Progress, v: View, limit: nat)
    ensures v.crashed || p.finished ==> Turn(p, v, limit) == p
  {
    IdsOrdered();
    hide TotalOrder, ThePage;
  }

  // With N orders eligible throughout, a job is finished by its page number floor(N/B)+1 and by no
  // earlier one, and has then asked about exactly those N; crashed attempts do not count.
  lemma PagesPerJob(views: seq<View>, eligible: set<Id>, limit: nat)
    requires limit > 0 && Steady(views, eligible)
    ensures Turns(FRESH, views, limit).finished <==> Completed(views) >= |eligible| / limit + 1
    ensures Turns(FRESH, views, limit).finished ==> Turns(FRESH, views, limit).asked == eligible
  {
    IdsOrdered();
    hide TotalOrder, Turns;
    SteadyTurns(views, eligible, Sorted(eligible, IdBefore), limit);
    Quotient(Completed(views), |eligible|, limit);
  }

  lemma Quotient(n: nat, m: nat, limit: nat)
    requires limit > 0
    ensures n * limit > m <==> n >= m / limit + 1
  {
    var k := m / limit;
    assert k * limit <= m < k * limit + limit;
    if n >= k + 1 { assert n * limit >= (k + 1) * limit; } else { assert n * limit <= k * limit; }
  }

  // ---- The queue drains --------------------------------------------------------------------------------

  datatype Job = Job(release: ReleaseJob, createdAt: Time, cursor: Option<Id>)

  type Jobs = map<Id, Job>

  ghost function PageOfJob(db: Tables, job: Job, limit: nat): seq<Id> {
    IdsOrdered();
    ThePage(Eligible(db, job.release), job.cursor, limit, IdBefore)
  }

  // The job's row after its page: gone, or with its cursor moved.
  function Advanced(jobs: Jobs, a: Id, page: seq<Id>, limit: nat): Jobs
    requires a in jobs
  {
    if |page| < limit || page == [] then jobs - {a} else jobs[a := jobs[a].(cursor := Some(page[|page| - 1]))]
  }

  ghost function PagesLeft(db: Tables, job: Job, limit: nat): nat
    requires limit > 0
  {
    |After(Eligible(db, job.release), job.cursor, IdBefore)| / limit + 1
  }

  ghost function Backlog(db: Tables, jobs: Jobs, limit: nat): nat
    requires limit > 0
    decreases |jobs|
  {
    if jobs == map[] then 0
    else
      var a :| a in jobs;
      PagesLeft(db, jobs[a], limit) + Backlog(db, jobs - {a}, limit)
  }

  lemma {:induction false} BacklogPeels(db: Tables, jobs: Jobs, limit: nat, a: Id)
    requires limit > 0 && a in jobs
    ensures Backlog(db, jobs, limit) == PagesLeft(db, jobs[a], limit) + Backlog(db, jobs - {a}, limit)
    decreases |jobs|
  {
    hide PagesLeft;
    var b :| b in jobs && Backlog(db, jobs, limit) == PagesLeft(db, jobs[b], limit) + Backlog(db, jobs - {b}, limit);
    if b != a {
      BacklogPeels(db, jobs - {b}, limit, a);
      BacklogPeels(db, jobs - {a}, limit, b);
      assert jobs - {b} - {a} == jobs - {a} - {b};
    }
  }

  // Every page, of whichever job, takes exactly one from the backlog.
  lemma PageTakesOne(db: Tables, jobs: Jobs, a: Id, limit: nat)
    requires limit > 0 && a in jobs
    ensures Backlog(db, Advanced(jobs, a, PageOfJob(db, jobs[a], limit), limit), limit) == Backlog(db, jobs, limit) - 1
  {
    IdsOrdered();
    hide TotalOrder, ThePage, Eligible, After;
    var page := PageOfJob(db, jobs[a], limit);
    var after := Advanced(jobs, a, page, limit);
    RestAfterPage(Eligible(db, jobs[a].release), jobs[a].cursor, limit, IdBefore);
    BacklogPeels(db, jobs, limit, a);
    if |page| < limit {
      Short(|After(Eligible(db, jobs[a].release), jobs[a].cursor, IdBefore)|, limit);
    } else {
      BacklogPeels(db, after, limit, a);
      assert after - {a} == jobs - {a};
      Shorter(|After(Eligible(db, jobs[a].release), jobs[a].cursor, IdBefore)|, limit);
    }
  }

  lemma Short(n: nat, limit: nat)
    requires n < limit
    ensures n / limit == 0
  {
  }

  lemma Shorter(n: nat, limit: nat)
    requires 0 < limit <= n
    ensures (n - limit) / limit == n / limit - 1
  {
    var k := n / limit;
    assert k * limit <= n < k * limit + limit;
    assert (k - 1) * limit == k * limit - limit;
    Divides(n - limit, k - 1, limit);
  }

  lemma Divides(n: nat, k: nat, limit: nat)
    requires limit > 0 && k * limit <= n < k * limit + limit
    ensures n / limit == k
  {
    var j := n / limit;
    assert j * limit <= n < j * limit + limit;
    Multiples(j + 1, k, limit);
    Multiples(k + 1, j, limit);
  }

  lemma Multiples(x: nat, y: nat, limit: nat)
    ensures x <= y ==> x * limit <= y * limit
  {
  }

  lemma EmptyBacklog(db: Tables, jobs: Jobs, limit: nat)
    requires limit > 0
    ensures Backlog(db, jobs, limit) == 0 <==> jobs == map[]
  {
    hide PagesLeft;
    if jobs != map[] {
      var a :| a in jobs;
      BacklogPeels(db, jobs, limit, a);
      OnePageAtLeast(db, jobs[a], limit);
    }
  }

  lemma OnePageAtLeast(db: Tables, job: Job, limit: nat)
    requires limit > 0
    ensures PagesLeft(db, job, limit) >= 1
  {
  }

  // One page of one job.
  ghost predicate PageTaken(db: Tables, jobs: Jobs, after: Jobs, limit: nat) {
    exists a :: a in jobs && after == Advanced(jobs, a, PageOfJob(db, jobs[a], limit), limit)
  }

  // With the orders standing still the queue is empty after exactly as many pages as its backlog,
  // whichever jobs they are taken from; a job just queued for N orders weighs floor(N/B)+1.
  lemma {:induction false} QueueDrains(db: Tables, states: seq<Jobs>, limit: nat)
    requires limit > 0 && states != []
    requires forall i, j :: 0 <= i && j == i + 1 && j < |states| ==> PageTaken(db, states[i], states[j], limit)
    ensures Backlog(db, states[|states| - 1], limit) == Backlog(db, states[0], limit) - (|states| - 1)
    ensures states[|states| - 1] == map[] <==> |states| - 1 == Backlog(db, states[0], limit)
  {
    hide Backlog, PagesLeft;
    if |states| > 1 {
      var n := |states| - 2;
      QueueDrains(db, states[..n + 1], limit);
      assert PageTaken(db, states[n], states[n + 1], limit);
      var a :| a in states[n] && states[n + 1] == Advanced(states[n], a, PageOfJob(db, states[n][a], limit), limit);
      PageTakesOne(db, states[n], a, limit);
    }
    EmptyBacklog(db, states[|states| - 1], limit);
  }

  lemma FreshJobWeighs(db: Tables, job: Job, limit: nat)
    requires limit > 0 && job.cursor.None?
    ensures PagesLeft(db, job, limit) == |Eligible(db, job.release)| / limit + 1
  {
    assert After(Eligible(db, job.release), None, IdBefore) == Eligible(db, job.release);
  }

  // The job's row goes where the account of its progress says.
  lemma RowFollowsProgress(db: Tables, jobs: Jobs, a: Id, p: Progress, limit: nat)
    requires a in jobs && jobs[a].cursor == p.cursor && !p.finished
    ensures var page := PageOfJob(db, jobs[a], limit);
            var next := Turn(p, View(Eligible(db, jobs[a].release), false), limit);
            var after := Advanced(jobs, a, page, limit);
            && next.asked == p.asked + Elements(page)
            && (next.finished ==> a !in after)
            && (!next.finished && page != [] ==> a in after && after[a] == jobs[a].(cursor := next.cursor))
  {
    IdsOrdered();
    hide TotalOrder, ThePage, Eligible;
  }

  // ---- The worker ----------------------------------------------------------------------------------------

  // Waiting jobs by age; others' locks are skipped.
  function Queue(jobs: Jobs, locked: set<Id>): set<Key> {
    set a | a in jobs && a !in locked :: (jobs[a].createdAt, a)
  }

  // Every order of the page has an unsent request no older than now.
  ghost predicate AskedAbout(rows: Outbox.Rows, page: seq<Id>, now: Time) {
    forall i :: 0 <= i < |page| ==> Outbox.AskedSince(rows, page[i], now)
  }

  // No answer to an earlier request is lost.
  ghost predicate RecordsStay(rows: Outbox.Rows, after: Outbox.Rows) {
    forall o, at :: Outbox.Recorded(rows, o, at) ==> Outbox.Recorded(after, o, at)
  }

  // What is new in the outbox is one request of this instant for each of some orders of the page, about
  // the submission it has now.
  ghost predicate OnlyAbout(rows: Outbox.Rows, after: Outbox.Rows, db: Tables, page: seq<Id>, now: Time) {
    forall i :: i in after && (i !in rows || after[i] != rows[i]) ==>
      after[i].payload.Dispatch? && after[i].publishedAt.None?
      && var request := after[i].payload.request;
         request.order in page && request.order in db.orders && db.orders[request.order].submittedAt == Some(request.submittedAt)
         && request.requestedAt == now
  }

  // None of the identifiers drawn is in use.
  ghost predicate Unused(ids: seq<Id>, rows: Outbox.Rows) {
    (forall i :: 0 <= i < |ids| ==> ids[i] !in rows) && (forall i, j :: 0 <= i < j < |ids| ==> ids[i] != ids[j])
  }

  // The loop over a page: one request per order, or none of them when an identifier is taken.
  method AskForAll(rows: Outbox.Rows, db: Tables, orders: seq<Id>, now: Time, ids: seq<Id>) returns (asked: Option<Outbox.Rows>)
    requires Outbox.Sound(rows) && |orders| <= |ids|
    requires forall o :: o in orders ==> o in db.orders && db.orders[o].id == o && db.orders[o].submittedAt.Some?
    ensures asked.Some? ==>
              Outbox.Sound(asked.value) && Outbox.SentStay(rows, asked.value) && AskedAbout(asked.value, orders, now)
              && RecordsStay(rows, asked.value) && OnlyAbout(rows, asked.value, db, orders, now)
    ensures Unused(ids, rows) ==> asked.Some?
  {
    hide Outbox.Sound, Outbox.SentStay, Outbox.AskedSince, Outbox.Upsert, AskedAbout, RecordsStay, OnlyAbout;
    NothingAsked(rows, now);
    NothingNew(rows, db, now);
    var tx := rows;
    for i := 0 to |orders|
      invariant Outbox.Sound(tx) && Outbox.SentStay(rows, tx) && AskedAbout(tx, orders[..i], now) && RecordsStay(rows, tx)
      invariant OnlyAbout(rows, tx, db, orders[..i], now)
      invariant forall e :: e in tx ==> e in rows || exists j :: 0 <= j < i && ids[j] == e
    {
      assert orders[i] in orders;
      var order := db.orders[orders[i]];
      var next := Outbox.EnqueueDispatchRequest(tx, order, ids[i], now);
      NewRow(rows, tx, Outbox.Request(ids[i], order.id, order.submittedAt.value, now), db, orders, i, now);
      if next.None? { return None; }
      AskAbout(tx, Outbox.Request(ids[i], order.id, order.submittedAt.value, now), orders, i, now);
      SentOn(rows, tx, next.value);
      tx := next.value;
    }
    assert orders[..|orders|] == orders;
    return Some(tx);
  }

  lemma NothingNew(rows: Outbox.Rows, db: Tables, now: Time)
    ensures OnlyAbout(rows, rows, db, [], now)
  {
  }

  lemma NewRow(rows: Outbox.Rows, tx: Outbox.Rows, request: Outbox.Request, db: Tables, orders: seq<Id>, i: nat, now: Time)
    requires i < |orders| && orders[i] in db.orders && request.order == orders[i] && request.requestedAt == now
    requires db.orders[orders[i]].submittedAt == Some(request.submittedAt) && OnlyAbout(rows, tx, db, orders[..i], now)
    ensures var next := Outbox.Upsert(tx, request);
            && (next.None? ==> request.eventId in tx)
            && (next.Some? ==> OnlyAbout(rows, next.value, db, orders[..i + 1], now) && next.value.Keys <= tx.Keys + {request.eventId})
  {
    var next := Outbox.Upsert(tx, request);
    if next.Some? {
      assert orders[..i + 1][i] == orders[i];
      forall o | o in orders[..i] ensures o in orders[..i + 1] {
        var j :| 0 <= j < i && orders[..i][j] == o;
        assert orders[..i + 1][j] == o;
      }
    }
  }

  lemma NothingAsked(rows: Outbox.Rows, now: Time)
    ensures AskedAbout(rows, [], now) && Outbox.SentStay(rows, rows) && RecordsStay(rows, rows)
  {
  }

  lemma SentOn(rows: Outbox.Rows, middle: Outbox.Rows, after: Outbox.Rows)
    requires Outbox.SentStay(rows, middle) && Outbox.SentStay(middle, after) && RecordsStay(rows, middle) && RecordsStay(middle, after)
    ensures Outbox.SentStay(rows, after) && RecordsStay(rows, after)
  {
  }

  datatype Snapshot = Snapshot(jobs: Jobs, outbox: Outbox.Rows)

  // One call of the worker, with the orders it saw and the job it took a page of.
  datatype Call = Call(db: Tables, job: Option<Id>, now: Time)

  // A page is asked about and its job advanced, or nothing happens.
  ghost predicate Called(before: Snapshot, c: Call, after: Snapshot, limit: nat) {
    && (c.job.None? ==> after == before)
    && (c.job.Some? ==>
          var a := c.job.value;
          && a in before.jobs
          && var page := PageOfJob(c.db, before.jobs[a], limit);
             && after.jobs == Advanced(before.jobs, a, page, limit)
             && AskedAbout(after.outbox, page, c.now) && RecordsStay(before.outbox, after.outbox)
             && OnlyAbout(before.outbox, after.outbox, c.db, page, c.now))
  }

  class ReleaseWorker {
    var jobs: Jobs
    var outbox: Outbox.Rows

    // processDispatchRelease: one page of the oldest unlocked job in one transaction, which may
    // fail to commit. `ids` are the identifiers drawn for the requests.
    method ProcessDispatchRelease(db: Tables, locked: set<Id>, limit: nat, now: Time, ids: seq<Id>, commits: bool)
      returns (job: Option<Id>)
      requires Outbox.Sound(outbox) && 0 < limit <= |ids| && forall o :: o in db.orders ==> db.orders[o].id == o
      modifies this
      ensures Outbox.Sound(outbox) && Outbox.SentStay(old(outbox), outbox)
      ensures Called(Snapshot(old(jobs), old(outbox)), Call(db, job, now), Snapshot(jobs, outbox), limit)
      ensures job.Some? ==> Oldest(old(jobs), locked, job.value)
      ensures job.None? ==> !commits || !Unused(ids, old(outbox)) || forall a :: a in old(jobs) ==> a in locked
    {
      hide TotalOrder, Outbox.Sound, Outbox.SentStay, AskedAbout, Eligible, Advanced, RecordsStay, OnlyAbout, Unused;
      NothingAsked(outbox, now);
      KeysOrdered();
      IdsOrdered();
      var head := SelectPage(Queue(jobs, locked), None, 1, KeyBefore);
      if head == [] {
        NothingFree(jobs, locked, head);
        return None;
      }
      var a := head[0].1;
      OldestJob(jobs, locked, head);
      hide IsPage, Queue;
      var row := jobs[a];
      var orders := SelectPage(Eligible(db, row.release), row.cursor, limit, IdBefore);
      PageIsThePage(orders, Eligible(db, row.release), row.cursor, limit, IdBefore);
      hide ThePage;
      EligibleOrders(db, row.release, row.cursor, orders, limit);
      var tx := AskForAll(outbox, db, orders, now, ids);
      if tx.None? || !commits { return None; }
      outbox := tx.value;
      jobs := Advanced(jobs, a, orders, limit);
      return Some(a);
    }
  }

  ghost predicate Oldest(jobs: Jobs, locked: set<Id>, a: Id) {
    a in jobs && a !in locked
    && forall b :: b in jobs && b !in locked && b != a ==> KeyBefore((jobs[a].createdAt, a), (jobs[b].createdAt, b))
  }

  lemma NothingFree(jobs: Jobs, locked: set<Id>, head: seq<Key>)
    requires IsPage(head, Queue(jobs, locked), None, 1, KeyBefore) && head == []
    ensures forall a :: a in jobs ==> a in locked
  {
    assert Queue(jobs, locked) == {} by { assert After(Queue(jobs, locked), None, KeyBefore) == Queue(jobs, locked); }
    forall a | a in jobs ensures a in locked { assert (jobs[a].createdAt, a) !in Queue(jobs, locked); }
  }

  lemma OldestJob(jobs: Jobs, locked: set<Id>, head: seq<Key>)
    requires IsPage(head, Queue(jobs, locked), None, 1, KeyBefore) && head != []
    ensures Oldest(jobs, locked, head[0].1)
  {
    assert head[0] in head;
    var a := head[0].1;
    forall b | b in jobs && b !in locked && b != a ensures KeyBefore((jobs[a].createdAt, a), (jobs[b].createdAt, b)) {
      assert (jobs[b].createdAt, b) in After(Queue(jobs, locked), None, KeyBefore);
      assert |head| == 1 && (jobs[b].createdAt, b) !in head;
    }
  }

  lemma EligibleOrders(db: Tables, job: ReleaseJob, cursor: Option<Id>, orders: seq<Id>, limit: nat)
    requires IsPage(orders, Eligible(db, job), cursor, limit, IdBefore)
    ensures |orders| <= limit && forall o :: o in orders ==> o in db.orders && db.orders[o].submittedAt.Some?
  {
  }

  lemma AskAbout(rows: Outbox.Rows, request: Outbox.Request, orders: seq<Id>, i: nat, now: Time)
    requires Outbox.Sound(rows) && i < |orders| && request.order == orders[i] && request.requestedAt == now
    requires AskedAbout(rows, orders[..i], now)
    ensures var next := Outbox.Upsert(rows, request);
            next.Some? ==> Outbox.Sound(next.value) && AskedAbout(next.value, orders[..i + 1], now)
                           && Outbox.SentStay(rows, next.value) && RecordsStay(rows, next.value)
  {
    hide Outbox.Upsert, Outbox.Sound, Outbox.AskedSince, Outbox.SentStay, Outbox.Recorded;
    var next := Outbox.Upsert(rows, request);
    if next.Some? {
      Outbox.UpsertSound(rows, request);
      Outbox.UpsertAsks(rows, request);
      forall o, at | Outbox.Recorded(rows, o, at) ensures Outbox.Recorded(next.value, o, at) {
        Outbox.UpsertRecords(rows, request, o, at);
      }
      var page := orders[..i + 1];
      forall j | 0 <= j < |page| ensures Outbox.AskedSince(next.value, page[j], now) {
        if j < i {
          assert orders[..i][j] == page[j];
          Outbox.UpsertRecords(rows, request, orders[j], now);
        }
      }
    }
  }

  // ---- Call after call ------------------------------------------------------------------------------------

  // Others queue jobs, send and file requests, and leave this job's row alone.
  ghost predicate Meanwhile(before: Snapshot, after: Snapshot, a: Id) {
    && (a in after.jobs <==> a in before.jobs) && (a in before.jobs ==> after.jobs[a] == before.jobs[a])
    && RecordsStay(before.outbox, after.outbox)
  }

  ghost predicate Follows(before: Snapshot, c: Call, after: Snapshot, a: Id, limit: nat) {
    exists middle :: Called(before, c, middle, limit) && Meanwhile(middle, after, a)
  }

  ghost predicate Trace(states: seq<Snapshot>, calls: seq<Call>, a: Id, limit: nat) {
    |states| == |calls| + 1
    && forall i, j :: 0 <= i < |calls| && j == i + 1 ==> Follows(states[i], calls[i], states[j], a, limit)
  }

  // Some page of a's job asked about o, and the request is still answered for.
  ghost predicate AskedIn(calls: seq<Call>, a: Id, rows: Outbox.Rows, o: Id) {
    exists i :: 0 <= i < |calls| && calls[i].job == Some(a) && Outbox.Recorded(rows, o, calls[i].now)
  }

  ghost predicate AlwaysEligible(calls: seq<Call>, a: Id, release: ReleaseJob, o: Id) {
    forall i :: 0 <= i < |calls| && calls[i].job == Some(a) ==> o in Eligible(calls[i].db, release)
  }

  ghost predicate ToCome(s: Snapshot, a: Id, release: ReleaseJob, o: Id) {
    a in s.jobs && s.jobs[a].release == release && (s.jobs[a].cursor.None? || IdBefore(s.jobs[a].cursor.value, o))
  }

  // Across one call: o is asked about, or still to come.
  lemma CallReaches(before: Snapshot, c: Call, after: Snapshot, a: Id, release: ReleaseJob, limit: nat, o: Id)
    requires limit > 0 && ToCome(before, a, release, o) && Called(before, c, after, limit)
    requires c.job == Some(a) ==> o in Eligible(c.db, release)
    ensures ToCome(after, a, release, o) || (c.job == Some(a) && Outbox.AskedSince(after.outbox, o, c.now))
  {
    hide Eligible, Outbox.AskedSince, RecordsStay;
    if c.job == Some(a) {
      IdsOrdered();
      var job := before.jobs[a];
      var page := PageOfJob(c.db, job, limit);
      ThePageIsPage(Eligible(c.db, release), job.cursor, limit, IdBefore);
      hide TotalOrder, ThePage;
      assert o in After(Eligible(c.db, release), job.cursor, IdBefore);
      if o in page {
        var i :| 0 <= i < |page| && page[i] == o;
      } else {
        assert page[limit - 1] in page;
      }
    }
  }

  lemma MeanwhileStays(middle: Snapshot, after: Snapshot, a: Id, release: ReleaseJob, o: Id, now: Time)
    requires Meanwhile(middle, after, a)
    ensures ToCome(middle, a, release, o) ==> ToCome(after, a, release, o)
    ensures Outbox.AskedSince(middle.outbox, o, now) ==> Outbox.Recorded(after.outbox, o, now)
  {
    if Outbox.AskedSince(middle.outbox, o, now) { assert Outbox.Recorded(middle.outbox, o, now); }
  }

  lemma RecordsStayOn(before: Snapshot, c: Call, after: Snapshot, a: Id, limit: nat)
    requires Follows(before, c, after, a, limit)
    ensures RecordsStay(before.outbox, after.outbox)
  {
    hide AskedAbout, Outbox.Recorded;
  }

  lemma {:induction false} TraceReaches(states: seq<Snapshot>, calls: seq<Call>, a: Id, release: ReleaseJob, limit: nat, o: Id)
    requires limit > 0 && Trace(states, calls, a, limit) && ToCome(states[0], a, release, o) && AlwaysEligible(calls, a, release, o)
    ensures ToCome(states[|calls|], a, release, o) || AskedIn(calls, a, states[|calls|].outbox, o)
    decreases |calls|
  {
    hide ToCome, Called, Meanwhile, Outbox.Recorded, Outbox.AskedSince, Eligible;
    if calls != [] {
      var n := |calls| - 1;
      var sooner, c, before, after := calls[..n], calls[n], states[n], states[n + 1];
      assert forall i, j :: 0 <= i < n && j == i + 1 ==> states[..n + 1][i] == states[i] && states[..n + 1][j] == states[j];
      TraceReaches(states[..n + 1], sooner, a, release, limit, o);
      assert Follows(before, c, after, a, limit);
      if ToCome(before, a, release, o) {
        var middle :| Called(before, c, middle, limit) && Meanwhile(middle, after, a);
        CallReaches(before, c, middle, a, release, limit, o);
        MeanwhileStays(middle, after, a, release, o, c.now);
      } else {
        RecordsStayOn(before, c, after, a, limit);
        var i :| 0 <= i < n && sooner[i].job == Some(a) && Outbox.Recorded(before.outbox, o, sooner[i].now);
        assert calls[i] == sooner[i];
      }
    }
  }

  // Whatever calls the worker makes, on this job and on others, crashed or not: once the job's row is
  // gone, an order that was eligible whenever its pages were taken has been asked about by one of
  // them, and that request or a newer one still stands in the outbox, waiting or sent.
  lemma GoneJobHasReached(states: seq<Snapshot>, calls: seq<Call>, a: Id, limit: nat, o: Id)
    requires limit > 0 && Trace(states, calls, a, limit) && a in states[0].jobs && states[0].jobs[a].cursor.None?
    requires AlwaysEligible(calls, a, states[0].jobs[a].release, o) && a !in states[|calls|].jobs
    ensures AskedIn(calls, a, states[|calls|].outbox, o)
  {
    hide AlwaysEligible, AskedIn, Follows;
    TraceReaches(states, calls, a, states[0].jobs[a].release, limit, o);
  }

  // ---- Which orders ------------------------------------------------------------------------------------------

  // Ready, submitted, and with nobody open on it.
  ghost predicate Idles(db: Tables, o: Id) {
    && o in db.orders && db.orders[o].status == Ready && db.orders[o].submittedAt.Some?
    && forall a :: a in db.assignments && db.assignments[a].order == o ==>
         db.assignments[a].status != Pending && db.assignments[a].status != Accepted && db.assignments[a].status != Active
  }

  // The order the closed assignment was for, or one whose pickup window the assignment stood in.
  predicate Freed(order: Order, o: Id, row: Assignment) {
    o == row.order
    || (order.pickupFrom.Some? && order.pickupTo.Some? && Overlap(row, order.pickupFrom.value, order.pickupTo.value))
  }

  lemma FreedExactly(db: Tables, row: Assignment, o: Id)
    ensures o in Eligible(db, ReleaseJob(row.order, row.plannedFrom, row.plannedTo))
            <==> Idles(db, o) && Freed(db.orders[o], o, row)
  {
  }

  // The queue holds the order and window of the closed assignment.
  lemma QueuedAsReserved(s: State, a: Id)
    requires Inv(s) && a in s.db.queue
    ensures a in s.db.assignments
    ensures var row := s.db.assignments[a]; s.db.queue[a] == ReleaseJob(row.order, row.plannedFrom, row.plannedTo)
  {
    hide AllSound, NoDoubleBooking, Referential;
  }

  // Once the job of a closed assignment is gone, every order it stood in the way of, and its own, has
  // been asked about, if it idled whenever a page of the job was taken.
  lemma FreedOrdersAreAsked(s: State, states: seq<Snapshot>, calls: seq<Call>, a: Id, limit: nat, o: Id)
    requires Inv(s) && a in s.db.queue && a in s.db.assignments
    requires limit > 0 && Trace(states, calls, a, limit)
    requires a in states[0].jobs && states[0].jobs[a].cursor.None? && states[0].jobs[a].release == s.db.queue[a]
    requires forall i :: 0 <= i < |calls| && calls[i].job == Some(a) ==>
               Idles(calls[i].db, o) && Freed(calls[i].db.orders[o], o, s.db.assignments[a])
    requires a !in states[|calls|].jobs
    ensures AskedIn(calls, a, states[|calls|].outbox, o)
  {
    hide Inv, Eligible, Idles, Freed, AskedIn, Follows;
    QueuedAsReserved(s, a);
    forall i | 0 <= i < |calls| && calls[i].job == Some(a) ensures o in Eligible(calls[i].db, states[0].jobs[a].release) {
      FreedExactly(calls[i].db, s.db.assignments[a], o);
    }
    GoneJobHasReached(states, calls, a, limit, o);
  }

  // And no others: what a page of the job adds to the outbox asks about such orders only, now.
  lemma OnlyFreedOrdersAreAsked(s: State, before: Snapshot, c: Call, after: Snapshot, a: Id, limit: nat, i: Id)
    requires Inv(s) && a in s.db.queue && a in s.db.assignments
    requires Called(before, c, after, limit) && c.job == Some(a) && before.jobs[a].release == s.db.queue[a]
    requires i in after.outbox && (i !in before.outbox || after.outbox[i] != before.outbox[i])
    ensures after.outbox[i].payload.Dispatch? && after.outbox[i].publishedAt.None?
    ensures var request := after.outbox[i].payload.request;
            && Idles(c.db, request.order) && Freed(c.db.orders[request.order], request.order, s.db.assignments[a])
            && c.db.orders[request.order].submittedAt == Some(request.submittedAt) && request.requestedAt == c.now
  {
    hide Inv, Eligible, Idles, Freed;
    QueuedAsReserved(s, a);
    IdsOrdered();
    var job := before.jobs[a];
    ThePageIsPage(Eligible(c.db, job.release), job.cursor, limit, IdBefore);
    hide ThePage, TotalOrder;
    var o := after.outbox[i].payload.request.order;
    assert o in PageOfJob(c.db, job, limit);
    FreedExactly(c.db, s.db.assignments[a], o);
  }
}
