// The ranking of driver and vehicle pairs: what recommend_candidates returns, and what the limits on
// its inputs cost.
module Ranking {
  import opened Model
  import opened Paging

  datatype Driver = Driver(id: Id, rating: real)
  datatype Vehicle = Vehicle(id: Id, capacityKg: real, capacityM3: real)
  datatype Ranked = Ranked(driver: Id, vehicle: Id, score: real)

  // ---- Scores -----------------------------------------------------------------------------------

  // round(x, 2) on reals: to the nearest hundredth, ties to the even one.
  function HalfEven(x: real): int {
    var below := x.Floor;
    var part := x - below as real;
    if part < 0.5 then below else if part > 0.5 then below + 1 else if below % 2 == 0 then below else below + 1
  }

  function Round(x: real): real { HalfEven(x * 100.0) as real / 100.0 }

  lemma RoundIsNear(x: real)
    ensures x - 0.005 <= Round(x) <= x + 0.005
  {
  }

  lemma HalfEvenKeepsOrder(x: real, y: real)
    requires x <= y
    ensures HalfEven(x) <= HalfEven(y)
  {
    if x.Floor == y.Floor {
    } else {
      assert x.Floor < y.Floor;
    }
  }

  lemma RoundKeepsOrder(x: real, y: real)
    requires x <= y
    ensures Round(x) <= Round(y)
  {
    HalfEvenKeepsOrder(x * 100.0, y * 100.0);
    Hundredths(HalfEven(x * 100.0), HalfEven(y * 100.0));
  }

  lemma Hundredths(m: int, n: int)
    requires m <= n
    ensures m as real / 100.0 <= n as real / 100.0
  {
  }

  function AtLeastOne(capacity: real): real { if capacity > 1.0 then capacity else 1.0 }

  // The share of the score a vehicle brings: full marks for an exact fit.
  function Fit(vehicle: Vehicle, weight: real, volume: real): real {
    var spareKg := (vehicle.capacityKg - weight) / AtLeastOne(vehicle.capacityKg);
    var spareM3 := (vehicle.capacityM3 - volume) / AtLeastOne(vehicle.capacityM3);
    (1.0 - (spareKg + spareM3) / 2.0) * 10.0
  }

  // What is rounded to the score.
  function Merit(driver: Driver, vehicle: Vehicle, weight: real, volume: real): real {
    driver.rating * 20.0 + Fit(vehicle, weight, volume)
  }

  function Score(driver: Driver, vehicle: Vehicle, weight: real, volume: real): real {
    Round(Merit(driver, vehicle, weight, volume))
  }

  predicate Carries(vehicle: Vehicle, weight: real, volume: real) {
    vehicle.capacityKg >= weight && vehicle.capacityM3 >= volume
  }

  function PairOf(driver: Driver, vehicle: Vehicle, weight: real, volume: real): Ranked {
    Ranked(driver.id, vehicle.id, Score(driver, vehicle, weight, volume))
  }

  lemma BetterDriverScoresMore(d: Driver, e: Driver, vehicle: Vehicle, weight: real, volume: real)
    requires d.rating <= e.rating
    ensures Score(d, vehicle, weight, volume) <= Score(e, vehicle, weight, volume)
    ensures d.rating + 0.001 <= e.rating ==> Score(d, vehicle, weight, volume) < Score(e, vehicle, weight, volume)
  {
    hide Round, Fit;
    var x, y := Merit(d, vehicle, weight, volume), Merit(e, vehicle, weight, volume);
    RoundKeepsOrder(x, y);
    RoundIsNear(x);
    RoundIsNear(y);
  }

  // ---- What a score measures ------------------------------------------------------------------------

  lemma Quotients(x: real, a: real, b: real)
    requires x >= 0.0 && 0.0 < a < b
    ensures x / a >= x / b && (x / a > x / b <==> x > 0.0)
  {
    if x > 0.0 {
      var p, q := x / a, x / b;
      assert p * a == x && q * b == x;
    } else {
      assert x / a == 0.0 && x / b == 0.0;
    }
  }

  // The share of the capacity that a cargo leaves empty, once the capacity is one or more.
  lemma EmptyShare(capacity: real, x: real)
    requires capacity >= 1.0
    ensures (capacity - x) / AtLeastOne(capacity) == 1.0 - x / capacity
  {
    assert (capacity - x) / capacity == capacity / capacity - x / capacity;
    assert capacity / capacity == 1.0;
  }

  // Weight and volume count alike.
  lemma FitIsEven(vehicle: Vehicle, weight: real, volume: real)
    ensures Fit(vehicle, weight, volume) == Fit(Vehicle(vehicle.id, vehicle.capacityM3, vehicle.capacityKg), volume, weight)
  {
  }

  // Full in both it brings ten; empty, nothing; and it is always somewhere between.
  lemma FitRange(vehicle: Vehicle, weight: real, volume: real)
    ensures vehicle.capacityKg == weight && vehicle.capacityM3 == volume ==> Fit(vehicle, weight, volume) == 10.0
    ensures weight == 0.0 && volume == 0.0 && vehicle.capacityKg >= 1.0 && vehicle.capacityM3 >= 1.0 ==> Fit(vehicle, weight, volume) == 0.0
    ensures Carries(vehicle, weight, volume) && weight >= 0.0 && volume >= 0.0 ==> 0.0 <= Fit(vehicle, weight, volume) <= 10.0
  {
    if vehicle.capacityKg >= 1.0 { EmptyShare(vehicle.capacityKg, weight); }
    if vehicle.capacityM3 >= 1.0 { EmptyShare(vehicle.capacityM3, volume); }
    if Carries(vehicle, weight, volume) && weight >= 0.0 && volume >= 0.0 {
      SpareRange(vehicle.capacityKg, weight);
      SpareRange(vehicle.capacityM3, volume);
    }
  }

  lemma SpareRange(capacity: real, x: real)
    requires 0.0 <= x <= capacity
    ensures 0.0 <= (capacity - x) / AtLeastOne(capacity) <= 1.0
  {
    var share := (capacity - x) / AtLeastOne(capacity);
    assert share * AtLeastOne(capacity) == capacity - x;
    if share > 1.0 { assert share * AtLeastOne(capacity) > AtLeastOne(capacity); }
  }

  // Of two vehicles alike in volume, the one with less weight to spare fits better, if there is any
  // weight at all.
  lemma LessSpareWeight(v: Vehicle, w: Vehicle, weight: real, volume: real)
    requires v.capacityM3 == w.capacityM3 && 1.0 <= v.capacityKg < w.capacityKg && weight >= 0.0
    ensures Fit(v, weight, volume) >= Fit(w, weight, volume)
    ensures Fit(v, weight, volume) > Fit(w, weight, volume) <==> weight > 0.0
    ensures Fit(v, weight, volume) - Fit(w, weight, volume) == 5.0 * (weight / v.capacityKg - weight / w.capacityKg)
  {
    EmptyShare(v.capacityKg, weight);
    EmptyShare(w.capacityKg, weight);
    Quotients(weight, v.capacityKg, w.capacityKg);
  }

  lemma LessSpareVolume(v: Vehicle, w: Vehicle, weight: real, volume: real)
    requires v.capacityKg == w.capacityKg && 1.0 <= v.capacityM3 < w.capacityM3 && volume >= 0.0
    ensures Fit(v, weight, volume) >= Fit(w, weight, volume)
    ensures Fit(v, weight, volume) > Fit(w, weight, volume) <==> volume > 0.0
    ensures Fit(v, weight, volume) - Fit(w, weight, volume) == 5.0 * (volume / v.capacityM3 - volume / w.capacityM3)
  {
    FitIsEven(v, weight, volume);
    FitIsEven(w, weight, volume);
    LessSpareWeight(Vehicle(v.id, v.capacityM3, v.capacityKg), Vehicle(w.id, w.capacityM3, w.capacityKg), volume, weight);
  }

  lemma RoundHundredths(n: int)
    ensures Round(n as real / 100.0) == n as real / 100.0
  {
    assert n as real / 100.0 * 100.0 == n as real;
  }

  // Scores run from nothing, for a driver without rating and an empty vehicle, to 110, for the best
  // rating and an exact fit.
  lemma ScoreRange(driver: Driver, vehicle: Vehicle, weight: real, volume: real)
    requires 0.0 <= driver.rating <= 5.0 && Carries(vehicle, weight, volume) && weight >= 0.0 && volume >= 0.0
    ensures 0.0 <= Score(driver, vehicle, weight, volume) <= 110.0
    ensures driver.rating == 5.0 && vehicle.capacityKg == weight && vehicle.capacityM3 == volume ==>
              Score(driver, vehicle, weight, volume) == 110.0
    ensures driver.rating == 0.0 && weight == 0.0 && volume == 0.0 && vehicle.capacityKg >= 1.0 && vehicle.capacityM3 >= 1.0 ==>
              Score(driver, vehicle, weight, volume) == 0.0
  {
    FitRange(vehicle, weight, volume);
    RoundHundredths(0);
    RoundHundredths(11000);
    hide Fit, Round;
    RoundKeepsOrder(0.0, Merit(driver, vehicle, weight, volume));
    RoundKeepsOrder(Merit(driver, vehicle, weight, volume), 110.0);
  }

  // More than half a point of rating outweighs any difference in fit.
  lemma RatingOutweighsFit(d: Driver, e: Driver, v: Vehicle, w: Vehicle, weight: real, volume: real)
    requires Carries(v, weight, volume) && Carries(w, weight, volume) && weight >= 0.0 && volume >= 0.0
    requires e.rating - d.rating > 0.5005
    ensures Score(e, w, weight, volume) > Score(d, v, weight, volume)
  {
    FitRange(v, weight, volume);
    FitRange(w, weight, volume);
    hide Fit, Round;
    RoundIsNear(Merit(d, v, weight, volume));
    RoundIsNear(Merit(e, w, weight, volume));
  }

  // ---- The order of candidates --------------------------------------------------------------------

  // By falling score, then by the identifiers of the driver and of the vehicle.
  predicate Better(x: Ranked, y: Ranked) {
    x.score > y.score
    || (x.score == y.score && (x.driver < y.driver || (x.driver == y.driver && x.vehicle < y.vehicle)))
  }

  lemma BetterOrders()
    ensures TotalOrder(Better)
  {
  }

  // Every pair of which the vehicle carries the cargo.
  function Feasible(drivers: set<Driver>, vehicles: set<Vehicle>, weight: real, volume: real): set<Ranked> {
    set d, v | d in drivers && v in vehicles && Carries(v, weight, volume) :: PairOf(d, v, weight, volume)
  }

  const TOP := 5

  ghost function Best(candidates: set<Ranked>, limit: nat): seq<Ranked> {
    BetterOrders();
    ThePage(candidates, None, limit, Better)
  }

  function DriversIn(drivers: seq<Driver>): set<Driver> { set d | d in drivers }
  function VehiclesIn(vehicles: seq<Vehicle>): set<Vehicle> { set v | v in vehicles }

  predicate DistinctDrivers(drivers: seq<Driver>) { forall i, j :: 0 <= i < j < |drivers| ==> drivers[i].id != drivers[j].id }
  predicate DistinctVehicles(vehicles: seq<Vehicle>) { forall i, j :: 0 <= i < j < |vehicles| ==> vehicles[i].id != vehicles[j].id }

  predicate NoneTwice(list: seq<Ranked>) { forall i, j :: 0 <= i < j < |list| ==> list[i] != list[j] }

  // Sorts the candidates, each moved down to its place.
  method SortCandidates(list: seq<Ranked>) returns (sorted: seq<Ranked>)
    requires NoneTwice(list)
    ensures Ascending(sorted, Better) && forall x :: x in sorted <==> x in list
  {
    sorted := [];
    for i := 0 to |list|
      invariant Ascending(sorted, Better) && forall x :: x in sorted <==> x in list[..i]
    {
      var x := list[i];
      assert list[..i + 1] == list[..i] + [x] && x !in list[..i];
      var k := |sorted|;
      while k > 0 && Better(x, sorted[k - 1])
        invariant 0 <= k <= |sorted|
        invariant forall j :: k <= j < |sorted| ==> Better(x, sorted[j])
      {
        k := k - 1;
      }
      assert forall j :: 0 <= j < k ==> Better(sorted[j], x) by {
        if k > 0 { assert sorted[k - 1] in sorted; }
      }
      sorted := sorted[..k] + [x] + sorted[k..];
    }
    assert list[..|list|] == list;
  }

  // The candidates of one driver, vehicle by vehicle.
  function PairsOf(driver: Driver, vehicles: seq<Vehicle>, weight: real, volume: real): set<Ranked> {
    set v | v in vehicles && Carries(v, weight, volume) :: PairOf(driver, v, weight, volume)
  }

  function Pairs(drivers: seq<Driver>, vehicles: seq<Vehicle>, weight: real, volume: real): set<Ranked> {
    Feasible(DriversIn(drivers), VehiclesIn(vehicles), weight, volume)
  }

  lemma PairsGrow(drivers: seq<Driver>, i: nat, vehicles: seq<Vehicle>, weight: real, volume: real)
    requires i < |drivers|
    ensures Pairs(drivers[..i + 1], vehicles, weight, volume)
            == Pairs(drivers[..i], vehicles, weight, volume) + PairsOf(drivers[i], vehicles, weight, volume)
  {
    hide PairOf, Carries;
    assert drivers[..i + 1] == drivers[..i] + [drivers[i]];
    assert DriversIn(drivers[..i + 1]) == DriversIn(drivers[..i]) + {drivers[i]};
  }

  lemma RowGrows(driver: Driver, vehicles: seq<Vehicle>, j: nat, weight: real, volume: real)
    requires j < |vehicles|
    ensures PairsOf(driver, vehicles[..j + 1], weight, volume)
            == PairsOf(driver, vehicles[..j], weight, volume)
               + if Carries(vehicles[j], weight, volume) then {PairOf(driver, vehicles[j], weight, volume)} else {}
  {
    hide PairOf, Carries;
    assert vehicles[..j + 1] == vehicles[..j] + [vehicles[j]];
  }

  // A pair not seen before is new: identifiers tell pairs apart.
  lemma NewPair(drivers: seq<Driver>, vehicles: seq<Vehicle>, i: nat, j: nat, weight: real, volume: real)
    requires DistinctDrivers(drivers) && DistinctVehicles(vehicles) && i < |drivers| && j < |vehicles|
    ensures PairOf(drivers[i], vehicles[j], weight, volume) !in Pairs(drivers[..i], vehicles, weight, volume)
    ensures PairOf(drivers[i], vehicles[j], weight, volume) !in PairsOf(drivers[i], vehicles[..j], weight, volume)
  {
    hide Score, Carries;
  }

  lemma TopIsPage(candidates: set<Ranked>, sorted: seq<Ranked>, limit: nat)
    requires Ascending(sorted, Better) && forall x :: x in sorted <==> x in candidates
    ensures sorted[..Min(limit, |sorted|)] == Best(candidates, limit)
  {
    BetterOrders();
    assert After(candidates, None, Better) == candidates;
    AscendingIsUnique(sorted, Sorted(candidates, Better), Better);
  }

  // recommend_candidates: the best five of the pairs, whatever the order of the two lists.
  method RecommendCandidates(drivers: seq<Driver>, vehicles: seq<Vehicle>, weight: real, volume: real) returns (best: seq<Ranked>)
    requires DistinctDrivers(drivers) && DistinctVehicles(vehicles)
    ensures best == Best(Pairs(drivers, vehicles, weight, volume), TOP)
  {
    hide PairOf, Carries, Pairs, PairsOf, DistinctDrivers, DistinctVehicles;
    var candidates: seq<Ranked> := [];
    NoPairs(vehicles, weight, volume);
    for i := 0 to |drivers|
      invariant NoneTwice(candidates) && forall x :: x in candidates <==> x in Pairs(drivers[..i], vehicles, weight, volume)
    {
      ghost var before := candidates;
      NoPairsOf(drivers[i], weight, volume);
      for j := 0 to |vehicles|
        invariant NoneTwice(candidates)
        invariant forall x :: x in candidates <==>
                    x in Pairs(drivers[..i], vehicles, weight, volume) || x in PairsOf(drivers[i], vehicles[..j], weight, volume)
      {
        RowGrows(drivers[i], vehicles, j, weight, volume);
        NewPair(drivers, vehicles, i, j, weight, volume);
        var vehicle := vehicles[j];
        if !Carries(vehicle, weight, volume) { continue; }
        var score := Score(drivers[i], vehicle, weight, volume);
        assert Ranked(drivers[i].id, vehicle.id, score) == PairOf(drivers[i], vehicle, weight, volume) by { PairIs(drivers[i], vehicle, weight, volume); }
        candidates := candidates + [Ranked(drivers[i].id, vehicle.id, score)];
      }
      assert vehicles[..|vehicles|] == vehicles;
      PairsGrow(drivers, i, vehicles, weight, volume);
    }
    assert drivers[..|drivers|] == drivers;
    var sorted := SortCandidates(candidates);
    TopIsPage(Pairs(drivers, vehicles, weight, volume), sorted, TOP);
    best := sorted[..Min(TOP, |sorted|)];
  }

  lemma PairIs(driver: Driver, vehicle: Vehicle, weight: real, volume: real)
    ensures PairOf(driver, vehicle, weight, volume) == Ranked(driver.id, vehicle.id, Score(driver, vehicle, weight, volume))
  {
    hide Score;
  }

  lemma NoPairs(vehicles: seq<Vehicle>, weight: real, volume: real)
    ensures Pairs([], vehicles, weight, volume) == {}
  {
    hide PairOf, Carries;
  }

  lemma NoPairsOf(driver: Driver, weight: real, volume: real)
    ensures PairsOf(driver, [], weight, volume) == {}
  {
    hide PairOf, Carries;
  }

  // The order of the two lists makes no difference.
  lemma OrderOfInputsIsIrrelevant(drivers: seq<Driver>, others: seq<Driver>, vehicles: seq<Vehicle>, more: seq<Vehicle>,
                                  weight: real, volume: real)
    requires DriversIn(drivers) == DriversIn(others) && VehiclesIn(vehicles) == VehiclesIn(more)
    ensures Best(Pairs(drivers, vehicles, weight, volume), TOP) == Best(Pairs(others, more, weight, volume), TOP)
  {
  }

  // ---- Leaving candidates out ------------------------------------------------------------------------

  // The candidates at least as good as x, by score.
  function Matching(candidates: set<Ranked>, score: real): set<Ranked> {
    set x | x in candidates && x.score >= score
  }

  function Beating(candidates: set<Ranked>, x: Ranked): set<Ranked> {
    set y | y in candidates && Better(y, x)
  }

  function Among(q: seq<Ranked>): set<Ranked> { set x | x in q }

  lemma {:induction false} FewAmong(q: seq<Ranked>)
    ensures |Among(q)| <= |q|
  {
    if q != [] {
      FewAmong(q[1..]);
      assert Among(q) == Among(q[1..]) + {q[0]};
    }
  }

  lemma SubsetIsSmaller<T>(small: set<T>, large: set<T>)
    requires small <= large
    ensures |small| <= |large|
  {
    if small != {} {
      var x :| x in small;
      SubsetIsSmaller(small - {x}, large - {x});
    }
  }

  // Whatever beats the element at place i comes before it, so exactly i candidates do.
  lemma BeatenByFew(candidates: set<Ranked>, limit: nat, i: nat)
    requires i < |Best(candidates, limit)|
    ensures Best(candidates, limit)[i] in candidates && |Beating(candidates, Best(candidates, limit)[i])| == i
    ensures Beating(candidates, Best(candidates, limit)[i]) == Among(Best(candidates, limit)[..i])
  {
    hide TotalOrder, Best, Beating, Among;
    BestIsPage(candidates, limit);
    var q := Best(candidates, limit);
    assert q[i] in q;
    BeatersComeFirst(candidates, q, limit, i);
    PrefixCount(q, i);
  }

  lemma BestIsPage(candidates: set<Ranked>, limit: nat)
    ensures TotalOrder(Better) && IsPage(Best(candidates, limit), candidates, None, limit, Better)
    ensures Ascending(Best(candidates, limit), Better) && forall x :: x in Best(candidates, limit) ==> x in candidates
  {
    BetterOrders();
    hide ThePage, TotalOrder;
    ThePageIsPage(candidates, None, limit, Better);
  }

  lemma BeatersComeFirst(candidates: set<Ranked>, q: seq<Ranked>, limit: nat, i: nat)
    requires TotalOrder(Better) && IsPage(q, candidates, None, limit, Better) && i < |q|
    ensures Beating(candidates, q[i]) == Among(q[..i])
  {
    forall x | x in Beating(candidates, q[i]) ensures x in Among(q[..i]) {
      assert x in After(candidates, None, Better) && Better(x, q[i]) && q[i] in q;
      assert x in q;
      var j :| 0 <= j < |q| && q[j] == x;
      assert j < i;
      assert q[..i][j] == x;
    }
    forall x | x in Among(q[..i]) ensures x in Beating(candidates, q[i]) {
      var j :| 0 <= j < i && q[..i][j] == x;
      assert q[j] == x && q[j] in q;
    }
  }

  lemma PrefixCount(q: seq<Ranked>, n: nat)
    requires Ascending(q, Better) && n <= |q|
    ensures |Among(q[..n])| == n
  {
    BetterOrders();
    hide TotalOrder;
    assert forall j, k :: 0 <= j < k < |q[..n]| ==> Better(q[..n][j], q[..n][k]);
    AscendingCount(q[..n], Better);
  }

  lemma BestSize(candidates: set<Ranked>, limit: nat)
    requires limit > 0
    ensures |Best(candidates, limit)| == Min(limit, |candidates|)
  {
    BetterOrders();
    RestAfterPage(candidates, None, limit, Better);
    assert After(candidates, None, Better) == candidates;
  }

  lemma BeatenByFewIsKept(all: set<Ranked>, some: set<Ranked>, limit: nat, i: nat)
    requires some <= all && forall x :: x in all && x !in some ==> |Beating(some, x)| >= limit
    requires i < |Best(all, limit)| && i < limit
    ensures Best(all, limit)[i] in some
  {
    hide Best, Beating;
    BeatenByFew(all, limit, i);
    var x := Best(all, limit)[i];
    BeatingGrows(some, all, x);
    SubsetIsSmaller(Beating(some, x), Beating(all, x));
  }

  // Leaving out candidates that enough others beat changes nothing.
  lemma BeatenLeftOut(all: set<Ranked>, some: set<Ranked>, limit: nat)
    requires some <= all && forall x :: x in all && x !in some ==> |Beating(some, x)| >= limit
    ensures Best(all, limit) == Best(some, limit)
  {
    BestIsPage(all, limit);
    var p := Best(all, limit);
    assert |p| <= limit;
    forall i | 0 <= i < |p| ensures p[i] in some {
      BeatenByFewIsKept(all, some, limit, i);
    }
    PageOfSome(p, all, some, limit);
    hide ThePage, TotalOrder, IsPage;
    PageIsThePage(p, some, None, limit, Better);
  }

  lemma PageOfSome(p: seq<Ranked>, all: set<Ranked>, some: set<Ranked>, limit: nat)
    requires IsPage(p, all, None, limit, Better) && some <= all && forall i :: 0 <= i < |p| ==> p[i] in some
    ensures IsPage(p, some, None, limit, Better)
  {
    assert After(some, None, Better) == some && After(all, None, Better) == all;
  }

  lemma BeatingGrows(some: set<Ranked>, all: set<Ranked>, x: Ranked)
    requires some <= all
    ensures Beating(some, x) <= Beating(all, x)
  {
  }

  // The i-th score of a larger set is at least that of a smaller one.
  lemma MoreScoreMore(all: set<Ranked>, some: set<Ranked>, limit: nat, i: nat)
    requires some <= all && i < |Best(all, limit)| && i < |Best(some, limit)|
    ensures Best(all, limit)[i].score >= Best(some, limit)[i].score
  {
    var p, q := Best(all, limit), Best(some, limit);
    BestIsPage(some, limit);
    BeatenByFew(all, limit, i);
    hide Best, TotalOrder, IsPage;
    if p[i].score < q[i].score {
      forall x | x in Among(q[..i + 1]) ensures x in Beating(all, p[i]) {
        var j :| 0 <= j < i + 1 && q[..i + 1][j] == x;
        assert q[j] == x && x in q;
        if j < i { assert Better(q[j], q[i]); }
      }
      PrefixCount(q, i + 1);
      SubsetIsSmaller(Among(q[..i + 1]), Beating(all, p[i]));
      assert false;
    }
  }

  // A candidate left out although its score would show is matched by too many for that.
  lemma KeptIfTop(all: set<Ranked>, some: set<Ranked>, limit: nat, i: nat, x: Ranked)
    requires some <= all && forall x :: x in all && x !in some ==> |Matching(some, x.score)| >= limit
    requires i < |Best(some, limit)| && i < limit && x in all && x.score > Best(some, limit)[i].score
    ensures x in some
  {
    BeatenByFew(some, limit, i);
    var y := Best(some, limit)[i];
    hide Best;
    if x !in some {
      assert Matching(some, x.score) <= Beating(some, y);
      SubsetIsSmaller(Matching(some, x.score), Beating(some, y));
      assert false;
    }
  }

  lemma FewerScoreAsMuch(all: set<Ranked>, some: set<Ranked>, limit: nat, i: nat)
    requires some <= all && forall x :: x in all && x !in some ==> |Matching(some, x.score)| >= limit
    requires i < |Best(all, limit)| && i < |Best(some, limit)| && i < limit
    ensures Best(all, limit)[i].score <= Best(some, limit)[i].score
  {
    var p, q := Best(all, limit), Best(some, limit);
    BestIsPage(all, limit);
    BeatenByFew(some, limit, i);
    hide Best, TotalOrder, IsPage;
    if p[i].score > q[i].score {
      forall x | x in Among(p[..i + 1]) ensures x in Beating(some, q[i]) {
        var j :| 0 <= j < i + 1 && p[..i + 1][j] == x;
        assert p[j] == x && x in p;
        if j < i { assert Better(p[j], p[i]); }
        KeptIfTop(all, some, limit, i, x);
      }
      PrefixCount(p, i + 1);
      SubsetIsSmaller(Among(p[..i + 1]), Beating(some, q[i]));
      assert false;
    }
  }

  function Scores(list: seq<Ranked>): seq<real> {
    seq(|list|, i requires 0 <= i < |list| => list[i].score)
  }

  // Leaving out candidates whose score enough others match leaves the scores as they were.
  lemma MatchedLeftOut(all: set<Ranked>, some: set<Ranked>, limit: nat)
    requires some <= all && limit > 0
    requires forall x :: x in all && x !in some ==> |Matching(some, x.score)| >= limit
    ensures Scores(Best(all, limit)) == Scores(Best(some, limit))
  {
    BestSize(all, limit);
    BestSize(some, limit);
    SubsetIsSmaller(some, all);
    if x :| x in all && x !in some { SubsetIsSmaller(Matching(some, x.score), some); } else { assert all == some; }
    forall i | 0 <= i < |Best(all, limit)| ensures Best(all, limit)[i].score == Best(some, limit)[i].score {
      MoreScoreMore(all, some, limit, i);
      FewerScoreAsMuch(all, some, limit, i);
    }
  }

  // Only such candidates: a candidate left out that fewer others beat would have been among the best.
  lemma LeftOutExactly(all: set<Ranked>, some: set<Ranked>, limit: nat)
    requires some <= all
    ensures Best(all, limit) == Best(some, limit) <==> forall x :: x in all && x !in some ==> |Beating(some, x)| >= limit
  {
    hide Best, Beating;
    if forall x :: x in all && x !in some ==> |Beating(some, x)| >= limit {
      BeatenLeftOut(all, some, limit);
    } else {
      var x :| x in all && x !in some && |Beating(some, x)| < limit;
      if Best(all, limit) == Best(some, limit) { BestBeat(all, some, limit, x); }
    }
  }

  // The best of some, taken from all, beat whatever is not among some.
  lemma BestBeat(all: set<Ranked>, some: set<Ranked>, limit: nat, x: Ranked)
    requires some <= all && x in all && x !in some && Best(all, limit) == Best(some, limit)
    ensures |Beating(some, x)| >= limit
  {
    BestIsPage(all, limit);
    BestIsPage(some, limit);
    var p := Best(all, limit);
    hide Best, TotalOrder, Ascending;
    assert x !in p && x in After(all, None, Better);
    assert Among(p) <= Beating(some, x);
    assert p[..|p|] == p;
    PrefixCount(p, |p|);
    SubsetIsSmaller(Among(p), Beating(some, x));
  }

  // The same for the scores alone: a candidate left out does not show exactly when enough others
  // score as much.
  lemma ScoresLeftOutExactly(all: set<Ranked>, some: set<Ranked>, limit: nat)
    requires some <= all && limit > 0
    ensures Scores(Best(all, limit)) == Scores(Best(some, limit))
            <==> forall x :: x in all && x !in some ==> |Matching(some, x.score)| >= limit
  {
    hide Best, Matching, Scores;
    if forall x :: x in all && x !in some ==> |Matching(some, x.score)| >= limit {
      MatchedLeftOut(all, some, limit);
    } else {
      var x :| x in all && x !in some && |Matching(some, x.score)| < limit;
      ScoreShows(all, some, limit, x);
    }
  }

  // At place m, the number of kept candidates that score as much, the scores differ.
  lemma ScoreShows(all: set<Ranked>, some: set<Ranked>, limit: nat, x: Ranked)
    requires some <= all && x in all && x !in some && |Matching(some, x.score)| < limit
    ensures Scores(Best(all, limit)) != Scores(Best(some, limit))
  {
    var m := |Matching(some, x.score)|;
    var p, q := Best(all, limit), Best(some, limit);
    assert Matching(some, x.score) + {x} <= Matching(all, x.score);
    SubsetIsSmaller(Matching(some, x.score) + {x}, Matching(all, x.score));
    SubsetIsSmaller(Matching(all, x.score), all);
    BestSize(all, limit);
    BeatenByFew(all, limit, m);
    BestIsPage(some, limit);
    hide Best, TotalOrder, IsPage;
    if p[m].score < x.score {
      assert Matching(all, x.score) <= Beating(all, p[m]);
      SubsetIsSmaller(Matching(all, x.score), Beating(all, p[m]));
      assert false;
    }
    if Scores(p) == Scores(q) {
      assert Scores(p)[m] == Scores(q)[m] && |Scores(q)| == |q|;
      assert Among(q[..m + 1]) <= Matching(some, x.score) by { TopMatches(q, some, m, x.score); }
      PrefixCount(q, m + 1);
      SubsetIsSmaller(Among(q[..m + 1]), Matching(some, x.score));
      assert false;
    }
  }

  lemma TopMatches(q: seq<Ranked>, some: set<Ranked>, m: nat, score: real)
    requires Ascending(q, Better) && (forall y :: y in q ==> y in some) && m < |q| && q[m].score >= score
    ensures Among(q[..m + 1]) <= Matching(some, score)
  {
    forall y | y in Among(q[..m + 1]) ensures y in Matching(some, score) {
      var j :| 0 <= j < m + 1 && q[..m + 1][j] == y;
      assert q[j] == y && y in q;
      if j < m { assert Better(q[j], q[m]); }
    }
  }

  // ---- Who comes first ---------------------------------------------------------------------------------

  // Where a candidate is listed, every better one is listed before it.
  lemma BetterComesFirst(candidates: set<Ranked>, limit: nat, j: nat, x: Ranked)
    requires j < |Best(candidates, limit)| && x in candidates && Better(x, Best(candidates, limit)[j])
    ensures exists i :: 0 <= i < j && Best(candidates, limit)[i] == x
  {
    BeatenByFew(candidates, limit, j);
    var q := Best(candidates, limit);
    hide Best;
    assert x in Among(q[..j]);
    var i :| 0 <= i < j && q[..j][i] == x;
  }

  // For one driver: of two carrying vehicles that differ only in weight capacity, the one with less to
  // spare never scores less. As soon as the difference survives the rounding, as it does from a
  // five-hundredth of the capacity on, its pair comes first wherever the other is recommended.
  lemma SnugVehicleFirst(drivers: seq<Driver>, vehicles: seq<Vehicle>, weight: real, volume: real, d: Driver, v: Vehicle, w: Vehicle, j: nat)
    requires d in drivers && v in vehicles && w in vehicles && Carries(v, weight, volume) && weight >= 0.0
    requires v.capacityM3 == w.capacityM3 && 1.0 <= v.capacityKg < w.capacityKg
    ensures Score(d, v, weight, volume) >= Score(d, w, weight, volume)
    ensures weight / v.capacityKg - weight / w.capacityKg > 0.002 ==> Score(d, v, weight, volume) > Score(d, w, weight, volume)
    ensures var best := Best(Pairs(drivers, vehicles, weight, volume), TOP);
            Score(d, v, weight, volume) != Score(d, w, weight, volume) && j < |best| && best[j] == PairOf(d, w, weight, volume) ==>
              exists i :: 0 <= i < j && best[i] == PairOf(d, v, weight, volume)
  {
    LessSpareWeight(v, w, weight, volume);
    ScoresFollowFit(d, v, w, weight, volume);
    InPairs(drivers, vehicles, weight, volume, d, v);
    hide Best, Pairs, Score;
    var candidates := Pairs(drivers, vehicles, weight, volume);
    if Score(d, v, weight, volume) != Score(d, w, weight, volume) && j < |Best(candidates, TOP)|
       && Best(candidates, TOP)[j] == PairOf(d, w, weight, volume) {
      BetterComesFirst(candidates, TOP, j, PairOf(d, v, weight, volume));
    }
  }

  // And likewise in volume.
  lemma CompactVehicleFirst(drivers: seq<Driver>, vehicles: seq<Vehicle>, weight: real, volume: real, d: Driver, v: Vehicle, w: Vehicle, j: nat)
    requires d in drivers && v in vehicles && w in vehicles && Carries(v, weight, volume) && volume >= 0.0
    requires v.capacityKg == w.capacityKg && 1.0 <= v.capacityM3 < w.capacityM3
    ensures Score(d, v, weight, volume) >= Score(d, w, weight, volume)
    ensures volume / v.capacityM3 - volume / w.capacityM3 > 0.002 ==> Score(d, v, weight, volume) > Score(d, w, weight, volume)
    ensures var best := Best(Pairs(drivers, vehicles, weight, volume), TOP);
            Score(d, v, weight, volume) != Score(d, w, weight, volume) && j < |best| && best[j] == PairOf(d, w, weight, volume) ==>
              exists i :: 0 <= i < j && best[i] == PairOf(d, v, weight, volume)
  {
    LessSpareVolume(v, w, weight, volume);
    ScoresFollowFit(d, v, w, weight, volume);
    InPairs(drivers, vehicles, weight, volume, d, v);
    hide Best, Pairs, Score;
    var candidates := Pairs(drivers, vehicles, weight, volume);
    if Score(d, v, weight, volume) != Score(d, w, weight, volume) && j < |Best(candidates, TOP)|
       && Best(candidates, TOP)[j] == PairOf(d, w, weight, volume) {
      BetterComesFirst(candidates, TOP, j, PairOf(d, v, weight, volume));
    }
  }

  lemma ScoresFollowFit(d: Driver, v: Vehicle, w: Vehicle, weight: real, volume: real)
    requires Fit(v, weight, volume) >= Fit(w, weight, volume)
    ensures Score(d, v, weight, volume) >= Score(d, w, weight, volume)
    ensures Fit(v, weight, volume) - Fit(w, weight, volume) > 0.01 ==> Score(d, v, weight, volume) > Score(d, w, weight, volume)
  {
    hide Round, Fit;
    RoundKeepsOrder(Merit(d, w, weight, volume), Merit(d, v, weight, volume));
    RoundIsNear(Merit(d, w, weight, volume));
    RoundIsNear(Merit(d, v, weight, volume));
  }

  lemma InPairs(drivers: seq<Driver>, vehicles: seq<Vehicle>, weight: real, volume: real, d: Driver, v: Vehicle)
    requires d in drivers && v in vehicles && Carries(v, weight, volume)
    ensures PairOf(d, v, weight, volume) in Pairs(drivers, vehicles, weight, volume)
  {
    hide Score, Carries;
  }

  // ---- Exactly what is recommended ---------------------------------------------------------------------

  predicate PairedBy(x: Ranked, d: Driver, v: Vehicle, weight: real, volume: real) {
    v.capacityKg >= weight && v.capacityM3 >= volume && x.driver == d.id && x.vehicle == v.id && x.score == Score(d, v, weight, volume)
  }

  // Five pairs, or all there are; each of a driver and a vehicle that takes the cargo; by falling score,
  // then by driver, then by vehicle; and no such pair left out that would come before one listed.
  lemma RankingExactly(drivers: seq<Driver>, vehicles: seq<Vehicle>, weight: real, volume: real)
    ensures var best := Best(Pairs(drivers, vehicles, weight, volume), TOP);
            && |best| <= 5
            && (forall i :: 0 <= i < |best| ==>
                  exists d, v :: d in drivers && v in vehicles && PairedBy(best[i], d, v, weight, volume))
            && (forall i, j :: 0 <= i < j < |best| ==>
                  || best[i].score > best[j].score
                  || (best[i].score == best[j].score && best[i].driver < best[j].driver)
                  || (best[i].score == best[j].score && best[i].driver == best[j].driver && best[i].vehicle < best[j].vehicle))
            && (forall d, v, x :: d in drivers && v in vehicles && PairedBy(x, d, v, weight, volume) && x !in best ==>
                  |best| == 5 && forall i :: 0 <= i < 5 ==>
                    || best[i].score > x.score
                    || (best[i].score == x.score && best[i].driver < x.driver)
                    || (best[i].score == x.score && best[i].driver == x.driver && best[i].vehicle < x.vehicle))
  {
    var candidates := Pairs(drivers, vehicles, weight, volume);
    BestIsPage(candidates, TOP);
    var best := Best(candidates, TOP);
    hide Best, TotalOrder;
    forall i | 0 <= i < |best| ensures exists d, v :: d in drivers && v in vehicles && PairedBy(best[i], d, v, weight, volume) {
      assert best[i] in best && best[i] in candidates;
      PairsArePaired(drivers, vehicles, weight, volume, best[i]);
    }
    forall d, v, x | d in drivers && v in vehicles && PairedBy(x, d, v, weight, volume) && x !in best
      ensures |best| == 5 && forall i :: 0 <= i < 5 ==> Better(best[i], x)
    {
      InPairs(drivers, vehicles, weight, volume, d, v);
      assert x == PairOf(d, v, weight, volume) && x in After(candidates, None, Better);
      forall i | 0 <= i < |best| ensures Better(best[i], x) { assert best[i] in best; }
    }
  }

  lemma PairsArePaired(drivers: seq<Driver>, vehicles: seq<Vehicle>, weight: real, volume: real, x: Ranked)
    requires x in Pairs(drivers, vehicles, weight, volume)
    ensures exists d, v :: d in drivers && v in vehicles && PairedBy(x, d, v, weight, volume)
  {
    hide Score;
    var d, v :| d in drivers && v in vehicles && Carries(v, weight, volume) && x == PairOf(d, v, weight, volume);
    assert PairedBy(x, d, v, weight, volume);
  }

  // ---- The cap on drivers: the best rated, by identifier among equals -------------------------------------

  predicate RatedBefore(d: Driver, e: Driver) { d.rating > e.rating || (d.rating == e.rating && d.id < e.id) }

  // Drivers are told apart by their identifiers, so rating and identifier order them.
  predicate Identified(drivers: set<Driver>) { forall d, e :: d in drivers && e in drivers && d.id == e.id ==> d == e }

  lemma DriversOrdered()
    ensures TotalOrder(RatedBefore)
  {
  }

  ghost function KeptDrivers(drivers: set<Driver>, cap: nat): seq<Driver> {
    DriversOrdered();
    ThePage(drivers, None, cap, RatedBefore)
  }

  function WithVehicle(page: seq<Driver>, vehicle: Vehicle, weight: real, volume: real): seq<Ranked> {
    seq(|page|, i requires 0 <= i < |page| => PairOf(page[i], vehicle, weight, volume))
  }

  lemma {:induction false} CountDistinct(q: seq<Ranked>)
    requires NoneTwice(q)
    ensures |Among(q)| == |q|
  {
    if q != [] {
      CountDistinct(q[1..]);
      assert Among(q) == Among(q[1..]) + {q[0]};
      assert q[0] !in q[1..];
    }
  }

  // Every driver kept goes before a driver left out, and there are `cap` of them.
  lemma KeptGoBefore(drivers: set<Driver>, cap: nat, d: Driver)
    requires d in drivers && d !in KeptDrivers(drivers, cap)
    ensures var page := KeptDrivers(drivers, cap);
            |page| == cap && Ascending(page, RatedBefore) && forall i :: 0 <= i < cap ==> page[i] in drivers && RatedBefore(page[i], d)
  {
    DriversOrdered();
    ThePageIsPage(drivers, None, cap, RatedBefore);
    hide ThePage, TotalOrder;
    assert d in After(drivers, None, RatedBefore);
    var page := KeptDrivers(drivers, cap);
    forall i | 0 <= i < |page| ensures page[i] in drivers && RatedBefore(page[i], d) { assert page[i] in page; }
  }

  // With the same vehicle each of them makes a pair of its own.
  lemma KeptPairs(drivers: set<Driver>, cap: nat, d: Driver, vehicle: Vehicle, vehicles: set<Vehicle>, weight: real, volume: real)
    requires Identified(drivers) && d in drivers && d !in KeptDrivers(drivers, cap)
    requires vehicle in vehicles && Carries(vehicle, weight, volume)
    ensures var pairs := Among(WithVehicle(KeptDrivers(drivers, cap), vehicle, weight, volume));
            |pairs| == cap && pairs <= Feasible(DriversIn(KeptDrivers(drivers, cap)), vehicles, weight, volume)
  {
    hide Carries, Score, KeptDrivers;
    KeptGoBefore(drivers, cap, d);
    var page := KeptDrivers(drivers, cap);
    var list := WithVehicle(page, vehicle, weight, volume);
    forall i, j | 0 <= i < j < |list| ensures list[i] != list[j] {
      assert RatedBefore(page[i], page[j]);
      assert list[i].driver == page[i].id && list[j].driver == page[j].id;
    }
    CountDistinct(list);
    forall x | x in Among(list) ensures x in Feasible(DriversIn(page), vehicles, weight, volume) {
      var i :| 0 <= i < |list| && list[i] == x;
      assert page[i] in DriversIn(page) && x == PairOf(page[i], vehicle, weight, volume);
    }
  }

  lemma KeptAreFeasible(drivers: set<Driver>, cap: nat, vehicles: set<Vehicle>, weight: real, volume: real)
    ensures Feasible(DriversIn(KeptDrivers(drivers, cap)), vehicles, weight, volume) <= Feasible(drivers, vehicles, weight, volume)
  {
    DriversOrdered();
    ThePageIsPage(drivers, None, cap, RatedBefore);
    hide ThePage, TotalOrder, PairOf, Carries;
  }

  lemma LeftOutPair(drivers: set<Driver>, vehicles: set<Vehicle>, cap: nat, weight: real, volume: real, x: Ranked)
    returns (d: Driver, vehicle: Vehicle)
    requires x in Feasible(drivers, vehicles, weight, volume)
    requires x !in Feasible(DriversIn(KeptDrivers(drivers, cap)), vehicles, weight, volume)
    ensures d in drivers && d !in KeptDrivers(drivers, cap) && vehicle in vehicles && Carries(vehicle, weight, volume)
    ensures x == PairOf(d, vehicle, weight, volume)
  {
    hide Carries, PairOf, KeptDrivers;
    d, vehicle :| d in drivers && vehicle in vehicles && Carries(vehicle, weight, volume) && x == PairOf(d, vehicle, weight, volume);
    assert d in KeptDrivers(drivers, cap) ==> d in DriversIn(KeptDrivers(drivers, cap));
  }

  // Keeping the best `cap` drivers, five or more, loses none of the five best scores.
  lemma DriverCapKeepsScores(drivers: set<Driver>, vehicles: set<Vehicle>, cap: nat, weight: real, volume: real)
    requires Identified(drivers) && cap >= TOP
    ensures Scores(Best(Feasible(DriversIn(KeptDrivers(drivers, cap)), vehicles, weight, volume), TOP))
            == Scores(Best(Feasible(drivers, vehicles, weight, volume), TOP))
  {
    hide KeptDrivers, Feasible, Best, Carries, Score;
    var all, some := Feasible(drivers, vehicles, weight, volume), Feasible(DriversIn(KeptDrivers(drivers, cap)), vehicles, weight, volume);
    KeptAreFeasible(drivers, cap, vehicles, weight, volume);
    forall x | x in all && x !in some ensures |Matching(some, x.score)| >= TOP {
      var d, vehicle := LeftOutPair(drivers, vehicles, cap, weight, volume, x);
      KeptPairs(drivers, cap, d, vehicle, vehicles, weight, volume);
      var list := WithVehicle(KeptDrivers(drivers, cap), vehicle, weight, volume);
      forall y | y in Among(list) ensures y in Matching(some, x.score) {
        var i :| 0 <= i < |list| && list[i] == y;
        KeptGoBefore(drivers, cap, d);
        BetterDriverScoresMore(d, KeptDrivers(drivers, cap)[i], vehicle, weight, volume);
      }
      SubsetIsSmaller(Among(list), Matching(some, x.score));
    }
    MatchedLeftOut(all, some, TOP);
  }

  lemma SameRatingSameScore(d: Driver, e: Driver, vehicle: Vehicle, weight: real, volume: real)
    ensures d.rating == e.rating ==> Score(d, vehicle, weight, volume) == Score(e, vehicle, weight, volume)
  {
  }

  // Ratings that differ at all differ enough to survive the rounding.
  predicate Separated(drivers: set<Driver>) {
    forall d, e :: d in drivers && e in drivers && d.rating < e.rating ==> d.rating + 0.001 <= e.rating
  }

  // Then it keeps the five best pairs themselves.
  lemma DriverCapKeepsPairs(drivers: set<Driver>, vehicles: set<Vehicle>, cap: nat, weight: real, volume: real)
    requires Identified(drivers) && Separated(drivers) && cap >= TOP
    ensures Best(Feasible(DriversIn(KeptDrivers(drivers, cap)), vehicles, weight, volume), TOP)
            == Best(Feasible(drivers, vehicles, weight, volume), TOP)
  {
    hide KeptDrivers, Feasible, Best, Carries, Score;
    var all, some := Feasible(drivers, vehicles, weight, volume), Feasible(DriversIn(KeptDrivers(drivers, cap)), vehicles, weight, volume);
    KeptAreFeasible(drivers, cap, vehicles, weight, volume);
    forall x | x in all && x !in some ensures |Beating(some, x)| >= TOP {
      var d, vehicle := LeftOutPair(drivers, vehicles, cap, weight, volume, x);
      KeptPairs(drivers, cap, d, vehicle, vehicles, weight, volume);
      var list := WithVehicle(KeptDrivers(drivers, cap), vehicle, weight, volume);
      forall y | y in Among(list) ensures y in Beating(some, x) {
        var i :| 0 <= i < |list| && list[i] == y;
        KeptGoBefore(drivers, cap, d);
        BetterDriverScoresMore(d, KeptDrivers(drivers, cap)[i], vehicle, weight, volume);
        SameRatingSameScore(d, KeptDrivers(drivers, cap)[i], vehicle, weight, volume);
      }
      SubsetIsSmaller(Among(list), Beating(some, x));
    }
    BeatenLeftOut(all, some, TOP);
  }

  // And without that: the cap keeps the pairs exactly when each feasible pair it cuts off is beaten by
  // five that are kept.
  lemma DriverCapExactly(drivers: set<Driver>, vehicles: set<Vehicle>, cap: nat, weight: real, volume: real)
    ensures var all := Feasible(drivers, vehicles, weight, volume);
            var some := Feasible(DriversIn(KeptDrivers(drivers, cap)), vehicles, weight, volume);
            Best(all, TOP) == Best(some, TOP) <==> forall x :: x in all && x !in some ==> |Beating(some, x)| >= TOP
  {
    hide Feasible, Best, Beating, KeptDrivers;
    KeptAreFeasible(drivers, cap, vehicles, weight, volume);
    LeftOutExactly(Feasible(drivers, vehicles, weight, volume),
                   Feasible(DriversIn(KeptDrivers(drivers, cap)), vehicles, weight, volume), TOP);
  }

  // ---- The cap on vehicles: the lightest, by identifier among equals --------------------------------------

  predicate LighterBefore(v: Vehicle, w: Vehicle) {
    v.capacityKg < w.capacityKg
    || (v.capacityKg == w.capacityKg && (v.id < w.id || (v.id == w.id && v.capacityM3 < w.capacityM3)))
  }

  lemma VehiclesOrdered()
    ensures TotalOrder(LighterBefore)
  {
  }

  ghost function KeptVehicles(vehicles: set<Vehicle>, cap: nat): seq<Vehicle> {
    VehiclesOrdered();
    ThePage(vehicles, None, cap, LighterBefore)
  }

  lemma KeptVehiclesExist(vehicles: set<Vehicle>, cap: nat)
    ensures var page := KeptVehicles(vehicles, cap);
            |page| <= cap && VehiclesIn(page) <= vehicles && (|vehicles| <= cap ==> VehiclesIn(page) == vehicles)
  {
    VehiclesOrdered();
    ThePageIsPage(vehicles, None, cap, LighterBefore);
    var page := KeptVehicles(vehicles, cap);
    hide TotalOrder, ThePage, KeptVehicles;
    assert IsPage(page, vehicles, None, cap, LighterBefore);
    assert After(vehicles, None, LighterBefore) == vehicles;
    AscendingCount(page, LighterBefore);
    if |vehicles| <= cap && !(vehicles <= VehiclesIn(page)) { SubsetIsSmaller(VehiclesIn(page), vehicles); }
  }

  lemma FewerVehiclesFewerPairs(drivers: set<Driver>, kept: set<Vehicle>, vehicles: set<Vehicle>, weight: real, volume: real)
    requires kept <= vehicles
    ensures Feasible(drivers, kept, weight, volume) <= Feasible(drivers, vehicles, weight, volume)
  {
    hide Carries, PairOf;
  }

  // Exactly when the cap on vehicles is harmless: to the pairs, if each feasible pair it cuts off is
  // beaten by five that are kept; to the scores, if five that are kept score as much.
  lemma VehicleCapExactly(drivers: set<Driver>, vehicles: set<Vehicle>, cap: nat, weight: real, volume: real)
    ensures var all := Feasible(drivers, vehicles, weight, volume);
            var some := Feasible(drivers, VehiclesIn(KeptVehicles(vehicles, cap)), weight, volume);
            && (Best(all, TOP) == Best(some, TOP) <==> forall x :: x in all && x !in some ==> |Beating(some, x)| >= TOP)
            && (Scores(Best(all, TOP)) == Scores(Best(some, TOP))
                <==> forall x :: x in all && x !in some ==> |Matching(some, x.score)| >= TOP)
  {
    hide Feasible, Best, Beating, Matching, Scores, KeptVehicles;
    var kept := VehiclesIn(KeptVehicles(vehicles, cap));
    KeptVehiclesExist(vehicles, cap);
    FewerVehiclesFewerPairs(drivers, kept, vehicles, weight, volume);
    LeftOutExactly(Feasible(drivers, vehicles, weight, volume), Feasible(drivers, kept, weight, volume), TOP);
    ScoresLeftOutExactly(Feasible(drivers, vehicles, weight, volume), Feasible(drivers, kept, weight, volume), TOP);
  }

  // So it is whenever the query admits no more vehicles than the cap.
  lemma FewVehiclesAreKept(drivers: set<Driver>, vehicles: set<Vehicle>, cap: nat, weight: real, volume: real)
    requires |vehicles| <= cap
    ensures Best(Feasible(drivers, VehiclesIn(KeptVehicles(vehicles, cap)), weight, volume), TOP)
            == Best(Feasible(drivers, vehicles, weight, volume), TOP)
  {
    hide Feasible, Best, KeptVehicles;
    KeptVehiclesExist(vehicles, cap);
  }

  const ROOMY := seq(30, i requires 0 <= i < 30 => Vehicle(i, 1000.0, 100.0))
  const SNUG := Vehicle(30, 1001.0, 1.0)

  lemma RoomyKept(vehicles: set<Vehicle>)
    requires vehicles == VehiclesIn(ROOMY) + {SNUG}
    ensures KeptVehicles(vehicles, 30) == ROOMY
  {
    VehiclesOrdered();
    hide ThePage, TotalOrder;
    assert IsPage(ROOMY, vehicles, None, 30, LighterBefore);
    PageIsThePage(ROOMY, vehicles, None, 30, LighterBefore);
  }

  // A vehicle one kilogram larger but of exactly the right volume is cut off by thirty that are far
  // too large, and with it the best pair: the cap on vehicles does lose scores.
  lemma VehicleCapLosesTheBest()
    ensures var drivers, vehicles := {Driver(0, 5.0)}, VehiclesIn(ROOMY) + {SNUG};
            var all, kept := Best(Feasible(drivers, vehicles, 1000.0, 1.0), TOP),
                             Best(Feasible(drivers, VehiclesIn(KeptVehicles(vehicles, 30)), 1000.0, 1.0), TOP);
            |all| > 0 && |kept| > 0 && all[0].score > kept[0].score && all[0].vehicle == SNUG.id
  {
    var driver := Driver(0, 5.0);
    var vehicles := VehiclesIn(ROOMY) + {SNUG};
    RoomyKept(vehicles);
    var all, kept := Feasible({driver}, vehicles, 1000.0, 1.0), Feasible({driver}, VehiclesIn(ROOMY), 1000.0, 1.0);
    SnugScores();
    RoomyPairs();
    hide Score, Best, KeptVehicles, Better;
    FirstOf(all, PairOf(driver, SNUG, 1000.0, 1.0));
    FirstOf(kept, PairOf(driver, ROOMY[0], 1000.0, 1.0));
    FirstScores(all, PairOf(driver, SNUG, 1000.0, 1.0));
  }

  // Nothing scores more than the first.
  lemma FirstScores(candidates: set<Ranked>, x: Ranked)
    requires x in candidates && |Best(candidates, TOP)| > 0
    ensures Best(candidates, TOP)[0].score >= x.score
  {
    hide Best;
    FirstOf(candidates, x);
  }

  // The pairs of the roomy vehicles, and the one pair besides.
  lemma RoomyPairs()
    ensures var driver := Driver(0, 5.0);
            var all, kept := Feasible({driver}, VehiclesIn(ROOMY) + {SNUG}, 1000.0, 1.0), Feasible({driver}, VehiclesIn(ROOMY), 1000.0, 1.0);
            && PairOf(driver, SNUG, 1000.0, 1.0) in all && PairOf(driver, ROOMY[0], 1000.0, 1.0) in kept
            && (forall x :: x in kept ==> x.score < 105.1)
            && (forall x :: x in all ==> x in kept || x.vehicle == SNUG.id)
  {
    var driver := Driver(0, 5.0);
    var vehicles := VehiclesIn(ROOMY) + {SNUG};
    var all, kept := Feasible({driver}, vehicles, 1000.0, 1.0), Feasible({driver}, VehiclesIn(ROOMY), 1000.0, 1.0);
    SnugScores();
    assert ROOMY[0] in VehiclesIn(ROOMY);
    RoomyScores(ROOMY[0]);
    hide Score, Carries;
    forall x | x in kept ensures x.score < 105.1 {
      var v :| v in VehiclesIn(ROOMY) && x == PairOf(driver, v, 1000.0, 1.0);
      RoomyScores(v);
    }
    forall x | x in all && x !in kept ensures x.vehicle == SNUG.id {
      var v :| v in vehicles && Carries(v, 1000.0, 1.0) && x == PairOf(driver, v, 1000.0, 1.0);
    }
  }

  lemma SnugScores()
    ensures Score(Driver(0, 5.0), SNUG, 1000.0, 1.0) > 105.1 && Carries(SNUG, 1000.0, 1.0)
  {
    RoundIsNear(100.0 + Fit(SNUG, 1000.0, 1.0));
  }

  lemma RoomyScores(vehicle: Vehicle)
    requires vehicle.capacityKg == 1000.0 && vehicle.capacityM3 == 100.0
    ensures Score(Driver(0, 5.0), vehicle, 1000.0, 1.0) < 105.1 && Carries(vehicle, 1000.0, 1.0)
  {
    RoundIsNear(100.0 + Fit(vehicle, 1000.0, 1.0));
  }

  // Nothing beats the first.
  lemma FirstOf(candidates: set<Ranked>, x: Ranked)
    requires x in candidates
    ensures |Best(candidates, TOP)| > 0 && Best(candidates, TOP)[0] in candidates
    ensures x == Best(candidates, TOP)[0] || Better(Best(candidates, TOP)[0], x)
  {
    BestSize(candidates, TOP);
    assert candidates != {};
    BeatenByFew(candidates, TOP, 0);
    assert x !in Beating(candidates, Best(candidates, TOP)[0]);
  }
}
