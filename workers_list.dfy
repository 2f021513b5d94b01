/** The workers screen: a worker's composite performance score and its badge,
    the search over workers and the three summary figures above the table. */
module WorkersList {
  import opened Common
  import opened Text

  datatype Worker = Worker(
    name: string,
    email: string,
    position: string,
    ordersProcessed: int,
    accuracy: real,
    productivity: real,
    isActive: bool)

  // ---------------------------------------------------------------------------
  // Score and badge

  function Min(a: real, b: real): real { if a <= b then a else b }
  function Max(a: real, b: real): real { if a <= b then b else a }

  /** `getPerformanceScore(accuracy, productivity)`: the mean of the two
      percentages, before its rounding to one decimal for display. */
  function PerformanceScore(accuracy: real, productivity: real): (score: real)
    ensures score - accuracy == productivity - score
    ensures Min(accuracy, productivity) <= score <= Max(accuracy, productivity)
    ensures 0.0 <= accuracy <= 100.0 && 0.0 <= productivity <= 100.0 ==> 0.0 <= score <= 100.0
  {
    (accuracy + productivity) / 2.0
  }

  function WorkerScore(w: Worker): real
  {
    PerformanceScore(w.accuracy, w.productivity)
  }

  datatype Tier = Excellent | Good | Average | NeedsImprovement

  /** Position on the scale needs-improvement < average < good < excellent. */
  function TierRank(t: Tier): nat
  {
    match t
    case NeedsImprovement => 0
    case Average => 1
    case Good => 2
    case Excellent => 3
  }

  /** `getPerformanceBadge(score)`: thresholds 95, 90 and 80 tested top-down. */
  function PerformanceBadge(score: real): (t: Tier)
    ensures t == Excellent <==> score >= 95.0
    ensures t == Good <==> 90.0 <= score < 95.0
    ensures t == Average <==> 80.0 <= score < 90.0
    ensures t == NeedsImprovement <==> score < 80.0
  {
    if score >= 95.0 then Excellent
    else if score >= 90.0 then Good
    else if score >= 80.0 then Average
    else NeedsImprovement
  }

  /** The text of the badge. */
  function TierLabel(t: Tier): string
  {
    match t
    case Excellent => "Excellent"
    case Good => "Good"
    case Average => "Average"
    case NeedsImprovement => "Needs Improvement"
  }

  /** A higher score never earns a lower badge. */
  lemma BadgeMonotone(s1: real, s2: real)
    requires s1 <= s2
    ensures TierRank(PerformanceBadge(s1)) <= TierRank(PerformanceBadge(s2))
  {
  }

  /** The scores of two seeded workers, and of a worker whose accuracy and
      productivity are both 0: a score of 0, "Needs Improvement". */
  lemma SeedScores()
    ensures PerformanceScore(98.5, 95.2) == 96.85 && PerformanceBadge(96.85) == Excellent
    ensures PerformanceScore(96.8, 88.7) == 92.75 && PerformanceBadge(92.75) == Good
    ensures PerformanceScore(0.0, 0.0) == 0.0 && PerformanceBadge(0.0) == NeedsImprovement
  {
  }

  // ---------------------------------------------------------------------------
  // Search

  /** The search predicate of `filteredWorkers`. */
  predicate WorkerMatches(w: Worker, term: string)
  {
    MatchesTerm(w.name, term) || MatchesTerm(w.email, term) || MatchesTerm(w.position, term)
  }

  /** `filteredWorkers`: the workers whose name, email or position contains
      the term, ignoring case, in their original order. */
  function SearchWorkers(workers: seq<Worker>, term: string): (r: seq<Worker>)
    ensures IsSubsequence(r, workers)
    ensures forall i :: 0 <= i < |r| ==> r[i] in workers && WorkerMatches(r[i], term)
    ensures forall i :: 0 <= i < |workers| && WorkerMatches(workers[i], term) ==> workers[i] in r
    ensures term == "" ==> r == workers
  {
    var p := (w: Worker) => WorkerMatches(w, term);
    FilterIsSubsequence(p, workers);
    if term == "" then
      assert forall i :: 0 <= i < |workers| ==> p(workers[i]) by {
        forall i | 0 <= i < |workers| { EmptyTermMatches(workers[i].name); }
      }
      FilterKeepsAll(p, workers);
      Filter(p, workers)
    else
      Filter(p, workers)
  }

  // ---------------------------------------------------------------------------
  // Summary figures

  predicate IsActive(w: Worker) { w.isActive }

  /** `activeWorkers.length`: the number of workers marked active. */
  function ActiveCount(workers: seq<Worker>): (n: nat)
    ensures n <= |workers|
    ensures n == |Filter(IsActive, workers)|
    ensures (forall i :: 0 <= i < |workers| ==> workers[i].isActive) ==> n == |workers|
  {
    if forall i :: 0 <= i < |workers| ==> workers[i].isActive then
      FilterKeepsAll(IsActive, workers);
      |Filter(IsActive, workers)|
    else
      |Filter(IsActive, workers)|
  }

  /** Counting the active workers of two lists together gives the sum of the
      two counts: the count is additive over concatenation. */
  lemma ActiveCountAppend(a: seq<Worker>, b: seq<Worker>)
    ensures ActiveCount(a + b) == ActiveCount(a) + ActiveCount(b)
  {
    FilterAppend(IsActive, a, b);
  }

  /** The sum of the composite scores. */
  function TotalScore(workers: seq<Worker>): real
  {
    Sum(WorkerScore, workers)
  }

  /** `avgPerformance`: the mean composite score, and 0 for no workers. */
  function AveragePerformance(workers: seq<Worker>): (avg: real)
    ensures workers == [] ==> avg == 0.0
    ensures workers != [] ==> avg * |workers| as real == TotalScore(workers)
  {
    if |workers| > 0 then TotalScore(workers) / |workers| as real else 0.0
  }

  /** When every score lies in `[lo, hi]` the average does too; in particular
      it lies between the lowest and the highest score. */
  lemma AverageWithinBounds(workers: seq<Worker>, lo: real, hi: real)
    requires workers != []
    requires forall i :: 0 <= i < |workers| ==> lo <= WorkerScore(workers[i]) <= hi
    ensures lo <= AveragePerformance(workers) <= hi
  {
    var n := |workers| as real;
    SumBounds(WorkerScore, workers, lo, hi);
    var avg := AveragePerformance(workers);
    assert avg * n == TotalScore(workers);
  }

  /** With every accuracy and productivity a percentage, so is the average. */
  lemma AverageIsPercentage(workers: seq<Worker>)
    requires forall i :: 0 <= i < |workers| ==>
      0.0 <= workers[i].accuracy <= 100.0 && 0.0 <= workers[i].productivity <= 100.0
    ensures 0.0 <= AveragePerformance(workers) <= 100.0
  {
    if workers != [] {
      AverageWithinBounds(workers, 0.0, 100.0);
    }
  }

  function OrdersProcessed(w: Worker): int { w.ordersProcessed }

  /** `totalOrdersProcessed`: the `reduce` of `orders_processed` from 0. */
  function TotalOrdersProcessed(workers: seq<Worker>): (t: int)
    ensures workers == [] ==> t == 0
    ensures |workers| == 1 ==> t == workers[0].ordersProcessed
    ensures (forall i :: 0 <= i < |workers| ==> workers[i].ordersProcessed >= 0) ==> t >= 0
  {
    assert |workers| == 1 ==>
      workers[..0] == [] && IntSum(OrdersProcessed, workers) == IntSum(OrdersProcessed, workers[..0]) + OrdersProcessed(workers[0]);
    if forall i :: 0 <= i < |workers| ==> workers[i].ordersProcessed >= 0 then
      IntSumNonNegative(OrdersProcessed, workers);
      IntSum(OrdersProcessed, workers)
    else
      IntSum(OrdersProcessed, workers)
  }

  /** Adding a worker adds that worker's count, so with counts that are never
      negative the total never decreases. */
  lemma TotalOrdersAddWorker(workers: seq<Worker>, w: Worker)
    ensures TotalOrdersProcessed(workers + [w]) == TotalOrdersProcessed(workers) + w.ordersProcessed
    ensures w.ordersProcessed >= 0 ==> TotalOrdersProcessed(workers + [w]) >= TotalOrdersProcessed(workers)
  {
    assert (workers + [w])[..|workers + [w]| - 1] == workers;
  }

  /** The five workers of the seed data. */
  const SeedWorkers: seq<Worker> := [
    Worker("John Smith", "john.smith@warehouse.com", "Senior Warehouse Associate", 156, 98.5, 95.2, true),
    Worker("Sarah Johnson", "sarah.johnson@warehouse.com", "Warehouse Associate", 142, 96.8, 88.7, true),
    Worker("Mike Davis", "mike.davis@warehouse.com", "Forklift Operator", 89, 99.1, 92.3, true),
    Worker("Lisa Chen", "lisa.chen@warehouse.com", "Warehouse Associate", 134, 97.2, 91.5, true),
    Worker("Robert Brown", "robert.brown@warehouse.com", "Team Lead", 98, 98.9, 93.8, false)]

  /** Four of the seeded workers are active. */
  lemma SeedActiveCount()
    ensures ActiveCount(SeedWorkers) == 4
  {
    var ws := SeedWorkers;
    assert Filter(IsActive, ws[4..]) == [];
    FilterKeepsAll(IsActive, ws[..4]);
    FilterAppend(IsActive, ws[..4], ws[4..]);
    assert ws[..4] + ws[4..] == ws;
  }

  /** The total of five workers, written out. */
  lemma TotalOfFive(a: Worker, b: Worker, c: Worker, d: Worker, e: Worker)
    ensures TotalOrdersProcessed([a, b, c, d, e]) ==
      a.ordersProcessed + b.ordersProcessed + c.ordersProcessed + d.ordersProcessed + e.ordersProcessed
  {
    assert [a, b, c, d] + [e] == [a, b, c, d, e];
    assert [a, b, c] + [d] == [a, b, c, d];
    assert [a, b] + [c] == [a, b, c];
    assert [a] + [b] == [a, b];
    TotalOrdersAddWorker([a, b, c, d], e);
    TotalOrdersAddWorker([a, b, c], d);
    TotalOrdersAddWorker([a, b], c);
    TotalOrdersAddWorker([a], b);
  }

  /** The seeded workers have processed 619 orders between them. */
  lemma SeedTotalOrders()
    ensures TotalOrdersProcessed(SeedWorkers) == 619
  {
    var ws := SeedWorkers;
    TotalOfFive(ws[0], ws[1], ws[2], ws[3], ws[4]);
    assert ws == [ws[0], ws[1], ws[2], ws[3], ws[4]];
  }
}
