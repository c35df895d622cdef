/** The corporate allocation policy: coefficients, decision and queue order. Scores are integer thousandths. */
module Policy {
  import opened Domain
  import Sorting

  const WEEK := 7 * 24 * 3600 * SECOND

  /** The static facts of the development configuration. */
  datatype Facts = Facts(inSizingPlan: bool, quotaGPUs: int, usedGPUs: int) {
    predicate WithinQuota(job: Job) {
      job.resources.gpuCount <= quotaGPUs - usedGPUs
    }
  }

  /** In tenths; None for an unknown importance. */
  function ImportanceCoefficient(importance: Importance): Option<int> {
    match importance
    case Critical => Some(14)
    case VeryImportant => Some(12)
    case Important => Some(10)
    case NormalImportance => Some(8)
    case ImportanceOther => None
  }

  /** Division of durations truncates towards zero. */
  function Truncated(d: int): int {
    if d >= 0 then d / WEEK else -((-d) / WEEK)
  }

  method WaitingCoefficient(createdAt: Time, now: Time) returns (tenths: int)
    ensures tenths == WaitingTenths(createdAt, now)
  {
    var weeks := Truncated(now - createdAt);
    if weeks < 0 {
      weeks := 0;
    }
    if weeks > 4 {
      weeks := 4;
    }
    tenths := 10 + weeks;
  }

  /** One tenth for every full week in the queue, at most four; a clock behind the request counts as no wait. */
  function WaitingTenths(createdAt: Time, now: Time): (tenths: int)
    ensures 10 <= tenths <= 14
    ensures forall n :: 0 <= n <= 4 ==> (tenths >= 10 + n <==> n == 0 || now >= createdAt + n * 604_800 * SECOND)
  {
    if now - createdAt < WEEK then 10
    else if now - createdAt < 2 * WEEK then 11
    else if now - createdAt < 3 * WEEK then 12
    else if now - createdAt < 4 * WEEK then 13
    else 14
  }

  function Score(job: Job, facts: Facts, now: Time): int {
    var importance := ImportanceCoefficient(job.importance);
    (if importance.Some? then importance.value else 8) * (if facts.WithinQuota(job) then 10 else 8)
    * WaitingTenths(job.createdAt, now)
  }

  function Decide(job: Job, facts: Facts, now: Time): Decision {
    var lane := if facts.inSizingPlan && facts.WithinQuota(job) then AutoEligible else Competitive;
    Decision(lane, Score(job, facts, now), now)
  }

  method Evaluate(job: Job, facts: Facts, now: Time) returns (decision: Decision)
    ensures decision == Decide(job, facts, now)
  {
    var importance := 8;
    var known := ImportanceCoefficient(job.importance);
    if known.Some? {
      importance := known.value;
    }
    var quota := 10;
    if !facts.WithinQuota(job) {
      quota := 8;
    }
    var lane := Competitive;
    if facts.inSizingPlan && facts.WithinQuota(job) {
      lane := AutoEligible;
    }
    var waiting := WaitingCoefficient(job.createdAt, now);
    decision := Decision(lane, importance * quota * waiting, now);
  }

  function NecessityRank(n: Necessity): int {
    match n
    case Necessity1 => 1
    case Necessity2 => 2
    case Necessity3 => 3
    case Necessity4 => 4
    case NecessityOther => 5
  }

  /** Lane, necessity, score, age, identifier. */
  predicate Before(a: Job, b: Job) {
    if a.policy.lane != b.policy.lane then a.policy.lane == AutoEligible
    else if NecessityRank(a.necessity) != NecessityRank(b.necessity) then
      NecessityRank(a.necessity) < NecessityRank(b.necessity)
    else if a.policy.score != b.policy.score then a.policy.score > b.policy.score
    else if a.createdAt != b.createdAt then a.createdAt < b.createdAt
    else a.id < b.id
  }

  function Evaluated(job: Job, facts: Facts, now: Time): Job {
    job.(policy := Decide(job, facts, now))
  }

  function EvaluateAll(jobs: seq<Job>, facts: Facts, now: Time): (r: seq<Job>)
    ensures |r| == |jobs| && forall i :: 0 <= i < |r| ==> r[i] == Evaluated(jobs[i], facts, now)
  {
    seq(|jobs|, i requires 0 <= i < |jobs| => Evaluated(jobs[i], facts, now))
  }

  function Ordered(jobs: seq<Job>, facts: Facts, now: Time): seq<Job> {
    Sorting.Sort(Before, EvaluateAll(jobs, facts, now))
  }

  /** Refreshes every decision, then sorts. */
  method Order(jobs: seq<Job>, facts: Facts, now: Time) returns (result: seq<Job>)
    ensures result == Ordered(jobs, facts, now)
  {
    result := [];
    for i := 0 to |jobs|
      invariant |result| == i && forall k :: 0 <= k < i ==> result[k] == Evaluated(jobs[k], facts, now)
    {
      var decision := Evaluate(jobs[i], facts, now);
      result := result + [jobs[i].(policy := decision)];
    }
    assert result == EvaluateAll(jobs, facts, now);
    result := Sorting.Sort(Before, result);
  }

  // ---------------------------------------------------------------- What the order guarantees

  ghost predicate DistinctJobs(jobs: seq<Job>) {
    forall i, j :: 0 <= i < j < |jobs| ==> jobs[i].id != jobs[j].id
  }

  /** The queue order is a strict total order on different jobs. */
  lemma BeforeIsTotal(jobs: seq<Job>)
    requires DistinctJobs(jobs)
    ensures Sorting.StrictTotalOn(Before, jobs) && Sorting.Distinct(jobs)
  {
  }

  lemma EvaluatedStayDistinct(jobs: seq<Job>, facts: Facts, now: Time)
    requires DistinctJobs(jobs)
    ensures DistinctJobs(EvaluateAll(jobs, facts, now))
    ensures Sorting.StrictTotalOn(Before, EvaluateAll(jobs, facts, now))
      && Sorting.Distinct(EvaluateAll(jobs, facts, now))
  {
    BeforeIsTotal(EvaluateAll(jobs, facts, now));
  }

  /** Every job once, freshly evaluated, in strict queue order. */
  lemma OrderedIsSorted(jobs: seq<Job>, facts: Facts, now: Time)
    requires DistinctJobs(jobs)
    ensures var r := Ordered(jobs, facts, now);
      && Sorting.Sorted(Before, r) && |r| == |jobs|
      && (forall j :: j in r <==> exists k :: k in jobs && j == Evaluated(k, facts, now))
  {
    var all := EvaluateAll(jobs, facts, now);
    EvaluatedStayDistinct(jobs, facts, now);
    Sorting.SortSorts(Before, all);
    Sorting.SortPermutes(Before, all);
    hide Before, Decide;
    forall k | k in jobs ensures Evaluated(k, facts, now) in all {
      var i :| 0 <= i < |jobs| && jobs[i] == k;
      assert all[i] == Evaluated(k, facts, now);
    }
  }

  /** Two jobs with the same necessity, importance and size are served first come, first served, at any time: age only
      ever helps the older one. */
  lemma FifoWithinClass(a: Job, b: Job, facts: Facts, now: Time)
    requires a.necessity == b.necessity && a.importance == b.importance && a.resources.gpuCount == b.resources.gpuCount
    ensures Before(Evaluated(a, facts, now), Evaluated(b, facts, now))
      <==> a.createdAt < b.createdAt || (a.createdAt == b.createdAt && a.id < b.id)
  {
    var importance := ImportanceCoefficient(a.importance);
    var c := (if importance.Some? then importance.value else 8) * (if facts.WithinQuota(a) then 10 else 8);
    var x, y := WaitingTenths(a.createdAt, now), WaitingTenths(b.createdAt, now);
    assert c > 0 && Score(a, facts, now) == c * x && Score(b, facts, now) == c * y;
    ScaledOrder(c, x, y);
  }

  lemma ScaledOrder(c: int, x: int, y: int)
    requires c > 0
    ensures (x < y <==> c * x < c * y) && (x == y <==> c * x == c * y)
  {
    if x < y {
      assert c * (y - x) > 0;
    } else if y < x {
      assert c * (x - y) > 0;
    }
  }

  lemma ScoreRange(job: Job, facts: Facts, now: Time)
    ensures 640 <= Score(job, facts, now) <= 1960
  {
    var w := WaitingTenths(job.createdAt, now);
    assert w in {10, 11, 12, 13, 14};
  }

  /** Necessity 1 before 2 before 3 before 4, and a level nobody knows last. */
  predicate Sooner(a: Necessity, b: Necessity) {
    match a
    case Necessity1 => b != Necessity1
    case Necessity2 => b in {Necessity3, Necessity4, NecessityOther}
    case Necessity3 => b in {Necessity4, NecessityOther}
    case Necessity4 => b == NecessityOther
    case NecessityOther => false
  }

  lemma RankMeans(a: Necessity, b: Necessity)
    ensures NecessityRank(a) < NecessityRank(b) <==> Sooner(a, b)
    ensures NecessityRank(a) == NecessityRank(b) <==> a == b
  {
  }

  /** Along the queue the lane comes first, then the necessity, then the score, then the age, then the identifier: no
      score lifts a job over the lane or the necessity of another. The first lane is for jobs of the sizing plan
      within quota. */
  lemma ScoreNeverOverrides(jobs: seq<Job>, facts: Facts, now: Time, i: nat, k: nat)
    requires DistinctJobs(jobs) && i < k < |Ordered(jobs, facts, now)|
    ensures var a, b := Ordered(jobs, facts, now)[i], Ordered(jobs, facts, now)[k];
      && (a.policy.lane == AutoEligible
          <==> facts.inSizingPlan && a.resources.gpuCount + facts.usedGPUs <= facts.quotaGPUs)
      && (b.policy.lane == AutoEligible ==> a.policy.lane == AutoEligible)
      && (a.policy.lane == b.policy.lane ==> !Sooner(b.necessity, a.necessity))
      && (a.policy.lane == b.policy.lane && a.necessity == b.necessity ==>
            || a.policy.score > b.policy.score
            || (a.policy.score == b.policy.score && a.createdAt < b.createdAt)
            || (a.policy.score == b.policy.score && a.createdAt == b.createdAt && a.id < b.id))
      && 640 <= b.policy.score <= 1960
  {
    OrderedIsSorted(jobs, facts, now);
    hide Ordered, Score;
    var r := Ordered(jobs, facts, now);
    assert Before(r[i], r[k]) && r[i] in r && r[k] in r;
    var first :| first in jobs && r[i] == Evaluated(first, facts, now);
    var job :| job in jobs && r[k] == Evaluated(job, facts, now);
    ScoreRange(job, facts, now);
    RankMeans(r[k].necessity, r[i].necessity);
    RankMeans(r[i].necessity, r[k].necessity);
  }

  /** Critical, very important, important, and normal or unknown. */
  function Level(importance: Importance): nat {
    match importance
    case Critical => 3
    case VeryImportant => 2
    case Important => 1
    case NormalImportance => 0
    case ImportanceOther => 0
  }

  /** The scores of a new request within quota, in thousandths. */
  lemma ScoreLevels(job: Job, facts: Facts, now: Time)
    requires job.resources.gpuCount + facts.usedGPUs <= facts.quotaGPUs && now < job.createdAt + WEEK
    ensures Score(job, facts, now) ==
      match job.importance
      case Critical => 1400
      case VeryImportant => 1200
      case Important => 1000
      case NormalImportance => 800
      case ImportanceOther => 800
  {
  }

  /** With the same wait a more important job, or one within its quota, scores strictly higher; no wait makes up for
      both. */
  lemma ScoreRanks(a: Job, b: Job, facts: Facts, now: Time)
    ensures a.createdAt == b.createdAt && facts.WithinQuota(a) == facts.WithinQuota(b) ==>
      (Score(a, facts, now) > Score(b, facts, now) <==> Level(a.importance) > Level(b.importance))
    ensures
      a.createdAt == b.createdAt && a.importance == b.importance && facts.WithinQuota(a) && !facts.WithinQuota(b) ==>
        Score(a, facts, now) * 8 == Score(b, facts, now) * 10 && Score(a, facts, now) > Score(b, facts, now)
    ensures
      a.importance == Critical && b.importance in {NormalImportance, ImportanceOther}
      && facts.WithinQuota(a) && !facts.WithinQuota(b) ==>
        Score(a, facts, now) > Score(b, facts, now)
  {
    var w := WaitingTenths(b.createdAt, now);
    var x, y := Coefficient(a.importance), Coefficient(b.importance);
    var q := if facts.WithinQuota(a) then 10 else 8;
    assert q * w > 0;
    ScaledOrder(q * w, y, x);
    assert Score(b, facts, now) == y * (if facts.WithinQuota(b) then 10 else 8) * w;
    assert y * q * w == (q * w) * y && x * q * w == (q * w) * x;
    LevelMeans(a.importance, b.importance);
  }

  function Coefficient(importance: Importance): int {
    var known := ImportanceCoefficient(importance);
    if known.Some? then known.value else 8
  }

  lemma LevelMeans(a: Importance, b: Importance)
    ensures Coefficient(a) > Coefficient(b) <==> Level(a) > Level(b)
  {
  }

  /** Two jobs of one necessity and size, requested together, are queued by importance and then by identifier. */
  lemma ImportanceDecides(a: Job, b: Job, facts: Facts, now: Time)
    requires a.necessity == b.necessity && a.resources.gpuCount == b.resources.gpuCount && a.createdAt == b.createdAt
    ensures Before(Evaluated(a, facts, now), Evaluated(b, facts, now))
       <==> Level(a.importance) > Level(b.importance) || (Level(a.importance) == Level(b.importance) && a.id < b.id)
  {
    hide Score, Level;
    ScoreRanks(a, b, facts, now);
    ScoreRanks(b, a, facts, now);
  }

  // ---------------------------------------------------------------- The order of a selection

  lemma {:induction false} EvaluateFilter(keep: Job -> bool, jobs: seq<Job>, facts: Facts, now: Time)
    requires forall j, p :: keep(j) == keep(j.(policy := p))
    ensures EvaluateAll(Sorting.Filter(keep, jobs), facts, now) == Sorting.Filter(keep, EvaluateAll(jobs, facts, now))
  {
    if jobs != [] {
      EvaluateFilter(keep, jobs[1..], facts, now);
      assert EvaluateAll(jobs, facts, now)[1..] == EvaluateAll(jobs[1..], facts, now);
      assert keep(jobs[0]) == keep(jobs[0].(policy := Decide(jobs[0], facts, now)));
      if keep(jobs[0]) {
        assert EvaluateAll([jobs[0]] + Sorting.Filter(keep, jobs[1..]), facts, now)
            == [Evaluated(jobs[0], facts, now)] + EvaluateAll(Sorting.Filter(keep, jobs[1..]), facts, now);
      }
    }
  }

  /** Ordering a selection of the jobs is selecting from the ordered whole. */
  lemma OrderedFilter(keep: Job -> bool, jobs: seq<Job>, facts: Facts, now: Time)
    requires DistinctJobs(jobs) && forall j, p :: keep(j) == keep(j.(policy := p))
    ensures Ordered(Sorting.Filter(keep, jobs), facts, now) == Sorting.Filter(keep, Ordered(jobs, facts, now))
  {
    EvaluateFilter(keep, jobs, facts, now);
    EvaluatedStayDistinct(jobs, facts, now);
    Sorting.SortFilter(Before, keep, EvaluateAll(jobs, facts, now));
  }
}
