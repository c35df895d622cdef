/** Placement of one job: filter the hosts, score them, select the least. */
module Scheduler {
  import opened Domain
  import Sorting

  const NO_DECISION := Decision(Competitive, 0, ZERO_TIME)

  // ---------------------------------------------------------------- GPUs of one host

  predicate GPUBefore(a: GPU, b: GPU) {
    if a.AvailableMemory() == b.AvailableMemory() then a.uuid < b.uuid else a.AvailableMemory() < b.AvailableMemory()
  }

  function Usable(request: Resources, gpus: seq<GPU>): seq<GPU> {
    Sorting.Filter((g: GPU) => request.Matches(g), gpus)
  }

  function Matching(request: Resources, gpus: seq<GPU>): seq<GPU> {
    Sorting.Sort(GPUBefore, Usable(request, gpus))
  }

  function FreeCount(gpus: seq<GPU>): nat {
    |Sorting.Filter((g: GPU) => g.Schedulable(), gpus)|
  }

  method MatchingGPUs(gpus: seq<GPU>, request: Resources) returns (result: seq<GPU>)
    ensures result == Matching(request, gpus)
  {
    result := [];
    ghost var keep := (g: GPU) => request.Matches(g);
    for i := 0 to |gpus|
      invariant result == Sorting.Filter(keep, gpus[..i])
    {
      assert gpus[..i + 1] == gpus[..i] + [gpus[i]];
      Sorting.FilterAppend(keep, gpus[..i], [gpus[i]]);
      if !request.Matches(gpus[i]) {
        continue;
      }
      result := result + [gpus[i]];
    }
    assert gpus[..|gpus|] == gpus;
    result := Sorting.Sort(GPUBefore, result);
  }

  method FreeGPUCount(gpus: seq<GPU>) returns (free: nat)
    ensures free == FreeCount(gpus)
  {
    free := 0;
    ghost var keep := (g: GPU) => g.Schedulable();
    for i := 0 to |gpus|
      invariant free == |Sorting.Filter(keep, gpus[..i])|
    {
      assert gpus[..i + 1] == gpus[..i] + [gpus[i]];
      Sorting.FilterAppend(keep, gpus[..i], [gpus[i]]);
      if gpus[i].Schedulable() {
        free := free + 1;
      }
    }
    assert gpus[..|gpus|] == gpus;
  }

  // ---------------------------------------------------------------- The four scorers

  /** Lower is better. `matching` and `selected` count GPUs. */
  function Score(strategy: Strategy, free: nat, total: nat, matching: nat, selected: nat): real {
    match strategy
    case FirstFit => 0.0
    case BestFit => (matching - selected) as real
    case BinPack => ((free - selected) * 10 - (total - free)) as real
    case Fragmentation =>
      (if free == total then 2.0 else 0.0) + (if free - selected > 0 then 1.0 else 0.0)
      + (free - selected) as real / (total + 1) as real
  }

  method FragmentationScore(server: Server, selected: seq<GPU>) returns (score: real)
    ensures score == Score(Fragmentation, FreeCount(server.gpus), |server.gpus|, 0, |selected|)
  {
    var free := FreeGPUCount(server.gpus);
    var remaining := free - |selected|;
    score := 0.0;
    if free == |server.gpus| {
      score := score + 2.0;
    }
    if remaining > 0 {
      score := score + 1.0;
    }
    score := score + remaining as real / (|server.gpus| + 1) as real;
  }

  method ScoreServer(strategy: Strategy, server: Server, matching: seq<GPU>, selected: seq<GPU>) returns (score: real)
    ensures score == Score(strategy, FreeCount(server.gpus), |server.gpus|, |matching|, |selected|)
  {
    match strategy
    case FirstFit => score := 0.0;
    case BestFit => score := (|matching| - |selected|) as real;
    case BinPack =>
      var free := FreeGPUCount(server.gpus);
      score := ((free - |selected|) * 10 - (|server.gpus| - free)) as real;
    case Fragmentation => score := FragmentationScore(server, selected);
  }

  // ---------------------------------------------------------------- Candidates

  datatype Candidate = Candidate(serverId: Id, gpus: seq<Id>, score: real)

  predicate CandidateBefore(a: Candidate, b: Candidate) {
    if a.score == b.score then a.serverId < b.serverId else a.score < b.score
  }

  predicate Fits(job: Job, server: Server, now: Time, offlineAfter: int) {
    SameOrganization(job.org, server.org) && server.Schedulable(now, offlineAfter)
    && |Matching(job.resources, server.gpus)| >= job.resources.gpuCount
  }

  function UUIDs(gpus: seq<GPU>): (r: seq<Id>)
    ensures |r| == |gpus| && forall i :: 0 <= i < |r| ==> r[i] == gpus[i].uuid
  {
    seq(|gpus|, i requires 0 <= i < |gpus| => gpus[i].uuid)
  }

  function CandidateOf(strategy: Strategy, job: Job, server: Server, now: Time, offlineAfter: int): Candidate
    requires job.resources.gpuCount > 0 && Fits(job, server, now, offlineAfter)
  {
    var matching := Matching(job.resources, server.gpus);
    Candidate(server.id, UUIDs(matching[..job.resources.gpuCount]),
              Score(strategy, FreeCount(server.gpus), |server.gpus|, |matching|, job.resources.gpuCount))
  }

  function Candidates(strategy: Strategy, job: Job, servers: seq<Server>, now: Time, offlineAfter: int): seq<Candidate>
    requires job.resources.gpuCount > 0
  {
    if servers == [] then []
    else (if Fits(job, servers[0], now, offlineAfter) then [CandidateOf(strategy, job, servers[0], now, offlineAfter)]
          else [])
         + Candidates(strategy, job, servers[1..], now, offlineAfter)
  }

  function PlacementOf(strategy: Strategy, winner: Candidate): Placement {
    Placement(winner.serverId, winner.gpus, strategy, winner.score,
              Chosen(strategy, winner.serverId, winner.score, |winner.gpus|), NO_DECISION)
  }

  function Plan(strategy: Strategy, job: Job, servers: seq<Server>, now: Time, offlineAfter: int): Result<Placement> {
    if job.resources.gpuCount <= 0 then Err(InvalidInput)
    else
      var candidates := Candidates(strategy, job, servers, now, offlineAfter);
      if candidates == [] then Err(InsufficientGPU)
      else
        Sorting.SortPermutes(CandidateBefore, candidates);
        Ok(PlacementOf(strategy, Sorting.Sort(CandidateBefore, candidates)[0]))
  }

  lemma {:induction false} CandidatesAppend(strategy: Strategy, job: Job, servers: seq<Server>, s: Server, now: Time,
                                            offlineAfter: int)
    requires job.resources.gpuCount > 0
    ensures Candidates(strategy, job, servers + [s], now, offlineAfter)
         == Candidates(strategy, job, servers, now, offlineAfter)
            + (if Fits(job, s, now, offlineAfter) then [CandidateOf(strategy, job, s, now, offlineAfter)] else [])
  {
    hide Fits, CandidateOf;
    if servers == [] {
      assert servers + [s] == [s];
    } else {
      assert (servers + [s])[1..] == servers[1..] + [s];
      CandidatesAppend(strategy, job, servers[1..], s, now, offlineAfter);
    }
  }

  /** Filter, score and select in turn. */
  method PlanPlacement(strategy: Strategy, job: Job, servers: seq<Server>, now: Time,
                       offlineAfter: int) returns (r: Result<Placement>)
    ensures r == Plan(strategy, job, servers, now, offlineAfter)
  {
    if job.resources.gpuCount <= 0 {
      return Err(InvalidInput);
    }
    var candidates: seq<Candidate> := [];
    for i := 0 to |servers|
      invariant candidates == Candidates(strategy, job, servers[..i], now, offlineAfter)
    {
      var server := servers[i];
      assert servers[..i + 1] == servers[..i] + [server];
      CandidatesAppend(strategy, job, servers[..i], server, now, offlineAfter);
      if !SameOrganization(job.org, server.org) || !server.Schedulable(now, offlineAfter) {
        continue;
      }
      var matching := MatchingGPUs(server.gpus, job.resources);
      if |matching| >= job.resources.gpuCount {
        var selected := matching[..job.resources.gpuCount];
        var score := ScoreServer(strategy, server, matching, selected);
        candidates := candidates + [Candidate(server.id, UUIDs(selected), score)];
      }
    }
    assert servers[..|servers|] == servers;
    if candidates == [] {
      return Err(InsufficientGPU);
    }
    Sorting.SortPermutes(CandidateBefore, candidates);
    r := Ok(PlacementOf(strategy, Sorting.Sort(CandidateBefore, candidates)[0]));
  }

  // ---------------------------------------------------------------- Optimality

  ghost predicate DistinctServers(servers: seq<Server>) {
    forall i, j :: 0 <= i < j < |servers| ==> servers[i].id != servers[j].id
  }

  /** Some host of the list fits and makes this candidate. */
  ghost predicate Offers(strategy: Strategy, job: Job, servers: seq<Server>, now: Time, offlineAfter: int, c: Candidate)
    requires job.resources.gpuCount > 0
  {
    exists s :: s in servers && Fits(job, s, now, offlineAfter) && c == CandidateOf(strategy, job, s, now, offlineAfter)
  }

  ghost predicate Rivals(cs: seq<Candidate>) {
    forall i, j :: 0 <= i < j < |cs| ==> cs[i].serverId != cs[j].serverId
  }

  lemma {:induction false} CandidatesExactly(strategy: Strategy, job: Job, servers: seq<Server>, now: Time,
                                             offlineAfter: int)
    requires job.resources.gpuCount > 0 && DistinctServers(servers)
    ensures forall c ::
      c in Candidates(strategy, job, servers, now, offlineAfter)
      <==> Offers(strategy, job, servers, now, offlineAfter, c)
    ensures Rivals(Candidates(strategy, job, servers, now, offlineAfter))
  {
    hide Fits, Matching, CandidateOf;
    if servers != [] {
      CandidatesExactly(strategy, job, servers[1..], now, offlineAfter);
      assert servers == [servers[0]] + servers[1..];
      CandidateNamesServer(strategy, job, servers, now, offlineAfter);
      var rest := Candidates(strategy, job, servers[1..], now, offlineAfter);
      forall c | c in rest ensures c.serverId != servers[0].id {
        var s :| s in servers[1..] && Fits(job, s, now, offlineAfter)
          && c == CandidateOf(strategy, job, s, now, offlineAfter);
        var i :| 0 <= i < |servers[1..]| && servers[1..][i] == s;
        assert servers[i + 1] == s && s in servers;
      }
    }
  }

  lemma CandidatesAreOrdered(cs: seq<Candidate>)
    requires Rivals(cs)
    ensures Sorting.StrictTotalOn(CandidateBefore, cs) && Sorting.Distinct(cs)
  {
  }

  /** A plan exists exactly when some host fits, and it is the least (score, identifier) over all hosts that fit. */
  lemma PlanIsOptimal(strategy: Strategy, job: Job, servers: seq<Server>, now: Time, offlineAfter: int)
    requires job.resources.gpuCount > 0 && DistinctServers(servers)
    ensures match Plan(strategy, job, servers, now, offlineAfter)
      case Err(e) => e == InsufficientGPU && forall s :: s in servers ==> !Fits(job, s, now, offlineAfter)
      case Ok(p) =>
        && (exists s :: s in servers && Fits(job, s, now, offlineAfter)
                        && p == PlacementOf(strategy, CandidateOf(strategy, job, s, now, offlineAfter)))
        && forall s :: s in servers && Fits(job, s, now, offlineAfter) ==>
             s.id == p.serverId || CandidateBefore(Candidate(p.serverId, p.gpus, p.score),
                                                   CandidateOf(strategy, job, s, now, offlineAfter))
  {
    hide Fits, CandidateOf, CandidateBefore, Candidates;
    var cs := Candidates(strategy, job, servers, now, offlineAfter);
    CandidatesExactly(strategy, job, servers, now, offlineAfter);
    CandidatesAreOrdered(cs);
    if cs != [] {
      Sorting.SortSorts(CandidateBefore, cs);
      Sorting.SortPermutes(CandidateBefore, cs);
      var sorted := Sorting.Sort(CandidateBefore, cs);
      assert sorted[0] in cs;
      forall s | s in servers && Fits(job, s, now, offlineAfter)
        ensures sorted[0] == CandidateOf(strategy, job, s, now, offlineAfter)
          || CandidateBefore(sorted[0], CandidateOf(strategy, job, s, now, offlineAfter))
      {
        Sorting.HeadIsLeast(CandidateBefore, sorted, CandidateOf(strategy, job, s, now, offlineAfter));
      }
      CandidateNamesServer(strategy, job, servers, now, offlineAfter);
    } else {
      forall s | s in servers && Fits(job, s, now, offlineAfter)
        ensures CandidateOf(strategy, job, s, now, offlineAfter) in cs {
      }
    }
  }

  lemma CandidateNamesServer(strategy: Strategy, job: Job, servers: seq<Server>, now: Time, offlineAfter: int)
    requires job.resources.gpuCount > 0
    ensures forall s :: s in servers && Fits(job, s, now, offlineAfter) ==>
      CandidateOf(strategy, job, s, now, offlineAfter).serverId == s.id
  {
  }

  /** The least pair of score and identifier, with both comparisons written out. */
  ghost predicate LeastOffer(strategy: Strategy, job: Job, servers: seq<Server>, now: Time, offlineAfter: int,
                             p: Placement)
    requires job.resources.gpuCount > 0
  {
    forall s :: s in servers && Fits(job, s, now, offlineAfter) && s.id != p.serverId ==>
      var score := CandidateOf(strategy, job, s, now, offlineAfter).score;
      p.score < score || (p.score == score && p.serverId < s.id)
  }

  /** The plan names a host that fits, carries that host's score and GPUs, and no other host that fits has a lower
      score, or the same score and a lower identifier. */
  lemma PlanIsLeast(strategy: Strategy, job: Job, servers: seq<Server>, now: Time, offlineAfter: int)
    requires job.resources.gpuCount > 0 && DistinctServers(servers)
    requires Plan(strategy, job, servers, now, offlineAfter).Ok?
    ensures var p := Plan(strategy, job, servers, now, offlineAfter).value;
      && p.strategy == strategy && LeastOffer(strategy, job, servers, now, offlineAfter, p)
      && exists s :: s in servers && s.id == p.serverId && Fits(job, s, now, offlineAfter)
                     && p.score == CandidateOf(strategy, job, s, now, offlineAfter).score
                     && p.gpus == CandidateOf(strategy, job, s, now, offlineAfter).gpus
                     && p.reason == Chosen(strategy, s.id, p.score, job.resources.gpuCount)
  {
    hide Plan, Candidates, Matching, FreeCount, Score;
    PlanIsOptimal(strategy, job, servers, now, offlineAfter);
  }

  /** The four scores in plain numbers: `free` GPUs, `matching` ones, and `total` on the host before the job takes its
      `n`. */
  lemma ScoreExactly(strategy: Strategy, job: Job, host: Server, now: Time, offlineAfter: int)
    requires job.resources.gpuCount > 0 && Fits(job, host, now, offlineAfter)
    ensures var score, n := CandidateOf(strategy, job, host, now, offlineAfter).score, job.resources.gpuCount;
      var free, matching, total := FreeCount(host.gpus), |Matching(job.resources, host.gpus)|, |host.gpus|;
      match strategy
      case FirstFit => score == 0.0
      case BestFit => score == (matching - n) as real
      case BinPack => score == (10 * (free - n) - (total - free)) as real
      case Fragmentation =>
        var share := score - (if free == total then 2.0 else 0.0) - (if free > n then 1.0 else 0.0);
        share * (total + 1) as real == (free - n) as real
  {
    MatchingIsFree(job.resources, host.gpus);
    Divides(FreeCount(host.gpus) - job.resources.gpuCount, |host.gpus| + 1);
    hide Matching, FreeCount, Resources.Matches;
  }

  lemma Divides(part: int, whole: int)
    requires whole > 0
    ensures part as real / whole as real * whole as real == part as real
  {
  }

  lemma MatchingExactly(request: Resources, gpus: seq<GPU>)
    requires DistinctUUIDs(gpus)
    ensures forall g :: g in Matching(request, gpus) <==> g in gpus && request.Matches(g)
    ensures Sorting.Sorted(GPUBefore, Matching(request, gpus))
  {
    var usable := Usable(request, gpus);
    Sorting.FilterMembers((g: GPU) => request.Matches(g), gpus);
    Sorting.FilterDistinct((g: GPU) => request.Matches(g), gpus);
    MembersOrdered(gpus, usable);
    Sorting.SortSorts(GPUBefore, usable);
    Sorting.SortPermutes(GPUBefore, usable);
  }

  lemma MembersOrdered(gpus: seq<GPU>, some: seq<GPU>)
    requires DistinctUUIDs(gpus) && forall g :: g in some ==> g in gpus
    ensures Sorting.StrictTotalOn(GPUBefore, some)
  {
    forall a, b | a in gpus && b in gpus && a != b ensures a.uuid != b.uuid {
    }
  }

  /** Less memory left over, or as much and a lower identifier. */
  predicate TakenFirst(g: GPU, h: GPU) {
    var left, other := g.memTotal - g.memUsed, h.memTotal - h.memUsed;
    || (left < other && other > 0)
    || ((left == other || (left <= 0 && other <= 0)) && g.uuid < h.uuid)
  }

  lemma BeforeMeans(g: GPU, h: GPU)
    ensures GPUBefore(g, h) <==> TakenFirst(g, h)
  {
  }

  /** The GPUs taken are the `gpuCount` least of the matching ones, by available memory and then identifier: enough of
      them, all matching, all different, and every matching GPU that was passed over comes later. */
  lemma TakesLeastGPUs(strategy: Strategy, job: Job, server: Server, now: Time, offlineAfter: int)
    requires job.resources.gpuCount > 0 && DistinctUUIDs(server.gpus) && Fits(job, server, now, offlineAfter)
    ensures var taken := CandidateOf(strategy, job, server, now, offlineAfter).gpus;
      && |taken| == job.resources.gpuCount && DistinctIds(taken)
      && TakesLeast(job, server, taken)
  {
    hide GPUBefore, TakenFirst, Score, FreeCount, Resources.Matches, Matching;
    var m, n := Matching(job.resources, server.gpus), job.resources.gpuCount;
    var taken := CandidateOf(strategy, job, server, now, offlineAfter).gpus;
    MatchingExactly(job.resources, server.gpus);
    SortedUUIDs(job.resources, server.gpus);
    assert forall k :: 0 <= k < n ==> taken[k] == m[k].uuid;
    forall u | u in taken ensures exists g :: g in server.gpus && g.uuid == u && job.resources.Matches(g) {
      var i :| 0 <= i < n && taken[i] == u;
      assert m[i] in m;
    }
    forall g, h | g in server.gpus && h in server.gpus && job.resources.Matches(h) && g.uuid in taken
      && h.uuid !in taken
      ensures TakenFirst(g, h)
    {
      var i :| 0 <= i < n && taken[i] == g.uuid;
      assert m[i] in m;
      var j :| 0 <= j < |m| && m[j] == h;
      BeforeMeans(g, h);
    }
  }

  /** The same of the plan itself: on the chosen host the GPUs with the least available memory are taken, and among
      equals those with the lower identifiers. */
  lemma PlanTakesLeast(strategy: Strategy, job: Job, servers: seq<Server>, now: Time, offlineAfter: int)
    requires job.resources.gpuCount > 0 && DistinctServers(servers)
      && forall s :: s in servers ==> DistinctUUIDs(s.gpus)
    requires Plan(strategy, job, servers, now, offlineAfter).Ok?
    ensures var p := Plan(strategy, job, servers, now, offlineAfter).value;
      && |p.gpus| == job.resources.gpuCount && DistinctIds(p.gpus)
      && exists s :: s in servers && s.id == p.serverId && TakesLeast(job, s, p.gpus)
  {
    hide Plan, Candidates, Matching, FreeCount, Score, TakenFirst, Resources.Matches, LeastOffer, DistinctIds;
    PlanIsLeast(strategy, job, servers, now, offlineAfter);
    var p := Plan(strategy, job, servers, now, offlineAfter).value;
    var s :| s in servers && s.id == p.serverId && Fits(job, s, now, offlineAfter)
      && p.gpus == CandidateOf(strategy, job, s, now, offlineAfter).gpus;
    TakesLeastGPUs(strategy, job, s, now, offlineAfter);
    assert TakesLeast(job, s, p.gpus);
  }

  /** All of them match, and every matching GPU passed over comes later. */
  ghost predicate TakesLeast(job: Job, host: Server, taken: seq<Id>) {
    && (forall u :: u in taken ==> exists g :: g in host.gpus && g.uuid == u && job.resources.Matches(g))
    && (forall g, h ::
          g in host.gpus && h in host.gpus && job.resources.Matches(h) && g.uuid in taken && h.uuid !in taken ==>
            TakenFirst(g, h))
  }

  lemma SortedUUIDs(request: Resources, gpus: seq<GPU>)
    requires DistinctUUIDs(gpus)
    ensures var m := Matching(request, gpus); forall i, j :: 0 <= i < j < |m| ==> m[i].uuid != m[j].uuid
  {
    var m := Matching(request, gpus);
    MatchingExactly(request, gpus);
    forall i, j | 0 <= i < j < |m| ensures m[i].uuid != m[j].uuid {
      assert m[i] in gpus && m[j] in gpus && GPUBefore(m[i], m[j]);
      hide Matching;
    }
  }

  // ---------------------------------------------------------------- Order independence

  /** The same hosts, each listing its GPUs in another order. */
  ghost predicate Shuffled(xs: seq<Server>, ys: seq<Server>) {
    |xs| == |ys| && forall i :: 0 <= i < |xs| ==>
      ys[i] == xs[i].(gpus := ys[i].gpus) && multiset(ys[i].gpus) == multiset(xs[i].gpus)
  }

  lemma {:induction false} FilterPermutes(keep: GPU -> bool, xs: seq<GPU>)
    ensures forall g :: multiset(Sorting.Filter(keep, xs))[g] == if keep(g) then multiset(xs)[g] else 0
  {
    if xs != [] {
      FilterPermutes(keep, xs[1..]);
      assert xs == [xs[0]] + xs[1..];
      assert multiset(xs) == multiset([xs[0]]) + multiset(xs[1..]);
      assert multiset([xs[0]] + Sorting.Filter(keep, xs[1..]))
        == multiset([xs[0]]) + multiset(Sorting.Filter(keep, xs[1..]));
    }
  }

  lemma FilterOfPermutation(keep: GPU -> bool, xs: seq<GPU>, ys: seq<GPU>)
    requires multiset(xs) == multiset(ys)
    ensures multiset(Sorting.Filter(keep, xs)) == multiset(Sorting.Filter(keep, ys))
    ensures |Sorting.Filter(keep, xs)| == |Sorting.Filter(keep, ys)|
  {
    FilterPermutes(keep, xs);
    FilterPermutes(keep, ys);
    assert multiset(Sorting.Filter(keep, xs)) == multiset(Sorting.Filter(keep, ys));
    assert |Sorting.Filter(keep, xs)| == |multiset(Sorting.Filter(keep, xs))|;
    assert |Sorting.Filter(keep, ys)| == |multiset(Sorting.Filter(keep, ys))|;
  }

  lemma ShuffledGPUs(request: Resources, xs: seq<GPU>, ys: seq<GPU>)
    requires DistinctUUIDs(xs) && multiset(xs) == multiset(ys)
    ensures |xs| == |ys| && FreeCount(xs) == FreeCount(ys) && Matching(request, xs) == Matching(request, ys)
  {
    assert |xs| == |multiset(xs)| && |ys| == |multiset(ys)|;
    FilterOfPermutation((g: GPU) => g.Schedulable(), xs, ys);
    FilterOfPermutation((g: GPU) => request.Matches(g), xs, ys);
    assert Sorting.Distinct(xs);
    Sorting.FilterDistinct((g: GPU) => request.Matches(g), xs);
    Sorting.FilterMembers((g: GPU) => request.Matches(g), xs);
    MembersOrdered(xs, Usable(request, xs));
    Sorting.PermutationIsDistinct(Usable(request, xs), Usable(request, ys));
    Sorting.SortIsCanonical(GPUBefore, Usable(request, xs), Usable(request, ys));
  }

  lemma {:induction false} ShuffledCandidates(strategy: Strategy, job: Job, xs: seq<Server>, ys: seq<Server>,
                                              now: Time, offlineAfter: int)
    requires job.resources.gpuCount > 0 && Shuffled(xs, ys) && forall s :: s in xs ==> DistinctUUIDs(s.gpus)
    ensures Candidates(strategy, job, xs, now, offlineAfter) == Candidates(strategy, job, ys, now, offlineAfter)
  {
    if xs != [] {
      ShuffledGPUs(job.resources, xs[0].gpus, ys[0].gpus);
      ShuffledCandidates(strategy, job, xs[1..], ys[1..], now, offlineAfter);
      hide Matching, FreeCount, Score, Shuffled;
    }
  }

  lemma PermutedServers(xs: seq<Server>, ys: seq<Server>)
    requires DistinctServers(xs) && multiset(xs) == multiset(ys)
    ensures DistinctServers(ys) && forall s :: s in xs <==> s in ys
  {
    assert Sorting.Distinct(xs);
    Sorting.PermutationIsDistinct(xs, ys);
    forall i, j | 0 <= i < j < |ys| ensures ys[i].id != ys[j].id {
      assert ys[i] in xs && ys[j] in xs && ys[i] != ys[j];
    }
  }

  /** The placement depends neither on the order of the hosts nor on the order of the GPUs inside them. */
  lemma PlanIsCanonical(strategy: Strategy, job: Job, xs: seq<Server>, mid: seq<Server>, ys: seq<Server>, now: Time,
                        offlineAfter: int)
    requires DistinctServers(xs) && forall s :: s in xs ==> DistinctUUIDs(s.gpus)
    requires multiset(xs) == multiset(mid) && Shuffled(mid, ys)
    ensures Plan(strategy, job, xs, now, offlineAfter) == Plan(strategy, job, ys, now, offlineAfter)
  {
    hide Fits, CandidateOf, CandidateBefore, Candidates, Shuffled, PlacementOf;
    if job.resources.gpuCount > 0 {
      PermutedServers(xs, mid);
      ShuffledCandidates(strategy, job, mid, ys, now, offlineAfter);
      var cs, ds := Candidates(strategy, job, xs, now, offlineAfter), Candidates(strategy, job, mid, now, offlineAfter);
      CandidatesExactly(strategy, job, xs, now, offlineAfter);
      CandidatesExactly(strategy, job, mid, now, offlineAfter);
      CandidatesAreOrdered(cs);
      CandidatesAreOrdered(ds);
      Sorting.SortIsCanonical(CandidateBefore, cs, ds);
      EmptyTogether(cs, ds);
    }
  }

  lemma EmptyTogether(cs: seq<Candidate>, ds: seq<Candidate>)
    requires forall c :: c in cs <==> c in ds
    ensures cs == [] <==> ds == []
  {
    if cs != [] { assert cs[0] in ds; }
    if ds != [] { assert ds[0] in cs; }
  }

  // ---------------------------------------------------------------- What the scores prefer

  /** A matching GPU is free, so a host that fits has enough free GPUs. */
  lemma MatchingIsFree(request: Resources, gpus: seq<GPU>)
    ensures |Matching(request, gpus)| <= FreeCount(gpus) <= |gpus|
  {
    Sorting.SortPermutes(GPUBefore, Usable(request, gpus));
    UsableIsFree(request, gpus);
    Sorting.FilterMembers((g: GPU) => g.Schedulable(), gpus);
  }

  lemma {:induction false} UsableIsFree(request: Resources, gpus: seq<GPU>)
    ensures |Sorting.Filter((g: GPU) => request.Matches(g), gpus)| <= |Sorting.Filter((g: GPU) => g.Schedulable(),
        gpus)|
  {
    if gpus != [] {
      UsableIsFree(request, gpus[1..]);
    }
  }

  lemma Proportion(part: int, whole: int)
    requires 0 <= part < whole
    ensures 0.0 <= part as real / whole as real < 1.0
    ensures part == 0 ==> part as real / whole as real == 0.0
    ensures part > 0 ==> part as real / whole as real > 0.0
  {
  }

  /** Under the fragmentation score a partly used host always beats a fully free one, and between two hosts of the
      same kind one that is filled up beats one that is left partly free, whatever their GPU counts. */
  lemma FragmentationPrefers(job: Job, a: Server, b: Server, now: Time, offlineAfter: int)
    requires job.resources.gpuCount > 0 && Fits(job, a, now, offlineAfter) && Fits(job, b, now, offlineAfter)
    ensures var fa, fb, n := FreeCount(a.gpus), FreeCount(b.gpus), job.resources.gpuCount;
      var sa, sb := CandidateOf(Fragmentation, job, a, now, offlineAfter).score,
        CandidateOf(Fragmentation, job, b, now, offlineAfter).score;
      && (fa < |a.gpus| && fb == |b.gpus| ==> sa < sb)
      && ((fa < |a.gpus| <==> fb < |b.gpus|) && fa == n && fb > n ==> sa < sb)
  {
    MatchingIsFree(job.resources, a.gpus);
    MatchingIsFree(job.resources, b.gpus);
    Proportion(FreeCount(a.gpus) - job.resources.gpuCount, |a.gpus| + 1);
    Proportion(FreeCount(b.gpus) - job.resources.gpuCount, |b.gpus| + 1);
    hide Matching, FreeCount;
  }

  lemma OtherScoresPrefer(job: Job, a: Server, b: Server, now: Time, offlineAfter: int)
    requires job.resources.gpuCount > 0 && Fits(job, a, now, offlineAfter) && Fits(job, b, now, offlineAfter)
    ensures CandidateBefore(CandidateOf(FirstFit, job, a, now, offlineAfter),
                            CandidateOf(FirstFit, job, b, now, offlineAfter))
       <==> a.id < b.id
    ensures CandidateBefore(CandidateOf(BestFit, job, a, now, offlineAfter),
                            CandidateOf(BestFit, job, b, now, offlineAfter))
       ==> |Matching(job.resources, a.gpus)| <= |Matching(job.resources, b.gpus)|
    ensures CandidateBefore(CandidateOf(BinPack, job, a, now, offlineAfter),
                            CandidateOf(BinPack, job, b, now, offlineAfter))
       ==> !MoreFull(b.gpus, a.gpus)
  {
  }

  /** Fewer free GPUs and no fewer in use. */
  predicate MoreFull(a: seq<GPU>, b: seq<GPU>) {
    FreeCount(a) < FreeCount(b) && |a| - FreeCount(a) >= |b| - FreeCount(b)
  }

  /** What the chosen host is, among all that fit: FIRST_FIT takes the least identifier; BEST_FIT none has fewer
      matching GPUs; BINPACK none is more full; FRAGMENTATION takes a fully free host only when every host that fits
      is fully free, and leaves GPUs free on it only when no host of its kind could be filled up. */
  lemma PlanPrefers(strategy: Strategy, job: Job, servers: seq<Server>, now: Time, offlineAfter: int, s: Server)
    requires job.resources.gpuCount > 0 && DistinctServers(servers) && s in servers && Fits(job, s, now, offlineAfter)
    ensures Plan(strategy, job, servers, now, offlineAfter).Ok?
    ensures var p := Plan(strategy, job, servers, now, offlineAfter).value;
      exists w :: w in servers && w.id == p.serverId && Fits(job, w, now, offlineAfter)
        && Preferred(strategy, job, w, s)
  {
    hide Fits, CandidateOf, CandidateBefore, Plan, PlacementOf, Preferred;
    PlanIsOptimal(strategy, job, servers, now, offlineAfter);
    CandidateNamesServer(strategy, job, servers, now, offlineAfter);
    var p := Plan(strategy, job, servers, now, offlineAfter).value;
    var w :| w in servers && Fits(job, w, now, offlineAfter)
      && p == PlacementOf(strategy, CandidateOf(strategy, job, w, now, offlineAfter));
    PlacementNames(strategy, CandidateOf(strategy, job, w, now, offlineAfter));
    if s.id == p.serverId {
      SameHost(servers, s, w);
    }
    LeastIsPreferred(strategy, job, w, s, now, offlineAfter);
  }

  lemma PlacementNames(strategy: Strategy, c: Candidate)
    ensures var p := PlacementOf(strategy, c); Candidate(p.serverId, p.gpus, p.score) == c
  {
  }

  lemma SameHost(servers: seq<Server>, s: Server, w: Server)
    requires DistinctServers(servers) && s in servers && w in servers && s.id == w.id
    ensures s == w
  {
    var i :| 0 <= i < |servers| && servers[i] == s;
    var k :| 0 <= k < |servers| && servers[k] == w;
  }

  /** How the chosen host compares with another one that fits. */
  predicate Preferred(strategy: Strategy, job: Job, w: Server, s: Server) {
    var fw, fs, n := FreeCount(w.gpus), FreeCount(s.gpus), job.resources.gpuCount;
    match strategy
    case FirstFit => w.id <= s.id
    case BestFit => |Matching(job.resources, w.gpus)| <= |Matching(job.resources, s.gpus)|
    case BinPack => !MoreFull(s.gpus, w.gpus)
    case Fragmentation =>
      && (fw == |w.gpus| ==> fs == |s.gpus|)
      && ((fw < |w.gpus| <==> fs < |s.gpus|) && fs == n ==> fw == n)
  }

  lemma LeastIsPreferred(strategy: Strategy, job: Job, w: Server, s: Server, now: Time, offlineAfter: int)
    requires job.resources.gpuCount > 0 && Fits(job, w, now, offlineAfter) && Fits(job, s, now, offlineAfter)
    requires w == s || CandidateBefore(CandidateOf(strategy, job, w, now, offlineAfter),
                                       CandidateOf(strategy, job, s, now, offlineAfter))
    ensures Preferred(strategy, job, w, s)
  {
    hide FreeCount, Matching;
    MatchingIsFree(job.resources, w.gpus);
    MatchingIsFree(job.resources, s.gpus);
    if w != s {
      OtherScoresPrefer(job, w, s, now, offlineAfter);
      FragmentationPrefers(job, s, w, now, offlineAfter);
    }
  }
}
