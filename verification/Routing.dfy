/** Choosing among candidates: priority groups and the strategies. */
module Routing {
  import opened Json
  import opened Providers

  // ---------- Weighted choice ----------

  function Sum(weights: seq<int>): int {
    if weights == [] then 0 else Sum(weights[..|weights| - 1]) + weights[|weights| - 1]
  }

  predicate Positive(weights: seq<int>) {
    weights != [] && forall i | 0 <= i < |weights| :: weights[i] > 0
  }

  /** A draw selects the slot whose stretch of the weights it falls into. */
  ghost predicate FallsInto(weights: seq<int>, r: int, i: nat) {
    i < |weights| && Sum(weights[..i]) <= r < Sum(weights[..i + 1])
  }

  /** `rand(n)` is a number below `n`. With no positive total the first item is taken without a draw. */
  method WeightedPick(items: seq<Provider>, weights: seq<int>, rand: nat -> nat) returns (p: Provider)
    requires 0 < |items| == |weights|
    requires forall n | n > 0 :: rand(n) < n
    ensures p in items && (Sum(weights) <= 0 ==> p == items[0])
    ensures Positive(weights) ==>
              Sum(weights) > 0 && exists at: nat :: FallsInto(weights, rand(Sum(weights)), at) && p == items[at]
  {
    var total := 0;
    for i := 0 to |weights|
      invariant total == Sum(weights[..i])
      invariant Positive(weights) ==> i <= total
    {
      assert weights[..i + 1][..i] == weights[..i];
      total := total + weights[i];
    }
    assert weights[..|weights|] == weights;
    if total <= 0 {
      return items[0];
    }
    var r := rand(total);
    var cum := 0;
    for i := 0 to |weights|
      invariant cum == Sum(weights[..i])
      invariant Positive(weights) ==> cum <= r
    {
      assert weights[..i + 1][..i] == weights[..i];
      cum := cum + weights[i];
      if r < cum {
        assert Positive(weights) ==> FallsInto(weights, r, i);
        return items[i];
      }
    }
    return items[0];
  }

  lemma {:induction false} SumGrows(weights: seq<int>, j: nat, k: nat)
    requires j <= k <= |weights| && Positive(weights)
    ensures 0 <= Sum(weights[..j]) && Sum(weights[..j]) + (k - j) <= Sum(weights[..k])
    decreases k
  {
    if k > 0 {
      assert weights[..k][..k - 1] == weights[..k - 1];
      if j < k {
        SumGrows(weights, j, k - 1);
      } else {
        SumGrows(weights, j - 1, k - 1);
      }
    }
  }

  function Between(a: int, b: int): (s: set<int>)
    requires a <= b
    ensures |s| == b - a && forall r :: r in s <==> a <= r < b
    decreases b - a
  {
    if a < b then Between(a, b - 1) + {b - 1} else {}
  }

  lemma OneSlot(weights: seq<int>, r: int, i: nat, j: nat)
    requires Positive(weights) && FallsInto(weights, r, i) && FallsInto(weights, r, j)
    ensures i == j
  {
    if j < i {
      SumGrows(weights, j + 1, i);
    } else if i < j {
      SumGrows(weights, i + 1, j);
    }
  }

  lemma SlotBounds(weights: seq<int>, i: nat)
    requires Positive(weights) && i < |weights|
    ensures 0 <= Sum(weights[..i]) && Sum(weights[..i + 1]) == Sum(weights[..i]) + weights[i] <= Sum(weights)
  {
    assert weights[..i + 1][..i] == weights[..i] && weights[..|weights|] == weights;
    SumGrows(weights, i, i + 1);
    SumGrows(weights, i + 1, |weights|);
  }

  /** Of the draws below the total, exactly `weights[i]` select slot `i`, and every draw selects one slot only. */
  lemma WeightsAreExact(weights: seq<int>, i: nat)
    requires Positive(weights) && i < |weights|
    ensures |set r | 0 <= r < Sum(weights) && FallsInto(weights, r, i)| == weights[i]
    ensures forall r, j | FallsInto(weights, r, i) && FallsInto(weights, r, j) :: j == i
  {
    SlotBounds(weights, i);
    assert (set r | 0 <= r < Sum(weights) && FallsInto(weights, r, i))
        == Between(Sum(weights[..i]), Sum(weights[..i + 1]));
    forall r, j: nat | FallsInto(weights, r, i) && FallsInto(weights, r, j) ensures j == i {
      OneSlot(weights, r, i, j);
    }
  }

  // ---------- Sorting ----------

  /** The score of the smart strategy: enough quota first, then latency. */
  predicate SmartLess(p: Provider, q: Provider) {
    var rp, rq := p.info.QuotaRatio(), q.info.QuotaRatio();
    if rp > 0.5 && rq <= 0.5 then true
    else if rq > 0.5 && rp <= 0.5 then false
    else p.info.latency < q.info.latency
  }

  /** Irreflexive, transitive, and so is being tied: sorting by this score is well defined. */
  lemma SmartIsWeakOrder(p: Provider, q: Provider, r: Provider)
    ensures !SmartLess(p, p)
    ensures SmartLess(p, q) && SmartLess(q, r) ==> SmartLess(p, r)
    ensures !SmartLess(p, q) && !SmartLess(q, p) && !SmartLess(q, r) && !SmartLess(r, q)
            ==> !SmartLess(p, r) && !SmartLess(r, p)
    ensures SmartLess(p, q) ==> SmartLess(p, r) || SmartLess(r, q)
  {
  }

  /** Item `i` of the group comes before item `j`: a better score, or a tie and an earlier place. */
  predicate Before(group: seq<Provider>, i: nat, j: nat)
    requires i < |group| && j < |group|
  {
    SmartLess(group[i], group[j]) || (!SmartLess(group[j], group[i]) && i < j)
  }

  /** `order` lists the places of the group, each once, best first. */
  ghost predicate IsRanking(group: seq<Provider>, order: seq<nat>) {
    |order| == |group| && InOrder(group, order)
  }

  /** The stable sort. */
  method SortStable(group: seq<Provider>) returns (sorted: seq<Provider>, ghost order: seq<nat>)
    ensures IsRanking(group, order) && |sorted| == |group|
    ensures forall k | 0 <= k < |sorted| :: sorted[k] == group[order[k]]
  {
    sorted, order := [], [];
    for i := 0 to |group|
      invariant |sorted| == |order| == i
      invariant forall k | 0 <= k < i :: order[k] < i && sorted[k] == group[order[k]]
      invariant InOrder(group, order)
    {
      var at := i;
      while at > 0 && SmartLess(group[i], sorted[at - 1])
        invariant 0 <= at <= i
        invariant forall k | at <= k < i :: Before(group, i, order[k])
      {
        at := at - 1;
      }
      Inserted(group, order, at, i);
      sorted := sorted[..at] + [group[i]] + sorted[at..];
      order := order[..at] + [i] + order[at..];
    }
  }

  ghost predicate InOrder(group: seq<Provider>, order: seq<nat>) {
    && (forall k | 0 <= k < |order| :: order[k] < |group|)
    && forall j, k | 0 <= j < k < |order| :: Before(group, order[j], order[k])
  }

  lemma NotBelowNeighbour(group: seq<Provider>, order: seq<nat>, at: nat, i: nat)
    requires InOrder(group, order) && at <= |order| && i < |group| && forall k | 0 <= k < |order| :: order[k] < i
    requires at > 0 ==> !SmartLess(group[i], group[order[at - 1]])
    ensures forall k | 0 <= k < at :: Before(group, order[k], i)
  {
    forall k | 0 <= k < at ensures Before(group, order[k], i) {
      SmartIsWeakOrder(group[order[k]], group[order[at - 1]], group[i]);
      SmartIsWeakOrder(group[i], group[order[k]], group[order[at - 1]]);
    }
  }

  lemma Inserted(group: seq<Provider>, order: seq<nat>, at: nat, i: nat)
    requires InOrder(group, order) && at <= |order| && i < |group| && forall k | 0 <= k < |order| :: order[k] < i
    requires at > 0 ==> !SmartLess(group[i], group[order[at - 1]])
    requires forall k | at <= k < |order| :: Before(group, i, order[k])
    ensures InOrder(group, order[..at] + [i] + order[at..])
  {
    NotBelowNeighbour(group, order, at, i);
    var all := order[..at] + [i] + order[at..];
    forall j, k | 0 <= j < k < |all| ensures Before(group, all[j], all[k]) {
      assert all[j] == if j < at then order[j] else if j == at then i else order[j - 1];
      assert all[k] == if k < at then order[k] else if k == at then i else order[k - 1];
    }
  }

  lemma {:induction false} Places(order: seq<nat>, n: nat) returns (s: set<nat>)
    requires n <= |order| && forall j, k | 0 <= j < k < |order| :: order[j] != order[k]
    ensures s == (set k | 0 <= k < n :: order[k]) && |s| == n
    decreases n
  {
    if n == 0 {
      s := {};
    } else {
      var t := Places(order, n - 1);
      s := t + {order[n - 1]};
    }
  }

  lemma PlaceInOrder(group: seq<Provider>, order: seq<nat>, j: nat, k: nat)
    requires InOrder(group, order) && j < |order| && k < |order|
    ensures Before(group, order[j], order[k]) <==> j < k
  {
    if k < j {
      assert Before(group, order[k], order[j]);
      SmartIsWeakOrder(group[order[j]], group[order[k]], group[order[j]]);
    }
  }

  /** Every place of the group is in the ranking. */
  lemma AllRanked(group: seq<Provider>, order: seq<nat>) returns (all: set<nat>)
    requires IsRanking(group, order)
    ensures all == (set k | 0 <= k < |order| :: order[k]) == Below(|group|)
  {
    forall a, b | 0 <= a < b < |order| ensures order[a] != order[b] {
      PlaceInOrder(group, order, a, b);
      PlaceInOrder(group, order, b, a);
    }
    all := Places(order, |order|);
    SameSizeSubset(all, Below(|group|));
  }

  /** The place at position `k` of a ranking is the one that exactly `k` others come before: rankings are unique. */
  lemma PositionIsRank(group: seq<Provider>, order: seq<nat>, k: nat)
    requires IsRanking(group, order) && k < |order|
    ensures |set i: nat | i < |group| && Before(group, i, order[k])| == k
  {
    var all := AllRanked(group, order);
    forall a, b | 0 <= a < b < |order| ensures order[a] != order[b] {
      PlaceInOrder(group, order, b, a);
    }
    var front := Places(order, k);
    forall i: nat | i < |group| ensures i in front <==> Before(group, i, order[k]) {
      assert i in all;
      var j :| 0 <= j < |order| && order[j] == i;
      PlaceInOrder(group, order, j, k);
    }
    assert front == set i: nat | i < |group| && Before(group, i, order[k]);
  }

  function Below(n: nat): (s: set<nat>)
    ensures |s| == n && forall i: nat :: i in s <==> i < n
  {
    if n == 0 then {} else Below(n - 1) + {n - 1}
  }

  lemma SameSizeSubset(a: set<nat>, b: set<nat>)
    requires a <= b && |a| == |b|
    ensures a == b
  {
    assert b == a + (b - a);
    assert |b| == |a| + |b - a|;
  }

  // ---------- Strategies ----------

  datatype Strategy = LeastLatency | CostFirst | CostOptimal | RoundRobin | ByPriority | Smart

  function Latency(p: Provider): real {
    p.info.latency as real
  }

  function Cost(p: Provider): real {
    p.info.cost
  }

  function Rank(p: Provider): real {
    -(p.info.priority as real)
  }

  predicate Least(group: seq<Provider>, key: Provider -> real, p: Provider) {
    p in group && forall q | q in group :: key(p) <= key(q)
  }

  function RoundRobinWeights(group: seq<Provider>): seq<int> {
    seq(|group|, i requires 0 <= i < |group| => if group[i].info.weight <= 0 then 1 else group[i].info.weight)
  }

  /** 100, 70, 40 for the best three. */
  function SmartWeights(n: nat): seq<int> {
    seq(n, i requires 0 <= i < n => 100 - i * 30)
  }

  function Top(group: seq<Provider>): nat {
    if 3 < |group| then 3 else |group|
  }

  /** What a strategy may take from a group; ties of the unstable sorts are left open. */
  ghost predicate Takes(strategy: Strategy, group: seq<Provider>, rand: nat -> nat, p: Provider) {
    match strategy
    case LeastLatency => Least(group, Latency, p)
    case CostFirst => Least(group, Cost, p)
    case CostOptimal => Least(group, Cost, p)
    case ByPriority => Least(group, Rank, p)
    case RoundRobin => exists at: nat | at < |group| :: p == group[at] && DrawnAt(RoundRobinWeights(group), rand, at)
    case Smart =>
      exists order, at: nat | IsRanking(group, order) && DrawnAt(SmartWeights(Top(group)), rand, at) ::
        at < Top(group) && p == group[order[at]]
  }

  ghost predicate DrawnAt(weights: seq<int>, rand: nat -> nat, at: nat) {
    Positive(weights) && Sum(weights) > 0 && FallsInto(weights, rand(Sum(weights)), at)
  }

  lemma {:induction false} LeastExists(group: seq<Provider>, key: Provider -> real) returns (p: Provider)
    requires group != []
    ensures Least(group, key, p)
  {
    p := group[0];
    if |group| > 1 {
      var q := LeastExists(group[1..], key);
      assert forall r | r in group :: r == group[0] || r in group[1..];
      if key(q) < key(p) {
        p := q;
      }
    }
  }

  /** The first item of an unstable sort: one with the least key, but which is the library's choice. */
  method FirstBy(group: seq<Provider>, key: Provider -> real) returns (p: Provider)
    requires group != []
    ensures Least(group, key, p)
  {
    if |group| == 1 {
      return group[0];
    }
    ghost var least := LeastExists(group, key);
    assert Least(group, key, least);
    p :| Least(group, key, p);
  }

  method SelectWeightedRandom(group: seq<Provider>, rand: nat -> nat) returns (p: Provider)
    requires group != [] && forall n | n > 0 :: rand(n) < n
    ensures Takes(RoundRobin, group, rand, p)
  {
    var weights := RoundRobinWeights(group);
    if |group| == 1 {
      OnlySlot(weights, rand);
      return group[0];
    }
    p := WeightedPick(group, weights, rand);
    ghost var at: nat :| FallsInto(weights, rand(Sum(weights)), at) && p == group[at];
    assert DrawnAt(weights, rand, at);
  }

  lemma OnlySlot(weights: seq<int>, rand: nat -> nat)
    requires |weights| == 1 && Positive(weights) && forall n | n > 0 :: rand(n) < n
    ensures DrawnAt(weights, rand, 0)
  {
    assert weights[..1] == weights && weights[..0] == [];
  }

  method SelectSmart(group: seq<Provider>, rand: nat -> nat) returns (p: Provider)
    requires group != [] && forall n | n > 0 :: rand(n) < n
    ensures Takes(Smart, group, rand, p)
  {
    if |group| == 1 {
      OnlySlot(SmartWeights(1), rand);
      assert IsRanking(group, [0]) && [0][0] == 0;
      return group[0];
    }
    var sorted, order := SortStable(group);
    var topN := Top(group);
    var weights := SmartWeights(topN);
    p := WeightedPick(sorted[..topN], weights, rand);
    ghost var at: nat :| FallsInto(weights, rand(Sum(weights)), at) && p == sorted[..topN][at];
    assert DrawnAt(weights, rand, at);
  }

  method SelectBy(strategy: Strategy, group: seq<Provider>, rand: nat -> nat) returns (p: Provider)
    requires group != [] && forall n | n > 0 :: rand(n) < n
    ensures Takes(strategy, group, rand, p)
  {
    match strategy {
      case LeastLatency => p := FirstBy(group, Latency);
      case CostFirst => p := FirstBy(group, Cost);
      case CostOptimal => p := FirstBy(group, Cost);
      case RoundRobin => p := SelectWeightedRandom(group, rand);
      case ByPriority => p := FirstBy(group, Rank);
      case Smart => p := SelectSmart(group, rand);
    }
  }

  lemma TakesFromGroup(strategy: Strategy, group: seq<Provider>, rand: nat -> nat, p: Provider)
    requires Takes(strategy, group, rand, p)
    ensures p in group
  {
  }

  /** Under the smart strategy fewer than three others come before the chosen one; draws are shared 100 : 70 : 40. */
  lemma SmartTakesOneOfThree(group: seq<Provider>, rand: nat -> nat, p: Provider)
    requires Takes(Smart, group, rand, p)
    ensures exists i: nat | i < |group| && group[i] == p ::
              |set j: nat | j < |group| && Before(group, j, i)| < 3
  {
    var order, at: nat :| IsRanking(group, order) && DrawnAt(SmartWeights(Top(group)), rand, at)
      && at < Top(group) && p == group[order[at]];
    PositionIsRank(group, order, at);
  }

  // ---------- Groups ----------

  function InGroup(providers: seq<Provider>, g: Group): seq<Provider> {
    if providers == [] then []
    else
      var p := providers[|providers| - 1];
      InGroup(providers[..|providers| - 1], g) + if p.info.Group() == g then [p] else []
  }

  method GroupByPriority(providers: seq<Provider>)
    returns (primary: seq<Provider>, hot: seq<Provider>, cold: seq<Provider>)
    ensures primary == InGroup(providers, Primary) && hot == InGroup(providers, Hot) && cold == InGroup(providers, Cold)
  {
    primary, hot, cold := [], [], [];
    for i := 0 to |providers|
      invariant primary == InGroup(providers[..i], Primary)
      invariant hot == InGroup(providers[..i], Hot)
      invariant cold == InGroup(providers[..i], Cold)
    {
      assert providers[..i + 1][..i] == providers[..i];
      match providers[i].info.Group() {
        case Primary => primary := primary + [providers[i]];
        case Hot => hot := hot + [providers[i]];
        case Cold => cold := cold + [providers[i]];
      }
    }
    assert providers[..|providers|] == providers;
  }

  /** The group the choice is made from. */
  function TopGroup(candidates: seq<Provider>): seq<Provider> {
    if InGroup(candidates, Primary) != [] then InGroup(candidates, Primary)
    else if InGroup(candidates, Hot) != [] then InGroup(candidates, Hot)
    else InGroup(candidates, Cold)
  }

  lemma {:induction false} InGroupExactly(providers: seq<Provider>, g: Group)
    ensures forall k | 0 <= k < |InGroup(providers, g)| ::
              InGroup(providers, g)[k] in providers && InGroup(providers, g)[k].info.Group() == g
    ensures forall i | 0 <= i < |providers| && providers[i].info.Group() == g :: providers[i] in InGroup(providers, g)
  {
    if providers != [] {
      InGroupExactly(providers[..|providers| - 1], g);
    }
  }

  function Level(g: Group): nat {
    match g case Primary => 0 case Hot => 1 case Cold => 2
  }

  /** No candidate's level is above the group's, and all candidates of that level are in it. */
  lemma TopGroupIsHighest(candidates: seq<Provider>)
    requires candidates != []
    ensures TopGroup(candidates) != []
    ensures forall k, i | 0 <= k < |TopGroup(candidates)| && 0 <= i < |candidates| ::
              && TopGroup(candidates)[k] in candidates
              && Level(TopGroup(candidates)[k].info.Group()) <= Level(candidates[i].info.Group())
              && (TopGroup(candidates)[k].info.Group() == candidates[i].info.Group()
                  ==> candidates[i] in TopGroup(candidates))
  {
    var g :=
      if InGroup(candidates, Primary) != [] then Primary
      else if InGroup(candidates, Hot) != [] then Hot
      else Cold;
    assert TopGroup(candidates) == InGroup(candidates, g);
    InGroupExactly(candidates, g);
    InGroupExactly(candidates, candidates[0].info.Group());
    forall i | 0 <= i < |candidates| ensures Level(g) <= Level(candidates[i].info.Group()) {
      InGroupExactly(candidates, candidates[i].info.Group());
    }
  }
}
