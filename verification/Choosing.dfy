/** What a selection means in terms of the providers' own figures: which one each strategy takes, from which group, and
    when a session keeps the one it has. */
module Choosing {
  import opened Json
  import opened Providers
  import opened Routing
  import opened Router

  // ---------- Scores and delays ----------

  /** More than half of the quota left; an unknown quota counts as full. */
  predicate HasPlenty(info: Info) {
    info.quotaTotal <= 0 || 2 * info.quotaUsed < info.quotaTotal
  }

  /** The smart score: plenty of quota comes before the rest, and among equals the lower latency. */
  lemma SmartPrefers(p: Provider, q: Provider)
    ensures SmartLess(p, q)
            <==> (HasPlenty(p.info) && !HasPlenty(q.info))
                 || ((HasPlenty(p.info) <==> HasPlenty(q.info)) && p.info.latency < q.info.latency)
  {
    PlentyIsRatio(p.info);
    PlentyIsRatio(q.info);
  }

  lemma PlentyIsRatio(info: Info)
    ensures HasPlenty(info) <==> info.QuotaRatio() > 0.5
  {
    if info.quotaTotal > 0 && info.quotaUsed < info.quotaTotal {
      var left, total := (info.quotaTotal - info.quotaUsed) as real, info.quotaTotal as real;
      MoreThanHalf(left, total);
      assert 2.0 * left > total <==> 2 * info.quotaUsed < info.quotaTotal;
    }
  }

  lemma MoreThanHalf(left: real, total: real)
    requires total > 0.0
    ensures left / total > 0.5 <==> 2.0 * left > total
  {
    var share := left / total;
    assert share * total == left;
    if share > 0.5 {
      assert (share - 0.5) * total > 0.0;
    } else {
      assert (0.5 - share) * total >= 0.0;
    }
  }

  /** Each further refusal multiplies the delay, up to the maximum; the first delay is the base itself. */
  lemma NextDelay(b: Backoff, n: nat)
    requires b.multiplier >= 1.0 && b.base >= 0.0 && b.max >= 0.0 && n >= 1
    ensures Delay(b, 1) == b.base
    ensures var grown := Delay(b, n) * b.multiplier; Delay(b, n + 1) == if grown > b.max then b.max else grown
  {
    FirstDelay(b);
    var step, next := StepsOf(b, n);
    CappedGrowth(step, next, b.max, b.multiplier, Delay(b, n));
  }

  lemma StepsOf(b: Backoff, n: nat) returns (step: real, next: real)
    requires b.multiplier >= 1.0 && b.base >= 0.0 && n >= 1
    ensures next == step * b.multiplier
    ensures Delay(b, n) == if n >= 2 && step > b.max then b.max else step
    ensures Delay(b, n + 1) == if next > b.max then b.max else next
  {
    step, next := b.base * Power(b.multiplier, n - 1), b.base * Power(b.multiplier, n);
    DelayIsCapped(b, n, step);
    DelayIsCapped(b, n + 1, next);
    Regroup(b.base, Power(b.multiplier, n - 1), b.multiplier);
  }

  lemma DelayIsCapped(b: Backoff, n: nat, step: real)
    requires b.multiplier >= 1.0 && b.base >= 0.0 && n >= 1 && step == b.base * Power(b.multiplier, n - 1)
    ensures Delay(b, n) == if n >= 2 && step > b.max then b.max else step
  {
    if n >= 2 {
      GrowingBackoff(b, n);
    }
  }

  /** Growing what may have been capped and capping again is growing and capping once. */
  lemma CappedGrowth(step: real, next: real, max: real, multiplier: real, delay: real)
    requires multiplier >= 1.0 && max >= 0.0 && next == step * multiplier
    requires delay == step || (step > max && delay == max)
    ensures var grown := delay * multiplier;
            (if next > max then max else next) == if grown > max then max else grown
  {
    assert max * (multiplier - 1.0) >= 0.0;
    if step > max {
      assert step * (multiplier - 1.0) >= 0.0;
    }
  }

  // ---------- Strategies ----------

  /** The share of a provider in the round robin: its weight, and one for none. */
  predicate HasShares(group: seq<Provider>, shares: seq<int>) {
    |shares| == |group|
    && forall i | 0 <= i < |group| :: shares[i] == if group[i].info.weight > 0 then group[i].info.weight else 1
  }

  /** How the places of a group are ranked: the better score first, and the earlier place on a tie. */
  ghost predicate ComesBefore(group: seq<Provider>, i: nat, j: nat)
    requires i < |group| && j < |group|
  {
    SmartLess(group[i], group[j]) || (!SmartLess(group[j], group[i]) && i < j)
  }

  /** The shares of the best three, or of as many as there are. */
  function BestShares(n: nat): seq<int> {
    if n >= 3 then [100, 70, 40] else if n == 2 then [100, 70] else if n == 1 then [100] else []
  }

  /** What is taken from a group: the least latency, the least cost, or the highest priority; in turn by the weights; or
      one of the best three, drawn 100 to 70 to 40. */
  lemma StrategyTells(strategy: Strategy, group: seq<Provider>, rand: nat -> nat, p: Provider)
    requires Takes(strategy, group, rand, p)
    ensures p in group
    ensures strategy == LeastLatency ==> forall q | q in group :: p.info.latency <= q.info.latency
    ensures strategy == CostFirst || strategy == CostOptimal ==> forall q | q in group :: p.info.cost <= q.info.cost
    ensures strategy == ByPriority ==> forall q | q in group :: p.info.priority >= q.info.priority
    ensures strategy == RoundRobin ==>
              exists shares, at: nat | HasShares(group, shares) && DrawnAt(shares, rand, at) ::
                at < |group| && p == group[at]
    ensures strategy == Smart ==> TakesOneOfTheBest(group, rand, p)
  {
    TakesFromGroup(strategy, group, rand, p);
    match strategy
    case LeastLatency => assert forall q | q in group :: Latency(p) <= Latency(q);
    case CostFirst => assert forall q | q in group :: Cost(p) <= Cost(q);
    case CostOptimal => assert forall q | q in group :: Cost(p) <= Cost(q);
    case ByPriority =>
      forall q | q in group ensures p.info.priority >= q.info.priority {
        assert Rank(p) <= Rank(q);
      }
    case RoundRobin => assert HasShares(group, RoundRobinWeights(group));
    case Smart => SmartTells(group, rand, p);
  }

  /** The place is drawn by the shares of the best three, and as many come before it as the place says. */
  ghost predicate TakesOneOfTheBest(group: seq<Provider>, rand: nat -> nat, p: Provider) {
    exists i: nat, at: nat | i < |group| && group[i] == p ::
      DrawnAt(BestShares(|group|), rand, at) && |set j: nat | j < |group| && ComesBefore(group, j, i)| == at
  }

  lemma SmartTells(group: seq<Provider>, rand: nat -> nat, p: Provider)
    requires Takes(Smart, group, rand, p)
    ensures TakesOneOfTheBest(group, rand, p)
  {
    var order, at: nat :| IsRanking(group, order) && DrawnAt(SmartWeights(Top(group)), rand, at)
      && at < Top(group) && p == group[order[at]];
    PositionIsRank(group, order, at);
    var i := order[at];
    assert (set j: nat | j < |group| && Before(group, j, i)) == set j: nat | j < |group| && ComesBefore(group, j, i);
    assert SmartWeights(Top(group)) == BestShares(|group|);
  }

  /** The group chosen from: the providers of priority 90 and more, if there are none those of 50 and more, and if there
      are none of these either, all. */
  lemma TopIsHighest(candidates: seq<Provider>, p: Provider)
    requires p in TopGroup(candidates)
    ensures p in candidates
    ensures forall q | q in candidates :: q.info.priority >= 90 ==> p.info.priority >= 90
    ensures forall q | q in candidates :: q.info.priority >= 50 ==> p.info.priority >= 50
    ensures forall q | q in candidates && (q.info.priority >= 90 || p.info.priority < 90)
                       && (q.info.priority >= 50 || p.info.priority < 50) :: q in TopGroup(candidates)
  {
    TopIsCandidate(candidates, p);
    var k :| 0 <= k < |TopGroup(candidates)| && TopGroup(candidates)[k] == p;
    TopGroupIsHighest(candidates);
    forall q | q in candidates
      ensures Level(p.info.Group()) <= Level(q.info.Group())
      ensures p.info.Group() == q.info.Group() ==> q in TopGroup(candidates)
    {
      var i :| 0 <= i < |candidates| && candidates[i] == q;
    }
  }

  lemma TopIsCandidate(candidates: seq<Provider>, p: Provider)
    requires p in TopGroup(candidates)
    ensures p in candidates && candidates != []
  {
    InGroupExactly(candidates, Primary);
    InGroupExactly(candidates, Hot);
    InGroupExactly(candidates, Cold);
    var k :| 0 <= k < |TopGroup(candidates)| && TopGroup(candidates)[k] == p;
  }

  // ---------- Order ----------

  /** `picked` holds the providers at these places, in order. */
  ghost predicate PickedAt(providers: seq<Provider>, picked: seq<Provider>, places: seq<nat>) {
    && |places| == |picked|
    && (forall j, k | 0 <= j < k < |places| :: places[j] < places[k])
    && forall k | 0 <= k < |places| :: places[k] < |providers| && picked[k] == providers[places[k]]
  }

  lemma OneMorePlace(providers: seq<Provider>, picked: seq<Provider>, places: seq<nat>, p: Provider, take: bool)
    requires PickedAt(providers, picked, places)
    ensures if take then PickedAt(providers + [p], picked + [p], places + [|providers|])
            else PickedAt(providers + [p], picked, places)
  {
  }

  /** The candidates are the providers that may serve, each once and in the order of the list. */
  lemma {:induction false} CandidatesInOrder(providers: seq<Provider>, d: Demand, critical: real)
    returns (places: seq<nat>)
    ensures PickedAt(providers, Candidates(providers, d, critical), places)
    ensures forall i: nat | i < |providers| :: i in places <==> MayServe(providers[i], d, critical)
  {
    places := [];
    if providers != [] {
      var n, front := |providers| - 1, providers[..|providers| - 1];
      var before := CandidatesInOrder(front, d, critical);
      var takes := MayServe(providers[n], d, critical);
      CandidateMayServe(providers[n], d, critical);
      OneMorePlace(front, Candidates(front, d, critical), before, providers[n], takes);
      assert providers == front + [providers[n]];
      assert Candidates(front, d, critical) + [] == Candidates(front, d, critical);
      places := if takes then before + [n] else before;
      forall i: nat | i < n ensures i in before <==> MayServe(providers[i], d, critical) {
        assert front[i] == providers[i];
      }
    }
  }

  /** Priorities of 90 and more, from 50 to 89, and below. */
  predicate InRange(g: Group, priority: int) {
    match g
    case Primary => 90 <= priority
    case Hot => 50 <= priority < 90
    case Cold => priority < 50
  }

  lemma OneMoreInGroup(front: seq<Provider>, p: Provider, g: Group)
    ensures InGroup(front + [p], g)
         == if InRange(g, p.info.priority) then InGroup(front, g) + [p] else InGroup(front, g)
  {
    assert (front + [p])[..|front|] == front;
    assert InGroup(front, g) + [] == InGroup(front, g);
  }

  /** Each group holds the providers of its range, each once and in the order of the list. */
  lemma {:induction false} GroupsInOrder(providers: seq<Provider>, g: Group) returns (places: seq<nat>)
    ensures PickedAt(providers, InGroup(providers, g), places)
    ensures forall i: nat | i < |providers| :: i in places <==> InRange(g, providers[i].info.priority)
  {
    if providers == [] {
      return [];
    }
    var n := |providers| - 1;
    var front, p := providers[..n], providers[n];
    assert providers == front + [p];
    var before := GroupsInOrder(front, g);
    places := OneMoreGrouped(front, p, g, before);
  }

  lemma OneMoreGrouped(front: seq<Provider>, p: Provider, g: Group, before: seq<nat>) returns (places: seq<nat>)
    requires PickedAt(front, InGroup(front, g), before)
    requires forall i: nat | i < |front| :: i in before <==> InRange(g, front[i].info.priority)
    ensures PickedAt(front + [p], InGroup(front + [p], g), places)
    ensures forall i: nat | i < |front + [p]| :: i in places <==> InRange(g, (front + [p])[i].info.priority)
  {
    var takes := InRange(g, p.info.priority);
    OneMoreInGroup(front, p, g);
    OneMorePlace(front, InGroup(front, g), before, p, takes);
    places := if takes then before + [|front|] else before;
  }

  // ---------- Sessions ----------

  /** A session keeps its provider for ten minutes from the choice, if it is still a candidate. */
  predicate Keeps(sticky: Bindings, session: string, candidates: seq<Provider>, now: real) {
    && session != "" && session in sticky && now <= sticky[session].lastUsed + 600.0
    && exists i | 0 <= i < |candidates| :: candidates[i].info.id == sticky[session].id
  }

  /** One selection: nothing among no candidates; the provider the session keeps; or one the strategy takes from the
      highest group, which the session, if there is one, keeps from now on. */
  lemma SelectionTells(strategy: Strategy, sticky: Bindings, session: string, candidates: seq<Provider>, now: real,
                       rand: nat -> nat, chosen: Option<Provider>, sticky': Bindings)
    requires Selects(strategy, sticky, session, candidates, now, rand, chosen, sticky')
    ensures candidates == [] ==> chosen == None && sticky' == sticky
    ensures candidates != [] ==> chosen.Some? && chosen.value in candidates
    ensures Keeps(sticky, session, candidates, now) ==>
              chosen.Some? && chosen.value.info.id == sticky[session].id && sticky' == sticky
    ensures candidates != [] && !Keeps(sticky, session, candidates, now) ==>
              && Takes(strategy, TopGroup(candidates), rand, chosen.value)
              && sticky' == if session == "" then sticky else sticky[session := Sticky(chosen.value.info.id, now)]
  {
    assert Keeps(sticky, session, candidates, now) <==> IsBound(sticky, session, candidates, now);
    SelectionIsACandidate(strategy, sticky, session, candidates, now, rand, chosen, sticky');
  }
}
