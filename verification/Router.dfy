/** The router: one selection per attempt, remembering for each session the provider it was given. */
module Router {
  import opened Json
  import opened Providers
  import opened Routing

  const STICKY_TTL: real := 600.0

  datatype Sticky = Sticky(id: int, lastUsed: real)

  type Bindings = map<string, Sticky>

  /** What is asked for. `mayUse` is the token's list of providers. */
  datatype Demand = Demand(model: string, mayUse: int -> bool, exclude: seq<int>, session: string, format: string,
                           now: real)

  predicate IsCandidate(p: Provider, d: Demand, critical: real)
    reads p
  {
    && p.IsAvailable(d.model, d.now)
    && d.mayUse(p.info.id)
    && p.info.id !in d.exclude
    && !(p.info.quotaTotal > 0 && p.info.QuotaRatio() < critical)
    && (d.format != "" ==> p.info.HasFormat(d.format))
  }

  /** What a provider has to meet to be asked, condition by condition. */
  predicate MayServe(p: Provider, d: Demand, critical: real)
    reads p
  {
    && p.info.enabled && p.info.proxyEnabled && p.info.priority != 0 && p.status != Dead && p.status != Disabled
    && (d.model != "" ==> p.serves(d.model))
    && (p.cooldownUntil.Some? ==> p.cooldownUntil.value <= d.now)
    && (d.model != "" && d.model in p.modelCooldown ==> p.modelCooldown[d.model] <= d.now)
    && (p.status == AuthFailed && p.authFailUntil.Some? ==> p.authFailUntil.value <= d.now)
    && d.mayUse(p.info.id) && p.info.id !in d.exclude
    && (p.info.quotaTotal > 0 && p.info.quotaUsed < p.info.quotaTotal ==>
          (p.info.quotaTotal - p.info.quotaUsed) as real / p.info.quotaTotal as real >= critical)
    && (p.info.quotaTotal > 0 && p.info.quotaUsed >= p.info.quotaTotal ==> critical <= 0.0)
    && (d.format == "openai" ==> p.info.apiFormat == "openai")
    && (d.format == "anthropic" ==> p.info.apiFormat == "anthropic" || p.info.anthropicUrl != "")
    && d.format in {"", "openai", "anthropic"}
  }

  lemma CandidateMayServe(p: Provider, d: Demand, critical: real)
    ensures IsCandidate(p, d, critical) <==> MayServe(p, d, critical)
  {
  }

  function Candidates(providers: seq<Provider>, d: Demand, critical: real): seq<Provider>
    reads providers
  {
    if providers == [] then []
    else
      var p := providers[|providers| - 1];
      Candidates(providers[..|providers| - 1], d, critical) + if IsCandidate(p, d, critical) then [p] else []
  }

  predicate IsExpired(s: Sticky, now: real) {
    now - s.lastUsed > STICKY_TTL
  }

  predicate HasId(candidates: seq<Provider>, id: int) {
    exists i | 0 <= i < |candidates| :: candidates[i].info.id == id
  }

  /** The binding of a session holds: it has not run out and its provider is a candidate. */
  predicate IsBound(sticky: Bindings, session: string, candidates: seq<Provider>, now: real) {
    session != "" && session in sticky && !IsExpired(sticky[session], now) && HasId(candidates, sticky[session].id)
  }

  /** The bindings after looking one up: one that has run out is removed. */
  function Looked(sticky: Bindings, session: string, now: real): Bindings {
    if session != "" && session in sticky && IsExpired(sticky[session], now) then sticky - {session} else sticky
  }

  /** One selection. A binding that holds decides, and is not renewed; otherwise the strategy chooses from the highest
      group, and the choice is bound. */
  ghost predicate Selects(strategy: Strategy, sticky: Bindings, session: string, candidates: seq<Provider>, now: real,
                          rand: nat -> nat, chosen: Option<Provider>, sticky': Bindings)
  {
    if candidates == [] then chosen == None && sticky' == sticky
    else if IsBound(sticky, session, candidates, now) then
      chosen.Some? && chosen.value in candidates && chosen.value.info.id == sticky[session].id && sticky' == sticky
    else
      && chosen.Some? && Takes(strategy, TopGroup(candidates), rand, chosen.value)
      && sticky' == if session == "" then sticky else sticky[session := Sticky(chosen.value.info.id, now)]
  }

  function LastWithId(providers: seq<Provider>, id: int): Option<Provider> {
    if providers == [] then None
    else if providers[|providers| - 1].info.id == id then Some(providers[|providers| - 1])
    else LastWithId(providers[..|providers| - 1], id)
  }

  lemma {:induction false} LastIsOne(providers: seq<Provider>, id: int)
    ensures LastWithId(providers, id).Some? ==>
              LastWithId(providers, id).value in providers && LastWithId(providers, id).value.info.id == id
    ensures LastWithId(providers, id).None? ==> forall p | p in providers :: p.info.id != id
  {
    if providers != [] {
      LastIsOne(providers[..|providers| - 1], id);
    }
  }

  /** The record of refusals that `p` has after a reload that found `was` under its ID. */
  twostate predicate CarriesOver(p: Provider, was: Option<Provider>)
    reads p
  {
    if was.Some? then p.authFailCount == old(was.value.authFailCount) && p.authFailUntil == old(was.value.authFailUntil)
    else p.authFailCount == old(p.authFailCount) && p.authFailUntil == old(p.authFailUntil)
  }

  class Router {
    var providers: seq<Provider>
    var strategy: Strategy
    var sticky: Bindings
    const critical: real

    constructor (critical: real)
      ensures this.critical == critical && providers == [] && strategy == Smart && sticky == map[]
    {
      this.critical, providers, strategy, sticky := critical, [], Smart, map[];
    }

    /** A reload. Refusals carry over by ID; cool-downs are whatever the newly loaded providers bring, that is none. */
    method RefreshProviders(loaded: seq<Provider>)
      requires forall i, k | 0 <= i < k < |loaded| :: loaded[i] != loaded[k]
      requires forall p | p in loaded :: p !in providers
      modifies this`providers, loaded
      ensures providers == loaded
      ensures forall p | p in loaded && LastWithId(old(providers), p.info.id).Some? ::
                var was := LastWithId(old(providers), p.info.id).value;
                && was.info.id == p.info.id && was in old(providers)
                && p.authFailCount == old(was.authFailCount) && p.authFailUntil == old(was.authFailUntil)
      ensures forall p | p in loaded && LastWithId(old(providers), p.info.id).None? ::
                && (forall q | q in old(providers) :: q.info.id != p.info.id)
                && p.authFailCount == old(p.authFailCount) && p.authFailUntil == old(p.authFailUntil)
      ensures forall p | p in loaded ::
                p.modelCooldown == old(p.modelCooldown) && p.cooldownUntil == old(p.cooldownUntil)
      ensures forall p | p in loaded :: p.status == old(p.status)
    {
      var oldMap: map<int, Provider> := map[];
      for i := 0 to |providers|
        invariant providers == old(providers)
        invariant forall p | p in loaded :: unchanged(p)
        invariant forall id :: id in oldMap <==> LastWithId(providers[..i], id).Some?
        invariant forall id | id in oldMap :: LastWithId(providers[..i], id) == Some(oldMap[id])
      {
        assert providers[..i + 1][..i] == providers[..i];
        oldMap := oldMap[providers[i].info.id := providers[i]];
      }
      assert providers[..|providers|] == providers;
      for i := 0 to |loaded|
        invariant providers == old(providers)
        invariant forall k | 0 <= k < i :: CarriesOver(loaded[k], LastWithId(providers, loaded[k].info.id))
        invariant forall k | i <= k < |loaded| :: unchanged(loaded[k])
        invariant forall p | p in loaded ::
                    p.modelCooldown == old(p.modelCooldown) && p.cooldownUntil == old(p.cooldownUntil)
        invariant forall p | p in loaded :: p.status == old(p.status)
      {
        var p := loaded[i];
        if p.info.id in oldMap {
          var was := oldMap[p.info.id];
          LastIsOne(providers, p.info.id);
          p.authFailCount := was.authFailCount;
          p.authFailUntil := was.authFailUntil;
        }
      }
      forall p | p in loaded {
        LastIsOne(providers, p.info.id);
      }
      providers := loaded;
    }

    method GetStickyProvider(session: string, candidates: seq<Provider>, now: real) returns (p: Option<Provider>)
      modifies this`sticky
      ensures p.Some? <==> IsBound(old(sticky), session, candidates, now)
      ensures p.Some? ==> p.value in candidates && p.value.info.id == old(sticky)[session].id
      ensures sticky == Looked(old(sticky), session, now)
    {
      if session == "" {
        return None;
      }
      if session !in sticky || IsExpired(sticky[session], now) {
        if session in sticky {
          sticky := sticky - {session};
        }
        return None;
      }
      for i := 0 to |candidates|
        invariant sticky == old(sticky)
        invariant forall k | 0 <= k < i :: candidates[k].info.id != sticky[session].id
      {
        if candidates[i].info.id == sticky[session].id {
          return Some(candidates[i]);
        }
      }
      return None;
    }

    method SetStickyProvider(session: string, p: Provider, now: real)
      modifies this`sticky
      ensures sticky == if session == "" then old(sticky) else old(sticky)[session := Sticky(p.info.id, now)]
      ensures session != "" ==> forall candidates, later | HasId(candidates, p.info.id) ::
                IsBound(sticky, session, candidates, later) <==> later <= now + STICKY_TTL
    {
      if session == "" {
        return;
      }
      sticky := sticky[session := Sticky(p.info.id, now)];
    }

    /** Removes what has run out, in whatever order the map is walked. */
    method ClearExpiredSticky(now: real)
      modifies this`sticky
      ensures sticky == map k | k in old(sticky) && !IsExpired(old(sticky)[k], now) :: old(sticky)[k]
    {
      var todo := sticky.Keys;
      while todo != {}
        invariant todo <= sticky.Keys <= old(sticky).Keys
        invariant forall k | k in sticky :: sticky[k] == old(sticky)[k]
        invariant forall k | k in old(sticky) && k !in todo :: k in sticky <==> !IsExpired(old(sticky)[k], now)
        decreases |todo|
      {
        var k :| k in todo;
        todo := todo - {k};
        if IsExpired(sticky[k], now) {
          sticky := sticky - {k};
        }
      }
    }

    method FilterProviders(d: Demand) returns (candidates: seq<Provider>)
      ensures candidates == Candidates(providers, d, critical)
    {
      candidates := [];
      for i := 0 to |providers|
        invariant candidates == Candidates(providers[..i], d, critical)
      {
        assert providers[..i + 1][..i] == providers[..i];
        var p := providers[i];
        if !p.IsAvailable(d.model, d.now) {
          continue;
        }
        if !d.mayUse(p.info.id) {
          continue;
        }
        if p.info.id in d.exclude {
          continue;
        }
        if p.info.quotaTotal > 0 && p.info.QuotaRatio() < critical {
          continue;
        }
        if d.format != "" && !p.info.HasFormat(d.format) {
          continue;
        }
        candidates := candidates + [p];
      }
      assert providers[..|providers|] == providers;
    }

    static method SelectFromGroups(strategy: Strategy, candidates: seq<Provider>, rand: nat -> nat)
      returns (selected: Provider)
      requires candidates != [] && forall n | n > 0 :: rand(n) < n
      ensures Takes(strategy, TopGroup(candidates), rand, selected)
    {
      var primary, hot, cold := GroupByPriority(candidates);
      TopGroupIsHighest(candidates);
      if |primary| > 0 {
        selected := SelectBy(strategy, primary, rand);
      } else if |hot| > 0 {
        selected := SelectBy(strategy, hot, rand);
      } else {
        selected := SelectBy(strategy, cold, rand);
      }
    }

    method SelectProviderWithFormat(d: Demand, rand: nat -> nat) returns (chosen: Option<Provider>)
      requires forall n | n > 0 :: rand(n) < n
      modifies this`sticky
      ensures Selects(strategy, old(sticky), d.session, Candidates(providers, d, critical), d.now, rand, chosen, sticky)
      ensures chosen.Some? ==> chosen.value in providers && MayServe(chosen.value, d, critical)
      ensures chosen.None? ==> forall p | p in providers :: !MayServe(p, d, critical)
    {
      var candidates := FilterProviders(d);
      chosen := SelectAmong(candidates, d, rand);
      SelectionIsACandidate(strategy, old(sticky), d.session, candidates, d.now, rand, chosen, sticky);
      ServingExactly(providers, d, critical);
    }

    /** The steps after filtering. */
    method SelectAmong(candidates: seq<Provider>, d: Demand, rand: nat -> nat) returns (chosen: Option<Provider>)
      requires forall n | n > 0 :: rand(n) < n
      modifies this`sticky
      ensures Selects(strategy, old(sticky), d.session, candidates, d.now, rand, chosen, sticky)
    {
      if |candidates| == 0 {
        return None;
      }
      if d.session != "" {
        chosen := GetStickyProvider(d.session, candidates, d.now);
        if chosen.Some? {
          return;
        }
      }
      var selected := SelectFromGroups(strategy, candidates, rand);
      if d.session != "" {
        SetStickyProvider(d.session, selected, d.now);
      }
      return Some(selected);
    }
  }

  lemma {:induction false} CandidatesExactly(providers: seq<Provider>, d: Demand, critical: real)
    ensures forall k | 0 <= k < |Candidates(providers, d, critical)| ::
              && Candidates(providers, d, critical)[k] in providers
              && IsCandidate(Candidates(providers, d, critical)[k], d, critical)
    ensures forall i | 0 <= i < |providers| && IsCandidate(providers[i], d, critical) ::
              providers[i] in Candidates(providers, d, critical)
  {
    if providers != [] {
      CandidatesExactly(providers[..|providers| - 1], d, critical);
    }
  }

  lemma ServingExactly(providers: seq<Provider>, d: Demand, critical: real)
    ensures var cs := Candidates(providers, d, critical);
            && (forall p | p in cs :: p in providers && MayServe(p, d, critical))
            && (forall p | p in providers && MayServe(p, d, critical) :: p in cs)
  {
    CandidatesExactly(providers, d, critical);
    forall p: Provider | p in providers ensures IsCandidate(p, d, critical) <==> MayServe(p, d, critical) {
      CandidateMayServe(p, d, critical);
    }
    forall p | p in Candidates(providers, d, critical) ensures p in providers && MayServe(p, d, critical) {
      var k :| 0 <= k < |Candidates(providers, d, critical)| && Candidates(providers, d, critical)[k] == p;
    }
  }

  /** Whatever the strategy, the draw and the bindings: the choice is a candidate, and there is one if any can serve. */
  lemma SelectionIsACandidate(strategy: Strategy, sticky: Bindings, session: string, candidates: seq<Provider>,
                              now: real, rand: nat -> nat, chosen: Option<Provider>, sticky': Bindings)
    requires Selects(strategy, sticky, session, candidates, now, rand, chosen, sticky')
    ensures chosen.None? <==> candidates == []
    ensures chosen.Some? ==> chosen.value in candidates
  {
    if candidates != [] && !IsBound(sticky, session, candidates, now) {
      TakenIsACandidate(strategy, candidates, rand, chosen.value);
    }
  }

  lemma TakenIsACandidate(strategy: Strategy, candidates: seq<Provider>, rand: nat -> nat, p: Provider)
    requires candidates != [] && Takes(strategy, TopGroup(candidates), rand, p)
    ensures p in candidates
  {
    var group := TopGroup(candidates);
    TopGroupIsHighest(candidates);
    TakesFromGroup(strategy, group, rand, p);
    var k :| 0 <= k < |group| && group[k] == p;
    assert group[k] in candidates && 0 <= 0 < |candidates|;
  }

  // ---------- Stickiness over runs ----------

  datatype Event =
    | Selection(strategy: Strategy, session: string, candidates: seq<Provider>, rand: nat -> nat,
                chosen: Option<Provider>, now: real)
    | Sweep(now: real)

  ghost predicate Step(sticky: Bindings, e: Event, sticky': Bindings) {
    match e
    case Selection(strategy, session, candidates, rand, chosen, now) =>
      Selects(strategy, sticky, session, candidates, now, rand, chosen, sticky')
    case Sweep(now) => sticky' == map k | k in sticky && !IsExpired(sticky[k], now) :: sticky[k]
  }

  ghost predicate IsRun(states: seq<Bindings>, events: seq<Event>) {
    |states| == |events| + 1 && forall i | 0 <= i < |events| :: Step(states[i], events[i], states[i + 1])
  }

  /** A selection for the session, with its provider among the candidates. */
  predicate Keeps(e: Event, session: string, id: int) {
    e.Selection? && e.session == session ==> HasId(e.candidates, id)
  }

  predicate Obeys(e: Event, session: string, id: int) {
    e.Selection? && e.session == session ==> e.chosen.Some? && e.chosen.value.info.id == id
  }

  /** Over any run within the time-to-live: every selection returns the bound provider, under whatever strategies and
      draws, if and only if that provider was a candidate each time. The binding itself does not move. */
  lemma {:induction false} StickyOverRuns(states: seq<Bindings>, events: seq<Event>, session: string)
    requires IsRun(states, events)
    requires session != "" && session in states[0]
    requires forall e | e in events :: !IsExpired(states[0][session], e.now)
    ensures (forall e | e in events :: Keeps(e, session, states[0][session].id))
            <==> forall e | e in events :: Obeys(e, session, states[0][session].id)
    ensures (forall e | e in events :: Keeps(e, session, states[0][session].id))
            ==> forall s | s in states :: session in s && s[session] == states[0][session]
    decreases |events|
  {
    if events != [] {
      var e, id := events[0], states[0][session].id;
      assert e in events && forall x | x in events :: x == e || x in events[1..];
      assert forall x | x in events[1..] :: x in events;
      StepObeys(states[0], e, states[1], session);
      if Keeps(e, session, id) {
        StickyOverRuns(states[1..], events[1..], session);
        assert forall s | s in states :: s == states[0] || s in states[1..];
      }
    }
  }

  lemma StepObeys(sticky: Bindings, e: Event, sticky': Bindings, session: string)
    requires Step(sticky, e, sticky') && session != "" && session in sticky && !IsExpired(sticky[session], e.now)
    ensures Keeps(e, session, sticky[session].id) <==> Obeys(e, session, sticky[session].id)
    ensures Keeps(e, session, sticky[session].id) ==> session in sticky' && sticky'[session] == sticky[session]
  {
    if e.Selection? && e.session == session {
      SelectionIsACandidate(e.strategy, sticky, session, e.candidates, e.now, e.rand, e.chosen, sticky');
    }
  }
}
