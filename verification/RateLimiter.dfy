/** The per-token request limiter: a counter and the start of its one-minute window. */
module RateLimiter {

  /** One minute in nanoseconds. */
  const MINUTE := 60_000_000_000

  datatype Counter = Counter(count: nat, windowStart: int)

  type Counters = map<int, Counter>

  predicate Fresh(cs: Counters, token: int, now: int) {
    token !in cs || now - cs[token].windowStart >= MINUTE
  }

  function After(cs: Counters, token: int, rpm: int, now: int): Counters {
    if rpm <= 0 then cs
    else if Fresh(cs, token, now) then cs[token := Counter(1, now)]
    else cs[token := cs[token].(count := cs[token].count + 1)]
  }

  predicate Allows(cs: Counters, token: int, rpm: int, now: int) {
    rpm <= 0 || Fresh(cs, token, now) || cs[token].count + 1 <= rpm
  }

  /** A token has no window yet, or a minute has passed since its window began. */
  predicate OpensWindow(cs: Counters, token: int, now: int) {
    token in cs ==> now >= cs[token].windowStart + 60 * 1_000_000_000
  }

  class Limiter {
    var counters: Counters

    constructor ()
      ensures counters == map[]
    {
      counters := map[];
    }

    method CheckRateLimit(tokenID: int, rpm: int, now: int) returns (allowed: bool)
      modifies this
      ensures allowed == Allows(old(counters), tokenID, rpm, now)
      ensures counters == After(old(counters), tokenID, rpm, now)
      ensures rpm <= 0 ==> allowed && counters == old(counters)
      ensures rpm > 0 && OpensWindow(old(counters), tokenID, now) ==>
                allowed && counters == old(counters)[tokenID := Counter(1, now)]
      ensures rpm > 0 && !OpensWindow(old(counters), tokenID, now) ==>
                var was := old(counters)[tokenID];
                && (allowed <==> was.count < rpm)
                && counters == old(counters)[tokenID := Counter(was.count + 1, was.windowStart)]
    {
      if rpm <= 0 {
        return true;
      }
      if tokenID !in counters || now - counters[tokenID].windowStart >= MINUTE {
        counters := counters[tokenID := Counter(1, now)];
        return true;
      }
      var c := counters[tokenID];
      c := c.(count := c.count + 1);
      counters := counters[tokenID := c];
      return c.count <= rpm;
    }
  }

  // ---------- Whole traces ----------

  datatype Request = Request(token: int, time: int)

  /** The clock never goes back. */
  predicate Ordered(trace: seq<Request>) {
    forall i, j | 0 <= i < j < |trace| :: trace[i].time <= trace[j].time
  }

  /** Requests of `token` in the half-open interval from `lo` to `hi` that are let through. */
  function AdmittedBetween(cs: Counters, rpm: int -> int, trace: seq<Request>, token: int, lo: int, hi: int): nat
    decreases |trace|
  {
    if trace == [] then 0
    else
      var r := trace[0];
      (if r.token == token && lo <= r.time < hi && Allows(cs, r.token, rpm(r.token), r.time) then 1 else 0)
      + AdmittedBetween(After(cs, r.token, rpm(r.token), r.time), rpm, trace[1..], token, lo, hi)
  }

  /** How many requests the counter can still let through in the interval once its start is past. */
  function Room(cs: Counters, token: int, limit: nat, lo: int): nat {
    if token !in cs then limit
    else
      var c := cs[token];
      var left := if c.count < limit then limit - c.count else 0;
      if c.windowStart < lo then left + limit else if c.windowStart < lo + MINUTE then left else 0
  }

  lemma {:induction false} InsideInterval(cs: Counters, rpm: int -> int, trace: seq<Request>, token: int, lo: int)
    requires Ordered(trace) && rpm(token) >= 1 && (trace == [] || lo <= trace[0].time)
    requires token in cs && trace != [] ==> cs[token].windowStart <= trace[0].time
    ensures AdmittedBetween(cs, rpm, trace, token, lo, lo + MINUTE) <= Room(cs, token, rpm(token), lo)
    decreases |trace|
  {
    if trace != [] {
      var r := trace[0];
      InsideInterval(After(cs, r.token, rpm(r.token), r.time), rpm, trace[1..], token, lo);
    }
  }

  /** Any interval of one minute, wherever it starts, sees less than twice the limit: of two windows that meet it, the
      request that opened the first lies before it. Every counter in a table has counted the request that opened it. */
  lemma {:induction false} MinuteAdmitsLessThanTwice(cs: Counters, rpm: int -> int, trace: seq<Request>, token: int,
                                                     lo: int)
    requires Ordered(trace) && rpm(token) >= 1
    requires token in cs ==> cs[token].count >= 1 && (trace != [] ==> cs[token].windowStart <= trace[0].time)
    ensures AdmittedBetween(cs, rpm, trace, token, lo, lo + MINUTE) <= 2 * rpm(token) - 1
    decreases |trace|
  {
    if trace != [] {
      var r := trace[0];
      if r.time < lo {
        MinuteAdmitsLessThanTwice(After(cs, r.token, rpm(r.token), r.time), rpm, trace[1..], token, lo);
      } else if r.token == token && token !in cs {
        InsideInterval(After(cs, token, rpm(token), r.time), rpm, trace[1..], token, lo);
      } else if token in cs {
        InsideInterval(cs, rpm, trace, token, lo);
      } else {
        MinuteAdmitsLessThanTwice(After(cs, r.token, rpm(r.token), r.time), rpm, trace[1..], token, lo);
      }
    }
  }

  function Burst(token: int, time: int, n: nat): seq<Request> {
    if n == 0 then [] else [Request(token, time)] + Burst(token, time, n - 1)
  }

  lemma {:induction false} BurstTimes(token: int, time: int, n: nat)
    ensures |Burst(token, time, n)| == n && forall i | 0 <= i < n :: Burst(token, time, n)[i] == Request(token, time)
  {
    if n > 0 {
      BurstTimes(token, time, n - 1);
    }
  }

  /** Requests within the limit of a running window are all let through. */
  lemma {:induction false} BurstAdmits(cs: Counters, rpm: int -> int, token: int, time: int, n: nat, more: seq<Request>,
                                       lo: int, hi: int)
    requires token in cs && time - cs[token].windowStart < MINUTE && cs[token].count + n <= rpm(token)
    requires lo <= time < hi
    ensures AdmittedBetween(cs, rpm, Burst(token, time, n) + more, token, lo, hi)
         == n + AdmittedBetween(cs[token := cs[token].(count := cs[token].count + n)], rpm, more, token, lo, hi)
  {
    if n == 0 {
      assert [] + more == more && cs[token := cs[token]] == cs;
    } else {
      var all, rest := Burst(token, time, n) + more, Burst(token, time, n - 1) + more;
      assert all[0] == Request(token, time) && all[1..] == rest;
      var next := After(cs, token, rpm(token), time);
      AdmitsFirst(cs, rpm, token, all, lo, hi);
      BurstAdmits(next, rpm, token, time, n - 1, more, lo, hi);
      OneMoreCounted(cs, next, token, n);
    }
  }

  lemma AdmitsFirst(cs: Counters, rpm: int -> int, token: int, all: seq<Request>, lo: int, hi: int)
    requires all != [] && all[0].token == token && lo <= all[0].time < hi
    requires Allows(cs, token, rpm(token), all[0].time)
    ensures AdmittedBetween(cs, rpm, all, token, lo, hi)
         == 1 + AdmittedBetween(After(cs, token, rpm(token), all[0].time), rpm, all[1..], token, lo, hi)
  {
  }

  lemma OneMoreCounted(cs: Counters, next: Counters, token: int, n: nat)
    requires n >= 1 && token in cs && next == cs[token := cs[token].(count := cs[token].count + 1)]
    ensures next[token := next[token].(count := next[token].count + (n - 1))]
         == cs[token := cs[token].(count := cs[token].count + n)]
  {
  }

  /** One request just before the minute, the rest of its window in it, and a whole window at its end. */
  function Crowd(token: int, limit: nat, lo: int): seq<Request>
    requires limit >= 1
  {
    [Request(token, lo - 1)] + (Burst(token, lo, limit - 1) + (Burst(token, lo - 1 + MINUTE, limit) + []))
  }

  /** The bound is reached. */
  lemma MinuteCanAdmitAllBut(rpm: int -> int, token: int, lo: int)
    requires rpm(token) >= 1
    ensures var trace := Crowd(token, rpm(token), lo);
            Ordered(trace) && AdmittedBetween(map[], rpm, trace, token, lo, lo + MINUTE) == 2 * rpm(token) - 1
  {
    var n, hi, late := rpm(token), lo + MINUTE, lo - 1 + MINUTE;
    var tail := Burst(token, late, n) + [];
    var trace := Crowd(token, n, lo);
    CrowdIsOrdered(token, n, lo);
    var cs := map[token := Counter(1, lo - 1)];
    assert trace[1..] == Burst(token, lo, n - 1) + tail;
    assert AdmittedBetween(map[], rpm, trace, token, lo, hi) == AdmittedBetween(cs, rpm, trace[1..], token, lo, hi);
    BurstAdmits(cs, rpm, token, lo, n - 1, tail, lo, hi);
    var full := cs[token := cs[token].(count := n)];
    assert full == map[token := Counter(n, lo - 1)];
    var reopened := map[token := Counter(1, late)];
    assert Burst(token, late, n) == [Request(token, late)] + Burst(token, late, n - 1);
    assert tail[0] == Request(token, late) && tail[1..] == Burst(token, late, n - 1) + [];
    assert After(full, token, n, late) == reopened;
    BurstAdmits(reopened, rpm, token, late, n - 1, [], lo, hi);
  }

  lemma CrowdIsOrdered(token: int, limit: nat, lo: int)
    requires limit >= 1
    ensures Ordered(Crowd(token, limit, lo))
  {
    BurstTimes(token, lo, limit - 1);
    BurstTimes(token, lo - 1 + MINUTE, limit);
    var trace := Crowd(token, limit, lo);
    forall i | 0 <= i < |trace|
      ensures trace[i].time == if i == 0 then lo - 1 else if i < limit then lo else lo - 1 + MINUTE
    {
      if 0 < i < limit {
        assert trace[i] == Burst(token, lo, limit - 1)[i - 1];
      } else if i >= limit {
        assert trace[i] == Burst(token, lo - 1 + MINUTE, limit)[i - limit];
      }
    }
  }

  // ---------- Windows ----------

  /** Requests of `token` counted in the window that starts at `w`. */
  function Arrived(cs: Counters, rpm: int -> int, trace: seq<Request>, token: int, w: int): nat
    decreases |trace|
  {
    if trace == [] then 0
    else
      var r := trace[0];
      var cs' := After(cs, r.token, rpm(r.token), r.time);
      (if r.token == token && token in cs' && cs'[token].windowStart == w then 1 else 0)
      + Arrived(cs', rpm, trace[1..], token, w)
  }

  /** Those of them that are let through. */
  function Admitted(cs: Counters, rpm: int -> int, trace: seq<Request>, token: int, w: int): nat
    decreases |trace|
  {
    if trace == [] then 0
    else
      var r := trace[0];
      var cs' := After(cs, r.token, rpm(r.token), r.time);
      (if r.token == token && token in cs' && cs'[token].windowStart == w && Allows(cs, token, rpm(token), r.time)
       then 1 else 0)
      + Admitted(cs', rpm, trace[1..], token, w)
  }

  function Min(a: int, b: int): int {
    if a < b then a else b
  }

  /** A window that is over does not come back. */
  lemma {:induction false} WindowIsOver(cs: Counters, rpm: int -> int, trace: seq<Request>, token: int, w: int)
    requires Ordered(trace) && token in cs && w < cs[token].windowStart
    requires trace != [] ==> cs[token].windowStart <= trace[0].time
    ensures Arrived(cs, rpm, trace, token, w) == 0 && Admitted(cs, rpm, trace, token, w) == 0
    decreases |trace|
  {
    if trace != [] {
      var r := trace[0];
      WindowIsOver(After(cs, r.token, rpm(r.token), r.time), rpm, trace[1..], token, w);
    }
  }

  function Counted(cs: Counters, token: int, w: int): nat {
    if token in cs && cs[token].windowStart == w then cs[token].count else 0
  }

  lemma {:induction false} WindowStep(cs: Counters, rpm: int -> int, trace: seq<Request>, token: int, w: int)
    requires Ordered(trace) && rpm(token) >= 1
    requires token in cs && trace != [] ==> cs[token].windowStart <= trace[0].time
    ensures Admitted(cs, rpm, trace, token, w)
         == Min(rpm(token), Counted(cs, token, w) + Arrived(cs, rpm, trace, token, w))
            - Min(rpm(token), Counted(cs, token, w))
    decreases |trace|
  {
    if trace != [] {
      var r := trace[0];
      var cs' := After(cs, r.token, rpm(r.token), r.time);
      WindowStep(cs', rpm, trace[1..], token, w);
      if r.token == token && token in cs && cs[token].windowStart == w && cs'[token].windowStart != w {
        WindowIsOver(cs', rpm, trace[1..], token, w);
      }
    }
  }

  /** From an empty table, every window lets through all its requests up to the limit, and none beyond. */
  lemma WindowAdmitsExactly(rpm: int -> int, trace: seq<Request>, token: int, w: int)
    requires Ordered(trace) && rpm(token) >= 1
    ensures Admitted(map[], rpm, trace, token, w) == Min(rpm(token), Arrived(map[], rpm, trace, token, w))
  {
    WindowStep(map[], rpm, trace, token, w);
  }

  // ---------- Tokens do not disturb each other ----------

  function Of(trace: seq<Request>, token: int): seq<Request> {
    if trace == [] then [] else (if trace[0].token == token then [trace[0]] else []) + Of(trace[1..], token)
  }

  /** What a token is granted depends on its own requests alone. */
  lemma {:induction false} TokensAreIndependent(cs: Counters, cs': Counters, rpm: int -> int, trace: seq<Request>,
                                                token: int, lo: int, hi: int)
    requires (token in cs) == (token in cs') && (token in cs ==> cs[token] == cs'[token])
    ensures AdmittedBetween(cs, rpm, trace, token, lo, hi) == AdmittedBetween(cs', rpm, Of(trace, token), token, lo, hi)
    decreases |trace|
  {
    if trace != [] {
      var r, rest := trace[0], trace[1..];
      var next := After(cs, r.token, rpm(r.token), r.time);
      if r.token == token {
        var own := Of(trace, token);
        assert own[0] == r && own[1..] == Of(rest, token);
        TokensAreIndependent(next, After(cs', token, rpm(token), r.time), rpm, rest, token, lo, hi);
      } else {
        assert Of(trace, token) == Of(rest, token);
        TokensAreIndependent(next, cs', rpm, rest, token, lo, hi);
      }
    }
  }
}
