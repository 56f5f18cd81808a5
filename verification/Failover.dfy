/** Serving a request: choose a provider, clean the request for it, send, and on failure retry or go on to the next. */
module Failover {
  import opened Json
  import opened Providers
  import opened Routing
  import opened Router
  import Sanitizer

  type Body = Option<Value>

  datatype ErrorKind = NoError | QuotaExhausted | RateLimited | Timeout | Truncation | OtherError

  /** The outcome of one upstream call: `hasError` when an error text was recorded, `kind` and `waitSec` from the
      analysis of a reply, `hasBody` when there is a response body to close. */
  datatype Reply = Reply(status: int, hasError: bool, kind: ErrorKind, waitSec: int, truncated: bool, hasBody: bool)

  // ---------- Forwarding ----------

  /** What happens on the wire: no request could be built or sent, or a response came. `analysed` says that its body
      could be read and was not empty; `kind` and `waitSec` are what the analysis of the body finds. */
  datatype Upstream =
    | NotSent
    | Responded(status: int, analysed: bool, kind: ErrorKind, waitSec: int)
  {
    /** The analysis knows no truncation. */
    predicate Plausible() {
      Responded? ==> kind != Truncation
    }
  }

  /** The protocol of the upstream: for Anthropic, replies are passed through or translated, and reading a whole one for
      translation may fail. */
  datatype Path = OpenAI(stream: bool) | Passthrough | Translated(stream: bool, readFails: bool)

  function ForwardSmart(path: Path, u: Upstream): Reply {
    match u
    case NotSent => Reply(502, true, NoError, 0, false, false)
    case Responded(status, analysed, kind, waitSec) =>
      if status >= 400 && analysed then Reply(status, true, kind, waitSec, false, true)
      else if status < 400 && status == 200 && path == OpenAI(false) && analysed && kind != NoError then
        Reply(status, true, kind, waitSec, false, true)
      else if status < 400 && path == Translated(false, true) then Reply(502, true, NoError, 0, false, true)
      else Reply(status, false, NoError, 0, false, true)
  }

  /** The replies the failover loop can see. */
  predicate Forwarded(r: Reply) {
    && !r.truncated && r.kind != Truncation
    && (r.kind != NoError ==> r.hasError)
    && (!r.hasError ==> r.waitSec == 0)
    && (!r.hasBody ==> r == Reply(502, true, NoError, 0, false, false))
    && (r.hasBody && r.status < 400 && r.hasError ==> r.status == 200 && r.kind != NoError)
  }

  /** Forwarding produces exactly these; none of them is taken for truncated. */
  lemma ForwardedExactly(r: Reply)
    ensures Forwarded(r) <==> exists path, u: Upstream | u.Plausible() :: r == ForwardSmart(path, u)
    ensures Forwarded(r) ==> Judge(r) != Truncated
  {
    if Forwarded(r) {
      if !r.hasBody {
        assert r == ForwardSmart(Passthrough, NotSent);
      } else {
        assert Responded(r.status, r.hasError, r.kind, r.waitSec).Plausible();
        assert r == ForwardSmart(OpenAI(false), Responded(r.status, r.hasError, r.kind, r.waitSec));
      }
    }
  }

  // ---------- Decisions ----------

  datatype Verdict = Fine | Truncated | Failed

  /** A reply is fine, or truncated and otherwise fine, or a failure. */
  function Judge(r: Reply): Verdict {
    if r.hasError then Failed
    else if r.status >= 500 then Failed
    else if r.status == 429 then Failed
    else if r.status >= 400 then Failed
    else if r.kind != NoError then Failed
    else if r.truncated then Truncated
    else Fine
  }

  predicate RetrySameProvider(r: Reply) {
    match r.kind
    case RateLimited => r.waitSec <= 60
    case Timeout => true
    case Truncation => true
    case _ => false
  }

  predicate IsRefusal(r: Reply) {
    r.status == 401 || r.status == 403
  }

  predicate IsLongLimit(r: Reply) {
    r.kind == ErrorKind.RateLimited && r.waitSec > 60
  }

  /** A refusal that starts or prolongs the back-off. */
  predicate BacksOff(r: Reply) {
    Judge(r) == Failed && r.kind != QuotaExhausted && IsRefusal(r)
  }

  /** The provider is put aside and not tried again in this attempt. */
  predicate SetsAside(r: Reply) {
    r.kind == QuotaExhausted || IsRefusal(r) || IsLongLimit(r)
  }

  datatype Limits = Limits(maxFailover: int, maxRetryCount: int, backoff: Backoff)

  /** One upstream call; `closed` says that its response body was closed. */
  datatype Call = Call(body: Body, reply: Reply, closed: bool)

  datatype Attempt = Attempt(info: Info, calls: seq<Call>, served: bool)

  datatype Answer =
    | Relayed(reply: Reply)
    | NoProvider
    | Rejected(reason: Sanitizer.Reason)
    | AllFailed(status: int)

  /** The request after the model was resolved: where it goes, and how truncation retries enlarge it. */
  datatype Job = Job(
    endpoint: string, body: Body, model: string, session: string, mayUse: int -> bool, preferFormat: string,
    soundsLikeSystem: string -> bool, enlarge: Body -> Body)

  function ConfigFor(job: Job, info: Info): Sanitizer.Config {
    Sanitizer.Config(job.endpoint, Some(info.supportsTools), job.soundsLikeSystem)
  }

  function CleanBody(job: Job, info: Info): Body {
    Sanitizer.Sanitized(ConfigFor(job, info), job.body).body
  }

  /** Whether the request is acceptable does not depend on the provider. */
  function ReasonOf(job: Job): Sanitizer.Reason {
    Sanitizer.Sanitized(Sanitizer.Config(job.endpoint, None, job.soundsLikeSystem), job.body).reason
  }

  function DemandOf(job: Job, exclude: seq<int>, format: string, now: real): Demand {
    Demand(job.model, job.mayUse, exclude, job.session, format, now)
  }

  /** At this time the provider is alive, and neither cooling down, for all models or for this one, nor backing off. */
  predicate IsReady(p: Provider, model: string, now: real)
    reads p
  {
    && p.status != Dead && p.status != Disabled
    && (p.cooldownUntil.Some? ==> p.cooldownUntil.value <= now)
    && (model != "" && model in p.modelCooldown ==> p.modelCooldown[model] <= now)
    && (p.status == AuthFailed && p.authFailUntil.Some? ==> p.authFailUntil.value <= now)
  }

  /** What does not depend on the time: the provider is on, serves the model, is allowed to the token, and has quota
      left. */
  predicate Permitted(p: Provider, job: Job, critical: real) {
    var info := p.info;
    && info.enabled && info.proxyEnabled && info.priority != 0 && job.mayUse(info.id)
    && (job.model != "" ==> p.serves(job.model))
    && (info.quotaTotal > 0 && info.quotaUsed < info.quotaTotal ==>
          (info.quotaTotal - info.quotaUsed) as real / info.quotaTotal as real >= critical)
    && (info.quotaTotal > 0 && info.quotaUsed >= info.quotaTotal ==> critical <= 0.0)
  }

  /** A permitted provider among those there are. */
  ghost predicate IsPermitted(info: Info, providers: seq<Provider>, job: Job, critical: real) {
    exists p | p in providers :: p.info == info && Permitted(p, job, critical)
  }

  /** Every attempt is at a permitted provider, but for a first one at the provider that was suggested. */
  ghost predicate AllPermitted(attempts: seq<Attempt>, providers: seq<Provider>, job: Job, critical: real,
                               suggested: Option<Info>)
  {
    attempts == [] || (
      var a := attempts[|attempts| - 1];
      AllPermitted(attempts[..|attempts| - 1], providers, job, critical, suggested)
      && (IsPermitted(a.info, providers, job, critical) || (|attempts| == 1 && Some(a.info) == suggested)))
  }

  lemma {:induction false} EachPermitted(attempts: seq<Attempt>, providers: seq<Provider>, job: Job, critical: real,
                                         suggested: Option<Info>)
    requires AllPermitted(attempts, providers, job, critical, suggested)
    ensures forall i | 0 <= i < |attempts| ::
              IsPermitted(attempts[i].info, providers, job, critical) || (i == 0 && Some(attempts[0].info) == suggested)
  {
    if attempts != [] {
      var front := attempts[..|attempts| - 1];
      EachPermitted(front, providers, job, critical, suggested);
      assert forall i | 0 <= i < |front| :: front[i] == attempts[i];
    }
  }

  lemma OneMorePermitted(attempts: seq<Attempt>, a: Attempt, providers: seq<Provider>, job: Job, critical: real,
                         suggested: Option<Info>)
    requires IsPermitted(a.info, providers, job, critical) || (attempts == [] && Some(a.info) == suggested)
    ensures AllPermitted(attempts, providers, job, critical, suggested) ==>
              AllPermitted(attempts + [a], providers, job, critical, suggested)
  {
    assert (attempts + [a])[..|attempts|] == attempts;
  }

  function InfoOf(p: Option<Provider>): Option<Info> {
    if p.Some? then Some(p.value.info) else None
  }

  function Ids(attempts: seq<Attempt>): seq<int> {
    seq(|attempts|, i requires 0 <= i < |attempts| => attempts[i].info.id)
  }

  /** How often a provider may be tried again after a failure that can pass. */
  function Retries(info: Info, limits: Limits): nat {
    if info.maxRetries <= 0 || limits.maxRetryCount <= 0 then 0
    else if info.maxRetries < limits.maxRetryCount then info.maxRetries
    else limits.maxRetryCount
  }

  // ---------- What an attempt may look like ----------

  /** The calls of one attempt and whether the last of them was handed to the client. */
  ghost predicate IsLegal(a: Attempt, job: Job, limits: Limits) {
    && a.calls != []
    && a.calls[0].body == CleanBody(job, a.info)
    && match Judge(a.calls[0].reply)
       case Fine => |a.calls| == 1 && a.served
       case Truncated =>
         && |a.calls| == 2 && a.calls[1].body == job.enlarge(job.body)
         && (a.served <==> !a.calls[1].reply.truncated && !a.calls[1].reply.hasError)
       case Failed =>
         && (forall k | 0 <= k < |a.calls| - 1 :: Judge(a.calls[k].reply) != Fine)
         && (forall k | 0 <= k < |a.calls| :: a.calls[k].body == CleanBody(job, a.info))
         && (a.served <==> Judge(a.calls[|a.calls| - 1].reply) == Fine)
         && (if SetsAside(a.calls[0].reply) || !RetrySameProvider(a.calls[0].reply) then |a.calls| == 1
             else |a.calls| <= 1 + Retries(a.info, limits) && (!a.served ==> |a.calls| == 1 + Retries(a.info, limits)))
  }

  /** Every response body is closed, except the one handed to the client. */
  ghost predicate ClosesBodies(a: Attempt) {
    forall k | 0 <= k < |a.calls| ::
      a.calls[k].closed <==> a.calls[k].reply.hasBody && !(a.served && k == |a.calls| - 1)
  }

  ghost predicate AllLegal(attempts: seq<Attempt>, job: Job, limits: Limits) {
    attempts == [] || (
      var a := attempts[|attempts| - 1];
      AllLegal(attempts[..|attempts| - 1], job, limits) && IsLegal(a, job, limits) && ClosesBodies(a))
  }

  predicate Distinct(ids: seq<int>) {
    forall i, k | 0 <= i < k < |ids| :: ids[i] != ids[k]
  }

  /** A whole run: the attempts in order, and the answers written to the client. */
  ghost predicate IsOutcome(attempts: seq<Attempt>, answers: seq<Answer>, job: Job, limits: Limits) {
    && |attempts| <= limits.maxFailover + 1
    && (attempts != [] ==> ReasonOf(job) == Sanitizer.Accepted)
    && AllLegal(attempts, job, limits) && Distinct(Ids(attempts))
    && (forall i | 0 <= i < |attempts| - 1 :: !attempts[i].served)
    && |answers| == 1
    && match answers[0]
       case Relayed(r) =>
         && attempts != [] && attempts[|attempts| - 1].served
         && var calls := attempts[|attempts| - 1].calls; r == calls[|calls| - 1].reply
       case NoProvider => |attempts| <= limits.maxFailover && (attempts != [] ==> !attempts[|attempts| - 1].served)
       case Rejected(reason) => attempts == [] && reason == ReasonOf(job) != Sanitizer.Accepted
       case AllFailed(status) =>
         && attempts != [] && |attempts| == limits.maxFailover + 1 && !attempts[|attempts| - 1].served
         && status == attempts[|attempts| - 1].calls[0].reply.status
  }

  /** The first attempt is at this provider. */
  ghost predicate StartsAt(attempts: seq<Attempt>, id: Option<int>) {
    id.Some? ==> attempts != [] && attempts[0].info.id == id.value
  }

  lemma AfterTurn(attempts0: seq<Attempt>, attempts: seq<Attempt>, info: Info, providers: seq<Provider>, job: Job,
                  critical: real, suggested: Option<Info>, kept: Option<int>)
    requires attempts == attempts0
             || (attempts != [] && attempts == attempts0 + [attempts[|attempts| - 1]]
                 && attempts[|attempts| - 1].info == info)
    requires IsPermitted(info, providers, job, critical) || (attempts0 == [] && Some(info) == suggested)
    ensures attempts0 <= attempts
    ensures AllPermitted(attempts0, providers, job, critical, suggested) ==>
              AllPermitted(attempts, providers, job, critical, suggested)
    ensures attempts0 == [] && (kept.Some? ==> attempts != attempts0 && info.id == kept.value) ==>
              StartsAt(attempts, kept)
  {
    if attempts != attempts0 {
      OneMorePermitted(attempts0, attempts[|attempts| - 1], providers, job, critical, suggested);
    }
  }

  /** Every attempt so far gave up, each at another provider. */
  ghost predicate GaveUp(attempts: seq<Attempt>, job: Job, limits: Limits) {
    && (attempts != [] ==> ReasonOf(job) == Sanitizer.Accepted)
    && AllLegal(attempts, job, limits) && Distinct(Ids(attempts))
    && (forall i | 0 <= i < |attempts| :: !attempts[i].served)
  }

  lemma OneMore(attempts: seq<Attempt>, a: Attempt, job: Job, limits: Limits)
    requires GaveUp(attempts, job, limits) && a.info.id !in Ids(attempts)
    requires ReasonOf(job) == Sanitizer.Accepted && IsLegal(a, job, limits) && ClosesBodies(a)
    ensures !a.served ==> GaveUp(attempts + [a], job, limits)
    ensures a.served && |attempts| <= limits.maxFailover ==>
              IsOutcome(attempts + [a], [Relayed(a.calls[|a.calls| - 1].reply)], job, limits)
    ensures Ids(attempts + [a]) == Ids(attempts) + [a.info.id]
  {
    assert (attempts + [a])[..|attempts|] == attempts;
    OneMoreId(attempts, a);
  }

  lemma OneMoreId(attempts: seq<Attempt>, a: Attempt)
    requires Distinct(Ids(attempts)) && a.info.id !in Ids(attempts)
    ensures Ids(attempts + [a]) == Ids(attempts) + [a.info.id] && Distinct(Ids(attempts + [a]))
  {
    assert Ids(attempts + [a]) == Ids(attempts) + [a.info.id];
  }

  /** The first reply of the last attempt. */
  function LastReply(attempts: seq<Attempt>): Option<Reply> {
    if attempts == [] || attempts[|attempts| - 1].calls == [] then None
    else Some(attempts[|attempts| - 1].calls[0].reply)
  }

  /** How a run of attempts that all gave up may end. */
  lemma Unserved(attempts: seq<Attempt>, job: Job, limits: Limits)
    requires GaveUp(attempts, job, limits)
    ensures attempts != [] ==> LastReply(attempts).Some?
    ensures attempts != [] && |attempts| == limits.maxFailover + 1 ==>
              IsOutcome(attempts, [AllFailed(LastReply(attempts).value.status)], job, limits)
    ensures ReasonOf(job) != Sanitizer.Accepted && limits.maxFailover >= 0 ==>
              attempts == [] && IsOutcome(attempts, [Rejected(ReasonOf(job))], job, limits)
  {
  }

  lemma EndsWithoutProvider(attempts: seq<Attempt>, job: Job, limits: Limits)
    requires GaveUp(attempts, job, limits) && |attempts| <= limits.maxFailover
    ensures IsOutcome(attempts, [NoProvider], job, limits)
  {
  }

  lemma ReasonIsTheSame(job: Job, info: Info)
    ensures Sanitizer.Sanitized(ConfigFor(job, info), job.body).reason == ReasonOf(job)
  {
  }

  ghost predicate FromForward(a: Attempt) {
    forall k | 0 <= k < |a.calls| :: Forwarded(a.calls[k].reply)
  }

  ghost predicate AllForwarded(attempts: seq<Attempt>) {
    attempts == [] || (AllForwarded(attempts[..|attempts| - 1]) && FromForward(attempts[|attempts| - 1]))
  }

  lemma OneMoreForwarded(attempts: seq<Attempt>, a: Attempt)
    requires FromForward(a)
    ensures AllForwarded(attempts) ==> AllForwarded(attempts + [a])
  {
    assert (attempts + [a])[..|attempts|] == attempts;
  }

  // ---------- The code ----------

  /** The world outside: the n-th upstream reply, clock reading and random source. */
  datatype World = World(reply: nat -> Reply, clock: nat -> real, rand: nat -> nat -> nat) {
    ghost predicate Draws() {
      forall i, n | n > 0 :: rand(i)(n) < n
    }

    ghost predicate Forwards() {
      forall n :: Forwarded(reply(n))
    }
  }

  /** The session of a demand is bound to a provider, and has been for at most ten minutes. */
  predicate IsBoundTo(sticky: Bindings, d: Demand, id: int) {
    && d.session != "" && d.session in sticky && sticky[d.session].id == id
    && d.now <= sticky[d.session].lastUsed + 600.0
  }

  lemma BoundIsKept(sticky: Bindings, d: Demand, candidates: seq<Provider>)
    ensures forall id, p | IsBoundTo(sticky, d, id) && p in candidates && p.info.id == id ::
              IsBound(sticky, d.session, candidates, d.now)
  {
    forall id, p | IsBoundTo(sticky, d, id) && p in candidates && p.info.id == id
      ensures IsBound(sticky, d.session, candidates, d.now)
    {
      var i :| 0 <= i < |candidates| && candidates[i] == p;
      assert candidates[i].info.id == sticky[d.session].id;
    }
  }

  class Gateway {
    const router: Router
    const world: World
    const limits: Limits
    var calls: nat
    var ticks: nat

    constructor (router: Router, world: World, limits: Limits)
      ensures this.router == router && this.world == world && this.limits == limits && calls == 0 && ticks == 0
    {
      this.router, this.world, this.limits, calls, ticks := router, world, limits, 0, 0;
    }

    /** The session has a provider that may serve now, and has had it for at most ten minutes. */
    ghost predicate IsKept(job: Job, exclude: seq<int>, id: int)
      reads this, router, router.providers
    {
      && job.session != "" && job.session in router.sticky && router.sticky[job.session].id == id
      && world.clock(ticks) <= router.sticky[job.session].lastUsed + 600.0
      && exists p | p in router.providers ::
           p.info.id == id && MayServe(p, DemandOf(job, exclude, "", world.clock(ticks)), router.critical)
    }

    /** When the clock was last read, no provider could serve the request but those already tried. */
    ghost predicate NoneIsLeft(job: Job, exclude: seq<int>)
      reads this, router, router.providers
    {
      ticks > 0 && forall p | p in router.providers ::
        !MayServe(p, DemandOf(job, exclude, "", world.clock(ticks - 1)), router.critical)
    }

    /** Where a valid request of this session goes first, when no provider was suggested and no protocol preferred. */
    ghost function KeptId(job: Job, preferred: Option<Provider>): (id: Option<int>)
      reads this, router, router.providers
      ensures id.Some? ==>
                && IsKept(job, [], id.value) && preferred == None && job.preferFormat == ""
                && ReasonOf(job) == Sanitizer.Accepted
    {
      if preferred == None && job.preferFormat == "" && ReasonOf(job) == Sanitizer.Accepted
         && job.session in router.sticky && IsKept(job, [], router.sticky[job.session].id)
      then Some(router.sticky[job.session].id) else None
    }

    method Now() returns (t: real)
      modifies this`ticks
      ensures ticks == old(ticks) + 1 && t == world.clock(old(ticks))
    {
      t := world.clock(ticks);
      ticks := ticks + 1;
    }

    method Forward(body: Body) returns (c: Call)
      modifies this`calls
      ensures calls == old(calls) + 1 && c == Call(body, world.reply(old(calls)), false)
    {
      c := Call(body, world.reply(calls), false);
      calls := calls + 1;
    }

    static method Close(c: Call) returns (closed: Call)
      requires !c.closed
      ensures closed == c.(closed := c.reply.hasBody)
    {
      closed := c;
      if c.reply.hasBody {
        closed := c.(closed := true);
      }
    }

    /** The loop over retries at the same provider. */
    method RetryLoop(first: Call, info: Info) returns (log: seq<Call>, served: bool)
      requires first.closed == first.reply.hasBody && Judge(first.reply) == Failed
      modifies this`calls
      ensures 1 <= |log| <= 1 + Retries(info, limits) && log[0] == first
      ensures forall k | 0 <= k < |log| :: log[k].body == first.body
      ensures forall k | 0 <= k < |log| - 1 :: Judge(log[k].reply) != Fine
      ensures forall k | 0 <= k < |log| :: log[k].closed <==> log[k].reply.hasBody && !(served && k == |log| - 1)
      ensures served <==> Judge(log[|log| - 1].reply) == Fine
      ensures !served ==> |log| == 1 + Retries(info, limits)
      ensures world.Forwards() && Forwarded(first.reply) ==> forall k | 0 <= k < |log| :: Forwarded(log[k].reply)
    {
      log, served := [first], false;
      var retry := 0;
      while retry < info.maxRetries && retry < limits.maxRetryCount
        invariant 0 <= retry <= Retries(info, limits) && |log| == retry + 1 && log[0] == first
        invariant forall k | 0 <= k < |log| :: log[k].body == first.body
        invariant forall k | 0 <= k < |log| :: Judge(log[k].reply) != Fine && (log[k].closed <==> log[k].reply.hasBody)
        invariant world.Forwards() && Forwarded(first.reply) ==> forall k | 0 <= k < |log| :: Forwarded(log[k].reply)
        decreases info.maxRetries - retry
      {
        var c := Forward(first.body);
        if Judge(c.reply) == Fine {
          return log + [c], true;
        }
        c := Close(c);
        log := log + [c];
        retry := retry + 1;
      }
    }

    /** The retry with an enlarged request after a truncated reply. */
    method RetryEnlarged(first: Call, job: Job, info: Info) returns (a: Attempt)
      requires Judge(first.reply) == Truncated && first.body == CleanBody(job, info)
      requires first.closed == first.reply.hasBody
      modifies this`calls
      ensures a.info == info && IsLegal(a, job, limits) && a.calls[0] == first && ClosesBodies(a)
    {
      var second := Forward(job.enlarge(job.body));
      if !second.reply.truncated && !second.reply.hasError {
        return Attempt(info, [first, second], true);
      }
      second := Close(second);
      return Attempt(info, [first, second], false);
    }

    /** Cool-down or back-off after a failure that will not pass soon. */
    method SetAside(provider: Provider, model: string, r: Reply, now: real) returns (aside: bool)
      requires Judge(r) == Failed
      modifies provider`modelCooldown, provider`status, provider`authFailCount, provider`authFailUntil
      ensures aside == SetsAside(r)
      ensures (provider.modelCooldown, provider.status)
           == After(old(provider.modelCooldown), old(provider.status), model, r, now)
      ensures r.kind != QuotaExhausted && IsRefusal(r) ==>
                provider.authFailUntil == Some(now + Delay(limits.backoff, old(provider.authFailCount) + 1))
      ensures r.kind == QuotaExhausted || !IsRefusal(r) ==>
                && provider.authFailUntil == old(provider.authFailUntil)
                && provider.authFailCount == old(provider.authFailCount)
    {
      if r.kind == QuotaExhausted {
        provider.SetModelCooldown(model, now + 1800.0);
        return true;
      }
      if IsRefusal(r) {
        provider.SetAuthFailBackoff(limits.backoff, now);
        provider.status := AuthFailed;
        return true;
      }
      if r.kind == ErrorKind.RateLimited && r.waitSec > 60 {
        provider.SetModelCooldown(model, now + (if r.waitSec < 7200 then r.waitSec else 7200) as real);
        return true;
      }
      return false;
    }

    /** The body of the failover loop, from the cleaned request to the decision. */
    method Try(provider: Provider, job: Job, forwardBody: Body) returns (a: Attempt)
      requires forwardBody == CleanBody(job, provider.info)
      modifies this`calls, this`ticks
      modifies provider`modelCooldown, provider`status, provider`authFailCount, provider`authFailUntil
      ensures a.info == provider.info && IsLegal(a, job, limits) && ClosesBodies(a)
      ensures world.Forwards() ==> FromForward(a)
      ensures (provider.modelCooldown, provider.status)
           == After(old(provider.modelCooldown), old(provider.status), job.model, a.calls[0].reply,
                    world.clock(old(ticks)))
      ensures BacksOff(a.calls[0].reply) ==>
                provider.authFailUntil
                == Some(world.clock(old(ticks)) + Delay(limits.backoff, old(provider.authFailCount) + 1))
      ensures !BacksOff(a.calls[0].reply) ==>
                && provider.authFailUntil == old(provider.authFailUntil)
                && provider.authFailCount == old(provider.authFailCount)
    {
      var first := Forward(forwardBody);
      var r := first.reply;
      var now := Now();
      if Judge(r) == Fine {
        return Attempt(provider.info, [first], true);
      }
      first := Close(first);
      if Judge(r) == Truncated {
        a := RetryEnlarged(first, job, provider.info);
        return;
      }
      var aside := SetAside(provider, job.model, r, now);
      if aside || !RetrySameProvider(r) {
        return Attempt(provider.info, [first], false);
      }
      var log, served := RetryLoop(first, provider.info);
      return Attempt(provider.info, log, served);
    }

    /** First among the providers of the client's own protocol, then among all. */
    method Select(job: Job, exclude: seq<int>) returns (chosen: Option<Provider>)
      requires world.Draws()
      modifies this`ticks, router`sticky
      ensures chosen.Some? ==> chosen.value in router.providers && chosen.value.info.id !in exclude
      ensures chosen.Some? ==>
                && ticks > 0 && Permitted(chosen.value, job, router.critical)
                && IsReady(chosen.value, job.model, world.clock(ticks - 1))
      ensures forall id | old(IsKept(job, exclude, id)) && job.preferFormat == "" ::
                chosen.Some? && chosen.value.info.id == id
      ensures chosen.None? ==> NoneIsLeft(job, exclude)
      ensures job.preferFormat != ""
              && (exists p | p in router.providers ::
                    MayServe(p, DemandOf(job, exclude, job.preferFormat, world.clock(old(ticks))), router.critical))
              ==> chosen.Some? && chosen.value.info.HasFormat(job.preferFormat)
    {
      if job.preferFormat != "" {
        var now := Now();
        chosen := AskRouter(DemandOf(job, exclude, job.preferFormat, now));
        if chosen.Some? {
          return;
        }
        assert forall p | p in router.providers ::
          !MayServe(p, DemandOf(job, exclude, job.preferFormat, now), router.critical);
      }
      var now := Now();
      var d := DemandOf(job, exclude, "", now);
      assert forall id | job.preferFormat == "" && old(IsKept(job, exclude, id)) :: IsBoundTo(router.sticky, d, id);
      chosen := AskRouter(d);
    }

    method AskRouter(d: Demand) returns (chosen: Option<Provider>)
      requires world.Draws()
      modifies router`sticky
      ensures chosen.Some? ==> chosen.value in router.providers && MayServe(chosen.value, d, router.critical)
      ensures chosen.None? ==> forall p | p in router.providers :: !MayServe(p, d, router.critical)
      ensures forall id | IsBoundTo(old(router.sticky), d, id)
                          && (exists p | p in router.providers :: p.info.id == id && MayServe(p, d, router.critical)) ::
                chosen.Some? && chosen.value.info.id == id
    {
      ghost var candidates := Candidates(router.providers, d, router.critical);
      ServingExactly(router.providers, d, router.critical);
      BoundIsKept(router.sticky, d, candidates);
      chosen := router.SelectProviderWithFormat(d, world.rand(ticks));
    }

    /** The provider of the first attempt when a cost analysis suggested one. */
    method First(job: Job, preferred: Provider) returns (chosen: Provider)
      requires world.Draws()
      modifies this`ticks, router`sticky
      ensures chosen != preferred ==>
                && chosen in router.providers && chosen.info.HasFormat(job.preferFormat)
                && !preferred.info.HasFormat(job.preferFormat) && Permitted(chosen, job, router.critical)
                && ticks > 0 && IsReady(chosen, job.model, world.clock(ticks - 1))
      ensures job.preferFormat != ""
              && (exists p | p in router.providers ::
                    MayServe(p, DemandOf(job, [], job.preferFormat, world.clock(old(ticks))), router.critical))
              ==> chosen.info.HasFormat(job.preferFormat)
    {
      chosen := preferred;
      if job.preferFormat != "" && !preferred.info.HasFormat(job.preferFormat) {
        var now := Now();
        var other := AskRouter(DemandOf(job, [], job.preferFormat, now));
        if other.Some? {
          chosen := other.value;
        }
      }
    }

    /** The provider of the next attempt, if there is one. */
    method Choose(job: Job, attempt: nat, preferred: Option<Provider>, exclude: seq<int>)
      returns (chosen: Option<Provider>)
      requires world.Draws() && (attempt == 0 ==> exclude == [])
      modifies this`ticks, router`sticky
      ensures chosen.Some? ==> chosen.value in router.providers || chosen == preferred
      ensures chosen.Some? ==>
                || (attempt == 0 && chosen == preferred)
                || (chosen.value in router.providers && ticks > 0 && Permitted(chosen.value, job, router.critical)
                    && IsReady(chosen.value, job.model, world.clock(ticks - 1)))
      ensures exclude == [] && old(KeptId(job, preferred)).Some? ==>
                chosen.Some? && Some(chosen.value.info.id) == old(KeptId(job, preferred))
      ensures chosen.Some? ==> chosen.value.info.id !in exclude
      ensures chosen.None? ==> NoneIsLeft(job, exclude)
    {
      if attempt == 0 && preferred.Some? {
        var provider := First(job, preferred.value);
        return Some(provider);
      }
      ghost var kept := KeptId(job, preferred);
      assert exclude == [] && kept.Some? ==> IsKept(job, exclude, kept.value);
      chosen := Select(job, exclude);
    }

    /** The part of a turn that follows the choice. */
    method AttemptAt(job: Job, attempts0: seq<Attempt>, provider: Provider)
      returns (attempts: seq<Attempt>, answer: Option<Answer>)
      requires GaveUp(attempts0, job, limits) && |attempts0| <= limits.maxFailover
      requires provider.info.id !in Ids(attempts0)
      modifies this`calls, this`ticks
      modifies provider`modelCooldown, provider`status, provider`authFailCount, provider`authFailUntil
      ensures if answer.Some? then IsOutcome(attempts, [answer.value], job, limits) && answer.value != NoProvider
              else GaveUp(attempts, job, limits) && |attempts| == |attempts0| + 1
                   && Ids(attempts) == Ids(attempts0) + [attempts[|attempts0|].info.id]
      ensures world.Forwards() && AllForwarded(attempts0) ==> AllForwarded(attempts)
      ensures attempts != attempts0 ==>
                attempts != [] && attempts == attempts0 + [attempts[|attempts| - 1]]
                && attempts[|attempts| - 1].info == provider.info
      ensures ReasonOf(job) == Sanitizer.Accepted ==> attempts != attempts0
    {
      attempts, answer := attempts0, None;
      Unserved(attempts, job, limits);
      var clean := Sanitizer.SanitizeRequest(ConfigFor(job, provider.info), job.body);
      ReasonIsTheSame(job, provider.info);
      if !clean.Valid() {
        return attempts, Some(Rejected(clean.reason));
      }
      var a := Try(provider, job, clean.body);
      OneMore(attempts, a, job, limits);
      if world.Forwards() {
        OneMoreForwarded(attempts, a);
      }
      attempts := attempts + [a];
      if a.served {
        answer := Some(Relayed(a.calls[|a.calls| - 1].reply));
      }
    }

    /** One turn of the failover loop: an answer, or one more attempt that gave up. */
    method Turn(job: Job, attempts0: seq<Attempt>, preferred: Option<Provider>, excludeIDs: seq<int>)
      returns (attempts: seq<Attempt>, answer: Option<Answer>)
      requires world.Draws() && GaveUp(attempts0, job, limits) && |attempts0| <= limits.maxFailover
      requires excludeIDs == Ids(attempts0)
      modifies this`calls, this`ticks, router`sticky, router.providers
      modifies if preferred.Some? then {preferred.value} else {}
      ensures if answer.Some? then IsOutcome(attempts, [answer.value], job, limits)
              else GaveUp(attempts, job, limits) && |attempts| == |attempts0| + 1
                   && Ids(attempts) == excludeIDs + [attempts[|attempts0|].info.id]
      ensures answer == Some(NoProvider) ==> attempts == attempts0 && NoneIsLeft(job, excludeIDs)
      ensures world.Forwards() && AllForwarded(attempts0) ==> AllForwarded(attempts)
      ensures AllPermitted(attempts0, router.providers, job, router.critical, InfoOf(preferred)) ==>
                AllPermitted(attempts, router.providers, job, router.critical, InfoOf(preferred))
      ensures attempts0 <= attempts
      ensures attempts0 == [] ==> StartsAt(attempts, old(KeptId(job, preferred)))
    {
      ghost var providers, suggested, kept := router.providers, InfoOf(preferred), KeptId(job, preferred);
      var chosen := Choose(job, |attempts0|, preferred, excludeIDs);
      if chosen.None? {
        EndsWithoutProvider(attempts0, job, limits);
        return attempts0, Some(NoProvider);
      }
      var provider := chosen.value;
      assert provider in providers && Permitted(provider, job, router.critical)
             ==> IsPermitted(provider.info, providers, job, router.critical);
      attempts, answer := AttemptAt(job, attempts0, provider);
      AfterTurn(attempts0, attempts, provider.info, providers, job, router.critical, suggested, kept);
    }

    /** The failover loop and its last answer. */
    method FailOver(job: Job, preferred: Option<Provider>) returns (attempts: seq<Attempt>, answers: seq<Answer>)
      requires world.Draws()
      modifies this`calls, this`ticks, router`sticky, router.providers
      modifies if preferred.Some? then {preferred.value} else {}
      ensures limits.maxFailover >= 0 ==> IsOutcome(attempts, answers, job, limits)
      ensures limits.maxFailover < 0 ==> attempts == [] && answers == []
      ensures world.Forwards() ==> AllForwarded(attempts)
      ensures AllPermitted(attempts, router.providers, job, router.critical, InfoOf(preferred))
      ensures limits.maxFailover >= 0 ==> StartsAt(attempts, old(KeptId(job, preferred)))
      ensures answers == [NoProvider] ==> NoneIsLeft(job, Ids(attempts))
    {
      attempts, answers := [], [];
      var excludeIDs: seq<int>, lastResult: Option<Reply> := [], None;
      ghost var providers, suggested := router.providers, InfoOf(preferred);
      ghost var kept := KeptId(job, preferred);
      var attempt := 0;
      while attempt <= limits.maxFailover
        invariant answers == [] && |attempts| == attempt && GaveUp(attempts, job, limits)
        invariant attempts != [] ==> attempt <= limits.maxFailover + 1
        invariant world.Forwards() ==> AllForwarded(attempts)
        invariant router.providers == providers && excludeIDs == Ids(attempts)
        invariant lastResult == LastReply(attempts)
        invariant AllPermitted(attempts, providers, job, router.critical, suggested)
        invariant attempt > 0 ==> StartsAt(attempts, kept)
        invariant attempt == 0 ==> KeptId(job, preferred) == kept
      {
        var answer;
        attempts, answer := Turn(job, attempts, preferred, excludeIDs);
        if answer.Some? {
          answers := answers + [answer.value];
          return;
        }
        lastResult := Some(attempts[attempt].calls[0].reply);
        excludeIDs := excludeIDs + [attempts[attempt].info.id];
        attempt := attempt + 1;
      }
      Unserved(attempts, job, limits);
      if lastResult.Some? {
        answers := answers + [AllFailed(lastResult.value.status)];
      }
    }

    /** A request that decoded: attempts at permitted providers, or at the suggested one, until one is served. */
    method HandleProxy(job: Job, preferred: Option<Provider>) returns (attempts: seq<Attempt>, answers: seq<Answer>)
      requires world.Draws()
      modifies this`calls, this`ticks, router`sticky, router.providers
      modifies if preferred.Some? then {preferred.value} else {}
      ensures limits.maxFailover >= 0 ==> IsOutcome(attempts, answers, job, limits)
      ensures limits.maxFailover < 0 ==> attempts == [] && answers == []
      ensures world.Forwards() ==> AllForwarded(attempts)
      ensures forall i | 0 <= i < |attempts| ::
                IsPermitted(attempts[i].info, router.providers, job, router.critical)
                || (i == 0 && preferred.Some? && attempts[0].info == preferred.value.info)
      ensures forall id | limits.maxFailover >= 0 && old(IsKept(job, [], id)) && preferred == None
                          && job.preferFormat == "" && ReasonOf(job) == Sanitizer.Accepted ::
                attempts != [] && attempts[0].info.id == id
      ensures answers == [NoProvider] ==> ticks > 0 && forall p | p in router.providers ::
                !MayServe(p, DemandOf(job, Ids(attempts), "", world.clock(ticks - 1)), router.critical)
    {
      attempts, answers := FailOver(job, preferred);
      EachPermitted(attempts, router.providers, job, router.critical, InfoOf(preferred));
    }
  }

  /** The model cool-downs and the status of a provider after its first reply in an attempt. */
  function After(cooldown: map<string, real>, status: Status, model: string, r: Reply,
                 now: real): (map<string, real>, Status) {
    if Judge(r) != Failed then (cooldown, status)
    else if r.kind == QuotaExhausted then (Cooled(cooldown, model, now + 1800.0), status)
    else if IsRefusal(r) then (cooldown, AuthFailed)
    else if IsLongLimit(r) then
      (Cooled(cooldown, model, now + (if r.waitSec < 7200 then r.waitSec else 7200) as real), status)
    else (cooldown, status)
  }

  function Cooled(cooldown: map<string, real>, model: string, until: real): map<string, real> {
    if model == "" then cooldown else cooldown[model := until]
  }

  // ---------- What follows for every run ----------

  /** With the replies that forwarding produces, the retry with an enlarged request never happens. */
  lemma CallsPerAttempt(a: Attempt, job: Job, limits: Limits)
    requires IsLegal(a, job, limits)
    ensures |a.calls| <= 1 + if Retries(a.info, limits) > 1 then Retries(a.info, limits) else 1
    ensures FromForward(a) ==>
              && |a.calls| <= 1 + Retries(a.info, limits)
              && forall k | 0 <= k < |a.calls| :: a.calls[k].body == CleanBody(job, a.info)
  {
    ForwardedExactly(a.calls[0].reply);
  }

  function CallCount(attempts: seq<Attempt>): nat {
    if attempts == [] then 0 else CallCount(attempts[..|attempts| - 1]) + |attempts[|attempts| - 1].calls|
  }

  /** The two limits bound the load one request can put on all upstreams together. */
  lemma {:induction false} CallsPerRequest(attempts: seq<Attempt>, job: Job, limits: Limits, most: nat)
    requires AllLegal(attempts, job, limits)
    requires most >= 1 && limits.maxRetryCount <= most - 1
    requires most >= 2 || AllForwarded(attempts)
    ensures CallCount(attempts) <= |attempts| * most
  {
    if attempts != [] {
      var n := |attempts| - 1;
      CallsPerRequest(attempts[..n], job, limits, most);
      CallsPerAttempt(attempts[n], job, limits);
      OneMoreTimes(n, most);
    }
  }

  lemma OneMoreTimes(n: nat, most: nat)
    ensures (n + 1) * most == n * most + most
  {
  }

  /** What a client is given is complete and without a recorded error; and with the replies that forwarding produces it
      is fine altogether. */
  lemma ServedReplies(a: Attempt, job: Job, limits: Limits)
    requires IsLegal(a, job, limits) && a.served
    ensures var last := a.calls[|a.calls| - 1].reply;
            && !last.hasError && !last.truncated && (FromForward(a) ==> Judge(last) == Fine)
  {
    ForwardedExactly(a.calls[0].reply);
  }

  /** The status of the final error is that of the last provider's first reply: below 400 exactly when that was an error
      text under status 200. */
  lemma FailureStatus(attempts: seq<Attempt>, status: int, job: Job, limits: Limits)
    requires IsOutcome(attempts, [AllFailed(status)], job, limits) && FromForward(attempts[|attempts| - 1])
    ensures var first := attempts[|attempts| - 1].calls[0].reply;
            && Judge(first) == Failed && (status < 400 <==> status == 200 && first.kind != NoError)
  {
    var last := attempts[|attempts| - 1];
    assert IsLegal(last, job, limits);
    ForwardedExactly(last.calls[0].reply);
  }

  /** Only what escapes cleaning shows a tool request to a provider without tools. */
  lemma WhenToolsReachTheProvider(a: Attempt, job: Job, limits: Limits, k: nat, req: Sanitizer.Fields)
    requires IsLegal(a, job, limits) && FromForward(a) && k < |a.calls|
    requires job.endpoint == "/v1/chat/completions" && !a.info.supportsTools && job.body == Some(Obj(req))
    requires Sanitizer.Check(req) == Sanitizer.Accepted
    ensures Sanitizer.IsToolRequest(a.calls[k].body) <==> Sanitizer.EscapesStripping(req)
  {
    CallsPerAttempt(a, job, limits);
    Sanitizer.StrippingIsComplete(ConfigFor(job, a.info), req);
  }

  function Opened(attempts: seq<Attempt>): nat {
    if attempts == [] then 0 else Opened(attempts[..|attempts| - 1]) + OpenedBy(attempts[|attempts| - 1].calls)
  }

  function OpenedBy(calls: seq<Call>): nat {
    if calls == [] then 0 else OpenedBy(calls[..|calls| - 1]) + if calls[|calls| - 1].reply.hasBody then 1 else 0
  }

  function Closed(attempts: seq<Attempt>): nat {
    if attempts == [] then 0 else Closed(attempts[..|attempts| - 1]) + ClosedBy(attempts[|attempts| - 1].calls)
  }

  function ClosedBy(calls: seq<Call>): nat {
    if calls == [] then 0 else ClosedBy(calls[..|calls| - 1]) + if calls[|calls| - 1].closed then 1 else 0
  }

  lemma {:induction false} AllClosed(calls: seq<Call>)
    requires forall k | 0 <= k < |calls| :: calls[k].closed <==> calls[k].reply.hasBody
    ensures ClosedBy(calls) == OpenedBy(calls)
  {
    if calls != [] {
      AllClosed(calls[..|calls| - 1]);
    }
  }

  lemma AttemptCloses(a: Attempt)
    requires ClosesBodies(a) && a.calls != []
    ensures OpenedBy(a.calls) == ClosedBy(a.calls) + if a.served && a.calls[|a.calls| - 1].reply.hasBody then 1 else 0
  {
    AllClosed(a.calls[..|a.calls| - 1]);
  }

  lemma {:induction false} UnservedClose(attempts: seq<Attempt>, job: Job, limits: Limits)
    requires AllLegal(attempts, job, limits) && forall i | 0 <= i < |attempts| :: !attempts[i].served
    ensures Opened(attempts) == Closed(attempts)
  {
    if attempts != [] {
      UnservedClose(attempts[..|attempts| - 1], job, limits);
      AttemptCloses(attempts[|attempts| - 1]);
    }
  }

  /** No response body leaks: all that were opened are closed, but for the one the answer is made of. */
  lemma NothingLeaks(attempts: seq<Attempt>, answers: seq<Answer>, job: Job, limits: Limits)
    requires IsOutcome(attempts, answers, job, limits)
    ensures Opened(attempts) == Closed(attempts) + if answers[0].Relayed? && answers[0].reply.hasBody then 1 else 0
  {
    if attempts != [] {
      var n := |attempts| - 1;
      UnservedClose(attempts[..n], job, limits);
      AttemptCloses(attempts[n]);
    }
  }
}
