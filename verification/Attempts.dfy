/** What a run of attempts means in terms of the replies: who is asked again, what is handed over, who is put aside. */
module Attempts {
  import opened Json
  import opened Providers
  import opened Failover

  /** A reply a client can be given. */
  predicate IsGood(r: Reply) {
    r.status < 400 && !r.hasError && r.kind == NoError && !r.truncated
  }

  /** Cut off, and nothing else is wrong with it. */
  predicate IsCutOff(r: Reply) {
    r.status < 400 && !r.hasError && r.kind == NoError && r.truncated
  }

  /** A failure that another call at once may get over. */
  predicate CanPass(r: Reply) {
    && r.status != 401 && r.status != 403
    && (r.kind == Timeout || r.kind == Truncation || (r.kind == ErrorKind.RateLimited && r.waitSec <= 60))
  }

  /** Nothing is sent again after a good reply, and what forwarding brings is handed over exactly when it is good. */
  lemma GoodIsServed(a: Attempt, job: Job, limits: Limits)
    requires IsLegal(a, job, limits)
    ensures forall k | 0 <= k < |a.calls| - 1 :: !IsGood(a.calls[k].reply)
    ensures IsGood(a.calls[0].reply) ==> |a.calls| == 1
    ensures IsGood(a.calls[|a.calls| - 1].reply) ==> a.served
    ensures FromForward(a) && a.served ==> IsGood(a.calls[|a.calls| - 1].reply)
  {
    ForwardedExactly(a.calls[0].reply);
  }

  /** How often the provider is asked: once more when the reply was cut off; not again when the failure will not pass at
      once; else until a good reply comes or one of the two limits is reached. */
  lemma AskedAgain(a: Attempt, job: Job, limits: Limits)
    requires IsLegal(a, job, limits)
    ensures var first := a.calls[0].reply;
            var again := |a.calls| - 1;
            && (IsCutOff(first) ==> again == 1)
            && (!IsGood(first) && !IsCutOff(first) && !CanPass(first) ==> again == 0 && !a.served)
            && (!IsGood(first) && !IsCutOff(first) && CanPass(first) ==>
                  && (again == 0 || (again <= a.info.maxRetries && again <= limits.maxRetryCount))
                  && (a.served || again >= a.info.maxRetries || again >= limits.maxRetryCount))
  {
  }

  /** What a reply does to its provider: a used-up quota takes it out for this model for half an hour, a refusal marks
      it, a long limit takes it out for the time asked for but two hours at most. Nothing else changes it. */
  lemma PutAside(cooldown: map<string, real>, status: Status, model: string, r: Reply, now: real)
    requires model != ""
    ensures var (cooled, marked) := After(cooldown, status, model, r, now);
            var refused := r.status == 401 || r.status == 403;
            && (r.kind == QuotaExhausted ==> cooled == cooldown[model := now + 1800.0] && marked == status)
            && (r.kind != QuotaExhausted && refused ==> cooled == cooldown && marked == AuthFailed)
            && (r.kind == ErrorKind.RateLimited && !refused && 60 < r.waitSec <= 7200 ==>
                  cooled == cooldown[model := now + r.waitSec as real] && marked == status)
            && (r.kind == ErrorKind.RateLimited && !refused && r.waitSec > 7200 ==>
                  cooled == cooldown[model := now + 7200.0] && marked == status)
            && (r.kind != QuotaExhausted && !refused && !(r.kind == ErrorKind.RateLimited && r.waitSec > 60) ==>
                  cooled == cooldown && marked == status)
  {
  }

  /** A request that names no model cools nothing. */
  lemma NoModelIsNotCooled(cooldown: map<string, real>, status: Status, r: Reply, now: real)
    ensures After(cooldown, status, "", r, now).0 == cooldown
  {
  }

  /** What forwarding tells of the wire: nothing sent and a reply that cannot be read are errors under 502; any other
      reply keeps its status, and is an error exactly when its body was analysed and it is one by its status or, for a
      whole reply of an OpenAI upstream under 200, by what the body says. */
  lemma ForwardTells(path: Path, u: Upstream)
    ensures var r := ForwardSmart(path, u);
            && (u.NotSent? ==> r.status == 502 && r.hasError && !r.hasBody)
            && (u.Responded? && u.status < 400 && path.Translated? && !path.stream && path.readFails ==>
                  r.status == 502 && r.hasError)
            && (u.Responded? && !(u.status < 400 && path.Translated? && !path.stream && path.readFails) ==>
                  && r.status == u.status && r.hasBody
                  && (r.hasError <==>
                        u.analysed
                        && (u.status >= 400
                            || (u.status == 200 && path.OpenAI? && !path.stream && u.kind != NoError)))
                  && r.kind == (if r.hasError then u.kind else NoError)
                  && r.waitSec == (if r.hasError then u.waitSec else 0))
  {
  }
}
