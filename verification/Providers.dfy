/** Upstream providers: what they can serve, and the cool-downs that take them out for a while. Times are in seconds. */
module Providers {
  import opened Json

  datatype Status = Healthy | Warning | Dead | RateLimited | Disabled | AuthFailed

  datatype Group = Primary | Hot | Cold

  /** What a reload reads from the database. */
  datatype Info = Info(
    id: int, priority: int, weight: int, enabled: bool, proxyEnabled: bool, apiFormat: string, anthropicUrl: string,
    maxRetries: int, supportsTools: bool, cost: real, latency: int, quotaTotal: int, quotaUsed: int)
  {
    predicate HasFormat(clientFormat: string) {
      if clientFormat == "anthropic" then anthropicUrl != "" || apiFormat == "anthropic"
      else clientFormat == "openai" && apiFormat == "openai"
    }

    function Group(): Group {
      if priority >= 90 then Primary else if priority >= 50 then Hot else Cold
    }

    /** The share of the quota that is left; an unknown quota counts as full. */
    function QuotaRatio(): (r: real)
      ensures 0.0 <= r
      ensures quotaUsed >= 0 ==> r <= 1.0
      ensures r == 0.0 <==> 0 < quotaTotal <= quotaUsed
    {
      if quotaTotal <= 0 then 1.0
      else if quotaTotal - quotaUsed <= 0 then 0.0
      else (quotaTotal - quotaUsed) as real / quotaTotal as real
    }
  }

  datatype Backoff = Backoff(base: real, max: real, multiplier: real)

  function Power(x: real, n: nat): real {
    if n == 0 then 1.0 else Power(x, n - 1) * x
  }

  /** Some step of the geometric growth up to `n` failures overshot the maximum. */
  ghost predicate Overshoots(b: Backoff, n: nat) {
    exists k | 1 <= k < n :: b.base * Power(b.multiplier, k) > b.max
  }

  lemma {:induction false} PowerGrows(x: real, j: nat, k: nat)
    requires x >= 1.0 && j <= k
    ensures 1.0 <= Power(x, j) <= Power(x, k)
    decreases k
  {
    if k > 0 {
      PowerGrows(x, 0, k - 1);
      if j < k {
        PowerGrows(x, j, k - 1);
      } else {
        PowerGrows(x, j - 1, j - 1);
      }
    }
  }

  /** The delay after the n-th refusal in a row. */
  ghost function Delay(b: Backoff, n: nat): real
    requires n >= 1
  {
    if Overshoots(b, n) then b.max else b.base * Power(b.multiplier, n - 1)
  }

  /** With a multiplier of at least one, the last step overshoots if any does: the delay is the capped geometric one. */
  lemma GrowingBackoff(b: Backoff, n: nat)
    requires b.multiplier >= 1.0 && b.base >= 0.0 && n >= 2
    ensures var step := b.base * Power(b.multiplier, n - 1); Delay(b, n) == if step > b.max then b.max else step
  {
    forall k | 1 <= k < n ensures b.base * Power(b.multiplier, k) <= b.base * Power(b.multiplier, n - 1) {
      PowerGrows(b.multiplier, k, n - 1);
    }
  }

  class Provider {
    const info: Info
    /** Whether the list of models, its aliases and prefixes include a model; an empty list includes all. */
    const serves: string -> bool
    var status: Status
    var cooldownUntil: Option<real>
    var authFailUntil: Option<real>
    var authFailCount: nat
    var modelCooldown: map<string, real>

    constructor (info: Info, serves: string -> bool, status: Status)
      ensures this.info == info && this.serves == serves && this.status == status
      ensures cooldownUntil == None && authFailUntil == None && authFailCount == 0 && modelCooldown == map[]
    {
      this.info, this.serves, this.status := info, serves, status;
      cooldownUntil, authFailUntil, authFailCount, modelCooldown := None, None, 0, map[];
    }

    predicate IsModelCooling(model: string, now: real)
      reads this`modelCooldown
    {
      model != "" && model in modelCooldown && now < modelCooldown[model]
    }

    /** After refusals the provider is skipped for a while. */
    predicate IsBackingOff(now: real)
      reads this
    {
      status == AuthFailed && authFailUntil.Some? && now < authFailUntil.value
    }

    /** Available but for refusals. */
    predicate CanServe(model: string, now: real)
      reads this
    {
      && info.enabled && info.proxyEnabled
      && status != Dead && status != Disabled
      && !(cooldownUntil.Some? && now < cooldownUntil.value)
      && info.priority != 0
      && (model != "" ==> serves(model))
      && !IsModelCooling(model, now)
    }

    predicate IsAvailable(model: string, now: real)
      reads this
    {
      CanServe(model, now) && !IsBackingOff(now)
    }

    /** Takes the provider out for this model until then, and for no other model. */
    method SetModelCooldown(model: string, until: real)
      modifies this`modelCooldown
      ensures modelCooldown == if model == "" then old(modelCooldown) else old(modelCooldown)[model := until]
      ensures model != "" ==> forall now | now < until :: !IsAvailable(model, now)
      ensures forall other, now | other != model :: IsAvailable(other, now) == old(IsAvailable(other, now))
    {
      if model == "" {
        return;
      }
      modelCooldown := modelCooldown[model := until];
    }

    /** One more refusal: the delay grows geometrically and stays at the maximum once a step overshot it. The first
        delay is the base itself, even above the maximum. */
    method SetAuthFailBackoff(b: Backoff, now: real)
      modifies this`authFailCount, this`authFailUntil
      ensures authFailCount == old(authFailCount) + 1
      ensures authFailUntil == Some(now + Delay(b, authFailCount))
      ensures status == AuthFailed ==>
                forall model, time | time < now + Delay(b, authFailCount) :: !IsAvailable(model, time)
    {
      authFailCount := authFailCount + 1;
      var dur, i := b.base, 1;
      while i < authFailCount
        invariant 1 <= i <= authFailCount == old(authFailCount) + 1
        invariant dur == b.base * Power(b.multiplier, i - 1)
        invariant !Overshoots(b, i) && authFailUntil == old(authFailUntil)
      {
        Regroup(b.base, Power(b.multiplier, i - 1), b.multiplier);
        dur := dur * b.multiplier;
        if dur > b.max {
          assert b.base * Power(b.multiplier, i) > b.max;
          assert Overshoots(b, authFailCount);
          dur := b.max;
          break;
        }
        i := i + 1;
      }
      assert dur == Delay(b, authFailCount);
      authFailUntil := Some(now + dur);
    }

    /** Refusals no longer keep the provider from anything it can serve, and the next one counts as the first. */
    method ClearAuthFail()
      modifies this`authFailCount, this`authFailUntil
      ensures authFailCount == 0 && authFailUntil == None
      ensures forall model, now :: IsAvailable(model, now) == old(CanServe(model, now))
      ensures forall b: Backoff :: Delay(b, authFailCount + 1) == b.base
    {
      authFailCount, authFailUntil := 0, None;
      forall b: Backoff ensures Delay(b, authFailCount + 1) == b.base {
        FirstDelay(b);
      }
    }

    /** The outcome of a health check. A healthy provider is available for all it can serve, and starts with a clean
        record. */
    method RecordHealth(checked: Status)
      modifies this`status, this`authFailCount, this`authFailUntil
      ensures status == checked
      ensures checked == Healthy ==>
                authFailCount == 0 && forall model, now :: IsAvailable(model, now) == CanServe(model, now)
      ensures checked != Healthy ==> authFailUntil == old(authFailUntil) && authFailCount == old(authFailCount)
    {
      status := checked;
      if checked == Healthy && authFailCount > 0 {
        ClearAuthFail();
      }
    }
  }

  lemma FirstDelay(b: Backoff)
    ensures Delay(b, 1) == b.base
  {
    assert Power(b.multiplier, 0) == 1.0;
  }

  lemma Regroup(x: real, y: real, z: real)
    ensures x * y * z == x * (y * z)
  {
  }
}
