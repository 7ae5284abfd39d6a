/** The guarded security store of `operator_mfa.py`: claims that can be made once while
    they live, attempt budgets, and a marker that holds every operation back until its
    time has come. Times are in milliseconds, the marker's in seconds. */
module MfaStore {
  import opened Basics
  import opened Ledger

  const CHALLENGE_SECONDS := 300
  const CHALLENGE_CLAIM_SECONDS := 360
  const TOTP_CLAIM_SECONDS := 120
  const HOLD_SECONDS := 360

  /** Digests are ideal: a claim key is the challenge or the factor and time step itself. */
  datatype ClaimKey = ChallengeUsed(challenge: nat) | TotpUsed(factor: nat, step: int)

  function ClaimSeconds(k: ClaimKey): nat {
    if k.ChallengeUsed? then CHALLENGE_CLAIM_SECONDS else TOTP_CLAIM_SECONDS
  }

  datatype Vault = Vault(now: int, ready: Option<int>, claims: map<ClaimKey, int>)

  /** `STORE_GUARD` with the one expected identity. */
  predicate Open(v: Vault) {
    v.ready.Some? && v.ready.value * 1000 <= v.now
  }

  predicate Taken(v: Vault, k: ClaimKey) {
    k in v.claims && v.now <= v.claims[k]
  }

  /** `_cache_add`: `SET NX EX` behind the guard; `None` is the store error. */
  function CacheAdd(v: Vault, k: ClaimKey): (Vault, Option<bool>) {
    if !Open(v) then (v, None)
    else if Taken(v, k) then (v, Some(false))
    else (v.(claims := v.claims[k := v.now + 1000 * ClaimSeconds(k)]), Some(true))
  }

  /** `initialize_security_store`: only where no marker is; `migrate` holds for six minutes. */
  function Initialize(v: Vault, delay: nat): (Vault, bool) {
    if v.ready.Some? then (v, false) else (v.(ready := Some(v.now / 1000 + delay)), true)
  }

  /** The claims of one `prepare_mfa` that nothing interrupts: the challenge, then for an
      authenticator the time step its code matched, if any. `valid`: the challenge was
      signed at most 300 s ago for this user and password. */
  function Verify(v: Vault, valid: bool, challenge: nat, factor: Option<nat>, step: Option<int>): (Vault, bool) {
    if !valid then (v, false)
    else
      var (one, claimed) := CacheAdd(v, ChallengeUsed(challenge));
      if claimed != Some(true) then (one, false)
      else if factor.None? then (one, true)
      else if step.None? then (one, false)
      else
        var (two, accepted) := CacheAdd(one, TotpUsed(factor.value, step.value));
        (two, accepted == Some(true))
  }

  /** After an acceptance the challenge is refused for the next 360 s, and the authenticator
      code for the next 120 s under any challenge. */
  lemma VerifiedOnce(v: Vault, challenge: nat, factor: Option<nat>, step: Option<int>, later: int,
                     again: nat, other: Option<nat>, code: Option<int>)
    requires Verify(v, true, challenge, factor, step).1 && v.now <= later
    ensures again == challenge && later <= v.now + 1000 * CHALLENGE_CLAIM_SECONDS ==>
              !Verify(Verify(v, true, challenge, factor, step).0.(now := later), true, again, other, code).1
    ensures factor.Some? && other == factor && code == step && later <= v.now + 1000 * TOTP_CLAIM_SECONDS ==>
              !Verify(Verify(v, true, challenge, factor, step).0.(now := later), true, again, other, code).1
  {
  }

  /** When a claim succeeds, when it fails, and when the store refuses to decide: by the
      marker and by the life of an earlier claim. */
  lemma ClaimAnswers(v: Vault, k: ClaimKey)
    ensures
      var (t, claimed) := CacheAdd(v, k);
      var open := v.ready.Some? && 1000 * v.ready.value <= v.now;
      var free := k !in v.claims || v.claims[k] < v.now;
      && (claimed.None? <==> !open) && (claimed == Some(true) <==> (open && free)) && (claimed == Some(false) <==> (open && !free))
      && t == if open && free then v.(claims := v.claims[k := v.now + if k.ChallengeUsed? then 360000 else 120000]) else v
  {
  }

  /** A verification is accepted exactly for a valid challenge that is not claimed and, for an
      authenticator, a code that matched a time step that is not claimed either. */
  lemma VerifyAnswers(v: Vault, valid: bool, challenge: nat, factor: Option<nat>, step: Option<int>)
    ensures
      var free := (k: ClaimKey) => k !in v.claims || v.claims[k] < v.now;
      Verify(v, valid, challenge, factor, step).1 <==>
        (valid && v.ready.Some? && 1000 * v.ready.value <= v.now && free(ChallengeUsed(challenge))
         && (factor.None? || (step.Some? && free(TotpUsed(factor.value, step.value)))))
  {
  }

  // ------------------------------------------------------------------------ budgets

  /** `_budget` on one counter that is absent or counting: allowed, and what is left in the
      store. An exhausted budget is not counted further. */
  function Budget(c: Counter, maximum: nat, span: nat, now: int): (Counter, bool) {
    var live := if c.Counting? && now <= c.until then c else Gone;
    if live.Counting? && live.value >= maximum then (live, false)
    else (Bumped(live, span, now), true)
  }

  /** The allowed attempts among attempts at `times`. */
  function Allowed(times: seq<int>, maximum: nat, span: nat): (Counter, seq<Hit>) {
    if times == [] then (Gone, [])
    else
      var (c, hits) := Allowed(times[..|times| - 1], maximum, span);
      var now := times[|times| - 1];
      var (after, allowed) := Budget(c, maximum, span, now);
      var live := if c.Counting? && now <= c.until then c else Gone;
      (after, if allowed then hits + [Hit(now, StartOf(live, span, now))] else hits)
  }

  lemma {:induction false} BudgetHistory(times: seq<int>, maximum: nat, span: nat)
    requires maximum >= 1 && times != []
    requires forall i, j :: 0 <= i < j < |times| ==> times[i] <= times[j]
    ensures
      var (c, hits) := Allowed(times, maximum, span);
      Valid(hits, span, maximum) && Shows(hits, c, span, times[|times| - 1])
    decreases |times|
  {
    var front := times[..|times| - 1];
    var now := times[|times| - 1];
    var (c, hits) := Allowed(front, maximum, span);
    var live := if c.Counting? && now <= c.until then c else Gone;
    if front != [] {
      BudgetHistory(front, maximum, span);
      assert front[|front| - 1] == times[|front| - 1];
      Later(hits, c, span, front[|front| - 1], now);
    }
    assert Shows(hits, live, span, now) && Valid(hits, span, maximum);
    if !(live.Counting? && live.value >= maximum) { Append(hits, live, span, maximum, now); }
  }

  /** The allowed attempts of the window that is current at `now`. */
  function Current(hits: seq<Hit>, span: nat, now: int): nat {
    if hits == [] || hits[|hits| - 1].start + span < now then 0 else InWindow(hits, hits[|hits| - 1].start)
  }

  /** An attempt is allowed exactly if the current window has had fewer than the budget, so
      nobody is stopped early; and it is counted exactly if it is allowed. */
  lemma BudgetAnswers(times: seq<int>, maximum: nat, span: nat, now: int)
    requires maximum >= 1 && forall i, j :: 0 <= i < j < |times| ==> times[i] <= times[j]
    requires times != [] ==> times[|times| - 1] <= now
    ensures
      var (c, hits) := Allowed(times, maximum, span);
      var (after, more) := Allowed(times + [now], maximum, span);
      && (Budget(c, maximum, span, now).1 <==> Current(hits, span, now) < maximum)
      && |more| == |hits| + if Current(hits, span, now) < maximum then 1 else 0
  {
    assert (times + [now])[..|times|] == times;
    if times != [] {
      BudgetHistory(times, maximum, span);
      Later(Allowed(times, maximum, span).1, Allowed(times, maximum, span).0, span, times[|times| - 1], now);
    }
  }

  /** Ten password or five verification attempts per window: over any stretch as long as
      the window at most twice as many get through. */
  lemma BudgetOverAnyStretch(times: seq<int>, maximum: nat, span: nat, from: int, to: int)
    requires maximum >= 1 && to - from <= span
    requires forall i, j :: 0 <= i < j < |times| ==> times[i] <= times[j]
    ensures Between(Allowed(times, maximum, span).1, from, to) <= 2 * maximum
  {
    if times != [] {
      BudgetHistory(times, maximum, span);
      TwiceTheLimit(Allowed(times, maximum, span).1, span, maximum, from, to);
    }
  }

  // ------------------------------------------------------------------- in place

  class SecurityStore {
    var now: int
    var ready: Option<int>
    var claims: map<ClaimKey, int>

    function Contents(): Vault
      reads this
    {
      Vault(now, ready, claims)
    }

    constructor (now: int)
      ensures Contents() == Vault(now, None, map[])
    {
      this.now, ready, claims := now, None, map[];
    }

    method Claim(k: ClaimKey) returns (claimed: Option<bool>)
      modifies this`claims
      ensures (Contents(), claimed) == CacheAdd(old(Contents()), k)
    {
      if ready.None? || ready.value * 1000 > now {
        return None;
      }
      if k in claims && now <= claims[k] {
        return Some(false);
      }
      claims := claims[k := now + 1000 * ClaimSeconds(k)];
      return Some(true);
    }

    /** `prepare_mfa`, its store side. */
    method Prepare(valid: bool, challenge: nat, factor: Option<nat>, step: Option<int>) returns (accepted: bool)
      modifies this`claims
      ensures (Contents(), accepted) == Verify(old(Contents()), valid, challenge, factor, step)
    {
      if !valid {
        return false;
      }
      var claimed := Claim(ChallengeUsed(challenge));
      if claimed != Some(true) {
        return false;
      }
      if factor.Some? {
        if step.None? {
          return false;
        }
        var used := Claim(TotpUsed(factor.value, step.value));
        return used == Some(true);
      }
      return true;
    }

    method Setup(migrate: bool) returns (ok: bool)
      modifies this`ready
      ensures (Contents(), ok) == Initialize(old(Contents()), if migrate then HOLD_SECONDS else 0)
    {
      if ready.Some? {
        return false;
      }
      ready := Some(now / 1000 + if migrate then HOLD_SECONDS else 0);
      return true;
    }
  }
}
