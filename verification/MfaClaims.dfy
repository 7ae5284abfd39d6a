/** `prepare_mfa` as many concurrent verifications run it: the signed challenge is checked,
    later claimed once, and for an authenticator code the time step is matched and later
    claimed once. Claims expire, the store may be lost and migrated. `delay` bounds the
    milliseconds between a check and its claim. */
module MfaClaims {
  import opened Basics
  import opened MfaStore

  datatype Challenge = Challenge(user: nat, auth: nat, issued: int)

  /** The device a verification used: an authenticator factor, or a security key. */
  datatype Device = Totp(factor: nat) | SecurityKey

  datatype Stage =
    | Checked(at: int)                // challenge valid at `at`, its claim call outstanding
    | Claimed                         // challenge claimed, code not matched yet
    | Matched(step: int, at: int)     // code matched `step` at `at`, its claim call outstanding
    | Accepted(at: int, code: Option<int>)  // `code`: the time step of an authenticator code
    | Rejected

  datatype Attempt = Attempt(challenge: nat, device: Device, stage: Stage)

  /** History of one successful claim. */
  datatype Taking = Taking(owner: nat, at: int)

  datatype System = System(
    vault: Vault,
    users: map<nat, nat>,             // user to current password hash
    hashes: set<nat>,                 // password hashes ever in use
    factors: map<nat, nat>,           // authenticator factor to its user
    factorIds: set<nat>,              // factors ever in use
    challenges: map<nat, Challenge>,
    attempts: map<nat, Attempt>,
    takings: map<ClaimKey, Taking>)   // the last successful claim of each key

  datatype Action =
    | SetUser(user: nat, auth: nat)                    // new user, or a password change
    | DropUser(user: nat)
    | AddFactor(factor: nat, user: nat)
    | DropFactor(factor: nat)
    | Issue(id: nat, user: nat)
    | Check(id: nat, challenge: nat, device: Device)
    | ClaimChallenge(id: nat, lost: bool)              // `lost`: claimed, but the reply never arrives
    | Match(id: nat, step: int)
    | ClaimStep(id: nat, lost: bool)
    | GiveUp(id: nat)
    | Pass(milliseconds: nat)
    | LoseStore
    | Migrate
    | Fresh

  function Init(now: nat): System {
    System(Vault(now, None, map[]), map[], {}, map[], {}, map[], map[], map[])
  }

  function Key(s: System, id: nat): ClaimKey
    requires id in s.attempts
  {
    ChallengeUsed(s.attempts[id].challenge)
  }

  predicate Pending(a: Attempt) { !a.stage.Accepted? && !a.stage.Rejected? }

  /** The challenge's user still has the password it was issued under. */
  predicate Alive(s: System, c: Challenge) {
    c.user in s.users && s.users[c.user] == c.auth
  }

  predicate Enabled(s: System, a: Action, delay: nat) {
    match a
    case SetUser(_, auth) => auth !in s.hashes
    case DropUser(_) => true
    case AddFactor(f, user) => f !in s.factorIds && user in s.users
    case DropFactor(_) => true
    case Issue(id, user) => id !in s.challenges && user in s.users
    case Check(id, challenge, device) =>
      && id !in s.attempts && challenge in s.challenges && Alive(s, s.challenges[challenge])
      && (device.Totp? ==> device.factor in s.factors && s.factors[device.factor] == s.challenges[challenge].user)
      && s.vault.now - 1000 * s.challenges[challenge].issued <= 1000 * CHALLENGE_SECONDS
    case ClaimChallenge(id, _) =>
      id in s.attempts && s.attempts[id].stage.Checked? && s.vault.now - s.attempts[id].stage.at <= delay
    case Match(id, step) =>
      && id in s.attempts && s.attempts[id].stage.Claimed? && s.attempts[id].device.Totp?
      && (step == s.vault.now / 1000 / 30 || step == s.vault.now / 1000 / 30 - 1)
    case ClaimStep(id, _) =>
      && id in s.attempts && s.attempts[id].stage.Matched? && s.attempts[id].device.Totp?
      && s.vault.now - s.attempts[id].stage.at <= delay
    case GiveUp(id) => id in s.attempts && Pending(s.attempts[id])
    case Pass(_) => true
    case LoseStore => true
    case Migrate => s.vault.ready.None?
    case Fresh => s.vault.ready.None? && s.users == map[] && forall i :: i in s.attempts ==> !Pending(s.attempts[i])
  }

  function To(s: System, id: nat, stage: Stage): System
    requires id in s.attempts
  {
    s.(attempts := s.attempts[id := s.attempts[id].(stage := stage)])
  }

  /** One `_cache_add` by attempt `id`; on success the history remembers it. */
  function Take(s: System, id: nat, k: ClaimKey, lost: bool, next: Stage): System
    requires id in s.attempts
  {
    var (vault, claimed) := CacheAdd(s.vault, k);
    if claimed == Some(true) then
      To(s, id, if lost then Rejected else next).(vault := vault, takings := s.takings[k := Taking(id, s.vault.now)])
    else To(s, id, Rejected).(vault := vault)
  }

  function Do(s: System, a: Action, delay: nat): System
    requires Enabled(s, a, delay)
  {
    match a
    case SetUser(user, auth) => s.(users := s.users[user := auth], hashes := s.hashes + {auth})
    case DropUser(user) =>
      s.(users := s.users - {user}, factors := map f | f in s.factors && s.factors[f] != user :: s.factors[f])
    case AddFactor(f, user) => s.(factors := s.factors[f := user], factorIds := s.factorIds + {f})
    case DropFactor(f) => s.(factors := s.factors - {f})
    case Issue(id, user) =>
      s.(challenges := s.challenges[id := Challenge(user, s.users[user], s.vault.now / 1000)])
    case Check(id, challenge, device) =>
      s.(attempts := s.attempts[id := Attempt(challenge, device, Checked(s.vault.now))])
    case ClaimChallenge(id, lost) =>
      Take(s, id, Key(s, id), lost, if s.attempts[id].device.Totp? then Claimed else Accepted(s.vault.now, None))
    case Match(id, step) => To(s, id, Matched(step, s.vault.now))
    case ClaimStep(id, lost) =>
      Take(s, id, TotpUsed(s.attempts[id].device.factor, s.attempts[id].stage.step), lost,
           Accepted(s.vault.now, Some(s.attempts[id].stage.step)))
    case GiveUp(id) => To(s, id, Rejected)
    case Pass(d) => s.(vault := s.vault.(now := s.vault.now + d))
    case LoseStore => s.(vault := Vault(s.vault.now, None, map[]))
    case Migrate => s.(vault := Initialize(s.vault, HOLD_SECONDS).0)
    case Fresh => s.(vault := Initialize(s.vault, 0).0)
  }

  ghost predicate Reaches(s: System, actions: seq<Action>, t: System, delay: nat)
    decreases |actions|
  {
    if actions == [] then s == t
    else Enabled(s, actions[0], delay) && Reaches(Do(s, actions[0], delay), actions[1..], t, delay)
  }

  ghost predicate Reachable(t: System, delay: nat) {
    exists now: nat, actions: seq<Action> :: Reaches(Init(now), actions, t, delay)
  }

  // ---------------------------------------------------------------------- invariant

  /** The moment after which no attempt can claim `k` any more. */
  function Deadline(s: System, k: ClaimKey, delay: nat): int
    requires k.ChallengeUsed? ==> k.challenge in s.challenges
  {
    match k
    case ChallengeUsed(c) => 1000 * (s.challenges[c].issued + CHALLENGE_SECONDS) + delay
    case TotpUsed(_, step) => 30000 * step + 59999 + delay
  }

  /** The earliest moment at which `k` can have been claimed. */
  function Birth(s: System, k: ClaimKey): int
    requires k.ChallengeUsed? ==> k.challenge in s.challenges
  {
    match k
    case ChallengeUsed(c) => 1000 * s.challenges[c].issued
    case TotpUsed(_, step) => 30000 * step
  }

  predicate Known(s: System, k: ClaimKey) {
    match k
    case ChallengeUsed(c) => c in s.challenges
    case TotpUsed(f, _) => f in s.factorIds
  }

  /** The key an attempt is about to claim, if it is about to claim one. */
  predicate About(a: Attempt, k: ClaimKey) {
    || (a.stage.Checked? && k == ChallengeUsed(a.challenge))
    || (a.device.Totp? && (a.stage.Checked? || a.stage.Claimed?) && k.TotpUsed? && k.factor == a.device.factor)
    || (a.device.Totp? && a.stage.Matched? && k == TotpUsed(a.device.factor, a.stage.step))
  }

  /** Nobody can come to claim `k` again: its user or factor is gone and nothing is pending. */
  ghost predicate Dead(s: System, k: ClaimKey) {
    && (forall i :: i in s.attempts ==> !About(s.attempts[i], k))
    && match k
       case ChallengeUsed(c) => c in s.challenges && forall u :: u in s.users ==> s.users[u] != s.challenges[c].auth
       case TotpUsed(f, _) => f !in s.factors
  }

  /** Why a key that was claimed once cannot be claimed again. */
  ghost predicate Barred(s: System, k: ClaimKey, delay: nat)
    requires Known(s, k)
  {
    || (k in s.vault.claims && Deadline(s, k, delay) <= s.vault.claims[k])
    || s.vault.ready.None?
    || Deadline(s, k, delay) < 1000 * s.vault.ready.value
    || Dead(s, k)
  }

  ghost predicate Facts(s: System) {
    && 0 <= s.vault.now
    && (s.vault.ready.None? ==> s.vault.claims == map[])
    && (forall u :: u in s.users ==> s.users[u] in s.hashes)
    && (forall f :: f in s.factors ==> f in s.factorIds && s.factors[f] in s.users)
    && (forall c :: c in s.challenges ==> s.challenges[c].auth in s.hashes && 1000 * s.challenges[c].issued <= s.vault.now)
    && (forall i :: i in s.attempts ==> s.attempts[i].challenge in s.challenges)
    && (forall i :: i in s.attempts && s.attempts[i].device.Totp? ==> s.attempts[i].device.factor in s.factorIds)
  }

  /** Checks in flight are in time for their claims. */
  ghost predicate Timely(s: System)
    requires Facts(s)
  {
    && (forall i :: i in s.attempts && s.attempts[i].stage.Checked? ==>
          s.attempts[i].stage.at <= 1000 * (s.challenges[s.attempts[i].challenge].issued + CHALLENGE_SECONDS))
    && (forall i :: i in s.attempts && s.attempts[i].stage.Matched? ==>
          30000 * s.attempts[i].stage.step <= s.attempts[i].stage.at < 30000 * s.attempts[i].stage.step + 60000
          && s.attempts[i].stage.at <= s.vault.now)
  }

  /** The delays for which the lifetime of a claim and the hold are long enough for its key. */
  predicate Covered(k: ClaimKey, delay: nat) { delay < if k.ChallengeUsed? then 60000 else 60002 }

  ghost predicate Owned(s: System, k: ClaimKey, id: nat) {
    k in s.takings && s.takings[k].owner == id
  }

  /** Past its claim, an attempt is the owner of the key. */
  ghost predicate Owners(s: System, delay: nat) {
    && (delay < 60000 ==> forall i ::
          i in s.attempts && (s.attempts[i].stage.Claimed? || s.attempts[i].stage.Matched? || s.attempts[i].stage.Accepted?) ==>
          Owned(s, ChallengeUsed(s.attempts[i].challenge), i))
    && (delay < 60002 ==> forall i :: i in s.attempts && s.attempts[i].stage.Accepted? && s.attempts[i].device.Totp? ==>
          s.attempts[i].stage.code.Some? && Owned(s, TotpUsed(s.attempts[i].device.factor, s.attempts[i].stage.code.value), i))
  }

  ghost predicate Bars(s: System, delay: nat)
    requires Facts(s)
  {
    forall k :: k in s.takings && Covered(k, delay) ==>
      Known(s, k) && Birth(s, k) <= s.takings[k].at <= s.vault.now && Barred(s, k, delay)
  }

  ghost predicate Inv(s: System, delay: nat) {
    Facts(s) && Timely(s) && Owners(s, delay) && Bars(s, delay)
  }

  // ------------------------------------------------------------------- preservation

  /** Where a claim can succeed, the key was never claimed before. */
  lemma NotTakenBefore(s: System, k: ClaimKey, id: nat, delay: nat)
    requires Inv(s, delay) && id in s.attempts && About(s.attempts[id], k) && Known(s, k)
    requires s.vault.now <= Deadline(s, k, delay) && Open(s.vault) && !Taken(s.vault, k) && Covered(k, delay)
    ensures k !in s.takings
  {
  }

  /** A successful claim bars its key from then on, for any delay it covers. */
  lemma TakeBars(s: System, k: ClaimKey, delay: nat)
    requires Facts(s) && Known(s, k) && Birth(s, k) <= s.vault.now && Covered(k, delay)
    ensures Deadline(s, k, delay) <= s.vault.now + 1000 * ClaimSeconds(k)
  {
  }

  /** After a migration the hold outlasts everything claimed before. */
  lemma MigrateBars(s: System, k: ClaimKey, delay: nat)
    requires Facts(s) && Known(s, k) && Covered(k, delay)
    requires Birth(s, k) <= s.vault.now
    ensures Deadline(s, k, delay) < 1000 * (s.vault.now / 1000 + HOLD_SECONDS)
  {
  }

  lemma FactsTo(s: System, id: nat, stage: Stage)
    requires Facts(s) && id in s.attempts
    ensures Facts(To(s, id, stage))
  {
  }

  lemma FactsVault(s: System, vault: Vault)
    requires Facts(s) && s.vault.now <= vault.now && (vault.ready.None? ==> vault.claims == map[])
    ensures Facts(s.(vault := vault))
  {
  }

  lemma FactsTake(s: System, id: nat, k: ClaimKey, lost: bool, next: Stage)
    requires Facts(s) && id in s.attempts
    ensures Facts(Take(s, id, k, lost, next))
  {
    var t := Take(s, id, k, lost, next);
    FactsTo(s, id, t.attempts[id].stage);
    FactsVault(To(s, id, t.attempts[id].stage), t.vault);
  }

  lemma FactsKept(s: System, a: Action, delay: nat)
    requires Facts(s) && Enabled(s, a, delay)
    ensures Facts(Do(s, a, delay))
  {
    var t := Do(s, a, delay);
    match a
    case ClaimChallenge(id, lost) =>
      FactsTake(s, id, Key(s, id), lost, if s.attempts[id].device.Totp? then Claimed else Accepted(s.vault.now, None));
    case ClaimStep(id, lost) =>
      FactsTake(s, id, TotpUsed(s.attempts[id].device.factor, s.attempts[id].stage.step), lost,
                Accepted(s.vault.now, Some(s.attempts[id].stage.step)));
    case Match(id, step) => FactsTo(s, id, Matched(step, s.vault.now));
    case GiveUp(id) => FactsTo(s, id, Rejected);
    case Pass(_) => FactsVault(s, t.vault);
    case LoseStore => FactsVault(s, t.vault);
    case Migrate => FactsVault(s, t.vault);
    case Fresh => FactsVault(s, t.vault);
    case _ =>
  }

  /** Only a check and a match start the clock of a claim. */
  lemma TimelyKept(s: System, a: Action, delay: nat)
    requires Facts(s) && Timely(s) && Enabled(s, a, delay) && Facts(Do(s, a, delay))
    ensures Timely(Do(s, a, delay))
  {
    if a.Check? {
      CheckTimely(s, a, delay);
    } else {
      Carried(s, a, delay);
      CarriedTimely(s, Do(s, a, delay));
    }
  }

  /** Outstanding claims of `t` were outstanding in `s`, or were matched just now. */
  ghost predicate Carries(s: System, t: System) {
    && s.vault.now <= t.vault.now
    && (forall c :: c in s.challenges ==> c in t.challenges && t.challenges[c] == s.challenges[c])
    && (forall i :: i in t.attempts && t.attempts[i].stage.Checked? ==> i in s.attempts && t.attempts[i] == s.attempts[i])
    && (forall i :: i in t.attempts && t.attempts[i].stage.Matched? && !(i in s.attempts && t.attempts[i] == s.attempts[i]) ==>
          var now := t.vault.now;
          t.attempts[i].stage.at == now && (t.attempts[i].stage.step == now / 1000 / 30 || t.attempts[i].stage.step == now / 1000 / 30 - 1))
  }

  lemma CarriedTo(s: System, t: System, id: nat)
    requires id in s.attempts && t.attempts.Keys == s.attempts.Keys && t.challenges == s.challenges && t.vault.now == s.vault.now
    requires forall i :: i in s.attempts && i != id ==> t.attempts[i] == s.attempts[i]
    requires !t.attempts[id].stage.Checked? && !t.attempts[id].stage.Matched?
    ensures Carries(s, t)
  {
  }

  lemma CarriedSame(s: System, t: System)
    requires t.attempts == s.attempts && s.vault.now <= t.vault.now
    requires forall c :: c in s.challenges ==> c in t.challenges && t.challenges[c] == s.challenges[c]
    ensures Carries(s, t)
  {
  }

  lemma CarriedMatch(s: System, id: nat, step: int, delay: nat)
    requires Enabled(s, Match(id, step), delay)
    ensures Carries(s, Do(s, Match(id, step), delay))
  {
  }

  lemma CarriedClaim(s: System, a: Action, delay: nat)
    requires Enabled(s, a, delay) && (a.ClaimChallenge? || a.ClaimStep? || a.GiveUp?)
    ensures Carries(s, Do(s, a, delay))
  {
    var id := a.id;
    if a.ClaimChallenge? {
      CarriedTake(s, id, Key(s, id), a.lost, if s.attempts[id].device.Totp? then Claimed else Accepted(s.vault.now, None));
    } else if a.ClaimStep? {
      CarriedTake(s, id, TotpUsed(s.attempts[id].device.factor, s.attempts[id].stage.step), a.lost,
                  Accepted(s.vault.now, Some(s.attempts[id].stage.step)));
    } else {
      CarriedTo(s, To(s, id, Rejected), id);
    }
  }

  lemma CarriedTake(s: System, id: nat, k: ClaimKey, lost: bool, next: Stage)
    requires id in s.attempts && (next.Claimed? || next.Accepted?)
    ensures Carries(s, Take(s, id, k, lost, next))
  {
    CarriedTo(s, Take(s, id, k, lost, next), id);
  }

  lemma Carried(s: System, a: Action, delay: nat)
    requires Enabled(s, a, delay) && !a.Check?
    ensures Carries(s, Do(s, a, delay))
  {
    if a.ClaimChallenge? || a.ClaimStep? || a.GiveUp? {
      CarriedClaim(s, a, delay);
    } else if a.Match? {
      CarriedMatch(s, a.id, a.step, delay);
    } else {
      CarriedSame(s, Do(s, a, delay));
    }
  }

  lemma CarriedTimely(s: System, t: System)
    requires Facts(s) && Timely(s) && Facts(t) && Carries(s, t)
    ensures Timely(t)
  {
  }

  lemma CheckTimely(s: System, a: Action, delay: nat)
    requires Facts(s) && Timely(s) && Enabled(s, a, delay) && a.Check? && Facts(Do(s, a, delay))
    ensures Timely(Do(s, a, delay))
  {
  }

  /** The claim calls of one action: which key, and that its time is not up. */
  lemma ClaimInTime(s: System, a: Action, delay: nat) returns (id: nat, k: ClaimKey)
    requires Inv(s, delay) && Enabled(s, a, delay) && (a.ClaimChallenge? || a.ClaimStep?)
    ensures id == a.id && id in s.attempts && About(s.attempts[id], k) && Known(s, k)
    ensures k == if a.ClaimChallenge? then Key(s, id) else TotpUsed(s.attempts[id].device.factor, s.attempts[id].stage.step)
    ensures Birth(s, k) <= s.vault.now <= Deadline(s, k, delay)
    ensures CacheAdd(s.vault, k).1 == Some(true) && Covered(k, delay) ==> k !in s.takings
  {
    id := a.id;
    k := if a.ClaimChallenge? then Key(s, id) else TotpUsed(s.attempts[id].device.factor, s.attempts[id].stage.step);
    if CacheAdd(s.vault, k).1 == Some(true) && Covered(k, delay) { NotTakenBefore(s, k, id, delay); }
  }

  lemma OwnersKept(s: System, a: Action, delay: nat)
    requires Inv(s, delay) && Enabled(s, a, delay)
    ensures Owners(Do(s, a, delay), delay)
  {
    if a.ClaimChallenge? || a.ClaimStep? {
      var id, k := ClaimInTime(s, a, delay);
      var next := if a.ClaimStep? then Accepted(s.vault.now, Some(s.attempts[id].stage.step))
                  else if s.attempts[id].device.Totp? then Claimed
                  else Accepted(s.vault.now, None);
      TakeOwners(s, id, k, a.lost, next, delay);
    }
  }

  lemma TakeOwners(s: System, id: nat, k: ClaimKey, lost: bool, next: Stage, delay: nat)
    requires Facts(s) && Owners(s, delay) && id in s.attempts
    requires CacheAdd(s.vault, k).1 == Some(true) && Covered(k, delay) ==> k !in s.takings
    requires (k == Key(s, id) && s.attempts[id].stage.Checked? && (next.Claimed? || (next.Accepted? && !s.attempts[id].device.Totp?)))
             || (s.attempts[id].stage.Matched? && s.attempts[id].device.Totp?
                 && next == Accepted(s.vault.now, Some(s.attempts[id].stage.step))
                 && k == TotpUsed(s.attempts[id].device.factor, s.attempts[id].stage.step))
    ensures Owners(Take(s, id, k, lost, next), delay)
  {
    var t := Take(s, id, k, lost, next);
    forall j, i | Owned(s, j, i) && Covered(j, delay) ensures Owned(t, j, i) {}
    if CacheAdd(s.vault, k).1 == Some(true) { assert Owned(t, k, id); }
  }

  /** Each action keeps the bar on a key that was claimed before it. */
  lemma BarredKept(s: System, a: Action, k: ClaimKey, delay: nat)
    requires Inv(s, delay) && Enabled(s, a, delay) && Covered(k, delay) && k in s.takings
    ensures Known(Do(s, a, delay), k) && Barred(Do(s, a, delay), k, delay)
  {
    var t := Do(s, a, delay);
    if a.Migrate? {
      MigrateBars(s, k, delay);
    } else if a.Fresh? {
      assert Dead(t, k);
    } else if a.ClaimChallenge? || a.ClaimStep? {
      var id, j := ClaimInTime(s, a, delay);
      DeadKept(s, a, k, delay);
    } else if a.LoseStore? {
    } else {
      DeadKept(s, a, k, delay);
    }
  }

  /** An attempt that claims, matches or gives up comes no nearer to another key. */
  lemma AboutMover(s: System, a: Action, k: ClaimKey, delay: nat)
    requires Enabled(s, a, delay) && (a.ClaimChallenge? || a.ClaimStep? || a.GiveUp? || a.Match?)
    ensures a.id in Do(s, a, delay).attempts && (About(Do(s, a, delay).attempts[a.id], k) ==> About(s.attempts[a.id], k))
  {
  }

  lemma Unmoved(s: System, a: Action, i: nat, delay: nat)
    requires Enabled(s, a, delay) && i in Do(s, a, delay).attempts
    requires !((a.ClaimChallenge? || a.ClaimStep? || a.GiveUp? || a.Match? || a.Check?) && i == a.id)
    ensures i in s.attempts && Do(s, a, delay).attempts[i] == s.attempts[i]
  {
  }

  /** No action but a check brings an attempt towards a key it was not already about. */
  lemma AboutBefore(s: System, a: Action, k: ClaimKey, i: nat, delay: nat)
    requires Enabled(s, a, delay) && i in Do(s, a, delay).attempts && About(Do(s, a, delay).attempts[i], k)
    ensures (i in s.attempts && About(s.attempts[i], k)) || (a.Check? && i == a.id)
  {
    if (a.ClaimChallenge? || a.ClaimStep? || a.GiveUp? || a.Match?) && i == a.id {
      AboutMover(s, a, k, delay);
    } else if !(a.Check? && i == a.id) {
      Unmoved(s, a, i, delay);
    }
  }

  /** Neither users nor factors come back under an old password hash or an old identity. */
  lemma GoneStays(s: System, a: Action, k: ClaimKey, delay: nat)
    requires Facts(s) && Enabled(s, a, delay) && Known(s, k)
    ensures
      var t := Do(s, a, delay);
      match k
      case ChallengeUsed(c) =>
        c in t.challenges && t.challenges[c] == s.challenges[c]
        && ((forall u :: u in s.users ==> s.users[u] != s.challenges[c].auth) ==>
            forall u :: u in t.users ==> t.users[u] != t.challenges[c].auth)
      case TotpUsed(f, _) => f !in s.factors ==> f !in t.factors
  {
  }

  lemma DeadKept(s: System, a: Action, k: ClaimKey, delay: nat)
    requires Facts(s) && Enabled(s, a, delay) && Known(s, k)
    ensures Dead(s, k) ==> Dead(Do(s, a, delay), k)
  {
    if Dead(s, k) {
      var t := Do(s, a, delay);
      GoneStays(s, a, k, delay);
      forall i | i in t.attempts ensures !About(t.attempts[i], k) {
        if About(t.attempts[i], k) { AboutBefore(s, a, k, i, delay); }
      }
    }
  }

  lemma BarsKept(s: System, a: Action, delay: nat)
    requires Inv(s, delay) && Enabled(s, a, delay) && Facts(Do(s, a, delay))
    ensures Bars(Do(s, a, delay), delay)
  {
    var t := Do(s, a, delay);
    forall k | k in t.takings && Covered(k, delay)
      ensures Known(t, k) && Birth(t, k) <= t.takings[k].at <= t.vault.now && Barred(t, k, delay)
    {
      if k in s.takings { OldBar(s, a, k, delay); } else { NewBar(s, a, k, delay); }
    }
  }

  lemma OldBar(s: System, a: Action, k: ClaimKey, delay: nat)
    requires Inv(s, delay) && Enabled(s, a, delay) && Covered(k, delay) && k in s.takings
    ensures
      var t := Do(s, a, delay);
      k in t.takings && Known(t, k) && Birth(t, k) <= t.takings[k].at <= t.vault.now && Barred(t, k, delay)
  {
    BarredKept(s, a, k, delay);
    if a.ClaimChallenge? || a.ClaimStep? { var id, j := ClaimInTime(s, a, delay); }
  }

  lemma NewBar(s: System, a: Action, k: ClaimKey, delay: nat)
    requires Inv(s, delay) && Enabled(s, a, delay) && Covered(k, delay) && k !in s.takings && k in Do(s, a, delay).takings
    ensures
      var t := Do(s, a, delay);
      Known(t, k) && Birth(t, k) <= t.takings[k].at <= t.vault.now && Barred(t, k, delay)
  {
    if a.ClaimChallenge? || a.ClaimStep? {
      var id, j := ClaimInTime(s, a, delay);
      TakeBars(s, j, delay);
    }
  }

  lemma StepKept(s: System, a: Action, delay: nat)
    requires Inv(s, delay) && Enabled(s, a, delay)
    ensures Inv(Do(s, a, delay), delay)
  {
    FactsKept(s, a, delay);
    TimelyKept(s, a, delay);
    OwnersKept(s, a, delay);
    BarsKept(s, a, delay);
  }

  lemma {:induction false} RunKept(s: System, actions: seq<Action>, t: System, delay: nat)
    requires Inv(s, delay) && Reaches(s, actions, t, delay)
    ensures Inv(t, delay)
    decreases |actions|
  {
    if actions != [] {
      StepKept(s, actions[0], delay);
      RunKept(Do(s, actions[0], delay), actions[1..], t, delay);
    }
  }

  lemma ReachableInv(t: System, delay: nat)
    requires Reachable(t, delay)
    ensures Inv(t, delay)
  {
    var now: nat, actions: seq<Action> :| Reaches(Init(now), actions, t, delay);
    RunKept(Init(now), actions, t, delay);
  }

  // ------------------------------------------------------ one uninterrupted request

  /** The steps of a verification that nothing interrupts: it checks a valid challenge and
      makes its claims. `step`: the time step its code matched, if any. */
  function Straight(s: System, id: nat, challenge: nat, device: Device, step: Option<int>): seq<Action> {
    [Check(id, challenge, device), ClaimChallenge(id, false)]
    + if CacheAdd(s.vault, ChallengeUsed(challenge)).1 != Some(true) || device.SecurityKey? then []
      else if step.None? then [GiveUp(id)]
      else [Match(id, step.value), ClaimStep(id, false)]
  }

  function FactorOf(device: Device): Option<nat> { if device.Totp? then Some(device.factor) else None }

  /** Their outcome is `Verify`: the same store, and accepted exactly then. */
  lemma StraightIsVerify(s: System, id: nat, challenge: nat, device: Device, step: Option<int>, delay: nat) returns (t: System)
    requires Enabled(s, Check(id, challenge, device), delay)
    requires step.Some? ==> step.value == s.vault.now / 1000 / 30 || step.value == s.vault.now / 1000 / 30 - 1
    ensures Reaches(s, Straight(s, id, challenge, device, step), t, delay) && id in t.attempts
    ensures (t.vault, t.attempts[id].stage.Accepted?) == Verify(s.vault, true, challenge, FactorOf(device), step)
  {
    var u := Do(s, Check(id, challenge, device), delay);
    var v := Do(u, ClaimChallenge(id, false), delay);
    var rest := Straight(s, id, challenge, device, step)[2..];
    t := AfterClaim(v, id, step, delay);
    Before(u, ClaimChallenge(id, false), rest, t, delay);
    Before(s, Check(id, challenge, device), [ClaimChallenge(id, false)] + rest, t, delay);
    assert Straight(s, id, challenge, device, step) == [Check(id, challenge, device)] + ([ClaimChallenge(id, false)] + rest);
  }

  /** From the claim of the challenge on. */
  lemma AfterClaim(v: System, id: nat, step: Option<int>, delay: nat) returns (t: System)
    requires id in v.attempts
    requires v.attempts[id].stage.Rejected? || v.attempts[id].stage.Accepted? || (v.attempts[id].stage.Claimed? && v.attempts[id].device.Totp?)
    requires step.Some? ==> step.value == v.vault.now / 1000 / 30 || step.value == v.vault.now / 1000 / 30 - 1
    ensures Reaches(v, if !v.attempts[id].stage.Claimed? then [] else if step.None? then [GiveUp(id)] else [Match(id, step.value), ClaimStep(id, false)], t, delay)
    ensures id in t.attempts
    ensures
      if !v.attempts[id].stage.Claimed? then t == v
      else if step.None? then t.vault == v.vault && t.attempts[id].stage.Rejected?
      else
        var (vault, claimed) := CacheAdd(v.vault, TotpUsed(v.attempts[id].device.factor, step.value));
        t.vault == vault && (t.attempts[id].stage.Accepted? <==> claimed == Some(true))
  {
    if !v.attempts[id].stage.Claimed? {
      t := v;
    } else if step.None? {
      t := Do(v, GiveUp(id), delay);
      Before(v, GiveUp(id), [], t, delay);
    } else {
      var w := Do(v, Match(id, step.value), delay);
      t := Do(w, ClaimStep(id, false), delay);
      Before(w, ClaimStep(id, false), [], t, delay);
      Before(v, Match(id, step.value), [ClaimStep(id, false)], t, delay);
      assert [Match(id, step.value)] + [ClaimStep(id, false)] == [Match(id, step.value), ClaimStep(id, false)];
    }
  }

  // ------------------------------------------------------------------- main results

  /** Over every run, store losses and migrations included, no challenge is accepted twice. */
  lemma ChallengeOnce(t: System, delay: nat, i: nat, j: nat)
    requires Reachable(t, delay) && delay < 60000
    requires i in t.attempts && t.attempts[i].stage.Accepted? && j in t.attempts && t.attempts[j].stage.Accepted?
    requires t.attempts[i].challenge == t.attempts[j].challenge
    ensures i == j
  {
    ReachableInv(t, delay);
  }

  /** Section 5.2 of RFC 6238: for each factor and time step at most one login is accepted.
      `MfaLateCode` shows that this bound, too, is exact. */
  lemma StepOnce(t: System, delay: nat, i: nat, j: nat)
    requires Reachable(t, delay) && delay < 60002
    requires i in t.attempts && t.attempts[i].stage.Accepted? && t.attempts[i].device.Totp?
    requires j in t.attempts && t.attempts[j].stage.Accepted? && t.attempts[j].device == t.attempts[i].device
    requires t.attempts[i].stage.code == t.attempts[j].stage.code
    ensures i == j
  {
    ReachableInv(t, delay);
  }

  /** The bound is exact: with a minute or more between check and claim there is a run, with
      one store loss and migration, that accepts one challenge twice. */
  lemma MinuteIsTooLong(delay: nat)
    requires delay >= 60000
    ensures exists t ::
      Reachable(t, delay) && 0 in t.attempts && 1 in t.attempts
      && t.attempts[0].stage.Accepted? && t.attempts[1].stage.Accepted? && t.attempts[0].challenge == t.attempts[1].challenge
  {
    FromStage(0, delay);
    assert Plot(0) == Init(0);
    assert Plot(11).attempts[0].stage.Accepted? && Plot(11).attempts[1].stage.Accepted?;
  }

  /** The twelve states of that run, and its actions. */
  function Plot(k: nat): System {
    System(
      if k == 0 then Vault(0, None, map[])
      else if k <= 4 then Vault(0, Some(0), map[])
      else if k == 5 then Vault(0, Some(0), map[ChallengeUsed(0) := 360000])
      else if k == 6 then Vault(0, None, map[])
      else if k == 7 then Vault(0, Some(360), map[])
      else if k <= 9 then Vault(300000, Some(360), map[])
      else if k == 10 then Vault(360000, Some(360), map[])
      else Vault(360000, Some(360), map[ChallengeUsed(0) := 720000]),
      if k < 2 then map[] else map[0 := 0],
      if k < 2 then {} else {0},
      map[], {},
      if k < 3 then map[] else map[0 := Challenge(0, 0, 0)],
      if k < 4 then map[]
      else if k == 4 then map[0 := Plotted(Checked(0))]
      else if k < 9 then map[0 := Plotted(Accepted(0, None))]
      else if k < 11 then map[0 := Plotted(Accepted(0, None)), 1 := Plotted(Checked(300000))]
      else map[0 := Plotted(Accepted(0, None)), 1 := Plotted(Accepted(360000, None))],
      if k < 5 then map[]
      else if k < 11 then map[ChallengeUsed(0) := Taking(0, 0)]
      else map[ChallengeUsed(0) := Taking(1, 360000)])
  }

  function Plotted(stage: Stage): Attempt { Attempt(0, SecurityKey, stage) }

  function Script(k: nat): Action {
    match k
    case 0 => Fresh
    case 1 => SetUser(0, 0)
    case 2 => Issue(0, 0)
    case 3 => Check(0, 0, SecurityKey)
    case 4 => ClaimChallenge(0, false)
    case 5 => LoseStore
    case 6 => Migrate
    case 7 => Pass(300000)
    case 8 => Check(1, 0, SecurityKey)
    case 9 => Pass(60000)
    case _ => ClaimChallenge(1, false)
  }

  lemma EarlyStage(k: nat, delay: nat)
    requires k < 5
    ensures Enabled(Plot(k), Script(k), delay) && Do(Plot(k), Script(k), delay) == Plot(k + 1)
  {
  }

  lemma LateStage(k: nat, delay: nat)
    requires 5 <= k < 11 && delay >= 60000
    ensures Enabled(Plot(k), Script(k), delay) && Do(Plot(k), Script(k), delay) == Plot(k + 1)
  {
  }

  lemma {:induction false} FromStage(k: nat, delay: nat)
    requires k <= 11 && delay >= 60000
    ensures exists actions: seq<Action> :: Reaches(Plot(k), actions, Plot(11), delay)
    decreases 11 - k
  {
    if k == 11 {
      assert Reaches(Plot(11), [], Plot(11), delay);
    } else {
      if k < 5 { EarlyStage(k, delay); } else { LateStage(k, delay); }
      FromStage(k + 1, delay);
      var rest: seq<Action> :| Reaches(Plot(k + 1), rest, Plot(11), delay);
      Before(Plot(k), Script(k), rest, Plot(11), delay);
    }
  }

  lemma Before(s: System, a: Action, rest: seq<Action>, t: System, delay: nat)
    requires Enabled(s, a, delay) && Reaches(Do(s, a, delay), rest, t, delay)
    ensures Reaches(s, [a] + rest, t, delay)
  {
    assert ([a] + rest)[1..] == rest;
  }
}
