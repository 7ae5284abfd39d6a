/** The bound of `MfaClaims.StepOnce` is exact: a claim of an authenticator step lives for
    120 s, the step can be matched up to 59.999 s after it began, so a claim call that takes
    60.002 s finds the first claim expired. No store loss is needed. */
module MfaLateCode {
  import opened Basics
  import opened MfaStore
  import opened MfaClaims

  function Clock(k: nat): int { if k < 10 then 0 else if k < 14 then 59999 else 120001 }

  function Claims(k: nat): map<ClaimKey, int> {
    if k < 7 then map[]
    else if k < 9 then map[ChallengeUsed(0) := 360000]
    else if k < 12 then map[ChallengeUsed(0) := 360000, TotpUsed(0, 0) := 120000]
    else if k < 15 then map[ChallengeUsed(0) := 360000, TotpUsed(0, 0) := 120000, ChallengeUsed(1) := 419999]
    else map[ChallengeUsed(0) := 360000, TotpUsed(0, 0) := 240001, ChallengeUsed(1) := 419999]
  }

  function Takings(k: nat): map<ClaimKey, Taking> {
    if k < 7 then map[]
    else if k < 9 then map[ChallengeUsed(0) := Taking(0, 0)]
    else if k < 12 then map[ChallengeUsed(0) := Taking(0, 0), TotpUsed(0, 0) := Taking(0, 0)]
    else if k < 15 then map[ChallengeUsed(0) := Taking(0, 0), TotpUsed(0, 0) := Taking(0, 0), ChallengeUsed(1) := Taking(1, 59999)]
    else map[ChallengeUsed(0) := Taking(0, 0), TotpUsed(0, 0) := Taking(1, 120001), ChallengeUsed(1) := Taking(1, 59999)]
  }

  function First(k: nat): Attempt {
    Attempt(0, Totp(0), if k < 7 then Checked(0) else if k < 8 then Claimed else if k < 9 then Matched(0, 0) else Accepted(0, Some(0)))
  }

  function Second(k: nat): Attempt {
    Attempt(1, Totp(0),
      if k < 12 then Checked(59999) else if k < 13 then Claimed else if k < 15 then Matched(0, 59999) else Accepted(120001, Some(0)))
  }

  /** The states of the run, and its actions. */
  function Plot(k: nat): System {
    System(
      Vault(Clock(k), if k == 0 then None else Some(0), Claims(k)),
      if k < 2 then map[] else map[0 := 0], if k < 2 then {} else {0},
      if k < 3 then map[] else map[0 := 0], if k < 3 then {} else {0},
      if k < 4 then map[]
      else if k < 5 then map[0 := Challenge(0, 0, 0)]
      else map[0 := Challenge(0, 0, 0), 1 := Challenge(0, 0, 0)],
      if k < 6 then map[] else if k < 11 then map[0 := First(k)] else map[0 := First(k), 1 := Second(k)],
      Takings(k))
  }

  function Script(k: nat): Action {
    match k
    case 0 => Fresh
    case 1 => SetUser(0, 0)
    case 2 => AddFactor(0, 0)
    case 3 => Issue(0, 0)
    case 4 => Issue(1, 0)
    case 5 => Check(0, 0, Totp(0))
    case 6 => ClaimChallenge(0, false)
    case 7 => Match(0, 0)
    case 8 => ClaimStep(0, false)
    case 9 => Pass(59999)
    case 10 => Check(1, 1, Totp(0))
    case 11 => ClaimChallenge(1, false)
    case 12 => Match(1, 0)
    case 13 => Pass(60002)
    case _ => ClaimStep(1, false)
  }

  ghost predicate Follows(k: nat, delay: nat) {
    Enabled(Plot(k), Script(k), delay) && Do(Plot(k), Script(k), delay) == Plot(k + 1)
  }

  lemma SetupStage(k: nat, delay: nat)
    requires k < 6
    ensures Follows(k, delay)
  {
  }

  lemma ChallengeStage(k: nat, delay: nat)
    requires k == 6 || k == 11
    ensures Follows(k, delay)
  {
    var t := Do(Plot(k), Script(k), delay);
    assert t.vault == Plot(k + 1).vault && t.attempts == Plot(k + 1).attempts && t.takings == Plot(k + 1).takings;
  }

  lemma MatchStage(k: nat, delay: nat)
    requires k == 7 || k == 12
    ensures Follows(k, delay)
  {
    var t := Do(Plot(k), Script(k), delay);
    assert t.vault == Plot(k + 1).vault && t.attempts == Plot(k + 1).attempts && t.takings == Plot(k + 1).takings;
  }

  lemma CodeStage(k: nat, delay: nat)
    requires k == 8
    ensures Follows(k, delay)
  {
    var t := Do(Plot(k), Script(k), delay);
    assert t.vault == Plot(k + 1).vault && t.attempts == Plot(k + 1).attempts && t.takings == Plot(k + 1).takings;
  }

  lemma OtherStage(k: nat, delay: nat)
    requires k == 9 || k == 10 || k == 13
    ensures Follows(k, delay)
  {
    var t := Do(Plot(k), Script(k), delay);
    assert t.vault == Plot(k + 1).vault && t.attempts == Plot(k + 1).attempts && t.takings == Plot(k + 1).takings;
  }

  /** By then the first claim of the step has expired. */
  lemma ClaimedAnew()
    ensures CacheAdd(Plot(14).vault, TotpUsed(0, 0)) == (Plot(15).vault, Some(true))
  {
    assert Claims(14)[TotpUsed(0, 0) := 240001] == Claims(15);
  }

  lemma LastStage(delay: nat)
    requires delay >= 60002
    ensures Follows(14, delay)
  {
    ClaimedAnew();
    assert Takings(14)[TotpUsed(0, 0) := Taking(1, 120001)] == Takings(15);
    var t := Do(Plot(14), Script(14), delay);
    assert t.vault == Plot(15).vault && t.attempts == Plot(15).attempts && t.takings == Plot(15).takings;
  }

  lemma {:induction false} FromStage(k: nat, delay: nat)
    requires k <= 15 && delay >= 60002
    ensures exists actions: seq<Action> :: Reaches(Plot(k), actions, Plot(15), delay)
    decreases 15 - k
  {
    if k == 15 {
      assert Reaches(Plot(15), [], Plot(15), delay);
    } else {
      if k < 6 {
        SetupStage(k, delay);
      } else if k == 6 || k == 11 {
        ChallengeStage(k, delay);
      } else if k == 7 || k == 12 {
        MatchStage(k, delay);
      } else if k == 8 {
        CodeStage(k, delay);
      } else if k < 14 {
        OtherStage(k, delay);
      } else {
        LastStage(delay);
      }
      FromStage(k + 1, delay);
      var rest: seq<Action> :| Reaches(Plot(k + 1), rest, Plot(15), delay);
      Before(Plot(k), Script(k), rest, Plot(15), delay);
    }
  }

  /** For every delay of 60.002 s or more some run accepts one code of one factor twice. */
  lemma CodeTwice(delay: nat)
    requires delay >= 60002
    ensures exists t ::
      && Reachable(t, delay) && 0 in t.attempts && 1 in t.attempts
      && t.attempts[0].stage.Accepted? && t.attempts[1].stage.Accepted?
      && t.attempts[0].device == t.attempts[1].device == Totp(0)
      && t.attempts[0].stage.code == t.attempts[1].stage.code == Some(0)
  {
    FromStage(0, delay);
    assert Plot(0) == Init(0);
    var t := Plot(15);
    assert Reachable(t, delay);
    assert t.attempts[0] == First(15) && t.attempts[1] == Second(15);
  }
}
