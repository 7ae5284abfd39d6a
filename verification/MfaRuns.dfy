/** Two runs from the initial state in which a session is verified after another one has
    changed the factors. Sessions 1 and 2 of user 0 are verified for factor 1; then session 2
    fetches the setup page, session 1 adds factor 2, and session 2's page returns. */
module MfaRuns {
  import opened Basics
  import opened MfaSessions
  import opened MfaChanges

  function First(): Proof { Proof(Stamp(0, 0, 0), {1}) }

  function Both(): Proof { Proof(Stamp(0, 0, 0), {1, 2}) }

  function Sessions(k: nat): map<nat, Session> {
    if k == 2 then map[0 := Session(0, None, false, Some(Stamp(0, 0, 0)))]
    else if k < 6 then map[]
    else if k < 9 then map[1 := Session(0, Some(First()), true, None)]
    else if k < 11 then map[1 := Session(0, Some(First()), true, None), 2 := Session(0, Some(First()), true, None)]
    else if k < 12 then map[1 := Session(0, Some(Both()), true, None), 2 := Session(0, Some(First()), true, None)]
    else map[1 := Session(0, Some(Both()), true, None), 2 := Session(0, Some(Both()), true, None)]
  }

  /** The states of the run, and its actions. */
  function Plot(k: nat): System {
    System(0,
      if k == 0 then map[] else map[0 := Account(0, if k < 3 then {} else if k < 11 then {1} else {1, 2}, true)],
      Sessions(k),
      if k == 4 then map[1 := Reading(0, 0, {1})] else if k == 7 then map[2 := Reading(0, 0, {1})] else map[],
      if k == 5 then map[1 := First()] else if k == 8 then map[2 := First()] else map[],
      if k == 10 || k == 11 then map[2 := Page({1}, true, false)] else map[],
      if k < 3 then {} else if k < 11 then {1} else {1, 2},
      if k < 5 then {} else {Stamp(0, 0, 0)})
  }

  function Script(k: nat): Action {
    match k
    case 0 => SetPassword(0, 0)
    case 1 => Enroll(0, 0)
    case 2 => Request(0, Setup(true), true, Adds(1))
    case 3 => Begin(1, 0, 1)
    case 4 => Accept(1)
    case 5 => Complete(1)
    case 6 => Begin(2, 0, 1)
    case 7 => Accept(2)
    case 8 => Complete(2)
    case 9 => OpenPage(2, true)
    case 10 => Request(1, Setup(true), true, Adds(2))
    case _ => ClosePage(2)
  }

  ghost predicate Follows(k: nat) {
    Enabled(Plot(k), Script(k)) && Do(Plot(k), Script(k)) == Plot(k + 1)
  }

  lemma FirstFactorStage()
    ensures Follows(2)
  {
    var s, t := Plot(2), Do(Plot(2), Script(2));
    assert Enrolling(s, 0) && Gate(s, 0, Setup(true), true).Reached?;
    var none: set<nat> := {};
    assert none + {1} == {1};
    assert t.accounts == Plot(3).accounts && t.sessions == Plot(3).sessions && t.factorIds == Plot(3).factorIds;
  }

  lemma SecondFactorStage()
    ensures Follows(10)
  {
    var s, t := Plot(10), Do(Plot(10), Script(10));
    assert Verified(s, 1) && Gate(s, 1, Setup(true), true).Reached?;
    assert {1} + {2} == {1, 2};
    assert t.accounts == Plot(11).accounts && t.sessions == Plot(11).sessions && t.factorIds == Plot(11).factorIds;
  }

  lemma SignInStage(k: nat)
    requires k < 2 || 3 <= k < 9
    ensures Follows(k)
  {
    var t := Do(Plot(k), Script(k));
    assert t.pending == Plot(k + 1).pending && t.checking == Plot(k + 1).checking && t.sessions == Plot(k + 1).sessions;
  }

  lemma PageStage(k: nat)
    requires k == 9 || k == 11
    ensures Follows(k)
  {
    var t := Do(Plot(k), Script(k));
    assert t.pages == Plot(k + 1).pages && t.sessions == Plot(k + 1).sessions;
  }

  lemma {:induction false} FromStage(k: nat, last: nat)
    requires k <= last <= 12
    ensures exists actions: seq<Action> :: Reaches(Plot(k), actions, Plot(last))
    decreases last - k
  {
    if k == last {
      assert Reaches(Plot(k), [], Plot(k));
    } else {
      if k == 2 {
        FirstFactorStage();
      } else if k == 10 {
        SecondFactorStage();
      } else if k == 9 || k == 11 {
        PageStage(k);
      } else {
        SignInStage(k);
      }
      FromStage(k + 1, last);
      var rest: seq<Action> :| Reaches(Plot(k + 1), rest, Plot(last));
      assert ([Script(k)] + rest)[1..] == rest;
      assert Reaches(Plot(k), [Script(k)] + rest, Plot(last));
    }
  }

  lemma PlotReachable(k: nat)
    requires k <= 12
    ensures Reachable(Plot(k))
  {
    FromStage(0, k);
    assert Plot(0) == Init(0);
  }

  /** A session with its setup page in flight is verified after an addition by another one. */
  lemma PageOutlivesChange()
    ensures exists s, a, other ::
      && Reachable(s) && Changes(s, a) && a.effect.Adds? && Rival(s, a, other)
      && Enabled(Do(s, a), ClosePage(other)) && Verified(Do(Do(s, a), ClosePage(other)), other)
  {
    PlotReachable(10);
    SecondFactorStage();
    PageStage(11);
    var s, a := Plot(10), Script(10);
    assert Verified(s, 1) && 2 !in Factors(s, 0) && 2 in Factors(Plot(11), 0);
    assert Changes(s, a) && Rival(s, a, 2);
    assert Verified(Plot(12), 2);
  }

  /** Factor 2 added at once, with no page in flight. */
  lemma Added() returns (t: System)
    ensures t == Do(Plot(9), Request(1, Setup(true), true, Adds(2))) && Reachable(t)
    ensures 2 in Factors(t, 0) && Verified(t, 1) && !Verified(t, 2) && Enabled(t, Request(1, Delete(true), true, Removes(2)))
    ensures Verified(Do(t, Request(1, Delete(true), true, Removes(2))), 2)
    ensures 1 in t.sessions && t.sessions[1].user == 0 && 2 in t.sessions && t.sessions[2].user == 0
  {
    PlotReachable(9);
    assert Verified(Plot(9), 1) && Verified(Plot(9), 2);
    AddThenDelete(Plot(9), 1, 2, 2, Setup(true));
    AddUnseats(Plot(9), 1, 2, 2, Setup(true));
    t := Do(Plot(9), Request(1, Setup(true), true, Adds(2)));
    OneMore(Plot(9), Request(1, Setup(true), true, Adds(2)));
  }

  lemma DeleteLeaves(t: System, sid: nat, factor: nat)
    requires Enabled(t, Request(sid, Delete(true), true, Removes(factor)))
    ensures factor !in Factors(Do(t, Request(sid, Delete(true), true, Removes(factor))), t.sessions[sid].user)
  {
  }

  /** A deletion makes a session verified again that an addition had unseated. */
  lemma DeletionCanRevive()
    ensures exists s, a, other ::
      && Reachable(s) && Changes(s, a) && a.effect.Removes? && Rival(s, a, other)
      && !Verified(s, other) && Verified(Do(s, a), other)
  {
    var t := Added();
    var delete := Request(1, Delete(true), true, Removes(2));
    DeleteLeaves(t, 1, 2);
    assert Changes(t, delete) && Rival(t, delete, 2);
  }

  lemma OneMore(s: System, a: Action)
    requires Reachable(s) && Enabled(s, a)
    ensures Reachable(Do(s, a))
  {
    var now: int, actions: seq<Action> :| Reaches(Init(now), actions, s);
    Extended(Init(now), actions, s, a);
  }

  lemma {:induction false} Extended(s: System, actions: seq<Action>, t: System, a: Action)
    requires Reaches(s, actions, t) && Enabled(t, a)
    ensures Reaches(s, actions + [a], Do(t, a))
    decreases |actions|
  {
    if actions == [] {
      assert ([a])[1..] == [];
    } else {
      assert (actions + [a])[1..] == actions[1..] + [a];
      Extended(Do(s, actions[0]), actions[1..], t, a);
    }
  }
}
