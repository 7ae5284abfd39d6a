/** What becomes of the other sessions after one session has changed its user's factors, over
    whatever follows until the next change. A session with a setup page in flight can catch
    up with the change: closing the page gives its proof the factors of that moment. */
module MfaChanges {
  import opened Basics
  import opened MfaSessions

  /** The session's proof, whatever its age, names the factors there are now. */
  predicate Names(s: System, sid: nat) {
    && sid in s.sessions && s.sessions[sid].proof.Some? && s.sessions[sid].mfa
    && s.sessions[sid].proof.value.factors == Factors(s, s.sessions[sid].user)
  }

  /** Closing the session's setup page will make it name them. */
  predicate Awaits(s: System, sid: nat) {
    && sid in s.sessions && s.sessions[sid].proof.Some? && s.sessions[sid].mfa
    && sid in s.pages && s.pages[sid].verified && s.pages[sid].factors != Factors(s, s.sessions[sid].user)
  }

  predicate Young(s: System, sid: nat) {
    && sid in s.sessions && s.sessions[sid].proof.Some?
    && Fresh(s, s.sessions[sid].proof.value.stamp, s.sessions[sid].user, PROOF_MS)
  }

  /** A run in which the user's factors stay as they are and nobody signs in as `other`. */
  ghost predicate Calm(s: System, actions: seq<Action>, user: nat, other: nat)
    decreases |actions|
  {
    actions == [] ||
    (Enabled(s, actions[0]) && CalmAction(actions[0], other)
     && Factors(Do(s, actions[0]), user) == Factors(s, user) && Calm(Do(s, actions[0]), actions[1..], user, other))
  }

  /** What such a step does to the session, if it is still there. */
  ghost predicate Moved(s: System, b: Action, t: System, user: nat, other: nat) {
    && other in s.sessions && other in t.sessions && t.sessions[other].user == user
    && (Names(t, other) <==> Names(s, other) || (Awaits(s, other) && b == ClosePage(other)))
    && (Awaits(t, other) <==> Awaits(s, other) && b != ClosePage(other) && b != LosePage(other))
  }

  predicate CalmAction(b: Action, other: nat) { b != Complete(other) && !(b.Enroll? && b.sid == other) }

  lemma CalmStep(s: System, b: Action, user: nat, other: nat)
    requires Inv(s) && Enabled(s, b) && CalmAction(b, other)
    requires Factors(Do(s, b), user) == Factors(s, user) != {} && (other in s.sessions ==> s.sessions[other].user == user)
    ensures other in Do(s, b).sessions ==> Moved(s, b, Do(s, b), user, other)
  {
    if b.Request? {
      CalmRequest(s, b, user, other);
    } else if b.OpenPage? {
      CalmOpen(s, b, user, other);
    } else if b.ClosePage? || b.LosePage? {
      CalmClose(s, b, user, other);
    } else {
      CalmRest(s, b, user, other);
    }
  }

  lemma CalmRequest(s: System, b: Action, user: nat, other: nat)
    requires Enabled(s, b) && b.Request?
    requires Factors(Do(s, b), user) == Factors(s, user) != {} && (other in s.sessions ==> s.sessions[other].user == user)
    ensures other in Do(s, b).sessions ==> Moved(s, b, Do(s, b), user, other)
  {
    if other in Do(s, b).sessions { RequestLeaves(s, b, user, other); }
  }

  lemma RequestLeaves(s: System, b: Action, user: nat, other: nat)
    requires Enabled(s, b) && b.Request? && other in Do(s, b).sessions
    requires Factors(Do(s, b), user) == Factors(s, user) && (other in s.sessions ==> s.sessions[other].user == user)
    ensures other in s.sessions && Do(s, b).sessions[other] == s.sessions[other] && Do(s, b).pages == s.pages
  {
  }

  lemma CalmOpen(s: System, b: Action, user: nat, other: nat)
    requires Enabled(s, b) && b.OpenPage?
    requires Factors(s, user) != {} && (other in s.sessions ==> s.sessions[other].user == user)
    ensures other in Do(s, b).sessions ==> Moved(s, b, Do(s, b), user, other)
  {
  }

  lemma CalmClose(s: System, b: Action, user: nat, other: nat)
    requires PagesOk(s) && Enabled(s, b) && (b.ClosePage? || b.LosePage?)
    requires Factors(s, user) != {} && (other in s.sessions ==> s.sessions[other].user == user)
    ensures other in Do(s, b).sessions ==> Moved(s, b, Do(s, b), user, other)
  {
  }

  lemma CalmRest(s: System, b: Action, user: nat, other: nat)
    requires Enabled(s, b) && CalmAction(b, other) && !b.Request? && !b.OpenPage? && !b.ClosePage? && !b.LosePage?
    requires Factors(Do(s, b), user) == Factors(s, user) != {} && (other in s.sessions ==> s.sessions[other].user == user)
    ensures other in Do(s, b).sessions ==> Moved(s, b, Do(s, b), user, other)
  {
  }

  /** A session that does not name the factors, and has no page in flight, gets none. */
  lemma NoPageStep(s: System, b: Action, user: nat, other: nat)
    requires Enabled(s, b) && Factors(s, user) != {} && (other in s.sessions ==> s.sessions[other].user == user)
    requires !Names(s, other) && other !in s.pages && other in Do(s, b).sessions
    ensures b != ClosePage(other) && other !in Do(s, b).pages
  {
  }

  /** A session that is not verified cannot open the page. */
  lemma {:induction false} NoPage(s: System, actions: seq<Action>, t: System, user: nat, other: nat)
    requires Inv(s) && Reaches(s, actions, t) && Calm(s, actions, user, other) && Factors(s, user) != {}
    requires other in s.sessions ==> s.sessions[other].user == user
    requires !Names(s, other) && other !in s.pages && other in t.sessions
    ensures ClosePage(other) !in actions
    decreases |actions|
  {
    if actions != [] {
      var u := Do(s, actions[0]);
      StepKept(s, actions[0]);
      if other in u.sessions {
        NoPageStep(s, actions[0], user, other);
        CalmStep(s, actions[0], user, other);
        NoPage(u, actions[1..], t, user, other);
      } else {
        StaysOut(u, actions[1..], t, user, other);
      }
    }
  }

  /** A session that is gone does not come back without a sign-in. */
  lemma {:induction false} StaysOut(s: System, actions: seq<Action>, t: System, user: nat, other: nat)
    requires Reaches(s, actions, t) && Calm(s, actions, user, other) && other !in s.sessions
    ensures other !in t.sessions
    decreases |actions|
  {
    if actions != [] { StaysOut(Do(s, actions[0]), actions[1..], t, user, other); }
  }

  lemma {:induction false} CalmRun(s: System, actions: seq<Action>, t: System, user: nat, other: nat)
    requires Inv(s) && Reaches(s, actions, t) && Calm(s, actions, user, other) && Factors(s, user) != {}
    requires other in s.sessions ==> s.sessions[other].user == user
    ensures Factors(t, user) == Factors(s, user)
    ensures other in t.sessions ==> t.sessions[other].user == user
    ensures Names(t, other) <==> other in t.sessions && (Names(s, other) || (Awaits(s, other) && ClosePage(other) in actions))
    decreases |actions|
  {
    if actions != [] {
      var b, u := actions[0], Do(s, actions[0]);
      StepKept(s, b);
      if other in u.sessions {
        CalmStep(s, b, user, other);
        CalmRun(u, actions[1..], t, user, other);
        if b == LosePage(other) && !Names(u, other) && other in t.sessions { NoPage(u, actions[1..], t, user, other); }
        assert ClosePage(other) in actions <==> b == ClosePage(other) || ClosePage(other) in actions[1..];
      } else {
        CalmRun(u, actions[1..], t, user, other);
        StaysOut(u, actions[1..], t, user, other);
      }
    }
  }

  // ------------------------------------------------------------------- main results

  /** Action `a` is a request by which a verified session changes its user's factors. */
  predicate Changes(s: System, a: Action) {
    && Enabled(s, a) && a.Request? && Verified(s, a.sid)
    && Factors(Do(s, a), s.sessions[a.sid].user) != Factors(s, s.sessions[a.sid].user)
  }

  /** Another session of the same user. */
  predicate Rival(s: System, a: Action, other: nat)
    requires Changes(s, a)
  {
    other in s.sessions && other != a.sid && s.sessions[other].user == s.sessions[a.sid].user
  }

  /** The deletion brings back the very factors that the session's proof names. */
  predicate Restored(s: System, a: Action, other: nat)
    requires Changes(s, a) && Rival(s, a, other)
  {
    && a.effect.Removes? && s.sessions[other].proof.Some? && s.sessions[other].mfa
    && s.sessions[other].proof.value.factors == Factors(s, s.sessions[other].user) - {a.effect.factor}
  }

  /** The session opened its setup page while it was verified, with other factors than those
      the change leaves, and the page is still in flight. */
  predicate Waiting(s: System, a: Action, other: nat)
    requires Changes(s, a) && Rival(s, a, other)
  {
    && s.sessions[other].proof.Some? && s.sessions[other].mfa && other in s.pages && s.pages[other].verified
    && s.pages[other].factors != After(Factors(s, s.sessions[other].user), a.effect)
  }

  lemma ChangeMoves(s: System, a: Action, other: nat)
    requires Reachable(s) && Changes(s, a) && Rival(s, a, other)
    ensures
      var t := Do(s, a);
      && Inv(t) && Factors(t, s.sessions[a.sid].user) != {} && other in t.sessions && t.sessions[other] == s.sessions[other]
      && Names(t, a.sid) && !Awaits(t, a.sid)
      && (Names(t, other) <==> Restored(s, a, other)) && (Awaits(t, other) <==> Waiting(s, a, other))
  {
    ReachableInv(s);
    StepKept(s, a);
    FactorStays(s, a, s.sessions[a.sid].user);
    ChangedState(s, a);
    if a.effect.Adds? && s.sessions[other].proof.Some? { assert Proved(s, s.sessions[other].proof.value); }
  }

  /** After a change, and until the next change or sign-in, another session is verified exactly
      if its proof is young and either the deletion restored the factors it names, or it
      closed a setup page that it had opened while verified before the change. */
  lemma AfterChange(s: System, a: Action, actions: seq<Action>, t: System, other: nat)
    requires Reachable(s) && Changes(s, a) && Rival(s, a, other)
    requires Reaches(Do(s, a), actions, t) && Calm(Do(s, a), actions, s.sessions[a.sid].user, other)
    ensures Verified(t, other) <==>
      Young(t, other) && (Restored(s, a, other) || (Waiting(s, a, other) && ClosePage(other) in actions))
  {
    ChangeMoves(s, a, other);
    CalmRun(Do(s, a), actions, t, s.sessions[a.sid].user, other);
  }

  /** The acting session stays verified for as long as its proof is young and it lasts. */
  lemma ActorStays(s: System, a: Action, actions: seq<Action>, t: System)
    requires Reachable(s) && Changes(s, a)
    requires Reaches(Do(s, a), actions, t) && Calm(Do(s, a), actions, s.sessions[a.sid].user, a.sid)
    ensures Verified(Do(s, a), a.sid) && (Verified(t, a.sid) <==> Young(t, a.sid))
  {
    var user := s.sessions[a.sid].user;
    ReachableInv(s);
    StepKept(s, a);
    FactorStays(s, a, user);
    ChangedState(s, a);
    CalmRun(Do(s, a), actions, t, user, a.sid);
  }

  /** With no other setup page of the user in flight, nobody but the acting session is
      verified after an addition, and after a deletion only whom it restores. */
  lemma OnlyActorStays(s: System, a: Action, actions: seq<Action>, t: System, other: nat)
    requires Reachable(s) && Changes(s, a) && Rival(s, a, other)
    requires forall i :: i in s.pages && i in s.sessions && i != a.sid ==> s.sessions[i].user != s.sessions[a.sid].user
    requires Reaches(Do(s, a), actions, t) && Calm(Do(s, a), actions, s.sessions[a.sid].user, other)
    ensures a.effect.Adds? ==> !Verified(t, other)
    ensures Verified(t, other) <==> Young(t, other) && Restored(s, a, other)
  {
    AfterChange(s, a, actions, t, other);
  }

  /** The condition is needed: whoever waits on such a page with a young proof can close it
      next, and is verified after the change. */
  lemma WaitingCatchesUp(s: System, a: Action, other: nat)
    requires Reachable(s) && Changes(s, a) && Rival(s, a, other) && Waiting(s, a, other) && Young(s, other)
    ensures Enabled(Do(s, a), ClosePage(other)) && Verified(Do(Do(s, a), ClosePage(other)), other)
  {
    ChangeMoves(s, a, other);
    ChangedState(s, a);
    var t := Do(s, a);
    CalmClose(t, ClosePage(other), s.sessions[a.sid].user, other);
  }

  /** Whenever a verified session adds a factor and deletes that factor again, every other
      session that was verified before is unseated and then verified again. */
  lemma AddThenDelete(s: System, actor: nat, other: nat, factor: nat, view: View)
    requires actor !in s.pages && Verified(s, actor) && Verified(s, other) && other != actor && s.sessions[other].user == s.sessions[actor].user
    requires s.accounts[s.sessions[actor].user].local && factor !in s.factorIds && (view == Setup(true) || view == Register(true))
    requires s.accounts[s.sessions[actor].user].factors <= s.factorIds
    ensures Enabled(s, Request(actor, view, true, Adds(factor)))
    ensures
      var t := Do(s, Request(actor, view, true, Adds(factor)));
      && !Verified(t, other) && Enabled(t, Request(actor, Delete(true), true, Removes(factor)))
      && Verified(Do(t, Request(actor, Delete(true), true, Removes(factor))), other)
  {
    var user := s.sessions[actor].user;
    var before := s.accounts[user].factors;
    AddUnseats(s, actor, other, factor, view);
    DeleteRevives(Do(s, Request(actor, view, true, Adds(factor))), actor, other, factor, before);
  }

  lemma AddUnseats(s: System, actor: nat, other: nat, factor: nat, view: View)
    requires actor !in s.pages && Verified(s, actor) && Verified(s, other) && other != actor && s.sessions[other].user == s.sessions[actor].user
    requires s.accounts[s.sessions[actor].user].local && factor !in s.factorIds && (view == Setup(true) || view == Register(true))
    requires s.accounts[s.sessions[actor].user].factors <= s.factorIds
    ensures Enabled(s, Request(actor, view, true, Adds(factor)))
    ensures
      var t := Do(s, Request(actor, view, true, Adds(factor)));
      var user := s.sessions[actor].user;
      && t.now == s.now && t.pages == s.pages && t.accounts == s.accounts[user := s.accounts[user].(factors := s.accounts[user].factors + {factor})]
      && other in t.sessions && t.sessions[other] == s.sessions[other] && actor in t.sessions && t.sessions[actor].user == user
      && Verified(t, actor) && !Verified(t, other)
  {
    var user := s.sessions[actor].user;
    assert factor in s.accounts[user].factors + {factor};
  }

  lemma DeleteRevives(t: System, actor: nat, other: nat, factor: nat, before: set<nat>)
    requires actor !in t.pages && Verified(t, actor) && other in t.sessions && other != actor && t.sessions[other].user == t.sessions[actor].user
    requires t.accounts[t.sessions[actor].user].local && before != {} && factor !in before
    requires t.accounts[t.sessions[actor].user].factors == before + {factor}
    requires t.sessions[other].proof.Some? && t.sessions[other].mfa && t.sessions[other].proof.value.factors == before
    requires Fresh(t, t.sessions[other].proof.value.stamp, t.sessions[other].user, PROOF_MS)
    ensures Enabled(t, Request(actor, Delete(true), true, Removes(factor)))
    ensures Verified(Do(t, Request(actor, Delete(true), true, Removes(factor))), other)
  {
    var one :| one in before;
    AtLeastTwo(before + {factor}, one, factor);
    assert before + {factor} - {factor} == before;
  }

  lemma AtLeastTwo(factors: set<nat>, a: nat, b: nat)
    requires a in factors && b in factors && a != b
    ensures |factors| >= 2
  {
    assert |factors| == |factors - {a} - {b}| + 2;
  }
}
