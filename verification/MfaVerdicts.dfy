/** What the gate answers: the exact condition of every verdict, on the account, the proof, the
    enrolment stamp, the store and the view. */
module MfaVerdicts {
  import opened Basics
  import opened MfaSessions

  /** A stamp for this account as it is now, at most `age` milliseconds old. */
  predicate Stamped(s: System, stamp: Stamp, user: nat, age: int)
    requires user in s.accounts
  {
    stamp.user == user && stamp.auth == s.accounts[user].auth && stamp.issued <= s.now <= stamp.issued + age
  }

  /** Eight hours from the acceptance of a factor, and the factors are the same. */
  predicate Proven(s: System, session: Session)
    requires session.user in s.accounts
  {
    && session.mfa && session.proof.Some? && Stamped(s, session.proof.value.stamp, session.user, 28800000)
    && session.proof.value.factors == s.accounts[session.user].factors != {}
  }

  /** Ten minutes from a password sign-in, and there is no factor yet. */
  predicate SettingUp(s: System, session: Session)
    requires session.user in s.accounts
  {
    session.enroll.Some? && Stamped(s, session.enroll.value, session.user, 600000) && s.accounts[session.user].factors == {}
  }

  lemma Verdicts(s: System, sid: nat, view: View, store: bool)
    requires sid in s.sessions && s.sessions[sid].user in s.accounts
    ensures
      var session := s.sessions[sid];
      var account := s.accounts[session.user];
      var proven, enrolling, logout := Proven(s, session), SettingUp(s, session), view == Logout;
      var last := view == Delete(true) && |account.factors| <= 1;
      var verdict := Gate(s, sid, view, store);
      && (verdict == Reached <==> (account.local && (logout
            || (store && ((proven && !last) || (enrolling && (view == Setup(true) || view == Setup(false))))))))
      && (verdict == Unavailable <==> (!logout && !store))
      && (verdict == Forbidden <==> (!account.local && (logout || store)))
      && (verdict == SentToLogin <==> (account.local && store && !logout && !proven && !enrolling))
      && (verdict == SentToSetup <==>
            (account.local && store && !logout && enrolling && view != Setup(true) && view != Setup(false)))
      && (verdict == Refused <==> (account.local && store && proven && last))
  {
  }

  /** From the moment an account is no local one any more, and until it is made one again, no
      session of it reaches any view, nor does anybody sign in to it or change its factors. */
  lemma {:induction false} ForeignStaysOut(s: System, actions: seq<Action>, t: System, user: nat)
    requires user in s.accounts && !s.accounts[user].local
    requires Reaches(s, actions, t) && SetLocal(user, true) !in actions
    ensures user in t.accounts && !t.accounts[user].local && Factors(t, user) == Factors(s, user)
    ensures forall sid, view, store :: sid in t.sessions && t.sessions[sid].user == user ==> !Gate(t, sid, view, store).Reached?
    ensures forall sid :: !Enabled(t, Enroll(sid, user))
    ensures forall sid, factor :: !Enabled(t, Begin(sid, user, factor))
    decreases |actions|
  {
    if actions != [] {
      ForeignStep(s, actions[0], user);
      ForeignStaysOut(Do(s, actions[0]), actions[1..], t, user);
    }
  }

  lemma ForeignStep(s: System, a: Action, user: nat)
    requires user in s.accounts && !s.accounts[user].local && Enabled(s, a) && a != SetLocal(user, true)
    ensures user in Do(s, a).accounts && !Do(s, a).accounts[user].local && Factors(Do(s, a), user) == Factors(s, user)
  {
  }

  /** A session that was signed out reaches nothing: every request needs a session, and only a
      sign-in makes one. */
  lemma {:induction false} SignedOutStaysOut(s: System, actions: seq<Action>, t: System, sid: nat)
    requires sid !in s.sessions && Reaches(s, actions, t)
    requires forall a :: a in actions ==> a != Complete(sid) && !(a.Enroll? && a.sid == sid)
    ensures sid !in t.sessions
    ensures forall view, store, effect :: !Enabled(t, Request(sid, view, store, effect))
    ensures forall store :: !Enabled(t, OpenPage(sid, store))
    decreases |actions|
  {
    if actions != [] { SignedOutStaysOut(Do(s, actions[0]), actions[1..], t, sid); }
  }
}
