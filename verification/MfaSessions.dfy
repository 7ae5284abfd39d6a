/** The operator gate of `RequireOperatorMFA`: sessions carrying a proof bound to the user,
    the password and the set of verification methods, and the requests that change that set.
    A posted request that may change factors is one step, because it holds the user's row
    lock from its checks to the rewrite of its own proof. The setup page takes no lock when
    it is only fetched, yet it rewrites the proof as well, so it is two steps: it opens with
    the factors it reads, and closes with those it reads then. So is a verification, between
    its reading of the factors and its proof. Digests are ideal, so a proof carries the
    factor set itself. */
module MfaSessions {
  import opened Basics

  const PROOF_MS := 8 * 3600 * 1000
  const ENROLL_MS := 600 * 1000

  datatype Account = Account(auth: nat, factors: set<nat>, local: bool)

  datatype Stamp = Stamp(user: nat, auth: nat, issued: int)

  datatype Proof = Proof(stamp: Stamp, factors: set<nat>)

  datatype Session = Session(user: nat, proof: Option<Proof>, mfa: bool, enroll: Option<Stamp>)

  /** What a verification read about its user. */
  datatype Reading = Reading(user: nat, auth: nat, factors: set<nat>)

  /** What a setup page in flight read about the user of its session. */
  datatype Page = Page(factors: set<nat>, verified: bool, enrolling: bool)

  datatype System = System(
    now: int,
    accounts: map<nat, Account>,
    sessions: map<nat, Session>,
    checking: map<nat, Reading>,     // factor checked, no proof yet
    pending: map<nat, Proof>,        // factor accepted, session not yet rotated
    pages: map<nat, Page>,           // setup pages in flight
    factorIds: set<nat>,             // factors ever in use
    acceptances: set<Stamp>)         // history of factor acceptances

  datatype View = Logout | Setup(post: bool) | Register(post: bool) | Delete(post: bool) | Other

  datatype Effect = Nothing | Adds(factor: nat) | Removes(factor: nat)

  datatype Verdict = Reached | Forbidden | SentToLogin | SentToSetup | Refused | Unavailable

  datatype Action =
    | SetPassword(user: nat, auth: nat)
    | SetLocal(user: nat, local: bool)
    | Enroll(sid: nat, user: nat)                  // `begin_enrollment` after a password sign-in
    | Begin(sid: nat, user: nat, factor: nat)      // `prepare_mfa` found the factor among the user's
    | Accept(sid: nat)                             // and made the proof
    | Complete(sid: nat)                           // `complete_mfa` after session rotation
    | Request(sid: nat, view: View, store: bool, effect: Effect)
    | OpenPage(sid: nat, store: bool)              // the setup page is fetched
    | ClosePage(sid: nat)                          // its view returned
    | LosePage(sid: nat)                           // its process died
    | Drop(sid: nat)
    | Pass(milliseconds: nat)

  function Init(now: int): System { System(now, map[], map[], map[], map[], map[], {}, {}) }

  // -------------------------------------------------------------------------- gate

  /** `_fresh`. */
  predicate Fresh(s: System, stamp: Stamp, user: nat, ttl: int) {
    && user in s.accounts && stamp.user == user && stamp.auth == s.accounts[user].auth
    && 0 <= s.now - stamp.issued <= ttl
  }

  /** `_proof`. */
  predicate Verified(s: System, sid: nat) {
    && sid in s.sessions && s.sessions[sid].user in s.accounts && s.sessions[sid].proof.Some? && s.sessions[sid].mfa
    && s.accounts[s.sessions[sid].user].factors != {}
    && Fresh(s, s.sessions[sid].proof.value.stamp, s.sessions[sid].user, PROOF_MS)
    && s.sessions[sid].proof.value.factors == s.accounts[s.sessions[sid].user].factors
  }

  predicate Enrolling(s: System, sid: nat) {
    && sid in s.sessions && s.sessions[sid].user in s.accounts && s.sessions[sid].enroll.Some?
    && s.accounts[s.sessions[sid].user].factors == {}
    && Fresh(s, s.sessions[sid].enroll.value, s.sessions[sid].user, ENROLL_MS)
  }

  function Gate(s: System, sid: nat, view: View, store: bool): Verdict
    requires sid in s.sessions && s.sessions[sid].user in s.accounts
  {
    var account := s.accounts[s.sessions[sid].user];
    if !view.Logout? && !store then Unavailable
    else if !account.local then Forbidden
    else if view.Logout? then Reached
    else if !Verified(s, sid) && !Enrolling(s, sid) then SentToLogin
    else if !Verified(s, sid) && !view.Setup? then SentToSetup
    else if view == Delete(true) && |account.factors| <= 1 then Refused
    else Reached
  }

  /** What the upstream views can do: setup and registration add one new factor, deletion
      removes one, all only when posted. */
  predicate Possible(s: System, user: nat, view: View, effect: Effect)
    requires user in s.accounts
  {
    match effect
    case Nothing => true
    case Adds(f) => (view == Setup(true) || view == Register(true)) && f !in s.factorIds
    case Removes(f) => view == Delete(true) && f in s.accounts[user].factors
  }

  /** A session handles one request at a time: none while its setup page is in flight. */
  predicate Enabled(s: System, a: Action) {
    match a
    case SetPassword(_, _) => true
    case SetLocal(user, _) => user in s.accounts
    case Enroll(sid, user) =>
      sid !in s.pages && user in s.accounts && s.accounts[user].local && s.accounts[user].factors == {}
    case Begin(sid, user, factor) =>
      sid !in s.pages && user in s.accounts && s.accounts[user].local && factor in s.accounts[user].factors
    case Accept(sid) => sid !in s.pages && sid in s.checking
    case Complete(sid) => sid !in s.pages && sid in s.pending
    case OpenPage(sid, _) => sid !in s.pages && sid in s.sessions && s.sessions[sid].user in s.accounts
    case ClosePage(sid) => sid in s.pages
    case LosePage(sid) => sid in s.pages
    case Request(sid, view, store, effect) =>
      && sid !in s.pages && sid in s.sessions && s.sessions[sid].user in s.accounts && view != Setup(false)
      && Possible(s, s.sessions[sid].user, view, effect)
      && (effect.Nothing? || Gate(s, sid, view, store).Reached?)
    case Drop(_) => true
    case Pass(_) => true
  }

  function Factors(s: System, user: nat): set<nat> {
    if user in s.accounts then s.accounts[user].factors else {}
  }

  function After(factors: set<nat>, effect: Effect): set<nat> {
    match effect
    case Nothing => factors
    case Adds(f) => factors + {f}
    case Removes(f) => factors - {f}
  }

  function Logged(s: System, sid: nat): System { s.(sessions := s.sessions - {sid}) }

  /** A request that reached its view, up to the rewrite of its own session. */
  function Serve(s: System, sid: nat, view: View, effect: Effect): System
    requires sid in s.sessions && s.sessions[sid].user in s.accounts
  {
    var user := s.sessions[sid].user;
    var before := s.accounts[user].factors;
    var after := After(before, effect);
    var t := s.(accounts := s.accounts[user := s.accounts[user].(factors := after)],
                factorIds := if effect.Adds? then s.factorIds + {effect.factor} else s.factorIds);
    if view.Logout? then Logged(t, sid)
    else if Enrolling(s, sid) && after != {} then Logged(t, sid)
    else if Verified(s, sid) && after != before then
      t.(sessions := s.sessions[sid := s.sessions[sid].(proof := Some(s.sessions[sid].proof.value.(factors := after)))])
    else t
  }

  /** A request that the gate let through, with `served` as its outcome, or did not. */
  function Gated(s: System, sid: nat, verdict: Verdict, served: System): System {
    match verdict
    case Reached => served
    case Forbidden => Logged(s, sid)
    case SentToLogin => Logged(s, sid)
    case _ => s
  }

  /** What the setup page does once its view has returned: as a posted request, but with the
      factors and the verdict read when it was opened. */
  function Closed(s: System, sid: nat): System
    requires sid in s.pages
  {
    var page := s.pages[sid];
    var t := s.(pages := s.pages - {sid});
    if sid !in s.sessions then t
    else
      var after := Factors(s, s.sessions[sid].user);
      if page.enrolling && after != {} then Logged(t, sid)
      else if page.verified && after != page.factors && s.sessions[sid].proof.Some? then
        t.(sessions := s.sessions[sid := s.sessions[sid].(proof := Some(s.sessions[sid].proof.value.(factors := after)))])
      else t
  }

  function Do(s: System, a: Action): System
    requires Enabled(s, a)
  {
    match a
    case SetPassword(user, auth) =>
      s.(accounts := s.accounts[user := if user in s.accounts then s.accounts[user].(auth := auth) else Account(auth, {}, true)])
    case SetLocal(user, local) => s.(accounts := s.accounts[user := s.accounts[user].(local := local)])
    case Enroll(sid, user) =>
      s.(sessions := s.sessions[sid := Session(user, None, false, Some(Stamp(user, s.accounts[user].auth, s.now)))])
    case Begin(sid, user, _) =>
      s.(checking := s.checking[sid := Reading(user, s.accounts[user].auth, s.accounts[user].factors)])
    case Accept(sid) =>
      var read := s.checking[sid];
      var stamp := Stamp(read.user, read.auth, s.now);
      s.(checking := s.checking - {sid}, pending := s.pending[sid := Proof(stamp, read.factors)], acceptances := s.acceptances + {stamp})
    case Complete(sid) =>
      s.(sessions := s.sessions[sid := Session(s.pending[sid].stamp.user, Some(s.pending[sid]), true, None)],
         pending := s.pending - {sid})
    case Request(sid, view, store, effect) =>
      var verdict := Gate(s, sid, view, store);
      Gated(s, sid, verdict, if verdict.Reached? then Serve(s, sid, view, effect) else s)
    case OpenPage(sid, store) =>
      var page := Page(s.accounts[s.sessions[sid].user].factors, Verified(s, sid), Enrolling(s, sid));
      Gated(s, sid, Gate(s, sid, Setup(false), store), s.(pages := s.pages[sid := page]))
    case ClosePage(sid) => Closed(s, sid)
    case LosePage(sid) => s.(pages := s.pages - {sid})
    case Drop(sid) => Logged(s, sid)
    case Pass(d) => s.(now := s.now + d)
  }

  ghost predicate Reaches(s: System, actions: seq<Action>, t: System)
    decreases |actions|
  {
    if actions == [] then s == t else Enabled(s, actions[0]) && Reaches(Do(s, actions[0]), actions[1..], t)
  }

  ghost predicate Reachable(t: System) {
    exists now: int, actions: seq<Action> :: Reaches(Init(now), actions, t)
  }

  // ---------------------------------------------------------------------- invariant

  /** Every proof, attached or pending, goes back to an acceptance, with its time. */
  ghost predicate Proved(s: System, p: Proof) {
    p.stamp in s.acceptances && p.factors <= s.factorIds
  }

  ghost predicate ProofsOk(s: System) {
    && (forall i :: i in s.sessions && s.sessions[i].proof.Some? ==> Proved(s, s.sessions[i].proof.value))
    && (forall i :: i in s.pending ==> Proved(s, s.pending[i]))
  }

  ghost predicate FactorsOk(s: System) {
    && (forall u :: u in s.accounts ==> s.accounts[u].factors <= s.factorIds)
    && (forall i :: i in s.checking ==> s.checking[i].factors <= s.factorIds)
  }

  ghost predicate UsersOk(s: System) {
    && (forall i :: i in s.sessions ==> s.sessions[i].user in s.accounts)
    && (forall i :: i in s.pending ==> s.pending[i].stamp.user in s.accounts)
    && (forall i :: i in s.checking ==> s.checking[i].user in s.accounts)
  }

  ghost predicate PagesOk(s: System) {
    forall i :: i in s.pages ==> !(s.pages[i].verified && s.pages[i].enrolling)
  }

  ghost predicate Inv(s: System) { ProofsOk(s) && FactorsOk(s) && UsersOk(s) && PagesOk(s) }

  lemma ServeProofs(s: System, sid: nat, view: View, effect: Effect)
    requires ProofsOk(s) && FactorsOk(s) && sid in s.sessions && s.sessions[sid].user in s.accounts
    requires Possible(s, s.sessions[sid].user, view, effect)
    ensures ProofsOk(Serve(s, sid, view, effect)) && FactorsOk(Serve(s, sid, view, effect))
  {
    var t := Serve(s, sid, view, effect);
    forall p | Proved(s, p) ensures Proved(t, p) {}
    assert After(s.accounts[s.sessions[sid].user].factors, effect) <= t.factorIds;
  }

  lemma ServeKept(s: System, sid: nat, view: View, effect: Effect)
    requires Inv(s) && sid in s.sessions && Possible(s, s.sessions[sid].user, view, effect)
    ensures Inv(Serve(s, sid, view, effect))
  {
    ServeProofs(s, sid, view, effect);
  }

  lemma CloseKept(s: System, sid: nat)
    requires Inv(s) && sid in s.pages
    ensures Inv(Closed(s, sid))
  {
    var t := Closed(s, sid);
    forall p | Proved(s, p) ensures Proved(t, p) {}
    if sid in s.sessions && s.sessions[sid].proof.Some? { assert Proved(s, s.sessions[sid].proof.value); }
  }

  /** Signing in. */
  lemma SignInKept(s: System, a: Action)
    requires Inv(s) && Enabled(s, a) && (a.Enroll? || a.Begin? || a.Accept? || a.Complete?)
    ensures Inv(Do(s, a))
  {
    var t := Do(s, a);
    forall p | Proved(s, p) ensures Proved(t, p) {}
  }

  lemma PageKept(s: System, a: Action)
    requires Inv(s) && Enabled(s, a) && (a.OpenPage? || a.LosePage?)
    ensures Inv(Do(s, a))
  {
    var t := Do(s, a);
    forall p | Proved(s, p) ensures Proved(t, p) {}
  }

  lemma RestKept(s: System, a: Action)
    requires Inv(s) && Enabled(s, a) && (a.SetPassword? || a.SetLocal? || a.Drop? || a.Pass?)
    ensures Inv(Do(s, a))
  {
    var t := Do(s, a);
    forall p | Proved(s, p) ensures Proved(t, p) {}
  }

  lemma LoggedKept(s: System, sid: nat)
    requires Inv(s)
    ensures Inv(Logged(s, sid))
  {
    forall p | Proved(s, p) ensures Proved(Logged(s, sid), p) {}
  }

  lemma RequestKept(s: System, a: Action)
    requires Inv(s) && Enabled(s, a) && a.Request?
    ensures Inv(Do(s, a))
  {
    ServeKept(s, a.sid, a.view, a.effect);
    LoggedKept(s, a.sid);
  }

  lemma StepKept(s: System, a: Action)
    requires Inv(s) && Enabled(s, a)
    ensures Inv(Do(s, a))
  {
    if a.Request? {
      RequestKept(s, a);
    } else if a.ClosePage? {
      CloseKept(s, a.sid);
    } else if a.OpenPage? || a.LosePage? {
      PageKept(s, a);
    } else if a.Enroll? || a.Begin? || a.Accept? || a.Complete? {
      SignInKept(s, a);
    } else {
      RestKept(s, a);
    }
  }

  lemma {:induction false} RunKept(s: System, actions: seq<Action>, t: System)
    requires Inv(s) && Reaches(s, actions, t)
    ensures Inv(t)
    decreases |actions|
  {
    if actions != [] {
      StepKept(s, actions[0]);
      RunKept(Do(s, actions[0]), actions[1..], t);
    }
  }

  lemma ReachableInv(t: System)
    requires Reachable(t)
    ensures Inv(t)
  {
    var now: int, actions: seq<Action> :| Reaches(Init(now), actions, t);
    RunKept(Init(now), actions, t);
  }

  // ------------------------------------------------------------------- main results

  /** An authenticated request that reaches any view but logout and setup rests on a factor
      acceptance for the same user and password at most eight hours ago, and its session
      knows the factors as they are now. */
  lemma ReachedIsProved(s: System, sid: nat, view: View, store: bool)
    requires Reachable(s) && sid in s.sessions && s.sessions[sid].user in s.accounts
    requires Gate(s, sid, view, store).Reached? && !view.Logout? && !view.Setup?
    ensures s.sessions[sid].proof.Some?
    ensures
      var user := s.sessions[sid].user;
      var proof := s.sessions[sid].proof.value;
      && proof.stamp in s.acceptances && proof.stamp.user == user && proof.stamp.auth == s.accounts[user].auth
      && 0 <= s.now - proof.stamp.issued <= PROOF_MS
      && proof.factors == s.accounts[user].factors != {}
  {
    ReachableInv(s);
  }

  /** No action leaves a user who has a factor without one. */
  lemma FactorStays(s: System, a: Action, user: nat)
    requires Enabled(s, a) && Factors(s, user) != {}
    ensures Factors(Do(s, a), user) != {}
  {
    if a.Request? && a.effect.Removes? && s.sessions[a.sid].user == user {
      OneLeft(s.accounts[user].factors, a.effect.factor);
    }
  }

  lemma OneLeft(factors: set<nat>, factor: nat)
    requires |factors| > 1 && factor in factors
    ensures factors - {factor} != {}
  {
    assert |factors - {factor}| == |factors| - 1;
  }

  lemma {:induction false} FactorStaysForever(s: System, actions: seq<Action>, t: System, user: nat)
    requires Reaches(s, actions, t) && Factors(s, user) != {}
    ensures Factors(t, user) != {}
    decreases |actions|
  {
    if actions != [] {
      FactorStays(s, actions[0], user);
      FactorStaysForever(Do(s, actions[0]), actions[1..], t, user);
    }
  }

  /** A factor set changes only through a request of a verified session, or of the one
      enrolling session that creates the first factor; that session is signed out, and from
      then on no session of the user can enroll. */
  lemma WhoChanges(s: System, a: Action, user: nat)
    requires Enabled(s, a) && Factors(Do(s, a), user) != Factors(s, user)
    ensures a.Request? && s.sessions[a.sid].user == user
    ensures
      if Factors(s, user) == {} then
        && Enrolling(s, a.sid) && a.sid !in Do(s, a).sessions
        && forall actions, t, sid :: Reaches(Do(s, a), actions, t) && sid in t.sessions && t.sessions[sid].user == user ==> !Enrolling(t, sid)
      else Verified(s, a.sid)
  {
    assert a.Request? && s.sessions[a.sid].user == user;
    if Factors(s, user) == {} {
      assert Factors(Do(s, a), user) != {};
      forall actions, t, sid | Reaches(Do(s, a), actions, t) && sid in t.sessions && t.sessions[sid].user == user
        ensures !Enrolling(t, sid)
      {
        FactorStaysForever(Do(s, a), actions, t, user);
      }
    }
  }

  /** The moment a verified session changes its user's factors: it stays verified, and every
      other session of the user that was verified is not any more. Then another session is
      verified exactly if a factor was deleted and its proof, still fresh, names the factors
      that were there without the deleted one. What follows is in `MfaChanges`. */
  lemma ChangeUnseats(s: System, a: Action, other: nat)
    requires Reachable(s) && Enabled(s, a) && a.Request? && Verified(s, a.sid)
    requires Factors(Do(s, a), s.sessions[a.sid].user) != Factors(s, s.sessions[a.sid].user)
    requires other in s.sessions && other != a.sid && s.sessions[other].user == s.sessions[a.sid].user
    ensures Verified(Do(s, a), a.sid)
    ensures Verified(s, other) ==> !Verified(Do(s, a), other)
    ensures Verified(Do(s, a), other) <==>
      && a.effect.Removes? && s.sessions[other].proof.Some? && s.sessions[other].mfa
      && Fresh(s, s.sessions[other].proof.value.stamp, s.sessions[other].user, PROOF_MS)
      && s.sessions[other].proof.value.factors == Factors(s, s.sessions[other].user) - {a.effect.factor}
  {
    ReachableInv(s);
    FactorStays(s, a, s.sessions[a.sid].user);
    ChangedState(s, a);
    if a.effect.Adds? && s.sessions[other].proof.Some? { assert Proved(s, s.sessions[other].proof.value); }
  }

  /** The state after such a change. */
  lemma ChangedState(s: System, a: Action)
    requires Enabled(s, a) && a.Request? && Verified(s, a.sid)
    requires Factors(Do(s, a), s.sessions[a.sid].user) != Factors(s, s.sessions[a.sid].user)
    ensures
      var user := s.sessions[a.sid].user;
      var after := After(s.accounts[user].factors, a.effect);
      var t := Do(s, a);
      && !a.effect.Nothing? && t.now == s.now && t.pages == s.pages && a.sid !in s.pages
      && t.accounts == s.accounts[user := s.accounts[user].(factors := after)]
      && t.sessions == s.sessions[a.sid := s.sessions[a.sid].(proof := Some(s.sessions[a.sid].proof.value.(factors := after)))]
  {
  }
}
