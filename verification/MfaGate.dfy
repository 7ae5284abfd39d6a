/** `RequireOperatorMFA.__call__`, `begin_enrollment`, the end of `prepare_mfa` and
    `complete_mfa` as they change session entries in place; each method is one action of
    `MfaSessions`. What the wrapped view does to the factors is a parameter; a fetched setup
    page is two methods, because other requests may run while its view does. */
module MfaGate {
  import opened Basics
  import opened MfaSessions

  class Gatekeeper {
    var now: int
    var accounts: map<nat, Account>
    var sessions: map<nat, Session>
    var checking: map<nat, Reading>
    var pending: map<nat, Proof>
    var pages: map<nat, Page>
    ghost var factorIds: set<nat>
    ghost var acceptances: set<Stamp>

    ghost function Contents(): System
      reads this
    {
      System(now, accounts, sessions, checking, pending, pages, factorIds, acceptances)
    }

    constructor (now: int)
      ensures Contents() == Init(now)
    {
      this.now, accounts, sessions, checking, pending, pages := now, map[], map[], map[], map[], map[];
      factorIds, acceptances := {}, {};
    }

    /** `_fresh`, with the record missing or present. */
    method IsFresh(record: Option<Stamp>, user: nat, ttl: int) returns (recent: bool)
      requires user in accounts
      ensures recent <==> record.Some? && Fresh(Contents(), record.value, user, ttl)
    {
      if record.None? || record.value.user != user || record.value.auth != accounts[user].auth {
        return false;
      }
      var age := now - record.value.issued;
      return 0 <= age && age <= ttl;
    }

    /** `_proof`. */
    method HasProof(sid: nat) returns (verified: bool)
      requires sid in sessions && sessions[sid].user in accounts
      ensures verified <==> Verified(Contents(), sid)
    {
      var session := sessions[sid];
      var factors := accounts[session.user].factors;
      if factors == {} || session.proof.None? {
        return false;
      }
      var recent := IsFresh(Some(session.proof.value.stamp), session.user, PROOF_MS);
      return recent && session.mfa && session.proof.value.factors == factors;
    }

    method LogOut(sid: nat)
      modifies this`sessions
      ensures Contents() == Logged(old(Contents()), sid)
    {
      sessions := sessions - {sid};
    }

    /** `begin_enrollment`: only a local user without any factor, under a new session state. */
    method BeginEnrollment(sid: nat, user: nat) returns (ok: bool)
      requires user in accounts && sid !in pages
      modifies this`sessions
      ensures ok <==> Enabled(old(Contents()), Enroll(sid, user))
      ensures ok <==> accounts[user].local && accounts[user].factors == {}
      ensures ok ==> sid in sessions && sessions[sid] == Session(user, None, false, Some(Stamp(user, accounts[user].auth, now)))
      ensures !ok ==> sid !in sessions
      ensures Contents() == if ok then Do(old(Contents()), Enroll(sid, user)) else Logged(old(Contents()), sid)
    {
      if !accounts[user].local || accounts[user].factors != {} {
        LogOut(sid);
        return false;
      }
      sessions := sessions[sid := Session(user, None, false, Some(Stamp(user, accounts[user].auth, now)))];
      return true;
    }

    /** The first step of `prepare_mfa`: a local user's own factor, among those it has now. */
    method CheckFactor(sid: nat, user: nat, factor: nat) returns (ok: bool)
      requires user in accounts && sid !in pages
      modifies this`sessions, this`checking
      ensures ok <==> Enabled(old(Contents()), Begin(sid, user, factor))
      ensures ok <==> accounts[user].local && factor in accounts[user].factors
      ensures if ok then sid in checking && checking[sid] == Reading(user, accounts[user].auth, accounts[user].factors) else sid !in sessions
      ensures Contents() == if ok then Do(old(Contents()), Begin(sid, user, factor)) else Logged(old(Contents()), sid)
    {
      if !accounts[user].local || factor !in accounts[user].factors {
        LogOut(sid);
        return false;
      }
      checking := checking[sid := Reading(user, accounts[user].auth, accounts[user].factors)];
      return true;
    }

    /** Its last step, after both claims: the proof names what was read, at the time it is now. */
    method AcceptFactor(sid: nat)
      requires sid in checking && sid !in pages
      modifies this`checking, this`pending, this`acceptances
      ensures Contents() == Do(old(Contents()), Accept(sid))
      ensures sid in pending && pending[sid] == Proof(Stamp(old(checking[sid]).user, old(checking[sid]).auth, now), old(checking[sid]).factors)
    {
      var read := checking[sid];
      var stamp := Stamp(read.user, read.auth, now);
      checking := checking - {sid};
      pending := pending[sid := Proof(stamp, read.factors)];
      acceptances := acceptances + {stamp};
    }

    /** `complete_mfa`. */
    method CompleteMfa(sid: nat)
      requires sid in pending && sid !in pages
      modifies this`sessions, this`pending
      ensures Contents() == Do(old(Contents()), Complete(sid))
      ensures sid in sessions && sessions[sid] == Session(old(pending[sid]).stamp.user, Some(old(pending[sid])), true, None)
    {
      var proof := pending[sid];
      sessions := sessions[sid := Session(proof.stamp.user, Some(proof), true, None)];
      pending := pending - {sid};
    }

    /** The view behind the gate, with its effect on the user's factors. */
    method RunView(user: nat, effect: Effect)
      requires user in accounts
      modifies this`accounts, this`factorIds
      ensures accounts == old(accounts)[user := old(accounts)[user].(factors := After(old(accounts)[user].factors, effect))]
      ensures factorIds == if effect.Adds? then old(factorIds) + {effect.factor} else old(factorIds)
    {
      accounts := accounts[user := accounts[user].(factors := After(accounts[user].factors, effect))];
      if effect.Adds? { factorIds := factorIds + {effect.factor}; }
    }

    /** After the view: an enrolling session that now has a factor signs in again; the
        session that changed the factors takes the new set into its proof, not a new time. */
    method Served(sid: nat, view: View, effect: Effect)
      requires sid in sessions && sessions[sid].user in accounts
      modifies this`accounts, this`factorIds, this`sessions
      ensures Contents() == Serve(old(Contents()), sid, view, effect)
    {
      var user := sessions[sid].user;
      var before := accounts[user].factors;
      var verified := HasProof(sid);
      var recent := IsFresh(sessions[sid].enroll, user, ENROLL_MS);
      RunView(user, effect);
      var after := accounts[user].factors;
      if view.Logout? || (before == {} && recent && after != {}) {
        LogOut(sid);
      } else if verified && after != before {
        sessions := sessions[sid := sessions[sid].(proof := Some(sessions[sid].proof.value.(factors := after)))];
      }
    }

    /** `__call__` for a fetched setup page, up to its view: what was read is kept. */
    method OpenSetupPage(sid: nat, store: bool) returns (verdict: Verdict)
      requires Enabled(Contents(), OpenPage(sid, store))
      modifies this`sessions, this`pages
      ensures verdict == Gate(old(Contents()), sid, Setup(false), store)
      ensures Contents() == Do(old(Contents()), OpenPage(sid, store))
    {
      var user := sessions[sid].user;
      var verified := HasProof(sid);
      var recent := IsFresh(sessions[sid].enroll, user, ENROLL_MS);
      verdict := Decide(sid, Setup(false), store);
      match verdict
      case Reached => pages := pages[sid := Page(accounts[user].factors, verified, accounts[user].factors == {} && recent)];
      case Forbidden => LogOut(sid);
      case SentToLogin => LogOut(sid);
      case _ =>
    }

    /** And from its view on: the factors are read again, the verdict is not. */
    method CloseSetupPage(sid: nat)
      requires sid in pages
      modifies this`sessions, this`pages
      ensures Contents() == Do(old(Contents()), ClosePage(sid))
    {
      var page := pages[sid];
      pages := pages - {sid};
      if sid in sessions {
        var user := sessions[sid].user;
        var after := if user in accounts then accounts[user].factors else {};
        if page.enrolling && after != {} {
          LogOut(sid);
        } else if page.verified && after != page.factors && sessions[sid].proof.Some? {
          sessions := sessions[sid := sessions[sid].(proof := Some(sessions[sid].proof.value.(factors := after)))];
        }
      }
    }

    /** `__call__` for any other authenticated request. `store`: the security store answered. */
    method Call(sid: nat, view: View, store: bool, effect: Effect) returns (verdict: Verdict)
      requires Enabled(Contents(), Request(sid, view, store, effect))
      modifies this`accounts, this`factorIds, this`sessions
      ensures verdict == Gate(old(Contents()), sid, view, store)
      ensures Contents() == Do(old(Contents()), Request(sid, view, store, effect))
    {
      verdict := Decide(sid, view, store);
      match verdict
      case Reached => Served(sid, view, effect);
      case Forbidden => LogOut(sid);
      case SentToLogin => LogOut(sid);
      case _ =>
    }

    method Decide(sid: nat, view: View, store: bool) returns (verdict: Verdict)
      requires sid in sessions && sessions[sid].user in accounts
      ensures verdict == Gate(Contents(), sid, view, store)
    {
      if !view.Logout? && !store {
        return Unavailable;
      }
      var user := sessions[sid].user;
      if !accounts[user].local {
        return Forbidden;
      }
      if view.Logout? {
        return Reached;
      }
      var factors := accounts[user].factors;
      var verified := HasProof(sid);
      var recent := IsFresh(sessions[sid].enroll, user, ENROLL_MS);
      if !verified {
        if factors != {} || !recent {
          return SentToLogin;
        }
        if !view.Setup? {
          return SentToSetup;
        }
      }
      if view == Delete(true) && |factors| <= 1 {
        return Refused;
      }
      return Reached;
    }
  }
}
