/** What the sync model answers, request by request, and that a client which does its part gets
    through: preflight, one download a rule along the cursors, and a clean postflight are all
    answered 200 and acknowledge the revision that was pinned. */
module SyncAnswers {
  import opened Basics
  import opened SyncModel
  import SyncDurable

  /** A preflight is served exactly if the selected snapshot has rules and an approval and is
      not older than what the device acknowledged. Then the device has an unexpired session:
      the one it had, if that is unacknowledged, or a new one for that snapshot. */
  lemma PreflightAnswers(m: Model, now: int, device: Device, id: nat)
    requires Pinned(m)
    ensures
      var (t, r) := Handle(m, now, device, true, Preflight(id));
      var usable := m.snapshot.rules != [] && m.snapshot.approval != "";
      var older := device in m.acknowledged && m.snapshot.revision < m.acknowledged[device];
      var first := device !in m.acknowledged && m.snapshot.revision < 0;
      var kept := device in m.sessions && now < m.sessions[device].expires && !m.sessions[device].acked;
      && (r == Status(200) <==> (usable && !older && !first))
      && (r == Status(503) <==> !usable)
      && (r == Status(409) <==> (usable && (older || first)))
      && (r == Status(200) && kept ==> t == m)
      && (r == Status(200) && !kept ==>
            t == m.(sessions := m.sessions[device := Session(id, m.snapshot, now + 300, {}, false)], ids := m.ids + {id}))
      && (r != Status(200) ==> t == m)
  {
  }

  /** Nothing else is served without a session, and nothing at all to another machine. */
  lemma RefusedAnswers(m: Model, now: int, device: Device, r: Request)
    requires Pinned(m)
    ensures Handle(m, now, device, false, r) == (m, Status(403))
    ensures !r.Preflight? && !(device in m.sessions && now < m.sessions[device].expires) ==>
              Handle(m, now, device, true, r) == (m, Status(409))
  {
  }

  /** Every rule was served, and the device says that it received and processed them all. */
  ghost predicate Finished(s: Session, received: Option<int>, processed: Option<int>, clean: bool) {
    var n := |s.snapshot.rules|;
    received == Some(n) && processed == Some(n) && clean && forall i :: i in s.served <==> 0 <= i < n
  }

  /** Within a session: which uploads are stored, which cursors stand for a page, and what a
      postflight must say. */
  lemma SessionAnswers(m: Model, now: int, device: Device, r: Request)
    requires Pinned(m) && Unexpired(m, device, now) && !r.Preflight?
    ensures
      var s := m.sessions[device];
      var n := |s.snapshot.rules|;
      var (t, answer) := Handle(m, now, device, true, r);
      match r
      case EventUpload(events) =>
        var shaped := events.Some? && 1 <= |events.value| <= 50 && forall i :: 0 <= i < |events.value| ==> events.value[i].shaped;
        var had := if device in m.events then m.events[device] else {};
        && (answer == Status(400) <==> !shaped)
        && (answer == Status(429) <==> (shaped && |had + Digests(events.value)| > 256))
        && (answer == Status(200) <==> (shaped && |had + Digests(events.value)| <= 256))
        && t == if answer == Status(200) then m.(events := m.events[device := had + Digests(events.value)]) else m
      case RuleDownload(p) =>
        var good := p.Empty? || (p.Signed? && p.cursor in m.issued && p.cursor.device == device && p.cursor.session == s.id
                                 && p.cursor.revision == s.snapshot.revision && 1 <= p.cursor.offset < n);
        (answer.Rules? <==> good) && (!good ==> answer == Status(400) && t == m)
        && (good ==> answer.rule == s.snapshot.rules[if p.Empty? then 0 else p.cursor.offset])
      case Postflight(received, processed, clean) =>
        var all := Finished(s, received, processed, clean);
        && (answer == Status(200) <==> all) && (answer == Status(409) <==> !all)
        && t == if all then m.(acknowledged := m.acknowledged[device := s.snapshot.revision], sessions := m.sessions[device := s.(acked := true)]) else m
      case _ => answer == Status(404) && t == m
  {
    if r.Postflight? {
      var s := m.sessions[device];
      assert s.served == UpTo(|s.snapshot.rules|) <==> forall i :: i in s.served <==> 0 <= i < |s.snapshot.rules|;
    }
  }

  // ----------------------------------------------------------------------- a whole sync

  /** While the device keeps its session, no page that was served is forgotten. */
  lemma ServedStep(m: Model, a: Action, device: Device)
    requires Inv(m) && Enabled(m, a) && device in m.sessions && device in Do(m, a).sessions
    requires Do(m, a).sessions[device].id == m.sessions[device].id
    ensures m.sessions[device].served <= Do(m, a).sessions[device].served
  {
    if a.Call? && a.request.RuleDownload? {
      ServedDownload(m, a, device);
    } else if a.Call? && a.request.Preflight? {
      ServedPreflight(m, a, device);
    } else if a.Call? {
      OtherCallPaging(m, a.now, a.device, a.matches, a.request);
    }
  }

  lemma ServedDownload(m: Model, a: Action, device: Device)
    requires Pinned(m) && a.Call? && a.request.RuleDownload? && device in m.sessions
    ensures
      var t := Handle(m, a.now, a.device, a.matches, a.request).0;
      device in t.sessions && m.sessions[device].served <= t.sessions[device].served
  {
  }

  lemma ServedPreflight(m: Model, a: Action, device: Device)
    requires Inv(m) && a.Call? && a.request.Preflight? && a.request.id !in m.ids && device in m.sessions
    ensures
      var t := Handle(m, a.now, a.device, a.matches, a.request).0;
      device in t.sessions && (t.sessions[device].id == m.sessions[device].id ==> t.sessions[device] == m.sessions[device])
  {
  }

  lemma {:induction false} ServedStays(m: Model, actions: seq<Action>, t: Model, device: Device)
    requires Inv(m) && Reaches(m, actions, t) && device in m.sessions && device in t.sessions
    requires t.sessions[device].id == m.sessions[device].id
    ensures m.sessions[device].served <= t.sessions[device].served && t.sessions[device].snapshot == m.sessions[device].snapshot
    decreases |actions|
  {
    if actions != [] {
      var u := Do(m, actions[0]);
      StepKept(m, actions[0]);
      StepPins(m, actions[0], device);
      SessionIsPinned(u, actions[1..], t, device);
      assert m.sessions[device].id in m.ids && m.ids <= u.ids;
      ServedStep(m, actions[0], device);
      ServedStays(u, actions[1..], t, device);
    }
  }

  lemma TurnServes(t: Turn, device: Device, offset: nat)
    requires Inv(t.before) && Unexpired(t.before, device, t.now)
    requires Answer(t, device).1.Rules? && Offset(t.before, t.presented, device, t.before.sessions[device]) == Some(offset)
    ensures
      var after := Answer(t, device).0;
      device in after.sessions && offset in after.sessions[device].served
      && t.before.sessions[device].served <= after.sessions[device].served
  {
  }

  /** After turn `i`, the first `i + 1` pages have been served in every later state. */
  lemma {:induction false} TurnsServe(turns: seq<Turn>, device: Device, id: nat, i: nat)
    requires Follows(turns, device, id) && i < |turns|
    ensures
      var after := Answer(turns[i], device).0;
      && Inv(after) && device in after.sessions && after.sessions[device].id == id
      && after.sessions[device].snapshot == turns[0].before.sessions[device].snapshot
      && forall k: int :: 0 <= k <= i ==> k in after.sessions[device].served
    decreases i
  {
    var turn := turns[i];
    FollowingDelivers(turns, device, id, i);
    StepKept(turn.before, Call(turn.now, device, true, RuleDownload(turn.presented)));
    AnswerKeeps(turn, device);
    if i > 0 {
      TurnsServe(turns, device, id, i - 1);
      assert NextTurn(turns[i - 1], turns[i], device);
      var after := Answer(turns[i - 1], device).0;
      var actions: seq<Action> :| Reaches(after, actions, turn.before);
      ServedStays(after, actions, turn.before, device);
      FollowingDelivers(turns, device, id, i - 1);
    }
    OffsetOfTurn(turns, device, id, i);
    TurnServes(turn, device, i);
  }

  lemma OffsetOfTurn(turns: seq<Turn>, device: Device, id: nat, i: nat)
    requires Follows(turns, device, id) && i < |turns|
    ensures Offset(turns[i].before, turns[i].presented, device, turns[i].before.sessions[device]) == Some(i)
  {
    FollowingDelivers(turns, device, id, i);
    if i > 0 {
      FollowingDelivers(turns, device, id, i - 1);
      assert NextTurn(turns[i - 1], turns[i], device);
    }
  }

  /** A client that is through: one turn a rule from a state that `m` leads to, and then `u`. */
  ghost predicate Fetched(m: Model, device: Device, turns: seq<Turn>, u: Model) {
    && device in m.sessions && Follows(turns, device, m.sessions[device].id) && turns != []
    && |turns| == |m.sessions[device].snapshot.rules| && Leads(m, turns[0].before)
    && Leads(Answer(turns[|turns| - 1], device).0, u)
    && device in u.sessions && u.sessions[device].id == m.sessions[device].id
  }

  lemma PinnedAtStart(m: Model, device: Device, turns: seq<Turn>)
    requires Inv(m) && device in m.sessions && Follows(turns, device, m.sessions[device].id) && turns != [] && Leads(m, turns[0].before)
    ensures turns[0].before.sessions[device].snapshot == m.sessions[device].snapshot
  {
    var start: seq<Action> :| Reaches(m, start, turns[0].before);
    SessionIsPinned(m, start, turns[0].before, device);
  }

  lemma FullyServed(m: Model, device: Device, turns: seq<Turn>, u: Model)
    requires Inv(m) && Fetched(m, device, turns, u)
    ensures Inv(u) && u.sessions[device].snapshot == m.sessions[device].snapshot
    ensures forall k: int :: 0 <= k < |m.sessions[device].snapshot.rules| ==> k in u.sessions[device].served
  {
    PinnedAtStart(m, device, turns);
    TurnsServe(turns, device, m.sessions[device].id, |turns| - 1);
    var after := Answer(turns[|turns| - 1], device).0;
    LaterServed(after, u, device);
  }

  lemma LaterServed(after: Model, u: Model, device: Device)
    requires Inv(after) && Leads(after, u) && device in after.sessions && device in u.sessions
    requires u.sessions[device].id == after.sessions[device].id
    ensures Inv(u) && after.sessions[device].served <= u.sessions[device].served
    ensures u.sessions[device].snapshot == after.sessions[device].snapshot
  {
    var end: seq<Action> :| Reaches(after, end, u);
    RunKept(after, end, u);
    ServedStays(after, end, u, device);
  }

  /** A clean postflight with the right counts is answered 200 and acknowledges the revision. */
  ghost predicate Acknowledges(u: Model, now: int, device: Device, count: int, revision: int) {
    && Pinned(u)
    && var (t, answer) := Handle(u, now, device, true, Postflight(Some(count), Some(count), true));
       answer == Status(200) && device in t.acknowledged && t.acknowledged[device] == revision
  }

  lemma ServedAcknowledges(u: Model, now: int, device: Device)
    requires Inv(u) && Unexpired(u, device, now)
    requires forall k: int :: 0 <= k < |u.sessions[device].snapshot.rules| ==> k in u.sessions[device].served
    ensures Acknowledges(u, now, device, |u.sessions[device].snapshot.rules|, u.sessions[device].snapshot.revision)
  {
    var k: nat :| Prefix(u, device, k);
    UpToCovers(k, |u.sessions[device].snapshot.rules|);
  }

  lemma UpToCovers(k: nat, n: nat)
    requires forall i: int :: 0 <= i < n ==> i in UpTo(k)
    ensures n <= k
  {
    assert n == 0 || n - 1 in UpTo(k);
  }

  /** Whatever others do meanwhile: if after a preflight the client fetches one page a rule,
      following the cursors, and its session lives on, its clean postflight is answered 200
      and acknowledges the revision pinned at the preflight. */
  lemma SyncCompletes(m: Model, device: Device, turns: seq<Turn>, u: Model, now: int)
    requires Inv(m) && Fetched(m, device, turns, u) && Unexpired(u, device, now)
    ensures Acknowledges(u, now, device, |m.sessions[device].snapshot.rules|, m.sessions[device].snapshot.revision)
  {
    FullyServed(m, device, turns, u);
    ServedAcknowledges(u, now, device);
  }

  // ------------------------------------------------------------- with nothing in between

  lemma SessionKeepsTime(t: Turn, device: Device)
    requires Inv(t.before) && Unexpired(t.before, device, t.now)
    ensures Unexpired(Answer(t, device).0, device, t.now)
  {
  }

  /** One more turn, right after the last one. */
  lemma NextStraight(turns: seq<Turn>, device: Device, id: nat, now: int) returns (more: seq<Turn>)
    requires Follows(turns, device, id) && turns != [] && |turns| < |turns[0].before.sessions[device].snapshot.rules|
    requires turns[|turns| - 1].now == now
    ensures Follows(more, device, id) && |more| == |turns| + 1 && more[0] == turns[0] && more[|turns|].now == now
  {
    var last := turns[|turns| - 1];
    FollowingDelivers(turns, device, id, |turns| - 1);
    TurnsServe(turns, device, id, |turns| - 1);
    SessionKeepsTime(last, device);
    var (after, r) := Answer(last, device);
    assert Reaches(after, [], after);
    var turn := Turn(after, now, Signed(r.next.value));
    assert NextTurn(last, turn, device);
    more := turns + [turn];
    assert forall i :: 0 <= i < |turns| ==> more[i] == turns[i];
  }

  /** The turns of a client that nothing interrupts, all at one moment. */
  lemma {:induction false} Straight(m: Model, device: Device, now: int, count: nat) returns (turns: seq<Turn>)
    requires Inv(m) && Unexpired(m, device, now) && 1 <= count <= |m.sessions[device].snapshot.rules|
    ensures |turns| == count && Follows(turns, device, m.sessions[device].id) && turns[0].before == m && turns[count - 1].now == now
    decreases count
  {
    if count == 1 {
      turns := [Turn(m, now, Empty)];
    } else {
      var before := Straight(m, device, now, count - 1);
      turns := NextStraight(before, device, m.sessions[device].id, now);
    }
  }

  /** An uninterrupted sync in the session at hand, to its end. */
  ghost predicate Deliverable(m: Model, now: int, device: Device) {
    && device in m.sessions
    && exists turns: seq<Turn>, u: Model ::
         Fetched(m, device, turns, u) && turns[0].before == m
         && Acknowledges(u, now, device, |m.sessions[device].snapshot.rules|, m.sessions[device].snapshot.revision)
  }

  lemma StraightFetches(m: Model, device: Device, now: int, turns: seq<Turn>)
    requires Inv(m) && Unexpired(m, device, now) && Follows(turns, device, m.sessions[device].id) && turns != []
    requires turns[0].before == m && |turns| == |m.sessions[device].snapshot.rules| && turns[|turns| - 1].now == now
    ensures
      var u := Answer(turns[|turns| - 1], device).0;
      Fetched(m, device, turns, u) && Unexpired(u, device, now)
  {
    var last := turns[|turns| - 1];
    var u := Answer(last, device).0;
    assert Reaches(m, [], m) && Reaches(u, [], u);
    TurnsServe(turns, device, m.sessions[device].id, |turns| - 1);
    FollowingDelivers(turns, device, m.sessions[device].id, |turns| - 1);
    SessionKeepsTime(last, device);
  }

  lemma SessionDelivers(m: Model, now: int, device: Device)
    requires Inv(m) && Unexpired(m, device, now)
    ensures Deliverable(m, now, device)
  {
    var turns := Straight(m, device, now, |m.sessions[device].snapshot.rules|);
    var u := Answer(turns[|turns| - 1], device).0;
    StraightFetches(m, device, now, turns);
    SyncCompletes(m, device, turns, u, now);
  }

  /** From every state in which the selected snapshot is usable and not older than what the
      device acknowledged: the preflight is served, and the session it leaves can be
      followed to an acknowledgement of the revision it pins. */
  lemma UninterruptedSync(m: Model, now: int, device: Device, id: nat)
    requires Inv(m) && id !in m.ids
    requires m.snapshot.rules != [] && m.snapshot.approval != "" && m.snapshot.revision >= Acknowledged(m, device)
    ensures Handle(m, now, device, true, Preflight(id)).1 == Status(200)
    ensures Deliverable(Handle(m, now, device, true, Preflight(id)).0, now, device)
  {
    PreflightAnswers(m, now, device, id);
    StepKept(m, Call(now, device, true, Preflight(id)));
    SessionDelivers(Handle(m, now, device, true, Preflight(id)).0, now, device);
  }

  // ------------------------------------------------------------------ the durable form

  /** What the row of a device says; a device without one is not revoked and reported nothing. */
  predicate IsRevoked(db: SyncDurable.Database, device: Device) { device in db.devices && db.devices[device].revoked }

  function LastReport(db: SyncDurable.Database, device: Device): int {
    if device in db.devices then db.devices[device].reported else 0
  }

  /** Over a sound database a preflight is served exactly if the device is not revoked, the
      machine is the right one and anything was ever published: the newest snapshot is always
      usable, and no report is ahead of it. A new session pins the newest snapshot. */
  lemma DurablePreflight(db: SyncDurable.Database, m: Model, now: int, device: Device, matches: bool, id: nat, fault: bool)
    requires SyncDurable.DatabaseOk(db) && Inv(m)
    ensures
      var (after, t, r) := SyncDurable.Durably(db, m, now, device, matches, Preflight(id), fault);
      var kept := device in m.sessions && now < m.sessions[device].expires && !m.sessions[device].acked;
      && after == db
      && (r == Status(403) <==> IsRevoked(db, device) || (db.snapshots != map[] && !matches))
      && (r == Status(503) <==> !IsRevoked(db, device) && db.snapshots == map[])
      && (r == Status(200) <==> !IsRevoked(db, device) && db.snapshots != map[] && matches)
      && (r == Status(200) ==> device in t.sessions && now < t.sessions[device].expires)
      && (r == Status(200) && kept ==> t.sessions == m.sessions)
      && (r == Status(200) && !kept ==>
            exists newest :: newest in db.snapshots && (forall q :: q in db.snapshots ==> q <= newest)
              && t.sessions == m.sessions[device := Session(id, db.snapshots[newest], now + 300, {}, false)])
  {
    var looked := m.(acknowledged := m.acknowledged[device := LastReport(db, device)]);
    if !IsRevoked(db, device) && db.snapshots != map[] {
      var ready := looked.(snapshot := SyncDurable.Newest(db).value);
      if matches { PreflightAnswers(ready, now, device, id); } else { RefusedAnswers(ready, now, device, Preflight(id)); }
    }
  }

  /** From the superclass on, for a device that is not revoked. */
  lemma PostflightSettled(db: SyncDurable.Database, m: Model, now: int, device: Device, received: Option<int>, processed: Option<int>, clean: bool, fault: bool)
    requires SyncDurable.DatabaseOk(db) && Pinned(m) && Unexpired(m, device, now) && !IsRevoked(db, device)
    requires m.sessions[device].snapshot.revision in db.snapshots
    ensures
      var (after, t, r) := SyncDurable.Settled(db, m, now, device, true, Postflight(received, processed, clean), fault);
      var s := m.sessions[device];
      var stored := !fault && LastReport(db, device) <= s.snapshot.revision;
      && r == Status(if !Finished(s, received, processed, clean) then 409 else if stored then 200 else 503)
      && after == (if r == Status(200) then db.(devices := db.devices[device := SyncDurable.Row(false, s.snapshot.revision)]) else db)
      && (r == Status(503) ==> t.sessions == m.sessions - {device})
  {
    SessionAnswers(m, now, device, Postflight(received, processed, clean));
  }

  /** A postflight in a session is answered 200 exactly if memory accepts it, the report
      transaction does not fail and another process did not report a later revision. Only
      then is anything written, and it is that revision. */
  lemma DurablePostflight(db: SyncDurable.Database, m: Model, now: int, device: Device, received: Option<int>, processed: Option<int>, clean: bool, fault: bool)
    requires SyncDurable.DatabaseOk(db) && Inv(m) && SyncDurable.FromDatabase(m, db) && Unexpired(m, device, now)
    ensures
      var (after, t, r) := SyncDurable.Durably(db, m, now, device, true, Postflight(received, processed, clean), fault);
      var s := m.sessions[device];
      var all := Finished(s, received, processed, clean);
      var stored := !fault && LastReport(db, device) <= s.snapshot.revision;
      && (r == Status(403) <==> IsRevoked(db, device))
      && (r == Status(409) <==> !IsRevoked(db, device) && !all)
      && (r == Status(200) <==> !IsRevoked(db, device) && all && stored)
      && (r == Status(503) <==> !IsRevoked(db, device) && all && !stored)
      && after == (if r == Status(200) then db.(devices := db.devices[device := SyncDurable.Row(false, s.snapshot.revision)]) else db)
      && (r == Status(503) ==> t.sessions == m.sessions - {device})
  {
    var looked := m.(acknowledged := m.acknowledged[device := LastReport(db, device)]);
    assert SyncDurable.RowOf(db, device).reported == LastReport(db, device);
    if !IsRevoked(db, device) {
      PostflightSettled(db, looked, now, device, received, processed, clean, fault);
    }
  }

  /** Pages and uploads do not depend on what was acknowledged. */
  lemma MemoryAlone(m: Model, now: int, device: Device, matches: bool, r: Request, known: map<Device, int>)
    requires Pinned(m) && !r.Preflight? && !r.Postflight?
    ensures
      var (t, answer) := Handle(m.(acknowledged := known), now, device, matches, r);
      var (u, plain) := Handle(m, now, device, matches, r);
      answer == plain && t == u.(acknowledged := known)
  {
  }

  /** Anything else an unrevoked device asks is answered as by memory alone; the database
      stays. A revoked device gets 403 for every request, and nothing changes. */
  lemma DurableRest(db: SyncDurable.Database, m: Model, now: int, device: Device, matches: bool, r: Request, fault: bool)
    requires Inv(m)
    ensures IsRevoked(db, device) ==> SyncDurable.Durably(db, m, now, device, matches, r, fault) == (db, m, Status(403))
    ensures !IsRevoked(db, device) && !r.Preflight? && !r.Postflight? ==>
              var (after, t, answer) := SyncDurable.Durably(db, m, now, device, matches, r, fault);
              var (u, plain) := Handle(m, now, device, matches, r);
              after == db && answer == plain && t == u.(acknowledged := m.acknowledged[device := LastReport(db, device)])
  {
    assert SyncDurable.RowOf(db, device).reported == LastReport(db, device);
    if !IsRevoked(db, device) && !r.Preflight? && !r.Postflight? {
      MemoryAlone(m, now, device, matches, r, m.acknowledged[device := LastReport(db, device)]);
    }
  }
}
