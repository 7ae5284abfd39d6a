/** `tools/sync_spike/model.py`: preflight pins a snapshot in a session, rule download pages
    through it with signed cursors, postflight acknowledges it. The signature is ideal, so a
    cursor is accepted only if it was issued; session ids are fresh. `sent` and `ids` are
    history: the pages sent, and the session ids used. */
module SyncModel {
  import opened Basics

  const MAX_EVENTS := 50
  const MAX_EVENT_DIGESTS := 256
  const SESSION_SECONDS := 300

  type Device = string

  datatype Snapshot = Snapshot(revision: int, rules: seq<string>, approval: string)

  datatype Session = Session(id: nat, snapshot: Snapshot, expires: int, served: set<int>, acked: bool)

  datatype Cursor = Cursor(device: Device, session: nat, revision: int, offset: int)

  datatype Page = Page(device: Device, session: nat, offset: int, rule: string)

  datatype Model = Model(
    snapshot: Snapshot,
    sessions: map<Device, Session>,
    acknowledged: map<Device, int>,
    events: map<Device, set<nat>>,
    issued: set<Cursor>,
    ids: set<nat>,
    sent: set<Page>)

  /** What a request presents as its cursor. */
  datatype Presented = Empty | Junk | Signed(cursor: Cursor)

  /** One uploaded event: whether it has the required shape, and its canonical digest. */
  datatype Event = Event(shaped: bool, digest: nat)

  datatype Request =
    | Preflight(id: nat)                                            // the id `secrets` would return
    | EventUpload(events: Option<seq<Event>>)
    | RuleDownload(cursor: Presented)
    | Postflight(received: Option<int>, processed: Option<int>, clean: bool)
    | OtherStage

  datatype Response = Status(code: int) | Rules(rule: string, next: Option<Cursor>)

  function Code(r: Response): int { if r.Rules? then 200 else r.code }

  predicate Unexpired(m: Model, device: Device, now: int) {
    device in m.sessions && now < m.sessions[device].expires
  }

  function Acknowledged(m: Model, device: Device): int {
    if device in m.acknowledged then m.acknowledged[device] else 0
  }

  function Digests(events: seq<Event>): set<nat> {
    set i | 0 <= i < |events| :: events[i].digest
  }

  function UpTo(n: nat): (s: set<int>)
    ensures forall i :: i in s <==> 0 <= i < n
  {
    if n == 0 then {} else UpTo(n - 1) + {n - 1}
  }

  /** `offset`: the position a cursor stands for in this session. */
  function Offset(m: Model, p: Presented, device: Device, s: Session): Option<int> {
    match p
    case Empty => Some(0)
    case Junk => None
    case Signed(c) =>
      if c in m.issued && c.device == device && c.session == s.id && c.revision == s.snapshot.revision
         && 1 <= c.offset < |s.snapshot.rules|
      then Some(c.offset) else None
  }

  function DoPreflight(m: Model, now: int, device: Device, id: nat): (Model, Response) {
    if m.snapshot.rules == [] || m.snapshot.approval == "" then (m, Status(503))
    else if m.snapshot.revision < Acknowledged(m, device) then (m, Status(409))
    else if Unexpired(m, device, now) && !m.sessions[device].acked then (m, Status(200))
    else (m.(sessions := m.sessions[device := Session(id, m.snapshot, now + SESSION_SECONDS, {}, false)], ids := m.ids + {id}),
          Status(200))
  }

  function DoUpload(m: Model, device: Device, events: Option<seq<Event>>): (Model, Response) {
    if events.None? || !(1 <= |events.value| <= MAX_EVENTS) || exists i :: 0 <= i < |events.value| && !events.value[i].shaped
    then (m, Status(400))
    else
      var combined := (if device in m.events then m.events[device] else {}) + Digests(events.value);
      if |combined| > MAX_EVENT_DIGESTS then (m, Status(429))
      else (m.(events := m.events[device := combined]), Status(200))
  }

  function DoDownload(m: Model, device: Device, p: Presented): (Model, Response)
    requires device in m.sessions && m.sessions[device].snapshot.rules != []
  {
    var s := m.sessions[device];
    match Offset(m, p, device, s)
    case None => (m, Status(400))
    case Some(offset) =>
      var rule := s.snapshot.rules[offset];
      var next := if offset + 1 < |s.snapshot.rules| then Some(Cursor(device, s.id, s.snapshot.revision, offset + 1)) else None;
      (m.(sessions := m.sessions[device := s.(served := s.served + {offset})],
          issued := if next.Some? then m.issued + {next.value} else m.issued,
          sent := m.sent + {Page(device, s.id, offset, rule)}),
       Rules(rule, next))
  }

  function DoPostflight(m: Model, device: Device, received: Option<int>, processed: Option<int>, clean: bool): (Model, Response)
    requires device in m.sessions
  {
    var s := m.sessions[device];
    var count := |s.snapshot.rules|;
    if received != Some(count) || processed != Some(count) || s.served != UpTo(count) || !clean then (m, Status(409))
    else (m.(acknowledged := m.acknowledged[device := s.snapshot.revision], sessions := m.sessions[device := s.(acked := true)]),
          Status(200))
  }

  /** No stored session pins an empty snapshot, so a page always exists. */
  predicate Pinned(m: Model) {
    forall d :: d in m.sessions ==> m.sessions[d].snapshot.rules != []
  }

  /** `handle`; `matches` is whether the body's machine id is the authenticated device. */
  function Handle(m: Model, now: int, device: Device, matches: bool, r: Request): (Model, Response)
    requires Pinned(m)
  {
    if !matches then (m, Status(403))
    else if r.Preflight? then DoPreflight(m, now, device, r.id)
    else if !Unexpired(m, device, now) then (m, Status(409))
    else
      match r
      case EventUpload(events) => DoUpload(m, device, events)
      case RuleDownload(p) => DoDownload(m, device, p)
      case Postflight(received, processed, clean) => DoPostflight(m, device, received, processed, clean)
      case _ => (m, Status(404))
  }

  function Revoke(m: Model, device: Device): Model { m.(sessions := m.sessions - {device}) }

  // ----------------------------------------------------------------------- runs

  datatype Action =
    | Call(now: int, device: Device, matches: bool, request: Request)
    | Publish(snapshot: Snapshot)          // the operator selects a newer snapshot
    | Withdraw(device: Device)             // revocation or rotation of a device
    | Learn(device: Device, revision: int) // the durable form refreshes its acknowledgement

  predicate Enabled(m: Model, a: Action) {
    Pinned(m) && (a.Call? && a.request.Preflight? ==> a.request.id !in m.ids)
  }

  function Do(m: Model, a: Action): Model
    requires Enabled(m, a)
  {
    match a
    case Call(now, device, matches, request) => Handle(m, now, device, matches, request).0
    case Publish(snapshot) => m.(snapshot := snapshot)
    case Withdraw(device) => Revoke(m, device)
    case Learn(device, revision) => m.(acknowledged := m.acknowledged[device := revision])
  }

  ghost predicate Reaches(m: Model, actions: seq<Action>, t: Model)
    decreases |actions|
  {
    if actions == [] then m == t else Enabled(m, actions[0]) && Reaches(Do(m, actions[0]), actions[1..], t)
  }

  function Init(snapshot: Snapshot): Model { Model(snapshot, map[], map[], map[], {}, {}, {}) }

  // ------------------------------------------------------------------- invariant

  /** The pages of one session: the first `k` were served, and no cursor points past `k`. */
  ghost predicate Prefix(m: Model, d: Device, k: nat)
    requires d in m.sessions
  {
    var s := m.sessions[d];
    && k <= |s.snapshot.rules| && s.served == UpTo(k)
    && (forall c :: c in m.issued && c.session == s.id ==> c.device == d && c.revision == s.snapshot.revision && 1 <= c.offset <= k)
    && (forall i :: 0 <= i < k ==> Page(d, s.id, i, s.snapshot.rules[i]) in m.sent)
  }

  ghost predicate Inv(m: Model) {
    && Pinned(m)
    && (forall d :: d in m.sessions ==> m.sessions[d].id in m.ids && exists k: nat :: Prefix(m, d, k))
    && (forall d, e :: d in m.sessions && e in m.sessions && d != e ==> m.sessions[d].id != m.sessions[e].id)
    && (forall c :: c in m.issued ==> c.session in m.ids)
  }

  lemma PreflightKept(m: Model, now: int, device: Device, id: nat)
    requires Inv(m) && id !in m.ids
    ensures Inv(DoPreflight(m, now, device, id).0)
  {
    var t := DoPreflight(m, now, device, id).0;
    if t != m {
      assert Prefix(t, device, 0);
      forall d | d in m.sessions && d != device ensures exists k: nat :: Prefix(t, d, k) {
        var k: nat :| Prefix(m, d, k);
        assert Prefix(t, d, k);
      }
    }
  }

  /** A client cannot point past the first page it has not been served. */
  lemma OffsetBound(m: Model, device: Device, p: Presented, k: nat)
    requires device in m.sessions && m.sessions[device].snapshot.rules != [] && Prefix(m, device, k)
    ensures
      var offset := Offset(m, p, device, m.sessions[device]);
      offset.Some? ==> 0 <= offset.value <= k && offset.value < |m.sessions[device].snapshot.rules|
  {
  }

  lemma Extend(k: nat, offset: nat)
    requires offset <= k
    ensures UpTo(k) + {offset} == UpTo(if offset == k then k + 1 else k)
  {
  }

  /** Serving such a page extends the prefix by at most one. */
  lemma OwnPrefix(m: Model, device: Device, p: Presented, k: nat) returns (after: nat)
    requires device in m.sessions && m.sessions[device].snapshot.rules != [] && Prefix(m, device, k)
    requires Offset(m, p, device, m.sessions[device]).Some?
    ensures Prefix(DoDownload(m, device, p).0, device, after)
  {
    OffsetBound(m, device, p, k);
    var offset := Offset(m, p, device, m.sessions[device]).value;
    Extend(k, offset);
    after := if offset == k then k + 1 else k;
  }

  lemma UpToSame(a: nat, b: nat)
    requires UpTo(a) == UpTo(b)
    ensures a == b
  {
    assert (a in UpTo(b)) == (a < b);
    assert (b in UpTo(a)) == (b < a);
  }

  lemma OtherPrefix(m: Model, device: Device, p: Presented, d: Device, k: nat)
    requires Inv(m) && device in m.sessions && d in m.sessions && d != device && Prefix(m, d, k)
    ensures Prefix(DoDownload(m, device, p).0, d, k)
  {
    var t := DoDownload(m, device, p).0;
    assert t.sessions[d] == m.sessions[d];
    assert forall c :: c in t.issued && c.session == m.sessions[d].id ==> c in m.issued;
  }

  lemma DownloadKept(m: Model, device: Device, p: Presented)
    requires Inv(m) && device in m.sessions
    ensures Inv(DoDownload(m, device, p).0)
  {
    var t := DoDownload(m, device, p).0;
    if Offset(m, p, device, m.sessions[device]).Some? {
      forall d | d in m.sessions ensures exists k: nat :: Prefix(t, d, k) {
        var k: nat :| Prefix(m, d, k);
        if d == device {
          var after := OwnPrefix(m, device, p, k);
        } else {
          OtherPrefix(m, device, p, d, k);
        }
      }
      DownloadRest(m, device, p);
    }
  }

  lemma DownloadRest(m: Model, device: Device, p: Presented)
    requires device in m.sessions && m.sessions[device].snapshot.rules != [] && Offset(m, p, device, m.sessions[device]).Some?
    ensures
      var t := DoDownload(m, device, p).0;
      && t.sessions.Keys == m.sessions.Keys && t.ids == m.ids
      && (forall d :: d in m.sessions ==> t.sessions[d].id == m.sessions[d].id && t.sessions[d].snapshot == m.sessions[d].snapshot)
      && (forall c :: c in t.issued ==> c in m.issued || c.session == m.sessions[device].id)
  {
  }

  /** Steps that touch neither pages, cursors nor the identity of sessions. */
  lemma SamePages(m: Model, t: Model)
    requires Inv(m) && SamePaging(m, t)
    ensures Inv(t)
  {
    forall d | d in t.sessions ensures exists k: nat :: Prefix(t, d, k) {
      var k: nat :| Prefix(m, d, k);
      assert Prefix(t, d, k);
    }
  }

  ghost predicate SamePaging(m: Model, t: Model) {
    && t.issued == m.issued && t.ids == m.ids && t.sent == m.sent
    && forall d :: d in t.sessions ==> d in m.sessions && t.sessions[d].(acked := m.sessions[d].acked) == m.sessions[d]
  }

  lemma OtherCallPaging(m: Model, now: int, device: Device, matches: bool, r: Request)
    requires Pinned(m) && !r.Preflight? && !r.RuleDownload?
    ensures SamePaging(m, Handle(m, now, device, matches, r).0)
  {
  }

  lemma OtherCallKept(m: Model, now: int, device: Device, matches: bool, r: Request)
    requires Inv(m) && !r.Preflight? && !r.RuleDownload?
    ensures Inv(Handle(m, now, device, matches, r).0)
  {
    OtherCallPaging(m, now, device, matches, r);
    SamePages(m, Handle(m, now, device, matches, r).0);
  }

  lemma StepKept(m: Model, a: Action)
    requires Inv(m) && Enabled(m, a)
    ensures Inv(Do(m, a))
  {
    if !a.Call? {
      SamePages(m, Do(m, a));
    } else if a.request.Preflight? {
      PreflightKept(m, a.now, a.device, a.request.id);
    } else if a.request.RuleDownload? {
      if a.device in m.sessions { DownloadKept(m, a.device, a.request.cursor); }
    } else {
      OtherCallKept(m, a.now, a.device, a.matches, a.request);
    }
  }

  /** What a session pins: kept by every action that keeps the session's id. */
  ghost predicate Pins(m: Model, t: Model, d: Device) {
    && m.issued <= t.issued && m.ids <= t.ids
    && (d in t.sessions ==>
          || t.sessions[d].id !in m.ids
          || (d in m.sessions && t.sessions[d].id == m.sessions[d].id && t.sessions[d].snapshot == m.sessions[d].snapshot
              && t.sessions[d].expires == m.sessions[d].expires))
  }

  lemma StepPins(m: Model, a: Action, d: Device)
    requires Enabled(m, a)
    ensures Pins(m, Do(m, a), d)
  {
  }

  lemma {:induction false} RunKept(m: Model, actions: seq<Action>, t: Model)
    requires Inv(m) && Reaches(m, actions, t)
    ensures Inv(t)
    decreases |actions|
  {
    if actions != [] {
      StepKept(m, actions[0]);
      RunKept(Do(m, actions[0]), actions[1..], t);
    }
  }

  // ---------------------------------------------------------------- main results

  lemma AllSent(m: Model, now: int, device: Device, matches: bool, r: Request)
    requires Inv(m) && r.Postflight? && Handle(m, now, device, matches, r).1 == Status(200)
    ensures device in m.sessions
    ensures
      var s := m.sessions[device];
      && Handle(m, now, device, matches, r).0.acknowledged[device] == s.snapshot.revision
      && forall i :: 0 <= i < |s.snapshot.rules| ==> Page(device, s.id, i, s.snapshot.rules[i]) in m.sent
  {
    var k: nat :| Prefix(m, device, k);
    UpToSame(k, |m.sessions[device].snapshot.rules|);
  }

  /** In every reachable state: a postflight answered 200 acknowledges a snapshot of which
      every rule was sent to that device in that session. */
  lemma PostflightMeansAllSent(first: Snapshot, actions: seq<Action>, m: Model, now: int, device: Device, r: Request)
    requires Reaches(Init(first), actions, m) && r.Postflight?
    requires Pinned(m) && Handle(m, now, device, true, r).1 == Status(200)
    ensures device in m.sessions
    ensures
      var s := m.sessions[device];
      && Handle(m, now, device, true, r).0.acknowledged[device] == s.snapshot.revision
      && forall i :: 0 <= i < |s.snapshot.rules| ==> Page(device, s.id, i, s.snapshot.rules[i]) in m.sent
  {
    RunKept(Init(first), actions, m);
    AllSent(m, now, device, true, r);
  }

  /** What a session pins never changes while the device keeps that session. */
  lemma {:induction false} SessionIsPinned(m: Model, actions: seq<Action>, t: Model, device: Device)
    requires Inv(m) && Reaches(m, actions, t)
    ensures Pins(m, t, device)
    decreases |actions|
  {
    if actions != [] {
      var u := Do(m, actions[0]);
      StepKept(m, actions[0]);
      StepPins(m, actions[0], device);
      SessionIsPinned(u, actions[1..], t, device);
      PinsTwice(m, u, t, device);
    }
  }

  lemma PinsTwice(m: Model, u: Model, t: Model, d: Device)
    requires Pins(m, u, d) && Pins(u, t, d)
    ensures Pins(m, t, d)
  {
  }

  /** One page: in an unexpired session the answer depends only on the pinned rules and the
      offset, so repeated requests give identical pages. */
  lemma PageAt(m: Model, now: int, device: Device, p: Presented, offset: nat)
    requires Inv(m) && Unexpired(m, device, now) && offset < |m.sessions[device].snapshot.rules|
    requires if offset == 0 then p == Empty
             else p == Signed(Cursor(device, m.sessions[device].id, m.sessions[device].snapshot.revision, offset)) && p.cursor in m.issued
    ensures
      var s := m.sessions[device];
      var (t, r) := Handle(m, now, device, true, RuleDownload(p));
      r == Rules(s.snapshot.rules[offset],
                 if offset + 1 < |s.snapshot.rules| then Some(Cursor(device, s.id, s.snapshot.revision, offset + 1)) else None)
      && device in t.sessions && t.sessions[device].id == s.id && t.sessions[device].snapshot == s.snapshot
      && (r.next.Some? ==> r.next.value in t.issued)
  {
  }

  /** One request of a client that follows cursors: the state it found, what it presented. */
  datatype Turn = Turn(before: Model, now: int, presented: Presented)

  function Answer(t: Turn, device: Device): (Model, Response)
    requires Pinned(t.before)
  {
    Handle(t.before, t.now, device, true, RuleDownload(t.presented))
  }

  /** The client starts with the empty cursor and presents what the last answer returned.
      Anything may happen between its requests, as long as its session lives on. */
  ghost predicate Follows(turns: seq<Turn>, device: Device, id: nat) {
    && (forall i :: 0 <= i < |turns| ==>
          Inv(turns[i].before) && Unexpired(turns[i].before, device, turns[i].now) && turns[i].before.sessions[device].id == id)
    && (turns != [] ==> turns[0].presented == Empty)
    && (forall i, j :: 0 <= i < |turns| && j == i + 1 < |turns| ==> NextTurn(turns[i], turns[j], device))
  }

  ghost predicate Leads(m: Model, t: Model) { exists actions: seq<Action> :: Reaches(m, actions, t) }

  ghost predicate NextTurn(t: Turn, u: Turn, device: Device) {
    && Pinned(t.before)
    && var answer := Answer(t, device);
       answer.1.Rules? && answer.1.next.Some? && u.presented == Signed(answer.1.next.value) && Leads(answer.0, u.before)
  }

  /** Such a client receives the pinned rules in order, one a request, and its last answer
      carries no cursor exactly when it has received them all. */
  lemma {:induction false} FollowingDelivers(turns: seq<Turn>, device: Device, id: nat, i: nat)
    requires Follows(turns, device, id) && i < |turns|
    ensures turns[i].before.sessions[device].snapshot == turns[0].before.sessions[device].snapshot
    ensures
      var rules := turns[0].before.sessions[device].snapshot.rules;
      var (_, r) := Answer(turns[i], device);
      && i < |rules| && r.Rules? && r.rule == rules[i]
      && (r.next.None? <==> i == |rules| - 1)
      && (r.next.Some? ==> r.next.value == Cursor(device, id, turns[0].before.sessions[device].snapshot.revision, i + 1))
    decreases i
  {
    if i == 0 {
      PageAt(turns[0].before, turns[0].now, device, Empty, 0);
    } else {
      var prior := turns[i - 1];
      FollowingDelivers(turns, device, id, i - 1);
      assert NextTurn(turns[i - 1], turns[i], device);
      var (after, r) := Answer(prior, device);
      StepKept(prior.before, Call(prior.now, device, true, RuleDownload(prior.presented)));
      var actions: seq<Action> :| Reaches(after, actions, turns[i].before);
      AnswerKeeps(prior, device);
      SessionIsPinned(after, actions, turns[i].before, device);
      PageAt(turns[i].before, turns[i].now, device, turns[i].presented, i);
    }
  }

  lemma AnswerKeeps(t: Turn, device: Device)
    requires Inv(t.before) && Unexpired(t.before, device, t.now)
    ensures
      var (after, r) := Answer(t, device);
      && device in after.sessions && after.sessions[device].id == t.before.sessions[device].id
      && after.sessions[device].snapshot == t.before.sessions[device].snapshot
      && after.sessions[device].id in after.ids
      && (r.Rules? && r.next.Some? ==> r.next.value in after.issued)
  {
  }

  // -------------------------------------------------------------------- in place

  class Server {
    var snapshot: Snapshot
    var sessions: map<Device, Session>
    var acknowledged: map<Device, int>
    var events: map<Device, set<nat>>
    var issued: set<Cursor>
    ghost var ids: set<nat>
    ghost var sent: set<Page>

    ghost function Contents(): Model
      reads this
    {
      Model(snapshot, sessions, acknowledged, events, issued, ids, sent)
    }

    constructor (snapshot: Snapshot)
      ensures Contents() == Init(snapshot) && Inv(Contents())
    {
      this.snapshot, sessions, acknowledged, events := snapshot, map[], map[], map[];
      issued, ids, sent := {}, {}, {};
    }

    method Process(now: int, device: Device, matches: bool, r: Request) returns (response: Response)
      requires Inv(Contents()) && (r.Preflight? ==> r.id !in ids)
      modifies this
      ensures (Contents(), response) == Handle(old(Contents()), now, device, matches, r)
      ensures Inv(Contents())
    {
      StepKept(Contents(), Call(now, device, matches, r));
      if !matches {
        return Status(403);
      }
      if r.Preflight? {
        if snapshot.rules == [] || snapshot.approval == "" {
          return Status(503);
        }
        if snapshot.revision < (if device in acknowledged then acknowledged[device] else 0) {
          return Status(409);
        }
        if device !in sessions || now >= sessions[device].expires || sessions[device].acked {
          sessions := sessions[device := Session(r.id, snapshot, now + SESSION_SECONDS, {}, false)];
          ids := ids + {r.id};
        }
        return Status(200);
      }
      if device !in sessions || now >= sessions[device].expires {
        return Status(409);
      }
      match r
      case EventUpload(up) => response := Upload(device, up);
      case RuleDownload(p) => response := Download(device, p);
      case Postflight(received, processed, clean) =>
        var s := sessions[device];
        var count := |s.snapshot.rules|;
        if received != Some(count) || processed != Some(count) || s.served != UpTo(count) || !clean {
          return Status(409);
        }
        acknowledged := acknowledged[device := s.snapshot.revision];
        sessions := sessions[device := s.(acked := true)];
        response := Status(200);
      case _ => response := Status(404);
    }

    /** Shape checks first, then the bounded set of digests. */
    method Upload(device: Device, up: Option<seq<Event>>) returns (response: Response)
      modifies this`events
      ensures (Contents(), response) == DoUpload(old(Contents()), device, up)
    {
      if up.None? || |up.value| < 1 || |up.value| > MAX_EVENTS {
        return Status(400);
      }
      var digests: set<nat> := {};
      for i := 0 to |up.value|
        invariant Contents() == old(Contents())
        invariant digests == Digests(up.value[..i])
        invariant forall k :: 0 <= k < i ==> up.value[k].shaped
      {
        if !up.value[i].shaped {
          return Status(400);
        }
        assert up.value[..i + 1] == up.value[..i] + [up.value[i]];
        DigestsAppend(up.value[..i], up.value[i]);
        digests := digests + {up.value[i].digest};
      }
      assert up.value[..|up.value|] == up.value;
      var combined := (if device in events then events[device] else {}) + digests;
      if |combined| > MAX_EVENT_DIGESTS {
        return Status(429);
      }
      events := events[device := combined];
      return Status(200);
    }

    method Download(device: Device, p: Presented) returns (response: Response)
      requires device in sessions && sessions[device].snapshot.rules != []
      modifies this`sessions, this`issued, this`sent
      ensures (Contents(), response) == DoDownload(old(Contents()), device, p)
    {
      var s := sessions[device];
      var offset := 0;
      if p.Junk? {
        return Status(400);
      }
      if p.Signed? {
        var c := p.cursor;
        if c !in issued || c.device != device || c.session != s.id || c.revision != s.snapshot.revision
           || c.offset < 1 || c.offset >= |s.snapshot.rules|
        {
          return Status(400);
        }
        offset := c.offset;
      }
      sessions := sessions[device := s.(served := s.served + {offset})];
      sent := sent + {Page(device, s.id, offset, s.snapshot.rules[offset])};
      var next: Option<Cursor> := None;
      if offset + 1 < |s.snapshot.rules| {
        next := Some(Cursor(device, s.id, s.snapshot.revision, offset + 1));
        issued := issued + {next.value};
      }
      return Rules(s.snapshot.rules[offset], next);
    }
  }

  lemma DigestsAppend(events: seq<Event>, e: Event)
    ensures Digests(events + [e]) == Digests(events) + {e.digest}
  {
    var all := events + [e];
    forall d | d in Digests(events) ensures d in Digests(all) {
      var i :| 0 <= i < |events| && events[i].digest == d;
      assert all[i].digest == d;
    }
    assert all[|events|].digest == e.digest;
  }
}
