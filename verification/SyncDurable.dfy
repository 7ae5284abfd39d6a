/** `tools/sync_spike/durable.py`: several processes over one database. Each database
    access is one transaction; between them any other process may run, and a process may
    die at any point, taking its memory with it. The memory of a process is the model of
    `SyncModel`. `commits` and `answered` are history: reports written to the database,
    and postflights answered 200. */
module SyncDurable {
  import opened Basics
  import opened SyncModel

  datatype Row = Row(revoked: bool, reported: int)

  datatype Database = Database(snapshots: map<int, Snapshot>, devices: map<Device, Row>)

  datatype Report = Report(device: Device, revision: int)

  /** Where a process is in `DurableModel.handle`. */
  datatype Stage =
    | Idle
    | Looked(device: Device, request: Request)                            // row read, not revoked
    | Reporting(device: Device, revision: int, previous: map<Device, int>) // memory says 200, nothing written yet
    | Committed(device: Device, revision: int)                            // written, 200 not sent yet

  datatype Process = Process(memory: Model, stage: Stage)

  datatype System = System(db: Database, processes: map<nat, Process>, commits: seq<Report>, answered: seq<Report>)

  datatype Action =
    | Publish(snapshot: Snapshot)
    | Revoke(device: Device)                        // committed first
    | Forget(pid: nat, device: Device)              // then the process drops its session
    | Start(pid: nat)
    | Crash(pid: nat)
    | Look(pid: nat, device: Device, request: Request)
    | Answer(pid: nat, now: int, matches: bool, intact: bool)
    | Commit(pid: nat)                              // the report transaction; it may refuse
    | Fail(pid: nat)                                // the database failed; rolled back
    | Reply(pid: nat)                               // the 200 of a committed postflight

  // -------------------------------------------------------------------- transactions

  function RowOf(db: Database, device: Device): Row {
    if device in db.devices then db.devices[device] else Row(false, 0)
  }

  /** `snapshot()`: the newest one. */
  function Newest(db: Database): (s: Option<Snapshot>)
    ensures s.Some? <==> db.snapshots != map[]
    ensures s.Some? ==> exists r :: r in db.snapshots && db.snapshots[r] == s.value && forall q :: q in db.snapshots ==> q <= r
  {
    if db.snapshots == map[] then None
    else
      Highest(db.snapshots.Keys);
      var r :| r in db.snapshots && forall q :: q in db.snapshots ==> q <= r;
      Some(db.snapshots[r])
  }

  lemma {:induction false} Highest(revisions: set<int>)
    requires revisions != {}
    ensures exists r :: r in revisions && forall q :: q in revisions ==> q <= r
  {
    assert (forall x: int :: x !in revisions) ==> revisions == {};
    var one: int :| one in revisions;
    if revisions != {one} {
      var rest := revisions - {one};
      Highest(rest);
      var r :| r in rest && forall q :: q in rest ==> q <= r;
      assert forall q :: q in revisions ==> q == one || q in rest;
      assert (if one > r then one else r) in revisions;
    }
  }

  /** `publish_fixture`: increasing revisions, nonempty, at most a hundred. */
  function Published(db: Database, s: Snapshot): (Database, bool) {
    if s.revision < 1 || s.rules == [] || |s.rules| > 100 || s.approval == "" || |s.approval| > 128
       || (exists r :: r in db.snapshots && s.revision <= r) || |db.snapshots| >= 100
    then (db, false)
    else (db.(snapshots := db.snapshots[s.revision := s]), true)
  }

  /** `revoke_fixture`. */
  function Revoked(db: Database, device: Device): Database {
    db.(devices := db.devices[device := RowOf(db, device).(revoked := true)])
  }

  /** `report_fixture`: refused for a revoked device, a regressing or an unknown revision. */
  function Reported(db: Database, device: Device, revision: int): (Database, bool) {
    var row := RowOf(db, device);
    if revision < 1 || row.revoked || revision < row.reported || revision !in db.snapshots then (db, false)
    else (db.(devices := db.devices[device := row.(reported := revision)]), true)
  }

  // --------------------------------------------------------------------------- steps

  predicate Running(s: System, pid: nat) { pid in s.processes }

  predicate IdleNow(s: System, pid: nat) { pid in s.processes && s.processes[pid].stage.Idle? }

  predicate Enabled(s: System, a: Action) {
    match a
    case Publish(_) => true
    case Revoke(_) => true
    case Forget(pid, _) => IdleNow(s, pid)
    case Start(pid) => pid !in s.processes && s.db.snapshots != map[]
    case Crash(pid) => Running(s, pid)
    case Look(pid, _, request) => IdleNow(s, pid) && (request.Preflight? ==> request.id !in s.processes[pid].memory.ids)
    case Answer(pid, _, _, _) => pid in s.processes && s.processes[pid].stage.Looked? && Pinned(s.processes[pid].memory)
    case Commit(pid) => pid in s.processes && s.processes[pid].stage.Reporting?
    case Fail(pid) => Running(s, pid) && (s.processes[pid].stage.Looked? || s.processes[pid].stage.Reporting?)
    case Reply(pid) => pid in s.processes && s.processes[pid].stage.Committed?
  }

  function Put(s: System, pid: nat, p: Process): System { s.(processes := s.processes[pid := p]) }

  /** Session dropped, memory put back, answer 503. */
  function GivenUp(p: Process): Process
    requires p.stage.Looked? || p.stage.Reporting?
  {
    var memory := SyncModel.Revoke(p.memory, p.stage.device);
    Process(if p.stage.Reporting? then memory.(acknowledged := p.stage.previous) else memory, Idle)
  }

  /** The in-memory part of `handle`, after the row was read. */
  function Answered(p: Process, db: Database, now: int, matches: bool, intact: bool): Process
    requires p.stage.Looked? && Pinned(p.memory)
  {
    var device, request := p.stage.device, p.stage.request;
    if request.Preflight? && (!intact || Newest(db).None?) then GivenUp(p)
    else
      var ready := if request.Preflight? then p.memory.(snapshot := Newest(db).value) else p.memory;
      var (memory, response) := Handle(ready, now, device, matches, request);
      if request.Postflight? && Code(response) == 200
      then Process(memory, Reporting(device, memory.acknowledged[device], ready.acknowledged))
      else Process(memory, Idle)
  }

  /** One request to one process that nothing interrupts; `fault`: the report transaction
      fails. The database and the memory afterwards, and the answer. */
  function Durably(db: Database, m: Model, now: int, device: Device, matches: bool, r: Request, fault: bool): (Database, Model, Response)
    requires Pinned(m)
  {
    var row := RowOf(db, device);
    var looked := m.(acknowledged := m.acknowledged[device := row.reported]);
    if row.revoked then (db, m, Status(403))
    else if r.Preflight? && Newest(db).None? then (db, SyncModel.Revoke(looked, device), Status(503))
    else
      Settled(db, if r.Preflight? then looked.(snapshot := Newest(db).value) else looked, now, device, matches, r, fault)
  }

  /** From the superclass on: a successful postflight counts only once it is stored. */
  function Settled(db: Database, ready: Model, now: int, device: Device, matches: bool, r: Request, fault: bool): (Database, Model, Response)
    requires Pinned(ready)
  {
    var (t, response) := Handle(ready, now, device, matches, r);
    if !(r.Postflight? && Code(response) == 200) then (db, t, response)
    else
      var (after, ok) := if fault then (db, false) else Reported(db, device, t.acknowledged[device]);
      if ok then (after, t, response)
      else (db, SyncModel.Revoke(t, device).(acknowledged := ready.acknowledged), Status(503))
  }

  function Do(s: System, a: Action): System
    requires Enabled(s, a)
  {
    match a
    case Publish(snapshot) => s.(db := Published(s.db, snapshot).0)
    case Revoke(device) => s.(db := Revoked(s.db, device))
    case Forget(pid, device) =>
      Put(s, pid, s.processes[pid].(memory := SyncModel.Revoke(s.processes[pid].memory, device)))
    case Start(pid) => Put(s, pid, Process(Init(Newest(s.db).value), Idle))
    case Crash(pid) => s.(processes := s.processes - {pid})
    case Look(pid, device, request) =>
      var row := RowOf(s.db, device);
      var p := s.processes[pid];
      if row.revoked then s
      else Put(s, pid, Process(p.memory.(acknowledged := p.memory.acknowledged[device := row.reported]), Looked(device, request)))
    case Answer(pid, now, matches, intact) => Put(s, pid, Answered(s.processes[pid], s.db, now, matches, intact))
    case Commit(pid) =>
      var p := s.processes[pid];
      var (db, ok) := Reported(s.db, p.stage.device, p.stage.revision);
      if !ok then Put(s, pid, GivenUp(p))
      else
        var report := Report(p.stage.device, p.stage.revision);
        Put(s, pid, p.(stage := Committed(report.device, report.revision))).(db := db, commits := s.commits + [report])
    case Fail(pid) => Put(s, pid, GivenUp(s.processes[pid]))
    case Reply(pid) =>
      var p := s.processes[pid];
      Put(s, pid, p.(stage := Idle)).(answered := s.answered + [Report(p.stage.device, p.stage.revision)])
  }

  ghost predicate Reaches(s: System, actions: seq<Action>, t: System)
    decreases |actions|
  {
    if actions == [] then s == t else Enabled(s, actions[0]) && Reaches(Do(s, actions[0]), actions[1..], t)
  }

  function Empty(): System { System(Database(map[], map[]), map[], [], []) }

  // ----------------------------------------------------------------------- invariant

  ghost predicate DatabaseOk(db: Database) {
    && (forall r :: r in db.snapshots ==> r >= 1 && db.snapshots[r].revision == r && db.snapshots[r].rules != [] && db.snapshots[r].approval != "")
    && (forall d :: d in db.devices ==> db.devices[d].reported == 0 || db.devices[d].reported in db.snapshots)
  }

  /** No acknowledgement in `known` is ahead of the database. */
  ghost predicate NotAhead(known: map<Device, int>, db: Database) {
    forall d :: d in known ==> known[d] <= RowOf(db, d).reported
  }

  /** Every session pins a snapshot exactly as the database has it. */
  ghost predicate FromDatabase(m: Model, db: Database) {
    forall d :: d in m.sessions ==>
      m.sessions[d].snapshot.revision in db.snapshots && db.snapshots[m.sessions[d].snapshot.revision] == m.sessions[d].snapshot
  }

  ghost predicate ProcessOk(p: Process, db: Database) {
    && Inv(p.memory) && FromDatabase(p.memory, db)
    && (p.stage.Looked? && p.stage.request.Preflight? ==> p.stage.request.id !in p.memory.ids)
    && if p.stage.Reporting? then
         && p.memory.acknowledged == p.stage.previous[p.stage.device := p.stage.revision]
         && NotAhead(p.stage.previous, db)
       else NotAhead(p.memory.acknowledged, db)
  }

  /** A report of a published revision that the device's row has reached. */
  ghost predicate StoredReport(r: Report, db: Database) {
    r.revision in db.snapshots && r.revision <= RowOf(db, r.device).reported
  }

  ghost predicate SystemOk(s: System) {
    && DatabaseOk(s.db)
    && (forall pid :: pid in s.processes ==> ProcessOk(s.processes[pid], s.db))
    && (forall pid :: pid in s.processes && s.processes[pid].stage.Committed? ==>
          Report(s.processes[pid].stage.device, s.processes[pid].stage.revision) in s.commits)
    && (forall i :: 0 <= i < |s.answered| ==> s.answered[i] in s.commits)
    && (forall i :: 0 <= i < |s.commits| ==> StoredReport(s.commits[i], s.db))
  }

  /** What a committed database keeps: published snapshots, revocations, and progress. */
  ghost predicate Grows(before: Database, after: Database) {
    && (forall r :: r in before.snapshots ==> r in after.snapshots && after.snapshots[r] == before.snapshots[r])
    && (forall d :: RowOf(before, d).reported <= RowOf(after, d).reported)
    && (forall d :: RowOf(before, d).revoked ==> RowOf(after, d) == RowOf(before, d))
  }

  lemma DatabaseStep(s: System, a: Action)
    requires Enabled(s, a) && DatabaseOk(s.db)
    ensures DatabaseOk(Do(s, a).db) && Grows(s.db, Do(s, a).db)
  {
  }

  // -------------------------------------------------------------------- preservation

  lemma AheadLater(known: map<Device, int>, before: Database, after: Database)
    requires NotAhead(known, before) && Grows(before, after)
    ensures NotAhead(known, after)
  {
  }

  lemma FromDatabaseLater(m: Model, before: Database, after: Database)
    requires FromDatabase(m, before) && Grows(before, after)
    ensures FromDatabase(m, after)
  {
  }

  lemma ProcessLater(p: Process, before: Database, after: Database)
    requires ProcessOk(p, before) && Grows(before, after)
    ensures ProcessOk(p, after)
  {
    FromDatabaseLater(p.memory, before, after);
    if p.stage.Reporting? { AheadLater(p.stage.previous, before, after); }
    else { AheadLater(p.memory.acknowledged, before, after); }
  }

  lemma GivenUpOk(p: Process, db: Database)
    requires ProcessOk(p, db) && (p.stage.Looked? || p.stage.Reporting?)
    ensures ProcessOk(GivenUp(p), db)
  {
    SamePages(p.memory, GivenUp(p).memory);
  }

  /** Outside a successful postflight the superclass leaves the acknowledgements alone. */
  lemma HandleAcknowledges(m: Model, now: int, device: Device, matches: bool, r: Request)
    requires Pinned(m)
    ensures
      var (t, response) := Handle(m, now, device, matches, r);
      if r.Postflight? && Code(response) == 200
      then device in t.acknowledged && t.acknowledged == m.acknowledged[device := t.acknowledged[device]]
      else t.acknowledged == m.acknowledged
  {
  }

  /** The superclass pins nothing but the selected snapshot. */
  lemma HandlePins(m: Model, now: int, device: Device, matches: bool, r: Request, db: Database)
    requires Pinned(m) && FromDatabase(m, db)
    requires r.Preflight? ==> m.snapshot.revision in db.snapshots && db.snapshots[m.snapshot.revision] == m.snapshot
    ensures FromDatabase(Handle(m, now, device, matches, r).0, db)
  {
  }

  lemma NewestIsStored(db: Database)
    requires DatabaseOk(db) && Newest(db).Some?
    ensures Newest(db).value.revision in db.snapshots && db.snapshots[Newest(db).value.revision] == Newest(db).value
  {
  }

  lemma AnsweredOk(p: Process, db: Database, now: int, matches: bool, intact: bool)
    requires DatabaseOk(db) && ProcessOk(p, db) && p.stage.Looked?
    ensures ProcessOk(Answered(p, db, now, matches, intact), db)
  {
    var device, request := p.stage.device, p.stage.request;
    if request.Preflight? && (!intact || Newest(db).None?) {
      GivenUpOk(p, db);
    } else {
      var ready := if request.Preflight? then p.memory.(snapshot := Newest(db).value) else p.memory;
      SamePages(p.memory, ready);
      StepKept(ready, Call(now, device, matches, request));
      HandleAcknowledges(ready, now, device, matches, request);
      if request.Preflight? { NewestIsStored(db); }
      HandlePins(ready, now, device, matches, request, db);
    }
  }

  lemma CommitOk(s: System, pid: nat)
    requires SystemOk(s) && Enabled(s, Commit(pid))
    ensures ProcessOk(Do(s, Commit(pid)).processes[pid], Do(s, Commit(pid)).db)
  {
    var p := s.processes[pid];
    var t := Do(s, Commit(pid));
    DatabaseStep(s, Commit(pid));
    if Reported(s.db, p.stage.device, p.stage.revision).1 {
      AheadLater(p.stage.previous, s.db, t.db);
      FromDatabaseLater(p.memory, s.db, t.db);
      assert RowOf(t.db, p.stage.device).reported == p.stage.revision;
    } else {
      GivenUpOk(p, s.db);
    }
  }

  /** The one process an action moves is in order afterwards. */
  lemma MoverOk(s: System, a: Action, pid: nat)
    requires SystemOk(s) && Enabled(s, a) && pid in Do(s, a).processes
    ensures ProcessOk(Do(s, a).processes[pid], Do(s, a).db)
  {
    DatabaseStep(s, a);
    var t := Do(s, a);
    if pid in s.processes && t.processes[pid] == s.processes[pid] {
      ProcessLater(s.processes[pid], s.db, t.db);
    } else {
      match a
      case Forget(_, device) => SamePages(s.processes[pid].memory, t.processes[pid].memory);
      case Look(_, device, request) => SamePages(s.processes[pid].memory, t.processes[pid].memory);
      case Answer(_, now, matches, intact) => AnsweredOk(s.processes[pid], s.db, now, matches, intact);
      case Commit(_) => CommitOk(s, pid);
      case Fail(_) => GivenUpOk(s.processes[pid], s.db);
      case _ =>
    }
  }

  lemma StepOk(s: System, a: Action)
    requires SystemOk(s) && Enabled(s, a)
    ensures SystemOk(Do(s, a))
  {
    DatabaseStep(s, a);
    forall pid | pid in Do(s, a).processes ensures ProcessOk(Do(s, a).processes[pid], Do(s, a).db) {
      MoverOk(s, a, pid);
    }
    HistoryOk(s, a);
  }

  lemma CommitsGrow(s: System, a: Action)
    requires Enabled(s, a)
    ensures s.commits <= Do(s, a).commits
    ensures forall r :: r in s.commits ==> r in Do(s, a).commits
  {
  }

  lemma CommittedOk(s: System, a: Action, pid: nat)
    requires SystemOk(s) && Enabled(s, a) && pid in Do(s, a).processes && Do(s, a).processes[pid].stage.Committed?
    ensures Report(Do(s, a).processes[pid].stage.device, Do(s, a).processes[pid].stage.revision) in Do(s, a).commits
  {
    var t := Do(s, a);
    if pid in s.processes && t.processes[pid] == s.processes[pid] {
      CommitsGrow(s, a);
    } else {
      assert a.Commit? && t.commits[|s.commits|] in t.commits;
    }
  }

  lemma AnsweredCommitted(s: System, a: Action)
    requires SystemOk(s) && Enabled(s, a)
    ensures forall i :: 0 <= i < |Do(s, a).answered| ==> Do(s, a).answered[i] in Do(s, a).commits
  {
    CommitsGrow(s, a);
  }

  lemma ReportLasts(r: Report, before: Database, after: Database)
    requires StoredReport(r, before) && Grows(before, after)
    ensures StoredReport(r, after)
  {
    assert RowOf(before, r.device).reported <= RowOf(after, r.device).reported;
  }

  lemma NewReport(s: System, a: Action)
    requires Enabled(s, a) && |Do(s, a).commits| > |s.commits|
    ensures Do(s, a).commits == s.commits + [Do(s, a).commits[|s.commits|]]
    ensures StoredReport(Do(s, a).commits[|s.commits|], Do(s, a).db)
  {
  }

  lemma CommitsStored(s: System, a: Action, i: nat)
    requires SystemOk(s) && Enabled(s, a) && i < |Do(s, a).commits|
    ensures StoredReport(Do(s, a).commits[i], Do(s, a).db)
  {
    DatabaseStep(s, a);
    CommitsGrow(s, a);
    if i < |s.commits| { ReportLasts(s.commits[i], s.db, Do(s, a).db); } else { NewReport(s, a); }
  }

  lemma HistoryOk(s: System, a: Action)
    requires SystemOk(s) && Enabled(s, a)
    ensures
      var t := Do(s, a);
      && s.commits <= t.commits
      && (forall pid :: pid in t.processes && t.processes[pid].stage.Committed? ==>
            Report(t.processes[pid].stage.device, t.processes[pid].stage.revision) in t.commits)
      && (forall i :: 0 <= i < |t.answered| ==> t.answered[i] in t.commits)
      && (forall i :: 0 <= i < |t.commits| ==> StoredReport(t.commits[i], t.db))
  {
    var t := Do(s, a);
    CommitsGrow(s, a);
    AnsweredCommitted(s, a);
    forall pid | pid in t.processes && t.processes[pid].stage.Committed?
      ensures Report(t.processes[pid].stage.device, t.processes[pid].stage.revision) in t.commits
    {
      CommittedOk(s, a, pid);
    }
    forall i | 0 <= i < |t.commits| ensures StoredReport(t.commits[i], t.db) {
      CommitsStored(s, a, i);
    }
  }

  lemma {:induction false} RunOk(s: System, actions: seq<Action>, t: System)
    requires SystemOk(s) && Reaches(s, actions, t)
    ensures SystemOk(t) && Grows(s.db, t.db) && s.commits <= t.commits
    decreases |actions|
  {
    if actions != [] {
      var u := Do(s, actions[0]);
      DatabaseStep(s, actions[0]);
      HistoryOk(s, actions[0]);
      StepOk(s, actions[0]);
      RunOk(u, actions[1..], t);
      GrowsTwice(s.db, u.db, t.db);
    }
  }

  lemma GrowsTwice(a: Database, b: Database, c: Database)
    requires Grows(a, b) && Grows(b, c)
    ensures Grows(a, c)
  {
  }

  // -------------------------------------------------------- an uninterrupted request

  /** The steps of the process from its look at the row to its answer. */
  function Steps(s: System, pid: nat, now: int, device: Device, matches: bool, r: Request, fault: bool): seq<Action>
    requires IdleNow(s, pid) && Pinned(s.processes[pid].memory)
  {
    var (db, m, response) := Durably(s.db, s.processes[pid].memory, now, device, matches, r, fault);
    if RowOf(s.db, device).revoked then [Look(pid, device, r)]
    else if !r.Postflight? then [Look(pid, device, r), Answer(pid, now, matches, true)]
    else if Code(response) == 200 then [Look(pid, device, r), Answer(pid, now, matches, true), Commit(pid), Reply(pid)]
    else if response == Status(503) then [Look(pid, device, r), Answer(pid, now, matches, true), if fault then Fail(pid) else Commit(pid)]
    else [Look(pid, device, r), Answer(pid, now, matches, true)]
  }

  lemma Prepend(s: System, a: Action, rest: seq<Action>, t: System)
    requires Enabled(s, a) && Reaches(Do(s, a), rest, t)
    ensures Reaches(s, [a] + rest, t)
  {
    assert ([a] + rest)[1..] == rest;
  }

  lemma DurablyIsSteps(s: System, pid: nat, now: int, device: Device, matches: bool, r: Request, fault: bool) returns (t: System)
    requires IdleNow(s, pid) && Pinned(s.processes[pid].memory)
    requires r.Preflight? ==> r.id !in s.processes[pid].memory.ids
    ensures Reaches(s, Steps(s, pid, now, device, matches, r, fault), t)
    ensures
      var (db, m, response) := Durably(s.db, s.processes[pid].memory, now, device, matches, r, fault);
      t.db == db && IdleNow(t, pid) && t.processes[pid].memory == m
  {
    var look := Look(pid, device, r);
    var u := Do(s, look);
    if RowOf(s.db, device).revoked {
      t := u;
      Prepend(s, look, [], t);
    } else {
      t := AnswerSteps(s, u, pid, now, device, matches, r, fault);
      Prepend(s, look, Steps(s, pid, now, device, matches, r, fault)[1..], t);
    }
  }

  lemma AnswerSteps(s: System, u: System, pid: nat, now: int, device: Device, matches: bool, r: Request, fault: bool) returns (t: System)
    requires IdleNow(s, pid) && Pinned(s.processes[pid].memory) && !RowOf(s.db, device).revoked
    requires r.Preflight? ==> r.id !in s.processes[pid].memory.ids
    requires u == Do(s, Look(pid, device, r))
    ensures Reaches(u, Steps(s, pid, now, device, matches, r, fault)[1..], t)
    ensures
      var (db, m, response) := Durably(s.db, s.processes[pid].memory, now, device, matches, r, fault);
      t.db == db && IdleNow(t, pid) && t.processes[pid].memory == m
  {
    var answer := Answer(pid, now, matches, true);
    var v := Do(u, answer);
    var all := Steps(s, pid, now, device, matches, r, fault);
    if v.processes[pid].stage.Reporting? {
      t := ReportSteps(s, v, pid, now, device, matches, r, fault);
      Prepend(u, answer, all[2..], t);
      assert all[1..] == [answer] + all[2..];
    } else {
      t := v;
      Prepend(u, answer, [], t);
      assert all[1..] == [answer] + [];
    }
  }

  lemma ReportSteps(s: System, v: System, pid: nat, now: int, device: Device, matches: bool, r: Request, fault: bool) returns (t: System)
    requires IdleNow(s, pid) && Pinned(s.processes[pid].memory) && !RowOf(s.db, device).revoked
    requires r.Preflight? ==> r.id !in s.processes[pid].memory.ids
    requires v == Do(Do(s, Look(pid, device, r)), Answer(pid, now, matches, true)) && v.processes[pid].stage.Reporting?
    ensures Reaches(v, Steps(s, pid, now, device, matches, r, fault)[2..], t)
    ensures
      var (db, m, response) := Durably(s.db, s.processes[pid].memory, now, device, matches, r, fault);
      t.db == db && IdleNow(t, pid) && t.processes[pid].memory == m
  {
    var last := if fault then Fail(pid) else Commit(pid);
    var w := Do(v, last);
    var all := Steps(s, pid, now, device, matches, r, fault);
    if w.processes[pid].stage.Committed? {
      t := Do(w, Reply(pid));
      Prepend(w, Reply(pid), [], t);
      Prepend(v, last, [Reply(pid)], t);
      assert all[2..] == [last] + [Reply(pid)];
    } else {
      t := w;
      Prepend(v, last, [], t);
      assert all[2..] == [last] + [];
    }
  }

  // ------------------------------------------------------------------- main results

  /** From any reachable state on: revisions stored for a device never fall and stay
      published, a revocation never clears, and a revoked device's row never changes. */
  lemma StoredProgress(actions: seq<Action>, s: System, more: seq<Action>, t: System, device: Device)
    requires Reaches(Empty(), actions, s) && Reaches(s, more, t)
    ensures RowOf(s.db, device).reported <= RowOf(t.db, device).reported
    ensures RowOf(t.db, device).reported == 0 || RowOf(t.db, device).reported in t.db.snapshots
    ensures RowOf(s.db, device).revoked ==> RowOf(t.db, device) == RowOf(s.db, device)
  {
    RunOk(Empty(), actions, s);
    RunOk(s, more, t);
  }

  /** No report of a revoked device is committed any more. */
  lemma {:induction false} NoReportAfterRevocation(s: System, actions: seq<Action>, t: System, device: Device)
    requires SystemOk(s) && Reaches(s, actions, t) && RowOf(s.db, device).revoked
    ensures |s.commits| <= |t.commits|
    ensures forall i :: |s.commits| <= i < |t.commits| ==> t.commits[i].device != device
    decreases |actions|
  {
    if actions != [] {
      var u := Do(s, actions[0]);
      DatabaseStep(s, actions[0]);
      StepOk(s, actions[0]);
      NoReportAfterRevocation(u, actions[1..], t, device);
      RunOk(u, actions[1..], t);
      forall i | |s.commits| <= i < |t.commits| ensures t.commits[i].device != device {
        if i < |u.commits| { assert t.commits[i] == u.commits[i]; }
      }
    }
  }

  /** Between requests the memory of a process acknowledges nothing the database lacks, and
      every postflight answered 200 is a committed report of a published revision. */
  lemma MemoryAndAnswers(actions: seq<Action>, s: System)
    requires Reaches(Empty(), actions, s)
    ensures forall pid, d :: pid in s.processes && !s.processes[pid].stage.Reporting? && d in s.processes[pid].memory.acknowledged ==>
      s.processes[pid].memory.acknowledged[d] <= RowOf(s.db, d).reported
    ensures forall i :: 0 <= i < |s.answered| ==>
      && s.answered[i] in s.commits && s.answered[i].revision in s.db.snapshots
      && s.answered[i].revision <= RowOf(s.db, s.answered[i].device).reported
  {
    RunOk(Empty(), actions, s);
    forall pid, d | pid in s.processes && !s.processes[pid].stage.Reporting? && d in s.processes[pid].memory.acknowledged
      ensures s.processes[pid].memory.acknowledged[d] <= RowOf(s.db, d).reported
    {
      assert ProcessOk(s.processes[pid], s.db);
    }
    forall i | 0 <= i < |s.answered|
      ensures s.answered[i].revision in s.db.snapshots && s.answered[i].revision <= RowOf(s.db, s.answered[i].device).reported
    {
      assert s.answered[i] in s.commits;
      var j :| 0 <= j < |s.commits| && s.commits[j] == s.answered[i];
    }
  }

  /** Through the durable form, too, a report stands for a session of that device in which
      every rule of the published snapshot of that revision was sent. */
  lemma ReportMeansAllSent(actions: seq<Action>, s: System, pid: nat, now: int, matches: bool, intact: bool)
    requires Reaches(Empty(), actions, s) && Enabled(s, Answer(pid, now, matches, intact))
    requires Do(s, Answer(pid, now, matches, intact)).processes[pid].stage.Reporting?
    ensures
      var stage := Do(s, Answer(pid, now, matches, intact)).processes[pid].stage;
      SentAll(s.processes[pid].memory, s.db, stage.device, stage.revision)
  {
    RunOk(Empty(), actions, s);
    assert ProcessOk(s.processes[pid], s.db);
    ReportingSent(s.processes[pid], s.db, now, matches, intact);
  }

  ghost predicate SentAll(m: Model, db: Database, device: Device, revision: int) {
    && device in m.sessions && revision in db.snapshots
    && forall i :: 0 <= i < |db.snapshots[revision].rules| ==>
         Page(device, m.sessions[device].id, i, db.snapshots[revision].rules[i]) in m.sent
  }

  lemma ReportingSent(p: Process, db: Database, now: int, matches: bool, intact: bool)
    requires ProcessOk(p, db) && p.stage.Looked? && Answered(p, db, now, matches, intact).stage.Reporting?
    ensures
      var stage := Answered(p, db, now, matches, intact).stage;
      SentAll(p.memory, db, stage.device, stage.revision)
  {
    AllSent(p.memory, now, p.stage.device, matches, p.stage.request);
  }
}
