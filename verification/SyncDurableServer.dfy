/** The durable form in place: the tables of `State`, and `DurableModel.handle` for a process
    that nobody interrupts. Interleavings and crashes are the subject of `SyncDurable`. */
module SyncDurableServer {
  import opened Basics
  import opened SyncModel
  import opened SyncDurable

  class State {
    var snapshots: map<int, Snapshot>
    var devices: map<Device, Row>

    function Contents(): Database
      reads this
    {
      Database(snapshots, devices)
    }

    constructor ()
      ensures Contents() == Database(map[], map[]) && DatabaseOk(Contents())
    {
      snapshots, devices := map[], map[];
    }

    method PublishFixture(s: Snapshot) returns (ok: bool)
      requires DatabaseOk(Contents())
      modifies this`snapshots
      ensures (Contents(), ok) == Published(old(Contents()), s)
      ensures ok <==> s.revision >= 1 && 1 <= |s.rules| <= 100 && 1 <= |s.approval| <= 128 && |old(snapshots)| < 100
                      && forall r :: r in old(snapshots) ==> r < s.revision
      ensures snapshots == if ok then old(snapshots)[s.revision := s] else old(snapshots)
      ensures DatabaseOk(Contents()) && Grows(old(Contents()), Contents())
    {
      if s.revision < 1 || s.rules == [] || |s.rules| > 100 || s.approval == "" || |s.approval| > 128 {
        return false;
      }
      if (exists r :: r in snapshots && s.revision <= r) || |snapshots| >= 100 {
        return false;
      }
      snapshots := snapshots[s.revision := s];
      return true;
    }

    method RevokeFixture(device: Device)
      requires DatabaseOk(Contents())
      modifies this`devices
      ensures Contents() == Revoked(old(Contents()), device)
      ensures device in devices && devices[device] == Row(true, if device in old(devices) then old(devices)[device].reported else 0)
      ensures forall d :: d != device ==> (d in devices <==> d in old(devices)) && (d in devices ==> devices[d] == old(devices)[d])
      ensures DatabaseOk(Contents()) && Grows(old(Contents()), Contents())
    {
      devices := devices[device := RowOf(Contents(), device).(revoked := true)];
    }

    method ReportFixture(device: Device, revision: int) returns (ok: bool)
      requires DatabaseOk(Contents())
      modifies this`devices
      ensures (Contents(), ok) == Reported(old(Contents()), device, revision)
      ensures ok <==> revision >= 1 && revision in snapshots
                      && (device in old(devices) ==> !old(devices)[device].revoked && old(devices)[device].reported <= revision)
      ensures devices == if ok then old(devices)[device := Row(false, revision)] else old(devices)
      ensures DatabaseOk(Contents()) && Grows(old(Contents()), Contents())
    {
      var row := RowOf(Contents(), device);
      if revision < 1 || row.revoked || revision < row.reported || revision !in snapshots {
        return false;
      }
      devices := devices[device := row.(reported := revision)];
      return true;
    }
  }

  /** The stored report replaces what the process remembers about the device. */
  method Refresh(server: Server, device: Device, reported: int)
    requires Inv(server.Contents())
    modifies server`acknowledged
    ensures Inv(server.Contents()) && server.acknowledged == old(server.acknowledged)[device := reported]
  {
    ghost var before := server.Contents();
    server.acknowledged := server.acknowledged[device := reported];
    SamePages(before, server.Contents());
  }

  /** The answer 503 drops the device's session and what was not committed. */
  method Abort(server: Server, device: Device, previous: map<Device, int>)
    requires Inv(server.Contents())
    modifies server`acknowledged, server`sessions
    ensures Inv(server.Contents()) && server.acknowledged == previous && server.sessions == old(server.sessions) - {device}
  {
    ghost var before := server.Contents();
    server.acknowledged := previous;
    server.sessions := server.sessions - {device};
    SamePages(before, server.Contents());
  }

  method Select(server: Server, snapshot: Snapshot)
    requires Inv(server.Contents())
    modifies server`snapshot
    ensures Inv(server.Contents()) && server.snapshot == snapshot
  {
    ghost var before := server.Contents();
    server.snapshot := snapshot;
    SamePages(before, server.Contents());
  }

  /** The report of a postflight that memory answered 200: committed, or taken back. */
  method Persist(state: State, server: Server, device: Device, previous: map<Device, int>, fault: bool) returns (ok: bool)
    requires DatabaseOk(state.Contents()) && Inv(server.Contents()) && NotAhead(previous, state.Contents())
    requires device in server.acknowledged && server.acknowledged == previous[device := server.acknowledged[device]]
    modifies state`devices, server`acknowledged, server`sessions
    ensures DatabaseOk(state.Contents()) && Grows(old(state.Contents()), state.Contents())
    ensures Inv(server.Contents()) && NotAhead(server.acknowledged, state.Contents())
    ensures ok ==>
      && device in server.acknowledged && RowOf(state.Contents(), device).reported == server.acknowledged[device]
      && server.acknowledged[device] in state.snapshots && !RowOf(state.Contents(), device).revoked
    ensures ok ==> server.acknowledged == old(server.acknowledged) && server.sessions == old(server.sessions)
    ensures !ok ==> server.acknowledged == previous && server.sessions == old(server.sessions) - {device}
    ensures (state.Contents(), ok) == if fault then (old(state.Contents()), false) else Reported(old(state.Contents()), device, old(server.acknowledged)[device])
  {
    ok := false;
    if !fault {
      ok := state.ReportFixture(device, server.acknowledged[device]);
    }
    AheadLater(previous, old(state.Contents()), state.Contents()) by {
      assert Grows(old(state.Contents()), state.Contents());
    }
    if !ok {
      Abort(server, device, previous);
    }
  }

  /** `DurableModel.handle`; `fault` is a database error during the report. */
  method HandleDurably(state: State, server: Server, now: int, device: Device, matches: bool, r: Request, fault: bool)
    returns (response: Response)
    requires DatabaseOk(state.Contents()) && Inv(server.Contents()) && NotAhead(server.acknowledged, state.Contents())
    requires r.Preflight? ==> r.id !in server.ids
    modifies state`devices, server
    ensures DatabaseOk(state.Contents()) && Grows(old(state.Contents()), state.Contents())
    ensures Inv(server.Contents()) && NotAhead(server.acknowledged, state.Contents())
    ensures (state.Contents(), server.Contents(), response) == Durably(old(state.Contents()), old(server.Contents()), now, device, matches, r, fault)
    ensures r.Postflight? && Code(response) == 200 ==>
      && device in server.acknowledged && RowOf(state.Contents(), device).reported == server.acknowledged[device]
      && server.acknowledged[device] in state.snapshots && !RowOf(state.Contents(), device).revoked
    ensures !(r.Postflight? && Code(response) == 200) ==> state.Contents() == old(state.Contents())
  {
    var row := RowOf(state.Contents(), device);
    if row.revoked {
      return Status(403);
    }
    Refresh(server, device, row.reported);
    if r.Preflight? {
      var newest := Newest(state.Contents());
      if newest.None? {
        Abort(server, device, server.acknowledged);
        return Status(503);
      }
      Select(server, newest.value);
    }
    response := Settle(state, server, now, device, matches, r, fault);
  }

  /** The superclass, then the report. */
  method Settle(state: State, server: Server, now: int, device: Device, matches: bool, r: Request, fault: bool)
    returns (response: Response)
    requires DatabaseOk(state.Contents()) && Inv(server.Contents()) && NotAhead(server.acknowledged, state.Contents())
    requires r.Preflight? ==> r.id !in server.ids
    modifies state`devices, server
    ensures DatabaseOk(state.Contents()) && Grows(old(state.Contents()), state.Contents())
    ensures Inv(server.Contents()) && NotAhead(server.acknowledged, state.Contents())
    ensures (state.Contents(), server.Contents(), response) == Settled(old(state.Contents()), old(server.Contents()), now, device, matches, r, fault)
    ensures r.Postflight? && Code(response) == 200 ==>
      && device in server.acknowledged && RowOf(state.Contents(), device).reported == server.acknowledged[device]
      && server.acknowledged[device] in state.snapshots && !RowOf(state.Contents(), device).revoked
    ensures !(r.Postflight? && Code(response) == 200) ==> state.Contents() == old(state.Contents())
  {
    var previous := server.acknowledged;
    HandleAcknowledges(server.Contents(), now, device, matches, r);
    response := server.Process(now, device, matches, r);
    if r.Postflight? && Code(response) == 200 {
      var ok := Persist(state, server, device, previous, fault);
      if !ok {
        return Status(503);
      }
    }
  }
}
