/** The host controller of `runtime_service.py` as it runs: one object, its fields and its
    log of commands. Docker, the file system and the signals are a sequence of answers, one
    for each command or pause; every command may fail or hang, a signal may arrive with any
    answer, and when the answers end the process is killed where it is, with no cleanup. */
module Supervisor {
  import opened Basics
  import opened Supervision

  datatype Why = Cancelled | Failed | Killed

  datatype Result<+T> = Done(value: T) | Raised(why: Why) {
    predicate IsFailure() { Raised? }
    function PropagateFailure<U>(): Result<U>
      requires IsFailure()
    {
      Raised(why)
    }
    function Extract(): T
      requires !IsFailure()
    {
      value
    }
  }

  /** The part of `authorized` that is in `current`, in order. */
  function Present(authorized: seq<Id>, current: seq<Id>): (r: seq<Id>)
    ensures forall id :: id in r <==> id in authorized && id in current
  {
    if authorized == [] then [] else (if authorized[0] in current then [authorized[0]] else []) + Present(authorized[1..], current)
  }

  /** The containers on the host by the listing at `at` of the log. */
  predicate Lists(world: World, log: Log, at: int) {
    0 <= at < |log| && log[at].Passed? && log[at].command == Look(Listing) && log[at].answer < |world.answers|
  }

  /** The log ends with a listing without any authorised container, or with one and the stop
      of every authorised container that it shows. */
  ghost predicate Swept(world: World, log: Log, authorized: seq<Id>) {
    || authorized == []
    || (Lists(world, log, |log| - 1) && forall id :: id in authorized ==> id !in world.answers[log[|log| - 1].answer].listing)
    || (Lists(world, log, |log| - 3) && log[|log| - 1].Passed? && log[|log| - 1].command.Stop?
        && forall id :: id in authorized && id in world.answers[log[|log| - 3].answer].listing ==> id in log[|log| - 1].command.ids)
  }

  /** The log ends with the refusal of the listing, or with that of the stop of every
      authorised container that the listing shows. */
  ghost predicate SweepRefused(world: World, log: Log, authorized: seq<Id>) {
    |log| > 0 && log[|log| - 1].Refused? &&
    (log[|log| - 1].command == Look(Listing)
     || (Lists(world, log, |log| - 3) && log[|log| - 1].command.Stop?
         && forall id :: id in authorized && id in world.answers[log[|log| - 3].answer].listing ==> id in log[|log| - 1].command.ids))
  }

  /** What one command adds to the log. */
  ghost predicate Adds(a: Log, b: Log, c: Command) {
    || b == a || b == a + [Issued(c)]
    || (|b| == |a| + 2 && (b[|a| + 1].Passed? || b[|a| + 1].Refused?) && b[|a| + 1].command == c && b == a + [Issued(c), b[|a| + 1]])
  }

  /** The containers in hand are those of the anchor that this startup matched. */
  ghost predicate Of(log: Log, s: Steps, ids: set<Id>) {
    s.anchor < |log| && log[s.anchor].Anchored? && log[s.anchor].selected.Values == ids
  }

  /** The log justifies starting this group of these containers. */
  ghost predicate Set(world: World, log: Log, ids: set<Id>, group: Group) {
    exists s: Steps :: Stage(world, log, s, group) && Of(log, s, ids)
  }

  /** And will, whatever quiet steps follow. */
  ghost predicate Poised(world: World, log: Log, ids: set<Id>, group: Group) {
    forall b: Log {:trigger Set(world, b, ids, group)} :: Quiet(log, b) ==> Set(world, b, ids, group)
  }

  lemma PoisedNow(world: World, log: Log, s: Steps, ids: set<Id>, group: Group)
    requires Stage(world, log, s, group) && Of(log, s, ids)
    ensures Poised(world, log, ids, group)
  {
    forall b: Log | Quiet(log, b) ensures Set(world, b, ids, group) {
      StageLasts(world, log, b, s, group);
      assert b[s.anchor] == log[s.anchor];
      assert Of(b, s, ids);
    }
  }

  lemma PoisedSteps(world: World, log: Log, ids: set<Id>, group: Group) returns (s: Steps)
    requires Poised(world, log, ids, group)
    ensures Stage(world, log, s, group) && Of(log, s, ids)
  {
    assert Quiet(log, log) && Set(world, log, ids, group);
    s :| Stage(world, log, s, group) && Of(log, s, ids);
  }

  lemma SetJustifies(world: World, log: Log, ids: set<Id>, group: Group, chosen: seq<Id>) returns (at: nat)
    requires Set(world, log, ids, group) && forall id :: id in chosen ==> id in ids
    ensures StartJustified(world, log, group) && Recorded(world, log, at, chosen)
  {
    var s :| Stage(world, log, s, group) && Of(log, s, ids);
    StageRecorded(world, log, s, group);
    at := s.anchor;
  }

  lemma StartIsJustified(world: World, before: Log, log: Log, ids: set<Id>, group: Group, chosen: seq<Id>)
    requires Poised(world, before, ids, group) && Quiet(before, log) && forall id :: id in chosen ==> id in ids
    requires JustFound(world, log, group, chosen)
    ensures Justified(world, log, Issued(Start(group, chosen)))
  {
    var at := SetJustifies(world, log, ids, group, chosen);
  }

  ghost function Nth(log: Log, k: nat): Event
    requires k < |log|
  {
    log[k]
  }

  /** Nothing was taken out of the log. */
  ghost predicate Grew(a: Log, b: Log) {
    |a| <= |b| && forall k: nat {:trigger Nth(b, k)} :: k < |a| ==> Nth(b, k) == Nth(a, k)
  }

  lemma GrewOn(a: Log, b: Log, c: Log)
    requires Grew(a, b) && Grew(b, c)
    ensures Grew(a, c)
  {
  }

  lemma PrefixGrew(a: Log, b: Log)
    requires a <= b
    ensures Grew(a, b)
  {
  }

  lemma GrewIsPrefix(a: Log, b: Log)
    requires Grew(a, b)
    ensures a <= b
  {
    forall k | 0 <= k < |a| ensures a[k] == b[k] { assert Nth(b, k) == Nth(a, k); }
  }

  /** Every recorded container is authorised. */
  ghost predicate Covers(anchor: Option<Anchor>, authorized: seq<Id>) {
    anchor.Some? && forall id :: id in anchor.value.containers.Values ==> id in authorized
  }

  /** Of the groups, only this one was started. */
  ghost predicate OnlyStarts(a: Log, b: Log, group: Group) {
    a <= b && forall k {:trigger IsStart(b[k])} :: |a| <= k < |b| && IsStart(b[k]) ==> Starts(b[k], group)
  }

  lemma QuietThenStart(a: Log, b: Log, c: Log, group: Group, ids: seq<Id>)
    requires Quiet(a, b) && Adds(b, c, Start(group, ids))
    ensures OnlyStarts(a, c, group)
  {
    assert forall k :: 0 <= k < |b| ==> c[k] == b[k];
    forall k | |a| <= k < |c| && IsStart(c[k]) ensures Starts(c[k], group) {
      assert k < |b| ==> !Touches(b[k]);
    }
  }

  /** Every service, in the order of the anchor. */
  function Every(): seq<Service> { [Web, Workers, Celery, Db, Redis, Rabbitmq, Elastic] }

  lemma EveryIs(selected: map<Service, Id>)
    requires Selection(selected)
    ensures forall id :: id in selected.Values <==> id in Chosen(selected, Every())
  {
    forall id | id in selected.Values ensures id in Chosen(selected, Every()) {
      var service :| service in selected && selected[service] == id;
      var i := match service case Web => 0 case Workers => 1 case Celery => 2 case Db => 3 case Redis => 4 case Rabbitmq => 5 case Elastic => 6;
      assert Every()[i] == service;
      assert Chosen(selected, Every())[i] == id;
    }
  }

  class Runtime {
    const world: World
    var used: nat
    var anchor: Option<Anchor>          // container-generation.json
    var ids: set<Id>
    var cleanup: seq<Id>                // inspection alone never fills this
    var helpers: set<nat>
    var minted: nat                     // helper names made so far
    var stopping: bool
    var log: Log

    ghost predicate Valid()
      reads this
    {
      && used <= |world.answers| && Orderly(world, log) && Before(log, used)
      && (cleanup != [] ==> Backed(world, log, cleanup) && Covers(anchor, cleanup))
      && (cleanup == [] ==> Quiet([], log))
      && (forall i {:trigger log[i].Anchored?} :: 0 <= i < |log| && log[i].Anchored? ==> anchor == Some(log[i].anchor))
      && (ids != {} ==> Known(world, log, ids))
      && (forall name: nat {:trigger name in helpers} :: name < minted && name !in helpers ==> Gone(world, log, name))
      && (stopping ==> Signalled())
    }

    ghost predicate Signalled()
      reads this
    {
      exists k :: 0 <= k < used && k < |world.answers| && world.answers[k].signal
    }

    /** Why a run may end before its work is done. */
    ghost predicate Excused(why: Why)
      reads this
    {
      match why
      case Cancelled => stopping
      case Failed => Caused(world, anchor, log)
      case Killed => used == |world.answers|
    }

    constructor (world: World, anchor: Option<Anchor>)
      ensures Valid() && this.world == world && this.anchor == anchor
      ensures log == [] && ids == {} && cleanup == [] && helpers == {} && !stopping && used == 0
    {
      this.world, this.anchor := world, anchor;
      used, ids, cleanup, helpers, minted, stopping, log := 0, {}, [], {}, 0, false, [];
    }

    // ------------------------------------------------------------------- commands

    method EnsureRunning() returns (r: Result<()>)
      ensures r == if stopping then Raised(Cancelled) else Done(())
    {
      return if stopping then Raised(Cancelled) else Done(());
    }

    /** Answer `n` is good, and no signal arrives with it. */
    predicate CalmAt(n: nat) { n < |world.answers| && Good(world.answers[n]) && !world.answers[n].signal }

    /** And the next `k` are. */
    ghost predicate CalmFor(n: nat, k: nat) { forall i {:trigger CalmAt(i)} :: n <= i < n + k ==> CalmAt(i) }

    method Next() returns (r: Result<Answer>)
      requires Valid()
      modifies this`used, this`stopping
      ensures Valid() && old(used) <= used && (old(stopping) ==> stopping)
      ensures if old(used) < |world.answers| then used == old(used) + 1 && r == Done(world.answers[old(used)]) else used == old(used) && r == Raised(Killed)
      ensures stopping <==> old(stopping) || (old(used) < |world.answers| && world.answers[old(used)].signal)
    {
      if used == |world.answers| { return Raised(Killed); }
      r := Done(world.answers[used]);
      used := used + 1;
      if r.value.signal { stopping := true; }
    }

    method Append(e: Event)
      requires Valid() && Justified(world, log, e) && !e.Anchored? && (Touches(e) ==> cleanup != [])
      requires e.Passed? ==> e.answer < used
      modifies this`log
      ensures Valid() && log == old(log) + [e]
    {
      Appended(world, log, e);
      log := log + [e];
      Lasts(old(log));
    }

    /** What the fields stand for does not depend on how the log goes on. */
    lemma Lasts(before: Log)
      requires before <= log
      ensures cleanup != [] && Backed(world, before, cleanup) ==> Backed(world, log, cleanup)
      ensures Known(world, before, ids) ==> Known(world, log, ids)
      ensures forall name: nat :: Gone(world, before, name) ==> Gone(world, log, name)
    {
      if Backed(world, before, cleanup) { BackedLasts(world, before, log, cleanup); }
      if Known(world, before, ids) { KnownLasts(world, before, log, ids); }
      forall name: nat | Gone(world, before, name) ensures Gone(world, log, name) { GoneLasts(world, before, log, name); }
    }

    /** `call`: a failure is an error unless it is allowed; cancellation is noticed before
        and after unless this is cleanup. */
    method Call(c: Command, allowFailure: bool, allowStopping: bool) returns (r: Result<Answer>)
      requires Valid() && Justified(world, log, Issued(c)) && (Touches(Issued(c)) ==> cleanup != [])
      modifies this`used, this`stopping, this`log
      ensures Valid() && Adds(old(log), log, c) && old(used) <= used && (old(stopping) ==> stopping) && (r.Raised? ==> Excused(r.why))
      ensures old(stopping) && !allowStopping ==> log == old(log) && r == Raised(Cancelled)
      ensures (!old(stopping) || allowStopping) && old(used) < |world.answers| ==>
                var a := world.answers[old(used)];
                r == if a.breaks || (a.fails && !allowFailure) then Raised(Failed)
                     else if stopping && !allowStopping then Raised(Cancelled) else Done(a)
      ensures r.Done? ==> used == old(used) + 1 && r.value == world.answers[old(used)] && !r.value.breaks && (allowFailure || !r.value.fails)
      ensures r.Done? ==> log == old(log) + [Issued(c)] + if r.value.fails then [] else [Passed(c, old(used))]
      ensures r == Raised(Failed) ==> log == old(log) + [Issued(c), Refused(c, old(used))]
      ensures allowStopping && r.Raised? ==> !r.why.Cancelled?
      ensures !old(stopping) && CalmAt(old(used)) ==> r.Done? && !stopping
    {
      if !allowStopping { var _ :- EnsureRunning(); }
      var a :- Exchange(c, allowFailure);
      if !allowStopping { var _ :- EnsureRunning(); }
      return Done(a);
    }

    /** A command and its answer. */
    method Exchange(c: Command, allowFailure: bool) returns (r: Result<Answer>)
      requires Valid() && Justified(world, log, Issued(c)) && (Touches(Issued(c)) ==> cleanup != [])
      modifies this`used, this`stopping, this`log
      ensures Valid() && Adds(old(log), log, c) && old(used) <= used && (old(stopping) ==> stopping)
      ensures r.Raised? ==> !r.why.Cancelled? && Excused(r.why)
      ensures CalmAt(old(used)) ==> stopping == old(stopping)
      ensures if old(used) == |world.answers| then r == Raised(Killed)
              else if world.answers[old(used)].breaks || (world.answers[old(used)].fails && !allowFailure)
              then r == Raised(Failed) && log == old(log) + [Issued(c), Refused(c, old(used))]
              else r == Done(world.answers[old(used)]) && used == old(used) + 1
                   && log == old(log) + [Issued(c)] + if r.value.fails then [] else [Passed(c, old(used))]
    {
      Append(Issued(c));
      var n := used;
      var a :- Next();
      var ok := Outcome(c, allowFailure, n);
      return if ok then Done(a) else Raised(Failed);
    }

    /** The outcome of the command just issued, by answer `n`, enters the log. */
    method Outcome(c: Command, allowFailure: bool, n: nat) returns (ok: bool)
      requires Valid() && JustIssued(log, c) && Before(log, n) && used == n + 1
      modifies this`log
      ensures Valid() && ok == (!world.answers[n].breaks && (allowFailure || !world.answers[n].fails))
      ensures ok ==> log == old(log) + if world.answers[n].fails then [] else [Passed(c, n)]
      ensures !ok ==> log == old(log) + [Refused(c, n)] && Caused(world, anchor, log)
    {
      var a := world.answers[n];
      ok := !a.breaks && (allowFailure || !a.fails);
      if !ok {
        Append(Refused(c, n));
        assert Contrary(world, anchor, log[|log| - 1]);
      } else if !a.fails {
        Append(Passed(c, n));
      }
    }

    /** A command that neither stops nor starts a service. */
    method Ask(c: Command, allowFailure: bool, allowStopping: bool) returns (r: Result<Answer>)
      requires Valid() && Justified(world, log, Issued(c)) && !c.Start? && !c.Stop?
      modifies this`used, this`stopping, this`log
      ensures Valid() && Quiet(old(log), log) && old(used) <= used && (old(stopping) ==> stopping) && (r.Raised? ==> Excused(r.why))
      ensures r.Done? ==> used == old(used) + 1 && r.value == world.answers[old(used)] && !r.value.breaks && (allowFailure || !r.value.fails)
      ensures r.Done? && !r.value.fails ==> |log| == |old(log)| + 2 && log[|log| - 1] == Passed(c, old(used))
      ensures r.Done? && r.value.fails ==> JustIssued(log, c) && Before(log, old(used))
      ensures r == Raised(Failed) ==> |log| == |old(log)| + 2 && log[|log| - 1] == Refused(c, old(used))
      ensures allowStopping && r.Raised? ==> !r.why.Cancelled?
      ensures !old(stopping) && CalmAt(old(used)) ==> r.Done? && !stopping
    {
      r := Call(c, allowFailure, allowStopping);
    }

    /** A check; those that only read files do not look for cancellation. */
    method Probe(check: Check) returns (r: Result<Answer>)
      requires Valid() && !check.Reconcile?
      modifies this`used, this`stopping, this`log
      ensures Valid() && Quiet(old(log), log) && old(used) <= used && (r.Raised? ==> Excused(r.why))
      ensures r.Done? ==> used == old(used) + 1 && r.value == world.answers[old(used)] && Good(r.value)
      ensures r.Done? ==> |log| == |old(log)| + 2 && log[|log| - 1] == Passed(Look(check), old(used))
      ensures !old(stopping) && CalmAt(old(used)) ==> r.Done? && !stopping
    {
      r := Ask(Look(check), false, check.Manifest? || check.Reading? || check.Kernel?);
    }

    /** Answer `n` is calm and shows a selection, which is the one known if any is. */
    predicate Shows(n: nat, known: set<Id>) {
      CalmAt(n) && Selection(world.answers[n].found) && (known == {} || world.answers[n].found.Values == known)
    }

    /** `inspect`: the seven containers that the answer shows, the same ones ever after. */
    method Inspect() returns (r: Result<map<Service, Id>>)
      requires Valid()
      modifies this`used, this`stopping, this`log, this`ids
      ensures Valid() && Quiet(old(log), log) && old(used) <= used && (r.Raised? ==> Excused(r.why))
      ensures ids == old(ids) || old(ids) == {}
      ensures r.Done? ==> used == old(used) + 1 && Good(world.answers[old(used)]) && r.value == world.answers[old(used)].found
      ensures r.Done? ==> Selection(r.value) && r.value.Values == ids
      ensures r.Done? ==> |log| == |old(log)| + 2 && log[|log| - 1] == Passed(Look(Inspection), old(used))
      ensures !old(stopping) && Shows(old(used), old(ids)) ==> r.Done? && !stopping
    {
      var a :- Probe(Inspection);
      assert Shown(world, log, |log| - 1, a.found.Values);
      if !Selection(a.found) || (ids != {} && a.found.Values != ids) {
        OneIsContrary(a.found);
        return Raised(Failed);
      }
      ids := a.found.Values;
      return Done(a.found);
    }

    /** Containers that are no selection, or not those shown before, are not the anchor's. */
    lemma OneIsContrary(found: map<Service, Id>)
      requires Valid() && |log| > 0 && Shown(world, log, |log| - 1, found.Values) && world.answers[log[|log| - 1].answer].found == found
      requires !Selection(found) || (ids != {} && found.Values != ids)
      ensures Caused(world, anchor, log)
    {
      if Contrary(world, anchor, log[|log| - 1]) {
      } else {
        var at: nat :| Shown(world, log, at, ids);
        assert Contrary(world, anchor, log[at]);
      }
    }

    /** Poll until ready, cancelled or late. */
    method Wait(check: Check) returns (r: Result<()>)
      requires Valid() && !check.Reconcile?
      modifies this`used, this`stopping, this`log
      ensures Valid() && Quiet(old(log), log) && old(used) <= used && (r.Raised? ==> Excused(r.why))
      ensures r.Done? ==> |old(log)| < |log| && used > 0 && log[|log| - 1] == Passed(Look(check), used - 1)
    {
      while true
        invariant Valid() && Quiet(old(log), log) && old(used) <= used
        decreases |world.answers| - used
      {
        var _ :- EnsureRunning();
        ghost var before := log;
        var a := Ask(Look(check), true, false);
        QuietOn(old(log), before, log);
        if a.Raised? { return Raised(a.why); }
        if !a.value.fails { return Done(()); }
        if a.value.late {
          ghost var asked := log;
          GiveUp(check);
          QuietOn(old(log), asked, log);
          return Raised(Failed);
        }
        var _ :- Next();
      }
    }

    /** The deadline passed on a failed check. */
    method GiveUp(check: Check)
      requires Valid() && used > 0 && JustIssued(log, Look(check)) && Before(log, used - 1) && !Good(world.answers[used - 1])
      modifies this`log
      ensures Valid() && Quiet(old(log), log) && Caused(world, anchor, log)
    {
      Append(Refused(Look(check), used - 1));
      assert Contrary(world, anchor, log[|log| - 1]);
    }

    // -------------------------------------------------------------------- helpers

    /** Stop one helper of this run, or make sure that it is gone. */
    method StopOneHelper(name: nat) returns (r: Result<()>)
      requires Valid()
      modifies this`used, this`stopping, this`log
      ensures Valid() && Quiet(old(log), log) && old(used) <= used && (r.Raised? ==> Excused(r.why))
      ensures (old(stopping) ==> stopping) && (if r.Done? then Gone(world, log, name) else !r.why.Cancelled?)
    {
      var a :- Ask(LookHelper(name), true, true);
      ghost var middle := log;
      if !a.fails {
        if |a.helper| != 1 || !Ours(world, name, a.helper[0]) {
          assert Contrary(world, anchor, log[|log| - 1]);
          return Raised(Failed);
        }
        assert a.helper == [a.helper[0]];
        var b := Ask(StopHelper(name, a.helper[0]), false, true);
        QuietOn(old(log), middle, log);
        if b.Raised? { return Raised(b.why); }
        assert GoneAt(world, log, |log| - 1, name);
        return Done(());
      }
      var b := Ask(ListFor(name), false, true);
      QuietOn(old(log), middle, log);
      if b.Raised? { return Raised(b.why); }
      if name in b.value.names {
        assert Contrary(world, anchor, log[|log| - 1]);
        return Raised(Failed);
      }
      assert GoneAt(world, log, |log| - 1, name);
      return Done(());
    }

    method StopHelpers() returns (r: Result<()>)
      requires Valid()
      modifies this`used, this`stopping, this`log, this`helpers
      ensures Valid() && Quiet(old(log), log) && old(used) <= used && helpers <= old(helpers)
      ensures (if r.Done? then helpers == {} else !r.why.Cancelled? && Excused(r.why)) && (old(stopping) ==> stopping)
    {
      while helpers != {}
        invariant Valid() && Quiet(old(log), log) && old(used) <= used && helpers <= old(helpers) && (old(stopping) ==> stopping)
        decreases helpers
      {
        var name :| name in helpers;
        ghost var before := log;
        var one := StopOneHelper(name);
        QuietOn(old(log), before, log);
        if one.Raised? { return one; }
        helpers := helpers - {name};
      }
      return Done(());
    }

    /** The manifest and the containers are checked again before anything is started. */
    method Recheck() returns (r: Result<map<Service, Id>>)
      requires Valid()
      modifies this`used, this`stopping, this`log, this`ids
      ensures Valid() && Quiet(old(log), log) && old(used) <= used && (r.Raised? ==> Excused(r.why))
      ensures (ids == old(ids) || old(ids) == {}) && (r.Done? ==> Selection(r.value) && r.value.Values == ids)
      ensures r.Done? ==> forall group :: JustFound(world, log, group, GroupIds(r.value, group))
    {
      var _ :- Probe(Manifest);
      ghost var middle := log;
      r := Inspect();
      QuietOn(old(log), middle, log);
      assert r.Done? ==> log[|log| - 3] == middle[|middle| - 1];
    }

    /** Run a check in a new helper, then stop the helper, whatever happened short of a kill. */
    method RunInHelper(check: Check) returns (r: Result<()>, ghost at: nat)
      requires Valid() && Justified(world, log, Issued(RunHelper(minted, check)))
      modifies this`used, this`stopping, this`log, this`helpers, this`minted
      ensures Valid() && Quiet(old(log), log) && (r.Raised? ==> Excused(r.why))
      ensures r.Done? ==> |old(log)| <= at && Helped(log, at, check)
    {
      at := |log| + 1;
      var name := minted;
      minted, helpers := minted + 1, helpers + {name};
      var a := Ask(RunHelper(name, check), false, false);
      if a.Raised? && a.why.Killed? { return Raised(Killed), at; }
      ghost var done := log;
      r := StopHelpers();
      QuietOn(old(log), done, log);
      if a.Raised? && a.why.Failed? { CausedLasts(world, anchor, done, log); }
      if r.Done? && a.Raised? { r := Raised(a.why); }
      assert r.Done? ==> log[at] == done[at];
    }

    /** `oneoff`. */
    method Oneoff(check: Check) returns (r: Result<()>, ghost at: nat)
      requires Valid() && (check.Reconcile? ==> exists a: nat, q: nat :: Quiesced(world, log, a, q))
      modifies this`used, this`stopping, this`log, this`ids, this`helpers, this`minted
      ensures Valid() && Quiet(old(log), log) && (ids == old(ids) || old(ids) == {}) && (r.Raised? ==> Excused(r.why))
      ensures r.Done? ==> |old(log)| <= at && Helped(log, at, check)
    {
      at := 0;
      r := EnsureRunning();
      if r.Raised? { return; }
      var again := Recheck();
      if again.Raised? { return Raised(again.why), 0; }
      if check.Reconcile? { StillQuiet(old(log), log); }
      ghost var middle := log;
      r, at := RunInHelper(check);
      QuietOn(old(log), middle, log);
    }

    lemma StillQuiet(a: Log, b: Log)
      requires Quiet(a, b) && exists at: nat, q: nat :: Quiesced(world, a, at, q)
      ensures exists at: nat, q: nat :: Quiesced(world, b, at, q)
    {
      var at: nat, q: nat :| Quiesced(world, a, at, q);
      RecordedLasts(world, a, b, at, []);
      assert forall k :: 0 <= k < |a| ==> b[k] == a[k];
      forall k | q < k < |b| ensures !IsStart(b[k]) { assert if k < |a| then !IsStart(a[k]) else !Touches(b[k]); }
      assert Quiesced(world, b, at, q);
    }

    // ------------------------------------------------------------------ the anchor

    method Note(selected: map<Service, Id>, n: nat, ghost at: nat)
      requires Valid() && anchor.Some? && Matches(world, anchor.value, selected) && FoundAt(n, at, selected)
      modifies this`log
      ensures Valid() && log == old(log) + [Anchored(anchor.value, selected, n)]
    {
      assert Did(log, at, Look(Inspection)) && log[at].answer == n;
      Appended(world, log, Anchored(anchor.value, selected, n));
      log := log + [Anchored(anchor.value, selected, n)];
      Lasts(old(log));
    }

    /** At `at` an inspection passed, on answer `n`, that showed these containers. */
    ghost predicate FoundAt(n: nat, at: nat, selected: map<Service, Id>)
      reads this
    {
      at < |log| && log[at] == Passed(Look(Inspection), n) && n < |world.answers| && world.answers[n].found == selected
    }

    /** `container_generation`: require the recorded generation, never adopt the one found. */
    method ContainerGeneration(selected: map<Service, Id>, n: nat, ghost at: nat) returns (r: Result<Anchor>)
      requires Valid() && FoundAt(n, at, selected)
      modifies this`used, this`stopping, this`log
      ensures Valid() && Quiet(old(log), log) && old(used) <= used && (r.Raised? ==> Excused(r.why))
      ensures r.Done? ==> anchor == Some(r.value) && r.value.containers == selected && Selection(selected)
      ensures r.Done? ==> |old(log)| < |log| && log[|log| - 1] == Anchored(r.value, selected, n) && Matches(world, r.value, selected)
      ensures anchor.None? || !Matches(world, anchor.value, selected) ==> r.Raised?
    {
      var _ :- Probe(Reading);
      assert log[at] == old(log)[at];
      if anchor.None? || !Matches(world, anchor.value, selected) {
        assert Contrary(world, anchor, log[at]);
        return Raised(Failed);
      }
      Note(selected, n, at);
      return Done(anchor.value);
    }

    /** From `n` on: three checks, each issued and passed. */
    ghost predicate PassedThree(log: Log, n: nat, a: Check, b: Check, c: Check) {
      Did(log, n + 1, Look(a)) && Did(log, n + 3, Look(b)) && Did(log, n + 5, Look(c))
    }

    /** Three checks in a row. */
    method ProbeThree(a: Check, b: Check, c: Check) returns (r: Result<()>)
      requires Valid() && !a.Reconcile? && !b.Reconcile? && !c.Reconcile?
      modifies this`used, this`stopping, this`log
      ensures Valid() && Quiet(old(log), log) && old(used) <= used && (r.Raised? ==> Excused(r.why))
      ensures r.Done? ==> |log| == |old(log)| + 6 && PassedThree(log, |old(log)|, a, b, c) && used == old(used) + 3
      ensures !old(stopping) && CalmFor(old(used), 3) ==> r.Done? && !stopping
    {
      var _ :- ProbeAfter(a, log);
      ghost var one := log;
      var _ :- ProbeAfter(b, old(log));
      ghost var two := log;
      var _ :- ProbeAfter(c, old(log));
      DidLater(one, log, |one| - 1, Look(a));
      DidLater(two, log, |two| - 1, Look(b));
      return Done(());
    }

    lemma DidLater(a: Log, b: Log, at: nat, c: Command)
      requires a <= b && Did(a, at, c)
      ensures Did(b, at, c)
    {
      assert b[at] == a[at];
    }

    /** One more check. */
    method ProbeAfter(check: Check, ghost start: Log) returns (r: Result<()>)
      requires Valid() && !check.Reconcile? && Quiet(start, log)
      modifies this`used, this`stopping, this`log
      ensures Valid() && old(log) <= log && Quiet(start, log) && old(used) <= used && (r.Raised? ==> Excused(r.why))
      ensures r.Done? ==> |log| == |old(log)| + 2 && Did(log, |log| - 1, Look(check)) && used == old(used) + 1
      ensures !old(stopping) && CalmAt(old(used)) ==> r.Done? && !stopping
    {
      var a := Probe(check);
      QuietOn(start, old(log), log);
      return if a.Raised? then Raised(a.why) else Done(());
    }

    /** `bind_admission_fresh`: record the containers found as the first generation, only when
        none was recorded; what it records matches exactly the containers it saw, twice. */
    method BindFresh(unit: bool) returns (r: Result<()>)
      requires Valid()
      modifies this`used, this`stopping, this`log, this`ids, this`anchor
      ensures Valid() && Quiet(old(log), log)
      ensures r.Done? ==> old(anchor).None? && !unit && anchor.Some? && Matches(world, anchor.value, anchor.value.containers)
      ensures r.Done? ==> ShownTwice(old(used), old(used) + 4, anchor.value.containers)
      ensures r.Done? ==> PassedThree(log, |old(log)| + 2, Quiescence, BackingData, Manifest)
      ensures r.Raised? ==> anchor == old(anchor)
      ensures old(anchor).None? && !unit && !old(stopping) && Bindable(old(used), old(ids)) ==> r.Done?
    {
      if anchor.Some? || unit { return Raised(Failed); }
      var selected :- FindTwice();
      anchor := Some(Anchor(true, world.digest, world.project, world.image, selected));
      return Done(());
    }

    /** The same containers before and after the checks. */
    method FindTwice() returns (r: Result<map<Service, Id>>)
      requires Valid()
      modifies this`used, this`stopping, this`log, this`ids
      ensures Valid() && Quiet(old(log), log) && (r.Done? ==> Selection(r.value))
      ensures r.Done? ==> used == old(used) + 5 && ShownTwice(old(used), old(used) + 4, r.value)
      ensures r.Done? ==> PassedThree(log, |old(log)| + 2, Quiescence, BackingData, Manifest)
      ensures !old(stopping) && Bindable(old(used), old(ids)) ==> r.Done?
    {
      var selected :- Inspect();
      ghost var one := log;
      r := FindAgain(selected);
      QuietOn(old(log), one, log);
    }

    /** The checks, and the same containers again. */
    method FindAgain(selected: map<Service, Id>) returns (r: Result<map<Service, Id>>)
      requires Valid() && Selection(selected) && selected.Values == ids
      modifies this`used, this`stopping, this`log, this`ids
      ensures Valid() && Quiet(old(log), log)
      ensures r.Done? ==> used == old(used) + 4 && ShowsSame(old(used) + 3, selected) && r.value == selected
      ensures r.Done? ==> PassedThree(log, |old(log)|, Quiescence, BackingData, Manifest)
      ensures !old(stopping) && CalmFor(old(used), 4) && ShowsSame(old(used) + 3, selected) ==> r.Done?
    {
      var _ :- ProbeThree(Quiescence, BackingData, Manifest);
      ghost var one := log;
      r := FindSame(selected);
      QuietOn(old(log), one, log);
      ThreeLater(one, log, |old(log)|, Quiescence, BackingData, Manifest);
    }

    predicate ShowsSame(n: nat, selected: map<Service, Id>) {
      n < |world.answers| && Good(world.answers[n]) && world.answers[n].found == selected
    }

    method FindSame(selected: map<Service, Id>) returns (r: Result<map<Service, Id>>)
      requires Valid() && Selection(selected) && selected.Values == ids
      modifies this`used, this`stopping, this`log, this`ids
      ensures Valid() && Quiet(old(log), log)
      ensures r.Done? ==> used == old(used) + 1 && ShowsSame(old(used), selected) && r.value == selected
      ensures !old(stopping) && CalmAt(old(used)) && ShowsSame(old(used), selected) ==> r.Done?
    {
      r := Inspect();
      if r.Done? && r.value != selected { return Raised(Failed); }
    }

    lemma ThreeLater(a: Log, b: Log, n: nat, x: Check, y: Check, z: Check)
      requires a <= b && PassedThree(a, n, x, y, z)
      ensures PassedThree(b, n, x, y, z)
    {
      DidLater(a, b, n + 1, Look(x));
      DidLater(a, b, n + 3, Look(y));
      DidLater(a, b, n + 5, Look(z));
    }

    /** The next five answers are good and undisturbed, and the first and last show the same
        selection, which is the one known if any is. */
    ghost predicate Bindable(n: nat, known: set<Id>) {
      Shows(n, known) && CalmFor(n + 1, 4) && ShowsSame(n + 4, world.answers[n].found)
    }

    ghost predicate ShownTwice(j: int, k: int, selected: map<Service, Id>) {
      0 <= j < k && ShowsSame(j, selected) && ShowsSame(k, selected)
    }

    /** Find the containers and require that they are the recorded generation. */
    method Anchoring() returns (r: Result<Anchor>)
      requires Valid()
      modifies this`used, this`stopping, this`log, this`ids
      ensures Valid() && Quiet(old(log), log) && (r.Raised? ==> Excused(r.why))
      ensures anchor.None? || (old(used) < |world.answers| && !Matches(world, anchor.value, world.answers[old(used)].found)) ==> r.Raised?
      ensures r.Done? ==> |log| > |old(log)| && Recorded(world, log, |log| - 1, []) && log[|log| - 1] == Anchored(r.value, r.value.containers, old(used))
      ensures r.Done? ==> anchor == Some(r.value) && r.value.containers.Values == ids && Selection(r.value.containers)
    {
      var n := used;
      var selected :- Inspect();
      ghost var one := log;
      r := ContainerGeneration(selected, n, |one| - 1);
      QuietOn(old(log), one, log);
    }

    /** `reconcile_admission`: free every permit, only with a matching anchor and after every
        application of that generation was found stopped. */
    method ReconcileAdmission() returns (r: Result<()>)
      requires Valid()
      modifies this`used, this`stopping, this`log, this`ids, this`helpers, this`minted
      ensures Valid() && Quiet(old(log), log) && (r.Raised? ==> Excused(r.why))
      ensures r.Done? ==> anchor.Some? && anchor.value.containers.Values == ids
      ensures r.Done? ==> exists at: nat :: |old(log)| <= at && Helped(log, at, Reconcile)
    {
      var generation :- Anchoring();
      ghost var two := log;
      var quiet := Probe(Quiescence);
      QuietOn(old(log), two, log);
      if quiet.Raised? { return Raised(quiet.why); }
      ghost var three := log;
      QuiescedNow(two, three);
      r := ReconcileNow();
      QuietOn(old(log), three, log);
    }

    lemma QuiescedNow(a: Log, b: Log)
      requires |a| > 0 && Recorded(world, a, |a| - 1, []) && Quiet(a, b) && |b| == |a| + 2 && Did(b, |b| - 1, Look(Quiescence))
      ensures Quiesced(world, b, |a| - 1, |b| - 1)
    {
      RecordedLasts(world, a, b, |a| - 1, []);
    }

    method ReconcileNow() returns (r: Result<()>)
      requires Valid() && ids != {} && exists a: nat, q: nat :: Quiesced(world, log, a, q)
      modifies this`used, this`stopping, this`log, this`ids, this`helpers, this`minted
      ensures Valid() && Quiet(old(log), log) && ids == old(ids) && (r.Raised? ==> Excused(r.why))
      ensures r.Done? ==> exists at: nat :: |old(log)| <= at && Helped(log, at, Reconcile)
    {
      var _ :- Probe(Manifest);
      ghost var one := log;
      StillQuiet(old(log), one);
      ghost var at;
      r, at := Oneoff(Reconcile);
      QuietOn(old(log), one, log);
    }

    // --------------------------------------------------------------------- startup

    /** `start_ids`. */
    method StartGroup(group: Group) returns (r: Result<()>)
      requires Valid() && cleanup != [] && ids != {} && Poised(world, log, ids, group)
      modifies this`used, this`stopping, this`log, this`ids
      ensures Valid() && ids == old(ids) && OnlyStarts(old(log), log, group) && (r.Raised? ==> Excused(r.why))
      ensures r.Done? ==> |old(log)| < |log| && Started(log, |log| - 1, group)
    {
      r := EnsureRunning();
      if r.Raised? { return; }
      var again := Recheck();
      ghost var middle := log;
      QuietThenStart(old(log), middle, middle, group, []);
      if again.Raised? { return Raised(again.why); }
      var chosen := GroupIds(again.value, group);
      r := StartNow(group, chosen, old(log));
      QuietThenStart(old(log), middle, log, group, chosen);
    }

    method StartNow(group: Group, chosen: seq<Id>, ghost before: Log) returns (r: Result<()>)
      requires Valid() && cleanup != [] && Poised(world, before, ids, group) && Quiet(before, log) && (forall id :: id in chosen ==> id in ids)
      requires JustFound(world, log, group, chosen)
      modifies this`used, this`stopping, this`log
      ensures Valid() && Adds(old(log), log, Start(group, chosen)) && (r.Raised? ==> Excused(r.why))
      ensures r.Done? ==> |log| == |old(log)| + 2 && Started(log, |log| - 1, group)
    {
      StartIsJustified(world, before, log, ids, group, chosen);
      var _ :- Call(Start(group, chosen), false, false);
      return Done(());
    }

    /** The anchor, then its applications are stopped; only now is cleanup authorised. */
    method CloseAdmission() returns (r: Result<()>, ghost at: nat)
      requires Valid()
      modifies this`used, this`stopping, this`log, this`ids, this`cleanup
      ensures Valid() && Grew(old(log), log) && (r.Raised? ==> Excused(r.why))
      ensures anchor.None? || (old(used) < |world.answers| && !Matches(world, anchor.value, world.answers[old(used)].found)) ==> r.Raised? && cleanup == old(cleanup)
      ensures r.Done? ==> ids != {} && |log| >= 2 && at < |log| - 1 && Recorded(world, log, at, []) && log[at].selected.Values == ids
      ensures r.Done? ==> Did(log, |log| - 1, Stop(Chosen(log[at].selected, Apps())))
      ensures r.Done? ==> cleanup != [] && forall id :: id in ids <==> id in cleanup
    {
      at := 0;
      var generation := Anchoring();
      PrefixGrew(old(log), log);
      if generation.Raised? { return Raised(generation.why), 0; }
      at := |log| - 1;
      ghost var one := log;
      var selected := generation.value.containers;
      r := StopApps(selected, at);
      PrefixGrew(one, log);
      GrewOn(old(log), one, log);
      assert r.Done? ==> log[at] == one[at];
    }

    method StopApps(selected: map<Service, Id>, ghost at: nat) returns (r: Result<()>)
      requires Valid() && Selection(selected) && Recorded(world, log, at, []) && log[at].selected == selected
      modifies this`used, this`stopping, this`log, this`cleanup
      ensures Valid() && Adds(old(log), log, Stop(Chosen(selected, Apps()))) && (r.Raised? ==> Excused(r.why))
      ensures r.Done? ==> |log| == |old(log)| + 2 && Did(log, |log| - 1, Stop(Chosen(selected, Apps())))
      ensures cleanup != [] && forall id :: id in selected.Values <==> id in cleanup
    {
      cleanup := Chosen(selected, Every());
      EveryIs(selected);
      assert Recorded(world, log, at, cleanup);
      var apps := Chosen(selected, Apps());
      assert Recorded(world, log, at, apps);
      var _ :- Call(Supervision.Stop(apps), false, false);
      return Done(());
    }

    /** Everything up to the first start: afterwards `Closed` holds. */
    method Close() returns (r: Result<()>, ghost s: Steps)
      requires Valid()
      modifies this`used, this`stopping, this`log, this`ids, this`cleanup
      ensures Valid() && Grew(old(log), log) && (r.Raised? ==> Excused(r.why))
      ensures r.Done? ==> ids != {} && Filled(world, log, s, 0) && Of(log, s, ids)
      ensures r.Done? ==> anchor.Some? && Matches(world, anchor.value, anchor.value.containers) && anchor.value.containers.Values == ids
      ensures r.Done? ==> cleanup != [] && forall id :: id in ids <==> id in cleanup
    {
      s := Steps(0, 0, 0, 0, 0, 0, 0, 0, 0, 0, 0);
      ghost var at;
      r, at := CloseAdmission();
      if r.Raised? { return; }
      ghost var one := log;
      var data := CheckData();
      PrefixGrew(one, log);
      GrewOn(old(log), one, log);
      if data.Raised? { return Raised(data.why), s; }
      s := s.(anchor := at, closed := |one| - 1, backing := data.value);
      ClosedNow(one, log, s);
    }

    /** The compose file, the data of the backing stores and a kernel setting. */
    method CheckData() returns (r: Result<nat>)
      requires Valid()
      modifies this`used, this`stopping, this`log
      ensures Valid() && Quiet(old(log), log) && (r.Raised? ==> Excused(r.why))
      ensures r.Done? ==> |old(log)| <= r.value && Did(log, r.value, Look(BackingData))
    {
      var _ :- ProbeAfter(Compose, log);
      var _ :- ProbeAfter(BackingData, old(log));
      ghost var two := log;
      var at := |log| - 1;
      var _ :- ProbeAfter(Kernel, old(log));
      DidLater(two, log, at, Look(BackingData));
      return Done(at);
    }

    lemma ClosedNow(a: Log, b: Log, s: Steps)
      requires Quiet(a, b) && |a| >= 2 && s.anchor < s.closed == |a| - 1 && Recorded(world, a, s.anchor, [])
      requires Did(a, s.closed, Supervision.Stop(Chosen(a[s.anchor].selected, Apps())))
      requires |a| <= s.backing && Did(b, s.backing, Look(BackingData))
      ensures Filled(world, b, s, 0) && b[s.anchor] == a[s.anchor]
    {
      QuietHasNoWorkers(a, b);
      RecordedLasts(world, a, b, s.anchor, []);
      assert b[s.closed] == a[s.closed];
    }

    /** One of the checks in a helper, after `n` of the six. */
    method Fill(check: Check, ghost s: Steps, ghost n: nat) returns (r: Result<()>, ghost at: nat)
      requires Valid() && !check.Reconcile? && ids != {} && Filled(world, log, s, n) && Of(log, s, ids)
      modifies this`used, this`stopping, this`log, this`ids, this`helpers, this`minted
      ensures Valid() && Grew(old(log), log) && ids == old(ids) && (r.Raised? ==> Excused(r.why))
      ensures r.Done? ==> |old(log)| <= at && Helped(log, at, check) && Filled(world, log, s, n) && Of(log, s, ids)
    {
      r, at := Oneoff(check);
      QuietHasNoWorkers(old(log), log);
      FilledLasts(world, old(log), log, s, n);
      assert log[s.anchor] == old(log)[s.anchor];
    }

    /** Start a group, then wait for a sign of life; `middle` is the log in between. */
    method StartThen(group: Group, check: Check) returns (r: Result<()>, ghost middle: Log)
      requires Valid() && !check.Reconcile? && cleanup != [] && ids != {} && Poised(world, log, ids, group)
      modifies this`used, this`stopping, this`log, this`ids
      ensures Valid() && ids == old(ids) && Grew(old(log), log) && (r.Raised? ==> Excused(r.why))
      ensures r.Done? ==> OnlyStarts(old(log), middle, group) && |old(log)| < |middle| && Started(middle, |middle| - 1, group)
      ensures r.Done? ==> Quiet(middle, log) && |middle| < |log| && Did(log, |log| - 1, Look(check))
    {
      r := StartGroup(group);
      middle := log;
      if r.Raised? { return; }
      r := Wait(check);
      GrewOn(old(log), middle, log);
    }

    /** The dependencies and the database. */
    method Depend(ghost s0: Steps) returns (r: Result<()>, ghost s: Steps)
      requires Valid() && cleanup != [] && ids != {} && Filled(world, log, s0, 0) && Of(log, s0, ids)
      modifies this`used, this`stopping, this`log, this`ids
      ensures Valid() && Grew(old(log), log) && ids == old(ids) && (r.Raised? ==> Excused(r.why))
      ensures r.Done? ==> Filled(world, log, s, 2) && Of(log, s, ids)
    {
      s := s0;
      ghost var middle;
      PoisedNow(world, log, s0, ids, Dependencies);
      r, middle := StartThen(Dependencies, Database);
      if r.Raised? { return; }
      s := s0.(dependencies := |middle| - 1, database := |log| - 1);
      DependNow(old(log), middle, log, s0, s);
    }

    lemma DependNow(a: Log, b: Log, c: Log, s0: Steps, s: Steps)
      requires 0 < |b| < |c| && s == s0.(dependencies := |b| - 1, database := |c| - 1)
      requires Filled(world, a, s0, 0) && OnlyStarts(a, b, Dependencies) && |a| < |b| && Started(b, |b| - 1, Dependencies)
      requires Quiet(b, c) && |b| < |c| && Did(c, |c| - 1, Look(Database))
      ensures Filled(world, c, s, 2) && c[s.anchor] == a[s.anchor]
    {
      forall k | |a| <= k < |b| ensures !Starts(b[k], Background) && !Starts(b[k], Listener) {
        assert IsStart(b[k]) ==> Starts(b[k], Dependencies);
      }
      assert Filled(world, a, s, 0);
      FilledLasts(world, a, b, s, 0);
      assert Filled(world, b, s, 1);
      QuietHasNoWorkers(b, c);
      FilledLasts(world, b, c, s, 1);
    }

    /** The stores and admission. */
    method FillStores(ghost s0: Steps) returns (r: Result<()>)
      requires Valid() && ids != {} && Filled(world, log, s0, 2) && Of(log, s0, ids)
      modifies this`used, this`stopping, this`log, this`ids, this`helpers, this`minted
      ensures Valid() && Grew(old(log), log) && ids == old(ids) && (r.Raised? ==> Excused(r.why))
      ensures r.Done? ==> Poised(world, log, ids, Background)
    {
      ghost var at;
      r, at := Fill(Schema, s0, 2);
      if r.Raised? { return; }
      ghost var s := s0.(schema := at);
      assert Filled(world, log, s, 3);
      ghost var one := log;
      r := FillSecurity(s);
      GrewOn(old(log), one, log);
    }

    method FillSecurity(ghost s0: Steps) returns (r: Result<()>)
      requires Valid() && ids != {} && Filled(world, log, s0, 3) && Of(log, s0, ids)
      modifies this`used, this`stopping, this`log, this`ids, this`helpers, this`minted
      ensures Valid() && Grew(old(log), log) && ids == old(ids) && (r.Raised? ==> Excused(r.why))
      ensures r.Done? ==> Poised(world, log, ids, Background)
    {
      ghost var at;
      r, at := Fill(SecurityStore, s0, 3);
      if r.Raised? { return; }
      ghost var s := s0.(security := at);
      assert Filled(world, log, s, 4);
      ghost var one := log;
      r := FillAdmission(s);
      GrewOn(old(log), one, log);
    }

    method FillAdmission(ghost s0: Steps) returns (r: Result<()>)
      requires Valid() && ids != {} && Filled(world, log, s0, 4) && Of(log, s0, ids)
      modifies this`used, this`stopping, this`log, this`ids, this`helpers, this`minted
      ensures Valid() && Grew(old(log), log) && ids == old(ids) && (r.Raised? ==> Excused(r.why))
      ensures r.Done? ==> Poised(world, log, ids, Background)
    {
      ghost var at;
      r, at := Fill(AdmissionEmpty, s0, 4);
      if r.Raised? { return; }
      ghost var s := s0.(admission := at);
      assert Filled(world, log, s, 5);
      r := EnsureRunning();
      if r.Raised? { return; }
      ghost var one := log;
      r := FillSearch(s);
      GrewOn(old(log), one, log);
    }

    method FillSearch(ghost s0: Steps) returns (r: Result<()>)
      requires Valid() && ids != {} && Filled(world, log, s0, 5) && Of(log, s0, ids)
      modifies this`used, this`stopping, this`log, this`ids, this`helpers, this`minted
      ensures Valid() && Grew(old(log), log) && ids == old(ids) && (r.Raised? ==> Excused(r.why))
      ensures r.Done? ==> Poised(world, log, ids, Background)
    {
      ghost var at;
      r, at := Fill(Search, s0, 5);
      if r.Raised? { return; }
      ghost var s := s0.(search := at);
      assert Filled(world, log, s, 6);
      FilledIsEmptied(world, log, s);
      PoisedNow(world, log, s, ids, Background);
    }

    /** The workers, until every queue has a consumer. */
    method Work() returns (r: Result<()>)
      requires Valid() && cleanup != [] && ids != {} && Poised(world, log, ids, Background)
      modifies this`used, this`stopping, this`log, this`ids
      ensures Valid() && Grew(old(log), log) && ids == old(ids) && (r.Raised? ==> Excused(r.why))
      ensures r.Done? ==> Poised(world, log, ids, Listener)
    {
      ghost var middle;
      r, middle := StartThen(Background, Consumers);
      if r.Done? { PoisedToListen(old(log), middle, log, ids); }
    }

    lemma PoisedToListen(a: Log, b: Log, c: Log, ids: set<Id>)
      requires Poised(world, a, ids, Background) && OnlyStarts(a, b, Background) && |a| < |b| < |c| && Quiet(b, c)
      requires Started(b, |b| - 1, Background) && Did(c, |c| - 1, Look(Consumers))
      ensures Poised(world, c, ids, Listener)
    {
      var s0 := PoisedSteps(world, a, ids, Background);
      var s := s0.(background := |b| - 1, consumers := |c| - 1);
      ConsumedNow(a, b, c, s0, s);
      PoisedNow(world, c, s, ids, Listener);
    }

    lemma ConsumedNow(a: Log, b: Log, c: Log, s0: Steps, s: Steps)
      requires s == s0.(background := s.background, consumers := s.consumers)
      requires Emptied(world, a, s0) && OnlyStarts(a, b, Background) && |a| < |b| < |c| && Quiet(b, c)
      requires s.background == |b| - 1 && Started(b, |b| - 1, Background) && s.consumers == |c| - 1 && Did(c, |c| - 1, Look(Consumers))
      ensures Consumed(world, c, s) && c[s.anchor] == a[s.anchor]
    {
      forall k | |a| <= k < |b| ensures !Starts(b[k], Listener) {
        assert IsStart(b[k]) ==> Starts(b[k], Background);
      }
      assert Emptied(world, a, s);
      EmptiedLasts(world, a, b, s);
      QuietHasNoListener(b, c);
      EmptiedLasts(world, b, c, s);
      assert c[s.background] == b[s.background];
    }

    /** The listener, until it answers. */
    method Listen() returns (r: Result<()>)
      requires Valid() && cleanup != [] && ids != {} && Poised(world, log, ids, Listener)
      modifies this`used, this`stopping, this`log, this`ids
      ensures Valid() && Grew(old(log), log) && (r.Raised? ==> Excused(r.why))
      ensures r.Done? ==> |log| > 0 && Did(log, |log| - 1, Look(Http))
    {
      r := StartGroup(Listener);
      if r.Raised? { return; }
      ghost var one := log;
      r := Answers();
      GrewOn(old(log), one, log);
    }

    method Answers() returns (r: Result<()>)
      requires Valid()
      modifies this`used, this`stopping, this`log, this`ids
      ensures Valid() && Grew(old(log), log) && (r.Raised? ==> Excused(r.why))
      ensures r.Done? ==> |log| > 0 && Did(log, |log| - 1, Look(Http))
    {
      var _ :- Inspect();
      ghost var one := log;
      r := Wait(Http);
      GrewOn(old(log), one, log);
      if r.Raised? { return; }
      r := EnsureRunning();
    }

    /** `start`. */
    method StartAll() returns (r: Result<()>)
      requires Valid()
      modifies this`used, this`stopping, this`log, this`ids, this`cleanup, this`helpers, this`minted
      ensures Valid() && Grew(old(log), log) && (r.Raised? ==> Excused(r.why))
      ensures r.Done? ==> |log| > 0 && Did(log, |log| - 1, Look(Http))
      ensures r.Done? ==> anchor.Some? && Matches(world, anchor.value, anchor.value.containers)
      ensures r.Done? ==> forall id :: id in anchor.value.containers.Values <==> id in cleanup
    {
      ghost var s;
      r := EnsureRunning();
      if r.Raised? { return; }
      r, s := Close();
      if r.Raised? { return; }
      ghost var one := log;
      r := StartClosed(s);
      GrewOn(old(log), one, log);
    }

    /** Everything from the first start on. */
    method StartClosed(ghost s0: Steps) returns (r: Result<()>)
      requires Valid() && cleanup != [] && ids != {} && Filled(world, log, s0, 0) && Of(log, s0, ids)
      modifies this`used, this`stopping, this`log, this`ids, this`helpers, this`minted
      ensures Valid() && Grew(old(log), log) && (r.Raised? ==> Excused(r.why))
      ensures r.Done? ==> |log| > 0 && Did(log, |log| - 1, Look(Http))
    {
      r := Prepare(s0);
      if r.Raised? { return; }
      ghost var one := log;
      r := StartEmptied();
      GrewOn(old(log), one, log);
    }

    method Prepare(ghost s0: Steps) returns (r: Result<()>)
      requires Valid() && cleanup != [] && ids != {} && Filled(world, log, s0, 0) && Of(log, s0, ids)
      modifies this`used, this`stopping, this`log, this`ids, this`helpers, this`minted
      ensures Valid() && Grew(old(log), log) && ids == old(ids) && (r.Raised? ==> Excused(r.why))
      ensures r.Done? ==> Poised(world, log, ids, Background)
    {
      ghost var s;
      r, s := Depend(s0);
      if r.Raised? { return; }
      ghost var one := log;
      r := FillStores(s);
      GrewOn(old(log), one, log);
    }

    method StartEmptied() returns (r: Result<()>)
      requires Valid() && cleanup != [] && ids != {} && Poised(world, log, ids, Background)
      modifies this`used, this`stopping, this`log, this`ids
      ensures Valid() && Grew(old(log), log) && (r.Raised? ==> Excused(r.why))
      ensures r.Done? ==> |log| > 0 && Did(log, |log| - 1, Look(Http))
    {
      r := Work();
      if r.Raised? { return; }
      ghost var one := log;
      r := Listen();
      GrewOn(old(log), one, log);
    }

    // --------------------------------------------------------------------- cleanup

    /** Stop what is left of the authorised containers. */
    method Sweep() returns (r: Result<()>)
      requires Valid()
      modifies this`used, this`stopping, this`log
      ensures Valid() && Grew(old(log), log) && (old(stopping) ==> stopping) && (r.Raised? ==> !r.why.Cancelled? && Excused(r.why))
      ensures r.Done? ==> Swept(world, log, cleanup)
      ensures r == Raised(Failed) ==> SweepRefused(world, log, cleanup)
      ensures cleanup == [] ==> log == old(log)
    {
      if cleanup == [] { return Done(()); }
      var a := Ask(Look(Listing), false, true);
      ghost var one := log;
      PrefixGrew(old(log), one);
      if a.Raised? { return Raised(a.why); }
      var left := Present(cleanup, a.value.listing);
      if left == [] { return Done(()); }
      r := StopLeft(left);
      GrewOn(old(log), one, log);
    }

    method StopLeft(left: seq<Id>) returns (r: Result<()>)
      requires Valid() && cleanup != [] && forall id :: id in left ==> id in cleanup
      modifies this`used, this`stopping, this`log
      ensures Valid() && Grew(old(log), log) && (old(stopping) ==> stopping) && (r.Raised? ==> !r.why.Cancelled? && Excused(r.why))
      ensures r.Done? ==> log == old(log) + [Issued(Supervision.Stop(left)), Passed(Supervision.Stop(left), old(used))]
      ensures r == Raised(Failed) ==> log == old(log) + [Issued(Supervision.Stop(left)), Refused(Supervision.Stop(left), old(used))]
    {
      ghost var at: nat :| Recorded(world, log, at, cleanup);
      assert Recorded(world, log, at, left);
      var _ :- Call(Supervision.Stop(left), false, true);
      return Done(());
    }

    /** `stop`: the helpers, and in any case the authorised containers. */
    method StopAll() returns (r: Result<()>)
      requires Valid()
      modifies this`used, this`stopping, this`log, this`helpers
      ensures Valid() && Grew(old(log), log) && (old(stopping) ==> stopping) && (r.Raised? ==> !r.why.Cancelled? && Excused(r.why))
      ensures r.Done? ==> Swept(world, log, cleanup) && helpers == {}
      ensures r == Raised(Failed) ==> Swept(world, log, cleanup) || SweepRefused(world, log, cleanup)
      ensures cleanup == [] ==> Quiet(old(log), log)
    {
      var first := StopHelpers();
      if first.Raised? && first.why.Killed? { return first; }
      ghost var one := log;
      r := Sweep();
      GrewOn(old(log), one, log);
      if first.Raised? && first.why.Failed? {
        GrewIsPrefix(one, log);
        CausedLasts(world, anchor, one, log);
      }
      if r.Done? { r := first; }
    }

    /** Watch until a signal arrives. */
    method Watch() returns (r: Result<()>)
      requires Valid()
      modifies this`used, this`stopping, this`log, this`ids
      ensures Valid() && Quiet(old(log), log) && (if r.Done? then stopping else Excused(r.why))
    {
      while !stopping
        invariant Valid() && Quiet(old(log), log)
        decreases |world.answers| - used
      {
        var _ :- Next();
        ghost var before := log;
        var again := Recheck();
        QuietOn(old(log), before, log);
        if again.Raised? { return Raised(again.why); }
      }
      return Done(());
    }

    /** Whatever was stopped or started is of the recorded generation, as an answer showed it. */
    lemma OnlyRecorded(i: nat)
      requires Valid() && i < |log| && Touches(log[i])
      ensures anchor.Some? && forall id :: id in log[i].command.ids ==> id in anchor.value.containers.Values && id in cleanup
      ensures exists k :: 0 <= k < used && Matches(world, anchor.value, world.answers[k].found)
    {
      var at := TouchedIsFound(world, log, i);
      AnchoredIsFound(world, log, at);
      var seen: nat :| seen < at && Did(log, seen, Look(Inspection)) && log[seen].answer == log[at].answer;
      assert Matches(world, anchor.value, world.answers[log[at].answer].found);
    }

    method Announce()
      requires Valid() && |log| > 0 && Did(log, |log| - 1, Look(Http))
      modifies this`log
      ensures Valid() && log == old(log) + [Ready]
    {
      Append(Ready);
    }

    /** Start, announce, watch. */
    method Serve() returns (r: Result<()>)
      requires Valid()
      modifies this`used, this`stopping, this`log, this`ids, this`cleanup, this`helpers, this`minted
      ensures Valid() && Grew(old(log), log) && (if r.Done? then stopping else Excused(r.why))
    {
      var _ :- StartAll();
      var _ :- EnsureRunning();
      ghost var zero := log;
      Announce();
      PrefixGrew(zero, log);
      GrewOn(old(log), zero, log);
      ghost var one := log;
      r := Watch();
      PrefixGrew(one, log);
      GrewOn(old(log), one, log);
    }

    /** `supervise`, with a failure, a signal or the death of the process at any step. Every
        container stopped or started is one that the anchor records; unless an inspection
        shows exactly the containers of a valid anchor none is touched. A normal return comes
        only after a signal, and by then every helper of the run was stopped or seen gone and
        whatever was started was stopped or no longer there. A failure has its cause in an
        answer, and there too, unless the cleanup's own command was refused, whatever was
        started was stopped or no longer there; only a kill leaves more behind. The order of the steps is `Orderly`. */
    method Supervise(locked: bool) returns (r: Result<()>)
      requires Valid()
      modifies this`used, this`stopping, this`log, this`ids, this`cleanup, this`helpers, this`minted
      ensures Valid() && old(log) <= log
      ensures forall i, id :: 0 <= i < |log| && Touches(log[i]) && id in log[i].command.ids ==>
                anchor.Some? && id in anchor.value.containers.Values && id in cleanup
      ensures anchor.None? || (forall k :: 0 <= k < used ==> !Matches(world, anchor.value, world.answers[k].found)) ==>
                forall i :: 0 <= i < |log| ==> !Touches(log[i])
      ensures r.Done? ==> Signalled() && Swept(world, log, cleanup) && forall name: nat :: name < minted ==> Gone(world, log, name)
      ensures r.Raised? && locked ==> !r.why.Cancelled? && Excused(r.why)
      ensures r == Raised(Failed) && locked ==> Swept(world, log, cleanup) || SweepRefused(world, log, cleanup)
    {
      if locked {
        r := Serve();
        if r.Done? || !r.why.Killed? { r := CleanUp(r); }
      } else {
        r := Raised(Failed);
      }
      GrewIsPrefix(old(log), log);
      if r.Done? {
        forall name: nat | name < minted ensures Gone(world, log, name) { assert name !in helpers; }
      }
      forall i | 0 <= i < |log| && Touches(log[i])
        ensures anchor.Some? && forall id :: id in log[i].command.ids ==> id in anchor.value.containers.Values && id in cleanup
        ensures exists k :: 0 <= k < used && Matches(world, anchor.value, world.answers[k].found)
      {
        OnlyRecorded(i);
      }
    }

    /** The `finally` of `supervise`: a cancellation is no error, a failed cleanup is. */
    method CleanUp(served: Result<()>) returns (r: Result<()>)
      requires Valid() && (if served.Done? then stopping else Excused(served.why) && !served.why.Killed?)
      modifies this`used, this`stopping, this`log, this`helpers
      ensures Valid() && Grew(old(log), log)
      ensures if r.Done? then stopping && helpers == {} && Swept(world, log, cleanup) else !r.why.Cancelled? && Excused(r.why)
      ensures r == Raised(Failed) ==> Swept(world, log, cleanup) || SweepRefused(world, log, cleanup)
    {
      r := StopAll();
      if r.Done? && served.Raised? && served.why.Failed? {
        GrewIsPrefix(old(log), log);
        CausedLasts(world, anchor, old(log), log);
        r := served;
      }
    }
  }
}
