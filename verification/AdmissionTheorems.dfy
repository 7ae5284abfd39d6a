/** What the admission protocol guarantees over every run from an empty store. */
module AdmissionTheorems {
  import opened Basics
  import opened Redis
  import opened AdmissionStore
  import opened AdmissionKeeps
  import opened AdmissionProtocol
  import opened Ledger

  ghost predicate Reachable(c: Config, t: System)
    requires Configured(c)
  {
    exists now: nat, actions: seq<Action> :: Reaches(c, Init(now), actions, t)
  }

  lemma ReachableInv(c: Config, t: System)
    requires Configured(c) && Reachable(c, t)
    ensures Inv(c, t)
  {
    var now: nat, actions: seq<Action> :| Reaches(c, Init(now), actions, t);
    InitInv(c, now);
    RunKept(c, Init(now), actions, t);
  }

  // ------------------------------------------------------------------- mutual exclusion

  ghost function Runners(t: System): set<nat> {
    set i | i in t.requests && Runs(t, i)
  }

  /** At every moment of every run at most one handler runs under a permit, whatever the
      configured capacity, and its own token is in its slot. */
  lemma OneHandler(c: Config, t: System)
    requires Configured(c) && Reachable(c, t)
    ensures |Runners(t)| <= 1 <= c.capacity
    ensures forall i :: i in Runners(t) ==> Holds(t, i, t.requests[i].phase.slot)
  {
    ReachableInv(c, t);
    if i :| i in Runners(t) {
      forall j | j in Runners(t) ensures j == i {
        assert Holds(t, i, "0") && Holds(t, j, "0");
      }
      assert Runners(t) == {i};
    }
  }

  /** The slot of a running handler is never taken over: whoever holds a slot in the store
      holds it alone. */
  lemma HoldersDiffer(c: Config, t: System, i: nat, j: nat, slot: string)
    requires Configured(c) && Reachable(c, t) && Holds(t, i, slot) && Holds(t, j, slot)
    ensures i == j
  {
    ReachableInv(c, t);
  }

  /** A held slot is given up only by a release call with exactly its token or by an
      explicit reconciliation, never by time, a crash, or somebody else's release. */
  lemma TokenLeaves(c: Config, s: System, a: Action, slot: string)
    requires Configured(c) && Reachable(c, s) && Enabled(c, s, a)
    requires SlotName(slot, c.capacity) && slot in Fields(s.store)
    ensures
      var after := Fields(Do(c, s, a).store);
      || (slot in after && after[slot] == Fields(s.store)[slot])
      || (a.ExecuteRelease? && s.releases[a.id] == slot && s.requests[a.id].token == Fields(s.store)[slot])
      || a.ExecuteReconcile?
  {
    assert Sound(s.store, c) && Tokens(s) && Calls(s) by { ReachableInv(c, s); }
    FieldsStep(c, s, a);
  }

  /** What one action may do to the hash of permits. */
  ghost predicate FieldsMoved(c: Config, s: System, a: Action, before: map<string, string>, after: map<string, string>, reply: Option<Reply>) {
    match a
    case ExecuteAcquire(id) =>
      after == before
      || (reply.Some? && reply.value.Granted? && id in s.requests && reply.value.slot !in before
          && after == before[reply.value.slot := s.requests[id].token])
    case ExecuteRelease(id) =>
      && id in s.releases && id in s.requests
      && var slot := s.releases[id];
         after == if slot in before && before[slot] == s.requests[id].token && Admits(s.store, c) then before - {slot} else before
    case ExecuteReconcile(g) => after == before || after == FreshFields(c, g)
    case Initialize(g) => after == before || (before == map[] && after == FreshFields(c, g))
    case ExecuteMissing(g) => after == before || (before == map[] && after == FreshFields(c, g))
    case _ => after == before
  }

  function ReplyTo(t: System, a: Action): Option<Reply> {
    if a.ExecuteAcquire? && a.id in t.answers then Some(t.answers[a.id]) else None
  }

  lemma AcquireFields(c: Config, s: System, a: Action)
    requires Sound(s.store, c) && Tokens(s) && Calls(s) && Enabled(c, s, a) && a.ExecuteAcquire?
    ensures FieldsMoved(c, s, a, Fields(s.store), Fields(Do(c, s, a).store), ReplyTo(Do(c, s, a), a))
  {
    var r := s.requests[a.id];
    AcquireKeeps(s.store, c, r.source, r.credential, r.token);
  }

  lemma ReleaseFields(c: Config, s: System, a: Action)
    requires Sound(s.store, c) && Tokens(s) && Calls(s) && Enabled(c, s, a) && a.ExecuteRelease?
    ensures FieldsMoved(c, s, a, Fields(s.store), Fields(Do(c, s, a).store), None)
  {
    ReleaseKeeps(s.store, c, s.releases[a.id], s.requests[a.id].token);
  }

  lemma OtherFields(c: Config, s: System, a: Action)
    requires Sound(s.store, c) && Enabled(c, s, a) && !a.ExecuteAcquire? && !a.ExecuteRelease?
    ensures FieldsMoved(c, s, a, Fields(s.store), Fields(Do(c, s, a).store), None)
  {
    if a.ExecuteReconcile? {
      ReconcileKeeps(s.store, c, a.generation);
    } else if a.Pass? {
      TickKeeps(s.store, c, a.milliseconds);
    } else if a.Initialize? || a.ExecuteMissing? {
      InitializeKeeps(s.store, c, 0, a.generation);
    } else {
      assert Do(c, s, a).store == s.store;
    }
  }

  lemma FieldsStep(c: Config, s: System, a: Action)
    requires Sound(s.store, c) && Tokens(s) && Calls(s) && Enabled(c, s, a)
    ensures FieldsMoved(c, s, a, Fields(s.store), Fields(Do(c, s, a).store), ReplyTo(Do(c, s, a), a))
  {
    if a.ExecuteAcquire? {
      AcquireFields(c, s, a);
    } else if a.ExecuteRelease? {
      ReleaseFields(c, s, a);
    } else {
      OtherFields(c, s, a);
    }
  }

  /** A release call of request `id`, however late, leaves every other holder its slot. */
  lemma LateReleaseHarmless(c: Config, s: System, id: nat, j: nat, slot: string)
    requires Configured(c) && Reachable(c, s) && Enabled(c, s, ExecuteRelease(id))
    requires j != id && SlotName(slot, c.capacity) && Holds(s, j, slot)
    ensures Holds(Do(c, s, ExecuteRelease(id)), j, slot)
  {
    ReachableInv(c, s);
    TokenLeaves(c, s, ExecuteRelease(id), slot);
  }

  /** Why the controller looks for stopped processes first: reconciling keeps the permits
      in order exactly when no request runs or is about to run under one. */
  lemma ReconcileNeedsQuiet(c: Config, s: System, generation: string)
    requires Sound(s.store, c) && Claims(c, s) && Admits(s.store, c) && Generation(generation)
    ensures
      Claims(c, s.(store := Reconcile(s.store, c, generation).0)) <==>
      forall i :: !Runs(s, i) && !(i in s.answers && Asks(s, i) && s.answers[i].Granted?)
  {
    var t := s.(store := Reconcile(s.store, c, generation).0);
    assert forall f :: f in Fields(t.store) ==> f == CONFIG_FIELD || f == GENERATION_FIELD by {
      ReconcileKeeps(s.store, c, generation);
    }
    assert forall i, slot :: SlotName(slot, 10) ==> !Holds(t, i, slot);
    if i :| Runs(s, i) {
      assert Runs(t, i) && SlotName("0", 10);
    } else if i :| i in s.answers && Asks(s, i) && s.answers[i].Granted? {
      assert Asks(t, i) && SlotName(s.answers[i].slot, 10);
    } else {
      forall i: nat ensures Runs(t, i) == Runs(s, i) && Asks(t, i) == Asks(s, i) {}
    }
  }

  // ------------------------------------------------------------------ no script error

  /** Once `initialize_fresh` has run, the state hash stays and stays valid, so no acquire
      of the run ends in an error. */
  lemma InitializedStays(c: Config, s: System, a: Action)
    requires Configured(c) && Reachable(c, s) && Enabled(c, s, a) && Admits(s.store, c)
    ensures Admits(Do(c, s, a).store, c)
    ensures a.ExecuteAcquire? ==> !Do(c, s, a).answers[a.id].Failed?
  {
    assert Sound(s.store, c) && Tokens(s) && Calls(s) by { ReachableInv(c, s); }
    AdmitsStep(c, s, a);
  }

  /** And so for the rest of any run: the state stays valid, and an acquire that the run
      executes at any later moment gets an answer other than an error. */
  lemma {:induction false} InitializedForever(c: Config, s: System, actions: seq<Action>, t: System)
    requires Configured(c) && Inv(c, s) && Admits(s.store, c) && Reaches(c, s, actions, t)
    ensures Inv(c, t) && Admits(t.store, c)
    ensures forall id :: Enabled(c, t, ExecuteAcquire(id)) ==> !Do(c, t, ExecuteAcquire(id)).answers[id].Failed?
    decreases |actions|
  {
    if actions == [] {
      forall id | Enabled(c, t, ExecuteAcquire(id)) ensures !Do(c, t, ExecuteAcquire(id)).answers[id].Failed? {
        AcquireAdmits(c, t, id);
      }
    } else {
      StepKept(c, s, actions[0]);
      AdmitsStep(c, s, actions[0]);
      InitializedForever(c, Do(c, s, actions[0]), actions[1..], t);
    }
  }

  lemma AcquireAdmits(c: Config, s: System, id: nat)
    requires Sound(s.store, c) && Tokens(s) && Calls(s) && Enabled(c, s, ExecuteAcquire(id)) && Admits(s.store, c)
    ensures Admits(Do(c, s, ExecuteAcquire(id)).store, c)
    ensures !Do(c, s, ExecuteAcquire(id)).answers[id].Failed?
  {
    AcquireKeeps(s.store, c, s.requests[id].source, s.requests[id].credential, s.requests[id].token);
  }

  lemma ReleaseAdmits(c: Config, s: System, id: nat)
    requires Sound(s.store, c) && Tokens(s) && Calls(s) && Enabled(c, s, ExecuteRelease(id)) && Admits(s.store, c)
    ensures Admits(Do(c, s, ExecuteRelease(id)).store, c)
  {
    ReleaseKeeps(s.store, c, s.releases[id], s.requests[id].token);
  }

  lemma ReconcileAdmits(c: Config, s: System, a: Action)
    requires Sound(s.store, c) && Enabled(c, s, a) && Admits(s.store, c)
    requires a.ExecuteReconcile? || a.ExecuteMissing? || a.Initialize?
    ensures Admits(Do(c, s, a).store, c)
  {
    if a.ExecuteReconcile? {
      ReconcileKeeps(s.store, c, a.generation);
    } else {
      InitializeKeeps(s.store, c, 0, a.generation);
    }
  }

  lemma AdmitsStep(c: Config, s: System, a: Action)
    requires Sound(s.store, c) && Tokens(s) && Calls(s) && Enabled(c, s, a) && Admits(s.store, c)
    ensures Admits(Do(c, s, a).store, c)
    ensures a.ExecuteAcquire? ==> !Do(c, s, a).answers[a.id].Failed?
  {
    if a.ExecuteAcquire? {
      AcquireAdmits(c, s, a.id);
    } else if a.ExecuteRelease? {
      ReleaseAdmits(c, s, a.id);
    } else if a.ExecuteReconcile? || a.ExecuteMissing? || a.Initialize? {
      ReconcileAdmits(c, s, a);
    } else if a.Pass? {
      TickKeeps(s.store, c, a.milliseconds);
    } else {
      assert Do(c, s, a).store == s.store;
    }
  }

  // --------------------------------------------------------------------------- budgets

  /** Any `window` seconds of any run hold at most twice the limit of each counter: counted
      requests for the global one, admissions for each source and each credential. */
  lemma BudgetOverAnyWindow(c: Config, t: System, k: Key, from: int, to: int)
    requires Configured(c) && Reachable(c, t) && k != StateKey && to - from <= 1000 * c.window
    ensures Between(HitsOf(t.history, k), from, to) <= 2 * Limit(c, k)
  {
    ReachableInv(c, t);
    assert LedgerOf(c, t, k);
    TwiceTheLimit(HitsOf(t.history, k), 1000 * c.window, Limit(c, k), from, to);
  }

  /** Sources admitted at or after `from`. */
  ghost function SourcesSince(history: seq<Event>, from: int): set<Key> {
    if history == [] then {}
    else
      var e := history[|history| - 1];
      SourcesSince(history[..|history| - 1], from)
      + if from <= e.time && e.admitted.Some? then {SourceKey(e.admitted.value.source)} else {}
  }

  ghost function CredentialsSince(history: seq<Event>, from: int): set<Key> {
    if history == [] then {}
    else
      var e := history[|history| - 1];
      CredentialsSince(history[..|history| - 1], from)
      + if from <= e.time && e.admitted.Some? then {CredentialKey(e.admitted.value.credential)} else {}
  }

  /** Each counted request admits at most one source and one credential. */
  lemma {:induction false} FewIdentities(history: seq<Event>, from: int, to: int)
    requires forall i :: 0 <= i < |history| ==> history[i].time <= to
    ensures |SourcesSince(history, from)| <= Between(HitsOf(history, GlobalKey), from, to)
    ensures |CredentialsSince(history, from)| <= Between(HitsOf(history, GlobalKey), from, to)
    decreases |history|
  {
    if history != [] {
      var front := history[..|history| - 1];
      FewIdentities(front, from, to);
      var hits := HitsOf(history, GlobalKey);
      var e := history[|history| - 1];
      assert hits == HitsOf(front, GlobalKey) + [Hit(e.time, e.globalStart)];
      assert hits[..|hits| - 1] == HitsOf(front, GlobalKey);
    }
  }

  lemma {:induction false} GlobalTimes(history: seq<Event>, now: int)
    requires forall i :: 0 <= i < |HitsOf(history, GlobalKey)| ==> HitsOf(history, GlobalKey)[i].time <= now
    ensures |HitsOf(history, GlobalKey)| == |history|
    ensures forall i :: 0 <= i < |history| ==> history[i].time <= now
    decreases |history|
  {
    if history != [] {
      var front := history[..|history| - 1];
      var hits := HitsOf(history, GlobalKey);
      var last := Hit(history[|history| - 1].time, history[|history| - 1].globalStart);
      assert hits == HitsOf(front, GlobalKey) + [last];
      assert hits[|hits| - 1] == last;
      forall i | 0 <= i < |HitsOf(front, GlobalKey)| ensures HitsOf(front, GlobalKey)[i].time <= now {
        assert hits[i] == HitsOf(front, GlobalKey)[i];
      }
      GlobalTimes(front, now);
    }
  }

  /** A key with a hit in the history at or after `from` is among the recent identities. */
  lemma {:induction false} HitIsRecent(history: seq<Event>, k: Key, from: int)
    requires k.SourceKey? || k.CredentialKey?
    requires HitsOf(history, k) != [] && HitsOf(history, k)[|HitsOf(history, k)| - 1].time >= from
    ensures k in SourcesSince(history, from) || k in CredentialsSince(history, from)
    decreases |history|
  {
    var front := history[..|history| - 1];
    var e := history[|history| - 1];
    if HitsIn(e, k) == [] {
      assert HitsOf(history, k) == HitsOf(front, k);
      HitIsRecent(front, k, from);
    }
  }

  ghost function LiveSources(t: Store): set<Key> {
    set k | k in t.entries && k.SourceKey? && Get(t, k).Some?
  }

  ghost function LiveCredentials(t: Store): set<Key> {
    set k | k in t.entries && k.CredentialKey? && Get(t, k).Some?
  }

  lemma {:induction false} KindsSince(history: seq<Event>, from: int)
    ensures forall k :: k in SourcesSince(history, from) ==> k.SourceKey?
    ensures forall k :: k in CredentialsSince(history, from) ==> k.CredentialKey?
    decreases |history|
  {
    if history != [] { KindsSince(history[..|history| - 1], from); }
  }

  /** However many identities appear, the store never holds more than `2 * global_max` live
      source keys and as many live credential keys. */
  lemma FewLiveKeys(c: Config, t: System)
    requires Configured(c) && Reachable(c, t)
    ensures |LiveSources(t.store)| <= 2 * c.globalMax
    ensures |LiveCredentials(t.store)| <= 2 * c.globalMax
  {
    var from := t.store.now - 1000 * c.window;
    assert Between(HitsOf(t.history, GlobalKey), from, t.store.now) <= 2 * c.globalMax by {
      BudgetOverAnyWindow(c, t, GlobalKey, from, t.store.now);
    }
    TimesPassed(c, t);
    FewIdentities(t.history, from, t.store.now);
    LiveAreRecent(c, t);
    Subset(LiveSources(t.store), SourcesSince(t.history, from));
    Subset(LiveCredentials(t.store), CredentialsSince(t.history, from));
  }

  lemma TimesPassed(c: Config, t: System)
    requires Configured(c) && Reachable(c, t)
    ensures forall i :: 0 <= i < |t.history| ==> t.history[i].time <= t.store.now
  {
    ReachableInv(c, t);
    assert LedgerOf(c, t, GlobalKey);
    GlobalTimes(t.history, t.store.now);
  }

  lemma LiveAreRecent(c: Config, t: System)
    requires Configured(c) && Reachable(c, t)
    ensures LiveSources(t.store) <= SourcesSince(t.history, t.store.now - 1000 * c.window)
    ensures LiveCredentials(t.store) <= CredentialsSince(t.history, t.store.now - 1000 * c.window)
  {
    KindsSince(t.history, t.store.now - 1000 * c.window);
    ReachableInv(c, t);
    forall k | k in LiveSources(t.store) ensures k in SourcesSince(t.history, t.store.now - 1000 * c.window) {
      LiveIsRecent(c, t, k);
    }
    forall k | k in LiveCredentials(t.store) ensures k in CredentialsSince(t.history, t.store.now - 1000 * c.window) {
      LiveIsRecent(c, t, k);
    }
  }

  lemma LiveIsRecent(c: Config, t: System, k: Key)
    requires Inv(c, t) && (k.SourceKey? || k.CredentialKey?) && Get(t.store, k).Some?
    ensures
      var from := t.store.now - 1000 * c.window;
      k in SourcesSince(t.history, from) || k in CredentialsSince(t.history, from)
  {
    assert Healthy(t.store, k, Limit(c, k), c.window);
    var hits := HitsOf(t.history, k);
    assert LedgerOf(c, t, k);
    assert CounterAt(t.store, k).Counting?;
    var last := hits[|hits| - 1];
    assert last.time >= last.start >= t.store.now - 1000 * c.window;
    HitIsRecent(t.history, k, t.store.now - 1000 * c.window);
  }
}
