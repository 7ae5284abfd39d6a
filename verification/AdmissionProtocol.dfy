/** Many requests, one store, one host controller. A request sends its acquire call and
    waits; the call is executed at any later moment or never; the reply arrives or is
    lost; a handler returns, raises or streams; its release call is executed at any later
    moment or never; processes die at any point; the controller closes, checks and opens
    the applications or reconciles the permits, under one lock. */
module AdmissionProtocol {
  import opened Basics
  import opened Redis
  import opened AdmissionStore
  import opened AdmissionKeeps
  import opened Ledger

  datatype Phase = Asking | Running(slot: string) | Releasing | Over

  datatype Request = Request(token: string, source: string, credential: string, phase: Phase)

  /** Progress of a supervised start, and of an explicit reconciliation, while it holds the lock. */
  datatype Stage = Begun | Closed | Checked | Serving

  datatype Lock = Free | Supervisor(stage: Stage) | Reconciler(quiet: bool)

  /** History: one globally counted request, with the start of each window it fell in. */
  datatype Event = Event(time: int, globalStart: int, admitted: Option<Admitted>)

  datatype Admitted = Admitted(source: string, sourceStart: int, credential: string, credentialStart: int)

  datatype System = System(
    store: Store,
    requests: map<nat, Request>,
    acquires: set<nat>,           // acquire calls sent and not executed
    answers: map<nat, Reply>,     // replies of executed acquire calls
    releases: map<nat, string>,   // release calls sent and not executed, with their slot
    appsUp: bool,
    lock: Lock,
    history: seq<Event>)

  datatype Action =
    | Arrive(id: nat, token: string, source: string, credential: string)
    | ExecuteAcquire(id: nat)
    | Answer(id: nat)                  // the reply reaches the middleware
    | Abandon(id: nat)                 // timeout or transport error while waiting
    | Finish(id: nat)                  // the handler returned or raised; a release is sent
    | Stream(id: nat)                  // a streaming response keeps its slot
    | ExecuteRelease(id: nat)
    | Settle(id: nat)                  // the release reply arrived or was lost
    | Die(id: nat)                     // the process serving one request dies
    | AppsDie                          // the application containers exit
    | Pass(milliseconds: nat)
    | Initialize(generation: string)   // `initialize_fresh`
    | BeginSupervise
    | CloseApps                        // `docker stop` of the applications succeeded
    | CheckEmpty                       // `check(require_empty=True)`
    | OpenListener
    | BeginReconcile
    | SeeQuiet                         // every application container is stopped with PID zero
    | ExecuteReconcile(generation: string)
    | ExecuteMissing(generation: string)
    | Unlock                           // the controller ends or dies; nothing else changes

  function Init(now: nat): System {
    System(Store(now, None, map[]), map[], {}, map[], map[], false, Free, [])
  }

  predicate Asks(s: System, id: nat) { id in s.requests && s.requests[id].phase.Asking? }

  predicate Runs(s: System, id: nat) { id in s.requests && s.requests[id].phase.Running? }

  predicate Returns(s: System, id: nat) { id in s.requests && s.requests[id].phase.Releasing? }

  predicate Enabled(c: Config, s: System, a: Action) {
    match a
    case Arrive(id, token, _, _) =>
      s.appsUp && id !in s.requests && Token(token) && forall i :: i in s.requests ==> s.requests[i].token != token
    case ExecuteAcquire(id) => id in s.acquires && id in s.requests
    case Answer(id) => id in s.answers && Asks(s, id)
    case Abandon(id) => Asks(s, id)
    case Finish(id) => Runs(s, id)
    case Stream(id) => Runs(s, id)
    case ExecuteRelease(id) => id in s.releases && id in s.requests
    case Settle(id) => Returns(s, id)
    case Die(id) => id in s.requests && !s.requests[id].phase.Over?
    case AppsDie => true
    case Pass(_) => true
    case Initialize(g) => Generation(g)
    case BeginSupervise => s.lock.Free?
    case CloseApps => s.lock == Supervisor(Begun)
    case CheckEmpty => s.lock == Supervisor(Closed) && Check(s.store, c, true)
    case OpenListener => s.lock == Supervisor(Checked)
    case BeginReconcile => s.lock.Free?
    case SeeQuiet => s.lock == Reconciler(false) && !s.appsUp
    case ExecuteReconcile(g) => s.lock == Reconciler(true) && Generation(g)
    case ExecuteMissing(g) => s.lock == Reconciler(true) && Generation(g)
    case Unlock => !s.lock.Free?
  }

  function To(s: System, id: nat, phase: Phase): System
    requires id in s.requests
  {
    s.(requests := s.requests[id := s.requests[id].(phase := phase)])
  }

  function AllOver(requests: map<nat, Request>): map<nat, Request> {
    map i | i in requests :: requests[i].(phase := Over)
  }

  function Down(s: System): System {
    s.(appsUp := false, requests := AllOver(s.requests))
  }

  /** The event one acquire adds to the history, if it was counted at all. */
  function Recorded(c: Config, s: Store, r: Request): seq<Event>
    requires Configured(c)
  {
    var span := 1000 * c.window;
    var keys := HitKeys(s, c, r.source, r.credential, r.token);
    if GlobalKey !in keys then []
    else [Event(s.now, StartOf(CounterAt(s, GlobalKey), span, s.now),
                if SourceKey(r.source) in keys
                then Some(Admitted(r.source, StartOf(CounterAt(s, SourceKey(r.source)), span, s.now),
                                   r.credential, StartOf(CounterAt(s, CredentialKey(r.credential)), span, s.now)))
                else None)]
  }

  function Do(c: Config, s: System, a: Action): System
    requires Configured(c) && Enabled(c, s, a)
  {
    match a
    case Arrive(id, token, source, credential) =>
      s.(requests := s.requests[id := Request(token, source, credential, Asking)], acquires := s.acquires + {id})
    case ExecuteAcquire(id) =>
      var r := s.requests[id];
      var (store, reply) := Acquire(s.store, c, r.source, r.credential, r.token);
      s.(store := store, acquires := s.acquires - {id}, answers := s.answers[id := reply],
         history := s.history + Recorded(c, s.store, r))
    case Answer(id) =>
      var reply := s.answers[id];
      To(s, id, if reply.Granted? && reply.slot == "0" then Running(reply.slot) else Over)
    case Abandon(id) => To(s, id, Over)
    case Finish(id) => To(s, id, Releasing).(releases := s.releases[id := s.requests[id].phase.slot])
    case Stream(id) => To(s, id, Over)
    case ExecuteRelease(id) =>
      s.(store := Release(s.store, c, s.releases[id], s.requests[id].token).0, releases := s.releases - {id})
    case Settle(id) => To(s, id, Over)
    case Die(id) => To(s, id, Over)
    case AppsDie => Down(s)
    case Pass(d) => s.(store := Tick(s.store, d))
    case Initialize(g) => s.(store := InitializeFresh(s.store, c, 0, g).0)
    case BeginSupervise => s.(lock := Supervisor(Begun))
    case CloseApps => Down(s).(lock := Supervisor(Closed))
    case CheckEmpty => s.(lock := Supervisor(Checked))
    case OpenListener => s.(appsUp := true, lock := Supervisor(Serving))
    case BeginReconcile => s.(lock := Reconciler(false))
    case SeeQuiet => s.(lock := Reconciler(true))
    case ExecuteReconcile(g) => s.(store := Reconcile(s.store, c, g).0)
    case ExecuteMissing(g) => s.(store := InitializeMissing(s.store, c, g).0)
    case Unlock => s.(lock := Free)
  }

  /** `t` is reached from `s` by the actions, each enabled when it happens. */
  ghost predicate Reaches(c: Config, s: System, actions: seq<Action>, t: System)
    requires Configured(c)
    decreases |actions|
  {
    if actions == [] then s == t
    else Enabled(c, s, actions[0]) && Reaches(c, Do(c, s, actions[0]), actions[1..], t)
  }

  // ---------------------------------------------------------------------- permits

  /** Request `id` owns `slot` in the store. */
  predicate Holds(s: System, id: nat, slot: string) {
    id in s.requests && slot in Fields(s.store) && Fields(s.store)[slot] == s.requests[id].token
  }

  ghost predicate Tokens(s: System) {
    && (forall i, j :: i in s.requests && j in s.requests && i != j ==> s.requests[i].token != s.requests[j].token)
    && (forall i :: i in s.requests ==> Token(s.requests[i].token))
  }

  /** With the applications down no request is alive, and a reconciler that has seen them
      down keeps them down. */
  ghost predicate Quiet(s: System) {
    && (!s.appsUp ==> forall i :: i in s.requests ==> s.requests[i].phase.Over?)
    && (s.lock == Reconciler(true) ==> !s.appsUp)
  }

  /** Calls in flight belong to known requests that are past the call or still waiting. */
  ghost predicate Calls(s: System) {
    && (forall i :: i in s.acquires ==> i in s.requests && i !in s.answers && !Runs(s, i) && !Returns(s, i))
    && (forall i :: i in s.answers ==> i in s.requests)
    && (forall i :: i in s.releases ==> SlotName(s.releases[i], 10) && i in s.requests && !Asks(s, i) && !Runs(s, i))
  }

  /** A permit in use, or on its way to its request, is in the store. */
  ghost predicate Claims(c: Config, s: System) {
    && (forall i :: i in s.answers && Asks(s, i) && s.answers[i].Granted? ==>
          SlotName(s.answers[i].slot, c.capacity) && Holds(s, i, s.answers[i].slot))
    && (forall i :: Runs(s, i) ==>
          s.requests[i].phase.slot == "0" && Holds(s, i, s.requests[i].phase.slot))
  }

  ghost predicate Permits(c: Config, s: System) {
    Tokens(s) && Quiet(s) && Calls(s) && Claims(c, s)
  }

  /** The histories of all counters, cut out of the one history. */
  function HitsOf(history: seq<Event>, k: Key): seq<Hit> {
    if history == [] then []
    else HitsOf(history[..|history| - 1], k) + HitsIn(history[|history| - 1], k)
  }

  function HitsIn(e: Event, k: Key): seq<Hit> {
    match k
    case StateKey => []
    case GlobalKey => [Hit(e.time, e.globalStart)]
    case SourceKey(m) =>
      if e.admitted.Some? && e.admitted.value.source == m then [Hit(e.time, e.admitted.value.sourceStart)] else []
    case CredentialKey(m) =>
      if e.admitted.Some? && e.admitted.value.credential == m then [Hit(e.time, e.admitted.value.credentialStart)] else []
  }

  ghost predicate LedgerOf(c: Config, s: System, k: Key) {
    && Valid(HitsOf(s.history, k), 1000 * c.window, Limit(c, k))
    && Shows(HitsOf(s.history, k), CounterAt(s.store, k), 1000 * c.window, s.store.now)
  }

  ghost predicate Ledgers(c: Config, s: System) { forall k: Key :: k != StateKey ==> LedgerOf(c, s, k) }

  ghost predicate Inv(c: Config, s: System) {
    Sound(s.store, c) && Permits(c, s) && Ledgers(c, s)
  }

  // ------------------------------------------------------------------ preservation

  lemma StoreKept(c: Config, s: System, a: Action)
    requires Inv(c, s) && Enabled(c, s, a)
    ensures Sound(Do(c, s, a).store, c)
  {
    match a
    case ExecuteAcquire(id) =>
      AcquireKeeps(s.store, c, s.requests[id].source, s.requests[id].credential, s.requests[id].token);
    case ExecuteRelease(id) => ReleaseKeeps(s.store, c, s.releases[id], s.requests[id].token);
    case Pass(d) => TickKeeps(s.store, c, d);
    case Initialize(g) => InitializeKeeps(s.store, c, 0, g);
    case ExecuteReconcile(g) => ReconcileKeeps(s.store, c, g);
    case ExecuteMissing(g) => InitializeKeeps(s.store, c, 0, g);
    case _ =>
  }

  lemma ArriveCalls(s: System, id: nat, r: Request)
    requires Calls(s) && id !in s.requests && r.phase.Asking?
    ensures Calls(s.(requests := s.requests[id := r], acquires := s.acquires + {id}))
  {
  }

  lemma ArriveClaims(c: Config, s: System, id: nat, r: Request)
    requires Calls(s) && Claims(c, s) && id !in s.requests && r.phase.Asking?
    ensures Claims(c, s.(requests := s.requests[id := r], acquires := s.acquires + {id}))
  {
  }

  lemma ArrivePermits(c: Config, s: System, a: Action)
    requires Configured(c) && Permits(c, s) && a.Arrive? && Enabled(c, s, a)
    ensures Permits(c, Do(c, s, a))
  {
    var r := Request(a.token, a.source, a.credential, Asking);
    ArriveCalls(s, a.id, r);
    ArriveClaims(c, s, a.id, r);
  }

  lemma MoveTokens(s: System, id: nat, phase: Phase)
    requires Tokens(s) && id in s.requests
    ensures Tokens(To(s, id, phase))
  {
  }

  lemma MoveQuiet(s: System, id: nat, phase: Phase)
    requires Quiet(s) && id in s.requests && !s.requests[id].phase.Over?
    ensures Quiet(To(s, id, phase))
  {
  }

  lemma MoveCalls(s: System, id: nat, phase: Phase)
    requires Calls(s) && id in s.requests
    requires phase.Over? || (phase.Releasing? && Runs(s, id)) || (phase.Running? && Asks(s, id) && id in s.answers)
    ensures Calls(To(s, id, phase))
  {
  }

  lemma MoveClaims(c: Config, s: System, id: nat, phase: Phase)
    requires Claims(c, s) && id in s.requests && !phase.Asking?
    requires phase.Running? ==> phase.slot == "0" && Holds(s, id, phase.slot)
    ensures Claims(c, To(s, id, phase))
  {
  }

  /** A request moves on; only a granted answer for slot 0 makes it run. */
  lemma MovePermits(c: Config, s: System, id: nat, phase: Phase)
    requires Permits(c, s) && id in s.requests && !s.requests[id].phase.Over?
    requires phase.Over? || (phase.Releasing? && Runs(s, id))
             || (phase == Running("0") && Asks(s, id) && id in s.answers && s.answers[id] == Granted("0"))
    ensures Permits(c, To(s, id, phase))
  {
    MoveTokens(s, id, phase);
    MoveQuiet(s, id, phase);
    MoveCalls(s, id, phase);
    MoveClaims(c, s, id, phase);
  }

  lemma FinishCalls(s: System, id: nat, slot: string)
    requires Calls(s) && Returns(s, id) && SlotName(slot, 10)
    ensures Calls(s.(releases := s.releases[id := slot]))
  {
  }

  lemma FinishPermits(c: Config, s: System, id: nat, slot: string)
    requires Permits(c, s) && Returns(s, id) && SlotName(slot, 10)
    ensures Permits(c, s.(releases := s.releases[id := slot]))
  {
    var t := s.(releases := s.releases[id := slot]);
    FinishCalls(s, id, slot);
    SameClaims(c, s, t);
    SameTokens(s, t);
  }

  /** Tokens and quiet speak of the requests, the applications and the lock only. */
  lemma SameTokens(s: System, t: System)
    requires Tokens(s) && Quiet(s) && t.requests == s.requests && t.appsUp == s.appsUp && t.lock == s.lock
    ensures Tokens(t) && Quiet(t)
  {
  }

  /** Claims speak of the requests, the answers and the store only. */
  lemma SameClaims(c: Config, s: System, t: System)
    requires Claims(c, s) && t.requests == s.requests && t.answers == s.answers && t.store == s.store
    ensures Claims(c, t)
  {
  }

  lemma DownTokens(s: System)
    requires Tokens(s)
    ensures Tokens(Down(s)) && Quiet(Down(s))
  {
    var t := Down(s);
    forall i | i in s.requests ensures i in t.requests && t.requests[i].token == s.requests[i].token {}
  }

  lemma DownCalls(c: Config, s: System)
    requires Calls(s)
    ensures Calls(Down(s)) && Claims(c, Down(s))
  {
  }

  lemma DownPermits(c: Config, s: System)
    requires Permits(c, s)
    ensures Permits(c, Down(s))
  {
    DownTokens(s);
    DownCalls(c, s);
  }

  /** Only opening the listener raises the applications, and only a reconciler reconciles. */
  lemma LockPermits(c: Config, s: System, up: bool, lock: Lock)
    requires Permits(c, s) && (lock == Reconciler(true) ==> !up) && (s.appsUp ==> up)
    ensures Permits(c, s.(appsUp := up, lock := lock))
  {
    var t := s.(appsUp := up, lock := lock);
    forall i, k | Holds(s, i, k) ensures Holds(t, i, k) {}
  }

  /** A new store under the same requests: every permit in use must still be there. */
  lemma PermitsOver(c: Config, s: System, t: System)
    requires Permits(c, s) && t == s.(store := t.store)
    requires forall i, slot :: Holds(s, i, slot) && (Asks(s, i) || Runs(s, i)) ==> Holds(t, i, slot)
    ensures Permits(c, t)
  {
  }

  lemma AnswerClaims(c: Config, s: System, id: nat, reply: Reply)
    requires Claims(c, s)
    requires reply.Granted? ==> SlotName(reply.slot, c.capacity) && Holds(s, id, reply.slot)
    ensures Claims(c, s.(answers := s.answers[id := reply]))
  {
  }

  lemma AnswerCalls(s: System, id: nat, reply: Reply)
    requires Calls(s) && id in s.acquires
    ensures Calls(s.(acquires := s.acquires - {id}, answers := s.answers[id := reply]))
  {
  }

  lemma AnswerRecorded(c: Config, s: System, id: nat, reply: Reply, history: seq<Event>)
    requires Permits(c, s) && id in s.acquires
    requires reply.Granted? ==> SlotName(reply.slot, c.capacity) && Holds(s, id, reply.slot)
    ensures Permits(c, s.(acquires := s.acquires - {id}, answers := s.answers[id := reply], history := history))
  {
    AnswerClaims(c, s, id, reply);
    AnswerCalls(s, id, reply);
    var t := s.(acquires := s.acquires - {id}, answers := s.answers[id := reply], history := history);
    SameClaims(c, s.(answers := s.answers[id := reply]), t);
    SameCalls(s.(acquires := s.acquires - {id}, answers := s.answers[id := reply]), t);
    SameTokens(s, t);
  }

  lemma SameCalls(s: System, t: System)
    requires Calls(s) && t.requests == s.requests && t.acquires == s.acquires && t.answers == s.answers && t.releases == s.releases
    ensures Calls(t)
  {
  }

  lemma AcquirePermits(c: Config, s: System, id: nat)
    requires Sound(s.store, c) && Permits(c, s) && Enabled(c, s, ExecuteAcquire(id))
    ensures Permits(c, Do(c, s, ExecuteAcquire(id)))
  {
    var r := s.requests[id];
    AcquireKeeps(s.store, c, r.source, r.credential, r.token);
    var (store, reply) := Acquire(s.store, c, r.source, r.credential, r.token);
    var mid := s.(store := store);
    PermitsOver(c, s, mid) by {
      forall i, slot | Holds(s, i, slot) ensures Holds(mid, i, slot) {}
    }
    AnswerRecorded(c, mid, id, reply, s.history + Recorded(c, s.store, r));
  }

  /** A release removes its own token and so nobody else's. */
  lemma ReleasePermits(c: Config, s: System, id: nat)
    requires Sound(s.store, c) && Permits(c, s) && Enabled(c, s, ExecuteRelease(id))
    ensures Permits(c, Do(c, s, ExecuteRelease(id)))
  {
    var store := Release(s.store, c, s.releases[id], s.requests[id].token).0;
    var mid := s.(store := store);
    PermitsOver(c, s, mid) by {
      ReleaseKeeps(s.store, c, s.releases[id], s.requests[id].token);
      forall i, slot | Holds(s, i, slot) && (Asks(s, i) || Runs(s, i)) ensures Holds(mid, i, slot) {
        assert i != id;
      }
    }
    ReleaseRecorded(c, mid, id);
  }

  lemma ReleaseRecorded(c: Config, s: System, id: nat)
    requires Permits(c, s)
    ensures Permits(c, s.(releases := s.releases - {id}))
  {
  }

  /** The steps of one request after its acquire. */
  lemma RequestPermits(c: Config, s: System, a: Action)
    requires Permits(c, s) && Configured(c) && Enabled(c, s, a)
    requires a.Answer? || a.Abandon? || a.Stream? || a.Settle? || a.Die?
    ensures Permits(c, Do(c, s, a))
  {
    if a.Answer? {
      MovePermits(c, s, a.id, if s.answers[a.id] == Granted("0") then Running("0") else Over);
    } else {
      MovePermits(c, s, a.id, Over);
    }
  }

  lemma FinishKept(c: Config, s: System, id: nat)
    requires Permits(c, s) && Configured(c) && Enabled(c, s, Finish(id))
    ensures Permits(c, Do(c, s, Finish(id)))
  {
    MovePermits(c, s, id, Releasing);
    FinishPermits(c, To(s, id, Releasing), id, s.requests[id].phase.slot);
  }

  lemma AppsPermits(c: Config, s: System, a: Action)
    requires Permits(c, s) && Configured(c) && Enabled(c, s, a) && (a.AppsDie? || a.CloseApps?)
    ensures Permits(c, Do(c, s, a))
  {
    DownPermits(c, s);
    if a.CloseApps? { LockPermits(c, Down(s), false, Supervisor(Closed)); }
  }

  lemma LockKept(c: Config, s: System, a: Action)
    requires Permits(c, s) && Configured(c) && Enabled(c, s, a)
    requires a.BeginSupervise? || a.CheckEmpty? || a.OpenListener? || a.BeginReconcile? || a.SeeQuiet? || a.Unlock?
    ensures Permits(c, Do(c, s, a))
  {
    LockPermits(c, s, Do(c, s, a).appsUp, Do(c, s, a).lock);
  }

  lemma PassPermits(c: Config, s: System, d: nat)
    requires Sound(s.store, c) && Permits(c, s)
    ensures Permits(c, s.(store := Tick(s.store, d)))
  {
    TickKeeps(s.store, c, d);
    PermitsOver(c, s, s.(store := Tick(s.store, d)));
  }

  lemma InitializePermits(c: Config, s: System, g: string)
    requires Sound(s.store, c) && Permits(c, s) && Enabled(c, s, Initialize(g))
    ensures Permits(c, Do(c, s, Initialize(g)))
  {
    InitializeKeeps(s.store, c, 0, g);
    PermitsOver(c, s, Do(c, s, Initialize(g)));
  }

  /** A reconcile runs while nobody holds or waits. */
  lemma ReconcilePermits(c: Config, s: System, a: Action)
    requires Sound(s.store, c) && Permits(c, s) && Enabled(c, s, a) && (a.ExecuteReconcile? || a.ExecuteMissing?)
    ensures Permits(c, Do(c, s, a))
  {
    PermitsOver(c, s, Do(c, s, a));
  }

  lemma StorePermits(c: Config, s: System, a: Action)
    requires Sound(s.store, c) && Permits(c, s) && Enabled(c, s, a)
    requires a.Pass? || a.Initialize? || a.ExecuteReconcile? || a.ExecuteMissing? || a.ExecuteAcquire? || a.ExecuteRelease?
    ensures Permits(c, Do(c, s, a))
  {
    if a.Pass? {
      PassPermits(c, s, a.milliseconds);
    } else if a.Initialize? {
      InitializePermits(c, s, a.generation);
    } else if a.ExecuteAcquire? {
      AcquirePermits(c, s, a.id);
    } else if a.ExecuteRelease? {
      ReleasePermits(c, s, a.id);
    } else {
      ReconcilePermits(c, s, a);
    }
  }

  lemma PermitsKept(c: Config, s: System, a: Action)
    requires Sound(s.store, c) && Permits(c, s) && Enabled(c, s, a)
    ensures Permits(c, Do(c, s, a))
  {
    if a.Arrive? {
      ArrivePermits(c, s, a);
    } else if a.Answer? || a.Abandon? || a.Stream? || a.Settle? || a.Die? {
      RequestPermits(c, s, a);
    } else if a.Finish? {
      FinishKept(c, s, a.id);
    } else if a.AppsDie? || a.CloseApps? {
      AppsPermits(c, s, a);
    } else if a.BeginSupervise? || a.CheckEmpty? || a.OpenListener? || a.BeginReconcile? || a.SeeQuiet? || a.Unlock? {
      LockKept(c, s, a);
    } else {
      StorePermits(c, s, a);
    }
  }

  lemma HitsAppend(history: seq<Event>, e: Event, k: Key)
    ensures HitsOf(history + [e], k) == HitsOf(history, k) + HitsIn(e, k)
  {
    assert (history + [e])[..|history|] == history;
  }

  lemma LedgersSame(c: Config, s: System, t: System)
    requires Ledgers(c, s) && t.history == s.history && t.store.now == s.store.now && Stepped(s.store, t.store, c, {})
    ensures Ledgers(c, t)
  {
    forall k: Key | k != StateKey ensures LedgerOf(c, t, k) { assert LedgerOf(c, s, k); }
  }

  lemma LedgersKeep(c: Config, s: System, t: System)
    requires Ledgers(c, s) && t.store == s.store && t.history == s.history
    ensures Ledgers(c, t)
  {
    forall k: Key | k != StateKey ensures LedgerOf(c, t, k) { assert LedgerOf(c, s, k); }
  }

  lemma LedgersKept(c: Config, s: System, a: Action)
    requires Inv(c, s) && Enabled(c, s, a)
    ensures Ledgers(c, Do(c, s, a))
  {
    var t := Do(c, s, a);
    match a
    case ExecuteAcquire(id) => AcquireLedgers(c, s, id);
    case Pass(d) => PassLedgers(c, s, d);
    case ExecuteRelease(id) =>
      ReleaseKeeps(s.store, c, s.releases[id], s.requests[id].token);
      LedgersSame(c, s, t);
    case Initialize(g) =>
      InitializeKeeps(s.store, c, 0, g);
      LedgersSame(c, s, t);
    case ExecuteReconcile(g) =>
      ReconcileKeeps(s.store, c, g);
      LedgersSame(c, s, t);
    case ExecuteMissing(g) =>
      InitializeKeeps(s.store, c, 0, g);
      LedgersSame(c, s, t);
    case _ => LedgersKeep(c, s, t);
  }

  lemma PassLedgers(c: Config, s: System, d: nat)
    requires Sound(s.store, c) && Ledgers(c, s)
    ensures Ledgers(c, s.(store := Tick(s.store, d)))
  {
    forall k: Key | k != StateKey ensures LedgerOf(c, s.(store := Tick(s.store, d)), k) {
      PassLedger(c, s, d, k);
    }
  }

  lemma PassLedger(c: Config, s: System, d: nat, k: Key)
    requires Sound(s.store, c) && k != StateKey && LedgerOf(c, s, k)
    ensures LedgerOf(c, s.(store := Tick(s.store, d)), k)
  {
    TickKeeps(s.store, c, d);
    Later(HitsOf(s.history, k), CounterAt(s.store, k), 1000 * c.window, s.store.now, s.store.now + d);
  }

  /** What an acquire records for one counter is what happened to that counter. */
  lemma RecordedHits(c: Config, s: Store, r: Request, k: Key)
    requires Sound(s, c) && Token(r.token) && k != StateKey
    ensures
      var keys := HitKeys(s, c, r.source, r.credential, r.token);
      var events := Recorded(c, s, r);
      (GlobalKey !in keys ==> keys == {} && events == []) &&
      var hits := if k in keys then [Hit(s.now, StartOf(CounterAt(s, k), 1000 * c.window, s.now))] else [];
      (GlobalKey in keys ==> |events| == 1 && HitsIn(events[0], k) == hits)
  {
  }

  lemma AcquireLedgers(c: Config, s: System, id: nat)
    requires Sound(s.store, c) && Permits(c, s) && Ledgers(c, s) && Enabled(c, s, ExecuteAcquire(id))
    ensures Ledgers(c, Do(c, s, ExecuteAcquire(id)))
  {
    var r := s.requests[id];
    var t := Do(c, s, ExecuteAcquire(id));
    AcquireKeeps(s.store, c, r.source, r.credential, r.token);
    forall k: Key | k != StateKey ensures LedgerOf(c, t, k) {
      assert LedgerOf(c, s, k);
      KeyLedger(c, s.store, s.history, r, t.store, k);
    }
  }

  lemma KeyLedger(c: Config, s: Store, history: seq<Event>, r: Request, t: Store, k: Key)
    requires Sound(s, c) && Token(r.token) && k != StateKey && t.now == s.now
    requires Stepped(s, t, c, HitKeys(s, c, r.source, r.credential, r.token))
    requires Valid(HitsOf(history, k), 1000 * c.window, Limit(c, k))
    requires Shows(HitsOf(history, k), CounterAt(s, k), 1000 * c.window, s.now)
    ensures Valid(HitsOf(history + Recorded(c, s, r), k), 1000 * c.window, Limit(c, k))
    ensures Shows(HitsOf(history + Recorded(c, s, r), k), CounterAt(t, k), 1000 * c.window, t.now)
  {
    var keys := HitKeys(s, c, r.source, r.credential, r.token);
    var hits := HitsOf(history, k);
    RecordedHits(c, s, r, k);
    if GlobalKey in keys {
      HitsAppend(history, Recorded(c, s, r)[0], k);
      if k in keys {
        HealthyIsOk(s, k, Limit(c, k), c.window) by { assert Healthy(s, k, Limit(c, k), c.window); }
        Append(hits, CounterAt(s, k), 1000 * c.window, Limit(c, k), s.now);
      } else {
        assert hits + [] == hits;
      }
    } else {
      assert history + [] == history;
    }
  }

  lemma StepKept(c: Config, s: System, a: Action)
    requires Inv(c, s) && Enabled(c, s, a)
    ensures Inv(c, Do(c, s, a))
  {
    StoreKept(c, s, a);
    PermitsKept(c, s, a);
    LedgersKept(c, s, a);
  }

  /** Whole runs, from an empty store on. */
  lemma {:induction false} RunKept(c: Config, s: System, actions: seq<Action>, t: System)
    requires Configured(c) && Inv(c, s) && Reaches(c, s, actions, t)
    ensures Inv(c, t)
    decreases |actions|
  {
    if actions != [] {
      StepKept(c, s, actions[0]);
      RunKept(c, Do(c, s, actions[0]), actions[1..], t);
    }
  }

  lemma InitInv(c: Config, now: nat)
    requires Configured(c)
    ensures Inv(c, Init(now))
  {
  }
}
