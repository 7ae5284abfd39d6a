/** The Lua scripts of `santa_admission.py`, each as one function on the store. */
module AdmissionStore {
  import opened Basics
  import opened Redis
  import Ledger

  datatype Config = Config(
    window: nat, globalMax: nat, sourceMax: nat, credentialMax: nat, capacity: nat,
    fingerprint: string, storeId: string)

  /** The bounds of `configured`; the scripts name a slot by one digit. */
  predicate Configured(c: Config) {
    && 1 <= c.window <= 300 && 1 <= c.globalMax <= 1200 && 1 <= c.sourceMax <= 1200
    && 1 <= c.credentialMax <= 1200 && 1 <= c.capacity <= 10
  }

  const CONFIG_FIELD := "config"
  const GENERATION_FIELD := "generation"

  predicate LowerHex(c: char) { Digit(c) || 'a' <= c <= 'f' }

  predicate Generation(g: string) { |g| == 32 && forall i :: 0 <= i < |g| ==> LowerHex(g[i]) }

  predicate UrlSafe(c: char) { Digit(c) || 'A' <= c <= 'Z' || 'a' <= c <= 'z' || c == '_' || c == '-' }

  predicate Token(t: string) { |t| == 43 && forall i :: 0 <= i < |t| ==> UrlSafe(t[i]) }

  function Slot(i: nat): (s: string)
    requires i < 10
    ensures |s| == 1 && Digit(s[0]) && s[0] as int - '0' as int == i
  {
    [DigitOf(i)]
  }

  predicate SlotName(f: string, capacity: nat) {
    |f| == 1 && Digit(f[0]) && f[0] as int - '0' as int < capacity
  }

  // ----------------------------------------------------------------------- VALIDATE

  predicate FieldOk(f: string, token: string, capacity: nat) {
    f == CONFIG_FIELD || f == GENERATION_FIELD || (SlotName(f, capacity) && Token(token))
  }

  predicate TableOk(fields: map<string, string>, c: Config) {
    && CONFIG_FIELD in fields && fields[CONFIG_FIELD] == c.fingerprint
    && GENERATION_FIELD in fields && Generation(fields[GENERATION_FIELD])
    && |fields| <= 2 + c.capacity
    && forall f :: f in fields ==> FieldOk(f, fields[f], c.capacity)
  }

  /** The guard and `VALIDATE` together: what every script demands first. */
  predicate Admits(s: Store, c: Config) {
    Guarded(s, c.storeId) && StateOk(s, c)
  }

  predicate StateOk(s: Store, c: Config) {
    var e := Get(s, StateKey);
    e.Some? && e.value.cell.Table? && e.value.expiry.None? && TableOk(e.value.cell.fields, c)
  }

  function Fields(s: Store): map<string, string> {
    var e := Get(s, StateKey);
    if e.Some? && e.value.cell.Table? then e.value.cell.fields else map[]
  }

  function WithFields(s: Store, fields: map<string, string>): Store {
    s.(entries := s.entries[StateKey := Entry(Table(fields), None)])
  }

  // ----------------------------------------------------------------------- counters

  predicate CountText(v: string, limit: nat) {
    AllDigits(v) && v != "" && |v| <= 5 && 1 <= Number(v) <= limit && Decimal(Number(v)) == v
  }

  /** The check of one counter; on a hash the `GET` itself fails. */
  predicate CounterOk(s: Store, k: Key, limit: nat, window: nat) {
    match Get(s, k)
    case None => true
    case Some(e) => e.cell.Text? && CountText(e.cell.value, limit) && 0 <= Ttl(s, k) <= window
  }

  function CountOf(s: Store, k: Key): nat {
    match Get(s, k)
    case Some(Entry(Text(v), _)) => if AllDigits(v) then Number(v) else 0
    case _ => 0
  }

  /** `SET key 1 EX window` for the first hit, `INCR` for the others. */
  function Bump(s: Store, k: Key, window: nat): Store {
    match Get(s, k)
    case None => SetEx(s, k, "1", window)
    case Some(e) => s.(entries := s.entries[k := e.(cell := Text(Decimal(CountOf(s, k) + 1)))])
  }

  // ------------------------------------------------------------------------ scripts

  datatype Reply = Granted(slot: string) | Denied(retry: int) | Failed

  function FirstFree(fields: map<string, string>, from: nat, capacity: nat): (slot: Option<nat>)
    requires capacity <= 10
    ensures slot.Some? ==> from <= slot.value < capacity && Slot(slot.value) !in fields
    ensures slot.Some? ==> forall i :: from <= i < slot.value ==> Slot(i) in fields
    ensures slot.None? ==> forall i :: from <= i < capacity ==> Slot(i) in fields
    decreases capacity - from
  {
    if from >= capacity then None
    else if Slot(from) !in fields then Some(from)
    else FirstFree(fields, from + 1, capacity)
  }

  function Retry(s: Store, k: Key): int {
    if Ttl(s, k) < 1 then 1 else Ttl(s, k)
  }

  predicate CountersOk(s: Store, c: Config, source: string, credential: string) {
    && CounterOk(s, GlobalKey, c.globalMax, c.window)
    && CounterOk(s, SourceKey(source), c.sourceMax, c.window)
    && CounterOk(s, CredentialKey(credential), c.credentialMax, c.window)
  }

  /** `ACQUIRE`. */
  function Acquire(s: Store, c: Config, source: string, credential: string, token: string): (Store, Reply)
    requires Configured(c)
  {
    if !Admits(s, c) || !CountersOk(s, c, source, credential) then (s, Failed)
    else if CountOf(s, GlobalKey) >= c.globalMax then (s, Denied(Retry(s, GlobalKey)))
    else
      var counted := Bump(s, GlobalKey, c.window);
      if CountOf(s, SourceKey(source)) >= c.sourceMax then (counted, Denied(Retry(s, SourceKey(source))))
      else if CountOf(s, CredentialKey(credential)) >= c.credentialMax
      then (counted, Denied(Retry(s, CredentialKey(credential))))
      else
        match FirstFree(Fields(s), 0, c.capacity)
        case None => (counted, Denied(1))
        case Some(i) => (Grant(counted, c, source, credential, Slot(i), token), Granted(Slot(i)))
  }

  function Grant(s: Store, c: Config, source: string, credential: string, slot: string, token: string): Store {
    var both := Bump(Bump(s, SourceKey(source), c.window), CredentialKey(credential), c.window);
    WithFields(both, Fields(both)[slot := token])
  }

  /** `RELEASE`: 1 removed, 0 not the owner, and `None` for an error. */
  function Release(s: Store, c: Config, slot: string, token: string): (Store, Option<int>) {
    if !Admits(s, c) then (s, None)
    else if slot !in Fields(s) || Fields(s)[slot] != token then (s, Some(0))
    else (WithFields(s, Fields(s) - {slot}), Some(1))
  }

  /** `CHECK`, or `EMPTY` when `empty`. */
  predicate Check(s: Store, c: Config, empty: bool) {
    && Admits(s, c) && CounterOk(s, GlobalKey, c.globalMax, c.window)
    && (empty ==> |Fields(s)| == 2)
  }

  function SlotNames(capacity: nat): (names: set<string>)
    requires capacity <= 10
    ensures forall f :: f in names <==> SlotName(f, capacity)
  {
    var names := set i | 0 <= i < capacity :: Slot(i);
    assert forall f :: SlotName(f, capacity) ==> f == Slot(f[0] as int - '0' as int);
    names
  }

  /** `RECONCILE`: drop every slot, install a new generation. */
  function Reconcile(s: Store, c: Config, generation: string): (Store, bool)
    requires Configured(c)
  {
    if !Admits(s, c) then (s, false)
    else (WithFields(s, (Fields(s) - SlotNames(c.capacity))[GENERATION_FIELD := generation]), true)
  }

  function FreshFields(c: Config, generation: string): map<string, string> {
    map[CONFIG_FIELD := c.fingerprint, GENERATION_FIELD := generation]
  }

  /** `reconcile(initialize_missing=True)`. */
  function InitializeMissing(s: Store, c: Config, generation: string): (Store, bool) {
    if !Guarded(s, c.storeId) || Get(s, StateKey).Some? then (s, false)
    else (WithFields(s, FreshFields(c, generation)), true)
  }

  /** `initialize_fresh`: marker and admission state appear together or not at all. */
  function InitializeFresh(s: Store, c: Config, delay: nat, generation: string): (Store, bool) {
    if s.marker.Some? || Get(s, StateKey).Some? then (s, false)
    else (WithFields(s, FreshFields(c, generation)).(marker := Some(Marker(c.storeId, s.now / 1000 + delay))), true)
  }

  // ---------------------------------------------------------- what the scripts keep

  /** One counter: a canonical number within its limit, gone within one window. */
  ghost predicate Healthy(s: Store, k: Key, limit: nat, window: nat) {
    k in s.entries ==>
      var e := s.entries[k];
      && e.cell.Text? && e.expiry.Some? && e.expiry.value <= s.now + 1000 * window
      && exists n: nat :: 1 <= n <= limit && e.cell.value == Decimal(n)
  }

  function Limit(c: Config, k: Key): nat {
    match k
    case SourceKey(_) => c.sourceMax
    case CredentialKey(_) => c.credentialMax
    case _ => c.globalMax
  }

  ghost predicate CountersHealthy(s: Store, c: Config) {
    forall k: Key :: k != StateKey ==> Healthy(s, k, Limit(c, k), c.window)
  }

  /** The store between scripts: uninitialised, or valid; counters always healthy. */
  ghost predicate Sound(s: Store, c: Config) {
    && Configured(c) && 0 <= s.now && CountersHealthy(s, c)
    && (StateKey in s.entries ==> StateOk(s, c))
    && (s.marker.Some? ==> s.marker.value.id == c.storeId)
  }

  /** The counter as the window ledger sees it. */
  function CounterAt(s: Store, k: Key): Ledger.Counter {
    match Get(s, k)
    case Some(Entry(_, Some(at))) => Ledger.Counting(CountOf(s, k), at)
    case _ => Ledger.Gone
  }

  /** Counting under one key leaves every other key as it was. */
  lemma OtherKeys(s: Store, k: Key, window: nat)
    ensures
      var t := Bump(s, k, window);
      t.now == s.now && t.marker == s.marker
      && forall j :: j != k ==> Get(t, j) == Get(s, j) && Ttl(t, j) == Ttl(s, j) && (j in t.entries <==> j in s.entries)
  {
  }

  lemma HealthyIsOk(s: Store, k: Key, limit: nat, window: nat)
    requires Healthy(s, k, limit, window) && limit <= 1200
    ensures CounterOk(s, k, limit, window) && CountOf(s, k) <= limit
    ensures Get(s, k).Some? ==> CountOf(s, k) >= 1 && CounterAt(s, k).Counting?
  {
    if Get(s, k).Some? {
      var n: nat :| 1 <= n <= limit && s.entries[k].cell.value == Decimal(n);
      NumberOfDecimal(n);
      ShortDecimal(n);
    }
  }

  /** One more hit below the limit: still healthy, and what the ledger expects. */
  lemma BumpHealthy(s: Store, k: Key, limit: nat, window: nat)
    requires Healthy(s, k, limit, window) && 1 <= limit <= 1200 && CountOf(s, k) < limit
    ensures
      var t := Bump(s, k, window);
      Healthy(t, k, limit, window) && CounterAt(t, k) == Ledger.Bumped(CounterAt(s, k), 1000 * window, s.now)
  {
    HealthyIsOk(s, k, limit, window);
    var t := Bump(s, k, window);
    var n := CountOf(s, k) + 1;
    NumberOfDecimal(n);
    if Get(s, k).None? {
      assert Decimal(1) == "1";
      NumberOfDecimal(1);
    }
    assert t.entries[k].cell.value == Decimal(if Get(s, k).None? then 1 else n);
  }
}
