/** What one script may change. From a sound store every script leaves a sound store; a
    failed script leaves it untouched; a denied acquire counts at most one global hit. */
module AdmissionKeeps {
  import opened Basics
  import opened Redis
  import opened AdmissionStore
  import Ledger

  /** The counters one acquire increments. */
  function HitKeys(s: Store, c: Config, source: string, credential: string, token: string): set<Key>
    requires Configured(c)
  {
    var (t, reply) := Acquire(s, c, source, credential, token);
    if reply.Granted? then {GlobalKey, SourceKey(source), CredentialKey(credential)}
    else if t == s then {}
    else {GlobalKey}
  }

  /** Exactly the counters in `keys` went one step, each from below its limit. */
  ghost predicate Stepped(s: Store, t: Store, c: Config, keys: set<Key>) {
    forall k: Key :: k != StateKey ==>
      if k in keys then
        CountOf(s, k) < Limit(c, k) && CounterAt(t, k) == Ledger.Bumped(CounterAt(s, k), 1000 * c.window, s.now)
      else CounterAt(t, k) == CounterAt(s, k) && (k in t.entries <==> k in s.entries)
  }

  lemma BumpKeeps(s: Store, c: Config, k: Key)
    requires Configured(c) && CountersHealthy(s, c) && k != StateKey && CountOf(s, k) < Limit(c, k)
    ensures
      var t := Bump(s, k, c.window);
      CountersHealthy(t, c) && Stepped(s, t, c, {k}) && Get(t, StateKey) == Get(s, StateKey)
      && t.now == s.now && t.marker == s.marker && (StateKey in t.entries <==> StateKey in s.entries)
  {
    var t := Bump(s, k, c.window);
    OtherKeys(s, k, c.window);
    BumpHealthy(s, k, Limit(c, k), c.window);
    forall j: Key | j != StateKey && j != k ensures Healthy(t, j, Limit(c, j), c.window) && CounterAt(t, j) == CounterAt(s, j) {
      assert Healthy(s, j, Limit(c, j), c.window);
    }
  }

  lemma FieldsKeep(s: Store, c: Config, fields: map<string, string>)
    requires Configured(c) && CountersHealthy(s, c) && TableOk(fields, c)
    ensures
      var t := WithFields(s, fields);
      CountersHealthy(t, c) && StateOk(t, c) && Fields(t) == fields && Stepped(s, t, c, {})
  {
    var t := WithFields(s, fields);
    forall k: Key | k != StateKey ensures Healthy(t, k, Limit(c, k), c.window) && Get(t, k) == Get(s, k) {
      assert Healthy(s, k, Limit(c, k), c.window);
    }
  }

  /** Adding a token to a free slot keeps the hash valid: one field per slot at most. */
  lemma SlotKeeps(fields: map<string, string>, c: Config, slot: string, token: string)
    requires Configured(c) && TableOk(fields, c) && SlotName(slot, c.capacity) && slot !in fields && Token(token)
    ensures TableOk(fields[slot := token], c)
  {
    var t := fields[slot := token];
    assert CONFIG_FIELD != slot && GENERATION_FIELD != slot;
    FewFields(t, c);
    assert t.Keys == fields.Keys + {slot};
  }

  lemma FewFields(fields: map<string, string>, c: Config)
    requires Configured(c)
    requires forall f :: f in fields ==> f == CONFIG_FIELD || f == GENERATION_FIELD || SlotName(f, c.capacity)
    ensures |fields| <= 2 + c.capacity
  {
    SlotCount(c.capacity);
    var all := SlotNames(c.capacity) + {CONFIG_FIELD, GENERATION_FIELD};
    assert fields.Keys <= all;
    Subset(fields.Keys, all);
    assert |{CONFIG_FIELD, GENERATION_FIELD}| <= 2;
  }

  lemma {:induction false} Subset<T>(a: set<T>, b: set<T>)
    requires a <= b
    ensures |a| <= |b|
  {
    assert b == a + (b - a);
  }

  lemma {:induction false} SlotCount(n: nat)
    requires n <= 10
    ensures |SlotNames(n)| <= n
  {
    if n > 0 {
      SlotCount(n - 1);
      assert SlotNames(n) == SlotNames(n - 1) + {Slot(n - 1)} by {
        forall f | SlotName(f, n) ensures SlotName(f, n - 1) || f == Slot(n - 1) {}
      }
    } else {
      assert SlotNames(0) == {} by {
        forall f | f in SlotNames(0) ensures false {}
      }
    }
  }

  /** `ACQUIRE`: the store stays sound; what changed is the reply's business. */
  lemma AcquireKeeps(s: Store, c: Config, source: string, credential: string, token: string)
    requires Sound(s, c) && Token(token)
    ensures
      var (t, reply) := Acquire(s, c, source, credential, token);
      && Sound(t, c) && t.now == s.now && t.marker == s.marker
      && Stepped(s, t, c, HitKeys(s, c, source, credential, token))
      && (reply.Failed? <==> !Admits(s, c))
      && (reply.Failed? ==> t == s)
      && (reply.Denied? ==> Fields(t) == Fields(s) && (t == s || t == Bump(s, GlobalKey, c.window)))
      && (reply.Granted? ==> SlotName(reply.slot, c.capacity) && reply.slot !in Fields(s)
                             && Fields(t) == Fields(s)[reply.slot := token])
  {
    HealthyIsOk(s, GlobalKey, c.globalMax, c.window) by { assert Healthy(s, GlobalKey, Limit(c, GlobalKey), c.window); }
    HealthyIsOk(s, SourceKey(source), c.sourceMax, c.window) by {
      assert Healthy(s, SourceKey(source), Limit(c, SourceKey(source)), c.window);
    }
    HealthyIsOk(s, CredentialKey(credential), c.credentialMax, c.window) by {
      assert Healthy(s, CredentialKey(credential), Limit(c, CredentialKey(credential)), c.window);
    }
    if Admits(s, c) && CountOf(s, GlobalKey) < c.globalMax {
      CountedKeeps(s, c, source, credential, token);
    }
  }

  lemma CountedKeeps(s: Store, c: Config, source: string, credential: string, token: string)
    requires Sound(s, c) && Token(token) && Admits(s, c)
    requires CountersOk(s, c, source, credential) && CountOf(s, GlobalKey) < c.globalMax
    ensures
      var (t, reply) := Acquire(s, c, source, credential, token);
      && Sound(t, c) && t.now == s.now && t.marker == s.marker && t != s
      && Stepped(s, t, c, if reply.Granted? then {GlobalKey, SourceKey(source), CredentialKey(credential)} else {GlobalKey})
      && !reply.Failed?
      && (reply.Denied? ==> Fields(t) == Fields(s) && t == Bump(s, GlobalKey, c.window))
      && (reply.Granted? ==> SlotName(reply.slot, c.capacity) && reply.slot !in Fields(s)
                             && Fields(t) == Fields(s)[reply.slot := token])
  {
    var counted := Bump(s, GlobalKey, c.window);
    BumpKeeps(s, c, GlobalKey);
    OtherKeys(s, GlobalKey, c.window);
    assert CounterAt(counted, GlobalKey) != CounterAt(s, GlobalKey);
    var (t, reply) := Acquire(s, c, source, credential, token);
    if reply.Granted? {
      GrantKeeps(counted, c, source, credential, reply.slot, token);
      GrantedSteps(s, counted, t, c, source, credential);
    }
  }

  lemma GrantedSteps(s: Store, counted: Store, t: Store, c: Config, source: string, credential: string)
    requires Stepped(s, counted, c, {GlobalKey}) && Stepped(counted, t, c, {SourceKey(source), CredentialKey(credential)})
    requires counted.now == s.now && CounterAt(counted, GlobalKey) != CounterAt(s, GlobalKey)
    requires CountOf(counted, SourceKey(source)) == CountOf(s, SourceKey(source))
    requires CountOf(counted, CredentialKey(credential)) == CountOf(s, CredentialKey(credential))
    ensures Stepped(s, t, c, {GlobalKey, SourceKey(source), CredentialKey(credential)})
    ensures t != s
  {
    SteppedTwice(s, counted, t, c, {GlobalKey}, {SourceKey(source), CredentialKey(credential)});
    assert {GlobalKey} + {SourceKey(source), CredentialKey(credential)}
        == {GlobalKey, SourceKey(source), CredentialKey(credential)};
    assert CounterAt(t, GlobalKey) == CounterAt(counted, GlobalKey);
  }

  lemma SteppedTwice(s: Store, t: Store, u: Store, c: Config, a: set<Key>, b: set<Key>)
    requires Stepped(s, t, c, a) && Stepped(t, u, c, b) && a !! b && t.now == s.now
    requires forall k :: k in b ==> CountOf(t, k) == CountOf(s, k)
    ensures Stepped(s, u, c, a + b)
  {
    forall k: Key | k != StateKey && k in a ensures CounterAt(u, k) == CounterAt(t, k) {
      assert k !in b;
    }
  }

  lemma GrantKeeps(s: Store, c: Config, source: string, credential: string, slot: string, token: string)
    requires Configured(c) && CountersHealthy(s, c) && StateOk(s, c) && Token(token)
    requires SlotName(slot, c.capacity) && slot !in Fields(s)
    requires CountOf(s, SourceKey(source)) < c.sourceMax && CountOf(s, CredentialKey(credential)) < c.credentialMax
    ensures
      var t := Grant(s, c, source, credential, slot, token);
      && CountersHealthy(t, c) && StateOk(t, c) && Fields(t) == Fields(s)[slot := token]
      && t.now == s.now && t.marker == s.marker
      && Stepped(s, t, c, {SourceKey(source), CredentialKey(credential)})
  {
    var some := Bump(s, SourceKey(source), c.window);
    var both := Bump(some, CredentialKey(credential), c.window);
    BumpKeeps(s, c, SourceKey(source));
    OtherKeys(s, SourceKey(source), c.window);
    BumpKeeps(some, c, CredentialKey(credential));
    SteppedTwice(s, some, both, c, {SourceKey(source)}, {CredentialKey(credential)});
    SlotKeeps(Fields(s), c, slot, token);
    FieldsKeep(both, c, Fields(both)[slot := token]);
    SteppedThenFields(s, both, WithFields(both, Fields(both)[slot := token]), c, {SourceKey(source)} + {CredentialKey(credential)});
    assert {SourceKey(source)} + {CredentialKey(credential)} == {SourceKey(source), CredentialKey(credential)};
  }

  lemma SteppedThenFields(s: Store, t: Store, u: Store, c: Config, keys: set<Key>)
    requires Stepped(s, t, c, keys) && Stepped(t, u, c, {})
    ensures Stepped(s, u, c, keys)
  {
  }

  lemma ReleaseKeeps(s: Store, c: Config, slot: string, token: string)
    requires Sound(s, c) && slot != CONFIG_FIELD && slot != GENERATION_FIELD
    ensures
      var (t, reply) := Release(s, c, slot, token);
      && Sound(t, c) && t.now == s.now && t.marker == s.marker && Stepped(s, t, c, {})
      && Fields(t) == (if reply == Some(1) then Fields(s) - {slot} else Fields(s))
      && (reply == Some(1) <==> Admits(s, c) && slot in Fields(s) && Fields(s)[slot] == token)
      && (reply.None? ==> t == s)
  {
    var (t, reply) := Release(s, c, slot, token);
    if reply == Some(1) {
      FewFields(Fields(s) - {slot}, c);
      FieldsKeep(s, c, Fields(s) - {slot});
    }
  }

  lemma ReconcileKeeps(s: Store, c: Config, generation: string)
    requires Sound(s, c) && Generation(generation)
    ensures
      var (t, ok) := Reconcile(s, c, generation);
      && Sound(t, c) && t.now == s.now && t.marker == s.marker && Stepped(s, t, c, {})
      && (ok <==> Admits(s, c))
      && (ok ==> Fields(t) == FreshFields(c, generation))
      && (!ok ==> t == s)
  {
    var (t, ok) := Reconcile(s, c, generation);
    if ok {
      var left := (Fields(s) - SlotNames(c.capacity))[GENERATION_FIELD := generation];
      assert left == FreshFields(c, generation) by {
        assert !SlotName(CONFIG_FIELD, c.capacity) && !SlotName(GENERATION_FIELD, c.capacity);
        forall f | f in left ensures f == CONFIG_FIELD || f == GENERATION_FIELD {}
        assert left.Keys == {CONFIG_FIELD, GENERATION_FIELD};
      }
      FewFields(left, c);
      FieldsKeep(s, c, left);
    }
  }

  lemma FreshKeeps(s: Store, c: Config, delay: nat, generation: string)
    requires Sound(s, c) && Generation(generation)
    ensures
      var (t, ok) := InitializeFresh(s, c, delay, generation);
      && Sound(t, c) && t.now == s.now && Stepped(s, t, c, {}) && (!ok ==> t == s)
      && (ok <==> s.marker.None? && Get(s, StateKey).None?)
      && (ok ==> StateOk(t, c) && Fields(t) == FreshFields(c, generation) && t.marker == Some(Marker(c.storeId, s.now / 1000 + delay)))
  {
    FewFields(FreshFields(c, generation), c);
    FieldsKeep(s, c, FreshFields(c, generation));
    var (t, ok) := InitializeFresh(s, c, delay, generation);
    if ok { MarkerApart(WithFields(s, FreshFields(c, generation)), t, c); }
  }

  /** The marker is no business of the counters. */
  lemma MarkerApart(s: Store, t: Store, c: Config)
    requires CountersHealthy(s, c) && t.entries == s.entries && t.now == s.now
    ensures CountersHealthy(t, c) && forall k: Key :: Get(t, k) == Get(s, k)
    ensures forall k: Key :: CounterAt(t, k) == CounterAt(s, k)
  {
    forall k: Key | k != StateKey ensures Healthy(t, k, Limit(c, k), c.window) {
      assert Healthy(s, k, Limit(c, k), c.window);
    }
  }

  lemma MissingKeeps(s: Store, c: Config, generation: string)
    requires Sound(s, c) && Generation(generation)
    ensures
      var (t, ok) := InitializeMissing(s, c, generation);
      && Sound(t, c) && t.now == s.now && t.marker == s.marker && Stepped(s, t, c, {}) && (!ok ==> t == s)
      && (ok <==> Guarded(s, c.storeId) && Get(s, StateKey).None?)
      && (ok ==> StateOk(t, c) && Fields(t) == FreshFields(c, generation))
  {
    FewFields(FreshFields(c, generation), c);
    FieldsKeep(s, c, FreshFields(c, generation));
  }

  lemma InitializeKeeps(s: Store, c: Config, delay: nat, generation: string)
    requires Sound(s, c) && Generation(generation)
    ensures
      var (t, ok) := InitializeFresh(s, c, delay, generation);
      && Sound(t, c) && t.now == s.now && Stepped(s, t, c, {}) && (!ok ==> t == s)
      && (ok <==> s.marker.None? && Get(s, StateKey).None?)
      && (ok ==> StateOk(t, c) && Fields(t) == FreshFields(c, generation) && t.marker == Some(Marker(c.storeId, s.now / 1000 + delay)))
    ensures
      var (t, ok) := InitializeMissing(s, c, generation);
      && Sound(t, c) && t.now == s.now && t.marker == s.marker && Stepped(s, t, c, {}) && (!ok ==> t == s)
      && (ok <==> Guarded(s, c.storeId) && Get(s, StateKey).None?)
      && (ok ==> StateOk(t, c) && Fields(t) == FreshFields(c, generation))
  {
    FreshKeeps(s, c, delay, generation);
    MissingKeeps(s, c, generation);
  }

  function Tick(s: Store, d: nat): Store { s.(now := s.now + d) }

  /** Time never touches the permits: the state hash has no expiry. */
  lemma TickKeeps(s: Store, c: Config, d: nat)
    requires Sound(s, c)
    ensures
      var t := Tick(s, d);
      Sound(t, c) && Get(t, StateKey) == Get(s, StateKey) && Fields(t) == Fields(s)
      && forall k: Key :: k != StateKey ==>
           CounterAt(t, k) == (if CounterAt(s, k).Counting? && t.now <= CounterAt(s, k).until then CounterAt(s, k) else Ledger.Gone)
  {
    var t := Tick(s, d);
    forall k: Key | k != StateKey ensures Healthy(t, k, Limit(c, k), c.window) {
      assert Healthy(s, k, Limit(c, k), c.window);
    }
    if StateKey in s.entries { assert s.entries[StateKey].expiry.None?; }
    forall k: Key | k != StateKey
      ensures CounterAt(t, k) == (if CounterAt(s, k).Counting? && t.now <= CounterAt(s, k).until then CounterAt(s, k) else Ledger.Gone)
    {
      assert Healthy(s, k, Limit(c, k), c.window);
    }
  }
}
