/** What an acquire answers: exactly when it is granted, which slot, and how long a denied
    caller has to wait. The counts are read off the store as the text of a live counter, or
    off the history of a run. */
module AdmissionAnswers {
  import opened Basics
  import opened Redis
  import opened AdmissionStore
  import opened AdmissionKeeps
  import opened AdmissionProtocol
  import opened AdmissionTheorems
  import opened Ledger

  /** The store shows `n` hits under `k`: no live entry for none, else the number as text. */
  predicate Shown(s: Store, k: Key, n: nat) {
    if n == 0 then Get(s, k).None? else Get(s, k).Some? && Get(s, k).value.cell == Text(Decimal(n))
  }

  predicate SlotFree(s: Store, c: Config)
    requires Configured(c)
  {
    exists i :: 0 <= i < c.capacity && Slot(i) !in Fields(s)
  }

  /** Whole seconds left of a live counter, at least one. */
  function Left(s: Store, k: Key): int {
    if Get(s, k).Some? && Get(s, k).value.expiry.Some? && Get(s, k).value.expiry.value - s.now >= 1500
    then (Get(s, k).value.expiry.value - s.now + 500) / 1000
    else 1
  }

  lemma ShownIsCount(s: Store, c: Config, k: Key, n: nat)
    requires Sound(s, c) && k != StateKey && Shown(s, k, n)
    ensures CountOf(s, k) == n && CounterOk(s, k, Limit(c, k), c.window)
  {
    assert Healthy(s, k, Limit(c, k), c.window);
    HealthyIsOk(s, k, Limit(c, k), c.window);
    if n > 0 { NumberOfDecimal(n); }
  }

  /** Every counter of a sound store shows some number. */
  lemma SomeCount(s: Store, c: Config, k: Key)
    requires Sound(s, c) && k != StateKey
    ensures Shown(s, k, CountOf(s, k))
  {
    assert Healthy(s, k, Limit(c, k), c.window);
    if Get(s, k).Some? {
      var n: nat :| 1 <= n <= Limit(c, k) && s.entries[k].cell.value == Decimal(n);
      NumberOfDecimal(n);
    }
  }

  lemma LeftIsRetry(s: Store, c: Config, k: Key)
    requires Sound(s, c) && k != StateKey
    ensures Retry(s, k) == Left(s, k) && 1 <= Left(s, k) <= c.window
  {
    assert Healthy(s, k, Limit(c, k), c.window);
  }

  /** The whole answer of an acquire on a valid store: granted if and only if each of the three
      counters is below its own limit and a slot is free, then the lowest one; else the rest
      of the lifetime of the first counter that is exhausted, or a second if it is the slots. */
  lemma AcquireAnswers(s: Store, c: Config, source: string, credential: string, token: string, global: nat, own: nat, issued: nat)
    requires Sound(s, c) && Token(token) && Admits(s, c)
    requires Shown(s, GlobalKey, global) && Shown(s, SourceKey(source), own) && Shown(s, CredentialKey(credential), issued)
    ensures
      var reply := Acquire(s, c, source, credential, token).1;
      && (reply.Granted? <==> (global < c.globalMax && own < c.sourceMax && issued < c.credentialMax && SlotFree(s, c)))
      && (reply.Granted? ==> exists i :: 0 <= i < c.capacity && reply.slot == Slot(i) && Slot(i) !in Fields(s)
                                         && forall j :: 0 <= j < i ==> Slot(j) in Fields(s))
      && (!reply.Granted? ==> reply == Denied(
            if global >= c.globalMax then Left(s, GlobalKey)
            else if own >= c.sourceMax then Left(s, SourceKey(source))
            else if issued >= c.credentialMax then Left(s, CredentialKey(credential))
            else 1))
  {
    ShownIsCount(s, c, GlobalKey, global);
    ShownIsCount(s, c, SourceKey(source), own);
    ShownIsCount(s, c, CredentialKey(credential), issued);
    LeftIsRetry(s, c, GlobalKey);
    LeftIsRetry(s, c, SourceKey(source));
    LeftIsRetry(s, c, CredentialKey(credential));
    var slot := FirstFree(Fields(s), 0, c.capacity);
    if slot.Some? { assert Slot(slot.value) !in Fields(s); }
  }

  // ----------------------------------------------------------------------------- over runs

  /** The hits of the window that is current at `now`. */
  function Current(hits: seq<Hit>, span: nat, now: int): nat {
    if hits == [] || hits[|hits| - 1].start + span < now then 0 else InWindow(hits, hits[|hits| - 1].start)
  }

  lemma CurrentIsCount(c: Config, s: System, k: Key)
    requires Inv(c, s) && k != StateKey
    ensures CountOf(s.store, k) == Current(HitsOf(s.history, k), 1000 * c.window, s.store.now)
  {
    assert LedgerOf(c, s, k);
    assert Healthy(s.store, k, Limit(c, k), c.window);
  }

  /** In every run, an acquire is granted exactly if the current windows of its three counters
      hold fewer hits than their limits and a slot is free: nobody is denied early. */
  lemma NobodyDeniedEarly(c: Config, s: System, id: nat)
    requires Configured(c) && Reachable(c, s) && Enabled(c, s, ExecuteAcquire(id)) && Admits(s.store, c)
    ensures
      var r := s.requests[id];
      var span := 1000 * c.window;
      var reply := Do(c, s, ExecuteAcquire(id)).answers[id];
      && (reply.Granted? <==>
            (Current(HitsOf(s.history, GlobalKey), span, s.store.now) < c.globalMax
             && Current(HitsOf(s.history, SourceKey(r.source)), span, s.store.now) < c.sourceMax
             && Current(HitsOf(s.history, CredentialKey(r.credential)), span, s.store.now) < c.credentialMax
             && SlotFree(s.store, c)))
      && (reply.Granted? || reply.Denied?)
  {
    ReachableInv(c, s);
    var r := s.requests[id];
    AnswersNow(c, s.store, r);
    CurrentIsCount(c, s, GlobalKey);
    CurrentIsCount(c, s, SourceKey(r.source));
    CurrentIsCount(c, s, CredentialKey(r.credential));
  }

  lemma AnswersNow(c: Config, s: Store, r: Request)
    requires Sound(s, c) && Token(r.token) && Admits(s, c)
    ensures
      var reply := Acquire(s, c, r.source, r.credential, r.token).1;
      && (reply.Granted? <==> (CountOf(s, GlobalKey) < c.globalMax && CountOf(s, SourceKey(r.source)) < c.sourceMax
                               && CountOf(s, CredentialKey(r.credential)) < c.credentialMax && SlotFree(s, c)))
      && (reply.Granted? || reply.Denied?)
  {
    SomeCount(s, c, GlobalKey);
    SomeCount(s, c, SourceKey(r.source));
    SomeCount(s, c, CredentialKey(r.credential));
    AcquireAnswers(s, c, r.source, r.credential, r.token,
                   CountOf(s, GlobalKey), CountOf(s, SourceKey(r.source)), CountOf(s, CredentialKey(r.credential)));
  }

  // ------------------------------------------------------------------------------- checks

  /** On a sound store the plain check asks for valid state only, the other one also that no
      slot is held. */
  lemma CheckAnswers(s: Store, c: Config)
    requires Sound(s, c)
    ensures Check(s, c, false) <==> Admits(s, c)
    ensures Check(s, c, true) <==> Admits(s, c) && forall f :: SlotName(f, c.capacity) ==> f !in Fields(s)
  {
    SomeCount(s, c, GlobalKey);
    ShownIsCount(s, c, GlobalKey, CountOf(s, GlobalKey));
    if Admits(s, c) { TwoFields(Fields(s), c); }
  }

  lemma TwoFields(fields: map<string, string>, c: Config)
    requires TableOk(fields, c)
    ensures |fields| == 2 <==> forall f :: SlotName(f, c.capacity) ==> f !in fields
  {
    var two := {CONFIG_FIELD, GENERATION_FIELD};
    assert |two| == 2 && two <= fields.Keys;
    if f :| SlotName(f, c.capacity) && f in fields {
      assert f !in two;
      Subset(two + {f}, fields.Keys);
    } else {
      assert fields.Keys == two;
    }
  }
}
