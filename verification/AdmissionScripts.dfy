/** The admission scripts as the Lua code runs them: loops over the fields of the hash,
    over the three counters and over the slots, updating the store in place. Each method
    is proved to be the function of `AdmissionStore` with the same name. */
module AdmissionScripts {
  import opened Basics
  import opened Redis
  import opened AdmissionStore

  class Server {
    var now: int
    var marker: Option<Marker>
    var entries: map<Key, Entry>

    constructor (now: int)
      ensures Contents() == Store(now, None, map[])
    {
      this.now, marker, entries := now, None, map[];
    }

    function Contents(): Store
      reads this
    {
      Store(now, marker, entries)
    }

    /** The guard and `VALIDATE`: every field of the hash is visited, in no fixed order. */
    method Validate(c: Config) returns (ok: bool)
      ensures ok <==> Admits(Contents(), c)
    {
      if marker.None? || marker.value.id != c.storeId || marker.value.ready * 1000 > now {
        return false;
      }
      var e := Get(Contents(), StateKey);
      if e.None? || !e.value.cell.Table? || e.value.expiry.Some? {
        return false;
      }
      var fields := e.value.cell.fields;
      if CONFIG_FIELD !in fields || fields[CONFIG_FIELD] != c.fingerprint
         || GENERATION_FIELD !in fields || !Generation(fields[GENERATION_FIELD])
         || |fields| > 2 + c.capacity
      {
        return false;
      }
      var rest := fields.Keys;
      while rest != {}
        invariant rest <= fields.Keys
        invariant forall f :: f in fields && f !in rest ==> FieldOk(f, fields[f], c.capacity)
        decreases |rest|
      {
        var f :| f in rest;
        if f != CONFIG_FIELD && f != GENERATION_FIELD && !(SlotName(f, c.capacity) && Token(fields[f])) {
          return false;
        }
        rest := rest - {f};
      }
      return true;
    }

    method BumpKey(k: Key, window: nat)
      modifies this`entries
      ensures Contents() == Bump(old(Contents()), k, window)
    {
      if Get(Contents(), k).None? {
        entries := entries[k := Entry(Text("1"), Some(now + 1000 * window))];
      } else {
        entries := entries[k := entries[k].(cell := Text(Decimal(CountOf(Contents(), k) + 1)))];
      }
    }

    /** The script's loop over the slots. */
    method FreeSlot(capacity: nat) returns (slot: Option<nat>)
      requires capacity <= 10
      ensures slot == FirstFree(Fields(Contents()), 0, capacity)
    {
      for i := 0 to capacity
        invariant FirstFree(Fields(Contents()), 0, capacity) == FirstFree(Fields(Contents()), i, capacity)
      {
        if Slot(i) !in Fields(Contents()) {
          return Some(i);
        }
      }
      return None;
    }

    /** The script's loop over the three counters, before anything is written. */
    method ReadCounters(c: Config, source: string, credential: string) returns (ok: bool, counts: seq<nat>)
      ensures ok <==> CountersOk(Contents(), c, source, credential)
      ensures ok ==> |counts| == 3 && counts[0] == CountOf(Contents(), GlobalKey)
                     && counts[1] == CountOf(Contents(), SourceKey(source))
                     && counts[2] == CountOf(Contents(), CredentialKey(credential))
    {
      var keys := [GlobalKey, SourceKey(source), CredentialKey(credential)];
      var limits := [c.globalMax, c.sourceMax, c.credentialMax];
      counts := [];
      for i := 0 to 3
        invariant |counts| == i
        invariant forall k :: 0 <= k < i ==> CounterOk(Contents(), keys[k], limits[k], c.window)
        invariant forall k :: 0 <= k < i ==> counts[k] == CountOf(Contents(), keys[k])
      {
        if !CounterOk(Contents(), keys[i], limits[i], c.window) {
          return false, counts;
        }
        counts := counts + [CountOf(Contents(), keys[i])];
      }
      assert keys[0] == GlobalKey && keys[1] == SourceKey(source) && keys[2] == CredentialKey(credential);
      return true, counts;
    }

    method GrantSlot(c: Config, source: string, credential: string, slot: string, token: string)
      modifies this`entries
      ensures Contents() == Grant(old(Contents()), c, source, credential, slot, token)
    {
      BumpKey(SourceKey(source), c.window);
      BumpKey(CredentialKey(credential), c.window);
      entries := entries[StateKey := Entry(Table(Fields(Contents())[slot := token]), None)];
    }

    method RunAcquire(c: Config, source: string, credential: string, token: string) returns (reply: Reply)
      requires Configured(c)
      modifies this`entries
      ensures (Contents(), reply) == Acquire(old(Contents()), c, source, credential, token)
    {
      var valid := Validate(c);
      if !valid {
        return Failed;
      }
      var sane, counts := ReadCounters(c, source, credential);
      if !sane {
        return Failed;
      }
      if counts[0] >= c.globalMax {
        return Denied(Retry(Contents(), GlobalKey));
      }
      BumpKey(GlobalKey, c.window);
      OtherKeys(old(Contents()), GlobalKey, c.window);
      if counts[1] >= c.sourceMax {
        return Denied(Retry(Contents(), SourceKey(source)));
      }
      if counts[2] >= c.credentialMax {
        return Denied(Retry(Contents(), CredentialKey(credential)));
      }
      var slot := FreeSlot(c.capacity);
      if slot.None? {
        return Denied(1);
      }
      GrantSlot(c, source, credential, Slot(slot.value), token);
      return Granted(Slot(slot.value));
    }

    method RunRelease(c: Config, slot: string, token: string) returns (reply: Option<int>)
      modifies this`entries
      ensures (Contents(), reply) == Release(old(Contents()), c, slot, token)
    {
      var valid := Validate(c);
      if !valid {
        return None;
      }
      var fields := Fields(Contents());
      if slot !in fields || fields[slot] != token {
        return Some(0);
      }
      entries := entries[StateKey := Entry(Table(fields - {slot}), None)];
      return Some(1);
    }

    method RunReconcile(c: Config, generation: string) returns (ok: bool)
      requires Configured(c)
      modifies this`entries
      ensures (Contents(), ok) == Reconcile(old(Contents()), c, generation)
    {
      ok := Validate(c);
      if !ok {
        return;
      }
      var before := Fields(Contents());
      var fields := before;
      for i := 0 to c.capacity
        invariant fields == before - (set k | 0 <= k < i :: Slot(k))
      {
        fields := fields - {Slot(i)};
        assert (set k | 0 <= k < i + 1 :: Slot(k)) == (set k | 0 <= k < i :: Slot(k)) + {Slot(i)};
      }
      assert (set k | 0 <= k < c.capacity :: Slot(k)) == SlotNames(c.capacity);
      entries := entries[StateKey := Entry(Table(fields[GENERATION_FIELD := generation]), None)];
    }

    method RunInitializeFresh(c: Config, delay: nat, generation: string) returns (ok: bool)
      modifies this
      ensures (Contents(), ok) == InitializeFresh(old(Contents()), c, delay, generation)
    {
      if marker.Some? || Get(Contents(), StateKey).Some? {
        return false;
      }
      marker := Some(Marker(c.storeId, now / 1000 + delay));
      entries := entries[StateKey := Entry(Table(FreshFields(c, generation)), None)];
      return true;
    }
  }
}
