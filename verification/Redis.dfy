/** The part of Redis the scripts use: string and hash values, expiry in milliseconds,
    and decimal counters. A key whose expiry has passed is absent; at the very
    millisecond of its expiry it is still there. */
module Redis {
  import opened Basics

  // ------------------------------------------------------------------- decimal text

  function DigitOf(n: nat): char
    requires n < 10
  {
    ('0' as int + n) as char
  }

  /** Lua's `tostring` of a small whole number. */
  function Decimal(n: nat): (s: string)
    ensures s != "" && AllDigits(s)
  {
    if n < 10 then [DigitOf(n)] else Decimal(n / 10) + [DigitOf(n % 10)]
  }

  /** Lua's `tonumber` of a string of digits. */
  function Number(s: string): nat
    requires AllDigits(s)
  {
    if s == "" then 0 else Number(s[..|s| - 1]) * 10 + (s[|s| - 1] as int - '0' as int)
  }

  lemma {:induction false} NumberOfDecimal(n: nat)
    ensures Number(Decimal(n)) == n
    decreases n
  {
    if n < 10 {
      assert Decimal(n)[..0] == "";
    } else {
      var s := Decimal(n);
      assert s[..|s| - 1] == Decimal(n / 10);
      NumberOfDecimal(n / 10);
    }
  }

  lemma ShortDecimal(n: nat)
    requires n < 10000
    ensures |Decimal(n)| <= 4
  {
    if n >= 10 {
      assert |Decimal(n)| == |Decimal(n / 10)| + 1;
      if n >= 100 {
        assert |Decimal(n / 10)| == |Decimal(n / 10 / 10)| + 1;
        if n >= 1000 { assert |Decimal(n / 10 / 10)| == |Decimal(n / 10 / 10 / 10)| + 1; }
      }
    }
  }

  // ------------------------------------------------------------------------ values

  datatype Cell = Text(value: string) | Table(fields: map<string, string>)

  datatype Entry = Entry(cell: Cell, expiry: Option<int>)

  datatype Marker = Marker(id: string, ready: int)

  /** Keys of the admission scripts. The two identity keys carry an HMAC of a source or a
      credential under its own domain, so different identities have different keys. */
  datatype Key = StateKey | GlobalKey | SourceKey(mac: string) | CredentialKey(mac: string)

  datatype Store = Store(now: int, marker: Option<Marker>, entries: map<Key, Entry>)

  predicate Live(e: Entry, now: int) {
    e.expiry.None? || now <= e.expiry.value
  }

  /** The entry a command sees. */
  function Get(s: Store, k: Key): Option<Entry> {
    if k in s.entries && Live(s.entries[k], s.now) then Some(s.entries[k]) else None
  }

  /** `TTL` in whole seconds, rounded; -1 without expiry, -2 without key. */
  function Ttl(s: Store, k: Key): int {
    match Get(s, k)
    case None => -2
    case Some(Entry(_, None)) => -1
    case Some(Entry(_, Some(at))) => (at - s.now + 500) / 1000
  }

  function SetEx(s: Store, k: Key, v: string, seconds: nat): Store {
    s.(entries := s.entries[k := Entry(Text(v), Some(s.now + 1000 * seconds))])
  }

  /** `STORE_GUARD`: the expected marker is present and its hold is over. */
  predicate Guarded(s: Store, id: string) {
    s.marker.Some? && s.marker.value.id == id && s.marker.value.ready * 1000 <= s.now
  }
}
