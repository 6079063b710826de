/**
 * The stream key store: a map from a caller-supplied identifier (cpk) to a
 * main/backup key pair that expires at one instant. Times are integers on one
 * clock (Go's time.Time and time.Duration); the clock reading and the random
 * bytes behind each key are passed in.
 */
module Store {
  import opened Common
  import Hex

  /** The two roles of a key; their JSON names are given by TypeName. */
  datatype StreamKeyType = MainKey | BackupKey

  /** The JSON names of the two key types: "main" and "backup". */
  function TypeName(t: StreamKeyType): (name: string)
    ensures t == MainKey <==> name == "main"
  {
    match t
    case MainKey => "main"
    case BackupKey => "backup"
  }

  datatype StreamKey = StreamKey(key: string, keyType: StreamKeyType, createdAt: int, expiresAt: int)

  datatype StreamKeyPair = StreamKeyPair(
    cpk: string, main: StreamKey, backup: StreamKey, createdAt: int, expiresAt: int)

  /** Number of random bytes behind one key. */
  const KeyBytes: nat := 16

  /** What one successful read from the random source yields: exactly KeyBytes bytes. */
  type Entropy = b: seq<byte> | |b| == KeyBytes witness seq(KeyBytes, _ => 0)

  /** The random source failed. */
  datatype KeyError = RandomReadFailed

  /** Why GetOrCreate failed: which of the two keys could not be generated. */
  datatype StoreError = MainKeyFailed(cause: KeyError) | BackupKeyFailed(cause: KeyError)

  /** The shape of a generated key: 32 lowercase hex characters. */
  predicate IsKeyValue(s: string) {
    |s| == 2 * KeyBytes && Hex.IsLowerHex(s)
  }

  /**
   * generateKey: `random` is the outcome of reading KeyBytes bytes from the
   * random source (None when the read fails).
   */
  function GenerateKey(random: Option<Entropy>): (r: Result<string, KeyError>)
    ensures r.Err? <==> random.None?
    ensures r.Ok? ==> IsKeyValue(r.value) && Hex.Decode(r.value) == random.value
  {
    match random
    case None => Err(RandomReadFailed)
    case Some(bytes) =>
      Hex.DecodeEncode(bytes);
      Ok(Hex.Encode(bytes))
  }

  /** Keys generated from different random bytes differ. */
  lemma GeneratedKeysDiffer(a: Entropy, b: Entropy)
    requires a != b
    ensures GenerateKey(Some(a)).value != GenerateKey(Some(b)).value
  {
  }

  /** The invariant of every pair the store builds. */
  predicate WellFormed(p: StreamKeyPair) {
    && p.main.keyType == MainKey && p.backup.keyType == BackupKey
    && p.main.createdAt == p.createdAt && p.backup.createdAt == p.createdAt
    && p.main.expiresAt == p.expiresAt && p.backup.expiresAt == p.expiresAt
    && IsKeyValue(p.main.key) && IsKeyValue(p.backup.key)
  }

  /** Every entry is filed under its own cpk and is well formed. */
  predicate ValidEntries(m: map<string, StreamKeyPair>) {
    forall c :: c in m ==> m[c].cpk == c && WellFormed(m[c])
  }

  /** GetOrCreate's reuse test: `now.Before(ExpiresAt)`. */
  predicate LiveAt(p: StreamKeyPair, now: int) {
    now < p.expiresAt
  }

  /** CleanupExpired's removal test: `now.After(ExpiresAt)`. */
  predicate SweptAt(p: StreamKeyPair, now: int) {
    now > p.expiresAt
  }

  /** The map after `delete(m, cpk)`. */
  function Deleted(m: map<string, StreamKeyPair>, cpk: string): (r: map<string, StreamKeyPair>)
    ensures cpk !in r
    ensures forall c :: c != cpk ==> (c in r <==> c in m)
    ensures forall c :: c in r ==> r[c] == m[c]
    ensures cpk !in m ==> r == m
  {
    m - {cpk}
  }

  /** Deleting twice is deleting once. */
  lemma DeleteIdempotent(m: map<string, StreamKeyPair>, cpk: string)
    ensures Deleted(Deleted(m, cpk), cpk) == Deleted(m, cpk)
  {
  }

  lemma DeletePreservesValid(m: map<string, StreamKeyPair>, cpk: string)
    requires ValidEntries(m)
    ensures ValidEntries(Deleted(m, cpk))
  {
  }

  /** The pair built on the create path from two generated keys. */
  function NewPair(cpk: string, mainKey: string, backupKey: string, now: int, duration: int): (p: StreamKeyPair)
    ensures p.cpk == cpk && p.createdAt == now && p.expiresAt == now + duration
    ensures p.main.key == mainKey && p.backup.key == backupKey
    ensures IsKeyValue(mainKey) && IsKeyValue(backupKey) ==> WellFormed(p)
  {
    var expiresAt := now + duration;
    StreamKeyPair(cpk, StreamKey(mainKey, MainKey, now, expiresAt),
                  StreamKey(backupKey, BackupKey, now, expiresAt), now, expiresAt)
  }

  /** What one GetOrCreate call returns, and the map it leaves. */
  datatype Issue = Issue(result: Result<StreamKeyPair, StoreError>, entries: map<string, StreamKeyPair>)

  /**
   * GetOrCreate as a function of the map before the call. `checkTime` is the
   * clock reading of the expiry test, `now` the one the new pair is stamped
   * with; `mainRandom` and `backupRandom` are the two reads of the random source.
   */
  function GetOrCreateSpec(m: map<string, StreamKeyPair>, cpk: string, duration: int,
                           checkTime: int, now: int,
                           mainRandom: Option<Entropy>, backupRandom: Option<Entropy>): (o: Issue)
    // reuse: a live pair is returned as it is and nothing changes
    ensures cpk in m && LiveAt(m[cpk], checkTime) ==> o == Issue(Ok(m[cpk]), m)
    // otherwise the call fails exactly when one of the two reads fails...
    ensures !(cpk in m && LiveAt(m[cpk], checkTime)) ==>
      (o.result.Err? <==> mainRandom.None? || backupRandom.None?)
    ensures !(cpk in m && LiveAt(m[cpk], checkTime)) && mainRandom.None? ==>
      o.result == Err(MainKeyFailed(RandomReadFailed))
    ensures !(cpk in m && LiveAt(m[cpk], checkTime)) && mainRandom.Some? && backupRandom.None? ==>
      o.result == Err(BackupKeyFailed(RandomReadFailed))
    // ...and a failure leaves no entry for cpk, every other entry untouched
    ensures o.result.Err? ==> o.entries == Deleted(m, cpk)
    // a created pair carries fresh keys and the requested lifetime, and is stored under cpk
    ensures !(cpk in m && LiveAt(m[cpk], checkTime)) && o.result.Ok? ==>
      && WellFormed(o.result.value)
      && o.result.value.cpk == cpk
      && o.result.value.createdAt == now
      && o.result.value.expiresAt == now + duration
      && Hex.Decode(o.result.value.main.key) == mainRandom.value
      && Hex.Decode(o.result.value.backup.key) == backupRandom.value
      && o.entries == m[cpk := o.result.value]
  {
    if cpk in m && LiveAt(m[cpk], checkTime) then Issue(Ok(m[cpk]), m)
    else
      var rest := Deleted(m, cpk);
      var mainKey := GenerateKey(mainRandom);
      if mainKey.Err? then Issue(Err(MainKeyFailed(mainKey.error)), rest)
      else
        var backupKey := GenerateKey(backupRandom);
        if backupKey.Err? then Issue(Err(BackupKeyFailed(backupKey.error)), rest)
        else
          var pair := NewPair(cpk, mainKey.value, backupKey.value, now, duration);
          Issue(Ok(pair), rest[cpk := pair])
  }

  /** Entries other than cpk are never touched by GetOrCreate. */
  lemma GetOrCreateFrame(m: map<string, StreamKeyPair>, cpk: string, duration: int,
                         checkTime: int, now: int,
                         mainRandom: Option<Entropy>, backupRandom: Option<Entropy>, other: string)
    requires other != cpk
    ensures var o := GetOrCreateSpec(m, cpk, duration, checkTime, now, mainRandom, backupRandom);
      (other in o.entries <==> other in m) && (other in m ==> o.entries[other] == m[other])
  {
  }

  lemma GetOrCreatePreservesValid(m: map<string, StreamKeyPair>, cpk: string, duration: int,
                                  checkTime: int, now: int,
                                  mainRandom: Option<Entropy>, backupRandom: Option<Entropy>)
    requires ValidEntries(m)
    ensures ValidEntries(GetOrCreateSpec(m, cpk, duration, checkTime, now, mainRandom, backupRandom).entries)
  {
  }

  /**
   * Idempotent issuance: a second call whose expiry test happens before the
   * first call's pair expires returns that same pair and leaves the map as the
   * first call left it, whatever the second call's random source does.
   */
  lemma IssueTwice(m: map<string, StreamKeyPair>, cpk: string,
                   duration1: int, checkTime1: int, now1: int, main1: Option<Entropy>, backup1: Option<Entropy>,
                   duration2: int, checkTime2: int, now2: int, main2: Option<Entropy>, backup2: Option<Entropy>)
    requires GetOrCreateSpec(m, cpk, duration1, checkTime1, now1, main1, backup1).result.Ok?
    requires checkTime2 < GetOrCreateSpec(m, cpk, duration1, checkTime1, now1, main1, backup1).result.value.expiresAt
    ensures var o1 := GetOrCreateSpec(m, cpk, duration1, checkTime1, now1, main1, backup1);
            var o2 := GetOrCreateSpec(o1.entries, cpk, duration2, checkTime2, now2, main2, backup2);
            o2 == Issue(o1.result, o1.entries)
  {
  }

  /**
   * The expiry boundary: a pair whose expiresAt equals the clock reading is no
   * longer reused by GetOrCreate, which issues a new one, yet CleanupExpired at
   * that same instant keeps it.
   */
  lemma ExpiryBoundary(m: map<string, StreamKeyPair>, cpk: string, duration: int, now: int,
                       mainRandom: Entropy, backupRandom: Entropy)
    requires cpk in m && m[cpk].expiresAt == now
    ensures !LiveAt(m[cpk], now) && !SweptAt(m[cpk], now)
    ensures var o := GetOrCreateSpec(m, cpk, duration, now, now, Some(mainRandom), Some(backupRandom));
      o.result.Ok? && o.result.value.expiresAt == now + duration
  {
  }

  /**
   * Re-issuing after expiry yields keys different from the previous pair's
   * whenever the random source produced different bytes.
   */
  lemma ReissueHasFreshKeys(m: map<string, StreamKeyPair>, cpk: string, duration: int,
                                              checkTime: int, now: int, mainRandom: Entropy, backupRandom: Entropy)
    requires ValidEntries(m)
    requires cpk in m && !LiveAt(m[cpk], checkTime)
    requires Hex.Decode(m[cpk].main.key) != mainRandom
    requires Hex.Decode(m[cpk].backup.key) != backupRandom
    ensures var o := GetOrCreateSpec(m, cpk, duration, checkTime, now, Some(mainRandom), Some(backupRandom));
      o.result.Ok? && o.result.value.main.key != m[cpk].main.key
      && o.result.value.backup.key != m[cpk].backup.key
  {
  }

  /** The map CleanupExpired leaves: every entry it does not sweep, unchanged. */
  function Unexpired(m: map<string, StreamKeyPair>, now: int): (r: map<string, StreamKeyPair>)
    ensures forall c :: c in r <==> c in m && m[c].expiresAt >= now
    ensures forall c :: c in r ==> r[c] == m[c]
    ensures |r| <= |m|
  {
    var r := map c | c in m && !SweptAt(m[c], now) :: m[c];
    assert r.Keys <= m.Keys;
    SubsetCard(r.Keys, m.Keys);
    r
  }

  lemma SubsetCard<T>(a: set<T>, b: set<T>)
    requires a <= b
    ensures |a| <= |b|
  {
    if a != {} {
      var x :| x in a;
      SubsetCard(a - {x}, b - {x});
    }
  }

  /** A second sweep at the same instant removes nothing more. */
  lemma SweepIdempotent(m: map<string, StreamKeyPair>, now: int)
    ensures Unexpired(Unexpired(m, now), now) == Unexpired(m, now)
  {
  }

  lemma SweepPreservesValid(m: map<string, StreamKeyPair>, now: int)
    requires ValidEntries(m)
    ensures ValidEntries(Unexpired(m, now))
  {
  }

  /** Removing a present key shrinks the map by exactly one. */
  lemma RemoveCard(m: map<string, StreamKeyPair>, c: string)
    requires c in m
    ensures |m - {c}| == |m| - 1
  {
    assert (m - {c}).Keys == m.Keys - {c};
  }

  class StreamKeyStore {
    var store: map<string, StreamKeyPair>

    ghost predicate Valid()
      reads this
    {
      ValidEntries(store)
    }

    /** NewStreamKeyStore */
    constructor ()
      ensures Valid() && store == map[]
    {
      store := map[];
    }

    method GetOrCreate(cpk: string, duration: int, checkTime: int, now: int,
                       mainRandom: Option<Entropy>, backupRandom: Option<Entropy>)
      returns (r: Result<StreamKeyPair, StoreError>)
      requires Valid()
      modifies this
      ensures Valid()
      ensures var o := GetOrCreateSpec(old(store), cpk, duration, checkTime, now, mainRandom, backupRandom);
        r == o.result && store == o.entries
    {
      if cpk in store {
        var pair := store[cpk];
        if LiveAt(pair, checkTime) {
          return Ok(pair);
        }
        store := store - {cpk};
      }
      var mainKey := GenerateKey(mainRandom);
      if mainKey.Err? {
        return Err(MainKeyFailed(mainKey.error));
      }
      var backupKey := GenerateKey(backupRandom);
      if backupKey.Err? {
        return Err(BackupKeyFailed(backupKey.error));
      }
      var pair := NewPair(cpk, mainKey.value, backupKey.value, now, duration);
      store := store[cpk := pair];
      r := Ok(pair);
    }

    method Delete(cpk: string)
      requires Valid()
      modifies this
      ensures Valid()
      ensures store == Deleted(old(store), cpk)
    {
      store := store - {cpk};
    }

    /** Removes every entry past its expiry at `now` and says how many it removed. */
    method CleanupExpired(now: int) returns (count: nat)
      requires Valid()
      modifies this
      ensures Valid()
      ensures store == Unexpired(old(store), now)
      ensures count == |old(store)| - |store|
    {
      count := 0;
      var pending := store.Keys;
      while pending != {}
        invariant pending <= old(store).Keys
        invariant store == map c | c in old(store) && (c in pending || !SweptAt(old(store)[c], now)) :: old(store)[c]
        invariant count + |store| == |old(store)|
        decreases pending
      {
        var c :| c in pending;
        if SweptAt(store[c], now) {
          RemoveCard(store, c);
          store := store - {c};
          count := count + 1;
        }
        pending := pending - {c};
      }
    }

    /** A copy of the whole map, built entry by entry. */
    method GetAll() returns (result: map<string, StreamKeyPair>)
      ensures result == store
    {
      result := map[];
      var pending := store.Keys;
      while pending != {}
        invariant pending <= store.Keys
        invariant result == map c | c in store && c !in pending :: store[c]
        decreases pending
      {
        var c :| c in pending;
        result := result[c := store[c]];
        pending := pending - {c};
      }
    }
  }
}
