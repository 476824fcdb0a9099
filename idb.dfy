/**
 * The browser-side IndexedDB wrapper: named object stores of keyed values,
 * put / get / delete / clear in one transaction each, and the `index_hash`
 * index of the games store with its first-match lookup.
 *
 * The database is a map from store name to store, a store a map from key to
 * value. The games store has the key path `rkey`, so its entries are keyed by
 * their own record key; every other store takes an explicit key. The index is
 * kept as its own map from index hash to the set of primary keys that carry
 * it, and `LocalDb.Valid` ties it to the games store.
 */
module Idb {
  import opened Wrappers
  import opened Records

  const DB_NAME: string := "2048"
  /** Game history (`blue.2048.game`), keyed by record key. */
  const GAME_STORE: string := "games"
  /** The single in-progress game, under `SELF_KEY`. */
  const CURRENT_GAME_STORE: string := "current_game"
  /** Player stats (`blue.2048.player.stats`), under `SELF_KEY`. */
  const STATS_STORE: string := "stats"
  /** Player profile (`blue.2048.player.profile`), under `SELF_KEY`. */
  const PROFILE_STORE: string := "profile"
  const KEY_STORE: string := "did:keys"
  const DID_RESOLVER_STORE: string := "did:resolver"
  const STATE_STORE: string := "states"
  const SESSIONS_STORE: string := "sessions"

  /** The fixed key of the one-record stores. */
  const SELF_KEY: string := "self"

  /** The games store's key path and the name and key path of its only index. */
  const RKEY_PATH: string := "rkey"
  const INDEX_HASH: string := "index_hash"

  /** Texts of the failures IndexedDB reports (its own messages are not modelled). */
  const NOT_FOUND_ERR: string := "NotFoundError"
  const DATA_ERR: string := "DataError"
  const VERSION_ERR: string := "VersionError"

  datatype StorageError = Error(msg: string) | OpenDbError(msg: string) {
    /** Both variants print as their bare message. */
    function ToString(): (s: string)
      ensures s == msg
    {
      match this
      case Error(e) => e
      case OpenDbError(e) => e
    }
  }

  type Store = map<string, Value>
  type Stores = map<string, Store>

  /** The `index_hash` index: index hash to the primary keys of the entries that carry it. */
  type HashIndex = map<string, set<string>>

  /** The eight stores `create_database` lays out, all empty. */
  function InitialLayout(): Stores {
    map[GAME_STORE := map[], CURRENT_GAME_STORE := map[], STATS_STORE := map[],
        PROFILE_STORE := map[], KEY_STORE := map[], DID_RESOLVER_STORE := map[],
        STATE_STORE := map[], SESSIONS_STORE := map[]]
  }

  // ---------------------------------------------------------------------
  // Key order. IndexedDB orders string keys lexicographically; a cursor on
  // the index opens at the entry with the least primary key among those
  // whose index key matches.
  // ---------------------------------------------------------------------

  predicate KeyLess(a: string, b: string) {
    if |a| == 0 then |b| > 0
    else if |b| == 0 then false
    else a[0] < b[0] || (a[0] == b[0] && KeyLess(a[1..], b[1..]))
  }

  predicate KeyLe(a: string, b: string) {
    a == b || KeyLess(a, b)
  }

  lemma {:induction false} KeyLessIrreflexive(a: string)
    ensures !KeyLess(a, a)
  {
    if |a| > 0 {
      KeyLessIrreflexive(a[1..]);
    }
  }

  lemma {:induction false} KeyLessTransitive(a: string, b: string, c: string)
    requires KeyLess(a, b) && KeyLess(b, c)
    ensures KeyLess(a, c)
  {
    if |a| > 0 && |b| > 0 && |c| > 0 && a[0] == b[0] && b[0] == c[0] {
      KeyLessTransitive(a[1..], b[1..], c[1..]);
    }
  }

  lemma {:induction false} KeyLessTotal(a: string, b: string)
    requires a != b
    ensures KeyLess(a, b) || KeyLess(b, a)
  {
    if |a| > 0 && |b| > 0 && a[0] == b[0] {
      assert a == [a[0]] + a[1..] && b == [b[0]] + b[1..];
      KeyLessTotal(a[1..], b[1..]);
    }
  }

  lemma KeyLeTransitive(a: string, b: string, c: string)
    requires KeyLe(a, b) && KeyLe(b, c)
    ensures KeyLe(a, c)
  {
    if a != b && b != c {
      KeyLessTransitive(a, b, c);
    }
  }

  lemma KeyLeAntisymmetric(a: string, b: string)
    requires KeyLe(a, b) && KeyLe(b, a)
    ensures a == b
  {
    if a != b {
      KeyLessTransitive(a, b, a);
      KeyLessIrreflexive(a);
    }
  }

  // ---------------------------------------------------------------------
  // What each store operation does, as functions of the stores.
  // ---------------------------------------------------------------------

  /**
   * Where a put lands. The games store has the in-line key path `rkey`: a
   * put without a key stores a game entry under its own `rkey`, and a put with
   * an explicit key, or of a value without `rkey`, is a `DataError`. Every
   * other store has no key path, so a put needs an explicit key.
   */
  function PutTarget(item: Value, store: string, key: Option<string>): Option<string> {
    if store == GAME_STORE then
      if key.None? && item.EntryValue? then Some(item.entry.rkey) else None
    else key
  }

  function PutSpec(stores: Stores, item: Value, store: string, key: Option<string>): Result<Stores, StorageError> {
    if store !in stores then Err(Error(NOT_FOUND_ERR))
    else match PutTarget(item, store, key)
      case None => Err(Error(DATA_ERR))
      case Some(k) => Ok(stores[store := stores[store][k := item]])
  }

  function GetSpec(stores: Stores, store: string, key: string): Result<Option<Value>, StorageError> {
    if store !in stores then Err(Error(NOT_FOUND_ERR))
    else if key in stores[store] then Ok(Some(stores[store][key]))
    else Ok(None)
  }

  function DeleteSpec(stores: Stores, store: string, key: string): Result<Stores, StorageError> {
    if store !in stores then Err(Error(NOT_FOUND_ERR))
    else Ok(stores[store := stores[store] - {key}])
  }

  function ClearSpec(stores: Stores, store: string): Result<Stores, StorageError> {
    if store !in stores then Err(Error(NOT_FOUND_ERR))
    else Ok(stores[store := map[]])
  }

  /** A get after a successful put of `item` under `k` returns `item`; every other key and store reads as before. */
  lemma GetAfterPut(stores: Stores, item: Value, store: string, key: Option<string>, s2: string, k2: string)
    requires PutSpec(stores, item, store, key).Ok?
    ensures PutTarget(item, store, key).Some?
    ensures var after := PutSpec(stores, item, store, key).value;
            GetSpec(after, s2, k2)
            == if s2 == store && k2 == PutTarget(item, store, key).value then Ok(Some(item))
               else GetSpec(stores, s2, k2)
  {
  }

  /** Games are keyed by their own record key: a key-less put of an entry lands at `entry.rkey`, over any entry there. */
  lemma GamePutKeyedByRkey(stores: Stores, e: GameEntry)
    requires GAME_STORE in stores
    ensures PutSpec(stores, EntryValue(e), GAME_STORE, None)
            == Ok(stores[GAME_STORE := stores[GAME_STORE][e.rkey := EntryValue(e)]])
    ensures forall k :: PutSpec(stores, EntryValue(e), GAME_STORE, Some(k)) == Err(Error(DATA_ERR))
  {
  }

  /** A delete removes exactly that key of that store; a clear empties exactly that store. */
  lemma DeleteAndClearAreLocal(stores: Stores, store: string, key: string, s2: string, k2: string)
    requires store in stores
    ensures GetSpec(DeleteSpec(stores, store, key).value, s2, k2)
            == if s2 == store && k2 == key then Ok(None) else GetSpec(stores, s2, k2)
    ensures GetSpec(ClearSpec(stores, store).value, s2, k2)
            == if s2 == store then Ok(None) else GetSpec(stores, s2, k2)
  {
  }

  // ---------------------------------------------------------------------
  // The games store and its index.
  // ---------------------------------------------------------------------

  ghost predicate KeyedByRkey(games: Store) {
    forall k | k in games :: games[k].EntryValue? && games[k].entry.rkey == k
  }

  ghost predicate IndexMatches(games: Store, idx: HashIndex) {
    && (forall h, k | h in idx && k in idx[h] :: k in games && games[k].EntryValue? && games[k].entry.indexHash == h)
    && (forall k | k in games && games[k].EntryValue? ::
          games[k].entry.indexHash in idx && k in idx[games[k].entry.indexHash])
  }

  /** `k` holds an entry whose index hash is `q`. */
  ghost predicate Matches(games: Store, q: string, k: string) {
    k in games && games[k].EntryValue? && games[k].entry.indexHash == q
  }

  /** `k` is where a cursor on the index opened with query `q` lands first. */
  ghost predicate IsFirstMatch(games: Store, q: string, k: string) {
    Matches(games, q, k) && forall k' | Matches(games, q, k') :: KeyLe(k, k')
  }

  /** There is at most one first match. */
  lemma FirstMatchUnique(games: Store, q: string, k1: string, k2: string)
    requires IsFirstMatch(games, q, k1) && IsFirstMatch(games, q, k2)
    ensures k1 == k2
  {
    KeyLeAntisymmetric(k1, k2);
  }

  class LocalDb {
    var version: nat
    var stores: Stores
    var hashIndex: HashIndex

    ghost predicate Valid()
      reads this
    {
      && (GAME_STORE in stores ==> KeyedByRkey(stores[GAME_STORE]) && IndexMatches(stores[GAME_STORE], hashIndex))
      && (GAME_STORE !in stores ==> hashIndex == map[])
    }

    /** A database that has never been opened. */
    constructor ()
      ensures Valid() && version == 0 && stores == map[] && hashIndex == map[]
    {
      version, stores, hashIndex := 0, map[], map[];
    }

    /** The upgrade callback of `create_database`: only the 0 -> 1 upgrade lays out the stores and the index. */
    method OnUpgradeNeeded(oldVersion: nat, newVersion: Option<nat>)
      requires Valid() && oldVersion == version
      modifies this
      ensures Valid() && version == old(version)
      ensures stores == if oldVersion == 0 && newVersion == Some(1) then InitialLayout() else old(stores)
      ensures oldVersion == 0 && newVersion == Some(1) ==> hashIndex == map[]
      ensures !(oldVersion == 0 && newVersion == Some(1)) ==> hashIndex == old(hashIndex)
    {
      if oldVersion == 0 && newVersion == Some(1) {
        stores := InitialLayout();
        hashIndex := map[];
      }
    }

    /** `create_database`: open at version 1, running the upgrade callback when the stored version is older. */
    method CreateDatabase() returns (r: Result<(), StorageError>)
      requires Valid()
      modifies this
      ensures Valid()
      ensures old(version) == 0 ==> r.Ok? && version == 1 && stores == InitialLayout()
      ensures old(version) == 1 ==> r.Ok? && unchanged(this)
      ensures old(version) > 1 ==> r == Err(OpenDbError(VERSION_ERR)) && unchanged(this)
    {
      if version > 1 {
        return Err(OpenDbError(VERSION_ERR));
      }
      if version < 1 {
        OnUpgradeNeeded(version, Some(1));
        version := 1;
      }
      r := Ok(());
    }

    /** `transaction_put`. */
    method TransactionPut(item: Value, store: string, key: Option<string>) returns (r: Result<(), StorageError>)
      requires Valid()
      modifies this
      ensures Valid() && version == old(version)
      ensures r.Ok? <==> PutSpec(old(stores), item, store, key).Ok?
      ensures r.Ok? ==> stores == PutSpec(old(stores), item, store, key).value
      ensures r.Err? ==> r.error == PutSpec(old(stores), item, store, key).error && unchanged(this)
      ensures store != GAME_STORE ==> hashIndex == old(hashIndex)
    {
      if store !in stores {
        return Err(Error(NOT_FOUND_ERR));
      }
      var target := PutTarget(item, store, key);
      if target.None? {
        return Err(Error(DATA_ERR));
      }
      var k := target.value;
      if store == GAME_STORE {
        var games := stores[GAME_STORE];
        if k in games {
          var was := games[k].entry.indexHash;
          hashIndex := hashIndex[was := hashIndex[was] - {k}];
        }
        var h := item.entry.indexHash;
        var bucket := if h in hashIndex then hashIndex[h] else {};
        hashIndex := hashIndex[h := bucket + {k}];
      }
      stores := stores[store := stores[store][k := item]];
      r := Ok(());
    }

    /** `object_get`. */
    method ObjectGet(store: string, key: string) returns (r: Result<Option<Value>, StorageError>)
      ensures r == GetSpec(stores, store, key)
    {
      if store !in stores {
        return Err(Error(NOT_FOUND_ERR));
      }
      if key in stores[store] {
        r := Ok(Some(stores[store][key]));
      } else {
        r := Ok(None);
      }
    }

    /**
     * `object_get_index`: the first entry, in key order, whose `index_hash`
     * equals `indexKey`, or none. Only the games store has the index.
     */
    method ObjectGetIndex(store: string, indexKey: string) returns (r: Result<Option<GameEntry>, StorageError>)
      requires Valid()
      ensures store != GAME_STORE || store !in stores ==> r == Err(Error(NOT_FOUND_ERR))
      ensures store == GAME_STORE && store in stores ==>
                && r.Ok?
                && (r.value.None? <==> forall k :: !Matches(stores[GAME_STORE], indexKey, k))
                && (r.value.Some? ==>
                      && IsFirstMatch(stores[GAME_STORE], indexKey, r.value.value.rkey)
                      && stores[GAME_STORE][r.value.value.rkey] == EntryValue(r.value.value))
    {
      if store !in stores || store != GAME_STORE {
        return Err(Error(NOT_FOUND_ERR));
      }
      ghost var games := stores[GAME_STORE];
      if indexKey !in hashIndex || hashIndex[indexKey] == {} {
        return Ok(None);
      }
      var bucket := hashIndex[indexKey];
      var first :| first in bucket;
      var rest := bucket - {first};
      while rest != {}
        invariant rest <= bucket && first in bucket && first !in rest
        invariant forall k | k in bucket && k !in rest :: KeyLe(first, k)
        decreases rest
      {
        var k :| k in rest;
        if KeyLess(k, first) {
          forall k' | k' in bucket && k' !in rest
            ensures KeyLe(k, k')
          {
            KeyLeTransitive(k, first, k');
          }
          first := k;
        } else {
          KeyLessTotal(k, first);
        }
        rest := rest - {k};
      }
      assert Matches(games, indexKey, first);
      assert forall k' | Matches(games, indexKey, k') :: k' in bucket;
      r := Ok(Some(stores[GAME_STORE][first].entry));
    }

    /** `object_delete`: deleting an absent key is not an error. */
    method ObjectDelete(store: string, key: string) returns (r: Result<(), StorageError>)
      requires Valid()
      modifies this
      ensures Valid() && version == old(version)
      ensures r.Ok? <==> store in old(stores)
      ensures r.Ok? ==> stores == DeleteSpec(old(stores), store, key).value
      ensures r.Err? ==> r == Err(Error(NOT_FOUND_ERR)) && unchanged(this)
    {
      if store !in stores {
        return Err(Error(NOT_FOUND_ERR));
      }
      if store == GAME_STORE && key in stores[GAME_STORE] {
        var was := stores[GAME_STORE][key].entry.indexHash;
        hashIndex := hashIndex[was := hashIndex[was] - {key}];
      }
      stores := stores[store := stores[store] - {key}];
      r := Ok(());
    }

    /** `clear_store`. */
    method ClearStore(store: string) returns (r: Result<(), StorageError>)
      requires Valid()
      modifies this
      ensures Valid() && version == old(version)
      ensures r.Ok? <==> store in old(stores)
      ensures r.Ok? ==> stores == ClearSpec(old(stores), store).value
      ensures r.Err? ==> r == Err(Error(NOT_FOUND_ERR)) && unchanged(this)
    {
      if store !in stores {
        return Err(Error(NOT_FOUND_ERR));
      }
      if store == GAME_STORE {
        hashIndex := map[];
      }
      stores := stores[store := map[]];
      r := Ok(());
    }
  }
}
