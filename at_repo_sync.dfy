/**
 * `AtRepoSync`: keeps the profile, the stats and the completed games in the
 * browser's IndexedDB and, when the player is logged in, mirrors them to the
 * player's AT Protocol repository.
 *
 * Every write hashes the record, pushes it, records the push outcome in the
 * `synced_with_at_repo` flag and re-hashes only when the push failed (see
 * `Records.AfterPush`). The sync of a one-record collection (profile or
 * stats) is "remote wins": a fetched remote record replaces a local one whose
 * hash differs, and a failed fetch replaces the local record with a fresh
 * default one (`Reconcile`).
 */
module RepoSync {
  import opened Wrappers
  import opened Records
  import opened Idb
  import opened Remote

  datatype SyncError =
    | LocalIsNewer
    | RemoteIsNewer
    | AtRepoCallError(msg: string)
    | LocalRepoError(msg: string)
    | ThereWasAnError(msg: string)
  {
    /** The `Display` text: a fixed sentence, or the variant name, a colon and the message. */
    function ToString(): (s: string)
      ensures LocalIsNewer? ==> s == "Local is newer"
      ensures RemoteIsNewer? ==> s == "Remote is newer"
      ensures AtRepoCallError? ==> s == "AtRepoCallError: " + msg
      ensures LocalRepoError? ==> s == "LocalRepoError: " + msg
      ensures ThereWasAnError? ==> s == "ThereWasAnError: " + msg
    {
      match this
      case LocalIsNewer => "Local is newer"
      case RemoteIsNewer => "Remote is newer"
      case AtRepoCallError(e) => "AtRepoCallError: " + e
      case LocalRepoError(e) => "LocalRepoError: " + e
      case ThereWasAnError(e) => "ThereWasAnError: " + e
    }
  }

  const NO_CLIENT: string := "No client"
  /** The text of a failed deserialisation of a stored value (serde's own message is not modelled). */
  const DESERIALISE_ERR: string := "invalid type"

  /** An authenticated XRPC client bound to an OAuth session. */
  datatype Agent = Agent(session: string)

  /** The two collections that hold a single record under the key `self`. */
  datatype SelfRecord = Profile | Stats {
    function Store(): string {
      match this
      case Profile => PROFILE_STORE
      case Stats => STATS_STORE
    }

    function Nsid(): string {
      match this
      case Profile => PROFILE_NSID
      case Stats => STATS_NSID
    }

    predicate Holds(v: Value) {
      match this
      case Profile => v.ProfileValue?
      case Stats => v.StatsValue?
    }

    function Fresh(now: Datetime): (v: Value)
      ensures Holds(v) && IsSynced(v) && Fits(Nsid(), v)
    {
      match this
      case Profile => ProfileValue(DefaultProfile(now))
      case Stats => StatsValue(DefaultStats(now))
    }
  }

  lemma SelfRecordLayout(k: SelfRecord, v: Value)
    ensures k.Store() != GAME_STORE && k.Store() in InitialLayout()
    ensures k.Holds(v) ==> IsSynced(v) && Fits(k.Nsid(), v)
    ensures Profile.Store() != Stats.Store() && Profile.Nsid() != Stats.Nsid()
  {
  }

  /** What a sync of one `self` record does with the local record, given the fetch outcome. */
  datatype SyncAction = Keep | TakeRemote(remote: Value) | CreateFresh

  /**
   * Remote wins: a fetched record is stored unless the local one carries the
   * same hash; when the fetch failed, for whatever reason, a fresh record is
   * created in its place.
   */
  function Reconcile(local: Option<Value>, fetched: Result<Value, SyncError>): SyncAction
    requires local.Some? ==> IsSynced(local.value)
    requires fetched.Ok? ==> IsSynced(fetched.value)
  {
    match fetched
    case Err(_) => CreateFresh
    case Ok(remote) =>
      if local.Some? && SyncOf(local.value).hash == SyncOf(remote).hash then Keep
      else TakeRemote(remote)
  }

  /**
   * After a successful fetch the local record carries the remote hash, and a
   * second sync against the same remote record changes nothing.
   */
  lemma ReconcileSettles(local: Option<Value>, remote: Value)
    requires local.Some? ==> IsSynced(local.value)
    requires IsSynced(remote)
    ensures var after := match Reconcile(local, Ok(remote))
                         case Keep => local.value
                         case TakeRemote(v) => v
                         case CreateFresh => remote;
            && SyncOf(after).hash == SyncOf(remote).hash
            && Reconcile(Some(after), Ok(remote)) == Keep
    ensures Reconcile(local, Ok(remote)) == Keep
            <==> local.Some? && SyncOf(local.value).hash == SyncOf(remote).hash
  {
  }

  /** Whatever the local record holds, a failed fetch discards it. */
  lemma ReconcileFailedFetch(local: Option<Value>, e: SyncError)
    requires local.Some? ==> IsSynced(local.value)
    ensures Reconcile(local, Err(e)) == CreateFresh
  {
  }

  /** The stores after `put(v, store, self)`, when `store` exists. */
  function WithSelf(stores: Stores, store: string, v: Value): Stores
    requires store in stores
  {
    stores[store := stores[store][SELF_KEY := v]]
  }

  /** A second put under `self` overwrites the first. */
  lemma WithSelfOverwrites(stores: Stores, store: string, v1: Value, v2: Value)
    requires store in stores
    ensures WithSelf(WithSelf(stores, store, v1), store, v2) == WithSelf(stores, store, v2)
  {
    assert stores[store][SELF_KEY := v1][SELF_KEY := v2] == stores[store][SELF_KEY := v2];
  }

  /** The record a one-record store holds under `self`, if any. */
  function LocalSelf(stores: Stores, k: SelfRecord): Option<Value>
    requires k.Store() in stores
  {
    var slot := stores[k.Store()];
    if SELF_KEY in slot then Some(slot[SELF_KEY]) else None
  }

  datatype AtRepoSync = AtRepoSync(client: Option<Agent>, usersDid: Option<Did>, hasher: Hasher) {

    /** A repo whose writes can reach the user's PDS (a logged-in client and its DID). */
    predicate CanRemoteSync() {
      client.Some? && usersDid.Some?
    }

    /** Every constructor pairs a client with a DID. */
    predicate WellFormed() {
      client.Some? <==> usersDid.Some?
    }

    function SelfUri(k: SelfRecord): AtUri
      requires CanRemoteSync()
    {
      AtUri(usersDid.value, k.Nsid(), SELF_KEY)
    }

    /** What `get_remote_record` answers for `collection`/`rkey`, given the repository's records. */
    function RemoteRecord(records: map<AtUri, Value>, collection: string, rkey: string, reachable: bool): Result<Value, SyncError>
      requires WellFormed()
    {
      if client.None? then Err(ThereWasAnError(NO_CLIENT))
      else match Fetch(records, AtUri(usersDid.value, collection, rkey), reachable)
           case Ok(v) => Ok(v)
           case Err(e) => Err(AtRepoCallError(e))
    }

    /**
     * The repository after a sync of `k` that chose `action`: only a fresh
     * default record is ever pushed, when the fetch failed and the create
     * was accepted.
     */
    function SyncedRecords(records: map<AtUri, Value>, k: SelfRecord, action: SyncAction, createAccepted: bool,
                           now: Datetime): map<AtUri, Value>
      requires WellFormed()
    {
      if action == CreateFresh && client.Some? && createAccepted then records[SelfUri(k) := Stamp(hasher, k.Fresh(now))]
      else records
    }

    /**
     * `action` is the remote-wins choice for the `self` record of `k`, made
     * from the local record in `before` (of the right kind, if present) and
     * the answer of the repository `records`.
     */
    ghost predicate Reconciled(before: Stores, records: map<AtUri, Value>, k: SelfRecord, reachable: bool, action: SyncAction)
      requires WellFormed()
    {
      && k.Store() in before
      && var local := LocalSelf(before, k);
         var fetched := RemoteRecord(records, k.Nsid(), SELF_KEY, reachable);
         && (local.Some? ==> k.Holds(local.value) && IsSynced(local.value))
         && (fetched.Ok? ==> IsSynced(fetched.value))
         && action == Reconcile(local, fetched)
    }

    /** `get_remote_record`. */
    method GetRemoteRecord(pds: Pds, collection: string, rkey: string, reachable: bool) returns (r: Result<Value, SyncError>)
      requires WellFormed() && pds.Valid()
      ensures client.None? ==> r == Err(ThereWasAnError(NO_CLIENT))
      ensures client.Some? ==>
                var uri := AtUri(usersDid.value, collection, rkey);
                && (r.Ok? <==> reachable && uri in pds.records)
                && (r.Ok? ==> r.value == pds.records[uri] && Fits(collection, r.value))
                && (r.Err? ==> r.error.AtRepoCallError?)
      ensures r == RemoteRecord(pds.records, collection, rkey, reachable)
    {
      if client.None? {
        return Err(ThereWasAnError(NO_CLIENT));
      }
      var got := pds.GetRecord(AtUri(usersDid.value, collection, rkey), reachable);
      match got
      case Ok(v) => r := Ok(v);
      case Err(e) => r := Err(AtRepoCallError(e));
    }

    /**
     * `get_local_player_profile` / `get_local_player_stats`: the `self`
     * record of the store, none when the key is absent, an error when the
     * store is missing or holds a record of another kind.
     */
    method GetLocalSelf(db: LocalDb, k: SelfRecord) returns (r: Result<Option<Value>, SyncError>)
      ensures k.Store() !in db.stores ==> r == Err(ThereWasAnError(NOT_FOUND_ERR))
      ensures k.Store() in db.stores ==>
                && (SELF_KEY !in db.stores[k.Store()] ==> r == Ok(None))
                && (SELF_KEY in db.stores[k.Store()] ==>
                      var v := db.stores[k.Store()][SELF_KEY];
                      r == if k.Holds(v) then Ok(Some(v)) else Err(ThereWasAnError(DESERIALISE_ERR)))
    {
      var got := db.ObjectGet(k.Store(), SELF_KEY);
      match got
      case Err(e) => r := Err(ThereWasAnError(e.ToString()));
      case Ok(None) => r := Ok(None);
      case Ok(Some(v)) =>
        if k.Holds(v) {
          r := Ok(Some(v));
        } else {
          r := Err(ThereWasAnError(DESERIALISE_ERR));
        }
    }

    /**
     * The remote half of a write: when logged in, send `v` to the PDS under
     * `uri` and report whether it was accepted. Local-only repos never sync.
     */
    method Push(pds: Pds, collection: string, rkey: string, v: Value, accepted: bool) returns (synced: bool)
      requires WellFormed() && pds.Valid() && Fits(collection, v)
      modifies pds
      ensures pds.Valid()
      ensures synced == (client.Some? && accepted)
      ensures pds.records == if synced then old(pds.records)[AtUri(usersDid.value, collection, rkey) := v]
                             else old(pds.records)
    {
      if client.None? {
        return false;
      }
      synced := pds.Write(AtUri(usersDid.value, collection, rkey), v, accepted);
    }

    /**
     * `create_a_new_player_profile` / `create_a_new_player_stats`: hash the
     * default record, create it remotely under `self`, settle flag and hash
     * and store it locally under `self`.
     */
    method CreateSelf(db: LocalDb, pds: Pds, k: SelfRecord, now: Datetime, accepted: bool)
      returns (r: Result<Value, SyncError>, synced: bool)
      requires WellFormed() && db.Valid() && pds.Valid()
      modifies db, pds
      ensures db.Valid() && pds.Valid() && db.version == old(db.version)
      ensures synced == (client.Some? && accepted)
      ensures pds.records == if synced then old(pds.records)[SelfUri(k) := Stamp(hasher, k.Fresh(now))]
                             else old(pds.records)
      ensures k.Store() in old(db.stores) ==>
                && r == Ok(AfterPush(hasher, k.Fresh(now), synced))
                && db.stores == WithSelf(old(db.stores), k.Store(), r.value)
      ensures k.Store() !in old(db.stores) ==>
                r == Err(ThereWasAnError(NOT_FOUND_ERR)) && db.stores == old(db.stores)
    {
      var initial := k.Fresh(now);
      var stamped := Stamp(hasher, initial);
      synced := Push(pds, k.Nsid(), SELF_KEY, stamped, accepted);
      var fin := Settle(hasher, stamped, synced);
      var put := db.TransactionPut(fin, k.Store(), Some(SELF_KEY));
      match put
      case Err(e) => r := Err(ThereWasAnError(e.ToString()));
      case Ok(_) => r := Ok(fin);
    }

    method CreateANewPlayerProfile(db: LocalDb, pds: Pds, now: Datetime, accepted: bool)
      returns (r: Result<PlayerProfile, SyncError>)
      requires WellFormed() && db.Valid() && pds.Valid()
      modifies db, pds
      ensures db.Valid() && pds.Valid()
      ensures PROFILE_STORE in old(db.stores) <==> r.Ok?
      ensures r.Ok? ==>
                var synced := client.Some? && accepted;
                && ProfileValue(r.value) == AfterPush(hasher, ProfileValue(DefaultProfile(now)), synced)
                && db.stores == WithSelf(old(db.stores), PROFILE_STORE, ProfileValue(r.value))
                && pds.records == if synced then old(pds.records)[SelfUri(Profile) := Stamp(hasher, ProfileValue(DefaultProfile(now)))]
                                  else old(pds.records)
    {
      var created, synced := CreateSelf(db, pds, Profile, now, accepted);
      match created
      case Err(e) => r := Err(e);
      case Ok(v) => r := Ok(v.profile);
    }

    method CreateANewPlayerStats(db: LocalDb, pds: Pds, now: Datetime, accepted: bool)
      returns (r: Result<PlayerStats, SyncError>)
      requires WellFormed() && db.Valid() && pds.Valid()
      modifies db, pds
      ensures db.Valid() && pds.Valid()
      ensures STATS_STORE in old(db.stores) <==> r.Ok?
      ensures r.Ok? ==>
                var synced := client.Some? && accepted;
                && StatsValue(r.value) == AfterPush(hasher, StatsValue(DefaultStats(now)), synced)
                && db.stores == WithSelf(old(db.stores), STATS_STORE, StatsValue(r.value))
                && pds.records == if synced then old(pds.records)[SelfUri(Stats) := Stamp(hasher, StatsValue(DefaultStats(now)))]
                                  else old(pds.records)
    {
      var created, synced := CreateSelf(db, pds, Stats, now, accepted);
      match created
      case Err(e) => r := Err(e);
      case Ok(v) => r := Ok(v.stats);
    }

    /**
     * `sync_profiles` / `sync_stats`: read the local record, fetch the remote
     * one and apply `Reconcile`. A local read error is returned as is; a
     * failed local write after a fetch is a `LocalRepoError`; a failed fetch
     * runs `CreateSelf` and passes on its error.
     */
    method SyncSelf(db: LocalDb, pds: Pds, k: SelfRecord, reachable: bool, createAccepted: bool, now: Datetime)
      returns (r: Result<(), SyncError>, ghost action: SyncAction)
      requires WellFormed() && db.Valid() && pds.Valid()
      modifies db, pds
      ensures db.Valid() && pds.Valid() && db.version == old(db.version)
      ensures k.Store() !in old(db.stores) ==> r == Err(ThereWasAnError(NOT_FOUND_ERR)) && unchanged(db, pds)
      ensures k.Store() in old(db.stores) && SELF_KEY in old(db.stores)[k.Store()]
              && !k.Holds(old(db.stores)[k.Store()][SELF_KEY]) ==>
                r == Err(ThereWasAnError(DESERIALISE_ERR)) && unchanged(db, pds)
      ensures r.Err? ==>
                && db.stores == old(db.stores) && pds.records == old(pds.records)
                && (k.Store() !in old(db.stores)
                    || (SELF_KEY in old(db.stores)[k.Store()] && !k.Holds(old(db.stores)[k.Store()][SELF_KEY])))
      ensures r.Ok? ==> Reconciled(old(db.stores), old(pds.records), k, reachable, action)
      ensures r.Ok? ==> pds.records == SyncedRecords(old(pds.records), k, action, createAccepted, now)
      ensures r.Ok? && action == Keep ==> db.stores == old(db.stores) && pds.records == old(pds.records)
      ensures r.Ok? && action.TakeRemote? ==>
                db.stores == WithSelf(old(db.stores), k.Store(), action.remote) && pds.records == old(pds.records)
      ensures r.Ok? && action == CreateFresh ==>
                var synced := client.Some? && createAccepted;
                && db.stores == WithSelf(old(db.stores), k.Store(), AfterPush(hasher, k.Fresh(now), synced))
                && pds.records == if synced then old(pds.records)[SelfUri(k) := Stamp(hasher, k.Fresh(now))]
                                  else old(pds.records)
    {
      action := CreateFresh;
      var local := GetLocalSelf(db, k);
      if local.Err? {
        return Err(local.error), action;
      }
      var fetched := GetRemoteRecord(pds, k.Nsid(), SELF_KEY, reachable);
      action := Reconcile(local.value, fetched);
      match fetched
      case Ok(remote) =>
        if local.value.Some? && SyncOf(local.value.value).hash == SyncOf(remote).hash {
          r := Ok(());
        } else {
          var put := db.TransactionPut(remote, k.Store(), Some(SELF_KEY));
          match put
          case Err(e) => r := Err(LocalRepoError(e.ToString()));
          case Ok(_) => r := Ok(());
        }
      case Err(_) =>
        var created, synced := CreateSelf(db, pds, k, now, createAccepted);
        match created
        case Err(e) => r := Err(e);
        case Ok(_) => r := Ok(());
    }

    /** `sync_profiles`: `SyncSelf` on the profile. */
    method SyncProfiles(db: LocalDb, pds: Pds, reachable: bool, createAccepted: bool, now: Datetime)
      returns (r: Result<(), SyncError>, ghost action: SyncAction)
      requires WellFormed() && db.Valid() && pds.Valid()
      modifies db, pds
      ensures db.Valid() && pds.Valid() && db.version == old(db.version)
      ensures PROFILE_STORE !in old(db.stores) ==> r == Err(ThereWasAnError(NOT_FOUND_ERR)) && unchanged(db, pds)
      ensures PROFILE_STORE in old(db.stores) && SELF_KEY in old(db.stores)[PROFILE_STORE]
              && !Profile.Holds(old(db.stores)[PROFILE_STORE][SELF_KEY]) ==>
                r == Err(ThereWasAnError(DESERIALISE_ERR)) && unchanged(db, pds)
      ensures r.Err? ==>
                && db.stores == old(db.stores) && pds.records == old(pds.records)
                && (PROFILE_STORE !in old(db.stores)
                    || (SELF_KEY in old(db.stores)[PROFILE_STORE] && !Profile.Holds(old(db.stores)[PROFILE_STORE][SELF_KEY])))
      ensures r.Ok? ==> Reconciled(old(db.stores), old(pds.records), Profile, reachable, action)
      ensures r.Ok? ==> pds.records == SyncedRecords(old(pds.records), Profile, action, createAccepted, now)
      ensures r.Ok? && action == Keep ==> db.stores == old(db.stores) && pds.records == old(pds.records)
      ensures r.Ok? && action.TakeRemote? ==>
                db.stores == WithSelf(old(db.stores), PROFILE_STORE, action.remote) && pds.records == old(pds.records)
      ensures r.Ok? && action == CreateFresh ==>
                var synced := client.Some? && createAccepted;
                && db.stores == WithSelf(old(db.stores), PROFILE_STORE, AfterPush(hasher, Profile.Fresh(now), synced))
                && pds.records == if synced then old(pds.records)[SelfUri(Profile) := Stamp(hasher, Profile.Fresh(now))]
                                  else old(pds.records)
    {
      r, action := SyncSelf(db, pds, Profile, reachable, createAccepted, now);
    }

    /** `sync_stats`: `SyncSelf` on the stats. */
    method SyncStats(db: LocalDb, pds: Pds, reachable: bool, createAccepted: bool, now: Datetime)
      returns (r: Result<(), SyncError>, ghost action: SyncAction)
      requires WellFormed() && db.Valid() && pds.Valid()
      modifies db, pds
      ensures db.Valid() && pds.Valid() && db.version == old(db.version)
      ensures STATS_STORE !in old(db.stores) ==> r == Err(ThereWasAnError(NOT_FOUND_ERR)) && unchanged(db, pds)
      ensures STATS_STORE in old(db.stores) && SELF_KEY in old(db.stores)[STATS_STORE]
              && !Stats.Holds(old(db.stores)[STATS_STORE][SELF_KEY]) ==>
                r == Err(ThereWasAnError(DESERIALISE_ERR)) && unchanged(db, pds)
      ensures r.Err? ==>
                && db.stores == old(db.stores) && pds.records == old(pds.records)
                && (STATS_STORE !in old(db.stores)
                    || (SELF_KEY in old(db.stores)[STATS_STORE] && !Stats.Holds(old(db.stores)[STATS_STORE][SELF_KEY])))
      ensures r.Ok? ==> Reconciled(old(db.stores), old(pds.records), Stats, reachable, action)
      ensures r.Ok? ==> pds.records == SyncedRecords(old(pds.records), Stats, action, createAccepted, now)
      ensures r.Ok? && action == Keep ==> db.stores == old(db.stores) && pds.records == old(pds.records)
      ensures r.Ok? && action.TakeRemote? ==>
                db.stores == WithSelf(old(db.stores), STATS_STORE, action.remote) && pds.records == old(pds.records)
      ensures r.Ok? && action == CreateFresh ==>
                var synced := client.Some? && createAccepted;
                && db.stores == WithSelf(old(db.stores), STATS_STORE, AfterPush(hasher, Stats.Fresh(now), synced))
                && pds.records == if synced then old(pds.records)[SelfUri(Stats) := Stamp(hasher, Stats.Fresh(now))]
                                  else old(pds.records)
      ensures r.Ok? && client.None? ==> action == CreateFresh
    {
      r, action := SyncSelf(db, pds, Stats, reachable, createAccepted, now);
    }

    /**
     * `update_a_player_stats`: sync first and stop on its error; then stamp
     * `updated_at`, push with `putRecord` and store the settled record under
     * `self`, whatever the sync left there.
     */
    method UpdateAPlayerStats(db: LocalDb, pds: Pds, newStats: PlayerStats, reachable: bool,
                              createAccepted: bool, putAccepted: bool, now: Datetime)
      returns (r: Result<(), SyncError>, ghost action: SyncAction)
      requires WellFormed() && db.Valid() && pds.Valid()
      modifies db, pds
      ensures db.Valid() && pds.Valid()
      ensures STATS_STORE !in old(db.stores) ==> r == Err(ThereWasAnError(NOT_FOUND_ERR)) && unchanged(db, pds)
      ensures STATS_STORE in old(db.stores) && SELF_KEY in old(db.stores)[STATS_STORE]
              && !Stats.Holds(old(db.stores)[STATS_STORE][SELF_KEY]) ==>
                r == Err(ThereWasAnError(DESERIALISE_ERR)) && unchanged(db, pds)
      ensures r.Err? ==>
                && db.stores == old(db.stores) && pds.records == old(pds.records)
                && (STATS_STORE !in old(db.stores)
                    || (SELF_KEY in old(db.stores)[STATS_STORE] && !Stats.Holds(old(db.stores)[STATS_STORE][SELF_KEY])))
      ensures r.Ok? ==>
                var v := StatsValue(newStats.(syncStatus := newStats.syncStatus.(updatedAt := now)));
                var synced := client.Some? && putAccepted;
                && STATS_STORE in old(db.stores)
                && db.stores == WithSelf(old(db.stores), STATS_STORE, AfterPush(hasher, v, synced))
                && Reconciled(old(db.stores), old(pds.records), Stats, reachable, action)
                && var afterSync := SyncedRecords(old(pds.records), Stats, action, createAccepted, now);
                   pds.records == if synced then afterSync[SelfUri(Stats) := Stamp(hasher, v)] else afterSync
    {
      var synced0;
      synced0, action := SyncStats(db, pds, reachable, createAccepted, now);
      if synced0.Err? {
        return Err(synced0.error), action;
      }
      var v := StatsValue(newStats.(syncStatus := newStats.syncStatus.(updatedAt := now)));
      var stamped := Stamp(hasher, v);
      var synced := Push(pds, STATS_NSID, SELF_KEY, stamped, putAccepted);
      var fin := Settle(hasher, stamped, synced);
      ghost var mid := db.stores;
      var put := db.TransactionPut(fin, STATS_STORE, Some(SELF_KEY));
      match action {
        case Keep =>
        case TakeRemote(remote) => WithSelfOverwrites(old(db.stores), STATS_STORE, remote, fin);
        case CreateFresh =>
          WithSelfOverwrites(old(db.stores), STATS_STORE, AfterPush(hasher, StatsValue(DefaultStats(now)), client.Some? && createAccepted), fin);
      }
      match put
      case Err(e) => r := Err(ThereWasAnError(e.ToString()));
      case Ok(_) => r := Ok(());
    }

    /**
     * `create_a_new_game`: hash the game, create it remotely under the new
     * TID, settle flag and hash and store it locally wrapped with its record
     * key and the engine's hash of the recording (the `index_hash`).
     */
    method CreateANewGame(db: LocalDb, pds: Pds, game: GameRecord, tid: string, gameHash: string, accepted: bool)
      returns (r: Result<(), SyncError>)
      requires WellFormed() && db.Valid() && pds.Valid()
      modifies db, pds
      ensures db.Valid() && pds.Valid() && db.version == old(db.version)
      ensures r.Ok? <==> GAME_STORE in old(db.stores)
      ensures r.Ok? ==>
                var synced := client.Some? && accepted;
                var entry := GameEntry(tid, AfterPush(hasher, GameValue(game), synced).game, gameHash);
                && db.stores == old(db.stores)[GAME_STORE := old(db.stores)[GAME_STORE][tid := EntryValue(entry)]]
                && pds.records == if synced then old(pds.records)[AtUri(usersDid.value, GAME_NSID, tid) := Stamp(hasher, GameValue(game))]
                                  else old(pds.records)
    {
      var stamped := Stamp(hasher, GameValue(game));
      var synced := Push(pds, GAME_NSID, tid, stamped, accepted);
      var fin := Settle(hasher, stamped, synced);
      var entry := GameEntry(tid, fin.game, gameHash);
      var put := db.TransactionPut(EntryValue(entry), GAME_STORE, None);
      match put
      case Err(e) => r := Err(ThereWasAnError(e.ToString()));
      case Ok(_) => r := Ok(());
    }
  }

  function NewLoggedInRepo(client: Agent, did: Did, hasher: Hasher): (r: AtRepoSync)
    ensures r.WellFormed() && r.CanRemoteSync() && r.usersDid == Some(did)
  {
    AtRepoSync(Some(client), Some(did), hasher)
  }

  function NewLocalRepo(hasher: Hasher): (r: AtRepoSync)
    ensures r.WellFormed() && !r.CanRemoteSync() && r.client.None?
  {
    AtRepoSync(None, None, hasher)
  }

  /**
   * A repo that is not logged in gets `ThereWasAnError("No client")` for
   * every fetch, so each of its syncs creates a fresh default record.
   */
  lemma LocalSyncResets(repo: AtRepoSync, before: Stores, records: map<AtUri, Value>, k: SelfRecord, reachable: bool,
                        action: SyncAction)
    requires repo.WellFormed() && !repo.CanRemoteSync()
    requires repo.Reconciled(before, records, k, reachable, action)
    ensures repo.RemoteRecord(records, k.Nsid(), SELF_KEY, reachable) == Err(ThereWasAnError(NO_CLIENT))
    ensures action == CreateFresh
  {
  }
}
