/**
 * The storage worker's one request: a finished game arrives as its seeded
 * recording (and the player's DID when logged in). The worker parses it,
 * skips it when the games store already holds it, counts it into the player
 * stats, replays its history, and stores the stats and the game.
 *
 * The rule engine's answers (the parsed recording's hash, the final game
 * state, the history of boards) and the OAuth session restore are inputs, as
 * are the outcomes of every remote call (`Net`), the clock and the new TID.
 */
module Agent {
  import opened Wrappers
  import opened Records
  import opened RuleEngine
  import opened Idb
  import opened Remote
  import opened RepoSync
  import opened StatsReplay

  datatype StorageRequest = GameCompleted(gameHistory: string, did: Option<Did>)

  datatype StorageResponse = Success | AlreadySynced | Error(error: StorageError)

  const NO_STATS: string := "No stats found. Good chance they were never created if syncing is off. Or something much worse now."

  /**
   * What the rule engine makes of the recording: the parse (giving the
   * recording's `game_hash`), the final state and the reconstructed history;
   * each may fail with the engine's message.
   */
  datatype Engine = Engine(
    parsed: Result<string, string>,
    finalState: Result<GameState, string>,
    history: Result<seq<Board>, string>)

  /** The outcomes of the remote calls the flow can make, in order. */
  datatype Net = Net(
    syncReachable: bool,
    syncCreateAccepted: bool,
    updateReachable: bool,
    updateCreateAccepted: bool,
    statsPutAccepted: bool,
    gameCreateAccepted: bool)

  /** `response.unwrap_or_else(|e| StorageResponse::Error(e))`. */
  function Respond(r: Result<StorageResponse, StorageError>): (resp: StorageResponse)
    ensures r.Ok? ==> resp == r.value
    ensures r.Err? ==> resp == StorageResponse.Error(r.error)
  {
    match r
    case Ok(v) => v
    case Err(e) => StorageResponse.Error(e)
  }

  /** The game record built from the final state, flag optimistically true and no hash yet. */
  function NewGameRecord(gs: GameState, gameHistory: string, now: Datetime): GameRecord {
    GameRecord(gs.over, now, gs.scoreCurrent, gameHistory, SyncStatus(now, "", true, now), gs.won)
  }

  /** The games store already holds this recording and it does not need to be stored again. */
  ghost predicate AlreadySaved(games: Store, gameHash: string, remote: bool) {
    exists k :: IsFirstMatch(games, gameHash, k) && (games[k].entry.record.syncStatus.syncedWithAtRepo || !remote)
  }

  /** The stats a successful completion stores, before the push settles flag and hash. */
  function Completed(counted: PlayerStats, gs: GameState, history: seq<Board>, now: Datetime): PlayerStats {
    var s := Replayed(CountGame(counted, gs.scoreCurrent, gs.board), history);
    s.(syncStatus := s.syncStatus.(updatedAt := now))
  }

  /** The dedup check of `handle_game_completed`. */
  method CheckSaved(db: LocalDb, gameHash: string, remote: bool) returns (r: Result<bool, StorageError>)
    requires db.Valid()
    ensures GAME_STORE !in db.stores ==> r == Err(StorageError.Error(NOT_FOUND_ERR))
    ensures GAME_STORE in db.stores ==> r == Ok(AlreadySaved(db.stores[GAME_STORE], gameHash, remote))
  {
    var found := db.ObjectGetIndex(GAME_STORE, gameHash);
    match found
    case Err(e) => r := Err(StorageError.Error(e.ToString()));
    case Ok(None) =>
      r := Ok(false);
    case Ok(Some(saved)) =>
      ghost var games := db.stores[GAME_STORE];
      forall k | IsFirstMatch(games, gameHash, k)
        ensures k == saved.rkey
      {
        FirstMatchUnique(games, gameHash, k, saved.rkey);
      }
      r := Ok(saved.record.syncStatus.syncedWithAtRepo || !remote);
  }

  /**
   * The local stores after a successful completion: the stats slot holds the
   * game counted into `counted` and replayed, settled by the stats push; the
   * games store holds the new game under `tid`; nothing else changed.
   */
  ghost predicate StoredCompletion(before: Stores, after: Stores, hasher: Hasher, counted: PlayerStats, gs: GameState,
                                   history: seq<Board>, gameHistory: string, gameHash: string, now: Datetime, tid: string,
                                   statsSynced: bool, gameSynced: bool)
  {
    && GAME_STORE in before && STATS_STORE in before
    && after == before[STATS_STORE := before[STATS_STORE][SELF_KEY :=
                  AfterPush(hasher, StatsValue(Completed(counted, gs, history, now)), statsSynced)]]
                      [GAME_STORE := before[GAME_STORE][tid :=
                  EntryValue(GameEntry(tid, AfterPush(hasher, GameValue(NewGameRecord(gs, gameHistory, now)), gameSynced).game,
                                       gameHash))]]
  }

  /**
   * The stats a game was counted into: the stats sync chose `action` by
   * remote-wins reconciliation of the local stats in `before` against the
   * repository `records`, and `counted` is what that choice left in the
   * stats slot: the local stats kept, the remote stats taken, or fresh
   * zeroed ones.
   */
  ghost predicate CountedFrom(repo: AtRepoSync, before: Stores, records: map<AtUri, Value>, reachable: bool,
                              createAccepted: bool, counted: PlayerStats, action: SyncAction, now: Datetime)
    requires repo.WellFormed()
  {
    && repo.Reconciled(before, records, Stats, reachable, action)
    && match action
       case Keep => LocalSelf(before, Stats) == Some(StatsValue(counted))
       case TakeRemote(remote) => remote == StatsValue(counted)
       case CreateFresh =>
         StatsValue(counted) == AfterPush(repo.hasher, StatsValue(DefaultStats(now)), repo.client.Some? && createAccepted)
  }

  /**
   * The stats a game is counted into are the ones the sync settled on: the
   * remote stats whenever the repository answered and the local stats do not
   * carry their hash, the local stats when they do, and fresh ones exactly
   * when the fetch failed.
   */
  lemma CountedStatsAreSynced(repo: AtRepoSync, before: Stores, records: map<AtUri, Value>, reachable: bool,
                              createAccepted: bool, counted: PlayerStats, action: SyncAction, now: Datetime)
    requires repo.WellFormed()
    requires CountedFrom(repo, before, records, reachable, createAccepted, counted, action, now)
    ensures action == CreateFresh <==> !(repo.CanRemoteSync() && reachable && repo.SelfUri(Stats) in records)
    ensures action != CreateFresh ==>
              && repo.CanRemoteSync() && reachable && repo.SelfUri(Stats) in records
              && var remote := records[repo.SelfUri(Stats)];
                 && IsSynced(remote)
                 && (action == Keep <==> LocalSelf(before, Stats).Some?
                                         && IsSynced(LocalSelf(before, Stats).value)
                                         && SyncOf(LocalSelf(before, Stats).value).hash == SyncOf(remote).hash)
                 && (action == Keep ==> LocalSelf(before, Stats) == Some(StatsValue(counted)))
                 && (action.TakeRemote? ==> remote == StatsValue(counted))
  {
  }

  /** The local stores after the stats sync chose `action` and left `counted` in the stats slot. */
  function SyncedStores(before: Stores, counted: PlayerStats, action: SyncAction): Stores
    requires STATS_STORE in before
  {
    if action == Keep then before else WithSelf(before, STATS_STORE, StatsValue(counted))
  }

  /**
   * Sync the stats and read them back. A failed sync is only logged: the
   * error reported is the one the read-back meets.
   */
  method SyncAndReadStats(db: LocalDb, pds: Pds, repo: AtRepoSync, net: Net, now: Datetime)
    returns (r: Result<PlayerStats, StorageError>, ghost action: SyncAction)
    requires repo.WellFormed() && db.Valid() && pds.Valid()
    modifies db, pds
    ensures db.Valid() && pds.Valid()
    ensures STATS_STORE !in old(db.stores) ==>
              r == Err(StorageError.Error(ThereWasAnError(NOT_FOUND_ERR).ToString())) && unchanged(db, pds)
    ensures STATS_STORE in old(db.stores) && SELF_KEY in old(db.stores)[STATS_STORE]
            && !Stats.Holds(old(db.stores)[STATS_STORE][SELF_KEY]) ==>
              r == Err(StorageError.Error(ThereWasAnError(DESERIALISE_ERR).ToString())) && unchanged(db, pds)
    ensures r.Err? ==> r.error.Error? && db.stores == old(db.stores) && pds.records == old(pds.records)
    ensures r.Ok? ==>
              && CountedFrom(repo, old(db.stores), old(pds.records), net.syncReachable, net.syncCreateAccepted, r.value,
                             action, now)
              && db.stores == SyncedStores(old(db.stores), r.value, action)
              && pds.records == repo.SyncedRecords(old(pds.records), Stats, action, net.syncCreateAccepted, now)
              && (repo.client.None? ==> action == CreateFresh)
  {
    var statsSync;
    statsSync, action := repo.SyncStats(db, pds, net.syncReachable, net.syncCreateAccepted, now);
    var local := repo.GetLocalSelf(db, Stats);
    if local.Err? {
      return Err(StorageError.Error(local.error.ToString())), action;
    }
    if local.value.None? {
      return Err(StorageError.Error(NO_STATS)), action;
    }
    r := Ok(local.value.value.stats);
  }

  /**
   * The repository after `PersistCompletion`, from the records `before` it:
   * the stats update's own sync (a fresh create when its fetch failed), then
   * the stats `putRecord` and the game `createRecord`, each when accepted.
   */
  function PersistedRecords(repo: AtRepoSync, before: map<AtUri, Value>, updateAction: SyncAction, stats: PlayerStats,
                            record: GameRecord, net: Net, now: Datetime, tid: string): map<AtUri, Value>
    requires repo.WellFormed()
  {
    var synced := repo.SyncedRecords(before, Stats, updateAction, net.updateCreateAccepted, now);
    var put := if repo.client.Some? && net.statsPutAccepted
               then synced[repo.SelfUri(Stats) := Stamp(repo.hasher, StatsValue(stats))]
               else synced;
    if repo.client.Some? && net.gameCreateAccepted
    then put[AtUri(repo.usersDid.value, GAME_NSID, tid) := Stamp(repo.hasher, GameValue(record))]
    else put
  }

  /**
   * A completion pushes the stats and the game exactly when those writes are
   * accepted, and touches no other record of the repository besides the
   * stats, which the update's own sync may recreate.
   */
  lemma CompletionPushes(repo: AtRepoSync, before: map<AtUri, Value>, updateAction: SyncAction, stats: PlayerStats,
                         record: GameRecord, net: Net, now: Datetime, tid: string, uri: AtUri)
    requires repo.WellFormed() && repo.CanRemoteSync()
    ensures var after := PersistedRecords(repo, before, updateAction, stats, record, net, now, tid);
            var statsUri := repo.SelfUri(Stats);
            var gameUri := AtUri(repo.usersDid.value, GAME_NSID, tid);
            && (net.gameCreateAccepted ==> gameUri in after && after[gameUri] == Stamp(repo.hasher, GameValue(record)))
            && (net.statsPutAccepted ==> statsUri in after && after[statsUri] == Stamp(repo.hasher, StatsValue(stats)))
            && (!net.statsPutAccepted ==>
                  after[statsUri := Stamp(repo.hasher, StatsValue(stats))]
                  == PersistedRecords(repo, before, updateAction, stats, record, net.(statsPutAccepted := true), now, tid))
            && (uri != statsUri && uri != gameUri ==> (uri in after <==> uri in before)
                                                      && (uri in before ==> after[uri] == before[uri]))
  {
  }

  /** Store the counted stats (after the stats push) and the new game (after the game push). */
  method PersistCompletion(db: LocalDb, pds: Pds, repo: AtRepoSync, stats: PlayerStats, record: GameRecord,
                           gameHash: string, net: Net, now: Datetime, tid: string)
    returns (r: Result<(), StorageError>, ghost updateAction: SyncAction)
    requires repo.WellFormed() && db.Valid() && pds.Valid()
    modifies db, pds
    ensures db.Valid() && pds.Valid()
    ensures r.Err? ==> r.error.Error?
    ensures r.Ok? ==>
              && STATS_STORE in old(db.stores) && GAME_STORE in old(db.stores)
              && repo.Reconciled(old(db.stores), old(pds.records), Stats, net.updateReachable, updateAction)
              && var dated := stats.(syncStatus := stats.syncStatus.(updatedAt := now));
                 var st := AfterPush(repo.hasher, StatsValue(dated), repo.client.Some? && net.statsPutAccepted);
                 var game := AfterPush(repo.hasher, GameValue(record), repo.client.Some? && net.gameCreateAccepted).game;
                 && db.stores == WithSelf(old(db.stores), STATS_STORE, st)[GAME_STORE := old(db.stores)[GAME_STORE][tid :=
                                    EntryValue(GameEntry(tid, game, gameHash))]]
                 && pds.records == PersistedRecords(repo, old(pds.records), updateAction, dated, record, net, now, tid)
  {
    var updated;
    updated, updateAction := repo.UpdateAPlayerStats(db, pds, stats, net.updateReachable, net.updateCreateAccepted,
                                                     net.statsPutAccepted, now);
    if updated.Err? {
      return Err(StorageError.Error(updated.error.ToString())), updateAction;
    }
    var created := repo.CreateANewGame(db, pds, record, tid, gameHash, net.gameCreateAccepted);
    if created.Err? {
      return Err(StorageError.Error(created.error.ToString())), updateAction;
    }
    r := Ok(());
  }

  /**
   * The part of `handle_game_completed` after the dedup: sync and read the
   * stats, count the game, replay the history, then store the stats and the
   * game.
   */
  method CountAndStore(db: LocalDb, pds: Pds, repo: AtRepoSync, gs: GameState, gameHistory: string, gameHash: string,
                       history: Result<seq<Board>, string>, net: Net, now: Datetime, tid: string)
    returns (r: Result<StorageResponse, StorageError>, ghost counted: PlayerStats, ghost action: SyncAction,
             ghost updateAction: SyncAction)
    requires repo.WellFormed() && db.Valid() && pds.Valid()
    modifies db, pds
    ensures db.Valid() && pds.Valid()
    ensures r.Err? ==> r.error.Error?
    ensures r.Ok? ==>
              && r.value == Success && history.Ok? && STATS_STORE in old(db.stores)
              && StoredCompletion(old(db.stores), db.stores, repo.hasher, counted, gs, history.value, gameHistory, gameHash,
                                  now, tid, repo.client.Some? && net.statsPutAccepted, repo.client.Some? && net.gameCreateAccepted)
              && CountedFrom(repo, old(db.stores), old(pds.records), net.syncReachable, net.syncCreateAccepted, counted,
                             action, now)
              && (repo.client.None? ==> action == CreateFresh)
              && var afterSync := repo.SyncedRecords(old(pds.records), Stats, action, net.syncCreateAccepted, now);
                 && repo.Reconciled(SyncedStores(old(db.stores), counted, action), afterSync, Stats, net.updateReachable,
                                    updateAction)
                 && pds.records == PersistedRecords(repo, afterSync, updateAction, Completed(counted, gs, history.value, now),
                                                    NewGameRecord(gs, gameHistory, now), net, now, tid)
  {
    updateAction := CreateFresh;
    var record := NewGameRecord(gs, gameHistory, now);
    var read;
    read, action := SyncAndReadStats(db, pds, repo, net, now);
    if read.Err? {
      return Err(read.error), DefaultStats(now), action, updateAction;
    }
    counted := read.value;
    ghost var afterSync := db.stores;
    var stats := CountGame(read.value, gs.scoreCurrent, gs.board);
    if history.Err? {
      return Err(StorageError.Error(history.error)), counted, action, updateAction;
    }
    stats := ReplayHistory(stats, history.value);
    var persisted;
    persisted, updateAction := PersistCompletion(db, pds, repo, stats, record, gameHash, net, now, tid);
    if persisted.Err? {
      return Err(persisted.error), counted, action, updateAction;
    }
    if action != Keep {
      WithSelfOverwrites(old(db.stores), STATS_STORE, StatsValue(counted),
                         AfterPush(repo.hasher, StatsValue(Completed(counted, gs, history.value, now)),
                                   repo.client.Some? && net.statsPutAccepted));
    }
    r := Ok(Success);
  }

  /** The repo a request works with: logged in with the restored session when it carries a DID, local-only otherwise. */
  function RepoFor(hasher: Hasher, did: Option<Did>, session: Result<RepoSync.Agent, string>): (repo: AtRepoSync)
    requires did.Some? ==> session.Ok?
    ensures repo.WellFormed() && repo.hasher == hasher
    ensures repo.CanRemoteSync() <==> did.Some?
    ensures did.Some? ==> repo.client == Some(session.value) && repo.usersDid == did
  {
    if did.None? then NewLocalRepo(hasher) else NewLoggedInRepo(session.value, did.value, hasher)
  }

  /**
   * `handle_game_completed`. The `counted`, `action` and `updateAction`
   * out-parameters name the stats the game was counted into, what the stats
   * sync did and what the stats update's own sync did.
   */
  method HandleGameCompleted(db: LocalDb, pds: Pds, hasher: Hasher, gameHistory: string, did: Option<Did>,
                             session: Result<RepoSync.Agent, string>, engine: Engine, net: Net,
                             now: Datetime, tid: string)
    returns (r: Result<StorageResponse, StorageError>, ghost counted: PlayerStats, ghost action: SyncAction,
             ghost updateAction: SyncAction)
    requires db.Valid() && pds.Valid()
    modifies db, pds
    ensures db.Valid() && pds.Valid()
    ensures r.Err? ==> r.error.Error?
    ensures r.Ok? ==> !r.value.Error?
    // A malformed recording or a failed session restore: nothing is touched.
    ensures engine.parsed.Err? ==> r == Err(StorageError.Error(engine.parsed.error)) && unchanged(db, pds)
    ensures engine.parsed.Ok? && did.Some? && session.Err? ==>
              r == Err(StorageError.Error(session.error)) && unchanged(db, pds)
    // The dedup: already saved iff a first match is synced, or the repo is local-only.
    ensures engine.parsed.Ok? && (did.None? || session.Ok?) && GAME_STORE in old(db.stores) ==>
              (r == Ok(AlreadySynced) <==> AlreadySaved(old(db.stores)[GAME_STORE], engine.parsed.value, did.Some?))
    ensures r == Ok(AlreadySynced) ==> unchanged(db, pds)
    ensures engine.parsed.Ok? && (did.None? || session.Ok?) && GAME_STORE in old(db.stores)
            && !AlreadySaved(old(db.stores)[GAME_STORE], engine.parsed.value, did.Some?)
            && engine.finalState.Err? ==>
              r == Err(StorageError.Error(engine.finalState.error)) && unchanged(db, pds)
    // Success: the counted stats and the new game are stored, nothing else changes locally.
    ensures r == Ok(Success) ==>
              && engine.parsed.Ok? && engine.finalState.Ok? && engine.history.Ok? && STATS_STORE in old(db.stores)
              && StoredCompletion(old(db.stores), db.stores, hasher, counted, engine.finalState.value, engine.history.value,
                                  gameHistory, engine.parsed.value, now, tid,
                                  did.Some? && net.statsPutAccepted, did.Some? && net.gameCreateAccepted)
              && (did.None? || session.Ok?)
              && CountedFrom(RepoFor(hasher, did, session), old(db.stores), old(pds.records), net.syncReachable,
                             net.syncCreateAccepted, counted, action, now)
              && (did.None? ==> action == CreateFresh)
              && var repo := RepoFor(hasher, did, session);
                 var afterSync := repo.SyncedRecords(old(pds.records), Stats, action, net.syncCreateAccepted, now);
                 && repo.Reconciled(SyncedStores(old(db.stores), counted, action), afterSync, Stats, net.updateReachable,
                                    updateAction)
                 && pds.records == PersistedRecords(repo, afterSync, updateAction,
                                                    Completed(counted, engine.finalState.value, engine.history.value, now),
                                                    NewGameRecord(engine.finalState.value, gameHistory, now), net, now, tid)
  {
    counted, action, updateAction := DefaultStats(now), CreateFresh, CreateFresh;
    if engine.parsed.Err? {
      return Err(StorageError.Error(engine.parsed.error)), counted, action, updateAction;
    }
    var gameHash := engine.parsed.value;
    if did.Some? && session.Err? {
      return Err(StorageError.Error(session.error)), counted, action, updateAction;
    }
    var repo := RepoFor(hasher, did, session);
    var saved := CheckSaved(db, gameHash, repo.CanRemoteSync());
    if saved.Err? {
      return Err(saved.error), counted, action, updateAction;
    }
    if saved.value {
      return Ok(AlreadySynced), counted, action, updateAction;
    }
    if engine.finalState.Err? {
      return Err(StorageError.Error(engine.finalState.error)), counted, action, updateAction;
    }
    r, counted, action, updateAction := CountAndStore(db, pds, repo, engine.finalState.value, gameHistory, gameHash, engine.history,
                                                      net, now, tid);
  }

  /** Among finitely many keys there is a least one in key order. */
  lemma {:induction false} LeastKeyExists(ks: set<string>)
    requires ks != {}
    ensures exists k :: k in ks && forall k' | k' in ks :: KeyLe(k, k')
    decreases |ks|
  {
    var x :| x in ks;
    var rest := ks - {x};
    if rest == {} {
      assert ks == rest + {x};
      assert ks == {x};
    } else {
      LeastKeyExists(rest);
      var m :| m in rest && forall k' | k' in rest :: KeyLe(m, k');
      if KeyLess(x, m) {
        forall k' | k' in ks ensures KeyLe(x, k') {
          if k' != x {
            KeyLeTransitive(x, m, k');
          }
        }
      } else {
        KeyLessTotal(x, m);
      }
    }
  }

  /** A games store holding an entry for the recording has a first match for it. */
  lemma FirstMatchExists(games: Store, gameHash: string, k: string)
    requires Matches(games, gameHash, k)
    ensures exists f :: IsFirstMatch(games, gameHash, f)
  {
    var ks := set k' | k' in games && Matches(games, gameHash, k');
    assert k in ks;
    LeastKeyExists(ks);
    var m :| m in ks && forall k' | k' in ks :: KeyLe(m, k');
    assert forall k' | Matches(games, gameHash, k') :: k' in ks;
    assert IsFirstMatch(games, gameHash, m);
  }

  /**
   * After a successful completion the games store holds the new game under
   * `tid` with the recording's hash, and every earlier entry for the same
   * recording is still there: a recording stored unsynced and completed
   * again while logged in ends up with two entries.
   */
  lemma CompletionAddsEntry(before: Stores, after: Stores, hasher: Hasher, counted: PlayerStats, gs: GameState,
                            history: seq<Board>, gameHistory: string, gameHash: string, now: Datetime, tid: string,
                            statsSynced: bool, gameSynced: bool, k: string)
    requires StoredCompletion(before, after, hasher, counted, gs, history, gameHistory, gameHash, now, tid,
                              statsSynced, gameSynced)
    ensures GAME_STORE in after && Matches(after[GAME_STORE], gameHash, tid)
    ensures k != tid && Matches(before[GAME_STORE], gameHash, k) ==> Matches(after[GAME_STORE], gameHash, k)
    ensures after[GAME_STORE][tid].entry.record.syncStatus.syncedWithAtRepo == gameSynced
  {
    AfterPushOutcome(hasher, GameValue(NewGameRecord(gs, gameHistory, now)), gameSynced);
  }

  /**
   * In local-only mode a completed recording is found on resubmission, so a
   * second completion of the same recording answers `AlreadySynced`.
   */
  lemma LocalResubmitIsAlreadySynced(before: Stores, after: Stores, hasher: Hasher, counted: PlayerStats, gs: GameState,
                                     history: seq<Board>, gameHistory: string, gameHash: string, now: Datetime,
                                     tid: string, statsSynced: bool, gameSynced: bool)
    requires StoredCompletion(before, after, hasher, counted, gs, history, gameHistory, gameHash, now, tid,
                              statsSynced, gameSynced)
    ensures GAME_STORE in after && AlreadySaved(after[GAME_STORE], gameHash, false)
  {
    CompletionAddsEntry(before, after, hasher, counted, gs, history, gameHistory, gameHash, now, tid,
                        statsSynced, gameSynced, tid);
    FirstMatchExists(after[GAME_STORE], gameHash, tid);
  }

  /**
   * In local-only mode every fetch fails, so the game is counted into fresh
   * zeroed stats: the stored stats show one game, this game's score as the
   * total, the average and the best score, and a least-moves record of 0.
   */
  lemma LocalModeCountsOnce(repo: AtRepoSync, before: Stores, records: map<AtUri, Value>, reachable: bool,
                            createAccepted: bool, counted: PlayerStats, action: SyncAction, gs: GameState,
                            history: seq<Board>, now: Datetime)
    requires repo.WellFormed() && repo.client.None?
    requires CountedFrom(repo, before, records, reachable, createAccepted, counted, action, now)
    ensures action == CreateFresh
    ensures var c := Completed(counted, gs, history, now);
            && c.gamesPlayed == 1
            && c.totalScore == gs.scoreCurrent
            && c.averageScore == gs.scoreCurrent
            && c.highestScore == gs.scoreCurrent
            && c.leastMovesToFindTwentyFortyEight == 0
            && c.timesTwentyFortyEightBeenFound == |Ids2048(Sightings(history))|
  {
    LocalSyncResets(repo, before, records, Stats, reachable, action);
    AfterPushOutcome(repo.hasher, StatsValue(DefaultStats(now)), false);
    assert counted == DefaultStats(now).(syncStatus := counted.syncStatus);
  }

  /** `StorageTask`: a database that cannot be opened is an `OpenDbError`; any other failure is reported as `Error`. */
  method StorageTask(db: LocalDb, pds: Pds, hasher: Hasher, request: StorageRequest, dbOpened: Result<(), string>,
                     session: Result<RepoSync.Agent, string>, engine: Engine, net: Net, now: Datetime, tid: string)
    returns (resp: StorageResponse)
    requires db.Valid() && pds.Valid()
    modifies db, pds
    ensures db.Valid() && pds.Valid()
    ensures dbOpened.Err? ==> resp == StorageResponse.Error(OpenDbError(dbOpened.error)) && unchanged(db, pds)
    ensures dbOpened.Ok? && engine.parsed.Err? ==> resp == StorageResponse.Error(StorageError.Error(engine.parsed.error))
    ensures resp.Error? && dbOpened.Ok? ==> resp.error.Error?
  {
    if dbOpened.Err? {
      return StorageResponse.Error(OpenDbError(dbOpened.error));
    }
    match request
    case GameCompleted(gameHistory, did) =>
      var r, counted, action, updateAction := HandleGameCompleted(db, pds, hasher, gameHistory, did, session, engine, net, now, tid);
      resp := Respond(r);
  }
}
