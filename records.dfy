/**
 * The three synced record kinds of the `blue.2048` lexicon (profile, stats,
 * game), the local-storage wrapper around a game, and the content hash that
 * every synced record carries in its `sync_status`.
 *
 * The hash itself (xxh3 over the record's JSON serialisation, printed as hex)
 * is not modelled: a `Hasher` is any function from a record to a string, and
 * every operation takes the one in use as a parameter. The serialised form
 * includes the record's current `hash` field, so re-hashing a record that
 * already carries a hash hashes that hash too.
 */
module Records {
  import opened Wrappers

  /** An instant as handed out by `Datetime::now()`. */
  type Datetime = nat

  type Did = string

  datatype SyncStatus = SyncStatus(
    createdAt: Datetime,
    hash: string,
    syncedWithAtRepo: bool,
    updatedAt: Datetime)

  datatype PlayerProfile = PlayerProfile(
    createdAt: Datetime,
    soloPlay: bool,
    syncStatus: SyncStatus)

  datatype PlayerStats = PlayerStats(
    averageScore: nat,
    createdAt: Datetime,
    gamesPlayed: nat,
    highestNumberBlock: nat,
    highestScore: nat,
    leastMovesToFindTwentyFortyEight: nat,
    syncStatus: SyncStatus,
    timesTwentyFortyEightBeenFound: nat,
    totalScore: nat)

  datatype GameRecord = GameRecord(
    completed: bool,
    createdAt: Datetime,
    currentScore: nat,
    seededRecording: string,
    syncStatus: SyncStatus,
    won: bool)

  /** `RecordStorageWrapper<game::RecordData>`: a game as kept in the local games store. */
  datatype GameEntry = GameEntry(rkey: string, record: GameRecord, indexHash: string)

  /**
   * Anything the local store or the remote repository can hold. `OtherValue`
   * stands for the contents of the stores this model does not look into
   * (OAuth sessions and states, DID documents, keys).
   */
  datatype Value =
    | ProfileValue(profile: PlayerProfile)
    | StatsValue(stats: PlayerStats)
    | GameValue(game: GameRecord)
    | EntryValue(entry: GameEntry)
    | OtherValue(json: string)

  /** xxh3 of the serialised record, formatted with `{:x}`. */
  type Hasher = Value -> string

  /** The record kinds that carry a `sync_status` (`KnownRecord` in the source). */
  predicate IsSynced(v: Value) {
    v.ProfileValue? || v.StatsValue? || v.GameValue?
  }

  function SyncOf(v: Value): SyncStatus
    requires IsSynced(v)
  {
    match v
    case ProfileValue(p) => p.syncStatus
    case StatsValue(s) => s.syncStatus
    case GameValue(g) => g.syncStatus
  }

  /** The same record with its `sync_status` replaced; the kind is kept. */
  function WithSync(v: Value, s: SyncStatus): (r: Value)
    requires IsSynced(v)
    ensures IsSynced(r) && SyncOf(r) == s
    ensures r.ProfileValue? == v.ProfileValue? && r.StatsValue? == v.StatsValue? && r.GameValue? == v.GameValue?
  {
    match v
    case ProfileValue(p) => ProfileValue(p.(syncStatus := s))
    case StatsValue(st) => StatsValue(st.(syncStatus := s))
    case GameValue(g) => GameValue(g.(syncStatus := s))
  }

  /** `record.sync_status.hash = format!("{:x}", xxh3(serde_json::to_string(&record)))`. */
  function Stamp(h: Hasher, v: Value): Value
    requires IsSynced(v)
  {
    WithSync(v, SyncOf(v).(hash := h(v)))
  }

  /**
   * The second phase of a push: the flag takes the push outcome and, only
   * when the push failed, the hash is computed again over the record as it is
   * now (flag false, optimistic hash still in place).
   */
  function Settle(h: Hasher, v: Value, synced: bool): Value
    requires IsSynced(v)
  {
    var flagged := WithSync(v, SyncOf(v).(syncedWithAtRepo := synced));
    if synced then flagged else Stamp(h, flagged)
  }

  /** The record stored locally after hashing `v`, pushing it, and learning the push outcome. */
  function AfterPush(h: Hasher, v: Value, synced: bool): Value
    requires IsSynced(v)
  {
    Settle(h, Stamp(h, v), synced)
  }

  /**
   * The two-phase hash: the stored flag is the push outcome; the optimistic
   * hash survives exactly when the push succeeded; otherwise the hash is the
   * hash of the final record; nothing outside the flag and the hash changes;
   * and a record whose flag was already true is stored exactly as it was pushed.
   */
  lemma AfterPushOutcome(h: Hasher, v: Value, synced: bool)
    requires IsSynced(v)
    ensures IsSynced(AfterPush(h, v, synced))
    ensures SyncOf(AfterPush(h, v, synced)).syncedWithAtRepo == synced
    ensures synced ==> SyncOf(AfterPush(h, v, synced)).hash == h(v)
    ensures !synced ==> SyncOf(AfterPush(h, v, synced)).hash
                        == h(WithSync(Stamp(h, v), SyncOf(v).(hash := h(v), syncedWithAtRepo := false)))
    ensures WithSync(AfterPush(h, v, synced), SyncOf(v)) == v
    ensures SyncOf(AfterPush(h, v, synced)).createdAt == SyncOf(v).createdAt
    ensures SyncOf(AfterPush(h, v, synced)).updatedAt == SyncOf(v).updatedAt
    ensures synced && SyncOf(v).syncedWithAtRepo ==> AfterPush(h, v, synced) == Stamp(h, v)
  {
    match v
    case ProfileValue(p) =>
    case StatsValue(s) =>
    case GameValue(g) =>
  }

  /**
   * `_set_synced_status`: a game is returned untouched; a profile or stats
   * record gets the flag, a fresh `updated_at` and a hash over the result;
   * anything else is not a known record.
   */
  function SetSyncedStatus(h: Hasher, v: Value, synced: bool, now: Datetime): Option<Value> {
    match v
    case GameValue(_) => Some(v)
    case ProfileValue(_) => Some(Stamp(h, WithSync(v, SyncOf(v).(syncedWithAtRepo := synced, updatedAt := now))))
    case StatsValue(_) => Some(Stamp(h, WithSync(v, SyncOf(v).(syncedWithAtRepo := synced, updatedAt := now))))
    case _ => None
  }

  lemma SetSyncedStatusOutcome(h: Hasher, v: Value, synced: bool, now: Datetime)
    ensures SetSyncedStatus(h, v, synced, now).None? <==> !IsSynced(v)
    ensures v.GameValue? ==> SetSyncedStatus(h, v, synced, now) == Some(v)
    ensures (v.ProfileValue? || v.StatsValue?) ==>
              var r := SetSyncedStatus(h, v, synced, now).value;
              var flagged := WithSync(v, SyncOf(v).(syncedWithAtRepo := synced, updatedAt := now));
              && IsSynced(r)
              && SyncOf(r).syncedWithAtRepo == synced
              && SyncOf(r).updatedAt == now
              && SyncOf(r).createdAt == SyncOf(v).createdAt
              && SyncOf(r).hash == h(flagged)
              && WithSync(r, SyncOf(v)) == v
  {
    match v
    case ProfileValue(p) =>
    case StatsValue(s) =>
    case _ =>
  }

  /** The profile `create_a_new_player_profile` starts from: every timestamp `now`, empty hash, flag true. */
  function DefaultProfile(now: Datetime): PlayerProfile {
    PlayerProfile(now, false, SyncStatus(now, "", true, now))
  }

  /** The stats `create_a_new_player_stats` starts from: every counter zero. */
  function DefaultStats(now: Datetime): PlayerStats {
    PlayerStats(0, now, 0, 0, 0, 0, SyncStatus(now, "", true, now), 0, 0)
  }
}
