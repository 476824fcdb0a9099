# at_2048 record synchronisation, stats replay and presentation helpers, in Dafny

This project models the core of the at_2048 web app. The app is a 2048 game that keeps a player's profile, statistics and finished games in the browser's IndexedDB. When the player is logged in, it mirrors them to the player's AT Protocol repository under the `blue.2048.*` collections.

The model covers five parts of the app:

- **The local store** (`idb.dfy`). It holds the eight object stores of the `2048` database, and a secondary `index_hash` index on the `games` store. The model states `transaction_put`, `object_get`, `object_get_index`, `object_delete`, `clear_store` and the upgrade in `create_database`.
- **The remote repository** (`remote.dfy`). It is a map from `at://` URIs to records, read with `getRecord` and written with `createRecord`/`putRecord`. Whether the server answers, and whether it accepts a write, are inputs.
- **The sync engine** (`at_repo_sync.dfy`). `AtRepoSync` covers a client, a DID and the record hasher. It covers the remote-wins reconciliation of the profile and the stats, the creation of fresh default records with the two-phase hash, the stats update, and the storage of a new game with its index hash.
- **The completion flow** (`agent.dfy`, `stats_replay.dfy`). The worker's `StorageTask` and `handle_game_completed` cover the parse, the dedup through the index, the stats sync, the counters, the replay of every intermediate board, and the writes of the stats and the new game.
- **The presentation helpers** (`game_page.dfy`, `image_routes.dfy`, with `decimal.dfy`). These cover the Tailwind class tables, the emoji share board, swipe classification, the reducer's hiscore and disallowed-move rules, and the save of the in-progress game. They also cover the share image's colour tables, geometry and nested drawing loops.

The 2048 rule engine (recording parser, replay, game hash), the record hasher (xxh3 over serde JSON) and the clock are outside the model. The engine and the hasher are parameters: `Hasher = Value -> string`, engine results as `Result` values, and board histories as `seq<Board>`. The clock is one `now` parameter per operation.

## Model

| member | source | states |
|---|---|---|
| `Records.AfterPushOutcome` | app_2048/src/at_repo_sync/mod.rs:179-231 | The stored `synced_with_at_repo` is the push outcome. The optimistic hash, taken over the record as pushed, survives exactly when the push succeeded. Otherwise the hash is recomputed over the final record. Nothing outside the sync status changes. |
| `Records.SetSyncedStatusOutcome` | app_2048/src/at_repo_sync/mod.rs:100-132 | A game comes back untouched. A profile or stats record gets the flag and `updated_at`, and is rehashed over the flagged record. Anything else is not a known record. |
| `Idb.StorageError.ToString` | app_2048/src/idb.rs:81-88 | Both variants render as their inner message. |
| `Idb.GetAfterPut` | app_2048/src/idb.rs:90-170 | After a put under `k`, a get of `k` returns the item, overwriting any earlier value. Other keys and other stores read as before. |
| `Idb.GamePutKeyedByRkey` | app_2048/src/idb.rs:90-140 | A games-store put with no explicit key lands at the wrapper's `rkey`. A wrapper given an explicit key is refused with `DataError`. |
| `Idb.DeleteAndClearAreLocal` | app_2048/src/idb.rs:219-275 | A delete removes only that key of that store. A clear empties only that store. |
| `Idb.LocalDb.OnUpgradeNeeded` | app_2048/src/idb.rs:40-58 | Only the 0 to 1 upgrade creates the eight stores and an empty index. Any other version pair changes nothing. |
| `Idb.LocalDb.CreateDatabase` | app_2048/src/idb.rs:32-67 | Opening at version 1 lays out the stores on a fresh database, and leaves an existing version 1 as it is. A newer stored version fails with `VersionError`. |
| `Idb.LocalDb.TransactionPut` | app_2048/src/idb.rs:90-140 | The new stores are `PutSpec` of the old ones, or the error it names with nothing changed. The `index_hash` index stays in step with the games store. |
| `Idb.LocalDb.ObjectGet` | app_2048/src/idb.rs:142-170 | The answer is the stored value, `Ok(None)` for an absent key, or `NotFoundError` for a missing store. |
| `Idb.LocalDb.ObjectGetIndex` | app_2048/src/idb.rs:172-217 | The answer is `None` exactly when no game has that index hash. Otherwise it is the stored entry with the least key among those that match, which is where the cursor opens first. Only the games store has the index. |
| `Idb.LocalDb.ObjectDelete` | app_2048/src/idb.rs:219-246 | The new stores are `DeleteSpec` of the old ones, or `NotFoundError` with nothing changed. The index stays in step with the games store. |
| `Idb.LocalDb.ClearStore` | app_2048/src/idb.rs:248-275 | The new stores are `ClearSpec` of the old ones, or `NotFoundError` with nothing changed. The index stays in step with the games store. |
| `Remote.FetchAfterWrite` | app_2048/src/at_repo_sync/mod.rs:142-160 | A record written to the repository reads back as written. Other URIs read as before. An unreachable server always fails. |
| `Remote.Pds.GetRecord` | app_2048/src/at_repo_sync/mod.rs:142-160 | The answer is `Fetch` of the repository: the stored record when the server is reachable and holds the URI, `RecordNotFound` when it does not hold it, and a request failure when it cannot be reached. A record read back fits its collection. |
| `Remote.Pds.Write` | app_2048/src/at_repo_sync/mod.rs:188-214 | The record is stored under the URI exactly when the server accepts the write. |
| `RepoSync.SyncError.ToString` | app_2048/src/at_repo_sync/mod.rs:50-62 | Each error renders with its `Display` text and its message. |
| `RepoSync.SelfRecord.Fresh` | app_2048/src/at_repo_sync/mod.rs:168-178 | A fresh default profile or stats record is the right kind for its collection, with the flag set optimistically. |
| `RepoSync.SelfRecordLayout` | app_2048/src/at_repo_sync/mod.rs:245-261 | The profile and the stats live under distinct non-game stores of the initial layout, and distinct NSIDs. |
| `RepoSync.ReconcileSettles` | app_2048/src/at_repo_sync/mod.rs:280-305 | On a successful fetch the local record ends up with the remote hash. Nothing is written exactly when the local hash equals the remote one. A second sync against the same remote record is a no-op. |
| `RepoSync.ReconcileFailedFetch` | app_2048/src/at_repo_sync/mod.rs:308-312 | A failed fetch discards whatever is stored locally in favour of a fresh default. |
| `RepoSync.AtRepoSync.GetRemoteRecord` | app_2048/src/at_repo_sync/mod.rs:134-163 | With no client, the answer is `ThereWasAnError("No client")` and no call is made. Otherwise the answer is the record, or an `AtRepoCallError`. It equals `RemoteRecord`, the answer the sync contracts reconcile against. |
| `RepoSync.AtRepoSync.GetLocalSelf` | app_2048/src/at_repo_sync/mod.rs:245-261 | The answer is the record under `self`, `None` when absent, or the store error. |
| `RepoSync.AtRepoSync.Push` | app_2048/src/at_repo_sync/mod.rs:184-216 | The push result is true exactly when there is a client and the server accepts the write, and the record is written then. |
| `RepoSync.AtRepoSync.CreateSelf` | app_2048/src/at_repo_sync/mod.rs:165-243 | The default record is pushed once. It is stored locally with the push outcome as its flag, rehashed when the push failed, and overwrites any local record. |
| `RepoSync.AtRepoSync.CreateANewPlayerProfile` | app_2048/src/at_repo_sync/mod.rs:165-243 | The profile version of `CreateSelf`. |
| `RepoSync.AtRepoSync.CreateANewPlayerStats` | app_2048/src/at_repo_sync/mod.rs:317-401 | The stats version of `CreateSelf`, so every counter is 0. |
| `RepoSync.AtRepoSync.SyncSelf` | app_2048/src/at_repo_sync/mod.rs:263-314 | On success, the action is `Reconcile` of the old local record and the repository's answer (`Reconciled`). A differing remote replaces the local record verbatim. An equal hash changes nothing. A missing local record takes the remote. A failed fetch creates a fresh default. The repository afterwards is `SyncedRecords`: it gains the fresh record when its create is accepted, and is otherwise unchanged. A missing store or a record of the wrong kind is returned as an error, and an error leaves both the local store and the remote repository as they were. |
| `RepoSync.AtRepoSync.SyncProfiles` | app_2048/src/at_repo_sync/mod.rs:263-314 | Every clause of `SyncSelf`, for the profile: the action is the remote-wins `Reconcile` of the local profile and the fetched one, each action's effect on both stores, the repository as `SyncedRecords`, and the two error cases with nothing changed. |
| `RepoSync.AtRepoSync.SyncStats` | app_2048/src/at_repo_sync/mod.rs:493-543 | Every clause of `SyncSelf`, for the stats: a differing remote hash replaces the local stats, an equal hash leaves them, absent local stats take the remote, a failed fetch recreates them, the repository is `SyncedRecords`, and errors change nothing. Without a client it always creates fresh zeroed stats. |
| `RepoSync.AtRepoSync.UpdateAPlayerStats` | app_2048/src/at_repo_sync/mod.rs:403-475 | It syncs the stats first and returns that error before any write: a missing stats store or a stored record of another kind fails, and an error leaves the local stores and the remote repository unchanged. Otherwise it stores the new stats with the put outcome as their flag, rehashed on failure. The repository is the one its sync left (`SyncedRecords` of the returned action), with the stamped new stats at the stats URI when the put is accepted, and nothing else changed. |
| `RepoSync.AtRepoSync.CreateANewGame` | app_2048/src/at_repo_sync/mod.rs:545-616 | It stores `{rkey: tid, record, index_hash: game hash}` in the games store at `tid`, with the create outcome as the flag. |
| `RepoSync.NewLoggedInRepo` | app_2048/src/at_repo_sync/mod.rs:80-86 | A logged-in repo can sync remotely and knows the DID. |
| `RepoSync.NewLocalRepo` | app_2048/src/at_repo_sync/mod.rs:88-94 | A local repo has no client and cannot sync remotely. |
| `RepoSync.LocalSyncResets` | app_2048/src/at_repo_sync/mod.rs:134-141 | For a repo without a client, the repository's answer is always `ThereWasAnError("No client")`, so every reconciled sync of that repo creates a fresh default. |
| `StatsReplay.PresentExact` | app_2048/src/agent.rs:169-177 | The flattened board holds exactly the tiles present in some row. |
| `StatsReplay.MaxValue` | app_2048/src/agent.rs:169-177 | The highest tile value on the board, 0 for an empty board. |
| `StatsReplay.CountGameOutcome` | app_2048/src/agent.rs:179-189 | Games played rises by one and the total by the score. The average is the integer quotient. Highest score and highest block never fall and cover this game. |
| `StatsReplay.BoardSightings` | app_2048/src/agent.rs:201-209 | Each tile of a board is seen once, at that board's 1-based turn. |
| `StatsReplay.First2048ZeroIff` | app_2048/src/agent.rs:214-219 | The first-2048 turn is 0 exactly when no tile reached 2048. Otherwise a tile with value 2048 was seen at that turn. |
| `StatsReplay.SightingTurns` | app_2048/src/agent.rs:200-202 | Turns run from 1 to the number of history boards. |
| `StatsReplay.SightingsCover` | app_2048/src/agent.rs:201-209 | Every tile of every history board is sighted at its turn. |
| `StatsReplay.MaxSeenBound` | app_2048/src/agent.rs:210-212 | The running highest block covers every tile sighted. |
| `StatsReplay.ReplayedOutcome` | app_2048/src/agent.rs:198-224 | Highest block never falls and covers every history tile. Times-found rises by exactly the number of distinct tile ids reaching 2048. Least-moves only falls, so a stored 0 stays 0. |
| `StatsReplay.Replayed2048Found` | app_2048/src/agent.rs:214-224 | Times-found stays put, and the first-2048 turn is 0, exactly when no tile reached 2048 in the history. |
| `StatsReplay.SightTile` | app_2048/src/agent.rs:209-224 | One pass of the inner loop keeps the replay state equal to the specification over one more sighting. |
| `StatsReplay.ReplayHistory` | app_2048/src/agent.rs:198-226 | The nested loops over the history compute exactly `Replayed(stats, history)`. |
| `Agent.Respond` | app_2048/src/agent.rs:70 | An `Err` becomes `StorageResponse::Error` with the same error. `Ok` passes through. |
| `Agent.CheckSaved` | app_2048/src/agent.rs:108-119 | The dedup answer is `AlreadySaved`: the first index match exists, and is synced or the repo cannot sync remotely. |
| `Agent.SyncAndReadStats` | app_2048/src/agent.rs:146-167 | A stats-sync failure is only logged: the error returned is the read-back's, `NotFoundError` for a missing store or the deserialisation error for a record of another kind, and nothing is changed then. On success the stats read are `CountedFrom` the sync: kept, taken from the repository or created fresh, as `Reconcile` picks. The local stores are `SyncedStores` and the repository `SyncedRecords` of that choice. |
| `Agent.PersistCompletion` | app_2048/src/agent.rs:228-241 | The stats are updated, then the game is created under `tid`. Either error is returned. On success both local stores are stated, and the repository is `PersistedRecords`: the update's own reconciled sync, then the stamped stats and the stamped game, each where its write was accepted. |
| `Agent.CompletionPushes` | app_2048/src/agent.rs:228-241 | After a completion, the repository holds the stamped game under `tid` when its create was accepted and the stamped stats when their put was accepted. Every other record, apart from the stats, is as before. |
| `Agent.CountAndStore` | app_2048/src/agent.rs:169-241 | The stored stats are the synced stats (`CountedFrom` the old local stats and the repository's answer), counted for this game and replayed over its history. The new game entry is stored. The repository is `PersistedRecords` after the first sync's `SyncedRecords`, with the update's sync reconciled against the state the first sync left. |
| `Agent.HandleGameCompleted` | app_2048/src/agent.rs:73-242 | A parse or session error returns before any store access. `AlreadySynced` comes back exactly when `AlreadySaved` holds, and then nothing is written. Success stores the new game and the stats counted from what the stats sync of `RepoFor` the request settled on. It also states the repository: the syncs' fresh creates, then the stamped stats and game where accepted, and nothing else. |
| `Agent.CompletionAddsEntry` | app_2048/src/agent.rs:117-119 | When an unsynced match exists and the remote can sync, the flow falls through. The game is counted again and a second entry with the same index hash is added. |
| `Agent.LocalResubmitIsAlreadySynced` | app_2048/src/agent.rs:112-116 | After a local-only completion, resubmitting the same recording answers `AlreadySynced`. |
| `Agent.LocalModeCountsOnce` | app_2048/src/agent.rs:146-182 | In local-only mode, stats `CountedFrom` the sync are fresh ones, so the stored stats show one game played, with total, average and highest score equal to this game's score. |
| `Agent.CountedStatsAreSynced` | app_2048/src/agent.rs:146-167 | The stats a game is counted into are fresh exactly when the fetch failed. Otherwise they are the local stats when these carry the remote hash, and the remote stats when they do not. |
| `Agent.RepoFor` | app_2048/src/agent.rs:83-98 | A request with a DID gets a logged-in repo with the restored session and that DID. A request without one gets a local-only repo. |
| `Agent.StorageTask` | app_2048/src/agent.rs:56-71 | A failed database open answers `Error(OpenDbError)`. Every other error is `StorageError::Error` wrapped into the response. |
| `GamePage.RowClass` | app_2048/src/pages/game.rs:252-297 | Row 0 gives `top-0`. Rows 1 to size-1 on 4, 5 and 6 wide boards give `top-row/size`. Anything else gives the empty string. |
| `GamePage.ColClass` | app_2048/src/pages/game.rs:252-297 | The same table with `left-`. |
| `GamePage.GetPositionClass` | app_2048/src/pages/game.rs:252-297 | The result is the row class, then one space, then the column class. |
| `GamePage.PositionClassSplits` | app_2048/src/pages/game.rs:252-297 | That space is the only space in the result. |
| `GamePage.BgColorAndTextColor` | app_2048/src/pages/game.rs:299-315 | Only an empty cell gets the background-only class. |
| `GamePage.BgColorFormula` | app_2048/src/pages/game.rs:299-315 | 2 to 1024 get the class pair named after the value in decimal. Every other non-zero value gets the 2048 pair. |
| `GamePage.GetFontSize` | app_2048/src/pages/game.rs:317-326 | Texts of 1, 2 and 3 UTF-8 bytes each get their own size. Every other length gets the smallest. |
| `GamePage.FontSizeOfValue` | app_2048/src/pages/game.rs:317-326 | Tile labels get their size by number of digits, and 4 digits or more gets the smallest. |
| `GamePage.Emoji` | app_2048/src/pages/game.rs:464-472 | No tile value maps to a line break. |
| `GamePage.EmojiBoard` | app_2048/src/pages/game.rs:460-482 | The output has n + n/4 characters. Tile i is at i + i/4, and a line break follows every fourth tile and sits nowhere else. |
| `GamePage.Swipe` | app_2048/src/pages/game.rs:709-727 | A swipe under 10 pixels both ways is ignored. It is horizontal exactly when the horizontal distance is larger, so ties go vertical. The sign picks the side. |
| `GamePage.SwipeReversed` | app_2048/src/pages/game.rs:709-727 | The reverse swipe gives the opposite direction. |
| `GamePage.ReduceDisallowed` | app_2048/src/pages/game.rs:57-67 | A disallowed move keeps the state, recording and hiscore. The message is "Game over" exactly when the game is over, and empty otherwise. |
| `GamePage.ReduceHiscore` | app_2048/src/pages/game.rs:69-104 | The hiscore never falls. A replayed move takes the new state, extends the recording by the move and raises the hiscore to the best score. A failed replay keeps everything. |
| `GamePage.HiscoreToDisplay` | app_2048/src/pages/game.rs:421 | The scoreboard shows the larger of the score and the hiscore. |
| `GamePage.SaveCurrentGame` | app_2048/src/pages/game.rs:126-199 | An empty `current_game` slot gets a new unsynced record with an empty hash. A stored game has only its score and recording replaced. A read error leaves everything unchanged. |
| `ImageRoutes.TileColor` | api_2048/src/image_routes.rs:16-31 | Every tile colour is opaque, and the default colour goes exactly to the values without a colour of their own. |
| `ImageRoutes.TileColorsDistinct` | api_2048/src/image_routes.rs:16-31 | Each of 2 to 2048 has a colour no other value has. |
| `ImageRoutes.TextColor` | api_2048/src/image_routes.rs:33-39 | Text is dark exactly for values up to 4, and light above. |
| `ImageRoutes.ImageDimension` | api_2048/src/image_routes.rs:93 | The image side is 110·n + 10. |
| `ImageRoutes.ClassicBoardFitsOgImage` | api_2048/src/share_routes.rs:9-10 | A 4-wide board gives exactly the announced 450 by 450 image. |
| `ImageRoutes.TileInside` | api_2048/src/image_routes.rs:113-117 | Every tile lies inside the image with at least 10 pixels to each edge. |
| `ImageRoutes.TilesApart` | api_2048/src/image_routes.rs:113-117 | Later rows and columns start at least 10 pixels after earlier ones end, so tiles never overlap. |
| `ImageRoutes.TileValue` | api_2048/src/image_routes.rs:115-118 | An absent tile counts as 0. |
| `ImageRoutes.FontScaleShrinks` | api_2048/src/image_routes.rs:133-135 | Longer labels never get a larger font. |
| `ImageRoutes.AbsentTileIsEmpty` | api_2048/src/image_routes.rs:115-130 | An absent tile draws the translucent empty square and no text. |
| `ImageRoutes.GridOpsWithinMargin` | api_2048/src/image_routes.rs:113-176 | Every tile and label drawn stays inside the image with the padding margin. |
| `ImageRoutes.GridFillCount` | api_2048/src/image_routes.rs:113-176 | Each of the n·n cells draws exactly one square. |
| `ImageRoutes.PaintCell` | api_2048/src/image_routes.rs:115-174 | One pass of the inner loop draws exactly that cell's operations. |
| `ImageRoutes.PaintRow` | api_2048/src/image_routes.rs:114-175 | The inner loop draws one row's cells, left to right. |
| `ImageRoutes.PaintGrid` | api_2048/src/image_routes.rs:113-176 | The outer loop draws every row, top to bottom. |
| `ImageRoutes.RequestErrorClasses` | api_2048/src/image_routes.rs:57-86 | A decode or parse failure is a bad request. A replay failure is an internal error. |
| `ImageRoutes.GenerateBoardImage` | api_2048/src/image_routes.rs:50-193 | It returns the request error, a font or encoding error, or a fresh square image of side `ImageDimension(width)` painted with `BoardOps` of the final board. |

## Left out

- Real I/O: IndexedDB, the AT Protocol XRPC client and `Database::open` are maps and outcome flags. `StorageTask` takes the open result as a parameter. Everywhere else the database is assumed to open, so the open failures inside the sync engine are not modelled. Neither is the panic on a failed open in `State::save`.
- Async and concurrency: every operation runs to completion alone. The save spawned from the reducer is a separate call, `SaveCurrentGame`.
- The worker codec and oneshot plumbing of the storage task are not modelled, and neither are OAuth session restore, login and DID resolution. A session restore is an input `Result`.
- The 2048 rule engine is not modelled: recording parse and serialisation, replay into a `GameState`, `reconstruct` and `game_hash`. Its results are inputs. `GamePage.Reduce` takes parse plus replay as one function, and assumes the parsed recording equals the one just serialised.
- Hashing and JSON serialisation: xxh3 over serde JSON is one uninterpreted `Hasher` over the whole record, including its current hash field. Remote records are assumed to deserialise as the collection's kind.
- Clocks and record keys: the several `Datetime::now()` calls in one operation share one `now`, and `Tid::now` is a `tid` parameter.
- Foreign error texts are fixed constant strings: IndexedDB's `NotFoundError`/`DataError`/`VersionError`, the XRPC errors, and the engine's `{:?}` messages.
- Integer widths: the source's `i64` counters and `u32`/`usize` geometry are unbounded naturals. Negative stored counters, and overflow on boards wider than about 39 million cells, are not modelled.
- String order: the index cursor's key order is the code-point order of Dafny strings. IndexedDB compares UTF-16 code units, which differs only for characters beyond the Basic Multilingual Plane.
- The share image's float glyph measurement and text centring are left out: a label is recorded at its tile's centre. Also left out are pixel rasterisation, PNG encoding, the HTTP response builder, and the warning when the board's height differs from its width.
- UI components, routing, the stats page, the seed page, theme picker, service worker and share-page templating are not modelled.
- `Agent.SyncAndReadStats`: a local put into an existing store never fails in the model, because quota and transaction failures of IndexedDB are not modelled. So after a stats sync the stats are always present when the store is, and the "No stats found" branch is unreachable, as is the `LocalRepoError` of a failed put in `SyncSelf`.
- `Remote.Pds.Write`: the server accepting `createRecord` for a record key that already exists is an input flag. The model does not derive it from the repository's contents.

Where the behaviour the app describes for itself and the code disagree, the model follows the code:

- The least-moves-to-2048 record is meant to take a game's first-2048 turn when unset. The code updates it only on a strictly smaller turn, and the default is 0, so it never changes (`StatsReplay.ReplayedOutcome`).
- Resubmitting a game is meant to be a no-op once it is fully processed. A stored but unsynced game with a reachable remote falls through instead: it is counted again and stored a second time (`Agent.CompletionAddsEntry`).
- The completion flow assumes the stats already exist. In local-only mode the stats sync always recreates them zeroed, so the stored stats show one game (`Agent.LocalModeCountsOnce`).
- The dedup key is the rule engine's `game_hash` of the parsed recording, not a hash of the raw string. It is an input here.
