/**
 * The player-stats arithmetic of a completed game: counting the game
 * (games played, total and average score, best score, highest block on the
 * final board) and replaying every intermediate board of the recording to
 * track the highest block, the distinct 2048 tiles and the first turn a 2048
 * tile appeared.
 *
 * Counters are unbounded naturals; the source keeps them in `i64`.
 */
module StatsReplay {
  import opened Wrappers
  import opened Records
  import opened RuleEngine

  const TWENTY_FORTY_EIGHT: nat := 2048

  function Max(a: nat, b: nat): nat {
    if a < b then b else a
  }

  /** The occupied cells of one row, left to right (`filter_map` over a row). */
  function PresentRow(row: seq<Option<Tile>>): seq<Tile> {
    if |row| == 0 then []
    else PresentRow(row[..|row| - 1]) + (if row[|row| - 1].Some? then [row[|row| - 1].value] else [])
  }

  /** The occupied cells of a board in row-major order (`iter().flatten().filter_map(..)`). */
  function Present(tiles: seq<seq<Option<Tile>>>): seq<Tile> {
    if |tiles| == 0 then []
    else Present(tiles[..|tiles| - 1]) + PresentRow(tiles[|tiles| - 1])
  }

  lemma {:induction false} PresentRowExact(row: seq<Option<Tile>>, t: Tile)
    ensures t in PresentRow(row) <==> Some(t) in row
  {
    if |row| > 0 {
      PresentRowExact(row[..|row| - 1], t);
      assert row == row[..|row| - 1] + [row[|row| - 1]];
    }
  }

  /** A tile is listed exactly when some cell of the board holds it. */
  lemma {:induction false} PresentExact(tiles: seq<seq<Option<Tile>>>, t: Tile)
    ensures t in Present(tiles) <==> exists r | 0 <= r < |tiles| :: Some(t) in tiles[r]
  {
    if |tiles| > 0 {
      var n := |tiles| - 1;
      PresentExact(tiles[..n], t);
      PresentRowExact(tiles[n], t);
      if Some(t) in tiles[n] {
      } else if t in Present(tiles) {
        var r :| 0 <= r < n && Some(t) in tiles[..n][r];
        assert Some(t) in tiles[r];
      } else {
        forall r | 0 <= r < |tiles|
          ensures Some(t) !in tiles[r]
        {
          if r < n {
            assert tiles[..n][r] == tiles[r];
          }
        }
      }
    }
  }

  /** `.map(|x| x.value).max().unwrap_or(0)`. */
  function MaxValue(ts: seq<Tile>): (m: nat)
    ensures forall i | 0 <= i < |ts| :: ts[i].value <= m
    ensures |ts| == 0 ==> m == 0
    ensures |ts| > 0 ==> exists i | 0 <= i < |ts| :: ts[i].value == m
  {
    if |ts| == 0 then 0
    else
      var rest := MaxValue(ts[..|ts| - 1]);
      assert forall i | 0 <= i < |ts| - 1 :: ts[..|ts| - 1][i] == ts[i];
      Max(rest, ts[|ts| - 1].value)
  }

  /** The highest tile on a board, 0 on an empty board. */
  function HighestBlock(b: Board): nat {
    MaxValue(Present(b.tiles))
  }

  /** Counting a finished game, before the replay. */
  function CountGame(s: PlayerStats, score: nat, finalBoard: Board): PlayerStats {
    var games := s.gamesPlayed + 1;
    var total := s.totalScore + score;
    s.(gamesPlayed := games,
       totalScore := total,
       averageScore := total / games,
       highestNumberBlock := Max(s.highestNumberBlock, HighestBlock(finalBoard)),
       highestScore := Max(s.highestScore, score))
  }

  /**
   * One more game, its score in the total, the average the integer quotient
   * of the two, and the best score and highest block never lower than before
   * nor than this game's.
   */
  lemma CountGameOutcome(s: PlayerStats, score: nat, finalBoard: Board, t: Tile)
    ensures var c := CountGame(s, score, finalBoard);
            && c.gamesPlayed == s.gamesPlayed + 1
            && c.totalScore == s.totalScore + score
            && c.averageScore * c.gamesPlayed <= c.totalScore < (c.averageScore + 1) * c.gamesPlayed
            && c.highestScore >= s.highestScore && c.highestScore >= score
            && (c.highestScore == s.highestScore || c.highestScore == score)
            && c.highestNumberBlock >= s.highestNumberBlock
            && (t in Present(finalBoard.tiles) ==> c.highestNumberBlock >= t.value)
            && c.leastMovesToFindTwentyFortyEight == s.leastMovesToFindTwentyFortyEight
            && c.timesTwentyFortyEightBeenFound == s.timesTwentyFortyEightBeenFound
            && c.syncStatus == s.syncStatus && c.createdAt == s.createdAt
  {
    var c := CountGame(s, score, finalBoard);
    var q := c.totalScore / c.gamesPlayed;
    assert c.totalScore == q * c.gamesPlayed + c.totalScore % c.gamesPlayed;
  }

  // ---------------------------------------------------------------------
  // The replay, specified over the sequence of sightings: every occupied
  // cell of every history board, paired with the turn (1-based) of its board.
  // ---------------------------------------------------------------------

  datatype Sighting = Sighting(turn: nat, tile: Tile)

  function BoardSightings(turn: nat, ts: seq<Tile>): (ev: seq<Sighting>)
    ensures |ev| == |ts|
    ensures forall i | 0 <= i < |ts| :: ev[i] == Sighting(turn, ts[i])
  {
    if |ts| == 0 then []
    else BoardSightings(turn, ts[..|ts| - 1]) + [Sighting(turn, ts[|ts| - 1])]
  }

  function Sightings(history: seq<Board>): seq<Sighting> {
    if |history| == 0 then []
    else Sightings(history[..|history| - 1]) + BoardSightings(|history|, Present(history[|history| - 1].tiles))
  }

  /** The highest value sighted, 0 if none. */
  function MaxSeen(ev: seq<Sighting>): nat {
    if |ev| == 0 then 0 else Max(MaxSeen(ev[..|ev| - 1]), ev[|ev| - 1].tile.value)
  }

  /** The ids of the tiles sighted with value 2048. */
  function Ids2048(ev: seq<Sighting>): set<nat> {
    set i | 0 <= i < |ev| && ev[i].tile.value == TWENTY_FORTY_EIGHT :: ev[i].tile.id
  }

  /** The turn of the first sighting of a 2048 tile, 0 if there is none. */
  function First2048(ev: seq<Sighting>): nat {
    if |ev| == 0 then 0
    else if First2048(ev[..|ev| - 1]) != 0 then First2048(ev[..|ev| - 1])
    else if ev[|ev| - 1].tile.value == TWENTY_FORTY_EIGHT then ev[|ev| - 1].turn
    else 0
  }

  /** The stored least-moves record after a game whose first 2048 came at turn `first` (0: none). */
  function LeastAfter(stored: nat, first: nat): nat {
    if first != 0 && first < stored then first else stored
  }

  /** The stats after sighting `ev` in order. */
  function ReplayedOver(s: PlayerStats, ev: seq<Sighting>): PlayerStats {
    s.(highestNumberBlock := Max(s.highestNumberBlock, MaxSeen(ev)),
       timesTwentyFortyEightBeenFound := s.timesTwentyFortyEightBeenFound + |Ids2048(ev)|,
       leastMovesToFindTwentyFortyEight := LeastAfter(s.leastMovesToFindTwentyFortyEight, First2048(ev)))
  }

  /** The stats after replaying `history`. */
  function Replayed(s: PlayerStats, history: seq<Board>): PlayerStats {
    ReplayedOver(s, Sightings(history))
  }

  // Step lemmas: appending one sighting.

  lemma SightingStep(ev: seq<Sighting>, e: Sighting)
    ensures MaxSeen(ev + [e]) == Max(MaxSeen(ev), e.tile.value)
    ensures Ids2048(ev + [e]) == Ids2048(ev) + (if e.tile.value == TWENTY_FORTY_EIGHT then {e.tile.id} else {})
    ensures First2048(ev + [e])
            == if First2048(ev) != 0 then First2048(ev)
               else if e.tile.value == TWENTY_FORTY_EIGHT then e.turn else 0
  {
    assert (ev + [e])[..|ev|] == ev;
    var l := Ids2048(ev + [e]);
    var r := Ids2048(ev) + (if e.tile.value == TWENTY_FORTY_EIGHT then {e.tile.id} else {});
    forall x | x in l ensures x in r {
      var i :| 0 <= i < |ev + [e]| && (ev + [e])[i].tile.value == TWENTY_FORTY_EIGHT && (ev + [e])[i].tile.id == x;
      if i < |ev| {
        assert ev[i] == (ev + [e])[i];
      }
    }
    forall x | x in r ensures x in l {
      if x in Ids2048(ev) {
        var i :| 0 <= i < |ev| && ev[i].tile.value == TWENTY_FORTY_EIGHT && ev[i].tile.id == x;
        assert (ev + [e])[i] == ev[i];
      } else {
        assert (ev + [e])[|ev|] == e;
      }
    }
  }

  /** With every turn positive, the first-2048 turn is 0 exactly when no 2048 was sighted. */
  lemma {:induction false} First2048ZeroIff(ev: seq<Sighting>)
    requires forall i | 0 <= i < |ev| :: ev[i].turn >= 1
    ensures First2048(ev) == 0 <==> Ids2048(ev) == {}
    ensures First2048(ev) != 0 ==> exists i | 0 <= i < |ev| :: ev[i].turn == First2048(ev) && ev[i].tile.value == TWENTY_FORTY_EIGHT
  {
    if |ev| > 0 {
      var n := |ev| - 1;
      assert ev == ev[..n] + [ev[n]];
      First2048ZeroIff(ev[..n]);
      SightingStep(ev[..n], ev[n]);
      if First2048(ev[..n]) != 0 {
        var i :| 0 <= i < n && ev[..n][i].turn == First2048(ev[..n]) && ev[..n][i].tile.value == TWENTY_FORTY_EIGHT;
        assert ev[i] == ev[..n][i];
      }
    }
  }

  lemma {:induction false} SightingTurns(history: seq<Board>)
    ensures forall i | 0 <= i < |Sightings(history)| :: 1 <= Sightings(history)[i].turn <= |history|
  {
    if |history| > 0 {
      SightingTurns(history[..|history| - 1]);
    }
  }

  /** Every occupied cell of every history board is sighted, at that board's turn. */
  lemma {:induction false} SightingsCover(history: seq<Board>, k: nat, t: Tile)
    requires k < |history| && t in Present(history[k].tiles)
    ensures Sighting(k + 1, t) in Sightings(history)
  {
    var n := |history| - 1;
    if k < n {
      assert history[..n][k] == history[k];
      SightingsCover(history[..n], k, t);
    } else {
      var ts := Present(history[n].tiles);
      var j :| 0 <= j < |ts| && ts[j] == t;
      assert Sightings(history)[|Sightings(history[..n])| + j] == Sighting(n + 1, t);
    }
  }

  lemma {:induction false} MaxSeenBound(ev: seq<Sighting>, e: Sighting)
    requires e in ev
    ensures e.tile.value <= MaxSeen(ev)
  {
    var n := |ev| - 1;
    if e != ev[n] {
      assert ev == ev[..n] + [ev[n]];
      MaxSeenBound(ev[..n], e);
    }
  }

  /**
   * The replay never lowers the highest block or the stored least-moves
   * record, leaves the highest block at least every tile of every history
   * board, adds exactly the number of distinct 2048 tile ids, and changes the
   * least-moves record only to a strictly smaller first-2048 turn; a stored
   * 0 therefore never changes.
   */
  lemma ReplayedOutcome(s: PlayerStats, history: seq<Board>, k: nat, t: Tile)
    ensures var r := Replayed(s, history);
            && r.highestNumberBlock >= s.highestNumberBlock
            && (k < |history| && t in Present(history[k].tiles) ==> r.highestNumberBlock >= t.value)
            && r.timesTwentyFortyEightBeenFound == s.timesTwentyFortyEightBeenFound + |Ids2048(Sightings(history))|
            && r.leastMovesToFindTwentyFortyEight <= s.leastMovesToFindTwentyFortyEight
            && (r.leastMovesToFindTwentyFortyEight != s.leastMovesToFindTwentyFortyEight ==>
                  && 0 < r.leastMovesToFindTwentyFortyEight <= |history|
                  && r.leastMovesToFindTwentyFortyEight == First2048(Sightings(history)))
            && (s.leastMovesToFindTwentyFortyEight == 0 ==> r.leastMovesToFindTwentyFortyEight == 0)
            && r.gamesPlayed == s.gamesPlayed && r.totalScore == s.totalScore
            && r.averageScore == s.averageScore && r.highestScore == s.highestScore
  {
    var ev := Sightings(history);
    if k < |history| && t in Present(history[k].tiles) {
      SightingsCover(history, k, t);
      MaxSeenBound(ev, Sighting(k + 1, t));
    }
    SightingTurns(history);
    First2048ZeroIff(ev);
  }

  /** A history without a 2048 tile leaves the 2048 counters alone; one with a 2048 tile counts at least one. */
  lemma Replayed2048Found(s: PlayerStats, history: seq<Board>)
    ensures var r := Replayed(s, history);
            Ids2048(Sightings(history)) == {} <==>
              && r.timesTwentyFortyEightBeenFound == s.timesTwentyFortyEightBeenFound
              && First2048(Sightings(history)) == 0
  {
    SightingTurns(history);
    First2048ZeroIff(Sightings(history));
  }

  /**
   * The state of the replay loop after the sightings `ev`: the stats so far,
   * the 2048 ids seen this game and the first-2048 turn.
   */
  ghost predicate ReplayState(stats: PlayerStats, r: PlayerStats, seen: seq<nat>, turnsTill2048: nat, ev: seq<Sighting>) {
    && r == ReplayedOver(stats, ev)
    && (forall x :: x in seen <==> x in Ids2048(ev))
    && turnsTill2048 == First2048(ev)
    && (forall i | 0 <= i < |ev| :: ev[i].turn >= 1)
  }

  /** The body of the inner replay loop: one occupied cell at turn `turns`. */
  method SightTile(ghost stats: PlayerStats, r: PlayerStats, seen: seq<nat>, turnsTill2048: nat, turns: nat, tile: Tile,
                   ghost ev: seq<Sighting>)
    returns (r': PlayerStats, seen': seq<nat>, turnsTill2048': nat)
    requires ReplayState(stats, r, seen, turnsTill2048, ev) && turns >= 1
    ensures ReplayState(stats, r', seen', turnsTill2048', ev + [Sighting(turns, tile)])
  {
    SightingStep(ev, Sighting(turns, tile));
    First2048ZeroIff(ev);
    r', seen', turnsTill2048' := r, seen, turnsTill2048;
    if tile.value > r'.highestNumberBlock {
      r' := r'.(highestNumberBlock := tile.value);
    }
    if tile.value == TWENTY_FORTY_EIGHT && tile.id !in seen' {
      if turnsTill2048' == 0 {
        turnsTill2048' := turns;
        if turns < r'.leastMovesToFindTwentyFortyEight {
          r' := r'.(leastMovesToFindTwentyFortyEight := turns);
        }
      }
      r' := r'.(timesTwentyFortyEightBeenFound := r'.timesTwentyFortyEightBeenFound + 1);
      seen' := seen' + [tile.id];
    }
    ghost var ev' := ev + [Sighting(turns, tile)];
    forall i | 0 <= i < |ev'| ensures ev'[i].turn >= 1 {
      if i < |ev| {
        assert ev'[i] == ev[i];
      }
    }
    assert r'.highestNumberBlock == Max(stats.highestNumberBlock, MaxSeen(ev'));
    assert r'.timesTwentyFortyEightBeenFound == stats.timesTwentyFortyEightBeenFound + |Ids2048(ev')|;
    assert r'.leastMovesToFindTwentyFortyEight == LeastAfter(stats.leastMovesToFindTwentyFortyEight, First2048(ev'));
  }

  /**
   * The replay loop of `handle_game_completed`: for each history board, one
   * more turn; for each occupied cell, raise the highest block; on a 2048
   * tile whose id is new this game, record the first turn (and lower the
   * least-moves record if this turn is smaller) and count it.
   */
  method ReplayHistory(stats: PlayerStats, history: seq<Board>) returns (r: PlayerStats)
    ensures r == Replayed(stats, history)
  {
    r := stats;
    var seen: seq<nat> := [];
    var turnsTill2048: nat := 0;
    var turns: nat := 0;
    while turns < |history|
      invariant turns <= |history|
      invariant ReplayState(stats, r, seen, turnsTill2048, Sightings(history[..turns]))
    {
      var board := history[turns];
      assert history[..turns + 1][..turns] == history[..turns];
      assert history[..turns + 1][turns] == board;
      ghost var before := Sightings(history[..turns]);
      turns := turns + 1;
      var present := Present(board.tiles);
      var j := 0;
      assert before + BoardSightings(turns, present[..0]) == before;
      while j < |present|
        invariant j <= |present|
        invariant ReplayState(stats, r, seen, turnsTill2048, before + BoardSightings(turns, present[..j]))
      {
        ghost var ev := before + BoardSightings(turns, present[..j]);
        assert present[..j + 1] == present[..j] + [present[j]];
        assert before + BoardSightings(turns, present[..j + 1]) == ev + [Sighting(turns, present[j])];
        r, seen, turnsTill2048 := SightTile(stats, r, seen, turnsTill2048, turns, present[j], ev);
        j := j + 1;
      }
      assert present[..|present|] == present;
    }
    assert history[..|history|] == history;
  }
}
