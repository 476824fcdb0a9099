/**
 * The game page: its reducer (a move against the rule engine, with the
 * hiscore kept), the save of the in-progress game into the `current_game`
 * slot, and the small presentation helpers (Tailwind class tables for tile
 * position, colour and font size, the emoji share board, and the touch-swipe
 * classification).
 */
module GamePage {
  import opened Wrappers
  import opened Records
  import opened RuleEngine
  import opened Idb
  import opened Decimal

  // ---------------------------------------------------------------------
  // get_position_class
  // ---------------------------------------------------------------------

  /**
   * The `top-*` class of a row: `top-0` for the first row on any board, the
   * fraction `row/size` on 4x4, 5x5 and 6x6 boards, and nothing otherwise.
   */
  function RowClass(rowStart: nat, size: nat): (r: string)
    ensures r == if rowStart == 0 then "top-0"
                 else if 4 <= size <= 6 && rowStart < size then "top-" + NatStr(rowStart) + "/" + NatStr(size)
                 else ""
  {
    match (rowStart, size)
    case (0, _) => "top-0"
    case (1, 4) => "top-1/4"
    case (2, 4) => "top-2/4"
    case (3, 4) => "top-3/4"
    case (1, 5) => "top-1/5"
    case (2, 5) => "top-2/5"
    case (3, 5) => "top-3/5"
    case (4, 5) => "top-4/5"
    case (1, 6) => "top-1/6"
    case (2, 6) => "top-2/6"
    case (3, 6) => "top-3/6"
    case (4, 6) => "top-4/6"
    case (5, 6) => "top-5/6"
    case _ => ""
  }

  /** The `left-*` class of a column, on the same table as `RowClass`. */
  function ColClass(colStart: nat, size: nat): (r: string)
    ensures r == if colStart == 0 then "left-0"
                 else if 4 <= size <= 6 && colStart < size then "left-" + NatStr(colStart) + "/" + NatStr(size)
                 else ""
  {
    match (colStart, size)
    case (0, _) => "left-0"
    case (1, 4) => "left-1/4"
    case (2, 4) => "left-2/4"
    case (3, 4) => "left-3/4"
    case (1, 5) => "left-1/5"
    case (2, 5) => "left-2/5"
    case (3, 5) => "left-3/5"
    case (4, 5) => "left-4/5"
    case (1, 6) => "left-1/6"
    case (2, 6) => "left-2/6"
    case (3, 6) => "left-3/6"
    case (4, 6) => "left-4/6"
    case (5, 6) => "left-5/6"
    case _ => ""
  }

  /** The class names never hold a space, so the space `GetPositionClass` inserts is the only one. */
  lemma ClassesHaveNoSpace(rowStart: nat, colStart: nat, size: nat)
    ensures ' ' !in RowClass(rowStart, size) && ' ' !in ColClass(colStart, size)
  {
    NatStrHasNoSpace(rowStart);
    NatStrHasNoSpace(colStart);
    NatStrHasNoSpace(size);
  }

  /** `format!("{} {}", row_class, col_class)`: the row class, one space, the column class. */
  function GetPositionClass(rowStart: nat, colStart: nat, size: nat): (r: string)
    ensures |r| == |RowClass(rowStart, size)| + 1 + |ColClass(colStart, size)|
    ensures r[..|RowClass(rowStart, size)|] == RowClass(rowStart, size)
    ensures r[|RowClass(rowStart, size)| + 1..] == ColClass(colStart, size)
  {
    RowClass(rowStart, size) + " " + ColClass(colStart, size)
  }

  /** The position class splits at its single space into the row class and the column class. */
  lemma PositionClassSplits(rowStart: nat, colStart: nat, size: nat)
    ensures var r := GetPositionClass(rowStart, colStart, size);
            forall k | 0 <= k < |r| :: r[k] == ' ' <==> k == |RowClass(rowStart, size)|
  {
    var row := RowClass(rowStart, size);
    var col := ColClass(colStart, size);
    var r := GetPositionClass(rowStart, colStart, size);
    ClassesHaveNoSpace(rowStart, colStart, size);
    forall k | 0 <= k < |r|
      ensures r[k] == ' ' <==> k == |row|
    {
      if k < |row| {
        assert r[k] == row[k];
      } else if k > |row| {
        assert r[k] == col[k - |row| - 1];
      }
    }
  }

  // ---------------------------------------------------------------------
  // get_bg_color_and_text_color, get_font_size
  // ---------------------------------------------------------------------

  /** The tile values with a colour class of their own (besides 0 and 2048). */
  predicate OwnColour(v: nat) {
    v == 2 || v == 4 || v == 8 || v == 16 || v == 32 || v == 64 || v == 128 || v == 256 || v == 512 || v == 1024
  }

  /** The value a tile's colour classes are named after: its own, or 2048 for values without one. */
  function ColourName(tileSize: nat): string {
    match tileSize
    case 2 => "2"
    case 4 => "4"
    case 8 => "8"
    case 16 => "16"
    case 32 => "32"
    case 64 => "64"
    case 128 => "128"
    case 256 => "256"
    case 512 => "512"
    case 1024 => "1024"
    case _ => "2048"
  }

  /**
   * An empty cell has a background class only; 2 up to 1024 have the
   * background and text classes named after the value; every other value
   * (2048 and anything beyond) shares the 2048 classes.
   */
  function BgColorAndTextColor(tileSize: nat): (r: string)
    ensures tileSize == 0 <==> r == "bg-light-grid-cell-0"
  {
    if tileSize == 0 then "bg-light-grid-cell-0"
    else
      var name := ColourName(tileSize);
      var r := "bg-light-grid-cell-" + name + " text-light-grid-cell-text-" + name;
      assert |r| > |"bg-light-grid-cell-0"|;
      r
  }

  /** The class pair is named after the tile value, with 2048 standing for every value without its own. */
  lemma BgColorFormula(tileSize: nat)
    ensures OwnColour(tileSize) ==>
              BgColorAndTextColor(tileSize) == "bg-light-grid-cell-" + NatStr(tileSize) + " text-light-grid-cell-text-" + NatStr(tileSize)
    ensures tileSize != 0 && !OwnColour(tileSize) ==>
              BgColorAndTextColor(tileSize) == "bg-light-grid-cell-" + NatStr(2048) + " text-light-grid-cell-text-" + NatStr(2048)
  {
    NatStrOfSmallTiles();
    NatStrOfLargeTiles();
  }

  /** The number of bytes `c` takes in UTF-8. */
  function Utf8Width(c: char): nat {
    if c as int < 0x80 then 1 else if c as int < 0x800 then 2 else if c as int < 0x1_0000 then 3 else 4
  }

  /** `str::len`: the length of `s` in UTF-8 bytes. */
  function Utf8Len(s: string): (n: nat)
    ensures n >= |s|
    ensures (forall i | 0 <= i < |s| :: s[i] as int < 0x80) ==> n == |s|
  {
    if |s| == 0 then 0 else Utf8Len(s[..|s| - 1]) + Utf8Width(s[|s| - 1])
  }

  const FONT_ONE: string := "text-[4rem] md:text-[4rem]"
  const FONT_TWO: string := "text-[3.2rem] md:text-[4rem] lg:text-[4rem]"
  const FONT_THREE: string := "text-[2.5rem] md:text-[4rem] lg:text-[4rem]"
  const FONT_SMALL: string := "text-[1.5rem] md:text-[3.6rem] lg:text-[3.4rem]"

  /**
   * Texts of 1, 2 and 3 bytes each get their own size, and every other
   * length (empty, or 4 and more) the smallest one.
   */
  function GetFontSize(text: string): (r: string)
    ensures Utf8Len(text) == 1 <==> r == FONT_ONE
    ensures Utf8Len(text) == 2 <==> r == FONT_TWO
    ensures Utf8Len(text) == 3 <==> r == FONT_THREE
    ensures !(1 <= Utf8Len(text) <= 3) <==> r == FONT_SMALL
  {
    match Utf8Len(text)
    case 1 => FONT_ONE
    case 2 => FONT_TWO
    case 3 => FONT_THREE
    case _ => FONT_SMALL
  }

  /** A tile's text is its value in decimal, so its font size follows the number of digits. */
  lemma FontSizeOfValue(v: nat)
    ensures 1 <= v < 10 ==> GetFontSize(NatStr(v)) == FONT_ONE
    ensures 10 <= v < 100 ==> GetFontSize(NatStr(v)) == FONT_TWO
    ensures 100 <= v < 1000 ==> GetFontSize(NatStr(v)) == FONT_THREE
    ensures 1000 <= v ==> GetFontSize(NatStr(v)) == FONT_SMALL
  {
    NatStrDigits(v);
  }

  // ---------------------------------------------------------------------
  // _emoji_board
  // ---------------------------------------------------------------------

  /**
   * The share emoji of a tile value: white square for 2 and 4, orange square
   * for 8, brown square for 16, red square for 32 and 64, yellow square for
   * 128, 256 and 1024, star for 2048, and the exploding head for anything
   * else, 0 and 512 included.
   */
  function Emoji(v: nat): (c: char)
    ensures c != '\n'
  {
    match v
    case 2 | 4 => '\U{2B1C}'
    case 8 => '\U{1F7E7}'
    case 16 => '\U{1F7EB}'
    case 32 | 64 => '\U{1F7E5}'
    case 128 | 256 | 1024 => '\U{1F7E8}'
    case 2048 => '\U{2B50}'
    case _ => '\U{1F92F}'
  }

  /**
   * One emoji per tile, and a line break after every fourth tile: tile `i`
   * sits at `i + i/4` and a line break follows tiles 3, 7, 11, ...
   */
  method EmojiBoard(tileValues: seq<nat>) returns (board: string)
    ensures |board| == |tileValues| + |tileValues| / 4
    ensures forall i | 0 <= i < |tileValues| :: board[i + i / 4] == Emoji(tileValues[i])
    ensures forall i | 0 <= i < |tileValues| && i % 4 == 3 :: board[i + i / 4 + 1] == '\n'
    ensures forall k | 0 <= k < |board| :: board[k] == '\n' <==> k % 5 == 4
  {
    board := "";
    var columnCount := 0;
    var i := 0;
    while i < |tileValues|
      invariant 0 <= i <= |tileValues|
      invariant columnCount == i % 4
      invariant |board| == i + i / 4
      invariant forall j | 0 <= j < i :: board[j + j / 4] == Emoji(tileValues[j])
      invariant forall j | 0 <= j < i && j % 4 == 3 :: board[j + j / 4 + 1] == '\n'
      invariant forall k | 0 <= k < |board| :: board[k] == '\n' <==> k % 5 == 4
    {
      board := board + [Emoji(tileValues[i])];
      if columnCount == 3 {
        board := board + "\n";
        columnCount := 0;
      } else {
        columnCount := columnCount + 1;
      }
      i := i + 1;
    }
  }

  // ---------------------------------------------------------------------
  // Touch swipe
  // ---------------------------------------------------------------------

  function Abs(x: int): nat {
    if x < 0 then -x else x
  }

  /**
   * The direction of a swipe from its end-minus-start deltas: none when both
   * are under 10 pixels; horizontal exactly when the horizontal distance is
   * the larger (a tie goes vertical); the sign picks the side (screen y grows
   * downwards).
   */
  function Swipe(deltaX: int, deltaY: int): (r: Option<Direction>)
    ensures r.None? <==> Abs(deltaX) < 10 && Abs(deltaY) < 10
    ensures r == Some(RIGHT) <==> r.Some? && Abs(deltaX) > Abs(deltaY) && deltaX > 0
    ensures r == Some(LEFT) <==> r.Some? && Abs(deltaX) > Abs(deltaY) && deltaX < 0
    ensures r == Some(DOWN) <==> r.Some? && Abs(deltaX) <= Abs(deltaY) && deltaY > 0
    ensures r == Some(UP) <==> r.Some? && Abs(deltaX) <= Abs(deltaY) && deltaY <= 0
  {
    if Abs(deltaX) < 10 && Abs(deltaY) < 10 then None
    else if Abs(deltaX) > Abs(deltaY) then
      if deltaX > 0 then Some(RIGHT) else Some(LEFT)
    else
      if deltaY > 0 then Some(DOWN) else Some(UP)
  }

  function Opposite(d: Direction): Direction {
    match d
    case UP => DOWN
    case DOWN => UP
    case LEFT => RIGHT
    case RIGHT => LEFT
  }

  /** The reverse swipe is classified as the opposite direction. */
  lemma SwipeReversed(deltaX: int, deltaY: int)
    ensures Swipe(-deltaX, -deltaY).None? == Swipe(deltaX, deltaY).None?
    ensures Swipe(deltaX, deltaY).Some? ==> Swipe(-deltaX, -deltaY) == Some(Opposite(Swipe(deltaX, deltaY).value))
  {
  }

  // ---------------------------------------------------------------------
  // The reducer and the scoreboard
  // ---------------------------------------------------------------------

  const GAME_OVER: string := "Game over"

  datatype State = State(gamestate: GameState, history: Recording, message: string, hiscore: nat)

  /**
   * The rule engine as the reducer uses it: serialise the recording, parse
   * it back and replay it into a game state, or fail with the engine's
   * `{:?}` message.
   */
  type Replayer = Recording -> Result<GameState, string>

  /**
   * `State::reduce` on a move. A move the current state does not allow
   * keeps the state, with "Game over" as the message exactly when the game
   * is over. An allowed move is appended to the recording and replayed; on
   * success the new state is taken and the hiscore rises to the new best
   * score, on failure the old state is kept with the engine's message. A new
   * state that is over says "Game over".
   */
  function Reduce(s: State, direction: Direction, replay: Replayer): State {
    if direction !in s.gamestate.allowedMoves then
      State(s.gamestate, s.history, if s.gamestate.over then GAME_OVER else "", s.hiscore)
    else
      var newHistory := s.history.(moves := s.history.moves + [direction]);
      var next := match replay(newHistory)
                  case Ok(gs) => State(gs, newHistory, "", if s.hiscore < gs.scoreMax then gs.scoreMax else s.hiscore)
                  case Err(e) => State(s.gamestate, s.history, e, s.hiscore);
      if next.gamestate.over then next.(message := GAME_OVER) else next
  }

  lemma ReduceDisallowed(s: State, direction: Direction, replay: Replayer)
    requires direction !in s.gamestate.allowedMoves
    ensures var r := Reduce(s, direction, replay);
            && r.gamestate == s.gamestate && r.history == s.history && r.hiscore == s.hiscore
            && (r.message == GAME_OVER <==> s.gamestate.over)
            && (!s.gamestate.over ==> r.message == "")
  {
  }

  /**
   * The hiscore never falls; after a successful allowed move it is the
   * larger of the old hiscore and the engine's best score, and the move is
   * the last one of the recording.
   */
  lemma ReduceHiscore(s: State, direction: Direction, replay: Replayer)
    ensures Reduce(s, direction, replay).hiscore >= s.hiscore
    ensures direction in s.gamestate.allowedMoves && replay(s.history.(moves := s.history.moves + [direction])).Ok? ==>
              var gs := replay(s.history.(moves := s.history.moves + [direction])).value;
              var r := Reduce(s, direction, replay);
              && r.gamestate == gs
              && r.hiscore == HiscoreToDisplay(gs.scoreMax, s.hiscore)
              && r.history.moves == s.history.moves + [direction]
              && (r.message == GAME_OVER <==> gs.over)
    ensures direction in s.gamestate.allowedMoves && replay(s.history.(moves := s.history.moves + [direction])).Err? ==>
              var r := Reduce(s, direction, replay);
              r.gamestate == s.gamestate && r.history == s.history && r.hiscore == s.hiscore
  {
  }

  /** The scoreboard shows the larger of the current score and the hiscore. */
  function HiscoreToDisplay(score: nat, hiscore: nat): (r: nat)
    ensures r >= score && r >= hiscore
    ensures r == score || r == hiscore
  {
    if score > hiscore then score else hiscore
  }

  // ---------------------------------------------------------------------
  // State::save
  // ---------------------------------------------------------------------

  /** The record `State::save` writes into an empty slot: unsynced, no hash. */
  function NewCurrentGame(gs: GameState, historyString: string, now: Datetime): GameRecord {
    GameRecord(gs.over, now, gs.scoreCurrent, historyString, SyncStatus(now, "", false, now), gs.won)
  }

  /**
   * `State::save`: an empty `current_game` slot gets a fresh unsynced record
   * built from the state; a stored game gets only its score and recording
   * replaced; a read error, or a stored value that is not a game, leaves
   * everything as it was. `historyString` is the recording's serialised form.
   */
  method SaveCurrentGame(db: LocalDb, gs: GameState, historyString: string, now: Datetime)
    requires db.Valid()
    modifies db
    ensures db.Valid() && db.version == old(db.version)
    ensures CURRENT_GAME_STORE !in old(db.stores) ==> db.stores == old(db.stores)
    ensures CURRENT_GAME_STORE in old(db.stores) ==>
              var slot := old(db.stores)[CURRENT_GAME_STORE];
              && (SELF_KEY !in slot ==>
                    db.stores == old(db.stores)[CURRENT_GAME_STORE := slot[SELF_KEY := GameValue(NewCurrentGame(gs, historyString, now))]])
              && (SELF_KEY in slot && slot[SELF_KEY].GameValue? ==>
                    db.stores == old(db.stores)[CURRENT_GAME_STORE := slot[SELF_KEY :=
                      GameValue(slot[SELF_KEY].game.(currentScore := gs.scoreCurrent, seededRecording := historyString))]])
              && (SELF_KEY in slot && !slot[SELF_KEY].GameValue? ==> db.stores == old(db.stores))
  {
    var got := db.ObjectGet(CURRENT_GAME_STORE, SELF_KEY);
    if got.Err? {
      return;
    }
    if got.value.None? {
      var record := NewCurrentGame(gs, historyString, now);
      var put := db.TransactionPut(GameValue(record), CURRENT_GAME_STORE, Some(SELF_KEY));
      return;
    }
    if !got.value.value.GameValue? {
      return;
    }
    var current := got.value.value.game;
    current := current.(currentScore := gs.scoreCurrent);
    current := current.(seededRecording := historyString);
    var put := db.TransactionPut(GameValue(current), CURRENT_GAME_STORE, Some(SELF_KEY));
  }
}
