/**
 * The share-image endpoint `GET /share/game/image.png`: it replays a seeded
 * recording and paints the final board as a square PNG, one 100-pixel tile
 * per cell with 10 pixels of padding around and between tiles. The picture
 * is modelled as the list of drawing operations made on it, in order.
 */
module ImageRoutes {
  import opened Wrappers
  import opened RuleEngine
  import opened Decimal

  newtype U8 = x: int | 0 <= x < 256

  datatype Rgba = Rgba(r: U8, g: U8, b: U8, a: U8)

  const TILE_SIZE: nat := 100
  const PADDING: nat := 10

  /** The size of the Open Graph image the share page announces. */
  const OG_IMAGE_WIDTH: nat := 450
  const OG_IMAGE_HEIGHT: nat := 450

  const BOARD_BACKGROUND: Rgba := Rgba(187, 173, 160, 255)
  /** The translucent fill of an empty cell. */
  const EMPTY_TILE: Rgba := Rgba(205, 193, 180, 128)
  /** The fill of a tile whose value has no colour of its own. */
  const DEFAULT_TILE: Rgba := Rgba(205, 193, 180, 255)
  const DARK_TEXT: Rgba := Rgba(119, 110, 101, 255)
  const LIGHT_TEXT: Rgba := Rgba(249, 246, 242, 255)

  // ---------------------------------------------------------------------
  // Colours
  // ---------------------------------------------------------------------

  /** The tile values with a colour of their own: the powers of two from 2 to 2048. */
  predicate Coloured(v: nat) {
    v == 2 || v == 4 || v == 8 || v == 16 || v == 32 || v == 64
    || v == 128 || v == 256 || v == 512 || v == 1024 || v == 2048
  }

  /** `get_tile_color`: opaque in every case, and the default colour exactly for values without their own. */
  function TileColor(value: nat): (c: Rgba)
    ensures c.a == 255 && c != EMPTY_TILE
    ensures c == DEFAULT_TILE <==> !Coloured(value)
  {
    match value
    case 2 => Rgba(238, 228, 218, 255)
    case 4 => Rgba(237, 224, 200, 255)
    case 8 => Rgba(242, 177, 121, 255)
    case 16 => Rgba(245, 149, 99, 255)
    case 32 => Rgba(246, 124, 95, 255)
    case 64 => Rgba(246, 94, 59, 255)
    case 128 => Rgba(237, 207, 114, 255)
    case 256 => Rgba(237, 204, 97, 255)
    case 512 => Rgba(237, 200, 80, 255)
    case 1024 => Rgba(237, 197, 63, 255)
    case 2048 => Rgba(237, 194, 46, 255)
    case _ => DEFAULT_TILE
  }

  /** Every coloured value is told apart from every other one. */
  lemma TileColorsDistinct(v: nat, w: nat)
    requires Coloured(v) && Coloured(w) && v != w
    ensures TileColor(v) != TileColor(w)
  {
  }

  /** `get_text_color`: dark text on the light tiles 2 and 4 (and on any value up to 4), light text above. */
  function TextColor(value: nat): (c: Rgba)
    ensures c == DARK_TEXT <==> value <= 4
    ensures c == LIGHT_TEXT <==> value > 4
  {
    if value <= 4 then DARK_TEXT else LIGHT_TEXT
  }

  // ---------------------------------------------------------------------
  // Geometry
  // ---------------------------------------------------------------------

  /** The side of the square image for a board `n` cells wide: `n` tiles and `n + 1` paddings. */
  function ImageDimension(n: nat): (d: nat)
    ensures d == (TILE_SIZE + PADDING) * n + PADDING
  {
    n * TILE_SIZE + (n + 1) * PADDING
  }

  /** The pixel offset of row or column `i`. */
  function TileOffset(i: nat): nat {
    PADDING + i * (TILE_SIZE + PADDING)
  }

  /** A 4x4 board gives exactly the 450x450 image the share page announces. */
  lemma ClassicBoardFitsOgImage()
    ensures ImageDimension(4) == OG_IMAGE_WIDTH && ImageDimension(4) == OG_IMAGE_HEIGHT
  {
  }

  /** Every tile of an `n`-wide board lies inside the image, at least `PADDING` away from each edge. */
  lemma {:induction false} TileInside(n: nat, i: nat)
    requires i < n
    ensures PADDING <= TileOffset(i)
    ensures TileOffset(i) + TILE_SIZE + PADDING <= ImageDimension(n)
  {
    assert (i + 1) * (TILE_SIZE + PADDING) <= n * (TILE_SIZE + PADDING);
  }

  /** Tiles never overlap: a later row or column starts `PADDING` or more after an earlier one ends. */
  lemma {:induction false} TilesApart(i: nat, j: nat)
    requires i < j
    ensures TileOffset(i) + TILE_SIZE + PADDING <= TileOffset(j)
  {
    assert (i + 1) * (TILE_SIZE + PADDING) <= j * (TILE_SIZE + PADDING);
  }

  // ---------------------------------------------------------------------
  // What is drawn
  // ---------------------------------------------------------------------

  /** The tile at row `r`, column `c`, if the board has that cell and it holds one. */
  function TileAt(board: Board, r: nat, c: nat): Option<Tile> {
    if r < |board.tiles| && c < |board.tiles[r]| then board.tiles[r][c] else None
  }

  /** An absent tile counts as 0. */
  function TileValue(board: Board, r: nat, c: nat): (v: nat)
    ensures TileAt(board, r, c).None? ==> v == 0
    ensures TileAt(board, r, c).Some? ==> v == TileAt(board, r, c).value.value
  {
    match TileAt(board, r, c)
    case None => 0
    case Some(t) => t.value
  }

  /** The font size in pixels for a label of `len` characters: the longer, the smaller. */
  function FontScale(len: nat): nat {
    match len
    case 1 => 55
    case 2 => 55
    case 3 => 45
    case 4 => 35
    case _ => 30
  }

  lemma FontScaleShrinks(short: nat, long: nat)
    requires 1 <= short <= long
    ensures FontScale(long) <= FontScale(short)
  {
  }

  /**
   * One drawing operation: a filled square, or a label anchored at the
   * centre of the tile it belongs to.
   */
  datatype DrawOp =
    | FillRect(x: nat, y: nat, size: nat, colour: Rgba)
    | DrawText(centreX: nat, centreY: nat, colour: Rgba, scale: nat, text: string)

  /** The operations for one cell: its square, then its value when the cell is not empty. */
  function CellOps(board: Board, r: nat, c: nat): seq<DrawOp> {
    var v := TileValue(board, r, c);
    var fill := FillRect(TileOffset(c), TileOffset(r), TILE_SIZE, if v == 0 then EMPTY_TILE else TileColor(v));
    if v > 0 then
      [fill, DrawText(TileOffset(c) + TILE_SIZE / 2, TileOffset(r) + TILE_SIZE / 2, TextColor(v), FontScale(|NatStr(v)|), NatStr(v))]
    else
      [fill]
  }

  /** The operations for the first `c` cells of row `r`. */
  function RowOps(board: Board, r: nat, c: nat): seq<DrawOp> {
    if c == 0 then [] else RowOps(board, r, c - 1) + CellOps(board, r, c - 1)
  }

  /** The operations for the first `r` rows of an `n`-wide board. */
  function GridOps(board: Board, n: nat, r: nat): seq<DrawOp> {
    if r == 0 then [] else GridOps(board, n, r - 1) + RowOps(board, r - 1, n)
  }

  /** The whole picture: the background square, then every cell row by row. */
  function BoardOps(board: Board): seq<DrawOp> {
    var n := board.width;
    [FillRect(0, 0, ImageDimension(n), BOARD_BACKGROUND)] + GridOps(board, n, n)
  }

  /** An absent tile is an empty translucent square with no label. */
  lemma AbsentTileIsEmpty(board: Board, r: nat, c: nat)
    requires TileAt(board, r, c).None?
    ensures CellOps(board, r, c) == [FillRect(TileOffset(c), TileOffset(r), TILE_SIZE, EMPTY_TILE)]
  {
  }

  /** A tile lies inside an image of side `d` with `PADDING` to spare; a label is centred on such a tile. */
  predicate WithinMargin(op: DrawOp, d: nat) {
    match op
    case FillRect(x, y, size, _) =>
      PADDING <= x && PADDING <= y && x + size + PADDING <= d && y + size + PADDING <= d
    case DrawText(cx, cy, _, _, _) =>
      PADDING + TILE_SIZE / 2 <= cx && PADDING + TILE_SIZE / 2 <= cy
      && cx + TILE_SIZE / 2 + PADDING <= d && cy + TILE_SIZE / 2 + PADDING <= d
  }

  lemma {:induction false} RowOpsWithinMargin(board: Board, n: nat, r: nat, c: nat)
    requires r < n && c <= n
    ensures forall op | op in RowOps(board, r, c) :: WithinMargin(op, ImageDimension(n))
  {
    if c > 0 {
      RowOpsWithinMargin(board, n, r, c - 1);
      TileInside(n, r);
      TileInside(n, c - 1);
    }
  }

  /** Every tile and label of the grid stays inside the image with the padding margin. */
  lemma {:induction false} GridOpsWithinMargin(board: Board, n: nat, r: nat)
    requires r <= n
    ensures forall op | op in GridOps(board, n, r) :: WithinMargin(op, ImageDimension(n))
  {
    if r > 0 {
      GridOpsWithinMargin(board, n, r - 1);
      RowOpsWithinMargin(board, n, r - 1, n);
    }
  }

  /** The number of squares among `ops`. */
  function FillCount(ops: seq<DrawOp>): nat {
    if |ops| == 0 then 0 else FillCount(ops[..|ops| - 1]) + (if ops[|ops| - 1].FillRect? then 1 else 0)
  }

  lemma {:induction false} FillCountAppend(a: seq<DrawOp>, b: seq<DrawOp>)
    ensures FillCount(a + b) == FillCount(a) + FillCount(b)
    decreases |b|
  {
    if |b| > 0 {
      assert (a + b)[..|a + b| - 1] == a + b[..|b| - 1];
      FillCountAppend(a, b[..|b| - 1]);
    } else {
      assert a + b == a;
    }
  }

  lemma {:induction false} RowFillCount(board: Board, r: nat, c: nat)
    ensures FillCount(RowOps(board, r, c)) == c
  {
    if c > 0 {
      RowFillCount(board, r, c - 1);
      FillCountAppend(RowOps(board, r, c - 1), CellOps(board, r, c - 1));
      var cell := CellOps(board, r, c - 1);
      assert FillCount(cell) == 1 by {
        assert FillCount([cell[0]]) == 1 by { assert [cell[0]][..0] == []; }
        if |cell| == 2 {
          assert cell[..1] == [cell[0]];
        } else {
          assert cell == [cell[0]];
        }
      }
    }
  }

  /** Every one of the `n * n` cells gets exactly one square, absent tiles and all. */
  lemma {:induction false} GridFillCount(board: Board, n: nat, r: nat)
    ensures FillCount(GridOps(board, n, r)) == r * n
  {
    if r > 0 {
      GridFillCount(board, n, r - 1);
      RowFillCount(board, r - 1, n);
      FillCountAppend(GridOps(board, n, r - 1), RowOps(board, r - 1, n));
      assert (r - 1) * n + n == r * n;
    }
  }

  // ---------------------------------------------------------------------
  // The image buffer and the endpoint
  // ---------------------------------------------------------------------

  /** `RgbaImage`: a square canvas and the operations painted on it so far. */
  class Image {
    const width: nat
    const height: nat
    var ops: seq<DrawOp>

    constructor (width: nat, height: nat)
      ensures this.width == width && this.height == height && ops == []
    {
      this.width := width;
      this.height := height;
      ops := [];
    }

    /** `draw_filled_rect_mut` with a square. */
    method DrawFilledRect(x: nat, y: nat, size: nat, colour: Rgba)
      modifies this
      ensures ops == old(ops) + [FillRect(x, y, size, colour)]
    {
      ops := ops + [FillRect(x, y, size, colour)];
    }

    /** `draw_text_mut`, anchored at the centre of the label's tile. */
    method DrawTextAt(centreX: nat, centreY: nat, colour: Rgba, scale: nat, text: string)
      modifies this
      ensures ops == old(ops) + [DrawText(centreX, centreY, colour, scale, text)]
    {
      ops := ops + [DrawText(centreX, centreY, colour, scale, text)];
    }
  }

  /** One pass of the inner drawing loop: the cell's square, then its label when the tile is not empty. */
  method PaintCell(img: Image, board: Board, row: nat, col: nat)
    modifies img
    ensures img.ops == old(img.ops) + CellOps(board, row, col)
  {
    var tileOpt := if row < |board.tiles| && col < |board.tiles[row]| then board.tiles[row][col] else None;
    var xOffset := PADDING + col * (TILE_SIZE + PADDING);
    var yOffset := PADDING + row * (TILE_SIZE + PADDING);
    var tileValue := if tileOpt.Some? then tileOpt.value.value else 0;
    var rectColour := if tileValue == 0 then EMPTY_TILE else TileColor(tileValue);
    img.DrawFilledRect(xOffset, yOffset, TILE_SIZE, rectColour);
    if tileValue > 0 {
      var text := NatStr(tileValue);
      img.DrawTextAt(xOffset + TILE_SIZE / 2, yOffset + TILE_SIZE / 2, TextColor(tileValue), FontScale(|text|), text);
    }
  }

  /** The inner drawing loop: the first `n` cells of row `row`, left to right. */
  method PaintRow(img: Image, board: Board, row: nat, n: nat)
    modifies img
    ensures img.ops == old(img.ops) + RowOps(board, row, n)
  {
    var col := 0;
    while col < n
      invariant col <= n
      invariant img.ops == old(img.ops) + RowOps(board, row, col)
    {
      PaintCell(img, board, row, col);
      col := col + 1;
    }
  }

  /** The outer drawing loop: the rows of an `n`-wide board, top to bottom. */
  method PaintGrid(img: Image, board: Board, n: nat)
    modifies img
    ensures img.ops == old(img.ops) + GridOps(board, n, n)
  {
    var row := 0;
    while row < n
      invariant row <= n
      invariant img.ops == old(img.ops) + GridOps(board, n, row)
    {
      PaintRow(img, board, row, n);
      row := row + 1;
    }
  }

  datatype HttpError = BadRequest(message: string) | InternalError(message: string)

  const DECODE_ERR: string := "ImageGen: Invalid seeded_recording parameter: could not decode. Error: "
  const PARSE_ERR: string := "ImageGen: Invalid seeded_recording: "
  const RECONSTRUCT_ERR: string := "Could not reconstruct game state: "
  const FONT_MISSING: string := "Internal server error: font file missing"
  const FONT_UNPARSABLE: string := "Internal server error: font parsing failed"
  const ENCODE_ERR: string := "Failed to generate image"

  /**
   * The outside code the endpoint leans on: percent-decoding of the query
   * parameter, the recording parser, and the rule engine's replay; each
   * succeeds or fails with its message. Whether the font file can be read
   * and parsed, and whether the PNG encoder succeeds, are flags.
   */
  datatype Collaborators = Collaborators(
    decode: string -> Result<string, string>,
    parse: string -> Result<Recording, string>,
    reconstruct: Recording -> Result<GameState, string>,
    fontReadable: bool,
    fontParses: bool,
    pngEncodes: bool)

  /** The final game state the request asks for, or the error the endpoint answers with. */
  function RequestedState(query: string, env: Collaborators): Result<GameState, HttpError> {
    match env.decode(query)
    case Err(e) => Err(BadRequest(DECODE_ERR + e))
    case Ok(decoded) =>
      match env.parse(decoded)
      case Err(e) => Err(BadRequest(PARSE_ERR + e))
      case Ok(recording) =>
        match env.reconstruct(recording)
        case Err(e) => Err(InternalError(RECONSTRUCT_ERR + e))
        case Ok(gs) => Ok(gs)
  }

  /** A query that cannot be decoded or parsed is the client's fault; a recording that cannot be replayed is the server's. */
  lemma RequestErrorClasses(query: string, env: Collaborators)
    ensures RequestedState(query, env).Err? && RequestedState(query, env).error.BadRequest?
            <==> env.decode(query).Err? || env.parse(env.decode(query).value).Err?
    ensures RequestedState(query, env).Err? && RequestedState(query, env).error.InternalError?
            <==> env.decode(query).Ok? && env.parse(env.decode(query).value).Ok?
                 && env.reconstruct(env.parse(env.decode(query).value).value).Err?
  {
  }

  /**
   * `generate_board_image`: a failed request answers with its error; then a
   * missing or broken font, or a failed encoding, is an internal error;
   * otherwise the answer is a fresh square image of side
   * `ImageDimension(width)` painted with `BoardOps` of the final board.
   */
  method GenerateBoardImage(query: string, env: Collaborators) returns (r: Result<Image, HttpError>)
    ensures RequestedState(query, env).Err? ==> r == Err(RequestedState(query, env).error)
    ensures RequestedState(query, env).Ok? && !env.fontReadable ==> r == Err(InternalError(FONT_MISSING))
    ensures RequestedState(query, env).Ok? && env.fontReadable && !env.fontParses ==> r == Err(InternalError(FONT_UNPARSABLE))
    ensures RequestedState(query, env).Ok? && env.fontReadable && env.fontParses && !env.pngEncodes ==>
              r == Err(InternalError(ENCODE_ERR))
    ensures RequestedState(query, env).Ok? && env.fontReadable && env.fontParses && env.pngEncodes ==>
              && r.Ok? && fresh(r.value)
              && var board := RequestedState(query, env).value.board;
              && r.value.width == ImageDimension(board.width) && r.value.height == ImageDimension(board.width)
              && r.value.ops == BoardOps(board)
  {
    var decoded := env.decode(query);
    if decoded.Err? {
      return Err(BadRequest(DECODE_ERR + decoded.error));
    }
    var parsed := env.parse(decoded.value);
    if parsed.Err? {
      return Err(BadRequest(PARSE_ERR + parsed.error));
    }
    var replayed := env.reconstruct(parsed.value);
    if replayed.Err? {
      return Err(InternalError(RECONSTRUCT_ERR + replayed.error));
    }
    var board := replayed.value.board;
    var boardDim := board.width;
    var imgDimension := boardDim * TILE_SIZE + (boardDim + 1) * PADDING;
    var img := new Image(imgDimension, imgDimension);
    img.DrawFilledRect(0, 0, imgDimension, BOARD_BACKGROUND);
    if !env.fontReadable {
      return Err(InternalError(FONT_MISSING));
    }
    if !env.fontParses {
      return Err(InternalError(FONT_UNPARSABLE));
    }
    PaintGrid(img, board, boardDim);
    if !env.pngEncodes {
      return Err(InternalError(ENCODE_ERR));
    }
    r := Ok(img);
  }
}
