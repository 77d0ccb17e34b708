/** `initSprites`: the two sprites' attributes and where their tile graphics and
    palettes are copied. Tile indices are handed out by a bump counter
    (`nextAvailableTileIdx`); palettes go to the 16-colour bank of the sprite's id. */
module Sprites {
  import opened Math

  const BytesPer16ColorTile := 32
  const ColorsPerPalette := 16
  /** Halfwords per 16-colour tile: SPRITE_GFX is indexed in halfwords. */
  const OffsetMultiplier := 16

  const ShuttleAffineId := 0
  const MoonAffineId := 1

  /** libnds: OAM entries and affine matrices available. */
  const SpriteCount := 128
  const MatrixCount := 32

  /** A copy target in halfword units: indices `start .. start + count - 1`. */
  datatype Region = Region(start: int, count: nat) {
    function End(): int { start + count }

    predicate Overlaps(other: Region) {
      count > 0 && other.count > 0 && start < other.End() && other.start < End()
    }
  }

  /** `dmaCopyHalfWords` takes a size in bytes and moves `size / 2` halfwords. */
  function DmaHalfwords(sizeBytes: nat): nat {
    sizeBytes / 2
  }

  /** Byte lengths of the converted assets (grit's `...TilesLen` and `...PalLen`). */
  datatype Assets = Assets(shuttleTilesLen: nat, moonTilesLen: nat, shuttlePalLen: nat, moonPalLen: nat)

  /** Widths of the libnds `SpriteEntry` bitfields the values are stored in:
      `tileIdx` has 10 bits, `posX` 9 and `posY` 8. A stored value keeps only
      its low bits, which for a positive modulus is Dafny's `%`. */
  const TileIdxFieldSize := 1024
  const PosXFieldSize := 512
  const PosYFieldSize := 256
  /** `objPal` has 4 bits: one of 16 palette banks. */
  const ObjPalFieldSize := 16

  /** What `initSprites` stores for one sprite (as read back from its `SpriteEntry`),
      and where its data is copied. */
  datatype SpriteSlot = SpriteSlot(
    affineId: nat, width: nat, height: nat, pos: Vector2, rotoscale: bool,
    tileIdx: nat, priority: nat, objPal: nat,
    gfx: Region, palette: Region)

  datatype Layout = Layout(shuttle: SpriteSlot, moon: SpriteSlot, nextTileIdx: nat)

  /** The moon's first tile index fits the 10-bit `tileIdx` field. */
  predicate TileIndicesFit(a: Assets) {
    a.shuttleTilesLen / BytesPer16ColorTile < TileIdxFieldSize
  }

  /** A sprite's attributes as the `SpriteEntry` bitfields keep them. */
  function Stored(affineId: nat, width: nat, height: nat, x: int, y: int, rotoscale: bool,
                  tile: nat, priority: nat, tilesLen: nat, palLen: nat): (e: SpriteSlot)
    ensures 0 <= e.pos.x < PosXFieldSize && 0 <= e.pos.y < PosYFieldSize
    ensures 0 <= x < PosXFieldSize && 0 <= y < PosYFieldSize ==> e.pos == Vector2(x, y)
    ensures e.tileIdx < TileIdxFieldSize
    ensures tile < TileIdxFieldSize ==> e.tileIdx == tile
    // the graphics copy reads the stored tile index back
    ensures 2 * e.gfx.start == e.tileIdx * BytesPer16ColorTile
    // the palette is copied to the bank of the id, which is the bank the sprite
    // selects while the id fits the 4-bit `objPal` field
    ensures e.palette.start == affineId * ColorsPerPalette
    ensures e.objPal < ObjPalFieldSize
    ensures affineId < ObjPalFieldSize ==> e.palette.start == e.objPal * ColorsPerPalette
  {
    var tileIdx := tile % TileIdxFieldSize;
    SpriteSlot(
      affineId, width, height, Vector2(x % PosXFieldSize, y % PosYFieldSize), rotoscale,
      tileIdx, priority, affineId % ObjPalFieldSize,
      Region(tileIdx * OffsetMultiplier, DmaHalfwords(tilesLen)),
      Region(affineId * ColorsPerPalette, DmaHalfwords(palLen)))
  }

  function InitSprites(screenWidth: nat, screenHeight: nat, a: Assets): (l: Layout)
    // the bump allocator: the shuttle starts at tile 0, the moon right after its tiles
    ensures l.shuttle.tileIdx == 0
    ensures TileIndicesFit(a) ==> l.moon.tileIdx == a.shuttleTilesLen / BytesPer16ColorTile
    ensures l.nextTileIdx == a.shuttleTilesLen / BytesPer16ColorTile + a.moonTilesLen / BytesPer16ColorTile
    // each sprite's graphics are copied to the bytes its stored tile index addresses
    ensures 2 * l.shuttle.gfx.start == l.shuttle.tileIdx * BytesPer16ColorTile
    ensures 2 * l.moon.gfx.start == l.moon.tileIdx * BytesPer16ColorTile
    ensures l.shuttle.gfx.count == DmaHalfwords(a.shuttleTilesLen)
    ensures l.moon.gfx.count == DmaHalfwords(a.moonTilesLen)
    // while the moon's tile index fits its field, the shuttle's graphics end where the
    // moon's begin when the shuttle's length is a whole number of tiles, up to the odd
    // byte the halfword copy drops
    ensures TileIndicesFit(a) ==>
              (l.shuttle.gfx.End() == l.moon.gfx.start <==> a.shuttleTilesLen % BytesPer16ColorTile < 2)
    ensures TileIndicesFit(a) ==>
              (!l.shuttle.gfx.Overlaps(l.moon.gfx) <==>
                 a.shuttleTilesLen % BytesPer16ColorTile < 2 || a.moonTilesLen < 2)
    // each palette is copied into the bank the sprite selects, and the banks differ
    ensures l.shuttle.palette.start == l.shuttle.objPal * ColorsPerPalette
    ensures l.moon.palette.start == l.moon.objPal * ColorsPerPalette
    ensures l.shuttle.objPal != l.moon.objPal
    ensures l.shuttle.palette.count == DmaHalfwords(a.shuttlePalLen)
    ensures l.moon.palette.count == DmaHalfwords(a.moonPalLen)
    ensures !l.shuttle.palette.Overlaps(l.moon.palette) <==>
              a.shuttlePalLen <= 2 * ColorsPerPalette + 1 || a.moonPalLen < 2
    // the stored positions are what the 9- and 8-bit fields can hold
    ensures 0 <= l.moon.pos.x < PosXFieldSize && 0 <= l.moon.pos.y < PosYFieldSize
    // the asserts on the ids hold
    ensures l.shuttle.affineId < SpriteCount && l.moon.affineId < SpriteCount
    ensures l.shuttle.rotoscale ==> l.shuttle.affineId < MatrixCount
    ensures l.moon.rotoscale ==> l.moon.affineId < MatrixCount
  {
    var shuttleTile := 0;
    var afterShuttle := shuttleTile + a.shuttleTilesLen / BytesPer16ColorTile;
    var shuttle := Stored(
      ShuttleAffineId, 64, 64,
      screenWidth / 2 - 64 * 2 + 64 / 2, screenHeight / 2 - 64, true,
      shuttleTile, 0, a.shuttleTilesLen, a.shuttlePalLen);

    var moonTile := afterShuttle;
    var afterMoon := moonTile + a.moonTilesLen / BytesPer16ColorTile;
    // the moon's y is derived from SCREEN_WIDTH, as main.cpp:208 writes it
    var moon := Stored(
      MoonAffineId, 32, 32,
      screenWidth / 2 + 32 + 32 / 2, screenWidth / 2 + 32 / 2, false,
      moonTile, 2, a.moonTilesLen, a.moonPalLen);

    Layout(shuttle, moon, afterMoon)
  }

  /** Past 1023 tiles of shuttle graphics the moon's tile index wraps in its 10-bit
      field: with a 32 KiB shuttle the moon gets tile 0 and its graphics are copied
      over the shuttle's. */
  lemma TileIndexWraps()
    ensures var l := InitSprites(256, 192, Assets(32768, 512, 32, 32));
            l.moon.tileIdx == 0 && l.shuttle.gfx.Overlaps(l.moon.gfx)
  {
  }
}
