/**
 * Tile kinds (tile_types.py): the appearance record of one console cell,
 * the record of one map tile, and the three constants the game uses.
 */
module TileTypes {

  /** One unsigned byte, the element type of numpy's "3B" colour fields. */
  newtype byte = b: int | 0 <= b < 256

  /** A signed 32-bit integer, numpy's int32 glyph code. */
  newtype int32 = n: int | -0x8000_0000 <= n < 0x8000_0000

  /** An (r, g, b) colour triple. */
  datatype Rgb = Rgb(r: byte, g: byte, b: byte)

  /** graphic_dt: a glyph code with foreground and background colours. */
  datatype Graphic = Graphic(ch: int32, fg: Rgb, bg: Rgb)

  /** tile_dt: whether a tile can be walked on and seen through, and how it looks unlit and lit. */
  datatype Tile = Tile(walkable: bool, transparent: bool, dark: Graphic, light: Graphic)

  /** ord(" "), the glyph every built-in appearance uses. */
  const Space: int32 := 32
  const White := Rgb(255, 255, 255)
  const Black := Rgb(0, 0, 0)

  /** Builds a tile record from its four fields, in declaration order. */
  function NewTile(walkable: bool, transparent: bool, dark: Graphic, light: Graphic): (t: Tile)
    ensures t.walkable == walkable && t.transparent == transparent
    ensures t.dark == dark && t.light == light
  {
    Tile(walkable, transparent, dark, light)
  }

  /** The appearance of a cell that is neither visible nor explored. */
  const Shroud := Graphic(Space, White, Black)

  const Floor := NewTile(true, true,
                         Graphic(Space, White, Rgb(50, 50, 150)),
                         Graphic(Space, White, Rgb(200, 180, 50)))

  const Wall := NewTile(false, false,
                        Graphic(Space, White, Rgb(0, 0, 100)),
                        Graphic(Space, White, Rgb(130, 110, 50)))

  /** A floor can be walked on and seen through; a wall neither. */
  lemma FloorOpenWallClosed()
    ensures Floor.walkable && Floor.transparent
    ensures !Wall.walkable && !Wall.transparent
  {}

  /** The shroud is a blank white-on-black cell. */
  lemma ShroudIsBlank()
    ensures Shroud.ch == 32 && Shroud.fg == Rgb(255, 255, 255) && Shroud.bg == Rgb(0, 0, 0)
  {}

  /** Both built-in tiles are two-tone: one blank white glyph, lit and unlit backgrounds differ. */
  lemma TilesAreTwoTone(t: Tile)
    requires t == Floor || t == Wall
    ensures t.dark.ch == t.light.ch == Space
    ensures t.dark.fg == t.light.fg == White
    ensures t.dark.bg != t.light.bg
  {}
}
