/**
 * The tile component's choice between the compact text rendering and the
 * image rendering with an overlay label, as a function of its inputs. The
 * theme and the "at least large" viewport signal, read from hooks by the
 * component, are parameters here, and so is the deployment's base URL.
 */
module TileRender {
  import opened TileCodes
  import opened TileDisplay

  /** What the component shows: a coloured glyph alone, or artwork with an overlay label. */
  datatype Rendering =
    | Compact(text: string, color: Color)
    | Image(src: string, text: string, color: Color)

  /** The sentinel carries this label in both renderings. */
  const BlankLabel: Label := Label(" ", Base)

  /**
   * The tile the component looks up for an input: the tile itself, or the
   * white dragon for the sentinel (its artwork, and in compact mode its
   * blank glyph, are the sentinel's too).
   */
  function ShownTile(x: TileOrSentinel): (t: TileCode)
    ensures x.Face? ==> t == x.tile
    ensures x.Sentinel? ==> t == Honor(5)
  {
    match x
    case Sentinel => Honor(5)
    case Face(t) => t
  }

  /**
   * Compact mode when a small tile is asked for below the large breakpoint;
   * otherwise the themed artwork with the overlay label.
   */
  function Render(base: string, x: TileOrSentinel, small: bool, isLg: bool, theme: string): (r: Rendering)
    ensures r.Compact? <==> small && !isLg
    ensures x.Sentinel? ==> r.text == " " && r.color == Base
    ensures r.Compact? ==> Label(r.text, r.color) == ShortForTile(ShownTile(x))
    ensures x.Face? && r.Image? ==> Label(r.text, r.color) == LetterForTile(x.tile)
    ensures r.Image? ==> (r.src == SvgForTile(base, ShownTile(x)).dark <==> theme == "dark")
    ensures r.Image? ==> (r.src == SvgForTile(base, ShownTile(x)).light <==> theme != "dark")
  {
    if small && !isLg then
      var l := if x.Sentinel? then BlankLabel else ShortForTile(x.tile);
      Compact(l.text, l.color)
    else
      var paths := SvgForTile(base, ShownTile(x));
      var file := if theme == "dark" then paths.dark else paths.light;
      var l := if x.Sentinel? then BlankLabel else LetterForTile(x.tile);
      Image(file, l.text, l.color)
  }

  /**
   * The sentinel and the white dragon: identical in compact mode (both a
   * blank uncoloured glyph); in image mode the same artwork, but the
   * sentinel keeps the blank label where the white dragon shows `Wh` in red.
   */
  lemma SentinelVersusWhiteDragon(base: string, small: bool, isLg: bool, theme: string)
    ensures small && !isLg ==>
      Render(base, Sentinel, small, isLg, theme) == Render(base, Face(Honor(5)), small, isLg, theme)
    ensures !(small && !isLg) ==>
      && Render(base, Sentinel, small, isLg, theme).src == Render(base, Face(Honor(5)), small, isLg, theme).src
      && Render(base, Sentinel, small, isLg, theme) != Render(base, Face(Honor(5)), small, isLg, theme)
  {
  }

  /** In image mode every tile and the sentinel look different. */
  lemma RenderImageInjective(base: string, a: TileOrSentinel, b: TileOrSentinel, small: bool, isLg: bool, theme: string)
    requires !(small && !isLg)
    requires Render(base, a, small, isLg, theme) == Render(base, b, small, isLg, theme)
    ensures a == b
  {
    SvgForTileInjective(base, ShownTile(a), ShownTile(b), theme == "dark");
  }

  /**
   * In compact mode two inputs look the same exactly when they look up the
   * same tile (equal inputs, or the sentinel and the white dragon) or are a
   * red five and the plain five of its suit.
   */
  lemma RenderCompactCollision(base: string, a: TileOrSentinel, b: TileOrSentinel, isLg: bool, theme: string)
    requires !isLg
    ensures Render(base, a, true, isLg, theme) == Render(base, b, true, isLg, theme) <==>
      || ShownTile(a) == ShownTile(b)
      || SameFiveOfSuit(ShownTile(a), ShownTile(b))
  {
  }
}
