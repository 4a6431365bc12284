# Tile display lookup of riichi-tracker, modelled in Dafny

riichi-tracker draws riichi mahjong tiles with one component, `Tile`. Given a
tile code, it picks one of two renderings. The compact rendering shows a
single coloured glyph. The image rendering shows themed SVG artwork with a
small overlay label. Three lookup functions feed it:

- `svgForTile` gives the light and dark artwork paths.
- `shortForTile` gives the compact glyph and its colour category.
- `letterForTile` gives the overlay label and its colour category.

The model covers these lookups and the component's choice of mode, artwork
and label. Everything is a total function over a closed domain:

- `TileCodes` (`tile_codes.dfy`) defines the tile codes. A numbered tile is
  `Suited(digit '0'..'9', Man|Pin|Sou)`, where `'0'` is the red five. An
  honor is `Honor(1..7)`, covering the four winds and then the White, Green
  and Red dragons. `TileOrSentinel` adds the face-down token `00`. `CodeOf`
  and `Parse` convert between these values and their two-character string
  tokens, and are proved inverse in both directions.
- `TileDisplay` (`tile_display.dfy`) models the three lookups. It also has
  `TileOfAssetName`, which reads an asset name back into its tile, and the
  lemmas about the lookups: the honor name table and the suited name
  formula, stated on the string tokens; injectivity of the asset names and
  paths; exactly which tiles share a compact or an overlay label; and the
  colour disagreements between the two label schemes.
- `TileRender` (`tile_render.dfy`) models the component's decision as
  `Render(base, tile, small, isLg, theme)`. The result is either
  `Compact(text, color)` or `Image(src, text, color)`.
- `AssetSet` (`asset_set.dfy`) lists every tile code once. From that it
  proves that the artwork has 37 distinct names and needs 74 distinct files
  across both themes.

The deployment base URL is a string parameter, prepended verbatim, as the
source does with `BASE_URL`. The theme and the "at least 1024 px wide"
viewport signal come from hooks in the source; here they are the parameters
`theme` (a string) and `isLg`. Only `theme == "dark"` selects the dark
artwork, as in the source's comparison.

`LetterForTile` follows `src/components/Tile.tsx:74`: the red five's overlay
is green and every other numbered tile's overlay is red.

## Model

| member | source | states |
|---|---|---|
| TileCodes.ParseCodeOf | src/components/Tile.tsx:81 | every tile code and the sentinel `00` read back from their token |
| TileCodes.CodeOfParse | src/components/Tile.tsx:81 | a token that reads as a tile or as `00` is exactly that value's token |
| TileCodes.CodeInjective | src/components/Tile.tsx:81 | distinct tiles (and the sentinel) have distinct tokens, so the source's switches on the token are switches on the tile |
| TileDisplay.Numeral | src/components/Tile.tsx:50 | a numbered tile is labelled with its digit, except that the red five `0` is shown as `5` |
| TileDisplay.AssetName | src/components/Tile.tsx:9-27 | a tile's asset name has 3 to 9 characters and a numbered tile's name begins with its suit word; the full table is stated by AssetNameByToken |
| TileDisplay.ThemedPaths | src/components/Tile.tsx:8 | the light and dark paths both start with the base prefix and their theme directory; the rest of both is the same name followed by `.svg`; the two paths differ |
| TileDisplay.SvgForTile | src/components/Tile.tsx:6-30 | both paths of a tile end in that tile's asset name plus `.svg`, under `tiles/light/` and `tiles/dark/` respectively, and the two differ |
| TileDisplay.AssetNameByToken | src/components/Tile.tsx:9-27 | `1z`..`7z` are named Ton, Nan, Shaa, Pei, Haku, Hatsu, Chun; a token `d`+`m`/`p`/`s` is named Man/Pin/Sou followed by `d`, with `0` spelled `5-Dora` |
| TileDisplay.AssetNameRoundTrip | src/components/Tile.tsx:9-27 | every tile's asset name reads back as that tile |
| TileDisplay.AssetNameOfTile | src/components/Tile.tsx:9-27 | a name that reads back as a tile is exactly that tile's asset name |
| TileDisplay.AssetNameInjective | src/components/Tile.tsx:9-27 | distinct tile codes get distinct asset names |
| TileDisplay.ThemedPathNameUnique | src/components/Tile.tsx:8 | for a fixed base and theme directory, the path determines the asset name |
| TileDisplay.SvgForTileInjective | src/components/Tile.tsx:6-30 | for a fixed theme, distinct tiles get distinct artwork paths |
| TileDisplay.ShortForTile | src/components/Tile.tsx:32-54 | the compact label is one character; its colour is `base` exactly for `5z`; the winds `1z`..`4z` are blue; a numbered tile shows its numeral and is coloured by suit: m red, p blue, s green |
| TileDisplay.ShortForTileCollision | src/components/Tile.tsx:32-54 | two tiles get the same compact label exactly when they are equal or are the red five and the plain five of one suit |
| TileDisplay.ShortColorFollowsSuit | src/components/Tile.tsx:48-51 | two numbered tiles get the same compact colour exactly when their suits agree |
| TileDisplay.LetterForTile | src/components/Tile.tsx:57-79 | the overlay label has one or two characters and is never `base`; the winds `1z`..`4z` are blue; a numbered tile shows its numeral, green exactly for the red five and red otherwise, whatever the suit |
| TileDisplay.LabelsByToken | src/components/Tile.tsx:33-76 | per token: `1z`..`7z` get the compact glyphs 東 南 西 北, blank, 發, 中 (blue, blue, blue, blue, base, green, red) and the overlay texts E, S, W, N, Wh, G, R (blue, blue, blue, blue, red, red, green); a numbered token `d`+suit shows `d` (`0` as `5`) in both, compact coloured m red, p blue, s green, overlay green for `0` and red otherwise |
| TileDisplay.LetterForTileCollision | src/components/Tile.tsx:57-79 | two tiles get the same overlay label exactly when they are equal or are numbered tiles with the same digit, whatever their suits |
| TileDisplay.LabelColorSchemesDiffer | src/components/Tile.tsx:42-76 | the overlay swaps the dragons' green and red and colours the white dragon red where the compact label leaves it `base`; compact labels cannot tell a red five from a five, while the overlay colours `0` green and `5` red |
| TileRender.ShownTile | src/components/Tile.tsx:104 | the sentinel maps to the white dragon `5z`, whose artwork is used for `00`; a tile maps to itself |
| TileRender.Render | src/components/Tile.tsx:85-105 | compact mode exactly when `small && !isLg`; the sentinel's label is `(" ", base)` in both modes; compact mode shows the compact label and image mode the overlay label of a tile; image mode uses the dark path exactly when `theme == "dark"` and the light path otherwise |
| TileRender.SentinelVersusWhiteDragon | src/components/Tile.tsx:85-105 | in compact mode the sentinel renders exactly like `5z`; in image mode it uses `5z`'s artwork but renders differently, because its label is blank |
| TileRender.RenderImageInjective | src/components/Tile.tsx:104-105 | in image mode no two different inputs (tiles or the sentinel) render alike |
| TileRender.RenderCompactCollision | src/components/Tile.tsx:85-86 | in compact mode two inputs render alike exactly when they look up the same tile (equal inputs, or the sentinel and `5z`) or are a red five and the plain five of one suit |
| AssetSet.AllTilesComplete | src/components/Tile.tsx:6-30 | the enumeration of tile codes contains every tile code |
| AssetSet.AllTilesDistinct | src/components/Tile.tsx:6-30 | the enumeration lists no tile twice |
| AssetSet.AssetNameCount | src/components/Tile.tsx:6-30 | the artwork has exactly 37 distinct names, and every tile's name is one of them |
| AssetSet.AssetFileCount | src/components/Tile.tsx:6-30 | both themes together reference exactly 74 distinct files |
| AssetSet.LightIsNotDark | src/components/Tile.tsx:8 | no light-theme path equals any dark-theme path |

## Left out

- The markup itself is not modelled: the JSX tree, the `clsx` class strings and the Tailwind colour classes (`src/components/Tile.tsx:87-138`). Only the colour category that drives them is modelled. This also leaves out the overlay palette, which shows `green` as black or white text rather than green.
- The image's size classes depend on `small` (`src/components/Tile.tsx:111-113`). This is styling, and `Rendering.Image` does not carry it.
- `Render` takes `small` explicitly. In the source it is an optional prop that defaults to `false` (`src/components/Tile.tsx:81`). A `Tile` without `small` is `Render(base, x, false, isLg, theme)`, which is always image mode.
- `useTheme` and `useMediaQuery` are hooks. They become the parameters `theme` and `isLg`. The 1024 px breakpoint query is not modelled.
- `import.meta.env.BASE_URL` is deployment configuration. It becomes the opaque parameter `base`.
- `Placeholder` (`src/components/Tile.tsx:141-145`) is constant markup with no inputs or branches.
- The `TileCode` type is defined in `src/lib/hand`, which is not part of this model. Its values are restricted to the datatype here. The `default` branches treat any suit marker other than `m` or `p` as Sou, and read digits without checking them. That behaviour only shows up for codes outside the domain, so it is not modelled.
- Whether the 74 SVG files exist on disk is not modelled.
