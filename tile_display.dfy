/**
 * The display data of one tile: the pair of themed SVG asset paths, the
 * one-glyph label of the compact rendering and the Latin overlay label of
 * the image rendering, each with its colour category.
 */
module TileDisplay {
  import opened TileCodes

  /** The colour category that drives the label's styling. */
  datatype Color = Base | Blue | Green | Red

  datatype Label = Label(text: string, color: Color)

  /** The asset for the light theme and the one for the dark theme. */
  datatype AssetPaths = AssetPaths(light: string, dark: string)

  const LightDir: string := "tiles/light/"
  const DarkDir: string := "tiles/dark/"
  const SvgExt: string := ".svg"

  /** The red five is labelled as a plain five. */
  function Numeral(d: Digit): (c: char)
    ensures '1' <= c <= '9'
    ensures c == d || (d == '0' && c == '5')
  {
    if d == '0' then '5' else d
  }

  // ---------------------------------------------------------------- assets

  function SuitWord(s: Suit): (w: string)
    ensures |w| == 3
  {
    match s
    case Man => "Man"
    case Pin => "Pin"
    case Sou => "Sou"
  }

  function HonorName(r: HonorRank): string
  {
    match r
    case 1 => "Ton"
    case 2 => "Nan"
    case 3 => "Shaa"
    case 4 => "Pei"
    case 5 => "Haku"
    case 6 => "Hatsu"
    case 7 => "Chun"
  }

  /** The file name, without directory or extension, of a tile's artwork. */
  function AssetName(t: TileCode): (name: string)
    ensures 3 <= |name| <= 9
    ensures t.Suited? ==> SuitWord(t.suit) <= name
  {
    match t
    case Honor(r) => HonorName(r)
    case Suited(d, s) => SuitWord(s) + (if d == '0' then "5-Dora" else [d])
  }

  /** Both themed paths of an asset: base prefix, theme directory, name, `.svg`. */
  function ThemedPaths(base: string, name: string): (p: AssetPaths)
    ensures base + LightDir <= p.light && base + DarkDir <= p.dark
    ensures p.light[|base + LightDir|..] == p.dark[|base + DarkDir|..] == name + SvgExt
    ensures p.light != p.dark
  {
    var p := AssetPaths(base + LightDir + name + SvgExt, base + DarkDir + name + SvgExt);
    assert p.light[|base| + 6] == 'l' && p.dark[|base| + 6] == 'd';
    p
  }

  /** The pair of asset paths for a tile. */
  function SvgForTile(base: string, t: TileCode): (p: AssetPaths)
    ensures base + LightDir <= p.light && base + DarkDir <= p.dark
    ensures p.light[|base + LightDir|..] == p.dark[|base + DarkDir|..] == AssetName(t) + SvgExt
    ensures p.light != p.dark
  {
    ThemedPaths(base, AssetName(t))
  }

  // ---------------------------------------------------------------- labels

  /** The compact label: one glyph, coloured by suit for numbered tiles. */
  function ShortForTile(t: TileCode): (l: Label)
    ensures |l.text| == 1
    ensures l.color == Base <==> t == Honor(5)
    ensures t.Suited? ==> l.text == [Numeral(t.digit)]
    ensures t.Suited? ==> l.color == (match t.suit case Man => Red case Pin => Blue case Sou => Green)
    ensures t.Honor? && t.rank <= 4 ==> l.color == Blue
  {
    match t
    case Honor(1) => Label("東", Blue)
    case Honor(2) => Label("南", Blue)
    case Honor(3) => Label("西", Blue)
    case Honor(4) => Label("北", Blue)
    case Honor(5) => Label(" ", Base)
    case Honor(6) => Label("發", Green)
    case Honor(7) => Label("中", Red)
    case Suited(d, s) =>
      var color := match s case Man => Red case Pin => Blue case Sou => Green;
      Label([Numeral(d)], color)
  }

  /** The overlay label: a Latin abbreviation or numeral, coloured by the red-five flag for numbered tiles. */
  function LetterForTile(t: TileCode): (l: Label)
    ensures 1 <= |l.text| <= 2
    ensures l.color != Base
    ensures t.Suited? ==> l.text == [Numeral(t.digit)]
    ensures t.Suited? ==> (l.color == Green <==> t.digit == '0')
    ensures t.Suited? ==> (l.color == Red <==> t.digit != '0')
    ensures t.Honor? && t.rank <= 4 ==> l.color == Blue
  {
    match t
    case Honor(1) => Label("E", Blue)
    case Honor(2) => Label("S", Blue)
    case Honor(3) => Label("W", Blue)
    case Honor(4) => Label("N", Blue)
    case Honor(5) => Label("Wh", Red)
    case Honor(6) => Label("G", Red)
    case Honor(7) => Label("R", Green)
    case Suited(d, _) =>
      Label([Numeral(d)], if d == '0' then Green else Red)
  }

  // ---------------------------------------------------------------- asset name facts

  function SuitOfWord(w: string): (r: Option<Suit>)
    ensures r.Some? ==> SuitWord(r.value) == w
  {
    if w == "Man" then Some(Man)
    else if w == "Pin" then Some(Pin)
    else if w == "Sou" then Some(Sou)
    else None
  }

  function HonorOfName(name: string): (r: Option<HonorRank>)
    ensures r.Some? ==> HonorName(r.value) == name
  {
    if name == "Ton" then Some(1)
    else if name == "Nan" then Some(2)
    else if name == "Shaa" then Some(3)
    else if name == "Pei" then Some(4)
    else if name == "Haku" then Some(5)
    else if name == "Hatsu" then Some(6)
    else if name == "Chun" then Some(7)
    else None
  }

  /** Reads an asset name back into the tile whose artwork it is. */
  function TileOfAssetName(name: string): (r: Option<TileCode>)
  {
    match HonorOfName(name)
    case Some(rank) => Some(Honor(rank))
    case None =>
      if |name| < 4 then None
      else match SuitOfWord(name[..3])
        case None => None
        case Some(s) =>
          var rest := name[3..];
          if rest == "5-Dora" then Some(Suited('0', s))
          else if |rest| == 1 && '1' <= rest[0] <= '9' then Some(Suited(rest[0], s))
          else None
  }

  /** Every tile's asset name reads back as that tile. */
  lemma AssetNameRoundTrip(t: TileCode)
    ensures TileOfAssetName(AssetName(t)) == Some(t)
  {
    match t
    case Honor(r) =>
    case Suited(d, s) =>
      var name := AssetName(t);
      assert name[..3] == SuitWord(s);
      assert HonorOfName(name) == None by {
        if d == '0' { assert |name| == 9; } else { assert |name| == 4; }
      }
  }

  /** A name that reads back as a tile is exactly that tile's asset name. */
  lemma AssetNameOfTile(name: string, t: TileCode)
    requires TileOfAssetName(name) == Some(t)
    ensures AssetName(t) == name
  {
  }

  /** Distinct tiles get distinct artwork. */
  lemma AssetNameInjective(a: TileCode, b: TileCode)
    requires AssetName(a) == AssetName(b)
    ensures a == b
  {
    AssetNameRoundTrip(a);
    AssetNameRoundTrip(b);
  }

  /**
   * The asset name seen from the token the source switches on: the seven
   * honor tokens have fixed names, a numbered token is the suit word followed
   * by its digit, with `0` spelled `5-Dora`.
   */
  lemma AssetNameByToken(s: string, t: TileCode)
    requires Parse(s) == Some(Face(t))
    ensures s == "1z" ==> AssetName(t) == "Ton"
    ensures s == "2z" ==> AssetName(t) == "Nan"
    ensures s == "3z" ==> AssetName(t) == "Shaa"
    ensures s == "4z" ==> AssetName(t) == "Pei"
    ensures s == "5z" ==> AssetName(t) == "Haku"
    ensures s == "6z" ==> AssetName(t) == "Hatsu"
    ensures s == "7z" ==> AssetName(t) == "Chun"
    ensures s[1] == 'm' ==> AssetName(t) == "Man" + (if s[0] == '0' then "5-Dora" else [s[0]])
    ensures s[1] == 'p' ==> AssetName(t) == "Pin" + (if s[0] == '0' then "5-Dora" else [s[0]])
    ensures s[1] == 's' ==> AssetName(t) == "Sou" + (if s[0] == '0' then "5-Dora" else [s[0]])
  {
  }

  /** The name between the theme directory and `.svg` determines the path. */
  lemma ThemedPathNameUnique(base: string, dir: string, n1: string, n2: string)
    requires base + dir + n1 + SvgExt == base + dir + n2 + SvgExt
    ensures n1 == n2
  {
    var k := |base + dir|;
    var p1 := base + dir + n1 + SvgExt;
    var p2 := base + dir + n2 + SvgExt;
    assert n1 == p1[k..|p1| - 4];
    assert n2 == p2[k..|p2| - 4];
  }

  /** For a fixed theme, distinct tiles get distinct asset paths. */
  lemma SvgForTileInjective(base: string, a: TileCode, b: TileCode, dark: bool)
    requires dark ==> SvgForTile(base, a).dark == SvgForTile(base, b).dark
    requires !dark ==> SvgForTile(base, a).light == SvgForTile(base, b).light
    ensures a == b
  {
    ThemedPathNameUnique(base, if dark then DarkDir else LightDir, AssetName(a), AssetName(b));
    AssetNameInjective(a, b);
  }

  // ---------------------------------------------------------------- label facts

  /** A red five and the plain five of the same suit, in either order. */
  predicate SameFiveOfSuit(a: TileCode, b: TileCode)
  {
    a.Suited? && b.Suited? && a.suit == b.suit && a.digit != b.digit && a.digit in "05" && b.digit in "05"
  }

  /**
   * The compact label tells tiles apart except the red five from the plain
   * five of the same suit.
   */
  lemma ShortForTileCollision(a: TileCode, b: TileCode)
    ensures ShortForTile(a) == ShortForTile(b) <==> a == b || SameFiveOfSuit(a, b)
  {
  }

  /** The compact label of a numbered tile is coloured by its suit alone. */
  lemma ShortColorFollowsSuit(a: TileCode, b: TileCode)
    requires a.Suited? && b.Suited?
    ensures ShortForTile(a).color == ShortForTile(b).color <==> a.suit == b.suit
  {
  }

  /**
   * The overlay label tells honors apart, and numbered tiles only by digit:
   * the suit is not shown, but the red five differs from the plain five.
   */
  lemma LetterForTileCollision(a: TileCode, b: TileCode)
    ensures LetterForTile(a) == LetterForTile(b) <==>
      a == b || (a.Suited? && b.Suited? && a.digit == b.digit)
  {
  }

  /**
   * Both labels seen from the token the source switches on: the compact
   * glyph and colour and the overlay text and colour of every honor token,
   * and the colours of a numbered token in each scheme.
   */
  lemma LabelsByToken(s: string, t: TileCode)
    requires Parse(s) == Some(Face(t))
    ensures s == "1z" ==> ShortForTile(t) == Label("東", Blue) && LetterForTile(t) == Label("E", Blue)
    ensures s == "2z" ==> ShortForTile(t) == Label("南", Blue) && LetterForTile(t) == Label("S", Blue)
    ensures s == "3z" ==> ShortForTile(t) == Label("西", Blue) && LetterForTile(t) == Label("W", Blue)
    ensures s == "4z" ==> ShortForTile(t) == Label("北", Blue) && LetterForTile(t) == Label("N", Blue)
    ensures s == "5z" ==> ShortForTile(t) == Label(" ", Base) && LetterForTile(t) == Label("Wh", Red)
    ensures s == "6z" ==> ShortForTile(t) == Label("發", Green) && LetterForTile(t) == Label("G", Red)
    ensures s == "7z" ==> ShortForTile(t) == Label("中", Red) && LetterForTile(t) == Label("R", Green)
    ensures s[1] == 'm' ==> ShortForTile(t).color == Red
    ensures s[1] == 'p' ==> ShortForTile(t).color == Blue
    ensures s[1] == 's' ==> ShortForTile(t).color == Green
    ensures s[1] != 'z' ==> ShortForTile(t).text == LetterForTile(t).text == [if s[0] == '0' then '5' else s[0]]
    ensures s[1] != 'z' ==> LetterForTile(t).color == (if s[0] == '0' then Green else Red)
  {
  }

  /**
   * The two label schemes disagree on colour: for dragons the overlay swaps
   * green and red, the white dragon is red instead of uncoloured, and
   * numbered tiles are coloured by suit in one and by the red-five flag in
   * the other.
   */
  lemma LabelColorSchemesDiffer(s: Suit)
    ensures ShortForTile(Honor(6)).color == Green && LetterForTile(Honor(6)).color == Red
    ensures ShortForTile(Honor(7)).color == Red && LetterForTile(Honor(7)).color == Green
    ensures ShortForTile(Honor(5)).color == Base && LetterForTile(Honor(5)).color == Red
    ensures ShortForTile(Suited('0', s)) == ShortForTile(Suited('5', s))
    ensures LetterForTile(Suited('0', s)) == Label("5", Green)
    ensures LetterForTile(Suited('5', s)) == Label("5", Red)
  {
  }
}
