/**
 * Tile codes of a riichi mahjong hand, as the tile component receives them.
 *
 * A code is a two-character token: a digit followed by a suit marker
 * (`m` Man, `p` Pin, `s` Sou) for a numbered tile, where the digit `0`
 * stands for the red five of that suit; or `1z`..`7z` for the honors
 * (East, South, West, North winds, then White, Green, Red dragons).
 * The renderer also accepts the token `00`, which stands for a face-down
 * tile. Only these tokens are in the domain: the datatype below has no
 * value for anything else.
 */
module TileCodes {

  datatype Option<T> = None | Some(value: T)

  datatype Suit = Man | Pin | Sou

  /** The digit of a numbered tile; `'0'` is the red five. */
  type Digit = c: char | '0' <= c <= '9' witness '0'

  /** 1..4 are the winds East, South, West, North; 5..7 the dragons White, Green, Red. */
  type HonorRank = n: int | 1 <= n <= 7 witness 1

  datatype TileCode = Suited(digit: Digit, suit: Suit) | Honor(rank: HonorRank)

  /** The tile component's argument: a tile, or the face-down sentinel `00`. */
  datatype TileOrSentinel = Sentinel | Face(tile: TileCode)

  function SuitMarker(s: Suit): (c: char)
    ensures c in "mps"
  {
    match s
    case Man => 'm'
    case Pin => 'p'
    case Sou => 's'
  }

  function SuitOfMarker(c: char): (r: Option<Suit>)
    ensures r.Some? <==> c in "mps"
    ensures r.Some? ==> SuitMarker(r.value) == c
  {
    if c == 'm' then Some(Man)
    else if c == 'p' then Some(Pin)
    else if c == 's' then Some(Sou)
    else None
  }

  /** The two-character token of a tile. */
  function Code(t: TileCode): (s: string)
    ensures |s| == 2 && '0' <= s[0] <= '9'
    ensures s[1] == 'z' <==> t.Honor?
  {
    match t
    case Suited(d, suit) => [d, SuitMarker(suit)]
    case Honor(r) => [('0' as int + r) as char, 'z']
  }

  /** The token the renderer receives for a tile or the sentinel. */
  function CodeOf(x: TileOrSentinel): (s: string)
    ensures |s| == 2
    ensures s == "00" <==> x.Sentinel?
  {
    match x
    case Sentinel => "00"
    case Face(t) => Code(t)
  }

  /** Reads a token back; `None` for every string that is not a tile code or `00`. */
  function Parse(s: string): (r: Option<TileOrSentinel>)
    ensures r.Some? ==> |s| == 2
  {
    if |s| != 2 then None
    else if s == "00" then Some(Sentinel)
    else if s[1] == 'z' then
      if '1' <= s[0] <= '7' then Some(Face(Honor(s[0] as int - '0' as int))) else None
    else if '0' <= s[0] <= '9' then
      match SuitOfMarker(s[1])
      case Some(suit) => Some(Face(Suited(s[0], suit)))
      case None => None
    else None
  }

  /** Every tile and the sentinel read back from their token. */
  lemma ParseCodeOf(x: TileOrSentinel)
    ensures Parse(CodeOf(x)) == Some(x)
  {
  }

  /** A token that reads as a tile or the sentinel is exactly that tile's token. */
  lemma CodeOfParse(s: string, x: TileOrSentinel)
    requires Parse(s) == Some(x)
    ensures CodeOf(x) == s
  {
  }

  /** Distinct tiles have distinct tokens. */
  lemma CodeInjective(a: TileOrSentinel, b: TileOrSentinel)
    requires CodeOf(a) == CodeOf(b)
    ensures a == b
  {
  }
}
