/**
 * The closed set of artwork files the tile component can ask for: one name
 * per tile code (ten digits in each of three suits, the red five included,
 * and seven honors), each in a light and a dark version.
 */
module AssetSet {
  import opened TileCodes
  import opened TileDisplay

  const Suits: seq<Suit> := [Man, Pin, Sou]

  /** Every tile code, each once: Man 0..9, Pin 0..9, Sou 0..9, then 1z..7z. */
  function AllTiles(): (ts: seq<TileCode>)
    ensures |ts| == 37
  {
    seq(30, i requires 0 <= i < 30 => Suited(('0' as int + i % 10) as char, Suits[i / 10]))
    + seq(7, i requires 0 <= i < 7 => Honor(i + 1))
  }

  /** The position of a tile in AllTiles. */
  function TileIndex(t: TileCode): (k: nat)
    ensures k < 37
  {
    match t
    case Suited(d, s) => (d as int - '0' as int) + 10 * (match s case Man => 0 case Pin => 1 case Sou => 2)
    case Honor(r) => 29 + r
  }

  lemma TileIndexOfAllTiles(k: nat)
    requires k < 37
    ensures TileIndex(AllTiles()[k]) == k
  {
  }

  lemma AllTilesAt(t: TileCode)
    ensures AllTiles()[TileIndex(t)] == t
  {
  }

  /** AllTiles lists every tile code. */
  lemma AllTilesComplete(t: TileCode)
    ensures t in AllTiles()
  {
    AllTilesAt(t);
  }

  predicate Distinct(ts: seq<TileCode>)
  {
    forall i, j :: 0 <= i < j < |ts| ==> ts[i] != ts[j]
  }

  /** AllTiles lists no tile twice. */
  lemma AllTilesDistinct()
    ensures Distinct(AllTiles())
  {
    forall i, j | 0 <= i < j < 37
      ensures AllTiles()[i] != AllTiles()[j]
    {
      TileIndexOfAllTiles(i);
      TileIndexOfAllTiles(j);
    }
  }

  /** The asset names of a list of tiles. */
  function Names(ts: seq<TileCode>): set<string>
  {
    if ts == [] then {} else {AssetName(ts[0])} + Names(ts[1..])
  }

  /** The light and dark asset paths of a list of tiles. */
  function Files(base: string, ts: seq<TileCode>): set<string>
  {
    if ts == [] then {}
    else {SvgForTile(base, ts[0]).light, SvgForTile(base, ts[0]).dark} + Files(base, ts[1..])
  }

  lemma {:induction false} InNames(ts: seq<TileCode>, n: string)
    requires n in Names(ts)
    ensures exists k :: 0 <= k < |ts| && AssetName(ts[k]) == n
  {
    if AssetName(ts[0]) != n {
      InNames(ts[1..], n);
      var k :| 0 <= k < |ts| - 1 && AssetName(ts[1..][k]) == n;
      assert AssetName(ts[k + 1]) == n;
    }
  }

  lemma {:induction false} InFiles(base: string, ts: seq<TileCode>, f: string)
    requires f in Files(base, ts)
    ensures exists k :: 0 <= k < |ts| && (f == SvgForTile(base, ts[k]).light || f == SvgForTile(base, ts[k]).dark)
  {
    if f != SvgForTile(base, ts[0]).light && f != SvgForTile(base, ts[0]).dark {
      InFiles(base, ts[1..], f);
      var k :| 0 <= k < |ts| - 1 && (f == SvgForTile(base, ts[1..][k]).light || f == SvgForTile(base, ts[1..][k]).dark);
      assert ts[1..][k] == ts[k + 1];
    }
  }

  /** Distinct tiles give as many distinct names as there are tiles. */
  lemma {:induction false} NamesCount(ts: seq<TileCode>)
    requires Distinct(ts)
    ensures |Names(ts)| == |ts|
  {
    if ts != [] {
      NamesCount(ts[1..]);
      if AssetName(ts[0]) in Names(ts[1..]) {
        InNames(ts[1..], AssetName(ts[0]));
        var k :| 0 <= k < |ts| - 1 && AssetName(ts[1..][k]) == AssetName(ts[0]);
        AssetNameInjective(ts[0], ts[k + 1]);
        assert false;
      }
    }
  }

  /** A light path is never a dark path, whatever the two tiles. */
  lemma LightIsNotDark(base: string, a: TileCode, b: TileCode)
    ensures SvgForTile(base, a).light != SvgForTile(base, b).dark
  {
    var k := |base| + 6;
    assert SvgForTile(base, a).light[k] == 'l';
    assert SvgForTile(base, b).dark[k] == 'd';
  }

  /** Distinct tiles give two distinct files each. */
  lemma {:induction false} FilesCount(base: string, ts: seq<TileCode>)
    requires Distinct(ts)
    ensures |Files(base, ts)| == 2 * |ts|
  {
    if ts != [] {
      var p := SvgForTile(base, ts[0]);
      FilesCount(base, ts[1..]);
      forall f | f in {p.light, p.dark}
        ensures f !in Files(base, ts[1..])
      {
        if f in Files(base, ts[1..]) {
          InFiles(base, ts[1..], f);
          var k :| 0 <= k < |ts| - 1 && (f == SvgForTile(base, ts[1..][k]).light || f == SvgForTile(base, ts[1..][k]).dark);
          var q := SvgForTile(base, ts[k + 1]);
          if f == p.light && f == q.light {
            SvgForTileInjective(base, ts[0], ts[k + 1], false);
          } else if f == p.dark && f == q.dark {
            SvgForTileInjective(base, ts[0], ts[k + 1], true);
          } else if f == p.light {
            LightIsNotDark(base, ts[0], ts[k + 1]);
          } else {
            LightIsNotDark(base, ts[k + 1], ts[0]);
          }
          assert false;
        }
      }
      assert p.light != p.dark;
    }
  }

  /** The artwork comes in 37 distinct names and every tile's name is one of them. */
  lemma AssetNameCount()
    ensures |Names(AllTiles())| == 37
    ensures forall t :: AssetName(t) in Names(AllTiles())
  {
    AllTilesDistinct();
    NamesCount(AllTiles());
    forall t ensures AssetName(t) in Names(AllTiles()) {
      AllTilesComplete(t);
      NameOfListed(AllTiles(), t);
    }
  }

  lemma {:induction false} NameOfListed(ts: seq<TileCode>, t: TileCode)
    requires t in ts
    ensures AssetName(t) in Names(ts)
  {
    if ts[0] != t {
      NameOfListed(ts[1..], t);
    }
  }

  /** Both themes together need 74 distinct files. */
  lemma AssetFileCount(base: string)
    ensures |Files(base, AllTiles())| == 74
  {
    AllTilesDistinct();
    FilesCount(base, AllTiles());
  }
}
