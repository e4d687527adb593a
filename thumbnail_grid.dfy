/**
 * The grid of a generation's thumbnails: a failed tile shows its error,
 * a successful tile shows the image with a download name, its prompt and,
 * when known, which background it was made from.
 */
module ThumbnailGrid {
  import opened Common

  const NoThumbnails := "No thumbnails generated yet."
  const GenerationFailed := "Generation failed"

  /** A `thumbnails` row as the grid receives it; every column but the id
      and URL may be null. */
  datatype GridThumbnail = GridThumbnail(
    id: string,
    publicUrl: string,
    prompt: Option<string>,
    promptIndex: Option<int>,
    backgroundIndex: Option<int>,
    status: Option<string>,
    errorMessage: Option<string>)

  datatype Tile =
    | FailedTile(message: string)
    | ImageTile(src: string, alt: string, downloadName: string, promptText: string, backgroundLabel: Option<string>)

  datatype GridView = EmptyGrid(text: string) | Tiles(tiles: seq<Tile>)

  /** `(index ?? 0) + 1` */
  function OneBased(index: Option<int>): int
  {
    (if index.Some? then index.value else 0) + 1
  }

  /** `thumbnail_${(prompt_index ?? 0) + 1}_bg${(background_index ?? 0) + 1}.png` */
  function DownloadName(t: GridThumbnail): string
  {
    "thumbnail_" + IntToString(OneBased(t.promptIndex)) + "_bg" + IntToString(OneBased(t.backgroundIndex)) + ".png"
  }

  lemma IntToStringNoUnderscore(i: int)
    ensures '_' !in IntToString(i)
  {
    var s := IntToString(i);
    if i < 0 {
      assert forall k :: 1 <= k < |s| ==> s[k] == NatToString(-i)[k - 1];
    }
  }

  /** The download name determines both indexes: tiles with different
      effective indexes get different names, and a missing index counts
      as index 0. */
  lemma DownloadNameDeterminesIndexes(a: GridThumbnail, b: GridThumbnail)
    requires DownloadName(a) == DownloadName(b)
    ensures OneBased(a.promptIndex) == OneBased(b.promptIndex)
    ensures OneBased(a.backgroundIndex) == OneBased(b.backgroundIndex)
  {
    var pa, pb := IntToString(OneBased(a.promptIndex)), IntToString(OneBased(b.promptIndex));
    var ba, bb := IntToString(OneBased(a.backgroundIndex)), IntToString(OneBased(b.backgroundIndex));
    IntToStringNoUnderscore(OneBased(a.promptIndex));
    IntToStringNoUnderscore(OneBased(b.promptIndex));
    var prefix := "thumbnail_";
    var x, y := DownloadName(a), DownloadName(b);
    assert x == prefix + (pa + "_bg" + ba + ".png");
    assert y == prefix + (pb + "_bg" + bb + ".png");
    assert x[|prefix|..] == pa + "_bg" + ba + ".png";
    assert y[|prefix|..] == pb + "_bg" + bb + ".png";
    UnderscoreSplit(pa, ba, pb, bb);
    IntToStringInjective(OneBased(a.promptIndex), OneBased(b.promptIndex));
    IntToStringInjective(OneBased(a.backgroundIndex), OneBased(b.backgroundIndex));
  }

  /** The first '_' after a rendered number separates the two numbers. */
  lemma UnderscoreSplit(pa: string, ba: string, pb: string, bb: string)
    requires '_' !in pa && '_' !in pb
    requires pa + "_bg" + ba + ".png" == pb + "_bg" + bb + ".png"
    ensures pa == pb && ba == bb
  {
    var s := pa + "_bg" + ba + ".png";
    var t := pb + "_bg" + bb + ".png";
    assert s[|pa|] == '_' && t[|pb|] == '_';
    assert forall k :: 0 <= k < |pa| ==> s[k] == pa[k];
    assert forall k :: 0 <= k < |pb| ==> t[k] == pb[k];
    assert |pa| == |pb|;
    assert pa == s[..|pa|] == pb;
    assert ba == s[|pa| + 3..|s| - 4] == bb;
  }

  /** A missing index and index 0 give the same name. */
  lemma NullIndexIsZero(t: GridThumbnail)
    ensures DownloadName(t.(promptIndex := None)) == DownloadName(t.(promptIndex := Some(0)))
    ensures DownloadName(t.(backgroundIndex := None)) == DownloadName(t.(backgroundIndex := Some(0)))
  {
  }

  /** One thumbnail's tile. */
  function TileOf(t: GridThumbnail): (tile: Tile)
    ensures tile.FailedTile? <==> t.status == Some("failed")
    ensures tile.FailedTile? ==> tile.message == OrElse(t.errorMessage, GenerationFailed) && tile.message != ""
    ensures tile.ImageTile? ==>
              && tile.src == t.publicUrl
              && tile.downloadName == DownloadName(t)
              && tile.promptText == OrElse(t.prompt, "No prompt available")
              && tile.alt == OrElse(t.prompt, "Generated thumbnail")
              && (tile.backgroundLabel.Some? <==> t.backgroundIndex.Some?)
              && (t.backgroundIndex.Some? ==>
                    tile.backgroundLabel.value == "Background " + IntToString(t.backgroundIndex.value + 1))
  {
    if t.status == Some("failed") then FailedTile(OrElse(t.errorMessage, GenerationFailed))
    else
      ImageTile(t.publicUrl, OrElse(t.prompt, "Generated thumbnail"), DownloadName(t),
                OrElse(t.prompt, "No prompt available"),
                if t.backgroundIndex.Some? then Some("Background " + IntToString(t.backgroundIndex.value + 1)) else None)
  }

  /** The grid: the empty text exactly when there is nothing to show,
      otherwise one tile per thumbnail in order. */
  function Grid(ts: seq<GridThumbnail>): (v: GridView)
    ensures v.EmptyGrid? <==> ts == []
    ensures v.EmptyGrid? ==> v.text == NoThumbnails
    ensures v.Tiles? ==> |v.tiles| == |ts| && forall k :: 0 <= k < |ts| ==> v.tiles[k] == TileOf(ts[k])
  {
    if ts == [] then EmptyGrid(NoThumbnails)
    else Tiles(seq(|ts|, k requires 0 <= k < |ts| => TileOf(ts[k])))
  }
}
