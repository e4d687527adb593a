/**
 * The gallery's list of past generations: one card per generation with
 * its keywords (shortened), a count line and a status badge, or an empty
 * state when there is none.
 */
module GalleryList {
  import opened Common

  const KeywordsShown: nat := 50
  const Ellipsis := "..."

  /** `keywords.length > 50 ? `${keywords.slice(0, 50)}...` : keywords` */
  function ShortKeywords(keywords: string): (r: string)
    ensures |keywords| <= KeywordsShown ==> r == keywords
    ensures |keywords| > KeywordsShown ==>
              |r| == KeywordsShown + |Ellipsis| && r[..KeywordsShown] == keywords[..KeywordsShown]
              && r[KeywordsShown..] == Ellipsis
  {
    if |keywords| > KeywordsShown then keywords[..KeywordsShown] + Ellipsis else keywords
  }

  /** Shortening what is already shortened changes nothing. */
  lemma ShortKeywordsIdempotent(keywords: string)
    ensures ShortKeywords(ShortKeywords(keywords)) == ShortKeywords(keywords)
  {
    var r := ShortKeywords(keywords);
    if |keywords| > KeywordsShown {
      assert r[..KeywordsShown] + Ellipsis == r;
    }
  }

  /** `n !== 1 ? "s" : ""` */
  function Plural(n: int): (s: string)
    ensures s == "" <==> n == 1
    ensures s != "" ==> s == "s"
  {
    if n != 1 then "s" else ""
  }

  /** The count line: `{n} thumbnail{s}` then the background part. */
  function CountLine(thumbnailCount: int, backgroundCount: int): (line: string)
    ensures StartsWith(line, IntToString(thumbnailCount) + " thumbnail" + Plural(thumbnailCount))
    ensures backgroundCount <= 0 ==>
              line == IntToString(thumbnailCount) + " thumbnail" + Plural(thumbnailCount) + " from keywords only"
  {
    var head := IntToString(thumbnailCount) + " thumbnail" + Plural(thumbnailCount);
    var tail := if backgroundCount > 0
      then " from " + IntToString(backgroundCount) + " background" + Plural(backgroundCount)
      else " from keywords only";
    assert (head + tail)[..|head|] == head;
    head + tail
  }

  /** A positive background count is named with the same plural rule. */
  lemma CountLineNamesBackgrounds(thumbnailCount: int, backgroundCount: int)
    requires backgroundCount > 0
    ensures Contains(CountLine(thumbnailCount, backgroundCount),
                     " from " + IntToString(backgroundCount) + " background" + Plural(backgroundCount))
  {
    var head := IntToString(thumbnailCount) + " thumbnail" + Plural(thumbnailCount);
    var tail := " from " + IntToString(backgroundCount) + " background" + Plural(backgroundCount);
    assert CountLine(thumbnailCount, backgroundCount) == head + tail;
    ContainsAt(head + tail, tail, |head|);
  }

  datatype BadgeVariant = Default | Destructive | Secondary

  /** The status badge's variant. */
  function Badge(status: string): (v: BadgeVariant)
    ensures v == Default <==> status == "completed"
    ensures v == Destructive <==> status == "failed"
    ensures v == Secondary <==> status != "completed" && status != "failed"
  {
    if status == "completed" then Default
    else if status == "failed" then Destructive
    else Secondary
  }

  datatype GalleryGeneration = GalleryGeneration(
    id: string, keywords: string, backgroundCount: int, thumbnailCount: int, status: string)

  datatype GalleryCard = GalleryCard(href: string, title: string, countLine: string, badge: BadgeVariant, statusText: string)

  datatype GalleryView = EmptyGallery | Cards(cards: seq<GalleryCard>)

  function CardOf(g: GalleryGeneration): GalleryCard
  {
    GalleryCard("/gallery/" + g.id, ShortKeywords(g.keywords), CountLine(g.thumbnailCount, g.backgroundCount),
                Badge(g.status), g.status)
  }

  /** The list renders the empty state exactly for no generations, and
      otherwise one card per generation, in order, linking to it. */
  function Gallery(gens: seq<GalleryGeneration>): (v: GalleryView)
    ensures v.EmptyGallery? <==> gens == []
    ensures v.Cards? ==> |v.cards| == |gens|
    ensures v.Cards? ==> forall k :: 0 <= k < |gens| ==>
              v.cards[k].href == "/gallery/" + gens[k].id && v.cards[k].badge == Badge(gens[k].status)
              && v.cards[k].title == ShortKeywords(gens[k].keywords)
  {
    if gens == [] then EmptyGallery
    else Cards(seq(|gens|, k requires 0 <= k < |gens| => CardOf(gens[k])))
  }
}
