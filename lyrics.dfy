/**
  A song's lyrics page, seen from the element classed "ringtone": sibling k is the element
  reached by k sibling hops from it. Which sibling holds the lyrics depends on whether the
  page carries a credit line naming a featured or original artist.
*/
module Lyrics {
  import opened Failures
  import opened Urls
  import opened Joins

  /** An element of a lyrics page: its class attribute, when it has one, and its text. */
  datatype Node = Node(cls: Option<seq<string>>, text: string)

  /** The siblings of the "ringtone" marker, by the number of hops that reach them. */
  type SongPage = nat -> Node

  /** The element inspected for a credit line. */
  const StartHops: nat := 5
  /** Hops from that element to the lyrics when it is a credit line. */
  const FeatHops: nat := 5
  /** Hops from that element to the lyrics when it has no class. */
  const PlainHops: nat := 2

  /**
    The text one song contributes to its album: a credit line (class exactly ["feat"]) puts the
    lyrics further down, an element without a class puts them just below, and an element with
    any other class contributes nothing.
  */
  function SongLyrics(page: SongPage): (lyrics: string)
    ensures page(StartHops).cls == Some(["feat"]) ==> lyrics == page(StartHops + FeatHops).text
    ensures page(StartHops).cls == None ==> lyrics == page(StartHops + PlainHops).text
    ensures page(StartHops).cls.Some? && page(StartHops).cls.value != ["feat"] ==> lyrics == ""
  {
    var start := page(StartHops);
    match start.cls
    case None => page(StartHops + PlainHops).text
    case Some(c) => if c == ["feat"] then page(StartHops + FeatHops).text else ""
  }

  /** Only three siblings matter: the start element and the two places the lyrics can be. */
  lemma SongLyricsReadsThreeSiblings(p: SongPage, q: SongPage)
    requires p(StartHops) == q(StartHops)
    requires p(StartHops + PlainHops) == q(StartHops + PlainHops)
    requires p(StartHops + FeatHops) == q(StartHops + FeatHops)
    ensures SongLyrics(p) == SongLyrics(q)
  {
  }

  /**
    A credit line pushes the lyrics three siblings further down: a page with one reads the same
    lyrics as the page without it, whose lyrics sit three siblings higher.
  */
  lemma CreditLineSkipped(credited: SongPage, plain: SongPage)
    requires credited(StartHops).cls == Some(["feat"])
    requires plain(StartHops).cls == None
    requires forall k :: StartHops < k ==> credited(k + 3) == plain(k)
    ensures SongLyrics(credited) == SongLyrics(plain)
  {
    assert credited(StartHops + PlainHops + 3) == plain(StartHops + PlainHops);
  }

  /** The lyrics one song link contributes, read by the three-way rule from the page at its song URL. */
  function LinkLyrics(href: string, songPages: string -> SongPage): (lyrics: string)
    ensures var page := songPages(SongUrl(href));
      && (page(StartHops).cls == Some(["feat"]) ==> lyrics == page(StartHops + FeatHops).text)
      && (page(StartHops).cls == None ==> lyrics == page(StartHops + PlainHops).text)
      && (page(StartHops).cls.Some? && page(StartHops).cls.value != ["feat"] ==> lyrics == "")
  {
    SongLyrics(songPages(SongUrl(href)))
  }

  /** The texts of an album's songs, one per link, in song order. */
  function SongTexts(album: seq<string>, songPages: string -> SongPage): (texts: seq<string>)
    ensures |texts| == |album|
  {
    seq(|album|, i requires 0 <= i < |album| => LinkLyrics(album[i], songPages))
  }

  /** An album's lyrics: its songs' texts run together in song order, with no separator. */
  function AlbumLyrics(album: seq<string>, songPages: string -> SongPage): (lyrics: string)
    ensures lyrics == Flatten(SongTexts(album, songPages))
  {
    if album == [] then ""
    else
      var front := album[..|album| - 1];
      var last := LinkLyrics(album[|album| - 1], songPages);
      assert SongTexts(album, songPages) == SongTexts(front, songPages) + [last];
      FlattenAppend(SongTexts(front, songPages), [last]);
      assert Flatten([last]) == last;
      AlbumLyrics(front, songPages) + last
  }

  /** Album lyrics concatenate: the lyrics of two runs of links are each run's lyrics, in order. */
  lemma AlbumLyricsAppend(a: seq<string>, b: seq<string>, songPages: string -> SongPage)
    ensures AlbumLyrics(a + b, songPages) == AlbumLyrics(a, songPages) + AlbumLyrics(b, songPages)
  {
    assert SongTexts(a + b, songPages) == SongTexts(a, songPages) + SongTexts(b, songPages);
    FlattenAppend(SongTexts(a, songPages), SongTexts(b, songPages));
  }

  /** The first song's text opens the album's lyrics. */
  lemma AlbumLyricsCons(href: string, rest: seq<string>, songPages: string -> SongPage)
    ensures AlbumLyrics([href] + rest, songPages) == LinkLyrics(href, songPages) + AlbumLyrics(rest, songPages)
  {
    AlbumLyricsAppend([href], rest, songPages);
    assert [href][..0] == [];
  }

  /** One lyrics string per album list, in album order. */
  function LyricsByAlbum(lists: seq<seq<string>>, songPages: string -> SongPage): (lyrics: seq<string>)
    ensures |lyrics| == |lists|
  {
    seq(|lists|, i requires 0 <= i < |lists| => AlbumLyrics(lists[i], songPages))
  }

  /**
    Run together, the album strings are the lyrics of every link of every album, in album
    order and song order: grouping by album loses and reorders nothing.
  */
  lemma {:induction false} LyricsByAlbumConcat(lists: seq<seq<string>>, songPages: string -> SongPage)
    ensures Flatten(LyricsByAlbum(lists, songPages)) == AlbumLyrics(Flatten(lists), songPages)
  {
    if lists != [] {
      var tail := lists[1..];
      LyricsByAlbumConcat(tail, songPages);
      assert LyricsByAlbum(lists, songPages)[1..] == LyricsByAlbum(tail, songPages);
      AlbumLyricsAppend(lists[0], Flatten(tail), songPages);
    }
  }
}
