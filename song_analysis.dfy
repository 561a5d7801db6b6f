/**
  The scraper's four steps for one artist, each as the loop the scraper runs, proved against
  the declarative definitions: the song links grouped by album, the album titles, the lyrics
  of each album, and the sentiment scores of the albums that are scored.
  The fetched pages and the sentiment scorer are parameters: `artistPage` maps a URL to the
  album list of the page found there, `songPages` maps a URL to the siblings of its lyrics
  page's "ringtone" marker, and `polarity` gives the scores of a text.
*/
module SongAnalysis {
  import opened Failures
  import opened NameFormat
  import opened Urls
  import opened ArtistPage
  import opened Lyrics

  /** The positive, negative and compound scores the scorer reports for one text. */
  datatype Polarity = Polarity(pos: real, neg: real, compound: real)

  /** The three score lists: entry i of each belongs to album i. */
  datatype Scores = Scores(pos: seq<real>, neg: seq<real>, compound: seq<real>)

  /** The album list of the artist page for a band name: fetched at the URL of its formatted name. */
  function ArtistElements(bandName: string, artistPage: string -> seq<Element>): (r: Result<seq<Element>>)
    ensures r.Err? <==> forall i :: 0 <= i < |bandName| ==> Deleted(LowerChar(bandName[i]))
    ensures r.Err? ==> r.error == EmptyArtistToken
  {
    FormatNameEmptyIff(bandName);
    var url := ArtistUrl(FormatName(bandName));
    if url.Err? then Err(url.error) else Ok(artistPage(url.value))
  }

  /** What links_by_album yields: the link walk over the page at the artist URL of the formatted name. */
  function LinksFor(bandName: string, artistPage: string -> seq<Element>): (r: Result<seq<seq<string>>>)
    ensures FormatName(bandName) == [] ==> r == Err(EmptyArtistToken)
    ensures FormatName(bandName) != [] ==> r == GroupByAlbum(artistPage(ArtistUrl(FormatName(bandName)).value))
  {
    match ArtistElements(bandName, artistPage)
    case Err(e) => Err(e)
    case Ok(page) => GroupByAlbum(page)
  }

  /** What get_album_titles yields: the title walk over the page at the artist URL of the formatted name. */
  function TitlesFor(bandName: string, artistPage: string -> seq<Element>): (r: Result<seq<string>>)
    ensures FormatName(bandName) == [] ==> r == Err(EmptyArtistToken)
    ensures FormatName(bandName) != [] ==> r == TitleWalk(artistPage(ArtistUrl(FormatName(bandName)).value))
    ensures r.Ok? ==> r.value != []
  {
    match ArtistElements(bandName, artistPage)
    case Err(e) => Err(e)
    case Ok(page) => TitleWalk(page)
  }

  /** What collate_lyrics yields: one lyrics string per list of links, or the link walk's failure. */
  function LyricsFor(bandName: string, artistPage: string -> seq<Element>, songPages: string -> SongPage): (r: Result<seq<string>>)
    ensures r.Err? <==> LinksFor(bandName, artistPage).Err?
    ensures r.Err? ==> r.error == LinksFor(bandName, artistPage).error
    ensures r.Ok? ==> |r.value| == |LinksFor(bandName, artistPage).value|
    ensures r.Ok? ==> forall i :: 0 <= i < |r.value| ==>
              r.value[i] == AlbumLyrics(LinksFor(bandName, artistPage).value[i], songPages)
  {
    match LinksFor(bandName, artistPage)
    case Err(e) => Err(e)
    case Ok(lists) => Ok(LyricsByAlbum(lists, songPages))
  }

  /** How many albums are scored: all of them, less a last one titled "Other Songs". */
  function ScoredCount(titles: seq<string>): (n: nat)
    requires titles != []
    ensures n == |titles| - 1 <==> titles[|titles| - 1] == "Other Songs"
    ensures n == |titles| <==> titles[|titles| - 1] != "Other Songs"
  {
    if titles[|titles| - 1] == "Other Songs" then |titles| - 1 else |titles|
  }

  /** The scores of a run of texts, one entry per text in each list. */
  function Scored(texts: seq<string>, polarity: string -> Polarity): (s: Scores)
    ensures |s.pos| == |s.neg| == |s.compound| == |texts|
  {
    Scores(seq(|texts|, i requires 0 <= i < |texts| => polarity(texts[i]).pos),
           seq(|texts|, i requires 0 <= i < |texts| => polarity(texts[i]).neg),
           seq(|texts|, i requires 0 <= i < |texts| => polarity(texts[i]).compound))
  }

  /**
    What the analysis yields: the lyrics are collected first and the titles second, so a failure
    of the link walk is the one reported, then one of the title walk, and a name that formats to
    "" fails on the empty token; then the first ScoredCount albums' lyrics are scored, which
    fails exactly when there are more scored titles than lists of links.
  */
  function SentimentFor(bandName: string, artistPage: string -> seq<Element>,
                        songPages: string -> SongPage, polarity: string -> Polarity): (r: Result<Scores>)
    ensures LinksFor(bandName, artistPage).Err? ==> r == Err(LinksFor(bandName, artistPage).error)
    ensures LinksFor(bandName, artistPage).Ok? && TitlesFor(bandName, artistPage).Err? ==>
              r == Err(TitlesFor(bandName, artistPage).error)
    ensures FormatName(bandName) == [] ==> r == Err(EmptyArtistToken)
    ensures LinksFor(bandName, artistPage).Ok? && TitlesFor(bandName, artistPage).Ok? ==>
              (r.Err? <==> ScoredCount(TitlesFor(bandName, artistPage).value) > |LinksFor(bandName, artistPage).value|)
  {
    match LyricsFor(bandName, artistPage, songPages)
    case Err(e) => Err(e)
    case Ok(lyrics) =>
      match TitlesFor(bandName, artistPage)
      case Err(e) => Err(e)
      case Ok(titles) => ScoreAlbums(lyrics, titles, polarity)
  }

  /**
    The scoring step: the first ScoredCount lyric strings, each scored, or the out-of-range
    failure when there are fewer.
  */
  function ScoreAlbums(lyrics: seq<string>, titles: seq<string>, polarity: string -> Polarity): (r: Result<Scores>)
    requires titles != []
    ensures r.Err? <==> ScoredCount(titles) > |lyrics|
    ensures r.Err? ==> r.error == LyricsIndexOutOfRange
    ensures r.Ok? ==> |r.value.pos| == |r.value.neg| == |r.value.compound| == ScoredCount(titles)
    ensures r.Ok? ==> forall i :: 0 <= i < ScoredCount(titles) ==>
              r.value.pos[i] == polarity(lyrics[i]).pos && r.value.neg[i] == polarity(lyrics[i]).neg &&
              r.value.compound[i] == polarity(lyrics[i]).compound
  {
    var n := ScoredCount(titles);
    if n > |lyrics| then Err(LyricsIndexOutOfRange) else Ok(Scored(lyrics[..n], polarity))
  }

  // ---------------------------------------------------------------------------------------
  // What the analysis promises

  /**
    The scored albums are all of the titled ones, less the last exactly when its heading yields
    an empty title (the trailing "other songs" bucket) or one that already reads "Other Songs".
  */
  lemma ScoredCountOfPage(page: seq<Element>, titles: seq<string>)
    requires TitleWalk(page) == Ok(titles)
    ensures ScoredCount(titles) == |titles| - 1 <==>
              TitleOf(AlbumTexts(page[..TitleStop(page)])[|titles| - 1]) in {"", "Other Songs"}
    ensures ScoredCount(titles) == |titles| <==>
              TitleOf(AlbumTexts(page[..TitleStop(page)])[|titles| - 1]) !in {"", "Other Songs"}
  {
    TitleWalkShape(page, titles);
  }

  /**
    Once both walks succeed, the analysis fails exactly when more albums are scored than there
    are lists of links; otherwise each of the three lists has one entry per scored album, and
    entry i holds the scores of album i's lyrics.
  */
  lemma SentimentShape(bandName: string, artistPage: string -> seq<Element>, songPages: string -> SongPage,
                       polarity: string -> Polarity, lists: seq<seq<string>>, titles: seq<string>)
    requires LinksFor(bandName, artistPage) == Ok(lists)
    requires TitlesFor(bandName, artistPage) == Ok(titles)
    ensures titles != []
    ensures SentimentFor(bandName, artistPage, songPages, polarity).Err? <==> ScoredCount(titles) > |lists|
    ensures SentimentFor(bandName, artistPage, songPages, polarity).Err? ==>
              SentimentFor(bandName, artistPage, songPages, polarity).error == LyricsIndexOutOfRange
    ensures SentimentFor(bandName, artistPage, songPages, polarity).Ok? ==>
              var scores := SentimentFor(bandName, artistPage, songPages, polarity).value;
              |scores.pos| == |scores.neg| == |scores.compound| == ScoredCount(titles) &&
              forall i :: 0 <= i < ScoredCount(titles) ==>
                var p := polarity(AlbumLyrics(lists[i], songPages));
                scores.pos[i] == p.pos && scores.neg[i] == p.neg && scores.compound[i] == p.compound
  {
  }

  /**
    When no song anchor of the artist page lacks its link and both walks succeed, every scored
    album has its lyrics: the analysis succeeds, with one entry per scored album.
  */
  lemma ScoringStaysInRange(bandName: string, artistPage: string -> seq<Element>, songPages: string -> SongPage,
                            polarity: string -> Polarity, page: seq<Element>)
    requires ArtistElements(bandName, artistPage) == Ok(page)
    requires forall k :: 0 <= k < TitleStop(page) ==> page[k] != Song(None)
    requires GroupByAlbum(page).Ok? && TitleWalk(page).Ok?
    ensures SentimentFor(bandName, artistPage, songPages, polarity).Ok?
    ensures |SentimentFor(bandName, artistPage, songPages, polarity).value.pos| == ScoredCount(TitleWalk(page).value)
  {
    TitlesMatchLinkLists(page, GroupByAlbum(page).value, TitleWalk(page).value);
    SentimentShape(bandName, artistPage, songPages, polarity, GroupByAlbum(page).value, TitleWalk(page).value);
  }

  /**
    An anchor without a link between two headings leaves one list of links for two titles, so
    scoring the second album reads past the lyrics list.
  */
  lemma LinklessAnchorOutOfRange(bandName: string, artistPage: string -> seq<Element>, songPages: string -> SongPage,
                                 polarity: string -> Polarity, page: seq<Element>,
                                 tag1: string, title1: string, tag2: string, title2: string)
    requires ':' !in tag1 && ':' !in tag2 && title2 != "" && title2 != "Other Songs"
    requires page == [Album(tag1 + ": " + title1), Song(None), Album(tag2 + ": " + title2), NoClass]
    requires ArtistElements(bandName, artistPage) == Ok(page)
    ensures SentimentFor(bandName, artistPage, songPages, polarity) == Err(LyricsIndexOutOfRange)
  {
    LinklessAnchorEndsLinks(page, tag1 + ": " + title1, tag2 + ": " + title2);
    LinklessAnchorKeepsTitles(page, tag1, title1, tag2, title2);
    SentimentShape(bandName, artistPage, songPages, polarity, [[]], [title1, title2]);
  }

  // ---------------------------------------------------------------------------------------
  // The scraper's loops

  /**
    The link walk: a heading opens a new list and moves the album index to it; a song entry
    appends its link to the list at the album index, which is forced to 0 when no heading has
    been seen. The walk ends at the end of the run, at an element without a class, or at an
    anchor without a link.
  */
  method GroupLinks(page: seq<Element>) returns (r: Result<seq<seq<string>>>)
    ensures r == GroupByAlbum(page)
  {
    var lists: seq<seq<string>> := [];
    var albumIndex: int := -1;
    var i := 0;
    while i < |page|
      invariant i <= LinkStop(page)
      invariant i == 0 || (page[0].Album? && lists != [])
      invariant lists == Chunks(page[..i])
      invariant albumIndex == |lists| - 1
    {
      match page[i] {
        case NoClass =>
          break;
        case Album(text) =>
          GroupStepAlbum(page, i);
          lists := lists + [[]];
          albumIndex := albumIndex + 1;
        case Song(href) =>
          if albumIndex == -1 {
            albumIndex := 0;
          }
          if albumIndex >= |lists| {
            return Err(SongBeforeAlbum);
          }
          if href.None? {
            break;
          }
          ghost var front, last := GroupStepSong(page, i);
          lists := lists[albumIndex := lists[albumIndex] + [href.value]];
      }
      i := i + 1;
    }
    LinkStopAt(page, i);
    return Ok(lists);
  }

  /** links_by_album: the link walk over the artist page of the band name. */
  method LinksByAlbum(bandName: string, artistPage: string -> seq<Element>) returns (r: Result<seq<seq<string>>>)
    ensures r == LinksFor(bandName, artistPage)
  {
    var elements := ArtistElements(bandName, artistPage);
    if elements.Err? {
      return Err(elements.error);
    }
    r := GroupLinks(elements.value);
  }

  /**
    The title walk: every heading before the first element without a class adds the text after
    its first ':' less one character; then an empty last title is renamed "Other Songs".
  */
  method CollectTitles(page: seq<Element>) returns (r: Result<seq<string>>)
    ensures r == TitleWalk(page)
  {
    var titles: seq<string> := [];
    ghost var texts: seq<string> := [];
    var i := 0;
    while i < |page|
      invariant i <= TitleStop(page)
      invariant texts == AlbumTexts(page[..i])
      invariant Labelled(texts) && titles == Titles(texts)
    {
      TitleStep(page, i);
      match page[i] {
        case NoClass =>
          break;
        case Album(text) =>
          if ':' !in text {
            UnlabelledHeadingFails(page, i);
            return Err(TitleWithoutColon);
          }
          TitlesAppend(texts, text);
          titles := titles + [TitleOf(text)];
          texts := texts + [text];
        case Song(_) =>
      }
      i := i + 1;
    }
    TitleStopAt(page, i);
    if titles == [] {
      return Err(NoAlbumTitles);
    }
    if titles[|titles| - 1] == "" {
      titles := titles[|titles| - 1 := "Other Songs"];
    }
    return Ok(titles);
  }

  /** get_album_titles: the title walk over the artist page of the band name. */
  method AlbumTitles(bandName: string, artistPage: string -> seq<Element>) returns (r: Result<seq<string>>)
    ensures r == TitlesFor(bandName, artistPage)
  {
    var elements := ArtistElements(bandName, artistPage);
    if elements.Err? {
      return Err(elements.error);
    }
    r := CollectTitles(elements.value);
  }

  /**
    collate_lyrics: for each album list, the lyrics of its songs run together in song order,
    each read by the three-way rule from the page at the song's URL.
  */
  method CollateLyrics(bandName: string, artistPage: string -> seq<Element>, songPages: string -> SongPage)
    returns (r: Result<seq<string>>)
    ensures r == LyricsFor(bandName, artistPage, songPages)
  {
    var links := LinksByAlbum(bandName, artistPage);
    if links.Err? {
      return Err(links.error);
    }
    var lists := links.value;
    var lyricsByAlbum: seq<string> := [];
    for a := 0 to |lists|
      invariant lyricsByAlbum == LyricsByAlbum(lists[..a], songPages)
    {
      var album := lists[a];
      var totalLyrics := "";
      for s := 0 to |album|
        invariant totalLyrics == AlbumLyrics(album[..s], songPages)
      {
        assert album[..s + 1][..s] == album[..s];
        var page := songPages(SongUrl(album[s]));
        var start := page(StartHops);
        match start.cls {
          case None =>
            totalLyrics := totalLyrics + page(StartHops + PlainHops).text;
          case Some(c) =>
            if c == ["feat"] {
              totalLyrics := totalLyrics + page(StartHops + FeatHops).text;
            }
        }
      }
      assert album[..|album|] == album;
      assert lists[..a + 1] == lists[..a] + [album];
      lyricsByAlbum := lyricsByAlbum + [totalLyrics];
    }
    assert lists[..|lists|] == lists;
    return Ok(lyricsByAlbum);
  }

  /**
    analyze_sentiment: scores the lyrics of the first ScoredCount albums, filling the three
    lists one album at a time.
  */
  method AnalyzeSentiment(bandName: string, artistPage: string -> seq<Element>,
                          songPages: string -> SongPage, polarity: string -> Polarity)
    returns (r: Result<Scores>)
    ensures r == SentimentFor(bandName, artistPage, songPages, polarity)
  {
    var albumLyrics := CollateLyrics(bandName, artistPage, songPages);
    if albumLyrics.Err? {
      return Err(albumLyrics.error);
    }
    var albumList := AlbumTitles(bandName, artistPage);
    if albumList.Err? {
      return Err(albumList.error);
    }
    r := FillScores(albumLyrics.value, albumList.value, polarity);
  }

  /** The scoring loop: one entry per scored album in each of the three lists. */
  method FillScores(lyrics: seq<string>, titles: seq<string>, polarity: string -> Polarity) returns (r: Result<Scores>)
    requires titles != []
    ensures r == ScoreAlbums(lyrics, titles, polarity)
  {
    var numAlbums := if titles[|titles| - 1] == "Other Songs" then |titles| - 1 else |titles|;
    var posScore, negScore, compScore := [], [], [];
    for albumIndex := 0 to numAlbums
      invariant albumIndex <= |lyrics|
      invariant Scores(posScore, negScore, compScore) == Scored(lyrics[..albumIndex], polarity)
    {
      if albumIndex >= |lyrics| {
        return Err(LyricsIndexOutOfRange);
      }
      var ss := polarity(lyrics[albumIndex]);
      assert lyrics[..albumIndex + 1] == lyrics[..albumIndex] + [lyrics[albumIndex]];
      posScore := posScore + [ss.pos];
      negScore := negScore + [ss.neg];
      compScore := compScore + [ss.compound];
    }
    return Ok(Scores(posScore, negScore, compScore));
  }
}
