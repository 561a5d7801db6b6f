# Song sentiment analysis: a verified model of the scraper core

The scraper takes an artist's name, looks up the artist's page on the AZ Lyrics site, and
groups the song links on that page by album. It then fetches every song's lyrics page and runs
each album's lyrics together into one string. Next it reads the album titles from the artist's
page, fetched again. Finally it scores the lyrics strings with a sentiment analyser, leaving
out a trailing "Other Songs" bucket.

This project models the deterministic part of that pipeline:

- **`NameFormat`** (`name_format.dfy`) models the artist-name normaliser. It lowercases ASCII
  capitals, deletes the 32 punctuation characters of Python's `string.punctuation` and deletes
  the space character. Other whitespace is kept.
- **`Urls`** (`urls.dfy`) builds the artist URL `https://www.azlyrics.com/<t[0]>/<t>.html`, which
  fails on an empty token. It also builds the song URL, which is the site root plus the link
  with its first two characters sliced off.
- **`ArtistPage`** (`artist_page.dfy`) sees the artist page's album list as a flat run of elements:
  a heading `Album(text)`, a song entry `Song(href)` whose anchor may lack its link, or an
  element with no class. The module defines declaratively what the link walk and the title
  walk yield, and proves what they promise.
- **`Lyrics`** (`lyrics.dfy`) models a lyrics page as the siblings of its "ringtone" marker.
  - A credit line (class `["feat"]`) five siblings down puts the lyrics five further.
  - An element without a class there puts them two further.
  - Any other class contributes nothing.

  An album's lyrics are its songs' texts joined in order with no separator.
- **`SongAnalysis`** (`song_analysis.dfy`) has the scraper's four functions as methods with the
  same loops: `LinksByAlbum`, `AlbumTitles`, `CollateLyrics` and `AnalyzeSentiment`. Each is
  proved to compute the declarative definition, and lemmas cover the pipeline as a whole.
  Every `IndexError` the scraper does not catch is an `Err` of `Failures.Error`; the other
  uncaught failures are listed under "## Left out".
- **`Failures`** (`failures.dfy`) holds those errors and the `Result` and `Option` wrappers, and
  **`Joins`** (`joins.dfy`) defines `Flatten`, the in-order run of a sequence of lists, shared by
  the link lists and the lyric texts.

The fetched pages and the sentiment scorer are parameters: `artistPage` maps a URL to the
element run of the page found there, `songPages` maps a URL to a lyrics page, and `polarity`
maps a text to its three scores.

The scraper's comment at song_analysis.py:107-109 says that forcing the album index to 0
lets an artist without albums get its links. The code does not do this (see "## Findings").
The pipeline follows the code, so a song entry before any heading is the failure
`SongBeforeAlbum`. The intended walk is defined and proved beside it.

## Model

| member | source | states |
|---|---|---|
| `NameFormat.LowerChar` | song_analysis.py:50 | a capital becomes its own lowercase letter, the result is never an ASCII capital, and every other character maps to itself |
| `NameFormat.RemovePunctuation` | song_analysis.py:52 | the output holds no punctuation, only characters of the input, and every non-punctuation character of the input, and is no longer than the input |
| `NameFormat.RemoveSpaces` | song_analysis.py:54 | the output holds no ' ', only characters of the input, and every other character of the input, and is no longer than the input |
| `NameFormat.RemovePunctuationAppend` | song_analysis.py:52 | deleting punctuation distributes over concatenation, so it keeps the order of what it keeps |
| `NameFormat.RemoveSpacesAppend` | song_analysis.py:54 | deleting spaces distributes over concatenation, so it keeps the order of what it keeps |
| `NameFormat.FormatName` | song_analysis.py:33-55 | the token holds no ASCII capital, no punctuation and no space |
| `NameFormat.FormatNameIsSinglePass` | song_analysis.py:50-54 | the three chained steps equal one pass that lowercases each character and keeps it, in order, unless it is punctuation or a space |
| `NameFormat.FormatNameIdempotent` | song_analysis.py:50-54 | formatting a token again leaves it unchanged |
| `NameFormat.FormatNameIgnoresCase` | song_analysis.py:50 | the upper-cased and the lower-cased variant of a name give the same token as the name |
| `NameFormat.FormatNameEmptyIff` | song_analysis.py:50-54 | the token is empty exactly when every character of the name is punctuation or a space once lowercased |
| `NameFormat.FormatNameSpacesExample` | test_song_analysis.py:8-21 | "" and "   " both format to "" |
| `NameFormat.FormatNamePunctuationExample` | test_song_analysis.py:24-25 | the 27-character punctuation string formats to "" |
| `NameFormat.FormatNamePanicExample` | test_song_analysis.py:32-33 | "Panic! At The Disco" formats to "panicatthedisco" |
| `NameFormat.PanicAtTheDisco` | test_song_analysis.py:26-33 | any name made of four parts whose tokens are "panic", "at", "the" and "disco" formats to "panicatthedisco" |
| `NameFormat.NormaliseFourParts` | song_analysis.py:50-54 | a name split into four parts formats to the four parts' tokens run together |
| `Urls.ArtistUrl` | song_analysis.py:75-79 | the artist URL fails exactly when the token is empty, and the failure is the empty-token one |
| `Urls.ArtistUrlRoundTrip` | song_analysis.py:142-143 | the token can be read back from its artist URL, so different tokens give different URLs |
| `Urls.ArtistTokenOfSound` | song_analysis.py:79 | every URL the reader accepts is the artist URL of the token it reads |
| `Urls.SongUrl` | song_analysis.py:211 | the song URL is the site root followed by the link's characters from the third on, and just the site root for a link of two characters or fewer |
| `Urls.SongUrlSamePage` | song_analysis.py:211 | two links of at least two characters lead to the same page exactly when they agree after their first two characters |
| `Urls.SongUrlOfRelativeLink` | song_analysis.py:211 | a relative link `..<path>` resolves to the site root followed by `<path>` |
| `ArtistPage.LinkStop` | song_analysis.py:96-118 | the link walk visits exactly the elements before the first one with no class or with an anchor lacking its link |
| `ArtistPage.TitleStop` | song_analysis.py:157-170 | the title walk visits exactly the elements before the first one with no class |
| `ArtistPage.AlbumTexts` | song_analysis.py:163-165 | one heading text per album heading |
| `ArtistPage.OtherSongsRule` | song_analysis.py:175-176 | only the last title can change: an empty last title becomes "Other Songs", and a nonempty one leaves every title as it is |
| `ArtistPage.TitleWalk` | song_analysis.py:152-176 | a successful title walk yields at least one title |
| `ArtistPage.TitlesFromTexts` | song_analysis.py:163-176 | from the collected heading texts the walk yields one title per text, and at least one |
| `ArtistPage.OtherSongsHeadingFails` | song_analysis.py:163-176 | a loose-songs heading reading "Other Songs", which has no ':', makes the title walk fail instead of being renamed |
| `ArtistPage.UnlabelledHeadingFails` | song_analysis.py:163-165 | a heading without ':' reached by the title walk makes it fail |
| `ArtistPage.ChunksAppendAlbum` | song_analysis.py:100-102 | a heading opens a new, empty list after all the others |
| `ArtistPage.ChunksAppendSong` | song_analysis.py:110-112 | a song entry adds its link to the end of the most recently opened list, and changes no other list |
| `ArtistPage.GroupStepAlbum` | song_analysis.py:100-102 | one walk step over a heading appends an empty list |
| `ArtistPage.GroupStepSong` | song_analysis.py:106-112 | one walk step over a song entry with a link extends the last list with that link |
| `ArtistPage.TitleStep` | song_analysis.py:163-166 | one walk step adds a heading's text and nothing for any other classed element |
| `ArtistPage.TitlesAppend` | song_analysis.py:164-165 | a further labelled heading adds its title after the others |
| `ArtistPage.ChunksCount` | song_analysis.py:100-102 | the grouping has one list per album heading |
| `ArtistPage.ChunksFlatten` | song_analysis.py:110-112 | read in order, the lists hold exactly the links of the song entries, in page order |
| `ArtistPage.GroupByAlbum` | song_analysis.py:93-118 | the link walk fails exactly when the page opens with a song entry, and the failure is the song-before-album one; `GroupByAlbumShape` gives its result on success |
| `ArtistPage.GroupByAlbumShape` | song_analysis.py:93-118 | on success there is one list per heading before the stop, and the lists flatten to the links before the stop |
| `ArtistPage.GroupByAlbumIgnoresRest` | song_analysis.py:114-118 | nothing after the element that stops the link walk changes its result |
| `ArtistPage.GroupByAlbumIntendedShape` | song_analysis.py:107-112 | the walk the comment intends never fails: one list per heading, plus one for songs before the first heading, holding every link before the stop in page order |
| `ArtistPage.GroupByAlbumIntendedAgrees` | song_analysis.py:93-118 | wherever the walk as written succeeds, the intended walk gives the same lists |
| `ArtistPage.SongBeforeAlbumExample` | song_analysis.py:107-112 | a list with one linked song entry and no heading fails as written, and gives one list holding that link as intended |
| `ArtistPage.TitleWalkIgnoresRest` | song_analysis.py:166-170 | nothing after the first element with no class changes the titles |
| `ArtistPage.TitleWalkShape` | song_analysis.py:163-176 | on success there is one title per heading before the stop; each is its heading's title, and the last is renamed "Other Songs" when empty |
| `ArtistPage.LabelledIff` | song_analysis.py:164-165 | every heading text read carries a ':' exactly when no heading before the stop lacks one |
| `ArtistPage.TitleWalkFailsIff` | song_analysis.py:163-176 | the title walk fails on a heading without ':' or on a list with no heading, and for no other reason |
| `ArtistPage.TitlesMatchLinkLists` | song_analysis.py:96-170 | when no anchor lacks its link and both walks succeed, there are exactly as many titles as lists of links |
| `ArtistPage.ColonSplitFinds` | song_analysis.py:164-165 | the search for the first ':' reaches it from any earlier start |
| `ArtistPage.FirstColon` | song_analysis.py:164-165 | the index found is that of a ':' with no ':' before it |
| `ArtistPage.TitleOf` | song_analysis.py:164-165 | `split(":",1)[1][1:]`: the title is the text from two characters after the first ':', and "" when fewer than two characters follow it |
| `ArtistPage.TitleOfFirstColon` | song_analysis.py:164-165 | a title is what follows the first ':' of the heading, less one character, and "" when the ':' ends the text |
| `ArtistPage.TitleOfLabelled` | song_analysis.py:159-165 | a heading `<tag>: <title>` whose tag has no ':' is titled `<title>` |
| `ArtistPage.LinklessAnchorEndsLinks` | song_analysis.py:112-118 | an anchor without a link after the first heading ends the link walk, leaving one empty list |
| `ArtistPage.LinklessAnchorTexts` | song_analysis.py:157-170 | the title walk passes over an anchor without a link and reads the headings after it |
| `ArtistPage.LinklessAnchorKeepsTitles` | song_analysis.py:163-170 | on that page both headings are still titled |
| `Lyrics.SongLyrics` | song_analysis.py:215-235 | a credit line at the start element puts the lyrics five siblings further, an element without a class puts them two further, and any other class contributes nothing |
| `Lyrics.SongLyricsReadsThreeSiblings` | song_analysis.py:215-235 | a song's text depends only on the start element and the two places the lyrics can be |
| `Lyrics.CreditLineSkipped` | song_analysis.py:223-235 | a page with a credit line reads the same lyrics as the page without one whose lyrics sit three siblings higher |
| `Lyrics.LinkLyrics` | song_analysis.py:211-235 | the text a song link contributes is read from the page at its song URL by the three-way rule |
| `Lyrics.AlbumLyrics` | song_analysis.py:206-235 | an album's lyrics are its songs' texts, one per link, run together in song order with no separator |
| `Lyrics.AlbumLyricsAppend` | song_analysis.py:206-235 | the lyrics of two runs of links are each run's lyrics joined, in order and with no separator |
| `Lyrics.AlbumLyricsCons` | song_analysis.py:206-235 | the first song's text opens the album's lyrics |
| `Lyrics.LyricsByAlbum` | song_analysis.py:204-240 | one lyrics string per album list |
| `Lyrics.LyricsByAlbumConcat` | song_analysis.py:204-240 | joined, the album strings are the lyrics of every link in album order and song order |
| `SongAnalysis.ArtistElements` | song_analysis.py:75-84 | the artist page is reached exactly when the formatted name is nonempty, and otherwise the failure is the empty-token one |
| `SongAnalysis.ScoredCount` | song_analysis.py:277-280 | all titles are scored, less one exactly when the last reads "Other Songs" |
| `SongAnalysis.Scored` | song_analysis.py:284-295 | the three score lists each have one entry per text scored |
| `SongAnalysis.ScoredCountOfPage` | song_analysis.py:171-176 | the last album goes unscored exactly when its heading yields an empty title or one that reads "Other Songs" |
| `SongAnalysis.SentimentShape` | song_analysis.py:277-295 | after both walks succeed, the analysis fails exactly when more albums are scored than there are link lists; otherwise it fills each list with one entry per scored album, and entry i scores album i's lyrics |
| `SongAnalysis.LinksFor` | song_analysis.py:58-121 | links_by_album fails on the empty token when the name formats to "", and otherwise is the link walk over the page at the artist URL of the token |
| `SongAnalysis.TitlesFor` | song_analysis.py:123-178 | get_album_titles fails on the empty token when the name formats to "", and otherwise is the title walk over the page at the artist URL of the token; success gives at least one title |
| `SongAnalysis.LyricsFor` | song_analysis.py:181-242 | collate_lyrics fails exactly when links_by_album does, with its failure; otherwise entry i is the lyrics of album i's links |
| `SongAnalysis.ScoreAlbums` | song_analysis.py:277-295 | scoring fails exactly when more albums are scored than there are lyric strings, with the out-of-range failure; otherwise each list has one entry per scored album, and entry i scores lyric string i |
| `SongAnalysis.SentimentFor` | song_analysis.py:264-298 | a link-walk failure is reported first, then a title-walk failure, and a name that formats to "" fails on the empty token; after both walks succeed, the analysis fails exactly when more albums are scored than there are lists of links |
| `SongAnalysis.ScoringStaysInRange` | song_analysis.py:291-292 | when no anchor lacks its link and both walks succeed, scoring never reads past the lyrics list |
| `SongAnalysis.LinklessAnchorOutOfRange` | song_analysis.py:291-292 | an anchor without a link between two titled albums makes scoring read past the lyrics list |
| `SongAnalysis.GroupLinks` | song_analysis.py:88-121 | the link loop, with its album index and in-place appends, computes `GroupByAlbum`, the grouping and its failure |
| `SongAnalysis.LinksByAlbum` | song_analysis.py:58-121 | links_by_album is the link loop run over the artist page of the formatted name, and yields `LinksFor` |
| `SongAnalysis.CollectTitles` | song_analysis.py:152-178 | the title loop and the in-place rename of the last title compute `TitleWalk`, the titles and their failures |
| `SongAnalysis.AlbumTitles` | song_analysis.py:123-178 | get_album_titles is the title loop run over the artist page of the formatted name, and yields `TitlesFor` |
| `SongAnalysis.CollateLyrics` | song_analysis.py:181-242 | the nested loops give one string per album list, each the separator-free join of its songs' texts by the three-way rule: the loops yield `LyricsFor` |
| `SongAnalysis.FillScores` | song_analysis.py:277-295 | the scoring loop fills the three lists for the scored albums, or fails at the first album with no lyrics string: the loop yields `ScoreAlbums` |
| `SongAnalysis.AnalyzeSentiment` | song_analysis.py:245-298 | the analysis collects lyrics, then titles, then scores, and yields `SentimentFor` |

## Findings

| source | as written | input that shows it | evidently intended | confidence | as-written member | corrected member |
|---|---|---|---|---|---|---|
| song_analysis.py:107-112 | a song entry before any heading sets the album index to 0, but no list exists yet, so `song_links_by_album[0]` raises `IndexError` | an album list holding one linked song entry and no heading | the comment says the reset lets artists without albums through: list 0 should hold the songs before the first heading | high; not executed | `ArtistPage.GroupByAlbum`, `ArtistPage.SongBeforeAlbumExample` | `ArtistPage.GroupByAlbumIntended`, `ArtistPage.GroupByAlbumIntendedShape` |

The pipeline (`LinksByAlbum`, `AnalyzeSentiment`) keeps the walk as written, because it models
what the scraper does. `GroupByAlbumIntendedAgrees` shows that the two walks differ only on
pages that open with a song entry.

Two further behaviours of the scraper are modelled as written, with no corrected version,
because the intended behaviour is not evident from the source:

- A classed entry whose anchor lacks its link ends the link walk: the `KeyError` at
  song_analysis.py:112 is caught at line 117. It does not end the title walk (lines 163-170),
  which reads only the class. The two are meant to run parallel. When a heading follows the
  linkless anchor before the first element without a class, the titles outnumber the lists.
  Line 292 then reads past the lyrics list, unless the only extra title is a trailing one
  renamed "Other Songs".
  `LinklessAnchorEndsLinks`, `LinklessAnchorKeepsTitles` and `LinklessAnchorOutOfRange` show
  this on a page with two headings. `ScoringStaysInRange` shows it cannot happen when no
  anchor lacks its link.
- The comment at song_analysis.py:171-174 says the loose-songs heading has no ':' and so yields
  "". On a heading without ':', line 165 raises `IndexError` instead. Only a heading whose
  first ':' is its last or second-to-last character yields "" and is renamed "Other Songs".
  `OtherSongsHeadingFails` shows the failure on a heading reading "Other Songs".

## Left out

- Network fetches (`requests.get`) are left out. The artist page and the lyrics pages are the
  parameters `artistPage` and `songPages`. The artist page is fetched twice, by the link walk
  and by the title walk. The model gives both fetches the same page.
- HTML parsing is not modelled. The artist page is taken as the flat run of album-list elements
  that the sibling hops visit, and a lyrics page as the siblings of its "ringtone" marker.
- The `TypeError` and `AttributeError` paths are left out:
  - a `TypeError` when a sibling hop reaches a text node instead of a tag, at lines 100, 163
    and 223;
  - a `TypeError` when a song entry has no anchor, because line 112 then indexes `None`;
  - an `AttributeError` when a hop reaches nothing;
  - an `AttributeError` when the page has no `listAlbum` container or no `ringtone` marker,
    because `find` returns `None` at lines 84, 148 and 215 and the next hop reads an
    attribute of it.
- The end of the element run stands for the sibling hops running out.
- Sentiment scoring is an uninterpreted function from text to three reals. Constructing the
  analyser and its floating-point arithmetic are not modelled.
- The ten-second pause between song fetches has no effect on results and is not modelled.
- Lowercasing is ASCII only; other characters pass through unchanged. Python's full Unicode
  lowercasing, which can change a string's length, is not modelled.
- The default artist name of `analyze_sentiment` is not modelled.
