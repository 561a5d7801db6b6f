/**
  The artist page's album list, seen as the flat run of elements the scraper visits one
  sibling hop at a time, and declarative definitions of what its two walks compute:
  the song links grouped by album, and the album titles.
*/
module ArtistPage {
  import opened Failures
  import opened Joins

  /** One visited element of the album list. */
  datatype Element =
    | Album(text: string)         // class attribute exactly ["album"]: an album heading
    | Song(href: Option<string>)  // any other class: a song entry; None when its anchor has no href
    | NoClass                     // no class attribute at all: the end of the list

  /** The link walk stops at an element without a class, or at an anchor without an href. */
  predicate EndsLinkWalk(e: Element) {
    e.NoClass? || (e.Song? && e.href.None?)
  }

  /** Index of the first element that ends the link walk, or the length when none does. */
  function LinkStop(page: seq<Element>): (k: nat)
    ensures k <= |page|
    ensures forall i :: 0 <= i < k ==> !EndsLinkWalk(page[i])
    ensures k < |page| ==> EndsLinkWalk(page[k])
  {
    if page == [] || EndsLinkWalk(page[0]) then 0 else 1 + LinkStop(page[1..])
  }

  /** Index of the first element without a class (the only thing that ends the title walk). */
  function TitleStop(page: seq<Element>): (k: nat)
    ensures k <= |page|
    ensures forall i :: 0 <= i < k ==> !page[i].NoClass?
    ensures k < |page| ==> page[k].NoClass?
  {
    if page == [] || page[0].NoClass? then 0 else 1 + TitleStop(page[1..])
  }

  /** The links of the song entries, in page order. */
  function Hrefs(s: seq<Element>): seq<string> {
    if s == [] then []
    else (if s[0].Song? && s[0].href.Some? then [s[0].href.value] else []) + Hrefs(s[1..])
  }

  function CountAlbums(s: seq<Element>): nat {
    if s == [] then 0 else (if s[0].Album? then 1 else 0) + CountAlbums(s[1..])
  }

  /** The heading texts of the album elements, in page order: one per album. */
  function AlbumTexts(s: seq<Element>): (texts: seq<string>)
    ensures |texts| == CountAlbums(s)
  {
    if s == [] then [] else (if s[0].Album? then [s[0].text] else []) + AlbumTexts(s[1..])
  }

  /** Index of the last album heading of a run that opens with one. */
  function LastAlbum(s: seq<Element>): (k: nat)
    requires s != [] && s[0].Album?
    ensures k < |s| && s[k].Album?
    decreases |s|
  {
    if s[|s| - 1].Album? then |s| - 1 else LastAlbum(s[..|s| - 1])
  }

  /**
    Reference grouping of a run that opens with an album heading: one list per heading, holding
    the links of the song entries between that heading and the next (or the end of the run).
  */
  function Chunks(s: seq<Element>): seq<seq<string>>
    requires s == [] || s[0].Album?
    decreases |s|
  {
    if s == [] then []
    else
      var k := LastAlbum(s);
      Chunks(s[..k]) + [Hrefs(s[k + 1..])]
  }

  /**
    What the link walk yields for a page: a song entry before the first heading is filed under
    album 0 while no album list exists (an out-of-range failure); otherwise the walked run grouped.
  */
  function GroupByAlbum(page: seq<Element>): (r: Result<seq<seq<string>>>)
    ensures r.Err? <==> |page| > 0 && page[0].Song?
    ensures r.Err? ==> r.error == SongBeforeAlbum
  {
    if |page| > 0 && page[0].Song? then Err(SongBeforeAlbum)
    else Ok(Chunks(page[..LinkStop(page)]))
  }

  /** Index of the first ':' of a text that holds one. */
  function FirstColon(text: string): (k: nat)
    requires ':' in text
    ensures k < |text| && text[k] == ':' && ':' !in text[..k]
  {
    if text[0] == ':' then 0
    else
      assert text == [text[0]] + text[1..];
      var k := FirstColon(text[1..]);
      assert text[..k + 1] == [text[0]] + text[1..][..k];
      k + 1
  }

  /**
    Python's `text.split(":", 1)[1][1:]`: what follows the first ':', less one character,
    and "" when the ':' ends the text or only one character follows it.
  */
  function TitleOf(text: string): (title: string)
    requires ':' in text
    ensures title == (if FirstColon(text) + 1 < |text| then text[FirstColon(text) + 2..] else [])
  {
    assert text[..0] == [];
    ColonSplitFinds(text, 0, FirstColon(text));
    ColonSplit(text, 0)
  }

  /** Searches for the first ':' of text at or after i. */
  function ColonSplit(text: string, i: nat): string
    requires i <= |text| && ':' in text[i..] && ':' !in text[..i]
    decreases |text| - i
  {
    if text[i] == ':' then
      (if i + 1 < |text| then text[i + 2..] else [])
    else
      assert text[..i + 1] == text[..i] + [text[i]];
      assert text[i..] == [text[i]] + text[i + 1..];
      ColonSplit(text, i + 1)
  }

  predicate Labelled(texts: seq<string>) {
    forall k :: 0 <= k < |texts| ==> ':' in texts[k]
  }

  function Titles(texts: seq<string>): (titles: seq<string>)
    requires Labelled(texts)
  {
    seq(|texts|, k requires 0 <= k < |texts| => TitleOf(texts[k]))
  }

  /** The trailing-bucket rule: an empty last title becomes "Other Songs"; nothing else changes. */
  function OtherSongsRule(raw: seq<string>): (titles: seq<string>)
    requires raw != []
    ensures |titles| == |raw| && titles[..|raw| - 1] == raw[..|raw| - 1]
    ensures titles[|raw| - 1] == "Other Songs" || titles[|raw| - 1] == raw[|raw| - 1] != ""
    ensures raw[|raw| - 1] != "" ==> titles == raw
  {
    if raw[|raw| - 1] == "" then raw[|raw| - 1 := "Other Songs"] else raw
  }

  /** What the title walk yields for a page. */
  function TitleWalk(page: seq<Element>): (r: Result<seq<string>>)
    ensures r.Ok? ==> r.value != []
  {
    TitlesFromTexts(AlbumTexts(page[..TitleStop(page)]))
  }

  /** The titles of the collected heading texts, or the failure the walk runs into. */
  function TitlesFromTexts(texts: seq<string>): (r: Result<seq<string>>)
    ensures r.Ok? ==> |r.value| == |texts| > 0
  {
    if !Labelled(texts) then Err(TitleWithoutColon)
    else if texts == [] then Err(NoAlbumTitles)
    else Ok(OtherSongsRule(Titles(texts)))
  }

  // ---------------------------------------------------------------------------------------
  // Facts about the definitions

  lemma {:induction false} HrefsAppend(a: seq<Element>, b: seq<Element>)
    ensures Hrefs(a + b) == Hrefs(a) + Hrefs(b)
  {
    if a == [] {
      assert a + b == b;
    } else {
      assert (a + b)[0] == a[0];
      assert (a + b)[1..] == a[1..] + b;
      HrefsAppend(a[1..], b);
    }
  }

  /** A heading carries no link: the links of a run are those before it and those after it. */
  lemma HrefsAroundHeading(s: seq<Element>, k: nat)
    requires k < |s| && s[k].Album?
    ensures Hrefs(s) == Hrefs(s[..k]) + Hrefs(s[k + 1..])
  {
    var t := s[k..];
    assert Hrefs(t) == Hrefs(s[k + 1..]) by {
      assert t[0].Album? && t[1..] == s[k + 1..];
    }
    assert s == s[..k] + t;
    HrefsAppend(s[..k], t);
  }

  lemma {:induction false} AlbumTextsAppend(a: seq<Element>, b: seq<Element>)
    ensures AlbumTexts(a + b) == AlbumTexts(a) + AlbumTexts(b)
  {
    if a == [] {
      assert a + b == b;
    } else {
      assert (a + b)[0] == a[0];
      assert (a + b)[1..] == a[1..] + b;
      AlbumTextsAppend(a[1..], b);
    }
  }

  lemma {:induction false} LastAlbumIsLast(s: seq<Element>)
    requires s != [] && s[0].Album?
    ensures forall i :: LastAlbum(s) < i < |s| ==> !s[i].Album?
    decreases |s|
  {
    if !s[|s| - 1].Album? {
      var p := s[..|s| - 1];
      LastAlbumIsLast(p);
      assert forall i :: 0 <= i < |p| ==> p[i] == s[i];
    }
  }

  /** A heading at the end of the walked run opens a new, empty list after all the others. */
  lemma ChunksAppendAlbum(s: seq<Element>, text: string)
    requires s == [] || s[0].Album?
    ensures Chunks(s + [Album(text)]) == Chunks(s) + [[]]
  {
    var t := s + [Album(text)];
    assert t[0].Album?;
    assert LastAlbum(t) == |s|;
    assert t[..|s|] == s;
    assert t[|s| + 1..] == [];
  }

  /** Chunks unfolded once: the lists before the last heading, then the last heading's list. */
  lemma ChunksLast(s: seq<Element>) returns (k: nat)
    requires s != [] && s[0].Album?
    ensures k == LastAlbum(s) && k < |s|
    ensures Chunks(s) == Chunks(s[..k]) + [Hrefs(s[k + 1..])]
  {
    k := LastAlbum(s);
  }

  /** A song entry appended after the run leaves its last heading where it was. */
  lemma LastAlbumAppendSong(s: seq<Element>, e: Element)
    requires s != [] && s[0].Album?
    requires e.Song?
    ensures (s + [e])[0].Album? && LastAlbum(s + [e]) == LastAlbum(s)
  {
    var t := s + [e];
    assert t[..|t| - 1] == s;
  }

  /** A song entry at the end of the walked run adds its link to the end of the last list. */
  lemma ChunksAppendSong(s: seq<Element>, e: Element) returns (front: seq<seq<string>>, last: seq<string>)
    requires s != [] && s[0].Album?
    requires e.Song?
    ensures Chunks(s) == front + [last]
    ensures Chunks(s + [e]) == front + [last + Hrefs([e])]
  {
    var t := s + [e];
    var k := ChunksLast(s);
    front, last := Chunks(s[..k]), Hrefs(s[k + 1..]);
    LastAlbumAppendSong(s, e);
    var k' := ChunksLast(t);
    assert t[..k] == s[..k];
    assert t[k + 1..] == s[k + 1..] + [e];
    HrefsAppend(s[k + 1..], [e]);
  }

  /** One step of the link walk over a heading: a new, empty list after all the others. */
  lemma GroupStepAlbum(page: seq<Element>, i: nat)
    requires i < |page| && page[i].Album? && (i == 0 || page[0].Album?)
    ensures page[..i + 1][0].Album?
    ensures Chunks(page[..i + 1]) == Chunks(page[..i]) + [[]]
  {
    assert page[..i + 1] == page[..i] + [Album(page[i].text)];
    ChunksAppendAlbum(page[..i], page[i].text);
  }

  /** One step of the link walk over a song entry with a link, once a heading has been seen. */
  lemma GroupStepSong(page: seq<Element>, i: nat) returns (front: seq<seq<string>>, last: seq<string>)
    requires 0 < i < |page| && page[0].Album? && page[i].Song? && page[i].href.Some?
    ensures Chunks(page[..i]) == front + [last]
    ensures Chunks(page[..i + 1]) == front + [last + [page[i].href.value]]
  {
    assert page[..i + 1] == page[..i] + [page[i]];
    front, last := ChunksAppendSong(page[..i], page[i]);
    assert Hrefs([page[i]]) == [page[i].href.value];
  }

  /** One step of the title walk: a heading adds its text, any other classed element nothing. */
  lemma TitleStep(page: seq<Element>, i: nat)
    requires i < |page|
    ensures AlbumTexts(page[..i + 1]) ==
            AlbumTexts(page[..i]) + (if page[i].Album? then [page[i].text] else [])
  {
    assert page[..i + 1] == page[..i] + [page[i]];
    AlbumTextsAppend(page[..i], [page[i]]);
  }

  /** The title walk's stop, recognised where the loop leaves off. */
  lemma TitleStopAt(page: seq<Element>, i: nat)
    requires i <= TitleStop(page)
    requires i == |page| || page[i].NoClass?
    ensures TitleStop(page) == i
  {
  }

  /** The link walk's stop, recognised where the loop leaves off. */
  lemma LinkStopAt(page: seq<Element>, i: nat)
    requires i <= LinkStop(page)
    requires i == |page| || EndsLinkWalk(page[i])
    ensures LinkStop(page) == i
  {
  }

  /** A heading without ':' reached by the title walk makes it fail. */
  lemma UnlabelledHeadingFails(page: seq<Element>, i: nat)
    requires i < |page| && i <= TitleStop(page) && page[i].Album? && ':' !in page[i].text
    ensures TitleWalk(page) == Err(TitleWithoutColon)
  {
    assert HasUnlabelledHeading(page);
    TitleWalkFailsIff(page);
  }

  /**
    A loose-songs heading that reads "Other Songs" has no ':', so the title walk fails on it
    rather than yielding the "" that the trailing-bucket rule renames.
  */
  lemma OtherSongsHeadingFails(first: string)
    ensures TitleWalk([Album(first), Album("Other Songs"), NoClass]) == Err(TitleWithoutColon)
  {
    var page := [Album(first), Album("Other Songs"), NoClass];
    assert ':' !in page[1].text;
    UnlabelledHeadingFails(page, 1);
  }

  /** A further labelled heading adds its title after the others. */
  lemma TitlesAppend(texts: seq<string>, text: string)
    requires Labelled(texts) && ':' in text
    ensures Labelled(texts + [text])
    ensures Titles(texts + [text]) == Titles(texts) + [TitleOf(text)]
  {
    var t := texts + [text];
    assert forall k :: 0 <= k < |texts| ==> t[k] == texts[k];
  }

  /** One list per album heading of the run. */
  lemma {:induction false} ChunksCount(s: seq<Element>)
    requires s == [] || s[0].Album?
    ensures |Chunks(s)| == CountAlbums(s)
    decreases |s|
  {
    if s != [] {
      var k := LastAlbum(s);
      ChunksCount(s[..k]);
      LastAlbumIsLast(s);
      CountAlbumsNone(s[k + 1..]);
      assert s == s[..k] + [s[k]] + s[k + 1..];
      CountAlbumsAppend(s[..k] + [s[k]], s[k + 1..]);
      CountAlbumsAppend(s[..k], [s[k]]);
    }
  }

  lemma {:induction false} CountAlbumsAppend(a: seq<Element>, b: seq<Element>)
    ensures CountAlbums(a + b) == CountAlbums(a) + CountAlbums(b)
  {
    AlbumTextsAppend(a, b);
  }

  lemma {:induction false} CountAlbumsNone(t: seq<Element>)
    requires forall i :: 0 <= i < |t| ==> !t[i].Album?
    ensures CountAlbums(t) == 0
  {
    if t != [] {
      CountAlbumsNone(t[1..]);
    }
  }

  /** Read in order, the lists hold exactly the links of the run's song entries, in page order. */
  lemma {:induction false} ChunksFlatten(s: seq<Element>)
    requires s == [] || s[0].Album?
    ensures Flatten(Chunks(s)) == Hrefs(s)
    decreases |s|
  {
    if s != [] {
      var k := ChunksLast(s);
      var tail := Hrefs(s[k + 1..]);
      ChunksFlatten(s[..k]);
      FlattenAppend(Chunks(s[..k]), [tail]);
      assert Flatten([tail]) == tail;
      HrefsAroundHeading(s, k);
    }
  }

  // ---------------------------------------------------------------------------------------
  // What the two walks promise

  /**
    On success: one list per album heading before the walk stops, and read in order the
    lists hold the links of the song entries before the stop, in page order.
  */
  lemma GroupByAlbumShape(page: seq<Element>, lists: seq<seq<string>>)
    requires GroupByAlbum(page) == Ok(lists)
    ensures |lists| == CountAlbums(page[..LinkStop(page)])
    ensures Flatten(lists) == Hrefs(page[..LinkStop(page)])
  {
    ChunksCount(page[..LinkStop(page)]);
    ChunksFlatten(page[..LinkStop(page)]);
  }

  /** Nothing after the element that ends the link walk affects its result. */
  lemma GroupByAlbumIgnoresRest(page: seq<Element>, rest: seq<Element>)
    requires LinkStop(page) < |page|
    ensures GroupByAlbum(page + rest) == GroupByAlbum(page)
  {
    LinkWalkedPrefix(page, rest);
  }

  // ---------------------------------------------------------------------------------------
  // The link walk its comment intends

  /** Index of the first album heading of a run, or the run's length when it has none. */
  function FirstAlbum(s: seq<Element>): (k: nat)
    ensures k <= |s|
    ensures forall i :: 0 <= i < k ==> !s[i].Album?
    ensures k < |s| ==> s[k].Album?
  {
    if s == [] || s[0].Album? then 0 else 1 + FirstAlbum(s[1..])
  }

  /**
    The link walk as the comment above its album-index reset means it to work: a song entry
    met before any heading opens list 0, which holds every link up to the first heading, so
    an artist without albums gets one list instead of an out-of-range failure.
  */
  function GroupByAlbumIntended(page: seq<Element>): seq<seq<string>> {
    var w := page[..LinkStop(page)];
    if |page| > 0 && page[0].Song? then
      var k := FirstAlbum(w);
      [Hrefs(w[..k])] + Chunks(w[k..])
    else Chunks(w)
  }

  /**
    The intended walk never fails: it has one list per heading before the stop, plus one for
    the song entries before the first heading when the page opens with one, and read in order
    the lists hold the links before the stop, in page order.
  */
  lemma GroupByAlbumIntendedShape(page: seq<Element>)
    ensures |GroupByAlbumIntended(page)| ==
              CountAlbums(page[..LinkStop(page)]) + (if |page| > 0 && page[0].Song? then 1 else 0)
    ensures Flatten(GroupByAlbumIntended(page)) == Hrefs(page[..LinkStop(page)])
  {
    var w := page[..LinkStop(page)];
    if |page| > 0 && page[0].Song? {
      var k := FirstAlbum(w);
      var head, rest := Hrefs(w[..k]), w[k..];
      assert w == w[..k] + rest;
      assert GroupByAlbumIntended(page) == [head] + Chunks(rest);
      assert |Chunks(rest)| == CountAlbums(w) by {
        ChunksCount(rest);
        CountAlbumsNone(w[..k]);
        CountAlbumsAppend(w[..k], rest);
      }
      assert Flatten([head] + Chunks(rest)) == Hrefs(w) by {
        ChunksFlatten(rest);
        HrefsAppend(w[..k], rest);
        FlattenAppend([head], Chunks(rest));
        assert Flatten([head]) == head;
      }
    } else {
      ChunksCount(w);
      ChunksFlatten(w);
    }
  }

  /** Where the link walk as written succeeds, the intended walk yields the same lists. */
  lemma GroupByAlbumIntendedAgrees(page: seq<Element>)
    requires GroupByAlbum(page).Ok?
    ensures GroupByAlbumIntended(page) == GroupByAlbum(page).value
  {
  }

  /**
    A page whose album list holds one linked song entry and no heading: the walk as written
    fails, where the intended walk files the link in a single list.
  */
  lemma SongBeforeAlbumExample(href: string)
    ensures GroupByAlbum([Song(Some(href))]) == Err(SongBeforeAlbum)
    ensures GroupByAlbumIntended([Song(Some(href))]) == [[href]]
  {
    var page := [Song(Some(href))];
    assert LinkStop(page) == 1 by {
      assert LinkStop(page[1..]) == 0;
    }
    var w := page[..1];
    assert w == page;
    assert FirstAlbum(w) == 1 by {
      assert FirstAlbum(w[1..]) == 0;
    }
    assert w[..1] == page && w[1..] == [];
    assert Hrefs(page) == [href] by {
      assert Hrefs(page[1..]) == [];
    }
  }

  /** Both walks see the same elements of page + rest as of page, when page holds their stop. */
  lemma LinkWalkedPrefix(page: seq<Element>, rest: seq<Element>)
    requires LinkStop(page) < |page|
    ensures (page + rest)[0] == page[0]
    ensures (page + rest)[..LinkStop(page + rest)] == page[..LinkStop(page)]
  {
    var k := LinkStop(page);
    var q := page + rest;
    assert LinkStop(q) == k by {
      assert EndsLinkWalk(q[k]);
      assert forall i :: 0 <= i < k ==> q[i] == page[i];
    }
    assert q[..k] == page[..k];
  }

  lemma TitleWalkedPrefix(page: seq<Element>, rest: seq<Element>)
    requires TitleStop(page) < |page|
    ensures (page + rest)[..TitleStop(page + rest)] == page[..TitleStop(page)]
  {
    var k := TitleStop(page);
    var q := page + rest;
    assert TitleStop(q) == k by {
      assert q[k].NoClass?;
      assert forall i :: 0 <= i < k ==> q[i] == page[i];
    }
    assert q[..k] == page[..k];
  }

  /** Nothing after the first element without a class affects the title walk. */
  lemma TitleWalkIgnoresRest(page: seq<Element>, rest: seq<Element>)
    requires TitleStop(page) < |page|
    ensures TitleWalk(page + rest) == TitleWalk(page)
  {
    TitleWalkedPrefix(page, rest);
  }

  /**
    On success the title walk yields one title per album heading before the first element
    without a class; each title is what follows the heading's first ':' less one character,
    except that an empty last title reads "Other Songs".
  */
  lemma TitleWalkShape(page: seq<Element>, titles: seq<string>)
    requires TitleWalk(page) == Ok(titles)
    ensures |titles| == CountAlbums(page[..TitleStop(page)]) > 0
    ensures forall k :: 0 <= k < |titles| - 1 ==>
              titles[k] == TitleOf(AlbumTexts(page[..TitleStop(page)])[k])
    ensures titles[|titles| - 1] ==
              var last := TitleOf(AlbumTexts(page[..TitleStop(page)])[|titles| - 1]);
              if last == "" then "Other Songs" else last
  {
    var texts := AlbumTexts(page[..TitleStop(page)]);
    assert Labelled(texts) && texts != [];
    var raw := Titles(texts);
    assert titles == OtherSongsRule(raw);
    forall k | 0 <= k < |titles| - 1
      ensures titles[k] == TitleOf(texts[k])
    {
      assert titles[k] == titles[..|raw| - 1][k];
    }
  }

  /** Some heading before the first element without a class lacks a ':'. */
  predicate HasUnlabelledHeading(page: seq<Element>) {
    exists k :: 0 <= k < TitleStop(page) && page[k].Album? && ':' !in page[k].text
  }

  /** The heading texts the title walk reads all carry a ':' exactly when no heading lacks one. */
  lemma LabelledIff(page: seq<Element>)
    ensures Labelled(AlbumTexts(page[..TitleStop(page)])) <==> !HasUnlabelledHeading(page)
  {
    var s := page[..TitleStop(page)];
    if HasUnlabelledHeading(page) {
      var k :| 0 <= k < TitleStop(page) && page[k].Album? && ':' !in page[k].text;
      assert s == s[..k] + [page[k]] + s[k + 1..];
      AlbumTextsAppend(s[..k] + [page[k]], s[k + 1..]);
      AlbumTextsAppend(s[..k], [page[k]]);
      assert AlbumTexts(s)[|AlbumTexts(s[..k])|] == page[k].text;
    } else {
      AlbumTextsLabelled(s);
    }
  }

  /** The title walk fails on a heading without ':' and on a list without headings, and only then. */
  lemma TitleWalkFailsIff(page: seq<Element>)
    ensures TitleWalk(page) == Err(TitleWithoutColon) <==> HasUnlabelledHeading(page)
    ensures TitleWalk(page) == Err(NoAlbumTitles) <==>
              !HasUnlabelledHeading(page) && CountAlbums(page[..TitleStop(page)]) == 0
    ensures TitleWalk(page).Err? ==> TitleWalk(page) in {Err(TitleWithoutColon), Err(NoAlbumTitles)}
  {
    LabelledIff(page);
  }

  lemma {:induction false} AlbumTextsLabelled(s: seq<Element>)
    requires forall k :: 0 <= k < |s| && s[k].Album? ==> ':' in s[k].text
    ensures Labelled(AlbumTexts(s))
  {
    if s != [] {
      assert forall k :: 0 <= k < |s| - 1 ==> s[1..][k] == s[k + 1];
      AlbumTextsLabelled(s[1..]);
    }
  }

  /**
    When no song anchor lacks its link, the two walks visit the same elements, so a page on
    which both succeed gives exactly one title per list of song links.
  */
  lemma TitlesMatchLinkLists(page: seq<Element>, lists: seq<seq<string>>, titles: seq<string>)
    requires GroupByAlbum(page) == Ok(lists)
    requires TitleWalk(page) == Ok(titles)
    requires forall k :: 0 <= k < TitleStop(page) ==> page[k] != Song(None)
    ensures |titles| == |lists|
  {
    assert LinkStop(page) == TitleStop(page);
    GroupByAlbumShape(page, lists);
    TitleWalkShape(page, titles);
  }

  /** The search for the first ':' lands on it from any start before it. */
  lemma {:induction false} ColonSplitFinds(text: string, i: nat, k: nat)
    requires i <= k < |text| && text[k] == ':' && ':' !in text[..k]
    ensures ':' in text[i..] && ':' !in text[..i]
    ensures ColonSplit(text, i) == (if k + 1 < |text| then text[k + 2..] else [])
    decreases k - i
  {
    assert ':' !in text[..i] by {
      assert text[..i] == text[..k][..i];
    }
    assert ':' in text[i..] by {
      assert text[i..][k - i] == ':';
    }
    if i < k {
      assert text[i] != ':' by {
        assert text[i] == text[..k][i];
      }
      ColonSplitFinds(text, i + 1, k);
    }
  }

  /** The title is what follows the first ':' of the heading, less the one character after it. */
  lemma TitleOfFirstColon(text: string, k: nat)
    requires k < |text| && text[k] == ':' && ':' !in text[..k]
    ensures ':' in text
    ensures TitleOf(text) == (if k + 1 < |text| then text[k + 2..] else [])
  {
    assert ':' in text;
  }

  /** A heading `<tag>: <title>` whose tag holds no ':' is titled `<title>`. */
  lemma TitleOfLabelled(tag: string, title: string)
    requires ':' !in tag
    ensures ':' in tag + ": " + title
    ensures TitleOf(tag + ": " + title) == title
  {
    var text := tag + ": " + title;
    var k := |tag|;
    assert text[k] == ':';
    assert text[..k] == tag;
    TitleOfFirstColon(text, k);
    assert text[k + 2..] == title;
  }

  /**
    An anchor without a link ends the link walk but not the title walk: the headings after
    it are titled but get no list of links.
  */
  lemma LinklessAnchorEndsLinks(page: seq<Element>, first: string, second: string)
    requires page == [Album(first), Song(None), Album(second), NoClass]
    ensures GroupByAlbum(page) == Ok([[]])
  {
    var head: seq<Element> := [];
    assert LinkStop(page) == 1 by {
      assert EndsLinkWalk(page[1]) && !EndsLinkWalk(page[0]);
    }
    assert page[..1] == head + [Album(first)];
    ChunksAppendAlbum(head, first);
    assert Chunks(head) == [];
    var none: seq<string> := [];
    assert Chunks(page[..1]) == [none];
    assert GroupByAlbum(page) == Ok(Chunks(page[..1]));
  }

  /** The title walk passes over the linkless anchor and reads both headings. */
  lemma LinklessAnchorTexts(page: seq<Element>, first: string, second: string)
    requires page == [Album(first), Song(None), Album(second), NoClass]
    ensures AlbumTexts(page[..TitleStop(page)]) == [first, second]
  {
    assert TitleStop(page) == 3 by {
      var k := TitleStop(page);
      assert page[3].NoClass? && !page[0].NoClass? && !page[1].NoClass? && !page[2].NoClass?;
    }
    var head := [Album(first), Song(None)];
    assert page[..3] == head + [Album(second)];
    AlbumTextsAppend(head, [Album(second)]);
    assert AlbumTexts(head) == [first] by {
      assert head[1..] == [Song(None)];
    }
  }

  lemma LinklessAnchorKeepsTitles(page: seq<Element>, tag1: string, title1: string, tag2: string, title2: string)
    requires ':' !in tag1 && ':' !in tag2 && title2 != ""
    requires page == [Album(tag1 + ": " + title1), Song(None), Album(tag2 + ": " + title2), NoClass]
    ensures TitleWalk(page) == Ok([title1, title2])
  {
    var texts := [tag1 + ": " + title1, tag2 + ": " + title2];
    assert TitleWalk(page) == TitlesFromTexts(texts) by {
      LinklessAnchorTexts(page, texts[0], texts[1]);
    }
    assert Labelled(texts) && Titles(texts) == [title1, title2] by {
      TitleOfLabelled(tag1, title1);
      TitleOfLabelled(tag2, title2);
    }
    assert OtherSongsRule([title1, title2]) == [title1, title2];
  }
}
