/** The two URL shapes of the lyrics site: an artist's index page and a song's lyrics page. */
module Urls {
  import opened Failures

  const Site := "https://www.azlyrics.com"
  const Html := ".html"

  /**
    The artist page `Site/<first character of token>/<token>.html`.
    Indexing the first character of an empty token is the scraper's first out-of-range failure.
  */
  function ArtistUrl(token: string): (r: Result<string>)
    ensures r.Err? <==> token == []
    ensures r.Err? ==> r.error == EmptyArtistToken
  {
    if token == [] then Err(EmptyArtistToken)
    else Ok(Site + "/" + [token[0]] + "/" + token + Html)
  }

  /** Reads the token back out of an artist URL; None for anything ArtistUrl cannot produce. */
  function ArtistTokenOf(url: string): Option<string> {
    var n := |Site| + 3;
    if |url| < n + |Html| + 1 then None
    else if url[..|Site| + 1] != Site + "/" || url[|Site| + 2] != '/' || url[|url| - |Html|..] != Html then None
    else
      var token := url[n..|url| - |Html|];
      if token[0] == url[|Site| + 1] then Some(token) else None
  }

  /** Different tokens give different artist pages: the URL determines the token. */
  lemma ArtistUrlRoundTrip(token: string)
    requires token != []
    ensures ArtistTokenOf(ArtistUrl(token).value) == Some(token)
  {
    var url := ArtistUrl(token).value;
    var n := |Site| + 3;
    assert url == (Site + "/") + [token[0]] + "/" + token + Html;
    assert url[..|Site| + 1] == Site + "/";
    assert url[|Site| + 1] == token[0];
    assert url[|Site| + 2] == '/';
    assert url[|url| - |Html|..] == Html;
    assert url[n..|url| - |Html|] == token;
  }

  /** Every URL the reader accepts is the artist URL of the token it reads. */
  lemma ArtistTokenOfSound(url: string, token: string)
    requires ArtistTokenOf(url) == Some(token)
    ensures token != [] && ArtistUrl(token) == Ok(url)
  {
    var n := |Site| + 3;
    assert url == url[..|Site| + 1] + [url[|Site| + 1]] + [url[|Site| + 2]] + url[n..|url| - |Html|] + url[|url| - |Html|..];
  }

  /**
    A song page: the site root followed by the link with its first two characters sliced off
    (Python's `href[2:]`, empty when the link is shorter).
  */
  function SongUrl(href: string): (url: string)
    ensures |url| >= |Site| && url[..|Site|] == Site
    ensures |href| <= 2 ==> url == Site
    ensures |href| >= 2 ==> |url| == |Site| + |href| - 2
    ensures forall i :: 2 <= i < |href| ==> url[|Site| + i - 2] == href[i]
  {
    Site + (if |href| >= 2 then href[2..] else "")
  }

  /**
    Two links of at least two characters lead to the same song page exactly when they agree
    after their first two characters: those two are dropped, and nothing else is lost.
  */
  lemma SongUrlSamePage(h1: string, h2: string)
    requires |h1| >= 2 && |h2| >= 2
    ensures SongUrl(h1) == SongUrl(h2) <==> h1[2..] == h2[2..]
  {
    if SongUrl(h1) == SongUrl(h2) {
      assert h1[2..] == SongUrl(h1)[|Site|..];
      assert h2[2..] == SongUrl(h2)[|Site|..];
    }
  }

  /** The site's relative links `../lyrics/<artist>/<song>.html` resolve to the page under the site root. */
  lemma SongUrlOfRelativeLink(path: string)
    ensures SongUrl(".." + path) == Site + path
  {
    assert (".." + path)[2..] == path;
  }
}
