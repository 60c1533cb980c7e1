/** The card of an AI analysis job: the YouTube video id it takes a still from. */
module AiJobCard {
  import opened Common
  import opened WebUrl
  import opened DetailModal

  /** `extractYouTubeVideoId`: a share link gives the text after the first "youtu.be/" up to a
      '?' or '/', or null when that is empty; other links are parsed, and a YouTube host gives the
      text after "/embed/" in the path, or else the `v` query value, which may be "". A link that
      cannot be parsed, or one for another host, gives null. */
  function ExtractYouTubeVideoId(url: string): (r: Option<string>)
    ensures url == "" ==> r == None
    ensures Contains(url, ShortLinkHost + "/") && r.Some? ==>
      r.value != "" && '?' !in r.value && '/' !in r.value
      && StartsWith(url[FindSub(url, ShortLinkHost + "/") + |ShortLinkHost| + 1..], r.value)
    ensures !Contains(url, ShortLinkHost + "/") && r.Some? ==>
      ParseUrl(url).Some? && Contains(ParseUrl(url).value.hostname, YouTubeHost)
  {
    if url == "" then None
    else if Contains(url, ShortLinkHost + "/") then
      var id := ShareLinkVideoId(url);
      if id == "" then None else Some(id)
    else
      match ParseUrl(url)
      case None => None
      case Some(u) =>
        if Contains(u.hostname, YouTubeHost) && Contains(u.pathname, "/embed/") then
          var id := Between(u.pathname, "/embed/", '?');
          if id == "" then None else Some(id)
        else if Contains(u.hostname, YouTubeHost) && QueryGet(u.query, "v").Some? then QueryGet(u.query, "v")
        else None
  }

  /** `url.split('youtu.be/')[1]?.split('?')[0]?.split('/')[0]`. */
  function ShareLinkVideoId(url: string): (id: string)
    requires Contains(url, ShortLinkHost + "/")
    ensures '?' !in id && '/' !in id
    ensures StartsWith(url[FindSub(url, ShortLinkHost + "/") + |ShortLinkHost| + 1..], id)
  {
    var sub := ShortLinkHost + "/";
    var x := Between(url, sub, '?');
    BetweenStart(url, sub, '?');
    var id := Before(x, '/');
    assert x[..|id|] == id;
    id
  }

  /** A share link `https://youtu.be/<id>` followed by nothing, a query or more path gives
      `<id>`. */
  lemma ShareLinkId(id: string, tail: string)
    requires id != "" && '/' !in id && '?' !in id
    requires tail == "" || tail[0] == '?' || tail[0] == '/'
    requires '.' !in id + tail
    ensures ExtractYouTubeVideoId("https://" + ShortLinkHost + "/" + id + tail) == Some(id)
  {
    var sub := ShortLinkHost + "/";
    var v := "https://" + ShortLinkHost + "/" + id + tail;
    assert v == "https://" + sub + (id + tail);
    assert '.' in sub;
    NotContainsChar(id + tail, sub, '.');
    BetweenAfter("https://", sub, id + tail, '?');
    IdBeforeStops(id, tail);
  }

  /** The id ends at the first '?' or '/' that follows it. */
  lemma IdBeforeStops(id: string, tail: string)
    requires '/' !in id && '?' !in id
    requires tail == "" || tail[0] == '?' || tail[0] == '/'
    ensures Before(Before(id + tail, '?'), '/') == id
  {
    if tail == "" || tail[0] == '?' {
      BeforeStop(id, '?', tail);
      BeforeStop(id, '/', "");
      assert id + "" == id;
    } else {
      var b := Before(id + tail, '?');
      assert (id + tail)[|id|] == '/';
      assert |b| > |id| by {
        assert forall j :: 0 <= j <= |id| ==> (id + tail)[j] != '?';
      }
      assert b == id + ['/'] + b[|id| + 1..];
      IndexOfAt(id, '/', b[|id| + 1..]);
    }
  }

  /** A parsed link on a YouTube host with an `/embed/<id>` path gives `<id>`. */
  lemma EmbedPathId(url: string, id: string)
    requires !Contains(url, ShortLinkHost + "/")
    requires ParseUrl(url).Some? && Contains(ParseUrl(url).value.hostname, YouTubeHost)
    requires ParseUrl(url).value.pathname == "/embed/" + id
    requires id != "" && '?' !in id && !Contains(id, "/embed/")
    ensures ExtractYouTubeVideoId(url) == Some(id)
  {
    var p := ParseUrl(url).value.pathname;
    assert p == "" + "/embed/" + id;
    ContainsAt(p, "/embed/", 0);
    BetweenAfter("", "/embed/", id, '?');
    BeforeStop(id, '?', "");
    assert id + "" == id;
  }

  /** A parsed link on a YouTube host whose path has no `/embed/` gives the `v` query value, ""
      included, or null without one. */
  lemma WatchQueryId(url: string)
    requires url != "" && !Contains(url, ShortLinkHost + "/")
    requires ParseUrl(url).Some? && Contains(ParseUrl(url).value.hostname, YouTubeHost)
    requires !Contains(ParseUrl(url).value.pathname, "/embed/")
    ensures ExtractYouTubeVideoId(url) == QueryGet(ParseUrl(url).value.query, "v")
  {
  }

  /** A link that is not a share link and cannot be parsed gives null (the `catch`), and so does
      a parsed link for another host. */
  lemma OtherLinksNoId(url: string)
    requires !Contains(url, ShortLinkHost + "/")
    requires ParseUrl(url).None? || !Contains(ParseUrl(url).value.hostname, YouTubeHost)
    ensures ExtractYouTubeVideoId(url) == None
  {
  }

  /** On a share link the job card and the detail view agree: the card's id is the start of the
      detail view's, cut at the first '/'. */
  lemma ShareLinkAgrees(url: string)
    requires Contains(url, ShortLinkHost + "/") && ExtractYouTubeVideoId(url).Some?
    ensures YouTubeId(url).Ok? && StartsWith(YouTubeId(url).value, ExtractYouTubeVideoId(url).value)
    ensures YouTubeId(url).value == ExtractYouTubeVideoId(url).value <==> '/' !in YouTubeId(url).value
  {
    var x := Between(url, ShortLinkHost + "/", '?');
    var id := Before(x, '/');
    assert ShareLinkVideoId(url) == id;
    assert YouTubeId(url) == Ok(x);
    assert x[..|id|] == id;
  }
}
