/** The portfolio card: the still image it shows for a video item. The card's link, name and
    preview-kind helpers are the detail view's own code and are the `DetailModal` functions. */
module PortfolioItemCard {
  import opened Common
  import opened WebUrl
  import opened DetailModal

  const ThumbnailPrefix: string := "https://img.youtube.com/vi/"
  const ThumbnailSuffix: string := "/mqdefault.jpg"

  /** The medium-quality still YouTube serves for a video. */
  function Thumbnail(videoId: string): (r: string)
    ensures |r| == |ThumbnailPrefix| + |videoId| + |ThumbnailSuffix|
    ensures StartsWith(r, ThumbnailPrefix) && EndsWith(r, ThumbnailSuffix)
  {
    var r := ThumbnailPrefix + videoId + ThumbnailSuffix;
    assert r[..|ThumbnailPrefix|] == ThumbnailPrefix;
    assert r[|r| - |ThumbnailSuffix|..] == ThumbnailSuffix;
    r
  }

  /** The video id a still's address names. */
  function ThumbnailVideoId(thumb: string): string
    requires |thumb| >= |ThumbnailPrefix| + |ThumbnailSuffix|
  {
    thumb[|ThumbnailPrefix|..|thumb| - |ThumbnailSuffix|]
  }

  /** The id can be read back from the still's address, so different videos get different
      stills. */
  lemma ThumbnailRoundTrip(videoId: string)
    ensures ThumbnailVideoId(Thumbnail(videoId)) == videoId
  {
    var r := Thumbnail(videoId);
    assert r == ThumbnailPrefix + videoId + ThumbnailSuffix;
    assert r[|ThumbnailPrefix|..|r| - |ThumbnailSuffix|] == videoId;
  }

  /** `getVideoThumbnail`: the YouTube id is read as `getVideoEmbedUrl` reads it, but a watch link
      `new URL` cannot parse gives no still instead of an exception. Vimeo and Drive links have
      no still. */
  function VideoThumbnail(videoUrl: string, platform: string): Option<string> {
    if videoUrl == "" || !LooksLikeYouTube(videoUrl, platform) then None
    else
      match YouTubeId(videoUrl)
      case Err(_) => None
      case Ok(id) => if id != "" then Some(Thumbnail(id)) else None
  }

  /** A link has a still exactly when it looks like YouTube and yields a non-empty id, and the
      still shows that id. */
  lemma ThumbnailOfId(videoUrl: string, platform: string)
    ensures VideoThumbnail(videoUrl, platform).Some? <==>
      videoUrl != "" && LooksLikeYouTube(videoUrl, platform) && YouTubeId(videoUrl).Ok? && YouTubeId(videoUrl).value != ""
    ensures VideoThumbnail(videoUrl, platform).Some? ==>
      VideoThumbnail(videoUrl, platform).value == Thumbnail(YouTubeId(videoUrl).value)
  {
  }

  /** The card's still and the detail view's player show the same YouTube video. */
  lemma ThumbnailMatchesEmbed(videoUrl: string, platform: string)
    requires VideoThumbnail(videoUrl, platform).Some?
    ensures var id := ThumbnailVideoId(VideoThumbnail(videoUrl, platform).value);
      EmbedUrl(videoUrl, platform) == Ok(Some(YouTubeEmbed + id))
  {
    ThumbnailOfId(videoUrl, platform);
    ThumbnailRoundTrip(YouTubeId(videoUrl).value);
    EmbedOfYouTubeId(videoUrl, platform);
  }

  /** Where the detail view's `new URL` throws, the card shows no still instead. */
  lemma UnparseableWatchLink(videoUrl: string, platform: string)
    requires videoUrl != "" && LooksLikeYouTube(videoUrl, platform) && YouTubeId(videoUrl).Err?
    ensures VideoThumbnail(videoUrl, platform) == None
    ensures EmbedUrl(videoUrl, platform) == Err(InvalidUrl)
  {
  }

  /** Vimeo and Google Drive links have no still, though the detail view plays them. */
  lemma OtherPlayersNoThumbnail(videoUrl: string, platform: string)
    requires !LooksLikeYouTube(videoUrl, platform)
    ensures VideoThumbnail(videoUrl, platform) == None
    ensures videoUrl != "" ==> EmbedUrl(videoUrl, platform) == Ok(OtherPlayers(videoUrl, platform))
  {
  }
}
