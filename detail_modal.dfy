/** The helpers of the portfolio detail view: the link to an uploaded file, the name shown for
    it, the player link of a video and the kind of preview an item gets. A missing field (null,
    undefined or "") is the empty string throughout, since every helper tests fields by
    JavaScript truthiness. */
module DetailModal {
  import opened Common
  import opened WebUrl

  /** A portfolio item as the helpers read it. */
  datatype Item = Item(itemType: string, mimeType: string, fileUrl: string,
                       originalFilename: string, standardFilename: string)

  // ---------------------------------------------------------------
  // getFileUrl
  // ---------------------------------------------------------------

  const UploadsRoute: string := "/api/uploads/"

  /** The file extensions of the upload regular expressions, in their alternation order: the
      picture and PDF extensions, then the office ones. */
  const PictureAndPdfExts: seq<string> := ["jpg", "jpeg", "png", "gif", "webp", "pdf"]
  const OfficeExts: seq<string> := ["doc", "docx", "xls", "xlsx", "ppt", "pptx"]
  const UploadExts: seq<string> := PictureAndPdfExts + OfficeExts

  /** `NEXT_PUBLIC_API_URL || '/api'`. */
  function ApiBase(apiUrl: string): string {
    if apiUrl == "" then "/api" else apiUrl
  }

  /** `base.replace(/\/api\/?$/, '')`: a trailing "/api" or "/api/" is cut. */
  function StripApiSuffix(base: string): (r: string)
    ensures StartsWith(base, r)
  {
    if EndsWith(base, "/api/") then base[..|base| - 5]
    else if EndsWith(base, "/api") then base[..|base| - 4]
    else base
  }

  /** The origin links are built on: the API base without its "/api", or the whole base when
      nothing else is left. */
  function Origin(apiUrl: string): string {
    var base := ApiBase(apiUrl);
    var stripped := StripApiSuffix(base);
    if stripped == "" then base else stripped
  }

  /** The characters of `[a-f0-9-]` under the `i` flag. */
  predicate IsIdChar(c: char) {
    '0' <= c <= '9' || 'a' <= c <= 'f' || 'A' <= c <= 'F' || c == '-'
  }

  /** The first alternative, in order, that `rest` starts with when case is ignored; the text
      matched keeps its case. An ordered alternation takes the first alternative that fits, not
      the longest. */
  function FirstAlternative(rest: string, alts: seq<string>): (r: Option<string>)
    ensures r.Some? ==> StartsWith(rest, r.value) && ToLower(r.value) in alts
  {
    if alts == [] then None
    else if |alts[0]| <= |rest| && ToLower(rest[..|alts[0]|]) == alts[0] then Some(rest[..|alts[0]|])
    else FirstAlternative(rest, alts[1..])
  }

  /** The first alternative, in order, that `rest` starts with exactly. */
  function FirstPrefix(rest: string, alts: seq<string>): Option<string> {
    if alts == [] then None
    else if StartsWith(rest, alts[0]) then Some(alts[0])
    else FirstPrefix(rest, alts[1..])
  }

  predicate IsLower(s: string) {
    forall j :: 0 <= j < |s| ==> !('A' <= s[j] <= 'Z')
  }

  /** On lower-case text ignoring case changes nothing. */
  lemma {:induction false} FirstAlternativeOfLower(rest: string, alts: seq<string>)
    requires IsLower(rest)
    ensures FirstAlternative(rest, alts) == FirstPrefix(rest, alts)
  {
    if alts != [] {
      var k := |alts[0]|;
      if k <= |rest| {
        var low := ToLower(rest[..k]);
        assert low == rest[..k] by {
          assert forall j :: 0 <= j < k ==> low[j] == rest[j];
        }
      }
      FirstAlternativeOfLower(rest, alts[1..]);
    }
  }

  /** An alternative that no other alternative begins is taken whole. */
  lemma {:induction false} FirstPrefixSelf(e: string, alts: seq<string>)
    requires e in alts
    requires forall a :: a in alts && StartsWith(e, a) ==> a == e
    ensures FirstPrefix(e, alts) == Some(e)
  {
    if !StartsWith(e, alts[0]) {
      assert alts[0] != e;
      assert e in alts[1..];
      FirstPrefixSelf(e, alts[1..]);
    }
  }

  /** An alternation of two lists tries the second only when the first has no match. */
  lemma {:induction false} FirstPrefixAppend(rest: string, a: seq<string>, b: seq<string>)
    ensures FirstPrefix(rest, a + b) == if FirstPrefix(rest, a).Some? then FirstPrefix(rest, a) else FirstPrefix(rest, b)
  {
    if a == [] {
      assert a + b == b;
    } else {
      assert (a + b)[1..] == a[1..] + b;
      FirstPrefixAppend(rest, a[1..], b);
    }
  }

  /** No alternative matches text that starts with a character none of them starts with. */
  lemma {:induction false} FirstPrefixOtherStart(rest: string, alts: seq<string>)
    requires rest != [] && forall j :: 0 <= j < |alts| ==> alts[j] != [] && alts[j][0] != rest[0]
    ensures FirstPrefix(rest, alts) == None
  {
    if alts != [] {
      FirstPrefixOtherStart(rest, alts[1..]);
    }
  }

  /** The extension part of the file-name pattern at the text `rest` after the dot: as written, the
      first alternative `rest` starts with; anchored at the end of the text (`$`, as the extension
      pattern of `getDisplayFilename` has), the whole of `rest` when it is an upload extension. */
  function ExtensionMatch(rest: string, anchored: bool): (r: Option<string>)
    ensures r.Some? ==> StartsWith(rest, r.value) && ToLower(r.value) in UploadExts
    ensures anchored && r.Some? ==> r.value == rest
  {
    if anchored then (if ToLower(rest) in UploadExts then Some(rest) else None)
    else FirstAlternative(rest, UploadExts)
  }

  /** The match of `[a-f0-9-]{36}\.(ext)` starting at position `i`. */
  function StandardNameAt(s: string, i: nat, anchored: bool): Option<string>
    requires i <= |s|
  {
    if i + 37 <= |s| && (forall j :: i <= j < i + 36 ==> IsIdChar(s[j])) && s[i + 36] == '.' then
      match ExtensionMatch(s[i + 37..], anchored)
      case Some(e) => Some(s[i..i + 37] + e)
      case None => None
    else None
  }

  /** The leftmost match of `[a-f0-9-]{36}\.(ext)` at or after position `i`. */
  function StandardNameFrom(s: string, i: nat, anchored: bool): Option<string>
    requires i <= |s|
    decreases |s| - i
  {
    if i == |s| then None
    else if StandardNameAt(s, i, anchored).Some? then StandardNameAt(s, i, anchored)
    else StandardNameFrom(s, i + 1, anchored)
  }

  /** `s.split(c).pop()`: the text after the last `c`, or all of `s`. */
  function LastSegment(s: string, c: char): (r: string)
    ensures c !in r && |r| <= |s|
  {
    var i := LastIndexOf(s, c);
    s[i + 1..]
  }

  /** The name `getFileUrl` puts in the link when no standard name is found. */
  function FallbackName(s: string): string {
    var a := LastSegment(s, '/');
    if a != "" then a
    else
      var b := LastSegment(s, '\\');
      if b != "" then b else s
  }

  /** `getFileUrl`, with the extension part of the file-name pattern anchored or not. */
  function FileUrlWith(fileUrl: string, apiUrl: string, anchored: bool): string {
    if fileUrl == "" then ""
    else if StartsWith(fileUrl, "http://") || StartsWith(fileUrl, "https://") then fileUrl
    else
      var name := match StandardNameFrom(fileUrl, 0, anchored)
        case Some(n) => n
        case None => FallbackName(fileUrl);
      Origin(apiUrl) + UploadsRoute + name
  }

  /** A relative path that does not begin with 'h' is linked into the uploads route under the name the
      pattern finds. */
  lemma RelativeLink(s: string, apiUrl: string, anchored: bool, name: string)
    requires s != [] && s[0] != 'h' && StandardNameFrom(s, 0, anchored) == Some(name)
    ensures FileUrlWith(s, apiUrl, anchored) == Origin(apiUrl) + UploadsRoute + name
  {
    assert !StartsWith(s, "http://") && !StartsWith(s, "https://");
  }

  /** `getFileUrl` as written: the alternation of the file-name pattern is not anchored. */
  function FileUrl(fileUrl: string, apiUrl: string): string {
    FileUrlWith(fileUrl, apiUrl, false)
  }

  /** `getFileUrl` as evidently intended: the extension runs to the end of the stored name. */
  function FileUrlFixed(fileUrl: string, apiUrl: string): string {
    FileUrlWith(fileUrl, apiUrl, true)
  }

  /** Empty input gives no link, absolute links are kept, and everything else points into the
      uploads route of the API origin. */
  lemma FileUrlCases(fileUrl: string, apiUrl: string, anchored: bool)
    ensures fileUrl == "" ==> FileUrlWith(fileUrl, apiUrl, anchored) == ""
    ensures StartsWith(fileUrl, "http://") || StartsWith(fileUrl, "https://") ==>
      FileUrlWith(fileUrl, apiUrl, anchored) == fileUrl
    ensures fileUrl != "" && !StartsWith(fileUrl, "http://") && !StartsWith(fileUrl, "https://") ==>
      StartsWith(FileUrlWith(fileUrl, apiUrl, anchored), Origin(apiUrl) + UploadsRoute)
  {
    if fileUrl != "" && !StartsWith(fileUrl, "http://") && !StartsWith(fileUrl, "https://") {
      var r := FileUrlWith(fileUrl, apiUrl, anchored);
      var head := Origin(apiUrl) + UploadsRoute;
      assert r[..|head|] == head;
    }
  }

  /** An API URL ending in "/api" or "/api/" gives its host part as the origin; with no API URL
      the origin stays "/api". */
  lemma OriginOfApiUrl(host: string)
    requires host != ""
    ensures Origin(host + "/api") == host
    ensures Origin(host + "/api/") == host
    ensures Origin("") == "/api"
  {
    var a := host + "/api";
    var b := host + "/api/";
    assert a[..|host|] == host && a[|host|..] == "/api";
    assert b[..|host|] == host && b[|host|..] == "/api/";
    assert a[|a| - 1] == 'i';
  }

  /** A 36-character name of `[a-f0-9-]`. */
  predicate IsStandardId(id: string) {
    |id| == 36 && forall j :: 0 <= j < 36 ==> IsIdChar(id[j])
  }

  /** After a folder path without dots, the leftmost match is the standard name: its id, the dot and
      the extension the pattern takes from the rest. */
  lemma {:induction false} StandardNameAfterDir(dir: string, id: string, rest: string, anchored: bool, i: nat)
    requires '.' !in dir && IsStandardId(id)
    requires ExtensionMatch(rest, anchored).Some?
    requires i <= |dir|
    ensures StandardNameFrom(dir + id + "." + rest, i, anchored) == Some(id + "." + ExtensionMatch(rest, anchored).value)
    decreases |dir| - i
  {
    var s := dir + id + "." + rest;
    if i < |dir| {
      assert s[i + 36] != '.' by {
        if i + 36 < |dir| {
          assert s[i + 36] == dir[i + 36];
        } else {
          assert s[i + 36] == id[i + 36 - |dir|];
        }
      }
      StandardNameAfterDir(dir, id, rest, anchored, i + 1);
    } else {
      assert forall j :: i <= j < i + 36 ==> s[j] == id[j - i];
      assert s[i + 36] == '.';
      assert s[i + 37..] == rest;
      assert s[i..i + 37] == id + ".";
    }
  }

  /** A stored name `<dir><id>.<ext>` is linked as `<origin>/api/uploads/<id>.<e>`, where `e` is
      the extension the pattern takes from `ext`. */
  lemma FileUrlOfStandardName(dir: string, id: string, ext: string, apiUrl: string, anchored: bool)
    requires (dir == [] || dir[0] == '/') && '.' !in dir && IsStandardId(id)
    requires ExtensionMatch(ext, anchored).Some?
    ensures FileUrlWith(dir + id + "." + ext, apiUrl, anchored)
      == Origin(apiUrl) + UploadsRoute + id + "." + ExtensionMatch(ext, anchored).value
  {
    var s := dir + id + "." + ext;
    assert s[0] != 'h' by {
      if dir == [] {
        assert s[0] == id[0];
      }
    }
    var e := ExtensionMatch(ext, anchored).value;
    StandardNameAfterDir(dir, id, ext, anchored, 0);
    RelativeLink(s, apiUrl, anchored, id + "." + e);
    assert Origin(apiUrl) + UploadsRoute + (id + "." + e) == Origin(apiUrl) + UploadsRoute + id + "." + e;
  }

  /** As written, a stored name keeps its extension whenever no other upload extension begins it. */
  lemma FileUrlKeepsUnambiguousName(dir: string, id: string, ext: string, apiUrl: string)
    requires (dir == [] || dir[0] == '/') && '.' !in dir && IsStandardId(id)
    requires ext in UploadExts && IsLower(ext)
    requires forall a :: a in UploadExts && StartsWith(ext, a) ==> a == ext
    ensures FileUrl(dir + id + "." + ext, apiUrl) == Origin(apiUrl) + UploadsRoute + id + "." + ext
  {
    FirstAlternativeOfLower(ext, UploadExts);
    FirstPrefixSelf(ext, UploadExts);
    FileUrlOfStandardName(dir, id, ext, apiUrl, false);
  }

  /** The six image and PDF extensions are tried before "doc", which "docx" starts with. */
  lemma DocxAlternative()
    ensures FirstAlternative("docx", UploadExts) == Some("doc")
  {
    FirstAlternativeOfLower("docx", UploadExts);
    FirstPrefixOtherStart("docx", PictureAndPdfExts);
    FirstPrefixAppend("docx", PictureAndPdfExts, OfficeExts);
    assert "docx"[..3] == "doc";
  }

  /** As written, a Word file stored as `<id>.docx` is linked as `<id>.doc`: the alternation takes
      "doc" before it tries "docx", so the link misses the stored file. */
  lemma DocxLinkedAsDoc(dir: string, id: string, apiUrl: string)
    requires (dir == [] || dir[0] == '/') && '.' !in dir && IsStandardId(id)
    ensures FileUrl(dir + id + ".docx", apiUrl) == Origin(apiUrl) + UploadsRoute + id + ".doc"
    ensures FileUrl(dir + id + ".docx", apiUrl) != Origin(apiUrl) + UploadsRoute + id + ".docx"
  {
    var head := Origin(apiUrl) + UploadsRoute + id;
    DocxLink(dir, id, "docx", apiUrl);
    assert dir + id + "." + "docx" == dir + id + ".docx";
    assert head + "." + "docx"[..3] == head + ".doc";
    assert |head + ".doc"| < |head + ".docx"|;
  }

  lemma DocxLink(dir: string, id: string, ext: string, apiUrl: string)
    requires (dir == [] || dir[0] == '/') && '.' !in dir && IsStandardId(id)
    requires ext == "docx"
    ensures FileUrl(dir + id + "." + ext, apiUrl) == Origin(apiUrl) + UploadsRoute + id + "." + ext[..3]
  {
    DocxAlternative();
    assert ExtensionMatch(ext, false) == Some(ext[..3]);
    FileUrlOfStandardName(dir, id, ext, apiUrl, false);
  }

  /** With the extension anchored at the end, every upload extension, in any case, is linked
      whole. */
  lemma FixedKeepsEveryExtension(dir: string, id: string, ext: string, apiUrl: string)
    requires (dir == [] || dir[0] == '/') && '.' !in dir && IsStandardId(id)
    requires ToLower(ext) in UploadExts
    ensures FileUrlFixed(dir + id + "." + ext, apiUrl) == Origin(apiUrl) + UploadsRoute + id + "." + ext
  {
    FileUrlOfStandardName(dir, id, ext, apiUrl, true);
  }

  // ---------------------------------------------------------------
  // getDisplayFilename
  // ---------------------------------------------------------------

  /** `originalFilename || standardFilename || ''`. */
  function RawName(item: Item): string {
    if item.originalFilename != "" then item.originalFilename else item.standardFilename
  }

  /** The mojibake test: Thai text decoded as Latin-1 shows one of these pieces, or a replacement
      character. */
  predicate Garbled(raw: string) {
    Contains(raw, "à¸") || 'Ã' in raw || Contains(raw, "à¹") || Contains(raw, "àº")
    || Contains(raw, "à»") || Contains(raw, "à¼") || Contains(raw, "à½") || '\U{FFFD}' in raw
  }

  /** `s.match(/\.(exts)$/i)?.[1]`: the text after the last '.' when, ignoring case, it is one of the
      upload extensions. The alternatives hold no '.', so only the last '.' can start a match that
      reaches the end. */
  function PathExtension(s: string): (r: Option<string>)
    ensures r.Some? ==> ToLower(r.value) in UploadExts && EndsWith(s, "." + r.value)
  {
    var p := LastIndexOf(s, '.');
    if p >= 0 && ToLower(s[p + 1..]) in UploadExts then
      assert s[|s| - |s[p..]|..] == s[p..] == "." + s[p + 1..];
      Some(s[p + 1..])
    else None
  }

  const Unnamed: string := "ไฟล์"
  const Picture: string := "รูปภาพ"

  predicate IsPictureExt(ext: string) {
    ext == "jpg" || ext == "jpeg" || ext == "png" || ext == "gif" || ext == "webp"
  }

  /** The label that replaces a garbled name, from the extension of the link. */
  function GarbledLabel(fileUrl: string): string {
    var ext := PathExtension(fileUrl).GetOr(Unnamed);
    if IsPictureExt(ext) then Picture else Unnamed + "." + ext
  }

  /** `getDisplayFilename`. */
  function DisplayFilename(item: Item): string {
    var raw := RawName(item);
    if Garbled(raw) && item.fileUrl != "" then GarbledLabel(item.fileUrl)
    else if raw != "" then raw
    else Unnamed
  }

  /** A readable name is shown as it is; with no name at all the label is "ไฟล์". */
  lemma DisplayReadableName(item: Item)
    requires !Garbled(RawName(item))
    ensures RawName(item) != "" ==> DisplayFilename(item) == RawName(item)
    ensures RawName(item) == "" ==> DisplayFilename(item) == Unnamed
  {
  }

  /** A garbled name is replaced: "รูปภาพ" for a link ending in a lower-case image extension, "ไฟล์."
      and the matched extension for other upload extensions, and "ไฟล์.ไฟล์" when the link ends in
      none of them. */
  lemma DisplayGarbledName(item: Item)
    requires Garbled(RawName(item)) && item.fileUrl != ""
    ensures PathExtension(item.fileUrl).Some? && IsPictureExt(PathExtension(item.fileUrl).value) ==>
      DisplayFilename(item) == Picture
    ensures PathExtension(item.fileUrl).Some? && !IsPictureExt(PathExtension(item.fileUrl).value) ==>
      DisplayFilename(item) == Unnamed + "." + PathExtension(item.fileUrl).value
    ensures PathExtension(item.fileUrl).None? ==> DisplayFilename(item) == Unnamed + "." + Unnamed
  {
    assert DisplayFilename(item) == GarbledLabel(item.fileUrl);
    assert !IsPictureExt(Unnamed);
  }

  /** A garbled name stays when there is no link to take an extension from. */
  lemma GarbledWithoutLink(item: Item)
    requires Garbled(RawName(item)) && item.fileUrl == ""
    ensures DisplayFilename(item) == RawName(item)
  {
    assert RawName(item) != "";
  }

  // ---------------------------------------------------------------
  // getFileType
  // ---------------------------------------------------------------

  datatype FileKind = Image | Pdf | Video | OtherKind

  const ImageExts: seq<string> := ["jpg", "jpeg", "png", "gif", "webp", "bmp"]
  const VideoExts: seq<string> := ["mp4", "webm", "ogg", "mov"]

  /** The extension `getFileType` decides by: the link's upload extension in lower case, else the
      lower-cased text after the last '.' of the name (the whole name when it has none). */
  function KindExtension(item: Item): string {
    var fromPath := match PathExtension(item.fileUrl) case Some(e) => ToLower(e) case None => "";
    if fromPath != "" then fromPath else ToLower(LastSegment(RawName(item), '.'))
  }

  /** `getFileType`. */
  function FileType(item: Item): FileKind {
    if item.itemType == "VIDEO_LINK" then Video
    else
      var ext := KindExtension(item);
      if StartsWith(item.mimeType, "image/") || ext in ImageExts then Image
      else if item.mimeType == "application/pdf" || ext == "pdf" then Pdf
      else if StartsWith(item.mimeType, "video/") || ext in VideoExts then Video
      else OtherKind
  }

  /** A video link is a video whatever its other fields say. */
  lemma VideoLinkIsVideo(item: Item)
    requires item.itemType == "VIDEO_LINK"
    ensures FileType(item) == Video
  {
  }

  /** The tests run in order: image before PDF before video, each by MIME type or extension. */
  lemma FileTypeOrder(item: Item)
    requires item.itemType != "VIDEO_LINK"
    ensures FileType(item) == Image <==> StartsWith(item.mimeType, "image/") || KindExtension(item) in ImageExts
    ensures FileType(item) == Pdf <==>
      !(StartsWith(item.mimeType, "image/") || KindExtension(item) in ImageExts)
      && (item.mimeType == "application/pdf" || KindExtension(item) == "pdf")
    ensures FileType(item) == OtherKind ==>
      !StartsWith(item.mimeType, "image/") && !StartsWith(item.mimeType, "video/")
      && item.mimeType != "application/pdf"
      && KindExtension(item) !in ImageExts && KindExtension(item) != "pdf" && KindExtension(item) !in VideoExts
  {
  }

  /** A link ending in an upload extension decides over the file name. */
  lemma LinkExtensionDecides(item: Item, e: string)
    requires PathExtension(item.fileUrl) == Some(e)
    ensures KindExtension(item) == ToLower(e)
  {
    assert ToLower(e) in UploadExts;
    assert "" !in UploadExts;
  }

  // ---------------------------------------------------------------
  // getVideoEmbedUrl
  // ---------------------------------------------------------------

  const YouTubeEmbed: string := "https://www.youtube.com/embed/"
  const VimeoPlayer: string := "https://player.vimeo.com/video/"

  function DrivePreview(fileId: string): string {
    "https://drive.google.com/file/d/" + fileId + "/preview"
  }

  /** `s.split(sep)[1]?.split(stop)[0] || ''`. */
  function Between(s: string, sep: string, stop: char): (r: string)
    requires sep != []
    ensures stop !in r
  {
    match SplitSecond(s, sep)
    case Some(x) => Before(x, stop)
    case None => ""
  }

  const YouTubeHost: string := "youtube.com"
  /** The host of YouTube's share links. */
  const ShortLinkHost: string := "youtu.be"

  /** The YouTube id `getVideoEmbedUrl` reads, or "" when none; `new URL` throws on a watch link
      it cannot parse, and nothing catches it. */
  function YouTubeId(videoUrl: string): Result<string, UrlError> {
    if Contains(videoUrl, ShortLinkHost + "/") then Ok(Between(videoUrl, ShortLinkHost + "/", '?'))
    else if Contains(videoUrl, YouTubeHost + "/watch") then
      match ParseUrl(videoUrl)
      case None => Err(InvalidUrl)
      case Some(u) => Ok(QueryGet(u.query, "v").GetOr(""))
    else if Contains(videoUrl, YouTubeHost + "/embed/") then Ok(Between(videoUrl, "embed/", '?'))
    else Ok("")
  }

  predicate LooksLikeYouTube(videoUrl: string, platform: string) {
    platform == "youtube" || Contains(videoUrl, YouTubeHost) || Contains(videoUrl, ShortLinkHost)
  }

  /** The Google Drive file id: the text after the first "/file/d/" up to a '/', else the text
      after the first "id=" up to a '&', else "". */
  function DriveId(videoUrl: string): (id: string)
    ensures Contains(videoUrl, "/file/d/") ==>
      StartsWith(videoUrl[FindSub(videoUrl, "/file/d/") + 8..], id) && '/' !in id
    ensures !Contains(videoUrl, "/file/d/") && Contains(videoUrl, "id=") ==>
      StartsWith(videoUrl[FindSub(videoUrl, "id=") + 3..], id) && '&' !in id
    ensures !Contains(videoUrl, "/file/d/") && !Contains(videoUrl, "id=") ==> id == ""
  {
    if Contains(videoUrl, "/file/d/") then
      BetweenStart(videoUrl, "/file/d/", '/');
      Between(videoUrl, "/file/d/", '/')
    else if Contains(videoUrl, "id=") then
      BetweenStart(videoUrl, "id=", '&');
      Between(videoUrl, "id=", '&')
    else ""
  }

  /** The Vimeo and Google Drive cases, tried when YouTube gives no id. */
  function OtherPlayers(videoUrl: string, platform: string): Option<string> {
    var vimeoId := if platform == "vimeo" || Contains(videoUrl, "vimeo.com") then Between(videoUrl, "vimeo.com/", '?') else "";
    if vimeoId != "" then Some(VimeoPlayer + vimeoId)
    else if Contains(videoUrl, "drive.google.com") && DriveId(videoUrl) != "" then Some(DrivePreview(DriveId(videoUrl)))
    else None
  }

  /** `getVideoEmbedUrl`: `Err` where `new URL` throws. */
  function EmbedUrl(videoUrl: string, platform: string): Result<Option<string>, UrlError> {
    if videoUrl == "" then Ok(None)
    else
      var yt := if LooksLikeYouTube(videoUrl, platform) then YouTubeId(videoUrl) else Ok("");
      match yt
      case Err(e) => Err(e)
      case Ok(id) => if id != "" then Ok(Some(YouTubeEmbed + id)) else Ok(OtherPlayers(videoUrl, platform))
  }

  /** A YouTube-looking link with an id plays that id on YouTube. */
  lemma EmbedOfYouTubeId(videoUrl: string, platform: string)
    requires videoUrl != "" && LooksLikeYouTube(videoUrl, platform)
    requires YouTubeId(videoUrl).Ok? && YouTubeId(videoUrl).value != ""
    ensures EmbedUrl(videoUrl, platform) == Ok(Some(YouTubeEmbed + YouTubeId(videoUrl).value))
  {
  }

  /** The text `Between` gives starts right after the first `sep`. */
  lemma BetweenStart(s: string, sep: string, stop: char)
    requires sep != [] && Contains(s, sep)
    ensures StartsWith(s[FindSub(s, sep) + |sep|..], Between(s, sep, stop))
  {
    var x := SplitSecond(s, sep).value;
    var r := Between(s, sep, stop);
    var rest := s[FindSub(s, sep) + |sep|..];
    assert r == x[..|r|] && x == rest[..|x|];
    assert rest[..|r|] == r;
  }

  /** An empty link has no player. */
  lemma EmbedOfEmpty(platform: string)
    ensures EmbedUrl("", platform) == Ok(None)
  {
  }

  /** Only three players are embedded, each with a non-empty id. */
  lemma EmbedForms(videoUrl: string, platform: string)
    requires EmbedUrl(videoUrl, platform).Ok? && EmbedUrl(videoUrl, platform).value.Some?
    ensures exists id :: id != "" && var u := EmbedUrl(videoUrl, platform).value.value;
      u == YouTubeEmbed + id || u == VimeoPlayer + id || u == DrivePreview(id)
  {
    var u := EmbedUrl(videoUrl, platform).value.value;
    var yt := if LooksLikeYouTube(videoUrl, platform) then YouTubeId(videoUrl) else Ok("");
    if yt.value != "" {
      assert u == YouTubeEmbed + yt.value;
    } else {
      var vimeoId := if platform == "vimeo" || Contains(videoUrl, "vimeo.com") then Between(videoUrl, "vimeo.com/", '?') else "";
      if vimeoId != "" {
        assert u == VimeoPlayer + vimeoId;
      } else {
        assert u == DrivePreview(DriveId(videoUrl));
      }
    }
  }

  /** `a + b` occurring in `s` means `a` occurs in `s`. */
  lemma ContainsPrefixOf(s: string, a: string, b: string)
    requires Contains(s, a + b)
    ensures Contains(s, a)
  {
    var i := FindSub(s, a + b);
    assert s[i..i + |a|] == (a + b)[..|a|] == a;
    ContainsAt(s, a, i);
  }

  /** A share link: the id is the text after the first "youtu.be/" up to a '?', whatever the
      platform field says. */
  lemma ShareLinkEmbed(videoUrl: string, platform: string)
    requires Contains(videoUrl, ShortLinkHost + "/") && Between(videoUrl, ShortLinkHost + "/", '?') != ""
    ensures var id := Between(videoUrl, ShortLinkHost + "/", '?');
      && StartsWith(videoUrl[FindSub(videoUrl, ShortLinkHost + "/") + |ShortLinkHost| + 1..], id) && '?' !in id
      && EmbedUrl(videoUrl, platform) == Ok(Some(YouTubeEmbed + id))
  {
    ContainsPrefixOf(videoUrl, ShortLinkHost, "/");
    assert YouTubeId(videoUrl) == Ok(Between(videoUrl, ShortLinkHost + "/", '?'));
    EmbedOfYouTubeId(videoUrl, platform);
    BetweenStart(videoUrl, ShortLinkHost + "/", '?');
  }

  /** "https://youtu.be/<id>" and "https://youtu.be/<id>?<query>" play video `<id>`. */
  lemma ShareLinkOfId(id: string, tail: string, platform: string)
    requires id != "" && '/' !in id && '?' !in id
    requires tail == "" || (tail[0] == '?' && '/' !in tail)
    ensures EmbedUrl("https://" + ShortLinkHost + "/" + id + tail, platform) == Ok(Some(YouTubeEmbed + id))
  {
    var sub := ShortLinkHost + "/";
    var v := "https://" + ShortLinkHost + "/" + id + tail;
    assert v == "https://" + sub + (id + tail);
    assert '/' !in id + tail;
    NotContainsChar(id + tail, sub, '/');
    BetweenAfter("https://", sub, id + tail, '?');
    BeforeStop(id, '?', tail);
    ShareLinkEmbed(v, platform);
  }

  /** When `p` holds no character that starts `sub` and `sub` does not occur again, the text
      between `sub` and `stop` is read from what follows `sub`. */
  lemma BetweenAfter(p: string, sub: string, rest: string, stop: char)
    requires sub != [] && forall j :: 0 <= j < |p| ==> p[j] != sub[0]
    requires !Contains(rest, sub)
    ensures Contains(p + sub + rest, sub)
    ensures Between(p + sub + rest, sub, stop) == Before(rest, stop)
  {
    var v := p + sub + rest;
    FindAfter(p, sub, rest);
    assert v[|p| + |sub|..] == rest;
  }

  /** The first occurrence of `sub` in `p + sub + t` is right after `p` when no character of `p`
      starts `sub`. */
  lemma FindAfter(p: string, sub: string, t: string)
    requires sub != [] && forall j :: 0 <= j < |p| ==> p[j] != sub[0]
    ensures FindSub(p + sub + t, sub) == |p|
  {
    var s := p + sub + t;
    assert s[|p|..|p| + |sub|] == sub;
    ContainsAt(s, sub, |p|);
    var i := FindSub(s, sub);
    assert s[i] == sub[0];
    assert StartsWith(s[|p|..], sub);
  }

  /** `Before` stops at the `c` that starts `tail`, or takes all of `a` when `tail` is empty. */
  lemma BeforeStop(a: string, c: char, tail: string)
    requires c !in a && (tail == [] || tail[0] == c)
    ensures Before(a + tail, c) == a
  {
    if tail == [] {
      assert a + tail == a;
    } else {
      assert a + tail == a + [c] + tail[1..];
      IndexOfAt(a, c, tail[1..]);
    }
  }

  /** An embed link: the id is the text after the first "embed/" up to a '?'. */
  lemma EmbedLinkEmbed(videoUrl: string, platform: string)
    requires !Contains(videoUrl, ShortLinkHost + "/") && !Contains(videoUrl, YouTubeHost + "/watch")
    requires Contains(videoUrl, YouTubeHost + "/embed/") && Between(videoUrl, "embed/", '?') != ""
    ensures var id := Between(videoUrl, "embed/", '?');
      && StartsWith(videoUrl[FindSub(videoUrl, "embed/") + 6..], id) && '?' !in id
      && EmbedUrl(videoUrl, platform) == Ok(Some(YouTubeEmbed + id))
  {
    ContainsPrefixOf(videoUrl, YouTubeHost, "/embed/");
    assert YouTubeId(videoUrl) == Ok(Between(videoUrl, "embed/", '?'));
    EmbedOfYouTubeId(videoUrl, platform);
    BetweenStart(videoUrl, "embed/", '?');
  }

  /** A Google Drive link that is neither YouTube nor Vimeo previews the file named after
      "/file/d/" (up to the next '/'), or else after "id=" (up to the next '&'). */
  lemma DriveLinkEmbed(videoUrl: string, platform: string)
    requires platform != "youtube" && platform != "vimeo"
    requires !Contains(videoUrl, YouTubeHost) && !Contains(videoUrl, ShortLinkHost) && !Contains(videoUrl, "vimeo.com")
    requires Contains(videoUrl, "drive.google.com") && DriveId(videoUrl) != ""
    ensures EmbedUrl(videoUrl, platform) == Ok(Some(DrivePreview(DriveId(videoUrl))))
  {
    assert !LooksLikeYouTube(videoUrl, platform);
    assert OtherPlayers(videoUrl, platform) == Some(DrivePreview(DriveId(videoUrl)));
  }

  /** A link to none of the three services has no player, whatever is in it. */
  lemma UnknownLinkNoEmbed(videoUrl: string, platform: string)
    requires platform != "youtube" && platform != "vimeo"
    requires !Contains(videoUrl, YouTubeHost) && !Contains(videoUrl, ShortLinkHost)
    requires !Contains(videoUrl, "vimeo.com") && !Contains(videoUrl, "drive.google.com")
    ensures EmbedUrl(videoUrl, platform) == Ok(None)
  {
  }
}
