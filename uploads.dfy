/** Serving an uploaded file by name: the path-traversal guard, the path the name
    resolves to inside the uploads directory, and the content type chosen from the
    name's extension. Paths follow POSIX rules ('/' is the only separator). */
module Uploads {
  import opened Common
  import opened NodePath

  // ---------------------------------------------------------------
  // The guard and path.resolve
  // ---------------------------------------------------------------

  /** The guard of `serveFile`: the name is its own basename and holds no "..". */
  predicate Accepted(filename: string) {
    Basename(filename) == filename && !Contains(filename, "..")
  }

  /** A name with a separator is never its own basename. */
  lemma AcceptedHasNoSeparator(filename: string)
    requires Accepted(filename)
    ensures '/' !in filename
  {
  }

  lemma ContainsDots(s: string, i: nat)
    requires i + 1 < |s| && s[i] == '.' && s[i + 1] == '.'
    ensures Contains(s, "..")
  {
    assert s[i..i + 2] == "..";
    ContainsAt(s, "..", i);
  }

  /** Every name containing ".." is refused, whatever else it holds. */
  lemma DotsRejected(filename: string, i: nat)
    requires i + 1 < |filename| && filename[i] == '.' && filename[i + 1] == '.'
    ensures !Accepted(filename)
  {
    ContainsDots(filename, i);
  }

  /** `path.resolve(dir, name)` for a name without separators other than "..": the name appended to
      the directory, or the directory itself for "" and ".". */
  function Resolve(dir: string, name: string): string
    requires '/' !in name
  {
    if name == "" || name == "." then dir else dir + "/" + name
  }

  /** An accepted name resolves directly inside the uploads directory (or, for ".", to the
      directory itself, as for ""), so the `startsWith` double check always passes. */
  lemma ResolvedInsideDir(dir: string, filename: string)
    requires Accepted(filename)
    ensures '/' !in filename
    ensures filename != "" && filename != "." ==> Resolve(dir, filename) == dir + "/" + filename
    ensures StartsWith(Resolve(dir, filename), dir)
  {
    var r := Resolve(dir, filename);
    if filename != "" && filename != "." {
      assert r[..|dir|] == dir;
    } else {
      assert dir[..|dir|] == dir;
    }
  }

  // ---------------------------------------------------------------
  // Content types
  // ---------------------------------------------------------------

  const OctetStream: string := "application/octet-stream"

  /** The `contentTypes` table. */
  function KnownType(ext: string): Option<string> {
    if ext == ".pdf" then Some("application/pdf")
    else if ext == ".jpg" || ext == ".jpeg" then Some("image/jpeg")
    else if ext == ".png" then Some("image/png")
    else if ext == ".gif" then Some("image/gif")
    else if ext == ".webp" then Some("image/webp")
    else if ext == ".doc" then Some("application/msword")
    else if ext == ".docx" then Some("application/vnd.openxmlformats-officedocument.wordprocessingml.document")
    else None
  }

  /** `contentTypes[ext] || 'application/octet-stream'` on the lower-cased extension. */
  function ContentType(name: string): string {
    KnownType(ToLower(ExtName(name))).GetOr(OctetStream)
  }

  /** The type falls back to octet-stream exactly for an extension outside the table. */
  lemma ContentTypeDefault(name: string)
    ensures ContentType(name) == OctetStream <==> KnownType(ToLower(ExtName(name))).None?
  {
    var k := KnownType(ToLower(ExtName(name)));
    if k.Some? {
      assert |k.value| != |OctetStream|;
    }
  }

  /** Extensions are matched whatever their case. */
  lemma ContentTypeIgnoresCase()
    ensures ContentType("REPORT.PDF") == "application/pdf"
  {
    assert "REPORT" + "." + "PDF" == "REPORT.PDF";
    ExtNameOfStemAndExt("REPORT", "PDF");
    assert ToLower(".PDF") == ".pdf";
  }

  /** A name that starts with its only '.' has no extension, so it is served as octet-stream. */
  lemma DotFileHasNoExtension()
    ensures ContentType(".png") == OctetStream
  {
    assert "." + "png" == ".png";
    ExtNameOfDotFile("png");
  }

  // ---------------------------------------------------------------
  // serveFile
  // ---------------------------------------------------------------

  datatype Served = Served(path: string, contentType: string)

  /** `serveFile` up to sending: NotFound (`None`) for a refused name or a missing file, otherwise
      the resolved path and its content type. */
  function ServeFile(filename: string, dir: string, existing: set<string>): (r: Option<Served>)
    ensures r.Some? ==> Accepted(filename) && r.value.path in existing && StartsWith(r.value.path, dir)
    ensures r.Some? ==> r.value.contentType == ContentType(filename)
    ensures r.Some? && filename != "" && filename != "." ==> r.value.path == dir + "/" + filename
    ensures r.None? ==> !Accepted(filename) || Resolve(dir, Basename(filename)) !in existing
  {
    if !Accepted(filename) then None
    else
      AcceptedHasNoSeparator(filename);
      var filePath := Resolve(dir, filename);
      if !StartsWith(filePath, dir) then None
      else if filePath !in existing then None
      else Some(Served(filePath, ContentType(filename)))
  }
}
