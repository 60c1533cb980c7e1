/** Node's POSIX `path.basename` and `path.extname`, which the upload and video services use to
    pick a file's name and extension. '/' is the only separator. */
module NodePath {
  import opened Common

  /** `path.basename(p)`: the last segment, trailing separators ignored. */
  function Basename(p: string): (r: string)
    ensures '/' !in r
    decreases |p|
  {
    if |p| > 0 && p[|p| - 1] == '/' then Basename(p[..|p| - 1])
    else
      var i := LastIndexOf(p, '/');
      p[i + 1..]
  }

  /** `path.extname(p)`: the base name from its last '.' on. It is "" when the base name has no
      '.', when that '.' is its first character (".mp4"), and for "..". Leading dots before a
      later '.' do not matter: "..mov" gives ".mov". */
  function ExtName(p: string): (e: string)
    ensures e == [] || (e[0] == '.' && '.' !in e[1..] && '/' !in e)
    ensures e != [] ==> EndsWith(Basename(p), e) && |e| < |Basename(p)|
  {
    var b := Basename(p);
    var k := LastIndexOf(b, '.');
    if k > 0 && !(|b| == 2 && b[0] == '.') then
      assert forall j :: 1 <= j < |b[k..]| ==> b[k..][j] == b[k + j];
      b[k..]
    else []
  }

  /** A name without separators is its own base name. */
  lemma BasenameNoSlash(p: string)
    requires '/' !in p
    ensures Basename(p) == p
  {
    if |p| > 0 {
      assert p[|p| - 1] in p;
    }
  }

  /** A slash-free name other than ".." whose last '.' is at `k > 0` has the extension that starts
      at `k`, whatever precedes it. */
  lemma ExtNameAt(p: string, k: nat)
    requires '/' !in p && LastIndexOf(p, '.') == k && 0 < k && p != ".."
    ensures ExtName(p) == p[k..]
  {
    BasenameNoSlash(p);
  }

  /** A base name without a '.' has no extension. */
  lemma ExtNameNoDot(p: string)
    requires '.' !in Basename(p)
    ensures ExtName(p) == []
  {
  }

  /** A dot file such as ".mp4" has no extension. */
  lemma ExtNameOfDotFile(ext: string)
    requires '.' !in ext && '/' !in ext
    ensures ExtName("." + ext) == []
  {
    var p := "." + ext;
    SlashFreeStemAndExt([], ext);
    assert p == [] + "." + ext;
    BasenameNoSlash(p);
    LastDotOfStemAndExt([], ext);
  }

  /** ".." has no extension. */
  lemma ExtNameOfDotDot(p: string)
    requires p == ".."
    ensures ExtName(p) == []
  {
    assert p[0] == '.' && p[1] == '.' && |p| == 2;
    BasenameNoSlash(p);
  }

  /** Dots in front of the last one are part of the stem: "..mov" has the extension ".mov". */
  lemma ExtNameAfterLeadingDots(p: string)
    requires p == "..mov"
    ensures ExtName(p) == ".mov"
  {
    assert p == "." + "." + "mov";
    ExtNameOfStemAndExt(".", "mov");
  }

  lemma NoDotAfterStem(stem: string, ext: string)
    requires '.' !in ext
    ensures forall j :: |stem| < j < |stem + "." + ext| ==> (stem + "." + ext)[j] != '.'
  {
    var p := stem + "." + ext;
    forall j | |stem| < j < |p| ensures p[j] != '.' {
      assert p[j] == ext[j - |stem| - 1];
    }
  }

  lemma LastDotOfStemAndExt(stem: string, ext: string)
    requires '.' !in ext
    ensures LastIndexOf(stem + "." + ext, '.') == |stem|
  {
    var p := stem + "." + ext;
    NoDotAfterStem(stem, ext);
    assert p[|stem|] == '.';
    LastIndexOfUnique(p, '.', |stem|);
  }

  lemma SlashFreeStemAndExt(stem: string, ext: string)
    requires '/' !in stem && '/' !in ext
    ensures '/' !in stem + "." + ext
  {
    var p := stem + "." + ext;
    forall i | 0 <= i < |p| ensures p[i] != '/' {
      if i < |stem| { assert p[i] == stem[i]; }
      else if i > |stem| { assert p[i] == ext[i - |stem| - 1]; }
    }
  }

  /** A `stem.ext` name has extension `.ext` ("lesson.MOV" gives ".MOV", ".a.b" gives ".b"),
      unless it is "..". */
  lemma ExtNameOfStemAndExt(stem: string, ext: string)
    requires stem != [] && '.' !in ext
    requires '/' !in stem && '/' !in ext
    requires stem + "." + ext != ".."
    ensures ExtName(stem + "." + ext) == "." + ext
  {
    var p := stem + "." + ext;
    SlashFreeStemAndExt(stem, ext);
    LastDotOfStemAndExt(stem, ext);
    assert p[|stem|..] == "." + ext;
    ExtNameAt(p, |stem|);
  }
}
