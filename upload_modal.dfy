/** The portfolio upload form: the names it shows shortened to a fixed width, and the list of
    chosen files, which keeps at most five files of at most 10 MB each. */
module UploadModal {
  import opened Common

  const MaxFiles: nat := 5
  const MaxFileSizeMb: nat := 10
  const MaxFileSizeBytes: nat := MaxFileSizeMb * 1024 * 1024
  /** The column width the list shows a name in. */
  const DefaultNameWidth: nat := 36
  /** The ellipsis and dot put between a shortened base name and its extension. */
  const Ellipsis: string := "…."

  // ---------------------------------------------------------------
  // truncateName
  // ---------------------------------------------------------------

  /** `name.split('.').pop() || ''`: the text after the last '.', or the whole name without one. */
  function Extension(name: string): (ext: string)
    ensures '.' !in ext
    ensures '.' !in name ==> ext == name
    ensures '.' in name ==> |ext| < |name| && name == name[..|name| - |ext| - 1] + "." + ext
  {
    var p := LastIndexOf(name, '.');
    if p < 0 then name
    else
      var ext := name[p + 1..];
      assert forall j :: 0 <= j < |ext| ==> ext[j] == name[p + 1 + j];
      assert name == name[..p] + "." + ext;
      ext
  }

  /** `s.slice(0, end)`: a negative end counts from the back; an end past the string takes all. */
  function SliceTo(s: string, end: int): (r: string)
    ensures |r| <= |s| && r == s[..|r|]
  {
    if end < 0 then s[..Max(|s| + end, 0)] else s[..Min(end, |s|)]
  }

  /** `truncateName`: a name longer than `max` keeps the start of its base, then "…." and its
      extension. */
  function TruncateName(name: string, max: nat): (r: string)
    ensures |name| <= max ==> r == name
  {
    if |name| <= max then name else KeptBase(name, max) + Ellipsis + Extension(name)
  }

  /** The part of the base name a long name keeps: the name before its extension's dot, cut to the
      room the ellipsis and the extension leave. */
  function KeptBase(name: string, max: nat): string {
    var ext := Extension(name);
    var base := SliceTo(name, |name| - |ext| - 1);
    SliceTo(base, Max(0, max - |ext| - |Ellipsis|))
  }

  /** A long name with an extension keeps a prefix of its base and its whole extension, and fits the
      width whenever the extension and the ellipsis do. */
  lemma TruncateWithExtension(name: string, max: nat)
    requires '.' in name && |name| > max
    ensures var ext := Extension(name);
      exists k :: 0 <= k <= |name| - |ext| - 1 && TruncateName(name, max) == name[..k] + "…." + ext
    ensures |Extension(name)| + 2 <= max ==> |TruncateName(name, max)| <= max
  {
    var ext := Extension(name);
    var base := SliceTo(name, |name| - |ext| - 1);
    assert base == name[..|name| - |ext| - 1];
    var kept := KeptBase(name, max);
    assert kept == name[..|kept|];
    assert TruncateName(name, max) == name[..|kept|] + "…." + ext;
  }

  /** A long name without a '.' counts as its own extension: it comes back whole behind the
      ellipsis, two characters longer. */
  lemma TruncateWithoutDot(name: string, max: nat)
    requires '.' !in name && |name| > max
    ensures TruncateName(name, max) == "…." + name
    ensures |TruncateName(name, max)| == |name| + 2
  {
    assert KeptBase(name, max) == [];
  }

  /** The shortened name ends in the same extension, so the file type stays readable. */
  lemma TruncateKeepsExtension(name: string, max: nat)
    ensures Extension(TruncateName(name, max)) == Extension(name)
  {
    if |name| > max {
      var ext := Extension(name);
      var kept := KeptBase(name, max);
      EllipsisEndsInDot(kept, ext);
      ExtensionAfterDot(kept + "…", ext);
    }
  }

  lemma EllipsisEndsInDot(kept: string, ext: string)
    ensures kept + Ellipsis + ext == (kept + "…") + "." + ext
  {
    assert Ellipsis == "…" + ".";
  }

  /** The extension of `head.ext` is `ext` when `ext` holds no '.'. */
  lemma ExtensionAfterDot(head: string, ext: string)
    requires '.' !in ext
    ensures Extension(head + "." + ext) == ext
  {
    var r := head + "." + ext;
    assert r[|head|] == '.';
    forall j | |head| < j < |r|
      ensures r[j] != '.'
    {
      assert r[j] == ext[j - |head| - 1];
    }
    LastIndexOfUnique(r, '.', |head|);
    assert r[|head| + 1..] == ext;
  }

  // ---------------------------------------------------------------
  // addFiles and removeFile
  // ---------------------------------------------------------------

  /** A chosen file, as far as the form reads it. */
  datatype File = File(name: string, size: nat)

  predicate WithinLimit(f: File) {
    f.size <= MaxFileSizeBytes
  }

  /** The files of a selection that pass the size check, in their order. */
  function Accepted(list: seq<File>): (valid: seq<File>)
    ensures |valid| <= |list|
    ensures forall f :: f in valid <==> f in list && WithinLimit(f)
  {
    if list == [] then []
    else
      var last := list[|list| - 1];
      assert list == list[..|list| - 1] + [last];
      Accepted(list[..|list| - 1]) + (if WithinLimit(last) then [last] else [])
  }

  /** The warning entries for the files that fail the size check, in their order. */
  function Rejected(list: seq<File>): (notes: seq<string>)
    ensures |notes| + |Accepted(list)| == |list|
  {
    if list == [] then []
    else
      var last := list[|list| - 1];
      Rejected(list[..|list| - 1]) + (if WithinLimit(last) then [] else [RejectNote(last)])
  }

  function RejectNote(f: File): string {
    f.name + " (เกิน " + NatToString(MaxFileSizeMb) + "MB)"
  }

  /** `prev.filter((_, i) => i !== index)`. */
  function WithoutPosition(s: seq<File>, index: int): (r: seq<File>)
    ensures 0 <= index < |s| ==> r == s[..index] + s[index + 1..]
    ensures !(0 <= index < |s|) ==> r == s
  {
    if s == [] then []
    else
      var init := s[..|s| - 1];
      var rest := WithoutPosition(init, index);
      assert s == init + [s[|s| - 1]];
      if |s| - 1 == index then
        assert s[index + 1..] == [];
        rest
      else
        assert 0 <= index < |init| ==> s[index + 1..] == init[index + 1..] + [s[|s| - 1]];
        rest + [s[|s| - 1]]
  }

  /** The file list a selection leads to: the files already chosen, then the accepted new ones,
      cut at five. */
  function Merged(prev: seq<File>, newFiles: seq<File>): seq<File> {
    Take(prev + Accepted(newFiles), MaxFiles)
  }

  /** A prefix of `b` at least `n` long has the same first `n` elements as `b`. */
  lemma TakePrefix(a: seq<File>, b: seq<File>, n: nat)
    requires |a| <= |b| && a == b[..|a|]
    requires |a| >= n || a == b
    ensures Take(a, n) == Take(b, n)
  {
    if a != b {
      assert b[..n] == a[..n];
    }
  }

  /** The first loop of `addFiles`: each file goes to `valid` or, over 10 MB, to the warnings. */
  method SplitBySize(newFiles: seq<File>) returns (valid: seq<File>, rejected: seq<string>)
    ensures valid == Accepted(newFiles) && rejected == Rejected(newFiles)
  {
    valid := [];
    rejected := [];
    var i := 0;
    while i < |newFiles|
      invariant 0 <= i <= |newFiles|
      invariant valid == Accepted(newFiles[..i])
      invariant rejected == Rejected(newFiles[..i])
    {
      var f := newFiles[i];
      assert newFiles[..i + 1][..i] == newFiles[..i];
      if f.size > MaxFileSizeBytes {
        rejected := rejected + [RejectNote(f)];
      } else {
        valid := valid + [f];
      }
      i := i + 1;
    }
    assert newFiles[..i] == newFiles;
  }

  /** The second loop of `addFiles`: accepted files are pushed after the previous ones until five are
      chosen; the list is then cut at five. */
  method AppendUntilFull(prev: seq<File>, valid: seq<File>) returns (merged: seq<File>)
    ensures Take(merged, MaxFiles) == Take(prev + valid, MaxFiles)
  {
    merged := prev;
    var j := 0;
    while j < |valid| && |merged| < MaxFiles
      invariant 0 <= j <= |valid|
      invariant merged == prev + valid[..j]
    {
      assert valid[..j + 1] == valid[..j] + [valid[j]];
      merged := merged + [valid[j]];
      j := j + 1;
    }
    assert merged == (prev + valid)[..|merged|];
    if j == |valid| {
      assert valid[..j] == valid;
    }
    TakePrefix(merged, prev + valid, MaxFiles);
  }

  class UploadForm {
    var files: seq<File>

    /** At most five files, none over 10 MB. */
    ghost predicate Valid()
      reads this
    {
      |files| <= MaxFiles && forall f :: f in files ==> WithinLimit(f)
    }

    constructor ()
      ensures Valid() && files == []
    {
      files := [];
    }

    /** `addFiles`: files over 10 MB are skipped and reported; the rest are appended in order until
        five files are chosen. `tooMany` is the notice that only the first five are used. */
    method AddFiles(newFiles: seq<File>) returns (rejected: seq<string>, tooMany: bool)
      requires Valid()
      modifies this
      ensures Valid()
      ensures files == Merged(old(files), newFiles)
      ensures rejected == Rejected(newFiles)
      ensures tooMany <==> |newFiles| > MaxFiles
    {
      var valid;
      valid, rejected := SplitBySize(newFiles);
      var merged := AppendUntilFull(files, valid);
      ghost var prev := files;
      files := Take(merged, MaxFiles);
      MergedWithinLimit(prev, newFiles);
      tooMany := |newFiles| > MaxFiles;
    }

    /** `removeFile`: the file at `index` leaves the list and the others keep their order; an
        index outside the list changes nothing. */
    method RemoveFile(index: int)
      requires Valid()
      modifies this
      ensures Valid()
      ensures 0 <= index < |old(files)| ==> files == old(files)[..index] + old(files)[index + 1..]
      ensures !(0 <= index < |old(files)|) ==> files == old(files)
    {
      files := WithoutPosition(files, index);
    }
  }

  /** No file over 10 MB ever enters the list, and the list never holds more than five. */
  lemma MergedWithinLimit(prev: seq<File>, newFiles: seq<File>)
    requires forall f :: f in prev ==> WithinLimit(f)
    ensures |Merged(prev, newFiles)| <= MaxFiles
    ensures forall f :: f in Merged(prev, newFiles) ==> WithinLimit(f)
  {
    var all := prev + Accepted(newFiles);
    forall f | f in Merged(prev, newFiles)
      ensures WithinLimit(f)
    {
      assert f in all;
    }
  }

  /** The files chosen before stay first, and the new ones follow in the order they were picked. */
  lemma MergedKeepsOrder(prev: seq<File>, newFiles: seq<File>)
    requires |prev| <= MaxFiles
    ensures var m := Merged(prev, newFiles);
      |prev| <= |m| && m[..|prev|] == prev && m[|prev|..] == Accepted(newFiles)[..|m| - |prev|]
  {
    var m := Merged(prev, newFiles);
    var all := prev + Accepted(newFiles);
    assert m == all[..|m|];
    assert m[..|prev|] == all[..|prev|] == prev;
    assert m[|prev|..] == all[|prev|..|m|];
  }

  /** With room for them, every accepted file is added. */
  lemma MergedAddsAllThatFit(prev: seq<File>, newFiles: seq<File>)
    requires |prev| + |Accepted(newFiles)| <= MaxFiles
    ensures Merged(prev, newFiles) == prev + Accepted(newFiles)
  {
  }
}
