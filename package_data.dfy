/**
 * The `pybamm_data` list handed to `setup(package_data=...)`: every file
 * globbed under `pybamm/input` with its leading `pybamm` component
 * dropped, followed by three fixed entries. Paths use the POSIX separator.
 */
module PackageData {

  /** The extensions globbed for, in the order they are processed. */
  const FileExts: seq<string> := ["*.csv", "*.py", "*.md", "*.txt"]

  /** The entries appended after the globbed files, in order. */
  const FixedEntries: seq<string> := ["./CITATIONS.bib", "./plotting/pybamm.mplstyle", "../CMakeBuild.py"]

  /** `"pybamm/input/**/" + file_ext` */
  function GlobPattern(fileExt: string): string
  {
    "pybamm/input/**/" + fileExt
  }

  /** No separator anywhere in `p`. */
  predicate NoSlash(p: string)
  {
    forall k :: 0 <= k < |p| ==> p[k] != '/'
  }

  /** `s` cut at every `/`, scanning from the front. */
  function Split(s: string): (r: seq<string>)
    ensures |r| >= 1
  {
    if s == [] then [""]
    else
      var rest := Split(s[1..]);
      if s[0] == '/' then [""] + rest
      else [[s[0]] + rest[0]] + rest[1..]
  }

  /** The components joined with `/`, as `os.path.join` does for plain components. */
  function JoinParts(parts: seq<string>): string
    requires |parts| >= 1
  {
    if |parts| == 1 then parts[0] else parts[0] + "/" + JoinParts(parts[1..])
  }

  /** No component produced by `Split` holds a separator. */
  lemma {:induction false} SplitHasNoSlash(s: string)
    ensures forall i :: 0 <= i < |Split(s)| ==> NoSlash(Split(s)[i])
  {
    if s != [] {
      SplitHasNoSlash(s[1..]);
      var rest := Split(s[1..]);
      if s[0] != '/' {
        var head := [s[0]] + rest[0];
        assert NoSlash(rest[0]);
        assert forall k :: 1 <= k < |head| ==> head[k] == rest[0][k - 1];
        assert NoSlash(head);
        assert Split(s) == [head] + rest[1..];
      }
    }
  }

  /** Joining the components gives the path back. */
  lemma {:induction false} JoinSplit(s: string)
    ensures JoinParts(Split(s)) == s
  {
    if s != [] {
      var rest := Split(s[1..]);
      JoinSplit(s[1..]);
      if s[0] == '/' {
        assert Split(s) == [""] + rest;
        assert s == "/" + s[1..];
      } else {
        var head := [s[0]] + rest[0];
        assert Split(s) == [head] + rest[1..];
        if |rest| == 1 {
          assert s == [s[0]] + s[1..];
        } else {
          var tail := JoinParts(rest[1..]);
          assert s[1..] == rest[0] + "/" + tail;
          assert s == [s[0]] + s[1..];
          assert head + "/" + tail == [s[0]] + (rest[0] + "/" + tail);
        }
      }
    }
  }

  /** A separator-free path is a single component. */
  lemma {:induction false} SplitPlain(a: string)
    requires NoSlash(a)
    ensures Split(a) == [a]
  {
    if a != [] {
      assert NoSlash(a[1..]) by {
        assert forall k :: 0 <= k < |a[1..]| ==> a[1..][k] == a[k + 1];
      }
      SplitPlain(a[1..]);
      assert [a[0]] + a[1..] == a;
    }
  }

  /** A separator-free text before a `/` becomes the first component. */
  lemma {:induction false} SplitCons(a: string, b: string)
    requires NoSlash(a)
    ensures Split(a + "/" + b) == [a] + Split(b)
  {
    var s := a + "/" + b;
    if a == [] {
      assert s == "/" + b && s[1..] == b;
    } else {
      assert NoSlash(a[1..]) by {
        assert forall k :: 0 <= k < |a[1..]| ==> a[1..][k] == a[k + 1];
      }
      SplitCons(a[1..], b);
      assert s[0] == a[0] && s[1..] == a[1..] + "/" + b;
      assert [a[0]] + a[1..] == a;
    }
  }

  /** Splitting joined separator-free components gives the components back. */
  lemma {:induction false} SplitJoin(parts: seq<string>)
    requires |parts| >= 1
    requires forall i :: 0 <= i < |parts| ==> NoSlash(parts[i])
    ensures Split(JoinParts(parts)) == parts
    decreases |parts|
  {
    if |parts| == 1 {
      SplitPlain(parts[0]);
    } else {
      SplitJoin(parts[1..]);
      SplitCons(parts[0], JoinParts(parts[1..]));
      assert parts == [parts[0]] + parts[1..];
    }
  }

  /**
   * A path as glob returns it for these patterns: relative, at least two
   * components, none of them empty or `.`, so that `Path(f).parts` is
   * exactly `Split(f)`.
   */
  predicate PlainRelative(f: string)
  {
    |Split(f)| >= 2 && forall i :: 0 <= i < |Split(f)| ==> Split(f)[i] != "" && Split(f)[i] != "."
  }

  /**
   * `os.path.join(*Path(f).parts[1:])`: the path below its first
   * component, which is the text after the first separator.
   */
  function StripFirstComponent(f: string): (r: string)
    requires PlainRelative(f)
    ensures Split(r) == Split(f)[1..]
    ensures f == Split(f)[0] + "/" + r
  {
    var parts := Split(f);
    SplitHasNoSlash(f);
    SplitJoin(parts[1..]);
    JoinSplit(f);
    JoinParts(parts[1..])
  }

  /** The list comprehension over one glob's results. */
  function StripAll(files: seq<string>): (r: seq<string>)
    requires forall i :: 0 <= i < |files| ==> PlainRelative(files[i])
    ensures |r| == |files|
    ensures forall i :: 0 <= i < |files| ==>
      files[i] == Split(files[i])[0] + "/" + r[i] && Split(r[i]) == Split(files[i])[1..]
  {
    seq(|files|, i requires 0 <= i < |files| => StripFirstComponent(files[i]))
  }

  /** Every glob result for the processed patterns is a plain relative path. */
  predicate GlobsPlain(glob: string -> seq<string>)
  {
    forall ext, f :: ext in FileExts && f in glob(GlobPattern(ext)) ==> PlainRelative(f)
  }

  lemma GlobResultsPlain(glob: string -> seq<string>, k: nat)
    requires GlobsPlain(glob) && k < |FileExts|
    ensures forall j :: 0 <= j < |glob(GlobPattern(FileExts[k]))| ==> PlainRelative(glob(GlobPattern(FileExts[k]))[j])
  {
    var files := glob(GlobPattern(FileExts[k]));
    forall j | 0 <= j < |files|
      ensures PlainRelative(files[j])
    {
      assert files[j] in files;
    }
  }

  /** What `pybamm_data` holds after the first `n` patterns. */
  function Gathered(glob: string -> seq<string>, n: nat): seq<string>
    requires GlobsPlain(glob) && n <= |FileExts|
  {
    if n == 0 then []
    else
      GlobResultsPlain(glob, n - 1);
      Gathered(glob, n - 1) + StripAll(glob(GlobPattern(FileExts[n - 1])))
  }

  /** The four globs, unrolled. */
  lemma GatheredAll(glob: string -> seq<string>)
    requires GlobsPlain(glob)
    ensures Gathered(glob, |FileExts|)
         == StripAll(glob(GlobPattern(FileExts[0]))) + StripAll(glob(GlobPattern(FileExts[1])))
            + StripAll(glob(GlobPattern(FileExts[2]))) + StripAll(glob(GlobPattern(FileExts[3])))
  {
    assert Gathered(glob, 1) == StripAll(glob(GlobPattern(FileExts[0])));
    assert Gathered(glob, 2) == Gathered(glob, 1) + StripAll(glob(GlobPattern(FileExts[1])));
    assert Gathered(glob, 3) == Gathered(glob, 2) + StripAll(glob(GlobPattern(FileExts[2])));
    assert Gathered(glob, 4) == Gathered(glob, 3) + StripAll(glob(GlobPattern(FileExts[3])));
  }

  /**
   * The loop that builds `pybamm_data`: the stripped results of the csv,
   * py, md and txt globs in that order, then the three fixed entries.
   */
  method BuildPackageData(glob: string -> seq<string>) returns (data: seq<string>)
    requires GlobsPlain(glob)
    ensures data == StripAll(glob(GlobPattern(FileExts[0]))) + StripAll(glob(GlobPattern(FileExts[1])))
                    + StripAll(glob(GlobPattern(FileExts[2]))) + StripAll(glob(GlobPattern(FileExts[3])))
                    + FixedEntries
  {
    data := [];
    for i := 0 to |FileExts|
      invariant data == Gathered(glob, i)
    {
      var listOfFiles := glob(GlobPattern(FileExts[i]));
      GlobResultsPlain(glob, i);
      data := data + StripAll(listOfFiles);
    }
    GatheredAll(glob);
    data := data + [FixedEntries[0]];
    data := data + [FixedEntries[1]];
    data := data + [FixedEntries[2]];
    assert FixedEntries == [FixedEntries[0], FixedEntries[1], FixedEntries[2]];
  }
}
