/** POSIX path handling (`os.path.join`, `dirname`, `basename`) and the
    derivation of a local Markdown file from a URL path (`build_local_filepath`). */
module Paths {
  import opened Text

  /** `os.path.join(a, b)`: an absolute `b` replaces `a`; otherwise one separator
      is put between them unless `a` is empty or already ends in one. */
  function Join(a: string, b: string): string {
    if StartsWith(b, "/") then b
    else if a == "" || EndsWith(a, "/") then a + b
    else a + "/" + b
  }

  /** `os.path.join(p0, p1, ...)`: join the parts from left to right. */
  function JoinAll(parts: seq<string>): string
    decreases |parts|
  {
    if |parts| == 0 then ""
    else if |parts| == 1 then parts[0]
    else Join(JoinAll(parts[..|parts| - 1]), parts[|parts| - 1])
  }

  lemma JoinAllSnoc(parts: seq<string>, last: string)
    requires |parts| >= 1
    ensures JoinAll(parts + [last]) == Join(JoinAll(parts), last)
  {
    assert (parts + [last])[..|parts|] == parts;
  }

  /** A relative part is appended after a separator, so the joined path ends with it. */
  lemma JoinRelative(a: string, b: string)
    requires b != [] && b[0] != '/'
    ensures Join(a, b) == a + b || Join(a, b) == a + "/" + b
    ensures EndsWith(Join(a, b), b)
  {
    assert !StartsWith(b, "/") by {
      assert b[..1] == [b[0]];
    }
    if a == "" || EndsWith(a, "/") {
      EndsWithAppend(a, b);
    } else {
      assert a + "/" + b == (a + "/") + b;
      EndsWithAppend(a + "/", b);
    }
  }

  /** Joining an empty part only adds a trailing separator, which the next relative
      part would have received anyway. */
  lemma JoinEmptyThen(a: string, b: string)
    requires b != [] && b[0] != '/'
    ensures Join(Join(a, ""), b) == Join(a, b)
  {
    assert !StartsWith(b, "/") by {
      assert b[..1] == [b[0]];
    }
    assert !StartsWith("", "/");
    if a == "" {
      assert Join(a, "") == a;
    } else if EndsWith(a, "/") {
      assert Join(a, "") == a + "" == a;
    } else {
      assert Join(a, "") == a + "/" by {
        assert a + "/" + "" == a + "/";
      }
      EndsWithAppend(a, "/");
      assert Join(a + "/", b) == a + "/" + b;
    }
  }

  /** `p.rfind('/') + 1`: where the last component of `p` starts. */
  function LastSepEnd(p: string): (i: nat)
    ensures i <= |p|
    ensures i > 0 ==> p[i - 1] == '/'
    ensures forall k :: i <= k < |p| ==> p[k] != '/'
    decreases |p|
  {
    if p == [] then 0
    else if p[|p| - 1] == '/' then |p|
    else LastSepEnd(p[..|p| - 1])
  }

  /** `os.path.basename(p)`: everything after the last separator. */
  function Basename(p: string): string {
    p[LastSepEnd(p)..]
  }

  /** `os.path.dirname(p)`: everything before the last separator, without the
      trailing separators unless it consists of separators only. */
  function Dirname(p: string): string {
    var head := p[..LastSepEnd(p)];
    var trimmed := RStrip(head, '/');
    if trimmed != "" then trimmed else head
  }

  /** The dirname is a prefix of the path, followed only by separators up to the basename. */
  lemma DirnamePrefix(p: string)
    ensures |Dirname(p)| <= LastSepEnd(p) && p[..|Dirname(p)|] == Dirname(p)
    ensures forall k :: |Dirname(p)| <= k < LastSepEnd(p) ==> p[k] == '/'
  {
    var i := LastSepEnd(p);
    var head := p[..i];
    var d := Dirname(p);
    if RStrip(head, '/') != "" {
      assert d == head[..|d|];
      forall k | |d| <= k < i ensures p[k] == '/' {
        assert p[k] == head[k];
      }
    }
  }

  /** The basename holds no separator. */
  lemma BasenameHasNoSeparator(p: string)
    ensures '/' !in Basename(p)
  {
    var i := LastSepEnd(p);
    assert forall k :: 0 <= k < |Basename(p)| ==> Basename(p)[k] == p[i + k];
  }

  /** A path is its dirname, a run of separators, then its basename, which holds no separator. */
  lemma DirnameBasenameSplit(p: string)
    ensures |Dirname(p)| <= LastSepEnd(p) && p[..|Dirname(p)|] == Dirname(p)
    ensures forall k :: |Dirname(p)| <= k < LastSepEnd(p) ==> p[k] == '/'
    ensures '/' !in Basename(p)
    ensures p == Dirname(p) + p[|Dirname(p)|..LastSepEnd(p)] + Basename(p)
  {
    DirnamePrefix(p);
    BasenameHasNoSeparator(p);
    var d := |Dirname(p)|;
    var i := LastSepEnd(p);
    assert p[..i] == p[..d] + p[d..i];
    assert p == p[..i] + p[i..];
  }

  /** A Markdown output tree: the directories under which pages are written
      (`output_dir`, then `doc_name` where the variant has one) and the name used
      for an empty URL path or an empty basename. */
  datatype Layout = Layout(dirs: seq<string>, defaultName: string)

  predicate ValidDefault(layout: Layout) {
    layout.defaultName != "" && '/' !in layout.defaultName
  }

  /** The URL path without its leading separators, or the default name if nothing is left. */
  function SubPath(layout: Layout, urlPath: string): string {
    var s := LStrip(urlPath, '/');
    if s == "" then layout.defaultName else s
  }

  /** The file name (before `.md`): the basename of the sub-path, or the default name. */
  function FileStem(layout: Layout, urlPath: string): string {
    var b := Basename(SubPath(layout, urlPath));
    if b == "" then layout.defaultName else b
  }

  /** `build_local_filepath`: the directories, the sub-path's dirname, then the stem plus `.md`. */
  function LocalFilePath(layout: Layout, urlPath: string): string {
    Join(JoinAll(layout.dirs + [Dirname(SubPath(layout, urlPath))]), FileStem(layout, urlPath) + ".md")
  }

  /** The derivation of a layout as a function of the URL path. */
  function PathFor(layout: Layout): string -> string {
    urlPath => LocalFilePath(layout, urlPath)
  }

  /** `os.path.join(*dirs, "index.md")`: where the index document goes. */
  function IndexPath(layout: Layout): string {
    JoinAll(layout.dirs + ["index" + ".md"])
  }

  /** The derived file always ends in its stem plus `.md`; the stem names one file
      (non-empty, no separator) and is the URL's last path component unless that is empty. */
  lemma LocalFilePathShape(layout: Layout, urlPath: string)
    requires ValidDefault(layout)
    ensures FileStem(layout, urlPath) != "" && '/' !in FileStem(layout, urlPath)
    ensures EndsWith(LocalFilePath(layout, urlPath), FileStem(layout, urlPath) + ".md")
    ensures EndsWith(LocalFilePath(layout, urlPath), ".md")
    ensures Basename(SubPath(layout, urlPath)) != "" ==>
      FileStem(layout, urlPath) == Basename(SubPath(layout, urlPath))
  {
    var sub := SubPath(layout, urlPath);
    DirnameBasenameSplit(sub);
    var stem := FileStem(layout, urlPath);
    var name := stem + ".md";
    assert name[0] == stem[0];
    JoinRelative(JoinAll(layout.dirs + [Dirname(sub)]), name);
    EndsWithAppend(stem, ".md");
    EndsWithTransitive(LocalFilePath(layout, urlPath), name, ".md");
  }

  /** An empty URL path (or one made of separators only) gives the default name directly
      under the directories. */
  lemma EmptyPathGivesDefault(layout: Layout, urlPath: string)
    requires ValidDefault(layout)
    requires forall k :: 0 <= k < |urlPath| ==> urlPath[k] == '/'
    ensures FileStem(layout, urlPath) == layout.defaultName
    ensures LocalFilePath(layout, urlPath) == Join(JoinAll(layout.dirs + [""]), layout.defaultName + ".md")
  {
    assert LStrip(urlPath, '/') == "";
    var d := layout.defaultName;
    assert LastSepEnd(d) == 0;
    assert Basename(d) == d;
    assert Dirname(d) == "";
  }

  /** A URL path ending in a separator gives the default name as the file stem. */
  lemma TrailingSlashGivesDefault(layout: Layout, urlPath: string)
    requires ValidDefault(layout)
    requires urlPath != [] && urlPath[|urlPath| - 1] == '/'
    ensures FileStem(layout, urlPath) == layout.defaultName
  {
    var s := LStrip(urlPath, '/');
    if s == "" {
      assert LastSepEnd(layout.defaultName) == 0;
    } else {
      assert s[|s| - 1] == urlPath[|urlPath| - 1];
      assert LastSepEnd(s) == |s|;
    }
  }

  /** The last component starts at the one split point that follows a separator (or is
      the start) and has no separator after it. */
  lemma LastSepEndUnique(p: string, i: nat)
    requires i <= |p| && (i == 0 || p[i - 1] == '/')
    requires forall k :: i <= k < |p| ==> p[k] != '/'
    ensures LastSepEnd(p) == i
  {
  }

  /** Leading separators do not change the last component. */
  lemma BasenameOfStripped(p: string)
    ensures Basename(LStrip(p, '/')) == Basename(p)
  {
    var off := |p| - |LStrip(p, '/')|;
    assert off > 0 ==> p[off - 1] == '/';
    BasenameOfSuffix(p, off);
  }

  /** Dropping a prefix that ends in a separator does not change the last component. */
  lemma BasenameOfSuffix(p: string, off: nat)
    requires off <= |p| && (off == 0 || p[off - 1] == '/')
    ensures Basename(p[off..]) == Basename(p)
  {
    var s := p[off..];
    var j := LastSepEnd(s);
    assert j > 0 ==> p[off + j - 1] == s[j - 1];
    forall k | off + j <= k < |p| ensures p[k] != '/' {
      assert p[k] == s[k - off];
    }
    LastSepEndUnique(p, off + j);
    forall k | 0 <= k < |s| - j ensures s[j..][k] == p[off + j..][k] {
      assert s[j + k] == p[off + j + k];
    }
  }

  /** A URL path that does not end in a separator names its own file, whatever the
      default name: the stem is the path's last component, which is not empty. */
  lemma StemOfFilePath(layout: Layout, urlPath: string)
    requires urlPath != [] && urlPath[|urlPath| - 1] != '/'
    ensures Basename(urlPath) != ""
    ensures FileStem(layout, urlPath) == Basename(urlPath)
  {
    assert LStrip(urlPath, '/') != "";
    BasenameOfStripped(urlPath);
  }

  /** A path without separators is its own last component and has no directory. */
  lemma NoSeparatorParts(s: string)
    requires '/' !in s
    ensures Basename(s) == s && Dirname(s) == ""
  {
    LastSepEndUnique(s, 0);
    assert s[0..] == s;
  }

  /** Stripping leading separators from a path that does not end in one leaves its
      trailing separators as they were: none. */
  lemma StripOfNoTrailing(urlPath: string)
    requires urlPath != [] && urlPath[|urlPath| - 1] != '/'
    ensures Strip(urlPath, '/') == LStrip(urlPath, '/')
  {
    var s := LStrip(urlPath, '/');
    assert s != "";
    assert s[|s| - 1] == urlPath[|urlPath| - 1];
  }

  /** A URL path of one component, not followed by a separator, is that component:
      it has no directory and is its own stem. */
  lemma SingleComponentPath(layout: Layout, urlPath: string)
    requires Strip(urlPath, '/') != "" && '/' !in Strip(urlPath, '/')
    requires urlPath[|urlPath| - 1] != '/'
    ensures SubPath(layout, urlPath) == Strip(urlPath, '/')
    ensures Dirname(SubPath(layout, urlPath)) == ""
    ensures FileStem(layout, urlPath) == Strip(urlPath, '/')
  {
    StripOfNoTrailing(urlPath);
    NoSeparatorParts(Strip(urlPath, '/'));
  }

  /** What `build_local_filepath` promises for any layout: a `.md` file named after the
      URL's last path component, or after the default name when the path ends in a
      separator, the default name lying directly under the directories for the site root. */
  lemma DerivedFile(layout: Layout, urlPath: string)
    requires ValidDefault(layout)
    ensures EndsWith(LocalFilePath(layout, urlPath), ".md")
    ensures urlPath != [] && urlPath[|urlPath| - 1] != '/' ==>
      EndsWith(LocalFilePath(layout, urlPath), Basename(urlPath) + ".md")
    ensures urlPath != [] && urlPath[|urlPath| - 1] == '/' ==>
      EndsWith(LocalFilePath(layout, urlPath), layout.defaultName + ".md")
    ensures (forall k :: 0 <= k < |urlPath| ==> urlPath[k] == '/') ==>
      LocalFilePath(layout, urlPath) == Join(JoinAll(layout.dirs + [""]), layout.defaultName + ".md")
  {
    LocalFilePathShape(layout, urlPath);
    if urlPath != [] && urlPath[|urlPath| - 1] != '/' {
      StemOfFilePath(layout, urlPath);
    }
    if urlPath != [] && urlPath[|urlPath| - 1] == '/' {
      TrailingSlashGivesDefault(layout, urlPath);
    }
    if forall k :: 0 <= k < |urlPath| ==> urlPath[k] == '/' {
      EmptyPathGivesDefault(layout, urlPath);
    }
  }

  /** With the default name `index`, the page for an empty URL path is written to the
      same file as the index document. */
  lemma HomePageIsIndexPath(layout: Layout, urlPath: string)
    requires layout.defaultName == "index" && |layout.dirs| >= 1
    requires forall k :: 0 <= k < |urlPath| ==> urlPath[k] == '/'
    ensures LocalFilePath(layout, urlPath) == IndexPath(layout)
  {
    DefaultUnderDirs(layout, urlPath);
  }

  /** The page for an empty URL path is the default name plus `.md` joined to the
      directories. */
  lemma DefaultUnderDirs(layout: Layout, urlPath: string)
    requires ValidDefault(layout) && |layout.dirs| >= 1
    requires forall k :: 0 <= k < |urlPath| ==> urlPath[k] == '/'
    ensures LocalFilePath(layout, urlPath) == JoinAll(layout.dirs + [layout.defaultName + ".md"])
  {
    EmptyPathGivesDefault(layout, urlPath);
    var ds := layout.dirs;
    var name := layout.defaultName + ".md";
    assert name[0] == layout.defaultName[0];
    JoinAllSnoc(ds, "");
    JoinAllSnoc(ds, name);
    JoinEmptyThen(JoinAll(ds), name);
  }
}
