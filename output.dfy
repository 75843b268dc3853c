/** What a crawl leaves behind: one Markdown file per successful page, the sections of
    the combined `index.md`, and the index document that lists the visited URLs. */
module Output {
  import opened Text
  import opened Paths
  import opened Urls
  import opened Results
  import opened Frontier

  /** A string built piece by piece with `"".join(...)`. */
  function Concat(parts: seq<string>): string
    decreases |parts|
  {
    if parts == [] then "" else Concat(parts[..|parts| - 1]) + parts[|parts| - 1]
  }

  lemma ConcatSnoc(parts: seq<string>, last: string)
    ensures Concat(parts + [last]) == Concat(parts) + last
  {
    assert (parts + [last])[..|parts|] == parts;
  }

  /** The path of a page for its title and its index link: the URL path without
      surrounding separators, or `index` when nothing is left. */
  function HeadingPath(u: Url): string {
    var p := Strip(u.path, '/');
    if p == "" then "index" else p
  }

  /** The title of a page: separators become ` > `, dashes become spaces, `.html` is
      dropped, and the result is title-cased. */
  function Heading(u: Url): string {
    Title(ReplaceAll(ReplaceAll(ReplaceAll(HeadingPath(u), "/", " > "), "-", " "), ".html", ""))
  }

  /** A title never holds a path separator or a dash: both were replaced before
      title-casing, and no replacement or title-casing brings one back. */
  lemma HeadingHasNoSeparators(u: Url)
    ensures '/' !in Heading(u) && '-' !in Heading(u)
  {
    var p := HeadingPath(u);
    var a := ReplaceAll(p, "/", " > ");
    var b := ReplaceAll(a, "-", " ");
    var c := ReplaceAll(b, ".html", "");
    ReplaceAllAvoids(p, "/", " > ", '/');
    ReplaceAllAvoids(a, "-", " ", '/');
    ReplaceAllAvoids(b, ".html", "", '/');
    ReplaceAllAvoids(a, "-", " ", '-');
    ReplaceAllAvoids(b, ".html", "", '-');
    TitleKeepsUncased(c, '/');
    TitleKeepsUncased(c, '-');
  }

  /** The text of one section: a level-one heading line, a blank line, the body and a
      horizontal rule. */
  function SectionText(title: string, body: string): string {
    "# " + title + "\n\n" + body + "\n\n---\n\n"
  }

  /** The section a page contributes to the combined file: its title, and its payload as
      `f"{md}"` shows it (the text `None` for a missing payload). */
  function SectionOf(u: Url, md: Option<string>): string {
    SectionText(Heading(u), Show(md))
  }

  /** One line of the index document: a Markdown list item linking `title` to `target`. */
  function LinkLine(title: string, target: string): string {
    "- [" + title + "](" + target + ")\n"
  }

  /** Where the index links a page to, relative to the directory of the index. */
  function IndexLinkTarget(u: Url): string {
    HeadingPath(u) + ".md"
  }

  /** The index line of one visited URL. */
  function IndexLine(u: Url): string {
    LinkLine(Heading(u), IndexLinkTarget(u))
  }

  /** The link lines of the visited URLs, in the order the set was iterated. */
  function IndexBody(order: seq<Url>): string
    decreases |order|
  {
    if order == [] then "" else IndexBody(order[..|order| - 1]) + IndexLine(order[|order| - 1])
  }

  const IndexHeader: string := "# Documentation Index\n\n"

  /** The multiple-mode `index.md`: the header, then one link line per visited URL. */
  function IndexDocument(order: seq<Url>): string {
    IndexHeader + IndexBody(order)
  }

  /** No URL occurs twice in `order`. */
  predicate DistinctUrls(order: seq<Url>) {
    forall i, j :: 0 <= i < j < |order| ==> order[i] != order[j]
  }

  lemma DistinctSnoc(order: seq<Url>, u: Url)
    requires DistinctUrls(order) && u !in order
    ensures DistinctUrls(order + [u])
  {
  }

  /** `order` lists every URL of `s`, each exactly once. */
  predicate Enumerates(order: seq<Url>, s: set<Url>) {
    && (forall u :: u in order ==> u in s)
    && (forall u :: u in s ==> u in order)
    && DistinctUrls(order)
  }

  /** The multiple-mode index of `crawl_all_docs`: one line per visited URL, in the
      iteration order of the set, which is left open here, then the header and the lines
      as the file's content. */
  method BuildIndex(visited: set<Url>) returns (doc: string, order: seq<Url>)
    ensures Enumerates(order, visited)
    ensures doc == IndexDocument(order)
  {
    var lines: seq<string> := [];
    var left := visited;
    order := [];
    while left != {}
      invariant left <= visited
      invariant forall u :: u in order <==> u in visited - left
      invariant DistinctUrls(order)
      invariant Concat(lines) == IndexBody(order)
      decreases left
    {
      var u :| u in left;
      var line := IndexLine(u);
      EnumerationStep(order, visited, left, u);
      IndexLineStep(lines, order, u);
      lines := lines + [line];
      order := order + [u];
      left := left - {u};
    }
    doc := IndexHeader + Concat(lines);
  }

  /** Moving a URL that is left over to the end of `order` keeps `order` holding
      exactly the URLs no longer left. */
  lemma EnumerationStep(order: seq<Url>, visited: set<Url>, left: set<Url>, u: Url)
    requires left <= visited && u in left
    requires forall v :: v in order <==> v in visited - left
    ensures u !in order
    ensures left - {u} <= visited
    ensures forall v :: v in order + [u] <==> v in visited - (left - {u})
  {
  }

  /** Appending a new URL's line keeps the lines equal to the index body of the URLs so far. */
  lemma IndexLineStep(lines: seq<string>, order: seq<Url>, u: Url)
    requires Concat(lines) == IndexBody(order)
    requires DistinctUrls(order) && u !in order
    ensures Concat(lines + [IndexLine(u)]) == IndexBody(order + [u])
    ensures DistinctUrls(order + [u])
  {
    ConcatSnoc(lines, IndexLine(u));
    IndexBodySnoc(order, u);
    DistinctSnoc(order, u);
  }

  /** The index document starts with its header, whatever was visited. */
  lemma IndexDocumentHeader(order: seq<Url>)
    ensures StartsWith(IndexDocument(order), IndexHeader)
  {
    StartsWithAppend(IndexHeader, IndexBody(order));
  }

  lemma IndexBodySnoc(order: seq<Url>, u: Url)
    ensures IndexBody(order + [u]) == IndexBody(order) + IndexLine(u)
  {
    assert (order + [u])[..|order|] == order;
  }

  /** One more visited URL adds exactly its own line at the end of the index. */
  lemma IndexDocumentSnoc(order: seq<Url>, u: Url)
    ensures IndexDocument(order + [u]) == IndexDocument(order) + IndexLine(u)
  {
    var b := IndexBody(order);
    var l := IndexLine(u);
    assert (order + [u])[..|order|] == order;
    assert IndexBody(order + [u]) == b + l;
    AppendAssoc(IndexHeader, b, l);
  }

  lemma AppendAssoc(a: string, b: string, c: string)
    ensures a + (b + c) == (a + b) + c
  {
  }

  /** For a one-component URL path, the index link names the file the page was written
      to. */
  lemma IndexLinkFindsFlatPage(layout: Layout, u: Url)
    requires ValidDefault(layout) && |layout.dirs| >= 1
    requires Strip(u.path, '/') != "" && '/' !in Strip(u.path, '/')
    requires u.path[|u.path| - 1] != '/'
    ensures LocalFilePath(layout, u.path) == Join(JoinAll(layout.dirs), IndexLinkTarget(u))
  {
    var p := Strip(u.path, '/');
    SingleComponentPath(layout, u.path);
    assert IndexLinkTarget(u) == p + ".md";
    JoinAllSnoc(layout.dirs, "");
    assert (p + ".md")[0] == p[0];
    assert p[0] in p;
    JoinEmptyThen(JoinAll(layout.dirs), p + ".md");
  }

  /** For a URL path ending in a separator, the index links to `<path>.md`, while the page
      was written to the default name inside the directory `<path>`. */
  lemma IndexLinkMissesTrailingSlashPage(layout: Layout, u: Url, name: string)
    requires ValidDefault(layout)
    requires name != "" && '/' !in name
    requires u.path == "/" + name + "/"
    ensures IndexLinkTarget(u) == name + ".md"
    ensures FileStem(layout, u.path) == layout.defaultName
    ensures Dirname(SubPath(layout, u.path)) == name
  {
    TrailingSlashGivesDefault(layout, u.path);
    WrappedComponent(name);
    assert HeadingPath(u) == name;
  }

  /** A single component between separators strips to itself, and as a sub-path with
      its trailing separator it is a directory of that name. */
  lemma WrappedComponent(name: string)
    requires name != "" && '/' !in name
    ensures LStrip("/" + name + "/", '/') == name + "/"
    ensures Strip("/" + name + "/", '/') == name
    ensures Dirname(name + "/") == name
  {
    var path := "/" + name + "/";
    var s := name + "/";
    assert name[0] != '/' && name[|name| - 1] != '/' by {
      assert name[0] in name && name[|name| - 1] in name;
    }
    assert path[1..] == s;
    assert s[0] == name[0];
    assert LStrip(path, '/') == s;
    assert RStrip(s, '/') == name by {
      assert s[..|s| - 1] == name;
    }
    TrailingComponentDir(name);
  }

  /** A name followed by one separator has that name as its directory. */
  lemma TrailingComponentDir(name: string)
    requires name != "" && name[|name| - 1] != '/'
    ensures Dirname(name + "/") == name
  {
    var s := name + "/";
    assert LastSepEnd(s) == |s|;
    assert s[..|s|] == s;
    assert s[..|s| - 1] == name;
  }

  /** The successful entries of a list, in order. */
  function Successful(site: map<Url, Outcome>, es: seq<Entry>): seq<Entry>
    decreases |es|
  {
    if es == [] then []
    else
      var e := es[|es| - 1];
      Successful(site, es[..|es| - 1]) + (if Fetch(site, e.url).success then [e] else [])
  }

  lemma SuccessfulSnoc(site: map<Url, Outcome>, es: seq<Entry>, e: Entry)
    ensures Successful(site, es + [e]) ==
      Successful(site, es) + (if Fetch(site, e.url).success then [e] else [])
  {
    assert (es + [e])[..|es|] == es;
  }

  /** Exactly the entries whose fetch succeeded are kept, and no more of them than there
      were entries. */
  lemma {:induction false} SuccessfulMembers(site: map<Url, Outcome>, es: seq<Entry>)
    ensures |Successful(site, es)| <= |es|
    ensures forall e :: e in Successful(site, es) <==> e in es && Fetch(site, e.url).success
    decreases |es|
  {
    if es != [] {
      var p := es[..|es| - 1];
      SuccessfulMembers(site, p);
      assert es == p + [es[|es| - 1]];
    }
  }

  /** The payload of a successful page under the run's filter. */
  function PagePayload(filter: FilterMode, site: map<Url, Outcome>, e: Entry): Option<string> {
    SelectPayload(filter, Fetch(site, e.url))
  }

  /** The sections of a list of successful pages, one per page, in order. */
  function SectionList(filter: FilterMode, site: map<Url, Outcome>, ss: seq<Entry>): (r: seq<string>)
    ensures |r| == |ss|
    decreases |ss|
  {
    if ss == [] then []
    else
      var e := ss[|ss| - 1];
      SectionList(filter, site, ss[..|ss| - 1]) + [SectionOf(e.url, PagePayload(filter, site, e))]
  }

  /** The sections of the combined file: one per successful page, in processing order. */
  function Sections(filter: FilterMode, site: map<Url, Outcome>, es: seq<Entry>): seq<string> {
    SectionList(filter, site, Successful(site, es))
  }

  /** Processing one more page adds its section exactly when its fetch succeeded. */
  lemma SectionsSnoc(filter: FilterMode, site: map<Url, Outcome>, es: seq<Entry>, e: Entry)
    ensures Sections(filter, site, es + [e]) == Sections(filter, site, es)
      + (if Fetch(site, e.url).success then [SectionOf(e.url, PagePayload(filter, site, e))] else [])
  {
    SuccessfulSnoc(site, es, e);
    var ss := Successful(site, es);
    if Fetch(site, e.url).success {
      assert (ss + [e])[..|ss|] == ss;
    } else {
      assert ss + [] == ss;
    }
  }

  /** The k-th section is the k-th successful page's. */
  lemma {:induction false} SectionListAt(filter: FilterMode, site: map<Url, Outcome>, ss: seq<Entry>, k: nat)
    requires k < |ss|
    ensures SectionList(filter, site, ss)[k] == SectionOf(ss[k].url, PagePayload(filter, site, ss[k]))
    decreases |ss|
  {
    if k < |ss| - 1 {
      SectionListAt(filter, site, ss[..|ss| - 1], k);
    }
  }

  /** The file system after the pages of `es` were written one after the other: a
      successful page's payload goes to the path `pathOf` derives from its URL path (the
      empty file when the payload is missing), overwriting whatever was there. */
  function PageFiles(fs: map<string, string>, pathOf: string -> string, filter: FilterMode,
                     site: map<Url, Outcome>, es: seq<Entry>): map<string, string>
    decreases |es|
  {
    if es == [] then fs
    else
      var prev := PageFiles(fs, pathOf, filter, site, es[..|es| - 1]);
      var e := es[|es| - 1];
      if Fetch(site, e.url).success
      then prev[pathOf(e.url.path) := Written(PagePayload(filter, site, e))]
      else prev
  }

  lemma PageFilesSnoc(fs: map<string, string>, pathOf: string -> string, filter: FilterMode,
                      site: map<Url, Outcome>, es: seq<Entry>, e: Entry)
    ensures PageFiles(fs, pathOf, filter, site, es + [e]) ==
      if Fetch(site, e.url).success
      then PageFiles(fs, pathOf, filter, site, es)[pathOf(e.url.path) := Written(PagePayload(filter, site, e))]
      else PageFiles(fs, pathOf, filter, site, es)
  {
    assert (es + [e])[..|es|] == es;
  }

  /** The paths the successful pages of `es` are written to. */
  function WrittenPaths(pathOf: string -> string, site: map<Url, Outcome>, es: seq<Entry>): set<string>
    decreases |es|
  {
    if es == [] then {}
    else
      var e := es[|es| - 1];
      WrittenPaths(pathOf, site, es[..|es| - 1])
        + (if Fetch(site, e.url).success then {pathOf(e.url.path)} else {})
  }

  /** Writing pages only adds files: afterwards there is a file at every path there was
      one before and at every path a successful page derives, and nowhere else. */
  lemma {:induction false} PageFilesKeys(fs: map<string, string>, pathOf: string -> string, filter: FilterMode,
                                         site: map<Url, Outcome>, es: seq<Entry>)
    ensures PageFiles(fs, pathOf, filter, site, es).Keys == fs.Keys + WrittenPaths(pathOf, site, es)
    decreases |es|
  {
    if es != [] {
      PageFilesKeys(fs, pathOf, filter, site, es[..|es| - 1]);
    }
  }

  /** A successful page's path is among the written paths. */
  lemma {:induction false} WrittenPathsHas(pathOf: string -> string, site: map<Url, Outcome>, es: seq<Entry>, i: nat)
    requires i < |es| && Fetch(site, es[i].url).success
    ensures pathOf(es[i].url.path) in WrittenPaths(pathOf, site, es)
    decreases |es|
  {
    if i < |es| - 1 {
      var p := es[..|es| - 1];
      assert p[i] == es[i];
      WrittenPathsHas(pathOf, site, p, i);
    }
  }

  /** The content of a page's file is the payload of the last successful page that derives
      the same path: two URLs that differ only outside the path (host, query, fragment),
      or whose paths agree after the derivation, overwrite each other. */
  lemma {:induction false} PageFilesLastWriteWins(fs: map<string, string>, pathOf: string -> string,
                                                  filter: FilterMode, site: map<Url, Outcome>,
                                                  es: seq<Entry>, i: nat)
    requires i < |es| && Fetch(site, es[i].url).success
    requires forall j :: i < j < |es| && Fetch(site, es[j].url).success ==>
      pathOf(es[j].url.path) != pathOf(es[i].url.path)
    ensures pathOf(es[i].url.path) in PageFiles(fs, pathOf, filter, site, es)
    ensures PageFiles(fs, pathOf, filter, site, es)[pathOf(es[i].url.path)]
         == Written(PagePayload(filter, site, es[i]))
    decreases |es|
  {
    var p := es[..|es| - 1];
    if i < |es| - 1 {
      assert forall j :: i < j < |p| ==> p[j] == es[j];
      PageFilesLastWriteWins(fs, pathOf, filter, site, p, i);
    }
  }
}
