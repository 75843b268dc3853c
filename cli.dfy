/** `docs_to_markdown.py`: the command-line crawler under `output_dir/doc_name`, with an
    output mode that either collects one section per page into `index.md` ("single") or
    writes one file per page plus an index of the visited URLs ("multiple"). */
module DocsToMarkdownCli {
  import opened Text
  import opened Paths
  import opened Urls
  import opened Results
  import opened Stats
  import opened Frontier
  import opened Output
  import opened Crawler

  /** The output tree `output_dir/doc_name`; `index` names the page of an empty path or
      of a path ending in a separator. */
  function CliLayout(outputDir: string, docName: string): Layout {
    Layout([outputDir, docName], "index")
  }

  /** `build_local_filepath(output_dir, doc_name, url)`, without the directory creation. */
  function BuildLocalFilepath(outputDir: string, docName: string, u: Url): string {
    LocalFilePath(CliLayout(outputDir, docName), u.path)
  }

  /** `os.path.join(output_dir, doc_name, "index.md")`. */
  function IndexFile(outputDir: string, docName: string): string {
    IndexPath(CliLayout(outputDir, docName))
  }

  /** The filter of `use_llm`. */
  function FilterOf(useLlm: bool): FilterMode {
    if useLlm then Llm else Heuristic
  }

  /** The arguments of `crawl_all_docs` as a crawl configuration: only "multiple" writes
      a file per page, only "single" writes the combined file, and any other mode
      collects sections but writes the index of visited URLs. */
  function CliConfig(startUrl: Url, docName: string, useLlm: bool, outputMode: string,
                     maxDepth: int, outputDir: string): Config {
    Config(startUrl, maxDepth, FilterOf(useLlm), outputMode == "multiple",
           if outputMode == "single" then CombinedFile else IndexOfVisited,
           CliLayout(outputDir, docName))
  }

  /** A page's file ends in `.md` after the URL's last path component; a path ending in
      a separator gives `index.md` inside its directory; the site root is written to the
      same file as the index. */
  lemma BuildLocalFilepathFacts(outputDir: string, docName: string, u: Url)
    ensures EndsWith(BuildLocalFilepath(outputDir, docName, u), ".md")
    ensures u.path != [] && u.path[|u.path| - 1] != '/' ==>
      EndsWith(BuildLocalFilepath(outputDir, docName, u), Basename(u.path) + ".md")
    ensures u.path != [] && u.path[|u.path| - 1] == '/' ==>
      EndsWith(BuildLocalFilepath(outputDir, docName, u), "index" + ".md")
    ensures (forall k :: 0 <= k < |u.path| ==> u.path[k] == '/') ==>
      BuildLocalFilepath(outputDir, docName, u) == IndexFile(outputDir, docName)
  {
    var layout := CliLayout(outputDir, docName);
    assert ValidDefault(layout);
    DerivedFile(layout, u.path);
    assert |layout.dirs| >= 1;
    if forall k :: 0 <= k < |u.path| ==> u.path[k] == '/' {
      HomePageIsIndexPath(layout, u.path);
    }
  }

  /** `crawl_all_docs(start_url, doc_name, use_llm, output_mode, max_depth, output_dir)`
      on the site `site`, with `join` for `urljoin` and `fs0` for the files already on disk.
      Every page is handled once, from the start URL down to `max_depth` within its
      domain; the single mode never crashes and leaves only the combined `index.md`; the
      multiple mode writes every successful page and then the index of the visited URLs,
      which replaces the page written for the site root. */
  method CrawlAllDocs(startUrl: Url, docName: string, useLlm: bool, outputMode: string,
                      maxDepth: int, outputDir: string,
                      site: map<Url, Outcome>, join: (Url, string) -> Url, fs0: map<string, string>)
    returns (files: map<string, string>, visited: set<Url>, crashed: bool, stats: CrawlStats,
             ghost processed: seq<Entry>, ghost enqueued: seq<Entry>, ghost batches: seq<seq<Entry>>,
             ghost segments: seq<seq<Entry>>, order: seq<Url>)
    ensures NoDupUrls(processed) && UrlSet(processed) <= visited
    ensures !crashed ==> UrlSet(processed) == visited
    ensures forall k :: 0 <= k < |processed| ==>
      processed[k] == Entry(startUrl, 0)
      || (1 <= processed[k].depth <= maxDepth && IsSameDomain(startUrl.netloc, processed[k].url))
    ensures forall k :: 0 <= k < |enqueued| ==>
      1 <= enqueued[k].depth <= maxDepth && IsSameDomain(startUrl.netloc, enqueued[k].url)
    ensures maxDepth <= 0 ==> |processed| <= 1
    ensures ProcessedInv(processed, batches, crashed)
    ensures Provenance(CliConfig(startUrl, docName, useLlm, outputMode, maxDepth, outputDir), site, join, batches, processed, enqueued, crashed)
    ensures Schedule(CliConfig(startUrl, docName, useLlm, outputMode, maxDepth, outputDir), site, join, segments, batches)
    ensures stats.totalUrls == 1 + |enqueued|
    ensures stats.processedUrls == |processed| && stats.successUrls == |Successful(site, processed)|
    ensures stats.Balanced()
    ensures outputMode != "multiple" ==> !crashed
    ensures outputMode == "single" ==>
      files == fs0[IndexFile(outputDir, docName) := Concat(Sections(FilterOf(useLlm), site, processed))]
    ensures outputMode == "multiple" ==>
      var pages := PageFiles(fs0, PathFor(CliLayout(outputDir, docName)), FilterOf(useLlm), site, processed);
      if crashed then files == pages
      else files == pages[IndexFile(outputDir, docName) := IndexDocument(order)] && Enumerates(order, visited)
    ensures outputMode != "single" && outputMode != "multiple" ==>
      files == fs0[IndexFile(outputDir, docName) := IndexDocument(order)] && Enumerates(order, visited)
  {
    var cfg := CliConfig(startUrl, docName, useLlm, outputMode, maxDepth, outputDir);
    ghost var consumed, pending, tail;
    files, visited, crashed, stats, consumed, batches, processed, enqueued, pending, order, segments, tail :=
      Run(cfg, site, join, fs0);
    if maxDepth <= 0 {
      ShallowCrawl(cfg, site, join, processed);
    }
  }
}
