/** `docs-to-markdown.py`: the earlier crawler that always writes one file per page under
    `OUTPUT_DIR/doc_name`, names the page of an empty path `index.html.md`, and writes no
    index. The depth limit and the output directory come from the environment. */
module DocsToMarkdownScript {
  import opened Text
  import opened Paths
  import opened Urls
  import opened Results
  import opened Stats
  import opened Frontier
  import opened Output
  import opened Crawler

  /** The depth limit when `MAX_DEPTH` is not set. */
  const DEFAULT_MAX_DEPTH: int := 2
  /** The output directory when `OUTPUT_DIR` is not set. */
  const DEFAULT_OUTPUT_DIR: string := "docs_outputs"

  /** `os.getenv(name, default)` for a variable that is set (`Some`) or not (`None`). */
  function EnvOr<T>(value: Option<T>, default: T): (r: T)
    ensures value.Some? ==> r == value.value
    ensures value.None? ==> r == default
  {
    match value
    case Some(v) => v
    case None => default
  }

  /** The output tree `output_dir/doc_name`; `index.html` names the page of an empty path
      or of a path ending in a separator. */
  function ScriptLayout(outputDir: string, docName: string): Layout {
    Layout([outputDir, docName], "index.html")
  }

  /** `build_local_filepath(output_dir, doc_name, url)`, without the directory creation. */
  function BuildLocalFilepath(outputDir: string, docName: string, u: Url): string {
    LocalFilePath(ScriptLayout(outputDir, docName), u.path)
  }

  /** A page's file ends in `.md` after the URL's last path component, so `x.html` is
      written to `x.html.md`; a path that is empty or ends in a separator gives
      `index.html.md`, directly under `output_dir/doc_name` for the site root. */
  lemma BuildLocalFilepathFacts(outputDir: string, docName: string, u: Url)
    ensures EndsWith(BuildLocalFilepath(outputDir, docName, u), ".md")
    ensures u.path != [] && u.path[|u.path| - 1] != '/' ==>
      EndsWith(BuildLocalFilepath(outputDir, docName, u), Basename(u.path) + ".md")
    ensures u.path != [] && u.path[|u.path| - 1] == '/' ==>
      EndsWith(BuildLocalFilepath(outputDir, docName, u), "index.html" + ".md")
    ensures (forall k :: 0 <= k < |u.path| ==> u.path[k] == '/') ==>
      BuildLocalFilepath(outputDir, docName, u) == Join(Join(outputDir, docName), "index.html" + ".md")
  {
    var layout := ScriptLayout(outputDir, docName);
    assert ValidDefault(layout);
    DerivedFile(layout, u.path);
    if forall k :: 0 <= k < |u.path| ==> u.path[k] == '/' {
      JoinAllSnoc([outputDir], docName);
      JoinAllSnoc([outputDir, docName], "");
      JoinEmptyThen(Join(outputDir, docName), "index.html" + ".md");
    }
  }


  /** The arguments of `crawl_all_docs` and the environment as a crawl configuration:
      every page to its own file, nothing written at the end. */
  function ScriptConfig(startUrl: Url, docName: string, useLlm: bool,
                        maxDepthVar: Option<int>, outputDirVar: Option<string>): Config {
    Config(startUrl, EnvOr(maxDepthVar, DEFAULT_MAX_DEPTH), if useLlm then Llm else Heuristic,
           true, NoFinalFile, ScriptLayout(EnvOr(outputDirVar, DEFAULT_OUTPUT_DIR), docName))
  }

  /** `crawl_all_docs(start_url, doc_name, use_llm)` with `MAX_DEPTH` and `OUTPUT_DIR` as
      given by the environment, on the site `site`, with `join` for `urljoin` and `fs0`
      for the files already on disk. Every page is handled once, from the start URL down
      to the depth limit within its domain, and the files are exactly those written for
      the successful pages, also when a missing payload ended the run. */
  method CrawlAllDocs(startUrl: Url, docName: string, useLlm: bool,
                      maxDepthVar: Option<int>, outputDirVar: Option<string>,
                      site: map<Url, Outcome>, join: (Url, string) -> Url, fs0: map<string, string>)
    returns (files: map<string, string>, visited: set<Url>, crashed: bool, stats: CrawlStats,
             ghost processed: seq<Entry>, ghost enqueued: seq<Entry>, ghost batches: seq<seq<Entry>>,
             ghost segments: seq<seq<Entry>>)
    ensures NoDupUrls(processed) && UrlSet(processed) <= visited
    ensures !crashed ==> UrlSet(processed) == visited
    ensures forall k :: 0 <= k < |processed| ==>
      processed[k] == Entry(startUrl, 0)
      || (1 <= processed[k].depth <= EnvOr(maxDepthVar, DEFAULT_MAX_DEPTH)
          && IsSameDomain(startUrl.netloc, processed[k].url))
    ensures forall k :: 0 <= k < |enqueued| ==>
      1 <= enqueued[k].depth <= EnvOr(maxDepthVar, DEFAULT_MAX_DEPTH)
      && IsSameDomain(startUrl.netloc, enqueued[k].url)
    ensures ProcessedInv(processed, batches, crashed)
    ensures Provenance(ScriptConfig(startUrl, docName, useLlm, maxDepthVar, outputDirVar), site, join, batches, processed, enqueued, crashed)
    ensures Schedule(ScriptConfig(startUrl, docName, useLlm, maxDepthVar, outputDirVar), site, join, segments, batches)
    ensures stats.totalUrls == 1 + |enqueued|
    ensures stats.processedUrls == |processed| && stats.successUrls == |Successful(site, processed)|
    ensures stats.Balanced()
    ensures files == PageFiles(fs0, PathFor(ScriptLayout(EnvOr(outputDirVar, DEFAULT_OUTPUT_DIR), docName)),
                               if useLlm then Llm else Heuristic, site, processed)
  {
    var cfg := ScriptConfig(startUrl, docName, useLlm, maxDepthVar, outputDirVar);
    ghost var consumed, pending, tail, order;
    files, visited, crashed, stats, consumed, batches, processed, enqueued, pending, order, segments, tail :=
      Run(cfg, site, join, fs0);
  }
}
