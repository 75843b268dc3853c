/** `multi_doc_extract.py`: the earliest crawler, writing one file per page directly under
    the output directory, with the depth limit and the directory taken from the arguments
    or else from the environment; it keeps no statistics and writes no index. */
module MultiDocExtract {
  import opened Text
  import opened Paths
  import opened Urls
  import opened Results
  import opened Stats
  import opened Frontier
  import opened Output
  import opened Crawler

  /** The depth limit when neither the argument nor `MAX_DEPTH` is given. */
  const DEFAULT_MAX_DEPTH: int := 2
  /** The output directory when neither the argument nor `OUTPUT_DIR` is given. */
  const DEFAULT_OUTPUT_DIR: string := "docs_outputs"

  /** `os.getenv(name, default)` for a variable that is set (`Some`) or not (`None`). */
  function EnvOr<T>(value: Option<T>, default: T): (r: T)
    ensures value.Some? ==> r == value.value
    ensures value.None? ==> r == default
  {
    match value
    case Some(v) => v
    case None => default
  }

  /** The output tree `output_dir`; `index.html` names the page of an empty path or of a
      path ending in a separator. */
  function MultiLayout(outputDir: string): Layout {
    Layout([outputDir], "index.html")
  }

  /** `build_local_filepath(output_dir, url)`, without the directory creation. */
  function BuildLocalFilepath(outputDir: string, u: Url): string {
    LocalFilePath(MultiLayout(outputDir), u.path)
  }

  /** A page's file ends in `.md` after the URL's last path component; a path that is
      empty or ends in a separator gives `index.html.md`, directly under `output_dir` for
      the site root. */
  lemma BuildLocalFilepathFacts(outputDir: string, u: Url)
    ensures EndsWith(BuildLocalFilepath(outputDir, u), ".md")
    ensures u.path != [] && u.path[|u.path| - 1] != '/' ==>
      EndsWith(BuildLocalFilepath(outputDir, u), Basename(u.path) + ".md")
    ensures u.path != [] && u.path[|u.path| - 1] == '/' ==>
      EndsWith(BuildLocalFilepath(outputDir, u), "index.html" + ".md")
    ensures (forall k :: 0 <= k < |u.path| ==> u.path[k] == '/') ==>
      BuildLocalFilepath(outputDir, u) == Join(outputDir, "index.html" + ".md")
  {
    var layout := MultiLayout(outputDir);
    assert ValidDefault(layout);
    DerivedFile(layout, u.path);
    if forall k :: 0 <= k < |u.path| ==> u.path[k] == '/' {
      JoinAllSnoc([outputDir], "");
      JoinEmptyThen(outputDir, "index.html" + ".md");
    }
  }


  /** The arguments of `crawl_all_docs`, each falling back to the environment and then
      to its default when it is `None`. */
  function MultiConfig(startUrl: Url, maxDepth: Option<int>, outputDir: Option<string>, useLlm: bool,
                       maxDepthVar: Option<int>, outputDirVar: Option<string>): Config {
    var depth := if maxDepth.Some? then maxDepth.value
                 else EnvOr(maxDepthVar, DEFAULT_MAX_DEPTH);
    var dir := if outputDir.Some? then outputDir.value
               else EnvOr(outputDirVar, DEFAULT_OUTPUT_DIR);
    Config(startUrl, depth, if useLlm then Llm else Heuristic, true, NoFinalFile, MultiLayout(dir))
  }

  /** `crawl_all_docs(start_url, max_depth, output_dir, use_llm)` with `MAX_DEPTH` and
      `OUTPUT_DIR` as given by the environment, on the site `site`, with `join` for
      `urljoin` and `fs0` for the files already on disk. Every page is handled once, from
      the start URL down to the depth limit within its domain; the files are exactly those
      written for the successful pages. */
  method CrawlAllDocs(startUrl: Url, maxDepth: Option<int>, outputDir: Option<string>, useLlm: bool,
                      maxDepthVar: Option<int>, outputDirVar: Option<string>,
                      site: map<Url, Outcome>, join: (Url, string) -> Url, fs0: map<string, string>)
    returns (files: map<string, string>, visited: set<Url>, crashed: bool,
             ghost processed: seq<Entry>, ghost enqueued: seq<Entry>, ghost batches: seq<seq<Entry>>,
             ghost segments: seq<seq<Entry>>,
             cfg: Config)
    ensures cfg == MultiConfig(startUrl, maxDepth, outputDir, useLlm, maxDepthVar, outputDirVar)
    ensures maxDepth.Some? ==> cfg.maxDepth == maxDepth.value
    ensures maxDepth.None? && maxDepthVar.None? ==> cfg.maxDepth == DEFAULT_MAX_DEPTH
    ensures NoDupUrls(processed) && UrlSet(processed) <= visited
    ensures !crashed ==> UrlSet(processed) == visited
    ensures forall k :: 0 <= k < |processed| ==>
      processed[k] == Entry(startUrl, 0)
      || (1 <= processed[k].depth <= cfg.maxDepth && IsSameDomain(startUrl.netloc, processed[k].url))
    ensures forall k :: 0 <= k < |enqueued| ==>
      1 <= enqueued[k].depth <= cfg.maxDepth && IsSameDomain(startUrl.netloc, enqueued[k].url)
    ensures ProcessedInv(processed, batches, crashed)
    ensures Provenance(cfg, site, join, batches, processed, enqueued, crashed)
    ensures Schedule(cfg, site, join, segments, batches)
    ensures files == PageFiles(fs0, PathFor(cfg.layout), cfg.filter, site, processed)
  {
    cfg := MultiConfig(startUrl, maxDepth, outputDir, useLlm, maxDepthVar, outputDirVar);
    ghost var consumed, pending, tail, order;
    var stats;
    files, visited, crashed, stats, consumed, batches, processed, enqueued, pending, order, segments, tail :=
      Run(cfg, site, join, fs0);
  }
}
