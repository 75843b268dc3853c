# docs-to-markdown: the crawl engine

This project models the breadth-first crawler shared by the three scripts of
docs-to-markdown:

- `docs_to_markdown.py`, the command-line tool;
- `docs-to-markdown.py`, an earlier script configured from the environment;
- `multi_doc_extract.py`, the earliest variant.

All three start from one URL and keep a FIFO list `to_crawl` of `(url, depth)` entries and a
`visited` set. Each round pops at most five URLs that are not yet visited, marks them
visited, and fetches them as one batch. The results are then handled in batch order:

- The crawler counts each result.
- It picks the page's Markdown (`fit_markdown or markdown` with the LLM filter,
  `markdown or ""` otherwise).
- It either writes that Markdown to a file derived from the URL path
  (`build_local_filepath`) or collects it as a titled section.
- If the page is below the depth limit, it queues every link that `is_same_domain`
  accepts and that is not yet visited, one level deeper.

Once the list is exhausted, `docs_to_markdown.py` writes `index.md`. In the "single" mode it
holds the collected sections. In any other mode it lists every visited URL.

The model is built as follows:

- **Shared modules.** The shared engine is written once:
  - `Text`: `lstrip`, `strip`, `replace` and ASCII `title`;
  - `Paths`: POSIX `os.path.join`, `dirname`, `basename` and the file derivation;
  - `Urls`: the parsed URL and `is_same_domain`;
  - `Results`: crawl outcomes and payload selection;
  - `Stats`: the `CrawlStats` class;
  - `Frontier`: batch formation and link discovery;
  - `Output`: files, sections and the index document;
  - `Crawler`: the loop of `crawl_all_docs`.
- **Per-script modules.** One module per script instantiates the engine with that script's
  layout, defaults and output options: `DocsToMarkdownCli`, `DocsToMarkdownScript` and
  `MultiDocExtract`. The three copies of `is_same_domain` are identical, and so are the
  crawl loops apart from those options. Each is modelled once, by `Urls.IsSameDomain` and
  `Crawler.Run`.
- **The fetch service.** It is a finite map `site` from URL to outcome. A URL outside the map
  fails. This map is as general as a changing service, because no URL is ever fetched twice.
- **`urljoin`.** It is a function parameter `join`.
- **The file system.** It is a map from path to content.
- **The crawl loop.** It is a `while` loop with its invariants.
  - Batch formation (`Frontier.NextBatch`) and the link loop (`Frontier.EnqueueLinks`) are
    loops over sequences.
  - They are proved against the specification functions `DedupFrom` (what popping a list
    against a visited set dispatches) and `Discovered` (what a page queues).
  - The loop terminates because `visited` grows inside the finite set of URLs the site can
    ever produce.
- **A missing payload.** Under the LLM filter the payload is missing when `fit_markdown` is
  falsy and `markdown` is `None`. When pages are written to files, `open(path, "w")` then
  creates an empty file and `write(None)` raises, which ends the run. The model follows the
  code here:
  - `Crashes` names this case;
  - the run stops with `crashed` set and the empty file left behind;
  - no final file is written.

  In the single mode the same payload renders as the text `None`.
- **The multiple mode.** In the multiple mode of `docs_to_markdown.py`, the `index.md` written
  at the end replaces the page file `build_local_filepath` derived for the site root. Both
  are `output_dir/doc_name/index.md` (`Paths.HomePageIsIndexPath`).

## Model

| member | source | states |
|---|---|---|
| `Urls.IsSameDomain` | docs_to_markdown.py:124-131 | the definition: a link is in scope when it has a network location that is the base domain or ends in `.` plus the base domain |
| `Urls.SameDomainScope` | docs_to_markdown.py:124-131 | a link without a host is out of scope; the base domain itself is in scope; every in-scope host ends with the base domain; a label put in front of an in-scope host stays in scope |
| `Urls.HostSuffixes` | docs-to-markdown.py:84-91 | a host equal to the base domain, or ending in `.` plus the base domain, ends with the base domain, and so does any label-prefixed host built on it |
| `Urls.EmptyBaseDomain` | multi_doc_extract.py:42-49 | with an empty base domain (a start URL without a host) a link is in scope exactly when its host is non-empty and ends in `.` |
| `Urls.SuffixWithoutDotIsOutOfScope` | docs_to_markdown.py:131 | `mydocs.io` is not in scope of `docs.io`, because the suffix needs a dot before it; `api.docs.io` is |
| `Text.LStrip` | docs_to_markdown.py:142 | the result is a suffix of the input that does not start with the character, and every dropped character was that character |
| `Text.RStrip` | docs_to_markdown.py:146 | the result is a prefix that does not end with the character, and every dropped character was that character |
| `Text.Strip` | docs_to_markdown.py:289 | the result neither starts nor ends with the character, and it is empty exactly when the input consists of that character only |
| `Text.StripSlice` | docs_to_markdown.py:289 | what `strip` keeps is a contiguous slice of the input, and every character before and after that slice is the stripped character |
| `Text.ReplaceAll` | docs_to_markdown.py:292 | the definition of `str.replace` with a non-empty pattern: occurrences are replaced left to right, without overlap, and the replacement is not scanned again |
| `Text.ReplaceAllAvoids` | docs_to_markdown.py:292 | after `replace(pat, rep)` a character absent from `rep` is absent from the result if it was absent from the input or is the whole pattern |
| `Text.ReplaceAllIsSinglePass` | docs_to_markdown.py:292 | `replace(".html", "")` is one pass: `..htmlhtml` becomes `.html`, which still contains `.html` |
| `Text.Title` | docs_to_markdown.py:292 | `title()` keeps the length and rewrites each character by whether the previous character is a letter: upper case at the start of a word, lower case inside it, non-letters unchanged |
| `Text.TitleKeepsUncased` | docs_to_markdown.py:330 | title-casing never introduces a non-letter character that was not there |
| `Text.TitleIdempotent` | docs_to_markdown.py:292 | title-casing a title changes nothing |
| `Results.SelectPayload` | docs_to_markdown.py:274-278 | with the LLM filter the payload is `fit_markdown` when that is truthy and `markdown` otherwise; with the heuristic filter it is truthy exactly when `markdown` is, and is `""` otherwise; it is missing only with the LLM filter when `fit_markdown` is falsy and `markdown` is `None` |
| `Results.Fetch` | docs_to_markdown.py:260-264 | a successful result comes from the site and carries the site's outcome for that URL |
| `Results.Show` | docs_to_markdown.py:293 | the definition: a payload rendered into an f-string is its text, and a missing payload renders as `None` |
| `Results.Written` | docs_to_markdown.py:284-285 | the definition: the file holds the payload, and a missing payload leaves the empty file that `open` created |
| `Stats.CrawlStats.constructor` | docs_to_markdown.py:91-96 | every counter starts at zero, so processed = success + failed holds |
| `Stats.CrawlStats.AddUrl` | docs_to_markdown.py:98-99 | `total_urls` goes up by one and no other counter changes |
| `Stats.CrawlStats.UrlProcessed` | docs_to_markdown.py:101-106 | `processed_urls` and exactly one of `success_urls` / `failed_urls` go up by one; processed = success + failed is preserved |
| `Paths.Join` | docs_to_markdown.py:151-155 | the definition of POSIX `os.path.join` of two parts: an absolute second part replaces the first; otherwise one separator is put between them unless the first is empty or ends in one |
| `Paths.JoinAll` | docs_to_markdown.py:151 | `os.path.join` of several parts joins them from left to right |
| `Paths.Basename` | docs_to_markdown.py:147 | the definition of `os.path.basename`: everything after the last separator |
| `Paths.Dirname` | docs_to_markdown.py:146 | the definition of `os.path.dirname`: everything before the last separator, without its trailing separators unless nothing else is left |
| `Paths.SubPath` | docs_to_markdown.py:142-144 | the URL path without its leading separators, or the default name when nothing is left |
| `Paths.FileStem` | docs_to_markdown.py:147-149 | the basename of the sub-path, or the default name when it is empty |
| `Paths.LocalFilePath` | docs_to_markdown.py:140-155 | the definition of `build_local_filepath` without the directory creation: the output directories, the sub-path's dirname, then the stem plus `.md` |
| `Paths.IndexPath` | docs_to_markdown.py:315 | `os.path.join(output_dir, doc_name, "index.md")` |
| `Paths.JoinRelative` | docs_to_markdown.py:155 | joining a relative name puts it after the directory, with or without one separator, so the result ends with the name |
| `Paths.JoinEmptyThen` | docs_to_markdown.py:151-155 | joining an empty dirname and then the file name is the same as joining the file name directly |
| `Paths.LastSepEnd` | docs_to_markdown.py:147 | the last component starts right after a separator (or at the start) and holds no separator |
| `Paths.DirnameBasenameSplit` | docs_to_markdown.py:146-147 | a path is its dirname, then only separators, then its basename, which holds no separator |
| `Paths.BasenameOfStripped` | docs_to_markdown.py:142-147 | stripping the leading separators does not change the basename |
| `Paths.LocalFilePathShape` | docs_to_markdown.py:140-155 | the derived path ends in the file stem plus `.md`; the stem is non-empty, holds no separator, and is the sub-path's basename whenever that is non-empty |
| `Paths.EmptyPathGivesDefault` | docs_to_markdown.py:142-144 | an empty path (or one of separators only) gives the default name directly under the output directories |
| `Paths.TrailingSlashGivesDefault` | docs_to_markdown.py:147-149 | a path ending in a separator gives the default name as the stem |
| `Paths.StemOfFilePath` | docs_to_markdown.py:142-149 | a non-empty path not ending in a separator has a non-empty basename, which is the stem |
| `Paths.SingleComponentPath` | docs_to_markdown.py:142-149 | a path of one component has that component as sub-path and stem, and an empty dirname |
| `Paths.DerivedFile` | docs_to_markdown.py:133-155 | for any output tree: the file ends in `.md`, after the URL's basename when the path does not end in a separator and after the default name when it does; the site root maps to the default name directly under the directories |
| `Paths.DefaultUnderDirs` | docs_to_markdown.py:142-155 | for the site root, the file is the output directories joined with the default name plus `.md` |
| `Paths.HomePageIsIndexPath` | docs_to_markdown.py:315 | with the default name `index`, the site root's page file is the `index.md` written at the end |
| `DocsToMarkdownCli.BuildLocalFilepath` | docs_to_markdown.py:133-155 | `build_local_filepath(output_dir, doc_name, url)` is the derivation under `output_dir/doc_name` with the default name `index` |
| `DocsToMarkdownScript.BuildLocalFilepath` | docs-to-markdown.py:93-115 | `build_local_filepath(output_dir, doc_name, url)` is the derivation under `output_dir/doc_name` with the default name `index.html` |
| `MultiDocExtract.BuildLocalFilepath` | multi_doc_extract.py:51-73 | `build_local_filepath(output_dir, url)` is the derivation under `output_dir` with the default name `index.html` |
| `DocsToMarkdownCli.BuildLocalFilepathFacts` | docs_to_markdown.py:133-155 | `output_dir/doc_name/...`: the file ends in `.md`, after the basename or after `index` for a trailing separator; the site root is `index.md` |
| `DocsToMarkdownScript.BuildLocalFilepathFacts` | docs-to-markdown.py:93-115 | the file ends in `.md`, so `x.html` gives `x.html.md`; a trailing separator gives `index.html.md`; the site root is `output_dir/doc_name/index.html.md` |
| `MultiDocExtract.BuildLocalFilepathFacts` | multi_doc_extract.py:51-73 | the same without `doc_name`: the site root is `output_dir/index.html.md` |
| `Frontier.DedupFrom` | docs_to_markdown.py:247-252 | the entries dispatched from a popped list are no more than the list and repeat no URL; their URLs are exactly the list's URLs that were not visited |
| `Frontier.DedupFromSnoc` | docs_to_markdown.py:248-252 | popping one more entry dispatches it exactly when its URL is neither visited nor already dispatched |
| `Frontier.DedupFromMembers` | docs_to_markdown.py:249-252 | every dispatched entry is one of the popped entries, and none carries a visited URL |
| `Frontier.BatchFresh` | docs-to-markdown.py:199-204 | a batch repeats no URL and holds no URL visited before it |
| `Frontier.DedupFromConcat` | docs_to_markdown.py:244-252 | popping two lists one after the other dispatches what the first dispatches, then what the second dispatches once the first's URLs are visited |
| `Frontier.DedupFirstWins` | multi_doc_extract.py:138-143 | the first entry of a URL not yet visited is the one dispatched, depth included; later duplicates in `to_crawl` are skipped |
| `Frontier.NextBatch` | docs_to_markdown.py:246-255 | the batch is what popping a prefix of `to_crawl` dispatches, and the rest is the remaining suffix; `visited` gains exactly the batch's URLs; the batch holds at most 5 entries; a batch under 5 means `to_crawl` is exhausted, so an empty batch ends the loop; the last pop happened while the batch was still short |
| `Frontier.PopOne` | docs_to_markdown.py:248-252 | one pop moves the head of `to_crawl` to the popped prefix and adds it to the batch and to `visited` exactly when its URL was not visited |
| `Frontier.Discovered` | docs_to_markdown.py:296-305 | the queued links are entries at the given depth, in scope and not visited; each is the join of one of the page's links; every in-scope, unvisited link is queued |
| `Frontier.DiscoveredAppend` | docs_to_markdown.py:301-304 | links are discovered one by one without regard to what is pending, so a link listed twice is queued twice |
| `Frontier.EnqueueLinks` | docs_to_markdown.py:298-305 | the link loop appends exactly the discovered entries to `to_crawl` and counts each with `add_url`; no other counter changes |
| `Output.HeadingPath` | docs_to_markdown.py:288-291 | the URL path without surrounding separators, or `index` when nothing is left |
| `Output.Heading` | docs_to_markdown.py:292 | the title: separators become ` > `, dashes spaces, `.html` is dropped, then `title()` |
| `Output.SectionText` | docs_to_markdown.py:293 | the section `f"# {title}\n\n{md}\n\n---\n\n"` |
| `Output.SectionOf` | docs_to_markdown.py:286-293 | the section of one page: its title and its payload rendered by `f"{md}"` |
| `Output.Successful` | docs_to_markdown.py:265-266 | the handled entries whose fetch succeeded, in handling order |
| `Output.Sections` | docs_to_markdown.py:286-294 | `all_content`: one section per successful page, in handling order |
| `Output.PageFiles` | docs_to_markdown.py:280-285 | the files after each successful page, in handling order, was written to its derived path |
| `Output.HeadingHasNoSeparators` | docs_to_markdown.py:288-292 | a page title holds neither `/` nor `-` |
| `Output.SectionsSnoc` | docs_to_markdown.py:286-294 | handling one more page appends its section exactly when its fetch succeeded |
| `Output.SectionListAt` | docs_to_markdown.py:286-294 | the k-th section is built from the k-th successful page's URL and payload |
| `Output.SuccessfulMembers` | docs_to_markdown.py:265-266 | the successful entries are exactly the handled entries whose fetch succeeded |
| `Output.PageFilesSnoc` | docs_to_markdown.py:280-285 | handling one more successful page writes its payload to its derived path; a failed page writes nothing |
| `Output.PageFilesKeys` | docs-to-markdown.py:232-235 | after writing, the files are those there before plus exactly the derived paths of the successful pages |
| `Output.WrittenPathsHas` | multi_doc_extract.py:167-170 | every successful page's derived path is written |
| `Output.PageFilesLastWriteWins` | docs_to_markdown.py:280-285 | a page's file holds its payload (or is empty when the payload is missing) unless a later successful page derives the same path |
| `Output.IndexLinkTarget` | docs_to_markdown.py:325-329 | the index link of a page: its heading path plus `.md` |
| `Output.IndexLine` | docs_to_markdown.py:330-331 | the index line `- [title](path.md)` of one visited URL |
| `Output.IndexDocument` | docs_to_markdown.py:323-335 | the multiple-mode `index.md`: the header, then the lines of the URLs in iteration order |
| `Output.BuildIndex` | docs_to_markdown.py:322-335 | the index is the header followed by one link line per visited URL, each URL exactly once, in an order left open |
| `Output.IndexDocumentHeader` | docs_to_markdown.py:334 | the index starts with `# Documentation Index` and a blank line |
| `Output.IndexDocumentSnoc` | docs_to_markdown.py:324-331 | one more visited URL adds exactly its own line at the end of the index |
| `Output.IndexLinkFindsFlatPage` | docs_to_markdown.py:326-329 | for a one-component path, the index link names the file the page was written to |
| `Output.IndexLinkMissesTrailingSlashPage` | docs_to_markdown.py:326-329 | for `/name/` the index links `name.md`, while the page was written to the default name inside the directory `name` |
| `Crawler.Crashes` | docs_to_markdown.py:281-285 | a fetched page crashes the run when pages are written to files and its payload is missing, because `write(None)` raises |
| `Crawler.Expands` | docs_to_markdown.py:296 | the links of a page are explored when it was fetched, did not crash the run, and is below the depth limit |
| `Crawler.NewLinks` | docs_to_markdown.py:296-305 | the entries a handled page appends to `to_crawl`: the discovered links of an explored page, one level deeper, and none otherwise |
| `Crawler.FilesOf` | docs_to_markdown.py:280-285 | the files after a list of pages was handled: the page files when pages are written, the old files otherwise |
| `Crawler.ContentOf` | docs_to_markdown.py:286-294 | the collected sections after a list of pages was handled, none when pages are written to files |
| `Crawler.HandledOne` | docs_to_markdown.py:265-294 | one handled page writes its payload to its derived path when pages are files; otherwise it adds its section; a failed page contributes neither |
| `Crawler.NewLinksFacts` | docs_to_markdown.py:296-305 | every entry a page queues is in scope, reachable, at a depth from 1 to the limit; every in-scope link of an explored page is visited or queued afterwards |
| `Crawler.HandleResult` | docs_to_markdown.py:265-308 | one result is counted as a success or a failure; it writes or collects its payload and queues the new links of a page below the limit; a missing payload written to a file crashes the run after the file was created |
| `Crawler.BatchLinks` | docs_to_markdown.py:265-305 | the entries the handled pages of one batch append to `to_crawl`, page after page, all against the visited set of that round |
| `Crawler.BatchLinksStep` | docs_to_markdown.py:265-305 | one more handled page of a batch queues its own links after those of the pages before it |
| `Crawler.ProcessBatch` | docs_to_markdown.py:264-308 | the results of a batch are handled in order until the end or a crash; the queued entries are exactly `BatchLinks` of the handled prefix, appended to the queue and each counted in `total_urls`; files, sections and the other counters are those of the handled prefix |
| `Crawler.HandleBatch` | docs_to_markdown.py:257-308 | a non-empty batch is handled; `to_crawl` becomes the rest after the pop followed by the batch's links, which are appended to the enqueued history; the handled prefix is appended to the handled pages |
| `Crawler.Round` | docs_to_markdown.py:244-308 | one round of the outer loop: the popped prefix is appended to the popped entries, and the batch is what popping it dispatches; the pop is maximal, so a batch under 5 took all of `to_crawl`, and its last entry was popped while the batch was still short; an empty batch leaves `to_crawl` empty and nothing else changed; a non-empty batch is appended to the batches, its handled prefix to the handled pages, and its `BatchLinks` to the enqueued entries and to the rest of `to_crawl`; the invariants are kept and the loop measure decreases |
| `Crawler.Schedule` | docs_to_markdown.py:244-252 | how the rounds cut `to_crawl` into pops: each batch is its pop deduplicated against everything popped before it; each pop's last entry came while its batch was still short; a batch under 5 took every entry queued before its round (the seed and the links of the earlier batches) |
| `Crawler.LastCut` | docs_to_markdown.py:246-252 | the same three conditions for the last round of a prefix of the run |
| `Crawler.ScheduleStep` | docs_to_markdown.py:244-252 | a round that dispatches a batch extends the schedule by its pop |
| `Crawler.ScheduleRound` | docs_to_markdown.py:244-252 | one round of the loop keeps the schedule: the popped entries are the segments followed by a tail; the tail is non-empty only when the last pop dispatched nothing and emptied `to_crawl` |
| `Crawler.SourceRoundsMeetSchedule` | docs_to_markdown.py:244-252 | a start page linking to `a` and `b` (distinct URLs) is crawled as the batches `[seed]` and `[a, b]` |
| `Crawler.OneUrlRoundsViolateSchedule` | docs_to_markdown.py:246-252 | popping one URL per round (`[seed]`, `[a]`, `[b]`) is not the source's schedule: the short second batch left `b` queued |
| `Crawler.RoundLinks` | docs_to_markdown.py:244-305 | all entries enqueued after the seed: each batch's links in batch order, each batch against the URLs of itself and of the batches before it |
| `Crawler.Provenance` | docs_to_markdown.py:244-305 | the enqueued entries are exactly `RoundLinks` of the batches; after a crash the last batch counts only up to the page that crashed |
| `Crawler.ProvenanceStep` | docs_to_markdown.py:257-305 | handling one more batch appends its links to the provenance of the run |
| `Crawler.WriteFinal` | docs_to_markdown.py:314-335 | after the crawl: nothing, the concatenated sections as `index.md`, or an `index.md` with one line per visited URL |
| `Crawler.ProcessedDistinct` | docs_to_markdown.py:247-252 | no URL is handled twice over the run, every handled URL is visited, and without a crash every visited URL was handled |
| `Crawler.ProcessedCrawlable` | docs_to_markdown.py:190 | every handled page is the start entry or an in-scope, reachable entry at a depth from 1 to the limit |
| `Crawler.ShallowCrawl` | docs_to_markdown.py:296 | with a depth limit of zero or less only the start page is handled |
| `Crawler.Run` | docs_to_markdown.py:186-335 | the whole crawl, with its invariants, the round schedule, the provenance of every enqueued entry and the counters; see below |
| `DocsToMarkdownCli.CliConfig` | docs_to_markdown.py:157-164 | the arguments as a crawl: only "multiple" writes a file per page, only "single" writes the combined file, any other mode writes the index of visited URLs |
| `DocsToMarkdownCli.CrawlAllDocs` | docs_to_markdown.py:157-335 | no URL is handled twice and every handled URL is visited; without a crash visited = handled; handled and queued entries are in scope within the depth limit; the queued entries are exactly the links the handled pages found (`Provenance`), batch by batch in the source's fill-to-5 schedule (`Schedule`); `total_urls` = 1 + enqueues, `processed_urls` = handled and `success_urls` = successes, with processed = success + failed; single: no crash, `index.md` = the sections of the successful pages in order; multiple: the page files, then the index of the visited URLs unless a page crashed the run; other modes: the index only |
| `DocsToMarkdownScript.EnvOr` | docs-to-markdown.py:129-130 | the variable's value when it is set, the default otherwise |
| `DocsToMarkdownScript.ScriptConfig` | docs-to-markdown.py:117-130 | the arguments and the environment as a crawl: every page to its own file under `OUTPUT_DIR/doc_name`, depth `MAX_DEPTH`, no final file |
| `DocsToMarkdownScript.CrawlAllDocs` | docs-to-markdown.py:117-249 | the same crawl facts, provenance of the queued entries and the batch schedule included, with `MAX_DEPTH` (default 2); the files are exactly the page files of the successful pages under `OUTPUT_DIR` (default `docs_outputs`), also after a crash |
| `MultiDocExtract.EnvOr` | multi_doc_extract.py:89-92 | the variable's value when it is set, the default otherwise |
| `MultiDocExtract.MultiConfig` | multi_doc_extract.py:75-92 | depth and directory from the argument, else from `MAX_DEPTH` / `OUTPUT_DIR`, else 2 and `docs_outputs`; every page to its own file, no final file |
| `MultiDocExtract.CrawlAllDocs` | multi_doc_extract.py:75-182 | the argument, else the environment, else the default for depth and directory; no URL is handled twice, handled and queued entries are in scope within the limit, the queued entries are exactly the links the handled pages found (`Provenance`) in the same batch schedule (`Schedule`), and the files are exactly the page files of the successful pages |

`Crawler.Run` ensures the following:

- The batches are the popped entries with repeats dropped, each of 1 to 5 entries.
- The rounds are cut as the source cuts them (`Schedule`). Each batch is its own pop,
  deduplicated against everything popped before it. A pop stops as soon as the batch
  holds 5 entries, and a batch under 5 took everything queued before its round. A final
  pop that dispatched nothing is the tail of the popped entries. This cut decides which
  rediscovered links are queued again, and so decides `total_urls`.
  `Crawler.SourceRoundsMeetSchedule` and `Crawler.OneUrlRoundsViolateSchedule` show a
  small site crawled the source's way, and a per-URL cut that is ruled out.
- The seed followed by every enqueued entry is the popped entries followed by the pending
  ones, and `total_urls` is 1 plus the number of enqueues.
- The enqueued entries are exactly the links the handled pages found, batch by batch
  (`Provenance`): each came from a page one level up that was below the limit, and its URL
  was not visited when that page's batch was popped.
- The handled pages are the dispatched ones: all of them, or, after a crash, a prefix ending
  at the page that crashed.
- The counters match the handled pages.
- Without a crash, every in-scope link of every explored page is visited.
- The files and the final `index.md` are as described for `WriteFinal`.

## Left out

- Network, browser and content filtering are left out: `AsyncWebCrawler`, `arun_many`, the
  dispatcher and the two content filters become the finite map `site`.
- Crawler.Run: the batch schedule and the provenance are stated round by round; no lemma
  proves that together they allow only one run for a given site.
- Results are handled in batch order, and `result.url` is taken to be the requested URL (the
  code looks the depth up with `batch_urls.index(result.url)`); a redirect that changes the
  URL, which would raise `ValueError` there, is not modelled.
- `result.markdown_v2` is taken to be present; its absence would raise in the LLM filter.
- A link object without `href` (a `KeyError`) is not modelled; links are the `href` strings.
- `urlparse` and `urljoin` are abstract: a URL is its host, its path and the rest, and
  `urljoin` is the parameter `join`.
- `str.title()` is modelled for ASCII only; Unicode case mapping is not.
- The iteration order of the `visited` set for the index is left open; the index is stated
  as one line per visited URL.
- There is no claim that index links match the file paths in general: they do for one-component
  paths, and `IndexLinkMissesTrailingSlashPage` shows that they do not for a trailing separator.
- A crash is modelled as the end of the run; the exception's propagation and the
  statistics display that it skips are not.
- MultiDocExtract.CrawlAllDocs: the statistics are not stated, because `multi_doc_extract.py`
  keeps none.
- `int(os.getenv("MAX_DEPTH", 2))` is taken as already converted: a `MAX_DEPTH` that is not
  a number (a `ValueError`) is not modelled.
- Console output (`rich` panels, progress bars, the statistics table), `time.time()`,
  `check_for_update`, `argparse` and `main_cli`, the overwrite prompt and `shutil.rmtree`,
  `.env` and `OPENAI_API_KEY`, and the donation message are left out as I/O.
- `os.makedirs` is left out: the file system is a flat map from path to content, in which
  directories need no creation. The map therefore also hides collisions between a file and
  a directory: after page `/a` wrote `…/a.md`, a page `/a.md/x` makes `os.makedirs("…/a.md",
  exist_ok=True)` raise `FileExistsError`, and in the other order `open("…/a.md", "w")`
  raises `IsADirectoryError`; the model writes both files.
