/** The breadth-first crawl of `crawl_all_docs`, shared by the three scripts: batches of
    at most five unvisited URLs are fetched, each result is counted, its Markdown is
    written or collected, and the in-scope links of pages below the depth limit are
    queued; after the crawl the combined file or the index may be written. */
module Crawler {
  import opened Paths
  import opened Urls
  import opened Results
  import opened Stats
  import opened Frontier
  import opened Output

  /** What is written once the crawl is over: nothing, the collected sections as one
      `index.md`, or an `index.md` listing every visited URL. */
  datatype FinalFile = NoFinalFile | CombinedFile | IndexOfVisited

  /** One run: the start URL, the depth limit, the content filter, whether every page
      is written to its own file, what is written at the end, and the output tree. */
  datatype Config = Config(
    startUrl: Url,
    maxDepth: int,
    filter: FilterMode,
    pagesAsFiles: bool,
    finalFile: FinalFile,
    layout: Layout)

  /** Links are kept when their host is the start URL's host or a subdomain of it. */
  function BaseDomain(cfg: Config): string {
    cfg.startUrl.netloc
  }

  /** Every URL a crawl of `site` can ever queue: the start URL and the absolute links
      of the pages the site holds. */
  ghost function Reachable(cfg: Config, site: map<Url, Outcome>, join: (Url, string) -> Url): set<Url> {
    {cfg.startUrl} + (set u, v | u in site && v in JoinedLinks(join, u, site[u].internalLinks) :: v)
  }

  /** A page whose payload is missing when it must be written: `write(None)` raises and
      ends the run after `open` has left an empty file behind. */
  predicate Crashes(cfg: Config, site: map<Url, Outcome>, e: Entry) {
    cfg.pagesAsFiles && Fetch(site, e.url).success && PagePayload(cfg.filter, site, e).None?
  }

  /** A page whose links are explored: fetched, handled without a crash, and below the
      depth limit. */
  predicate Expands(cfg: Config, site: map<Url, Outcome>, e: Entry) {
    Fetch(site, e.url).success && !Crashes(cfg, site, e) && e.depth < cfg.maxDepth
  }

  /** The entries a handled page appends to `to_crawl`, given the visited set of its batch. */
  function NewLinks(cfg: Config, site: map<Url, Outcome>, join: (Url, string) -> Url,
                    visited: set<Url>, e: Entry): seq<Entry> {
    if Expands(cfg, site, e)
    then Discovered(BaseDomain(cfg), visited, join, e.url, Fetch(site, e.url).internalLinks, e.depth + 1)
    else []
  }

  /** An entry that may be queued after the start: in scope, one level or more below the
      start and not below the limit, and reachable in the site. */
  ghost predicate Queueable(cfg: Config, site: map<Url, Outcome>, join: (Url, string) -> Url, e: Entry) {
    1 <= e.depth && e.depth <= cfg.maxDepth && IsSameDomain(BaseDomain(cfg), e.url)
    && e.url in Reachable(cfg, site, join)
  }

  /** Every in-scope link of an explored page is among `known`. */
  ghost predicate LinksKnown(cfg: Config, site: map<Url, Outcome>, join: (Url, string) -> Url,
                             e: Entry, known: set<Url>) {
    Expands(cfg, site, e) ==>
      forall k :: 0 <= k < |Fetch(site, e.url).internalLinks| &&
                  IsSameDomain(BaseDomain(cfg), join(e.url, Fetch(site, e.url).internalLinks[k])) ==>
                  join(e.url, Fetch(site, e.url).internalLinks[k]) in known
  }

  /** The files after the pages of `es` were handled, starting from `fs`. */
  function FilesOf(cfg: Config, site: map<Url, Outcome>, fs: map<string, string>, es: seq<Entry>): map<string, string> {
    if cfg.pagesAsFiles then PageFiles(fs, PathFor(cfg.layout), cfg.filter, site, es) else fs
  }

  /** The sections collected for the combined file after the pages of `es` were handled. */
  function ContentOf(cfg: Config, site: map<Url, Outcome>, es: seq<Entry>): seq<string> {
    if cfg.pagesAsFiles then [] else Sections(cfg.filter, site, es)
  }

  /** What handling a single page contributes to the files and to the sections. */
  lemma HandledOne(cfg: Config, site: map<Url, Outcome>, fs: map<string, string>, e: Entry)
    ensures FilesOf(cfg, site, fs, [e]) ==
      if cfg.pagesAsFiles && Fetch(site, e.url).success
      then fs[LocalFilePath(cfg.layout, e.url.path) := Written(PagePayload(cfg.filter, site, e))]
      else fs
    ensures ContentOf(cfg, site, [e]) ==
      if !cfg.pagesAsFiles && Fetch(site, e.url).success
      then [SectionOf(e.url, PagePayload(cfg.filter, site, e))]
      else []
  {
    assert [] + [e] == [e];
    if cfg.pagesAsFiles {
      PageFilesOne(fs, cfg.layout, cfg.filter, site, e);
    } else {
      SectionsSnoc(cfg.filter, site, [], e);
    }
  }

  /** One page on its own is written to the file its layout derives, when it was fetched. */
  lemma PageFilesOne(fs: map<string, string>, layout: Layout, filter: FilterMode,
                     site: map<Url, Outcome>, e: Entry)
    ensures PageFiles(fs, PathFor(layout), filter, site, [e]) ==
      if Fetch(site, e.url).success
      then fs[LocalFilePath(layout, e.url.path) := Written(PagePayload(filter, site, e))]
      else fs
  {
    var pathOf := PathFor(layout);
    assert [] + [e] == [e];
    PageFilesSnoc(fs, pathOf, filter, site, [], e);
    assert pathOf(e.url.path) == LocalFilePath(layout, e.url.path);
  }

  /** Links found by a page are queueable, and every in-scope link that was not visited
      yet is among them. */
  lemma NewLinksFacts(cfg: Config, site: map<Url, Outcome>, join: (Url, string) -> Url,
                      visited: set<Url>, e: Entry)
    ensures forall k :: 0 <= k < |NewLinks(cfg, site, join, visited, e)| ==>
      Queueable(cfg, site, join, NewLinks(cfg, site, join, visited, e)[k])
    ensures LinksKnown(cfg, site, join, e, visited + UrlSet(NewLinks(cfg, site, join, visited, e)))
  {
    var r := NewLinks(cfg, site, join, visited, e);
    if Expands(cfg, site, e) {
      var links := Fetch(site, e.url).internalLinks;
      assert e.url in site;
      forall k | 0 <= k < |r| ensures Queueable(cfg, site, join, r[k]) {
        assert r[k].url in JoinedLinks(join, e.url, site[e.url].internalLinks);
      }
      forall k | 0 <= k < |links| && IsSameDomain(BaseDomain(cfg), join(e.url, links[k]))
        ensures join(e.url, links[k]) in visited + UrlSet(r)
      {
        var u := join(e.url, links[k]);
        if u !in visited {
          assert Entry(u, e.depth + 1) in r;
          UrlSetMembers(r, u);
        }
      }
    }
  }

  /** The handling of one result: count it, write or collect its Markdown, and queue the
      in-scope links of a page below the depth limit. Writing a missing payload ends the
      run after the file was created. */
  method HandleResult(cfg: Config, site: map<Url, Outcome>, join: (Url, string) -> Url,
                      visited: set<Url>, e: Entry, queue: seq<Entry>, fs: map<string, string>,
                      content: seq<string>, stats: CrawlStats)
    returns (queue': seq<Entry>, fs': map<string, string>, content': seq<string>, crashed: bool)
    modifies stats
    ensures crashed == Crashes(cfg, site, e)
    ensures queue' == queue + NewLinks(cfg, site, join, visited, e)
    ensures fs' == FilesOf(cfg, site, fs, [e])
    ensures content' == content + ContentOf(cfg, site, [e])
    ensures stats.processedUrls == old(stats.processedUrls) + 1
    ensures stats.successUrls == old(stats.successUrls) + (if Fetch(site, e.url).success then 1 else 0)
    ensures stats.failedUrls == old(stats.failedUrls) + (if Fetch(site, e.url).success then 0 else 1)
    ensures stats.totalUrls == old(stats.totalUrls) + |NewLinks(cfg, site, join, visited, e)|
  {
    HandledOne(cfg, site, fs, e);
    assert queue + [] == queue && content + [] == content;
    var o := Fetch(site, e.url);
    queue', fs', content', crashed := queue, fs, content, false;
    if o.success {
      stats.UrlProcessed(true);
      var md := SelectPayload(cfg.filter, o);
      if cfg.pagesAsFiles {
        fs' := fs'[LocalFilePath(cfg.layout, e.url.path) := Written(md)];
        if md.None? {
          crashed := true;
          return;
        }
      } else {
        content' := content' + [SectionOf(e.url, md)];
      }
      if e.depth < cfg.maxDepth {
        queue' := EnqueueLinks(BaseDomain(cfg), visited, join, e.url, o.internalLinks, e.depth + 1,
                               queue', stats);
      }
    } else {
      stats.UrlProcessed(false);
    }
  }

  /** Handling one more page extends every account kept of the pages handled so far. */
  lemma HandledSnoc(cfg: Config, site: map<Url, Outcome>, fs0: map<string, string>, p: seq<Entry>, e: Entry)
    ensures FilesOf(cfg, site, fs0, p + [e]) == FilesOf(cfg, site, FilesOf(cfg, site, fs0, p), [e])
    ensures ContentOf(cfg, site, p + [e]) == ContentOf(cfg, site, p) + ContentOf(cfg, site, [e])
    ensures |Successful(site, p + [e])| == |Successful(site, p)| + (if Fetch(site, e.url).success then 1 else 0)
  {
    HandledOne(cfg, site, FilesOf(cfg, site, fs0, p), e);
    PageFilesSnoc(fs0, PathFor(cfg.layout), cfg.filter, site, p, e);
    SectionsSnoc(cfg.filter, site, p, e);
    SuccessfulSnoc(site, p, e);
  }

  lemma TakeSnoc(s: seq<Entry>, i: nat)
    requires i < |s|
    ensures s[..i + 1] == s[..i] + [s[i]]
  {
  }

  lemma QueueAssoc(a: seq<Entry>, b: seq<Entry>, c: seq<Entry>)
    ensures (a + b) + c == a + (b + c)
  {
  }

  /** `LinksKnown` only grows with what is known. */
  lemma LinksKnownGrows(cfg: Config, site: map<Url, Outcome>, join: (Url, string) -> Url,
                        es: seq<Entry>, known: set<Url>, more: set<Url>)
    requires forall j :: 0 <= j < |es| ==> LinksKnown(cfg, site, join, es[j], known)
    requires known <= more
    ensures forall j :: 0 <= j < |es| ==> LinksKnown(cfg, site, join, es[j], more)
  {
  }

  /** What the run has done for the pages it has handled, in order: the files written,
      the sections collected, the counters, and every in-scope link of an explored
      page either visited or pending. */
  ghost predicate Accounted(cfg: Config, site: map<Url, Outcome>, join: (Url, string) -> Url,
                            visited: set<Url>, fs0: map<string, string>, handled: seq<Entry>,
                            queue: seq<Entry>, fs: map<string, string>, content: seq<string>,
                            processedUrls: nat, successUrls: nat, failedUrls: nat) {
    && fs == FilesOf(cfg, site, fs0, handled)
    && content == ContentOf(cfg, site, handled)
    && processedUrls == |handled| && successUrls == |Successful(site, handled)|
    && processedUrls == successUrls + failedUrls
    && forall j :: 0 <= j < |handled| ==> LinksKnown(cfg, site, join, handled[j], visited + UrlSet(queue))
  }

  /** Handling `e` carries the account of the pages handled so far over to `handled + [e]`. */
  lemma AccountedStep(cfg: Config, site: map<Url, Outcome>, join: (Url, string) -> Url,
                      visited: set<Url>, fs0: map<string, string>, handled: seq<Entry>, e: Entry,
                      queue: seq<Entry>, fs: map<string, string>, content: seq<string>,
                      processedUrls: nat, successUrls: nat, failedUrls: nat,
                      queue': seq<Entry>, fs': map<string, string>, content': seq<string>,
                      processedUrls': nat, successUrls': nat, failedUrls': nat)
    requires Accounted(cfg, site, join, visited, fs0, handled, queue, fs, content,
                       processedUrls, successUrls, failedUrls)
    requires queue' == queue + NewLinks(cfg, site, join, visited, e)
    requires fs' == FilesOf(cfg, site, fs, [e])
    requires content' == content + ContentOf(cfg, site, [e])
    requires processedUrls' == processedUrls + 1
    requires successUrls' == successUrls + (if Fetch(site, e.url).success then 1 else 0)
    requires failedUrls' == failedUrls + (if Fetch(site, e.url).success then 0 else 1)
    ensures Accounted(cfg, site, join, visited, fs0, handled + [e], queue', fs', content',
                      processedUrls', successUrls', failedUrls')
  {
    HandledSnoc(cfg, site, fs0, handled, e);
    KnownStep(cfg, site, join, visited, handled, e, queue, queue');
  }

  /** The links of the pages handled so far, and those of `e`, stay visited or pending
      once `e`'s new links are queued. */
  lemma KnownStep(cfg: Config, site: map<Url, Outcome>, join: (Url, string) -> Url,
                  visited: set<Url>, handled: seq<Entry>, e: Entry, queue: seq<Entry>, queue': seq<Entry>)
    requires forall j :: 0 <= j < |handled| ==> LinksKnown(cfg, site, join, handled[j], visited + UrlSet(queue))
    requires queue' == queue + NewLinks(cfg, site, join, visited, e)
    ensures forall j :: 0 <= j < |handled + [e]| ==>
      LinksKnown(cfg, site, join, (handled + [e])[j], visited + UrlSet(queue'))
  {
    NewLinksFacts(cfg, site, join, visited, e);
    var found := NewLinks(cfg, site, join, visited, e);
    UrlSetAppend(queue, found);
    LinksKnownGrows(cfg, site, join, handled, visited + UrlSet(queue), visited + UrlSet(queue'));
    LinksKnownGrows(cfg, site, join, [e], visited + UrlSet(found), visited + UrlSet(queue'));
    assert forall j :: 0 <= j < |handled| ==> (handled + [e])[j] == handled[j];
  }

  /** The entries the pages of `es`, handled in order, append to `to_crawl`, each page
      against the same visited set: that of the round that popped them. */
  function BatchLinks(cfg: Config, site: map<Url, Outcome>, join: (Url, string) -> Url,
                      visited: set<Url>, es: seq<Entry>): seq<Entry>
    decreases |es|
  {
    if es == [] then []
    else BatchLinks(cfg, site, join, visited, es[..|es| - 1]) + NewLinks(cfg, site, join, visited, es[|es| - 1])
  }

  /** One more page of a batch, handled, queues its own links after those of the pages
      before it. */
  lemma BatchLinksStep(cfg: Config, site: map<Url, Outcome>, join: (Url, string) -> Url,
                       visited: set<Url>, batch: seq<Entry>, done: nat)
    requires done < |batch|
    ensures BatchLinks(cfg, site, join, visited, batch[..done + 1])
         == BatchLinks(cfg, site, join, visited, batch[..done]) + NewLinks(cfg, site, join, visited, batch[done])
  {
    assert batch[..done + 1][..done] == batch[..done];
  }

  /** The links the result loop of one batch has found so far: appended to the queue,
      each of them queueable, and each of them counted. */
  ghost predicate BatchInv(cfg: Config, site: map<Url, Outcome>, join: (Url, string) -> Url,
                           queue: seq<Entry>, totalUrls0: nat, added: seq<Entry>,
                           queue': seq<Entry>, totalUrls: nat) {
    && queue' == queue + added
    && (forall k :: 0 <= k < |added| ==> Queueable(cfg, site, join, added[k]))
    && totalUrls == totalUrls0 + |added|
  }

  /** One more page of the batch handled. */
  lemma BatchInvStep(cfg: Config, site: map<Url, Outcome>, join: (Url, string) -> Url,
                     queue: seq<Entry>, totalUrls0: nat, added: seq<Entry>, queue1: seq<Entry>, totalUrls: nat,
                     found: seq<Entry>, queue2: seq<Entry>, totalUrls': nat)
    requires BatchInv(cfg, site, join, queue, totalUrls0, added, queue1, totalUrls)
    requires forall k :: 0 <= k < |found| ==> Queueable(cfg, site, join, found[k])
    requires queue2 == queue1 + found
    requires totalUrls' == totalUrls + |found|
    ensures BatchInv(cfg, site, join, queue, totalUrls0, added + found, queue2, totalUrls')
  {
    QueueAssoc(queue, added, found);
  }

  lemma HandledGrows(processed: seq<Entry>, batch: seq<Entry>, done: nat)
    requires done < |batch|
    ensures processed + batch[..done + 1] == (processed + batch[..done]) + [batch[done]]
  {
    TakeSnoc(batch, done);
  }

  /** The loop over the results of one batch, in batch order, until a page crashes. */
  method ProcessBatch(cfg: Config, site: map<Url, Outcome>, join: (Url, string) -> Url,
                      visited: set<Url>, batch: seq<Entry>, queue: seq<Entry>,
                      fs: map<string, string>, content: seq<string>, stats: CrawlStats,
                      ghost fs0: map<string, string>, ghost processed: seq<Entry>)
    returns (queue': seq<Entry>, fs': map<string, string>, content': seq<string>, crashed: bool,
             done: nat, ghost added: seq<Entry>)
    modifies stats
    requires Accounted(cfg, site, join, visited, fs0, processed, queue, fs, content,
                       stats.processedUrls, stats.successUrls, stats.failedUrls)
    ensures done <= |batch| && (!crashed ==> done == |batch|)
    ensures crashed ==> 0 < done && Crashes(cfg, site, batch[done - 1])
    ensures added == BatchLinks(cfg, site, join, visited, batch[..done])
    ensures BatchInv(cfg, site, join, queue, old(stats.totalUrls), added, queue', stats.totalUrls)
    ensures Accounted(cfg, site, join, visited, fs0, processed + batch[..done], queue', fs', content',
                      stats.processedUrls, stats.successUrls, stats.failedUrls)
  {
    queue', fs', content', crashed, done, added := queue, fs, content, false, 0, [];
    assert batch[..0] == [] && processed + [] == processed && queue + [] == queue;
    while done < |batch| && !crashed
      invariant done <= |batch|
      invariant crashed ==> 0 < done && Crashes(cfg, site, batch[done - 1])
      invariant added == BatchLinks(cfg, site, join, visited, batch[..done])
      invariant BatchInv(cfg, site, join, queue, old(stats.totalUrls), added, queue', stats.totalUrls)
      invariant Accounted(cfg, site, join, visited, fs0, processed + batch[..done], queue', fs', content',
                          stats.processedUrls, stats.successUrls, stats.failedUrls)
      decreases |batch| - done
    {
      queue', fs', content', crashed, added := HandleNext(cfg, site, join, visited, fs0, processed, batch, queue,
                                                          old(stats.totalUrls), done, added,
                                                          queue', fs', content', stats);
      done := done + 1;
    }
  }

  /** One turn of the result loop of `ProcessBatch`: handle the next page of the batch. */
  method HandleNext(cfg: Config, site: map<Url, Outcome>, join: (Url, string) -> Url,
                    visited: set<Url>, ghost fs0: map<string, string>, ghost processed: seq<Entry>,
                    batch: seq<Entry>, ghost queue: seq<Entry>, ghost totalUrls0: nat,
                    done: nat, ghost added: seq<Entry>,
                    queue1: seq<Entry>, fs1: map<string, string>, content1: seq<string>, stats: CrawlStats)
    returns (queue2: seq<Entry>, fs2: map<string, string>, content2: seq<string>, crashed: bool,
             ghost added': seq<Entry>)
    modifies stats
    requires done < |batch|
    requires added == BatchLinks(cfg, site, join, visited, batch[..done])
    requires BatchInv(cfg, site, join, queue, totalUrls0, added, queue1, stats.totalUrls)
    requires Accounted(cfg, site, join, visited, fs0, processed + batch[..done], queue1, fs1, content1,
                       stats.processedUrls, stats.successUrls, stats.failedUrls)
    ensures crashed == Crashes(cfg, site, batch[done])
    ensures added' == BatchLinks(cfg, site, join, visited, batch[..done + 1])
    ensures BatchInv(cfg, site, join, queue, totalUrls0, added', queue2, stats.totalUrls)
    ensures Accounted(cfg, site, join, visited, fs0, processed + batch[..done + 1], queue2, fs2, content2,
                      stats.processedUrls, stats.successUrls, stats.failedUrls)
  {
    var e := batch[done];
    ghost var found := NewLinks(cfg, site, join, visited, e);
    added' := added + found;
    ghost var p, s, f, t := stats.processedUrls, stats.successUrls, stats.failedUrls, stats.totalUrls;
    queue2, fs2, content2, crashed := HandleResult(cfg, site, join, visited, e, queue1, fs1, content1, stats);
    NewLinksFacts(cfg, site, join, visited, e);
    BatchInvStep(cfg, site, join, queue, totalUrls0, added, queue1, t, found, queue2, stats.totalUrls);
    HandledGrows(processed, batch, done);
    BatchLinksStep(cfg, site, join, visited, batch, done);
    AccountedStep(cfg, site, join, visited, fs0, processed + batch[..done], e, queue1, fs1, content1,
                  p, s, f, queue2, fs2, content2, stats.processedUrls, stats.successUrls, stats.failedUrls);
  }

  /** The start entry `(start_url, 0)`. */
  function Seed(cfg: Config): Entry {
    Entry(cfg.startUrl, 0)
  }

  /** An entry the run may pop: the seed, or a queueable entry. */
  ghost predicate Crawlable(cfg: Config, site: map<Url, Outcome>, join: (Url, string) -> Url, e: Entry) {
    e == Seed(cfg) || Queueable(cfg, site, join, e)
  }

  /** What was popped and dispatched so far: `visited` holds the URL of every popped entry,
      and the batches, each of one to `BATCH_SIZE` entries, are the popped entries with
      every repeated URL dropped. */
  ghost predicate DispatchInv(visited: set<Url>, consumed: seq<Entry>, batches: seq<seq<Entry>>) {
    && visited == UrlSet(consumed)
    && Flatten(batches) == Dedup(consumed)
    && (forall i :: 0 <= i < |batches| ==> 0 < |batches[i]| <= BATCH_SIZE)
  }

  /** What was ever queued: the seed, then the enqueued entries, all queueable, are the
      popped entries followed by the pending ones, and `total_urls` counts the seed and
      every enqueue. */
  ghost predicate HistoryInv(cfg: Config, site: map<Url, Outcome>, join: (Url, string) -> Url,
                             consumed: seq<Entry>, toCrawl: seq<Entry>, enqueued: seq<Entry>,
                             totalUrls: nat) {
    && [Seed(cfg)] + enqueued == consumed + toCrawl
    && (forall k :: 0 <= k < |enqueued| ==> Queueable(cfg, site, join, enqueued[k]))
    && totalUrls == 1 + |enqueued|
  }

  /** The entries queued by the pages of the batches, batch after batch; each batch is
      handled against the visited set of its own round, which holds the URLs of that
      batch and of every batch before it. */
  function RoundLinks(cfg: Config, site: map<Url, Outcome>, join: (Url, string) -> Url,
                      batches: seq<seq<Entry>>): seq<Entry>
    decreases |batches|
  {
    if batches == [] then []
    else RoundLinks(cfg, site, join, batches[..|batches| - 1])
         + BatchLinks(cfg, site, join, UrlSet(Flatten(batches)), batches[|batches| - 1])
  }

  /** Where every enqueued entry comes from: the links of the handled pages, batch by
      batch, in handling order; a crash cuts the last batch short after the page that
      crashed, and the pages after it queue nothing. */
  ghost predicate Provenance(cfg: Config, site: map<Url, Outcome>, join: (Url, string) -> Url,
                             batches: seq<seq<Entry>>, processed: seq<Entry>, enqueued: seq<Entry>,
                             crashed: bool) {
    if !crashed then enqueued == RoundLinks(cfg, site, join, batches)
    else
      && batches != []
      && |Flatten(batches[..|batches| - 1])| <= |processed|
      && enqueued == RoundLinks(cfg, site, join, batches[..|batches| - 1])
                     + BatchLinks(cfg, site, join, UrlSet(Flatten(batches)),
                                  processed[|Flatten(batches[..|batches| - 1])|..])
  }

  /** How the rounds cut `to_crawl`: `segments[i]` is what round `i` popped and `batches[i]`
      what that pop dispatched. Every round is cut as `LastCut` says of the last one. */
  ghost predicate Schedule(cfg: Config, site: map<Url, Outcome>, join: (Url, string) -> Url,
                           segments: seq<seq<Entry>>, batches: seq<seq<Entry>>) {
    && |segments| == |batches|
    && forall i :: 0 < i <= |batches| ==> LastCut(cfg, site, join, segments[..i], batches[..i])
  }

  /** The last round's pop: its batch is what it popped, deduplicated against the URLs
      popped before it; its last entry was popped while the batch still held fewer than
      `BATCH_SIZE` entries; and a short batch took every entry queued before the round
      (the start page and the links of the earlier batches). */
  ghost predicate LastCut(cfg: Config, site: map<Url, Outcome>, join: (Url, string) -> Url,
                          segs: seq<seq<Entry>>, bs: seq<seq<Entry>>)
    requires 0 < |segs| == |bs|
  {
    var n := |bs| - 1;
    var seen := UrlSet(Flatten(segs[..n]));
    var s := segs[n];
    && bs[n] == DedupFrom(seen, s)
    && s != [] && |DedupFrom(seen, s[..|s| - 1])| < BATCH_SIZE
    && (|bs[n]| < BATCH_SIZE ==> |Flatten(segs)| == 1 + |RoundLinks(cfg, site, join, bs[..n])|)
  }

  /** A round that dispatches a batch extends the schedule by its pop. */
  lemma ScheduleStep(cfg: Config, site: map<Url, Outcome>, join: (Url, string) -> Url,
                     segments: seq<seq<Entry>>, batches: seq<seq<Entry>>,
                     consumed: seq<Entry>, toCrawl: seq<Entry>, enqueued: seq<Entry>,
                     visited: set<Url>, taken: nat, batch: seq<Entry>)
    requires Schedule(cfg, site, join, segments, batches)
    requires consumed == Flatten(segments) && visited == UrlSet(consumed)
    requires [Seed(cfg)] + enqueued == consumed + toCrawl
    requires enqueued == RoundLinks(cfg, site, join, batches)
    requires taken <= |toCrawl| && batch == DedupFrom(visited, toCrawl[..taken]) && batch != []
    requires |batch| < BATCH_SIZE ==> taken == |toCrawl|
    requires 0 < taken ==> |DedupFrom(visited, toCrawl[..taken - 1])| < BATCH_SIZE
    ensures Schedule(cfg, site, join, segments + [toCrawl[..taken]], batches + [batch])
  {
    var pre := toCrawl[..taken];
    var segs, bs := segments + [pre], batches + [batch];
    var n := |segments|;
    NewCut(cfg, site, join, segments, batches, consumed, toCrawl, enqueued, visited, taken, batch);
    forall i | 0 < i <= n + 1 ensures LastCut(cfg, site, join, segs[..i], bs[..i]) {
      if i <= n {
        PrefixOfSnoc(segments, pre, i);
        PrefixOfSnoc(batches, batch, i);
      } else {
        assert segs[..i] == segs && bs[..i] == bs;
      }
    }
  }

  /** A start page `s` whose links are `a` and `b`: both fit in the second batch, so the pop
      of the second round takes them together. */
  lemma SourceRoundsMeetSchedule(cfg: Config, site: map<Url, Outcome>, join: (Url, string) -> Url,
                                 s: Entry, a: Entry, b: Entry)
    requires s.url != a.url && s.url != b.url && a.url != b.url
    requires RoundLinks(cfg, site, join, [[s]]) == [a, b]
    ensures Schedule(cfg, site, join, [[s], [a, b]], [[s], [a, b]])
  {
    var segs := [[s], [a, b]];
    assert segs[..1] == [[s]] && segs[..2] == segs;
    FirstCut(cfg, site, join, s);
    SecondCut(cfg, site, join, s, a, b);
    forall i | 0 < i <= |segs| ensures LastCut(cfg, site, join, segs[..i], segs[..i]) {
      assert i == 1 || i == 2;
    }
  }

  lemma FirstCut(cfg: Config, site: map<Url, Outcome>, join: (Url, string) -> Url, s: Entry)
    ensures LastCut(cfg, site, join, [[s]], [[s]])
  {
    assert [[s]][..0] == [] && [s][..0] == [];
    FlattenSnoc([], [s]);
    assert [] + [[s]] == [[s]] && [] + [s] == [s];
    var r0 := DedupFrom({}, []);
    assert r0 == [] && UrlSet(r0) == {};
    FreshLink({}, [], s);
  }

  lemma SecondCut(cfg: Config, site: map<Url, Outcome>, join: (Url, string) -> Url,
                  s: Entry, a: Entry, b: Entry)
    requires s.url != a.url && s.url != b.url && a.url != b.url
    requires RoundLinks(cfg, site, join, [[s]]) == [a, b]
    ensures LastCut(cfg, site, join, [[s], [a, b]], [[s], [a, b]])
  {
    var segs := [[s], [a, b]];
    assert segs[..1] == [[s]];
    assert Flatten([[s]]) == [s] by { assert [[s]][..0] == []; assert [] + [s] == [s]; }
    assert UrlSet([s]) == {s.url} by { assert [s][..0] == []; }
    TwoFreshLinks({s.url}, a, b);
    assert [a, b][..|[a, b]| - 1] == [a];
    FlattenSnoc([[s]], [a, b]);
    assert segs == [[s]] + [[a, b]];
    assert |Flatten(segs)| == 3;
  }

  /** Two links with distinct URLs, neither of them `seen`, are both dispatched. */
  lemma TwoFreshLinks(seen: set<Url>, a: Entry, b: Entry)
    requires a.url !in seen && b.url !in seen && a.url != b.url
    ensures DedupFrom(seen, [a]) == [a] && DedupFrom(seen, [a, b]) == [a, b]
  {
    var r0 := DedupFrom(seen, []);
    assert r0 == [] && UrlSet(r0) == {};
    FreshLink(seen, [], a);
    assert [] + [a] == [a];
    assert UrlSet([a]) == {a.url} by { assert [a][..0] == []; }
    FreshLink(seen, [a], b);
    assert [a] + [b] == [a, b];
  }

  /** A popped entry whose URL is new is dispatched. */
  lemma FreshLink(seen: set<Url>, p: seq<Entry>, e: Entry)
    requires e.url !in seen + UrlSet(DedupFrom(seen, p))
    ensures DedupFrom(seen, p + [e]) == DedupFrom(seen, p) + [e]
  {
    DedupFromSnoc(seen, p, e);
  }

  /** The same start page popped one URL per round: the second batch is short, yet the
      second pop left `b` queued, so the cut is not the source's. */
  lemma OneUrlRoundsViolateSchedule(cfg: Config, site: map<Url, Outcome>, join: (Url, string) -> Url,
                                    s: Entry, a: Entry, b: Entry)
    requires RoundLinks(cfg, site, join, [[s]]) == [a, b]
    ensures !Schedule(cfg, site, join, [[s], [a], [b]], [[s], [a], [b]])
  {
    var p := [[s], [a], [b]][..2];
    assert p == [[s], [a]] && p[..1] == [[s]];
    FlattenSnoc([], [s]);
    assert [] + [[s]] == [[s]];
    FlattenSnoc([[s]], [a]);
    assert [[s]] + [[a]] == p;
    assert |Flatten(p)| == 2 && |p[1]| < BATCH_SIZE;
    assert |RoundLinks(cfg, site, join, p[..1])| == 2;
    assert !LastCut(cfg, site, join, p, p);
  }

  /** One round of `Run` moves the schedule on: a round that dispatches a batch adds its
      pop as a segment, and a round that dispatches nothing popped only visited URLs and
      emptied `to_crawl`. */
  lemma ScheduleRound(cfg: Config, site: map<Url, Outcome>, join: (Url, string) -> Url,
                      segments: seq<seq<Entry>>, tail: seq<Entry>,
                      toCrawl0: seq<Entry>, visited0: set<Url>, consumed0: seq<Entry>,
                      batches0: seq<seq<Entry>>, processed0: seq<Entry>, enqueued0: seq<Entry>,
                      totalUrls0: nat, taken: nat, batch: seq<Entry>,
                      toCrawl: seq<Entry>, consumed: seq<Entry>, batches: seq<seq<Entry>>)
    returns (segments': seq<seq<Entry>>, tail': seq<Entry>)
    requires toCrawl0 != []
    requires Schedule(cfg, site, join, segments, batches0)
    requires consumed0 == Flatten(segments) + tail
    requires tail != [] ==> toCrawl0 == [] && DedupFrom(UrlSet(Flatten(segments)), tail) == []
    requires DispatchInv(visited0, consumed0, batches0)
    requires HistoryInv(cfg, site, join, consumed0, toCrawl0, enqueued0, totalUrls0)
    requires Provenance(cfg, site, join, batches0, processed0, enqueued0, false)
    requires taken <= |toCrawl0| && consumed == consumed0 + toCrawl0[..taken]
    requires batch == DedupFrom(visited0, toCrawl0[..taken])
    requires batch == [] ==> toCrawl == [] && batches == batches0
    requires batch != [] ==> batches == batches0 + [batch]
    requires |batch| < BATCH_SIZE ==> taken == |toCrawl0|
    requires 0 < taken ==> |DedupFrom(visited0, toCrawl0[..taken - 1])| < BATCH_SIZE
    ensures Schedule(cfg, site, join, segments', batches)
    ensures consumed == Flatten(segments') + tail'
    ensures tail' != [] ==> toCrawl == [] && DedupFrom(UrlSet(Flatten(segments')), tail') == []
  {
    var pre := toCrawl0[..taken];
    assert Flatten(segments) + [] == Flatten(segments);
    if batch != [] {
      ScheduleStep(cfg, site, join, segments, batches0, consumed0, toCrawl0, enqueued0, visited0, taken, batch);
      FlattenSnoc(segments, pre);
      segments', tail' := segments + [pre], [];
    } else {
      segments', tail' := segments, pre;
    }
  }

  lemma PrefixOfSnoc(s: seq<seq<Entry>>, x: seq<Entry>, i: nat)
    requires i <= |s|
    ensures (s + [x])[..i] == s[..i]
  {
  }

  /** The cut of the round just made. */
  lemma NewCut(cfg: Config, site: map<Url, Outcome>, join: (Url, string) -> Url,
               segments: seq<seq<Entry>>, batches: seq<seq<Entry>>,
               consumed: seq<Entry>, toCrawl: seq<Entry>, enqueued: seq<Entry>,
               visited: set<Url>, taken: nat, batch: seq<Entry>)
    requires |segments| == |batches|
    requires consumed == Flatten(segments) && visited == UrlSet(consumed)
    requires [Seed(cfg)] + enqueued == consumed + toCrawl
    requires enqueued == RoundLinks(cfg, site, join, batches)
    requires taken <= |toCrawl| && batch == DedupFrom(visited, toCrawl[..taken]) && batch != []
    requires |batch| < BATCH_SIZE ==> taken == |toCrawl|
    requires 0 < taken ==> |DedupFrom(visited, toCrawl[..taken - 1])| < BATCH_SIZE
    ensures LastCut(cfg, site, join, segments + [toCrawl[..taken]], batches + [batch])
  {
    var pre := toCrawl[..taken];
    var segs, bs := segments + [pre], batches + [batch];
    var n := |segments|;
    PrefixOfSnoc(segments, pre, n);
    PrefixOfSnoc(batches, batch, n);
    assert segments[..n] == segments && batches[..n] == batches;
    var seen := UrlSet(Flatten(segs[..n]));
    assert seen == visited;
    assert segs[n] == pre && bs[n] == batch;
    assert pre[..|pre| - 1] == toCrawl[..taken - 1];
    assert |DedupFrom(seen, segs[n][..|segs[n]| - 1])| < BATCH_SIZE;
    if |batch| < BATCH_SIZE {
      FlattenSnoc(segments, pre);
      assert |Flatten(segs)| == |consumed| + |toCrawl| == 1 + |enqueued|;
      assert RoundLinks(cfg, site, join, bs[..n]) == enqueued;
    }
  }


  /** The URLs of the dispatched batches are the visited ones. */
  lemma DispatchedUrls(visited: set<Url>, consumed: seq<Entry>, batches: seq<seq<Entry>>)
    requires DispatchInv(visited, consumed, batches)
    ensures UrlSet(Flatten(batches)) == visited
  {
    assert UrlSet(consumed) - {} == UrlSet(consumed);
  }

  /** A handled batch appends its links to those of the batches before it. */
  lemma ProvenanceStep(cfg: Config, site: map<Url, Outcome>, join: (Url, string) -> Url,
                       batches: seq<seq<Entry>>, processed: seq<Entry>, enqueued: seq<Entry>,
                       batch: seq<Entry>, done: nat, crashed: bool, visited: set<Url>)
    requires enqueued == RoundLinks(cfg, site, join, batches)
    requires processed == Flatten(batches)
    requires visited == UrlSet(Flatten(batches + [batch]))
    requires done <= |batch| && (!crashed ==> done == |batch|)
    ensures Provenance(cfg, site, join, batches + [batch], processed + batch[..done],
                       enqueued + BatchLinks(cfg, site, join, visited, batch[..done]), crashed)
  {
    var bs := batches + [batch];
    assert bs[..|bs| - 1] == batches;
    if crashed {
      assert (processed + batch[..done])[|processed|..] == batch[..done];
    } else {
      assert batch[..done] == batch;
    }
  }

  /** The pages handled are the dispatched ones, all of them unless the run crashed. */
  ghost predicate ProcessedInv(processed: seq<Entry>, batches: seq<seq<Entry>>, crashed: bool) {
    && processed <= Flatten(batches)
    && (!crashed ==> processed == Flatten(batches))
  }

  /** A run that crashed stopped right after the page that crashed it. */
  predicate CrashInv(cfg: Config, site: map<Url, Outcome>, processed: seq<Entry>, crashed: bool) {
    crashed ==> processed != [] && Crashes(cfg, site, processed[|processed| - 1])
  }

  /** Every popped or pending entry is the seed or queueable. */
  lemma HistoryCrawlable(cfg: Config, site: map<Url, Outcome>, join: (Url, string) -> Url,
                         consumed: seq<Entry>, toCrawl: seq<Entry>, enqueued: seq<Entry>, totalUrls: nat)
    requires HistoryInv(cfg, site, join, consumed, toCrawl, enqueued, totalUrls)
    ensures forall k :: 0 <= k < |consumed + toCrawl| ==> Crawlable(cfg, site, join, (consumed + toCrawl)[k])
  {
    var all := [Seed(cfg)] + enqueued;
    forall k | 0 <= k < |consumed + toCrawl| ensures Crawlable(cfg, site, join, (consumed + toCrawl)[k]) {
      if k > 0 {
        assert all[k] == enqueued[k - 1];
      }
    }
  }

  /** The entries of a dispatched list came from the popped ones. */
  lemma DedupCrawlable(cfg: Config, site: map<Url, Outcome>, join: (Url, string) -> Url,
                       seen: set<Url>, s: seq<Entry>)
    requires forall k :: 0 <= k < |s| ==> Crawlable(cfg, site, join, s[k])
    ensures forall k :: 0 <= k < |DedupFrom(seen, s)| ==>
      Crawlable(cfg, site, join, DedupFrom(seen, s)[k]) && DedupFrom(seen, s)[k].url !in seen
  {
    DedupFromMembers(seen, s);
  }

  /** One round of popping keeps what is visited or pending the same. */
  lemma PopKnown(visited: set<Url>, toCrawl: seq<Entry>, taken: nat, batch: seq<Entry>,
                 rest: seq<Entry>, visited': set<Url>)
    requires taken <= |toCrawl| && rest == toCrawl[taken..]
    requires batch == DedupFrom(visited, toCrawl[..taken])
    requires visited' == visited + UrlSet(batch)
    ensures visited + UrlSet(toCrawl) == visited' + UrlSet(rest)
    ensures visited + UrlSet(toCrawl[..taken]) == visited'
  {
    assert toCrawl == toCrawl[..taken] + rest;
    UrlSetAppend(toCrawl[..taken], rest);
  }

  /** The dispatch account after one round of popping: a non-empty batch is appended to
      the batches. */
  lemma DispatchStep(visited: set<Url>, consumed: seq<Entry>, batches: seq<seq<Entry>>,
                     pre: seq<Entry>, batch: seq<Entry>, visited': set<Url>)
    requires DispatchInv(visited, consumed, batches)
    requires batch == DedupFrom(visited, pre) && |batch| <= BATCH_SIZE
    requires visited' == visited + UrlSet(pre)
    ensures DispatchInv(visited', consumed + pre, if batch == [] then batches else batches + [batch])
  {
    DedupFromConcat({}, consumed, pre);
    assert {} + UrlSet(consumed) == visited;
    assert Dedup(consumed + pre) == Flatten(batches) + batch;
    UrlSetAppend(consumed, pre);
    if batch == [] {
      assert Flatten(batches) + [] == Flatten(batches);
    } else {
      FlattenSnoc(batches, batch);
      var bs := batches + [batch];
      forall i | 0 <= i < |bs| ensures 0 < |bs[i]| <= BATCH_SIZE {
        if i < |batches| {
          assert bs[i] == batches[i];
        }
      }
    }
  }

  /** The history after one round: the popped prefix moves from the pending list to the
      popped list and the links found by the batch are appended. */
  lemma HistoryStep(cfg: Config, site: map<Url, Outcome>, join: (Url, string) -> Url,
                    consumed: seq<Entry>, toCrawl: seq<Entry>, enqueued: seq<Entry>, totalUrls: nat,
                    taken: nat, rest: seq<Entry>, added: seq<Entry>, totalUrls': nat)
    requires HistoryInv(cfg, site, join, consumed, toCrawl, enqueued, totalUrls)
    requires taken <= |toCrawl| && rest == toCrawl[taken..]
    requires forall k :: 0 <= k < |added| ==> Queueable(cfg, site, join, added[k])
    requires totalUrls' == totalUrls + |added|
    ensures HistoryInv(cfg, site, join, consumed + toCrawl[..taken], rest + added, enqueued + added, totalUrls')
  {
    assert toCrawl == toCrawl[..taken] + rest;
    QueueAssoc(consumed, toCrawl[..taken], rest);
    QueueAssoc([Seed(cfg)], enqueued, added);
    QueueAssoc(consumed + toCrawl[..taken], rest, added);
    QueueAssoc(consumed, toCrawl, added);
  }

  /** The pages handled after one batch. */
  lemma ProcessedStep(processed: seq<Entry>, batches: seq<seq<Entry>>, batch: seq<Entry>,
                      done: nat, crashed: bool)
    requires ProcessedInv(processed, batches, false)
    requires done <= |batch| && (!crashed ==> done == |batch|)
    ensures ProcessedInv(processed + batch[..done], batches + [batch], crashed)
  {
    FlattenSnoc(batches, batch);
    assert batch == batch[..done] + batch[done..];
    QueueAssoc(processed, batch[..done], batch[done..]);
  }

  lemma LastOfPrefix(processed: seq<Entry>, batch: seq<Entry>, done: nat)
    requires 0 < done <= |batch|
    ensures (processed + batch[..done])[|processed + batch[..done]| - 1] == batch[done - 1]
  {
  }

  /** A round that pops a non-empty batch visits one more reachable URL. */
  lemma VisitShrinks(cfg: Config, site: map<Url, Outcome>, join: (Url, string) -> Url,
                     visited: set<Url>, batch: seq<Entry>, visited': set<Url>)
    requires visited <= Reachable(cfg, site, join)
    requires forall k :: 0 <= k < |batch| ==> Crawlable(cfg, site, join, batch[k]) && batch[k].url !in visited
    requires visited' == visited + UrlSet(batch)
    ensures visited' <= Reachable(cfg, site, join)
    ensures batch != [] ==> Reachable(cfg, site, join) - visited' < Reachable(cfg, site, join) - visited
  {
    UrlSetWithin(batch, Reachable(cfg, site, join));
    if batch != [] {
      UrlSetMembers(batch, batch[0].url);
    }
  }

  /** The account of the handled pages does not depend on how the known URLs are split
      between `visited` and the pending list. */
  lemma AccountedRebase(cfg: Config, site: map<Url, Outcome>, join: (Url, string) -> Url,
                        visited: set<Url>, fs0: map<string, string>, handled: seq<Entry>,
                        queue: seq<Entry>, fs: map<string, string>, content: seq<string>,
                        processedUrls: nat, successUrls: nat, failedUrls: nat,
                        visited': set<Url>, queue': seq<Entry>)
    requires Accounted(cfg, site, join, visited, fs0, handled, queue, fs, content,
                       processedUrls, successUrls, failedUrls)
    requires visited + UrlSet(queue) <= visited' + UrlSet(queue')
    ensures Accounted(cfg, site, join, visited', fs0, handled, queue', fs, content,
                      processedUrls, successUrls, failedUrls)
  {
    LinksKnownGrows(cfg, site, join, handled, visited + UrlSet(queue), visited' + UrlSet(queue'));
  }

  /** No page is handled twice, and the handled pages are the visited URLs unless the run
      crashed in the middle of a batch. */
  lemma ProcessedDistinct(processed: seq<Entry>, visited: set<Url>, consumed: seq<Entry>,
                          batches: seq<seq<Entry>>, crashed: bool)
    requires DispatchInv(visited, consumed, batches) && ProcessedInv(processed, batches, crashed)
    ensures NoDupUrls(processed)
    ensures UrlSet(processed) <= visited
    ensures !crashed ==> UrlSet(processed) == visited
  {
    var all := Flatten(batches);
    assert UrlSet(all) == visited by {
      assert UrlSet(consumed) - {} == UrlSet(consumed);
    }
    assert forall k :: 0 <= k < |processed| ==> processed[k] == all[k];
    if all != [] {
      UrlSetMembers(all, all[0].url);
    }
    UrlSetWithin(processed, visited);
  }

  /** Every handled page is the start page or a queueable entry: in scope, reachable, and
      at a depth from one to the limit. */
  lemma ProcessedCrawlable(cfg: Config, site: map<Url, Outcome>, join: (Url, string) -> Url,
                           processed: seq<Entry>, visited: set<Url>, consumed: seq<Entry>,
                           batches: seq<seq<Entry>>, crashed: bool,
                           pending: seq<Entry>, enqueued: seq<Entry>, totalUrls: nat)
    requires DispatchInv(visited, consumed, batches) && ProcessedInv(processed, batches, crashed)
    requires HistoryInv(cfg, site, join, consumed, pending, enqueued, totalUrls)
    ensures forall k :: 0 <= k < |processed| ==> Crawlable(cfg, site, join, processed[k])
  {
    HistoryCrawlable(cfg, site, join, consumed, pending, enqueued, totalUrls);
    assert forall k :: 0 <= k < |consumed| ==> consumed[k] == (consumed + pending)[k];
    DedupCrawlable(cfg, site, join, {}, consumed);
    assert forall k :: 0 <= k < |processed| ==> processed[k] == Flatten(batches)[k];
  }

  /** With a depth limit of zero or less nothing is ever queued, so only the start page
      is fetched. */
  lemma ShallowCrawl(cfg: Config, site: map<Url, Outcome>, join: (Url, string) -> Url, processed: seq<Entry>)
    requires cfg.maxDepth <= 0
    requires forall k :: 0 <= k < |processed| ==> Crawlable(cfg, site, join, processed[k])
    requires NoDupUrls(processed)
    ensures |processed| <= 1
    ensures forall k :: 0 <= k < |processed| ==> processed[k] == Seed(cfg)
  {
    assert |processed| > 1 ==> processed[0].url == processed[1].url;
  }

  /** The account of a finished crawl, one fact at a time. */
  lemma AccountedFacts(cfg: Config, site: map<Url, Outcome>, join: (Url, string) -> Url,
                       visited: set<Url>, fs0: map<string, string>, handled: seq<Entry>,
                       fs: map<string, string>, content: seq<string>,
                       processedUrls: nat, successUrls: nat, failedUrls: nat)
    requires Accounted(cfg, site, join, visited, fs0, handled, [], fs, content,
                       processedUrls, successUrls, failedUrls)
    ensures fs == FilesOf(cfg, site, fs0, handled) && content == ContentOf(cfg, site, handled)
    ensures processedUrls == |handled| && successUrls == |Successful(site, handled)|
    ensures processedUrls == successUrls + failedUrls
    ensures forall j :: 0 <= j < |handled| ==> LinksKnown(cfg, site, join, handled[j], visited)
  {
    assert visited + UrlSet([]) == visited;
  }

  /** Nothing is accounted before the first page. */
  lemma AccountedStart(cfg: Config, site: map<Url, Outcome>, join: (Url, string) -> Url, fs0: map<string, string>)
    ensures Accounted(cfg, site, join, {}, fs0, [], [Seed(cfg)], fs0, [], 0, 0, 0)
  {
  }

  /** `crawl_all_docs`: the breadth-first crawl from the start URL, batch by batch, then
      the combined file or the index when the run did not crash. */
  method Run(cfg: Config, site: map<Url, Outcome>, join: (Url, string) -> Url, fs0: map<string, string>)
    returns (files: map<string, string>, visited: set<Url>, crashed: bool, stats: CrawlStats,
             ghost consumed: seq<Entry>, ghost batches: seq<seq<Entry>>, ghost processed: seq<Entry>,
             ghost enqueued: seq<Entry>, ghost pending: seq<Entry>, order: seq<Url>,
             ghost segments: seq<seq<Entry>>, ghost tail: seq<Entry>)
    ensures fresh(stats)
    ensures DispatchInv(visited, consumed, batches)
    ensures Schedule(cfg, site, join, segments, batches)
    ensures consumed == Flatten(segments) + tail
    ensures tail != [] ==> pending == [] && DedupFrom(UrlSet(Flatten(segments)), tail) == []
    ensures HistoryInv(cfg, site, join, consumed, pending, enqueued, stats.totalUrls)
    ensures !crashed ==> pending == []
    ensures ProcessedInv(processed, batches, crashed)
    ensures Provenance(cfg, site, join, batches, processed, enqueued, crashed)
    ensures NoDupUrls(processed) && UrlSet(processed) <= visited
    ensures !crashed ==> UrlSet(processed) == visited
    ensures forall k :: 0 <= k < |processed| ==> Crawlable(cfg, site, join, processed[k])
    ensures CrashInv(cfg, site, processed, crashed)
    ensures stats.processedUrls == |processed| && stats.successUrls == |Successful(site, processed)|
    ensures stats.Balanced()
    ensures !crashed ==> forall j :: 0 <= j < |processed| ==> LinksKnown(cfg, site, join, processed[j], visited)
    ensures crashed ==> files == FilesOf(cfg, site, fs0, processed)
    ensures !crashed && cfg.finalFile == NoFinalFile ==> files == FilesOf(cfg, site, fs0, processed)
    ensures !crashed && cfg.finalFile == CombinedFile ==>
      files == FilesOf(cfg, site, fs0, processed)[IndexPath(cfg.layout) := Concat(ContentOf(cfg, site, processed))]
    ensures !crashed && cfg.finalFile == IndexOfVisited ==>
      files == FilesOf(cfg, site, fs0, processed)[IndexPath(cfg.layout) := IndexDocument(order)]
      && Enumerates(order, visited)
  {
    visited := {};
    var toCrawl := [Seed(cfg)];
    stats := new CrawlStats();
    stats.AddUrl();
    var fs, content := fs0, [];
    crashed := false;
    consumed, batches, processed, enqueued, order := [], [], [], [], [];
    segments, tail := [], [];
    AccountedStart(cfg, site, join, fs0);
    while toCrawl != [] && !crashed
      invariant DispatchInv(visited, consumed, batches)
      invariant Schedule(cfg, site, join, segments, batches)
      invariant consumed == Flatten(segments) + tail
      invariant tail != [] ==> toCrawl == [] && DedupFrom(UrlSet(Flatten(segments)), tail) == []
      invariant HistoryInv(cfg, site, join, consumed, toCrawl, enqueued, stats.totalUrls)
      invariant ProcessedInv(processed, batches, crashed)
      invariant Provenance(cfg, site, join, batches, processed, enqueued, crashed)
      invariant CrashInv(cfg, site, processed, crashed)
      invariant visited <= Reachable(cfg, site, join)
      invariant Accounted(cfg, site, join, visited, fs0, processed, toCrawl, fs, content,
                          stats.processedUrls, stats.successUrls, stats.failedUrls)
      decreases Reachable(cfg, site, join) - visited, |toCrawl|
    {
      ghost var batch, taken, done, added;
      ghost var toCrawl0, visited0, consumed0, batches0, processed0, enqueued0, totalUrls0 :=
        toCrawl, visited, consumed, batches, processed, enqueued, stats.totalUrls;
      toCrawl, visited, fs, content, crashed, consumed, batches, processed, enqueued, batch, taken, done, added :=
        Round(cfg, site, join, fs0, toCrawl, visited, fs, content, stats, consumed, batches, processed, enqueued);
      segments, tail := ScheduleRound(cfg, site, join, segments, tail, toCrawl0, visited0, consumed0, batches0,
                                      processed0, enqueued0, totalUrls0, taken, batch, toCrawl, consumed, batches);
    }
    pending := toCrawl;
    ProcessedDistinct(processed, visited, consumed, batches, crashed);
    ProcessedCrawlable(cfg, site, join, processed, visited, consumed, batches, crashed,
                       pending, enqueued, stats.totalUrls);
    files := fs;
    if !crashed {
      AccountedFacts(cfg, site, join, visited, fs0, processed, fs, content,
                     stats.processedUrls, stats.successUrls, stats.failedUrls);
      files, order := WriteFinal(cfg, fs, content, visited);
    }
  }

  /** The end of `crawl_all_docs`: the collected sections as `index.md`, or an `index.md`
      with one link line per visited URL, or nothing. */
  method WriteFinal(cfg: Config, fs: map<string, string>, content: seq<string>, visited: set<Url>)
    returns (files: map<string, string>, order: seq<Url>)
    ensures cfg.finalFile == NoFinalFile ==> files == fs
    ensures cfg.finalFile == CombinedFile ==> files == fs[IndexPath(cfg.layout) := Concat(content)]
    ensures cfg.finalFile == IndexOfVisited ==>
      files == fs[IndexPath(cfg.layout) := IndexDocument(order)] && Enumerates(order, visited)
  {
    files, order := fs, [];
    match cfg.finalFile
    case NoFinalFile =>
    case CombinedFile =>
      files := files[IndexPath(cfg.layout) := Concat(content)];
    case IndexOfVisited =>
      var doc;
      doc, order := BuildIndex(visited);
      files := files[IndexPath(cfg.layout) := doc];
  }

  /** What one round of popping keeps: the dispatch account, the reachable visited set,
      and the account of the handled pages; a non-empty batch visits a new URL. */
  lemma AfterPop(cfg: Config, site: map<Url, Outcome>, join: (Url, string) -> Url, fs0: map<string, string>,
                 toCrawl: seq<Entry>, visited: set<Url>, fs: map<string, string>, content: seq<string>,
                 consumed: seq<Entry>, batches: seq<seq<Entry>>, processed: seq<Entry>, enqueued: seq<Entry>,
                 processedUrls: nat, successUrls: nat, failedUrls: nat, totalUrls: nat,
                 batch: seq<Entry>, rest: seq<Entry>, visited': set<Url>, taken: nat)
    requires DispatchInv(visited, consumed, batches)
    requires HistoryInv(cfg, site, join, consumed, toCrawl, enqueued, totalUrls)
    requires visited <= Reachable(cfg, site, join)
    requires Accounted(cfg, site, join, visited, fs0, processed, toCrawl, fs, content,
                       processedUrls, successUrls, failedUrls)
    requires taken <= |toCrawl| && rest == toCrawl[taken..]
    requires batch == DedupFrom(visited, toCrawl[..taken]) && |batch| <= BATCH_SIZE
    requires visited' == visited + UrlSet(batch)
    ensures DispatchInv(visited', consumed + toCrawl[..taken], if batch == [] then batches else batches + [batch])
    ensures visited' <= Reachable(cfg, site, join)
    ensures batch != [] ==> Reachable(cfg, site, join) - visited' < Reachable(cfg, site, join) - visited
    ensures batch == [] ==> visited' == visited
    ensures Accounted(cfg, site, join, visited', fs0, processed, rest, fs, content,
                      processedUrls, successUrls, failedUrls)
  {
    var pre := toCrawl[..taken];
    HistoryCrawlable(cfg, site, join, consumed, toCrawl, enqueued, totalUrls);
    assert forall k :: 0 <= k < |pre| ==> pre[k] == (consumed + toCrawl)[|consumed| + k];
    DedupCrawlable(cfg, site, join, visited, pre);
    PopKnown(visited, toCrawl, taken, batch, rest, visited');
    DispatchStep(visited, consumed, batches, pre, batch, visited');
    VisitShrinks(cfg, site, join, visited, batch, visited');
    AccountedRebase(cfg, site, join, visited, fs0, processed, toCrawl, fs, content,
                    processedUrls, successUrls, failedUrls, visited', rest);
  }

  /** A round that pops an empty batch moves the popped entries to the popped list and
      queues nothing. */
  lemma EmptyRound(cfg: Config, site: map<Url, Outcome>, join: (Url, string) -> Url,
                   consumed: seq<Entry>, toCrawl: seq<Entry>, enqueued: seq<Entry>, totalUrls: nat,
                   taken: nat, rest: seq<Entry>)
    requires HistoryInv(cfg, site, join, consumed, toCrawl, enqueued, totalUrls)
    requires taken <= |toCrawl| && rest == toCrawl[taken..]
    ensures HistoryInv(cfg, site, join, consumed + toCrawl[..taken], rest, enqueued, totalUrls)
  {
    HistoryStep(cfg, site, join, consumed, toCrawl, enqueued, totalUrls, taken, rest, [], totalUrls);
    assert rest + [] == rest && enqueued + [] == enqueued;
  }

  /** The second half of a round with a non-empty batch: handle its results, then carry
      every account of the run over to the round's end. */
  method HandleBatch(cfg: Config, site: map<Url, Outcome>, join: (Url, string) -> Url, ghost fs0: map<string, string>,
                     ghost toCrawl: seq<Entry>, visited: set<Url>, batch: seq<Entry>, rest: seq<Entry>,
                     ghost taken: nat, fs: map<string, string>, content: seq<string>, stats: CrawlStats,
                     ghost consumed: seq<Entry>, ghost batches: seq<seq<Entry>>,
                     ghost processed: seq<Entry>, ghost enqueued: seq<Entry>)
    returns (toCrawl': seq<Entry>, fs': map<string, string>, content': seq<string>, crashed: bool,
             done: nat, ghost added: seq<Entry>)
    modifies stats
    requires taken <= |toCrawl| && rest == toCrawl[taken..]
    requires HistoryInv(cfg, site, join, consumed, toCrawl, enqueued, stats.totalUrls)
    requires DispatchInv(visited, consumed + toCrawl[..taken], batches + [batch])
    requires ProcessedInv(processed, batches, false)
    requires Provenance(cfg, site, join, batches, processed, enqueued, false)
    requires Accounted(cfg, site, join, visited, fs0, processed, rest, fs, content,
                       stats.processedUrls, stats.successUrls, stats.failedUrls)
    ensures done <= |batch| && (!crashed ==> done == |batch|)
    ensures added == BatchLinks(cfg, site, join, visited, batch[..done])
    ensures toCrawl' == rest + added
    ensures HistoryInv(cfg, site, join, consumed + toCrawl[..taken], toCrawl', enqueued + added, stats.totalUrls)
    ensures ProcessedInv(processed + batch[..done], batches + [batch], crashed)
    ensures Provenance(cfg, site, join, batches + [batch], processed + batch[..done], enqueued + added, crashed)
    ensures CrashInv(cfg, site, processed + batch[..done], crashed)
    ensures Accounted(cfg, site, join, visited, fs0, processed + batch[..done], toCrawl', fs', content',
                      stats.processedUrls, stats.successUrls, stats.failedUrls)
  {
    ghost var t := stats.totalUrls;
    toCrawl', fs', content', crashed, done, added :=
      ProcessBatch(cfg, site, join, visited, batch, rest, fs, content, stats, fs0, processed);
    HistoryStep(cfg, site, join, consumed, toCrawl, enqueued, t, taken, rest, added, stats.totalUrls);
    ProcessedStep(processed, batches, batch, done, crashed);
    DispatchedUrls(visited, consumed + toCrawl[..taken], batches + [batch]);
    ProvenanceStep(cfg, site, join, batches, processed, enqueued, batch, done, crashed, visited);
    if crashed {
      LastOfPrefix(processed, batch, done);
    }
  }

  /** The rest of a round once the batch is popped: an empty batch ends the loop, a
      non-empty one is handled and appended to the batches. */
  method Advance(cfg: Config, site: map<Url, Outcome>, join: (Url, string) -> Url, ghost fs0: map<string, string>,
                 ghost toCrawl: seq<Entry>, visited: set<Url>, batch: seq<Entry>, rest: seq<Entry>,
                 ghost taken: nat, fs: map<string, string>, content: seq<string>, stats: CrawlStats,
                 ghost consumed: seq<Entry>, ghost batches: seq<seq<Entry>>,
                 ghost processed: seq<Entry>, ghost enqueued: seq<Entry>)
    returns (toCrawl': seq<Entry>, fs': map<string, string>, content': seq<string>, crashed: bool,
             ghost consumed': seq<Entry>, ghost batches': seq<seq<Entry>>,
             ghost processed': seq<Entry>, ghost enqueued': seq<Entry>, ghost done: nat, ghost added: seq<Entry>)
    modifies stats
    requires taken <= |toCrawl| && rest == toCrawl[taken..]
    requires |batch| < BATCH_SIZE ==> rest == []
    requires HistoryInv(cfg, site, join, consumed, toCrawl, enqueued, stats.totalUrls)
    requires DispatchInv(visited, consumed + toCrawl[..taken], if batch == [] then batches else batches + [batch])
    requires ProcessedInv(processed, batches, false)
    requires Provenance(cfg, site, join, batches, processed, enqueued, false)
    requires Accounted(cfg, site, join, visited, fs0, processed, rest, fs, content,
                       stats.processedUrls, stats.successUrls, stats.failedUrls)
    ensures consumed' == consumed + toCrawl[..taken]
    ensures DispatchInv(visited, consumed', batches')
    ensures HistoryInv(cfg, site, join, consumed', toCrawl', enqueued', stats.totalUrls)
    ensures ProcessedInv(processed', batches', crashed)
    ensures CrashInv(cfg, site, processed', crashed)
    ensures Provenance(cfg, site, join, batches', processed', enqueued', crashed)
    ensures Accounted(cfg, site, join, visited, fs0, processed', toCrawl', fs', content',
                      stats.processedUrls, stats.successUrls, stats.failedUrls)
    ensures batch == [] ==>
      && !crashed && toCrawl' == [] && fs' == fs && content' == content
      && batches' == batches && processed' == processed && enqueued' == enqueued
    ensures batch != [] ==>
      && batches' == batches + [batch]
      && done <= |batch| && (!crashed ==> done == |batch|) && processed' == processed + batch[..done]
      && added == BatchLinks(cfg, site, join, visited, batch[..done])
      && enqueued' == enqueued + added && toCrawl' == rest + added
  {
    consumed' := consumed + toCrawl[..taken];
    if batch == [] {
      // `if not batch: break`: every pending entry was popped, so the loop ends here.
      EmptyRound(cfg, site, join, consumed, toCrawl, enqueued, stats.totalUrls, taken, rest);
      toCrawl', fs', content', crashed := rest, fs, content, false;
      batches', processed', enqueued', done, added := batches, processed, enqueued, 0, [];
    } else {
      var d;
      toCrawl', fs', content', crashed, d, added :=
        HandleBatch(cfg, site, join, fs0, toCrawl, visited, batch, rest, taken, fs, content, stats,
                    consumed, batches, processed, enqueued);
      done := d;
      batches', processed', enqueued' := batches + [batch], processed + batch[..done], enqueued + added;
    }
  }

  /** One round of the crawl loop: pop the next batch; an empty one ends the loop, a
      non-empty one is fetched and its results are handled. */
  method Round(cfg: Config, site: map<Url, Outcome>, join: (Url, string) -> Url, ghost fs0: map<string, string>,
               toCrawl: seq<Entry>, visited: set<Url>, fs: map<string, string>, content: seq<string>,
               stats: CrawlStats, ghost consumed: seq<Entry>, ghost batches: seq<seq<Entry>>,
               ghost processed: seq<Entry>, ghost enqueued: seq<Entry>)
    returns (toCrawl': seq<Entry>, visited': set<Url>, fs': map<string, string>, content': seq<string>,
             crashed: bool, ghost consumed': seq<Entry>, ghost batches': seq<seq<Entry>>,
             ghost processed': seq<Entry>, ghost enqueued': seq<Entry>,
             batch: seq<Entry>, ghost taken: nat, ghost done: nat, ghost added: seq<Entry>)
    modifies stats
    requires toCrawl != []
    requires DispatchInv(visited, consumed, batches)
    requires HistoryInv(cfg, site, join, consumed, toCrawl, enqueued, stats.totalUrls)
    requires ProcessedInv(processed, batches, false)
    requires Provenance(cfg, site, join, batches, processed, enqueued, false)
    requires visited <= Reachable(cfg, site, join)
    requires Accounted(cfg, site, join, visited, fs0, processed, toCrawl, fs, content,
                       stats.processedUrls, stats.successUrls, stats.failedUrls)
    ensures DispatchInv(visited', consumed', batches')
    ensures HistoryInv(cfg, site, join, consumed', toCrawl', enqueued', stats.totalUrls)
    ensures ProcessedInv(processed', batches', crashed)
    ensures CrashInv(cfg, site, processed', crashed)
    ensures visited' <= Reachable(cfg, site, join)
    ensures Accounted(cfg, site, join, visited', fs0, processed', toCrawl', fs', content',
                      stats.processedUrls, stats.successUrls, stats.failedUrls)
    ensures Reachable(cfg, site, join) - visited' < Reachable(cfg, site, join) - visited
         || (Reachable(cfg, site, join) - visited' == Reachable(cfg, site, join) - visited && |toCrawl'| < |toCrawl|)
    ensures taken <= |toCrawl| && consumed' == consumed + toCrawl[..taken]
    ensures batch == DedupFrom(visited, toCrawl[..taken]) && visited' == visited + UrlSet(batch)
    ensures batch == [] ==>
      && !crashed && toCrawl' == [] && fs' == fs && content' == content
      && batches' == batches && processed' == processed && enqueued' == enqueued
    ensures batch != [] ==>
      && batches' == batches + [batch]
      && done <= |batch| && (!crashed ==> done == |batch|) && processed' == processed + batch[..done]
      && added == BatchLinks(cfg, site, join, visited', batch[..done])
      && enqueued' == enqueued + added && toCrawl' == toCrawl[taken..] + added
    ensures Provenance(cfg, site, join, batches', processed', enqueued', crashed)
    ensures |batch| < BATCH_SIZE ==> taken == |toCrawl|
    ensures 0 < taken ==> |DedupFrom(visited, toCrawl[..taken - 1])| < BATCH_SIZE
  {
    var rest;
    batch, rest, visited', taken := NextBatch(toCrawl, visited);
    AfterPop(cfg, site, join, fs0, toCrawl, visited, fs, content, consumed, batches, processed, enqueued,
             stats.processedUrls, stats.successUrls, stats.failedUrls, stats.totalUrls,
             batch, rest, visited', taken);
    toCrawl', fs', content', crashed, consumed', batches', processed', enqueued', done, added :=
      Advance(cfg, site, join, fs0, toCrawl, visited', batch, rest, taken, fs, content, stats,
              consumed, batches, processed, enqueued);
  }

}
