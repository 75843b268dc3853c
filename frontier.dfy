/** The crawl frontier: the FIFO list `to_crawl` of `(url, depth)` entries, the
    `visited` set, batch formation and link discovery. */
module Frontier {
  import opened Urls
  import opened Stats

  /** One `(url, depth)` item of `to_crawl`. */
  datatype Entry = Entry(url: Url, depth: nat)

  /** At most this many URLs are handed to the fetch service per round. */
  const BATCH_SIZE: nat := 5

  /** The URLs of a list of entries. */
  function UrlSet(es: seq<Entry>): set<Url>
    decreases |es|
  {
    if es == [] then {} else UrlSet(es[..|es| - 1]) + {es[|es| - 1].url}
  }

  /** `UrlSet` holds the URL of every entry, and nothing that no entry carries. */
  lemma {:induction false} UrlSetMembers(es: seq<Entry>, u: Url)
    ensures forall i :: 0 <= i < |es| ==> es[i].url in UrlSet(es)
    ensures (forall i :: 0 <= i < |es| ==> es[i].url != u) ==> u !in UrlSet(es)
    decreases |es|
  {
    if es != [] {
      var p := es[..|es| - 1];
      UrlSetMembers(p, u);
      assert forall i :: 0 <= i < |p| ==> p[i] == es[i];
    }
  }

  lemma {:induction false} UrlSetAppend(a: seq<Entry>, b: seq<Entry>)
    ensures UrlSet(a + b) == UrlSet(a) + UrlSet(b)
    decreases |b|
  {
    if b == [] {
      assert a + b == a;
    } else {
      var b' := b[..|b| - 1];
      assert (a + b)[..|a + b| - 1] == a + b';
      UrlSetAppend(a, b');
    }
  }

  /** No URL occurs twice. */
  predicate NoDupUrls(es: seq<Entry>) {
    forall i, j :: 0 <= i < j < |es| ==> es[i].url != es[j].url
  }

  /** The batches of a run, one after the other. */
  function Flatten(bs: seq<seq<Entry>>): seq<Entry>
    decreases |bs|
  {
    if bs == [] then [] else Flatten(bs[..|bs| - 1]) + bs[|bs| - 1]
  }

  /** The entries of `s` that are dispatched when `s` is popped in order against the
      visited set `seen`: an entry is kept when its URL is neither in `seen` nor in an
      entry kept before it. */
  function DedupFrom(seen: set<Url>, s: seq<Entry>): (r: seq<Entry>)
    ensures |r| <= |s|
    ensures UrlSet(r) == UrlSet(s) - seen
    ensures NoDupUrls(r)
    decreases |s|
  {
    if s == [] then []
    else
      var p := s[..|s| - 1];
      var e := s[|s| - 1];
      var r := DedupFrom(seen, p);
      assert s == p + [e];
      if e.url in seen || e.url in UrlSet(r) then r
      else
        UrlSetMembers(r, e.url);
        assert (r + [e])[..|r|] == r;
        r + [e]
  }

  /** Popping one more entry dispatches it exactly when its URL is neither visited nor
      already dispatched. */
  lemma DedupFromSnoc(seen: set<Url>, p: seq<Entry>, e: Entry)
    ensures DedupFrom(seen, p + [e]) ==
      if e.url in seen + UrlSet(DedupFrom(seen, p)) then DedupFrom(seen, p)
      else DedupFrom(seen, p) + [e]
  {
    assert (p + [e])[..|p|] == p;
  }

  /** Every dispatched entry is one of `s`, and none carries a URL of `seen`. */
  lemma {:induction false} DedupFromMembers(seen: set<Url>, s: seq<Entry>)
    ensures forall k :: 0 <= k < |DedupFrom(seen, s)| ==>
      DedupFrom(seen, s)[k] in s && DedupFrom(seen, s)[k].url !in seen
    decreases |s|
  {
    if s != [] {
      var p := s[..|s| - 1];
      DedupFromMembers(seen, p);
      assert forall k :: 0 <= k < |p| ==> p[k] in s;
    }
  }

  /** The URLs of a list lie in a set when each entry's URL does. */
  lemma {:induction false} UrlSetWithin(es: seq<Entry>, bound: set<Url>)
    requires forall k :: 0 <= k < |es| ==> es[k].url in bound
    ensures UrlSet(es) <= bound
    decreases |es|
  {
    if es != [] {
      UrlSetWithin(es[..|es| - 1], bound);
    }
  }

  lemma FlattenSnoc(bs: seq<seq<Entry>>, b: seq<Entry>)
    ensures Flatten(bs + [b]) == Flatten(bs) + b
  {
    assert (bs + [b])[..|bs|] == bs;
  }

  /** What is dispatched from a list of entries seen from an empty visited set. */
  function Dedup(s: seq<Entry>): seq<Entry> {
    DedupFrom({}, s)
  }

  /** Popping `p` and then `q` dispatches what `p` alone dispatches, then what `q`
      dispatches once the URLs of `p` are visited too. */
  lemma {:induction false} DedupFromConcat(seen: set<Url>, p: seq<Entry>, q: seq<Entry>)
    ensures DedupFrom(seen, p + q) == DedupFrom(seen, p) + DedupFrom(seen + UrlSet(p), q)
    decreases |q|
  {
    if q == [] {
      assert p + q == p;
    } else {
      var q' := q[..|q| - 1];
      var e := q[|q| - 1];
      assert (p + q)[..|p + q| - 1] == p + q';
      assert (p + q)[|p + q| - 1] == e;
      DedupFromConcat(seen, p, q');
      UrlSetAppend(DedupFrom(seen, p), DedupFrom(seen + UrlSet(p), q'));
    }
  }

  /** The first entry for a URL not yet seen is the one dispatched, with its depth:
      a later rediscovery at another depth never replaces it. */
  lemma DedupFirstWins(seen: set<Url>, s: seq<Entry>, i: nat)
    requires i < |s| && s[i].url !in seen
    requires forall j :: 0 <= j < i ==> s[j].url != s[i].url
    ensures s[i] in DedupFrom(seen, s)
  {
    var p := s[..i];
    var e := s[i];
    var post := s[i + 1..];
    assert s == (p + [e]) + post;
    assert forall j :: 0 <= j < |p| ==> p[j].url != e.url;
    KeptAfterPrefix(seen, p, e);
    DedupFromConcat(seen, p + [e], post);
    var r := DedupFrom(seen, p);
    assert (r + [e] + DedupFrom(seen + UrlSet(p + [e]), post))[|r|] == e;
  }

  /** An entry whose URL is neither seen nor carried by an earlier entry is kept. */
  lemma KeptAfterPrefix(seen: set<Url>, p: seq<Entry>, e: Entry)
    requires e.url !in seen
    requires forall j :: 0 <= j < |p| ==> p[j].url != e.url
    ensures DedupFrom(seen, p + [e]) == DedupFrom(seen, p) + [e]
  {
    UrlSetMembers(p, e.url);
    DedupFromSnoc(seen, p, e);
  }

  /** The inner loop of `crawl_all_docs`: pop entries from the head of `to_crawl`,
      skipping those already visited and marking the others visited, until the batch
      holds `BATCH_SIZE` entries or the list is exhausted. */
  method NextBatch(toCrawl: seq<Entry>, visited: set<Url>)
    returns (batch: seq<Entry>, rest: seq<Entry>, newVisited: set<Url>, ghost taken: nat)
    ensures taken <= |toCrawl| && rest == toCrawl[taken..]
    ensures batch == DedupFrom(visited, toCrawl[..taken])
    ensures newVisited == visited + UrlSet(batch)
    ensures |batch| <= BATCH_SIZE
    ensures |batch| < BATCH_SIZE ==> rest == []
    ensures 0 < taken ==> |DedupFrom(visited, toCrawl[..taken - 1])| < BATCH_SIZE
  {
    batch, rest, newVisited := [], toCrawl, visited;
    ghost var done: seq<Entry> := [];
    ghost var prevLen: nat := 0;
    while rest != [] && |batch| < BATCH_SIZE
      invariant toCrawl == done + rest
      invariant batch == DedupFrom(visited, done)
      invariant newVisited == visited + UrlSet(batch)
      invariant |batch| <= BATCH_SIZE
      invariant done != [] ==> prevLen == |DedupFrom(visited, done[..|done| - 1])| < BATCH_SIZE
      decreases |rest|
    {
      prevLen := |batch|;
      batch, rest, newVisited, done := PopOne(toCrawl, visited, batch, rest, newVisited, done);
    }
    taken := |done|;
    PrefixSplit(toCrawl, done, rest);
  }

  /** A batch repeats no URL and holds no URL that was already visited. */
  lemma BatchFresh(visited: set<Url>, s: seq<Entry>)
    ensures NoDupUrls(DedupFrom(visited, s))
    ensures forall k :: 0 <= k < |DedupFrom(visited, s)| ==> DedupFrom(visited, s)[k].url !in visited
  {
    DedupFromMembers(visited, s);
  }

  /** One pass of the inner loop: pop the head of `rest`, and add it to the batch and to
      the visited set unless its URL was visited. */
  method PopOne(ghost toCrawl: seq<Entry>, visited: set<Url>, batch: seq<Entry>, rest: seq<Entry>,
                newVisited: set<Url>, ghost done: seq<Entry>)
    returns (batch': seq<Entry>, rest': seq<Entry>, newVisited': set<Url>, ghost done': seq<Entry>)
    requires rest != []
    requires toCrawl == done + rest
    requires batch == DedupFrom(visited, done)
    requires newVisited == visited + UrlSet(batch)
    ensures toCrawl == done' + rest' && |rest'| < |rest|
    ensures done' != [] && done'[..|done'| - 1] == done
    ensures batch' == DedupFrom(visited, done')
    ensures newVisited' == visited + UrlSet(batch')
    ensures |batch'| <= |batch| + 1
  {
    var e := rest[0];
    PopSplit(done, rest);
    BatchStep(visited, done, e);
    done' := done + [e];
    rest' := rest[1..];
    if e.url !in newVisited {
      newVisited' := newVisited + {e.url};
      batch' := batch + [e];
    } else {
      newVisited' := newVisited;
      batch' := batch;
    }
  }

  /** Popping the head of `rest` moves it to the end of `done`. */
  lemma PopSplit(done: seq<Entry>, rest: seq<Entry>)
    requires rest != []
    ensures done + rest == (done + [rest[0]]) + rest[1..]
  {
    assert rest == [rest[0]] + rest[1..];
  }

  /** The popped prefix and the remaining list of `to_crawl`, seen as slices. */
  lemma PrefixSplit(s: seq<Entry>, done: seq<Entry>, rest: seq<Entry>)
    requires s == done + rest
    ensures s[..|done|] == done && s[|done|..] == rest
    ensures done != [] ==> s[..|done| - 1] == done[..|done| - 1]
  {
  }

  /** One pop of `NextBatch`, stated on the dispatched list so that the loop only has to
      carry it forward. */
  lemma BatchStep(seen: set<Url>, done: seq<Entry>, e: Entry)
    ensures (done + [e])[..|done|] == done
    ensures e.url in seen + UrlSet(DedupFrom(seen, done)) ==>
      DedupFrom(seen, done + [e]) == DedupFrom(seen, done)
    ensures e.url !in seen + UrlSet(DedupFrom(seen, done)) ==>
      DedupFrom(seen, done + [e]) == DedupFrom(seen, done) + [e] &&
      UrlSet(DedupFrom(seen, done) + [e]) == UrlSet(DedupFrom(seen, done)) + {e.url}
  {
    DedupFromSnoc(seen, done, e);
    UrlSetAppend(DedupFrom(seen, done), [e]);
    assert UrlSet([e]) == {e.url} by {
      assert [e][..0] == [];
    }
  }

  /** The absolute URLs of a page's links, `urljoin(page, href)` for each `href`. */
  ghost function JoinedLinks(join: (Url, string) -> Url, page: Url, links: seq<string>): (r: set<Url>)
    ensures forall k :: 0 <= k < |links| ==> join(page, links[k]) in r
    decreases |links|
  {
    if links == [] then {}
    else JoinedLinks(join, page, links[..|links| - 1]) + {join(page, links[|links| - 1])}
  }

  /** The entries a successful page adds to `to_crawl`: every link, made absolute against
      the page, that is in scope and not visited, at the given depth, in link order. */
  function Discovered(baseDomain: string, visited: set<Url>, join: (Url, string) -> Url,
                      page: Url, links: seq<string>, depth: nat): (r: seq<Entry>)
    ensures |r| <= |links|
    ensures forall k :: 0 <= k < |r| ==>
      r[k].depth == depth && IsSameDomain(baseDomain, r[k].url) && r[k].url !in visited
    ensures forall k :: 0 <= k < |r| ==> r[k].url in JoinedLinks(join, page, links)
    ensures forall k :: 0 <= k < |links| ==>
      (IsSameDomain(baseDomain, join(page, links[k])) && join(page, links[k]) !in visited ==>
       Entry(join(page, links[k]), depth) in r)
    decreases |links|
  {
    if links == [] then []
    else
      var prev := Discovered(baseDomain, visited, join, page, links[..|links| - 1], depth);
      var absUrl := join(page, links[|links| - 1]);
      assert forall k :: 0 <= k < |links| - 1 ==> links[..|links| - 1][k] == links[k];
      if IsSameDomain(baseDomain, absUrl) && absUrl !in visited then prev + [Entry(absUrl, depth)]
      else prev
  }

  /** Discovery does not look at what is already pending: the links of two lists are
      discovered independently, so a link listed twice is queued twice. */
  lemma {:induction false} DiscoveredAppend(baseDomain: string, visited: set<Url>,
                                            join: (Url, string) -> Url, page: Url,
                                            a: seq<string>, b: seq<string>, depth: nat)
    ensures Discovered(baseDomain, visited, join, page, a + b, depth)
         == Discovered(baseDomain, visited, join, page, a, depth)
          + Discovered(baseDomain, visited, join, page, b, depth)
    decreases |b|
  {
    if b == [] {
      assert a + b == a;
    } else {
      var b' := b[..|b| - 1];
      assert (a + b)[..|a + b| - 1] == a + b';
      assert (a + b)[|a + b| - 1] == b[|b| - 1];
      DiscoveredAppend(baseDomain, visited, join, page, a, b', depth);
    }
  }

  /** The link loop of `crawl_all_docs`: append each in-scope, unvisited absolute link to
      `to_crawl` and count it with `add_url`. */
  method EnqueueLinks(baseDomain: string, visited: set<Url>, join: (Url, string) -> Url,
                      page: Url, links: seq<string>, depth: nat, toCrawl: seq<Entry>,
                      stats: CrawlStats)
    returns (queue: seq<Entry>)
    modifies stats
    ensures queue == toCrawl + Discovered(baseDomain, visited, join, page, links, depth)
    ensures stats.totalUrls == old(stats.totalUrls) + |Discovered(baseDomain, visited, join, page, links, depth)|
    ensures stats.processedUrls == old(stats.processedUrls) && stats.successUrls == old(stats.successUrls)
    ensures stats.failedUrls == old(stats.failedUrls)
  {
    queue := toCrawl;
    for i := 0 to |links|
      invariant queue == toCrawl + Discovered(baseDomain, visited, join, page, links[..i], depth)
      invariant stats.totalUrls == old(stats.totalUrls) + |Discovered(baseDomain, visited, join, page, links[..i], depth)|
      invariant stats.processedUrls == old(stats.processedUrls) && stats.successUrls == old(stats.successUrls)
      invariant stats.failedUrls == old(stats.failedUrls)
    {
      assert links[..i + 1][..i] == links[..i];
      var absUrl := join(page, links[i]);
      if IsSameDomain(baseDomain, absUrl) && absUrl !in visited {
        queue := queue + [Entry(absUrl, depth)];
        stats.AddUrl();
      }
    }
    assert links[..|links|] == links;
  }
}
