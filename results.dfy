/** What the fetch service hands back for one URL, and how the crawler picks the
    Markdown it keeps from it. */
module Results {
  import opened Urls

  datatype Option<T> = None | Some(value: T)

  /** Content filter chosen for the run: `PruningContentFilter` or `LLMContentFilter`. */
  datatype FilterMode = Heuristic | Llm

  /** One crawl result: the success flag, the raw and the filtered Markdown (either may be
      missing), the `href`s of the page's internal links, and the error message. */
  datatype Outcome = Outcome(
    success: bool,
    markdown: Option<string>,
    fitMarkdown: Option<string>,
    internalLinks: seq<string>,
    errorMessage: string)

  /** Python truthiness of an optional string: present and non-empty. */
  predicate Truthy(s: Option<string>) {
    s.Some? && s.value != ""
  }

  /** The Markdown kept for a successful page: `fit_markdown or markdown` under the LLM
      filter, `markdown or ""` under the heuristic one. */
  function SelectPayload(filter: FilterMode, o: Outcome): (md: Option<string>)
    ensures md.None? <==> filter == Llm && !Truthy(o.fitMarkdown) && o.markdown.None?
    ensures filter == Heuristic ==> (Truthy(md) <==> Truthy(o.markdown))
    ensures Truthy(md) ==> md == o.markdown || (filter == Llm && md == o.fitMarkdown)
    ensures filter == Llm && Truthy(o.fitMarkdown) ==> md == o.fitMarkdown
    ensures filter == Llm && !Truthy(o.fitMarkdown) ==> md == o.markdown
  {
    match filter
    case Llm => if Truthy(o.fitMarkdown) then o.fitMarkdown else o.markdown
    case Heuristic => if Truthy(o.markdown) then o.markdown else Some("")
  }

  /** The fetch service, seen as a finite site: a URL outside it fails to load. */
  function Fetch(site: map<Url, Outcome>, u: Url): (o: Outcome)
    ensures o.success ==> u in site && o == site[u]
  {
    if u in site then site[u] else Outcome(false, None, None, [], "page not found")
  }

  /** A payload as `f"{md}"` renders it: `None` becomes the text `None`. */
  function Show(md: Option<string>): string {
    if md.Some? then md.value else "None"
  }

  /** A file's content after `open(path, "w")` and `write(md)`: the payload, or the empty
      file that `open` created when `write(None)` raises. */
  function Written(md: Option<string>): string {
    if md.Some? then md.value else ""
  }
}
