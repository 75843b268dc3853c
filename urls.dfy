/** URLs as the crawler sees them after `urlparse`, and the domain scoping test
    `is_same_domain`. */
module Urls {
  import opened Text

  /** A parsed URL: its network location (`netloc`, host and port as written), its path,
      and everything else (scheme, query, fragment), kept so that URLs that differ
      only there stay distinct. */
  datatype Url = Url(netloc: string, path: string, rest: string)

  /** `is_same_domain(base_domain, link)`: the link has a network location, and it is
      the base domain itself or ends with `.` followed by the base domain. */
  predicate IsSameDomain(baseDomain: string, link: Url) {
    link.netloc != "" && (link.netloc == baseDomain || EndsWith(link.netloc, "." + baseDomain))
  }

  /** Every in-scope host ends with the base domain; the base domain itself and any
      label `sub` put in front of an in-scope host are in scope; a link without a host never is. */
  lemma SameDomainScope(baseDomain: string, link: Url, sub: string)
    ensures link.netloc == "" ==> !IsSameDomain(baseDomain, link)
    ensures baseDomain != "" ==> IsSameDomain(baseDomain, link.(netloc := baseDomain))
    ensures IsSameDomain(baseDomain, link) ==> EndsWith(link.netloc, baseDomain)
    ensures IsSameDomain(baseDomain, link) ==>
      IsSameDomain(baseDomain, link.(netloc := sub + "." + link.netloc))
  {
    if IsSameDomain(baseDomain, link) {
      HostSuffixes(baseDomain, link.netloc, sub);
      assert link.(netloc := sub + "." + link.netloc).netloc == sub + "." + link.netloc;
    }
  }

  /** A host that is the base domain or ends with `.` and the base domain ends with the
      base domain, and so does any label put in front of it. */
  lemma HostSuffixes(baseDomain: string, h: string, sub: string)
    requires h == baseDomain || EndsWith(h, "." + baseDomain)
    ensures EndsWith(h, baseDomain)
    ensures EndsWith(sub + "." + h, "." + baseDomain)
  {
    EndsWithAppend(".", baseDomain);
    if h == baseDomain {
      assert EndsWith(h, baseDomain) by {
        assert h[0..] == h;
      }
      assert sub + "." + h == sub + ("." + baseDomain);
      EndsWithAppend(sub, "." + baseDomain);
    } else {
      EndsWithTransitive(h, "." + baseDomain, baseDomain);
      assert sub + "." + h == (sub + ".") + h;
      EndsWithAppend(sub + ".", h);
      EndsWithTransitive(sub + "." + h, h, "." + baseDomain);
    }
  }

  /** A host that only ends with the base domain's characters, without a dot before
      them, is out of scope. */
  lemma SuffixWithoutDotIsOutOfScope(path: string, rest: string)
    ensures !IsSameDomain("docs.io", Url("mydocs.io", path, rest))
    ensures IsSameDomain("docs.io", Url("api.docs.io", path, rest))
  {
    var h := "mydocs.io";
    assert h[|h| - 8..][0] != '.';
    assert h != "docs.io" by {
      assert |h| != |"docs.io"|;
    }
    assert "api.docs.io"[3..] == ".docs.io";
  }

  /** With an empty base domain (a start URL without a host), exactly the hosts
      ending in a dot are in scope. */
  lemma EmptyBaseDomain(link: Url)
    ensures IsSameDomain("", link) <==> link.netloc != "" && link.netloc[|link.netloc| - 1] == '.'
  {
    var h := link.netloc;
    if h != "" {
      assert EndsWith(h, ".") <==> h[|h| - 1] == '.' by {
        assert h[|h| - 1..] == [h[|h| - 1]];
      }
      assert "." + "" == ".";
    }
  }
}
