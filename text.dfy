/** The handful of Python string operations the crawler relies on:
    `startswith`, `endswith`, `lstrip`/`rstrip`/`strip` of one character,
    `replace` and (for ASCII text) `title`. */
module Text {

  predicate StartsWith(s: string, prefix: string) {
    |prefix| <= |s| && s[..|prefix|] == prefix
  }

  predicate EndsWith(s: string, suffix: string) {
    |suffix| <= |s| && s[|s| - |suffix|..] == suffix
  }

  /** Any string ends with what was appended to it, and an `endswith` match splits the string. */
  lemma EndsWithAppend(p: string, t: string)
    ensures EndsWith(p + t, t)
    ensures forall s {:trigger EndsWith(s, t)} :: EndsWith(s, t) ==> s == s[..|s| - |t|] + t
  {
    assert (p + t)[|p|..] == t;
  }

  /** Any string starts with what it was built from. */
  lemma StartsWithAppend(p: string, t: string)
    ensures StartsWith(p + t, p)
  {
    assert (p + t)[..|p|] == p;
  }

  /** A suffix of a suffix is a suffix. */
  lemma EndsWithTransitive(s: string, t: string, u: string)
    requires EndsWith(s, t) && EndsWith(t, u)
    ensures EndsWith(s, u)
  {
    assert s[|s| - |u|..] == s[|s| - |t|..][|t| - |u|..];
  }

  /** `s.lstrip(c)`: drop every leading `c`. */
  function LStrip(s: string, c: char): (r: string)
    ensures |r| <= |s| && r == s[|s| - |r|..]
    ensures r == [] || r[0] != c
    ensures forall k :: 0 <= k < |s| - |r| ==> s[k] == c
    decreases |s|
  {
    if |s| > 0 && s[0] == c then LStrip(s[1..], c) else s
  }

  /** `s.rstrip(c)`: drop every trailing `c`. */
  function RStrip(s: string, c: char): (r: string)
    ensures |r| <= |s| && r == s[..|r|]
    ensures r == [] || r[|r| - 1] != c
    ensures forall k :: |r| <= k < |s| ==> s[k] == c
    decreases |s|
  {
    if |s| > 0 && s[|s| - 1] == c then RStrip(s[..|s| - 1], c) else s
  }

  /** `s.strip(c)`: drop `c` at both ends; empty exactly when `s` holds nothing else. */
  function Strip(s: string, c: char): (r: string)
    ensures r == [] || (r[0] != c && r[|r| - 1] != c)
    ensures r == [] <==> forall k :: 0 <= k < |s| ==> s[k] == c
  {
    var l := LStrip(s, c);
    assert l == [] <==> forall k :: 0 <= k < |s| ==> s[k] == c by {
      if l != [] {
        assert s[|s| - |l|] == l[0];
      }
    }
    RStrip(l, c)
  }

  /** What `strip` keeps is a slice of the input: everything before it and after it is
      the stripped character. */
  lemma StripSlice(s: string, c: char)
    ensures exists i :: StrippedAt(s, c, i, Strip(s, c))
  {
    var l := LStrip(s, c);
    var r := RStrip(l, c);
    assert Strip(s, c) == r;
    var i := |s| - |l|;
    assert l == s[i..];
    assert r == l[..|r|];
    assert r == s[i..i + |r|];
    forall k | i + |r| <= k < |s| ensures s[k] == c {
      assert s[k] == l[k - i];
    }
    assert StrippedAt(s, c, i, r);
  }

  /** `r` is the slice of `s` that starts at `i`, and everything of `s` before and after
      that slice is `c`. */
  predicate StrippedAt(s: string, c: char, i: nat, r: string) {
    && i + |r| <= |s| && r == s[i..i + |r|]
    && (forall k :: 0 <= k < i ==> s[k] == c)
    && (forall k :: i + |r| <= k < |s| ==> s[k] == c)
  }

  /** `s.replace(pat, rep)`: a single left-to-right pass over non-overlapping occurrences. */
  function ReplaceAll(s: string, pat: string, rep: string): string
    requires pat != []
    decreases |s|
  {
    if s == [] then []
    else if StartsWith(s, pat) then rep + ReplaceAll(s[|pat|..], pat, rep)
    else [s[0]] + ReplaceAll(s[1..], pat, rep)
  }

  /** A character that `rep` does not contain is absent after the replacement if it was
      absent before, or if it is the whole of `pat`. */
  lemma {:induction false} ReplaceAllAvoids(s: string, pat: string, rep: string, c: char)
    requires pat != [] && c !in rep
    requires c !in s || pat == [c]
    ensures c !in ReplaceAll(s, pat, rep)
    decreases |s|
  {
    if s == [] {
    } else if StartsWith(s, pat) {
      assert forall k :: |pat| <= k < |s| ==> s[k] == s[|pat|..][k - |pat|];
      ReplaceAllAvoids(s[|pat|..], pat, rep, c);
    } else {
      if pat == [c] {
        assert s[..1] == [s[0]];
      }
      assert forall k :: 1 <= k < |s| ==> s[k] == s[1..][k - 1];
      ReplaceAllAvoids(s[1..], pat, rep, c);
    }
  }

  /** The replacement is one pass, so it can leave behind a fresh occurrence of `pat`. */
  lemma ReplaceAllIsSinglePass()
    ensures ReplaceAll("..htmlhtml", ".html", "") == ".html"
  {
    var s := "..htmlhtml";
    assert s[..5][1] != ".html"[1];
    assert ReplaceAll(s, ".html", "") == "." + ReplaceAll(".htmlhtml", ".html", "");
    assert ".htmlhtml"[..5] == ".html";
    assert ReplaceAll(".htmlhtml", ".html", "") == ReplaceAll("html", ".html", "");
    assert "html"[0] != ".html"[0];
    assert ReplaceAll("html", ".html", "") == "h" + ReplaceAll("tml", ".html", "");
    assert ReplaceAll("tml", ".html", "") == "t" + ReplaceAll("ml", ".html", "");
    assert ReplaceAll("ml", ".html", "") == "m" + ReplaceAll("l", ".html", "");
    assert ReplaceAll("l", ".html", "") == "l" + ReplaceAll("", ".html", "");
  }

  predicate IsUpper(c: char) { 'A' <= c <= 'Z' }
  predicate IsLower(c: char) { 'a' <= c <= 'z' }
  predicate IsCased(c: char) { IsUpper(c) || IsLower(c) }

  function ToUpper(c: char): (r: char)
    ensures IsCased(c) ==> IsUpper(r)
    ensures !IsCased(c) ==> r == c
  {
    if IsLower(c) then (c as int - 32) as char else c
  }

  function ToLower(c: char): (r: char)
    ensures IsCased(c) ==> IsLower(r)
    ensures !IsCased(c) ==> r == c
  {
    if IsUpper(c) then (c as int + 32) as char else c
  }

  /** How `str.title()` rewrites one character, given whether the character before it
      (in the input) is cased. */
  function TitleChar(c: char, afterCased: bool): char {
    if !IsCased(c) then c else if afterCased then ToLower(c) else ToUpper(c)
  }

  function TitleFrom(s: string, afterCased: bool): (r: string)
    ensures |r| == |s|
    ensures forall k :: 0 <= k < |s| ==>
      r[k] == TitleChar(s[k], if k == 0 then afterCased else IsCased(s[k - 1]))
    decreases |s|
  {
    if s == [] then [] else [TitleChar(s[0], afterCased)] + TitleFrom(s[1..], IsCased(s[0]))
  }

  /** `s.title()` on ASCII: a cased letter is upper-cased when it starts a run of letters
      and lower-cased otherwise; every other character is kept. */
  function Title(s: string): (r: string)
    ensures |r| == |s|
    ensures forall k :: 0 <= k < |s| ==> r[k] == TitleChar(s[k], k > 0 && IsCased(s[k - 1]))
  {
    TitleFrom(s, false)
  }

  /** `title` keeps letters letters, and applying it to its own output changes nothing. */
  lemma TitleCharStable(c: char, afterCased: bool)
    ensures IsCased(TitleChar(c, afterCased)) == IsCased(c)
    ensures TitleChar(TitleChar(c, afterCased), afterCased) == TitleChar(c, afterCased)
  {
  }

  /** Characters that are not letters pass through `title` untouched, so none is introduced. */
  lemma TitleKeepsUncased(s: string, c: char)
    requires !IsCased(c) && c !in s
    ensures c !in Title(s)
  {
    var r := Title(s);
    forall k | 0 <= k < |r| ensures r[k] != c {
      assert r[k] == TitleChar(s[k], k > 0 && IsCased(s[k - 1]));
      TitleCharStable(s[k], k > 0 && IsCased(s[k - 1]));
    }
  }

  /** Title-casing twice is the same as title-casing once. */
  lemma TitleIdempotent(s: string)
    ensures Title(Title(s)) == Title(s)
  {
    var r := Title(s);
    forall k | 0 <= k < |s| ensures IsCased(r[k]) == IsCased(s[k]) {
      TitleCharStable(s[k], k > 0 && IsCased(s[k - 1]));
    }
    forall k | 0 <= k < |s| ensures Title(r)[k] == r[k] {
      var a := k > 0 && IsCased(s[k - 1]);
      assert Title(r)[k] == TitleChar(r[k], k > 0 && IsCased(r[k - 1]));
      assert r[k] == TitleChar(s[k], a);
      TitleCharStable(s[k], a);
    }
  }
}
