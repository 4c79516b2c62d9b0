/** Which page a location path shows (`_getCurrentPage` over the `PAGES` table). */
module Routing {
  import opened Js

  /** The keys of `PAGES`, in declaration order. */
  const Pages: seq<string> := ["Dashboard", "Asset", "Goals", "Analytics", "Liquidity", "EconomicDataPage"]

  /** Removes one trailing '/'. */
  function DropTrailingSlash(url: string): (r: string)
    ensures |url| > 0 && url[|url| - 1] == '/' ==> r == url[..|url| - 1]
    ensures |url| == 0 || url[|url| - 1] != '/' ==> r == url
  {
    if |url| > 0 && url[|url| - 1] == '/' then url[..|url| - 1] else url
  }

  /** `url.split('/').pop()`: everything after the last '/'. */
  function LastSegment(s: string): (r: string)
    ensures '/' !in r
    ensures |r| <= |s| && r == s[|s| - |r|..]
    ensures |r| < |s| ==> s[|s| - |r| - 1] == '/'
  {
    if s == [] then []
    else if s[|s| - 1] == '/' then []
    else
      var init := s[..|s| - 1];
      var r := LastSegment(init);
      assert s == init + [s[|s| - 1]];
      r + [s[|s| - 1]]
  }

  /** `s.split('?')[0]`: everything before the first '?'. */
  function BeforeQuery(s: string): (r: string)
    ensures '?' !in r
    ensures |r| <= |s| && r == s[..|r|]
    ensures |r| < |s| ==> s[|r|] == '?'
  {
    if s == [] then []
    else if s[0] == '?' then []
    else [s[0]] + BeforeQuery(s[1..])
  }

  /** The first page whose name equals `segment` ignoring case, if any. */
  function FindPage(pages: seq<string>, segment: string): (r: string)
    ensures r == "" || r in pages
    ensures r != "" ==> ToLower(r) == ToLower(segment)
    ensures r == "" ==> forall p :: p in pages && p != "" ==> ToLower(p) != ToLower(segment)
  {
    if pages == [] then ""
    else if ToLower(pages[0]) == ToLower(segment) then pages[0]
    else FindPage(pages[1..], segment)
  }

  /** The part of the path that names the page: the last segment after one
      trailing '/' is dropped, without its query. */
  function Segment(url: string): string {
    BeforeQuery(LastSegment(DropTrailingSlash(url)))
  }

  /** The page a segment names, Dashboard when none does. */
  function PageNamed(segment: string): (page: string)
    ensures page in Pages
    ensures page != Pages[0] ==> ToLower(page) == ToLower(segment)
  {
    var found := FindPage(Pages, segment);
    if found != "" then found else Pages[0]
  }

  /** `_getCurrentPage`. */
  function PageFor(url: string): (page: string)
    ensures page in Pages
    ensures page != Pages[0] ==> ToLower(page) == ToLower(Segment(url))
  {
    PageNamed(Segment(url))
  }

  /** Only the last segment counts: whatever precedes the last '/' is ignored. */
  lemma {:induction false} LastSegmentAfterSlash(prefix: string, segment: string)
    ensures LastSegment(prefix + "/" + segment) == LastSegment(segment)
  {
    var s := prefix + "/" + segment;
    var r := LastSegment(segment);
    assert s[|s| - |segment| - 1] == '/';
    assert s[|s| - |segment|..] == segment;
    assert s[|s| - |r|..] == r;
    if |r| < |segment| {
      assert s[|s| - |r| - 1] == segment[|segment| - |r| - 1];
    }
    LastSegmentUnique(s, r);
  }

  /** A suffix without '/' that is preceded by '/' is the last segment. */
  lemma {:induction false} LastSegmentUnique(s: string, r: string)
    requires '/' !in r && |r| < |s| && s[|s| - |r|..] == r && s[|s| - |r| - 1] == '/'
    ensures LastSegment(s) == r
  {
    var t := LastSegment(s);
    if |t| > |r| {
      assert false;
    } else if |t| < |r| {
      assert false;
    }
  }

  /** Paths with the same last segment show the same page. */
  lemma {:induction false} PageForIgnoresPrefix(prefix: string, segment: string)
    requires segment != [] && segment[|segment| - 1] != '/'
    ensures Segment(prefix + "/" + segment) == Segment("/" + segment)
    ensures PageFor(prefix + "/" + segment) == PageFor("/" + segment)
  {
    var u1, u2 := prefix + "/" + segment, "/" + segment;
    assert u1[|u1| - 1] == segment[|segment| - 1];
    assert DropTrailingSlash(u1) == u1;
    LastSegmentAfterSlash(prefix, segment);
    assert LastSegment(u1) == LastSegment(segment);
    assert u2 == "" + "/" + segment;
    assert u2[|u2| - 1] == segment[|segment| - 1];
    assert DropTrailingSlash(u2) == u2;
    LastSegmentAfterSlash("", segment);
    assert LastSegment(u2) == LastSegment(segment);
  }

  predicate IsLetter(c: char) { 'A' <= c <= 'Z' || 'a' <= c <= 'z' }

  predicate AllLetters(s: string) { forall i :: 0 <= i < |s| ==> IsLetter(s[i]) }

  /** Matching ignores case: a path whose last segment spells a page's name in
      any mix of upper and lower case shows that page. */
  lemma {:induction false} PageReachable(i: nat, name: string)
    requires i < |Pages| && AllLetters(name) && ToLower(name) == ToLower(Pages[i])
    ensures PageFor("/" + name) == Pages[i]
  {
    assert |name| == |ToLower(Pages[i])| == |Pages[i]| > 0;
    assert '/' !in name && '?' !in name by {
      forall k | 0 <= k < |name| ensures name[k] != '/' && name[k] != '?' {
        assert IsLetter(name[k]);
      }
    }
    SegmentOfSlashName(name);
    FindPageFirst(i, name);
  }

  lemma {:induction false} PagesAreLetters(i: nat)
    requires i < |Pages|
    ensures AllLetters(Pages[i])
  {
  }

  lemma {:induction false} ToLowerKeepsLetters(s: string)
    requires AllLetters(s)
    ensures AllLetters(ToLower(s))
  {
    var lower := ToLower(s);
    forall k | 0 <= k < |lower| ensures IsLetter(lower[k]) {
      assert lower[k] == LowerChar(s[k]);
    }
  }

  /** In particular each page is reached by its name as declared and in lower case. */
  lemma {:induction false} EveryPageReachable(i: nat)
    requires i < |Pages|
    ensures PageFor("/" + Pages[i]) == Pages[i]
    ensures PageFor("/" + ToLower(Pages[i])) == Pages[i]
  {
    var page := Pages[i];
    PagesAreLetters(i);
    PageReachable(i, page);
    ToLowerKeepsLetters(page);
    ToLowerIdempotent(page);
    PageReachable(i, ToLower(page));
  }

  lemma {:induction false} NoSlashIsOwnSegment(s: string)
    requires '/' !in s
    ensures LastSegment(s) == s
  {
    if s != [] {
      assert s[|s| - 1] in s;
      NoSlashIsOwnSegment(s[..|s| - 1]);
      assert s == s[..|s| - 1] + [s[|s| - 1]];
    }
  }

  lemma {:induction false} NoQueryIsOwnPath(s: string)
    requires '?' !in s
    ensures BeforeQuery(s) == s
  {
    if s != [] {
      assert s[0] in s;
      NoQueryIsOwnPath(s[1..]);
      assert s == [s[0]] + s[1..];
    }
  }

  /** A '/'-prefixed name without '/' or '?' is its own segment. */
  lemma {:induction false} SegmentOfSlashName(name: string)
    requires name != [] && '/' !in name && '?' !in name
    ensures BeforeQuery(LastSegment(DropTrailingSlash("/" + name))) == name
  {
    var u := "/" + name;
    assert u[|u| - 1] == name[|name| - 1];
    assert name[|name| - 1] in name;
    assert DropTrailingSlash(u) == u;
    LastSegmentAfterSlash("", name);
    assert "" + "/" + name == u;
    NoSlashIsOwnSegment(name);
    NoQueryIsOwnPath(name);
  }

  lemma {:induction false} ToLowerIdempotent(s: string)
    ensures ToLower(ToLower(s)) == ToLower(s)
  {
    var once := ToLower(s);
    assert forall i :: 0 <= i < |s| ==> LowerChar(once[i]) == once[i];
  }

  /** `find` returns the first page whose lower-case name matches. */
  lemma {:induction false} FindPageAt(pages: seq<string>, segment: string, i: nat)
    requires i < |pages| && pages[i] != "" && ToLower(pages[i]) == ToLower(segment)
    requires forall k :: 0 <= k < i ==> ToLower(pages[k]) != ToLower(segment)
    ensures FindPage(pages, segment) == pages[i]
  {
    if i > 0 {
      FindPageAt(pages[1..], segment, i - 1);
    }
  }

  /** No two page names agree ignoring case: they differ in length or in first letter. */
  lemma {:induction false} PagesDistinctIgnoringCase(k: nat, i: nat)
    requires k < i < |Pages|
    ensures ToLower(Pages[k]) != ToLower(Pages[i])
  {
    assert Pages[k] != "" && Pages[i] != "";
    assert |Pages[k]| != |Pages[i]| || LowerChar(Pages[k][0]) != LowerChar(Pages[i][0]);
  }

  /** A name in any case finds its own page. */
  lemma {:induction false} FindPageFirst(i: nat, segment: string)
    requires i < |Pages| && ToLower(segment) == ToLower(Pages[i])
    ensures FindPage(Pages, segment) == Pages[i]
  {
    forall k | 0 <= k < i ensures ToLower(Pages[k]) != ToLower(segment) {
      PagesDistinctIgnoringCase(k, i);
    }
    FindPageAt(Pages, segment, i);
  }

  /** A segment naming no page, the empty one included, shows the dashboard. */
  lemma {:induction false} EmptySegmentIsDashboard()
    ensures PageNamed("") == "Dashboard"
  {
    assert ToLower("") == "";
  }

  /** An empty path and a bare '/' show the dashboard. */
  lemma {:induction false} EmptyPathIsDashboard()
    ensures PageFor("") == "Dashboard"
    ensures PageFor("/") == "Dashboard"
  {
    var empty: string := "";
    assert DropTrailingSlash(empty) == empty && DropTrailingSlash("/") == empty;
    assert LastSegment(empty) == empty && BeforeQuery(empty) == empty;
    assert Segment(empty) == empty && Segment("/") == empty;
    EmptySegmentIsDashboard();
  }

  /** One trailing '/' is ignored. */
  lemma {:induction false} TrailingSlashIgnored(url: string)
    requires url == [] || url[|url| - 1] != '/'
    ensures Segment(url + "/") == Segment(url)
  {
    var once := url + "/";
    assert once[..|once| - 1] == url;
    assert DropTrailingSlash(once) == url == DropTrailingSlash(url);
  }

  /** A second trailing '/' is not: the last segment is then empty and the
      dashboard is shown. */
  lemma {:induction false} DoubleTrailingSlash(url: string)
    ensures PageFor(url + "//") == "Dashboard"
  {
    var once, twice := url + "/", url + "//";
    assert twice[..|twice| - 1] == once;
    assert DropTrailingSlash(twice) == once;
    assert once[|once| - 1] == '/';
    assert LastSegment(once) == [];
    assert Segment(twice) == "";
    EmptySegmentIsDashboard();
  }

  lemma {:induction false} BeforeQueryStops(name: string, rest: string)
    requires '?' !in name
    ensures BeforeQuery(name + "?" + rest) == name
  {
    if name != [] {
      assert name[0] in name;
      BeforeQueryStops(name[1..], rest);
      assert (name + "?" + rest)[1..] == name[1..] + "?" + rest;
    }
  }

  /** Everything from the first '?' of the last segment on is ignored. */
  lemma {:induction false} QueryIgnored(prefix: string, name: string, query: string)
    requires '/' !in name && '?' !in name && '/' !in query
    ensures Segment(prefix + "/" + name + "?" + query) == name
    ensures PageFor(prefix + "/" + name + "?" + query) == PageNamed(name)
  {
    var tail := name + "?" + query;
    var u := prefix + "/" + tail;
    assert u == prefix + "/" + name + "?" + query;
    assert u[|u| - 1] == tail[|tail| - 1];
    assert tail[|tail| - 1] != '/' by {
      if query != [] {
        assert tail[|tail| - 1] == query[|query| - 1] && query[|query| - 1] in query;
      }
    }
    assert DropTrailingSlash(u) == u;
    LastSegmentAfterSlash(prefix, tail);
    assert '/' !in tail;
    NoSlashIsOwnSegment(tail);
    BeforeQueryStops(name, query);
  }
}
