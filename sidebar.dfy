/**
 * The shared navigation sidebar: which of its links is marked `active` for
 * the page being shown. Page paths and link targets are compared after
 * normalisation to a bare page name.
 */
module Sidebar {
  import opened JsValues

  const HtmlSuffix := ".html"
  const IndexPage := "index"
  const Active := "active"

  /** `path.split('/').pop().split('?')[0].split('#')[0]`: the last segment, without query and fragment. */
  function LastSegment(path: string): (r: string)
    ensures PlainName(r)
  {
    var segment := AfterLast(path, '/');
    var noQuery := BeforeFirst(segment, '?');
    assert forall i :: 0 <= i < |noQuery| ==> noQuery[i] == segment[i];
    var noHash := BeforeFirst(noQuery, '#');
    assert forall i :: 0 <= i < |noHash| ==> noHash[i] == noQuery[i];
    noHash
  }

  /** A page name with no separators. */
  predicate PlainName(name: string) {
    '/' !in name && '?' !in name && '#' !in name
  }

  /** The page a last segment designates: without one `.html`, and the empty name read as the index page. */
  function PageName(segment: string): (r: string)
    ensures r != []
    ensures PlainName(segment) ==> PlainName(r)
  {
    var name := if EndsWith(segment, HtmlSuffix) then segment[..|segment| - |HtmlSuffix|] else segment;
    assert forall i :: 0 <= i < |name| ==> name[i] == segment[i];
    if name == "" || name == IndexPage then IndexPage else name
  }

  /** `normalizePath`: the page name a path or link target designates; the site root and `index` are one page. */
  function NormalizePath(path: string): (r: string)
    ensures r != []
    ensures PlainName(r)
  {
    PageName(LastSegment(path))
  }

  // ---------------------------------------------------------------------------
  // What splitting does to text without the separator

  /** Text without `sep` in front of the split point passes through `split(sep)[0]` whole. */
  lemma {:induction false} BeforeFirstAppend(a: string, b: string, sep: char)
    requires sep !in a
    ensures BeforeFirst(a + b, sep) == a + BeforeFirst(b, sep)
  {
    if a == [] {
      assert a + b == b;
    } else {
      assert (a + b)[0] == a[0] != sep;
      assert (a + b)[1..] == a[1..] + b;
      BeforeFirstAppend(a[1..], b, sep);
      assert a == [a[0]] + a[1..];
    }
  }

  /** Text without `sep` at the end passes through `split(sep).pop()` whole. */
  lemma {:induction false} AfterLastAppend(a: string, b: string, sep: char)
    requires sep !in b
    ensures AfterLast(a + b, sep) == AfterLast(a, sep) + b
  {
    if b == [] {
      assert a + b == a;
    } else {
      var init := b[..|b| - 1];
      assert (a + b)[|a + b| - 1] == b[|b| - 1] != sep;
      assert (a + b)[..|a + b| - 1] == a + init;
      AfterLastAppend(a, init, sep);
      assert b == init + [b[|b| - 1]];
    }
  }

  /** A plain name is its own last segment. */
  lemma LastSegmentPlain(name: string)
    requires PlainName(name)
    ensures LastSegment(name) == name
  {
    assert [] + name == name && name + [] == name;
    AfterLastAppend([], name, '/');
    BeforeFirstAppend(name, [], '?');
    BeforeFirstAppend(name, [], '#');
  }

  /** The last segment of a path is that of the text after its last `/`. */
  lemma LastSegmentInDirectory(dir: string, name: string)
    requires PlainName(name)
    ensures LastSegment(dir + "/" + name) == name
  {
    var folder := dir + "/";
    assert folder[|folder| - 1] == '/';
    calc {
      LastSegment(folder + name);
      BeforeFirst(BeforeFirst(AfterLast(folder + name, '/'), '?'), '#');
      { AfterLastAppend(folder, name, '/'); assert AfterLast(folder, '/') == []; assert [] + name == name; }
      BeforeFirst(BeforeFirst(name, '?'), '#');
      { LastSegmentPlain(name); }
      name;
    }
  }

  /** A query string does not change the last segment. */
  lemma LastSegmentWithQuery(name: string, query: string)
    requires PlainName(name) && '/' !in query
    ensures LastSegment(name + "?" + query) == name
  {
    var tail := "?" + query;
    var path := name + tail;
    assert path == name + "?" + query;
    calc {
      LastSegment(path);
      BeforeFirst(BeforeFirst(AfterLast(path, '/'), '?'), '#');
      { AfterLastAppend([], path, '/'); assert [] + path == path; }
      BeforeFirst(BeforeFirst(path, '?'), '#');
      { BeforeFirstAppend(name, tail, '?'); assert name + [] == name; }
      BeforeFirst(name, '#');
      { BeforeFirstAppend(name, [], '#'); assert name + [] == name; }
      name;
    }
  }

  /** A fragment does not change the last segment. */
  lemma LastSegmentWithHash(name: string, hash: string)
    requires PlainName(name) && '/' !in hash
    ensures LastSegment(name + "#" + hash) == name
  {
    var fragment := "#" + hash;
    var path := name + fragment;
    var cut := "#" + BeforeFirst(hash, '?');
    assert path == name + "#" + hash;
    calc {
      LastSegment(path);
      BeforeFirst(BeforeFirst(AfterLast(path, '/'), '?'), '#');
      { AfterLastAppend([], path, '/'); assert [] + path == path; }
      BeforeFirst(BeforeFirst(path, '?'), '#');
      { BeforeFirstAppend(name, fragment, '?'); }
      BeforeFirst(name + cut, '#');
      { BeforeFirstAppend(name, cut, '#'); assert name + [] == name; }
      name;
    }
  }

  /** Directories, query strings and fragments do not change the page a path designates. */
  lemma NormalizeIgnoresUrlParts(dir: string, name: string, query: string, hash: string)
    requires PlainName(name)
    requires '/' !in query && '/' !in hash
    ensures NormalizePath(dir + "/" + name) == NormalizePath(name)
    ensures NormalizePath(name + "?" + query) == NormalizePath(name)
    ensures NormalizePath(name + "#" + hash) == NormalizePath(name)
    ensures NormalizePath(name + "?" + query + "#" + hash) == NormalizePath(name)
  {
    LastSegmentPlain(name);
    LastSegmentInDirectory(dir, name);
    LastSegmentWithQuery(name, query);
    LastSegmentWithHash(name, hash);
    LastSegmentWithQuery(name, query + "#" + hash);
    QueryThenHash(name, query, hash);
  }

  lemma QueryThenHash(name: string, query: string, hash: string)
    ensures name + "?" + (query + "#" + hash) == name + "?" + query + "#" + hash
  {
  }

  /** Exactly one `.html` is removed: a name that is not the index page comes back from `name + ".html"`. */
  lemma NormalizeStripsOneSuffix(name: string)
    requires PlainName(name) && name != "" && name != IndexPage
    ensures NormalizePath(name + HtmlSuffix) == name
    ensures !EndsWith(name, HtmlSuffix) ==> NormalizePath(name) == name
  {
    var page := name + HtmlSuffix;
    assert PlainName(HtmlSuffix);
    LastSegmentPlain(page);
    assert page[|page| - |HtmlSuffix|..] == HtmlSuffix;
    assert page[..|page| - |HtmlSuffix|] == name;
    LastSegmentPlain(name);
  }

  /** The site root has an empty last segment, which designates the index page. */
  lemma RootIsIndex()
    ensures NormalizePath("") == IndexPage
    ensures NormalizePath("/") == IndexPage
  {
    LastSegmentPlain("");
    LastSegmentInDirectory("", "");
    RootPath();
    EmptyNameIsIndex();
  }

  lemma RootPath()
    ensures "" + "/" + "" == "/"
  {
  }

  lemma EmptyNameIsIndex()
    ensures PageName("") == IndexPage
  {
    assert !EndsWith("", HtmlSuffix);
  }

  /** `index` designates the index page. */
  lemma IndexNameIsIndex()
    ensures NormalizePath(IndexPage) == IndexPage
  {
    calc {
      NormalizePath(IndexPage);
      { assert PlainName(IndexPage); LastSegmentPlain(IndexPage); }
      PageName(IndexPage);
      { assert !EndsWith(IndexPage, HtmlSuffix); }
      IndexPage;
    }
  }

  /** `index.html` designates the index page. */
  lemma IndexFileIsIndex()
    ensures NormalizePath(IndexPage + HtmlSuffix) == IndexPage
  {
    var page := IndexPage + HtmlSuffix;
    calc {
      NormalizePath(page);
      { assert PlainName(page); LastSegmentPlain(page); }
      PageName(page);
      { assert EndsWith(page, HtmlSuffix); assert page[..|page| - |HtmlSuffix|] == IndexPage; }
      IndexPage;
    }
  }

  /** `/index.html` designates the index page. */
  lemma RootedIndexFileIsIndex()
    ensures NormalizePath("/" + IndexPage + HtmlSuffix) == IndexPage
  {
    var page := IndexPage + HtmlSuffix;
    calc {
      NormalizePath("/" + IndexPage + HtmlSuffix);
      { RootedIndex(); }
      NormalizePath("" + "/" + page);
      { assert PlainName(page); LastSegmentInDirectory("", page); LastSegmentPlain(page); }
      NormalizePath(page);
      { IndexFileIsIndex(); }
      IndexPage;
    }
  }

  lemma RootedIndex()
    ensures "/" + IndexPage + HtmlSuffix == "" + "/" + (IndexPage + HtmlSuffix)
  {
  }

  // ---------------------------------------------------------------------------
  // Highlighting

  /** A navigation link: its `href` and its class list. */
  class Link {
    const href: string
    var classes: set<string>

    constructor(href: string, classes: set<string>)
      ensures this.href == href && this.classes == classes
    {
      this.href := href;
      this.classes := classes;
    }
  }

  /** A class list after `classList.add('active')` or `classList.remove('active')`. */
  function Marked(classes: set<string>, active: bool): (r: set<string>)
    ensures Active in r <==> active
    ensures r - {Active} == classes - {Active}
  {
    if active then classes + {Active} else classes - {Active}
  }

  /**
   * The link loop: a link is marked active exactly when its target designates
   * the current page; every other class of every link is kept.
   */
  method HighlightActive(pathname: string, links: seq<Link>)
    requires forall i, j :: 0 <= i < j < |links| ==> links[i] != links[j]
    modifies set i | 0 <= i < |links| :: links[i]
    ensures forall i :: 0 <= i < |links| ==>
      links[i].classes == Marked(old(links[i].classes), NormalizePath(links[i].href) == NormalizePath(pathname))
    ensures forall i :: 0 <= i < |links| ==>
      (Active in links[i].classes <==> NormalizePath(links[i].href) == NormalizePath(pathname))
  {
    var currentPath := NormalizePath(pathname);
    for k := 0 to |links|
      invariant forall i :: 0 <= i < k ==>
        links[i].classes == Marked(old(links[i].classes), NormalizePath(links[i].href) == currentPath)
      invariant forall i :: k <= i < |links| ==> links[i].classes == old(links[i].classes)
    {
      var link := links[k];
      if NormalizePath(link.href) == currentPath {
        link.classes := link.classes + {Active};
      } else {
        link.classes := link.classes - {Active};
      }
    }
  }

  /** The targets of the sidebar's eight links. */
  const NavPages: seq<string> := ["index", "dashboard", "planning", "team", "budget", "risks", "comm", "defense"]

  function NavHref(i: int): string
    requires 0 <= i < |NavPages|
  {
    NavPages[i] + HtmlSuffix
  }

  /** Each sidebar link designates its own page. */
  lemma NavHrefPage(i: int)
    requires 0 <= i < |NavPages|
    ensures NormalizePath(NavHref(i)) == NavPages[i]
  {
    if i == 0 {
      IndexFileIsIndex();
    } else {
      var name := NavPages[i];
      assert PlainName(name) && name != "" && name != IndexPage by {
        assert i == 1 || i == 2 || i == 3 || i == 4 || i == 5 || i == 6 || i == 7;
      }
      NormalizeStripsOneSuffix(name);
    }
  }

  lemma NavPagesDistinct()
    ensures forall i, j :: 0 <= i < j < |NavPages| ==> NavPages[i] != NavPages[j]
  {
  }

  /**
   * The sidebar's links designate eight different pages, so at most one of
   * them is ever active; the site root activates the first.
   */
  lemma AtMostOneActive(pathname: string)
    ensures forall i, j :: 0 <= i < j < |NavPages| ==>
      !(NormalizePath(NavHref(i)) == NormalizePath(pathname) && NormalizePath(NavHref(j)) == NormalizePath(pathname))
    ensures NormalizePath(NavHref(0)) == NormalizePath("/")
  {
    RootIsIndex();
    NavHrefPage(0);
    NavPagesDistinct();
    forall i, j | 0 <= i < j < |NavPages|
      ensures NormalizePath(NavHref(i)) != NormalizePath(NavHref(j))
    {
      NavHrefPage(i);
      NavHrefPage(j);
    }
  }
}
