/**
 * Links inside EPUB chapters (app.js: makeLinksClickable, and the href index loadEPUB builds):
 * what a click on a link does, which links are marked as internal, and how a chapter link
 * finds its chapter through the href index.
 */
module Links {
  import opened Wrappers
  import opened Text

  /** What a click on a link does. */
  datatype LinkAction =
    | NoHandler                                               // an empty href gets no listener
    | ScrollToAnchor(targetId: string)                        // `#id`: scroll to that element
    | OpenChapter(chapterPath: string, anchor: Option<string>)  // another chapter, maybe at an anchor
    | OpenExternal(url: string)                               // http(s): a new tab
    | Suppressed                                              // mailto: the default is prevented, nothing else

  predicate IsWebLink(href: string) {
    StartsWith(href, "http://") || StartsWith(href, "https://")
  }

  /** Neither a web link nor a mail link. */
  predicate IsLocal(href: string) {
    !IsWebLink(href) && !StartsWith(href, "mailto:")
  }

  /** The click handler's dispatch on the href. */
  function ClassifyHref(href: string): (a: LinkAction)
    ensures a.NoHandler? <==> href == ""
    ensures a.ScrollToAnchor? <==> href != "" && href[0] == '#'
    ensures a.OpenChapter? <==> href != "" && href[0] != '#' && IsLocal(href)
    ensures a.OpenExternal? <==> href != "" && href[0] != '#' && IsWebLink(href)
    ensures a.ScrollToAnchor? ==> href == "#" + a.targetId
    ensures a.OpenExternal? ==> a.url == href
  {
    if href == "" then NoHandler
    else if StartsWith(href, "#") then
      assert href == [href[0]] + href[1..];
      ScrollToAnchor(href[1..])
    else if IsLocal(href) then
      var parts := Split(href, '#');
      OpenChapter(parts[0], if |parts| > 1 then Some(parts[1]) else None)
    else if IsWebLink(href) then OpenExternal(href)
    else Suppressed
  }

  /** The links that get the pointer cursor and the 'Jump to section' title. */
  predicate MarkedInternal(href: string) {
    StartsWith(href, "#") || IsLocal(href)
  }

  /** A non-empty link is marked internal exactly when a click on it stays inside the book. */
  lemma MarkedIffInBook(href: string)
    requires href != ""
    ensures MarkedInternal(href) <==> ClassifyHref(href).ScrollToAnchor? || ClassifyHref(href).OpenChapter?
  {
  }

  /** A join starts with its first piece. */
  lemma JoinStartsWithFirst(parts: seq<string>, sep: char)
    requires |parts| >= 1
    ensures StartsWith(Join(parts, sep), parts[0])
  {
    if |parts| > 1 {
      assert Join(parts, sep) == parts[0] + ([sep] + Join(parts[1..], sep));
    }
  }

  /** A join of two or more pieces starts with the first two and the separator between them. */
  lemma JoinStartsWithTwo(parts: seq<string>, sep: char)
    requires |parts| >= 2
    ensures StartsWith(Join(parts, sep), parts[0] + [sep] + parts[1])
  {
    JoinStartsWithFirst(parts[1..], sep);
    var rest := Join(parts[1..], sep);
    assert Join(parts, sep) == (parts[0] + [sep]) + rest;
    assert rest[..|parts[1]|] == parts[1];
    assert Join(parts, sep)[..|parts[0]| + 1 + |parts[1]|] == (parts[0] + [sep]) + rest[..|parts[1]|];
  }

  /**
   * What `const [chapterPath, anchor] = href.split('#')` extracts: the text before the first '#',
   * and the text between the first and the second '#' when there is one.
   */
  lemma ChapterLinkParts(href: string)
    requires ClassifyHref(href).OpenChapter?
    ensures '#' !in ClassifyHref(href).chapterPath
    ensures ClassifyHref(href).anchor.None? <==> '#' !in href
    ensures ClassifyHref(href).anchor.None? ==> href == ClassifyHref(href).chapterPath
    ensures ClassifyHref(href).anchor.Some? ==>
      '#' !in ClassifyHref(href).anchor.value
      && StartsWith(href, ClassifyHref(href).chapterPath + "#" + ClassifyHref(href).anchor.value)
  {
    var parts := Split(href, '#');
    if |parts| > 1 {
      JoinStartsWithTwo(parts, '#');
      assert Join(parts, '#') == parts[0] + ['#'] + Join(parts[1..], '#');
      assert href[|parts[0]|] == '#';
    } else {
      assert href == parts[0];
    }
  }

  /** Round trip: a chapter path with an optional anchor, written as a link, is read back as such. */
  lemma ChapterLinkRoundTrip(path: string, anchor: string)
    requires path != "" && '#' !in path && '#' !in anchor && IsLocal(path)
    ensures ClassifyHref(path) == OpenChapter(path, None)
    ensures ClassifyHref(path + "#" + anchor) == OpenChapter(path, Some(anchor))
  {
    SplitNone(path, '#');
    SplitNone(anchor, '#');
    var href := path + "#" + anchor;
    SplitCons(path, '#', anchor);
    assert href[0] == path[0];
    NoPrefixKept(path, anchor, "http://");
    NoPrefixKept(path, anchor, "https://");
    NoPrefixKept(path, anchor, "mailto:");
  }

  /** Appending '#' and an anchor to a path without '#' cannot create a prefix that holds no '#'. */
  lemma NoPrefixKept(path: string, anchor: string, p: string)
    requires '#' !in path && '#' !in p && !StartsWith(path, p)
    ensures !StartsWith(path + "#" + anchor, p)
  {
    var href := path + "#" + anchor;
    if |p| <= |path| {
      assert href[..|p|] == path[..|p|];
    } else {
      assert href[|path|] == '#';
    }
  }

  /** A spine item: its href, and its chapter document when it loaded. */
  datatype SpineItem = SpineItem(href: string, content: Option<string>)

  /** `epubHrefToIndex[item.href] = i` runs only for a chapter that loaded and has an href. */
  predicate Registered(item: SpineItem) {
    item.content.Some? && item.href != ""
  }

  /** The href index as `Object.entries` lists it: (href, spine position) in insertion order. */
  type HrefIndex = seq<(string, nat)>

  function Keys(index: HrefIndex): (ks: seq<string>)
    ensures |ks| == |index| && forall k :: 0 <= k < |index| ==> ks[k] == index[k].0
  {
    seq(|index|, k requires 0 <= k < |index| => index[k].0)
  }

  /** One href per entry, as in a JavaScript object. */
  predicate DistinctKeys(index: HrefIndex) {
    forall i, j :: 0 <= i < j < |index| ==> index[i].0 != index[j].0
  }

  /**
   * `epubHrefToIndex[href] = i`: a new href goes to the end of the entries, a known one keeps its
   * place and takes the new position.
   */
  function Register(index: HrefIndex, href: string, i: nat): (r: HrefIndex)
    ensures Keys(r) == if href in Keys(index) then Keys(index) else Keys(index) + [href]
    ensures forall k :: 0 <= k < |r| ==> r[k].1 == (if r[k].0 == href then i else index[k].1)
  {
    if href in Keys(index) then
      seq(|index|, k requires 0 <= k < |index| => if index[k].0 == href then (href, i) else index[k])
    else index + [(href, i)]
  }

  /** The hrefs in order of their first appearance: each kept at its first occurrence only. */
  function FirstOccurrences(hrefs: seq<string>): seq<string>
  {
    if hrefs == [] then []
    else
      var prior := FirstOccurrences(hrefs[..|hrefs| - 1]);
      if hrefs[|hrefs| - 1] in prior then prior else prior + [hrefs[|hrefs| - 1]]
  }

  lemma FirstOccurrencesSnoc(hrefs: seq<string>, h: string)
    ensures FirstOccurrences(hrefs + [h])
         == if h in FirstOccurrences(hrefs) then FirstOccurrences(hrefs) else FirstOccurrences(hrefs) + [h]
  {
    assert (hrefs + [h])[..|hrefs|] == hrefs;
  }

  /** No href is listed twice. */
  lemma {:induction false} FirstOccurrencesDistinct(hrefs: seq<string>)
    ensures forall i, j :: 0 <= i < j < |FirstOccurrences(hrefs)| ==> FirstOccurrences(hrefs)[i] != FirstOccurrences(hrefs)[j]
    decreases |hrefs|
  {
    if hrefs != [] {
      var prior := FirstOccurrences(hrefs[..|hrefs| - 1]);
      var h := hrefs[|hrefs| - 1];
      FirstOccurrencesDistinct(hrefs[..|hrefs| - 1]);
      assert FirstOccurrences(hrefs) == if h in prior then prior else prior + [h];
      if h !in prior {
        var r := prior + [h];
        forall i, j | 0 <= i < j < |r| ensures r[i] != r[j] {
          if j == |prior| {
            assert r[i] == prior[i];
          } else {
            assert r[i] == prior[i] && r[j] == prior[j];
          }
        }
      }
    }
  }

  /** The hrefs the loader registers among the first n spine items, in spine order (repeats included). */
  function RegisteredHrefs(items: seq<SpineItem>, n: nat): seq<string>
    requires n <= |items|
  {
    if n == 0 then []
    else RegisteredHrefs(items, n - 1) + (if Registered(items[n - 1]) then [items[n - 1].href] else [])
  }

  /** Among the first n items, position j is the last registration of href. */
  ghost predicate LastRegistration(items: seq<SpineItem>, n: int, href: string, j: int) {
    && 0 <= j < n <= |items| && Registered(items[j]) && items[j].href == href
    && forall j' :: j < j' < n && Registered(items[j']) ==> items[j'].href != href
  }

  /** The loop invariant of IndexSpine after the first n items. */
  ghost predicate Indexes(items: seq<SpineItem>, n: nat, index: HrefIndex) {
    && n <= |items|
    && Keys(index) == FirstOccurrences(RegisteredHrefs(items, n))
    && forall k :: 0 <= k < |index| ==> LastRegistration(items, n, index[k].0, index[k].1)
  }

  lemma SkipStep(items: seq<SpineItem>, n: nat, index: HrefIndex)
    requires Indexes(items, n, index) && n < |items| && !Registered(items[n])
    ensures Indexes(items, n + 1, index)
  {
    assert RegisteredHrefs(items, n + 1) == RegisteredHrefs(items, n) + [];
    assert RegisteredHrefs(items, n + 1) == RegisteredHrefs(items, n);
    forall k | 0 <= k < |index| ensures LastRegistration(items, n + 1, index[k].0, index[k].1) {
      assert LastRegistration(items, n, index[k].0, index[k].1);
    }
  }

  lemma RegisterStep(items: seq<SpineItem>, n: nat, index: HrefIndex)
    requires Indexes(items, n, index) && n < |items| && Registered(items[n])
    ensures Indexes(items, n + 1, Register(index, items[n].href, n))
  {
    var h := items[n].href;
    var r := Register(index, h, n);
    assert RegisteredHrefs(items, n + 1) == RegisteredHrefs(items, n) + [h];
    FirstOccurrencesSnoc(RegisteredHrefs(items, n), h);
    forall k | 0 <= k < |r| ensures LastRegistration(items, n + 1, r[k].0, r[k].1) {
      if r[k].0 != h {
        assert Keys(r)[k] == r[k].0 && Keys(index)[k] == index[k].0;
        assert LastRegistration(items, n, index[k].0, index[k].1);
      }
    }
  }

  /**
   * The href index of a spine: one entry per registered href, in the order hrefs were first
   * registered, each holding the spine position of its last registration.
   */
  ghost predicate SpineIndex(items: seq<SpineItem>, index: HrefIndex) {
    && DistinctKeys(index)
    && Keys(index) == FirstOccurrences(RegisteredHrefs(items, |items|))
    && forall k :: 0 <= k < |index| ==> LastRegistration(items, |items|, index[k].0, index[k].1)
  }

  /** The href index loadEPUB builds, one spine item at a time. */
  method IndexSpine(items: seq<SpineItem>) returns (index: HrefIndex)
    ensures SpineIndex(items, index)
  {
    index := [];
    var i := 0;
    while i < |items|
      invariant Indexes(items, i, index)
    {
      if Registered(items[i]) {
        RegisterStep(items, i, index);
        index := Register(index, items[i].href, i);
      } else {
        SkipStep(items, i, index);
      }
      i := i + 1;
    }
    FirstOccurrencesDistinct(RegisteredHrefs(items, |items|));
    assert forall k :: 0 <= k < |index| ==> Keys(index)[k] == index[k].0;
  }

  /** `chapterHref.includes(chapterPath) || chapterPath.includes(chapterHref)` */
  predicate Matches(chapterHref: string, chapterPath: string) {
    Contains(chapterHref, chapterPath) || Contains(chapterPath, chapterHref)
  }

  /**
   * The lookup loop over `Object.entries(epubHrefToIndex)`: the position of the first entry, in
   * insertion order, whose href and the link's path contain one another; -1 when none does.
   */
  method FindChapter(index: HrefIndex, chapterPath: string) returns (target: int)
    ensures target == -1 <==> forall k :: 0 <= k < |index| ==> !Matches(index[k].0, chapterPath)
    ensures target != -1 ==> exists k :: 0 <= k < |index| && Matches(index[k].0, chapterPath)
                                     && target == index[k].1
                                     && forall j :: 0 <= j < k ==> !Matches(index[j].0, chapterPath)
  {
    target := -1;
    var k := 0;
    while k < |index|
      invariant 0 <= k <= |index|
      invariant forall j :: 0 <= j < k ==> !Matches(index[j].0, chapterPath)
    {
      if Matches(index[k].0, chapterPath) {
        target := index[k].1;
        return;
      }
      k := k + 1;
    }
  }
}
