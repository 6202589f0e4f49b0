/**
 * The smart context window of the reader (app.js: estimateTokens, getSmartContext): a run of
 * consecutive pages or chapters around the page the user is on, grown one neighbour at a time,
 * upward neighbour first, as long as the estimated token count stays strictly under a budget.
 */
module ContextWindow {
  import opened Wrappers
  import opened Text
  import opened Protocol

  /** The budget the client passes (app.js: MAX_CONTEXT_TOKENS). */
  const MAX_CONTEXT_TOKENS: int := 150000

  /** `Math.ceil(text.length / 3)`: the least t with 3t at least the length in UTF-16 code units. */
  function EstimateTokens(text: string): (t: nat)
    ensures 3 * t >= Utf16Length(text) && 3 * t < Utf16Length(text) + 3
  {
    (Utf16Length(text) + 2) / 3
  }

  /** The result of getSmartContext: the labelled text, the included page numbers and their token estimate. */
  datatype SmartContext = SmartContext(text: string, pages: seq<int>, tokens: int)

  /** Block tag: chapters for an EPUB, pages otherwise (also when no document type is set). */
  function Label(docType: Option<DocType>): (tag: string)
    ensures tag == "Chapter" <==> docType == Some(Epub)
  {
    if docType == Some(Epub) then "Chapter" else "Page"
  }

  /** `pdfPageTexts[p]`, with a missing page read as the empty string (both are falsy). */
  function TextOf(texts: map<int, string>, p: int): string {
    if p in texts then texts[p] else ""
  }

  /** `pdfPageTexts[p]` is truthy: the page exists and its text is not empty. */
  predicate Present(texts: map<int, string>, p: int) {
    TextOf(texts, p) != ""
  }

  function Header(tag: string, p: int): string {
    "--- " + tag + " " + IntToString(p) + " ---\n"
  }

  /** The block of the centre page: no leading blank line. */
  function CentreBlock(texts: map<int, string>, tag: string, p: int): string {
    Header(tag, p) + TextOf(texts, p)
  }

  /** The block of a neighbour page: separated from the next block by a blank line. */
  function NeighbourBlock(texts: map<int, string>, tag: string, p: int): string {
    "\n\n" + CentreBlock(texts, tag, p)
  }

  function Cost(texts: map<int, string>, tag: string, p: int): nat {
    EstimateTokens(NeighbourBlock(texts, tag, p))
  }

  /** Neighbour blocks of the pages a, a+1, ..., b-1, in ascending order. */
  function Blocks(texts: map<int, string>, tag: string, a: int, b: int): string
    decreases b - a
  {
    if a >= b then "" else NeighbourBlock(texts, tag, a) + Blocks(texts, tag, a + 1, b)
  }

  /** The cost of each page's neighbour block, as a function of the page. */
  function CostOf(texts: map<int, string>, tag: string): int -> nat {
    p => Cost(texts, tag, p)
  }

  /** cost(a) + cost(a + 1) + ... + cost(b - 1). */
  function Sum(cost: int -> nat, a: int, b: int): nat
    decreases b - a
  {
    if a >= b then 0 else cost(a) + Sum(cost, a + 1, b)
  }

  /** The summed cost of the neighbour blocks of pages a .. b-1. */
  function Costs(texts: map<int, string>, tag: string, a: int, b: int): nat {
    Sum(CostOf(texts, tag), a, b)
  }

  /** The integers a, a+1, ..., b-1. */
  function Range(a: int, b: int): (r: seq<int>)
    ensures |r| == if a <= b then b - a else 0
    ensures forall i :: 0 <= i < |r| ==> r[i] == a + i
    decreases b - a
  {
    if a >= b then [] else [a] + Range(a + 1, b)
  }

  lemma {:induction false} RangeSnoc(a: int, b: int)
    requires a <= b
    ensures Range(a, b + 1) == Range(a, b) + [b]
    decreases b - a
  {
    if a < b {
      RangeSnoc(a + 1, b);
    }
  }

  lemma {:induction false} BlocksSnoc(texts: map<int, string>, tag: string, a: int, b: int)
    requires a <= b
    ensures Blocks(texts, tag, a, b + 1) == Blocks(texts, tag, a, b) + NeighbourBlock(texts, tag, b)
    decreases b - a
  {
    if a < b {
      BlocksSnoc(texts, tag, a + 1, b);
    }
  }

  lemma {:induction false} SumSnoc(cost: int -> nat, a: int, b: int)
    requires a <= b
    ensures Sum(cost, a, b + 1) == Sum(cost, a, b) + cost(b)
    decreases b - a
  {
    if a < b {
      SumSnoc(cost, a + 1, b);
    }
  }

  /** A non-empty set has a member. */
  lemma NonEmptyHasMember(s: set<int>)
    requires s != {}
    ensures exists x :: x in s
  {
    if forall x :: x !in s {
      assert false;
    }
  }

  /** `m` is the least key of `keys`: `keys[0]` once the keys are sorted. */
  ghost predicate IsLeast(keys: set<int>, m: int) {
    m in keys && forall k :: k in keys ==> m <= k
  }

  /**
   * The first and the last of the page keys in ascending order (`keys[0]` and
   * `keys[keys.length - 1]` after the numeric sort).
   */
  method KeyBounds(keys: set<int>) returns (least: int, greatest: int)
    requires keys != {}
    ensures least in keys && greatest in keys
    ensures forall k :: k in keys ==> least <= k <= greatest
  {
    NonEmptyHasMember(keys);
    var first :| first in keys;
    least, greatest := first, first;
    var rest := keys - {first};
    while rest != {}
      invariant rest <= keys
      invariant least in keys && greatest in keys
      invariant forall k :: k in keys && k !in rest ==> least <= k <= greatest
      decreases |rest|
    {
      NonEmptyHasMember(rest);
      var k :| k in rest;
      if k < least {
        least := k;
      }
      if k > greatest {
        greatest := k;
      }
      rest := rest - {k};
    }
  }

  /** `c` is the page the window is centred on: the requested page if its text is truthy, else the first key. */
  ghost predicate IsCentre(texts: map<int, string>, centerPage: int, c: int) {
    if Present(texts, centerPage) then c == centerPage else IsLeast(texts.Keys, c)
  }

  /** No page can be added above `lo`: the page before it is missing or empty, or its block would not fit. */
  ghost predicate UpBlocked(texts: map<int, string>, tag: string, lo: int, tokens: int, budget: int) {
    !Present(texts, lo - 1) || tokens + Cost(texts, tag, lo - 1) >= budget
  }

  /** No page can be added below `hi`, symmetrically. */
  ghost predicate DownBlocked(texts: map<int, string>, tag: string, hi: int, tokens: int, budget: int) {
    !Present(texts, hi + 1) || tokens + Cost(texts, tag, hi + 1) >= budget
  }

  function Min(a: int, b: int): int {
    if a <= b then a else b
  }

  /** The estimate of the centre block alone. */
  function CentreCost(texts: map<int, string>, tag: string, c: int): nat {
    EstimateTokens(CentreBlock(texts, tag, c))
  }

  /**
   * The token count of the window a..b around the centre c, for a centre estimate t0 and a cost
   * per neighbour page. The growth rule below is stated for any such costs.
   */
  function Tokens(t0: int, cost: int -> nat, c: int, a: int, b: int): int {
    t0 + Sum(cost, a, c) + Sum(cost, c + 1, b + 1)
  }

  /*
   * Round j of the loop tries page c - j above, then page c + j below, each against the window
   * built so far. For a final window lo..hi, page p above was tried in round c - p, when the
   * window was p + 1 .. c + min(hi - c, c - p - 1); page q below in round q - c, when it was
   * c - min(c - lo, q - c) .. q - 1. A direction stops at its first refusal.
   */

  /** The page p above the centre fitted beside the window as it stood when p was tried. */
  ghost predicate TookUp(t0: int, cost: int -> nat, c: int, hi: int, budget: int, p: int) {
    Tokens(t0, cost, c, p + 1, c + Min(hi - c, c - p - 1)) + cost(p) < budget
  }

  /** The page q below the centre fitted beside the window as it stood when q was tried. */
  ghost predicate TookDown(t0: int, cost: int -> nat, c: int, lo: int, budget: int, q: int) {
    Tokens(t0, cost, c, c - Min(c - lo, q - c), q - 1) + cost(q) < budget
  }

  /** Every page of the window lo..hi was accepted in its own round. */
  ghost predicate History(t0: int, cost: int -> nat, c: int, lo: int, hi: int, budget: int) {
    && (forall p :: lo <= p < c ==> TookUp(t0, cost, c, hi, budget, p))
    && (forall q :: c < q <= hi ==> TookDown(t0, cost, c, lo, budget, q))
  }

  /** The attempt at lo - 1, in round c - lo + 1, was refused: the page is missing or empty, or did not fit. */
  ghost predicate UpRefused(texts: map<int, string>, t0: int, cost: int -> nat, c: int, lo: int, hi: int, budget: int) {
    !Present(texts, lo - 1) || Tokens(t0, cost, c, lo, c + Min(hi - c, c - lo)) + cost(lo - 1) >= budget
  }

  /** The attempt at hi + 1, in round hi - c + 1, was refused, after that round's upward attempt. */
  ghost predicate DownRefused(texts: map<int, string>, t0: int, cost: int -> nat, c: int, lo: int, hi: int, budget: int) {
    !Present(texts, hi + 1) || Tokens(t0, cost, c, c - Min(c - lo, hi - c + 1), hi) + cost(hi + 1) >= budget
  }

  /** Prepending page lo - 1, accepted against the window lo..hi, keeps every page accepted in its round. */
  lemma HistoryUp(t0: int, cost: int -> nat, c: int, lo: int, lo': int, hi: int, budget: int)
    requires lo' == lo - 1 && lo <= c <= hi && hi - c <= c - lo
    requires History(t0, cost, c, lo, hi, budget)
    requires Tokens(t0, cost, c, lo, hi) + cost(lo') < budget
    ensures History(t0, cost, c, lo', hi, budget)
  {
    forall q | c < q <= hi
      ensures TookDown(t0, cost, c, lo', budget, q)
    {
      assert TookDown(t0, cost, c, lo, budget, q);
    }
  }

  /** Appending page hi + 1, accepted against the window lo..hi, keeps every page accepted in its round. */
  lemma HistoryDown(t0: int, cost: int -> nat, c: int, lo: int, hi: int, hi': int, budget: int)
    requires hi' == hi + 1 && lo <= c <= hi && c - lo <= hi - c + 1
    requires History(t0, cost, c, lo, hi, budget)
    requires Tokens(t0, cost, c, lo, hi) + cost(hi') < budget
    ensures History(t0, cost, c, lo, hi', budget)
  {
    forall p | lo <= p < c
      ensures TookUp(t0, cost, c, hi', budget, p)
    {
      assert TookUp(t0, cost, c, hi, budget, p);
    }
  }

  /** A refusal below stays a refusal when a page is prepended in a later round. */
  lemma DownRefusedUp(texts: map<int, string>, t0: int, cost: int -> nat, c: int, lo: int, lo': int, hi: int, budget: int)
    requires lo' == lo - 1 && hi - c + 1 <= c - lo
    requires DownRefused(texts, t0, cost, c, lo, hi, budget)
    ensures DownRefused(texts, t0, cost, c, lo', hi, budget)
  {
  }

  /** A refusal above stays a refusal when a page is appended in the same or a later round. */
  lemma UpRefusedDown(texts: map<int, string>, t0: int, cost: int -> nat, c: int, lo: int, hi: int, hi': int, budget: int)
    requires hi' == hi + 1 && c - lo <= hi - c
    requires UpRefused(texts, t0, cost, c, lo, hi, budget)
    ensures UpRefused(texts, t0, cost, c, lo, hi', budget)
  {
  }

  /** The upward attempt against the whole window lo..hi (all of it built before that round) was refused. */
  lemma RefuseUp(texts: map<int, string>, t0: int, cost: int -> nat, c: int, lo: int, hi: int, budget: int)
    requires hi - c <= c - lo
    requires !Present(texts, lo - 1) || Tokens(t0, cost, c, lo, hi) + cost(lo - 1) >= budget
    ensures UpRefused(texts, t0, cost, c, lo, hi, budget)
  {
  }

  /** The downward attempt against the whole window lo..hi (all of it built before that half-round) was refused. */
  lemma RefuseDown(texts: map<int, string>, t0: int, cost: int -> nat, c: int, lo: int, hi: int, budget: int)
    requires c - lo <= hi - c + 1
    requires !Present(texts, hi + 1) || Tokens(t0, cost, c, lo, hi) + cost(hi + 1) >= budget
    ensures DownRefused(texts, t0, cost, c, lo, hi, budget)
  {
  }

  /** The centre's entry in the page list: the centre itself when its text is truthy, else nothing. */
  function Mid(texts: map<int, string>, c: int): seq<int> {
    if Present(texts, c) then [c] else []
  }

  /** Every page of lo..hi other than the centre is present; the centre is absent only if nothing lies above it. */
  ghost predicate SpanShape(texts: map<int, string>, c: int, lo: int, hi: int) {
    && lo <= c <= hi
    && (!Present(texts, c) ==> lo == c)
    && (forall p :: lo <= p <= hi && p != c ==> Present(texts, p))
  }

  /** The page list of the window lo..hi: ascending, with the centre listed only if it is present. */
  ghost predicate SpanPages(texts: map<int, string>, c: int, lo: int, hi: int, pages: seq<int>) {
    pages == Range(lo, c) + Mid(texts, c) + Range(c + 1, hi + 1)
  }

  /** The text of the window lo..hi: the blocks in ascending page order. */
  ghost predicate SpanText(texts: map<int, string>, tag: string, c: int, lo: int, hi: int, text: string) {
    text == Blocks(texts, tag, lo, c) + CentreBlock(texts, tag, c) + Blocks(texts, tag, c + 1, hi + 1)
  }

  /** The token count of the window lo..hi: the estimates of its blocks, summed. */
  ghost predicate SpanTokens(texts: map<int, string>, tag: string, c: int, lo: int, hi: int, tokens: int) {
    tokens == Tokens(CentreCost(texts, tag, c), CostOf(texts, tag), c, lo, hi)
  }

  /** The result for the window lo..hi around the centre c. */
  function WindowOf(texts: map<int, string>, tag: string, c: int, lo: int, hi: int): SmartContext {
    SmartContext(Blocks(texts, tag, lo, c) + CentreBlock(texts, tag, c) + Blocks(texts, tag, c + 1, hi + 1),
                 Range(lo, c) + Mid(texts, c) + Range(c + 1, hi + 1),
                 Tokens(CentreCost(texts, tag, c), CostOf(texts, tag), c, lo, hi))
  }

  /**
   * `r` is the window of pages lo..hi around the centre c: every page other than the centre is
   * present, the centre is listed only if it is present itself, the text is the blocks in ascending
   * page order and the tokens are the sum of their costs.
   */
  ghost predicate Spans(texts: map<int, string>, tag: string, c: int, lo: int, hi: int, r: SmartContext) {
    SpanShape(texts, c, lo, hi) && r == WindowOf(texts, tag, c, lo, hi)
  }

  /** The centre block alone is the window of the single page c. */
  lemma CentreSpans(texts: map<int, string>, tag: string, c: int)
    ensures Spans(texts, tag, c, c, c,
      SmartContext(CentreBlock(texts, tag, c), Mid(texts, c), EstimateTokens(CentreBlock(texts, tag, c))))
  {
    AppendEmpty(Mid(texts, c));
    AppendEmpty(CentreBlock(texts, tag, c));
  }

  lemma ShapeUp(texts: map<int, string>, c: int, lo: int, hi: int, p: int)
    requires SpanShape(texts, c, lo, hi) && p == lo - 1 && Present(texts, c) && Present(texts, p)
    ensures SpanShape(texts, c, p, hi)
  {
  }

  lemma PagesUp(texts: map<int, string>, c: int, lo: int, hi: int, pages: seq<int>, p: int)
    requires lo <= c && p == lo - 1 && SpanPages(texts, c, lo, hi, pages)
    ensures SpanPages(texts, c, p, hi, [p] + pages)
  {
    assert Range(p, c) == [p] + Range(lo, c);
    AppendAssoc([p], Range(lo, c) + Mid(texts, c), Range(c + 1, hi + 1));
    AppendAssoc([p], Range(lo, c), Mid(texts, c));
  }

  lemma TextUp(texts: map<int, string>, tag: string, c: int, lo: int, hi: int, text: string, p: int)
    requires lo <= c && p == lo - 1 && SpanText(texts, tag, c, lo, hi, text)
    ensures SpanText(texts, tag, c, p, hi, NeighbourBlock(texts, tag, p) + text)
  {
    var nb := NeighbourBlock(texts, tag, p);
    var above := Blocks(texts, tag, lo, c);
    var cb := CentreBlock(texts, tag, c);
    assert Blocks(texts, tag, p, c) == nb + above;
    AppendAssoc(nb, above + cb, Blocks(texts, tag, c + 1, hi + 1));
    AppendAssoc(nb, above, cb);
  }

  lemma TokensUp(texts: map<int, string>, tag: string, c: int, lo: int, hi: int, tokens: int, p: int)
    requires lo <= c && p == lo - 1 && SpanTokens(texts, tag, c, lo, hi, tokens)
    ensures SpanTokens(texts, tag, c, p, hi, tokens + Cost(texts, tag, p))
  {
    assert Sum(CostOf(texts, tag), p, c) == CostOf(texts, tag)(p) + Sum(CostOf(texts, tag), lo, c);
  }

  /** Prepending the page above keeps the window shape, one page higher up. */
  lemma GrowUp(texts: map<int, string>, tag: string, c: int, lo: int, hi: int, r: SmartContext, p: int)
    requires Spans(texts, tag, c, lo, hi, r) && p == lo - 1
    requires Present(texts, c) && Present(texts, p)
    ensures Spans(texts, tag, c, p, hi,
      SmartContext(NeighbourBlock(texts, tag, p) + r.text, [p] + r.pages, r.tokens + Cost(texts, tag, p)))
  {
    ShapeUp(texts, c, lo, hi, p);
    PagesUp(texts, c, lo, hi, r.pages, p);
    TextUp(texts, tag, c, lo, hi, r.text, p);
    TokensUp(texts, tag, c, lo, hi, r.tokens, p);
  }

  lemma ShapeDown(texts: map<int, string>, c: int, lo: int, hi: int, q: int)
    requires SpanShape(texts, c, lo, hi) && q == hi + 1 && Present(texts, q)
    ensures SpanShape(texts, c, lo, q)
  {
  }

  lemma PagesDown(texts: map<int, string>, c: int, lo: int, hi: int, pages: seq<int>, q: int)
    requires c <= hi && q == hi + 1 && SpanPages(texts, c, lo, hi, pages)
    ensures SpanPages(texts, c, lo, q, pages + [q])
  {
    RangeSnoc(c + 1, q);
    AppendAssoc(Range(lo, c) + Mid(texts, c), Range(c + 1, q), [q]);
  }

  lemma TextDown(texts: map<int, string>, tag: string, c: int, lo: int, hi: int, text: string, q: int)
    requires c <= hi && q == hi + 1 && SpanText(texts, tag, c, lo, hi, text)
    ensures SpanText(texts, tag, c, lo, q, text + NeighbourBlock(texts, tag, q))
  {
    BlocksSnoc(texts, tag, c + 1, q);
    AppendAssoc(Blocks(texts, tag, lo, c) + CentreBlock(texts, tag, c), Blocks(texts, tag, c + 1, q),
                NeighbourBlock(texts, tag, q));
  }

  lemma TokensDown(texts: map<int, string>, tag: string, c: int, lo: int, hi: int, tokens: int, q: int)
    requires c <= hi && q == hi + 1 && SpanTokens(texts, tag, c, lo, hi, tokens)
    ensures SpanTokens(texts, tag, c, lo, q, tokens + Cost(texts, tag, q))
  {
    SumSnoc(CostOf(texts, tag), c + 1, q);
  }

  /** Appending the page below keeps the window shape, one page further down. */
  lemma GrowDown(texts: map<int, string>, tag: string, c: int, lo: int, hi: int, r: SmartContext, q: int)
    requires Spans(texts, tag, c, lo, hi, r) && q == hi + 1
    requires Present(texts, q)
    ensures Spans(texts, tag, c, lo, q,
      SmartContext(r.text + NeighbourBlock(texts, tag, q), r.pages + [q], r.tokens + Cost(texts, tag, q)))
  {
    ShapeDown(texts, c, lo, hi, q);
    PagesDown(texts, c, lo, hi, r.pages, q);
    TextDown(texts, tag, c, lo, hi, r.text, q);
    TokensDown(texts, tag, c, lo, hi, r.tokens, q);
  }

  /** The growth rule met by a final window lo..hi holding `tokens`, for any centre estimate and page costs. */
  ghost predicate Grown(texts: map<int, string>, t0: int, cost: int -> nat, c: int, lo: int, hi: int, tokens: int,
                        budget: int)
  {
    && ((lo < c || c < hi) ==> tokens < budget)
    && History(t0, cost, c, lo, hi, budget)
    && UpRefused(texts, t0, cost, c, lo, hi, budget)
    && DownRefused(texts, t0, cost, c, lo, hi, budget)
  }

  /**
   * Everything getSmartContext promises of a non-empty page map: the window shape; the total stays
   * strictly under the budget as soon as one neighbour was added (the centre alone may exceed it);
   * every page was accepted against the window of its own round, up before down; and each
   * direction ended with a refusal of the page next to it.
   */
  ghost predicate Window(texts: map<int, string>, tag: string, c: int, lo: int, hi: int, budget: int, r: SmartContext) {
    Spans(texts, tag, c, lo, hi, r) && Grown(texts, CentreCost(texts, tag, c), CostOf(texts, tag), c, lo, hi, r.tokens, budget)
  }

  /** Every key lies between the least and the greatest key, which are at least 1. */
  ghost predicate KeyRange(texts: map<int, string>, minPage: int, maxPage: int) {
    1 <= minPage && forall k :: k in texts ==> minPage <= k <= maxPage
  }

  /** The state of the getSmartContext loop: the result so far, the window lo..hi it covers and both cursors. */
  datatype Cursor = Cursor(r: SmartContext, lo: int, hi: int, up: int, down: int)

  /** The upward half of one round: prepend the page at the upper cursor, or park the cursor at 0. */
  function StepUp(texts: map<int, string>, tag: string, minPage: int, budget: int, s: Cursor): Cursor {
    if s.up >= minPage && Present(texts, s.up) && s.r.tokens + Cost(texts, tag, s.up) < budget then
      Cursor(SmartContext(NeighbourBlock(texts, tag, s.up) + s.r.text, [s.up] + s.r.pages,
                          s.r.tokens + Cost(texts, tag, s.up)),
             s.lo - 1, s.hi, s.up - 1, s.down)
    else
      s.(up := 0)
  }

  /** The downward half of one round: append the page at the lower cursor, or park it past the last key. */
  function StepDown(texts: map<int, string>, tag: string, maxPage: int, budget: int, s: Cursor): Cursor {
    if s.down <= maxPage && Present(texts, s.down) && s.r.tokens + Cost(texts, tag, s.down) < budget then
      Cursor(SmartContext(s.r.text + NeighbourBlock(texts, tag, s.down), s.r.pages + [s.down],
                          s.r.tokens + Cost(texts, tag, s.down)),
             s.lo, s.hi + 1, s.up, s.down + 1)
    else
      s.(down := maxPage + 1)
  }

  /** One round of the loop: the upward half, then the downward half. */
  function Round(texts: map<int, string>, tag: string, minPage: int, maxPage: int, budget: int, s: Cursor): Cursor {
    StepDown(texts, tag, maxPage, budget, StepUp(texts, tag, minPage, budget, s))
  }

  // The loop's numbers alone: the window bounds, both cursors and the token count, for any page costs.

  datatype Bounds = Bounds(lo: int, hi: int, up: int, down: int, tokens: int)

  function BoundsOf(s: Cursor): Bounds {
    Bounds(s.lo, s.hi, s.up, s.down, s.r.tokens)
  }

  /** StepUp on the numbers. */
  function UpStep(texts: map<int, string>, cost: int -> nat, minPage: int, budget: int, b: Bounds): Bounds {
    if b.up >= minPage && Present(texts, b.up) && b.tokens + cost(b.up) < budget
    then Bounds(b.lo - 1, b.hi, b.up - 1, b.down, b.tokens + cost(b.up))
    else b.(up := 0)
  }

  /** StepDown on the numbers. */
  function DownStep(texts: map<int, string>, cost: int -> nat, maxPage: int, budget: int, b: Bounds): Bounds {
    if b.down <= maxPage && Present(texts, b.down) && b.tokens + cost(b.down) < budget
    then Bounds(b.lo, b.hi + 1, b.up, b.down + 1, b.tokens + cost(b.down))
    else b.(down := maxPage + 1)
  }

  /**
   * What holds of the numbers between any two half-rounds: the bounds, the window shape, the token
   * count, the budget once a neighbour was added, and the acceptance of every page taken so far.
   */
  ghost predicate Core(texts: map<int, string>, t0: int, cost: int -> nat, c: int, minPage: int, maxPage: int,
                       budget: int, b: Bounds)
  {
    && minPage <= b.lo && b.hi <= maxPage
    && (!Present(texts, c) ==> c == minPage)
    && SpanShape(texts, c, b.lo, b.hi)
    && b.tokens == Tokens(t0, cost, c, b.lo, b.hi)
    && ((b.lo < c || c < b.hi) ==> b.tokens < budget)
    && History(t0, cost, c, b.lo, b.hi, budget)
  }

  /** After k upward attempts: every one took a page and the cursor is just above, or one was refused and it is parked. */
  ghost predicate UpState(texts: map<int, string>, t0: int, cost: int -> nat, c: int, budget: int, b: Bounds, k: nat) {
    || (b.up == b.lo - 1 && c - b.lo == k)
    || (b.up == 0 && c - b.lo < k && UpRefused(texts, t0, cost, c, b.lo, b.hi, budget))
  }

  /** After k downward attempts, symmetrically, the cursor parked past the last key. */
  ghost predicate DownState(texts: map<int, string>, t0: int, cost: int -> nat, c: int, maxPage: int, budget: int,
                            b: Bounds, k: nat)
  {
    || (b.down == b.hi + 1 && b.hi - c == k)
    || (b.down == maxPage + 1 && b.hi - c < k && DownRefused(texts, t0, cost, c, b.lo, b.hi, budget))
  }

  /** The numbers at the head of round k + 1. */
  ghost predicate RoundNumbers(texts: map<int, string>, t0: int, cost: int -> nat, c: int, minPage: int, maxPage: int,
                               budget: int, b: Bounds, k: nat)
  {
    Core(texts, t0, cost, c, minPage, maxPage, budget, b)
      && UpState(texts, t0, cost, c, budget, b, k) && DownState(texts, t0, cost, c, maxPage, budget, b, k)
  }

  /** The numbers between the upward and the downward half of round k + 1. */
  ghost predicate HalfNumbers(texts: map<int, string>, t0: int, cost: int -> nat, c: int, minPage: int, maxPage: int,
                              budget: int, b: Bounds, k: nat)
  {
    Core(texts, t0, cost, c, minPage, maxPage, budget, b)
      && UpState(texts, t0, cost, c, budget, b, k + 1) && DownState(texts, t0, cost, c, maxPage, budget, b, k)
  }

  /** The upward half of round k + 1 keeps the numbers' invariant. */
  lemma UpHalfNumbers(texts: map<int, string>, t0: int, cost: int -> nat, c: int, minPage: int, maxPage: int,
                      budget: int, b: Bounds, k: nat)
    requires KeyRange(texts, minPage, maxPage)
    requires RoundNumbers(texts, t0, cost, c, minPage, maxPage, budget, b, k)
    ensures HalfNumbers(texts, t0, cost, c, minPage, maxPage, budget, UpStep(texts, cost, minPage, budget, b), k)
  {
    var n := UpStep(texts, cost, minPage, budget, b);
    if b.up >= minPage && Present(texts, b.up) && b.tokens + cost(b.up) < budget {
      assert b.up == b.lo - 1 && c - b.lo == k;
      HistoryUp(t0, cost, c, b.lo, n.lo, b.hi, budget);
      if b.down != b.hi + 1 {
        DownRefusedUp(texts, t0, cost, c, b.lo, n.lo, b.hi, budget);
      }
    } else if b.up == b.lo - 1 && c - b.lo == k {
      if b.up < minPage {
        assert b.lo - 1 !in texts;
      }
      RefuseUp(texts, t0, cost, c, b.lo, b.hi, budget);
    }
  }

  /** The downward half of round k + 1 keeps the numbers' invariant. */
  lemma DownHalfNumbers(texts: map<int, string>, t0: int, cost: int -> nat, c: int, minPage: int, maxPage: int,
                        budget: int, b: Bounds, k: nat)
    requires KeyRange(texts, minPage, maxPage)
    requires HalfNumbers(texts, t0, cost, c, minPage, maxPage, budget, b, k)
    ensures RoundNumbers(texts, t0, cost, c, minPage, maxPage, budget, DownStep(texts, cost, maxPage, budget, b), k + 1)
  {
    var n := DownStep(texts, cost, maxPage, budget, b);
    if b.down <= maxPage && Present(texts, b.down) && b.tokens + cost(b.down) < budget {
      assert b.down == b.hi + 1 && b.hi - c == k;
      SumSnoc(cost, c + 1, b.hi + 1);
      HistoryDown(t0, cost, c, b.lo, b.hi, n.hi, budget);
      if b.up != b.lo - 1 {
        UpRefusedDown(texts, t0, cost, c, b.lo, b.hi, n.hi, budget);
      }
    } else if b.down == b.hi + 1 && b.hi - c == k {
      if b.down > maxPage {
        assert b.hi + 1 !in texts;
      }
      RefuseDown(texts, t0, cost, c, b.lo, b.hi, budget);
    }
  }

  /** When the loop condition fails, the numbers meet the growth rule. */
  lemma FinishNumbers(texts: map<int, string>, t0: int, cost: int -> nat, c: int, minPage: int, maxPage: int,
                      budget: int, b: Bounds, k: nat)
    requires KeyRange(texts, minPage, maxPage)
    requires RoundNumbers(texts, t0, cost, c, minPage, maxPage, budget, b, k)
    requires !((b.up >= minPage || b.down <= maxPage) && b.tokens < budget)
    ensures Grown(texts, t0, cost, c, b.lo, b.hi, b.tokens, budget)
  {
    if b.up == b.lo - 1 && c - b.lo == k {
      if b.up < minPage {
        assert b.lo - 1 !in texts;
      }
      RefuseUp(texts, t0, cost, c, b.lo, b.hi, budget);
    }
    if b.down == b.hi + 1 && b.hi - c == k {
      if b.down > maxPage {
        assert b.hi + 1 !in texts;
      }
      RefuseDown(texts, t0, cost, c, b.lo, b.hi, budget);
    }
  }

  // The loop state in full: the numbers, and the text and page list of the window they describe.

  /** The loop invariant at the head of round k + 1. */
  ghost predicate RoundInv(texts: map<int, string>, tag: string, c: int, minPage: int, maxPage: int, budget: int,
                           s: Cursor, k: nat)
  {
    Spans(texts, tag, c, s.lo, s.hi, s.r)
      && RoundNumbers(texts, CentreCost(texts, tag, c), CostOf(texts, tag), c, minPage, maxPage, budget, BoundsOf(s), k)
  }

  /** The state between the upward and the downward half of round k + 1. */
  ghost predicate HalfInv(texts: map<int, string>, tag: string, c: int, minPage: int, maxPage: int, budget: int,
                          s: Cursor, k: nat)
  {
    Spans(texts, tag, c, s.lo, s.hi, s.r)
      && HalfNumbers(texts, CentreCost(texts, tag, c), CostOf(texts, tag), c, minPage, maxPage, budget, BoundsOf(s), k)
  }

  /** The state before the first round: the centre block alone. */
  function Start(texts: map<int, string>, tag: string, c: int): Cursor {
    Cursor(SmartContext(CentreBlock(texts, tag, c), Mid(texts, c), EstimateTokens(CentreBlock(texts, tag, c))),
           c, c, c - 1, c + 1)
  }

  lemma StartRound(texts: map<int, string>, tag: string, c: int, minPage: int, maxPage: int, budget: int)
    requires KeyRange(texts, minPage, maxPage) && minPage <= c <= maxPage
    requires !Present(texts, c) ==> c == minPage
    ensures RoundInv(texts, tag, c, minPage, maxPage, budget, Start(texts, tag, c), 0)
  {
    CentreSpans(texts, tag, c);
  }

  lemma CentrePresent(texts: map<int, string>, c: int, minPage: int, lo: int, hi: int)
    requires SpanShape(texts, c, lo, hi) && (!Present(texts, c) ==> c == minPage) && lo - 1 >= minPage
    ensures Present(texts, c)
  {
  }

  lemma StepUpBounds(texts: map<int, string>, tag: string, minPage: int, budget: int, s: Cursor)
    ensures BoundsOf(StepUp(texts, tag, minPage, budget, s)) == UpStep(texts, CostOf(texts, tag), minPage, budget, BoundsOf(s))
  {
    assert CostOf(texts, tag)(s.up) == Cost(texts, tag, s.up);
  }

  lemma StepDownBounds(texts: map<int, string>, tag: string, maxPage: int, budget: int, s: Cursor)
    ensures BoundsOf(StepDown(texts, tag, maxPage, budget, s)) == DownStep(texts, CostOf(texts, tag), maxPage, budget, BoundsOf(s))
  {
    assert CostOf(texts, tag)(s.down) == Cost(texts, tag, s.down);
  }

  /** The upward half keeps the text and page list those of the window the numbers describe. */
  lemma UpHalfSpans(texts: map<int, string>, tag: string, c: int, minPage: int, budget: int, s: Cursor)
    requires Spans(texts, tag, c, s.lo, s.hi, s.r) && (!Present(texts, c) ==> c == minPage)
    requires s.up >= minPage ==> s.up == s.lo - 1
    ensures var t := StepUp(texts, tag, minPage, budget, s); Spans(texts, tag, c, t.lo, t.hi, t.r)
  {
    var t := StepUp(texts, tag, minPage, budget, s);
    if s.up >= minPage && Present(texts, s.up) && s.r.tokens + Cost(texts, tag, s.up) < budget {
      CentrePresent(texts, c, minPage, s.lo, s.hi);
      GrowUp(texts, tag, c, s.lo, s.hi, s.r, s.up);
      assert t == Cursor(SmartContext(NeighbourBlock(texts, tag, s.up) + s.r.text, [s.up] + s.r.pages,
                                      s.r.tokens + Cost(texts, tag, s.up)),
                         s.lo - 1, s.hi, s.up - 1, s.down);
    } else {
      assert t == s.(up := 0);
    }
  }

  /** The downward half keeps the text and page list those of the window the numbers describe. */
  lemma DownHalfSpans(texts: map<int, string>, tag: string, c: int, maxPage: int, budget: int, s: Cursor)
    requires Spans(texts, tag, c, s.lo, s.hi, s.r)
    requires s.down <= maxPage ==> s.down == s.hi + 1
    ensures var t := StepDown(texts, tag, maxPage, budget, s); Spans(texts, tag, c, t.lo, t.hi, t.r)
  {
    var t := StepDown(texts, tag, maxPage, budget, s);
    if s.down <= maxPage && Present(texts, s.down) && s.r.tokens + Cost(texts, tag, s.down) < budget {
      GrowDown(texts, tag, c, s.lo, s.hi, s.r, s.down);
      assert t == Cursor(SmartContext(s.r.text + NeighbourBlock(texts, tag, s.down), s.r.pages + [s.down],
                                      s.r.tokens + Cost(texts, tag, s.down)),
                         s.lo, s.hi + 1, s.up, s.down + 1);
    } else {
      assert t == s.(down := maxPage + 1);
    }
  }

  /** The upward half of round k + 1, on the full state. */
  lemma UpHalf(texts: map<int, string>, tag: string, c: int, minPage: int, maxPage: int, budget: int,
               s: Cursor, k: nat)
    requires KeyRange(texts, minPage, maxPage)
    requires RoundInv(texts, tag, c, minPage, maxPage, budget, s, k)
    ensures HalfInv(texts, tag, c, minPage, maxPage, budget, StepUp(texts, tag, minPage, budget, s), k)
  {
    StepUpBounds(texts, tag, minPage, budget, s);
    UpHalfNumbers(texts, CentreCost(texts, tag, c), CostOf(texts, tag), c, minPage, maxPage, budget, BoundsOf(s), k);
    UpHalfSpans(texts, tag, c, minPage, budget, s);
  }

  /** The downward half of round k + 1, on the full state. */
  lemma DownHalf(texts: map<int, string>, tag: string, c: int, minPage: int, maxPage: int, budget: int,
                 s: Cursor, k: nat)
    requires KeyRange(texts, minPage, maxPage)
    requires HalfInv(texts, tag, c, minPage, maxPage, budget, s, k)
    ensures RoundInv(texts, tag, c, minPage, maxPage, budget, StepDown(texts, tag, maxPage, budget, s), k + 1)
  {
    StepDownBounds(texts, tag, maxPage, budget, s);
    DownHalfNumbers(texts, CentreCost(texts, tag, c), CostOf(texts, tag), c, minPage, maxPage, budget, BoundsOf(s), k);
    DownHalfSpans(texts, tag, c, maxPage, budget, s);
  }

  /** One whole round keeps the invariant. */
  lemma RoundStep(texts: map<int, string>, tag: string, c: int, minPage: int, maxPage: int, budget: int,
                  s: Cursor, j: nat, k: nat)
    requires KeyRange(texts, minPage, maxPage) && k == j + 1
    requires RoundInv(texts, tag, c, minPage, maxPage, budget, s, j)
    ensures RoundInv(texts, tag, c, minPage, maxPage, budget, Round(texts, tag, minPage, maxPage, budget, s), k)
  {
    UpHalf(texts, tag, c, minPage, maxPage, budget, s, j);
    DownHalf(texts, tag, c, minPage, maxPage, budget, StepUp(texts, tag, minPage, budget, s), j);
  }

  /** When the loop condition fails, the state is a finished window. */
  lemma Finish(texts: map<int, string>, tag: string, c: int, minPage: int, maxPage: int, budget: int,
               s: Cursor, k: nat)
    requires KeyRange(texts, minPage, maxPage)
    requires RoundInv(texts, tag, c, minPage, maxPage, budget, s, k)
    requires !((s.up >= minPage || s.down <= maxPage) && s.r.tokens < budget)
    ensures Window(texts, tag, c, s.lo, s.hi, budget, s.r)
  {
    FinishNumbers(texts, CentreCost(texts, tag, c), CostOf(texts, tag), c, minPage, maxPage, budget, BoundsOf(s), k);
  }

  /** The first half of a round of getSmartContext: try adding the page above. */
  method TryExpandUp(texts: map<int, string>, tag: string, minPage: int, budget: int,
                     contextText: string, currentTokens: int, includedPages: seq<int>, expandUp: int,
                     ghost lo: int, ghost hi: int, ghost expandDown: int)
    returns (text': string, tokens': int, pages': seq<int>, up': int, ghost lo': int)
    ensures (expandUp >= minPage && up' == expandUp - 1) || up' == 0
    ensures Cursor(SmartContext(text', pages', tokens'), lo', hi, up', expandDown)
         == StepUp(texts, tag, minPage, budget,
                   Cursor(SmartContext(contextText, includedPages, currentTokens), lo, hi, expandUp, expandDown))
  {
    text', tokens', pages', up', lo' := contextText, currentTokens, includedPages, expandUp, lo;
    if expandUp >= minPage && Present(texts, expandUp) {
      var pageText := NeighbourBlock(texts, tag, expandUp);
      var pageTokens := EstimateTokens(pageText);
      if currentTokens + pageTokens < budget {
        text' := pageText + contextText;
        tokens' := currentTokens + pageTokens;
        pages' := [expandUp] + includedPages;
        up' := expandUp - 1;
        lo' := lo - 1;
      } else {
        up' := 0;
      }
    } else {
      up' := 0;
    }
  }

  /** The second half of a round of getSmartContext: try adding the page below. */
  method TryExpandDown(texts: map<int, string>, tag: string, maxPage: int, budget: int,
                       contextText: string, currentTokens: int, includedPages: seq<int>, expandDown: int,
                       ghost lo: int, ghost hi: int, ghost expandUp: int)
    returns (text': string, tokens': int, pages': seq<int>, down': int, ghost hi': int)
    ensures (expandDown <= maxPage && down' == expandDown + 1) || down' == maxPage + 1
    ensures Cursor(SmartContext(text', pages', tokens'), lo, hi', expandUp, down')
         == StepDown(texts, tag, maxPage, budget,
                     Cursor(SmartContext(contextText, includedPages, currentTokens), lo, hi, expandUp, expandDown))
  {
    text', tokens', pages', down', hi' := contextText, currentTokens, includedPages, expandDown, hi;
    if expandDown <= maxPage && Present(texts, expandDown) {
      var pageText := NeighbourBlock(texts, tag, expandDown);
      var pageTokens := EstimateTokens(pageText);
      if currentTokens + pageTokens < budget {
        text' := contextText + pageText;
        tokens' := currentTokens + pageTokens;
        pages' := includedPages + [expandDown];
        down' := expandDown + 1;
        hi' := hi + 1;
      } else {
        down' := maxPage + 1;
      }
    } else {
      down' := maxPage + 1;
    }
  }

  /** getSmartContext(centerPage), with the page texts, document type and budget as parameters. */
  method GetSmartContext(texts: map<int, string>, docType: Option<DocType>, centerPage: int, budget: int)
    returns (r: SmartContext)
    requires forall k :: k in texts ==> k >= 1
    ensures texts == map[] ==> r == SmartContext("", [], 0)
    ensures texts != map[] ==> exists c, lo, hi ::
      IsCentre(texts, centerPage, c) && Window(texts, Label(docType), c, lo, hi, budget, r)
  {
    if |texts| == 0 {
      return SmartContext("", [], 0);
    }
    assert texts != map[];
    var minPage, maxPage := KeyBounds(texts.Keys);
    assert KeyRange(texts, minPage, maxPage);
    var c := centerPage;
    if !Present(texts, c) {
      c := minPage;
    }
    var tag := Label(docType);

    var contextText := CentreBlock(texts, tag, c);
    var currentTokens := EstimateTokens(contextText);
    var expandUp := c - 1;
    var expandDown := c + 1;
    var includedPages := Mid(texts, c);
    ghost var lo, hi := c, c;
    ghost var rounds: nat := 0;
    StartRound(texts, tag, c, minPage, maxPage, budget);

    while (expandUp >= minPage || expandDown <= maxPage) && currentTokens < budget
      invariant RoundInv(texts, tag, c, minPage, maxPage, budget,
                         Cursor(SmartContext(contextText, includedPages, currentTokens), lo, hi, expandUp, expandDown), rounds)
      decreases (if expandUp >= minPage then expandUp - minPage + 1 else 0)
              + (if expandDown <= maxPage then maxPage - expandDown + 1 else 0)
    {
      ghost var s := Cursor(SmartContext(contextText, includedPages, currentTokens), lo, hi, expandUp, expandDown);
      RoundStep(texts, tag, c, minPage, maxPage, budget, s, rounds, rounds + 1);
      contextText, currentTokens, includedPages, expandUp, lo :=
        TryExpandUp(texts, tag, minPage, budget, contextText, currentTokens, includedPages, expandUp, lo, hi, expandDown);
      contextText, currentTokens, includedPages, expandDown, hi :=
        TryExpandDown(texts, tag, maxPage, budget, contextText, currentTokens, includedPages, expandDown, lo, hi, expandUp);
      rounds := rounds + 1;
    }
    r := SmartContext(contextText, includedPages, currentTokens);
    Finish(texts, tag, c, minPage, maxPage, budget, Cursor(r, lo, hi, expandUp, expandDown), rounds);
    assert IsCentre(texts, centerPage, c) && Window(texts, tag, c, lo, hi, budget, r);
  }

  /** A sum over a range that reaches further is no smaller. */
  lemma {:induction false} SumGrow(cost: int -> nat, a: int, b: int, b': int)
    requires b <= b'
    ensures Sum(cost, a, b) <= Sum(cost, a, b')
    decreases b - a
  {
    if a < b {
      SumGrow(cost, a + 1, b, b');
    }
  }

  /** A sum over a range that starts later is no larger. */
  lemma {:induction false} SumShrink(cost: int -> nat, a: int, a': int, b: int)
    requires a <= a'
    ensures Sum(cost, a', b) <= Sum(cost, a, b)
    decreases a' - a
  {
    if a < a' {
      SumShrink(cost, a + 1, a', b);
    }
  }

  /** Each refusal was made against part of the final window, so it also refuses against the whole of it. */
  lemma MaximalNumbers(texts: map<int, string>, t0: int, cost: int -> nat, c: int, lo: int, hi: int, budget: int)
    requires lo <= c <= hi
    requires UpRefused(texts, t0, cost, c, lo, hi, budget) && DownRefused(texts, t0, cost, c, lo, hi, budget)
    ensures !Present(texts, lo - 1) || Tokens(t0, cost, c, lo, hi) + cost(lo - 1) >= budget
    ensures !Present(texts, hi + 1) || Tokens(t0, cost, c, lo, hi) + cost(hi + 1) >= budget
  {
    SumGrow(cost, c + 1, c + Min(hi - c, c - lo) + 1, hi + 1);
    SumShrink(cost, lo, c - Min(c - lo, hi - c + 1), c);
  }

  /** The result cannot take one more page in either direction. */
  lemma WindowMaximal(texts: map<int, string>, tag: string, c: int, lo: int, hi: int, budget: int, r: SmartContext)
    requires Window(texts, tag, c, lo, hi, budget, r)
    ensures UpBlocked(texts, tag, lo, r.tokens, budget) && DownBlocked(texts, tag, hi, r.tokens, budget)
  {
    MaximalNumbers(texts, CentreCost(texts, tag, c), CostOf(texts, tag), c, lo, hi, budget);
  }

  /**
   * If another window lo'..hi' reaches above lo, page lo - 1 was accepted in that window's history
   * but refused in this one's, so the two histories saw different windows below when it was tried.
   */
  lemma UpOrder(texts: map<int, string>, t0: int, cost: int -> nat, c: int, lo: int, hi: int, lo': int, hi': int,
                budget: int, p: int)
    requires p == lo - 1 && lo <= c && SpanShape(texts, c, lo', hi')
    requires UpRefused(texts, t0, cost, c, lo, hi, budget) && History(t0, cost, c, lo', hi', budget)
    ensures lo' < lo ==> Min(hi - c, c - lo) != Min(hi' - c, c - lo)
  {
    if lo' < lo {
      assert TookUp(t0, cost, c, hi', budget, p);
      assert Present(texts, p);
    }
  }

  /** Symmetrically for another window reaching below hi. */
  lemma DownOrder(texts: map<int, string>, t0: int, cost: int -> nat, c: int, lo: int, hi: int, lo': int, hi': int,
                  budget: int, q: int)
    requires q == hi + 1 && c <= hi && SpanShape(texts, c, lo', hi')
    requires DownRefused(texts, t0, cost, c, lo, hi, budget) && History(t0, cost, c, lo', hi', budget)
    ensures hi < hi' ==> Min(c - lo, hi - c + 1) != Min(c - lo', hi - c + 1)
  {
    if hi < hi' {
      assert TookDown(t0, cost, c, lo', budget, q);
      assert Present(texts, q);
    }
  }

  /** The arithmetic behind uniqueness: windows that differ would each have to see the other's pages. */
  lemma OrderArith(c: int, lo: int, hi: int, lo': int, hi': int)
    requires lo <= c <= hi && lo' <= c <= hi'
    requires lo' < lo ==> Min(hi - c, c - lo) != Min(hi' - c, c - lo)
    requires lo < lo' ==> Min(hi' - c, c - lo') != Min(hi - c, c - lo')
    requires hi < hi' ==> Min(c - lo, hi - c + 1) != Min(c - lo', hi - c + 1)
    requires hi' < hi ==> Min(c - lo', hi' - c + 1) != Min(c - lo, hi' - c + 1)
    ensures lo == lo' && hi == hi'
  {
  }

  /**
   * The growth rule pins the window down: for a given centre and budget at most one window meets
   * it, so the result getSmartContext builds is the only one its contract admits.
   */
  lemma WindowUnique(texts: map<int, string>, tag: string, c: int, lo: int, hi: int, lo': int, hi': int, budget: int,
                     r: SmartContext, r': SmartContext)
    requires Window(texts, tag, c, lo, hi, budget, r) && Window(texts, tag, c, lo', hi', budget, r')
    ensures lo == lo' && hi == hi' && r == r'
  {
    var t0, cost := CentreCost(texts, tag, c), CostOf(texts, tag);
    UpOrder(texts, t0, cost, c, lo, hi, lo', hi', budget, lo - 1);
    UpOrder(texts, t0, cost, c, lo', hi', lo, hi, budget, lo' - 1);
    DownOrder(texts, t0, cost, c, lo, hi, lo', hi', budget, hi + 1);
    DownOrder(texts, t0, cost, c, lo', hi', lo, hi, budget, hi' + 1);
    OrderArith(c, lo, hi, lo', hi');
  }

  /** Splitting a range at any point in between. */
  lemma {:induction false} RangeSplit(a: int, m: int, b: int)
    requires a <= m <= b
    ensures Range(a, m) + Range(m, b) == Range(a, b)
    decreases m - a
  {
    if a < m {
      RangeSplit(a + 1, m, b);
      AppendAssoc([a], Range(a + 1, m), Range(m, b));
    } else {
      AppendEmpty(Range(m, b));
    }
  }

  lemma RangeHas(a: int, b: int, p: int)
    ensures p in Range(a, b) <==> a <= p < b
  {
    if a <= p < b {
      assert Range(a, b)[p - a] == p;
    }
  }

  /** The page list of a window is the range from its first present page to hi. */
  lemma PagesRange(texts: map<int, string>, c: int, lo: int, hi: int, pages: seq<int>)
    requires SpanShape(texts, c, lo, hi) && SpanPages(texts, c, lo, hi, pages)
    ensures pages == Range(if Present(texts, c) then lo else c + 1, hi + 1)
  {
    if Present(texts, c) {
      RangeSplit(lo, c, hi + 1);
      assert [c] + Range(c + 1, hi + 1) == Range(c, hi + 1);
      AppendAssoc(Range(lo, c), [c], Range(c + 1, hi + 1));
    } else {
      AppendEmpty(Range(c, c));
      AppendEmpty(Range(c + 1, hi + 1));
    }
  }

  /**
   * The page list of a window is one run of consecutive page numbers, and it holds exactly the
   * present pages of lo..hi: in particular the centre is listed iff its own text is non-empty.
   */
  lemma WindowPages(texts: map<int, string>, tag: string, c: int, lo: int, hi: int, r: SmartContext)
    requires Spans(texts, tag, c, lo, hi, r)
    ensures forall i :: 0 <= i < |r.pages| ==> r.pages[i] == r.pages[0] + i
    ensures forall p :: p in r.pages <==> lo <= p <= hi && Present(texts, p)
    ensures c in r.pages <==> Present(texts, c)
  {
    PagesMembers(texts, c, lo, hi, r.pages);
  }

  lemma PagesMembers(texts: map<int, string>, c: int, lo: int, hi: int, pages: seq<int>)
    requires SpanShape(texts, c, lo, hi) && SpanPages(texts, c, lo, hi, pages)
    ensures forall i :: 0 <= i < |pages| ==> pages[i] == pages[0] + i
    ensures forall p :: p in pages <==> lo <= p <= hi && Present(texts, p)
    ensures c in pages <==> Present(texts, c)
  {
    var first := if Present(texts, c) then lo else c + 1;
    PagesRange(texts, c, lo, hi, pages);
    forall p
      ensures p in pages <==> lo <= p <= hi && Present(texts, p)
    {
      PageMember(texts, c, lo, hi, first, pages, p);
    }
  }

  lemma PageMember(texts: map<int, string>, c: int, lo: int, hi: int, first: int, pages: seq<int>, p: int)
    requires SpanShape(texts, c, lo, hi)
    requires first == (if Present(texts, c) then lo else c + 1) && pages == Range(first, hi + 1)
    ensures p in pages <==> lo <= p <= hi && Present(texts, p)
  {
    RangeHas(first, hi + 1, p);
    if lo <= p <= hi && p != c {
      assert Present(texts, p);
    }
  }

  /** The summed block estimates cover the blocks: three tokens per character at least. */
  lemma {:induction false} CostsCoverBlocks(texts: map<int, string>, tag: string, a: int, b: int)
    ensures 3 * Costs(texts, tag, a, b) >= Utf16Length(Blocks(texts, tag, a, b))
    decreases b - a
  {
    if a < b {
      CostsCoverBlocks(texts, tag, a + 1, b);
      Utf16LengthAppend(NeighbourBlock(texts, tag, a), Blocks(texts, tag, a + 1, b));
    }
  }

  /**
   * The text of a window is never empty (the centre header is always there), and its token count
   * is at least the estimate of the whole text: a sum of rounded-up thirds is not below the
   * rounded-up third of the sum.
   */
  lemma WindowText(texts: map<int, string>, tag: string, c: int, lo: int, hi: int, r: SmartContext)
    requires Spans(texts, tag, c, lo, hi, r)
    ensures r.text != []
    ensures r.tokens >= EstimateTokens(r.text)
  {
    CostsCoverBlocks(texts, tag, lo, c);
    CostsCoverBlocks(texts, tag, c + 1, hi + 1);
    var above, centre, below := Blocks(texts, tag, lo, c), CentreBlock(texts, tag, c), Blocks(texts, tag, c + 1, hi + 1);
    Utf16LengthAppend(above, centre);
    Utf16LengthAppend(above + centre, below);
    assert Utf16Length(r.text) == Utf16Length(above) + Utf16Length(centre) + Utf16Length(below);
  }
}
