/**
 * How the reader fills its per-page text map and the whole-document text (app.js:
 * extractPdfText, and the chapter loop of loadEPUB): one entry per page or chapter, keyed
 * 1, 2, ..., and the document text as the labelled blocks of all pages in ascending order,
 * the same blocks the smart context window is made of.
 */
module PageText {
  import opened Wrappers
  import opened Text
  import ContextWindow

  /** The text stored for a chapter whose content is blank. */
  const NO_TEXT: string := "[No textual content]"

  /** The text stored for a chapter that could not be loaded. */
  const LOAD_FAILED: string := "[Failed to load chapter content]"

  /** The characters of `s` that are not white space, in order. */
  function NonSpace(s: string): string
    decreases |s|
  {
    if s == [] then [] else (if IsJsSpace(s[0]) then [] else [s[0]]) + NonSpace(s[1..])
  }

  lemma {:induction false} NonSpaceAppend(a: string, b: string)
    ensures NonSpace(a + b) == NonSpace(a) + NonSpace(b)
    decreases |a|
  {
    if a == [] {
      assert a + b == b;
    } else {
      assert (a + b)[0] == a[0] && (a + b)[1..] == a[1..] + b;
      NonSpaceAppend(a[1..], b);
    }
  }

  /** A string is blank exactly when it has no character other than white space. */
  lemma {:induction false} BlankIffNoNonSpace(s: string)
    ensures IsBlank(s) <==> NonSpace(s) == []
    decreases |s|
  {
    if s != [] {
      BlankIffNoNonSpace(s[1..]);
      if IsBlank(s[1..]) && IsJsSpace(s[0]) {
        forall i | 0 <= i < |s| ensures IsJsSpace(s[i]) {
          if i > 0 { assert s[i] == s[1..][i - 1]; }
        }
      }
      if IsBlank(s) {
        forall i | 0 <= i < |s| - 1 ensures IsJsSpace(s[1..][i]) {
          assert s[1..][i] == s[i + 1];
        }
      }
    }
  }

  /** Every white-space character is a plain space, and no two spaces are adjacent. */
  predicate Collapsed(r: string) {
    (forall i :: 0 <= i < |r| && IsJsSpace(r[i]) ==> r[i] == ' ')
    && (forall i :: 0 <= i < |r| - 1 && r[i] == ' ' ==> r[i + 1] != ' ')
  }

  /**
   * `s.replace(/\s+/g, ' ')`: each maximal run of white space becomes a single space.
   * The result is collapsed, empty only for the empty string, and starts with a space
   * exactly when `s` starts with white space (otherwise with the same character).
   */
  function CollapseSpace(s: string): (r: string)
    ensures Collapsed(r)
    ensures |r| <= |s|
    ensures r == [] <==> s == []
    ensures s != [] && IsJsSpace(s[0]) ==> r[0] == ' '
    ensures s != [] && !IsJsSpace(s[0]) ==> r[0] == s[0]
    decreases |s|
  {
    if s == [] then []
    else if IsJsSpace(s[0]) then
      var t := TrimStart(s);
      assert |t| < |s|;
      [' '] + CollapseSpace(t)
    else [s[0]] + CollapseSpace(s[1..])
  }

  /** Collapsing white space changes white space only: the other characters survive, in order. */
  lemma {:induction false} CollapseKeepsText(s: string)
    ensures NonSpace(CollapseSpace(s)) == NonSpace(s)
    decreases |s|
  {
    if s != [] {
      if IsJsSpace(s[0]) {
        var t := TrimStart(s);
        assert |t| < |s|;
        CollapseKeepsText(t);
        DropBlankPrefix(s, |s| - |t|);
        var ct := CollapseSpace(t);
        assert CollapseSpace(s) == [' '] + ct;
        NonSpaceAppend([' '], ct);
        assert NonSpace([' ']) == [];
      } else {
        CollapseKeepsText(s[1..]);
        assert CollapseSpace(s) == [s[0]] + CollapseSpace(s[1..]);
        NonSpaceAppend([s[0]], CollapseSpace(s[1..]));
      }
    }
  }

  lemma CollapsedSlice(r: string, a: int, b: int)
    requires Collapsed(r) && 0 <= a <= b <= |r|
    ensures Collapsed(r[a..b])
  {
    var t := r[a..b];
    forall i | 0 <= i < |t| - 1 && t[i] == ' ' ensures t[i + 1] != ' ' {
      assert t[i] == r[a + i] && t[i + 1] == r[a + i + 1];
    }
  }

  lemma SplitAt<T>(s: seq<T>, k: int)
    requires 0 <= k <= |s|
    ensures s == s[..k] + s[k..]
  {
  }

  /** Dropping a blank prefix keeps the non-white-space characters. */
  lemma DropBlankPrefix(s: string, k: int)
    requires 0 <= k <= |s| && IsBlank(s[..k])
    ensures NonSpace(s[k..]) == NonSpace(s)
  {
    var a, b := s[..k], s[k..];
    assert a + b == s;
    assert NonSpace(a + b) == NonSpace(b) by {
      NonSpaceAppend(a, b);
      BlankIffNoNonSpace(a);
    }
  }

  /** Dropping a blank suffix keeps the non-white-space characters. */
  lemma DropBlankSuffix(s: string, m: int)
    requires 0 <= m <= |s| && IsBlank(s[m..])
    ensures NonSpace(s[..m]) == NonSpace(s)
  {
    SplitAt(s, m);
    NonSpaceAppend(s[..m], s[m..]);
    BlankIffNoNonSpace(s[m..]);
  }

  /** Trimming removes white space only. */
  lemma TrimKeepsText(s: string)
    ensures NonSpace(Trim(s)) == NonSpace(s)
  {
    var t := TrimStart(s);
    DropBlankPrefix(s, |s| - |t|);
    var u := TrimEnd(t);
    DropBlankSuffix(t, |u|);
  }

  /** Trimming a collapsed string leaves it collapsed. */
  lemma TrimCollapsed(s: string)
    requires Collapsed(s)
    ensures Collapsed(Trim(s))
  {
    var t := TrimStart(s);
    CollapsedSlice(s, |s| - |t|, |s|);
    assert t == s[|s| - |t|..|s|];
    var u := TrimEnd(t);
    CollapsedSlice(t, 0, |u|);
    assert u == t[0..|u|];
  }

  /** `textContent.replace(/\s+/g, ' ').trim()` */
  function Normalise(s: string): string {
    Trim(CollapseSpace(s))
  }

  /** A word: a non-empty run of characters none of which is white space. */
  predicate IsWord(w: string) {
    w != [] && forall i :: 0 <= i < |w| ==> !IsJsSpace(w[i])
  }

  /** The longest prefix of `s` holding no white space. */
  function Word(s: string): (w: string)
    ensures |w| <= |s| && w == s[..|w|]
    ensures forall i :: 0 <= i < |w| ==> !IsJsSpace(w[i])
    ensures |w| < |s| ==> IsJsSpace(s[|w|])
    ensures s != [] && !IsJsSpace(s[0]) ==> w != []
    decreases |s|
  {
    if s == [] || IsJsSpace(s[0]) then []
    else
      var w := Word(s[1..]);
      assert s[..1 + |w|] == [s[0]] + s[1..][..|w|];
      [s[0]] + w
  }

  /**
   * The words of `s`: its maximal runs of characters other than white space, in order. This
   * is defined on its own, without the regular-expression replacement it describes.
   */
  function Words(s: string): seq<string>
    decreases |s|
  {
    var t := TrimStart(s);
    if t == [] then []
    else
      var w := Word(t);
      [w] + Words(t[|w|..])
  }

  /** Every member of `Words(s)` is a word. */
  lemma {:induction false} WordsAreWords(s: string)
    ensures forall k :: 0 <= k < |Words(s)| ==> IsWord(Words(s)[k])
    decreases |s|
  {
    var t := TrimStart(s);
    if t != [] {
      var w := Word(t);
      var rest := Words(t[|w|..]);
      WordsAreWords(t[|w|..]);
      assert Words(s) == [w] + rest;
      forall k | 0 <= k < |Words(s)|
        ensures IsWord(Words(s)[k])
      {
        if k == 0 {
          assert Words(s)[0] == w;
        } else {
          assert Words(s)[k] == rest[k - 1];
        }
      }
    }
  }

  predicate EndsInSpace(s: string) {
    s != [] && IsJsSpace(s[|s| - 1])
  }

  /** Collapsing a string that starts with a word keeps that word and collapses the rest. */
  lemma {:induction false} CollapseWord(s: string)
    ensures CollapseSpace(s) == Word(s) + CollapseSpace(s[|Word(s)|..])
    decreases |s|
  {
    if s == [] || IsJsSpace(s[0]) {
      assert s[0..] == s;
    } else {
      var w' := Word(s[1..]);
      CollapseWord(s[1..]);
      assert s[1..][|w'|..] == s[|Word(s)|..];
      AppendAssoc([s[0]], w', CollapseSpace(s[|Word(s)|..]));
    }
  }

  /** One more word in front of a non-empty list of words adds it and one separator. */
  lemma JoinCons(w: string, ws: seq<string>, sep: char)
    requires ws != []
    ensures Join([w] + ws, sep) == w + ([sep] + Join(ws, sep))
  {
    assert ([w] + ws)[1..] == ws;
  }

  /** Words joined by spaces neither start nor end with white space. */
  lemma {:induction false} JoinEdges(ws: seq<string>)
    requires ws != [] && forall k :: 0 <= k < |ws| ==> IsWord(ws[k])
    ensures Join(ws, ' ') != [] && !IsJsSpace(Join(ws, ' ')[0]) && !EndsInSpace(Join(ws, ' '))
    decreases |ws|
  {
    assert IsWord(ws[0]);
    if |ws| > 1 {
      JoinEdges(ws[1..]);
      var j := Join(ws[1..], ' ');
      assert Join(ws, ' ') == ws[0] + [' '] + j;
      assert Join(ws, ' ')[|Join(ws, ' ')| - 1] == j[|j| - 1];
    }
  }

  /** Leading white space changes neither the words nor the white space at the end. */
  lemma WordsAfterTrim(s: string)
    ensures Words(TrimStart(s)) == Words(s)
  {
    var t := TrimStart(s);
    assert TrimStart(t) == t;
  }

  /** A string that starts with a word: its words are that word and the words after it. */
  lemma WordStep(u: string, w: string, rest: string)
    requires u != [] && !IsJsSpace(u[0]) && w == Word(u) && rest == u[|w|..]
    ensures Words(u) == [w] + Words(rest)
    ensures CollapseSpace(u) == w + CollapseSpace(rest)
    ensures rest == [] ==> !EndsInSpace(u)
    ensures rest != [] ==> (EndsInSpace(u) <==> EndsInSpace(rest)) && IsJsSpace(rest[0])
  {
    assert TrimStart(u) == u;
    CollapseWord(u);
    if rest == [] {
      assert u == w;
      assert u[|u| - 1] == w[|w| - 1];
    } else {
      assert u[|u| - 1] == rest[|rest| - 1];
    }
  }

  /** A string that starts with white space: one space, then whatever follows the run. */
  lemma SpaceStep(s: string, v: string)
    requires s != [] && IsJsSpace(s[0]) && v == TrimStart(s)
    ensures CollapseSpace(s) == [' '] + CollapseSpace(v)
    ensures Words(s) == Words(v)
    ensures v == [] ==> EndsInSpace(s)
    ensures v != [] ==> (EndsInSpace(s) <==> EndsInSpace(v))
  {
    WordsAfterTrim(s);
    TrimStartEnds(s, v, |s| - |v|);
  }

  /** Removing a blank prefix keeps the white space at the end, unless nothing is left. */
  lemma TrimStartEnds(s: string, v: string, k: int)
    requires 0 <= k <= |s| && IsBlank(s[..k]) && v == s[k..]
    ensures s != [] && v == [] ==> EndsInSpace(s)
    ensures v != [] ==> (EndsInSpace(s) <==> EndsInSpace(v))
  {
    if v == [] && s != [] {
      assert s[|s| - 1] == s[..k][|s| - 1];
    } else if v != [] {
      assert s[|s| - 1] == v[|v| - 1];
    }
  }

  /** A string that starts with a word has at least one. */
  lemma WordsNonEmpty(v: string)
    requires v != [] && !IsJsSpace(v[0])
    ensures Words(v) != []
  {
    assert TrimStart(v) == v;
  }

  /**
   * For a string without leading white space, collapsing yields its words joined by single
   * spaces, followed by one space when the string ends in white space after a word.
   */
  lemma {:induction false} CollapseWords(u: string)
    requires u == [] || !IsJsSpace(u[0])
    ensures CollapseSpace(u) == Join(Words(u), ' ') + (if Words(u) != [] && EndsInSpace(u) then " " else "")
    decreases |u|
  {
    if u != [] {
      var w := Word(u);
      var rest := u[|w|..];
      WordStep(u, w, rest);
      if rest == [] {
        assert Words(rest) == [];
        AppendEmpty(w);
      } else {
        var v := TrimStart(rest);
        SpaceStep(rest, v);
        if v == [] {
          assert Words(v) == [];
          AppendEmpty(w + " ");
        } else {
          CollapseWords(v);
          WordsNonEmpty(v);
          JoinCons(w, Words(v), ' ');
          var tail := if EndsInSpace(u) then " " else "";
          AppendAssoc([' '], Join(Words(v), ' '), tail);
          AppendAssoc(w, [' '] + Join(Words(v), ' '), tail);
        }
      }
    }
  }

  /**
   * `replace(/\s+/g, ' ')` in terms of words: a blank string becomes one space (or stays
   * empty); otherwise the result is the words joined by single spaces, with one space in front
   * when the string starts with white space and one behind when it ends with it.
   */
  lemma CollapseSpaceWords(s: string)
    ensures Words(s) == [] ==> CollapseSpace(s) == if s == [] then "" else " "
    ensures Words(s) != [] ==>
      CollapseSpace(s) == (if IsJsSpace(s[0]) then " " else "") + Join(Words(s), ' ') + (if EndsInSpace(s) then " " else "")
  {
    var j := Join(Words(s), ' ');
    if s == [] {
    } else if IsJsSpace(s[0]) {
      var u := TrimStart(s);
      SpaceStep(s, u);
      CollapseWords(u);
      if Words(s) != [] {
        assert u != [];
        var tail := if EndsInSpace(s) then " " else "";
        assert CollapseSpace(u) == j + tail;
        AppendAssoc(" ", j, tail);
      }
    } else {
      CollapseWords(s);
      WordsNonEmpty(s);
      AppendEmpty(j);
    }
  }

  lemma TrimStartSpace(x: string)
    ensures TrimStart([' '] + x) == TrimStart(x)
  {
    assert ([' '] + x)[1..] == x;
  }

  lemma TrimEndSpace(x: string)
    ensures TrimEnd(x + [' ']) == TrimEnd(x)
  {
    assert (x + [' '])[..|x|] == x;
  }

  /** Trimming one optional space from each side of a joined list of words gives the list back. */
  lemma TrimPadded(j: string, pre: string, post: string)
    requires j != [] && !IsJsSpace(j[0]) && !EndsInSpace(j)
    requires pre == "" || pre == " "
    requires post == "" || post == " "
    ensures Trim(pre + j + post) == j
  {
    TrimStartPadded(j, pre, post);
    TrimEndPadded(j, post);
  }

  lemma TrimStartPadded(j: string, pre: string, post: string)
    requires j != [] && !IsJsSpace(j[0])
    requires pre == "" || pre == " "
    ensures TrimStart(pre + j + post) == j + post
  {
    var x := j + post;
    assert x[0] == j[0];
    assert TrimStart(x) == x;
    AppendAssoc(pre, j, post);
    if pre == " " {
      TrimStartSpace(x);
    } else {
      AppendEmpty(x);
    }
  }

  lemma TrimEndPadded(j: string, post: string)
    requires !EndsInSpace(j)
    requires post == "" || post == " "
    ensures TrimEnd(j + post) == j
  {
    if post == " " {
      TrimEndSpace(j);
    } else {
      AppendEmpty(j);
    }
    assert TrimEnd(j) == j;
  }

  /** The normalised text is the words of the original joined by single spaces. */
  lemma NormaliseWords(s: string)
    ensures Normalise(s) == Join(Words(s), ' ')
  {
    CollapseSpaceWords(s);
    var c := CollapseSpace(s);
    if Words(s) == [] {
      assert TrimStart(c) == [];
    } else {
      WordsAreWords(s);
      JoinEdges(Words(s));
      TrimPadded(Join(Words(s), ' '), if IsJsSpace(s[0]) then " " else "", if EndsInSpace(s) then " " else "");
    }
  }

  /**
   * The normalised text keeps every non-white-space character of the original, in order;
   * its white space is single plain spaces between words; it is empty exactly when the
   * original is blank; and it neither starts nor ends with white space.
   */
  lemma NormaliseSpec(s: string)
    ensures Normalise(s) == Join(Words(s), ' ')
    ensures NonSpace(Normalise(s)) == NonSpace(s)
    ensures Collapsed(Normalise(s))
    ensures Normalise(s) == "" <==> IsBlank(s)
    ensures Normalise(s) != "" ==> !IsJsSpace(Normalise(s)[0]) && !IsJsSpace(Normalise(s)[|Normalise(s)| - 1])
  {
    var c := CollapseSpace(s);
    CollapseKeepsText(s);
    TrimKeepsText(c);
    TrimCollapsed(c);
    TrimEmptyIffBlank(c);
    BlankIffNoNonSpace(c);
    BlankIffNoNonSpace(s);
    NormaliseWords(s);
  }

  /**
   * The text stored for one EPUB chapter (app.js:272-273, 300): `None` when loading the
   * chapter failed, otherwise its text content. Never empty, so every chapter takes part in
   * the smart context window.
   */
  function ChapterText(content: Option<string>): (r: string)
    ensures r != ""
  {
    match content
    case None => LOAD_FAILED
    case Some(t) =>
      var n := Normalise(t);
      if n == "" then NO_TEXT else n
  }

  /** A chapter that failed to load, or whose content is blank, stores its placeholder. */
  lemma ChapterPlaceholders(content: Option<string>)
    ensures content == None ==> ChapterText(content) == LOAD_FAILED
    ensures content.Some? && IsBlank(content.value) ==> ChapterText(content) == NO_TEXT
  {
    if content.Some? {
      NormaliseSpec(content.value);
    }
  }

  /**
   * A loaded chapter with some text stores that text normalised: the same characters
   * other than white space, single spaces between them, nothing at either end.
   */
  lemma ChapterLoaded(t: string)
    requires !IsBlank(t)
    ensures ChapterText(Some(t)) == Join(Words(t), ' ')
    ensures NonSpace(ChapterText(Some(t))) == NonSpace(t)
    ensures Collapsed(ChapterText(Some(t)))
    ensures !IsJsSpace(ChapterText(Some(t))[0]) && !IsJsSpace(ChapterText(Some(t))[|ChapterText(Some(t))| - 1])
  {
    var n := Normalise(t);
    assert n != "" && n == Join(Words(t), ' ') && NonSpace(n) == NonSpace(t) && Collapsed(n)
        && !IsJsSpace(n[0]) && !IsJsSpace(n[|n| - 1]) by {
      NormaliseSpec(t);
    }
    ChapterNormalised(t);
    NormalisedCopy(ChapterText(Some(t)), n, Join(Words(t), ' '), NonSpace(t));
  }

  /** A string equal to a normalised text has all of its properties. */
  lemma NormalisedCopy(c: string, n: string, joined: string, text: string)
    requires c == n && n != [] && n == joined && NonSpace(n) == text && Collapsed(n)
    requires !IsJsSpace(n[0]) && !IsJsSpace(n[|n| - 1])
    ensures c == joined && NonSpace(c) == text && Collapsed(c)
    ensures !IsJsSpace(c[0]) && !IsJsSpace(c[|c| - 1])
  {
    SameEnds(c, n);
  }

  /** Equal strings have the same first and last characters. */
  lemma SameEnds(c: string, n: string)
    requires c == n && n != []
    ensures c[0] == n[0] && c[|c| - 1] == n[|n| - 1]
  {
  }

  /** A chapter whose text is not blank stores its normalised text. */
  lemma ChapterNormalised(t: string)
    requires Normalise(t) != ""
    ensures ChapterText(Some(t)) == Normalise(t)
  {
  }

  /** Two maps holding the same texts for pages a .. b-1 give the same blocks. */
  lemma {:induction false} BlocksFrame(t1: map<int, string>, t2: map<int, string>, tag: string, a: int, b: int)
    requires forall p :: a <= p < b ==> ContextWindow.TextOf(t1, p) == ContextWindow.TextOf(t2, p)
    ensures ContextWindow.Blocks(t1, tag, a, b) == ContextWindow.Blocks(t2, tag, a, b)
    decreases b - a
  {
    if a < b {
      BlocksFrame(t1, t2, tag, a + 1, b);
    }
  }

  lemma Regroup<T>(whole: seq<T>, pre: seq<T>, x: seq<T>, y: seq<T>, z: seq<T>, w: seq<T>)
    requires whole == x + (y + z + w) && pre == x + y
    ensures whole == pre + z + w
  {
  }

  /** The block of page k sits between the blocks before it and the blocks after it. */
  lemma {:induction false} BlocksSplit(texts: map<int, string>, tag: string, a: int, k: int, b: int)
    requires a <= k < b
    ensures ContextWindow.Blocks(texts, tag, a, b)
      == ContextWindow.Blocks(texts, tag, a, k) + ContextWindow.NeighbourBlock(texts, tag, k)
         + ContextWindow.Blocks(texts, tag, k + 1, b)
    decreases k - a
  {
    if a < k {
      BlocksSplit(texts, tag, a + 1, k, b);
      BlocksShift(texts, tag, a, k, b);
    } else {
      BlocksHead(texts, tag, a, b);
    }
  }

  lemma BlocksHead(texts: map<int, string>, tag: string, a: int, b: int)
    requires a < b
    ensures ContextWindow.Blocks(texts, tag, a, b)
      == ContextWindow.Blocks(texts, tag, a, a) + ContextWindow.NeighbourBlock(texts, tag, a)
         + ContextWindow.Blocks(texts, tag, a + 1, b)
  {
    var z, w := ContextWindow.NeighbourBlock(texts, tag, a), ContextWindow.Blocks(texts, tag, a + 1, b);
    assert ContextWindow.Blocks(texts, tag, a, b) == z + w;
    assert ContextWindow.Blocks(texts, tag, a, a) == [];
    Regroup(ContextWindow.Blocks(texts, tag, a, b), [], [], [], z, w);
  }

  lemma BlocksShift(texts: map<int, string>, tag: string, a: int, k: int, b: int)
    requires a < k < b
    requires ContextWindow.Blocks(texts, tag, a + 1, b)
      == ContextWindow.Blocks(texts, tag, a + 1, k) + ContextWindow.NeighbourBlock(texts, tag, k)
         + ContextWindow.Blocks(texts, tag, k + 1, b)
    ensures ContextWindow.Blocks(texts, tag, a, b)
      == ContextWindow.Blocks(texts, tag, a, k) + ContextWindow.NeighbourBlock(texts, tag, k)
         + ContextWindow.Blocks(texts, tag, k + 1, b)
  {
    var x, y := ContextWindow.NeighbourBlock(texts, tag, a), ContextWindow.Blocks(texts, tag, a + 1, k);
    var z, w := ContextWindow.NeighbourBlock(texts, tag, k), ContextWindow.Blocks(texts, tag, k + 1, b);
    assert ContextWindow.Blocks(texts, tag, a, b) == x + (y + z + w);
    assert ContextWindow.Blocks(texts, tag, a, k) == x + y;
    Regroup(ContextWindow.Blocks(texts, tag, a, b), ContextWindow.Blocks(texts, tag, a, k), x, y, z, w);
  }

  /** Every page's block occurs in the whole-document text. */
  lemma BlockOccurs(texts: map<int, string>, tag: string, n: int, k: int)
    requires 1 <= k <= n
    ensures Contains(ContextWindow.Blocks(texts, tag, 1, n + 1), ContextWindow.NeighbourBlock(texts, tag, k))
  {
    BlocksSplit(texts, tag, 1, k, n + 1);
    var pre := ContextWindow.Blocks(texts, tag, 1, k);
    var blk := ContextWindow.NeighbourBlock(texts, tag, k);
    var whole := ContextWindow.Blocks(texts, tag, 1, n + 1);
    assert whole[|pre|..|pre| + |blk|] == blk;
    assert OccursAt(whole, blk, |pre|);
  }

  /** `m` holds exactly the pages 1 .. n, page i+1 with the text `stored[i]`. */
  ghost predicate Stores(m: map<int, string>, stored: seq<string>, n: int) {
    && 0 <= n <= |stored|
    && (forall p :: p in m <==> 1 <= p <= n)
    && (forall p :: 1 <= p <= n ==> m[p] == stored[p - 1])
  }

  lemma StoreNext(m: map<int, string>, stored: seq<string>, n: int)
    requires Stores(m, stored, n) && n < |stored|
    ensures Stores(m[n + 1 := stored[n]], stored, n + 1)
  {

  }

  lemma StoredAll(m: map<int, string>, stored: seq<string>)
    requires Stores(m, stored, |stored|)
    ensures forall p :: p in m <==> 1 <= p <= |stored|
    ensures forall i :: 0 <= i < |stored| ==> m[i + 1] == stored[i]
  {
    forall i | 0 <= i < |stored| ensures m[i + 1] == stored[i] {
      var p := i + 1;
      assert m[p] == stored[p - 1];
    }
  }

  /** The template `\n\n--- ${tag} ${p} ---\n${text}` of one block of the document text. */
  function BlockFor(tag: string, p: int, text: string): string {
    "\n\n--- " + tag + " " + IntToString(p) + " ---\n" + text
  }

  /** The document-text template is the neighbour block of the smart context window. */
  lemma BlockForNeighbour(texts: map<int, string>, tag: string, p: int)
    ensures BlockFor(tag, p, ContextWindow.TextOf(texts, p)) == ContextWindow.NeighbourBlock(texts, tag, p)
  {
    var n, t := IntToString(p), ContextWindow.TextOf(texts, p);
    assert "\n\n--- " == "\n\n" + "--- ";
    calc {
      BlockFor(tag, p, t);
      "\n\n--- " + tag + " " + n + " ---\n" + t;
      { Assoc6("\n\n", "--- ", tag, " ", n, " ---\n", t); }
      "\n\n" + ("--- " + tag + " " + n + " ---\n" + t);
    }
  }

  lemma Assoc6<T>(a: seq<T>, b: seq<T>, c: seq<T>, d: seq<T>, e: seq<T>, f: seq<T>, g: seq<T>)
    ensures (a + b) + c + d + e + f + g == a + (b + c + d + e + f + g)
  {
  }

  /**
   * extractPdfText (app.js:333-347): page p's text is its text items joined by a space,
   * and the document text is every page's block, `\n\n--- Page p ---\n` and the text, in
   * page order.
   */
  method ExtractPdfText(pageItems: seq<seq<string>>) returns (pageTexts: map<int, string>, fullText: string)
    ensures forall p :: p in pageTexts <==> 1 <= p <= |pageItems|
    ensures forall i :: 0 <= i < |pageItems| ==> pageTexts[i + 1] == Join(pageItems[i], ' ')
    ensures fullText == ContextWindow.Blocks(pageTexts, "Page", 1, |pageItems| + 1)
  {
    ghost var stored := seq(|pageItems|, j requires 0 <= j < |pageItems| => Join(pageItems[j], ' '));
    fullText := "";
    pageTexts := map[];
    var pageNum := 1;
    while pageNum <= |pageItems|
      invariant 1 <= pageNum <= |pageItems| + 1
      invariant Stores(pageTexts, stored, pageNum - 1)
      invariant fullText == ContextWindow.Blocks(pageTexts, "Page", 1, pageNum)
    {
      var pageText := Join(pageItems[pageNum - 1], ' ');
      assert pageText == stored[pageNum - 1];
      var next := pageTexts[pageNum := pageText];
      StoreNext(pageTexts, stored, pageNum - 1);
      BlocksFrame(pageTexts, next, "Page", 1, pageNum);
      ContextWindow.BlocksSnoc(next, "Page", 1, pageNum);
      pageTexts := next;
      BlockForNeighbour(next, "Page", pageNum);
      fullText := fullText + BlockFor("Page", pageNum, pageText);
      pageNum := pageNum + 1;
    }
    StoredAll(pageTexts, stored);
  }

  /** `Object.keys(texts).map(key => block of key).join('')`, the keys given in their enumeration order. */
  function KeyedDump(texts: map<int, string>, tag: string, keys: seq<int>): string {
    if keys == [] then ""
    else BlockFor(tag, keys[0], ContextWindow.TextOf(texts, keys[0])) + KeyedDump(texts, tag, keys[1..])
  }

  /** Dumping the keys a, a+1, ..., b-1 in ascending order yields the blocks of those pages. */
  lemma {:induction false} KeyedDumpRange(texts: map<int, string>, tag: string, a: int, b: int)
    requires a <= b
    ensures KeyedDump(texts, tag, ContextWindow.Range(a, b)) == ContextWindow.Blocks(texts, tag, a, b)
    decreases b - a
  {
    if a < b {
      KeyedDumpRange(texts, tag, a + 1, b);
      BlockForNeighbour(texts, tag, a);
      assert ContextWindow.Range(a, b)[1..] == ContextWindow.Range(a + 1, b);
    }
  }

  /**
   * The chapter loop of loadEPUB (app.js:262-309), as far as the page text map goes:
   * chapter i+1 holds the stored text of spine item i.
   */
  method StoreChapters(chapters: seq<Option<string>>) returns (pageTexts: map<int, string>)
    ensures forall p :: p in pageTexts <==> 1 <= p <= |chapters|
    ensures forall i :: 0 <= i < |chapters| ==> pageTexts[i + 1] == ChapterText(chapters[i])
  {
    ghost var stored := seq(|chapters|, j requires 0 <= j < |chapters| => ChapterText(chapters[j]));
    pageTexts := map[];
    var i := 0;
    while i < |chapters|
      invariant 0 <= i <= |chapters|
      invariant Stores(pageTexts, stored, i)
    {
      var text := ChapterText(chapters[i]);
      assert text == stored[i];
      StoreNext(pageTexts, stored, i);
      pageTexts := pageTexts[i + 1 := text];
      i := i + 1;
    }
    StoredAll(pageTexts, stored);
    forall i | 0 <= i < |chapters| ensures pageTexts[i + 1] == ChapterText(chapters[i]) {
      assert pageTexts[i + 1] == stored[i];
    }
  }

  /** No chapter is empty, so every chapter can be the centre of, or join, the smart context window. */
  lemma ChaptersPresent(pageTexts: map<int, string>, chapters: seq<Option<string>>)
    requires forall p :: p in pageTexts <==> 1 <= p <= |chapters|
    requires forall i :: 0 <= i < |chapters| ==> pageTexts[i + 1] == ChapterText(chapters[i])
    ensures forall p :: 1 <= p <= |chapters| ==> ContextWindow.Present(pageTexts, p)
  {
    forall p | 1 <= p <= |chapters| ensures ContextWindow.Present(pageTexts, p) {
      var i := p - 1;
      assert pageTexts[i + 1] == ChapterText(chapters[i]);
      ChapterPresent(pageTexts, p, chapters[i]);
    }
  }

  lemma ChapterPresent(pageTexts: map<int, string>, p: int, content: Option<string>)
    requires p in pageTexts && pageTexts[p] == ChapterText(content)
    ensures ContextWindow.Present(pageTexts, p)
  {
  }

  /**
   * loadEPUB's text extraction (app.js:262-317): the chapter texts, then the document text as
   * every chapter's block in chapter order. Integer-like keys enumerate in ascending order,
   * so the keys are visited as 1, 2, ..., n.
   */
  method ExtractEpubText(chapters: seq<Option<string>>) returns (pageTexts: map<int, string>, fullText: string)
    ensures forall p :: p in pageTexts <==> 1 <= p <= |chapters|
    ensures forall i :: 0 <= i < |chapters| ==> pageTexts[i + 1] == ChapterText(chapters[i])
    ensures fullText == ContextWindow.Blocks(pageTexts, "Chapter", 1, |chapters| + 1)
  {
    pageTexts := StoreChapters(chapters);
    var keys := ContextWindow.Range(1, |chapters| + 1);
    fullText := KeyedDump(pageTexts, "Chapter", keys);
    KeyedDumpRange(pageTexts, "Chapter", 1, |chapters| + 1);
  }
}
