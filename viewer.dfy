/**
 * The reader's own state (app.js: the module-level `let` variables) and the small rules that
 * update it: which kind of file was picked, how many pages the open document has, page
 * navigation with the state of the previous and next buttons, the chat font size and its label,
 * and the following of links inside an EPUB.
 */
module Viewer {
  import opened Wrappers
  import opened Text
  import opened Protocol
  import PageText
  import Links
  import ContextWindow

  /** The last element of a non-empty sequence (`Array.prototype.pop` on a split). */
  function Last<T>(s: seq<T>): T
    requires |s| > 0
  {
    s[|s| - 1]
  }

  /** `file.name.split('.').pop().toLowerCase()`, with ASCII case folding. */
  function Extension(name: string): string {
    ToLowerAscii(Last(Split(name, '.')))
  }

  /** The piece after the last separator is the last piece of a split. */
  lemma {:induction false} SplitLastPiece(s: string, sep: char, e: string)
    requires sep !in e
    ensures |Split(s + [sep] + e, sep)| >= 2 && Last(Split(s + [sep] + e, sep)) == e
    decreases |s|
  {
    var t := s + [sep] + e;
    if |s| == 0 {
      assert t == [sep] + e && t[1..] == e;
      SplitNone(e, sep);
    } else {
      assert t[0] == s[0] && t[1..] == s[1..] + [sep] + e;
      SplitLastPiece(s[1..], sep, e);
    }
  }

  /** The extension is what follows the last dot, lower-cased; a name without a dot is its own extension. */
  lemma ExtensionAfterLastDot(stem: string, e: string)
    requires '.' !in e
    ensures Extension(stem + "." + e) == ToLowerAscii(e)
    ensures Extension(e) == ToLowerAscii(e)
  {
    SplitLastPiece(stem, '.', e);
    SplitNone(e, '.');
  }

  const PDF_MIME: string := "application/pdf"
  const EPUB_MIME: string := "application/epub+zip"

  /** handleFileSelect: a PDF when either the MIME type or the extension says so, else an EPUB likewise, else neither. */
  function DetectDocumentType(name: string, mimeType: string): (r: Option<DocType>)
    ensures r == Some(Pdf) <==> mimeType == PDF_MIME || Extension(name) == "pdf"
    ensures r == Some(Epub) <==> (!(mimeType == PDF_MIME || Extension(name) == "pdf")
                                  && (mimeType == EPUB_MIME || Extension(name) == "epub"))
  {
    var extension := Extension(name);
    if mimeType == PDF_MIME || extension == "pdf" then Some(Pdf)
    else if mimeType == EPUB_MIME || extension == "epub" then Some(Epub)
    else None
  }

  /** With an uninformative MIME type, the file name's last extension decides, in any letter case. */
  lemma DetectByExtension(stem: string, e: string, mimeType: string)
    requires '.' !in e && mimeType != PDF_MIME && mimeType != EPUB_MIME
    ensures DetectDocumentType(stem + "." + e, mimeType)
         == if ToLowerAscii(e) == "pdf" then Some(Pdf) else if ToLowerAscii(e) == "epub" then Some(Epub) else None
  {
    ExtensionAfterLastDot(stem, e);
  }

  /** `goToPage(n)` acts only for a page number in 1..total other than the current one. */
  predicate CanGoTo(total: int, current: int, n: int) {
    !(n < 1 || n > total || n == current)
  }

  /** updatePageInfo: the previous button. */
  predicate PrevDisabled(current: int) {
    current <= 1
  }

  /** updatePageInfo: the next button. */
  predicate NextDisabled(total: int, current: int) {
    total == 0 || current >= total
  }

  /** On any page of a document, each button is disabled exactly when the move it makes would be refused. */
  lemma ButtonsMatchGuard(total: int, current: int)
    requires 1 <= current <= total
    ensures PrevDisabled(current) <==> !CanGoTo(total, current, current - 1)
    ensures NextDisabled(total, current) <==> !CanGoTo(total, current, current + 1)
  {
  }

  const MIN_FONT_SIZE: int := 10
  const MAX_FONT_SIZE: int := 24
  const DEFAULT_FONT_SIZE: int := 14

  /** increaseChatFontSize */
  function IncreasedFontSize(size: int): int {
    if size < MAX_FONT_SIZE then size + 2 else size
  }

  /** decreaseChatFontSize */
  function DecreasedFontSize(size: int): int {
    if size > MIN_FONT_SIZE then size - 2 else size
  }

  /** The sizes the two buttons reach from the default: even, from 10 to 24. */
  predicate FontSizeInSteps(size: int) {
    MIN_FONT_SIZE <= size <= MAX_FONT_SIZE && size % 2 == 0
  }

  /** Both buttons keep the size among the reachable sizes, and each undoes the other away from the ends. */
  lemma FontSizeSteps(size: int)
    requires FontSizeInSteps(size)
    ensures FontSizeInSteps(IncreasedFontSize(size)) && FontSizeInSteps(DecreasedFontSize(size))
    ensures size < MAX_FONT_SIZE ==> DecreasedFontSize(IncreasedFontSize(size)) == size
    ensures size > MIN_FONT_SIZE ==> IncreasedFontSize(DecreasedFontSize(size)) == size
    ensures IncreasedFontSize(size) == size <==> size == MAX_FONT_SIZE
    ensures DecreasedFontSize(size) == size <==> size == MIN_FONT_SIZE
  {
  }

  /** The default size is reachable. */
  lemma DefaultFontSizeInSteps()
    ensures FontSizeInSteps(DEFAULT_FONT_SIZE)
  {
  }

  /** updateFontSizeLabel: the `sizes` table, with 'Aa' for a size it lacks. */
  function FontSizeLabel(size: int): string {
    var sizes := map[10 := "A", 12 := "Aa", 14 := "Aa", 16 := "Aa", 18 := "AA", 20 := "AA", 22 := "AA", 24 := "AA"];
    if size in sizes then sizes[size] else "Aa"
  }

  /** The label reads 'A' only at the smallest size, 'AA' at the four largest, 'Aa' everywhere else. */
  lemma FontSizeLabelBands(size: int)
    ensures FontSizeLabel(size) == "A" <==> size == 10
    ensures FontSizeLabel(size) == "AA" <==> size == 18 || size == 20 || size == 22 || size == 24
    ensures FontSizeLabel(size) == "Aa" <==> !(size == 10 || size == 18 || size == 20 || size == 22 || size == 24)
  {
  }

  /** `Math.min(chatFontSize + 2, 18)`, the label's own pixel size. */
  function LabelPixels(size: int): int {
    if size + 2 < 18 then size + 2 else 18
  }

  lemma LabelPixelsCap(size: int)
    ensures LabelPixels(size) <= 18 && LabelPixels(size) <= size + 2
    ensures LabelPixels(size) == 18 <==> size >= 16
  {
  }

  /** A map with no key in an empty range is empty. */
  lemma NoKeysNoEntries(m: map<int, string>)
    requires forall p :: p in m <==> 1 <= p <= 0
    ensures |m| == 0
  {
    forall k | k in m.Keys ensures false {
    }
    assert m.Keys == {};
  }

  /** The reader's global state, as far as the modelled rules read or write it. */
  class Reader {
    var documentType: Option<DocType>
    /** `pdfDocument.numPages`, or `None` while no PDF is open. */
    var pdfPageCount: Option<nat>
    /** `epubSpineItems.length` */
    var spineLength: nat
    /** `epubHrefToIndex` */
    var hrefIndex: Links.HrefIndex
    /** `pdfPageTexts`: page (or chapter) number to its text. */
    var pageTexts: map<int, string>
    /** `pdfText`: the whole document as labelled blocks. */
    var pdfText: string
    var currentPage: int
    var prevDisabled: bool
    var nextDisabled: bool
    var chatFontSize: int

    /** The initial values of the globals; the buttons start enabled. */
    constructor ()
      ensures documentType == None && pdfPageCount == None && spineLength == 0 && hrefIndex == []
      ensures pageTexts == map[] && pdfText == "" && currentPage == 1
      ensures !prevDisabled && !nextDisabled && chatFontSize == DEFAULT_FONT_SIZE
    {
      documentType := None;
      pdfPageCount := None;
      spineLength := 0;
      hrefIndex := [];
      pageTexts := map[];
      pdfText := "";
      currentPage := 1;
      prevDisabled := false;
      nextDisabled := false;
      chatFontSize := DEFAULT_FONT_SIZE;
    }

    /**
     * getTotalPages: a loaded PDF's page count; for an EPUB the spine length, falling back to the
     * number of extracted pages when the spine is empty; 0 when nothing is loaded.
     */
    function TotalPages(): (t: nat)
      reads this`documentType, this`pdfPageCount, this`spineLength, this`pageTexts
      ensures documentType.None? ==> t == 0
      ensures documentType == Some(Pdf) ==> t == if pdfPageCount.Some? then pdfPageCount.value else 0
      ensures documentType == Some(Epub) ==> (t == 0 <==> spineLength == 0 && pageTexts == map[])
      ensures documentType == Some(Epub) && spineLength != 0 ==> t == spineLength
      ensures documentType == Some(Epub) && spineLength == 0 ==> t == |pageTexts|
    {
      if documentType == Some(Pdf) && pdfPageCount.Some? then pdfPageCount.value
      else if documentType == Some(Epub) then
        (if spineLength != 0 then spineLength else |pageTexts|)
      else 0
    }

    /** The buttons show what updatePageInfo last computed for the current page. */
    predicate ButtonsCurrent()
      reads this
    {
      prevDisabled == PrevDisabled(currentPage) && nextDisabled == NextDisabled(TotalPages(), currentPage)
    }

    /** The current page is a page of the document (page 1 when it has none). */
    predicate OnAPage()
      reads this
    {
      1 <= currentPage && (currentPage == 1 || currentPage <= TotalPages())
    }

    /** updatePageInfo */
    method UpdatePageInfo()
      modifies this`prevDisabled, this`nextDisabled
      ensures ButtonsCurrent()
    {
      var totalPages := TotalPages();
      prevDisabled := currentPage <= 1;
      nextDisabled := totalPages == 0 || currentPage >= totalPages;
    }

    /** goToPage: a refused page number changes nothing; an accepted one becomes current and the buttons follow. */
    method GoToPage(pageNum: int)
      modifies this`currentPage, this`prevDisabled, this`nextDisabled
      ensures !CanGoTo(TotalPages(), old(currentPage), pageNum) ==>
        currentPage == old(currentPage) && prevDisabled == old(prevDisabled) && nextDisabled == old(nextDisabled)
      ensures CanGoTo(TotalPages(), old(currentPage), pageNum) ==> currentPage == pageNum && ButtonsCurrent()
      ensures old(OnAPage()) ==> OnAPage()
      ensures old(ButtonsCurrent()) ==> ButtonsCurrent()
    {
      var totalPages := TotalPages();
      if pageNum < 1 || pageNum > totalPages || pageNum == currentPage {
        return;
      }
      currentPage := pageNum;
      UpdatePageInfo();
    }

    /**
     * A click on the previous-page button: a disabled button fires nothing; an enabled one calls
     * goToPage(currentPage - 1). On a page whose buttons are up to date it moves exactly when the
     * button is enabled.
     */
    method PreviousPage()
      modifies this`currentPage, this`prevDisabled, this`nextDisabled
      ensures old(prevDisabled) || !CanGoTo(TotalPages(), old(currentPage), old(currentPage) - 1) ==>
        currentPage == old(currentPage) && prevDisabled == old(prevDisabled) && nextDisabled == old(nextDisabled)
      ensures !old(prevDisabled) && CanGoTo(TotalPages(), old(currentPage), old(currentPage) - 1) ==>
        currentPage == old(currentPage) - 1 && ButtonsCurrent()
      ensures old(OnAPage() && ButtonsCurrent()) ==>
        currentPage == (if old(prevDisabled) then old(currentPage) else old(currentPage) - 1)
        && OnAPage() && ButtonsCurrent()
    {
      if 1 <= currentPage <= TotalPages() {
        ButtonsMatchGuard(TotalPages(), currentPage);
      }
      if !prevDisabled {
        GoToPage(currentPage - 1);
      }
    }

    /** A click on the next-page button, symmetrically with goToPage(currentPage + 1). */
    method NextPage()
      modifies this`currentPage, this`prevDisabled, this`nextDisabled
      ensures old(nextDisabled) || !CanGoTo(TotalPages(), old(currentPage), old(currentPage) + 1) ==>
        currentPage == old(currentPage) && prevDisabled == old(prevDisabled) && nextDisabled == old(nextDisabled)
      ensures !old(nextDisabled) && CanGoTo(TotalPages(), old(currentPage), old(currentPage) + 1) ==>
        currentPage == old(currentPage) + 1 && ButtonsCurrent()
      ensures old(OnAPage() && ButtonsCurrent()) ==>
        currentPage == (if old(nextDisabled) then old(currentPage) else old(currentPage) + 1)
        && OnAPage() && ButtonsCurrent()
    {
      if 1 <= currentPage <= TotalPages() {
        ButtonsMatchGuard(TotalPages(), currentPage);
      }
      if !nextDisabled {
        GoToPage(currentPage + 1);
      }
    }

    /** increaseChatFontSize (the CSS variable, the label and localStorage are presentation). */
    method IncreaseChatFontSize()
      modifies this`chatFontSize
      ensures chatFontSize == IncreasedFontSize(old(chatFontSize))
    {
      if chatFontSize < MAX_FONT_SIZE {
        chatFontSize := chatFontSize + 2;
      }
    }

    /** decreaseChatFontSize */
    method DecreaseChatFontSize()
      modifies this`chatFontSize
      ensures chatFontSize == DecreasedFontSize(old(chatFontSize))
    {
      if chatFontSize > MIN_FONT_SIZE {
        chatFontSize := chatFontSize - 2;
      }
    }

    /**
     * loadPDF with the pages' text items as given by PDF.js: a PDF of that many pages on page 1,
     * its page texts and labelled full text, and the buttons set for page 1.
     */
    method LoadPdf(pageItems: seq<seq<string>>)
      modifies this`documentType, this`pdfPageCount, this`spineLength, this`hrefIndex, this`pageTexts,
               this`pdfText, this`currentPage, this`prevDisabled, this`nextDisabled
      ensures documentType == Some(Pdf) && TotalPages() == |pageItems| && spineLength == 0 && hrefIndex == []
      ensures forall p :: p in pageTexts <==> 1 <= p <= TotalPages()
      ensures forall i :: 0 <= i < |pageItems| ==> pageTexts[i + 1] == Join(pageItems[i], ' ')
      ensures pdfText == ContextWindow.Blocks(pageTexts, "Page", 1, |pageItems| + 1)
      ensures currentPage == 1 && OnAPage() && ButtonsCurrent()
    {
      documentType := Some(Pdf);
      spineLength := 0;
      hrefIndex := [];
      pdfPageCount := Some(|pageItems|);
      currentPage := 1;
      pageTexts, pdfText := PageText.ExtractPdfText(pageItems);
      UpdatePageInfo();
    }

    /**
     * loadEPUB with the spine items as given by epub.js: an EPUB with one page per spine item on
     * page 1, its chapter texts with their placeholders, the labelled full text, the href index
     * built from the chapters that loaded, and the buttons set for page 1.
     */
    method LoadEpub(items: seq<Links.SpineItem>)
      modifies this`documentType, this`pdfPageCount, this`spineLength, this`hrefIndex, this`pageTexts,
               this`pdfText, this`currentPage, this`prevDisabled, this`nextDisabled
      ensures documentType == Some(Epub) && pdfPageCount == None && TotalPages() == |items|
      ensures forall p :: p in pageTexts <==> 1 <= p <= TotalPages()
      ensures forall i :: 0 <= i < |items| ==> pageTexts[i + 1] == PageText.ChapterText(items[i].content)
      ensures pdfText == ContextWindow.Blocks(pageTexts, "Chapter", 1, |items| + 1)
      ensures Links.SpineIndex(items, hrefIndex)
      ensures currentPage == 1 && OnAPage() && ButtonsCurrent()
    {
      documentType := Some(Epub);
      pdfPageCount := None;
      spineLength := |items|;
      hrefIndex := Links.IndexSpine(items);
      SetChapterTexts(items);
      if |items| == 0 {
        NoKeysNoEntries(pageTexts);
      }
      currentPage := 1;
      UpdatePageInfo();
    }

    /** The text part of loadEPUB: the chapter texts and the labelled full text. */
    method SetChapterTexts(items: seq<Links.SpineItem>)
      modifies this`pageTexts, this`pdfText
      ensures forall p :: p in pageTexts <==> 1 <= p <= |items|
      ensures forall i :: 0 <= i < |items| ==> pageTexts[i + 1] == PageText.ChapterText(items[i].content)
      ensures pdfText == ContextWindow.Blocks(pageTexts, "Chapter", 1, |items| + 1)
    {
      var contents := seq(|items|, i requires 0 <= i < |items| => items[i].content);
      assert |contents| == |items| && forall i :: 0 <= i < |items| ==> contents[i] == items[i].content;
      var texts, full := PageText.ExtractEpubText(contents);
      pageTexts, pdfText := texts, full;
    }
    /**
     * A click on a link of an EPUB chapter: a chapter link looks its path up in the href index and,
     * when found at spine position i, goes to page i + 1 through goToPage. Returns what the click
     * does; scrolling and opening tabs are left to the caller.
     */
    method FollowLink(href: string) returns (action: Links.LinkAction, target: int)
      modifies this`currentPage, this`prevDisabled, this`nextDisabled
      ensures action == Links.ClassifyHref(href)
      ensures !action.OpenChapter? ==> target == -1 && currentPage == old(currentPage)
      ensures action.OpenChapter? ==>
        (target == -1 <==> forall k :: 0 <= k < |hrefIndex| ==> !Links.Matches(hrefIndex[k].0, action.chapterPath))
      ensures action.OpenChapter? && target != -1 ==>
        exists k :: (0 <= k < |hrefIndex| && Links.Matches(hrefIndex[k].0, action.chapterPath)
                     && target == hrefIndex[k].1
                     && forall j :: 0 <= j < k ==> !Links.Matches(hrefIndex[j].0, action.chapterPath))
      ensures currentPage == (if target != -1 && CanGoTo(TotalPages(), old(currentPage), target + 1)
                              then target + 1 else old(currentPage))
      ensures old(OnAPage()) ==> OnAPage()
      ensures old(ButtonsCurrent()) ==> ButtonsCurrent()
    {
      action := Links.ClassifyHref(href);
      target := -1;
      if action.OpenChapter? {
        target := Links.FindChapter(hrefIndex, action.chapterPath);
        if target >= 0 {
          GoToPage(target + 1);
        }
      }
    }
  }
}
