/**
 * Text extraction from a PDF: the three page readers, the fallback cascade between them, and
 * the line clean-up applied to the text finally chosen. The PDF and OCR libraries are not
 * modelled: each reader takes the per-page results its library would produce, where an `Err`
 * stands for the exception that ends the reader's `try` block.
 */
module DocumentProcessor {
  import opened Wrappers
  import opened Text

  // ---------------------------------------------------------------------------
  // Clean-up

  /** A non-empty line with no whitespace at either end, as `strip` leaves it. */
  predicate CleanLine(line: string) {
    line != [] && !IsSpace(line[0]) && !IsSpace(line[|line| - 1])
  }

  /** The cleaned lines: each line stripped, blank lines dropped, the rest in order. */
  function CleanLines(lines: seq<string>): (r: seq<string>)
    ensures |r| <= |lines|
    ensures forall i :: 0 <= i < |r| ==> CleanLine(r[i])
  {
    if |lines| == 0 then []
    else
      var line := Strip(lines[|lines| - 1]);
      CleanLines(lines[..|lines| - 1]) + (if line != "" then [line] else [])
  }

  /** Cleaning works line by line, so it keeps the relative order of the lines. */
  lemma {:induction false} CleanLinesAppend(a: seq<string>, b: seq<string>)
    ensures CleanLines(a + b) == CleanLines(a) + CleanLines(b)
    decreases |b|
  {
    if |b| == 0 {
      assert a + b == a;
    } else {
      var n := |b| - 1;
      assert (a + b)[..|a + b| - 1] == a + b[..n];
      CleanLinesAppend(a, b[..n]);
    }
  }

  /** Lines that are already non-blank and stripped come through unchanged. */
  lemma {:induction false} CleanLinesOfClean(lines: seq<string>)
    requires forall i :: 0 <= i < |lines| ==> CleanLine(lines[i])
    ensures CleanLines(lines) == lines
  {
    if |lines| > 0 {
      var n := |lines| - 1;
      var init, last := lines[..n], lines[n];
      CleanLinesOfClean(init);
      assert CleanLine(last);
      StripOfTrimmed(last);
      assert CleanLines(lines) == CleanLines(init) + [last];
      assert init + [last] == lines;
    }
  }

  /** Stripping adds no character, so cleaned lines hold no separator the lines lack. */
  lemma {:induction false} CleanLinesWithout(lines: seq<string>, c: char)
    requires forall i :: 0 <= i < |lines| ==> c !in lines[i]
    ensures forall i :: 0 <= i < |CleanLines(lines)| ==> c !in CleanLines(lines)[i]
  {
    if |lines| > 0 {
      CleanLinesWithout(lines[..|lines| - 1], c);
      StripNoNewChar(lines[|lines| - 1], c);
    }
  }

  /** The `while '\n\n\n' in cleaned_text` loop: replace until no triple newline is left. */
  function Collapse(s: string): (r: string)
    ensures !Contains(r, "\n\n\n")
    decreases |s|
  {
    if Contains(s, "\n\n\n") then
      ReplaceAllShrinks(s, "\n\n\n", "\n\n");
      Collapse(ReplaceAll(s, "\n\n\n", "\n\n"))
    else s
  }

  /** `_clean_text`. */
  function Cleaned(text: string): string {
    if text == "" then "" else Collapse(Join("\n", CleanLines(Split(text, '\n'))))
  }

  /** The cleaned text is its cleaned lines joined by single newlines. */
  lemma CleanedIsJoin(text: string)
    ensures Cleaned(text) == Join("\n", CleanLines(Split(text, '\n')))
  {
    if text == "" {
      EmptyHasNoLines();
    } else {
      CleanedNonEmpty(text);
    }
  }

  /** The cleaned text holds no blank line, so the collapsing loop never replaces anything. */
  lemma CleanedHasNoBlankLine(text: string)
    ensures !Contains(Cleaned(text), "\n\n")
  {
    CleanedIsJoin(text);
    JoinedLinesHaveNoBlankLine(text);
  }

  lemma CleanedNonEmpty(text: string)
    requires text != ""
    ensures Cleaned(text) == Join("\n", CleanLines(Split(text, '\n')))
  {
    JoinedLinesHaveNoBlankLine(text);
    CollapseWithoutTriple(Join("\n", CleanLines(Split(text, '\n'))));
  }

  /** With no triple newline, the collapsing loop does not run. */
  lemma CollapseWithoutTriple(s: string)
    requires !Contains(s, "\n\n\n")
    ensures Collapse(s) == s
  {
  }

  lemma JoinedLinesHaveNoBlankLine(text: string)
    ensures !Contains(Join("\n", CleanLines(Split(text, '\n'))), "\n\n")
    ensures !Contains(Join("\n", CleanLines(Split(text, '\n'))), "\n\n\n")
  {
    var lines := CleanLines(Split(text, '\n'));
    CleanLinesWithout(Split(text, '\n'), '\n');
    JoinedHasNoBlankLine(lines);
  }

  /** Non-empty lines free of newlines, joined by single newlines, leave no blank line. */
  lemma JoinedHasNoBlankLine(lines: seq<string>)
    requires forall i :: 0 <= i < |lines| ==> lines[i] != [] && '\n' !in lines[i]
    ensures !Contains(Join("\n", lines), "\n\n")
    ensures !Contains(Join("\n", lines), "\n\n\n")
  {
    JoinNoAdjacent(lines, '\n');
    NoAdjacentNoPair(Join("\n", lines), '\n');
    NoTripledFromNoDoubled(Join("\n", lines), '\n');
  }

  lemma EmptyHasNoLines()
    ensures Join("\n", CleanLines(Split("", '\n'))) == ""
  {
    assert Split("", '\n') == [""];
    assert Strip("") == "";
  }

  /**
   * The lines of the cleaned text are exactly the cleaned lines of the input: every line
   * non-empty and stripped, in their original order.
   */
  lemma CleanedLines(text: string)
    ensures Cleaned(text) == "" <==> CleanLines(Split(text, '\n')) == []
    ensures Cleaned(text) != "" ==> Split(Cleaned(text), '\n') == CleanLines(Split(text, '\n'))
  {
    var lines := CleanLines(Split(text, '\n'));
    CleanedIsJoin(text);
    CleanLinesWithout(Split(text, '\n'), '\n');
    JoinNoAdjacent(lines, '\n');
    if lines != [] {
      SplitJoin(lines, '\n');
    }
  }

  /** Where a line that is not blank lands among the cleaned lines. */
  lemma {:induction false} CleanLinesKeepAt(lines: seq<string>, i: nat) returns (k: nat)
    requires i < |lines| && Strip(lines[i]) != ""
    ensures k < |CleanLines(lines)| && CleanLines(lines)[k] == Strip(lines[i])
    decreases |lines|
  {
    var n := |lines| - 1;
    var init, last := lines[..n], Strip(lines[n]);
    var kept := CleanLines(init);
    assert CleanLines(lines) == kept + (if last != "" then [last] else []);
    if i < n {
      assert init[i] == lines[i];
      k := CleanLinesKeepAt(init, i);
      assert kept[k] == Strip(init[i]);
      assert CleanLines(lines)[k] == kept[k];
    } else {
      assert i == n && last != "";
      k := |kept|;
      assert CleanLines(lines)[k] == last;
    }
  }

  /** A line that is not blank survives cleaning in its stripped form. */
  lemma CleanLinesKeep(lines: seq<string>, i: nat)
    requires i < |lines| && Strip(lines[i]) != ""
    ensures Strip(lines[i]) in CleanLines(lines)
  {
    var k := CleanLinesKeepAt(lines, i);
  }



  /** Every non-blank line of the input is, stripped, a line of the cleaned text. */
  lemma CleanedKeepsLine(text: string, i: nat)
    requires i < |Split(text, '\n')| && Strip(Split(text, '\n')[i]) != ""
    ensures Strip(Split(text, '\n')[i]) in Split(Cleaned(text), '\n')
  {
    CleanLinesKeep(Split(text, '\n'), i);
    CleanedLines(text);
  }

  /** A text whose every line is already non-blank and stripped is left exactly as it is. */
  lemma CleanedOfCleanText(text: string)
    requires forall i :: 0 <= i < |Split(text, '\n')| ==> CleanLine(Split(text, '\n')[i])
    ensures Cleaned(text) == text
  {
    var lines := Split(text, '\n');
    assert CleanLine(lines[0]);
    assert text != "";
    CleanLinesOfClean(lines);
    CleanedIsJoin(text);
    JoinSplit(text, '\n');
  }

  /** Cleaning a cleaned text changes nothing. */
  lemma CleanedIdempotent(text: string)
    ensures Cleaned(Cleaned(text)) == Cleaned(text)
  {
    var c := Cleaned(text);
    CleanedLines(text);
    if c != "" {
      var lines := CleanLines(Split(text, '\n'));
      CleanLinesOfClean(lines);
      CleanedIsJoin(c);
      CleanedIsJoin(text);
    }
  }

  // ---------------------------------------------------------------------------
  // The page readers

  /** The page results up to the first failure: what the loop sees before the `try` ends. */
  function OkPrefix<T>(pages: seq<Result<T>>): (r: seq<T>)
    ensures |r| <= |pages|
    ensures forall i :: 0 <= i < |r| ==> pages[i] == Ok(r[i])
    ensures |r| < |pages| ==> pages[|r|].Err?
  {
    if |pages| == 0 then []
    else match pages[0]
      case Err(_) => []
      case Ok(v) => [v] + OkPrefix(pages[1..])
  }

  /** A failing page ends the reading: the pages after it play no part. */
  lemma {:induction false} OkPrefixStops<T>(a: seq<Result<T>>, e: string, b: seq<Result<T>>)
    requires forall i :: 0 <= i < |a| ==> a[i].Ok?
    ensures OkPrefix(a + [Err(e)] + b) == seq(|a|, i requires 0 <= i < |a| => a[i].value)
    decreases |a|
  {
    if |a| > 0 {
      assert (a + [Err(e)] + b)[1..] == a[1..] + [Err(e)] + b;
      OkPrefixStops(a[1..], e, b);
    }
  }

  /** What pdfplumber adds for one page: a non-empty text and a newline, else nothing. */
  function PlumberLine(page: Option<string>): string {
    match page
    case Some(t) => if t != "" then t + "\n" else ""
    case None => ""
  }

  /** The text of `_extract_with_pdfplumber` for the pages read. */
  function PlumberText(pages: seq<Option<string>>): string {
    if |pages| == 0 then ""
    else PlumberText(pages[..|pages| - 1]) + PlumberLine(pages[|pages| - 1])
  }

  /** The non-empty page texts, in page order. */
  function KeptTexts(pages: seq<Option<string>>): (r: seq<string>)
    ensures forall i :: 0 <= i < |r| ==> r[i] != ""
  {
    if |pages| == 0 then []
    else
      var page := pages[|pages| - 1];
      KeptTexts(pages[..|pages| - 1]) + (if page.Some? && page.value != "" then [page.value] else [])
  }

  /**
   * pdfplumber's text is the non-empty page texts, each followed by a newline; pages with
   * no text or an empty text are skipped.
   */
  lemma {:induction false} PlumberTextIsJoin(pages: seq<Option<string>>)
    ensures PlumberText(pages) == if KeptTexts(pages) == [] then "" else Join("\n", KeptTexts(pages)) + "\n"
  {
    if |pages| > 0 {
      var init := pages[..|pages| - 1];
      var page := pages[|pages| - 1];
      PlumberTextIsJoin(init);
      assert PlumberText(pages) == PlumberText(init) + PlumberLine(page);
      if page.Some? && page.value != "" {
        assert KeptTexts(pages) == KeptTexts(init) + [page.value];
        if KeptTexts(init) != [] {
          JoinSnoc("\n", KeptTexts(init), page.value);
        }
      } else {
        assert KeptTexts(pages) == KeptTexts(init);
      }
    }
  }

  /** The text of `_extract_with_pymupdf` for the pages read: every page and a newline. */
  function MuPdfText(pages: seq<string>): string {
    if |pages| == 0 then ""
    else MuPdfText(pages[..|pages| - 1]) + pages[|pages| - 1] + "\n"
  }

  /** PyMuPDF's text is every page text, empty ones included, each followed by a newline. */
  lemma {:induction false} MuPdfTextIsJoin(pages: seq<string>)
    ensures MuPdfText(pages) == if pages == [] then "" else Join("\n", pages) + "\n"
  {
    if |pages| > 1 {
      var init := pages[..|pages| - 1];
      MuPdfTextIsJoin(init);
      JoinSnoc("\n", init, pages[|pages| - 1]);
      assert init + [pages[|pages| - 1]] == pages;
    }
  }

  /** The number of pages OCR looks at: `min(5, len(doc))`. */
  function OcrPages(n: nat): nat {
    if n < 5 then n else 5
  }

  /** What OCR adds for one page: the first annotation's text and a newline, if any. */
  function OcrLine(annotation: Option<string>): string {
    match annotation
    case Some(d) => d + "\n"
    case None => ""
  }

  /** The text of `_extract_with_ocr` for the pages read. */
  function OcrText(pages: seq<Option<string>>): string {
    if |pages| == 0 then ""
    else OcrText(pages[..|pages| - 1]) + OcrLine(pages[|pages| - 1])
  }

  /** OCR reads at most the first five pages, so the pages after them never matter. */
  lemma OcrFirstFivePages(a: seq<Result<Option<string>>>, b: seq<Result<Option<string>>>)
    requires |a| >= 5
    ensures (a + b)[..OcrPages(|a + b|)] == a[..OcrPages(|a|)]
  {
  }

  // ---------------------------------------------------------------------------
  // The cascade

  /** The three readers, in the order `extract_text` tries them. */
  datatype Reader = Pdfplumber | PyMuPdf | Ocr

  /** `len(text.strip()) < 100`: too little text to keep. */
  predicate Short(text: string) {
    |Strip(text)| < 100
  }

  /**
   * The reader whose text `extract_text` keeps: pdfplumber when its stripped text reaches
   * 100 characters, else OCR when PyMuPDF's stripped text is also short and a vision client
   * exists, else PyMuPDF.
   */
  function LastTried(plumber: string, mupdf: string, visionClient: bool): Reader {
    if !Short(plumber) then Pdfplumber
    else if Short(mupdf) && visionClient then Ocr
    else PyMuPdf
  }

  /** The readers `extract_text` runs, in order. */
  function Tried(plumber: string, mupdf: string, visionClient: bool): seq<Reader> {
    [Pdfplumber]
    + (if Short(plumber) then [PyMuPdf] else [])
    + (if Short(plumber) && Short(mupdf) && visionClient then [Ocr] else [])
  }

  function ReaderText(r: Reader, plumber: string, mupdf: string, ocr: string): string {
    match r
    case Pdfplumber => plumber
    case PyMuPdf => mupdf
    case Ocr => ocr
  }

  /**
   * pdfplumber always runs first; PyMuPDF runs exactly when pdfplumber's stripped text is
   * under 100 characters; OCR exactly when PyMuPDF's is too and a vision client exists;
   * the last reader run is the one whose text is kept.
   */
  lemma TriedReaders(plumber: string, mupdf: string, visionClient: bool)
    ensures var tried := Tried(plumber, mupdf, visionClient);
      && |tried| > 0 && tried[0] == Pdfplumber
      && (PyMuPdf in tried <==> Short(plumber))
      && (Ocr in tried <==> Short(plumber) && Short(mupdf) && visionClient)
      && tried[|tried| - 1] == LastTried(plumber, mupdf, visionClient)
  {
  }

  class DocumentProcessor {
    /** Whether `vision_client` was created. */
    const visionClient: bool

    /**
     * `__init__`: the vision client exists when the credentials path is set, the file exists
     * and creating the client did not raise.
     */
    constructor (credentialsPath: Option<string>, pathExists: bool, clientCreated: bool)
      ensures visionClient == (credentialsPath.Some? && credentialsPath.value != "" && pathExists && clientCreated)
    {
      visionClient := credentialsPath.Some? && credentialsPath.value != "" && pathExists && clientCreated;
    }

    /** `_clean_text`. */
    method CleanText(text: string) returns (r: string)
      ensures r == Cleaned(text)
    {
      if text == "" {
        return "";
      }
      var lines := Split(text, '\n');
      var cleanedLines: seq<string> := [];
      for i := 0 to |lines|
        invariant cleanedLines == CleanLines(lines[..i])
      {
        assert lines[..i + 1][..i] == lines[..i];
        var line := Strip(lines[i]);
        if line != "" {
          cleanedLines := cleanedLines + [line];
        }
      }
      assert lines[..|lines|] == lines;
      var cleanedText := Join("\n", cleanedLines);
      ghost var joined := cleanedText;
      while Contains(cleanedText, "\n\n\n")
        invariant Collapse(cleanedText) == Collapse(joined)
        decreases |cleanedText|
      {
        ReplaceAllShrinks(cleanedText, "\n\n\n", "\n\n");
        cleanedText := ReplaceAll(cleanedText, "\n\n\n", "\n\n");
      }
      r := cleanedText;
    }

    /** `_extract_with_pdfplumber`: the text of the pages read before any failure. */
    method ExtractWithPdfplumber(pages: seq<Result<Option<string>>>) returns (text: string)
      ensures text == PlumberText(OkPrefix(pages))
    {
      ghost var read := OkPrefix(pages);
      text := "";
      var i := 0;
      while i < |pages| && pages[i].Ok?
        invariant i <= |read|
        invariant text == PlumberText(read[..i])
      {
        assert read[..i + 1][..i] == read[..i];
        var pageText := pages[i].value;
        if pageText.Some? && pageText.value != "" {
          text := text + pageText.value + "\n";
        }
        i := i + 1;
      }
      assert read[..i] == read;
    }

    /** `_extract_with_pymupdf`: the text of the pages read before any failure. */
    method ExtractWithPymupdf(pages: seq<Result<string>>) returns (text: string)
      ensures text == MuPdfText(OkPrefix(pages))
    {
      ghost var read := OkPrefix(pages);
      text := "";
      var i := 0;
      while i < |pages| && pages[i].Ok?
        invariant i <= |read|
        invariant text == MuPdfText(read[..i])
      {
        assert read[..i + 1][..i] == read[..i];
        text := text + pages[i].value + "\n";
        i := i + 1;
      }
      assert read[..i] == read;
    }

    /**
     * `_extract_with_ocr`: "" without a vision client; otherwise the annotations of the
     * first `min(5, len(doc))` pages read before any failure.
     */
    method ExtractWithOcr(pages: seq<Result<Option<string>>>) returns (text: string)
      ensures !visionClient ==> text == ""
      ensures visionClient ==> text == OcrText(OkPrefix(pages[..OcrPages(|pages|)]))
    {
      if !visionClient {
        return "";
      }
      var first := pages[..OcrPages(|pages|)];
      ghost var read := OkPrefix(first);
      text := "";
      var pageNum := 0;
      while pageNum < |first| && first[pageNum].Ok?
        invariant pageNum <= |read|
        invariant text == OcrText(read[..pageNum])
      {
        assert read[..pageNum + 1][..pageNum] == read[..pageNum];
        var annotation := first[pageNum].value;
        if annotation.Some? {
          text := text + annotation.value + "\n";
        }
        pageNum := pageNum + 1;
      }
      assert read[..pageNum] == read;
    }

    /**
     * `extract_text`: the readers tried, in order (see `TriedReaders`), and the cleaned text
     * of the last one.
     */
    method ExtractText(plumberPages: seq<Result<Option<string>>>, mupdfPages: seq<Result<string>>,
                       ocrPages: seq<Result<Option<string>>>)
      returns (text: string, tried: seq<Reader>)
      ensures var plumber := PlumberText(OkPrefix(plumberPages));
        var mupdf := MuPdfText(OkPrefix(mupdfPages));
        var ocr := OcrText(OkPrefix(ocrPages[..OcrPages(|ocrPages|)]));
        && tried == Tried(plumber, mupdf, visionClient)
        && text == Cleaned(ReaderText(LastTried(plumber, mupdf, visionClient), plumber, mupdf, ocr))
    {
      ghost var plumber := PlumberText(OkPrefix(plumberPages));
      ghost var mupdf := MuPdfText(OkPrefix(mupdfPages));
      ghost var ocr := OcrText(OkPrefix(ocrPages[..OcrPages(|ocrPages|)]));
      text := ExtractWithPdfplumber(plumberPages);
      tried := [Pdfplumber];
      if Short(text) {
        text := ExtractWithPymupdf(mupdfPages);
        tried := tried + [PyMuPdf];
      }
      assert text == if Short(plumber) then mupdf else plumber;
      assert tried == [Pdfplumber] + if Short(plumber) then [PyMuPdf] else [];
      if Short(text) && visionClient {
        text := ExtractWithOcr(ocrPages);
        tried := tried + [Ocr];
      }
      if !Short(plumber) {
        assert text == plumber;
      } else if Short(mupdf) && visionClient {
        assert text == ocr;
      } else {
        assert text == mupdf;
      }
      assert tried == Tried(plumber, mupdf, visionClient);
      text := CleanText(text);
    }
  }
}
