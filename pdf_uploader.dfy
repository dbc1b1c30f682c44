/** The upload box: it validates the chosen file, extracts its text page by
    page and hands the text on when there is enough of it. The PDF reader
    itself is not modelled: a document is the list of its pages, each page
    the list of its text items, and a failure anywhere in reading it is a
    value of its own. */
module PdfUploader {
  import opened Wrappers
  import opened JsText
  import opened Seqs

  datatype UploadState = Idle | Dragging | Extracting | Success | Error

  datatype PdfFile = PdfFile(name: JsString, mimeType: JsString, size: nat)

  const PDF_TYPE := Lit("application/pdf")
  const MAX_SIZE: nat := 10 * 1024 * 1024
  const MIN_TEXT_LENGTH: nat := 50

  const NOT_PDF := Lit("Por favor, envie apenas arquivos PDF.")
  const TOO_LARGE := Lit("Arquivo muito grande. Máximo: 10MB.")
  const TOO_LITTLE_TEXT := Lit("Não consegui extrair texto suficiente. O PDF pode ser uma imagem.")
  const READ_FAILED := Lit("Erro ao ler o PDF. Tente outro arquivo.")

  /** The text items of one page. */
  type Page = seq<JsString>

  /** The text of pages 1..n before trimming: each page's items joined with
      a space, each page followed by a newline. */
  function PagesText(pages: seq<Page>): (r: JsString)
    ensures r == [] <==> pages == []
    ensures r != [] ==> r[|r| - 1] == NEWLINE
    ensures |r| >= |pages|
  {
    if pages == [] then []
    else PagesText(pages[..|pages| - 1]) + Join(pages[|pages| - 1], [SPACE]) + [NEWLINE]
  }

  /** The text of a document is the text of its first pages followed by
      that of the rest. */
  lemma {:induction false} PagesTextAppend(a: seq<Page>, b: seq<Page>)
    ensures PagesText(a + b) == PagesText(a) + PagesText(b)
  {
    if b == [] {
      assert a + b == a;
    } else {
      var b' := b[..|b| - 1];
      var line := Join(b[|b| - 1], [SPACE]) + [NEWLINE];
      assert (a + b)[..|a + b| - 1] == a + b';
      assert (a + b)[|a + b| - 1] == b[|b| - 1];
      calc {
        PagesText(a + b);
        PagesText(a + b') + line;
        { PagesTextAppend(a, b'); }
        PagesText(a) + PagesText(b') + line;
        PagesText(a) + (PagesText(b') + line);
        PagesText(a) + PagesText(b);
      }
    }
  }

  /** Page `i` is in its place: after the pages before it and before the
      pages after it, each page on its own line. */
  lemma PageInOrder(pages: seq<Page>, i: nat)
    requires i < |pages|
    ensures PagesText(pages)
      == PagesText(pages[..i]) + Join(pages[i], [SPACE]) + [NEWLINE] + PagesText(pages[i + 1..])
  {
    assert pages == pages[..i + 1] + pages[i + 1..];
    PagesTextAppend(pages[..i + 1], pages[i + 1..]);
    assert pages[..i + 1][..i] == pages[..i];
  }

  /** One newline per page. */
  lemma {:induction false} PagesTextNewlines(pages: seq<Page>)
    requires forall p, t :: p in pages && t in p ==> NEWLINE !in t
    ensures multiset(PagesText(pages))[NEWLINE] == |pages|
  {
    if pages != [] {
      var last := pages[|pages| - 1];
      PagesTextNewlines(pages[..|pages| - 1]);
      JoinFree(last, [SPACE], NEWLINE);
    }
  }

  /** Joining items none of which holds `x`, with a separator without `x`,
      gives a text without `x`. */
  lemma {:induction false} JoinFree(items: seq<JsString>, sep: JsString, x: CodeUnit)
    requires x !in sep && forall t :: t in items ==> x !in t
    ensures multiset(Join(items, sep))[x] == 0
  {
    if |items| > 1 {
      JoinFree(items[..|items| - 1], sep, x);
      assert items[|items| - 1] in items;
    } else if |items| == 1 {
      assert items[0] in items;
    }
  }

  /** `extractTextFromPDF` after the document is open: the page loop that
      accumulates `fullText`, then the trim. */
  method ExtractText(pages: seq<Page>) returns (text: JsString)
    ensures text == Trim(PagesText(pages))
  {
    var fullText: JsString := [];
    var i := 0;
    while i < |pages|
      invariant 0 <= i <= |pages|
      invariant fullText == PagesText(pages[..i])
    {
      var pageText := Join(pages[i], [SPACE]);
      fullText := fullText + pageText + [NEWLINE];
      assert pages[..i + 1][..i] == pages[..i];
      i := i + 1;
    }
    assert pages[..i] == pages;
    text := Trim(fullText);
  }

  /** Reading the document: its pages, or an exception from loading the
      reader, reading the file or parsing it. */
  datatype Extraction = Pages(pages: seq<Page>) | ReadFailed

  class Uploader {
    var state: UploadState
    var fileName: Option<JsString>
    var errorMessage: Option<JsString>

    constructor()
      ensures state == Idle && fileName == None && errorMessage == None
    {
      state := Idle;
      fileName := None;
      errorMessage := None;
    }

    /** The box ignores clicks and drags while a file is being read or the
        page is analysing. */
    function IsProcessing(isAnalyzing: bool): (b: bool)
      reads this
      ensures b <==> state == Extracting || isAnalyzing
    {
      state == Extracting || isAnalyzing
    }

    /** The state `handleFile` leaves before the extraction: the type is
        checked first, then the size (10 MiB is still accepted); a rejected
        file keeps the previous file name. */
    twostate predicate HandledFile(file: PdfFile)
      reads this
    {
      && (file.mimeType != PDF_TYPE ==>
            state == Error && errorMessage == Some(NOT_PDF) && fileName == old(fileName))
      && (file.mimeType == PDF_TYPE && file.size > MAX_SIZE ==>
            state == Error && errorMessage == Some(TOO_LARGE) && fileName == old(fileName))
      && (file.mimeType == PDF_TYPE && file.size <= MAX_SIZE ==>
            state == Extracting && fileName == Some(file.name) && errorMessage == None)
    }

    /** `handleFile` up to the extraction. */
    method HandleFile(file: PdfFile) returns (accepted: bool)
      modifies this
      ensures accepted <==> file.mimeType == PDF_TYPE && file.size <= MAX_SIZE
      ensures HandledFile(file)
    {
      if file.mimeType != PDF_TYPE {
        state := Error;
        errorMessage := Some(NOT_PDF);
        return false;
      }
      if file.size > MAX_SIZE {
        state := Error;
        errorMessage := Some(TOO_LARGE);
        return false;
      }
      fileName := Some(file.name);
      state := Extracting;
      errorMessage := None;
      accepted := true;
    }

    /** `handleFile` after the extraction: too little text is an error;
        otherwise the text is what goes to `onTextExtracted`. */
    method CompleteExtraction(result: Extraction) returns (delivered: Option<JsString>)
      modifies this
      ensures fileName == old(fileName)
      ensures result.ReadFailed? ==> state == Error && errorMessage == Some(READ_FAILED) && delivered == None
      ensures result.Pages? ==>
        var text := Trim(PagesText(result.pages));
        if |text| < MIN_TEXT_LENGTH then
          state == Error && errorMessage == Some(TOO_LITTLE_TEXT) && delivered == None
        else
          state == Success && errorMessage == old(errorMessage) && delivered == Some(text)
    {
      match result {
        case ReadFailed =>
          state := Error;
          errorMessage := Some(READ_FAILED);
          delivered := None;
        case Pages(pages) =>
          var text := ExtractText(pages);
          if text == [] || |text| < MIN_TEXT_LENGTH {
            state := Error;
            errorMessage := Some(TOO_LITTLE_TEXT);
            delivered := None;
          } else {
            state := Success;
            delivered := Some(text);
          }
      }
    }

    /** `handleDragOver`, `handleDragLeave` and `handleDrop`, which are
        only attached while the box is not processing. A drop goes back
        to idle and handles the first file only; the result is the file
        handed to `handleFile`. */
    method HandleDrag(event: DragEvent, isAnalyzing: bool) returns (handled: Option<PdfFile>)
      modifies this
      ensures old(IsProcessing(isAnalyzing)) ==>
        handled == None && state == old(state) && fileName == old(fileName) && errorMessage == old(errorMessage)
      ensures !old(IsProcessing(isAnalyzing)) && event == DragOver ==>
        handled == None && state == Dragging && fileName == old(fileName) && errorMessage == old(errorMessage)
      ensures !old(IsProcessing(isAnalyzing)) && event == DragLeave ==>
        handled == None && state == Idle && fileName == old(fileName) && errorMessage == old(errorMessage)
      ensures !old(IsProcessing(isAnalyzing)) && event.Drop? && event.files == [] ==>
        handled == None && state == Idle && fileName == old(fileName) && errorMessage == old(errorMessage)
      ensures !old(IsProcessing(isAnalyzing)) && event.Drop? && event.files != [] ==>
        handled == Some(event.files[0]) && HandledFile(event.files[0])
    {
      if IsProcessing(isAnalyzing) {
        return None;
      }
      match event {
        case DragOver =>
          state := Dragging;
          handled := None;
        case DragLeave =>
          state := Idle;
          handled := None;
        case Drop(files) =>
          state := Idle;
          if files == [] {
            return None;
          }
          var _ := HandleFile(files[0]);
          handled := Some(files[0]);
      }
    }

    /** `handleFileInput`: the first chosen file, if any, goes to
        `handleFile`; the result is the file handed on. */
    method HandleFileInput(files: seq<PdfFile>) returns (handled: Option<PdfFile>)
      modifies this
      ensures files == [] ==>
        handled == None && state == old(state) && fileName == old(fileName) && errorMessage == old(errorMessage)
      ensures files != [] ==>
        handled == Some(files[0]) && HandledFile(files[0])
    {
      if files == [] {
        return None;
      }
      var _ := HandleFile(files[0]);
      handled := Some(files[0]);
    }

    /** `resetUploader`. */
    method Reset()
      modifies this
      ensures state == Idle && fileName == None && errorMessage == None
    {
      state := Idle;
      fileName := None;
      errorMessage := None;
    }
  }

  datatype DragEvent = DragOver | DragLeave | Drop(files: seq<PdfFile>)
}
