/** The premium view: it asks the function for the rewritten résumé,
    shows it, copies it as plain text and exports it as a Word document
    laid out more simply than the full export. */
module BlindedCv {
  import opened Wrappers
  import opened JsText
  import opened Seqs
  import opened CvTypes
  import opened Paragraphs
  import opened FunctionClient

  const NO_TEXT := Lit("Texto do CV não encontrado.")
  const CALL_FAILED := Lit("Erro ao processar CV")
  const UNEXPECTED := Lit("Erro inesperado. Tente novamente.")
  const NOT_REWRITTEN := Lit("Não foi possível reescrever o CV")

  const ROLE_SEPARATOR := Lit(" | ")
  const BULLET_MARK := Lit("• ")
  const LINE_BREAK: JsString := [NEWLINE]
  const BLANK_LINE: JsString := [NEWLINE, NEWLINE]
  const SUMMARY_BANNER := Lit("=== RESUMO PROFISSIONAL ===")
  const EXPERIENCE_BANNER := Lit("=== EXPERIÊNCIA ===")

  const DOCUMENT_TITLE := Lit("CURRÍCULO PROFISSIONAL")
  const SUMMARY_HEADING := Lit("RESUMO PROFISSIONAL")
  const EXPERIENCE_HEADING := Lit("EXPERIÊNCIA PROFISSIONAL")

  // ---------------------------------------------------------------------
  // Plain text for the clipboard
  // ---------------------------------------------------------------------

  function RoleLine(exp: WorkExperience): JsString {
    exp.role + ROLE_SEPARATOR + exp.company
  }

  function BulletLines(bullets: seq<JsString>): (r: seq<JsString>)
    ensures |r| == |bullets|
  {
    seq(|bullets|, i requires 0 <= i < |bullets| => BULLET_MARK + bullets[i])
  }

  /** One entry as text: role and company, period, then the bullet lines
      joined with line breaks. An entry without bullets keeps the break
      after its period. */
  function EntryText(exp: WorkExperience): (r: JsString)
    ensures exp.bullets != [] ==> r == Join([RoleLine(exp), exp.period] + BulletLines(exp.bullets), LINE_BREAK)
    ensures exp.bullets == [] ==> r == Join([RoleLine(exp), exp.period], LINE_BREAK) + LINE_BREAK
  {
    var r := RoleLine(exp) + LINE_BREAK + exp.period + LINE_BREAK + Join(BulletLines(exp.bullets), LINE_BREAK);
    if exp.bullets != [] then
      JoinAppend([RoleLine(exp), exp.period], BulletLines(exp.bullets), LINE_BREAK);
      r
    else r
  }

  function EntryTexts(ws: seq<WorkExperience>): (r: seq<JsString>)
    ensures |r| == |ws|
  {
    seq(|ws|, i requires 0 <= i < |ws| => EntryText(ws[i]))
  }

  /** The text `handleCopyAll` writes: the summary banner, the summary,
      the experience banner and the entries separated by blank lines. */
  function CopyText(cv: RewrittenCv): (r: JsString)
    ensures cv.workHistory != [] ==>
      r == Join([SUMMARY_BANNER, cv.summary, EXPERIENCE_BANNER] + EntryTexts(cv.workHistory), BLANK_LINE)
    ensures cv.workHistory == [] ==> r == Join([SUMMARY_BANNER, cv.summary, EXPERIENCE_BANNER], BLANK_LINE) + BLANK_LINE
  {
    var heads := [SUMMARY_BANNER, cv.summary, EXPERIENCE_BANNER];
    assert heads[..2] == [SUMMARY_BANNER, cv.summary];
    assert heads[..2][..1] == [SUMMARY_BANNER];
    assert Join(heads[..2], BLANK_LINE) == SUMMARY_BANNER + BLANK_LINE + cv.summary;
    assert Join(heads, BLANK_LINE) == SUMMARY_BANNER + BLANK_LINE + cv.summary + BLANK_LINE + EXPERIENCE_BANNER;
    var r := SUMMARY_BANNER + BLANK_LINE + cv.summary + BLANK_LINE + EXPERIENCE_BANNER + BLANK_LINE
      + Join(EntryTexts(cv.workHistory), BLANK_LINE);
    if cv.workHistory != [] then
      JoinAppend([SUMMARY_BANNER, cv.summary, EXPERIENCE_BANNER], EntryTexts(cv.workHistory), BLANK_LINE);
      r
    else r
  }

  // ---------------------------------------------------------------------
  // Paragraphs for the Word file
  // ---------------------------------------------------------------------

  function WordEntry(exp: WorkExperience): (r: seq<Block>)
    ensures |r| == 2 + |exp.bullets|
    ensures Spacer !in r
  {
    var lines := BulletLines(exp.bullets);
    [Strong(RoleLine(exp)), Italic(exp.period)] + seq(|lines|, i requires 0 <= i < |lines| => Bullet(lines[i]))
  }

  function WordEntries(ws: seq<WorkExperience>): (r: seq<seq<Block>>)
    ensures |r| == |ws|
  {
    seq(|ws|, i requires 0 <= i < |ws| => WordEntry(ws[i]))
  }

  /** The four paragraphs before the entries. */
  function Opening(summary: JsString): (r: seq<Block>)
    ensures |r| == 4 && Spacer !in r
    ensures r[2] == Body(summary)
  {
    [Title(DOCUMENT_TITLE), Heading(SUMMARY_HEADING), Body(summary), Heading(EXPERIENCE_HEADING)]
  }

  /** Title, summary heading, summary (present even when empty),
      experience heading, then the entries with a spacer between
      neighbours. */
  function WordDocument(cv: RewrittenCv): (r: seq<Block>)
    ensures |r| >= 4 && r[..4] == Opening(cv.summary)
    ensures cv.workHistory == [] <==> |r| == 4
  {
    Opening(cv.summary) + Join(WordEntries(cv.workHistory), [Spacer])
  }

  /** The nested `forEach` that fills `experienceParagraphs`. */
  method ExperienceParagraphs(ws: seq<WorkExperience>) returns (ps: seq<Block>)
    ensures ps == Join(WordEntries(ws), [Spacer])
  {
    ps := [];
    var index := 0;
    while index < |ws|
      invariant 0 <= index <= |ws|
      invariant ps == Join(WordEntries(ws)[..index], [Spacer])
    {
      var exp := ws[index];
      if index > 0 {
        ps := ps + [Spacer];
      }
      ghost var entryStart := ps;
      ps := ps + [Strong(exp.role + ROLE_SEPARATOR + exp.company)];
      ps := ps + [Italic(exp.period)];
      var j := 0;
      while j < |exp.bullets|
        invariant 0 <= j <= |exp.bullets|
        invariant ps == entryStart + WordEntry(exp)[..2 + j]
      {
        ps := ps + [Bullet(BULLET_MARK + exp.bullets[j])];
        assert WordEntry(exp)[..2 + j + 1] == WordEntry(exp)[..2 + j] + [WordEntry(exp)[2 + j]];
        j := j + 1;
      }
      assert WordEntry(exp)[..2 + j] == WordEntry(exp);
      JoinStep(WordEntries(ws), index, [Spacer]);
      index := index + 1;
    }
    assert WordEntries(ws)[..index] == WordEntries(ws);
  }

  // ---------------------------------------------------------------------
  // Properties of the two exports
  // ---------------------------------------------------------------------

  /** The texts of a list of paragraphs. */
  function Texts(bs: seq<Block>): (r: seq<JsString>)
    ensures |r| == |bs|
  {
    seq(|bs|, i requires 0 <= i < |bs| => ParagraphText(bs[i]))
  }

  /** The paragraphs of all entries add up to two per entry plus one per
      bullet. */
  lemma {:induction false} EntriesTotal(ws: seq<WorkExperience>)
    ensures TotalLength(WordEntries(ws)) == 2 * |ws| + BulletCount(ws)
  {
    if ws != [] {
      var init := ws[..|ws| - 1];
      EntriesTotal(init);
      assert WordEntries(ws)[..|ws| - 1] == WordEntries(init);
    }
  }

  /** The Word file has the four fixed paragraphs, two per entry, one per
      bullet and a spacer between neighbouring entries. */
  lemma WordDocumentLength(cv: RewrittenCv)
    ensures var n := |cv.workHistory|;
      |WordDocument(cv)| == 4 + 2 * n + BulletCount(cv.workHistory) + (if n == 0 then 0 else n - 1)
  {
    EntriesTotal(cv.workHistory);
    if cv.workHistory != [] {
      JoinLength(WordEntries(cv.workHistory), [Spacer]);
    }
  }

  /** n entries give n - 1 spacers: none before the first entry and none
      inside an entry. */
  lemma WordSpacerCount(cv: RewrittenCv)
    ensures var n := |cv.workHistory|;
      multiset(WordDocument(cv))[Spacer] == if n == 0 then 0 else n - 1
  {
    var parts := WordEntries(cv.workHistory);
    var rest := Join(parts, [Spacer]);
    if parts != [] {
      JoinSeparatorCount(parts, Spacer);
    }
    FixedOpeningSpacers(cv.summary);
    assert multiset(WordDocument(cv)) == multiset(Opening(cv.summary)) + multiset(rest);
  }

  lemma FixedOpeningSpacers(summary: JsString)
    ensures multiset(Opening(summary))[Spacer] == 0
  {
  }

  /** The file opens with the title, the summary heading, the summary body
      (even an empty one) and the experience heading; the first entry comes
      right after, with no spacer before it. */
  lemma WordDocumentOpening(cv: RewrittenCv)
    ensures |WordDocument(cv)| >= 4
    ensures WordDocument(cv)[..4] ==
      [Title(DOCUMENT_TITLE), Heading(SUMMARY_HEADING), Body(cv.summary), Heading(EXPERIENCE_HEADING)]
    ensures cv.workHistory != [] ==>
      var first := WordEntry(cv.workHistory[0]);
      |WordDocument(cv)| >= 4 + |first| && WordDocument(cv)[4..4 + |first|] == first
  {
    var doc := WordDocument(cv);
    var parts := WordEntries(cv.workHistory);
    var rest := Join(parts, [Spacer]);
    assert doc[4..] == rest;
    if parts != [] {
      JoinFirst(parts, [Spacer]);
      assert doc[4..4 + |parts[0]|] == rest[..|parts[0]|];
    }
  }

  /** The only headings of the Word file are the two section headings. */
  lemma WordHeadings(cv: RewrittenCv)
    ensures Headings(WordDocument(cv)) == [SUMMARY_HEADING, EXPERIENCE_HEADING]
  {
    var rest := Join(WordEntries(cv.workHistory), [Spacer]);
    assert WordDocument(cv) == Opening(cv.summary) + rest;
    HeadingsAppend(Opening(cv.summary), rest);
    OpeningHeadings(cv.summary);
    EntriesHaveNoHeadings(cv.workHistory);
  }

  lemma OpeningHeadings(summary: JsString)
    ensures Headings(Opening(summary)) == [SUMMARY_HEADING, EXPERIENCE_HEADING]
  {
    var fixed := Opening(summary);
    assert fixed == [fixed[0]] + [fixed[1]] + [fixed[2]] + [fixed[3]];
    HeadingsAppend([fixed[0]] + [fixed[1]] + [fixed[2]], [fixed[3]]);
    HeadingsAppend([fixed[0]] + [fixed[1]], [fixed[2]]);
    HeadingsAppend([fixed[0]], [fixed[1]]);
    assert Headings([fixed[0]]) == [] by { assert [fixed[0]][..0] == []; }
    assert Headings([fixed[1]]) == [SUMMARY_HEADING] by { assert [fixed[1]][..0] == []; }
    assert Headings([fixed[2]]) == [] by { assert [fixed[2]][..0] == []; }
    assert Headings([fixed[3]]) == [EXPERIENCE_HEADING] by { assert [fixed[3]][..0] == []; }
  }

  lemma EntriesHaveNoHeadings(ws: seq<WorkExperience>)
    ensures Headings(Join(WordEntries(ws), [Spacer])) == []
  {
    var parts := WordEntries(ws);
    forall i | 0 <= i < |parts|
      ensures forall x: Block :: x in parts[i] ==> !x.Heading?
    {
      assert parts[i] == WordEntry(ws[i]);
    }
    JoinAll(parts, [Spacer], (x: Block) => !x.Heading?);
    NoHeadings(Join(parts, [Spacer]));
  }

  /** Joining a list of at least two parts: the first two, then the rest. */
  lemma JoinTwoThen<T>(a: seq<T>, b: seq<T>, rest: seq<seq<T>>, sep: seq<T>)
    ensures Join([a, b] + rest, sep) == a + sep + b + (if rest == [] then [] else sep + Join(rest, sep))
  {
    var two := [a, b];
    assert two[..1] == [a];
    if rest == [] {
      assert two + rest == two;
    } else {
      JoinAppend(two, rest, sep);
    }
  }

  /** An entry copied as text is its Word paragraphs' texts, one per line;
      an entry without bullets keeps the line break after its period. */
  lemma CopyMatchesWord(exp: WorkExperience)
    ensures EntryText(exp) ==
      Join(Texts(WordEntry(exp)), LINE_BREAK) + (if exp.bullets == [] then LINE_BREAK else [])
  {
    var lines := BulletLines(exp.bullets);
    assert Texts(WordEntry(exp)) == [RoleLine(exp), exp.period] + lines;
    JoinTwoThen(RoleLine(exp), exp.period, lines, LINE_BREAK);
  }

  // ---------------------------------------------------------------------
  // The view's state
  // ---------------------------------------------------------------------

  datatype Screen = Loading | Failed(message: JsString) | Showing(cv: RewrittenCv)

  class BlindedCvView {
    var copied: bool
    var isDownloading: bool
    var isLoading: bool
    var rewrittenData: Option<RewrittenCv>
    var error: Option<JsString>

    constructor()
      ensures !copied && !isDownloading && isLoading
      ensures rewrittenData == None && error == None
    {
      copied := false;
      isDownloading := false;
      isLoading := true;
      rewrittenData := None;
      error := None;
    }

    /** What is on screen: the spinner while loading, then the error card
        when there is an error or no data, then the résumé. */
    function View(): (s: Screen)
      reads this
      ensures isLoading <==> s == Loading
      ensures s.Failed? <==> !isLoading && (Truthy(error) || rewrittenData.None?)
      ensures s.Failed? && !Truthy(error) ==> s.message == NOT_REWRITTEN
      ensures s.Showing? ==> rewrittenData == Some(s.cv)
    {
      if isLoading then Loading
      else if Truthy(error) || rewrittenData.None? then Failed(OrElse(error, NOT_REWRITTEN))
      else Showing(rewrittenData.value)
    }

    /** `fetchRewrite`, given what the invocation returns. The result says
        whether the function was invoked. */
    method FetchRewrite(cvText: JsString, outcome: InvokeOutcome) returns (invoked: bool)
      modifies this
      ensures invoked <==> cvText != []
      ensures !isLoading
      ensures copied == old(copied) && isDownloading == old(isDownloading)
      ensures !invoked ==> error == Some(NO_TEXT) && rewrittenData == old(rewrittenData)
      ensures invoked && outcome.FnError? ==>
        error == Some(OrElse(outcome.message, CALL_FAILED)) && rewrittenData == old(rewrittenData)
      ensures invoked && outcome.Threw? ==> error == Some(UNEXPECTED) && rewrittenData == old(rewrittenData)
      ensures invoked && outcome.Returned? ==>
        var data := outcome.data;
        if data.Some? && Truthy(data.value.error) then
          error == data.value.error && rewrittenData == old(rewrittenData)
        else if data.Some? && data.value.rewrite.Some? then
          error == None && rewrittenData == data.value.rewrite
        else
          error == None && rewrittenData == old(rewrittenData)
    {
      if cvText == [] {
        error := Some(NO_TEXT);
        isLoading := false;
        return false;
      }
      invoked := true;
      isLoading := true;
      error := None;
      match outcome {
        case FnError(message) =>
          error := Some(OrElse(message, CALL_FAILED));
        case Threw =>
          error := Some(UNEXPECTED);
        case Returned(data) =>
          if data.Some? && Truthy(data.value.error) {
            error := data.value.error;
          } else if data.Some? && data.value.rewrite.Some? {
            rewrittenData := data.value.rewrite;
          }
      }
      isLoading := false;
    }

    /** `handleCopyAll`: the text put on the clipboard, or nothing when
        there is no rewritten résumé. */
    method CopyAll() returns (clipboard: Option<JsString>)
      modifies this
      ensures rewrittenData == old(rewrittenData) && error == old(error)
      ensures isLoading == old(isLoading) && isDownloading == old(isDownloading)
      ensures old(rewrittenData).None? ==> clipboard == None && copied == old(copied)
      ensures old(rewrittenData).Some? ==> clipboard == Some(CopyText(old(rewrittenData).value)) && copied
    {
      if rewrittenData.None? {
        return None;
      }
      clipboard := Some(CopyText(rewrittenData.value));
      copied := true;
    }

    /** `handleDownloadWord`: the paragraphs of the file, or nothing when
        there is no rewritten résumé; `isDownloading` is false again when
        it returns, however the file step ends. */
    method DownloadWord() returns (document: Option<seq<Block>>)
      modifies this
      ensures rewrittenData == old(rewrittenData) && error == old(error)
      ensures isLoading == old(isLoading) && copied == old(copied)
      ensures old(rewrittenData).None? ==> document == None && isDownloading == old(isDownloading)
      ensures old(rewrittenData).Some? ==> document == Some(WordDocument(old(rewrittenData).value)) && !isDownloading
    {
      if rewrittenData.None? {
        return None;
      }
      isDownloading := true;
      var cv := rewrittenData.value;
      var ps := ExperienceParagraphs(cv.workHistory);
      document := Some([Title(DOCUMENT_TITLE), Heading(SUMMARY_HEADING), Body(cv.summary), Heading(EXPERIENCE_HEADING)] + ps);
      isDownloading := false;
    }
  }
}
