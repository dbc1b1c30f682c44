# CV Sincero — a verified model of its core logic

CV Sincero is a web application that "roasts" a curriculum vitae. The user
uploads a PDF. The browser extracts its text and sends it to a serverless
function. That function asks a language-model gateway for one of three
answers: a free verdict (roast), a paid list of errors (dossier), or a paid
rewrite. The page parses the free verdict into a score, a first impression
and one critical error. Paid views are unlocked when the user returns from
the payment page. The rewritten CV can be copied as text or exported as a
Word document.

This project models that logic in Dafny and proves what the code promises.
It covers:

- **RoastCv**: the serverless request handler. It validates the input,
  picks the prompt for the mode, maps the gateway's status codes, strips
  a Markdown code fence from the reply and wraps the result.
- **DocxGenerator** and **DocxProperties**: the Word export of a
  rewritten CV as an ordered list of abstract paragraphs (`Paragraphs.Block`),
  and the lemmas about it.
- **FreemiumResult**, **FreemiumPatterns**, **FreemiumSearch**: the free
  verdict parser. Each regular expression becomes a hand-written scanner,
  proved sound and complete against a predicate stating what the pattern
  matches. Each extracted field is proved to come from the leftmost match.
- **BlindedCv**: the rewrite view. It covers its fetch state machine, the
  copy-to-clipboard text and its own, smaller Word export.
- **DossieView**: the dossier view. It covers the fetch outcome
  classification, the error list, the title and the render priority.
- **PdfUploader**: the upload validation, the page-by-page text extraction
  loop and the drag-and-drop state machine.
- **PricingCards**, **LocalStorage**: the tiers, and the single pending
  slot saved before the redirect to payment. The slot holds the record's
  JSON text, written as `JSON.stringify` writes it.
- **IndexPage**: the page's plan parameters, its analysis handler, the
  reset button and what the page shows.
- **SocialShare**: the share-text helpers and the file name of the
  downloaded score card.

Shared modules:

- `JsText` models JavaScript strings as sequences of UTF-16 code units.
  `length`, `slice` and regular expressions without the `u` flag count
  code units, so an emoji is two units, as in the application.
- `Scan` holds the generic greedy-run, first-position and last-position
  searches.
- `Seqs` holds `Array.prototype.join` over sequences.
- `JsonText` writes string literals as `JSON.stringify` does (section
  25.5.2.3 of ECMA-262) and reads them back by the JSON grammar of
  ECMA-404.
- `FunctionClient` holds the outcome of a serverless-function call. It is
  either a transport error, a returned payload (possibly null) or a thrown
  exception.

`JSON.parse` is an oracle parameter `parse: JsString -> Option<J>` wherever
the code parses JSON. Where a text the application itself wrote is parsed
again (the pending slot), the premise `IndexPage.ParsesPendingRecords`
says that the oracle reads such a record as `PricingCards.ReadPending`
does. The gateway reply, the PDF pages, the function-call
outcome, the clock and the URL parameters are inputs. Each asynchronous
handler is split at its `await`. The part before the call and the part after
it are separate methods of the same class, with the awaited outcome as an
input of the second one.

Where the product description and the code disagree, the model follows the
code. The free verdict's score is described as a number from 0 to 10, but
the parser does not clamp it (`FreemiumResult.ScoreNotClamped`: "Nota:
12/10" gives 12). The pending slot is also described as cleared when a new
analysis starts. In the code only the reset button removes it
(`IndexPage.Page.Reset`); `IndexPage.Page.HandleTextExtracted` does not
touch storage.

## Model

| member | source | states |
|---|---|---|
| RoastCv.ModeOf | supabase/functions/roast-cv/index.ts:140-172 | the mode is rewrite iff the field is the string "rewrite", dossie iff it is "dossie", and roast for anything else, including a missing or non-string field |
| RoastCv.Content | supabase/functions/roast-cv/index.ts:174-179 | the user message is exactly the lead sentence, a blank line and the CV text verbatim: it starts with the first two, ends with the text, and has no unit in between |
| RoastCv.StripCodeFence | supabase/functions/roast-cv/index.ts:236-247 | the text handed to the JSON parser has no surrounding whitespace and is never longer than the reply |
| RoastCv.CleanJson | supabase/functions/roast-cv/index.ts:236-246 | the successive reassignments of `jsonStr` compute exactly StripCodeFence |
| RoastCv.JsonFenceRemoved | supabase/functions/roast-cv/index.ts:236-247 | a reply "```json\n" + B + "\n```" is cleaned to trim(B) |
| RoastCv.BareFenceRemoved | supabase/functions/roast-cv/index.ts:236-247 | a reply "```\n" + B + "\n```" is cleaned to trim(B) |
| RoastCv.UnfencedKept | supabase/functions/roast-cv/index.ts:236-247 | a reply whose trimmed text neither starts nor ends with a fence is cleaned to its trim |
| RoastCv.OtherTagKept | supabase/functions/roast-cv/index.ts:237-241 | a fence whose tag does not start with lower-case "json" keeps its tag at the head of the cleaned text |
| RoastCv.GatewayFailure | supabase/functions/roast-cv/index.ts:196-217 | a failed gateway call answers 429 for 429, 402 for 402 and 500 for any other status, always with an error body |
| RoastCv.ReplyFor | supabase/functions/roast-cv/index.ts:196-274 | the status is one of 200, 402, 429, 500; a 200 carries a roast, dossier or rewrite body and anything else an error; a rewrite or dossier body is only for its own mode and is never a value whose log line throws (`null` among them) |
| RoastCv.StructuredReply | supabase/functions/roast-cv/index.ts:233-268 | the answer is 500 with the parse-error message iff parsing fails or the log line inside the same `try` throws: on a parsed `null`, or on a `workHistory` (rewrite) or `errors` (dossier) `length` whose conversion to a string throws; any other parsed value answers 200 under the mode's key |
| RoastCv.HandleRequest | supabase/functions/roast-cv/index.ts:134-281 | the gateway is called iff the request is not an OPTIONS request (any other method is handled as a POST) and has a body, valid CV text, a non-empty key and a `mode` whose conversion to a string does not throw; every non-200 answer to a non-OPTIONS request is an error; the answer is 400 iff the body is JSON and its `cvText` is missing, `null`, empty or blank (a non-string `cvText` throws and answers 500) |
| RoastCv.BlankTextRejectedFirst | supabase/functions/roast-cv/index.ts:150-156 | a missing, `null`, empty or blank `cvText` answers 400 before the key check, and nothing is sent |
| RoastCv.NonStringTextThrows | supabase/functions/roast-cv/index.ts:144 | a `cvText` that is a number, boolean, object or array makes the debug log's `substring` call throw: 500 with the exception's message, and nothing is sent |
| RoastCv.UnprintableModeThrows | supabase/functions/roast-cv/index.ts:168 | with valid text and a key, a `mode` whose conversion to a string throws (an object with its own `toString` member) makes the log line's template literal throw: 500, and the gateway is never called |
| RoastCv.ValidCvText | supabase/functions/roast-cv/index.ts:150 | the text passes the 400 check iff it is a string with a unit that is not white space |
| RoastCv.PromptFor | supabase/functions/roast-cv/index.ts:171-172 | the roast, dossier and rewrite prompts each serve exactly their own mode |
| RoastCv.GatewayRequest | supabase/functions/roast-cv/index.ts:170-192 | the fixed model and exactly two messages: the mode's system prompt, then the user message whose content is `Content` of the mode's task sentence and the CV text, so it opens with the sentence and a blank line and ends with the text |
| RoastCv.MissingKeyRejected | supabase/functions/roast-cv/index.ts:159-166 | valid text without a key answers 500 with the key message, and nothing is sent |
| RoastCv.GatewayRequestShape | supabase/functions/roast-cv/index.ts:168-192 | with valid text, a key and a printable mode, the request sent holds exactly a system message with the mode's prompt, then one user message whose content is the task sentence, a blank line and the CV text |
| RoastCv.GatewayStatusMapping | supabase/functions/roast-cv/index.ts:196-217 | the answer to a failed call does not depend on the gateway's body; 429 and 402 keep their status and others become 500 |
| RoastCv.EmptyContentRejected | supabase/functions/roast-cv/index.ts:219-228 | a successful call with missing or empty content answers 500 "Resposta vazia" |
| RoastCv.ResultWrapping | supabase/functions/roast-cv/index.ts:233-274 | roast mode answers the content unchanged under `roast`; the other modes answer the parsed value under their own key, or 500 with the parse-error message when parsing fails or the log line after it throws |
| RoastCv.FencedReplyAnsweredAlike | supabase/functions/roast-cv/index.ts:236-260 | a JSON reply wrapped in a ```json fence gets the same answer as the bare reply |
| RoastCv.ReplyIsStructured | supabase/functions/roast-cv/index.ts:233-247 | in rewrite and dossier modes the parser is given the fence-stripped content |
| DocxGenerator.SectionHeading | src/utils/docxGenerator.ts:10-26 | a heading paragraph whose text is the title upper-cased unit by unit |
| DocxGenerator.BodyText | src/utils/docxGenerator.ts:28-41 | a plain or italic paragraph, as asked, carrying the text unchanged |
| DocxGenerator.BulletPoint | src/utils/docxGenerator.ts:43-51 | a bullet paragraph whose text is "•  " followed by the item |
| DocxGenerator.Present | src/utils/docxGenerator.ts:74-78 | keeps only the non-empty contact parts; empty iff no part is a non-empty string |
| DocxGenerator.NameOf | src/utils/docxGenerator.ts:57-72 | the contact name when it is a non-empty string, otherwise "Seu Nome" |
| DocxGenerator.HeaderBlocks | src/utils/docxGenerator.ts:56-95 | the title with the name, then a second paragraph iff some contact part is present, and that one a contact line |
| DocxGenerator.SummaryBlocks | src/utils/docxGenerator.ts:97-101 | nothing for an empty summary; otherwise a heading and the summary text unchanged |
| DocxGenerator.EntryBlocks | src/utils/docxGenerator.ts:112-126 | an entry is 2 + \|bullets\| paragraphs, none of them a spacer, a heading or a title |
| DocxGenerator.ExperienceBlocks | src/utils/docxGenerator.ts:103-128 | empty iff there are no entries; otherwise it opens with the heading and holds no title |
| DocxGenerator.YearSuffix | src/utils/docxGenerator.ts:135 | empty iff the year is missing or empty; otherwise " (" + the year + ")" |
| DocxGenerator.EducationBlocks | src/utils/docxGenerator.ts:130-146 | nothing without education; otherwise the education heading and one line per entry, in input order |
| DocxGenerator.CertificationBlocks | src/utils/docxGenerator.ts:148-164 | nothing without certifications; otherwise the certification heading and one line per entry, in input order |
| DocxGenerator.SkillBlocks | src/utils/docxGenerator.ts:166-170 | present iff there are skills; then a heading and one paragraph of the skills joined by "  •  " |
| DocxGenerator.DocumentBlocks | src/utils/docxGenerator.ts:53-170 | the document is never empty and opens with the title naming the CV's owner |
| DocxGenerator.GenerateDocx | src/utils/docxGenerator.ts:53-170 | the paragraphs pushed by the assembly loops are exactly DocumentBlocks of the CV |
| DocxGenerator.PushExperience | src/utils/docxGenerator.ts:103-128 | appends the experience heading and the entries with a spacer between neighbours |
| DocxGenerator.PushEntries | src/utils/docxGenerator.ts:106-127 | the `forEach` over the entries appends each entry's paragraphs, with one spacer before every entry but the first |
| DocxGenerator.PushEntry | src/utils/docxGenerator.ts:112-126 | appends one entry's role line, period and bullets |
| DocxGenerator.PushLines | src/utils/docxGenerator.ts:136-163 | the `forEach` over education or certification lines appends them all, in order |
| DocxGenerator.PushEducation | src/utils/docxGenerator.ts:130-146 | appends the education section when there is education, otherwise nothing |
| DocxGenerator.PushCertifications | src/utils/docxGenerator.ts:148-164 | appends the certification section when there are certifications, otherwise nothing |
| DocxGenerator.PushSkills | src/utils/docxGenerator.ts:166-170 | appends the skills section when there are skills, otherwise nothing |
| DocxProperties.FirstBlockIsName | src/utils/docxGenerator.ts:57-72 | the first paragraph is the title with the contact name, or "Seu Nome" |
| DocxProperties.OnlyFirstIsTitle | src/utils/docxGenerator.ts:53-170 | the name is the only title: no paragraph after the first is one |
| DocxProperties.ContactLinePresence | src/utils/docxGenerator.ts:74-95 | a contact line is second iff email, phone or city is non-empty; it joins the present parts in that order with "  \|  " |
| DocxProperties.SectionOrder | src/utils/docxGenerator.ts:97-170 | the headings are summary, experience, education, certifications, skills, in that order, each only when its data is non-empty |
| DocxProperties.HeadingsAreUpperCase | src/utils/docxGenerator.ts:10-26 | every heading of the document is already upper case |
| DocxProperties.BlockCount | src/utils/docxGenerator.ts:53-170 | the paragraph count is 1 or 2 for the header plus the size of each present section |
| DocxProperties.SpacerCount | src/utils/docxGenerator.ts:107-110 | n experience entries give exactly n − 1 spacers |
| DocxProperties.FirstEntryFollowsHeading | src/utils/docxGenerator.ts:104-111 | the first entry comes right after the experience heading, with no spacer before it |
| DocxProperties.EntryShape | src/utils/docxGenerator.ts:112-126 | an entry is 2 + \|bullets\| paragraphs: role and company, italic period, then one bullet per item, empty ones included |
| DocxProperties.EducationLineText | src/utils/docxGenerator.ts:135-144 | an education line is institution + " — " + degree, followed by " (year)" only when the year is non-empty |
| DocxProperties.EducationLinesInOrder | src/utils/docxGenerator.ts:130-146 | in the whole document, the education heading comes right after the header, summary and experience paragraphs, followed by one line per entry, in input order |
| DocxProperties.CertificationLineText | src/utils/docxGenerator.ts:153-162 | a certification line is name + " — " + institution, followed by " (year)" only when the year is non-empty |
| DocxProperties.CertificationLinesInOrder | src/utils/docxGenerator.ts:148-164 | in the whole document, the certification heading comes right after the education section, followed by one line per entry, in input order |
| DocxProperties.SkillLineShape | src/utils/docxGenerator.ts:166-170 | the skills form one plain paragraph, opened by the first skill, with one "  •  " between neighbours |
| DocxProperties.ThreeEntryFixture | src/utils/docxGenerator.ts:53-170 | a full CV with three entries gives 16 + bullets paragraphs and exactly two spacers |
| FreemiumPatterns.ScoreAtSound | cv-sincero-main/src/components/FreemiumResult.tsx:15 | the score scanner only reports an actual match of "Nota:", spaces, a decimal, spaces, "/", spaces and "10", in any case |
| FreemiumPatterns.ScoreAtComplete | cv-sincero-main/src/components/FreemiumResult.tsx:15 | every match of the score pattern at a position is found by the scanner, with the decimal of that match |
| FreemiumPatterns.ImpressionLineSound | cv-sincero-main/src/components/FreemiumResult.tsx:19 | the impression scanner only reports a line right after a "📢 A PRIMEIRA IMPRESSÃO" header, stopping at a newline, ✅ or a surrogate half of 😬/📊 |
| FreemiumPatterns.ImpressionLineComplete | cv-sincero-main/src/components/FreemiumResult.tsx:19 | every match of the impression pattern at a position is the one the scanner finds |
| FreemiumPatterns.RealityLineSound | cv-sincero-main/src/components/FreemiumResult.tsx:25 | the section scanner only reports text after a "😬 O CHOQUE DE REALIDADE" header and a newline, up to the first 📊 or the end |
| FreemiumPatterns.RealityLineComplete | cv-sincero-main/src/components/FreemiumResult.tsx:25 | every match of the section pattern at a position is the one the scanner finds |
| FreemiumPatterns.BulletAtSound | cv-sincero-main/src/components/FreemiumResult.tsx:29 | the bullet scanner only reports a "•", spaces, and a non-empty run free of newlines and bullets |
| FreemiumPatterns.BulletAtComplete | cv-sincero-main/src/components/FreemiumResult.tsx:29 | every match of the bullet pattern at a position is the one the scanner finds |
| FreemiumResult.ParseScore | cv-sincero-main/src/components/FreemiumResult.tsx:15-16 | the score is 5 or the value of some match of the score pattern |
| FreemiumResult.ParseImpression | cv-sincero-main/src/components/FreemiumResult.tsx:19-22 | the first impression is the fallback sentence or the trimmed line of some match of the impression pattern |
| FreemiumResult.SectionText | cv-sincero-main/src/components/FreemiumResult.tsx:25 | a section found is the text of some match of the section pattern |
| FreemiumResult.CriticalErrorIn | cv-sincero-main/src/components/FreemiumResult.tsx:29-32 | the critical error of a section is the fallback or the first bullet item of some bullet match, bullet and whitespace removed |
| FreemiumResult.ParseCriticalError | cv-sincero-main/src/components/FreemiumResult.tsx:24-33 | the fallback without a section; otherwise the fallback or a bullet item of the section |
| FreemiumResult.ColorOf | cv-sincero-main/src/components/FreemiumResult.tsx:67-71 | green iff the score is at least 7, amber iff at least 5 and below 7, destructive iff below 5 |
| FreemiumResult.ScoreIsFirstMatch | cv-sincero-main/src/components/FreemiumResult.tsx:15-16 | the score is the value of the leftmost match of the score pattern |
| FreemiumResult.ScoreDefault | cv-sincero-main/src/components/FreemiumResult.tsx:16 | without a match the score is 5 |
| FreemiumResult.ScoreNotClamped | cv-sincero-main/src/components/FreemiumResult.tsx:15-16 | "Nota: 12/10" gives 12: the score is not limited to 10 |
| FreemiumResult.ImpressionIsFirstMatch | cv-sincero-main/src/components/FreemiumResult.tsx:19-22 | the first impression is the trimmed line of the leftmost match |
| FreemiumResult.ImpressionDefault | cv-sincero-main/src/components/FreemiumResult.tsx:20-22 | without a match the first impression is the fixed fallback sentence |
| FreemiumResult.ImpressionIsOneLine | cv-sincero-main/src/components/FreemiumResult.tsx:19-21 | an extracted first impression holds no newline, ✅ or 😬/📊 half |
| FreemiumResult.SectionIsFirstMatch | cv-sincero-main/src/components/FreemiumResult.tsx:25-33 | the critical error is taken from the section of the leftmost header match, and that section contains no 📊 |
| FreemiumResult.CriticalErrorNoSection | cv-sincero-main/src/components/FreemiumResult.tsx:25-28 | without a section the critical error is the fixed fallback |
| FreemiumResult.CriticalErrorIsFirstBullet | cv-sincero-main/src/components/FreemiumResult.tsx:29-31 | the critical error is the first bullet item of the section, bullet and surrounding whitespace removed |
| FreemiumResult.CriticalErrorNoBullet | cv-sincero-main/src/components/FreemiumResult.tsx:29-32 | a section without bullet items leaves the fixed fallback |
| FreemiumResult.CriticalErrorIsOneItem | cv-sincero-main/src/components/FreemiumResult.tsx:29-31 | an extracted critical error holds no newline and no bullet |
| FreemiumResult.ParseVerdict | cv-sincero-main/src/components/FreemiumResult.tsx:13-36 | the parser is total and returns the three fields as extracted above |
| FreemiumResult.DefaultScoreIsAmber | cv-sincero-main/src/components/FreemiumResult.tsx:67-71 | the default score 5 is coloured amber |
| FreemiumResult.ColorMonotone | cv-sincero-main/src/components/FreemiumResult.tsx:67-71 | a higher score never gets a worse colour (destructive, amber, green) |
| FreemiumSearch.FirstScoreFound | cv-sincero-main/src/components/FreemiumResult.tsx:15 | the search stops at a position where the score pattern matches, with no match before it |
| FreemiumSearch.FirstImpressionFound | cv-sincero-main/src/components/FreemiumResult.tsx:19 | the search stops at a position where the impression pattern matches, with no match before it |
| FreemiumSearch.FirstRealityFound | cv-sincero-main/src/components/FreemiumResult.tsx:25 | the search stops at a position where the section pattern matches, with no match before it |
| FreemiumSearch.FirstBulletFound | cv-sincero-main/src/components/FreemiumResult.tsx:29 | the search stops at a position where the bullet pattern matches, with no match before it |
| BlindedCv.EntryText | src/components/BlindedCV.tsx:71 | an entry's copy text is role and company, period and its bullet lines joined by line breaks, with one more break when there are no bullets |
| BlindedCv.CopyText | src/components/BlindedCV.tsx:70-74 | the copy text is the summary banner, the summary, the experience banner and the entries' texts joined by blank lines, with one more blank line when there are no entries |
| BlindedCv.WordEntry | src/components/BlindedCV.tsx:93-139 | an entry is 2 + \|bullets\| paragraphs, none of them a spacer |
| BlindedCv.Opening | src/components/BlindedCV.tsx:143-181 | four fixed opening paragraphs, none a spacer, the third being the summary |
| BlindedCv.WordDocument | src/components/BlindedCV.tsx:91-181 | the document opens with the four fixed paragraphs and has nothing more iff there are no entries |
| BlindedCv.ExperienceParagraphs | src/components/BlindedCV.tsx:91-141 | the nested `forEach` loops produce the entries' paragraphs joined by one spacer |
| BlindedCv.WordDocumentLength | src/components/BlindedCV.tsx:91-181 | the document has the 4 fixed paragraphs, 2 per entry, 1 per bullet and n − 1 spacers for n ≥ 1 entries |
| BlindedCv.WordSpacerCount | src/components/BlindedCV.tsx:107-110 | n entries give exactly n − 1 spacers |
| BlindedCv.WordDocumentOpening | src/components/BlindedCV.tsx:143-181 | the document opens with the title, the summary heading, the summary (even empty) and the experience heading, then the first entry |
| BlindedCv.WordHeadings | src/components/BlindedCV.tsx:143-181 | the only headings are the summary and experience headings |
| BlindedCv.CopyMatchesWord | src/components/BlindedCV.tsx:70-74 | an entry's copied text is the texts of its Word paragraphs joined by line breaks, with one more break when it has no bullets |
| BlindedCv.BlindedCvView.View | src/components/BlindedCV.tsx:202-241 | loading shows a spinner; an error or missing data shows the error card, with the fallback text when there is no error; otherwise the CV |
| BlindedCv.BlindedCvView.FetchRewrite | src/components/BlindedCV.tsx:25-65 | empty text is an error with no call; a transport or payload error sets the error; a rewrite is stored; loading ends in every case |
| BlindedCv.BlindedCvView.CopyAll | src/components/BlindedCV.tsx:67-82 | without data nothing is copied; with data the clipboard gets the copy text and `copied` is set |
| BlindedCv.BlindedCvView.DownloadWord | src/components/BlindedCV.tsx:84-200 | without data nothing happens; with data the document is WordDocument and `isDownloading` ends false |
| DossieView.Noun | cv-sincero-main/src/components/DossieView.tsx:140 | the noun is "Erro" iff the count is exactly 1 |
| DossieView.Title | cv-sincero-main/src/components/DossieView.tsx:140 | the title is exactly "Dossiê Completo: ", the decimal digits of the count, a space, the count's noun and the closing text: it starts and ends so and has room for nothing but the digits between |
| DossieView.TitleCount | cv-sincero-main/src/components/DossieView.tsx:140 | the digits right after "Dossiê Completo: " in the title read back to the number of errors |
| DossieView.Numbered | cv-sincero-main/src/components/DossieView.tsx:147-161 | the items keep payload order and are numbered 1..n |
| DossieView.DossieViewState.Errors | cv-sincero-main/src/components/DossieView.tsx:30 | the payload's error list when there is one, otherwise empty |
| DossieView.DossieViewState.View | cv-sincero-main/src/components/DossieView.tsx:83-192 | loading first, then a non-empty error, then the report; the report says nothing was found iff the list is empty |
| DossieView.DossieViewState.FetchDossie | cv-sincero-main/src/components/DossieView.tsx:33-70 | blank text is an error with no call; transport error, payload error, error list, invalid response are told apart in that order; loading ends in every case |
| DossieView.SettledView | cv-sincero-main/src/components/DossieView.tsx:83-120 | after a fetch the view is never the spinner, and without an error it is the report, even for an empty list |
| DossieView.HandleUpgrade | cv-sincero-main/src/components/DossieView.tsx:75-81 | calls the upgrade callback iff there is one, otherwise goes to the premium payment URL |
| PdfUploader.ExtractText | cv-sincero-main/src/components/PDFUploader.tsx:46-63 | the page loop builds the pages' items joined by spaces, one newline after each page, then trims |
| PdfUploader.PagesText | cv-sincero-main/src/components/PDFUploader.tsx:51-60 | empty iff there are no pages; otherwise it ends with a newline and has at least one unit per page |
| PdfUploader.PagesTextAppend | cv-sincero-main/src/components/PDFUploader.tsx:51-60 | the text of two runs of pages is the concatenation of their texts |
| PdfUploader.PageInOrder | cv-sincero-main/src/components/PDFUploader.tsx:51-60 | each page's line appears in page order, between the earlier and the later pages |
| PdfUploader.PagesTextNewlines | cv-sincero-main/src/components/PDFUploader.tsx:51-60 | when no item holds a newline the text has exactly one newline per page |
| PdfUploader.Uploader.IsProcessing | cv-sincero-main/src/components/PDFUploader.tsx:147 | interactions are disabled exactly while extracting or analysing |
| PdfUploader.Uploader.HandleFile | cv-sincero-main/src/components/PDFUploader.tsx:65-82 | accepted iff the type is PDF and the size is at most 10 MiB; a non-PDF gives the error state with the type message, an oversized PDF the error state with the size message, both keeping the file name; acceptance sets extracting, the name, and clears the error |
| PdfUploader.Uploader.CompleteExtraction | cv-sincero-main/src/components/PDFUploader.tsx:84-105 | a read failure or text shorter than 50 units is an error; otherwise success and the text is delivered unchanged |
| PdfUploader.Uploader.HandleDrag | cv-sincero-main/src/components/PDFUploader.tsx:107-125 | nothing changes while processing; dragover gives dragging, dragleave idle, a drop of no file idle; a drop hands on the first file only and leaves the state `handleFile` gives it: the type error, the size error (name kept) or extracting with its name |
| PdfUploader.Uploader.HandleFileInput | cv-sincero-main/src/components/PDFUploader.tsx:131-136 | no file changes nothing; otherwise the first chosen file is handed on and the state is what `handleFile` gives it: the type error, the size error (name kept) or extracting with its name |
| PdfUploader.Uploader.Reset | cv-sincero-main/src/components/PDFUploader.tsx:138-145 | back to idle with no file name and no error |
| PricingCards.TiersShape | cv-sincero-main/src/components/PricingCards.tsx:28-62 | exactly three tiers; only the first is disabled and only the last highlighted |
| PricingCards.PaymentUrl | cv-sincero-main/src/components/PricingCards.tsx:80-90 | tier 1 pays at the dossier URL, tier 2 at the premium URL, no other index pays |
| PricingCards.PendingJson | cv-sincero-main/src/components/PricingCards.tsx:71-76 | the saved record is one JSON object text, from its opening to its closing brace |
| PricingCards.PendingReadsBack | cv-sincero-main/src/components/PricingCards.tsx:71-76 | reading the saved record's text back gives exactly the text, verdict and time that were saved |
| PricingCards.SavePendingRoast | cv-sincero-main/src/components/PricingCards.tsx:70-77 | the single pending slot is overwritten with the record's JSON text; every other key is unchanged |
| PricingCards.HandlePurchase | cv-sincero-main/src/components/PricingCards.tsx:80-90 | tiers 1 and 2 save the slot and then redirect to their URL; any other index changes nothing |
| PricingCards.ClickTier | cv-sincero-main/src/components/PricingCards.tsx:184-188 | the disabled free tier never reaches the purchase; the others do |
| LocalStorage.Storage.GetItem | src/pages/Index.tsx:42 | a stored value is returned iff the key is present |
| LocalStorage.Storage.SetItem | cv-sincero-main/src/components/PricingCards.tsx:76 | the key now holds the value and nothing else changes |
| LocalStorage.Storage.RemoveItem | src/pages/Index.tsx:252 | the key is gone and nothing else changes |
| JsonText.UnicodeEscape | cv-sincero-main/src/components/PricingCards.tsx:76 | a `\u` escape is six units whose four digits read back as the unit |
| JsonText.Quote | cv-sincero-main/src/components/PricingCards.tsx:76 | `JSON.stringify` of a string is the escaped text between two quotes |
| JsonText.ReadString | src/pages/Index.tsx:46 | a string literal read yields the string and a strictly shorter rest |
| JsonText.EscapeAtReadsBack | cv-sincero-main/src/components/PricingCards.tsx:76 | each unit's escape reads back as that unit, whatever follows |
| JsonText.EscapeFromReadsBack | cv-sincero-main/src/components/PricingCards.tsx:76 | the escaped units, the closing quote and any text read back as the units and that text |
| JsonText.QuoteReadsBack | cv-sincero-main/src/components/PricingCards.tsx:76 | what `JSON.stringify` writes for a string reads back as that string, whatever follows it |
| IndexPage.RequestedView | src/pages/Index.tsx:37-40 | premium iff the parameter lower-cases to "premium", dossier iff it lower-cases to "dossie", otherwise nothing |
| IndexPage.RequestedViewIgnoresCase | src/pages/Index.tsx:38-40 | every value asks for the same view as its lower-cased spelling; so "PREMIUM" and "Dossie" are recognised, and "none" is not |
| IndexPage.Coalesce | src/pages/Index.tsx:37 | `plan ?? PLAN`: the first parameter when present, otherwise the second |
| IndexPage.PendingFields | src/pages/Index.tsx:42-52 | nothing when the slot is missing or empty; otherwise the slot's parsed fields |
| IndexPage.RestoresSaved | src/pages/Index.tsx:42-48 | the record the pricing cards save gives back the same CV text and verdict, for a `JSON.parse` that reads such records as PricingCards.ReadPending does |
| IndexPage.Restore | src/pages/Index.tsx:47-48 | a field replaces the state only when it is a string |
| IndexPage.Page.ApplyPlan | src/pages/Index.tsx:35-67 | an unrecognised plan changes nothing; a recognised one restores the string fields of the slot and sets the paid view |
| IndexPage.Page.BeginAnalysis | src/pages/Index.tsx:70-79 | the text is stored, analysing starts and the verdict is cleared |
| IndexPage.Succeeded | src/pages/Index.tsx:86-107 | the verdict is taken iff the call returned a payload whose `error` is missing or empty |
| IndexPage.Page.FinishAnalysis | src/pages/Index.tsx:80-124 | on success the verdict is the roast, the count grows by one and a recognised `qa` sets the paid view; on failure verdict, count and view stay; analysing ends in every case |
| IndexPage.Page.HandleTextExtracted | src/pages/Index.tsx:70-125 | the two halves together: the text is kept, analysing ends, and the verdict and count follow the outcome |
| IndexPage.Page.Reset | src/pages/Index.tsx:248-253 | verdict cleared, text emptied, no paid view, and the pending slot removed from storage |
| IndexPage.Page.View | src/pages/Index.tsx:201-237 | the uploader shows iff there is no verdict; the result iff there is one and no analysis runs; the paid panels are mutually exclusive |
| IndexPage.PurchaseRoundTrip | cv-sincero-main/src/components/PricingCards.tsx:70-90 | buying a paid tier and returning with its plan restores the same CV text and verdict and opens the paid view, for a `JSON.parse` that reads saved records as PricingCards.ReadPending does |
| SocialShare.ShortImpression | src/components/SocialShare.tsx:18-20 | unchanged up to 80 units; otherwise its first 80 units and "...", so never longer than 83 |
| SocialShare.ShortImpressionIdempotent | src/components/SocialShare.tsx:18-20 | shortening twice is shortening once |
| SocialShare.RemoveQuotes | src/components/SocialShare.tsx:25 | no double quote is left and the text never grows |
| SocialShare.RemoveQuotesKeepsOthers | src/components/SocialShare.tsx:25 | every unit other than the double quote keeps its number of occurrences |
| SocialShare.RemoveQuotesPlain | src/components/SocialShare.tsx:25 | a text without double quotes is left unchanged |
| SocialShare.CleanVerdict | src/components/SocialShare.tsx:24-27 | no double quote, at most 100 units, no surrounding whitespace |
| SocialShare.CleanVerdictIsPiece | src/components/SocialShare.tsx:24-27 | the cleaned verdict is a contiguous piece of the quote-free impression's first 100 units |
| SocialShare.CleanVerdictKeepsClean | src/components/SocialShare.tsx:24-27 | a short, quote-free, trimmed impression is kept as it is |
| SocialShare.NumberTextReadsBack | src/components/SocialShare.tsx:73 | the score as text is a decimal that reads back to the same value, with no trailing fraction zeros |
| SocialShare.FileName | src/components/SocialShare.tsx:73 | "cv-sincero-nota-" + the score + ".png" |
| SocialShare.FileNameReadsBack | src/components/SocialShare.tsx:73 | the score can be read back from the file name |
| SocialShare.DownloadImage | src/components/SocialShare.tsx:49-89 | a file exists iff the card is present and renders; a missing card shows only the error toast; otherwise the rendering toast, then saved or failed |

## Left out

- RoastCv.UpstreamBody: the gateway's `content` is taken to be a string,
  as its chat-completion format documents. A truthy non-string would pass
  the emptiness check; in roast mode it would be answered under `roast`,
  and in the other modes its `trim` call would throw into the parse-error
  500. Neither path is modelled.
- Network and hosting: `serve`, the CORS headers, the `OPTIONS` answer, the
  outbound `fetch` and `supabase.functions.invoke`. Their results are
  inputs (`RoastCv.UpstreamReply`, `FunctionClient.InvokeOutcome`).
- The prompts' text and the language model's behaviour: prompts are opaque
  constants. The rules they ask the model to follow are not checked by any
  code.
- RoastCv.StructuredReply: the parsed value is abstract, so which values
  make the log line after the parse throw is the parameter `countThrows`.
  It is not derived from a JSON value here.
- The JSON grammar: `JSON.parse` is an abstract oracle. Only string
  literals and the pending record's own shape are read. The text of the
  handler's catch-all error (the thrown exception's message) is not modelled
  beyond its being an error.
- Document and file libraries: `docx` styles, sizes and spacing, `Packer`,
  `file-saver`, the clipboard, `html2canvas` and pdf.js. Paragraphs are
  abstract blocks, and PDF pages are sequences of text items.
- Timers and effects: the 500 ms delay before the uploader hands over its
  text, the 3-second reset of `copied`, React effect scheduling, toasts
  other than those of the score-card download, confetti and animations.
- Browser navigation: `window.location` and `history.replaceState` are
  represented only as the navigation chosen (`PricingCards.Navigation`,
  `DossieView.UpgradeAction`).
- The share handlers: the page's clipboard share, the WhatsApp text with its
  `Math.round` and the LinkedIn text. Only their string helpers are
  modelled.
- Presentation-only components: the counter's formatting, the loading,
  locked-analysis, upsell, hall-of-fame, FAQ and redemption sections, and
  the verdict card.
- JsText.ToUpper: upper-cases Basic Latin and Latin-1 unit by unit only.
  It leaves ß (U+00DF) unchanged, where `toUpperCase` gives "SS" and so a
  longer string. The application upper-cases only its fixed Portuguese
  section titles, which hold no ß.
- JsText.ToLower: lower-cases Basic Latin and Latin-1 only, enough to
  compare with "premium" and "dossie".
- FreemiumResult.ParseScore: the score is the exact decimal written in the
  text. `parseFloat`'s rounding to a double is not modelled.
- SocialShare.NumberText: renders the exact decimal. It does not model
  JavaScript's rounding to a double or its exponent notation for very
  large or very small numbers.
- IndexPage.PurchaseRoundTrip: assumes the payment page sends the user back
  with the tier's plan parameter, which is configured outside the code. Like
  IndexPage.RestoresSaved, it also takes as a premise
  (`IndexPage.ParsesPendingRecords`) that `JSON.parse` reads a text of the
  saved record's shape as `PricingCards.ReadPending` does. That reader is
  proved to read back what `PricingCards.PendingJson` writes, but it is not
  the whole JSON grammar.
- IndexPage.RestoresSaved: holds for a `JSON.parse` satisfying the premise
  above; the parser itself is not part of this model.
- PricingCards.PendingJson: `Date.now()` is the parameter `now`, a
  whole number of milliseconds; members are written in the object
  literal's order, as `JSON.stringify` does.
- IndexPage.Page.FinishAnalysis: takes `data.roast` to be a string. A roast
  of another JSON type is not modelled.
- PdfUploader.Uploader.HandleFile: the asynchronous extraction that follows
  is the separate step `PdfUploader.Uploader.CompleteExtraction`, and the
  thrown exception of pdf.js is its `ReadFailed` input.
