/** Paragraphs of a Word document, abstracted from the `docx` library:
    a block is the kind of paragraph and its text runs. Sizes, colours and
    spacing are not represented. */
module Paragraphs {
  import opened JsText

  datatype Block =
    | Title(text: JsString)                       // the document's first line
    | ContactLine(text: JsString)                 // the centred contact line
    | Heading(text: JsString)                     // a section heading
    | Body(text: JsString)                        // one plain run
    | Italic(text: JsString)                      // one italic run
    | Strong(text: JsString)                      // one bold run
    | Bullet(text: JsString)                      // a bullet line, bullet character included
    | Lead(first: JsString, rest: JsString, restBold: bool)  // a bold run, then a second run
    | Spacer                                      // an empty paragraph between entries

  /** The texts of the headings of a document, in order. */
  function Headings(bs: seq<Block>): (hs: seq<JsString>)
    ensures |hs| <= |bs|
  {
    if bs == [] then []
    else Headings(bs[..|bs| - 1]) + (if bs[|bs| - 1].Heading? then [bs[|bs| - 1].text] else [])
  }

  lemma {:induction false} HeadingsAppend(a: seq<Block>, b: seq<Block>)
    ensures Headings(a + b) == Headings(a) + Headings(b)
  {
    if b != [] {
      HeadingsAppend(a, b[..|b| - 1]);
      assert (a + b)[..|a + b| - 1] == a + b[..|b| - 1];
    } else {
      assert a + b == a;
    }
  }

  lemma HeadingsAppend5(a: seq<Block>, b: seq<Block>, c: seq<Block>, d: seq<Block>, e: seq<Block>)
    ensures Headings(a + b + c + d + e) == Headings(a) + Headings(b) + Headings(c) + Headings(d) + Headings(e)
  {
    HeadingsAppend(a, b);
    HeadingsAppend(a + b, c);
    HeadingsAppend(a + b + c, d);
    HeadingsAppend(a + b + c + d, e);
  }

  lemma OpensAppend5(a: seq<Block>, b: seq<Block>, c: seq<Block>, d: seq<Block>, e: seq<Block>)
    requires OpensWithHeading(a) && OpensWithHeading(b) && OpensWithHeading(c)
    requires OpensWithHeading(d) && OpensWithHeading(e)
    ensures OpensWithHeading(a + b + c + d + e)
  {
    OpensAppend(a, b);
    OpensAppend(a + b, c);
    OpensAppend(a + b + c, d);
    OpensAppend(a + b + c + d, e);
  }

  /** A document without heading blocks has no headings. */
  lemma {:induction false} NoHeadings(bs: seq<Block>)
    requires forall b :: b in bs ==> !b.Heading?
    ensures Headings(bs) == []
  {
    if bs != [] {
      assert bs[|bs| - 1] in bs;
      NoHeadings(bs[..|bs| - 1]);
    }
  }

  /** A list of blocks that is empty or opens with a heading. */
  predicate OpensWithHeading(bs: seq<Block>) {
    bs == [] || bs[0].Heading?
  }

  lemma OpensAppend(a: seq<Block>, b: seq<Block>)
    requires OpensWithHeading(a) && OpensWithHeading(b)
    ensures OpensWithHeading(a + b)
  {
    if a == [] {
      assert a + b == b;
    }
  }

  /** The text a paragraph shows, runs concatenated. */
  function ParagraphText(b: Block): JsString {
    match b
    case Lead(first, rest, _) => first + rest
    case Spacer => []
    case _ => b.text
  }
}
