/** The Word export of the rewritten résumé: `generateDocx` turns a
    `RewrittenCv` into the ordered list of paragraphs of the document.
    Building the file and saving it are not modelled; the list of
    paragraphs is the result. */
module DocxGenerator {
  import opened Wrappers
  import opened JsText
  import opened Seqs
  import opened CvTypes
  import opened Paragraphs

  const FIELD_SEPARATOR := Lit("  |  ")
  const DASH := Lit(" — ")
  const SKILL_SEPARATOR := Lit("  •  ")
  const BULLET_PREFIX := Lit("•  ")
  const DEFAULT_NAME := Lit("Seu Nome")

  const SUMMARY_TITLE := Lit("Resumo Profissional")
  const EXPERIENCE_TITLE := Lit("Experiência Profissional")
  const EDUCATION_TITLE := Lit("Formação Acadêmica")
  const CERTIFICATIONS_TITLE := Lit("Certificações")
  const SKILLS_TITLE := Lit("Habilidades e Competências")

  // ---------------------------------------------------------------------
  // The three paragraph constructors
  // ---------------------------------------------------------------------

  /** A section heading shows its title upper-cased. */
  function SectionHeading(title: JsString): (b: Block)
    ensures b.Heading? && |b.text| == |title|
    ensures forall k :: 0 <= k < |title| ==> b.text[k] == UpperUnit(title[k])
  {
    Heading(ToUpper(title))
  }

  /** A body paragraph holds its text unchanged, italic or not. */
  function BodyText(text: JsString, italic: bool): (b: Block)
    ensures b.Italic? <==> italic
    ensures b.Body? <==> !italic
    ensures b.text == text
  {
    if italic then Italic(text) else Body(text)
  }

  /** A bullet line is the bullet prefix followed by the text unchanged,
      whatever the text is, the empty string included. */
  function BulletPoint(text: JsString): (b: Block)
    ensures b.Bullet? && StartsWith(b.text, BULLET_PREFIX)
    ensures b.text[|BULLET_PREFIX|..] == text
  {
    var t := BULLET_PREFIX + text;
    assert t[..|BULLET_PREFIX|] == BULLET_PREFIX;
    Bullet(t)
  }

  // ---------------------------------------------------------------------
  // The document, section by section
  // ---------------------------------------------------------------------

  /** `filter(Boolean)` over optional strings: the present, non-empty
      values in their order. */
  function Present(xs: seq<Option<JsString>>): (r: seq<JsString>)
    ensures |r| <= |xs|
    ensures forall i :: 0 <= i < |r| ==> r[i] != []
    ensures r == [] <==> forall i :: 0 <= i < |xs| ==> !Truthy(xs[i])
  {
    if xs == [] then []
    else Present(xs[..|xs| - 1]) + (if Truthy(xs[|xs| - 1]) then [xs[|xs| - 1].value] else [])
  }

  /** `contactInfo.name`, or "Seu Nome" when it is missing or empty. */
  function NameOf(cv: RewrittenCv): (r: JsString)
    ensures cv.contactInfo.Some? && Truthy(cv.contactInfo.value.name) ==> r == cv.contactInfo.value.name.value
    ensures !(cv.contactInfo.Some? && Truthy(cv.contactInfo.value.name)) ==> r == DEFAULT_NAME
  {
    if cv.contactInfo.Some? then OrElse(cv.contactInfo.value.name, DEFAULT_NAME) else DEFAULT_NAME
  }

  /** The contact parts in the order email, phone, city. */
  function ContactFields(cv: RewrittenCv): seq<Option<JsString>> {
    if cv.contactInfo.Some? then [cv.contactInfo.value.email, cv.contactInfo.value.phone, cv.contactInfo.value.city]
    else [None, None, None]
  }

  /** The name line, then the contact line when a contact part is
      present. */
  function HeaderBlocks(cv: RewrittenCv): (r: seq<Block>)
    ensures 1 <= |r| <= 2 && r[0] == Title(NameOf(cv))
    ensures |r| == 2 <==> Present(ContactFields(cv)) != []
    ensures forall i :: 1 <= i < |r| ==> r[i].ContactLine?
  {
    var parts := Present(ContactFields(cv));
    [Title(NameOf(cv))] + (if parts != [] then [ContactLine(Join(parts, FIELD_SEPARATOR))] else [])
  }

  /** The summary heading and the summary, or nothing for an empty
      summary. */
  function SummaryBlocks(cv: RewrittenCv): (r: seq<Block>)
    ensures |r| == if cv.summary == [] then 0 else 2
    ensures r != [] ==> r[0].Heading? && r[1] == Body(cv.summary)
    ensures forall b :: b in r ==> !b.Title?
  {
    if cv.summary != [] then [SectionHeading(SUMMARY_TITLE), BodyText(cv.summary, false)] else []
  }

  function BulletBlocks(bullets: seq<JsString>): seq<Block> {
    seq(|bullets|, i requires 0 <= i < |bullets| => BulletPoint(bullets[i]))
  }

  /** One experience: role and company, the period in italics, then one
      line per bullet. */
  function EntryBlocks(exp: WorkExperience): (r: seq<Block>)
    ensures |r| == 2 + |exp.bullets|
    ensures forall b :: b in r ==> b != Spacer && !b.Heading? && !b.Title?
  {
    [Lead(exp.role, FIELD_SEPARATOR + exp.company, true), BodyText(exp.period, true)] + BulletBlocks(exp.bullets)
  }

  function EntryGroups(ws: seq<WorkExperience>): seq<seq<Block>> {
    seq(|ws|, i requires 0 <= i < |ws| => EntryBlocks(ws[i]))
  }

  /** The heading, then the entries with an empty paragraph between each
      two of them. */
  function ExperienceBlocks(ws: seq<WorkExperience>): (r: seq<Block>)
    ensures r == [] <==> ws == []
    ensures r != [] ==> r[0].Heading?
    ensures forall b :: b in r ==> !b.Title?
  {
    if ws == [] then []
    else
      JoinAll(EntryGroups(ws), [Spacer], (b: Block) => !b.Title?);
      [SectionHeading(EXPERIENCE_TITLE)] + Join(EntryGroups(ws), [Spacer])
  }

  /** " (year)" when the year is a non-empty string, otherwise nothing. */
  function YearSuffix(year: Option<JsString>): (r: JsString)
    ensures r == [] <==> !Truthy(year)
    ensures r != [] ==> |r| == |year.value| + 3 && r[2..|r| - 1] == year.value
  {
    if Truthy(year) then Lit(" (") + year.value + Lit(")") else []
  }

  function EducationLine(e: Education): Block {
    Lead(e.institution, DASH + e.degree + YearSuffix(e.year), false)
  }

  function CertificationLine(c: Certification): Block {
    Lead(c.name, DASH + c.institution + YearSuffix(c.year), false)
  }

  function EducationBlocks(cv: RewrittenCv): (r: seq<Block>)
    ensures cv.education.None? || cv.education.value == [] ==> r == []
    ensures cv.education.Some? && cv.education.value != [] ==>
      |r| == 1 + |cv.education.value| && r[0] == SectionHeading(EDUCATION_TITLE)
      && forall i :: 0 <= i < |cv.education.value| ==> r[1 + i] == EducationLine(cv.education.value[i])
    ensures forall b :: b in r ==> !b.Title?
  {
    if cv.education.Some? && |cv.education.value| > 0 then
      var es := cv.education.value;
      [SectionHeading(EDUCATION_TITLE)] + seq(|es|, i requires 0 <= i < |es| => EducationLine(es[i]))
    else []
  }

  function CertificationBlocks(cv: RewrittenCv): (r: seq<Block>)
    ensures cv.certifications.None? || cv.certifications.value == [] ==> r == []
    ensures cv.certifications.Some? && cv.certifications.value != [] ==>
      |r| == 1 + |cv.certifications.value| && r[0] == SectionHeading(CERTIFICATIONS_TITLE)
      && forall i :: 0 <= i < |cv.certifications.value| ==> r[1 + i] == CertificationLine(cv.certifications.value[i])
    ensures forall b :: b in r ==> !b.Title?
  {
    if cv.certifications.Some? && |cv.certifications.value| > 0 then
      var cs := cv.certifications.value;
      [SectionHeading(CERTIFICATIONS_TITLE)] + seq(|cs|, i requires 0 <= i < |cs| => CertificationLine(cs[i]))
    else []
  }

  function SkillBlocks(cv: RewrittenCv): (r: seq<Block>)
    ensures r != [] <==> cv.skills.Some? && cv.skills.value != []
    ensures r != [] ==> |r| == 2 && r[0].Heading? && r[1] == Body(Join(cv.skills.value, SKILL_SEPARATOR))
    ensures forall b :: b in r ==> !b.Title?
  {
    if cv.skills.Some? && |cv.skills.value| > 0 then
      [SectionHeading(SKILLS_TITLE), BodyText(Join(cv.skills.value, SKILL_SEPARATOR), false)]
    else []
  }

  /** The whole document: header, summary, experience, education,
      certifications, skills, each section only when it has data. */
  function DocumentBlocks(cv: RewrittenCv): (r: seq<Block>)
    ensures r != [] && r[0] == Title(NameOf(cv))
  {
    HeaderBlocks(cv) + SummaryBlocks(cv) + ExperienceBlocks(cv.workHistory)
    + EducationBlocks(cv) + CertificationBlocks(cv) + SkillBlocks(cv)
  }

  // ---------------------------------------------------------------------
  // The assembly loop
  // ---------------------------------------------------------------------

  /** `generateDocx` up to the `Document` constructor: paragraphs are
      pushed onto `children` section by section. */
  method GenerateDocx(cv: RewrittenCv) returns (children: seq<Block>)
    ensures children == DocumentBlocks(cv)
  {
    children := [Title(NameOf(cv))];
    var contactParts := Present(ContactFields(cv));
    if |contactParts| > 0 {
      children := children + [ContactLine(Join(contactParts, FIELD_SEPARATOR))];
    }
    if cv.summary != [] {
      children := children + [SectionHeading(SUMMARY_TITLE)];
      children := children + [BodyText(cv.summary, false)];
    }
    assert children == HeaderBlocks(cv) + SummaryBlocks(cv);
    children := PushExperience(children, cv.workHistory);
    children := PushEducation(children, cv);
    children := PushCertifications(children, cv);
    children := PushSkills(children, cv);
  }

  method PushEducation(children: seq<Block>, cv: RewrittenCv) returns (out: seq<Block>)
    ensures out == children + EducationBlocks(cv)
  {
    out := children;
    if cv.education.Some? && |cv.education.value| > 0 {
      var es := cv.education.value;
      out := out + [SectionHeading(EDUCATION_TITLE)];
      out := PushLines(out, seq(|es|, i requires 0 <= i < |es| => EducationLine(es[i])));
    }
  }

  method PushCertifications(children: seq<Block>, cv: RewrittenCv) returns (out: seq<Block>)
    ensures out == children + CertificationBlocks(cv)
  {
    out := children;
    if cv.certifications.Some? && |cv.certifications.value| > 0 {
      var cs := cv.certifications.value;
      out := out + [SectionHeading(CERTIFICATIONS_TITLE)];
      out := PushLines(out, seq(|cs|, i requires 0 <= i < |cs| => CertificationLine(cs[i])));
    }
  }

  method PushSkills(children: seq<Block>, cv: RewrittenCv) returns (out: seq<Block>)
    ensures out == children + SkillBlocks(cv)
  {
    out := children;
    if cv.skills.Some? && |cv.skills.value| > 0 {
      out := out + [SectionHeading(SKILLS_TITLE)];
      out := out + [BodyText(Join(cv.skills.value, SKILL_SEPARATOR), false)];
    }
  }

  /** The `forEach` over education or certification lines. */
  method PushLines(children: seq<Block>, lines: seq<Block>) returns (out: seq<Block>)
    ensures out == children + lines
  {
    out := children;
    var k := 0;
    while k < |lines|
      invariant 0 <= k <= |lines|
      invariant out == children + lines[..k]
    {
      out := out + [lines[k]];
      assert lines[..k + 1] == lines[..k] + [lines[k]];
      k := k + 1;
    }
    assert lines[..k] == lines;
  }

  /** The experience section: heading, then each entry, with a spacer
      before every entry but the first. */
  method PushExperience(children: seq<Block>, ws: seq<WorkExperience>) returns (out: seq<Block>)
    ensures out == children + ExperienceBlocks(ws)
  {
    out := children;
    if |ws| > 0 {
      out := out + [SectionHeading(EXPERIENCE_TITLE)];
      out := PushEntries(out, ws);
    }
  }

  /** The `forEach` over the entries: a spacer before every entry but the
      first, then the entry. */
  method PushEntries(children: seq<Block>, ws: seq<WorkExperience>) returns (out: seq<Block>)
    ensures out == children + Join(EntryGroups(ws), [Spacer])
  {
    out := children;
    var idx := 0;
    while idx < |ws|
      invariant 0 <= idx <= |ws|
      invariant out == children + Join(EntryGroups(ws)[..idx], [Spacer])
    {
      ghost var before := out;
      if idx > 0 {
        out := out + [Spacer];
      }
      out := PushEntry(out, ws[idx]);
      assert EntryGroups(ws)[idx] == EntryBlocks(ws[idx]);
      assert out == before + (if idx > 0 then [Spacer] else []) + EntryGroups(ws)[idx];
      JoinStep(EntryGroups(ws), idx, [Spacer]);
      idx := idx + 1;
    }
    assert EntryGroups(ws)[..idx] == EntryGroups(ws);
  }

  /** One experience entry: role line, period, bullets in order. */
  method PushEntry(children: seq<Block>, exp: WorkExperience) returns (out: seq<Block>)
    ensures out == children + EntryBlocks(exp)
  {
    out := children + [Lead(exp.role, FIELD_SEPARATOR + exp.company, true)];
    out := out + [BodyText(exp.period, true)];
    var j := 0;
    while j < |exp.bullets|
      invariant 0 <= j <= |exp.bullets|
      invariant out == children + [Lead(exp.role, FIELD_SEPARATOR + exp.company, true), BodyText(exp.period, true)]
                       + BulletBlocks(exp.bullets[..j])
    {
      out := out + [BulletPoint(exp.bullets[j])];
      assert BulletBlocks(exp.bullets[..j + 1]) == BulletBlocks(exp.bullets[..j]) + [BulletPoint(exp.bullets[j])];
      j := j + 1;
    }
    assert exp.bullets[..j] == exp.bullets;
  }
}
