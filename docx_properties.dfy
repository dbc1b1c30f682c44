/** What the Word export promises about the paragraphs it assembles:
    the name comes first, the contact line is there exactly when there is
    something to show, the sections appear in a fixed order and only with
    data, and the experience entries keep their order with one spacer
    between neighbours. */
module DocxProperties {
  import opened Wrappers
  import opened JsText
  import opened Seqs
  import opened CvTypes
  import opened Paragraphs
  import opened DocxGenerator

  predicate HasContact(cv: RewrittenCv) {
    cv.contactInfo.Some?
    && (Truthy(cv.contactInfo.value.email) || Truthy(cv.contactInfo.value.phone) || Truthy(cv.contactInfo.value.city))
  }

  predicate HasEducation(cv: RewrittenCv) {
    cv.education.Some? && |cv.education.value| > 0
  }

  predicate HasCertifications(cv: RewrittenCv) {
    cv.certifications.Some? && |cv.certifications.value| > 0
  }

  predicate HasSkills(cv: RewrittenCv) {
    cv.skills.Some? && |cv.skills.value| > 0
  }

  /** Everything after the header. */
  function SectionBlocks(cv: RewrittenCv): seq<Block> {
    SummaryBlocks(cv) + ExperienceBlocks(cv.workHistory)
    + EducationBlocks(cv) + CertificationBlocks(cv) + SkillBlocks(cv)
  }

  // The title of each section, or nothing when the section is left out.
  function SummaryTitles(cv: RewrittenCv): seq<JsString> {
    if cv.summary != [] then [SUMMARY_TITLE] else []
  }

  function ExperienceTitles(cv: RewrittenCv): seq<JsString> {
    if cv.workHistory != [] then [EXPERIENCE_TITLE] else []
  }

  function EducationTitles(cv: RewrittenCv): seq<JsString> {
    if HasEducation(cv) then [EDUCATION_TITLE] else []
  }

  function CertificationTitles(cv: RewrittenCv): seq<JsString> {
    if HasCertifications(cv) then [CERTIFICATIONS_TITLE] else []
  }

  function SkillTitles(cv: RewrittenCv): seq<JsString> {
    if HasSkills(cv) then [SKILLS_TITLE] else []
  }

  /** The titles of the sections that have data, in document order. */
  function PresentTitles(cv: RewrittenCv): seq<JsString> {
    SummaryTitles(cv) + ExperienceTitles(cv) + EducationTitles(cv) + CertificationTitles(cv) + SkillTitles(cv)
  }

  function UpperAll(ts: seq<JsString>): (r: seq<JsString>)
    ensures |r| == |ts|
    ensures forall i :: 0 <= i < |ts| ==> r[i] == ToUpper(ts[i])
  {
    if ts == [] then [] else UpperAll(ts[..|ts| - 1]) + [ToUpper(ts[|ts| - 1])]
  }

  lemma UpperAllAppend(a: seq<JsString>, b: seq<JsString>)
    ensures UpperAll(a + b) == UpperAll(a) + UpperAll(b)
  {
  }

  lemma DocumentSplit(cv: RewrittenCv)
    ensures DocumentBlocks(cv) == HeaderBlocks(cv) + SectionBlocks(cv)
  {
    Regroup(HeaderBlocks(cv), SummaryBlocks(cv), ExperienceBlocks(cv.workHistory),
      EducationBlocks(cv), CertificationBlocks(cv), SkillBlocks(cv));
  }

  // ---------------------------------------------------------------------
  // One section at a time
  // ---------------------------------------------------------------------

  lemma HeaderFacts(cv: RewrittenCv)
    ensures |HeaderBlocks(cv)| == if HasContact(cv) then 2 else 1
    ensures HeaderBlocks(cv)[0] == Title(NameOf(cv))
    ensures HasContact(cv) ==> HeaderBlocks(cv)[1] == ContactLine(Join(Present(ContactFields(cv)), FIELD_SEPARATOR))
    ensures Headings(HeaderBlocks(cv)) == []
    ensures Spacer !in HeaderBlocks(cv)
  {
    var fields := ContactFields(cv);
    if cv.contactInfo.Some? {
      assert fields[0] == cv.contactInfo.value.email;
      assert fields[1] == cv.contactInfo.value.phone;
      assert fields[2] == cv.contactInfo.value.city;
    }
    assert Present(fields) != [] <==> HasContact(cv);
    NoHeadings(HeaderBlocks(cv));
  }

  lemma SummaryFacts(cv: RewrittenCv)
    ensures OpensWithHeading(SummaryBlocks(cv))
    ensures |SummaryBlocks(cv)| == SummaryCount(cv)
    ensures Headings(SummaryBlocks(cv)) == UpperAll(SummaryTitles(cv))
    ensures Spacer !in SummaryBlocks(cv)
  {
    if cv.summary != [] {
      HeadingsAppend([SectionHeading(SUMMARY_TITLE)], [BodyText(cv.summary, false)]);
    }
  }

  lemma EntryGroupsTotal(ws: seq<WorkExperience>)
    ensures TotalLength(EntryGroups(ws)) == 2 * |ws| + BulletCount(ws)
  {
    if ws != [] {
      var init := ws[..|ws| - 1];
      EntryGroupsTotal(init);
      assert EntryGroups(ws)[..|ws| - 1] == EntryGroups(init);
    }
  }

  lemma ExperienceFacts(ws: seq<WorkExperience>)
    ensures OpensWithHeading(ExperienceBlocks(ws))
    ensures |ExperienceBlocks(ws)| == ExperienceCount(ws)
    ensures Headings(ExperienceBlocks(ws)) == UpperAll(if ws != [] then [EXPERIENCE_TITLE] else [])
    ensures multiset(ExperienceBlocks(ws))[Spacer] == if ws == [] then 0 else |ws| - 1
  {
    if ws != [] {
      var groups := EntryGroups(ws);
      var body := Join(groups, [Spacer]);
      JoinLength(groups, [Spacer]);
      assert (|groups| - 1) * |[Spacer]| == |ws| - 1;
      EntryGroupsTotal(ws);
      assert |body| == 2 * |ws| + BulletCount(ws) + |ws| - 1;
      forall i | 0 <= i < |groups| ensures Spacer !in groups[i] && forall x: Block :: x in groups[i] ==> !x.Heading? {
        assert groups[i] == EntryBlocks(ws[i]);
      }
      JoinSeparatorCount(groups, Spacer);
      JoinAll(groups, [Spacer], (b: Block) => !b.Heading?);
      NoHeadings(body);
      HeadingsAppend([SectionHeading(EXPERIENCE_TITLE)], body);
    }
  }

  lemma EducationFacts(cv: RewrittenCv)
    ensures OpensWithHeading(EducationBlocks(cv))
    ensures |EducationBlocks(cv)| == EducationCount(cv)
    ensures Headings(EducationBlocks(cv)) == UpperAll(EducationTitles(cv))
    ensures Spacer !in EducationBlocks(cv)
  {
    EducationHeadings(cv);
    EducationNoSpacer(cv);
  }

  lemma EducationHeadings(cv: RewrittenCv)
    ensures Headings(EducationBlocks(cv)) == UpperAll(EducationTitles(cv))
  {
    if HasEducation(cv) {
      var es := cv.education.value;
      var lines := seq(|es|, i requires 0 <= i < |es| => EducationLine(es[i]));
      assert EducationBlocks(cv) == [SectionHeading(EDUCATION_TITLE)] + lines;
      NoHeadings(lines);
      HeadingsAppend([SectionHeading(EDUCATION_TITLE)], lines);
    }
  }

  lemma EducationNoSpacer(cv: RewrittenCv)
    ensures Spacer !in EducationBlocks(cv)
  {
    if HasEducation(cv) {
      var r := EducationBlocks(cv);
      forall i | 1 <= i < |r| ensures r[i] != Spacer {
        assert r[i] == EducationLine(cv.education.value[i - 1]);
      }
    }
  }


  lemma CertificationFacts(cv: RewrittenCv)
    ensures OpensWithHeading(CertificationBlocks(cv))
    ensures |CertificationBlocks(cv)| == CertificationCount(cv)
    ensures Headings(CertificationBlocks(cv)) == UpperAll(CertificationTitles(cv))
    ensures Spacer !in CertificationBlocks(cv)
  {
    CertificationHeadings(cv);
    CertificationNoSpacer(cv);
  }

  lemma CertificationHeadings(cv: RewrittenCv)
    ensures Headings(CertificationBlocks(cv)) == UpperAll(CertificationTitles(cv))
  {
    if HasCertifications(cv) {
      var cs := cv.certifications.value;
      var lines := seq(|cs|, i requires 0 <= i < |cs| => CertificationLine(cs[i]));
      assert CertificationBlocks(cv) == [SectionHeading(CERTIFICATIONS_TITLE)] + lines;
      NoHeadings(lines);
      HeadingsAppend([SectionHeading(CERTIFICATIONS_TITLE)], lines);
    }
  }

  lemma CertificationNoSpacer(cv: RewrittenCv)
    ensures Spacer !in CertificationBlocks(cv)
  {
    if HasCertifications(cv) {
      var r := CertificationBlocks(cv);
      forall i | 1 <= i < |r| ensures r[i] != Spacer {
        assert r[i] == CertificationLine(cv.certifications.value[i - 1]);
      }
    }
  }


  lemma SkillFacts(cv: RewrittenCv)
    ensures OpensWithHeading(SkillBlocks(cv))
    ensures |SkillBlocks(cv)| == SkillCount(cv)
    ensures Headings(SkillBlocks(cv)) == UpperAll(SkillTitles(cv))
    ensures Spacer !in SkillBlocks(cv)
  {
    if HasSkills(cv) {
      HeadingsAppend([SectionHeading(SKILLS_TITLE)], [BodyText(Join(cv.skills.value, SKILL_SEPARATOR), false)]);
    }
  }

  // ---------------------------------------------------------------------
  // The whole document
  // ---------------------------------------------------------------------

  // The number of paragraphs of each section.
  function SummaryCount(cv: RewrittenCv): nat {
    if cv.summary != [] then 2 else 0
  }

  function ExperienceCount(ws: seq<WorkExperience>): nat {
    if ws == [] then 0 else 3 * |ws| + BulletCount(ws)
  }

  function EducationCount(cv: RewrittenCv): nat {
    if HasEducation(cv) then 1 + |cv.education.value| else 0
  }

  function CertificationCount(cv: RewrittenCv): nat {
    if HasCertifications(cv) then 1 + |cv.certifications.value| else 0
  }

  function SkillCount(cv: RewrittenCv): nat {
    if HasSkills(cv) then 2 else 0
  }

  /** The number of paragraphs of the sections after the header. */
  function SectionCount(cv: RewrittenCv): nat {
    SummaryCount(cv) + ExperienceCount(cv.workHistory) + EducationCount(cv)
    + CertificationCount(cv) + SkillCount(cv)
  }

  lemma SectionFacts(cv: RewrittenCv)
    ensures OpensWithHeading(SectionBlocks(cv))
    ensures |SectionBlocks(cv)| == SectionCount(cv)
    ensures Headings(SectionBlocks(cv)) == UpperAll(PresentTitles(cv))
    ensures multiset(SectionBlocks(cv))[Spacer] == if cv.workHistory == [] then 0 else |cv.workHistory| - 1
  {
    var s, e, ed, c, sk := SummaryBlocks(cv), ExperienceBlocks(cv.workHistory),
      EducationBlocks(cv), CertificationBlocks(cv), SkillBlocks(cv);
    assert SectionBlocks(cv) == s + e + ed + c + sk;
    SectionsOpen(s, e, ed, c, sk, cv);
    SectionsLength(s, e, ed, c, sk, cv);
    SectionsSpacers(s, e, ed, c, sk, cv);
    SectionsHeadings(s, e, ed, c, sk, cv);
  }

  lemma SectionsOpen(s: seq<Block>, e: seq<Block>, ed: seq<Block>, c: seq<Block>, sk: seq<Block>, cv: RewrittenCv)
    requires s == SummaryBlocks(cv) && e == ExperienceBlocks(cv.workHistory) && ed == EducationBlocks(cv)
    requires c == CertificationBlocks(cv) && sk == SkillBlocks(cv)
    ensures OpensWithHeading(s + e + ed + c + sk)
  {
    SummaryFacts(cv);
    ExperienceFacts(cv.workHistory);
    EducationFacts(cv);
    CertificationFacts(cv);
    SkillFacts(cv);
    OpensAppend5(s, e, ed, c, sk);
  }

  lemma SectionsLength(s: seq<Block>, e: seq<Block>, ed: seq<Block>, c: seq<Block>, sk: seq<Block>, cv: RewrittenCv)
    requires s == SummaryBlocks(cv) && e == ExperienceBlocks(cv.workHistory) && ed == EducationBlocks(cv)
    requires c == CertificationBlocks(cv) && sk == SkillBlocks(cv)
    ensures |s + e + ed + c + sk| == SectionCount(cv)
  {
    SummaryFacts(cv);
    ExperienceFacts(cv.workHistory);
    EducationFacts(cv);
    CertificationFacts(cv);
    SkillFacts(cv);
    LengthOf5(s, e, ed, c, sk);
    assert |s + e + ed + c + sk|
        == SummaryCount(cv) + ExperienceCount(cv.workHistory) + EducationCount(cv) + CertificationCount(cv) + SkillCount(cv);
  }

  lemma LengthOf5(s: seq<Block>, e: seq<Block>, ed: seq<Block>, c: seq<Block>, sk: seq<Block>)
    ensures |s + e + ed + c + sk| == |s| + |e| + |ed| + |c| + |sk|
  {
  }

  lemma SectionsSpacers(s: seq<Block>, e: seq<Block>, ed: seq<Block>, c: seq<Block>, sk: seq<Block>, cv: RewrittenCv)
    requires s == SummaryBlocks(cv) && e == ExperienceBlocks(cv.workHistory) && ed == EducationBlocks(cv)
    requires c == CertificationBlocks(cv) && sk == SkillBlocks(cv)
    ensures multiset(s + e + ed + c + sk)[Spacer] == if cv.workHistory == [] then 0 else |cv.workHistory| - 1
  {
    SummaryFacts(cv);
    ExperienceFacts(cv.workHistory);
    EducationFacts(cv);
    CertificationFacts(cv);
    SkillFacts(cv);
    OnlyMiddleSpacers(s, e, ed, c, sk);
  }

  lemma OnlyMiddleSpacers(s: seq<Block>, e: seq<Block>, ed: seq<Block>, c: seq<Block>, sk: seq<Block>)
    requires Spacer !in s && Spacer !in ed && Spacer !in c && Spacer !in sk
    ensures multiset(s + e + ed + c + sk)[Spacer] == multiset(e)[Spacer]
  {
    assert multiset(s + e + ed + c + sk) == multiset(s) + multiset(e) + multiset(ed) + multiset(c) + multiset(sk);
  }

  lemma SectionsHeadings(s: seq<Block>, e: seq<Block>, ed: seq<Block>, c: seq<Block>, sk: seq<Block>, cv: RewrittenCv)
    requires s == SummaryBlocks(cv) && e == ExperienceBlocks(cv.workHistory) && ed == EducationBlocks(cv)
    requires c == CertificationBlocks(cv) && sk == SkillBlocks(cv)
    ensures Headings(s + e + ed + c + sk) == UpperAll(PresentTitles(cv))
  {
    SummaryFacts(cv);
    ExperienceFacts(cv.workHistory);
    EducationFacts(cv);
    CertificationFacts(cv);
    SkillFacts(cv);
    HeadingsOfSections(s, e, ed, c, sk, SummaryTitles(cv), ExperienceTitles(cv), EducationTitles(cv),
      CertificationTitles(cv), SkillTitles(cv));
  }

  lemma HeadingsOfSections(s: seq<Block>, e: seq<Block>, ed: seq<Block>, c: seq<Block>, sk: seq<Block>,
                           t1: seq<JsString>, t2: seq<JsString>, t3: seq<JsString>, t4: seq<JsString>, t5: seq<JsString>)
    requires Headings(s) == UpperAll(t1) && Headings(e) == UpperAll(t2) && Headings(ed) == UpperAll(t3)
    requires Headings(c) == UpperAll(t4) && Headings(sk) == UpperAll(t5)
    ensures Headings(s + e + ed + c + sk) == UpperAll(t1 + t2 + t3 + t4 + t5)
  {
    HeadingsAppend5(s, e, ed, c, sk);
    UpperAllAppend5(t1, t2, t3, t4, t5);
  }

  lemma UpperAllAppend5(a: seq<JsString>, b: seq<JsString>, c: seq<JsString>, d: seq<JsString>, e: seq<JsString>)
    ensures UpperAll(a + b + c + d + e) == UpperAll(a) + UpperAll(b) + UpperAll(c) + UpperAll(d) + UpperAll(e)
  {
    UpperAllAppend(a, b);
    UpperAllAppend(a + b, c);
    UpperAllAppend(a + b + c, d);
    UpperAllAppend(a + b + c + d, e);
  }

  /** The document opens with the name: `contactInfo.name` when it is a
      non-empty string, "Seu Nome" otherwise. */
  lemma FirstBlockIsName(cv: RewrittenCv)
    ensures |DocumentBlocks(cv)| >= 1
    ensures cv.contactInfo.Some? && Truthy(cv.contactInfo.value.name) ==>
      DocumentBlocks(cv)[0] == Title(cv.contactInfo.value.name.value)
    ensures !(cv.contactInfo.Some? && Truthy(cv.contactInfo.value.name)) ==>
      DocumentBlocks(cv)[0] == Title(DEFAULT_NAME)
  {
    DocumentSplit(cv);
    HeaderFacts(cv);
  }

  /** The name is the only title: no paragraph after the first is one. */
  lemma OnlyFirstIsTitle(cv: RewrittenCv)
    ensures forall i :: 1 <= i < |DocumentBlocks(cv)| ==> !DocumentBlocks(cv)[i].Title?
  {
    DocumentSplit(cv);
    NoTitleAfterHeader(HeaderBlocks(cv), SectionBlocks(cv));
  }

  /** A header whose later paragraphs are contact lines, followed by
      paragraphs none of which is a title, has its title first only. */
  lemma NoTitleAfterHeader(h: seq<Block>, r: seq<Block>)
    requires forall i :: 1 <= i < |h| ==> h[i].ContactLine?
    requires forall b :: b in r ==> !b.Title?
    ensures forall i :: 1 <= i < |h + r| ==> !(h + r)[i].Title?
  {
    forall i | 1 <= i < |h + r|
      ensures !(h + r)[i].Title?
    {
      if i >= |h| {
        assert (h + r)[i] == r[i - |h|];
      }
    }
  }

  /** The second paragraph is the contact line exactly when email, phone
      or city is a non-empty string, and it shows the present ones in the
      order email, phone, city. */
  lemma ContactLinePresence(cv: RewrittenCv)
    ensures (|DocumentBlocks(cv)| >= 2 && DocumentBlocks(cv)[1].ContactLine?) <==> HasContact(cv)
    ensures HasContact(cv) ==>
      DocumentBlocks(cv)[1] == ContactLine(Join(Present(ContactFields(cv)), FIELD_SEPARATOR))
  {
    DocumentSplit(cv);
    HeaderFacts(cv);
    SectionFacts(cv);
    SecondBlock(HeaderBlocks(cv), SectionBlocks(cv));
  }

  /** The second paragraph after a one- or two-paragraph header: the
      header's second one, or else the opening heading of what follows. */
  lemma SecondBlock(h: seq<Block>, r: seq<Block>)
    requires 1 <= |h| <= 2 && OpensWithHeading(r)
    ensures |h| == 2 ==> |h + r| >= 2 && (h + r)[1] == h[1]
    ensures |h| == 1 && |h + r| >= 2 ==> (h + r)[1].Heading?
  {
    if |h| == 1 && |h + r| >= 2 {
      assert (h + r)[1] == r[0];
    }
  }

  /** The headings of the document are the upper-cased titles of the
      sections that have data, in the order summary, experience,
      education, certifications, skills. */
  lemma SectionOrder(cv: RewrittenCv)
    ensures Headings(DocumentBlocks(cv)) == UpperAll(PresentTitles(cv))
  {
    DocumentSplit(cv);
    HeaderFacts(cv);
    SectionFacts(cv);
    HeadingsAppend(HeaderBlocks(cv), SectionBlocks(cv));
  }

  /** Every heading of the document is already upper case. */
  lemma HeadingsAreUpperCase(cv: RewrittenCv)
    ensures forall h :: h in Headings(DocumentBlocks(cv)) ==> ToUpper(h) == h
  {
    SectionOrder(cv);
    UpperAllIsUpper(PresentTitles(cv));
  }

  lemma UpperAllIsUpper(ts: seq<JsString>)
    ensures forall h :: h in UpperAll(ts) ==> ToUpper(h) == h
  {
    forall h | h in UpperAll(ts) ensures ToUpper(h) == h {
      var i :| 0 <= i < |ts| && UpperAll(ts)[i] == h;
      UpperIdempotent(ts[i]);
    }
  }

  /** The paragraph count: the name, the contact line when present, two
      for the summary, per experience entry its two lines and its bullets
      plus one spacer between entries and the heading, one heading plus one
      line per education or certification entry, two for the skills. */
  lemma BlockCount(cv: RewrittenCv)
    ensures |DocumentBlocks(cv)| == (if HasContact(cv) then 2 else 1) + SectionCount(cv)
  {
    DocumentSplit(cv);
    HeaderFacts(cv);
    SectionFacts(cv);
  }

  /** n experience entries are separated by exactly n - 1 spacers, and no
      other paragraph is a spacer. */
  lemma SpacerCount(cv: RewrittenCv)
    ensures multiset(DocumentBlocks(cv))[Spacer] == if cv.workHistory == [] then 0 else |cv.workHistory| - 1
  {
    DocumentSplit(cv);
    HeaderFacts(cv);
    SectionFacts(cv);
  }

  /** The experience section opens with its heading and then the first
      entry: no spacer comes before it. */
  lemma FirstEntryFollowsHeading(ws: seq<WorkExperience>)
    requires ws != []
    ensures var e := ExperienceBlocks(ws);
      && 1 + |EntryBlocks(ws[0])| <= |e|
      && e[0] == SectionHeading(EXPERIENCE_TITLE)
      && e[1..1 + |EntryBlocks(ws[0])|] == EntryBlocks(ws[0])
  {
    var groups := EntryGroups(ws);
    assert groups[0] == EntryBlocks(ws[0]);
    FirstGroupFollows(SectionHeading(EXPERIENCE_TITLE), groups);
  }

  lemma FirstGroupFollows(h: Block, groups: seq<seq<Block>>)
    requires groups != []
    ensures var e := [h] + Join(groups, [Spacer]);
      && 1 + |groups[0]| <= |e| && e[0] == h && e[1..1 + |groups[0]|] == groups[0]
  {
    var j := Join(groups, [Spacer]);
    JoinFirst(groups, [Spacer]);
    assert ([h] + j)[1..1 + |groups[0]|] == j[..|groups[0]|];
  }

  /** An entry is its role line, its period and one line per bullet, in
      the bullets' order. */
  lemma EntryShape(exp: WorkExperience)
    ensures |EntryBlocks(exp)| == 2 + |exp.bullets|
    ensures EntryBlocks(exp)[0] == Lead(exp.role, FIELD_SEPARATOR + exp.company, true)
    ensures EntryBlocks(exp)[1] == Italic(exp.period)
    ensures forall k :: 0 <= k < |exp.bullets| ==> EntryBlocks(exp)[2 + k] == BulletPoint(exp.bullets[k])
  {
  }

  /** Three entries, one education entry, two skills, a summary and no
      contact give the name, two summary paragraphs, the experience
      heading with six entry lines, the bullets and two spacers, two
      education paragraphs and two skills paragraphs. */
  lemma ThreeEntryFixture(cv: RewrittenCv)
    requires |cv.workHistory| == 3 && cv.summary != [] && !HasContact(cv)
    requires cv.education.Some? && |cv.education.value| == 1
    requires !HasCertifications(cv)
    requires cv.skills.Some? && |cv.skills.value| == 2
    ensures |DocumentBlocks(cv)| == 16 + BulletCount(cv.workHistory)
    ensures multiset(DocumentBlocks(cv))[Spacer] == 2
  {
    BlockCount(cv);
    SpacerCount(cv);
  }

  /** An education line is institution, dash and degree, with " (year)"
      after it only when the year is a non-empty string. */
  lemma EducationLineText(e: Education)
    ensures var t := ParagraphText(EducationLine(e));
      && StartsWith(t, e.institution + DASH + e.degree)
      && (!Truthy(e.year) ==> t == e.institution + DASH + e.degree)
      && (Truthy(e.year) ==> t == e.institution + DASH + e.degree + Lit(" (") + e.year.value + Lit(")"))
  {
  }

  /** A certification line is name, dash and institution, with " (year)"
      after it only when the year is a non-empty string. */
  lemma CertificationLineText(c: Certification)
    ensures var t := ParagraphText(CertificationLine(c));
      && StartsWith(t, c.name + DASH + c.institution)
      && (!Truthy(c.year) ==> t == c.name + DASH + c.institution)
      && (Truthy(c.year) ==> t == c.name + DASH + c.institution + Lit(" (") + c.year.value + Lit(")"))
  {
  }

  /** The number of paragraphs before the education section: the header,
      the summary and the experience section. */
  function EducationStart(cv: RewrittenCv): nat {
    (if HasContact(cv) then 2 else 1) + SummaryCount(cv) + ExperienceCount(cv.workHistory)
  }

  /** In the document, the education heading follows the experience
      section, and then comes one line per entry, in input order. */
  lemma EducationLinesInOrder(cv: RewrittenCv)
    requires HasEducation(cv)
    ensures var o, es := EducationStart(cv), cv.education.value;
      && o + 1 + |es| <= |DocumentBlocks(cv)|
      && DocumentBlocks(cv)[o] == SectionHeading(EDUCATION_TITLE)
      && forall i :: 0 <= i < |es| ==> DocumentBlocks(cv)[o + 1 + i] == EducationLine(es[i])
  {
    var d := EducationBlocks(cv);
    EducationStartCounts(cv);
    assert d == [d[0]] + d[1..];
    FourthSectionLines(DocumentBlocks(cv), HeaderBlocks(cv), SummaryBlocks(cv), ExperienceBlocks(cv.workHistory),
                       d, CertificationBlocks(cv), SkillBlocks(cv), d[0], d[1..]);
  }

  /** EducationStart counts the paragraphs of the sections before the
      education section. */
  lemma EducationStartCounts(cv: RewrittenCv)
    ensures |HeaderBlocks(cv)| + |SummaryBlocks(cv)| + |ExperienceBlocks(cv.workHistory)| == EducationStart(cv)
  {
    HeaderFacts(cv);
    SummaryFacts(cv);
    ExperienceFacts(cv.workHistory);
  }

  /** The certification section follows the education section: its
      heading, then one line per entry, in input order. */
  lemma CertificationLinesInOrder(cv: RewrittenCv)
    requires HasCertifications(cv)
    ensures var o, cs := EducationStart(cv) + EducationCount(cv), cv.certifications.value;
      && o + 1 + |cs| <= |DocumentBlocks(cv)|
      && DocumentBlocks(cv)[o] == SectionHeading(CERTIFICATIONS_TITLE)
      && forall i :: 0 <= i < |cs| ==> DocumentBlocks(cv)[o + 1 + i] == CertificationLine(cs[i])
  {
    var e := CertificationBlocks(cv);
    EducationStartCounts(cv);
    EducationFacts(cv);
    assert e == [e[0]] + e[1..];
    FifthSectionLines(DocumentBlocks(cv), HeaderBlocks(cv), SummaryBlocks(cv), ExperienceBlocks(cv.workHistory),
                      EducationBlocks(cv), e, SkillBlocks(cv), e[0], e[1..]);
  }

  /** A heading and its lines, as the fourth of six consecutive sections,
      sit right after the first three. */
  lemma FourthSectionLines(doc: seq<Block>, a: seq<Block>, b: seq<Block>, c: seq<Block>,
                           d: seq<Block>, e: seq<Block>, f: seq<Block>, heading: Block, lines: seq<Block>)
    requires doc == a + b + c + d + e + f && d == [heading] + lines
    ensures var o := |a| + |b| + |c|;
      && o + 1 + |lines| <= |doc| && doc[o] == heading
      && forall i :: 0 <= i < |lines| ==> doc[o + 1 + i] == lines[i]
  {
    var o := |a| + |b| + |c|;
    assert doc == (a + b + c) + d + (e + f);
    forall i | 0 <= i < |lines| ensures doc[o + 1 + i] == lines[i] {
      assert doc[o + 1 + i] == d[1 + i];
    }
  }

  /** The same for the fifth of six sections. */
  lemma FifthSectionLines(doc: seq<Block>, a: seq<Block>, b: seq<Block>, c: seq<Block>,
                          d: seq<Block>, e: seq<Block>, f: seq<Block>, heading: Block, lines: seq<Block>)
    requires doc == a + b + c + d + e + f && e == [heading] + lines
    ensures var o := |a| + |b| + |c| + |d|;
      && o + 1 + |lines| <= |doc| && doc[o] == heading
      && forall i :: 0 <= i < |lines| ==> doc[o + 1 + i] == lines[i]
  {
    var o := |a| + |b| + |c| + |d|;
    assert doc == (a + b + c + d) + e + f;
    forall i | 0 <= i < |lines| ensures doc[o + 1 + i] == lines[i] {
      assert doc[o + 1 + i] == e[1 + i];
    }
  }

  /** The skills are one plain paragraph: the first skill opens it, and
      between the skills before any cut and those after it stands exactly
      one separator, which the length confirms is all that is added. */
  lemma SkillLineShape(cv: RewrittenCv)
    requires HasSkills(cv)
    ensures var ss := cv.skills.value;
      && SkillBlocks(cv)[1].Body?
      && StartsWith(SkillBlocks(cv)[1].text, ss[0])
      && (forall k :: 0 < k < |ss| ==>
            SkillBlocks(cv)[1].text == Join(ss[..k], SKILL_SEPARATOR) + SKILL_SEPARATOR + Join(ss[k..], SKILL_SEPARATOR))
      && |SkillBlocks(cv)[1].text| == TotalLength(ss) + (|ss| - 1) * |SKILL_SEPARATOR|
  {
    var ss := cv.skills.value;
    JoinFirst(ss, SKILL_SEPARATOR);
    JoinLength(ss, SKILL_SEPARATOR);
    forall k | 0 < k < |ss|
      ensures Join(ss, SKILL_SEPARATOR) == Join(ss[..k], SKILL_SEPARATOR) + SKILL_SEPARATOR + Join(ss[k..], SKILL_SEPARATOR)
    {
      JoinSplit(ss, k, SKILL_SEPARATOR);
    }
  }
}
