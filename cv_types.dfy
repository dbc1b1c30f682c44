/** The rewritten résumé returned by the rewrite mode. Optional members
    are `Option`s; the one function counts bullets. */
module CvTypes {
  import opened Wrappers
  import opened JsText

  datatype WorkExperience = WorkExperience(company: JsString, role: JsString, period: JsString, bullets: seq<JsString>)

  datatype Certification = Certification(name: JsString, institution: JsString, year: Option<JsString>)

  datatype Education = Education(institution: JsString, degree: JsString, year: Option<JsString>)

  datatype ContactInfo = ContactInfo(name: Option<JsString>, email: Option<JsString>,
                                     phone: Option<JsString>, city: Option<JsString>)

  datatype RewrittenCv = RewrittenCv(
    summary: JsString,
    workHistory: seq<WorkExperience>,
    certifications: Option<seq<Certification>>,
    education: Option<seq<Education>>,
    skills: Option<seq<JsString>>,
    contactInfo: Option<ContactInfo>)

  /** The number of bullets over all entries. */
  function BulletCount(ws: seq<WorkExperience>): nat {
    if ws == [] then 0 else BulletCount(ws[..|ws| - 1]) + |ws[|ws| - 1].bullets|
  }
}
