/** `generateResumeHTML`: the resume rendered as one HTML document. Field
    values are interpolated verbatim (no escaping). The template's
    indentation whitespace is not reproduced; tags, text and their order are. */
module PdfRender {
  import opened Wrappers
  import opened JsValues
  import opened Seqs
  import opened Schema

  const DocStart: string := "<!DOCTYPE html><html><head><meta charset=\"utf-8\"><title>"

  const BaseCss: string :=
    "*{margin:0;padding:0;box-sizing:border-box;}"
    + "body{font-family:'Segoe UI',Tahoma,Geneva,Verdana,sans-serif;line-height:1.6;color:#333;}"
    + ".header{text-align:center;padding:20px 0;border-bottom:2px solid #2563eb;margin-bottom:20px;}"
    + ".name{font-size:28px;font-weight:bold;color:#1e40af;margin-bottom:5px;}"
    + ".title{font-size:18px;color:#6b7280;margin-bottom:10px;}"
    + ".contact{display:flex;justify-content:center;gap:20px;flex-wrap:wrap;font-size:14px;color:#6b7280;}"
    + ".section{margin-bottom:25px;}"
    + ".section-title{font-size:20px;font-weight:bold;color:#1e40af;border-bottom:1px solid #e5e7eb;"
    + "padding-bottom:5px;margin-bottom:15px;}"
    + ".experience-item,.education-item{margin-bottom:20px;padding-left:20px;border-left:3px solid #3b82f6;}"
    + ".job-title,.degree{font-size:16px;font-weight:bold;color:#1f2937;}"
    + ".company,.school{font-size:14px;color:#6b7280;margin-bottom:5px;}"
    + ".date{font-size:12px;color:#9ca3af;margin-bottom:10px;}"
    + ".description{font-size:14px;line-height:1.5;color:#4b5563;}"
    + ".skills{display:flex;flex-wrap:wrap;gap:10px;}"
    + ".skill{background-color:#eff6ff;color:#1e40af;padding:5px 12px;border-radius:15px;"
    + "font-size:12px;border:1px solid #dbeafe;}"
    + ".summary{font-size:14px;line-height:1.6;color:#4b5563;text-align:justify;}"

  const WatermarkCss: string :=
    ".watermark{position:fixed;bottom:10px;right:10px;color:#d1d5db;font-size:10px;opacity:0.7;}"

  const WatermarkMark: string := "<div class=\"watermark\">Generated with SmartResume</div>"

  function Div(cls: string, inner: string): string {
    "<div class=\"" + cls + "\">" + inner + "</div>"
  }

  function Span(inner: string): string { "<span>" + inner + "</span>" }

  function SectionOpen(title: string): string {
    "<div class=\"section\">" + Div("section-title", title)
  }

  /** A titled section: opening tag with heading, content, closing tag. */
  function SectionParts(title: string, inner: string): seq<string> {
    [SectionOpen(title), inner, "</div>"]
  }

  /** The date line of an experience entry. */
  function DateLine(e: Experience): (s: string)
    ensures e.current ==> s == e.startDate + " - Present"
    ensures !e.current && Truthy(e.endDate) ==> s == e.startDate + " - " + e.endDate.value
    ensures !e.current && !Truthy(e.endDate) ==> s == e.startDate + " - Present"
  {
    e.startDate + " - " + (if e.current then "Present" else OrElse(e.endDate, "Present"))
  }

  function ExperienceItem(e: Experience): string {
    Div("experience-item",
        Div("job-title", e.position) + Div("company", e.company)
        + Div("date", DateLine(e)) + Div("description", e.description))
  }

  function GpaLine(gpa: Option<string>): string {
    if Truthy(gpa) then Div("description", "GPA: " + gpa.value) else ""
  }

  function EducationItem(e: Education): string {
    Div("education-item",
        Div("degree", e.degree) + Div("school", e.school)
        + Div("date", e.graduationDate) + GpaLine(e.gpa))
  }

  function SkillItem(skill: string): string { "<span class=\"skill\">" + skill + "</span>" }

  function Header(p: PersonalInfo): string {
    Div("header",
        Div("name", p.firstName + " " + p.lastName) + Div("title", p.title)
        + Div("contact", Span(p.email) + Span(p.phone) + Span(p.location)))
  }

  function SummaryParts(summary: Option<string>): seq<string> {
    if Truthy(summary) then SectionParts("Professional Summary", Div("summary", summary.value)) else []
  }

  /** The watermark rule exists only in the style sheet of a non-premium resume. */
  function WatermarkCssParts(isPremium: bool): seq<string> {
    if !isPremium then [WatermarkCss] else []
  }

  function WatermarkParts(isPremium: bool): seq<string> {
    if !isPremium then [WatermarkMark] else []
  }

  /** The document start, the title, and the style sheet `css` (the
      template's own is `BaseCss`). */
  function HeadParts(css: string, title: string): seq<string> {
    [DocStart, title, "</title><style>" + css]
  }

  function OpeningParts(p: PersonalInfo): seq<string> {
    ["</style></head><body>", Header(p)]
  }

  /** Everything between the style sheet's watermark rule and the watermark element. */
  function BodyParts(p: PersonalInfo, summary: Option<string>, experience: seq<Experience>,
                     education: seq<Education>, skills: seq<string>): seq<string> {
    OpeningParts(p) + SummaryParts(summary)
    + SectionParts("Professional Experience", ConcatMap(ExperienceItem, experience))
    + SectionParts("Education", ConcatMap(EducationItem, education))
    + SectionParts("Skills", Div("skills", ConcatMap(SkillItem, skills)))
  }

  const DocEnd: string := "</body></html>"

  /** The fragments of the template literal, in order. `templateId` is not
      among the inputs: the source computes it and never uses it. */
  function Document(css: string, r: Resume): seq<string> {
    HeadParts(css, r.title) + WatermarkCssParts(r.isPremium)
    + BodyParts(r.personalInfo, r.summary, r.experience, r.education, r.skills)
    + WatermarkParts(r.isPremium) + [DocEnd]
  }

  /** `generateResumeHTML(resume, personalInfo, experience, education)`. */
  function ResumeHtml(r: Resume): string { Html(BaseCss, r) }

  /** The document with the style sheet `css`. The lemmas below hold for every
      style sheet, the template's included; none of them looks inside it. */
  function Html(css: string, r: Resume): string { Join(Document(css, r)) }

  lemma JoinOne(x: string)
    ensures Join([x]) == x
  {
    assert [x][1..] == [];
  }

  lemma JoinTriple(x: string, y: string, z: string)
    ensures Join([x, y, z]) == x + y + z
  {
    assert [x, y, z][1..] == [y, z];
    assert [y, z][1..] == [z];
    JoinOne(z);
  }

  lemma JoinDocument(css: string, r: Resume)
    ensures Html(css, r) == Join(HeadParts(css, r.title)) + Join(WatermarkCssParts(r.isPremium))
                             + Join(BodyParts(r.personalInfo, r.summary, r.experience, r.education, r.skills))
                             + Join(WatermarkParts(r.isPremium)) + DocEnd
  {
    var h, c := HeadParts(css, r.title), WatermarkCssParts(r.isPremium);
    var b := BodyParts(r.personalInfo, r.summary, r.experience, r.education, r.skills);
    var m := WatermarkParts(r.isPremium);
    JoinAppend(h + c + b + m, [DocEnd]);
    JoinAppend(h + c + b, m);
    JoinAppend(h + c, b);
    JoinAppend(h, c);
    JoinOne(DocEnd);
  }

  lemma JoinBody(p: PersonalInfo, summary: Option<string>, experience: seq<Experience>,
                 education: seq<Education>, skills: seq<string>)
    ensures Join(BodyParts(p, summary, experience, education, skills))
         == Join(OpeningParts(p)) + Join(SummaryParts(summary))
            + (SectionOpen("Professional Experience") + ConcatMap(ExperienceItem, experience) + "</div>")
            + (SectionOpen("Education") + ConcatMap(EducationItem, education) + "</div>")
            + (SectionOpen("Skills") + Div("skills", ConcatMap(SkillItem, skills)) + "</div>")
  {
    var o, s := OpeningParts(p), SummaryParts(summary);
    var x := SectionParts("Professional Experience", ConcatMap(ExperienceItem, experience));
    var y := SectionParts("Education", ConcatMap(EducationItem, education));
    var z := SectionParts("Skills", Div("skills", ConcatMap(SkillItem, skills)));
    JoinAppend(o + s + x + y, z);
    JoinAppend(o + s + x, y);
    JoinAppend(o + s, x);
    JoinAppend(o, s);
    JoinTriple(SectionOpen("Professional Experience"), ConcatMap(ExperienceItem, experience), "</div>");
    JoinTriple(SectionOpen("Education"), ConcatMap(EducationItem, education), "</div>");
    JoinTriple(SectionOpen("Skills"), Div("skills", ConcatMap(SkillItem, skills)), "</div>");
  }

  /** The free and premium renderings of a resume differ exactly by the
      watermark rule in the style sheet and the watermark element. */
  lemma WatermarkOnlyDifference(css: string, r: Resume) returns (a: string, b: string, c: string)
    ensures Html(css, r.(isPremium := true)) == a + b + c
    ensures Html(css, r.(isPremium := false)) == a + WatermarkCss + b + WatermarkMark + c
  {
    JoinDocument(css, r.(isPremium := true));
    JoinDocument(css, r.(isPremium := false));
    JoinOne(WatermarkCss);
    JoinOne(WatermarkMark);
    a := Join(HeadParts(css, r.title));
    b := Join(BodyParts(r.personalInfo, r.summary, r.experience, r.education, r.skills));
    c := DocEnd;
    assert a + "" == a;
    assert a + b + "" == a + b;
  }

  lemma RegroupAround(h: string, c: string, o: string, s: string, x: string, y: string, z: string,
                      m: string, e: string)
    ensures ((((h + c) + ((((o + s) + x) + y) + z)) + m) + e)
         == ((h + c) + o) + s + ((((x + y) + z) + m) + e)
  { }

  /** The text before and after the summary section; neither depends on the summary. */
  function BeforeSummary(css: string, title: string, isPremium: bool, p: PersonalInfo): string {
    Join(HeadParts(css, title)) + Join(WatermarkCssParts(isPremium)) + Join(OpeningParts(p))
  }

  function AfterSummary(experience: seq<Experience>, education: seq<Education>, skills: seq<string>,
                        isPremium: bool): string {
    (SectionOpen("Professional Experience") + ConcatMap(ExperienceItem, experience) + "</div>")
    + (SectionOpen("Education") + ConcatMap(EducationItem, education) + "</div>")
    + (SectionOpen("Skills") + Div("skills", ConcatMap(SkillItem, skills)) + "</div>")
    + Join(WatermarkParts(isPremium)) + DocEnd
  }

  lemma HtmlAroundSummary(css: string, r: Resume)
    ensures Html(css, r) == BeforeSummary(css, r.title, r.isPremium, r.personalInfo) + Join(SummaryParts(r.summary))
                            + AfterSummary(r.experience, r.education, r.skills, r.isPremium)
  {
    JoinDocument(css, r);
    JoinBody(r.personalInfo, r.summary, r.experience, r.education, r.skills);
    RegroupAround(Join(HeadParts(css, r.title)), Join(WatermarkCssParts(r.isPremium)),
                  Join(OpeningParts(r.personalInfo)), Join(SummaryParts(r.summary)),
                  SectionOpen("Professional Experience") + ConcatMap(ExperienceItem, r.experience) + "</div>",
                  SectionOpen("Education") + ConcatMap(EducationItem, r.education) + "</div>",
                  SectionOpen("Skills") + Div("skills", ConcatMap(SkillItem, r.skills)) + "</div>",
                  Join(WatermarkParts(r.isPremium)), DocEnd);
  }

  /** The summary section appears iff the summary is truthy, and it is the
      only thing the summary contributes. */
  lemma SummaryOnlyWhenTruthy(css: string, r: Resume) returns (a: string, b: string)
    ensures Html(css, r.(summary := None)) == a + b
    ensures Truthy(r.summary) ==>
              Html(css, r) == a + (SectionOpen("Professional Summary") + Div("summary", r.summary.value) + "</div>") + b
    ensures !Truthy(r.summary) ==> Html(css, r) == a + b
  {
    var r0 := r.(summary := None);
    a := BeforeSummary(css, r.title, r.isPremium, r.personalInfo);
    b := AfterSummary(r.experience, r.education, r.skills, r.isPremium);
    HtmlAroundSummary(css, r0);
    assert Join(SummaryParts(None)) == "";
    assert a + "" == a;
    HtmlAroundSummary(css, r);
    if Truthy(r.summary) {
      JoinTriple(SectionOpen("Professional Summary"), Div("summary", r.summary.value), "</div>");
    }
  }

  /** An education entry gets a GPA line iff its GPA is truthy. */
  lemma GpaOnlyWhenTruthy(e: Education) returns (a: string, b: string)
    ensures EducationItem(e.(gpa := None)) == a + b
    ensures Truthy(e.gpa) ==> EducationItem(e) == a + Div("description", "GPA: " + e.gpa.value) + b
    ensures !Truthy(e.gpa) ==> EducationItem(e) == a + b
  {
    var open := "<div class=\"" + "education-item" + "\">";
    var x := Div("degree", e.degree) + Div("school", e.school) + Div("date", e.graduationDate);
    a, b := open + x, "</div>";
    AppendAssoc(open, x, GpaLine(e.gpa));
    assert x + "" == x;
  }

  lemma AppendAssoc(a: string, b: string, c: string)
    ensures a + (b + c) == (a + b) + c
  { }

  lemma RegroupSections(h: string, c: string, o: string, s: string, so1: string, x: string, so2: string,
                        y: string, so3: string, k: string, z: string, d: string, m: string, e: string)
    ensures ((((h + c) + ((((o + s) + (so1 + x + d)) + (so2 + y + d)) + (so3 + ((k + z) + d) + d))) + m) + e)
         == ((h + c) + o + s + so1) + x + (d + so2) + y + (d + so3 + k) + z + (d + d + m + e)
  { }

  /** The document up to the first experience block. */
  function BeforeSections(css: string, r: Resume): string {
    (Join(HeadParts(css, r.title)) + Join(WatermarkCssParts(r.isPremium))) + Join(OpeningParts(r.personalInfo))
    + Join(SummaryParts(r.summary)) + SectionOpen("Professional Experience")
  }

  const BetweenExperienceAndEducation: string := "</div>" + SectionOpen("Education")
  const BetweenEducationAndSkills: string := "</div>" + SectionOpen("Skills") + ("<div class=\"" + "skills" + "\">")

  /** The document after the last skill. */
  function AfterSections(css: string, r: Resume): string {
    "</div>" + "</div>" + Join(WatermarkParts(r.isPremium)) + DocEnd
  }

  lemma SectionsAt(css: string, r: Resume)
    ensures Html(css, r) == BeforeSections(css, r) + ConcatMap(ExperienceItem, r.experience)
                             + BetweenExperienceAndEducation + ConcatMap(EducationItem, r.education)
                             + BetweenEducationAndSkills + ConcatMap(SkillItem, r.skills) + AfterSections(css, r)
  {
    var h, c, o := Join(HeadParts(css, r.title)), Join(WatermarkCssParts(r.isPremium)), Join(OpeningParts(r.personalInfo));
    var s, m := Join(SummaryParts(r.summary)), Join(WatermarkParts(r.isPremium));
    var x, y, z := ConcatMap(ExperienceItem, r.experience), ConcatMap(EducationItem, r.education), ConcatMap(SkillItem, r.skills);
    var k := "<div class=\"" + "skills" + "\">";
    JoinDocument(css, r);
    JoinBody(r.personalInfo, r.summary, r.experience, r.education, r.skills);
    assert Div("skills", z) == (k + z) + "</div>";
    RegroupSections(h, c, o, s, SectionOpen("Professional Experience"), x, SectionOpen("Education"), y,
                    SectionOpen("Skills"), k, z, "</div>", m, DocEnd);
    assert BeforeSections(css, r) == ((h + c) + o + s + SectionOpen("Professional Experience"));
    assert AfterSections(css, r) == "</div>" + "</div>" + m + DocEnd;
    assert BetweenEducationAndSkills == "</div>" + SectionOpen("Skills") + k;
  }

  /** The experience, education and skill blocks are the per-element
      renderings concatenated in stored order (see `Seqs.ConcatMapAt`), in
      that section order, and framed by text that does not depend on them. */
  lemma SectionsInStoredOrder(css: string, r: Resume) returns (pre: string, mid1: string, mid2: string, post: string)
    ensures forall es, eds, ss :: Html(css, r.(experience := es, education := eds, skills := ss))
              == pre + ConcatMap(ExperienceItem, es) + mid1 + ConcatMap(EducationItem, eds) + mid2
                 + ConcatMap(SkillItem, ss) + post
  {
    pre, mid1, mid2, post := BeforeSections(css, r), BetweenExperienceAndEducation, BetweenEducationAndSkills, AfterSections(css, r);
    forall es, eds, ss
      ensures Html(css, r.(experience := es, education := eds, skills := ss))
              == pre + ConcatMap(ExperienceItem, es) + mid1 + ConcatMap(EducationItem, eds) + mid2
                 + ConcatMap(SkillItem, ss) + post
    {
      var r' := r.(experience := es, education := eds, skills := ss);
      SectionsAt(css, r');
      assert BeforeSections(css, r') == pre && AfterSections(css, r') == post;
    }
  }

  lemma RegroupTitle(d: string, t: string, u: string, c: string, b: string, m: string, e: string)
    ensures (((((d + t) + u) + c) + b) + m) + e == (d + t) + ((((u + c) + b) + m) + e)
  { }

  /** The document after the title: it depends on everything but the title. */
  function AfterTitle(css: string, r: Resume): string {
    ((("</title><style>" + css + Join(WatermarkCssParts(r.isPremium)))
      + Join(BodyParts(r.personalInfo, r.summary, r.experience, r.education, r.skills)))
      + Join(WatermarkParts(r.isPremium))) + DocEnd
  }

  lemma TitleAt(css: string, r: Resume)
    ensures Html(css, r) == DocStart + r.title + AfterTitle(css, r)
  {
    var u := "</title><style>" + css;
    var c := Join(WatermarkCssParts(r.isPremium));
    var b := Join(BodyParts(r.personalInfo, r.summary, r.experience, r.education, r.skills));
    var m := Join(WatermarkParts(r.isPremium));
    JoinDocument(css, r);
    JoinTriple(DocStart, r.title, u);
    RegroupTitle(DocStart, r.title, u, c, b, m, DocEnd);
  }

  /** The title is placed verbatim right after the fixed document start. */
  lemma TitleVerbatim(css: string, r: Resume) returns (rest: string)
    ensures forall t :: Html(css, r.(title := t)) == DocStart + t + rest
  {
    rest := AfterTitle(css, r);
    forall t ensures Html(css, r.(title := t)) == DocStart + t + rest {
      TitleAt(css, r.(title := t));
      assert AfterTitle(css, r.(title := t)) == rest;
    }
  }

  /** The template choice, the job description, the score and the row's
      identity and timestamps do not affect the document. */
  lemma OnlyRenderedFieldsMatter(css: string, r: Resume, s: Resume)
    requires r.title == s.title && r.personalInfo == s.personalInfo
    requires r.experience == s.experience && r.education == s.education && r.skills == s.skills
    requires r.summary == s.summary && r.isPremium == s.isPremium
    ensures Html(css, r) == Html(css, s)
  { }
}
