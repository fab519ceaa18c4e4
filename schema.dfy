/** The shared schema: record shapes of a resume, the form validation rules
    (required, non-empty, minimum list lengths, optional fields, defaults),
    the stored rows of the three tables and their column defaults. */
module Schema {
  import opened Wrappers

  /** Row identifiers. The database draws them from `gen_random_uuid()`;
      here they are naturals handed out by the store. */
  type Id = nat

  // ---------------------------------------------------------------------
  // Typed resume data (what a successful parse yields)

  datatype PersonalInfo = PersonalInfo(
    firstName: string, lastName: string, email: string, phone: string,
    location: string, title: string, summary: Option<string>)

  datatype Experience = Experience(
    position: string, company: string, startDate: string,
    endDate: Option<string>, current: bool, description: string)

  datatype Education = Education(
    degree: string, school: string, graduationDate: string, gpa: Option<string>)

  datatype ResumeForm = ResumeForm(
    title: string, personalInfo: PersonalInfo, experience: seq<Experience>,
    education: seq<Education>, skills: seq<string>, templateId: string,
    jobDescription: Option<string>)

  /** The typed value of a partial form: every top-level field may be absent. */
  datatype PartialForm = PartialForm(
    title: Option<string>, personalInfo: Option<PersonalInfo>,
    experience: Option<seq<Experience>>, education: Option<seq<Education>>,
    skills: Option<seq<string>>, templateId: Option<string>,
    jobDescription: Option<string>)

  // ---------------------------------------------------------------------
  // Request payloads before validation: every field may be missing (None).

  datatype RawPersonalInfo = RawPersonalInfo(
    firstName: Option<string>, lastName: Option<string>, email: Option<string>,
    phone: Option<string>, location: Option<string>, title: Option<string>,
    summary: Option<string>)

  datatype RawExperience = RawExperience(
    position: Option<string>, company: Option<string>, startDate: Option<string>,
    endDate: Option<string>, current: Option<bool>, description: Option<string>)

  datatype RawEducation = RawEducation(
    degree: Option<string>, school: Option<string>,
    graduationDate: Option<string>, gpa: Option<string>)

  datatype RawResumeForm = RawResumeForm(
    title: Option<string>, personalInfo: Option<RawPersonalInfo>,
    experience: Option<seq<RawExperience>>, education: Option<seq<RawEducation>>,
    skills: Option<seq<string>>, templateId: Option<string>,
    jobDescription: Option<string>)

  // ---------------------------------------------------------------------
  // Validity of typed values: `min(1)` is a length check only.

  predicate NonEmpty(s: string) { |s| >= 1 }

  predicate ValidPersonalInfo(p: PersonalInfo, isEmail: string -> bool) {
    NonEmpty(p.firstName) && NonEmpty(p.lastName) && isEmail(p.email)
    && NonEmpty(p.phone) && NonEmpty(p.location) && NonEmpty(p.title)
  }

  predicate ValidExperience(e: Experience) {
    NonEmpty(e.position) && NonEmpty(e.company) && NonEmpty(e.startDate)
    && NonEmpty(e.description)
  }

  predicate ValidEducation(e: Education) {
    NonEmpty(e.degree) && NonEmpty(e.school) && NonEmpty(e.graduationDate)
  }

  predicate AllValidExperience(es: seq<Experience>) {
    forall i :: 0 <= i < |es| ==> ValidExperience(es[i])
  }

  predicate AllValidEducation(es: seq<Education>) {
    forall i :: 0 <= i < |es| ==> ValidEducation(es[i])
  }

  /** `resumeFormSchema` as a predicate over typed forms. */
  predicate ValidResumeForm(f: ResumeForm, isEmail: string -> bool) {
    NonEmpty(f.title) && ValidPersonalInfo(f.personalInfo, isEmail)
    && |f.experience| >= 1 && AllValidExperience(f.experience)
    && |f.education| >= 1 && AllValidEducation(f.education)
    && |f.skills| >= 1 && NonEmpty(f.templateId)
  }

  // ---------------------------------------------------------------------
  // Parsing: raw payload to typed value, applying defaults.

  predicate Filled(s: Option<string>) { s.Some? && NonEmpty(s.value) }

  function ParsePersonalInfo(raw: RawPersonalInfo, isEmail: string -> bool): (r: Option<PersonalInfo>)
    ensures r.Some? ==> ValidPersonalInfo(r.value, isEmail) && r.value.summary == raw.summary
  {
    if Filled(raw.firstName) && Filled(raw.lastName)
       && raw.email.Some? && isEmail(raw.email.value)
       && Filled(raw.phone) && Filled(raw.location) && Filled(raw.title)
    then Some(PersonalInfo(raw.firstName.value, raw.lastName.value, raw.email.value,
                           raw.phone.value, raw.location.value, raw.title.value, raw.summary))
    else None
  }

  /** `current` takes its schema default `false` when absent. */
  function ParseExperience(raw: RawExperience): (r: Option<Experience>)
    ensures r.Some? ==> ValidExperience(r.value) && r.value.current == raw.current.GetOr(false)
  {
    if Filled(raw.position) && Filled(raw.company) && Filled(raw.startDate)
       && Filled(raw.description)
    then Some(Experience(raw.position.value, raw.company.value, raw.startDate.value,
                         raw.endDate, raw.current.GetOr(false), raw.description.value))
    else None
  }

  function ParseEducation(raw: RawEducation): (r: Option<Education>)
    ensures r.Some? ==> ValidEducation(r.value) && r.value.gpa == raw.gpa
  {
    if Filled(raw.degree) && Filled(raw.school) && Filled(raw.graduationDate)
    then Some(Education(raw.degree.value, raw.school.value, raw.graduationDate.value, raw.gpa))
    else None
  }

  function ParseExperienceList(raws: seq<RawExperience>): (r: Option<seq<Experience>>)
    ensures r.Some? <==> forall i :: 0 <= i < |raws| ==> ParseExperience(raws[i]).Some?
    ensures r.Some? ==> (|r.value| == |raws|
      && forall i :: 0 <= i < |raws| ==> ParseExperience(raws[i]) == Some(r.value[i]))
    ensures r.Some? ==> AllValidExperience(r.value)
    decreases |raws|
  {
    if raws == [] then Some([])
    else
      match (ParseExperience(raws[0]), ParseExperienceList(raws[1..]))
      case (Some(e), Some(es)) => Some([e] + es)
      case _ => None
  }

  function ParseEducationList(raws: seq<RawEducation>): (r: Option<seq<Education>>)
    ensures r.Some? <==> forall i :: 0 <= i < |raws| ==> ParseEducation(raws[i]).Some?
    ensures r.Some? ==> (|r.value| == |raws|
      && forall i :: 0 <= i < |raws| ==> ParseEducation(raws[i]) == Some(r.value[i]))
    ensures r.Some? ==> AllValidEducation(r.value)
    decreases |raws|
  {
    if raws == [] then Some([])
    else
      match (ParseEducation(raws[0]), ParseEducationList(raws[1..]))
      case (Some(e), Some(es)) => Some([e] + es)
      case _ => None
  }

  /** `resumeFormSchema.parse`: the typed form, or None where zod throws. */
  function ParseResumeForm(raw: RawResumeForm, isEmail: string -> bool): (r: Option<ResumeForm>)
    ensures r.Some? ==> ValidResumeForm(r.value, isEmail)
  {
    if !Filled(raw.title) || !Filled(raw.templateId)
       || raw.personalInfo.None? || raw.experience.None? || raw.education.None?
       || raw.skills.None?
    then None
    else
      match (ParsePersonalInfo(raw.personalInfo.value, isEmail),
             ParseExperienceList(raw.experience.value),
             ParseEducationList(raw.education.value))
      case (Some(p), Some(es), Some(eds)) =>
        if |es| >= 1 && |eds| >= 1 && |raw.skills.value| >= 1 then
          Some(ResumeForm(raw.title.value, p, es, eds, raw.skills.value,
                          raw.templateId.value, raw.jobDescription))
        else None
      case _ => None
  }

  // In the partial schema each field is checked only when present. The
  // helpers below answer None to reject, Some(None) for an absent field and
  // Some(Some(v)) for a present, valid one.

  function PartialPersonalInfo(raw: Option<RawPersonalInfo>, isEmail: string -> bool): (r: Option<Option<PersonalInfo>>)
    ensures raw.None? ==> r == Some(None)
    ensures raw.Some? ==> r == (if ParsePersonalInfo(raw.value, isEmail).Some?
                                then Some(ParsePersonalInfo(raw.value, isEmail)) else None)
    ensures r.Some? && r.value.Some? ==> ValidPersonalInfo(r.value.value, isEmail)
  {
    if raw.None? then Some(None)
    else
      var p := ParsePersonalInfo(raw.value, isEmail);
      if p.Some? then Some(p) else None
  }

  function PartialExperience(raws: Option<seq<RawExperience>>): (r: Option<Option<seq<Experience>>>)
    ensures raws.None? ==> r == Some(None)
    ensures raws.Some? ==> r == (var es := ParseExperienceList(raws.value);
                                 if es.Some? && |es.value| >= 1 then Some(es) else None)
    ensures r.Some? && r.value.Some? ==> |r.value.value| >= 1 && AllValidExperience(r.value.value)
  {
    if raws.None? then Some(None)
    else
      var es := ParseExperienceList(raws.value);
      if es.Some? && |es.value| >= 1 then Some(es) else None
  }

  function PartialEducation(raws: Option<seq<RawEducation>>): (r: Option<Option<seq<Education>>>)
    ensures raws.None? ==> r == Some(None)
    ensures raws.Some? ==> r == (var eds := ParseEducationList(raws.value);
                                 if eds.Some? && |eds.value| >= 1 then Some(eds) else None)
    ensures r.Some? && r.value.Some? ==> |r.value.value| >= 1 && AllValidEducation(r.value.value)
  {
    if raws.None? then Some(None)
    else
      var eds := ParseEducationList(raws.value);
      if eds.Some? && |eds.value| >= 1 then Some(eds) else None
  }

  /** `resumeFormSchema.partial().parse`: absent fields are accepted, present
      ones are checked as in the full schema. */
  function ParsePartialForm(raw: RawResumeForm, isEmail: string -> bool): (r: Option<PartialForm>)
    ensures r.Some? ==> var u := r.value;
              (u.title.Some? ==> NonEmpty(u.title.value))
              && (u.templateId.Some? ==> NonEmpty(u.templateId.value))
              && (u.personalInfo.Some? ==> ValidPersonalInfo(u.personalInfo.value, isEmail))
              && (u.experience.Some? ==> |u.experience.value| >= 1 && AllValidExperience(u.experience.value))
              && (u.education.Some? ==> |u.education.value| >= 1 && AllValidEducation(u.education.value))
              && (u.skills.Some? ==> |u.skills.value| >= 1)
    ensures r.Some? ==> r.value.title == raw.title && r.value.skills == raw.skills
                        && r.value.templateId == raw.templateId && r.value.jobDescription == raw.jobDescription
  {
    if (raw.title.Some? && !Filled(raw.title))
       || (raw.templateId.Some? && !Filled(raw.templateId))
       || (raw.skills.Some? && |raw.skills.value| < 1)
    then None
    else
      match (PartialPersonalInfo(raw.personalInfo, isEmail), PartialExperience(raw.experience),
             PartialEducation(raw.education))
      case (Some(p), Some(es), Some(eds)) =>
        Some(PartialForm(raw.title, p, es, eds, raw.skills, raw.templateId, raw.jobDescription))
      case _ => None
  }

  // ---------------------------------------------------------------------
  // The JSON form of typed values (what a client sends for a typed form).

  function RawOfPersonalInfo(p: PersonalInfo): RawPersonalInfo {
    RawPersonalInfo(Some(p.firstName), Some(p.lastName), Some(p.email), Some(p.phone),
                    Some(p.location), Some(p.title), p.summary)
  }

  function RawOfExperience(e: Experience): RawExperience {
    RawExperience(Some(e.position), Some(e.company), Some(e.startDate), e.endDate,
                  Some(e.current), Some(e.description))
  }

  function RawOfEducation(e: Education): RawEducation {
    RawEducation(Some(e.degree), Some(e.school), Some(e.graduationDate), e.gpa)
  }

  function RawOfForm(f: ResumeForm): RawResumeForm {
    RawResumeForm(Some(f.title), Some(RawOfPersonalInfo(f.personalInfo)),
                  Some(seq(|f.experience|, i requires 0 <= i < |f.experience| => RawOfExperience(f.experience[i]))),
                  Some(seq(|f.education|, i requires 0 <= i < |f.education| => RawOfEducation(f.education[i]))),
                  Some(f.skills), Some(f.templateId), f.jobDescription)
  }

  /** Parsing the JSON form of a typed form gives the form back exactly when it
      is valid: the schema neither trims nor rewrites accepted values. */
  lemma {:induction false} ParseRoundTrip(f: ResumeForm, isEmail: string -> bool)
    ensures ParseResumeForm(RawOfForm(f), isEmail) == (if ValidResumeForm(f, isEmail) then Some(f) else None)
  {
    var raw := RawOfForm(f);
    var es := ParseExperienceList(raw.experience.value);
    var eds := ParseEducationList(raw.education.value);
    forall i | 0 <= i < |f.experience|
      ensures ParseExperience(raw.experience.value[i])
              == if ValidExperience(f.experience[i]) then Some(f.experience[i]) else None
    { }
    forall i | 0 <= i < |f.education|
      ensures ParseEducation(raw.education.value[i])
              == if ValidEducation(f.education[i]) then Some(f.education[i]) else None
    { }
    if es.Some? {
      assert es.value == f.experience;
    }
    if eds.Some? {
      assert eds.value == f.education;
    }
  }

  /** An experience entry that omits `current` parses with `current == false`. */
  lemma CurrentDefaultsToFalse(raw: RawExperience)
    requires raw.current.None?
    ensures ParseExperience(raw).Some? ==> !ParseExperience(raw).value.current
  { }

  /** Whitespace-only values pass every `min(1)` check. */
  lemma WhitespaceIsAccepted(f: ResumeForm, isEmail: string -> bool)
    requires ValidResumeForm(f, isEmail)
    ensures ValidResumeForm(f.(title := " ", templateId := " "), isEmail)
    ensures ParseResumeForm(RawOfForm(f.(title := " ")), isEmail) == Some(f.(title := " "))
  {
    ParseRoundTrip(f.(title := " "), isEmail);
  }

  /** A payload that the full schema accepts is accepted by the partial one,
      with every field present. */
  lemma {:induction false} FullFormIsPartialForm(raw: RawResumeForm, isEmail: string -> bool)
    requires ParseResumeForm(raw, isEmail).Some?
    ensures ParsePartialForm(raw, isEmail) == Some(PartialOf(ParseResumeForm(raw, isEmail).value))
  { }

  function PartialOf(f: ResumeForm): PartialForm {
    PartialForm(Some(f.title), Some(f.personalInfo), Some(f.experience), Some(f.education),
                Some(f.skills), Some(f.templateId), f.jobDescription)
  }

  /** The empty payload is a valid partial update that supplies nothing. */
  lemma EmptyPartialForm(isEmail: string -> bool)
    ensures ParsePartialForm(RawResumeForm(None, None, None, None, None, None, None), isEmail)
            == Some(PartialForm(None, None, None, None, None, None, None))
  { }

  // ---------------------------------------------------------------------
  // Stored rows and column defaults.

  const DefaultTemplateId: string := "modern"
  const DefaultIsPremium: bool := false
  const DefaultTone: string := "professional"

  datatype User = User(
    id: Id, email: Option<string>, firstName: Option<string>, lastName: Option<string>,
    profileImageUrl: Option<string>, createdAt: nat, updatedAt: nat)

  /** The upsert payload. Each optional column has three states: the key is
      absent (`None`), present and null (`Some(None)`), or present with a value
      (`Some(Some(v))`). */
  datatype UpsertUser = UpsertUser(
    id: Id, email: Option<Option<string>>, firstName: Option<Option<string>>,
    lastName: Option<Option<string>>, profileImageUrl: Option<Option<string>>)

  /** The column after `.set({...userData})`: a present key overwrites, an
      absent one (undefined, which Drizzle skips) keeps `current`. */
  function Supplied<T>(given: Option<Option<T>>, current: Option<T>): (v: Option<T>)
    ensures given.Some? ==> v == given.value
    ensures given.None? ==> v == current
  {
    if given.Some? then given.value else current
  }

  datatype Resume = Resume(
    id: Id, userId: Id, title: string, personalInfo: PersonalInfo,
    experience: seq<Experience>, education: seq<Education>, skills: seq<string>,
    summary: Option<string>, templateId: string, jobDescription: Option<string>,
    matchScore: Option<int>, isPremium: bool, createdAt: nat, updatedAt: nat)

  /** An insert into `resumes`; absent columns take their defaults. */
  datatype InsertResume = InsertResume(
    userId: Id, title: string, personalInfo: PersonalInfo,
    experience: seq<Experience>, education: seq<Education>, skills: seq<string>,
    summary: Option<string>, templateId: Option<string>, jobDescription: Option<string>,
    matchScore: Option<int>, isPremium: Option<bool>)

  /** A partial update of `resumes`; None means "not supplied, keep". */
  datatype ResumePatch = ResumePatch(
    title: Option<string>, personalInfo: Option<PersonalInfo>,
    experience: Option<seq<Experience>>, education: Option<seq<Education>>,
    skills: Option<seq<string>>, summary: Option<string>, templateId: Option<string>,
    jobDescription: Option<string>, matchScore: Option<int>)

  datatype CoverLetter = CoverLetter(
    id: Id, resumeId: Id, content: string, tone: string,
    jobDescription: Option<string>, createdAt: nat)

  datatype InsertCoverLetter = InsertCoverLetter(
    resumeId: Id, content: string, tone: Option<string>, jobDescription: Option<string>)

  /** A stored row read back as form values (`title`, `personalInfo`, lists,
      `templateId`, `jobDescription`). */
  function FormOf(r: Resume): ResumeForm {
    ResumeForm(r.title, r.personalInfo, r.experience, r.education, r.skills, r.templateId, r.jobDescription)
  }

  /** The row an insert produces, with the column defaults of `resumes`. */
  function NewResumeRow(ins: InsertResume, id: Id, now: nat): (r: Resume)
    ensures r.templateId == if ins.templateId.Some? then ins.templateId.value else DefaultTemplateId
    ensures r.isPremium == if ins.isPremium.Some? then ins.isPremium.value else DefaultIsPremium
    ensures r.createdAt == r.updatedAt == now
  {
    Resume(id, ins.userId, ins.title, ins.personalInfo, ins.experience, ins.education,
           ins.skills, ins.summary, ins.templateId.GetOr(DefaultTemplateId), ins.jobDescription,
           ins.matchScore, ins.isPremium.GetOr(DefaultIsPremium), now, now)
  }

  /** The row an insert into `cover_letters` produces; `tone` defaults. */
  function NewCoverLetterRow(ins: InsertCoverLetter, id: Id, now: nat): (c: CoverLetter)
    ensures c.tone == if ins.tone.Some? then ins.tone.value else DefaultTone
  {
    CoverLetter(id, ins.resumeId, ins.content, ins.tone.GetOr(DefaultTone), ins.jobDescription, now)
  }

  /** `UPDATE ... SET {...patch, updatedAt: now}`: supplied fields overwrite,
      others keep their value; id, owner, creation time and tier never change. */
  function Patched(r: Resume, p: ResumePatch, now: nat): Resume {
    r.(title := p.title.GetOr(r.title),
       personalInfo := p.personalInfo.GetOr(r.personalInfo),
       experience := p.experience.GetOr(r.experience),
       education := p.education.GetOr(r.education),
       skills := p.skills.GetOr(r.skills),
       summary := if p.summary.Some? then p.summary else r.summary,
       templateId := p.templateId.GetOr(r.templateId),
       jobDescription := if p.jobDescription.Some? then p.jobDescription else r.jobDescription,
       matchScore := if p.matchScore.Some? then p.matchScore else r.matchScore,
       updatedAt := now)
  }

  const NoChanges: ResumePatch := ResumePatch(None, None, None, None, None, None, None, None, None)

  /** Two successive updates amount to one update with the later patch
      winning field by field (last write wins). */
  function Merge(p: ResumePatch, q: ResumePatch): ResumePatch {
    ResumePatch(
      if q.title.Some? then q.title else p.title,
      if q.personalInfo.Some? then q.personalInfo else p.personalInfo,
      if q.experience.Some? then q.experience else p.experience,
      if q.education.Some? then q.education else p.education,
      if q.skills.Some? then q.skills else p.skills,
      if q.summary.Some? then q.summary else p.summary,
      if q.templateId.Some? then q.templateId else p.templateId,
      if q.jobDescription.Some? then q.jobDescription else p.jobDescription,
      if q.matchScore.Some? then q.matchScore else p.matchScore)
  }

  lemma PatchComposes(r: Resume, p: ResumePatch, q: ResumePatch, t1: nat, t2: nat)
    ensures Patched(Patched(r, p, t1), q, t2) == Patched(r, Merge(p, q), t2)
  { }

  /** An empty patch only refreshes the timestamp. */
  lemma EmptyPatchTouchesOnly(r: Resume, now: nat)
    ensures Patched(r, NoChanges, now) == r.(updatedAt := now)
  { }
}
