/** The resume builder page: a four-step wizard over the form, the guards in
    front of the optimize request, the create-or-update dispatch of a save,
    the values the form is reset to when an existing resume is edited, and
    the filters of the live preview. */
module Builder {
  import opened Wrappers
  import opened JsValues
  import opened Seqs
  import opened Schema
  import opened FormEditor

  /** `STEPS.length`. */
  const StepCount: int := 4

  /** The blank personal details of a new form. */
  const BlankPersonalInfo: PersonalInfo := PersonalInfo("", "", "", "", "", "", Some(""))

  /** The `defaultValues` of the builder's form. */
  const DefaultValues: ResumeForm :=
    ResumeForm("", BlankPersonalInfo, [BlankExperience], [BlankEducation], [BlankSkill],
               DefaultTemplateId, Some(""))

  lemma DefaultValuesHaveOneOfEach()
    ensures ListsNonEmpty(DefaultValues)
    ensures |DefaultValues.experience| == 1 && |DefaultValues.education| == 1 && DefaultValues.skills == [""]
    ensures DefaultValues.templateId == DefaultTemplateId
  { }

  // ---------------------------------------------------------------------
  // Step navigation

  /** `handleNext`: forward one step unless on the last. */
  function NextStep(step: int): (s: int)
    ensures 1 <= step <= StepCount ==> 1 <= s <= StepCount
    ensures step < StepCount ==> s == step + 1
    ensures step >= StepCount ==> s == step
  {
    if step < StepCount then step + 1 else step
  }

  /** `handlePrevious`: back one step unless on the first. */
  function PreviousStep(step: int): (s: int)
    ensures 1 <= step <= StepCount ==> 1 <= s <= StepCount
    ensures step > 1 ==> s == step - 1
    ensures step <= 1 ==> s == step
  {
    if step > 1 then step - 1 else step
  }

  /** Going back undoes going forward everywhere but on the last step, and
      the reverse holds everywhere but on the first. */
  lemma PreviousUndoesNext(step: int)
    requires 1 <= step <= StepCount
    ensures step < StepCount ==> PreviousStep(NextStep(step)) == step
    ensures step > 1 ==> NextStep(PreviousStep(step)) == step
  { }

  /** `n` presses of a navigation button from `step`. */
  function Presses(forward: bool, step: int, n: nat): int
    decreases n
  {
    if n == 0 then step
    else Presses(forward, if forward then NextStep(step) else PreviousStep(step), n - 1)
  }

  /** Pressing Next `n` times from a valid step lands on `min(step + n, 4)`. */
  lemma {:induction false} NextPressesSaturate(step: int, n: nat)
    requires 1 <= step <= StepCount
    ensures Presses(true, step, n) == if step + n < StepCount then step + n else StepCount
    decreases n
  {
    if n > 0 {
      NextPressesSaturate(NextStep(step), n - 1);
    }
  }

  /** Pressing Previous `n` times from a valid step lands on `max(step - n, 1)`. */
  lemma {:induction false} PreviousPressesSaturate(step: int, n: nat)
    requires 1 <= step <= StepCount
    ensures Presses(false, step, n) == if step - n > 1 then step - n else 1
    decreases n
  {
    if n > 0 {
      PreviousPressesSaturate(PreviousStep(step), n - 1);
    }
  }

  /** `(currentStep / STEPS.length) * 100`: exact for whole steps. */
  function Progress(step: int): (p: int)
    ensures p == 25 * step
    ensures 1 <= step <= StepCount ==> 25 <= p <= 100
    ensures step == StepCount <==> p == 100
  {
    step * 100 / StepCount
  }

  // ---------------------------------------------------------------------
  // Optimize guards and save dispatch

  /** What a press of "Optimize" does. */
  datatype OptimizeAction =
    | JobDescriptionRequired
    | SaveFirst
    | RequestOptimize(id: Id, jobDescription: string)

  /** `handleOptimize`: a missing or blank job description is refused first,
      then an unsaved resume; otherwise the optimize request is sent. */
  function DecideOptimize(jobDescription: Option<string>, editingId: Option<Id>): (a: OptimizeAction)
    ensures a.JobDescriptionRequired? <==> jobDescription.None? || IsBlank(jobDescription.value)
    ensures a.SaveFirst? <==> jobDescription.Some? && !IsBlank(jobDescription.value) && editingId.None?
    ensures a.RequestOptimize? ==> a.id == editingId.value && Some(a.jobDescription) == jobDescription
  {
    if jobDescription.None? || Trim(jobDescription.value) == "" then
      assert jobDescription.Some? ==> IsBlank(jobDescription.value) by {
        if jobDescription.Some? { TrimEmptyIffBlank(jobDescription.value); }
      }
      JobDescriptionRequired
    else
      assert !IsBlank(jobDescription.value) by { TrimEmptyIffBlank(jobDescription.value); }
      if editingId.None? then SaveFirst
      else RequestOptimize(editingId.value, jobDescription.value)
  }

  /** The client's guard is stricter than the server's: every job
      description the client sends is truthy, so it passes the server's
      `if (!jobDescription)` check. */
  lemma ClientGuardImpliesServerGuard(jobDescription: Option<string>, editingId: Option<Id>)
    requires DecideOptimize(jobDescription, editingId).RequestOptimize?
    ensures Truthy(jobDescription)
  { }

  /** The converse fails: a whitespace-only description is refused here but
      would be accepted by the server. */
  lemma WhitespaceRefusedOnlyByClient(id: Id)
    ensures Truthy(Some(" ")) && DecideOptimize(Some(" "), Some(id)) == JobDescriptionRequired
  {
    assert IsBlank(" ") by { assert IsWhitespace(" "[0]); }
  }

  /** The request a save sends. */
  datatype Submission = Create(data: ResumeForm) | Update(id: Id, data: ResumeForm)

  /** `onSubmit`: PUT to the edited resume when editing, POST otherwise. */
  function SubmitFor(editingId: Option<Id>, data: ResumeForm): (s: Submission)
    ensures s.data == data
    ensures s.Update? <==> editingId.Some?
    ensures s.Update? ==> s.id == editingId.value
  {
    if editingId.Some? then Update(editingId.value, data) else Create(data)
  }

  // ---------------------------------------------------------------------
  // Reset values when editing

  /** `v` is what `raw || ""` evaluates to. */
  predicate FilledFrom(v: string, raw: Option<string>) {
    if Truthy(raw) then v == raw.value else v == ""
  }

  /** The personal details of a stored row with every missing field read as "". */
  function ResetPersonalInfo(raw: RawPersonalInfo): (p: PersonalInfo)
    ensures FilledFrom(p.firstName, raw.firstName) && FilledFrom(p.lastName, raw.lastName)
    ensures FilledFrom(p.email, raw.email) && FilledFrom(p.phone, raw.phone)
    ensures FilledFrom(p.location, raw.location) && FilledFrom(p.title, raw.title)
    ensures p.summary.Some? && FilledFrom(p.summary.value, raw.summary)
  {
    PersonalInfo(OrElse(raw.firstName, ""), OrElse(raw.lastName, ""), OrElse(raw.email, ""),
                 OrElse(raw.phone, ""), OrElse(raw.location, ""), OrElse(raw.title, ""),
                 Some(OrElse(raw.summary, "")))
  }

  /** Typed details come back unchanged, except that a null summary becomes "". */
  lemma ResetKeepsTypedInfo(p: PersonalInfo)
    ensures ResetPersonalInfo(RawOfPersonalInfo(p)) == p.(summary := Some(OrElse(p.summary, "")))
  { }

  /** `list.length > 0 ? list : [blank]`. */
  function NonEmptyOr<T>(s: seq<T>, blank: T): (r: seq<T>)
    ensures |r| >= 1
    ensures |s| > 0 ==> r == s
    ensures |s| == 0 ==> r == [blank]
  {
    if |s| > 0 then s else [blank]
  }

  /** The values `form.reset` receives for a stored resume. */
  function EditValues(r: Resume): (f: ResumeForm)
    ensures ListsNonEmpty(f)
    ensures f.title == r.title && f.templateId == r.templateId
    ensures f.personalInfo == ResetPersonalInfo(RawOfPersonalInfo(r.personalInfo))
    ensures f.personalInfo == r.personalInfo.(summary := Some(OrElse(r.personalInfo.summary, "")))
    ensures f.jobDescription == Some(OrElse(r.jobDescription, ""))
    ensures r.jobDescription.Some? ==> f.jobDescription == r.jobDescription
    ensures r.jobDescription.None? ==> f.jobDescription == Some("")
    ensures |r.experience| > 0 ==> f.experience == r.experience
    ensures |r.education| > 0 ==> f.education == r.education
    ensures |r.skills| > 0 ==> f.skills == r.skills
    ensures |r.experience| == 0 ==> f.experience == [BlankExperience]
    ensures |r.education| == 0 ==> f.education == [BlankEducation]
    ensures |r.skills| == 0 ==> f.skills == [BlankSkill]
  {
    ResumeForm(r.title, ResetPersonalInfo(RawOfPersonalInfo(r.personalInfo)),
               NonEmptyOr(r.experience, BlankExperience), NonEmptyOr(r.education, BlankEducation),
               NonEmptyOr(r.skills, BlankSkill), r.templateId, Some(OrElse(r.jobDescription, "")))
  }

  /** The reset restores a stored row's form exactly when the row has every
      list filled and a summary and job description present. */
  lemma EditValuesRoundTrip(r: Resume)
    ensures EditValues(r) == FormOf(r) <==>
            |r.experience| > 0 && |r.education| > 0 && |r.skills| > 0
            && r.personalInfo.summary.Some? && r.jobDescription.Some?
  {
    var f := EditValues(r);
    if f == FormOf(r) {
      assert f.personalInfo.summary == r.personalInfo.summary;
    }
  }

  /** Only missing values are filled in: a null summary or job description
      becomes "", and each empty list gets one blank entry. */
  lemma EditValuesFillsEmptyRow(r: Resume)
    requires r.experience == [] && r.education == [] && r.skills == []
    requires r.personalInfo.summary.None? && r.jobDescription.None?
    ensures EditValues(r) == ResumeForm(r.title, r.personalInfo.(summary := Some("")),
                                        [BlankExperience], [BlankEducation], [BlankSkill],
                                        r.templateId, Some(""))
  { }

  // ---------------------------------------------------------------------
  // Live preview

  /** An experience is previewed only with both a position and a company. */
  predicate Previewed(e: Experience) {
    e.position != "" && e.company != ""
  }

  function PreviewExperience(es: seq<Experience>): (r: seq<Experience>)
    ensures forall i :: 0 <= i < |r| ==> Previewed(r[i]) && r[i] in es
    ensures forall i :: 0 <= i < |es| ==> (es[i] in r <==> Previewed(es[i]))
  {
    Filter(Previewed, es)
  }

  /** The preview keeps the entries' order. */
  lemma PreviewExperienceAppend(a: seq<Experience>, b: seq<Experience>)
    ensures PreviewExperience(a + b) == PreviewExperience(a) + PreviewExperience(b)
  {
    FilterAppend(Previewed, a, b);
  }

  /** The preview's skill list is the form's badge list. */
  function PreviewSkills(skills: seq<string>): (r: seq<string>)
    ensures forall i :: 0 <= i < |skills| ==> (skills[i] in r <==> !IsBlank(skills[i]))
  {
    NonBlankSkills(skills)
  }

  // ---------------------------------------------------------------------
  // The page state

  class Page {
    /** The id in the route; present when editing a saved resume. */
    const editingId: Option<Id>
    var currentStep: int
    var isOptimizing: bool

    ghost predicate Valid()
      reads this
    {
      1 <= currentStep <= StepCount
    }

    constructor (editingId: Option<Id>)
      ensures Valid() && currentStep == 1 && !isOptimizing && this.editingId == editingId
    {
      this.editingId := editingId;
      currentStep := 1;
      isOptimizing := false;
    }

    method HandleNext()
      requires Valid()
      modifies this
      ensures Valid()
      ensures currentStep == NextStep(old(currentStep)) && isOptimizing == old(isOptimizing)
    {
      if currentStep < StepCount {
        currentStep := currentStep + 1;
      }
    }

    method HandlePrevious()
      requires Valid()
      modifies this
      ensures Valid()
      ensures currentStep == PreviousStep(old(currentStep)) && isOptimizing == old(isOptimizing)
    {
      if currentStep > 1 {
        currentStep := currentStep - 1;
      }
    }

    /** `handleOptimize`, reading the job description from the form. */
    method HandleOptimize(form: Form) returns (a: OptimizeAction)
      requires Valid()
      modifies this
      ensures Valid() && currentStep == old(currentStep)
      ensures a == DecideOptimize(form.values.jobDescription, editingId)
      ensures isOptimizing == (a.RequestOptimize? || old(isOptimizing))
    {
      var jobDescription := form.values.jobDescription;
      if jobDescription.None? || Trim(jobDescription.value) == "" {
        return JobDescriptionRequired;
      }
      if editingId.None? {
        return SaveFirst;
      }
      isOptimizing := true;
      a := RequestOptimize(editingId.value, jobDescription.value);
    }

    /** The optimize request finished. Success and ordinary failure clear the
        flag; an unauthorized failure only schedules the login redirect and
        returns early, leaving the flag as it was. */
    method OptimizeSettled(unauthorized: bool)
      requires Valid()
      modifies this
      ensures Valid() && currentStep == old(currentStep)
      ensures isOptimizing == (unauthorized && old(isOptimizing))
    {
      if !unauthorized {
        isOptimizing := false;
      }
    }
  }
}
