/** The resume API handlers run over the store. Every resume-scoped handler
    first checks that the resume exists and belongs to the caller, and
    answers the same 404 otherwise; then it derives the values to store from
    the request and calls the store. The caller's id comes from the
    authentication layer; the optimizer, the cover-letter writer and the PDF
    rasteriser are parameters. */
module Routes {
  import opened Wrappers
  import opened JsValues
  import opened Seqs
  import opened Schema
  import opened Storage
  import opened Database
  import opened PdfRender

  /** The optimizer's result: the rewritten resume, a score and notes. */
  datatype Optimized = Optimized(resume: ResumeForm, matchScore: int, optimizations: seq<string>)

  /** `generateResumeContent(form, jobDescription)`; None when it throws. */
  type Optimizer = (ResumeForm, string) -> Option<Optimized>
  /** `generateCoverLetter(resume, jobDescription, tone)`; None when it throws. */
  type LetterWriter = (Resume, string, string) -> Option<string>
  /** The headless-browser step of `generateResumePDF`; None when it throws. */
  type Rasteriser = string -> Option<seq<bv8>>

  datatype Body =
    | Message(text: string)
    | ResumeJson(resume: Resume)
    | ResumeListJson(resumes: seq<Resume>)
    | LetterJson(letter: Option<CoverLetter>)
    | Pdf(filename: string, bytes: seq<bv8>)
    | Optimization(updated: Resume, matchScore: int, optimizations: seq<string>)

  datatype Response = Response(status: int, body: Body)

  const NotFound: Response := Response(404, Message("Resume not found"))
  const InvalidResume: Response := Response(400, Message("Invalid resume data"))
  const JobRequired: Response := Response(400, Message("Job description is required"))

  // ---------------------------------------------------------------------
  // The ownership guard

  /** A row with this id owned by this user, if any; absent and foreign rows
      are indistinguishable. */
  function OwnedResume(resumes: seq<Resume>, userId: Id, id: Id): (r: Option<Resume>)
    requires DistinctBy(resumes, ResumeIdOf)
    ensures r.Some? <==> exists i :: 0 <= i < |resumes| && resumes[i].id == id && resumes[i].userId == userId
    ensures r.Some? ==> r.value in resumes && r.value.id == id && r.value.userId == userId
  {
    var f := FindResume(resumes, id);
    assert forall i :: 0 <= i < |resumes| && resumes[i].id == id ==> f == Some(resumes[i]) by {
      forall i | 0 <= i < |resumes| && resumes[i].id == id ensures f == Some(resumes[i]) {
        FindResumeUnique(resumes, i);
      }
    }
    if f.Some? && f.value.userId == userId then f else None
  }

  /** Two rows of a table with a primary key that share an id are the same row. */
  lemma SameIdSameRow(resumes: seq<Resume>, x: Resume, y: Resume)
    requires DistinctBy(resumes, ResumeIdOf) && x in resumes && y in resumes && x.id == y.id
    ensures x == y
  {
    var i :| 0 <= i < |resumes| && resumes[i] == x;
    var j :| 0 <= j < |resumes| && resumes[j] == y;
    assert ResumeIdOf(resumes[i]) == ResumeIdOf(resumes[j]);
  }

  /** The guard's answer depends only on the caller's own rows: other
      users' resumes cannot be observed through it. */
  lemma {:induction false} GuardSeesOnlyOwnRows(resumes: seq<Resume>, userId: Id, id: Id)
    requires DistinctBy(resumes, ResumeIdOf)
    ensures DistinctBy(Filter(OwnedBy(userId), resumes), ResumeIdOf)
    ensures OwnedResume(resumes, userId, id) == OwnedResume(Filter(OwnedBy(userId), resumes), userId, id)
  {
    var own := Filter(OwnedBy(userId), resumes);
    FilterKeepsDistinct(OwnedBy(userId), resumes, ResumeIdOf);
    var a, b := OwnedResume(resumes, userId, id), OwnedResume(own, userId, id);
    if a.Some? {
      var i :| 0 <= i < |resumes| && resumes[i] == a.value;
      assert OwnedBy(userId)(resumes[i]);
      assert a.value in own;
      var j :| 0 <= j < |own| && own[j] == a.value;
      assert b.Some?;
    }
    if b.Some? {
      assert b.value in resumes;
      var i :| 0 <= i < |resumes| && resumes[i] == b.value;
      assert a.Some?;
      SameIdSameRow(resumes, a.value, b.value);
    }
  }

  // ---------------------------------------------------------------------
  // Derivations

  /** The insert `POST /api/resumes` makes from the content to store: the
      summary comes from `personalInfo.summary`, the tier is never premium. */
  function InsertOf(userId: Id, content: ResumeForm, jobDescription: Option<string>, score: int)
    : InsertResume
  {
    InsertResume(userId, content.title, content.personalInfo, content.experience, content.education,
                 content.skills, content.personalInfo.summary, Some(content.templateId), jobDescription,
                 Some(score), Some(false))
  }

  /** The insert for a parsed create request; None when the optimizer throws.
      The optimizer runs only for a truthy job description. */
  function CreateInsert(userId: Id, data: ResumeForm, optimize: Optimizer): Option<InsertResume> {
    if Truthy(data.jobDescription) then
      match optimize(data, data.jobDescription.value)
      case None => None
      case Some(o) => Some(InsertOf(userId, o.resume, data.jobDescription, o.matchScore))
    else Some(InsertOf(userId, data, data.jobDescription, 0))
  }

  /** Without a truthy job description the optimizer is not consulted and
      the stored row reads back as exactly the submitted form, scored 0. */
  lemma CreateWithoutJobIsVerbatim(userId: Id, data: ResumeForm, optimize: Optimizer, other: Optimizer,
                                   id: Id, now: nat)
    requires !Truthy(data.jobDescription)
    ensures CreateInsert(userId, data, optimize) == CreateInsert(userId, data, other)
    ensures CreateInsert(userId, data, optimize).Some?
    ensures var row := NewResumeRow(CreateInsert(userId, data, optimize).value, id, now);
            FormOf(row) == data && row.userId == userId && row.matchScore == Some(0)
            && row.summary == data.personalInfo.summary && !row.isPremium
  { }

  /** With a truthy job description the row holds the optimizer's resume and
      score, and the request's job description. */
  lemma CreateWithJobStoresOptimized(userId: Id, data: ResumeForm, optimize: Optimizer, id: Id, now: nat)
    requires Truthy(data.jobDescription)
    ensures var o := optimize(data, data.jobDescription.value);
            var ins := CreateInsert(userId, data, optimize);
            (ins.Some? <==> o.Some?)
            && (o.Some? ==>
                  var row := NewResumeRow(ins.value, id, now);
                  FormOf(row) == o.value.resume.(jobDescription := data.jobDescription)
                  && row.matchScore == Some(o.value.matchScore)
                  && row.summary == o.value.resume.personalInfo.summary && !row.isPremium)
  { }

  /** The patch `PUT /api/resumes/:id` applies: the supplied form fields, and
      the summary re-derived from the supplied `personalInfo`. */
  function UpdatePatch(u: PartialForm): (p: ResumePatch)
    ensures p.summary == if u.personalInfo.Some? then u.personalInfo.value.summary else None
    ensures p.matchScore.None?
  {
    ResumePatch(u.title, u.personalInfo, u.experience, u.education, u.skills,
                if u.personalInfo.Some? then u.personalInfo.value.summary else None,
                u.templateId, u.jobDescription, None)
  }

  /** Updating with a whole form stores that form (the job description is
      kept when the form has none) and re-derives the summary. */
  lemma FullUpdateStoresForm(r: Resume, f: ResumeForm, now: nat)
    ensures var r' := Patched(r, UpdatePatch(PartialOf(f)), now);
            FormOf(r') == f.(jobDescription := if f.jobDescription.Some? then f.jobDescription
                                               else r.jobDescription)
            && r'.summary == (if f.personalInfo.summary.Some? then f.personalInfo.summary else r.summary)
            && r'.matchScore == r.matchScore && r'.isPremium == r.isPremium
            && r'.id == r.id && r'.userId == r.userId && r'.createdAt == r.createdAt
  { }

  /** The form sent to the optimizer: the stored resume with the request's
      job description. */
  function OptimizeInput(r: Resume, jobDescription: string): ResumeForm {
    FormOf(r).(jobDescription := Some(jobDescription))
  }

  /** The single update a successful optimize makes. */
  function OptimizePatch(o: Optimized, jobDescription: string): ResumePatch {
    ResumePatch(None, Some(o.resume.personalInfo), Some(o.resume.experience), Some(o.resume.education),
                Some(o.resume.skills), o.resume.personalInfo.summary, None, Some(jobDescription),
                Some(o.matchScore))
  }

  /** Optimizing rewrites the content, job description and score but keeps
      the title, the template and the tier. */
  lemma OptimizeKeepsTitleAndTemplate(r: Resume, o: Optimized, jobDescription: string, now: nat)
    ensures var r' := Patched(r, OptimizePatch(o, jobDescription), now);
            r'.title == r.title && r'.templateId == r.templateId && r'.isPremium == r.isPremium
            && r'.personalInfo == o.resume.personalInfo && r'.experience == o.resume.experience
            && r'.education == o.resume.education && r'.skills == o.resume.skills
            && r'.jobDescription == Some(jobDescription) && r'.matchScore == Some(o.matchScore)
            && r'.summary == (if o.resume.personalInfo.summary.Some? then o.resume.personalInfo.summary
                              else r.summary)
  { }

  /** The body of `POST /api/resumes/:id/cover-letter`. */
  datatype LetterRequest = LetterRequest(tone: Option<string>, jobDescription: Option<string>)

  /** `const { tone = "professional" } = req.body`: the default applies only
      when the key is absent. */
  function LetterTone(req: LetterRequest): (t: string)
    ensures req.tone.None? ==> t == DefaultTone
    ensures req.tone.Some? ==> t == req.tone.value
  {
    req.tone.GetOr(DefaultTone)
  }

  /** `jobDescription || resume.jobDescription || ""`. */
  function GenerationJob(req: LetterRequest, r: Resume): string {
    OrElse(Or(req.jobDescription, r.jobDescription), "")
  }

  /** `jobDescription || resume.jobDescription`. */
  function SnapshotJob(req: LetterRequest, r: Resume): Option<string> {
    Or(req.jobDescription, r.jobDescription)
  }

  /** The job description the letter is written for and the one stored with
      it agree whenever the stored one is truthy; otherwise the letter was
      written for "". The request's value wins over the resume's. */
  lemma LetterJobAgreement(req: LetterRequest, r: Resume)
    ensures Truthy(SnapshotJob(req, r)) <==> GenerationJob(req, r) != ""
    ensures Truthy(SnapshotJob(req, r)) ==> SnapshotJob(req, r).value == GenerationJob(req, r)
    ensures Truthy(req.jobDescription) ==> GenerationJob(req, r) == req.jobDescription.value
    ensures !Truthy(req.jobDescription) ==> SnapshotJob(req, r) == r.jobDescription
  { }

  /** An explicit empty tone is kept, not defaulted. */
  lemma EmptyToneIsKept()
    ensures LetterTone(LetterRequest(Some(""), None)) == ""
    ensures LetterTone(LetterRequest(None, None)) == "professional"
  { }

  // ---------------------------------------------------------------------
  // Handlers

  /** `POST /api/resumes`. */
  method PostResume(store: Store, userId: Id, body: RawResumeForm, isEmail: string -> bool,
                    optimize: Optimizer) returns (res: Response)
    requires store.Valid()
    modifies store
    ensures store.Valid()
    ensures ParseResumeForm(body, isEmail).None? ==> res == InvalidResume && unchanged(store)
    ensures ParseResumeForm(body, isEmail).Some? ==>
              var ins := CreateInsert(userId, ParseResumeForm(body, isEmail).value, optimize);
              if ins.None? || userId !in UserIds(old(store.users)) then
                res == Response(500, Message("Failed to create resume")) && unchanged(store)
              else
                var row := NewResumeRow(ins.value, old(store.nextId), store.clock);
                res == Response(200, ResumeJson(row)) && store.resumes == old(store.resumes) + [row]
                && FindResume(store.resumes, row.id) == Some(row)
                && store.users == old(store.users) && store.coverLetters == old(store.coverLetters)
  {
    var parsed := ParseResumeForm(body, isEmail);
    if parsed.None? {
      return InvalidResume;
    }
    var ins := CreateInsert(userId, parsed.value, optimize);
    if ins.None? {
      return Response(500, Message("Failed to create resume"));
    }
    var created := store.CreateResume(ins.value);
    if created.None? {
      return Response(500, Message("Failed to create resume"));
    }
    res := Response(200, ResumeJson(created.value));
  }

  /** `GET /api/resumes`. */
  method ListResumes(store: Store, userId: Id) returns (res: Response)
    requires store.Valid()
    ensures res.status == 200 && res.body.ResumeListJson?
    ensures forall x :: x in res.body.resumes <==> x in store.resumes && x.userId == userId
    ensures SortedByUpdatedDesc(res.body.resumes)
    ensures res.body.resumes == UserResumes(store.resumes, userId)
  {
    var rs := store.GetUserResumes(userId);
    res := Response(200, ResumeListJson(rs));
  }

  /** `GET /api/resumes/:id`. */
  method GetResume(store: Store, userId: Id, id: Id) returns (res: Response)
    requires store.Valid()
    ensures var g := OwnedResume(store.resumes, userId, id);
            res == if g.Some? then Response(200, ResumeJson(g.value)) else NotFound
  {
    var found := store.GetResume(id);
    if found.None? || found.value.userId != userId {
      return NotFound;
    }
    res := Response(200, ResumeJson(found.value));
  }

  /** `PUT /api/resumes/:id`. An invalid payload reaches the generic 500. */
  method PutResume(store: Store, userId: Id, id: Id, body: RawResumeForm, isEmail: string -> bool)
    returns (res: Response)
    requires store.Valid()
    modifies store
    ensures store.Valid()
    ensures var g := OwnedResume(old(store.resumes), userId, id);
            var u := ParsePartialForm(body, isEmail);
            if g.None? then res == NotFound && unchanged(store)
            else if u.None? then res == Response(500, Message("Failed to update resume")) && unchanged(store)
            else
              var row := Patched(g.value, UpdatePatch(u.value), store.clock);
              res == Response(200, ResumeJson(row)) && store.clock == old(store.clock) + 1
              && store.resumes == old(store.resumes)[ResumeIndex(old(store.resumes), id) := row]
              && store.users == old(store.users) && store.coverLetters == old(store.coverLetters)
  {
    var found := store.GetResume(id);
    if found.None? || found.value.userId != userId {
      return NotFound;
    }
    var u := ParsePartialForm(body, isEmail);
    if u.None? {
      return Response(500, Message("Failed to update resume"));
    }
    var updated := store.UpdateResume(id, UpdatePatch(u.value));
    res := Response(200, ResumeJson(updated.value));
  }

  /** `DELETE /api/resumes/:id`; the resume's cover letters go with it. */
  method DeleteResume(store: Store, userId: Id, id: Id) returns (res: Response)
    requires store.Valid()
    modifies store
    ensures store.Valid()
    ensures OwnedResume(old(store.resumes), userId, id).None? ==> res == NotFound && unchanged(store)
    ensures OwnedResume(old(store.resumes), userId, id).Some? ==>
              res == Response(200, Message("Resume deleted successfully"))
              && store.resumes == Filter(KeepResume(id), old(store.resumes))
              && store.coverLetters == Filter(KeepLettersOf(id), old(store.coverLetters))
              && store.users == old(store.users)
  {
    var found := store.GetResume(id);
    if found.None? || found.value.userId != userId {
      return NotFound;
    }
    store.DeleteResume(id);
    res := Response(200, Message("Resume deleted successfully"));
  }

  /** `POST /api/resumes/:id/cover-letter`. */
  method PostCoverLetter(store: Store, userId: Id, id: Id, req: LetterRequest, write: LetterWriter)
    returns (res: Response)
    requires store.Valid()
    modifies store
    ensures store.Valid()
    ensures var g := OwnedResume(old(store.resumes), userId, id);
            if g.None? then res == NotFound && unchanged(store)
            else
              var content := write(g.value, GenerationJob(req, g.value), LetterTone(req));
              if content.None? then
                res == Response(500, Message("Failed to generate cover letter")) && unchanged(store)
              else
                var ins := InsertCoverLetter(id, content.value, Some(LetterTone(req)), SnapshotJob(req, g.value));
                var row := NewCoverLetterRow(ins, old(store.nextId), store.clock);
                res == Response(200, LetterJson(Some(row)))
                && store.coverLetters == old(store.coverLetters) + [row]
                && LatestLetter(store.coverLetters, id) == Some(row)
                && store.resumes == old(store.resumes) && store.users == old(store.users)
  {
    var found := store.GetResume(id);
    if found.None? || found.value.userId != userId {
      return NotFound;
    }
    var tone := LetterTone(req);
    var content := write(found.value, GenerationJob(req, found.value), tone);
    if content.None? {
      return Response(500, Message("Failed to generate cover letter"));
    }
    var letter := store.CreateCoverLetter(
      InsertCoverLetter(id, content.value, Some(tone), SnapshotJob(req, found.value)));
    res := Response(200, LetterJson(letter));
  }

  /** `GET /api/resumes/:id/cover-letter`: the most recent letter, or none. */
  method GetCoverLetter(store: Store, userId: Id, id: Id) returns (res: Response)
    requires store.Valid()
    ensures OwnedResume(store.resumes, userId, id).None? ==> res == NotFound
    ensures OwnedResume(store.resumes, userId, id).Some? ==>
              res == Response(200, LetterJson(LatestLetter(store.coverLetters, id)))
  {
    var found := store.GetResume(id);
    if found.None? || found.value.userId != userId {
      return NotFound;
    }
    var letter := store.GetCoverLetter(id);
    res := Response(200, LetterJson(letter));
  }

  /** `GET /api/resumes/:id/pdf`: the rendered document, named after the title. */
  method GetPdf(store: Store, userId: Id, id: Id, rasterise: Rasteriser) returns (res: Response)
    requires store.Valid()
    ensures var g := OwnedResume(store.resumes, userId, id);
            if g.None? then res == NotFound
            else if rasterise(ResumeHtml(g.value)).None? then
              res == Response(500, Message("Failed to generate PDF"))
            else res == Response(200, Pdf(g.value.title + ".pdf", rasterise(ResumeHtml(g.value)).value))
  {
    var found := store.GetResume(id);
    if found.None? || found.value.userId != userId {
      return NotFound;
    }
    var pdf := rasterise(ResumeHtml(found.value));
    if pdf.None? {
      return Response(500, Message("Failed to generate PDF"));
    }
    res := Response(200, Pdf(found.value.title + ".pdf", pdf.value));
  }

  /** `POST /api/resumes/:id/optimize`: ownership first, then a truthy job
      description, then one update. */
  method PostOptimize(store: Store, userId: Id, id: Id, jobDescription: Option<string>,
                      optimize: Optimizer) returns (res: Response)
    requires store.Valid()
    modifies store
    ensures store.Valid()
    ensures var g := OwnedResume(old(store.resumes), userId, id);
            if g.None? then res == NotFound && unchanged(store)
            else if !Truthy(jobDescription) then res == JobRequired && unchanged(store)
            else
              var o := optimize(OptimizeInput(g.value, jobDescription.value), jobDescription.value);
              if o.None? then res == Response(500, Message("Failed to optimize resume")) && unchanged(store)
              else
                var row := Patched(g.value, OptimizePatch(o.value, jobDescription.value), store.clock);
                res == Response(200, Optimization(row, o.value.matchScore, o.value.optimizations))
                && store.resumes == old(store.resumes)[ResumeIndex(old(store.resumes), id) := row]
                && store.coverLetters == old(store.coverLetters) && store.users == old(store.users)
  {
    var found := store.GetResume(id);
    if found.None? || found.value.userId != userId {
      return NotFound;
    }
    if !Truthy(jobDescription) {
      return JobRequired;
    }
    var jd := jobDescription.value;
    var o := optimize(OptimizeInput(found.value, jd), jd);
    if o.None? {
      return Response(500, Message("Failed to optimize resume"));
    }
    var updated := store.UpdateResume(id, OptimizePatch(o.value, jd));
    res := Response(200, Optimization(updated.value, o.value.matchScore, o.value.optimizations));
  }
}
