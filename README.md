# SmartResume core, modelled in Dafny

SmartResume is a resume builder. A React client edits a resume form in four
steps. An Express server validates the form and stores resumes and cover
letters in Postgres. A language model optimizes a resume for a job
description, and a headless browser renders it to PDF. This project models
the parts of the system that follow fixed rules and proves properties about
them:

- **Form validation** (`Schema`): the zod schemas as parse functions from raw
  payloads to typed records. It also holds the stored row types, their column
  defaults, and the partial update that `.set()` performs.
- **Storage** (`Storage`, `Database.Store`): `Storage` states the queries
  and the database invariants on row sequences; `Database.Store` is a class
  whose fields hold the three tables as row sequences, plus a clock and an id
  counter. Its methods insert, look up,
  filter and sort, patch, and delete with cascade. Every method keeps the
  database invariants: primary keys, the unique email, foreign keys, and
  timestamps no later than the clock.
- **Request handlers** (`Routes`): one method per route, run over the store.
  Each handles the ownership guard (the same 404 for absent and foreign
  resumes), the 400/500 classification, the `tone` and `jobDescription`
  defaults, and the summary derivation. Each handler's `ensures` states the
  response and the new state of the store.
- **AI post-processing** (`AiResults`, `Gemini`, `OpenAi`): greedy JSON
  extraction, score clamping with falsy defaults, fallback chains, and one
  fixed error per call.
- **HTML rendering** (`PdfRender`): the document `generateResumeHTML` builds,
  as a list of template fragments. The rendering lemmas are stated for any
  style sheet; the template's own is `PdfRender.BaseCss`.
- **Client** (`FormEditor.Form`, `Builder`, `Dashboard`):
  - the form's list editors, which never shrink a list below one entry;
  - the builder's step machine and optimize guards;
  - the values the form is reset to when an existing resume is edited;
  - the dashboard's counts, rounded average and display thresholds.

Collaborators outside the core are passed in as parameters:

| parameter | stands for |
|---|---|
| `isEmail` | zod's email check |
| `parse` | `JSON.parse` |
| `Optimizer` | the optimizer |
| `LetterWriter` | the cover-letter writer |
| `Rasteriser` | the headless-browser step |

Each of these returns `None` where the original throws. Ids are naturals
drawn from a counter. Timestamps come from a clock that ticks on every write.

Where the prose description of the system and the code disagree, the model
follows the code:

- The JSON taken from a Gemini reply is not "the first balanced object". It
  is the greedy match `\{[\s\S]*\}`, which runs from the first `{` to the last
  `}` of the text (`Gemini.GreedySpansBothObjects`).
- An update whose payload fails validation answers 500, not 400
  (`Routes.PutResume`).

## Model

| member | source | states |
|---|---|---|
| Schema.ParsePersonalInfo | shared/schema.ts:92-100 | an accepted object has non-empty names, phone, location and title and a valid email; the summary is kept as sent |
| Schema.ParseExperience | shared/schema.ts:102-109 | an accepted entry has non-empty position, company, start date and description; `current` is false when absent |
| Schema.ParseEducation | shared/schema.ts:111-116 | an accepted entry has non-empty degree, school and graduation date; the GPA is kept as sent |
| Schema.ParseExperienceList | shared/schema.ts:121 | the list parses iff every entry does, entry by entry and in order |
| Schema.ParseEducationList | shared/schema.ts:122 | the list parses iff every entry does, entry by entry and in order |
| Schema.ParseResumeForm | shared/schema.ts:118-126 | every accepted form satisfies `ValidResumeForm`: non-empty title and template, valid personal info, at least one experience, education and skill |
| Schema.ParseRoundTrip | shared/schema.ts:118-126 | parsing the JSON of a typed form returns that form iff it is valid; nothing is trimmed or rewritten |
| Schema.CurrentDefaultsToFalse | shared/schema.ts:107 | an entry without `current` parses with `current == false` |
| Schema.WhitespaceIsAccepted | shared/schema.ts:119-124 | `min(1)` is length-only: a whitespace title and template pass |
| Schema.ParsePartialForm | shared/schema.ts:118-126 | the partial schema accepts absent fields; every present field satisfies the full schema's rule |
| Schema.FullFormIsPartialForm | shared/schema.ts:118-126 | a payload the full schema accepts is accepted by the partial one with every field present |
| Schema.EmptyPartialForm | shared/schema.ts:118-126 | the empty payload is a valid partial update that supplies nothing |
| Schema.NewResumeRow | shared/schema.ts:39-54 | an insert takes template "modern" and non-premium when absent; created and updated times are now |
| Schema.NewCoverLetterRow | shared/schema.ts:56-63 | an insert takes tone "professional" when absent |
| Schema.PatchComposes | server/storage.ts:84-91 | two successive updates equal one update with the later value winning field by field |
| Schema.EmptyPatchTouchesOnly | server/storage.ts:84-91 | an update with no fields only refreshes `updatedAt` |
| Storage.FindResumeUnique | server/storage.ts:68-74 | with a primary key, looking up a row's id finds that row |
| Storage.SortByUpdatedDesc | server/storage.ts:76-82 | the result is ordered by `updatedAt`, newest first |
| Storage.SortByUpdatedDescPermutes | server/storage.ts:76-82 | sorting is a permutation of its input |
| Storage.UserResumesExact | server/storage.ts:76-82 | a user's list holds exactly the rows with that `userId`, each once, newest first |
| Storage.LatestLetter | server/storage.ts:106-113 | none iff the resume has no letter; otherwise a letter of that resume created no earlier than any other |
| Storage.LatestLetterUnique | server/storage.ts:106-113 | with distinct creation times the latest letter is the only candidate |
| Schema.Supplied | server/storage.ts:50-53 | a key present in the payload (a value or null) overwrites the column; an absent key keeps the current value |
| Storage.UpsertKeepsUsersOk | server/storage.ts:44-57 | an upsert keeps one row per id and unique emails and adds exactly the upserted id; a new row takes the supplied fields (absent ones null) with `createdAt` and `updatedAt` the new time; an existing row keeps `createdAt` and every absent field, takes every present one (null included), and gets the new `updatedAt` |
| Storage.UpsertKeepsConsistent | server/storage.ts:44-57 | an upsert that passes the unique email check keeps every database invariant and leaves the upserted id present |
| Storage.PatchKeepsConsistent | server/storage.ts:84-91 | rewriting one resume in place with its id and owner kept and a later `updatedAt` keeps every database invariant and the set of resume ids |
| Storage.DeleteUserKeepsConsistent | shared/schema.ts:41 | removing a user with its resumes and their letters keeps every database invariant |
| Storage.DeleteResumeKeepsConsistent | server/storage.ts:93-95 | removing a resume with exactly its cover letters keeps every database invariant |
| Storage.AppendLetterOk | server/storage.ts:98-104 | a letter with a fresh id, a later timestamp and an existing resume keeps the letter table's invariants and becomes its resume's latest |
| Database.Store.constructor | shared/schema.ts:29-63 | the store starts with three empty tables and satisfies every database invariant |
| Database.Store.GetUser | server/storage.ts:39-42 | the user with that id, if any |
| Database.Store.UpsertUser | server/storage.ts:44-57 | inserts a new id, or overwrites the present keys of the payload and `updatedAt` of the existing row while absent keys keep their value; fails unchanged on an email held by another user |
| Database.Store.WriteUpsert | server/storage.ts:45-55 | once the email check has passed, the user table becomes the upsert of the payload at the next time, the id is present, and the other tables are untouched |
| Database.Store.CreateResume | server/storage.ts:60-66 | appends exactly one row with a fresh id and the column defaults, which a lookup of that id then finds; fails unchanged for an unknown user |
| Database.Store.GetResume | server/storage.ts:68-74 | the row with that id, if any |
| Database.Store.GetUserResumes | server/storage.ts:76-82 | exactly the user's rows, newest first |
| Database.Store.UpdateResume | server/storage.ts:84-91 | only the matching row changes: supplied fields overwritten, `updatedAt` set to now; other tables untouched |
| Database.Store.DeleteResume | server/storage.ts:93-95 | removes the row and, by cascade, exactly its cover letters |
| Database.Store.DeleteUser | shared/schema.ts:41 | removes the user, its resumes, and their cover letters |
| Database.Store.CreateCoverLetter | server/storage.ts:98-104 | appends one letter with a fresh id, which becomes the resume's latest letter; fails unchanged for an unknown resume |
| Database.Store.GetCoverLetter | server/storage.ts:106-113 | the resume's most recently created letter, or none |
| Database.Store.UpdateCoverLetter | server/storage.ts:115-122 | only `content` of the matching letter changes |
| Routes.OwnedResume | server/routes.ts:86-90 | found iff a row with that id belongs to the caller; absent and foreign rows give the same answer |
| Routes.SameIdSameRow | server/routes.ts:86-90 | with a primary key, two rows with the same id are the same row, so the guard's answer is well defined |
| Routes.GuardSeesOnlyOwnRows | server/routes.ts:86-90 | the guard's answer is the same over the caller's own rows alone: other users' rows are unobservable |
| Routes.CreateWithoutJobIsVerbatim | server/routes.ts:37-59 | without a truthy job description the stored row is the submitted form, score 0, summary from `personalInfo`, not premium |
| Routes.CreateWithJobStoresOptimized | server/routes.ts:40-59 | with one, the row holds the optimizer's resume and score and the request's job description |
| Routes.UpdatePatch | server/routes.ts:108-116 | the update re-derives `summary` from the payload's `personalInfo` and never touches the score |
| Routes.FullUpdateStoresForm | server/routes.ts:108-116 | updating with a whole form stores that form and keeps id, owner, creation time, score and tier |
| Routes.OptimizeKeepsTitleAndTemplate | server/routes.ts:239-247 | optimize rewrites content, summary, job description and score; title, template and tier are kept |
| Routes.LetterTone | server/routes.ts:152 | the tone is "professional" only when the key is absent |
| Routes.LetterJobAgreement | server/routes.ts:152-165 | the letter is written for the request's job description, else the stored one, else ""; the snapshot agrees whenever it is truthy |
| Routes.EmptyToneIsKept | server/routes.ts:152 | an explicit empty tone is kept, not defaulted |
| Routes.PostResume | server/routes.ts:32-70 | 400 on an invalid payload, 500 on optimizer failure, otherwise exactly one row appended and returned, with users and cover letters unchanged |
| Routes.ListResumes | server/routes.ts:72-81 | 200 with exactly the caller's resumes, newest first, equal to the storage listing for that user |
| Routes.GetResume | server/routes.ts:83-97 | the caller's own resume, or the 404 |
| Routes.PutResume | server/routes.ts:99-123 | 404 before anything else; an invalid payload gives 500 with no change; otherwise one row patched |
| Routes.DeleteResume | server/routes.ts:125-140 | 404 with no change, or the resume and its letters removed |
| Routes.PostCoverLetter | server/routes.ts:143-172 | 404, 500 on generation failure, or one letter stored that becomes the latest, with resumes and users unchanged |
| Routes.GetCoverLetter | server/routes.ts:174-189 | 404 or the latest letter of the caller's resume |
| Routes.GetPdf | server/routes.ts:192-210 | 404, 500 on rendering failure, or the rendering of the resume's HTML named `title.pdf` |
| Routes.PostOptimize | server/routes.ts:213-258 | 404 first, then 400 with no change for a falsy job description, 500 on optimizer failure, else one update of that resume with cover letters and users unchanged |
| AiResults.ClampScore | server/services/ai.ts:92 | the score is in [0,100]; in-range truthy values are kept; a falsy value takes the fallback |
| AiResults.NormalizeAnalysis | server/services/ai.ts:91-97 | the match score is the reply's truthy score clamped to [0,100], else 0; the summary falls back to the input summary, then ""; experience to the input; skills to []; feedback is the reply's truthy feedback, else "Analysis completed successfully." |
| AiResults.NormalizeInsights | server/services/ai.ts:197-202 | each score is the reply's truthy value clamped to [0,100], else its default (strengths 75, weaknesses 25, overall 75); suggestions default to [] |
| AiResults.WellFormedAnalysisKept | server/services/ai.ts:91-97 | a reply with every field present, truthy and in range passes unchanged |
| AiResults.NormalizeAnalysisIdempotent | server/services/ai.ts:91-97 | normalising a normalised result again changes nothing |
| AiResults.EmptyAnalysisDefaults | server/services/ai.ts:91-97 | an empty reply yields score 0, the input summary, the input experience, no skills and the fixed feedback |
| AiResults.ZeroInsightScoresBecomeDefaults | server/services/ai.ts:198-201 | a provider 0 is falsy and becomes 75, 25 and 75 |
| AiResults.WellFormedInsightsKept | server/services/ai.ts:197-202 | scores in (0,100] pass unchanged |
| Gemini.FirstIndexOf | server/services/ai.ts:84 | the first occurrence of the character, or -1 when there is none |
| Gemini.LastIndexOf | server/services/ai.ts:84 | the last occurrence of the character, or -1 when there is none |
| Gemini.ExtractJson | server/services/ai.ts:84-87 | a match exists iff some `{` precedes some `}` |
| Gemini.ExtractJsonSpan | server/services/ai.ts:84 | the match runs from the first `{` to the last `}` inclusive |
| Gemini.GreedySpansBothObjects | server/services/ai.ts:84 | on `a{x}b{y}c` the match is `{x}b{y}`, not the first object |
| Gemini.AnalyzeJob | server/services/ai.ts:38-102 | succeeds iff a reply came, a span was found and parsed; the result is the normalised reply; every failure is the one fixed error |
| Gemini.AnalyzeNeedsBraces | server/services/ai.ts:84-87 | a reply with no `{` before a `}` fails, whatever the parser |
| Gemini.GenerateCoverLetter | server/services/ai.ts:104-143 | the model's text verbatim, or the fixed error |
| Gemini.GenerateInsights | server/services/ai.ts:145-207 | succeeds iff a span was found and parsed; the result is the normalised reply; failures are the fixed error |
| OpenAi.ParsedContent | server/services/openai.ts:88 | empty or null content is parsed as `{}` |
| OpenAi.AnalyzeJob | server/services/openai.ts:39-101 | succeeds iff the content parses; the result is the normalised reply with score in [0,100]; failures are the fixed error |
| OpenAi.EmptyContentAnalysisDefaults | server/services/openai.ts:88-96 | empty content yields every default |
| OpenAi.GenerateCoverLetter | server/services/openai.ts:103-145 | empty or null content gives "" rather than an error; only a failed call is an error |
| OpenAi.GenerateInsights | server/services/openai.ts:147-207 | succeeds iff the content parses; the result is the normalised reply; failures are the fixed error |
| OpenAi.EmptyContentInsightsDefaults | server/services/openai.ts:195-202 | empty content yields 75, 25, no suggestions, 75 |
| PdfRender.DateLine | server/services/pdf.ts:206 | "start - Present" when current or when the end date is empty, else "start - end" |
| PdfRender.WatermarkOnlyDifference | server/services/pdf.ts:161-231 | the free rendering is the premium one plus exactly the watermark style rule and the watermark element |
| PdfRender.SummaryOnlyWhenTruthy | server/services/pdf.ts:193-198 | the summary section appears iff the summary is truthy, and it is all the summary contributes |
| PdfRender.GpaOnlyWhenTruthy | server/services/pdf.ts:219 | an education entry has a GPA line iff its GPA is truthy |
| PdfRender.SectionsInStoredOrder | server/services/pdf.ts:200-229 | experience, education and skills render one block per element in stored order, inside fixed surrounding text |
| PdfRender.TitleVerbatim | server/services/pdf.ts:179 | the title is interpolated verbatim, without escaping |
| PdfRender.OnlyRenderedFieldsMatter | server/services/pdf.ts:44-50 | the template id, job description, score, id and timestamps do not affect the document |
| FormEditor.RemoveIfMany | client/src/components/resume-form.tsx:35-40 | a list of two or more loses exactly the entry at an in-range index; otherwise nothing changes; never below one entry |
| FormEditor.RemoveUndoesAppend | client/src/components/resume-form.tsx:20-40 | removing the entry just appended restores a non-empty list |
| FormEditor.RemoveKeepsLastEntry | client/src/components/resume-form.tsx:67-72 | on a one-entry list every removal is refused |
| FormEditor.NonBlankSkills | client/src/components/resume-form.tsx:393-399 | a skill is shown iff it is not all whitespace |
| FormEditor.NonBlankSkillsAppend | client/src/components/resume-form.tsx:393-399 | the badge filter keeps the order of the skills |
| FormEditor.AllFilledSkillsShown | client/src/components/resume-form.tsx:393-399 | with no blank skill, the badges are the skills |
| FormEditor.Form.constructor | client/src/pages/resume-builder.tsx:63-96 | the form starts with the given default values |
| FormEditor.Form.Reset | client/src/pages/resume-builder.tsx:104-131 | the form holds exactly the reset values |
| FormEditor.Form.AddExperience | client/src/components/resume-form.tsx:20-33 | appends one blank, not-current entry; everything else unchanged |
| FormEditor.Form.RemoveExperience | client/src/components/resume-form.tsx:35-40 | the experience list becomes `RemoveIfMany` of itself; everything else unchanged |
| FormEditor.Form.AddEducation | client/src/components/resume-form.tsx:42-53 | appends one blank entry; everything else unchanged |
| FormEditor.Form.RemoveEducation | client/src/components/resume-form.tsx:55-60 | the education list becomes `RemoveIfMany` of itself; everything else unchanged |
| FormEditor.Form.AddSkill | client/src/components/resume-form.tsx:62-65 | appends one empty skill; everything else unchanged |
| FormEditor.Form.RemoveSkill | client/src/components/resume-form.tsx:67-72 | the skill list becomes `RemoveIfMany` of itself; everything else unchanged |
| FormEditor.Form.UpdateSkill | client/src/components/resume-form.tsx:74-79 | only slot `index` changes; the length and the other slots are kept |
| FormEditor.Form.Badges | client/src/components/resume-form.tsx:393-399 | the badges of the current skill list |
| Builder.DefaultValuesHaveOneOfEach | client/src/pages/resume-builder.tsx:63-96 | a new form has one blank experience, one blank education, one empty skill and template "modern" |
| Builder.NextStep | client/src/pages/resume-builder.tsx:270-274 | forward one step below 4, else stay; stays within 1..4 |
| Builder.PreviousStep | client/src/pages/resume-builder.tsx:276-280 | back one step above 1, else stay; stays within 1..4 |
| Builder.PreviousUndoesNext | client/src/pages/resume-builder.tsx:270-280 | Previous undoes Next except on the last step, and the reverse except on the first |
| Builder.NextPressesSaturate | client/src/pages/resume-builder.tsx:270-274 | n presses of Next from a valid step reach min(step + n, 4) |
| Builder.PreviousPressesSaturate | client/src/pages/resume-builder.tsx:276-280 | n presses of Previous reach max(step - n, 1) |
| Builder.Progress | client/src/pages/resume-builder.tsx:300 | progress is 25 times the step, 100 only on the last step |
| Builder.DecideOptimize | client/src/pages/resume-builder.tsx:238-260 | a missing or whitespace-only job description is refused first, then an unsaved resume; otherwise the request goes to the edited id |
| Builder.ClientGuardImpliesServerGuard | client/src/pages/resume-builder.tsx:238-260 | whatever the client sends passes the server's truthiness check |
| Builder.WhitespaceRefusedOnlyByClient | client/src/pages/resume-builder.tsx:240 | a whitespace-only description is truthy for the server but refused by the client |
| Builder.SubmitFor | client/src/pages/resume-builder.tsx:262-268 | a save sends an update to the edited id when editing, otherwise a create, with the form data |
| Builder.ResetPersonalInfo | client/src/pages/resume-builder.tsx:106-114 | every personal field is the stored value when truthy, else "" |
| Builder.ResetKeepsTypedInfo | client/src/pages/resume-builder.tsx:106-114 | stored details come back unchanged except that a null summary becomes "" |
| Builder.NonEmptyOr | client/src/pages/resume-builder.tsx:115-129 | a non-empty list is kept; an empty one becomes one blank entry |
| Builder.EditValues | client/src/pages/resume-builder.tsx:98-133 | the reset values keep title, template and each non-empty list, put one blank entry in each empty list, keep the personal fields with a null summary turned into "", and turn a null job description into "" |
| Builder.EditValuesRoundTrip | client/src/pages/resume-builder.tsx:98-133 | the reset restores the stored form iff its lists are filled and its summary and job description are present |
| Builder.EditValuesFillsEmptyRow | client/src/pages/resume-builder.tsx:98-133 | an empty row resets to one blank entry per list, with "" for the summary and the job description |
| Builder.PreviewExperience | client/src/pages/resume-builder.tsx:465-472 | an experience is previewed iff both position and company are non-empty |
| Builder.PreviewExperienceAppend | client/src/pages/resume-builder.tsx:465-472 | the preview keeps the entries' order |
| Builder.PreviewSkills | client/src/pages/resume-builder.tsx:480 | the preview lists exactly the non-blank skills |
| Builder.Page.constructor | client/src/pages/resume-builder.tsx:37-39 | the page starts on step 1, not optimizing |
| Builder.Page.HandleNext | client/src/pages/resume-builder.tsx:270-274 | the step becomes `NextStep` of itself and stays within 1..4 |
| Builder.Page.HandlePrevious | client/src/pages/resume-builder.tsx:276-280 | the step becomes `PreviousStep` of itself and stays within 1..4 |
| Builder.Page.HandleOptimize | client/src/pages/resume-builder.tsx:238-260 | returns `DecideOptimize` of the form's job description; sets `isOptimizing` only when the request is sent |
| Builder.Page.OptimizeSettled | client/src/pages/resume-builder.tsx:209-235 | success and ordinary failure clear `isOptimizing`; an unauthorized failure returns before clearing it |
| Dashboard.TotalResumes | client/src/pages/dashboard.tsx:127 | the list length, never below the count of scored resumes |
| Dashboard.Applications | client/src/pages/dashboard.tsx:128 | at most the number of resumes |
| Dashboard.ApplicationsCountsScored | client/src/pages/dashboard.tsx:128 | the count equals the number of resumes with a truthy (non-null, non-zero) score |
| Dashboard.ScoreOf | client/src/pages/dashboard.tsx:130 | a missing score counts as 0 |
| Dashboard.ScoreSumBounds | client/src/pages/dashboard.tsx:130 | with scores in [0,100] the sum lies in [0, 100n] |
| Dashboard.RoundHalfUp | client/src/pages/dashboard.tsx:130 | `Math.round(sum/n)`: the integer r with r - 1/2 <= sum/n < r + 1/2 |
| Dashboard.RoundHalfUpUnique | client/src/pages/dashboard.tsx:130 | that integer is unique |
| Dashboard.RoundHalfUpBetween | client/src/pages/dashboard.tsx:130 | a mean between two integers rounds to a value between them |
| Dashboard.AverageMatchScore | client/src/pages/dashboard.tsx:129-131 | 0 for an empty list, else the rounded mean with missing scores as 0 |
| Dashboard.AverageInRange | client/src/pages/dashboard.tsx:129-131 | with every score in [0,100] the average is in [0,100] |
| Dashboard.AverageOfEqualScores | client/src/pages/dashboard.tsx:129-131 | when every score equals s, the average is s |
| Dashboard.SumOfEqualScores | client/src/pages/dashboard.tsx:130 | n equal scores s sum to s·n |
| Dashboard.RecentResumes | client/src/pages/dashboard.tsx:300 | the first min(n, 5) resumes, in order |
| Dashboard.RecentAreMostRecent | client/src/pages/dashboard.tsx:300 | over the list the API returns, no resume left out was updated later than one shown |
| Dashboard.ShowBadgeIffAbove | client/src/pages/dashboard.tsx:311 | the badge appears iff the score is present and above 80 |
| Dashboard.ViewAllWhenMoreThanThree | client/src/pages/dashboard.tsx:254 | "View All" appears iff there are more than three resumes, that is, when the recent list shows more than three |

## Left out

- Authentication: the Replit Auth setup, `isAuthenticated`, and the `/api/auth/user` route. The caller's id is a parameter of each handler.
- The language-model calls, their prompts, and `JSON.parse`. The parsed reply is a record of optional fields, and `parse` is a parameter.
- The `routes.ts` imports of the services: it calls a `generateResumeContent` that `openai.ts` does not export, and it calls `generateCoverLetter` with three arguments while both services take one request object. The handlers therefore take an abstract optimizer and letter writer.
- The headless-browser steps of `generateResumePDF`: launch, page setup, A4 printing and closing the browser. Rasterisation is the `Rasteriser` parameter.
- Whitespace and indentation inside the HTML template literal. The modelled document keeps every tag, class, text and interpolation in order but drops the layout whitespace, and the CSS rules are condensed. The CSS adds no conditions beyond the watermark rule.
- Postgres, Drizzle and `gen_random_uuid`. They are replaced by in-memory tables, fresh natural ids from a counter, and a clock that ticks on every write. A real clock can repeat a timestamp; the model's clock never does.
- JSON field types: payload fields are either absent or of the right type. zod's rejection of wrong types, and its error lists in the 400 body, are not modelled.
- Stored `personalInfo`, `experience` and `education` are typed records, not arbitrary JSON. The edit reset's `|| ""` fallbacks are modelled on the raw form of a typed record.
- A null `isPremium` column: the tier is a boolean, with the default false.
- Express response plumbing, headers, logging, and the 500 branches for a database failure on read-only routes.
- Concurrency between requests: each handler runs alone over the store.
- FormEditor.Form.UpdateSkill: requires an index within the list. The page only passes indexes of existing inputs; an out-of-range assignment in JavaScript would grow the array with holes.
- React Query caching and invalidation, toasts, redirects, timers, file downloads, and the presentational pages (landing, preview, template selector, templates).
- Floating point: `Math.round(sum / n)` is modelled exactly in integers, as `(2·sum + n) / (2n)` with floor division. Scores are integers, as the column is.
- The optimize request's own round trip on the client (`optimizeResumeMutation`) is reduced to `HandleOptimize` and `OptimizeSettled`.
