# ResumeGen core, modelled in Dafny

ResumeGen is a FastAPI application. It builds a résumé profile through a chat with a Gemini
model, stores the profile in SQLite tables, recommends and tracks jobs from a public job board,
and renders the profile through HTML templates to PDF. This project models the deterministic
logic behind those features and proves what the code promises about it:

- **The chat merge** (`Chat`, `app/api/endpoints/chat.py`). A fragment that the model extracted
  from a chat message is merged into the stored profile. Personal fields and the summary are
  written only when the stored value is empty. Experience, education and project items are
  added only when the user has no stored row with the same key. Skill lists are unioned per
  category. The whole merge commits once, or is discarded when it raises.
- **The extractor helpers** (`ProfileExtractor`, `app/services/profile_extractor.py`). The answer
  text is cleaned of its Markdown fence, and an empty or unreadable result becomes `None`.
  `merge_profile_data` is a second merge policy: truthy values overwrite, lists are extended
  in place without de-duplication, and only a shallow copy of the dictionary is made.
- **Job search** (`JobService`, `app/services/job_service.py`). The board's listings are filtered
  by a case-insensitive substring test, descriptions are truncated, the result is capped, and
  three mock jobs are the fallback.
- **Job recommendations and saved jobs** (`Jobs`, `app/api/endpoints/jobs.py`). A greedy selection
  takes at most two picks per skill category and five overall, and never picks a title that
  contains, or is contained in, one already picked. A saved-jobs table is de-duplicated by URL
  and records the applied date once.
- **The profile tables** (`Profiles`, `app/api/endpoints/profile.py`). The session user is resolved
  to a user row. The profile is read and partially updated. Records of four kinds are added,
  updated and deleted, scoped to their owner. The résumé history is listed and edited.
- **Login** (`Auth`, `app/api/endpoints/auth.py`). An in-memory map holds single-use one-time
  passwords (OTPs), and the handlers write the session.
- **The model service** (`AiService`, `app/services/ai_service.py`). The structured-output schema,
  and what the service answers when it is not configured, when the call fails, or when the
  answer is not JSON.
- **Templates and PDF generation** (`Templates`, `ResumeGenerator`). Template names are validated
  and the selection is stored. The template path is confined to the template folder, with a
  fallback template, and the rendering context and the output file name are built.

Shared modules:

- `Base`: `Option`, `Result`, `Field` (a JSON key that is absent, null or present) and `HttpError`.
- `Text`: ASCII versions of Python's `lower`, `strip`, `capitalize`, `title`, `in`, `split`
  and `os.path.basename`.
- `Tables`: a table as a sequence of rows `Row(id, userId, data)`. Ids follow SQLite's rowid
  rule: a new row gets one more than the largest id.
- `Db`: the record types, and a `Database` class with one field per table. `State()` returns the
  whole database as a value. The browser session is a `Session` object.

The endpoints that change the database are methods on `Database`. Each one states its new
state as a function of the old one. The properties are proved about those functions.
Everything outside the program is an input of the model:

- the model's answer, as a `ModelCall`, with the JSON decoder as a partial function `parse`;
- the board's listings, as a `Fetch` for each query;
- the generated OTP, and whether the mail went out;
- which templates load, and whether PDF conversion succeeds;
- the clock, as an `int` parameter `now`.

Where the code's own names and comments suggest other behaviour, the model follows the code:

- `get_ai_recommendations` names its experience fallback `latest_exp`
  (`app/api/endpoints/jobs.py:78`), but it takes `experiences[0]`. That is the user's first
  experience row in table order, whatever its dates.
- `search_jobs` carries the comment `# Return recent jobs if no query`
  (`app/services/job_service.py:40`). That branch can never add a job, because an empty query
  already matches every job in the first loop (`JobService.RecentBranchDead`).
- The `try` block of `get_ai_recommendations` starts before `get_current_user_id`
  (`app/api/endpoints/jobs.py:28-30`). So the 401 a missing login raises is caught by its
  `except Exception`, and the answer is `{"recommendations": []}`.
- `get_current_user_id` creates a missing user with the session's name as `username`
  (`app/api/endpoints/profile.py:63-70`). That column is unique
  (`app/models/models.py:13`), so creating a user whose username is taken fails, and the
  request answers 500.
- The chat merge looks up an existing skill category with `.first()` on a session opened
  with `autoflush=False` (`app/db/database.py:11`), so the lookup sees only committed rows.
  A fragment that repeats a new skill category therefore creates two skill rows. Merging the
  same fragment again then adds the second row's skills to the first row
  (`Chat.RepeatedNewCategoryGrowsSkills`). The skill sets are unchanged by a second merge only
  when every repeated category is already stored (`Chat.ChatMergeIdempotent`).

## Model

| member | source | states |
|---|---|---|
| AiService.Dump | app/services/ai_service.py:51-57 | Reading of a complete answer, one in which the model writes out every key of the schema (the schema does not require the keys that have defaults): no key is missing, so it is never the empty object; the four lists are present, and each item keeps its fields in order, with the achievements, skills and technologies lists never null |
| Chat.CompleteAnswerMerges | app/api/endpoints/chat.py:101-193 | A complete answer is always merged: no list in it is null, so the merge block cannot raise; the tables become the committed merge of its data and the reply is its message, and null data changes nothing |
| AiService.Instructions | app/services/ai_service.py:102-104 | The instructions are the base text, with the context header and the rendered context appended exactly when the profile context is not empty |
| AiService.GenerateChatResponse | app/services/ai_service.py:92-133 | Without a client: the fixed "not configured" message and null data. A raised call: "Sorry, I encountered an error: " plus the error. Non-JSON text: that text, verbatim. Parsed JSON: returned unvalidated |
| AiService.GenerateText | app/services/ai_service.py:135-209 | The other generators: "AI Service is not configured." without a client, the model's text on success, and their own error prefix plus the error otherwise |
| ProfileExtractor.CleanResponse | app/services/profile_extractor.py:117-124 | The cleaned text is stripped; a text that does not open with a fence is only stripped |
| ProfileExtractor.CleanFenced | app/services/profile_extractor.py:120-124 | For a fenced answer, the payload is what lies between the first two fences, without a leading `json` tag, stripped; whatever follows the closing fence is ignored |
| ProfileExtractor.FencedPayload | app/services/profile_extractor.py:117-124 | A payload preceded by white space and wrapped in a fence, an optional `json` tag and a closing fence cleans back to the payload itself, whatever text follows the closing fence |
| ProfileExtractor.CleanBare | app/services/profile_extractor.py:117-124 | A stripped payload without backticks is left unchanged |
| ProfileExtractor.ExtractFromMessage | app/services/profile_extractor.py:24-141 | The result is present exactly when the call answered, the cleaned text parses, and the parsed value is truthy; it is then that value. A raised call, a decode error or an empty object gives `None` and never an exception |
| ProfileExtractor.FencedAnswerExtractsPayload | app/services/profile_extractor.py:117-133 | A fenced answer extracts the same result as its bare payload |
| ProfileExtractor.SameCleanSameResult | app/services/profile_extractor.py:117-133 | Two answers that clean to the same text extract the same result |
| ProfileExtractor.AssignTruthyFacts | app/services/profile_extractor.py:154-159 | Assigning the truthy entries keeps every existing key, adds exactly the keys of truthy entries, keeps the values of keys it does not write, and gives each written key its last truthy value, even over a value already present |
| ProfileExtractor.AssignEntries | app/services/profile_extractor.py:156-159 | The `personal_info` dictionary is updated in place with the truthy entries |
| ProfileExtractor.MergeScalars | app/services/profile_extractor.py:151-163 | The copy keeps every existing key; the summary is replaced only by a truthy new summary; the stored `personal_info` dictionary is updated in place, and a missing one becomes a new dictionary; a non-dictionary `personal_info` raises |
| ProfileExtractor.ExtendFields | app/services/profile_extractor.py:166-170 | Each stored list of the list fields is extended in place with the new items, up to the first field that raises; a missing field gets a list of its own |
| ProfileExtractor.MergeProfileData | app/services/profile_extractor.py:143-172 | The whole merge: the errors it raises, the result's keys, the summary rule, the stored dictionary and lists changed in place (so the caller's `existing` changes too), and the new lists of missing fields |
| ProfileExtractor.AppendedUnshared | app/services/profile_extractor.py:166-170 | When no two fields share a list, a stored list ends as the stored items followed by the new items, so its length is the sum of both |
| Chat.FillIfEmpty | app/api/endpoints/chat.py:125-126 | A filled stored value never changes; the value changes exactly when the new one is truthy and the stored one empty, and then becomes the new one |
| Chat.FillFirstFields | app/api/endpoints/chat.py:123-126 | The loop over the personal keys fills each key visited so far by that rule and leaves every other column as it was |
| Chat.FillPersonal | app/api/endpoints/chat.py:121-126 | Each of the seven personal columns follows the fill-if-empty rule; the summary, languages, hobbies and template are unchanged |
| Chat.FillSummary | app/api/endpoints/chat.py:128-131 | Only the summary can change, and it changes exactly when the stored one is empty and the new one a non-empty string |
| Chat.FillPersonalIdempotent | app/api/endpoints/chat.py:121-126 | Filling the personal columns twice with the same data is filling them once |
| Chat.ExperienceRecord | app/api/endpoints/chat.py:143 | A new experience row takes the item's title and company, and `is_current` defaults to false |
| Chat.SkillRecord | app/api/endpoints/chat.py:175 | A new skill group keeps the item's category and list, and a null list stays null |
| Chat.Unseen | app/api/endpoints/chat.py:137-143 | Only records whose key the user has no stored row for are kept |
| Chat.UnseenCount | app/api/endpoints/chat.py:137-143 | A record is added never when its key is stored, and otherwise as often as the fragment lists it, so equal items of one fragment are all added |
| Chat.AppendAll | app/api/endpoints/chat.py:143-144 | The queued rows are appended after the stored ones, owned by the user, with the column default order 0, and keys stay unique |
| Chat.AddUnseenAppends | app/api/endpoints/chat.py:133-187 | The de-duplicating loops keep every stored row and append only rows of the user whose key was not stored |
| Chat.AddUnseenCovers | app/api/endpoints/chat.py:133-187 | After the loop, every item's key is among the user's stored keys |
| Chat.AddUnseenIdempotent | app/api/endpoints/chat.py:137-143 | Running the loop again with the same items adds nothing |
| Chat.AddUnseenRows | app/api/endpoints/chat.py:133-187 | The loop, one item at a time, computes the de-duplicated append |
| Chat.FindCategory | app/api/endpoints/chat.py:162-165 | The lookup finds the first stored row of the user with the category, or says that none exists |
| Chat.Dedup | app/api/endpoints/chat.py:172 | `list(set(...))`: no repeats, and the same elements |
| Chat.SkillUnion | app/api/endpoints/chat.py:169-173 | The new list holds each skill of the old or the new list exactly once |
| Chat.SkillStepUnion | app/api/endpoints/chat.py:167-173 | A known category's group ends with exactly the union of its old and new skills, each once; every other row is unchanged |
| Chat.SkillStepNewGroup | app/api/endpoints/chat.py:174-176 | An unknown category is appended as a new group with the item's list |
| Chat.SkillStepFails | app/api/endpoints/chat.py:167-173 | One skill item raises exactly when its list is null and its category is stored |
| Chat.MergeSkills | app/api/endpoints/chat.py:158-176 | The skill loop keeps every group in place, appends only the user's groups, leaves other users' rows alone and keeps keys unique |
| Chat.MergeSkillsFails | app/api/endpoints/chat.py:158-176 | The skill loop raises exactly when some item with a null list names a stored category |
| Chat.MergeSkillRows | app/api/endpoints/chat.py:158-176 | The loop over the skill items, with the lookups against the committed rows, computes the skill merge |
| Chat.MergeProfile | app/api/endpoints/chat.py:115-131 | The merged profile keeps every filled personal column, a filled summary, and the languages, hobbies and template |
| Chat.MergeProfileIdempotent | app/api/endpoints/chat.py:121-131 | Merging the profile columns twice is merging them once |
| Chat.MergeFragmentFails | app/api/endpoints/chat.py:147-187 | The merge raises exactly when the education, skills or projects key is null, or a null skill list names a stored category |
| Chat.MergeFragmentScope | app/api/endpoints/chat.py:110-194 | A merge that succeeds touches only the user's profile, keeps every stored row, adds rows only for the user, and keeps the tables valid |
| Chat.MergeFragmentOk | app/api/endpoints/chat.py:115-187 | A merge that succeeds is the profile merge plus the four loops, each one against the committed tables |
| Chat.ChatMerge | app/api/endpoints/chat.py:111-194 | An empty fragment, or a merge that raises, leaves the committed tables unchanged; otherwise the merge is committed as a whole |
| Chat.SecondMergeKeepsRows | app/api/endpoints/chat.py:125-187 | Merging the same fragment a second time changes no profile and adds no experience, education or project row |
| Chat.SecondMergeKeepsGroups | app/api/endpoints/chat.py:158-176 | A second merge adds no skill group, and keeps each skill set when every repeated category is stored |
| Chat.ChatMergeIdempotent | app/api/endpoints/chat.py:110-194 | Re-applying a committed fragment adds no rows and changes no profile; skill sets stay the same when the fragment repeats only stored categories |
| Chat.RepeatedNewCategoryGrowsSkills | app/api/endpoints/chat.py:162-176 | A fragment that names a new category twice creates two groups, and merging it again grows the first group: the repetition condition is needed |
| Chat.MergeProfileColumns | app/api/endpoints/chat.py:115-131 | The step-by-step writes to the profile columns compute the profile merge |
| Chat.MergeTables | app/api/endpoints/chat.py:115-187 | The merge block, run step by step, computes the fragment merge or its error |
| Chat.ApplyFragment | app/api/endpoints/chat.py:110-194 | The database ends as the committed merge, or unchanged when the merge raises; users, résumés and saved jobs are untouched |
| Chat.ModelHistory | app/api/endpoints/chat.py:57-64 | Stored role "user" stays "user" and any other role becomes "model"; the texts are kept in order |
| Chat.Respond | app/api/endpoints/chat.py:102-226 | The reply is the answer's message, "Sorry, I encountered an error." when the key is missing; the history is the stored messages, then the user's and the model's |
| Chat.DegradedTurnKeepsProfile | app/api/endpoints/chat.py:100-194 | When the service is not configured, the call fails or the answer does not decode, the profile is unchanged and a message is still returned |
| Chat.FailedMergeStillReplies | app/api/endpoints/chat.py:189-226 | A merge that raises is discarded silently and the reply is the same as with no extracted data |
| Chat.ChatTurn | app/api/endpoints/chat.py:100-226 | One turn returns the reply and leaves the tables merged by the extracted data, if any |
| Chat.ChatMessage | app/api/endpoints/chat.py:14-226 | The handler: the caller's error with nothing changed, or the reply with the caller resolved and the fragment merged |
| JobService.Shown | app/services/job_service.py:31-38 | A kept job's description is its first 200 characters plus "...", always appended; a missing `remote` reads as false |
| JobService.LoweredOrEmpty | app/services/job_service.py:27-28 | A missing key reads as "", a present one is lowered, and a null one raises |
| JobService.ScanAppend | app/services/job_service.py:25-38 | Listing a concatenation lists the first part, then the second, in board order |
| JobService.RaisedStays | app/services/job_service.py:25-52 | After a job raises, later jobs are never examined and the earlier ones are kept |
| JobService.KeptIffMatches | app/services/job_service.py:25-30 | A well-formed job is kept if and only if the lowered query occurs in its lowered title or description |
| JobService.EmptyQueryKeepsAll | app/services/job_service.py:28-30 | The empty query keeps every well-formed job |
| JobService.FalsyQueryFindsOrRaises | app/services/job_service.py:25-40 | With an empty or missing query, a non-empty listing either raises or finds a job |
| JobService.RecentBranchDead | app/services/job_service.py:40-49 | The "recent jobs" branch runs only on an empty listing, so it adds nothing |
| JobService.MockJobs | app/services/job_service.py:60-86 | Three jobs with URL "#": "Senior {Query} Engineer", "Junior {Query} Developer" and "Product Manager", with "Software" and "Python" for an empty query |
| JobService.SearchFallback | app/services/job_service.py:9-58 | Exactly the three mock jobs when nothing was collected or the fetch failed, whatever the limit; otherwise the collected jobs cut to the limit |
| JobService.ScanJobs | app/services/job_service.py:25-38 | The listing loop appends each shown job in order and stops at the first one that raises |
| JobService.FetchAndFilter | app/services/job_service.py:19-52 | The `try` block keeps the jobs collected before an exception |
| JobService.SearchJobs | app/services/job_service.py:9-58 | `search_jobs` returns the search result |
| Jobs.Truncated | app/api/endpoints/jobs.py:62 | A description longer than 150 characters becomes its first 150 characters plus "..."; a shorter one is unchanged |
| Jobs.DuplicateBySeen | app/api/endpoints/jobs.py:52-55 | The test against `seen_titles` is the test against the lowered titles picked so far |
| Jobs.NonContainingSnoc | app/api/endpoints/jobs.py:52-67 | Adding a title that is not a duplicate keeps the picks non-containing |
| Jobs.NonContainingDistinct | app/api/endpoints/jobs.py:52-55 | Non-containing picks have no repeated title |
| Jobs.CategoryPassFacts | app/api/endpoints/jobs.py:47-74 | One category adds at most its two picks, after the earlier ones and with its reason, keeping the picks non-containing and at most five |
| Jobs.SkillPhaseFacts | app/api/endpoints/jobs.py:38-74 | The skill loop keeps the earlier picks, stays within five, and keeps the titles non-containing |
| Jobs.SkillPhaseCount | app/api/endpoints/jobs.py:40-57 | The picks with one reason number at most two per searched category with that reason |
| Jobs.ExperiencePassFacts | app/api/endpoints/jobs.py:76-101 | The experience fallback appends picks with its own reason, with no per-category cap, within five and non-containing |
| Jobs.SelectionFacts | app/api/endpoints/jobs.py:35-101 | A selection that did not raise has at most five non-containing picks |
| Jobs.RecommendationsFacts | app/api/endpoints/jobs.py:35-109 | At most five recommendations with pairwise non-containing lowered titles; the final cut to five never drops a pick |
| Jobs.RecommendedRolesDistinct | app/api/endpoints/jobs.py:50-101 | No two recommendations have the same title |
| Jobs.SkillPicksPerCategory | app/api/endpoints/jobs.py:40-57 | Only the first three skill rows are consulted, and each searched one gives at most two picks |
| Jobs.FullSkillsIgnoreExperiences | app/api/endpoints/jobs.py:77 | With five skill picks the experiences are never consulted |
| Jobs.ExperiencePicksFollow | app/api/endpoints/jobs.py:76-103 | With fewer than five skill picks, the experience picks follow them, all with the reason of the first experience |
| Jobs.SkillPhaseReadsFirstSkills | app/api/endpoints/jobs.py:40-45 | The skill loop depends only on the searches for each row's first skill |
| Jobs.NullTitleGivesNothing | app/api/endpoints/jobs.py:50-109 | A null title among the first results raises, and the answer is `[]` |
| Jobs.CategoryLoop | app/api/endpoints/jobs.py:47-74 | The loop over one category's results, with its `seen_titles` set, computes the category pass or raises |
| Jobs.ExperienceLoop | app/api/endpoints/jobs.py:80-101 | The loop over the experience results computes the experience pass or raises |
| Jobs.SkillLoop | app/api/endpoints/jobs.py:38-74 | The loop over the skill rows computes the skill phase or raises |
| Jobs.GetAiRecommendations | app/api/endpoints/jobs.py:20-109 | No login, or any exception, gives `[]` with nothing changed; otherwise the caller is resolved and the answer is the selection over the caller's skills and experiences |
| Jobs.SaveJob | app/api/endpoints/jobs.py:111-151 | A URL already saved returns the existing id and creates nothing; otherwise one new row with a fresh id is appended |
| Jobs.NewSavedJobColumns | app/api/endpoints/jobs.py:132-147 | The new row has `source` "unknown" when missing, `remote` false unless true, status "saved", and no applied date or notes |
| Jobs.SaveJobIdempotent | app/api/endpoints/jobs.py:122-129 | Saving the same job again answers "already saved" with the first id and changes nothing |
| Jobs.UnsaveJob | app/api/endpoints/jobs.py:153-178 | An unknown id gives "Job not found" and changes nothing; otherwise exactly that row is removed |
| Jobs.SavedJobs | app/api/endpoints/jobs.py:180-210 | The demo user's saved jobs, newest first, and no others |
| Jobs.WithStatusColumns | app/api/endpoints/jobs.py:228-238 | Only status, applied date and notes change; status and notes only when sent; the applied date only when the status becomes "applied" on a job without one |
| Jobs.AppliedDateSetOnce | app/api/endpoints/jobs.py:232-235 | Over a series of updates, the applied date is the time of the first "applied" update and is never overwritten |
| Jobs.NeverApplied | app/api/endpoints/jobs.py:232-235 | Without an "applied" update the applied date stays unset |
| Jobs.UpdateJobStatus | app/api/endpoints/jobs.py:212-246 | An unknown id gives "Job not found" and changes nothing; otherwise only that row changes, by the status rule |
| Jobs.SaveJobData | app/api/endpoints/jobs.py:111-151 | The saved-jobs table and the reply are those of `SaveJob`; no other table changes |
| Jobs.Unsave | app/api/endpoints/jobs.py:153-178 | The saved-jobs table after `unsave_job`, with nothing else changed |
| Jobs.UpdateStatus | app/api/endpoints/jobs.py:212-246 | The saved-jobs table after `update_job_status`, with nothing else changed |
| Tables.Insert | app/api/endpoints/profile.py:193-200 | A new row is appended with an id no other row has, so ids stay unique |
| Tables.FindOwned | app/api/endpoints/profile.py:214-217 | The lookup finds a row matching both the id and the caller, or says that none does |
| Tables.UpdateOwned | app/api/endpoints/profile.py:214-223 | Only the matching row's record changes, and ids and owners stay |
| Tables.DeleteOwned | app/api/endpoints/profile.py:237-245 | Exactly the matching row is removed |
| Tables.AddOrderedIsCount | app/api/endpoints/profile.py:191-197 | A new record's `order` is the number of records of that kind the user already had; other users' records are unchanged |
| Tables.SortBy | app/api/endpoints/profile.py:92-95 | `order_by(X.order)`: sorted by the key and a permutation of the rows |
| Profiles.FindUser | app/api/endpoints/profile.py:64 | The first user with the email, or none |
| Profiles.CurrentUser | app/api/endpoints/profile.py:53-73 | No session user gives 401; the user with the session email is found, or a new one is created, named by the session name or else the email's local part; a username already taken gives 500 |
| Profiles.CurrentUserSettles | app/api/endpoints/profile.py:53-73 | Resolving the caller a second time finds the same user and creates none |
| Profiles.CallerHasSessionEmail | app/api/endpoints/profile.py:53-73 | The caller's id belongs to a user row with the session email |
| Profiles.GetCurrentUserId | app/api/endpoints/profile.py:53-73 | The users table and the answer after `get_current_user_id`; nothing else changes |
| Profiles.WithProfile | app/api/endpoints/profile.py:83-88 | A missing profile row is created empty; existing rows are kept |
| Profiles.ListingFacts | app/api/endpoints/profile.py:92-95 | Each listing shows every row of the user and only those, ordered by `order` |
| Profiles.ProfilePageLists | app/api/endpoints/profile.py:119-149 | Null JSON lists are shown as `[]` |
| Profiles.GetProfile | app/api/endpoints/profile.py:77-153 | The caller is resolved, a profile is created when missing, and the page shows the profile and its listings |
| Profiles.UpdatedProfile | app/api/endpoints/profile.py:170-171 | A field sent in the request is written, null included; every other column is unchanged |
| Profiles.UpdateProfileIdempotent | app/api/endpoints/profile.py:170-171 | Applying the same update twice is applying it once |
| Profiles.EmptyUpdateKeeps | app/api/endpoints/profile.py:170-171 | An update with no fields changes nothing |
| Profiles.UpdateProfile | app/api/endpoints/profile.py:155-177 | The profile after `update_profile`, created when missing |
| Profiles.ChangeRow | app/api/endpoints/profile.py:214-223 | A row that is not the caller's, or does not exist, gives 404 and no change; otherwise only that row changes |
| Profiles.RemoveRow | app/api/endpoints/profile.py:237-245 | A row that is not the caller's, or does not exist, gives 404 and no change; otherwise exactly that row is removed |
| Profiles.ReplaceIdempotent | app/api/endpoints/profile.py:222-223 | A record update replaces every field, so doing it twice is doing it once |
| Profiles.AddExperience | app/api/endpoints/profile.py:181-202 | The new experience row, with `order` the count of the user's experiences |
| Profiles.UpdateExperience | app/api/endpoints/profile.py:204-226 | The owner-scoped replacement of an experience, with its order kept |
| Profiles.DeleteExperience | app/api/endpoints/profile.py:228-247 | The owner-scoped deletion of an experience |
| Profiles.AddEducation | app/api/endpoints/profile.py:251-271 | The new education row, with `order` the count of the user's entries |
| Profiles.UpdateEducation | app/api/endpoints/profile.py:273-295 | The owner-scoped replacement of an education entry |
| Profiles.DeleteEducation | app/api/endpoints/profile.py:297-316 | The owner-scoped deletion of an education entry |
| Profiles.AddSkillCategory | app/api/endpoints/profile.py:320-340 | The new skill group, with `order` the count of the user's groups |
| Profiles.UpdateSkillCategory | app/api/endpoints/profile.py:342-364 | The owner-scoped replacement of a skill group |
| Profiles.DeleteSkillCategory | app/api/endpoints/profile.py:366-385 | The owner-scoped deletion of a skill group |
| Profiles.AddProject | app/api/endpoints/profile.py:389-409 | The new project row, with `order` the count of the user's projects |
| Profiles.UpdateProject | app/api/endpoints/profile.py:411-433 | The owner-scoped replacement of a project |
| Profiles.DeleteProject | app/api/endpoints/profile.py:435-454 | The owner-scoped deletion of a project |
| Profiles.NewestFirst | app/api/endpoints/profile.py:463-465 | The user's résumés, newest first, and no others |
| Profiles.ToggleTwiceRestores | app/api/endpoints/profile.py:520 | Toggling the favourite flag twice restores the table |
| Profiles.GetResumeHistory | app/api/endpoints/profile.py:458-480 | The history listing, with only the caller possibly created |
| Profiles.DeleteResume | app/api/endpoints/profile.py:482-501 | The owner-scoped deletion of a résumé |
| Profiles.ToggleResumeFavorite | app/api/endpoints/profile.py:503-523 | The owner-scoped toggle, answering the new flag |
| Profiles.UpdateResumeNotes | app/api/endpoints/profile.py:525-549 | The owner-scoped replacement of a résumé's notes |
| Auth.Verify | app/api/endpoints/auth.py:32-51 | A code verifies exactly when one is stored, it is not empty and it matches; success deletes it and keeps the other codes; failure is 400 |
| Auth.SentOtpVerifiesOnce | app/api/endpoints/auth.py:24-49 | A code that was sent verifies once and never a second time |
| Auth.ResendReplaces | app/api/endpoints/auth.py:23-24 | Sending again replaces the earlier code, which no longer verifies |
| Auth.VerifyKeepsOthers | app/api/endpoints/auth.py:49 | A login under one email keeps every other email's pending code |
| Auth.OtpUser | app/api/endpoints/auth.py:41-46 | The session user's id and email are the email, with the avatar link built from it |
| Auth.OtpUserName | app/api/endpoints/auth.py:43 | The session name is the email's local part up to case, and holds no "@" |
| Auth.OtpLoginUsername | app/api/endpoints/auth.py:41-46 | A first login creates a user (in `get_current_user_id`) named by the title-cased local part |
| Auth.SendOtp | app/api/endpoints/auth.py:21-30 | The code is stored, replacing any earlier one, and stays stored when sending fails with 500 |
| Auth.VerifyOtp | app/api/endpoints/auth.py:32-51 | On success the session user is set and the code deleted; on failure 400 with store and session unchanged |
| Auth.MockLogin | app/api/endpoints/auth.py:53-64 | The session user becomes the fixed demo user |
| Auth.Logout | app/api/endpoints/auth.py:66-72 | The session is emptied |
| Templates.ListTemplates | app/api/endpoints/templates.py:77-89 | One entry per template name, with its display name and "{name} resume template" |
| Templates.PreviewPath | app/api/endpoints/templates.py:91-106 | An unknown name gives 404; a known one renders its own template page |
| Templates.SelectSession | app/api/endpoints/templates.py:116-134 | An unknown name gives 400 before the login check, no login gives 401, and otherwise the session records the name |
| Templates.SelectedProfiles | app/api/endpoints/templates.py:136-144 | The selection is stored only when the user row exists, in a new profile row when there was none |
| Templates.CurrentTemplate | app/api/endpoints/templates.py:152-165 | No login gives 401; the default is "professional"; an unknown name is shown as "Modern Clean" |
| Templates.SelectThenCurrent | app/api/endpoints/templates.py:132-160 | After a successful selection the current template is the selected one |
| Templates.KnownTemplateKept | app/api/endpoints/templates.py:123-164 | Selecting keeps the session's template known, and a known template never displays the fallback |
| Templates.SelectTemplate | app/api/endpoints/templates.py:116-150 | The reply, the session and the stored profiles after `select_template` |
| ResumeGenerator.TemplatePathConfined | app/services/resume_generator.py:21-22 | Directory parts of the name are dropped, so the path stays in the template folder |
| ResumeGenerator.ChosenTemplate | app/services/resume_generator.py:24-29 | The requested template when it loads, else `modern_clean`, else an error |
| ResumeGenerator.SkillCategories | app/services/resume_generator.py:39-42 | A non-empty skill list becomes the one category "Technical Skills"; an empty one becomes `{}` |
| ResumeGenerator.RenderContextKeepsData | app/services/resume_generator.py:32-42 | `name` is `full_name`, the skills can be read back, and every other key is the request's own |
| ResumeGenerator.OutputPathShape | app/services/resume_generator.py:48-51 | The file name holds no space, and names that differ only in spaces and underscores share a file |
| ResumeGenerator.Generated | app/services/resume_generator.py:14-63 | The output path exactly when a template loads and conversion succeeds; a conversion error raises |
| ResumeGenerator.GeneratePdf | app/services/resume_generator.py:14-63 | `generate_pdf`, step by step, computes the generation result |

## Left out

- The Gemini SDK, the prompt texts and the JSON decoding are not modelled. The model's answer is an input, and decoding is an abstract partial function.
- The HTTP request to the job board is an input (`Fetch`), one for each query. The location argument is not used by the code either.
- SMTP sending and the random OTP are inputs of `Auth.SendOtp`. The async handlers share `otp_store`, but concurrency is not modelled.
- `ProfileExtractor.__init__` is not modelled. It reads `settings.api_keys` (`app/services/profile_extractor.py:16`), and the `Settings` class defines no such field (`app/core/config.py:4-23`), so the constructor raises `AttributeError`. `app/api/endpoints/chat.py:11` calls it when the module is imported, and `app/main.py:7` imports that module, so as written the application fails at start-up and no handler runs. Every `Chat` member assumes that this module-level constructor succeeds, for example with an `api_keys` setting added. The code has no key rotation or failover.
- The chat plumbing is not modelled: the chat session lookup (404), writing the messages, building `profile_context` from the tables, and the `profile_data` summary in the chat reply.
- Jinja rendering and the xhtml2pdf conversion are inputs of `ResumeGenerator.Generated`. The 500 reply of a preview whose rendering fails is not modelled.
- The ORM schema, the migrations and the session wiring are not modelled. The column defaults the code relies on are written into the record constructors.
- Text functions work on ASCII letters only. Python's Unicode case mapping is not modelled.
- Python dictionary key order, and the order `list(set(...))` gives, are not modelled. A skill union is specified by its elements and by having no repeats.
- JSON numbers are integers in `ProfileExtractor.Json`, and floating point is not modelled.
- The board's listings depend only on the query. Two searches for the same query give the same listings.
- The `{"error": str(e)}` replies of `save_job`, `unsave_job` and `update_job_status` are not modelled, nor are JSON values of a type other than the one expected.
- The model's decoded answer is typed as the schema's records (`AiService.ChatReply`, `AiService.Fragment` and the `Raw*` records). This assumes that `json.loads` gives an object whose keys are among the schema's keys, which the code does not check (`app/services/ai_service.py:124-125`). An extra key inside `personal_info` or inside a new item would raise in the merge, at `getattr(profile, key)` or at a constructor such as `Experience(user_id=user_id, **exp_data)`, and the merge would be discarded. An extra key at the top of `extracted_data` would only make it truthy. An answer that is not an object would fail at `.keys()` outside the `try` and the request would answer 500. Neither path is modelled.
- `updated_at` timestamps and the `isoformat()` rendering of dates are not modelled. The clock is an `int`.
- Profiles.GetProfile: records are shown as table rows, not as the dictionaries of the JSON answer.
- ProfileExtractor.AppendedUnshared: it assumes that no two keys of `existing` share one list object. `ProfileExtractor.MergeProfileData` itself gives the final contents of every stored list, shared or not, through `Appended`, which collects the new items of every key whose value is the same list object. Only this corollary, that a list ends as its old contents followed by its own new items, with the sum as its length, needs unshared lists.
- `app/api/endpoints/resume.py`, `app/api/endpoints/cover_letter.py` and `app/api/views.py` are not part of this model.
- The profile query in `get_ai_recommendations` whose result is unused is not modelled.
- The "Remote" default of a recommendation's location is unreachable, because `search_jobs` always sets the key, so it is not modelled.
- ResumeGenerator.ResumeData: education, experience and project entries are opaque string dictionaries, passed to the template unchanged.
- ResumeGenerator.GeneratePdf: the default template name "modern_clean" is not modelled, because the caller always passes a name.
