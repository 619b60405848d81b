# Resume builder core, modelled in Dafny

The resume builder lets a signed-in user edit a resume draft on a dashboard, preview
it in one of two templates ("modern" or "classic"), and save it to a per-user store
behind a small HTTP API. This project models four parts of it and proves what they promise:

- **The resume API** (`ResumeStore`). `GET` looks up a user's resume. `POST` upserts it:
  it updates the user's existing record in place or creates exactly one new record.
  The table is a `Store` class holding a sequence of records and an id counter. `Get` and
  `Save` are methods that return a status-carrying `Response`. The class invariant
  says: at most one record per user, every id below the counter, no empty user id.
- **The dashboard draft** (`Dashboard`, on top of `EntryLists` and `Text`). The page's
  state is an `Editor` class. It has the same fields as the page's state hooks: user,
  loading flag, template, personal information, experience list, education list and
  skills text. Its methods are the page's handlers. The list edits are generic sequence
  functions keyed by an entry's `id`: append, remove every entry with that id, update
  every entry with that id. Also modelled:
  - the defaults applied when a fetched resume is merged into the draft;
  - the payload a save sends;
  - the skills preview badges;
  - the choice of preview template.
- **The two templates** (`TemplateRules`, `ModernTemplate`, `ClassicTemplate`). Each
  template renders a data-level `Document`: header name, contact items, and the visible
  sections with one block of lines per entry. HTML and styling are not modelled. Both
  templates are proved to satisfy one predicate, `Presents`, which captures the shared
  rules:
  - the "Your Name" fallback;
  - contacts shown only when non-empty, in a fixed order;
  - sections shown only when non-empty;
  - a "Present" end date for open-ended experience, and none for education;
  - skill tags: comma-split, trimmed, blanks dropped.

  From this it follows that the two templates agree on everything except the order of
  lines inside a block.
- **String primitives** (`Text`):
  - JavaScript's `String.prototype.trim`, using the ECMAScript whitespace set;
  - `split(",")`;
  - `join(",")`, which is proved to be its inverse.

Files: `resume_types.dfy` (shared records), `text.dfy`, `entry_lists.dfy`,
`resume_store.dfy`, `template_rules.dfy`, `modern_template.dfy`,
`classic_template.dfy` (with the `TemplatesAgree` module), `dashboard.dfy`.

## Model

| member | source | states |
|---|---|---|
| ResumeStore.Store.Get | src/app/api/resumes/route.ts:4-29 | A missing or empty userId gives 400 "User ID is required". A store failure gives 500 with the fetch error. Otherwise the response is ok and carries the user's record, or nothing when the user has none; the record is the unique one with that userId. |
| ResumeStore.Store.Save | src/app/api/resumes/route.ts:31-86 | A missing body gives 500. A missing or empty userId gives 400. A store failure gives 500. Every failure leaves the table unchanged. A body with a userId and a working store always succeeds. On success the table becomes the upsert of the payload, the id counter advances by one, the class invariant still holds, and the response carries "Resume saved successfully" and the stored record. |
| ResumeStore.Store.constructor | src/app/api/resumes/route.ts:2 | The `db` table is assumed to start empty; the class invariant holds from the start. |
| ResumeStore.HasUserId | src/app/api/resumes/route.ts:35 | The `!userId` test: of a string-or-null userId only null and the empty string are rejected. |
| ResumeStore.FindFirst | src/app/api/resumes/route.ts:43-45 | findFirst: the index of the first record with the userId; none exactly when no record has it. |
| ResumeStore.Lookup | src/app/api/resumes/route.ts:17-19 | The record found by findFirst: it has the userId, and it is absent exactly when no record has that userId. |
| ResumeStore.Upserted | src/app/api/resumes/route.ts:43-73 | If the user has a record, it is replaced in place with the same id and userId and the new five fields, and the length is unchanged. Otherwise exactly one record with a fresh id is appended. |
| ResumeStore.UpsertKeepsOnePerUser | src/app/api/resumes/route.ts:43-73 | At most one record per user is preserved by an upsert. |
| ResumeStore.UpsertKeepsIds | src/app/api/resumes/route.ts:61-72 | Record ids stay below the id counter after an upsert, which is what makes a created id fresh. |
| ResumeStore.SaveThenGet | src/app/api/resumes/route.ts:17-21 | After an upsert for a user, the lookup for that user returns a record holding exactly the saved data. |
| ResumeStore.SaveLeavesOthers | src/app/api/resumes/route.ts:49-73 | An upsert for one user changes no other user's lookup. |
| ResumeStore.SecondSaveUpdates | src/app/api/resumes/route.ts:49-60 | A second save by the same user updates the record the first save made: same id, no new record. |
| EntryLists.RemoveById | src/app/dashboard/page.tsx:162-164 | filter by id: the result holds exactly the entries with other ids, and its length drops by the number of entries with that id. |
| EntryLists.UpdateById | src/app/dashboard/page.tsx:166-170 | map by id: same length; entries with the id are transformed and all others are kept unchanged. |
| EntryLists.RemoveConcat | src/app/dashboard/page.tsx:163 | The filter distributes over concatenation. |
| EntryLists.RemoveKeepsOrder | src/app/dashboard/page.tsx:163 | The survivors keep their original relative order. |
| EntryLists.RemoveAbsent | src/app/dashboard/page.tsx:163 | Removing an id no entry has leaves the list unchanged. |
| EntryLists.RemoveIdempotent | src/app/dashboard/page.tsx:163 | Removing twice is removing once. |
| EntryLists.RemoveAfterAppend | src/app/dashboard/page.tsx:159-163 | Removing the id of an appended entry also removes every earlier entry that shares the id. |
| EntryLists.RemoveUndoesAppend | src/app/dashboard/page.tsx:159-163 | Removing a freshly appended entry's id restores the list. |
| EntryLists.UpdateAbsent | src/app/dashboard/page.tsx:167-169 | Updating an id no entry has leaves the list unchanged. |
| EntryLists.RemoveAfterUpdate | src/app/dashboard/page.tsx:163-169 | An update that keeps ids, followed by a remove, equals the remove alone. |
| Dashboard.WithExperienceValue | src/app/dashboard/page.tsx:168 | The spread update sets the chosen field and leaves every other field unchanged. |
| Dashboard.WithEducationValue | src/app/dashboard/page.tsx:191 | The same, for education fields, GPA included. |
| Dashboard.WithPersonalValue | src/app/dashboard/page.tsx:288-333 | The personal-information inputs set one field and leave the others unchanged. |
| Dashboard.BlankExperience | src/app/dashboard/page.tsx:150-158 | A new experience has the given id and every other field empty. |
| Dashboard.BlankEducation | src/app/dashboard/page.tsx:173-181 | A new education entry has the given id and every other field, GPA included, empty. |
| Dashboard.UpdateExperiences | src/app/dashboard/page.tsx:166-170 | Same length. Every entry with the id has the field set to the value and its other fields unchanged. Every other entry is unchanged. |
| Dashboard.UpdateEducations | src/app/dashboard/page.tsx:189-193 | The same, for the education list. |
| Dashboard.RemoveAddedExperience | src/app/dashboard/page.tsx:149-164 | Add then remove with the same id equals removing that id from the old list; with a fresh id it restores the list. |
| Dashboard.RemoveAddedEducation | src/app/dashboard/page.tsx:172-187 | The same, for education. |
| Dashboard.RemoveEditedExperience | src/app/dashboard/page.tsx:162-170 | Editing a non-id field of an entry and then removing it equals removing it. |
| Dashboard.Merge | src/app/dashboard/page.tsx:104-110 | The load defaults. A missing or empty template becomes "modern", so the merged template is never empty. Missing lists become empty. Missing skills become "". Missing personal information keeps the current value. Present values are taken as they are. |
| Dashboard.MergeComplete | src/app/dashboard/page.tsx:104-110 | Merging a complete record whose template is not empty yields that record, whatever the draft was. |
| Dashboard.SaveThenReload | src/app/dashboard/page.tsx:98-136 | A draft saved through the store comes back unchanged when it is reloaded into the form, if its template is not empty. |
| Dashboard.FromResponse | src/app/dashboard/page.tsx:102-104 | A failed response is a failed load. An ok response without a resume loads nothing. An ok response with a record loads all five of its fields. |
| Dashboard.TrimAll | src/app/dashboard/page.tsx:527-531 | Each badge is the trimmed segment at the same position. |
| Dashboard.SkillsPreview | src/app/dashboard/page.tsx:523-531 | No badges for empty skills. Otherwise commas + 1 badges, the i-th being the trimmed i-th segment, empty segments kept. |
| Dashboard.NonBlankIsDropEmpty | src/components/ModernTemplate.tsx:49 | The templates' filter-then-trim equals trimming everything and dropping the empty results. |
| Dashboard.PreviewVersusTags | src/app/dashboard/page.tsx:527-531 | The templates' tags are exactly the preview's badges with the empty ones removed. |
| Dashboard.PreviewSample | src/app/dashboard/page.tsx:527-531 | "JavaScript, React,  Node.js ,," previews as five badges, two of them empty, but renders as three tags. |
| Dashboard.PreviewDocument | src/app/dashboard/page.tsx:552-566 | The modern template for "modern" and the classic one otherwise; either way the document presents the draft by the shared rules. |
| Dashboard.Editor.constructor | src/app/dashboard/page.tsx:50-66 | No user, loading, template "modern", empty personal information, lists and skills. |
| Dashboard.Editor.SignIn | src/app/dashboard/page.tsx:85-88 | The signed-in user is recorded. |
| Dashboard.Editor.LoadResume | src/app/dashboard/page.tsx:98-117 | Loading ends in every case. An ok response with a resume replaces the draft with the merge. A failed request or an absent resume leaves the draft unchanged. The user is unchanged. |
| Dashboard.Editor.SaveResume | src/app/dashboard/page.tsx:119-136 | No request when there is no user. Otherwise the request carries the user's id and exactly the draft's five fields. |
| Dashboard.Editor.AddExperience | src/app/dashboard/page.tsx:149-160 | The list gains exactly one blank entry with the given id at the end. |
| Dashboard.Editor.RemoveExperience | src/app/dashboard/page.tsx:162-164 | The list becomes the filter by id. |
| Dashboard.Editor.UpdateExperience | src/app/dashboard/page.tsx:166-170 | The list becomes the update by id. |
| Dashboard.Editor.AddEducation | src/app/dashboard/page.tsx:172-183 | The list gains exactly one blank entry with the given id at the end. |
| Dashboard.Editor.RemoveEducation | src/app/dashboard/page.tsx:185-187 | The list becomes the filter by id. |
| Dashboard.Editor.UpdateEducation | src/app/dashboard/page.tsx:189-193 | The list becomes the update by id. |
| Dashboard.Editor.SetPersonalInfo | src/app/dashboard/page.tsx:288 | One personal-information field is set. |
| Dashboard.Editor.SetSkills | src/app/dashboard/page.tsx:519 | The skills text is replaced. |
| Dashboard.Editor.SetTemplate | src/app/dashboard/page.tsx:256 | The template is replaced. |
| Text.Trim | src/components/ModernTemplate.tsx:49 | String.prototype.trim: the result has no whitespace at either end, and it is empty exactly when the input is all whitespace. |
| Text.TrimStartDrops | src/components/ModernTemplate.tsx:49 | Leading trim keeps a suffix, drops only whitespace and stops at the first other character. |
| Text.TrimEndDrops | src/components/ModernTemplate.tsx:49 | Trailing trim keeps a prefix, drops only whitespace and stops at the last other character. |
| Text.TrimExact | src/components/ModernTemplate.tsx:49 | Trim is the slice between the leading and the trailing whitespace. |
| Text.TrimKeepsChars | src/components/ModernTemplate.tsx:49 | Trim introduces no character, so a trimmed segment stays comma-free. |
| Text.TrimIdempotent | src/components/ModernTemplate.tsx:49 | Trimming twice is trimming once. |
| Text.Split | src/components/ModernTemplate.tsx:49 | split(","): commas + 1 segments, none containing a comma. |
| Text.JoinSplit | src/components/ModernTemplate.tsx:49 | Joining the segments with commas gives back the string. |
| Text.SplitJoin | src/components/ModernTemplate.tsx:49 | Splitting a join of comma-free segments gives back the segments. |
| TemplateRules.FormatDate | src/components/ModernTemplate.tsx:43-47 | formatDate maps an empty date to ""; other dates go to the locale formatter. |
| TemplateRules.ExperienceRange | src/components/ModernTemplate.tsx:109 | Start, " - ", then the formatted end date, or "Present" when the end date is empty. |
| TemplateRules.EducationRange | src/components/ModernTemplate.tsx:140 | Start, " - ", then the formatted end date; an empty end date leaves nothing after the dash. |
| TemplateRules.RangesDifferOnlyWhenOpenEnded | src/components/ClassicTemplate.tsx:77-99 | With the same dates, the two ranges read alike exactly when the end date is given. |
| TemplateRules.DisplayName | src/components/ModernTemplate.tsx:57 | The name, or "Your Name" when the name is empty; never empty. |
| TemplateRules.ContactsOfShowsFields | src/components/ModernTemplate.tsx:59-83 | Every contact item shown carries a non-empty value equal to its field. |
| TemplateRules.ContactsOfShowsAll | src/components/ModernTemplate.tsx:59-83 | Every non-empty contact field is shown. |
| TemplateRules.ContactsOfOrdered | src/components/ClassicTemplate.tsx:59-63 | Contact items keep the order email, phone, location, website, linkedin. |
| TemplateRules.Contacts | src/components/ModernTemplate.tsx:59-83 | Contact items appear exactly for the non-empty fields, with their values, in header order. |
| TemplateRules.NonBlankTags | src/components/ModernTemplate.tsx:49 | Tags are no more than the segments, and each tag is non-empty, trimmed and free of any character no segment holds. |
| TemplateRules.NonBlank | src/components/ModernTemplate.tsx:49 | The filter on a non-empty trim, then the trim: no more tags than segments, each non-empty and trimmed. |
| TemplateRules.SkillTags | src/components/ModernTemplate.tsx:49 | At most commas + 1 tags, each non-empty, trimmed and comma-free. |
| TemplateRules.SkillTagsExample | src/components/ModernTemplate.tsx:49 | "JavaScript, React,  Node.js ,," gives exactly JavaScript, React and Node.js. |
| TemplateRules.DescriptionLines | src/components/ModernTemplate.tsx:113 | A description line exactly when the description is non-empty, holding it. |
| TemplateRules.GpaLines | src/components/ModernTemplate.tsx:134 | A GPA line exactly when the GPA is non-empty, holding it. |
| TemplateRules.ExperienceSections | src/components/ModernTemplate.tsx:94-120 | Shown only for a non-empty list. One block per entry, in order, each showing that entry's content, for any block drawing that shows it. |
| TemplateRules.EducationSections | src/components/ModernTemplate.tsx:122-148 | Shown only for a non-empty list. One block per entry, in order, each showing that entry's content, for any block drawing that shows it. |
| TemplateRules.SkillsSections | src/components/ModernTemplate.tsx:150-162 | The skills section is shown only when there are tags, with one tag per block in order. |
| TemplateRules.Kinds | src/components/ModernTemplate.tsx:94-166 | The kind of each rendered section, position by position. |
| TemplateRules.VisibleSections | src/components/ModernTemplate.tsx:94-150 | Experience is shown exactly when the list is non-empty, education likewise, skills exactly when there are tags, in that order. |
| TemplateRules.KindsConcat | src/components/ModernTemplate.tsx:94-166 | Section kinds of concatenated sections concatenate. |
| TemplateRules.PresentationsAgree | src/components/ClassicTemplate.tsx:43-131 | Two documents presenting the same resume share the header, the section kinds in order, the block counts and each block's content. |
| ModernTemplate.ExperienceBlock | src/components/ModernTemplate.tsx:100-116 | An experience block shows exactly title, company, location, date range and, when non-empty, the description. The line order is layout and is only in the body. |
| ModernTemplate.EducationBlock | src/components/ModernTemplate.tsx:128-144 | An education block shows exactly degree, school, location, date range and, when non-empty, the GPA. The line order is only in the body. |
| ModernTemplate.Render | src/components/ModernTemplate.tsx:51-166 | The modern document presents the resume by the shared rules. |
| ClassicTemplate.ExperienceBlock | src/components/ClassicTemplate.tsx:73-85 | The same content as the modern experience block. The line order is only in the body. |
| ClassicTemplate.EducationBlock | src/components/ClassicTemplate.tsx:95-107 | The same content as the modern education block. The line order is only in the body. |
| ClassicTemplate.Render | src/components/ClassicTemplate.tsx:51-131 | The classic document presents the resume by the shared rules. |
| TemplatesAgree.ModernMatchesClassic | src/components/ClassicTemplate.tsx:49-123 | For any resume the two templates give the same name, contacts, sections and tags, and each block holds the same lines. |

## Left out

- Layout, styling, headings and icons of both templates and the page are not modelled. Only the data shown and its visibility are. The order of the lines inside an entry block is written in each template's block functions, but no contract states it: the contracts give each block's content as a multiset.
- Date formatting (`new Date(...).toLocaleDateString`) is a locale-dependent library call. It is a function parameter `locale`, applied only to non-empty dates.
- `Date.now().toString()` ids are passed to `AddExperience`/`AddEducation` as a parameter. The model does not assume they are unique, which is why removal and update act on every entry with that id.
- Browser and network plumbing is not modelled: `fetch`, JSON encoding, `localStorage`, the router redirect, `window.print` and PDF generation. A fetch result is the `FetchOutcome` parameter of `LoadResume`, and a save is the `SaveRequest` value `SaveResume` returns.
- The store is a sequence of records; Prisma and the database are not modelled. Database failure is a `dbFails` parameter. Record ids come from a counter in the store rather than from the database.
- Each request is one atomic step. The race between `findFirst` and `create` under concurrent POSTs is not modelled.
- The POST body's fields are taken as present. An unparsable body is a missing `SaveRequest`, which answers 500. Optional TypeScript fields (`website`, `linkedin`, `gpa`) are `""` when absent.
- The `saving` flag and its button state are not modelled. It only disables the button while the request is in flight.
- Dashboard.Editor.LoadResume: the page's fallback reads the `personalInfo` captured when the effect first ran, that is the initial empty value. The model merges with the current draft, which is the same value, because loading happens once on mount.
- The seed and debug endpoints and the landing page are not modelled. They are development helpers and static markup.
