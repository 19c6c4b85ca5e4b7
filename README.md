# JivIT-Solutions: a verified model of the site's data and form logic

JivIT-Solutions is a React marketing site with an admin back office. This
project models in Dafny the parts of it that hold logic worth stating:

- **The admin service's session cache** (`cacheManager` in `adminService.js`).
  - Records are kept in sessionStorage under the `jivit_cache_` prefix and stamped with their write time.
  - Records have a ten-minute time to live, checked lazily on read.
  - Invalidation removes every prefixed key that contains a pattern, as a substring.
- **The admin service's read-through getters and mutations.**
  - The backend is an oracle: each getter or mutation receives the result its query produced.
  - Mutations write first and invalidate only after the write succeeded.
  - Settings rows are folded into one object.
  - The blog slug is derived from the title when none is given.
- **The in-memory `CacheProvider`** (`CacheContext.jsx`). Entries expire after a per-entry time to live; the default is five minutes.
- **The public lead forms.**
  - The four-step application wizard (`ApplicationPage.jsx`).
  - The service inquiry form (`ServiceForm.jsx`).
  - Both split the visitor's name, build the message text line by line and submit one application record.
- **The admin edit modals** (`ServiceModal.jsx`, `ProgramModal.jsx`). A record's list field is shown as one line per entry and turned back into a list on save.
- **The admin pages' derived views.**
  - The catalogue managers' filters, stat cards, status toggle, save and delete (`ServiceManager.jsx`, `StudentManager.jsx`).
  - The application inbox's search, counts, status styles and initials.
  - The dashboard's stats, notification dot, activity list and greeting.
- **The chat assistant.** It has a fixed greeting, appends user messages, chooses a keyword-driven reply and offers quick actions.
- **Routing-driven chrome.**
  - Which pages hide the navbar, footer and assistant (`App.jsx`).
  - Which sidebar entry is highlighted (`AdminSidebar.jsx`).
  - How a service detail page labels its category and hands a service type to the inquiry form.
  - The blog's reading-time estimate.

Modules follow the source files. `Common` holds `Option`, `Result`, a JSON value type and JavaScript
truthiness. `Text` holds ASCII text operations: trim, case mapping, split/join, `includes` and
`startsWith`. `Lists` holds filters and counts. State that the source updates in place is modelled as
classes: `SessionCache`, `CacheProvider`, `ApplicationWizard`, `InquiryPage`, the two modal states and
`Assistant`. Each of their methods states its whole new state against a specification function, and lemmas
state the properties of those functions. Times (`Date.now()`) are parameters.

## Model

| member | source | states |
|---|---|---|
| CacheManager.SessionCache.Get | src/lib/adminService.js:11-25 | returns the value of a readable record within its time to live, else nothing; removes exactly a stale record |
| CacheManager.SessionCache.Set | src/lib/adminService.js:26-33 | stores the value stamped with the current time under the prefixed key; a refused write changes nothing |
| CacheManager.SessionCache.Invalidate | src/lib/adminService.js:34-40 | the loop over a snapshot of the keys removes exactly the prefixed keys containing the pattern |
| CacheManager.MissWhenAbsent | src/lib/adminService.js:11-14 | an absent key reads as null and leaves storage unchanged |
| CacheManager.StaleIsEvicted | src/lib/adminService.js:15-19 | a record older than the time to live is never returned and reading it removes only it |
| CacheManager.HitIsFresh | src/lib/adminService.js:11-25 | any value returned comes from a record no older than ten minutes, and a hit removes nothing |
| CacheManager.SetThenGet | src/lib/adminService.js:7-33 | after a set at t, get returns the value up to t + 10 min and nothing after |
| CacheManager.TtlBoundary | src/lib/adminService.js:16 | the expiry comparison is strict: exactly 600000 ms later is still a hit, 600001 is a miss |
| CacheManager.SetReplaces | src/lib/adminService.js:26-33 | a second set on a key replaces value and timestamp |
| CacheManager.SetIsolated | src/lib/adminService.js:26-33 | set changes no other key, and a refused write changes nothing |
| CacheManager.InvalidateExact | src/lib/adminService.js:34-40 | a key survives iff it lacks the prefix or does not contain the pattern; survivors are unchanged |
| CacheManager.InvalidatedKeyMisses | src/lib/adminService.js:34-40 | a cache key containing the pattern is removed, so the next get misses |
| CacheManager.SubstringOverreach | src/lib/adminService.js:34-40 | invalidating `program_1` also removes the cached `program_12` |
| AdminService.ReadThrough | src/lib/adminService.js:58-71 | queries the backend iff the cache has no truthy value; on a hit returns it and leaves storage alone; on a successful fetch stores it |
| AdminService.GetList | src/lib/adminService.js:58-71 | list getters follow the read-through rule under `<family>_<includeDrafts>` |
| AdminService.GetDetail | src/lib/adminService.js:73-83 | record getters follow the read-through rule under `<family>_<id>` (blogs by slug) |
| AdminService.GetSettings | src/lib/adminService.js:325-340 | on a miss with rows, returns and caches the fold of the rows; a failed query returns the error |
| AdminService.Mutate | src/lib/adminService.js:85-118 | returns the backend outcome; storage changes only on success, by invalidating the mutation's patterns in order |
| AdminService.InvalidateAllExact | src/lib/adminService.js:34-40 | after several invalidations a key survives iff no pattern matches it, with its entry unchanged |
| AdminService.HitLeavesStorage | src/lib/adminService.js:60-61 | a hit leaves storage unchanged and returns the stored record's value |
| AdminService.MissThenHit | src/lib/adminService.js:58-71 | after a miss that fetched a truthy value and stored it, a read within the TTL is a hit returning that value |
| AdminService.FalsyCachedValueRefetches | src/lib/adminService.js:60-61 | a cached falsy value (null, 0, '', false) is not served; the getter queries again |
| AdminService.FailedMutationKeepsCache | src/lib/adminService.js:85-96 | a failed write leaves the cache exactly as it was |
| AdminService.SinglePatternMutation | src/lib/adminService.js:85-96 | a mutation with one pattern is one invalidate |
| AdminService.ServiceWriteInvalidates | src/lib/adminService.js:85-118 | after a successful service write no service list or service record is a hit |
| AdminService.JobWriteInvalidates | src/lib/adminService.js:121-178 | after a successful job write no job list or job record is a hit |
| AdminService.BlogWriteInvalidates | src/lib/adminService.js:265-295 | after a successful blog write no blog list or blog record is a hit |
| AdminService.SettingWriteInvalidates | src/lib/adminService.js:342-352 | after a successful settings write the cached settings are gone |
| AdminService.ProgramWriteInvalidates | src/lib/adminService.js:217-235 | after a successful program update or soft delete both program lists and that program's record miss |
| AdminService.ProgramListsInvalidated | src/lib/adminService.js:208-235 | every successful program write, creation included, drops both program lists |
| AdminService.ProgramCreateKeepsRecords | src/lib/adminService.js:208-215 | creating a program leaves cached program records in place |
| AdminService.ProgramsPatternAbsent | src/lib/adminService.js:212-213 | a program record key contains neither list pattern |
| AdminService.FoldSettingsKeys | src/lib/adminService.js:333-336 | the settings object has a key iff some row carries it |
| AdminService.FoldSettingsLastWins | src/lib/adminService.js:333-336 | a key's value is that of the last row carrying it |
| BlogSlug.InsertSlug | src/lib/adminService.js:265-269 | a non-empty slug is kept; otherwise the slug derived from the title is a well-formed slug |
| BlogSlug.SlugifyIsSlug | src/lib/adminService.js:267-269 | the derived slug has only lower-case letters, digits and single inner dashes, and keeps every letter and digit of the lower-cased title in order |
| BlogSlug.CollapseShape | src/lib/adminService.js:268 | replacing each run of other characters by one dash leaves only slug characters, no double dash, and the same letters and digits |
| BlogSlug.SlugFixedPoint | src/lib/adminService.js:267-269 | a well-formed slug derives to itself |
| BlogSlug.SlugifyIdempotent | src/lib/adminService.js:267-269 | deriving a slug twice gives the same slug |
| BlogSlug.NoAlnumsEmptySlug | src/lib/adminService.js:267-269 | a title without letters or digits gives the empty slug |
| CacheContext.CacheProvider.constructor | src/context/CacheContext.jsx:6 | the cache starts empty |
| CacheContext.CacheProvider.SetCache | src/context/CacheContext.jsx:9-14 | stores the data with expiry now plus the given or default TTL |
| CacheContext.CacheProvider.GetCache | src/context/CacheContext.jsx:17-25 | returns live data, null when absent or expired, and deletes an expired entry |
| CacheContext.CacheProvider.ClearCache | src/context/CacheContext.jsx:28-33 | a truthy key deletes that entry; no key or '' clears all |
| CacheContext.SetCacheReplaces | src/context/CacheContext.jsx:9-14 | the entry's expiry is now + ttl (300000 by default); other keys are untouched |
| CacheContext.GetAbsent | src/context/CacheContext.jsx:17-19 | an absent key reads as null and changes nothing |
| CacheContext.GetExpiry | src/context/CacheContext.jsx:17-25 | past expiry the entry reads null and is deleted; up to expiry it is returned |
| CacheContext.SetThenGetCache | src/context/CacheContext.jsx:9-25 | data set at t is read back at any time up to t + ttl, even with ttl 0 at t |
| CacheContext.ClearCacheEffect | src/context/CacheContext.jsx:28-33 | clear with a key removes only that key; without one removes everything |
| Leads.SplitNameAtSpace | src/pages/ApplicationPage.jsx:103-105 | with a space in the trimmed name, first and last name are the parts around the first space and rejoin to the trimmed name |
| Leads.SplitNameSingle | src/pages/ApplicationPage.jsx:103-105 | without a space, the first name is the trimmed name (or 'N/A' if empty) and the last name 'N/A' |
| Leads.AppendLine | src/pages/ApplicationPage.jsx:108-110 | appending a line with a newline separator gives the join of the extended line list |
| ApplicationPage.ComposeMessage | src/pages/ApplicationPage.jsx:107-110 | the message is the newline join of the message lines |
| ApplicationPage.AssembleSubmission | src/pages/ApplicationPage.jsx:103-120 | the submitted record is the specified application record |
| ApplicationPage.ApplicationWizard.constructor | src/pages/ApplicationPage.jsx:50-65 | the wizard starts at step 1 with an empty form, not submitting, not succeeded |
| ApplicationPage.ApplicationWizard.Next | src/pages/ApplicationPage.jsx:82-85 | the step becomes min(step + 1, 4); nothing else changes |
| ApplicationPage.ApplicationWizard.Prev | src/pages/ApplicationPage.jsx:87-90 | the step becomes max(step - 1, 1); nothing else changes |
| ApplicationPage.ApplicationWizard.UploadResume | src/pages/ApplicationPage.jsx:92-97 | a chosen file sets resume and resume name; no file changes nothing |
| ApplicationPage.ApplicationWizard.ToggleConsent | src/pages/ApplicationPage.jsx:312 | the consent flag flips and nothing else changes |
| ApplicationPage.ApplicationWizard.TrackInsert | src/pages/ApplicationPage.jsx:101-129 | success is set iff the insert succeeded (or already was); submitting ends false |
| ApplicationPage.ApplicationWizard.Submit | src/pages/ApplicationPage.jsx:99-130 | sends the record built from the form; success iff the insert succeeded; the form and step are kept |
| ApplicationPage.NavigationButtons | src/pages/ApplicationPage.jsx:361-373 | on steps 1-4 exactly one of Continue and Submit shows; Submit only on step 4; Previous from step 2 |
| ApplicationPage.SubmitGate | src/pages/ApplicationPage.jsx:69-80 | step 4 is always valid; Submit is enabled iff not submitting and consent is given |
| ApplicationPage.StepValidity | src/pages/ApplicationPage.jsx:69-80 | each step's validity condition, both directions |
| ApplicationPage.EmptyFormBlocksContinue | src/pages/ApplicationPage.jsx:51-71 | with the initial form Continue is disabled on step 1 |
| ApplicationPage.MessageShape | src/pages/ApplicationPage.jsx:107-110 | three fixed lines first, one per filled optional field, the resume line last when present |
| ApplicationPage.MessageSplits | src/pages/ApplicationPage.jsx:107-110 | with no newline in the fields, splitting the message on newlines gives back its lines |
| ApplicationPage.SourceOfSubmission | src/pages/ApplicationPage.jsx:118-119 | source id is null iff the id is 'general'; source type is general/student_program/job by id and path |
| ApplicationPage.PhoneAndEmail | src/pages/ApplicationPage.jsx:115-116 | an empty phone is sent as null; the email as entered |
| ServiceForm.DefaultService | src/pages/ServiceForm.jsx:11-20 | a navigation service type wins; otherwise the first of it-solutions/wellness/platform found in the path, else '' |
| ServiceForm.ComposeInquiry | src/pages/ServiceForm.jsx:58-71 | the message is the newline join of the inquiry lines |
| ServiceForm.AssembleInquiry | src/pages/ServiceForm.jsx:54-82 | the submitted record is the specified inquiry record |
| ServiceForm.InquiryPage.constructor | src/pages/ServiceForm.jsx:11-41 | the form starts empty with 'consultation'; the service type is the navigation one, else it/wellness/platform by the first fragment found in the path, else ''; the title comes from navigation state |
| ServiceForm.InquiryPage.UploadDocument | src/pages/ServiceForm.jsx:43-48 | a chosen file sets document and document name; no file changes nothing |
| ServiceForm.InquiryPage.TrackInsert | src/pages/ServiceForm.jsx:52-91 | success is set iff the insert succeeded (or already was); submitting ends false |
| ServiceForm.InquiryPage.Submit | src/pages/ServiceForm.jsx:50-92 | sends the record built from the form and title; success iff the insert succeeded |
| ServiceForm.InquiryShape | src/pages/ServiceForm.jsx:58-71 | the exact lines for consultation, appointment and other engagements; the document line last iff a document is named |
| ServiceForm.ServiceAreaFallback | src/pages/ServiceForm.jsx:60 | the service area falls back from service type to service title to 'N/A' |
| ServiceForm.InquiryPayload | src/pages/ServiceForm.jsx:74-82 | no phone, no source id, type 'service_inquiry', the name split as on the application page |
| ModalForm.TextToLinesSpec | src/components/admin/ServiceModal.jsx:41 | the submitted list is an order-preserving sub-list of the lines holding exactly the non-blank ones |
| ModalForm.LinesRoundTrip | src/components/admin/ServiceModal.jsx:19-41 | joining non-blank one-line entries and splitting them again gives them back |
| ModalForm.NotAListSubmitsEmpty | src/components/admin/ServiceModal.jsx:19 | a list field that is not an array loads as '' and is saved as [] |
| ModalForm.PayloadKeepsFields | src/components/admin/ServiceModal.jsx:39-42 | the payload keeps every other form field and replaces the list field |
| ModalForm.PayloadOfLoad | src/components/admin/ServiceModal.jsx:39-42 | a form whose lines encode the record's list saves back to the record |
| ModalForm.RecordRoundTrip | src/components/admin/ServiceModal.jsx:15-42 | a record with a well-formed list, loaded and saved unchanged, is saved as itself |
| ModalForm.NonBlankIsTrimTest | src/components/admin/ServiceModal.jsx:41 | the line filter keeps a line iff trimming it leaves something |
| ServiceModal.ServiceModalState.constructor | src/components/admin/ServiceModal.jsx:5-13 | the form starts at the new-service defaults, not loading, not closed |
| ServiceModal.ServiceModalState.Reset | src/components/admin/ServiceModal.jsx:15-31 | the form is the service with benefits as lines, or the defaults |
| ServiceModal.ServiceModalState.Submit | src/components/admin/ServiceModal.jsx:35-52 | passes the payload; closes only when the save succeeded; loading ends false |
| ServiceModal.NewServicePayload | src/components/admin/ServiceModal.jsx:22-41 | a new service saves its defaults with an empty benefits list |
| ServiceModal.EditRoundTrip | src/components/admin/ServiceModal.jsx:15-42 | the form keeps every field but benefits; well-formed benefits save back unchanged; a non-array saves as [] |
| ProgramModal.OrDefault | src/components/admin/ProgramModal.jsx:20 | `x || fallback`: the fallback, or the record's own truthy value |
| ProgramModal.ProgramModalState.constructor | src/components/admin/ProgramModal.jsx:5-14 | the form starts at the new-program defaults |
| ProgramModal.ProgramModalState.Reset | src/components/admin/ProgramModal.jsx:16-33 | the form is the program with defaults and requirements as lines, or the new-program defaults |
| ProgramModal.ProgramModalState.Submit | src/components/admin/ProgramModal.jsx:37-54 | passes the payload; closes only when the save succeeded |
| ProgramModal.NewProgramPayload | src/components/admin/ProgramModal.jsx:23-43 | a new program saves its defaults with an empty requirements list |
| ProgramModal.EditDefaults | src/components/admin/ProgramModal.jsx:18-21 | missing or falsy subtitle/image URL become '' and category 'career'; other fields kept |
| ProgramModal.EditRoundTrip | src/components/admin/ProgramModal.jsx:16-44 | a program with set defaults and well-formed requirements saves back unchanged |
| Catalog.ToggleSpec | src/pages/admin/ServiceManager.jsx:62-70 | published toggles to draft and anything else to published; toggling twice restores the status |
| Catalog.SaveBranches | src/pages/admin/ServiceManager.jsx:27-39 | an edit updates that record, otherwise a create is issued; after a successful save neither cached list nor the edited record is served from the cache |
| Catalog.SaveClosesOnlyOnSuccess | src/pages/admin/ServiceManager.jsx:27-39 | a failed save leaves the cache as it was, keeps the modal open and rethrows; a successful one closes the modal and refetches a list the cache no longer holds |
| Catalog.DeleteOnlyWhenConfirmed | src/pages/admin/ServiceManager.jsx:51-60 | without confirmation nothing is written and the cache is untouched; a confirmed soft delete that succeeded makes the list and the record miss the cache, a failed one changes nothing |
| Catalog.ToggleWrites | src/pages/admin/ServiceManager.jsx:62-70 | the toggle updates that record with only the flipped status; a failure leaves the cache as it was, a success makes the list and the record miss it |
| Catalog.RefetchAfterWriteMisses | src/pages/admin/StudentManager.jsx:27-39 | after any successful write of a family both of its cached lists miss, so the refetch reaches the backend |
| Catalog.WriteMissesRecord | src/pages/admin/StudentManager.jsx:51-70 | after a successful update or soft delete the record's own cached entry misses |
| ServiceManager.FilteredSpec | src/pages/admin/ServiceManager.jsx:72-75 | the filter keeps, in order, exactly the matching services; the empty term keeps all |
| ServiceManager.StatsSpec | src/pages/admin/ServiceManager.jsx:77-79 | active plus maintenance never exceeds the total; other statuses are in neither |
| StudentManager.FilteredSpec | src/pages/admin/StudentManager.jsx:72-76 | the filter keeps, in order, exactly the matching programs; the empty term keeps all |
| StudentManager.StatsSpec | src/pages/admin/StudentManager.jsx:78-80 | draft/closed counts the unpublished; active plus it is the total; the other cards are 45 and 3 |
| ApplicationInbox.FilteredSpec | src/pages/admin/ApplicationInbox.jsx:34-39 | the search keeps, in order, exactly the matching applications |
| ApplicationInbox.EmptyTermKeepsPresent | src/pages/admin/ApplicationInbox.jsx:34-39 | the empty term keeps exactly the applications with some searchable field present |
| ApplicationInbox.SearchIgnoresCase | src/pages/admin/ApplicationInbox.jsx:35-38 | the search gives the same result for the upper- or lower-cased term |
| ApplicationInbox.CountsBounded | src/pages/admin/ApplicationInbox.jsx:41-42 | pending plus accepted never exceeds the total |
| ApplicationInbox.StatusStylesDistinct | src/pages/admin/ApplicationInbox.jsx:44-52 | the four statuses get four distinct styles, anything else the default |
| ApplicationInbox.InitialsSpec | src/pages/admin/ApplicationInbox.jsx:54-56 | '??' without initials; otherwise the upper-cased first letters |
| Dashboard.StatsSpec | src/pages/admin/Dashboard.jsx:20-36 | published and new counts never exceed totals; a failed services, jobs or applications fetch counts as empty without affecting the other counts; failed logs show none |
| Dashboard.NotificationDotSpec | src/pages/admin/Dashboard.jsx:82 | the dot shows iff some fetched application is new |
| Dashboard.VisibleLogsSpec | src/pages/admin/Dashboard.jsx:185 | the activity list shows the first min(4, n) logs |
| Dashboard.IconSpec | src/pages/admin/Dashboard.jsx:186-192 | create/update/delete icons in any case; every other action gets 'sync' |
| Dashboard.UserNameSpec | src/pages/admin/Dashboard.jsx:55 | the greeting is the first word of the full name, or 'Admin'; never empty, never with a space |
| ChatAssistant.ChooseResponse | src/components/Assistant/ChatAssistant.jsx:59-65 | the reply is the response for the text's topic |
| ChatAssistant.Assistant.constructor | src/components/Assistant/ChatAssistant.jsx:6-11 | the conversation starts with the single greeting, empty input, not typing |
| ChatAssistant.Assistant.Send | src/components/Assistant/ChatAssistant.jsx:43-55 | blank text changes nothing; otherwise the text is appended verbatim, the input cleared and typing starts |
| ChatAssistant.Assistant.DeliverReply | src/components/Assistant/ChatAssistant.jsx:58-76 | appends one bot message with the topic's reply and stops typing |
| ChatAssistant.Assistant.QuickAction | src/components/Assistant/ChatAssistant.jsx:79-81 | sends the button's label |
| ChatAssistant.ReplyIgnoresCase | src/components/Assistant/ChatAssistant.jsx:59 | the topic is the same for upper- and lower-cased text |
| ChatAssistant.ServicesFirst | src/components/Assistant/ChatAssistant.jsx:62 | any text containing 'service' gets the services reply |
| ChatAssistant.StudentServicesExample | src/components/Assistant/ChatAssistant.jsx:62-64 | 'student services' gets the services reply, not the students one |
| ChatAssistant.QuickActionReplies | src/components/Assistant/ChatAssistant.jsx:13-18 | the four quick action labels get the services, careers, students and contact replies |
| ChatAssistant.DefaultReply | src/components/Assistant/ChatAssistant.jsx:60-65 | text with none of the keywords gets the default reply |
| BlogDetail.StripTags | src/pages/BlogDetail.jsx:55 | tag stripping never lengthens the text and leaves no '<' |
| BlogDetail.NoTagsUnchanged | src/pages/BlogDetail.jsx:55 | text without '<' is unchanged |
| BlogDetail.ClosedTagRemoved | src/pages/BlogDetail.jsx:55 | a closed tag is removed and the rest stripped |
| BlogDetail.UnclosedTagRemovesRest | src/pages/BlogDetail.jsx:55 | an unclosed '<' removes the rest of the text |
| BlogDetail.SplitWsPieces | src/pages/BlogDetail.jsx:55 | no piece of the whitespace split contains whitespace |
| BlogDetail.SplitWsWord | src/pages/BlogDetail.jsx:55 | text without whitespace is one piece |
| BlogDetail.SplitWsLeading | src/pages/BlogDetail.jsx:55 | leading whitespace yields an empty first piece |
| BlogDetail.SplitWsTrailing | src/pages/BlogDetail.jsx:55 | trailing whitespace yields an empty last piece |
| BlogDetail.SplitWsSpaced | src/pages/BlogDetail.jsx:55 | text with whitespace splits into at least two pieces |
| BlogDetail.ReadingTimeSpec | src/pages/BlogDetail.jsx:56 | at least one minute; for n > 0 words, n / 200 rounded up |
| BlogDetail.ReadingTimeExamples | src/pages/BlogDetail.jsx:55-56 | missing or empty content counts 0 words and 1 minute; 200 words 1 minute, 201 words 2 |
| BlogDetail.ReadingTimeMonotone | src/pages/BlogDetail.jsx:56 | more words never mean less reading time |
| ServiceDetail.CtaStateSpec | src/pages/ServiceDetail.jsx:49-57 | the inquiry form gets one of it/wellness/platform and the service's own title |
| ServiceDetail.LabelAndTypeAgreement | src/pages/ServiceDetail.jsx:41-55 | label and service type per category; an unknown category is labelled Platform Enablement yet typed 'it' |
| AdminSidebar.ActiveSpec | src/components/AdminSidebar.jsx:6 | the overview is active only on its exact path; other entries are active on any path starting with theirs |
| AdminSidebar.PlainPrefix | src/components/AdminSidebar.jsx:6 | the prefix test is textual: /admin/servicesX highlights Services |
| AdminSidebar.OneItemPerRoute | src/components/AdminSidebar.jsx:6-20 | on each entry's own path exactly that entry is highlighted |
| AdminSidebar.HelpNeverActive | src/components/AdminSidebar.jsx:6-20 | the '#' help entry is never highlighted on a real path |
| AppLayout.ExactPages | src/App.jsx:46-49 | login and register hide the chrome only on their exact paths; admin login is also hidden under any extension through the `/admin` prefix |
| AppLayout.AdminPrefixHides | src/App.jsx:50 | every path starting with /admin hides it, /administrator included |
| AppLayout.DetailPrefixes | src/App.jsx:51-55 | detail pages under /careers/, /students/, /services/ and /service-form hide it; the bare lists do not |
| AppLayout.PublicRoutesShowChrome | src/App.jsx:68-86 | home, about, the three service areas, blog and every blog post, contact, profile and the careers and students lists show navbar, footer and assistant |
| AppLayout.HiddenRoutesHideChrome | src/App.jsx:47-107 | every /admin route, login, admin login, register, and the detail, apply and inquiry pages hide all three |

## Left out

- The Supabase backend and auth: each query or mutation is a `Result` parameter. The activity log (`logAction`) and the null-user failure of creation are not modelled; a throw from `getUser` inside `logAction` would skip the invalidation, which is not modelled either.
- getApplications, getActivityLogs, submitApplication and updateApplicationStatus: plain backend calls with no cache. They appear only as the results or records they exchange.
- sessionStorage: JSON parsing is reduced to a readable record or `Unreadable`. Quota errors are a `written` flag, and the order of key enumeration is abstracted by a set.
- Text is ASCII: case mapping and whitespace follow ASCII, not Unicode.
- Asynchrony: `await`, the assistant's one-second `setTimeout` and overlapping requests are not modelled. A reply is delivered by a separate call.
- Clocks: `Date.now()` is a parameter and message timestamps are the same `now`. Date formatting is not modelled.
- JavaScript numbers are unbounded integers.
- AdminService.FoldSettingsLastWins: a row keyed `__proto__` is treated as an ordinary key.
- ModalForm.ListOf: an array holding anything but strings is treated as not a list.
- Dashboard.StatsSpec: the `degraded` status on an unexpected exception is not modelled, because each fetch already falls back to `[]`.
- ApplicationInbox.InitialsSpec: the two-letter case states only that initials are the upper-cased first letters. It does not state the converse.
- ServiceDetail.CtaStateSpec: a missing category is modelled as an arbitrary string that matches no known category.
- ApplicationPage.ApplicationWizard.TrackInsert: the transient `isSubmitting = true` during the request is collapsed; only the settled state is stated.
- ServiceForm.InquiryPage.TrackInsert: the transient `isSubmitting = true` during the request is collapsed; only the settled state is stated.
- Input `onChange` handlers, the progress bar, scrolling, alerts and all rendering are not modelled.
- ProgramModal.jsx:61 reads an undefined `job` when rendering the title. Rendering is not modelled.
- Login, registration, the settings and audit-log pages, animations and the public presentation pages hold no modelled logic.
