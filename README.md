# Portfolio site: admin editors, list views, public sections and footer shortcut

This project models the logic of a personal portfolio web site. The site is a
React single-page application whose data lives in a hosted Postgres database.
Visitors see four data-driven sections:

- a carousel of certificates, six at a time;
- project cards under category filter buttons;
- a timeline of work experience;
- a fixed table of technologies, shown one category at a time.

When the database cannot deliver a list, each section falls back to built-in
sample data. The footer hides a shortcut to the admin login: three quick
clicks on an inert element.

Behind the login, three list views manage projects, certificates and
experiences. Each has fetch, confirmed delete and an editor dialog. There are
three editor forms and a profile editor. The forms hold a draft record:

- technology tags are added trimmed, non-blank and unique, and removed by value;
- achievements are added trimmed and non-blank, and removed by position;
- dates are cut at their `'T'`;
- an image is either a typed URL or an uploaded file. A file must be an
  `image/*` type of at most 5 MiB and is read into a data URL;
- submitting inserts a new row or updates the edited one, with a `saving`
  flag while the request is in flight.

Each component is a `class` whose fields are the component's state and whose
methods are its event handlers. Every handler is one atomic step: its
queued state updates are applied in order. The database's answer, the
user's confirmation, the chosen file's type, size and content, fresh ids and
timestamps all arrive as method parameters. The pure parts are functions,
and lemmas state what the site promises about them:

- trimming, date cutting and the list edits (`Text`, `Seqs`, `DraftLists`);
- the image checks (`ImageUpload`);
- the fetch policies (`Remote`);
- the display rules (`Display`), the carousel arithmetic, the category
  filters and the click counter.

## Model

| member | source | states |
|---|---|---|
| Wrappers.OrEmpty | src/components/Admin/ProjectForm.tsx:39-55 | `x \|\| ''` on an optional string: absent reads as '', present as its value |
| Text.TrimStartSpec | src/components/Admin/ProjectForm.tsx:65-73 | what the leading trim keeps is a suffix of the input, everything dropped is white space, and it does not start with white space |
| Text.TrimEndSpec | src/components/Admin/ProjectForm.tsx:65-73 | what the trailing trim keeps is a prefix of the input, everything dropped is white space, and it does not end with white space |
| Text.TrimShape | src/components/Admin/ProjectForm.tsx:65-73 | `trim` keeps one contiguous piece of the text with no white space at either end, and drops only white space |
| Text.TrimEmptyIffBlank | src/components/Admin/ExperienceForm.tsx:76-84 | a text trims to '' exactly when all its characters are white space: the blank-input test of the add buttons |
| Text.TrimKeepsUnpadded | src/components/Admin/ProjectForm.tsx:65-73 | a non-empty text with no white space at either end trims to itself |
| Text.TrimIdempotent | src/components/Admin/ProjectForm.tsx:65-73 | trimming twice is trimming once |
| Text.DateOnly | src/components/Admin/ExperienceForm.tsx:28-37 | `split('T')[0]` is a prefix of the text with no 'T', ending at the first 'T' when there is one |
| Text.DateOnlyNoT | src/components/Admin/CertificateForm.tsx:27-36 | a date without a time part is left unchanged by the cut |
| Text.DateOnlyIdempotent | src/components/Admin/ExperienceForm.tsx:28-37 | cutting an already cut date changes nothing |
| Seqs.Filter | src/components/Admin/ProjectForm.tsx:75-80 | `filter` never lengthens a list |
| Seqs.FilterMembers | src/components/Sections/ProjectsSection.tsx:100-102 | every survivor of a filter comes from the list and passes the test; every element that passes survives |
| Seqs.FilterIsSubsequence | src/components/Admin/ProjectForm.tsx:75-80 | filtering keeps the survivors in their original order |
| Seqs.FilterCounts | src/components/Admin/ProjectsManager.tsx:52 | filtering keeps each passing value as often as it occurred and drops every other one |
| Seqs.FilterAppend | src/components/Sections/TechnologiesSection.tsx:60 | filtering a concatenation filters each part |
| Seqs.FilterKeepsAll | src/components/Sections/TechnologiesSection.tsx:60 | a test every element passes leaves the list unchanged |
| Seqs.FilterRejectsAll | src/components/Sections/ProjectsSection.tsx:100-102 | a test no element passes leaves an empty list |
| Seqs.FilterIdempotent | src/components/Admin/ProjectsManager.tsx:52 | filtering twice with the same test is filtering once |
| Seqs.FilterKeepsDistinct | src/components/Admin/ProjectForm.tsx:75-80 | a list without repeats still has none after a filter |
| Seqs.FilterIndexSpec | src/components/Admin/ExperienceForm.tsx:86-91 | the index filter drops exactly the element at the given position, if it is in range |
| Seqs.RemoveAtSpec | src/components/Admin/ExperienceForm.tsx:86-91 | `filter((_, i) => i !== index)` drops exactly element `index`, keeping the others in order and shortening the list by one; an out-of-range index changes nothing |
| Remote.AdminFetch | src/components/Admin/ProjectsManager.tsx:18-35 | admin fetch: returned rows replace the list, `null` data gives [], an error or exception keeps the current list |
| Remote.SectionFetch | src/components/Sections/ProjectsSection.tsx:26-46 | public fetch: any returned array is shown, [] included; an error, exception or `null` data shows the sample list |
| Remote.AdminFetchLastWins | src/components/Admin/ProjectsManager.tsx:65-69 | the refetch after closing the editor replaces whatever earlier fetches left; nothing is merged |
| ImageUpload.CheckTypeThenSize | src/components/Admin/ProjectForm.tsx:86-96 | a file is accepted iff its type starts with "image/" and its size is at most 5 MiB; a non-image is reported as such even when too large |
| ImageUpload.CheckSizeThenType | src/components/Admin/ProfileManager.tsx:67-75 | the same acceptance, but an oversized file is reported as too large whatever its type |
| ImageUpload.CheckOrderOnlyChangesTheMessage | src/components/Admin/ProfileManager.tsx:64-76 | both check orders accept the same files; they differ exactly on files that fail both checks |
| ImageUpload.CeilingIsInclusive | src/components/Admin/ProjectForm.tsx:92-96 | the ceiling is 5242880 bytes: a file of exactly 5 MiB is accepted, one byte more is refused |
| Display.PreviewTechnologies | src/components/Sections/ProjectsSection.tsx:248-259 | a card shows a prefix of min(3, n) technologies and a "+(n-3)" badge iff n > 3; shown plus badge equals n |
| Display.EndDateLabel | src/components/Sections/ExperienceSection.tsx:199-209 | the range ends in "Presente" iff the end date is absent or empty, otherwise in that end date |
| Display.PulsesIffPresent | src/components/Sections/ExperienceSection.tsx:171-173 | the timeline marker pulses exactly on the rows whose range ends in "Presente" |
| Display.RowDirection | src/components/Sections/ExperienceSection.tsx:166-168 | a row uses the normal direction iff its index is even |
| Display.RowsAlternate | src/components/Sections/ExperienceSection.tsx:180-182 | consecutive timeline rows face opposite ways |
| DraftLists.AddTechnology | src/components/Admin/ProjectForm.tsx:65-73 | a trimmed, non-empty, not yet listed tag is appended at the end; otherwise the list is unchanged |
| DraftLists.AddTechnologyKeepsDistinct | src/components/Admin/ProjectForm.tsx:66-70 | adding never introduces a repeated tag |
| DraftLists.AddTechnologyIdempotent | src/components/Admin/ProjectForm.tsx:65-73 | adding the same text a second time changes nothing |
| DraftLists.RemoveTechnologySpec | src/components/Admin/ProjectForm.tsx:75-80 | removing a tag deletes every copy and keeps every other tag, as often as it occurred and in order |
| DraftLists.RemoveTechnologyKeepsDistinct | src/components/Admin/ExperienceForm.tsx:69-74 | removing never introduces a repeated tag |
| DraftLists.AddThenRemoveTechnology | src/components/Admin/ExperienceForm.tsx:59-74 | removing a tag just added gives back the list as it was |
| DraftLists.TechnologyExamples | src/components/Admin/ProjectForm.tsx:65-73 | "React" added twice gives one "React"; "React" then "Go" gives both, in that order |
| DraftLists.AddTwice | src/components/Admin/ExperienceForm.tsx:59-67 | two trimmed tags added to an empty list: a repeat is dropped, a new tag is appended |
| DraftLists.AddAchievement | src/components/Admin/ExperienceForm.tsx:76-84 | any non-blank text is appended trimmed; blank input leaves the list unchanged |
| DraftLists.AchievementsMayRepeat | src/components/Admin/ExperienceForm.tsx:76-84 | the same achievement added twice is listed twice |
| DraftLists.RemoveAchievementSpec | src/components/Admin/ExperienceForm.tsx:86-91 | removing achievement i drops exactly that entry and keeps the others in order; an out-of-range i changes nothing |
| DraftLists.AddThenRemoveAchievement | src/components/Admin/ExperienceForm.tsx:76-91 | removing the position of the achievement just added gives back the list as it was |
| ProjectFormComponent.DraftOf | src/components/Admin/ProjectForm.tsx:39-55 | editing a project fills the draft with its fields, absent URLs as '' |
| ProjectFormComponent.ProjectForm.constructor | src/components/Admin/ProjectForm.tsx:23-55 | mounting starts from the empty draft, or the edited project's draft with its image as the preview; no file, no upload in progress |
| ProjectFormComponent.ProjectForm.UrlFieldValue | src/components/Admin/ProjectForm.tsx:353-361 | the URL input shows '' while a file is chosen, otherwise the draft's image URL |
| ProjectFormComponent.ProjectForm.HandleInputChange | src/components/Admin/ProjectForm.tsx:57-63 | a text input or the select sets its own draft field and nothing else; the disabled URL input sends no change |
| ProjectFormComponent.ProjectForm.HandleFeaturedChange | src/components/Admin/ProjectForm.tsx:57-63 | the checkbox sets `featured` and nothing else |
| ProjectFormComponent.ProjectForm.SetTechInput | src/components/Admin/ProjectForm.tsx:34-37 | typing in the technology input changes only that input |
| ProjectFormComponent.ProjectForm.HandleAddTechnology | src/components/Admin/ProjectForm.tsx:65-73 | the tag list becomes `AddTechnology` of the old list and input, the input is cleared iff the tag was taken, repeats never appear, the image state is kept |
| ProjectFormComponent.ProjectForm.HandleTechKeyPress | src/components/Admin/ProjectForm.tsx:270 | Enter performs exactly the button's add; any other key changes nothing |
| ProjectFormComponent.ProjectForm.HandleRemoveTechnology | src/components/Admin/ProjectForm.tsx:75-80 | the tag list loses every copy of the tag, keeps the rest in order, and stays free of repeats |
| ProjectFormComponent.ProjectForm.HandleImageUpload | src/components/Admin/ProjectForm.tsx:82-99 | no file or a refused file changes nothing; an accepted file is recorded and the upload marked in progress; the draft and preview are untouched |
| ProjectFormComponent.ProjectForm.ImageLoaded | src/components/Admin/ProjectForm.tsx:101-111 | the data URL becomes both the preview and the draft's image URL, and the upload ends |
| ProjectFormComponent.ProjectForm.HandleRemoveImage | src/components/Admin/ProjectForm.tsx:114-121 | no file, no preview, no image URL; the rest of the draft is kept |
| ProjectFormComponent.ProjectForm.HandleSubmit | src/components/Admin/ProjectForm.tsx:123-179 | nothing is sent unless title, description and category are filled; an existing project is updated by its id, a new one inserted; the image URL is the file's data URL when a file is chosen; every other field is the draft's; once the first read of the file has finished, the draft goes out unchanged iff the second read yields the preview's data URL; the dialog closes iff the database reports no error |
| ExperienceFormComponent.DraftOf | src/components/Admin/ExperienceForm.tsx:27-37 | editing fills the draft with both dates cut at the 'T' and an absent or empty end date as '' |
| ExperienceFormComponent.PayloadOf | src/components/Admin/ExperienceForm.tsx:98-102 | the payload is the draft with `end_date \|\| null` (null iff '') and `updated_at` the current time |
| ExperienceFormComponent.SaveUnchangedRoundTrip | src/components/Admin/ExperienceForm.tsx:27-102 | opening an experience whose dates have no time part and saving it unchanged writes back the same values |
| ExperienceFormComponent.EmptyEndDateSavedAsNull | src/components/Admin/ExperienceForm.tsx:34 | a stored empty end date comes back from an unchanged save as null |
| ExperienceFormComponent.ExperienceForm.constructor | src/components/Admin/ExperienceForm.tsx:14-49 | mounting fills the draft from the experience, or with empty fields and lists when there is none |
| ExperienceFormComponent.ExperienceForm.ReceiveExperience | src/components/Admin/ExperienceForm.tsx:27-49 | a changed experience prop replaces the draft; an unchanged one keeps it; the typing inputs and `saving` are kept |
| ExperienceFormComponent.ExperienceForm.HandleInputChange | src/components/Admin/ExperienceForm.tsx:51-57 | an input sets its own draft field and nothing else |
| ExperienceFormComponent.ExperienceForm.SetNewTech | src/components/Admin/ExperienceForm.tsx:23 | typing in the technology input changes only that input |
| ExperienceFormComponent.ExperienceForm.SetNewAchievement | src/components/Admin/ExperienceForm.tsx:24 | typing in the achievement input changes only that input |
| ExperienceFormComponent.ExperienceForm.AddTechnologyClicked | src/components/Admin/ExperienceForm.tsx:59-67 | the tag list becomes `AddTechnology` of the old list and input, the input is cleared iff the tag was taken, repeats never appear |
| ExperienceFormComponent.ExperienceForm.RemoveTechnologyClicked | src/components/Admin/ExperienceForm.tsx:69-74 | every copy of the tag goes, the rest keep their order and stay free of repeats |
| ExperienceFormComponent.ExperienceForm.AddAchievementClicked | src/components/Admin/ExperienceForm.tsx:76-84 | non-blank text is appended trimmed and the input cleared; blank text changes nothing |
| ExperienceFormComponent.ExperienceForm.RemoveAchievementClicked | src/components/Admin/ExperienceForm.tsx:86-91 | the achievement at the index goes and the others keep their order |
| ExperienceFormComponent.ExperienceForm.BeginSubmit | src/components/Admin/ExperienceForm.tsx:93-125 | nothing is sent while saving or with a required field empty; otherwise `saving` is set and the payload goes out as an update by the edited experience's id or an insert with a fresh id and creation time |
| ExperienceFormComponent.ExperienceForm.FinishSubmit | src/components/Admin/ExperienceForm.tsx:127-133 | the form closes iff the database reports no error; `saving` is cleared either way |
| CertificateFormComponent.DraftOf | src/components/Admin/CertificateForm.tsx:27-36 | editing fills the draft with the date cut at the 'T' and an absent description as '' |
| CertificateFormComponent.NoImageNoSubmit | src/components/Admin/CertificateForm.tsx:287 | without a file and a typed URL the form cannot be submitted; with a file the URL is not required |
| CertificateFormComponent.SaveUnchangedRoundTrip | src/components/Admin/CertificateForm.tsx:27-109 | opening a certificate whose date has no time part and saving it unchanged writes back the same values, an absent description as '' |
| CertificateFormComponent.CertificateForm.constructor | src/components/Admin/CertificateForm.tsx:14-48 | mounting fills the draft and the preview from the certificate, or empties them; no file is chosen |
| CertificateFormComponent.CertificateForm.ReceiveCertificate | src/components/Admin/CertificateForm.tsx:26-48 | a changed certificate prop resets the draft, the preview and the chosen file; an unchanged one keeps them |
| CertificateFormComponent.CertificateForm.HandleInputChange | src/components/Admin/CertificateForm.tsx:50-56 | an input sets its own draft field and nothing else; the disabled URL input sends no change |
| CertificateFormComponent.CertificateForm.HandleImageUpload | src/components/Admin/CertificateForm.tsx:58-78 | the type is checked before the size; a refused file changes nothing; an accepted one is recorded and the read marked in progress |
| CertificateFormComponent.CertificateForm.ImageLoaded | src/components/Admin/CertificateForm.tsx:79-86 | the data URL becomes the preview and the typed URL is cleared |
| CertificateFormComponent.CertificateForm.RemoveImage | src/components/Admin/CertificateForm.tsx:91-98 | no file, no preview, no URL; the rest of the draft is kept |
| CertificateFormComponent.CertificateForm.SubmittedImageUrl | src/components/Admin/CertificateForm.tsx:107 | the image sent is the preview when a file is chosen, otherwise the typed URL, and a read file never coexists with a typed URL |
| CertificateFormComponent.CertificateForm.BeginSubmit | src/components/Admin/CertificateForm.tsx:100-132 | nothing is sent while saving or with a required field empty; otherwise `saving` is set and the payload, with the submitted image, goes out as an update by id or an insert with a fresh id; without a file the image sent is non-empty |
| CertificateFormComponent.CertificateForm.FinishSubmit | src/components/Admin/CertificateForm.tsx:134-140 | the form closes iff the database reports no error; `saving` is cleared either way |
| ProfileManagerComponent.EditShowsInItsInputOnly | src/components/Admin/ProfileManager.tsx:56-62 | an edit shows in its own input and in no other; id, timestamps and CV URL are never touched |
| ProfileManagerComponent.SaveStoresEveryField | src/components/Admin/ProfileManager.tsx:96-108 | the stored row is the edited profile with only id and timestamps replaced; an update keeps everything but `updated_at` |
| ProfileManagerComponent.ProfileManager.constructor | src/components/Admin/ProfileManager.tsx:8-24 | before any fetch the profile holds the built-in defaults with id '', loading and not saving |
| ProfileManagerComponent.ProfileManager.FetchProfile | src/components/Admin/ProfileManager.tsx:31-54 | a found row replaces the profile; "no row" (PGRST116), any other error or an exception keeps it; loading ends either way |
| ProfileManagerComponent.ProfileManager.HandleInputChange | src/components/Admin/ProfileManager.tsx:56-62 | the edited field takes the typed value and the input shows it |
| ProfileManagerComponent.ProfileManager.HandleFileUpload | src/components/Admin/ProfileManager.tsx:64-87 | size is checked before type; a refused file leaves the profile unchanged; an accepted one changes only the profile image URL |
| ProfileManagerComponent.ProfileManager.BeginSave | src/components/Admin/ProfileManager.tsx:93-136 | nothing is sent while saving; a profile with an id is updated by it, one without is inserted with a fresh id and creation time |
| ProfileManagerComponent.ProfileManager.FinishSave | src/components/Admin/ProfileManager.tsx:126-145 | on success an inserted row is shown and the profile fetched again; on failure nothing is refetched; `saving` ends either way |
| ListViews.RemoveByIdSpec | src/components/Admin/ProjectsManager.tsx:52 | after a delete no row carries the id; every other row is kept as often as before and in order |
| ListViews.RemoveAbsentId | src/components/Admin/CertificatesManager.tsx:53 | deleting an id no row has leaves the list as it is |
| ListViews.RemoveByIdIdempotent | src/components/Admin/ExperienceManager.tsx:52 | deleting twice is deleting once |
| ListViews.RemoveListedIdRemovesOne | src/components/Admin/ProjectsManager.tsx:52 | with unique ids, deleting a listed id removes exactly one row |
| ListViews.ListView.constructor | src/components/Admin/ProjectsManager.tsx:9-12 | mounting: an empty list, loading, the editor closed |
| ListViews.ListView.Fetch | src/components/Admin/ExperienceManager.tsx:18-35 | the list becomes `AdminFetch` of the old list and the answer; loading ends; the editor is untouched |
| ListViews.ListView.HandleDelete | src/components/Admin/ProjectsManager.tsx:37-58 | nothing happens unless confirmed; a confirmed delete is sent; the rows with that id leave the list iff the database reports no error; no row is ever added |
| ListViews.ListView.OpenNew | src/components/Admin/CertificatesManager.tsx:107 | the "new" button opens the editor without a record |
| ListViews.ListView.HandleEdit | src/components/Admin/CertificatesManager.tsx:61-64 | the editor opens on the chosen record |
| ListViews.ListView.HandleFormClose | src/components/Admin/ExperienceManager.tsx:65-69 | the editor closes and forgets its record, and the list is fetched again |
| ListViews.ProjectsManager.constructor | src/components/Admin/ProjectsManager.tsx:9-12 | an empty projects list keyed by project id, loading, the editor closed |
| ListViews.ExperienceManager.constructor | src/components/Admin/ExperienceManager.tsx:9-12 | an empty experiences list keyed by experience id, loading, the editor closed |
| ListViews.CertificatesManager.constructor | src/components/Admin/CertificatesManager.tsx:9-13 | an empty certificates list keyed by certificate id, loading, no editor and no preview |
| ListViews.CertificatesManager.ShowPreview | src/components/Admin/CertificatesManager.tsx:158 | the preview shows the chosen certificate |
| ListViews.CertificatesManager.ClosePreview | src/components/Admin/CertificatesManager.tsx:249 | closing the preview clears it |
| CertificatesSectionComponent.SliceBound | src/components/Sections/CertificatesSection.tsx:112 | a slice bound is clamped into [0, n] and an in-range bound is kept |
| CertificatesSectionComponent.JsSlice | src/components/Sections/CertificatesSection.tsx:112 | a slice is never longer than the list |
| CertificatesSectionComponent.DotCount | src/components/Sections/CertificatesSection.tsx:208 | `ceil(n / 6)`: the fewest pages of six that hold every certificate |
| CertificatesSectionComponent.VisibleWindow | src/components/Sections/CertificatesSection.tsx:112 | the view is the contiguous run of at most six certificates starting at the index, starting with the certificate there |
| CertificatesSectionComponent.NextShowsFullView | src/components/Sections/CertificatesSection.tsx:106-110 | "next" moves forward, lands at most at len-6, and always shows a full view of six |
| CertificatesSectionComponent.PreviousGoesBack | src/components/Sections/CertificatesSection.tsx:102-104 | "previous" moves back by at most six and never below 0 |
| CertificatesSectionComponent.EveryCertificateHasAPage | src/components/Sections/CertificatesSection.tsx:208-216 | every certificate's page has a dot; clicking it makes that dot active and shows that certificate |
| CertificatesSectionComponent.ShortSecondViewOverlaps | src/components/Sections/CertificatesSection.tsx:106-114 | with 7 to 11 certificates, "next" lands below 6: the second view repeats part of the first and the first dot stays active |
| CertificatesSectionComponent.MockFitsOneView | src/components/Sections/CertificatesSection.tsx:39-100 | the six sample certificates fill one view: no buttons, one page |
| CertificatesSectionComponent.CertificatesSection.constructor | src/components/Sections/CertificatesSection.tsx:6-9 | no certificates, loading, no selection, index 0 |
| CertificatesSectionComponent.CertificatesSection.VisibleCertificates | src/components/Sections/CertificatesSection.tsx:112 | at most six in view, and a non-empty list never shows an empty view |
| CertificatesSectionComponent.CertificatesSection.Fetch | src/components/Sections/CertificatesSection.tsx:18-37 | the list becomes `SectionFetch` of the answer and the sample list; loading ends |
| CertificatesSectionComponent.CertificatesSection.HandlePrevious | src/components/Sections/CertificatesSection.tsx:102-104 | the index becomes `max(0, i - 6)`, below where it was and never negative |
| CertificatesSectionComponent.CertificatesSection.HandleNext | src/components/Sections/CertificatesSection.tsx:106-110 | the index becomes `min(len - 6, i + 6)`, past where it was, and the view is full |
| CertificatesSectionComponent.CertificatesSection.GoToPage | src/components/Sections/CertificatesSection.tsx:208-216 | dot k sets the index to 6k and becomes the active dot |
| CertificatesSectionComponent.CertificatesSection.Select | src/components/Sections/CertificatesSection.tsx:168 | a card opens the dialog on its certificate |
| CertificatesSectionComponent.CertificatesSection.CloseDialog | src/components/Sections/CertificatesSection.tsx:246 | closing the dialog clears the selection and keeps the view |
| ProjectsSectionComponent.FilteredSpec | src/components/Sections/ProjectsSection.tsx:100-102 | "all" shows every project; any other filter shows exactly the projects of that category, in order |
| ProjectsSectionComponent.MockCategories | src/components/Sections/ProjectsSection.tsx:48-98 | the sample projects' categories are web, mobile, desktop and ai |
| ProjectsSectionComponent.MockMatchesOnlyAll | src/components/Sections/ProjectsSection.tsx:13-20 | on the sample list "all" shows the four projects and every other filter button shows none |
| ProjectsSectionComponent.ProjectsSection.constructor | src/components/Sections/ProjectsSection.tsx:8-12 | no projects, loading, filter "all", no selection |
| ProjectsSectionComponent.ProjectsSection.Fetch | src/components/Sections/ProjectsSection.tsx:26-46 | the list becomes `SectionFetch` of the answer and the sample list; loading ends |
| ProjectsSectionComponent.ProjectsSection.SelectFilter | src/components/Sections/ProjectsSection.tsx:183 | a filter button makes its category the active filter |
| ProjectsSectionComponent.ProjectsSection.Select | src/components/Sections/ProjectsSection.tsx:212 | a card opens the dialog on its project |
| ProjectsSectionComponent.ProjectsSection.CloseDialog | src/components/Sections/ProjectsSection.tsx:318-323 | closing the dialog clears the selection |
| ProjectsSectionComponent.EmptyStateOnSampleList | src/components/Sections/ProjectsSection.tsx:301 | after a failed fetch, every filter but "all" shows the empty-category message |
| ExperienceSectionComponent.MockTimeline | src/components/Sections/ExperienceSection.tsx:37-86 | of the three sample experiences only the first is current: it alone pulses and reads "Presente"; each shows three technologies and "+2" |
| ExperienceSectionComponent.ExperienceSection.constructor | src/components/Sections/ExperienceSection.tsx:8-10 | no experiences, loading, no selection |
| ExperienceSectionComponent.ExperienceSection.Fetch | src/components/Sections/ExperienceSection.tsx:16-35 | the list becomes `SectionFetch` of the answer and the sample list; loading ends |
| ExperienceSectionComponent.ExperienceSection.Row | src/components/Sections/ExperienceSection.tsx:166-209 | row i faces the normal way iff i is even, pulses iff its range ends in "Presente", and otherwise ends in its own end date |
| ExperienceSectionComponent.ExperienceSection.Select | src/components/Sections/ExperienceSection.tsx:236 | the details button opens the dialog on its experience |
| ExperienceSectionComponent.ExperienceSection.CloseDialog | src/components/Sections/ExperienceSection.tsx:270 | closing the dialog clears the selection |
| TechnologiesSectionComponent.GroupCategories | src/components/Sections/TechnologiesSection.tsx:17-58 | each block of the table holds only entries of its own category |
| TechnologiesSectionComponent.FilterOneCategory | src/components/Sections/TechnologiesSection.tsx:60 | filtering a one-category block keeps all of it or none of it |
| TechnologiesSectionComponent.FilterGrouped | src/components/Sections/TechnologiesSection.tsx:60 | filtering six one-category blocks in button order picks out exactly the chosen block |
| TechnologiesSectionComponent.FilteredIsGroup | src/components/Sections/TechnologiesSection.tsx:60 | a category button shows exactly that category's entries, in table order |
| TechnologiesSectionComponent.CategorySizes | src/components/Sections/TechnologiesSection.tsx:8-58 | 28 entries; every category shows a non-empty grid (8, 6, 4, 3, 5, 2) of only its own entries |
| TechnologiesSectionComponent.GroupNamesDistinct | src/components/Sections/TechnologiesSection.tsx:17-58 | within each category the names differ |
| TechnologiesSectionComponent.TableNamesDistinct | src/components/Sections/TechnologiesSection.tsx:17-58 | no two entries of the whole table share a name, across categories as well as within them |
| TechnologiesSectionComponent.KeysUniquePerView | src/components/Sections/TechnologiesSection.tsx:143 | no two cards of one view share a name, so the grid's keys are unique |
| TechnologiesSectionComponent.Badge | src/components/Sections/TechnologiesSection.tsx:172-178 | "success" iff Avanzado, "accent" iff Intermedio, "primary" otherwise |
| TechnologiesSectionComponent.OnlyOneBasicEntry | src/components/Sections/TechnologiesSection.tsx:17-58 | MongoDB is the only entry with the primary-coloured badge |
| TechnologiesSectionComponent.TechnologiesSection.constructor | src/components/Sections/TechnologiesSection.tsx:6 | the first category shown is programming |
| TechnologiesSectionComponent.TechnologiesSection.SelectFilter | src/components/Sections/TechnologiesSection.tsx:6 | a category button makes its category the active one |
| TechnologiesSectionComponent.TechnologiesSection.Shown | src/components/Sections/TechnologiesSection.tsx:60 | the grid is the filtered table for the active category and is never empty |
| FooterComponent.ClickStepAsWritten | src/components/Layout/Footer.tsx:11-26 | as written: navigates iff the count before the click was 2; the time becomes the click's; the count is reset after a navigation, else 1 after a long pause or one more |
| FooterComponent.ClickStep | src/components/Layout/Footer.tsx:14-25 | corrected: navigates iff the updated count reaches 3, then resets it to 0 |
| FooterComponent.StepsKeepCountBelowThree | src/components/Layout/Footer.tsx:14-25 | both steps keep the count in {0, 1, 2} |
| FooterComponent.NavigatesOnlyOnQuickThirdClick | src/components/Layout/Footer.tsx:14-25 | the corrected step navigates iff two clicks are counted and this click comes within 2000 ms |
| FooterComponent.StepsDifferOnlyAfterLongPause | src/components/Layout/Footer.tsx:22-25 | the two steps differ exactly on a click after two counted clicks and a pause over 2000 ms: the code navigates, the gesture restarts at 1 |
| FooterComponent.AsWrittenIgnoresSecondPause | src/components/Layout/Footer.tsx:22-23 | as written, three clicks from a fresh state navigate iff the first pause is at most 2000 ms, whatever the second |
| FooterComponent.AsWrittenCounterexample | src/components/Layout/Footer.tsx:22-23 | clicks at 0, 1500 and 3600 ms navigate as written but not with the corrected step |
| FooterComponent.GestureNeedsTwoShortPauses | src/components/Layout/Footer.tsx:11-25 | with the corrected step, three clicks navigate iff both pauses are at most 2000 ms |
| FooterComponent.ReservedClickCounter.constructor | src/components/Layout/Footer.tsx:8-9 | both the count and the last click time start at 0 |
| FooterComponent.ReservedClickCounter.HandleReservedClick | src/components/Layout/Footer.tsx:11-26 | a click performs the step as written and keeps the count in {0, 1, 2}; it navigates iff two clicks were counted before it, however long the pause since the last one, and then resets the count to 0 |

## Left out

- The database client, its authentication and the `.order(...)` sorting of fetched rows. Every request is replaced by its answer as a parameter, and rows are taken in the order the database returns them.
- The file reader, data-URL encoding, `crypto.randomUUID`, `Date.now` and `toISOString`. Data URLs, ids and timestamps are opaque string parameters.
- Locale date formatting (`toLocaleDateString`). `Display.EndDateLabel` keeps the raw end date.
- `confirm` is a boolean parameter. `alert`, toasts and console logging are not modelled. Navigation is the returned flag of `FooterComponent.ReservedClickCounter.HandleReservedClick`.
- Re-render timing and the interleaving of asynchronous handlers. Each handler is one atomic step.
- ProjectForm's submit reads a chosen file a second time. That read is the `fileDataUrl` parameter of `ProjectFormComponent.ProjectForm.HandleSubmit`.
- The form dialogs are mounted only while their list view has the editor open. The project editor is a fresh `ProjectFormComponent.ProjectForm` each time. The experience and certificate editors stay mounted and re-initialise through `ReceiveExperience` and `ReceiveCertificate`.
- `ExperienceFormComponent.ExperienceForm.ReceiveExperience` and `CertificateFormComponent.CertificateForm.ReceiveCertificate` compare the prop by value. React compares object references, so a new but equal record does not reset the draft in the model.
- Browser form validation is modelled only as the `required` test on empty text. Typed URLs and email addresses are not checked for syntax.
- The profile editor has no `<form>` element, so the `required` attribute on the bio input has no effect. `ProfileManagerComponent.ProfileManager.BeginSave` therefore sends an empty bio.
- `CertificateFormComponent.CertificateForm.BeginSubmit` while a file read is in progress sends whatever preview was there before. The model allows this, as the site does.
- The profile image read (`onloadend`) fires on a failed read too. `ProfileManagerComponent.ProfileManager.HandleFileUpload` takes the read's result as given.
- Disabled controls are preconditions. The disabled URL input, the certificate file input during a read, the carousel buttons and the profile inputs before loading ends send no events.
- Markup, CSS classes, animation, routing and the image `src` previews are not modelled.
- The environment-variable check of the database client is not part of this model. Its record interfaces are the datatypes of `Records`.
- The site's other components (navigation bar, hero, about, contact form with its simulated delay, admin login, dashboard tabs, detail dialogs, floating buttons) are not part of this model. They hold no logic beyond composition and display.

## Findings

| source | as written | input that shows it | evidently intended | confidence | as-written member | corrected member |
|---|---|---|---|---|---|---|
| src/components/Layout/Footer.tsx:22-23 | the navigation test reads the count from before the click (`clickCount + 1 === 3`), so a third click navigates even when it comes more than 2000 ms after the second | clicks at 0, 1500 and 3600 ms: the third click comes 2100 ms after the second and still navigates | three clicks each within 2000 ms of the previous one; a slow third click restarts the count at 1 | not executed | FooterComponent.AsWrittenCounterexample | FooterComponent.GestureNeedsTwoShortPauses |
