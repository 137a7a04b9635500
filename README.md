# Exam-grading front end: page logic in Dafny

This project models the statable logic inside the React front end of an
exam-grading platform. Schools use it to manage students and exams. For each
exam they edit the answer key, upload scanned answer sheets and read the
graded results. The REST API that stores the data and grades the sheets is
outside the model. Every request appears only as an outcome parameter: the
data it returned, or a failure.

The model has one module per source file:

- `MultiSelectWidget` (`multiselect.dfy`) models `src/components/MultiSelect.tsx`.
  - The selected ids belong to the parent component. Selecting, removing,
    deriving the selected options and filtering by search are pure functions
    over lists.
  - The widget's own open/search state is the class `MultiSelect`.
- `ExamDetailPage` (`examdetail.dfy`) models `src/pages/ExamDetail.tsx`.
  - Pure parts: the default answer key, the option letters, the single-entry
    edit, the multipart upload form and the display strings.
  - The class `ExamDetail` holds the page state. Its handlers load the data,
    save the key, upload sheets and generate the printable sheets.
- `StudentsPage` (`students.dfy`) models `src/pages/Students.tsx`.
  - Pure parts: the initials avatar, the class cell and the table body.
  - The class `Students` holds the page state. Its handlers load the roster
    and import a spreadsheet.
- `ExamsPage` (`exams.dfy`) models `src/pages/Exams.tsx`.
  - The create payload and the card grid are pure functions.
  - The class `Exams` holds the list and the inline creation form.
- Shared modules:
  - `Types`: the records of `src/types/index.ts`.
  - `Api`: outcomes, multipart fields and the request log.
  - `Text`: ASCII case mapping, `includes`, and decimal counts that read back.
  - `Seqs`: `Array.prototype.filter` as an order-preserving subsequence.
  - `Views`: the loading / empty / list choice.

Each page class records every request it sends in a ghost field
`requests`. Contracts can therefore say what was sent, in which order, and
when nothing was sent. A handler that reloads a list without awaiting it
(`fetchStudents()`, `fetchExams()`) is modelled as running the reload with
its own outcome parameter. `setTimeout(fetchData, 5000)` is modelled as a
counter of scheduled refreshes, which `FireScheduledRefresh` consumes.

## Model

| member | source | states |
|---|---|---|
| Seqs.Filter | src/components/MultiSelect.tsx:25-29 | `Array.prototype.filter`: the result keeps exactly the elements that pass the test and is no longer than the input |
| Seqs.FilterIsSubsequence | src/components/MultiSelect.tsx:25-29 | filtering keeps the original order: the result is a subsequence of the input |
| Seqs.FilterCount | src/components/MultiSelect.tsx:51 | the filter keeps every copy of an element that passes and no copy of one that fails |
| Seqs.FilterUnique | src/components/MultiSelect.tsx:58 | reference characterisation: the only subsequence with those multiplicities is the filter's result |
| Seqs.FilterAppend | src/components/MultiSelect.tsx:51-52 | filtering distributes over concatenation |
| Seqs.FilterAll | src/components/MultiSelect.tsx:26-29 | a test every element passes leaves the list unchanged |
| Seqs.FilterIdempotent | src/components/MultiSelect.tsx:58 | filtering twice with the same test equals filtering once |
| Seqs.FilterExtensional | src/components/MultiSelect.tsx:26-29 | two tests that agree on every element select the same list |
| Text.ContainsIff | src/components/MultiSelect.tsx:27-28 | the `includes` scan holds iff there is a position where the needle occurs |
| Text.ReadCountOf | src/components/MultiSelect.tsx:158 | a rendered count followed by non-digit text reads back as that count |
| Views.ListBody | src/pages/Students.tsx:120-135 | skeletons iff loading; empty state iff loaded and empty; otherwise one rendered row per item, in order |
| MultiSelectWidget.SelectedOptions | src/components/MultiSelect.tsx:25 | exactly the options whose id is in `value`, in the order of `options`, with each such option's every copy |
| MultiSelectWidget.FilteredOptions | src/components/MultiSelect.tsx:26-29 | a subsequence of `options` that keeps an option iff the lower-cased term occurs in its lower-cased label or non-empty sublabel |
| MultiSelectWidget.FilteredEmptyTerm | src/components/MultiSelect.tsx:26-29 | an empty search term lists every option, in order |
| MultiSelectWidget.SearchIgnoresCase | src/components/MultiSelect.tsx:27-28 | two terms that lower-case alike list the same options |
| MultiSelectWidget.HandleRemove | src/components/MultiSelect.tsx:56-59 | `id` no longer occurs; the other ids keep their order and their number of occurrences |
| MultiSelectWidget.HandleSelect | src/components/MultiSelect.tsx:49-54 | flips whether `id` is selected and leaves every other id's membership as it was; a new id goes at the end, a selected one is removed everywhere |
| MultiSelectWidget.RemoveCharacterised | src/components/MultiSelect.tsx:56-59 | any list that meets HandleRemove's contract equals its result, so that contract is complete |
| MultiSelectWidget.RemoveIdempotent | src/components/MultiSelect.tsx:56-59 | removing the same id twice equals removing it once |
| MultiSelectWidget.SelectTwiceRestores | src/components/MultiSelect.tsx:49-54 | selecting an unselected id twice gives back the original `value` |
| MultiSelectWidget.RequiredErrorAfterChange | src/components/MultiSelect.tsx:71 | the red border shows iff required and nothing is selected: selecting a new id clears it, and a removal raises it exactly when only that id was selected |
| MultiSelectWidget.Chips | src/components/MultiSelect.tsx:77 | at most two chips: the first selected options, in order |
| MultiSelectWidget.OverflowCount | src/components/MultiSelect.tsx:92-94 | the chips plus the overflow count account for every selected option |
| MultiSelectWidget.OverflowLabel | src/components/MultiSelect.tsx:92-96 | shown iff more than two options are selected; it reads `+` followed by the number of options without a chip |
| MultiSelectWidget.FooterLabel | src/components/MultiSelect.tsx:155-161 | the footer text exists iff something is selected; it starts with the selected count and ends in `s` iff the count is not 1 |
| MultiSelectWidget.Trigger | src/components/MultiSelect.tsx:75-100 | the placeholder iff no option is selected; otherwise the chips and the overflow label |
| MultiSelectWidget.DefaultTrigger | src/components/MultiSelect.tsx:19 | without a `placeholder` prop, an empty selection shows `Selecione...` |
| MultiSelectWidget.MultiSelect.Footer | src/components/MultiSelect.tsx:155-161 | the footer shows only while the dropdown is open and something is selected, and reads back as the selected count |
| MultiSelectWidget.MultiSelect.RemoveChip | src/components/MultiSelect.tsx:77-89 | a shown chip's button yields `value` without that (selected) id; the click does not propagate, so `isOpen` and the search text stay as they were |
| MultiSelectWidget.MultiSelect.constructor | src/components/MultiSelect.tsx:20-21 | the widget starts closed with an empty search |
| MultiSelectWidget.MultiSelect.Listed | src/components/MultiSelect.tsx:107-153 | a closed dropdown lists nothing; an open one lists the options filtered by the current term |
| MultiSelectWidget.MultiSelect.ClickTrigger | src/components/MultiSelect.tsx:72 | clicking the trigger flips `isOpen` and keeps the search text |
| MultiSelectWidget.MultiSelect.TypeSearch | src/components/MultiSelect.tsx:117 | typing (possible only while open, the input being inside the dropdown) sets the search text and leaves `isOpen` alone |
| MultiSelectWidget.MultiSelect.KeyDown | src/components/MultiSelect.tsx:61-66 | in the open dropdown's search box, Escape closes and clears the search; any other key changes nothing |
| MultiSelectWidget.MultiSelect.MouseDown | src/components/MultiSelect.tsx:32-37 | a mousedown outside the widget closes and clears the search; one inside changes nothing |
| MultiSelectWidget.EscapeThenReopen | src/components/MultiSelect.tsx:61-72 | from an open dropdown, Escape then a reopen lists every option again |
| ExamDetailPage.DefaultAnswerKey | src/pages/ExamDetail.tsx:41-46 | `totalQuestions` entries (none when negative), numbered 1..n in order, each answered `A` |
| ExamDetailPage.OptionLetters | src/pages/ExamDetail.tsx:208 | the first `alternativesCount` letters starting at code 65, in order (A..Z for up to 26); each letter's alphabet position is its index |
| ExamDetailPage.OfferedIff | src/pages/ExamDetail.tsx:208 | an option is offered by the select iff it is one letter whose alphabet position is below `alternativesCount` |
| ExamDetailPage.DefaultKeyWellFormed | src/pages/ExamDetail.tsx:39-47 | the synthesised key only uses offered options iff it is empty or at least one alternative exists |
| ExamDetailPage.WithOption | src/pages/ExamDetail.tsx:201-204 | the edit changes only entry `idx`'s option; the length and every question number stay |
| ExamDetailPage.LoadedKey | src/pages/ExamDetail.tsx:36-47 | the key after a load is the server's when it sent one; otherwise the default key for a present exam, and empty without an exam |
| ExamDetailPage.EditKeepsWellFormed | src/pages/ExamDetail.tsx:199-210 | choosing an offered letter keeps a well-formed key well-formed |
| ExamDetailPage.UploadFormRoundTrip | src/pages/ExamDetail.tsx:73-77 | the server reads back the exam id and exactly the chosen files, in selection order |
| ExamDetailPage.FileFieldsAppend | src/pages/ExamDetail.tsx:75-77 | the `Files` entries for two file lists are the entries of the first followed by those of the second |
| ExamDetailPage.BuildUploadForm | src/pages/ExamDetail.tsx:73-77 | the loop builds one `ExamId` field followed by one `Files` field per file, in order |
| ExamDetailPage.SheetFileName | src/pages/ExamDetail.tsx:115 | the name is `gabaritos-<stem>.pdf`, where the stem is the exam name, or `prova` when there is no exam or its name is empty |
| ExamDetailPage.ResultTitle | src/pages/ExamDetail.tsx:301 | the student name, or `Aluno não identificado` when it is absent or empty; never an empty heading |
| ExamDetailPage.ResultSubtitle | src/pages/ExamDetail.tsx:302-306 | `<reg> • ` when present, then `<class> • ` when present, always ending in the original file name; each present field's segment is stated in its position |
| ExamDetailPage.ResultsView | src/pages/ExamDetail.tsx:280-317 | the empty notice iff there are no results; otherwise one card per result, in order |
| ExamDetailPage.ExamDetail.constructor | src/pages/ExamDetail.tsx:17-26 | the initial state: loading, key tab, no exam, key, results or files, all flags off |
| ExamDetailPage.ExamDetail.View | src/pages/ExamDetail.tsx:126-132 | spinner iff loading; not-found iff loaded without an exam; otherwise the page on the active tab |
| ExamDetailPage.ExamDetail.FetchData | src/pages/ExamDetail.tsx:28-53 | three GETs are sent. On failure the exam, key and results stay. On success they are replaced, and the key is `LoadedKey`: the server's, or the default key when it sent none for a present exam. `loading` ends false either way |
| ExamDetailPage.ExamDetail.FireScheduledRefresh | src/pages/ExamDetail.tsx:84 | a scheduled refresh is consumed and runs the load |
| ExamDetailPage.ExamDetail.SelectTab | src/pages/ExamDetail.tsx:168 | a tab button makes that tab active |
| ExamDetailPage.ExamDetail.ChooseFiles | src/pages/ExamDetail.tsx:242 | choosing files stores them |
| ExamDetailPage.ExamDetail.ClearFiles | src/pages/ExamDetail.tsx:254 | `Limpar` forgets the chosen files |
| ExamDetailPage.ExamDetail.EditAnswer | src/pages/ExamDetail.tsx:201-205 | the key becomes the single-entry edit of the previous key |
| ExamDetailPage.ExamDetail.HandleSaveKey | src/pages/ExamDetail.tsx:59-68 | one PUT of the current key; `isSavingKey` ends false either way |
| ExamDetailPage.ExamDetail.HandleUpload | src/pages/ExamDetail.tsx:70-91 | With no files nothing changes and nothing is sent. Otherwise one POST of the upload form is sent, and `isUploading` and the files are cleared. Only on success does the results tab open and exactly one refresh get scheduled |
| ExamDetailPage.ExamDetail.HandleGenerateSheets | src/pages/ExamDetail.tsx:93-124 | The requests go generate, then registrations, then PDF. Each failure stops the chain, and an empty registration list stops it before the PDF. A download with the sheet file name happens only after all three succeed. The flag ends false on every path |
| StudentsPage.Split | src/pages/Students.tsx:143 | `split(' ')` always yields at least one piece |
| StudentsPage.SplitJoin | src/pages/Students.tsx:143 | joining the pieces with spaces gives the name back, and no piece contains a space |
| StudentsPage.FirstLettersOfSplit | src/pages/Students.tsx:143 | the first characters of the pieces are exactly the characters that begin a word |
| StudentsPage.Initials | src/pages/Students.tsx:143 | at most two characters: the upper-cased first letters of the first two words |
| StudentsPage.ClassLabel | src/pages/Students.tsx:153 | the class name when it is present and non-empty, `Sem turma` otherwise (never empty) |
| StudentsPage.Body | src/pages/Students.tsx:120-163 | five skeleton rows iff loading; the empty state iff loaded with no students; otherwise one row per student in fetched order, with its initials and class cell |
| StudentsPage.HeaderText | src/pages/Students.tsx:105 | the header's number reads back as the number of students |
| StudentsPage.Students.constructor | src/pages/Students.tsx:10-12 | no students, loading, not uploading |
| StudentsPage.Students.FetchStudents | src/pages/Students.tsx:14-23 | one GET; the list is replaced only on success; `loading` ends false either way |
| StudentsPage.Students.HandleFileUpload | src/pages/Students.tsx:44-62 | With no file chosen nothing changes and nothing is sent. Otherwise the first file is POSTed, and only a successful import triggers the reload. `isUploading` ends false either way |
| ExamsPage.CreatePayload | src/pages/Exams.tsx:35-38 | the payload carries the form's three fields, template `v1` and nothing else |
| ExamsPage.Grid | src/pages/Exams.tsx:106-149 | three skeletons iff loading; the empty state iff loaded with no exams; otherwise one card per exam in fetched order, linking to the exam |
| ExamsPage.Exams.constructor | src/pages/Exams.tsx:12-15 | no exams, loading, form closed, form `''` / 40 questions / 5 alternatives |
| ExamsPage.Exams.FetchExams | src/pages/Exams.tsx:17-26 | one GET; the list is replaced only on success; `loading` ends false either way |
| ExamsPage.Exams.HandleCreate | src/pages/Exams.tsx:32-44 | Submitting the open form sends one POST of the payload. On success the form closes and then the list reloads. On failure the form stays open with the list as it was. The entered values are never reset |
| ExamsPage.Exams.Open | src/pages/Exams.tsx:53 | `Novo Exame` opens the form |
| ExamsPage.Exams.Cancel | src/pages/Exams.tsx:90 | `Cancelar`, shown only in the open form, closes it and touches neither the list nor the entered values |
| ExamsPage.Exams.SetName | src/pages/Exams.tsx:71 | while the form is open, replaces only its name field |
| ExamsPage.Exams.SetTotalQuestions | src/pages/Exams.tsx:78 | while the form is open, replaces only its question count |
| ExamsPage.Exams.SetAlternativesCount | src/pages/Exams.tsx:86 | while the form is open, replaces only its alternatives count |
| ExamsPage.CreateThenReopen | src/pages/Exams.tsx:35-53 | after typing and a successful create, the POST carried what was typed and reopening shows the same values |

## Left out

- The HTTP client (`src/api/client`) is not part of this model. Each request is an outcome parameter, and the ghost `requests` log records what was sent.
- The concurrent `Promise.all` in `fetchData` is one combined outcome. Handlers run atomically, so the model does not capture a user acting while a request is pending. It also does not capture a late response landing after another handler ran.
- Button gating (`disabled = isLoading || disabled`) is not modelled; with atomic handlers no second click can happen mid-request.
- Timers are not modelled as time. The 5-second refresh is a counter of scheduled refreshes. The 2-second sleep in `handleGenerateSheets` is just the step between generating and listing registrations.
- Floating-point display is not modelled: the score-ratio colour, `toFixed(1)`, and `formatDate`. `parseInt` is modelled as yielding an integer, so a NaN form value cannot occur.
- Blob downloads, object URLs and anchor clicks are not modelled. The sheets download appears only as the file name recorded in `downloads`. The template download (src/pages/Students.tsx:29-42) and the CSV export button (src/pages/ExamDetail.tsx:275) are left out: they change no page state.
- `alert` and `console.error` are not modelled. The "no registrations" alert is the `NoRegistrations` outcome of `HandleGenerateSheets`.
- Case mapping covers ASCII only. The non-ASCII behaviour of `toLowerCase`/`toUpperCase` and UTF-16 indexing are not modelled.
- OptionLetters: requires `alternativesCount` to be at most 55231. `String.fromCharCode(65 + i)` then reaches the UTF-16 surrogate range and wraps at 65536, and a Dafny `char` cannot hold those code units.
- DefaultAnswerKey: builds a key of any length. `Array.from` throws a RangeError for lengths of 2^32 and above.
- WithOption: replaces the edited entry by value. The source copies the array shallowly and mutates the shared entry object, which the previous array also holds. That aliasing is not captured.
- Cancel: only its onClick effect is modelled. It is a button without a `type` inside the form, so a browser would also submit the form.
- HandleUpload guards only against missing files, as the source does. A chosen but empty file list still POSTs a form holding just `ExamId`.
- The MultiSelect focus effect (src/components/MultiSelect.tsx:43-47) and the registration and removal of the document listener are left out. The outside-click handler itself is `MouseDown`.
- The search inputs on the Students and Exams pages are uncontrolled and filter nothing, so there is nothing to model.
- None of these exists in the source, so none is modelled: conflict (409) mapping, bulk selection or deletion, class reassignment, an assignment-mode resolver, student create/edit, last-call-wins reloads.
- The dashboard, login, layout, landing page, modal, card and routing components are not modelled.
- `Job` and `JobStatus` are declared in `Types` as the source declares them. No page uses them.
