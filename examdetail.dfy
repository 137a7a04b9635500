/**
 * The exam page (src/pages/ExamDetail.tsx): the answer key editor, the
 * upload of scanned answer sheets, the generation and download of the
 * printable sheets, and the list of graded results.
 */
module ExamDetailPage {
  import opened Types
  import opened Api

  /** `Array.from({ length: n })` makes no element for a negative length. */
  function ArrayLength(n: int): nat
  {
    if n < 0 then 0 else n
  }

  // ---------------------------------------------------------------- answer key

  /** Entry i (from 0) is question number i + 1. */
  predicate NumberedInOrder(key: seq<AnswerKeyEntry>)
  {
    forall i :: 0 <= i < |key| ==> key[i].questionNumber == i + 1
  }

  /** The key synthesised when the server has none yet: every question answered 'A'. */
  function DefaultAnswerKey(totalQuestions: int): (key: seq<AnswerKeyEntry>)
    ensures |key| == ArrayLength(totalQuestions)
    ensures NumberedInOrder(key)
    ensures forall i :: 0 <= i < |key| ==> key[i].correctOption == "A"
  {
    seq(ArrayLength(totalQuestions), i requires 0 <= i => AnswerKeyEntry(i + 1, "A"))
  }

  /** `String.fromCharCode(65 + i)` stays a Dafny character below the surrogate range. */
  const MaxAlternatives: nat := 0xD800 - 65

  /** The position of a one-letter option in the alphabet A, B, C, ..., if it is one. */
  function LetterIndex(option: string): Option<nat>
  {
    if |option| == 1 && option[0] as int >= 65 then Some(option[0] as int - 65) else None
  }

  /** The options of each question's select: the first `alternativesCount` letters from 'A'. */
  function OptionLetters(alternativesCount: int): (r: seq<string>)
    requires alternativesCount <= MaxAlternatives
    ensures |r| == ArrayLength(alternativesCount)
    ensures forall i :: 0 <= i < |r| ==> LetterIndex(r[i]) == Some(i)
    ensures alternativesCount <= 26 ==> forall i :: 0 <= i < |r| ==> r[i] == ["ABCDEFGHIJKLMNOPQRSTUVWXYZ"[i]]
  {
    seq(ArrayLength(alternativesCount), i requires 0 <= i < ArrayLength(alternativesCount) => [(65 + i) as char])
  }

  /** A one-letter option lies among the first `n` letters exactly when the select offers it. */
  lemma {:induction false} OfferedIff(option: string, n: int)
    requires n <= MaxAlternatives
    ensures option in OptionLetters(n) <==> LetterIndex(option).Some? && LetterIndex(option).value < n
  {
    var r := OptionLetters(n);
    if LetterIndex(option).Some? && LetterIndex(option).value < n {
      var j := LetterIndex(option).value;
      assert option == [(65 + j) as char] == r[j];
    }
  }

  /** A key the editor can show: numbered 1..n, each answer one of the offered letters. */
  predicate KeyWellFormed(key: seq<AnswerKeyEntry>, alternativesCount: int)
  {
    NumberedInOrder(key)
    && forall i :: 0 <= i < |key| ==>
         LetterIndex(key[i].correctOption).Some? && LetterIndex(key[i].correctOption).value < alternativesCount
  }

  /** The default key is one the editor can show exactly when it is empty or 'A' is offered. */
  lemma {:induction false} DefaultKeyWellFormed(totalQuestions: int, alternativesCount: int)
    ensures KeyWellFormed(DefaultAnswerKey(totalQuestions), alternativesCount)
            <==> ArrayLength(totalQuestions) == 0 || alternativesCount >= 1
  {
    var key := DefaultAnswerKey(totalQuestions);
    if ArrayLength(totalQuestions) > 0 {
      assert LetterIndex(key[0].correctOption) == Some(0);
    }
  }

  /** The select's onChange: question `idx` takes `option`, nothing else changes. */
  function WithOption(key: seq<AnswerKeyEntry>, idx: nat, option: string): (r: seq<AnswerKeyEntry>)
    requires idx < |key|
    ensures |r| == |key|
    ensures r[idx].correctOption == option
    ensures forall i :: 0 <= i < |key| ==> r[i].questionNumber == key[i].questionNumber
    ensures forall i :: 0 <= i < |key| && i != idx ==> r[i] == key[i]
  {
    key[idx := key[idx].(correctOption := option)]
  }

  /** Choosing an offered letter keeps a well-formed key well-formed. */
  lemma {:induction false} EditKeepsWellFormed(key: seq<AnswerKeyEntry>, alternativesCount: int, idx: nat, option: string)
    requires alternativesCount <= MaxAlternatives
    requires idx < |key|
    requires KeyWellFormed(key, alternativesCount)
    requires option in OptionLetters(alternativesCount)
    ensures KeyWellFormed(WithOption(key, idx, option), alternativesCount)
  {
    OfferedIff(option, alternativesCount);
  }

  /** The key shown after a load: the server's, or the default when it sent none for a known exam. */
  function LoadedKey(fetched: seq<AnswerKeyEntry>, exam: Option<Exam>): (r: seq<AnswerKeyEntry>)
    ensures fetched != [] ==> r == fetched
    ensures fetched == [] && exam.Some? ==> r == DefaultAnswerKey(exam.value.totalQuestions)
    ensures fetched == [] && exam.None? ==> r == []
  {
    if |fetched| == 0 && exam.Some? then DefaultAnswerKey(exam.value.totalQuestions) else fetched
  }

  // ---------------------------------------------------------------- upload form

  function FileFields(files: seq<File>): seq<FormField>
    decreases |files|
  {
    if files == [] then [] else [FormField("Files", Upload(files[0]))] + FileFields(files[1..])
  }

  /** The multipart body of `POST /uploads`: the exam id, then one `Files` entry per file. */
  function UploadForm(examId: string, files: seq<File>): seq<FormField>
  {
    [FormField("ExamId", TextValue(examId))] + FileFields(files)
  }

  /** The files a server reads from a multipart body, in order. */
  function FormFiles(form: seq<FormField>): seq<File>
    decreases |form|
  {
    if form == [] then []
    else (if form[0].key == "Files" && form[0].value.Upload? then [form[0].value.file] else []) + FormFiles(form[1..])
  }

  /** The first text value a server reads for `key`. */
  function FormText(form: seq<FormField>, key: string): Option<string>
    decreases |form|
  {
    if form == [] then None
    else if form[0].key == key && form[0].value.TextValue? then Some(form[0].value.text)
    else FormText(form[1..], key)
  }

  lemma {:induction false} FileFieldsAppend(a: seq<File>, b: seq<File>)
    ensures FileFields(a + b) == FileFields(a) + FileFields(b)
    decreases |a|
  {
    if a == [] {
      assert a + b == b;
    } else {
      assert (a + b)[1..] == a[1..] + b;
      FileFieldsAppend(a[1..], b);
    }
  }

  lemma {:induction false} FileFieldsRead(files: seq<File>)
    ensures FormFiles(FileFields(files)) == files
    ensures FormText(FileFields(files), "ExamId") == None
    decreases |files|
  {
    if files != [] {
      var fields := FileFields(files);
      assert fields[1..] == FileFields(files[1..]);
      FileFieldsRead(files[1..]);
    }
  }

  /** The server reads back exactly the exam id and the chosen files, in selection order. */
  lemma {:induction false} UploadFormRoundTrip(examId: string, files: seq<File>)
    ensures FormText(UploadForm(examId, files), "ExamId") == Some(examId)
    ensures FormFiles(UploadForm(examId, files)) == files
  {
    var form := UploadForm(examId, files);
    assert form[1..] == FileFields(files);
    FileFieldsRead(files);
  }

  /** The `FormData` loop of `handleUpload`. */
  method BuildUploadForm(examId: string, files: seq<File>) returns (form: seq<FormField>)
    ensures form == UploadForm(examId, files)
  {
    form := [FormField("ExamId", TextValue(examId))];
    var i := 0;
    while i < |files|
      invariant 0 <= i <= |files|
      invariant form == UploadForm(examId, files[..i])
    {
      FileFieldsAppend(files[..i], [files[i]]);
      assert files[..i + 1] == files[..i] + [files[i]];
      form := form + [FormField("Files", Upload(files[i]))];
      i := i + 1;
    }
    assert files[..i] == files;
  }

  // ---------------------------------------------------------------- display strings

  const DefaultSheetName: string := "prova"

  /** The name part of a `gabaritos-<name>.pdf` file name. */
  function SheetFileStem(fileName: string): Option<string>
  {
    if |fileName| >= 14 && fileName[..10] == "gabaritos-" && fileName[|fileName| - 4..] == ".pdf"
    then Some(fileName[10..|fileName| - 4])
    else None
  }

  /** The downloaded sheets' file name, from the exam name or `prova` when there is none. */
  function SheetFileName(exam: Option<Exam>): (r: string)
    ensures SheetFileStem(r) == Some(if exam.Some? && exam.value.name != "" then exam.value.name else DefaultSheetName)
  {
    var name := if exam.Some? && exam.value.name != "" then exam.value.name else DefaultSheetName;
    var r := "gabaritos-" + name + ".pdf";
    assert r[..10] == "gabaritos-" && r[|r| - 4..] == ".pdf" && r[10..|r| - 4] == name;
    r
  }

  const Separator: string := " • "
  const UnknownStudent: string := "Aluno não identificado"

  /** `"<text> • "` for a present (non-empty) field, nothing otherwise. */
  function Part(field: Option<string>): (r: string)
    ensures Present(field) ==> r == field.value + Separator
    ensures !Present(field) ==> r == ""
  {
    if Present(field) then field.value + Separator else ""
  }

  /** A result card's heading: the student's name, or a fixed label when unidentified. */
  function ResultTitle(result: Result): (r: string)
    ensures Present(result.studentName) ==> r == result.studentName.value
    ensures !Present(result.studentName) ==> r == UnknownStudent
    ensures r != ""
  {
    if Present(result.studentName) then result.studentName.value else UnknownStudent
  }

  /** A result card's subtitle: registration, class, then the scanned file's name. */
  function ResultSubtitle(result: Result): (r: string)
    ensures |r| == |Part(result.registrationNumber)| + |Part(result.className)| + |result.originalFileName|
    ensures r[|r| - |result.originalFileName|..] == result.originalFileName
    ensures Present(result.registrationNumber) ==> r[..|result.registrationNumber.value| + 3] == result.registrationNumber.value + Separator
    ensures !Present(result.registrationNumber) && Present(result.className) ==> r[..|result.className.value| + 3] == result.className.value + Separator
    ensures !Present(result.registrationNumber) && !Present(result.className) ==> r == result.originalFileName
    ensures Present(result.registrationNumber) && Present(result.className) ==>
              r[|result.registrationNumber.value| + 3..|r| - |result.originalFileName|] == result.className.value + Separator
    ensures Present(result.registrationNumber) && !Present(result.className) ==>
              r == result.registrationNumber.value + Separator + result.originalFileName
  {
    Part(result.registrationNumber) + Part(result.className) + result.originalFileName
  }

  datatype ResultCard = ResultCard(title: string, subtitle: string, score: int)

  datatype ResultsPanel = NoResults | Cards(cards: seq<ResultCard>)

  /** The results tab: the empty notice, or one card per result in the order received. */
  function ResultsView(results: seq<Result>): (v: ResultsPanel)
    ensures v.NoResults? <==> results == []
    ensures v.Cards? ==> |v.cards| == |results|
    ensures v.Cards? ==> forall i :: 0 <= i < |results| ==>
              v.cards[i] == ResultCard(ResultTitle(results[i]), ResultSubtitle(results[i]), results[i].score)
  {
    if results == [] then NoResults
    else Cards(seq(|results|, i requires 0 <= i < |results| =>
                 ResultCard(ResultTitle(results[i]), ResultSubtitle(results[i]), results[i].score)))
  }

  // ---------------------------------------------------------------- page state

  datatype Tab = KeyTab | UploadTab | ResultsTab

  /** What `Promise.all` of the three loads delivers when all succeed. */
  datatype ExamData = ExamData(exam: Option<Exam>, key: seq<AnswerKeyEntry>, results: seq<Result>)

  /** How `handleGenerateSheets` ended. */
  datatype SheetsOutcome = SheetsFailed | NoRegistrations | Downloaded(fileName: string)

  datatype PageView = Spinner | NotFound | ExamPage(tab: Tab)

  function ExamPath(id: string): string { "/exams/" + id }

  function LoadRequests(id: string): seq<Request>
  {
    [Request(Get, ExamPath(id), NoBody),
     Request(Get, ExamPath(id) + "/answer-key", NoBody),
     Request(Get, "/results/" + id, NoBody)]
  }

  function GenerateRequest(id: string): Request { Request(Post, ExamPath(id) + "/registrations/generate", NoBody) }
  function RegistrationsRequest(id: string): Request { Request(Get, ExamPath(id) + "/registrations", NoBody) }
  function SheetsRequest(id: string): Request { Request(Get, ExamPath(id) + "/registrations/sheets.pdf", NoBody) }

  class ExamDetail {
    /** The `:id` route parameter. */
    const id: string
    var exam: Option<Exam>
    var answerKey: seq<AnswerKeyEntry>
    var results: seq<Result>
    var loading: bool
    var activeTab: Tab
    var isSavingKey: bool
    var uploadFiles: Option<seq<File>>
    var isGeneratingSheets: bool
    var isUploading: bool
    /** Delayed `fetchData` calls scheduled and not yet run. */
    var scheduledRefreshes: nat
    /** Every request sent, in order. */
    ghost var requests: seq<Request>
    /** The file name of every download handed to the browser, in order. */
    ghost var downloads: seq<string>

    constructor (id: string)
      ensures this.id == id
      ensures exam == None && answerKey == [] && results == [] && loading && activeTab == KeyTab
      ensures !isSavingKey && uploadFiles == None && !isGeneratingSheets && !isUploading
      ensures scheduledRefreshes == 0 && requests == [] && downloads == []
    {
      this.id := id;
      exam, answerKey, results, loading, activeTab := None, [], [], true, KeyTab;
      isSavingKey, uploadFiles, isGeneratingSheets, isUploading := false, None, false, false;
      scheduledRefreshes, requests, downloads := 0, [], [];
    }

    /** Spinner while loading, a not-found notice without an exam, otherwise the tabbed page. */
    function View(): (v: PageView)
      reads this
      ensures v.Spinner? <==> loading
      ensures v.NotFound? <==> !loading && exam.None?
      ensures v.ExamPage? ==> v.tab == activeTab
    {
      if loading then Spinner else if exam.None? then NotFound else ExamPage(activeTab)
    }

    /** `fetchData`: the three loads as one outcome; `loading` is cleared whatever happens. */
    method FetchData(outcome: ApiResult<ExamData>)
      modifies this`exam, this`answerKey, this`results, this`loading, this`requests
      ensures requests == old(requests) + LoadRequests(id)
      ensures !loading
      ensures outcome.Rejected? ==> exam == old(exam) && answerKey == old(answerKey) && results == old(results)
      ensures outcome.Ok? ==> exam == outcome.data.exam && results == outcome.data.results
                              && answerKey == LoadedKey(outcome.data.key, outcome.data.exam)
    {
      requests := requests + LoadRequests(id);
      if outcome.Ok? {
        var data := outcome.data;
        exam := data.exam;
        answerKey := data.key;
        results := data.results;
        if |data.key| == 0 && data.exam.Some? {
          answerKey := DefaultAnswerKey(data.exam.value.totalQuestions);
        }
      }
      loading := false;
    }

    /** A delayed refresh scheduled by an upload runs `fetchData`. */
    method FireScheduledRefresh(outcome: ApiResult<ExamData>)
      requires scheduledRefreshes > 0
      modifies this`scheduledRefreshes, this`exam, this`answerKey, this`results, this`loading, this`requests
      ensures scheduledRefreshes == old(scheduledRefreshes) - 1
      ensures requests == old(requests) + LoadRequests(id)
      ensures !loading
      ensures outcome.Rejected? ==> exam == old(exam) && answerKey == old(answerKey) && results == old(results)
      ensures outcome.Ok? ==> exam == outcome.data.exam && results == outcome.data.results
                              && answerKey == LoadedKey(outcome.data.key, outcome.data.exam)
    {
      scheduledRefreshes := scheduledRefreshes - 1;
      FetchData(outcome);
    }

    method SelectTab(tab: Tab)
      modifies this`activeTab
      ensures activeTab == tab
    {
      activeTab := tab;
    }

    /** The file input's onChange. */
    method ChooseFiles(files: seq<File>)
      modifies this`uploadFiles
      ensures uploadFiles == Some(files)
    {
      uploadFiles := Some(files);
    }

    /** The "Limpar" button. */
    method ClearFiles()
      modifies this`uploadFiles
      ensures uploadFiles == None
    {
      uploadFiles := None;
    }

    /** Question `idx`'s select picks `option`. */
    method EditAnswer(idx: nat, option: string)
      requires idx < |answerKey|
      modifies this`answerKey
      ensures answerKey == WithOption(old(answerKey), idx, option)
    {
      answerKey := WithOption(answerKey, idx, option);
    }

    /** `handleSaveKey`: PUT the key; `isSavingKey` ends false whether or not it was saved. */
    method HandleSaveKey()
      modifies this`isSavingKey, this`requests
      ensures requests == old(requests) + [Request(Put, ExamPath(id) + "/answer-key", KeyPayload(answerKey))]
      ensures !isSavingKey
    {
      isSavingKey := true;
      requests := requests + [Request(Put, ExamPath(id) + "/answer-key", KeyPayload(answerKey))];
      isSavingKey := false;
    }

    /**
     * `handleUpload`: without chosen files nothing happens. Otherwise one
     * POST of the multipart form; on success the results tab opens and one
     * refresh is scheduled; either way the upload flag and the files are cleared.
     */
    method HandleUpload(uploaded: bool)
      modifies this`isUploading, this`uploadFiles, this`activeTab, this`scheduledRefreshes, this`requests
      ensures old(uploadFiles).None? ==> unchanged(this)
      ensures old(uploadFiles).Some? ==>
                requests == old(requests) + [Request(Post, "/uploads", Multipart(UploadForm(id, old(uploadFiles).value)))]
                && !isUploading && uploadFiles == None
      ensures old(uploadFiles).Some? && uploaded ==> activeTab == ResultsTab && scheduledRefreshes == old(scheduledRefreshes) + 1
      ensures !uploaded ==> activeTab == old(activeTab) && scheduledRefreshes == old(scheduledRefreshes)
    {
      if uploadFiles.None? {
        return;
      }
      isUploading := true;
      var form := BuildUploadForm(id, uploadFiles.value);
      requests := requests + [Request(Post, "/uploads", Multipart(form))];
      if uploaded {
        activeTab := ResultsTab;
        scheduledRefreshes := scheduledRefreshes + 1;
      }
      isUploading := false;
      uploadFiles := None;
    }

    /**
     * `handleGenerateSheets`: generate, then list the registrations, then
     * download the PDF; an empty list stops before the download, a failure
     * stops where it happens, and the flag ends false on every path.
     */
    method HandleGenerateSheets(generated: bool, registrations: ApiResult<seq<ExamRegistration>>, pdf: bool)
      returns (outcome: SheetsOutcome)
      modifies this`isGeneratingSheets, this`requests, this`downloads
      ensures !isGeneratingSheets
      ensures !generated ==> outcome == SheetsFailed && requests == old(requests) + [GenerateRequest(id)]
      ensures generated && registrations.Rejected? ==>
                outcome == SheetsFailed && requests == old(requests) + [GenerateRequest(id), RegistrationsRequest(id)]
      ensures generated && registrations == Ok([]) ==>
                outcome == NoRegistrations && requests == old(requests) + [GenerateRequest(id), RegistrationsRequest(id)]
      ensures generated && registrations.Ok? && registrations.data != [] ==>
                requests == old(requests) + [GenerateRequest(id), RegistrationsRequest(id), SheetsRequest(id)]
                && outcome == (if pdf then Downloaded(SheetFileName(exam)) else SheetsFailed)
      ensures downloads == old(downloads) + (if outcome.Downloaded? then [outcome.fileName] else [])
    {
      isGeneratingSheets := true;
      outcome := SheetsFailed;
      requests := requests + [GenerateRequest(id)];
      if generated {
        requests := requests + [RegistrationsRequest(id)];
        if registrations.Ok? {
          if |registrations.data| == 0 {
            outcome := NoRegistrations;
          } else {
            requests := requests + [SheetsRequest(id)];
            if pdf {
              var fileName := SheetFileName(exam);
              downloads := downloads + [fileName];
              outcome := Downloaded(fileName);
            }
          }
        }
      }
      isGeneratingSheets := false;
    }
  }
}
