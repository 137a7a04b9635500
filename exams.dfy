/**
 * The exams page (src/pages/Exams.tsx): the list of exams loaded on mount
 * and the inline form that creates one.
 */
module ExamsPage {
  import opened Types
  import opened Api
  import opened Views

  /** The `newExam` form state. */
  datatype ExamForm = ExamForm(name: string, totalQuestions: int, alternativesCount: int)

  const InitialForm: ExamForm := ExamForm("", 40, 5)

  const TemplateVersion: string := "v1"

  /** The body of `POST /exams`: the form's fields and template `v1`, nothing else. */
  function CreatePayload(form: ExamForm): (r: CreateExamRequest)
    ensures ToForm(r) == form
    ensures r.templateVersion == TemplateVersion
    ensures r.className == None && r.studentIds == None
  {
    CreateExamRequest(form.name, form.totalQuestions, form.alternativesCount, TemplateVersion, None, None)
  }

  /** The form a payload was built from. */
  function ToForm(r: CreateExamRequest): ExamForm
  {
    ExamForm(r.name, r.totalQuestions, r.alternativesCount)
  }

  datatype ExamCard = ExamCard(name: string, createdAt: string, totalQuestions: int, alternativesCount: int, link: string)

  function CardOf(e: Exam): ExamCard
  {
    ExamCard(e.name, e.createdAt, e.totalQuestions, e.alternativesCount, "/exams/" + e.id)
  }

  const SkeletonCards: nat := 3

  /** The grid: three placeholders while loading, the empty notice, or one card per exam in order. */
  function Grid(loading: bool, exams: seq<Exam>): (v: ListView<ExamCard>)
    ensures v.Skeletons? <==> loading
    ensures loading ==> v.count == 3
    ensures v.EmptyState? <==> !loading && exams == []
    ensures v.Rows? <==> !loading && exams != []
    ensures v.Rows? ==> |v.rows| == |exams|
    ensures v.Rows? ==> forall i :: 0 <= i < |exams| ==>
              v.rows[i].name == exams[i].name && v.rows[i].createdAt == exams[i].createdAt
              && v.rows[i].totalQuestions == exams[i].totalQuestions
              && v.rows[i].alternativesCount == exams[i].alternativesCount
              && v.rows[i].link == "/exams/" + exams[i].id
  {
    ListBody(loading, exams, SkeletonCards, CardOf)
  }

  const ExamsRequest: Request := Request(Get, "/exams", NoBody)

  function CreateRequest(form: ExamForm): Request
  {
    Request(Post, "/exams", ExamPayload(CreatePayload(form)))
  }

  class Exams {
    var exams: seq<Exam>
    var loading: bool
    var isCreating: bool
    var newExam: ExamForm
    /** Every request sent, in order. */
    ghost var requests: seq<Request>

    constructor ()
      ensures exams == [] && loading && !isCreating && newExam == InitialForm && requests == []
    {
      exams, loading, isCreating, newExam, requests := [], true, false, InitialForm, [];
    }

    /** `fetchExams`: the list is replaced only on success; `loading` is cleared on every path. */
    method FetchExams(outcome: ApiResult<seq<Exam>>)
      modifies this`exams, this`loading, this`requests
      ensures requests == old(requests) + [ExamsRequest]
      ensures !loading
      ensures exams == if outcome.Ok? then outcome.data else old(exams)
    {
      requests := requests + [ExamsRequest];
      if outcome.Ok? {
        exams := outcome.data;
      }
      loading := false;
    }

    /**
     * `handleCreate`, the submit of the open form: POST the form with template
     * `v1`. On success the form closes and the list is reloaded (the entered
     * values are kept); on failure the form stays open as it was.
     */
    method HandleCreate(created: bool, reload: ApiResult<seq<Exam>>)
      requires isCreating
      modifies this`exams, this`loading, this`isCreating, this`requests
      ensures newExam == old(newExam)
      ensures created ==>
                requests == old(requests) + [CreateRequest(newExam), ExamsRequest]
                && !isCreating && !loading
                && exams == (if reload.Ok? then reload.data else old(exams))
      ensures !created ==>
                requests == old(requests) + [CreateRequest(newExam)]
                && isCreating && exams == old(exams) && loading == old(loading)
    {
      requests := requests + [CreateRequest(newExam)];
      if created {
        isCreating := false;
        FetchExams(reload);
      }
    }

    /** "Novo Exame". */
    method Open()
      modifies this`isCreating
      ensures isCreating
    {
      isCreating := true;
    }

    /** "Cancelar", shown only in the open form: closes it; the list and the entered values stay. */
    method Cancel()
      requires isCreating
      modifies this`isCreating
      ensures !isCreating
    {
      isCreating := false;
    }

    /** The form's inputs exist only while it is open; each edit replaces one field. */
    method SetName(name: string)
      requires isCreating
      modifies this`newExam
      ensures newExam == old(newExam).(name := name)
    {
      newExam := newExam.(name := name);
    }

    method SetTotalQuestions(n: int)
      requires isCreating
      modifies this`newExam
      ensures newExam == old(newExam).(totalQuestions := n)
    {
      newExam := newExam.(totalQuestions := n);
    }

    method SetAlternativesCount(n: int)
      requires isCreating
      modifies this`newExam
      ensures newExam == old(newExam).(alternativesCount := n)
    {
      newExam := newExam.(alternativesCount := n);
    }
  }

  /** Filling the form and creating sends what was typed, and a later reopen shows it again. */
  method CreateThenReopen(page: Exams, name: string, total: int, alternatives: int, reload: ApiResult<seq<Exam>>)
    modifies page
    ensures |page.requests| > |old(page.requests)|
    ensures page.requests[|old(page.requests)|] == Request(Post, "/exams", ExamPayload(CreateExamRequest(name, total, alternatives, "v1", None, None)))
    ensures page.isCreating && page.newExam == ExamForm(name, total, alternatives)
  {
    page.Open();
    page.SetName(name);
    page.SetTotalQuestions(total);
    page.SetAlternativesCount(alternatives);
    page.HandleCreate(true, reload);
    page.Open();
  }
}
