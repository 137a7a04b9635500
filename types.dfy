/** The records exchanged with the grading API (src/types/index.ts). */
module Types {

  /** An optional value; `None` stands for an absent (undefined or null) field. */
  datatype Option<+T> = None | Some(value: T)

  /** JavaScript truthiness of an optional string: absent and "" are both falsy. */
  predicate Present(s: Option<string>)
  {
    s.Some? && s.value != ""
  }

  datatype Exam = Exam(
    id: string,
    name: string,
    totalQuestions: int,
    alternativesCount: int,
    templateVersion: string,
    createdAt: string)

  /** Body of `POST /exams`. */
  datatype CreateExamRequest = CreateExamRequest(
    name: string,
    totalQuestions: int,
    alternativesCount: int,
    templateVersion: string,
    className: Option<string>,
    studentIds: Option<seq<string>>)

  datatype AnswerKeyEntry = AnswerKeyEntry(questionNumber: int, correctOption: string)

  datatype Student = Student(
    id: string,
    registrationNumber: string,
    name: string,
    className: Option<string>)

  datatype ExamRegistration = ExamRegistration(
    id: string,
    studentId: string,
    studentName: string,
    registrationNumber: string,
    sheetCode: string)

  datatype JobStatus = Pending | Processing | Completed | Failed

  datatype Job = Job(
    jobId: string,
    studentSheetId: string,
    status: JobStatus,
    attempts: int,
    errorMessage: Option<string>)

  datatype Result = Result(
    id: string,
    studentSheetId: string,
    studentName: Option<string>,
    registrationNumber: Option<string>,
    className: Option<string>,
    originalFileName: string,
    score: int,
    correctCount: int,
    totalQuestions: int,
    processedAt: string)
}
