/** What the pages send to the REST API, and what comes back, as plain values. */
module Api {
  import opened Types

  /** The outcome of one awaited request: its response data, or a rejection. */
  datatype ApiResult<+T> = Ok(data: T) | Rejected

  /** A file picked in a file input; only its identity matters here. */
  datatype File = File(name: string)

  datatype FieldValue = TextValue(text: string) | Upload(file: File)

  /** One `FormData.append(key, value)` entry of a multipart body. */
  datatype FormField = FormField(key: string, value: FieldValue)

  datatype Verb = Get | Post | Put

  datatype Body =
    | NoBody
    | ExamPayload(exam: CreateExamRequest)
    | KeyPayload(entries: seq<AnswerKeyEntry>)
    | Multipart(fields: seq<FormField>)

  datatype Request = Request(verb: Verb, path: string, body: Body)
}
