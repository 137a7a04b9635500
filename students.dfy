/**
 * The students page (src/pages/Students.tsx): the roster table with its
 * initials avatar and class cell, the load on mount and the roster import.
 */
module StudentsPage {
  import opened Types
  import opened Api
  import opened Text
  import opened Views

  // ---------------------------------------------------------------- initials

  /** `s.split(' ')`: the pieces between single spaces, empty pieces included. */
  function Split(s: string): (parts: seq<string>)
    ensures |parts| >= 1
    decreases |s|
  {
    if s == [] then [[]]
    else if s[0] == ' ' then [[]] + Split(s[1..])
    else var rest := Split(s[1..]); [[s[0]] + rest[0]] + rest[1..]
  }

  /** `parts.join(' ')`. */
  function Join(parts: seq<string>): string
    decreases |parts|
  {
    if parts == [] then [] else if |parts| == 1 then parts[0] else parts[0] + " " + Join(parts[1..])
  }

  /** Splitting loses nothing: joining the pieces gives the name back, and no piece holds a space. */
  lemma {:induction false} SplitJoin(s: string)
    ensures Join(Split(s)) == s
    ensures forall i :: 0 <= i < |Split(s)| ==> ' ' !in Split(s)[i]
    decreases |s|
  {
    if s != [] {
      SplitJoin(s[1..]);
      var rest := Split(s[1..]);
      if s[0] == ' ' {
        assert Split(s) == [[]] + rest;
        assert Split(s)[1..] == rest;
        assert s == [s[0]] + s[1..];
      } else {
        var parts := Split(s);
        assert parts == [[s[0]] + rest[0]] + rest[1..];
        if |rest| == 1 {
          assert Join(parts) == [s[0]] + rest[0];
        } else {
          assert parts[1..] == rest[1..];
          assert Join(rest) == rest[0] + " " + Join(rest[1..]);
        }
        assert s == [s[0]] + s[1..];
        forall i | 0 <= i < |parts|
          ensures ' ' !in parts[i]
        {
          if i > 0 {
            assert parts[i] == rest[i];
          }
        }
      }
    }
  }

  /** `parts.map(n => n[0]).join('')`: an empty piece's missing first character renders as nothing. */
  function FirstLetters(parts: seq<string>): string
    decreases |parts|
  {
    if parts == [] then [] else (if parts[0] == [] then [] else [parts[0][0]]) + FirstLetters(parts[1..])
  }

  /**
   * Reference definition: the characters that begin a word, a word being a
   * maximal run of non-space characters. `atStart` says whether the previous
   * character was a space (or there was none).
   */
  function WordStarts(s: string, atStart: bool): string
    decreases |s|
  {
    if s == [] then []
    else (if atStart && s[0] != ' ' then [s[0]] else []) + WordStarts(s[1..], s[0] == ' ')
  }

  lemma {:induction false} FirstLettersOfSplit(s: string)
    ensures FirstLetters(Split(s)) == WordStarts(s, true)
    ensures FirstLetters(Split(s)[1..]) == WordStarts(s, false)
    decreases |s|
  {
    if s != [] {
      FirstLettersOfSplit(s[1..]);
      var rest := Split(s[1..]);
      if s[0] == ' ' {
        assert Split(s) == [[]] + rest;
        assert Split(s)[1..] == rest;
      } else {
        var parts := Split(s);
        assert parts[1..] == rest[1..];
        assert parts[0] == [s[0]] + rest[0];
        assert FirstLetters(rest) == (if rest[0] == [] then [] else [rest[0][0]]) + FirstLetters(rest[1..]);
      }
    }
  }

  function Take(s: string, n: nat): (r: string)
    ensures |r| <= n && r <= s
  {
    if |s| <= n then s else s[..n]
  }

  /** The avatar text: the first letters of the first two words, upper-cased. */
  function Initials(name: string): (r: string)
    ensures |r| <= 2
    ensures r == Upper(Take(WordStarts(name, true), 2))
  {
    FirstLettersOfSplit(name);
    Upper(Take(FirstLetters(Split(name)), 2))
  }

  // ---------------------------------------------------------------- table

  const NoClass: string := "Sem turma"

  /** The class cell: the class name when there is a non-empty one, `Sem turma` otherwise. */
  function ClassLabel(className: Option<string>): (r: string)
    ensures Present(className) ==> r == className.value
    ensures !Present(className) ==> r == NoClass
    ensures r != ""
  {
    if Present(className) then className.value else NoClass
  }

  datatype StudentRow = StudentRow(registrationNumber: string, initials: string, name: string, classLabel: string)

  function RowOf(s: Student): StudentRow
  {
    StudentRow(s.registrationNumber, Initials(s.name), s.name, ClassLabel(s.className))
  }

  const SkeletonRows: nat := 5

  /** The table body: five placeholder rows while loading, the empty notice, or one row per student in order. */
  function Body(loading: bool, students: seq<Student>): (v: ListView<StudentRow>)
    ensures v.Skeletons? <==> loading
    ensures loading ==> v.count == 5
    ensures v.EmptyState? <==> !loading && students == []
    ensures v.Rows? <==> !loading && students != []
    ensures v.Rows? ==> |v.rows| == |students|
    ensures v.Rows? ==> forall i :: 0 <= i < |students| ==>
              v.rows[i].registrationNumber == students[i].registrationNumber
              && v.rows[i].name == students[i].name
              && v.rows[i].initials == Upper(Take(WordStarts(students[i].name, true), 2))
              && v.rows[i].classLabel == ClassLabel(students[i].className)
  {
    ListBody(loading, students, SkeletonRows, RowOf)
  }

  /** The header `N alunos cadastrados`. */
  function HeaderText(students: seq<Student>): (r: string)
    ensures ReadCount(r) == |students|
  {
    ReadCountOf(|students|, " alunos cadastrados");
    NatToString(|students|) + " alunos cadastrados"
  }

  // ---------------------------------------------------------------- page state

  const StudentsRequest: Request := Request(Get, "/students", NoBody)

  function ImportRequest(file: File): Request
  {
    Request(Post, "/students/import", Multipart([FormField("File", Upload(file))]))
  }

  class Students {
    var students: seq<Student>
    var loading: bool
    var isUploading: bool
    /** Every request sent, in order. */
    ghost var requests: seq<Request>

    constructor ()
      ensures students == [] && loading && !isUploading && requests == []
    {
      students, loading, isUploading, requests := [], true, false, [];
    }

    /** `fetchStudents`: the list is replaced only on success; `loading` is cleared on every path. */
    method FetchStudents(outcome: ApiResult<seq<Student>>)
      modifies this`students, this`loading, this`requests
      ensures requests == old(requests) + [StudentsRequest]
      ensures !loading
      ensures students == if outcome.Ok? then outcome.data else old(students)
    {
      requests := requests + [StudentsRequest];
      if outcome.Ok? {
        students := outcome.data;
      }
      loading := false;
    }

    /**
     * `handleFileUpload`: with no file chosen nothing happens. Otherwise the
     * first file is POSTed; only a successful import reloads the list; the
     * upload flag ends false either way.
     */
    method HandleFileUpload(chosen: seq<File>, imported: bool, reload: ApiResult<seq<Student>>)
      modifies this
      ensures chosen == [] ==> unchanged(this)
      ensures chosen != [] ==> !isUploading
      ensures chosen != [] && imported ==>
                requests == old(requests) + [ImportRequest(chosen[0]), StudentsRequest]
                && !loading
                && students == (if reload.Ok? then reload.data else old(students))
      ensures chosen != [] && !imported ==>
                requests == old(requests) + [ImportRequest(chosen[0])]
                && loading == old(loading) && students == old(students)
    {
      if chosen == [] {
        return;
      }
      var file := chosen[0];
      isUploading := true;
      requests := requests + [ImportRequest(file)];
      if imported {
        FetchStudents(reload);
      }
      isUploading := false;
    }
  }
}
