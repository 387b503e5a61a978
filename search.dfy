/**
 * The server's search endpoint: the query parameter is validated and trimmed,
 * the three searches are a given function of the term, and the response adds
 * count metadata or reports the failure.
 */
module SearchController {
  import opened Wrappers
  import opened Text

  /** `req.query.query`: absent, a single string, or something else (a repeated parameter). */
  datatype QueryParam = Absent | Text(s: string) | NonText

  const MinQueryLength := 3
  const QueryTooShort := "Search query must be at least 3 characters long"
  const SearchFailed := "Error performing search"
  const UnknownError := "Unknown error occurred"

  /** The accepted search term: the trimmed query when it is a string of at least three characters after trimming. */
  function SearchTerm(q: QueryParam): (term: Option<string>)
    ensures term.Some? <==> q.Text? && |Trim(q.s)| >= MinQueryLength
    ensures term.Some? ==> term.value == Trim(q.s) && |term.value| >= MinQueryLength
  {
    if q.Text? && q.s != "" && |Trim(q.s)| >= MinQueryLength then Some(Trim(q.s)) else None
  }

  /** What a thrown value can be: an `Error` with its message, or anything else. */
  datatype Thrown = ErrorObject(message: string) | OtherValue

  /** The outcome of running the three searches on the term. */
  datatype Outcome<T, P, U> = Found(tasks: seq<T>, projects: seq<P>, users: seq<U>) | Failed(thrown: Thrown)

  datatype Meta = Meta(totalResults: nat, tasksCount: nat, projectsCount: nat, usersCount: nat)

  datatype Response<T, P, U> =
    | BadRequest(message: string)
    | Results(tasks: seq<T>, projects: seq<P>, users: seq<U>, meta: Meta)
    | ServerError(message: string, error: string)

  function StatusCode<T, P, U>(r: Response<T, P, U>): int {
    match r
    case BadRequest(_) => 400
    case Results(_, _, _, _) => 200
    case ServerError(_, _) => 500
  }

  /** `error instanceof Error ? error.message : 'Unknown error occurred'`. */
  function ErrorText(t: Thrown): (s: string)
    ensures t.ErrorObject? ==> s == t.message
    ensures t.OtherValue? ==> s == UnknownError
  {
    match t
    case ErrorObject(m) => m
    case OtherValue => UnknownError
  }

  /** The counts of the three lists; the total is their sum. */
  function CountMeta<T, P, U>(tasks: seq<T>, projects: seq<P>, users: seq<U>): (m: Meta)
    ensures m.tasksCount == |tasks| && m.projectsCount == |projects| && m.usersCount == |users|
    ensures m.totalResults == m.tasksCount + m.projectsCount + m.usersCount
  {
    Meta(|tasks| + |projects| + |users|, |tasks|, |projects|, |users|)
  }

  /** `search`, with the database searches given as `run`. */
  function Search<T, P, U>(q: QueryParam, run: string -> Outcome<T, P, U>): (r: Response<T, P, U>)
    ensures SearchTerm(q).None? <==> r.BadRequest?
    ensures r.BadRequest? ==> r.message == QueryTooShort
    ensures SearchTerm(q).Some? && run(SearchTerm(q).value).Found? ==>
              var o := run(SearchTerm(q).value);
              r == Results(o.tasks, o.projects, o.users, CountMeta(o.tasks, o.projects, o.users))
    ensures SearchTerm(q).Some? && run(SearchTerm(q).value).Failed? ==>
              r == ServerError(SearchFailed, ErrorText(run(SearchTerm(q).value).thrown))
  {
    match SearchTerm(q)
    case None => BadRequest(QueryTooShort)
    case Some(term) =>
      match run(term)
      case Found(tasks, projects, users) => Results(tasks, projects, users, CountMeta(tasks, projects, users))
      case Failed(thrown) => ServerError(SearchFailed, ErrorText(thrown))
  }

  /** A rejected query never reaches the searches: the response does not depend on them. */
  lemma RejectedQueryRunsNoSearch<T, P, U>(q: QueryParam, run1: string -> Outcome<T, P, U>, run2: string -> Outcome<T, P, U>)
    requires SearchTerm(q).None?
    ensures Search(q, run1) == Search(q, run2) == BadRequest(QueryTooShort)
  {
  }

  /** The searches see only the trimmed query: runners that agree on it give the same response. */
  lemma SearchesSeeTrimmedQuery<T, P, U>(s: string, run1: string -> Outcome<T, P, U>, run2: string -> Outcome<T, P, U>)
    requires run1(Trim(s)) == run2(Trim(s))
    ensures Search(Text(s), run1) == Search(Text(s), run2)
  {
  }

  /** Every response's status code is one of 400, 200 and 500, and 200 only carries consistent counts. */
  lemma ResponseShape<T, P, U>(q: QueryParam, run: string -> Outcome<T, P, U>)
    ensures var r := Search(q, run);
            && StatusCode(r) in {400, 200, 500}
            && (StatusCode(r) == 200 ==>
                  r.meta.totalResults == |r.tasks| + |r.projects| + |r.users|)
  {
  }

  /** "abc" is accepted as is; "  ab  " trims to two characters and is rejected. */
  lemma QueryExamples()
    ensures SearchTerm(Text("abc")) == Some("abc")
    ensures SearchTerm(Text("  ab  ")) == None
  {
    TrimOfTrimmed("abc");
    assert "  ab  " == "  " + "ab" + "  ";
    TrimPadded("  ", "ab", "  ");
  }
}
