/**
 * The client's behaviour on the request sequences of its unit tests
 * (`__tests__/jira-client.test.ts`), and on a few more that exercise the
 * 400 case of the sprint listing, the filtered board listing and the retry
 * interceptor.
 */
module JiraClientCases {
  import opened Wrappers
  import opened JiraTypes
  import opened JiraClient

  function TestBoard(id: int, kind: BoardKind): Board {
    Board(id, "Board", kind)
  }

  function TestIssue(key: string): Issue {
    Issue(key, key, IssueFields(Some(key), None, None, None, None, "", None, false, None, None, None))
  }

  /** Two board pages, the second one last: three boards from requests at 0 and 50. */
  lemma BoardsTwoPages(pages: seq<Answer<Board>>)
    requires pages == [
      Ok(Page([TestBoard(1, Scrum), TestBoard(2, Kanban)], 75, false)),
      Ok(Page([TestBoard(3, Scrum)], 75, true))]
    ensures EndsByLast(pages) && FirstStopByLast(pages) == 1
    ensures Offsets(2, BoardPageSize) == [0, 50]
    ensures Outcome(pages, 1) == Ok([TestBoard(1, Scrum), TestBoard(2, Kanban), TestBoard(3, Scrum)])
  {
    assert StopsByLast(pages[1]);
    FirstStopAt(pages, 1);
    ValuesStep(pages, 0);
    ValuesStep(pages, 1);
    assert pages[..0] == [] && pages[..2] == pages;
    assert Values(pages[..0]) == [];
    assert Values(pages[..1]) == [TestBoard(1, Scrum), TestBoard(2, Kanban)];
    assert Values(pages[..2]) == [TestBoard(1, Scrum), TestBoard(2, Kanban), TestBoard(3, Scrum)];
  }

  /** A single last page: one request, its boards. */
  lemma BoardsSinglePage(pages: seq<Answer<Board>>)
    requires pages == [Ok(Page([TestBoard(1, Scrum)], 2, true))]
    ensures EndsByLast(pages) && FirstStopByLast(pages) == 0
    ensures Outcome(pages, 0) == Ok([TestBoard(1, Scrum)])
  {
    assert StopsByLast(pages[0]);
    FirstStopAt(pages, 0);
    ValuesStep(pages, 0);
    assert pages[..0] == [] && pages[..1] == pages;
    assert Values(pages[..0]) == [];
    assert Values(pages[..1]) == [TestBoard(1, Scrum)];
    assert pages[0].Ok?;
  }

  /** A 401 on the first board request is rethrown and logged with Jira's message. */
  lemma BoardsUnauthorized(e: HttpError, pages: seq<Answer<Board>>)
    requires e == HttpError(true, true, Some(401), None, ["Unauthorized"], "Request failed")
    requires pages == [Err(e)]
    ensures EndsByLast(pages) && FirstStopByLast(pages) == 0
    ensures Outcome(pages, 0) == Err(e)
    ensures LoggedMessage(e) == Some("Unauthorized")
  {
    assert StopsByLast(pages[0]);
    FirstStopAt(pages, 0);
  }

  /** Sprint issues, total 150: requests at 0 and 100, three issues. */
  lemma SprintIssuesTwoPages(pages: seq<Answer<Issue>>)
    requires pages == [
      Ok(Page([TestIssue("PROJ-1"), TestIssue("PROJ-2")], 150, false)),
      Ok(Page([TestIssue("PROJ-3")], 150, false))]
    ensures EndsByTotal(pages, IssuePageSize) && FirstStopByTotal(pages, IssuePageSize) == 1
    ensures Offsets(2, IssuePageSize) == [0, 100]
    ensures Outcome(pages, 1) == Ok([TestIssue("PROJ-1"), TestIssue("PROJ-2"), TestIssue("PROJ-3")])
  {
    assert StopsByTotal(pages, 1, IssuePageSize);
    assert !StopsByTotal(pages, 0, IssuePageSize);
    FirstStopByTotalAt(pages, IssuePageSize, 1);
    ValuesStep(pages, 0);
    ValuesStep(pages, 1);
    assert pages[..0] == [] && pages[..2] == pages;
    assert Values(pages[..0]) == [];
    assert Values(pages[..1]) == [TestIssue("PROJ-1"), TestIssue("PROJ-2")];
    assert Values(pages[..2]) == [TestIssue("PROJ-1"), TestIssue("PROJ-2"), TestIssue("PROJ-3")];
  }

  /** Board history, total 120: two requests, two issues. */
  lemma BoardHistoryTwoPages(pages: seq<Answer<Issue>>)
    requires pages == [
      Ok(Page([TestIssue("PROJ-1")], 120, false)),
      Ok(Page([TestIssue("PROJ-2")], 120, false))]
    ensures EndsByTotal(pages, IssuePageSize) && FirstStopByTotal(pages, IssuePageSize) == 1
    ensures Outcome(pages, 1) == Ok([TestIssue("PROJ-1"), TestIssue("PROJ-2")])
  {
    assert StopsByTotal(pages, 1, IssuePageSize);
    assert !StopsByTotal(pages, 0, IssuePageSize);
    FirstStopByTotalAt(pages, IssuePageSize, 1);
    ValuesStep(pages, 0);
    ValuesStep(pages, 1);
    assert pages[..0] == [] && pages[..2] == pages;
    assert Values(pages[..0]) == [];
    assert Values(pages[..1]) == [TestIssue("PROJ-1")];
    assert Values(pages[..2]) == [TestIssue("PROJ-1"), TestIssue("PROJ-2")];
  }

  /** A 400 on the second sprint page gives no sprints at all, not the first page's. */
  lemma SprintsBadRequestDropsAll(s: Sprint, e: HttpError, pages: seq<Answer<Sprint>>)
    requires e == HttpError(true, true, Some(400), None, [], "Bad Request")
    requires pages == [Ok(Page([s], 80, false)), Err(e)]
    ensures EndsByTotal(pages, DefaultSprintPageSize)
    ensures SprintsOutcome(pages, DefaultSprintPageSize) == Ok([])
  {
    assert StopsByTotal(pages, 1, DefaultSprintPageSize);
    assert !StopsByTotal(pages, 0, DefaultSprintPageSize);
    FirstStopByTotalAt(pages, DefaultSprintPageSize, 1);
  }

  /** The same failure as a 500 is rethrown. */
  lemma SprintsServerErrorRethrown(s: Sprint, e: HttpError, pages: seq<Answer<Sprint>>)
    requires e == HttpError(true, true, Some(500), None, [], "Server Error")
    requires pages == [Ok(Page([s], 80, false)), Err(e)]
    ensures EndsByTotal(pages, DefaultSprintPageSize)
    ensures SprintsOutcome(pages, DefaultSprintPageSize) == Err(e)
  {
    assert StopsByTotal(pages, 1, DefaultSprintPageSize);
    assert !StopsByTotal(pages, 0, DefaultSprintPageSize);
    FirstStopByTotalAt(pages, DefaultSprintPageSize, 1);
  }

  /** One project key: a last page holding board 1. */
  lemma FetchedA(a: seq<Answer<Board>>)
    requires a == [Ok(Page([TestBoard(1, Scrum)], 1, true))]
    ensures EndsByLast(a) && Fetched(a) == [TestBoard(1, Scrum)]
  {
    assert StopsByLast(a[0]);
    FirstStopAt(a, 0);
    ValuesStep(a, 0);
    assert a[..0] == [] && a[..1] == a;
  }

  /** Another key: boards 1 and 2, then a failing second page. */
  lemma FetchedB(b: seq<Answer<Board>>, e: HttpError)
    requires b == [Ok(Page([TestBoard(1, Scrum), TestBoard(2, Kanban)], 3, false)), Err(e)]
    ensures EndsByLast(b) && Fetched(b) == [TestBoard(1, Scrum), TestBoard(2, Kanban)]
  {
    assert StopsByLast(b[1]);
    FirstStopAt(b, 1);
    ValuesStep(b, 0);
    ValuesStep(b, 1);
    assert b[..0] == [] && b[..2] == b;
  }

  /**
   * Keys A and B both list board 1, and B's second page fails: board 1
   * appears once and B's board 2 is kept.
   */
  lemma FilteredDedupAndPartialError(a: seq<Answer<Board>>, b: seq<Answer<Board>>, e: HttpError, src: BoardSource)
    requires a == [Ok(Page([TestBoard(1, Scrum)], 1, true))]
    requires b == [Ok(Page([TestBoard(1, Scrum), TestBoard(2, Kanban)], 3, false)), Err(e)]
    requires src.byProject("A") == a && src.byProject("B") == b
    ensures EndsByLast(src.byProject("A")) && EndsByLast(src.byProject("B"))
    ensures AddNew([], FetchedAll(src, ["A", "B"])) == [TestBoard(1, Scrum), TestBoard(2, Kanban)]
  {
    FetchedA(a);
    FetchedB(b, e);
    var keys := ["A", "B"];
    assert keys[..1] == ["A"];
    assert keys[..1][..0] == [];
    var all := [TestBoard(1, Scrum), TestBoard(1, Scrum), TestBoard(2, Kanban)];
    assert FetchedAll(src, keys) == all;
    assert all[..2] == [TestBoard(1, Scrum), TestBoard(1, Scrum)];
    assert all[..2][..1] == [TestBoard(1, Scrum)];
    assert all[..2][..1][..0] == [];
    assert [TestBoard(1, Scrum)][0].id == 1;
    assert AddNew([], all[..2]) == [TestBoard(1, Scrum)];
    assert !HasId([TestBoard(1, Scrum)], 2);
  }

  /** Three 429s, then success: the fourth try is made, after waits of 1, 2 and 4 seconds. */
  lemma RetryThreeTimes(limited: HttpError, attempt: nat -> Result<int, HttpError>)
    requires limited == HttpError(true, true, Some(429), None, [], "Too Many Requests")
    requires forall j: nat :: attempt(j) == if j < 3 then Err(limited) else Ok(j)
    ensures Retries(attempt) == 3 && attempt(3) == Ok(3)
  {
    assert Retryable(attempt(0)) && Retryable(attempt(1)) && Retryable(attempt(2));
  }

  /** One 429, then success: a single retry. */
  lemma RetryOnce(limited: HttpError, attempt: nat -> Result<int, HttpError>)
    requires limited == HttpError(true, true, Some(429), None, [], "Too Many Requests")
    requires forall j: nat :: attempt(j) == if j < 1 then Err(limited) else Ok(j)
    ensures Retries(attempt) == 1
  {
    assert Retryable(attempt(0)) && !Retryable(attempt(1));
  }

  /** A 500 is final at once. */
  lemma NoRetryOnServerError(failed: HttpError, attempt: nat -> Result<int, HttpError>)
    requires failed == HttpError(true, true, Some(500), None, [], "Server Error")
    requires forall j: nat :: attempt(j) == Err(failed)
    ensures Retries(attempt) == 0
  {
    assert !Retryable(attempt(0));
  }

  /** A 429 without a request config is not retried either. */
  lemma NoRetryWithoutConfig(limited: HttpError, attempt: nat -> Result<int, HttpError>)
    requires limited == HttpError(true, false, Some(429), None, [], "Too Many Requests")
    requires forall j: nat :: attempt(j) == Err(limited)
    ensures Retries(attempt) == 0
  {
    assert !Retryable(attempt(0));
  }
}
