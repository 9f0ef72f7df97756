/**
 * The proxy's Jira REST client, with the network as data: each request is
 * answered by the next element of a page list (`pages[i]` answers the
 * request with `startAt = i * pageSize`). A page-level `Err` is the final
 * rejection of that request, after the 429 retries of `Send`.
 */
module JiraClient {
  import opened Wrappers
  import opened JiraTypes

  /** What the client knows of a failed request. */
  datatype HttpError = HttpError(
    isAxios: bool,
    hasConfig: bool,
    status: Option<int>,
    code: Option<string>,
    errorMessages: seq<string>,
    message: string)

  /** One page of a paginated Jira listing. */
  datatype Page<T> = Page(values: seq<T>, total: int, isLast: bool)

  type Answer<T> = Result<Page<T>, HttpError>

  const BoardPageSize: nat := 50
  const DefaultSprintPageSize: nat := 50
  const IssuePageSize: nat := 100
  const DefaultClosedSprintLimit: nat := 5
  const MaxRetries: nat := 3

  // ---------------------------------------------------------------------
  // Page lists

  /** The values of the answered pages, in request order; an error page adds nothing. */
  function Values<T>(pages: seq<Answer<T>>): seq<T>
    decreases |pages|
  {
    if pages == [] then []
    else
      Values(pages[..|pages| - 1]) +
        match pages[|pages| - 1]
        case Ok(p) => p.values
        case Err(_) => []
  }

  lemma ValuesStep<T>(pages: seq<Answer<T>>, i: nat)
    requires i < |pages|
    ensures Values(pages[..i + 1]) ==
      Values(pages[..i]) + match pages[i] case Ok(p) => p.values case Err(_) => []
  {
    assert pages[..i + 1][..i] == pages[..i];
  }

  /** A `while (!isLast)` loop stops at this answer. */
  predicate StopsByLast<T>(a: Answer<T>) {
    a.Err? || a.value.isLast
  }

  /** Some answer stops the loop: the listing the server gives is finite. */
  predicate EndsByLast<T>(pages: seq<Answer<T>>) {
    exists i | 0 <= i < |pages| :: StopsByLast(pages[i])
  }

  /** The index of the request after which a `while (!isLast)` loop stops. */
  function FirstStopByLast<T>(pages: seq<Answer<T>>, from: nat := 0): (k: nat)
    requires from <= |pages|
    requires exists i | from <= i < |pages| :: StopsByLast(pages[i])
    ensures from <= k < |pages| && StopsByLast(pages[k])
    ensures forall j | from <= j < k :: !StopsByLast(pages[j])
    decreases |pages| - from
  {
    if StopsByLast(pages[from]) then from else FirstStopByLast(pages, from + 1)
  }

  /** An answer that stops the loop, after none that does, is the first stop. */
  lemma FirstStopAt<T>(pages: seq<Answer<T>>, i: nat)
    requires i < |pages| && StopsByLast(pages[i])
    requires forall j | 0 <= j < i :: !StopsByLast(pages[j])
    ensures FirstStopByLast(pages) == i
  {
  }

  /** A do-while loop bounded by `total` stops after request `i`. */
  predicate StopsByTotal<T>(pages: seq<Answer<T>>, i: nat, pageSize: nat)
    requires i < |pages|
  {
    pages[i].Err? || (i + 1) * pageSize >= pages[i].value.total
  }

  predicate EndsByTotal<T>(pages: seq<Answer<T>>, pageSize: nat) {
    exists i | 0 <= i < |pages| :: StopsByTotal(pages, i, pageSize)
  }

  /** The index of the request after which a do-while loop bounded by `total` stops. */
  function FirstStopByTotal<T>(pages: seq<Answer<T>>, pageSize: nat, from: nat := 0): (k: nat)
    requires from <= |pages|
    requires exists i | from <= i < |pages| :: StopsByTotal(pages, i, pageSize)
    ensures from <= k < |pages| && StopsByTotal(pages, k, pageSize)
    ensures forall j | from <= j < k :: !StopsByTotal(pages, j, pageSize)
    decreases |pages| - from
  {
    if StopsByTotal(pages, from, pageSize) then from else FirstStopByTotal(pages, pageSize, from + 1)
  }

  lemma FirstStopByTotalAt<T>(pages: seq<Answer<T>>, pageSize: nat, i: nat)
    requires i < |pages| && StopsByTotal(pages, i, pageSize)
    requires forall j | 0 <= j < i :: !StopsByTotal(pages, j, pageSize)
    ensures FirstStopByTotal(pages, pageSize) == i
  {
  }

  /** `startAt` of the first `n` requests of a listing with the given page size. */
  function Offsets(n: nat, pageSize: nat): (r: seq<int>)
    ensures |r| == n && forall j | 0 <= j < n :: r[j] == j * pageSize
  {
    seq(n, j => j * pageSize)
  }

  /** One more request asks for the next offset, a page further on. */
  lemma OffsetsStep(n: nat, pageSize: nat)
    ensures Offsets(n + 1, pageSize) == Offsets(n, pageSize) + [n * pageSize]
    ensures (n + 1) * pageSize == n * pageSize + pageSize
  {
    var a := Offsets(n + 1, pageSize);
    var b := Offsets(n, pageSize) + [n * pageSize];
    assert forall j | 0 <= j < |a| :: a[j] == b[j];
  }

  /** The outcome of a listing whose pages all answered up to `k`, where it stopped. */
  function Outcome<T>(pages: seq<Answer<T>>, k: nat): Result<seq<T>, HttpError>
    requires k < |pages|
  {
    if pages[k].Err? then Err(pages[k].error) else Ok(Values(pages[..k + 1]))
  }

  // ---------------------------------------------------------------------
  // getAllBoards

  /** The board listing: all boards, and one page list per project key. */
  datatype BoardSource = BoardSource(
    all: seq<Answer<Board>>,
    byProject: string -> seq<Answer<Board>>)

  /** Some board in `boards` has this id. */
  predicate HasId(boards: seq<Board>, id: int) {
    exists j | 0 <= j < |boards| :: boards[j].id == id
  }

  predicate DistinctIds(boards: seq<Board>) {
    forall i, j | 0 <= i < j < |boards| :: boards[i].id != boards[j].id
  }

  /** `boards` followed by each board of `bs` whose id is not present yet. */
  function AddNew(boards: seq<Board>, bs: seq<Board>): seq<Board>
    decreases |bs|
  {
    if bs == [] then boards
    else
      var acc := AddNew(boards, bs[..|bs| - 1]);
      var b := bs[|bs| - 1];
      if HasId(acc, b.id) then acc else acc + [b]
  }

  /** What the client fetched for one project key before its loop stopped. */
  function Fetched(pages: seq<Answer<Board>>): seq<Board>
    requires EndsByLast(pages)
  {
    Values(pages[..FirstStopByLast(pages) + 1])
  }

  /** The boards fetched for the project keys, key after key. */
  function FetchedAll(src: BoardSource, keys: seq<string>): seq<Board>
    requires forall k | k in keys :: EndsByLast(src.byProject(k))
    decreases |keys|
  {
    if keys == [] then []
    else FetchedAll(src, keys[..|keys| - 1]) + Fetched(src.byProject(keys[|keys| - 1]))
  }

  /**
   * Unfiltered `getAllBoards`: requests at `startAt` 0, 50, 100, ... until a
   * page says `isLast`; the boards are the pages' concatenation, and any
   * error is rethrown.
   */
  method GetAllBoardsUnfiltered(pages: seq<Answer<Board>>) returns (r: Result<seq<Board>, HttpError>, startAts: seq<int>)
    requires EndsByLast(pages)
    ensures var k := FirstStopByLast(pages);
      startAts == Offsets(k + 1, BoardPageSize) && r == Outcome(pages, k)
  {
    var boards: seq<Board> := [];
    var startAt := 0;
    var isLast := false;
    var i := 0;
    startAts := [];
    ghost var k := FirstStopByLast(pages);
    while !isLast
      invariant 0 <= i <= k + 1
      invariant isLast <==> i == k + 1
      invariant i <= k ==> forall j | 0 <= j < i :: !StopsByLast(pages[j])
      invariant startAt == i * BoardPageSize && startAts == Offsets(i, BoardPageSize)
      invariant boards == Values(pages[..i])
      invariant isLast ==> pages[k].Ok?
      decreases k + 1 - i
    {
      OffsetsStep(i, BoardPageSize);
      startAts := startAts + [startAt];
      match pages[i]
      case Err(e) =>
        FirstStopAt(pages, i);
        return Err(e), startAts;
      case Ok(page) =>
        ValuesStep(pages, i);
        boards := boards + page.values;
        if page.isLast {
          FirstStopAt(pages, i);
        }
        isLast := page.isLast;
        startAt := startAt + BoardPageSize;
        i := i + 1;
    }
    r := Ok(boards);
  }

  /** `boards.find(b => b.id === board.id)` before each push of one page. */
  method AddPage(boards: seq<Board>, values: seq<Board>) returns (r: seq<Board>)
    ensures r == AddNew(boards, values)
  {
    r := boards;
    for m := 0 to |values|
      invariant r == AddNew(boards, values[..m])
    {
      var b := values[m];
      assert values[..m + 1][..m] == values[..m];
      if !HasId(r, b.id) {
        r := r + [b];
      }
    }
    assert values[..|values|] == values;
  }

  /** One project key's loop: its pages until `isLast`, an error ending the loop quietly. */
  method FetchProject(boards: seq<Board>, pages: seq<Answer<Board>>) returns (r: seq<Board>)
    requires EndsByLast(pages)
    ensures r == AddNew(boards, Fetched(pages))
  {
    r := boards;
    ghost var k := FirstStopByLast(pages);
    var isLast := false;
    var i := 0;
    while !isLast
      invariant 0 <= i <= k + 1
      invariant isLast <==> i == k + 1
      invariant i <= k ==> forall j | 0 <= j < i :: !StopsByLast(pages[j])
      invariant r == AddNew(boards, Values(pages[..i]))
      decreases k + 1 - i
    {
      ValuesStep(pages, i);
      if pages[i].Err? {
        FirstStopAt(pages, i);
        assert Values(pages[..i]) + [] == Values(pages[..i]);
        isLast := true;
      } else {
        var page := pages[i].value;
        r := AddPage(r, page.values);
        AddNewConcat(boards, Values(pages[..i]), page.values);
        if page.isLast {
          FirstStopAt(pages, i);
        }
        isLast := page.isLast;
      }
      i := i + 1;
    }
  }

  /**
   * Filtered `getAllBoards`: the pages of each project key in turn, adding
   * only boards whose id is new; an error on one key ends that key's loop,
   * keeps what was collected and goes on with the next key.
   */
  method GetAllBoardsFiltered(src: BoardSource, keys: seq<string>) returns (boards: seq<Board>)
    requires forall k | k in keys :: EndsByLast(src.byProject(k))
    ensures boards == AddNew([], FetchedAll(src, keys))
  {
    boards := [];
    for n := 0 to |keys|
      invariant boards == AddNew([], FetchedAll(src, keys[..n]))
    {
      assert keys[..n + 1][..n] == keys[..n];
      boards := FetchProject(boards, src.byProject(keys[n]));
      AddNewConcat([], FetchedAll(src, keys[..n]), Fetched(src.byProject(keys[n])));
    }
    assert keys[..|keys|] == keys;
  }

  /** Adding two lists one after the other is adding their concatenation. */
  lemma {:induction false} AddNewConcat(boards: seq<Board>, xs: seq<Board>, ys: seq<Board>)
    ensures AddNew(AddNew(boards, xs), ys) == AddNew(boards, xs + ys)
    decreases |ys|
  {
    if ys == [] {
      assert xs + ys == xs;
    } else {
      var zs := xs + ys;
      assert zs[..|zs| - 1] == xs + ys[..|ys| - 1];
      assert zs[|zs| - 1] == ys[|ys| - 1];
      AddNewConcat(boards, xs, ys[..|ys| - 1]);
    }
  }

  /** Adding keeps the boards already there, in front. */
  lemma {:induction false} AddNewPrefix(boards: seq<Board>, bs: seq<Board>)
    ensures |boards| <= |AddNew(boards, bs)| && AddNew(boards, bs)[..|boards|] == boards
    decreases |bs|
  {
    if bs != [] {
      AddNewPrefix(boards, bs[..|bs| - 1]);
    }
  }

  /** A board is in the result only if it was there or was added. */
  lemma {:induction false} AddNewFrom(boards: seq<Board>, bs: seq<Board>, b: Board)
    requires b in AddNew(boards, bs)
    ensures b in boards || b in bs
    decreases |bs|
  {
    if bs != [] {
      var init := bs[..|bs| - 1];
      if b in AddNew(boards, init) {
        AddNewFrom(boards, init, b);
        if b in init {
          assert b in bs;
        }
      }
    }
  }

  /** The result knows exactly the ids of both inputs. */
  lemma {:induction false} AddNewIds(boards: seq<Board>, bs: seq<Board>, id: int)
    ensures HasId(AddNew(boards, bs), id) <==> HasId(boards, id) || HasId(bs, id)
    decreases |bs|
  {
    if bs != [] {
      var init := bs[..|bs| - 1];
      var last := bs[|bs| - 1];
      AddNewIds(boards, init, id);
      var acc := AddNew(boards, init);
      if HasId(init, id) {
        var j :| 0 <= j < |init| && init[j].id == id;
        assert bs[j].id == id;
      }
      if HasId(bs, id) && !HasId(init, id) {
        var j :| 0 <= j < |bs| && bs[j].id == id;
        assert j == |init|;
      }
      if !HasId(acc, last.id) {
        assert (acc + [last])[..|acc|] == acc;
        if HasId(acc + [last], id) {
          var j :| 0 <= j < |acc| + 1 && (acc + [last])[j].id == id;
          if j < |acc| {
            assert acc[j].id == id;
          }
        }
        if HasId(acc, id) {
          var j :| 0 <= j < |acc| && acc[j].id == id;
          assert (acc + [last])[j].id == id;
        }
        if last.id == id {
          assert (acc + [last])[|acc|].id == id;
        }
      }
    }
  }

  /** Adding never repeats an id. */
  lemma {:induction false} AddNewDistinct(boards: seq<Board>, bs: seq<Board>)
    requires DistinctIds(boards)
    ensures DistinctIds(AddNew(boards, bs))
    decreases |bs|
  {
    if bs != [] {
      AddNewDistinct(boards, bs[..|bs| - 1]);
    }
  }

  /**
   * The filtered board list has no two boards with the same id, knows every
   * id fetched for any key, and holds only fetched boards.
   */
  lemma FilteredBoardsProperties(src: BoardSource, keys: seq<string>, id: int, b: Board)
    requires forall k | k in keys :: EndsByLast(src.byProject(k))
    ensures DistinctIds(AddNew([], FetchedAll(src, keys)))
    ensures HasId(AddNew([], FetchedAll(src, keys)), id) <==> HasId(FetchedAll(src, keys), id)
    ensures b in AddNew([], FetchedAll(src, keys)) ==> b in FetchedAll(src, keys)
  {
    AddNewDistinct([], FetchedAll(src, keys));
    AddNewIds([], FetchedAll(src, keys), id);
    if b in AddNew([], FetchedAll(src, keys)) {
      AddNewFrom([], FetchedAll(src, keys), b);
    }
  }

  /**
   * `getAllBoards`: by project key when a non-empty key list is given,
   * otherwise the unfiltered listing.
   */
  method GetAllBoards(projectKeys: Option<seq<string>>, src: BoardSource) returns (r: Result<seq<Board>, HttpError>)
    requires projectKeys.Some? && projectKeys.value != [] ==>
      forall k | k in projectKeys.value :: EndsByLast(src.byProject(k))
    requires projectKeys.None? || projectKeys.value == [] ==> EndsByLast(src.all)
    ensures projectKeys.Some? && projectKeys.value != [] ==>
      r == Ok(AddNew([], FetchedAll(src, projectKeys.value)))
    ensures projectKeys.None? || projectKeys.value == [] ==>
      r == Outcome(src.all, FirstStopByLast(src.all))
  {
    if projectKeys.Some? && |projectKeys.value| > 0 {
      var boards := GetAllBoardsFiltered(src, projectKeys.value);
      r := Ok(boards);
    } else {
      var startAts;
      r, startAts := GetAllBoardsUnfiltered(src.all);
    }
  }

  // ---------------------------------------------------------------------
  // Listings bounded by `total`

  /**
   * The do-while loop of `getAllSprints`, `getSprintIssues` and
   * `getBoardHistory`: request at `startAt`, append the page, advance by the
   * page size, and go on while `startAt < total`; an error is rethrown.
   */
  method CollectByTotal<T>(pages: seq<Answer<T>>, pageSize: nat) returns (r: Result<seq<T>, HttpError>, startAts: seq<int>)
    requires EndsByTotal(pages, pageSize)
    ensures var k := FirstStopByTotal(pages, pageSize);
      startAts == Offsets(k + 1, pageSize) && r == Outcome(pages, k)
  {
    var items: seq<T> := [];
    var startAt := 0;
    var total := 0;
    var more := true;
    var i := 0;
    startAts := [];
    ghost var k := FirstStopByTotal(pages, pageSize);
    while more
      invariant 0 <= i <= k + 1
      invariant more <==> i <= k
      invariant more ==> forall j | 0 <= j < i :: !StopsByTotal(pages, j, pageSize)
      invariant startAt == i * pageSize && startAts == Offsets(i, pageSize)
      invariant items == Values(pages[..i])
      invariant !more ==> pages[k].Ok?
      decreases k + 1 - i
    {
      OffsetsStep(i, pageSize);
      startAts := startAts + [startAt];
      if pages[i].Err? {
        FirstStopByTotalAt(pages, pageSize, i);
        return Err(pages[i].error), startAts;
      }
      var page := pages[i].value;
      ValuesStep(pages, i);
      items := items + page.values;
      total := page.total;
      startAt := startAt + pageSize;
      more := startAt < total;
      if !more {
        FirstStopByTotalAt(pages, pageSize, i);
      }
      i := i + 1;
    }
    r := Ok(items);
  }

  /** A 400 answer: the board does not support sprints (a Kanban board). */
  predicate IsBadRequest(e: HttpError) {
    e.isAxios && e.status == Some(400)
  }

  /** The result of `getAllSprints` for the given page answers. */
  function SprintsOutcome(pages: seq<Answer<Sprint>>, maxResults: nat): (r: Result<seq<Sprint>, HttpError>)
    requires EndsByTotal(pages, maxResults)
    ensures var o := Outcome(pages, FirstStopByTotal(pages, maxResults));
      (o.Ok? ==> r == o) &&
      (o.Err? ==> (if IsBadRequest(o.error) then r == Ok([]) else r == o))
  {
    var o := Outcome(pages, FirstStopByTotal(pages, maxResults));
    if o.Err? && IsBadRequest(o.error) then Ok([]) else o
  }

  /**
   * `getAllSprints`: every sprint of the board, page by page; a 400 on any
   * page means "no sprints" and drops what was collected; other errors are
   * rethrown. `maxResults` defaults to 50.
   */
  method GetAllSprints(pages: seq<Answer<Sprint>>, maxResults: Option<nat>) returns (r: Result<seq<Sprint>, HttpError>, startAts: seq<int>)
    requires EndsByTotal(pages, maxResults.GetOr(DefaultSprintPageSize))
    ensures r == SprintsOutcome(pages, maxResults.GetOr(DefaultSprintPageSize))
    ensures startAts == Offsets(FirstStopByTotal(pages, maxResults.GetOr(DefaultSprintPageSize)) + 1,
                                maxResults.GetOr(DefaultSprintPageSize))
  {
    var size := maxResults.GetOr(DefaultSprintPageSize);
    r, startAts := CollectByTotal(pages, size);
    if r.Err? && IsBadRequest(r.error) {
      r := Ok([]);
    }
  }

  // ---------------------------------------------------------------------
  // Single-request calls

  /** `getActiveSprint`: the first sprint listed, `null` when none; errors rethrown. */
  function ActiveSprint(answer: Result<seq<Sprint>, HttpError>): (r: Result<Option<Sprint>, HttpError>)
    ensures answer.Err? <==> r.Err?
    ensures answer.Err? ==> r.error == answer.error
    ensures answer.Ok? && answer.value != [] ==> r == Ok(Some(answer.value[0]))
    ensures answer.Ok? && answer.value == [] ==> r == Ok(None)
  {
    match answer
    case Err(e) => Err(e)
    case Ok(values) => if |values| > 0 then Ok(Some(values[0])) else Ok(None)
  }

  /**
   * `getClosedSprints`: one request for closed sprints with `maxResults`
   * set to the limit (5 when none is given); the listed values are returned.
   */
  function ClosedSprints(limit: Option<int>, answer: Answer<Sprint>): (r: (int, Result<seq<Sprint>, HttpError>))
    ensures limit.None? ==> r.0 == DefaultClosedSprintLimit
    ensures limit.Some? ==> r.0 == limit.value
    ensures answer.Ok? ==> r.1 == Ok(answer.value.values)
    ensures answer.Err? ==> r.1 == Err(answer.error)
  {
    (limit.GetOr(DefaultClosedSprintLimit),
     match answer
     case Ok(p) => Ok(p.values)
     case Err(e) => Err(e))
  }

  /**
   * What `handleError` logs as the message of an Axios error: the first
   * Jira error message when it is a non-empty string, else the error's own
   * message. Other errors are logged whole (`None`).
   */
  function LoggedMessage(e: HttpError): (m: Option<string>)
    ensures m.Some? <==> e.isAxios
    ensures e.isAxios && |e.errorMessages| > 0 && e.errorMessages[0] != [] ==> m == Some(e.errorMessages[0])
    ensures e.isAxios && (|e.errorMessages| == 0 || e.errorMessages[0] == []) ==> m == Some(e.message)
  {
    if !e.isAxios then None
    else if |e.errorMessages| > 0 && e.errorMessages[0] != [] then Some(e.errorMessages[0])
    else Some(e.message)
  }

  // ---------------------------------------------------------------------
  // Retries on rate limiting

  /** The interceptor retries this failure: a 429 with a request config. */
  predicate Retryable<T>(a: Result<T, HttpError>) {
    a.Err? && a.error.status == Some(429) && a.error.hasConfig
  }

  /** How many retries the interceptor makes, counting from `count`. */
  function Retries<T>(attempt: nat -> Result<T, HttpError>, count: nat := 0): (n: nat)
    requires count <= MaxRetries
    ensures count <= n <= MaxRetries
    ensures forall j | count <= j < n :: Retryable(attempt(j))
    ensures n < MaxRetries ==> !Retryable(attempt(n))
    decreases MaxRetries - count
  {
    if count < MaxRetries && Retryable(attempt(count)) then Retries(attempt, count + 1) else count
  }

  function Pow2(n: nat): (r: nat)
    ensures r >= 1
  {
    if n == 0 then 1 else 2 * Pow2(n - 1)
  }

  /**
   * A request through the retry interceptor: `attempt(j)` is the answer to
   * the j-th try. A 429 is retried at most three times, after 1, 2 and 4
   * seconds; any other outcome is final.
   */
  method Send<T>(attempt: nat -> Result<T, HttpError>) returns (r: Result<T, HttpError>, delays: seq<int>)
    ensures |delays| == Retries(attempt)
    ensures delays == [1000, 2000, 4000][..|delays|]
    ensures r == attempt(|delays|)
  {
    var retryCount := 0;
    delays := [];
    r := attempt(0);
    while Retryable(r) && retryCount < MaxRetries
      invariant 0 <= retryCount <= MaxRetries
      invariant |delays| == retryCount && r == attempt(retryCount)
      invariant forall j | 0 <= j < retryCount :: Retryable(attempt(j))
      invariant delays == [1000, 2000, 4000][..retryCount]
      decreases MaxRetries - retryCount
    {
      var delay := Pow2(retryCount) * 1000;
      delays := delays + [delay];
      retryCount := retryCount + 1;
      r := attempt(retryCount);
    }
  }
}
