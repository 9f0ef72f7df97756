/**
 * The serverless function's paginated fetches. Each is a `while (true)`
 * loop that asks for the page at `startAt`, appends its values and breaks
 * on its own condition. The answers of the server are given as a sequence,
 * one per request; past its end the server answers an empty last page
 * (`total` 0, `isLast` set), which stops every loop.
 */
module LegacyPaging {
  import opened Wrappers
  import opened Strings
  import opened JiraClient

  /** A non-2xx answer: `jiraFetch` throws `Jira API <status>: <body>`. */
  datatype FetchError = FetchError(status: int, body: string)

  function FetchMessage(e: FetchError): string {
    "Jira API " + IntToString(e.status) + ": " + e.body
  }

  /** A page, or the error `jiraFetch` threw for it. A missing `total` is 0. */
  type LegacyAnswer<T> = Result<Page<T>, FetchError>

  /** The four listings and their break rules. */
  datatype Listing =
    | AllBoards    // stops on `isLast` or once as many boards as `total` are in
    | SprintIssues // stops once `startAt + 100 >= total`
    | BoardHistory // also stops past 500 issues; an error ends it with what it has
    | KanbanIssues // stops at `startAt + 50 >= total` or from 100 issues; an error ends it

  function PageSize(l: Listing): nat {
    match l
    case AllBoards => 50
    case SprintIssues => 100
    case BoardHistory => 100
    case KanbanIssues => 50
  }

  /** The loop catches a failed request and returns what it gathered; the others let it throw. */
  predicate KeepsPartial(l: Listing) {
    l == BoardHistory || l == KanbanIssues
  }

  /** The break condition after appending `page`, holding `count` values in all. */
  predicate BreaksAfter<T>(l: Listing, startAt: int, count: nat, page: Page<T>) {
    match l
    case AllBoards => page.isLast || count >= page.total
    case SprintIssues => startAt + 100 >= page.total
    case BoardHistory => startAt + 100 >= page.total || count > 500
    case KanbanIssues => startAt + 50 >= page.total || count >= 50 * 2
  }

  /** The server's answer to request `j`. */
  function AnswerAt<T>(pages: seq<LegacyAnswer<T>>, j: nat): LegacyAnswer<T> {
    if j < |pages| then pages[j] else Ok(Page([], 0, true))
  }

  /** The values of the answered pages, in request order; a failed request adds nothing. */
  function Gathered<T>(pages: seq<LegacyAnswer<T>>): seq<T>
    decreases |pages|
  {
    if pages == [] then []
    else
      Gathered(pages[..|pages| - 1]) +
        match pages[|pages| - 1]
        case Ok(p) => p.values
        case Err(_) => []
  }

  lemma GatheredStep<T>(pages: seq<LegacyAnswer<T>>, i: nat)
    requires i < |pages|
    ensures Gathered(pages[..i + 1]) ==
      Gathered(pages[..i]) + match pages[i] case Ok(p) => p.values case Err(_) => []
  {
    assert pages[..i + 1][..i] == pages[..i];
  }

  /** The loop leaves after request `j`. */
  predicate StopsAt<T>(l: Listing, pages: seq<LegacyAnswer<T>>, j: nat)
    requires j <= |pages|
  {
    j == |pages| || pages[j].Err? ||
    BreaksAfter(l, j * PageSize(l), |Gathered(pages[..j + 1])|, pages[j].value)
  }

  /** The request after which the loop leaves. */
  function StopIndex<T>(l: Listing, pages: seq<LegacyAnswer<T>>, from: nat): (k: nat)
    requires from <= |pages|
    ensures from <= k <= |pages| && StopsAt(l, pages, k)
    ensures forall j | from <= j < k :: !StopsAt(l, pages, j)
    decreases |pages| - from
  {
    if StopsAt(l, pages, from) then from else StopIndex(l, pages, from + 1)
  }

  /** What the fetch returns, or the message it throws. */
  function Fetch<T>(l: Listing, pages: seq<LegacyAnswer<T>>): Result<seq<T>, string> {
    var k := StopIndex(l, pages, 0);
    if k == |pages| then Ok(Gathered(pages))
    else if pages[k].Ok? then Ok(Gathered(pages[..k + 1]))
    else if KeepsPartial(l) then Ok(Gathered(pages[..k]))
    else Err(FetchMessage(pages[k].error))
  }

  /** The loop, with the `startAt` of every request it makes. */
  method FetchPages<T>(l: Listing, pages: seq<LegacyAnswer<T>>) returns (r: Result<seq<T>, string>, startAts: seq<int>)
    ensures r == Fetch(l, pages)
    ensures startAts == Offsets(StopIndex(l, pages, 0) + 1, PageSize(l))
  {
    var items: seq<T> := [];
    var startAt := 0;
    var i := 0;
    startAts := [];
    ghost var k := StopIndex(l, pages, 0);
    while true
      invariant 0 <= i <= k
      invariant items == Gathered(pages[..i])
      invariant startAt == i * PageSize(l) && startAts == Offsets(i, PageSize(l))
      decreases k - i
    {
      OffsetsStep(i, PageSize(l));
      startAts := startAts + [startAt];
      var answer := AnswerAt(pages, i);
      if answer.Err? {
        assert StopsAt(l, pages, i);
        StopIsFirst(l, pages, i);
        FetchAtError(l, pages, i);
        if KeepsPartial(l) {
          return Ok(items), startAts;
        }
        return Err(FetchMessage(answer.error)), startAts;
      }
      items := items + answer.value.values;
      if i < |pages| {
        GatheredStep(pages, i);
        assert items == Gathered(pages[..i + 1]);
      } else {
        assert pages[..i] == pages && items == Gathered(pages);
      }
      if BreaksAfter(l, startAt, |items|, answer.value) {
        assert StopsAt(l, pages, i);
        StopIsFirst(l, pages, i);
        FetchAtBreak(l, pages, i);
        return Ok(items), startAts;
      }
      assert !StopsAt(l, pages, i);
      startAt := startAt + PageSize(l);
      i := i + 1;
    }
  }

  /** A request the loop leaves after, at or before the stop, is the stop. */
  lemma StopIsFirst<T>(l: Listing, pages: seq<LegacyAnswer<T>>, i: nat)
    requires i <= StopIndex(l, pages, 0)
    requires i < |pages| ==> StopsAt(l, pages, i)
    ensures i == StopIndex(l, pages, 0)
  {
  }

  lemma FetchAtError<T>(l: Listing, pages: seq<LegacyAnswer<T>>, i: nat)
    requires i == StopIndex(l, pages, 0) && AnswerAt(pages, i).Err?
    ensures i < |pages|
    ensures KeepsPartial(l) ==> Fetch(l, pages) == Ok(Gathered(pages[..i]))
    ensures !KeepsPartial(l) ==> Fetch(l, pages) == Err(FetchMessage(pages[i].error))
  {
  }

  lemma FetchAtBreak<T>(l: Listing, pages: seq<LegacyAnswer<T>>, i: nat)
    requires i == StopIndex(l, pages, 0) && AnswerAt(pages, i).Ok?
    ensures i < |pages| ==> Fetch(l, pages) == Ok(Gathered(pages[..i + 1]))
    ensures i == |pages| ==> Fetch(l, pages) == Ok(Gathered(pages))
  {
  }

  // ---------------------------------------------------------------------
  // Properties

  /** The request count that reaches `total` issues a hundred at a time. */
  function LastIssuePage(total: int): nat {
    if total <= 100 then 0 else (total - 1) / 100
  }

  /**
   * With every answer reporting the same `total`, the sprint issues are
   * asked for in ceil(total / 100) requests (one when `total` is at most 100).
   */
  lemma {:induction false} SprintIssueRequests<T>(pages: seq<LegacyAnswer<T>>, total: int)
    requires forall j | 0 <= j < |pages| :: pages[j].Ok? && pages[j].value.total == total
    requires LastIssuePage(total) < |pages|
    ensures StopIndex(SprintIssues, pages, 0) == LastIssuePage(total)
  {
    var q := LastIssuePage(total);
    if total > 100 {
      assert q * 100 <= total - 1 < q * 100 + 100;
    }
    assert StopsAt(SprintIssues, pages, q);
    forall j | 0 <= j < q ensures !StopsAt(SprintIssues, pages, j) {
      assert j * 100 + 100 <= q * 100;
    }
  }

  /** The listings that catch errors never throw. */
  lemma PartialListingsNeverThrow<T>(l: Listing, pages: seq<LegacyAnswer<T>>)
    requires KeepsPartial(l)
    ensures Fetch(l, pages).Ok?
  {
  }

  /**
   * A failed request ends a catching listing with the values of the
   * requests before it; the other listings throw the request's error.
   */
  lemma FailedRequest<T>(l: Listing, pages: seq<LegacyAnswer<T>>, e: nat)
    requires e < |pages| && pages[e].Err?
    requires forall j | 0 <= j < e :: !StopsAt(l, pages, j)
    ensures KeepsPartial(l) ==> Fetch(l, pages) == Ok(Gathered(pages[..e]))
    ensures !KeepsPartial(l) ==> Fetch(l, pages) == Err(FetchMessage(pages[e].error))
  {
    assert StopsAt(l, pages, e);
  }

  /** Across a prefix of the requests the gathered values only grow. */
  lemma {:induction false} GatheredPrefix<T>(pages: seq<LegacyAnswer<T>>, a: nat, b: nat)
    requires a <= b <= |pages|
    ensures Gathered(pages[..a]) <= Gathered(pages[..b])
    decreases b - a
  {
    if a < b {
      GatheredPrefix(pages, a, b - 1);
      GatheredStep(pages, b - 1);
    }
  }

  /** A fetch returns the values of the requests up to some point, in order. */
  lemma FetchIsPrefix<T>(l: Listing, pages: seq<LegacyAnswer<T>>)
    requires Fetch(l, pages).Ok?
    ensures Fetch(l, pages).value <= Gathered(pages)
  {
    var k := StopIndex(l, pages, 0);
    assert pages[..|pages|] == pages;
    if k < |pages| {
      GatheredPrefix(pages, k, |pages|);
      GatheredPrefix(pages, k + 1, |pages|);
    }
  }

  /**
   * The board history stops on the first page that takes it past 500
   * issues: it never holds more than it had after that page.
   */
  lemma HistoryCap<T>(pages: seq<LegacyAnswer<T>>, j: nat)
    requires j < |pages| && forall i | 0 <= i <= j :: pages[i].Ok?
    requires |Gathered(pages[..j + 1])| > 500
    ensures |Fetch(BoardHistory, pages).value| <= |Gathered(pages[..j + 1])|
  {
    var k := StopIndex(BoardHistory, pages, 0);
    assert StopsAt(BoardHistory, pages, j);
    GatheredPrefix(pages, k + 1, j + 1);
    GatheredPrefix(pages, k, j + 1);
  }

  /** Full pages of `size` values: after `n` requests there are `n * size` values. */
  lemma {:induction false} GatheredFull<T>(pages: seq<LegacyAnswer<T>>, size: nat, n: nat)
    requires n <= |pages| && forall j | 0 <= j < |pages| :: pages[j].Ok? && |pages[j].value.values| == size
    ensures |Gathered(pages[..n])| == n * size
  {
    if n > 0 {
      GatheredFull(pages, size, n - 1);
      GatheredStep(pages, n - 1);
      assert (n - 1) * size + size == n * size;
    }
  }

  /**
   * On a large backlog answered in full pages, the board-issue fallback
   * stops at exactly 100 issues (two pages of 50) while the history goes on
   * to 600 (six pages of 100): one limit is inclusive, the other strict.
   */
  lemma FallbackAndHistoryLimits<T>(pages: seq<LegacyAnswer<T>>, size: nat)
    requires |pages| >= 6 && (size == 50 || size == 100)
    requires forall j | 0 <= j < |pages| ::
      (pages[j].Ok? && |pages[j].value.values| == size && pages[j].value.total >= 10000)
    ensures size == 50 ==> |Fetch(KanbanIssues, pages).value| == 100
    ensures size == 100 ==> |Fetch(BoardHistory, pages).value| == 600
  {
    if size == 50 {
      GatheredFull(pages, 50, 1);
      GatheredFull(pages, 50, 2);
      assert !StopsAt(KanbanIssues, pages, 0);
      assert StopsAt(KanbanIssues, pages, 1);
      var k := StopIndex(KanbanIssues, pages, 0);
      assert k == 1;
    } else {
      forall j | 0 <= j < 5 ensures !StopsAt(BoardHistory, pages, j) {
        GatheredFull(pages, 100, j + 1);
      }
      GatheredFull(pages, 100, 6);
      assert StopsAt(BoardHistory, pages, 5);
      assert StopIndex(BoardHistory, pages, 0) == 5;
    }
  }
}
