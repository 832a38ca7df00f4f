/** `RetrieveMultiple`: paged bulk retrieval.

    After the query guard and the lock guard, the query's `PageInfo` is set to
    page 1, count 5000, no cookie, and the transport is asked page after page:
    every page's records are passed on in order; the loop stops right after
    the first response whose `MoreRecords` is false; otherwise the page number
    goes up by one and the response's paging cookie is carried into the next
    request. A transport failure aborts the whole call (the result is built
    with `ToArray`, so nothing is returned).

    The paging position lives in the caller's own `QueryExpression`: once the
    guards pass, whatever `PageInfo` the caller had set is overwritten, and
    after the call the object still holds the position of the last request.

    The service's answers are a finite sequence `pages`, one per round trip;
    it must end, with a failure or a last page. */
module Paging {
  import opened Types
  import opened ConnectionState

  /** Records per round trip (`PagingInfo.Count`). */
  const PageSize: int := 5000

  /** One response of the service (`EntityCollection`). */
  datatype Page = Page(entities: seq<Entity>, moreRecords: bool, pagingCookie: Option<string>)

  /** A round trip after which the loop does not ask again. */
  predicate Stops(reply: Reply<Page>) {
    reply.Fault? || !reply.value.moreRecords
  }

  /** The service eventually fails or says there are no more records. */
  predicate Ends(pages: seq<Reply<Page>>) {
    exists k :: 0 <= k < |pages| && Stops(pages[k])
  }

  /** Index of the round trip that ends the loop. */
  function LastRoundTrip(pages: seq<Reply<Page>>): (k: nat)
    requires Ends(pages)
    ensures k < |pages| && Stops(pages[k])
    ensures forall j :: 0 <= j < k ==> !Stops(pages[j])
    decreases |pages|
  {
    if Stops(pages[0]) then 0
    else
      assert Ends(pages[1..]) by {
        var k :| 0 <= k < |pages| && Stops(pages[k]);
        assert k > 0 && Stops(pages[1..][k - 1]);
      }
      1 + LastRoundTrip(pages[1..])
  }

  /** The records of the answered pages, in page order. */
  function Flatten(pages: seq<Reply<Page>>): seq<Entity>
    decreases |pages|
  {
    if |pages| == 0 then []
    else
      var last := pages[|pages| - 1];
      Flatten(pages[..|pages| - 1]) + (if last.Answer? then last.value.entities else [])
  }

  /** The paging position of the `j`-th request (0-based): page `j + 1`, and
      from the second request on, the cookie of the response before it. */
  function RequestPage(pages: seq<Reply<Page>>, j: nat): PagingInfo
    requires j < |pages|
  {
    var cookie := if j == 0 || pages[j - 1].Fault? then None else pages[j - 1].value.pagingCookie;
    PagingInfo(PageSize, j + 1, cookie)
  }

  /** The transport entries of the first `n` round trips. */
  function RoundTrips(c: Connection, t: ThreadId, query: QueryExpression, pages: seq<Reply<Page>>, n: nat): seq<Call>
    requires n <= |pages|
  {
    seq(n, j requires 0 <= j < n => Call(t, RetrieveMultipleCall(query, RequestPage(pages, j)), c.callerId,
                                         c.bypassPluginExecution))
  }

  /** `RetrieveMultiple`, stated as a whole: guards, then as many round trips
      as it takes to reach the ending response. The call context is not
      applied, and nothing but the log changes. */
  function RetrieveMultiple(c: Connection, t: ThreadId, query: Option<QueryExpression>,
                            pages: seq<Reply<Page>>): (s: Step<seq<Entity>>)
    requires Ends(pages)
    ensures query.None? ==> s == Step(Err(InvalidArgument("queryExpression")), c)
    ensures query.Some? && !LockGuardPasses(c, t) ==> s == Step(Err(LockNotHeld), c)
    ensures s.after.(log := c.log) == c && c.log <= s.after.log
    ensures query.Some? && LockGuardPasses(c, t) ==>
      && |s.after.log| == |c.log| + LastRoundTrip(pages) + 1
      && (s.result.Ok? <==> pages[LastRoundTrip(pages)].Answer?)
      && (s.result.Err? ==> s.result.error == RemoteFailure(pages[LastRoundTrip(pages)].message))
  {
    if query.None? then Step(Err(InvalidArgument("queryExpression")), c)
    else if !LockGuardPasses(c, t) then Step(Err(LockNotHeld), c)
    else
      var k := LastRoundTrip(pages);
      var c' := c.(log := c.log + RoundTrips(c, t, query.value, pages, k + 1));
      match pages[k]
      case Fault(m) => Step(Err(RemoteFailure(m)), c')
      case Answer(_) => Step(Ok(Flatten(pages[..k + 1])), c')
  }

  /** The `PageInfo` the caller's `QueryExpression` holds after the call:
      `None` when a guard failed and the caller's own value was left alone;
      otherwise the position of the last request sent, whether the call then
      succeeded or failed. */
  function PageInfoLeft(c: Connection, t: ThreadId, query: Option<QueryExpression>,
                        pages: seq<Reply<Page>>): (p: Option<PagingInfo>)
    requires Ends(pages)
    ensures p.None? <==> query.None? || !LockGuardPasses(c, t)
    ensures p.Some? ==>
      var k := LastRoundTrip(pages);
      && p.value.count == PageSize
      && p.value.pageNumber == k + 1
      && p.value.pagingCookie == (if k == 0 then None else pages[k - 1].value.pagingCookie)
    ensures p.Some? ==>
      var log := RetrieveMultiple(c, t, query, pages).after.log;
      log[|log| - 1].request == RetrieveMultipleCall(query.value, p.value)
  {
    if query.None? || !LockGuardPasses(c, t) then None
    else
      var k := LastRoundTrip(pages);
      assert k > 0 ==> !Stops(pages[k - 1]);
      Some(RequestPage(pages, k))
  }

  /** The requests `RetrieveMultiple` sends: one per response consumed, the
      last one answered by the ending response; all by the calling thread, for
      the same query, 5000 records each; the first for page 1 with no cookie,
      and every later one for the next page with the cookie of the response
      before it. */
  lemma PagingProtocol(c: Connection, t: ThreadId, q: QueryExpression, pages: seq<Reply<Page>>)
    requires Ends(pages) && LockGuardPasses(c, t)
    ensures
      var sent := RetrieveMultiple(c, t, Some(q), pages).after.log[|c.log|..];
      var k := LastRoundTrip(pages);
      && |sent| == k + 1
      && (forall j :: 0 <= j < |sent| ==>
            && sent[j].issuer == t
            && sent[j].request == RetrieveMultipleCall(q, sent[j].request.pageInfo)
            && sent[j].request.pageInfo.count == PageSize)
      && sent[0].request.pageInfo.pageNumber == 1
      && sent[0].request.pageInfo.pagingCookie.None?
      && (forall j :: 0 < j < |sent| ==>
            && sent[j].request.pageInfo.pageNumber == sent[j - 1].request.pageInfo.pageNumber + 1
            && sent[j].request.pageInfo.pagingCookie == pages[j - 1].value.pagingCookie)
      && sent[k].request.pageInfo.pageNumber == k + 1
  {
    var k := LastRoundTrip(pages);
    var sent := RetrieveMultiple(c, t, Some(q), pages).after.log[|c.log|..];
    assert sent == RoundTrips(c, t, q, pages, k + 1);
  }

  /** The number of records the answered pages carry, counted front to back. */
  function RecordCount(pages: seq<Reply<Page>>): nat
    decreases |pages|
  {
    if |pages| == 0 then 0
    else (if pages[0].Answer? then |pages[0].value.entities| else 0) + RecordCount(pages[1..])
  }

  /** Counting one more response at the end adds its records. */
  lemma {:induction false} RecordCountAppend(pages: seq<Reply<Page>>, last: Reply<Page>)
    ensures RecordCount(pages + [last]) == RecordCount(pages) + (if last.Answer? then |last.value.entities| else 0)
    decreases |pages|
  {
    if |pages| > 0 {
      assert (pages + [last])[1..] == pages[1..] + [last];
      RecordCountAppend(pages[1..], last);
    }
  }

  /** The collected records are exactly as many as the pages carry. */
  lemma {:induction false} FlattenLength(pages: seq<Reply<Page>>)
    ensures |Flatten(pages)| == RecordCount(pages)
    decreases |pages|
  {
    if |pages| > 0 {
      var n := |pages| - 1;
      FlattenLength(pages[..n]);
      assert pages == pages[..n] + [pages[n]];
      RecordCountAppend(pages[..n], pages[n]);
    }
  }

  /** The records gathered from the first `j` responses are a prefix of those
      gathered from the first `n >= j`. */
  lemma {:induction false} FlattenPrefix(pages: seq<Reply<Page>>, j: nat, n: nat)
    requires j <= n <= |pages|
    ensures Flatten(pages[..j]) <= Flatten(pages[..n])
    decreases n - j
  {
    if j < n {
      FlattenPrefix(pages, j, n - 1);
      assert pages[..n][..n - 1] == pages[..n - 1];
    }
  }

  /** The records of an answered page `j` sit in the records of the first
      `n > j` responses as one block, right after those of the pages before it. */
  lemma FlattenBlock(pages: seq<Reply<Page>>, j: nat, n: nat)
    requires j < n <= |pages| && pages[j].Answer?
    ensures
      var start := |Flatten(pages[..j])|;
      var block := pages[j].value.entities;
      && start + |block| <= |Flatten(pages[..n])|
      && Flatten(pages[..n])[start .. start + |block|] == block
  {
    var block := pages[j].value.entities;
    assert pages[..j + 1][..j] == pages[..j];
    assert Flatten(pages[..j + 1]) == Flatten(pages[..j]) + block;
    FlattenPrefix(pages, j + 1, n);
  }

  /** A successful retrieve returns the records of the pages up to the ending one. */
  lemma RetrievedRecords(c: Connection, t: ThreadId, q: QueryExpression, pages: seq<Reply<Page>>)
    requires Ends(pages) && LockGuardPasses(c, t) && pages[LastRoundTrip(pages)].Answer?
    ensures RetrieveMultiple(c, t, Some(q), pages).result == Ok(Flatten(pages[..LastRoundTrip(pages) + 1]))
  {
  }

  /** Nothing is dropped, duplicated or reordered: on success, the records
      of every consumed page sit in the result as one block, in page order,
      right after the records of the pages before it, and the result holds
      exactly as many records as the consumed pages carry. */
  lemma RetrievedInPageOrder(c: Connection, t: ThreadId, q: QueryExpression, pages: seq<Reply<Page>>, j: nat)
    requires Ends(pages) && LockGuardPasses(c, t)
    requires pages[LastRoundTrip(pages)].Answer? && j <= LastRoundTrip(pages)
    ensures pages[j].Answer?
    ensures
      var out := RetrieveMultiple(c, t, Some(q), pages).result.value;
      var start := |Flatten(pages[..j])|;
      && start + |pages[j].value.entities| <= |out|
      && out[start .. start + |pages[j].value.entities|] == pages[j].value.entities
      && |out| == RecordCount(pages[..LastRoundTrip(pages) + 1])
  {
    var k := LastRoundTrip(pages);
    RetrievedRecords(c, t, q, pages);
    FlattenLength(pages[..k + 1]);
    if j < k {
      assert !Stops(pages[j]);
    }
    FlattenBlock(pages, j, k + 1);
  }

  /** The `while (true)` loop of `InnerRetrieveMultiple`, one response per
      iteration, collecting records as the iterator yields them. */
  method RetrieveMultipleByPaging(c: Connection, t: ThreadId, query: Option<QueryExpression>,
                                  pages: seq<Reply<Page>>)
    returns (result: Result<seq<Entity>>, after: Connection, pageInfoLeft: Option<PagingInfo>)
    requires Ends(pages)
    ensures Step(result, after) == RetrieveMultiple(c, t, query, pages)
    ensures pageInfoLeft == PageInfoLeft(c, t, query, pages)
  {
    if query.None? {
      return Err(InvalidArgument("queryExpression")), c, None;
    }
    if !LockGuardPasses(c, t) {
      return Err(LockNotHeld), c, None;
    }
    var q := query.value;
    var k := LastRoundTrip(pages);
    var pageInfo := PagingInfo(PageSize, 1, None);
    var collected: seq<Entity> := [];
    var log := c.log;
    var i := 0;
    while true
      invariant 0 <= i <= k
      invariant pageInfo == RequestPage(pages, i)
      invariant collected == Flatten(pages[..i])
      invariant log == c.log + RoundTrips(c, t, q, pages, i)
      decreases k - i
    {
      log := log + [Call(t, RetrieveMultipleCall(q, pageInfo), c.callerId, c.bypassPluginExecution)];
      assert RoundTrips(c, t, q, pages, i + 1) == RoundTrips(c, t, q, pages, i)
        + [Call(t, RetrieveMultipleCall(q, pageInfo), c.callerId, c.bypassPluginExecution)];
      match pages[i]
      case Fault(m) =>
        assert i == k;
        return Err(RemoteFailure(m)), c.(log := log), Some(pageInfo);
      case Answer(page) =>
        assert pages[..i + 1][..i] == pages[..i];
        collected := collected + page.entities;
        if !page.moreRecords {
          assert i == k;
          return Ok(collected), c.(log := log), Some(pageInfo);
        }
        pageInfo := pageInfo.(pageNumber := pageInfo.pageNumber + 1, pagingCookie := page.pagingCookie);
        i := i + 1;
    }
  }

  /** Record number `i` of the worked example: all distinct. */
  function Numbered(i: nat): Entity {
    Entity(Some("account"), i + 1, map[])
  }

  /** The worked example of 12,000 records served 5,000 at a time: three round
      trips, pages 1 to 3, and all 12,000 records in the order served. */
  lemma TwelveThousandRecords(c: Connection, t: ThreadId, q: QueryExpression)
    requires LockGuardPasses(c, t)
    ensures
      var pages := [Answer(Page(seq(5000, i requires 0 <= i => Numbered(i)), true, Some("p1"))),
                    Answer(Page(seq(5000, i requires 0 <= i => Numbered(5000 + i)), true, Some("p2"))),
                    Answer(Page(seq(2000, i requires 0 <= i => Numbered(10000 + i)), false, None))];
      && Ends(pages)
      && var s := RetrieveMultiple(c, t, Some(q), pages);
      && s.result.Ok? && |s.result.value| == 12000
      && (forall i :: 0 <= i < 12000 ==> s.result.value[i] == Numbered(i))
      && |s.after.log| == |c.log| + 3
      && s.after.log[|c.log| + 2].request.pageInfo == PagingInfo(5000, 3, Some("p2"))
  {
    var e1 := seq(5000, i requires 0 <= i => Numbered(i));
    var e2 := seq(5000, i requires 0 <= i => Numbered(5000 + i));
    var e3 := seq(2000, i requires 0 <= i => Numbered(10000 + i));
    var pages := [Answer(Page(e1, true, Some("p1"))), Answer(Page(e2, true, Some("p2"))),
                  Answer(Page(e3, false, None))];
    assert Stops(pages[2]);
    assert LastRoundTrip(pages) == 2;
    assert pages[..3] == pages;
    assert pages[..2][..1] == pages[..1];
    assert pages[..3][..2] == pages[..2];
    assert Flatten(pages[..1]) == e1;
    assert Flatten(pages[..2]) == e1 + e2;
    var out := Flatten(pages);
    assert out == e1 + e2 + e3;
    forall i | 0 <= i < 12000
      ensures out[i] == Numbered(i)
    {
      if i < 5000 {
        assert out[i] == e1[i];
      } else if i < 10000 {
        assert out[i] == e2[i - 5000];
      } else {
        assert out[i] == e3[i - 10000];
      }
    }
  }
}
