/**
 * The earlier queue fetcher, `AJiO/NetworkManager.swift`. It pages through
 * the queue API like the later one but has no request-rate gate, takes the
 * province as a number and sends it as "0" followed by its decimal digits,
 * keeps the last decoded response, and never clears its total: on page 1 only
 * the records are dropped, and `cancelFetch` leaves the total alone.
 */
module LegacyFetcher {
  import opened Api

  /** The `province` query value: the character '0' and then Swift's `String(province)`. */
  function ProvinceQuery(province: int): (s: string)
    ensures |s| >= 2 && s[0] == '0'
    ensures province >= 0 ==> AllDigits(s)
  {
    "0" + IntToString(province)
  }

  /** After the leading '0', the province value reads back as the province number. */
  lemma ProvinceQueryRoundTrip(province: int)
    ensures ParseInt(ProvinceQuery(province)[1..]) == Some(province)
  {
    IntToStringRoundTrip(province);
    assert ProvinceQuery(province)[1..] == IntToString(province);
  }

  /** Provinces 0 to 9 become two characters; from 10 to 99 the value has three ("012" for 12). */
  lemma ProvinceQueryLength(province: int)
    requires 0 <= province <= 99
    ensures |ProvinceQuery(province)| == if province < 10 then 2 else 3
  {
    if province >= 10 {
      assert NatToDecimal(province) == NatToDecimal(province / 10) + [DigitChar(province % 10)];
    }
  }

  lemma ProvinceQueryExamples()
    ensures ProvinceQuery(6) == "06"
    ensures ProvinceQuery(12) == "012"
  {
    assert NatToDecimal(12) == NatToDecimal(1) + [DigitChar(2)];
  }

  // ---------------------------------------------------------------------------
  // The fetcher's state and one activation of fetchData

  /** The fields of the earlier `NetworkManager`. */
  datatype Legacy = Legacy(
    apiResponse: Option<Page>,
    dataArray: seq<Record>,
    isFetching: bool,
    shouldFetchMore: bool,
    currentPage: int,
    totalItems: Option<int>)

  const Initial := Legacy(None, [], false, true, 1, None)

  datatype Verdict = More | Finished | Error(error: FetchError)

  datatype Step = Step(verdict: Verdict, state: Legacy, sent: Query)

  /** The state a request is made from: a request for page 1 drops the records, but keeps the total. */
  function Restarted(f: Legacy): Legacy {
    if f.currentPage == 1 then f.(dataArray := []) else f
  }

  /**
   * One activation of `fetchData` that got past the re-entry guard, followed by
   * the task it spawns, up to the point where that task asks for the next page.
   */
  function Request(f: Legacy, province: int, benefit: string, x: Exchange): (st: Step)
    ensures !st.state.isFetching
    ensures st.sent == Query(f.currentPage, ProvinceQuery(province), benefit)
    ensures st.verdict.Error? <==> !Succeeded(x)
    ensures st.verdict == Error(BadRequest) <==> x.response.status != 200
    // a failed request appends nothing and changes neither the last response, the total nor the page
    ensures st.verdict.Error? ==>
              && st.state.dataArray == Restarted(f).dataArray
              && st.state.apiResponse == f.apiResponse
              && st.state.totalItems == f.totalItems
              && st.state.currentPage == f.currentPage
              && st.state.shouldFetchMore == f.shouldFetchMore
    // a decoded page becomes the last response and goes after the records already there
    ensures !st.verdict.Error? ==>
              && st.state.apiResponse == x.response.body
              && st.state.dataArray == Restarted(f).dataArray + Payload(x)
              && st.state.totalItems == (if f.totalItems.Some? then f.totalItems else Some(x.response.body.value.count))
    // a known total is never replaced
    ensures f.totalItems.Some? ==> st.state.totalItems == f.totalItems
    ensures st.verdict == More <==> !st.verdict.Error? && |st.state.dataArray| < st.state.totalItems.value
    ensures st.verdict == More ==> st.state.currentPage == f.currentPage + 1 && st.state.shouldFetchMore == f.shouldFetchMore
    ensures st.verdict == Finished ==> st.state.currentPage == 1 && !st.state.shouldFetchMore
  {
    var f1 := Restarted(f).(isFetching := false);
    var sent := Query(f.currentPage, ProvinceQuery(province), benefit);
    if x.response.status != 200 then Step(Error(BadRequest), f1, sent)
    else if x.response.body.None? then Step(Error(BadJSON), f1, sent)
    else
      var page := x.response.body.value;
      var total := if f1.totalItems.None? then page.count else f1.totalItems.value;
      var data := f1.dataArray + page.data;
      var f2 := f1.(totalItems := Some(total), apiResponse := Some(page), dataArray := data);
      if |data| < total then
        Step(More, f2.(currentPage := f1.currentPage + 1), sent)
      else
        Step(Finished, f2.(shouldFetchMore := false, currentPage := 1), sent)
  }

  // ---------------------------------------------------------------------------
  // The whole chain of pages

  datatype RunResult = RunResult(state: Legacy, outcome: Outcome, sent: seq<Query>)

  /** The chain of activations, one exchange per page, until a page ends it or the exchanges run out. */
  function Run(f: Legacy, province: int, benefit: string, xs: seq<Exchange>): (r: RunResult)
    // one request per exchange used, and at least one once there is an exchange
    ensures |r.sent| <= |xs| && (xs != [] ==> |r.sent| >= 1 && !r.state.isFetching)
    // a started run is never ignored, and it stops short of the exchanges only by completing or failing
    ensures r.outcome != Ignored
    ensures |r.sent| < |xs| ==> r.outcome.Completed? || r.outcome.Failed?
    ensures r.outcome == AwaitingPage ==> |r.sent| == |xs|
    decreases |xs|
  {
    if xs == [] then RunResult(f, AwaitingPage, [])
    else
      var st := Request(f, province, benefit, xs[0]);
      match st.verdict
      case More =>
        var rest := Run(st.state, province, benefit, xs[1..]);
        RunResult(rest.state, rest.outcome, [st.sent] + rest.sent)
      case Finished => RunResult(st.state, Completed, [st.sent])
      case Error(e) => RunResult(st.state, Failed(e), [st.sent])
  }

  /** A call of `fetchData`: ignored while a fetch is running, otherwise the chain of pages. */
  function Fetch(f: Legacy, province: int, benefit: string, xs: seq<Exchange>): (r: RunResult)
    ensures r.outcome == Ignored <==> f.isFetching
    ensures r.outcome == Ignored ==> r.state == f && r.sent == []
  {
    if f.isFetching then RunResult(f, Ignored, []) else Run(f, province, benefit, xs)
  }

  /** What `cancelFetch` leaves behind: the total and the last response stay. */
  function Cancelled(f: Legacy): (c: Legacy)
    ensures !c.isFetching && c.dataArray == [] && c.currentPage == 1
    ensures c.totalItems == f.totalItems && c.apiResponse == f.apiResponse && c.shouldFetchMore == f.shouldFetchMore
  {
    f.(isFetching := false, dataArray := [], currentPage := 1)
  }

  /** The number of pages of a run that arrived and decoded: all of them, except the last when the run failed. */
  function Delivered(r: RunResult): int {
    if r.outcome.Failed? then |r.sent| - 1 else |r.sent|
  }

  /**
   * Pages are requested one after another from the current page up, each
   * with the same province value and search term.
   */
  lemma {:induction false} RunRequestsConsecutivePages(f: Legacy, province: int, benefit: string, xs: seq<Exchange>)
    requires f.currentPage >= 1
    ensures var r := Run(f, province, benefit, xs);
      && (forall i :: 0 <= i < |r.sent| ==> r.sent[i] == Query(f.currentPage + i, ProvinceQuery(province), benefit))
      && (r.outcome == AwaitingPage && xs != [] ==> r.state.currentPage == f.currentPage + |xs|)
    decreases |xs|
  {
    if xs != [] {
      var st := Request(f, province, benefit, xs[0]);
      if st.verdict == More {
        RunRequestsConsecutivePages(st.state, province, benefit, xs[1..]);
      }
    }
  }

  /**
   * The records after a run are those it started from (none when it started
   * at page 1) followed by every delivered page in arrival order.
   */
  lemma {:induction false} RunAppendsPagesInOrder(f: Legacy, province: int, benefit: string, xs: seq<Exchange>)
    requires f.currentPage >= 1
    ensures var r := Run(f, province, benefit, xs);
      && (r.outcome.Failed? ==> |r.sent| >= 1)
      && 0 <= Delivered(r) <= |xs|
      && (forall i :: 0 <= i < Delivered(r) ==> Succeeded(xs[i]))
      && (r.outcome.Failed? ==> !Succeeded(xs[Delivered(r)]))
      && (xs != [] ==> r.state.dataArray == Restarted(f).dataArray + Concat(xs[..Delivered(r)]))
    decreases |xs|
  {
    if xs != [] {
      var st := Request(f, province, benefit, xs[0]);
      match st.verdict
      case More =>
        var xs' := xs[1..];
        var r' := Run(st.state, province, benefit, xs');
        RunAppendsPagesInOrder(st.state, province, benefit, xs');
        var n := Delivered(r');
        assert Restarted(st.state) == st.state;
        assert Delivered(Run(f, province, benefit, xs)) == n + 1;
        assert xs[..n + 1][1..] == xs'[..n];
        ConcatCons(xs[..n + 1]);
        if xs' == [] {
          assert xs[..1] == [xs[0]];
          assert Concat(xs[..1]) == Payload(xs[0]) by { assert xs[..1][..0] == []; }
        }
      case Finished =>
        assert xs[..1] == [xs[0]];
        assert Concat(xs[..1]) == Payload(xs[0]) by { assert xs[..1][..0] == []; }
      case Error(e) =>
        assert xs[..0] == [];
    }
  }

  /** After a run, `apiResponse` holds the last page that arrived and decoded, or what it held before if none did. */
  lemma {:induction false} RunKeepsLastPage(f: Legacy, province: int, benefit: string, xs: seq<Exchange>)
    requires f.currentPage >= 1
    ensures var r := Run(f, province, benefit, xs);
      && 0 <= Delivered(r) <= |xs|
      && r.state.apiResponse == (if Delivered(r) == 0 then f.apiResponse else xs[Delivered(r) - 1].response.body)
    decreases |xs|
  {
    if xs != [] {
      var st := Request(f, province, benefit, xs[0]);
      if st.verdict == More {
        RunKeepsLastPage(st.state, province, benefit, xs[1..]);
        RunRequestsConsecutivePages(st.state, province, benefit, xs[1..]);
      }
    }
  }

  /**
   * The total is set from the first page that decodes while none is known,
   * and from then on never changes: not in the same run, not in a later one,
   * not by `cancelFetch`.
   */
  lemma {:induction false} TotalIsNeverReset(f: Legacy, province: int, benefit: string, xs: seq<Exchange>)
    ensures f.totalItems.Some? ==> Fetch(f, province, benefit, xs).state.totalItems == f.totalItems
    ensures Cancelled(f).totalItems == f.totalItems
    ensures f.totalItems.None? && !f.isFetching && xs != [] && Succeeded(xs[0]) ==>
              Fetch(f, province, benefit, xs).state.totalItems == Some(xs[0].response.body.value.count)
    decreases |xs|
  {
    if xs != [] && !f.isFetching {
      var st := Request(f, province, benefit, xs[0]);
      if st.verdict == More {
        TotalIsNeverReset(st.state, province, benefit, xs[1..]);
      }
    }
  }

  /**
   * How a run ends: a completed run has reached the total it holds (which may
   * come from an earlier search) and is back at page 1; a run waiting for a
   * page is below it; a failed run stays on the page that failed.
   */
  lemma {:induction false} RunEndsAtTotal(f: Legacy, province: int, benefit: string, xs: seq<Exchange>)
    requires f.currentPage >= 1
    ensures var r := Run(f, province, benefit, xs);
      && (r.outcome == Completed ==>
            && r.state.totalItems.Some? && |r.state.dataArray| >= r.state.totalItems.value
            && r.state.currentPage == 1 && !r.state.shouldFetchMore)
      && (r.outcome == AwaitingPage && xs != [] ==>
            r.state.totalItems.Some? && |r.state.dataArray| < r.state.totalItems.value)
      && (r.outcome.Failed? ==> r.state.currentPage == f.currentPage + |r.sent| - 1)
    decreases |xs|
  {
    if xs != [] {
      var st := Request(f, province, benefit, xs[0]);
      if st.verdict == More {
        RunEndsAtTotal(st.state, province, benefit, xs[1..]);
        RunRequestsConsecutivePages(st.state, province, benefit, xs[1..]);
      }
    }
  }

  /**
   * The stale total at work: after a search that found 5 records, the user
   * types a new term (`cancelFetch`, then `fetchData`). The server reports 30
   * matches and sends 25, but the fetcher still holds 5 as the total, so it
   * stops after one page with 25 of the 30 records.
   */
  lemma StaleTotalStopsEarly(province: int, benefit: string, benefit2: string)
    ensures var first := Fetch(Initial, province, benefit, [PageOf(0, 5, 5)]);
      && first.outcome == Completed && first.state.totalItems == Some(5)
      && var second := Fetch(Cancelled(first.state), province, benefit2, [PageOf(0, 30, 25), PageOf(0, 30, 5)]);
      && second.outcome == Completed
      && |second.sent| == 1
      && |second.state.dataArray| == 25
      && second.state.totalItems == Some(5)
  {
    var first := Fetch(Initial, province, benefit, [PageOf(0, 5, 5)]);
    assert Restarted(Initial) == Initial;
    var st := Request(Initial, province, benefit, PageOf(0, 5, 5));
    assert |st.state.dataArray| == 5 && st.verdict == Finished;
    assert first.state == st.state;
    var c := Cancelled(first.state);
    var xs := [PageOf(0, 30, 25), PageOf(0, 30, 5)];
    var st2 := Request(c, province, benefit2, xs[0]);
    assert |st2.state.dataArray| == 25 && st2.state.totalItems == Some(5);
    assert st2.verdict == Finished;
  }

  // ---------------------------------------------------------------------------
  // The class, with the source's fields

  class NetworkManager {
    var apiResponse: Option<Page>
    var dataArray: seq<Record>
    var isFetching: bool
    var shouldFetchMore: bool
    var currentPage: int
    var totalItems: Option<int>

    /** The fields as a value. */
    function State(): Legacy
      reads this
    {
      Legacy(apiResponse, dataArray, isFetching, shouldFetchMore, currentPage, totalItems)
    }

    predicate Valid()
      reads this
    {
      currentPage >= 1
    }

    constructor ()
      ensures Valid() && State() == Initial
    {
      apiResponse := None;
      dataArray := [];
      isFetching := false;
      shouldFetchMore := true;
      currentPage := 1;
      totalItems := None;
    }

    /** One activation of `fetchData` past the guard, with the task body up to its recursive call. */
    method FetchPage(province: int, benefit: string, x: Exchange) returns (verdict: Verdict, sent: Query)
      requires Valid() && !isFetching
      modifies this
      ensures Valid() && !isFetching
      ensures Step(verdict, State(), sent) == Request(old(State()), province, benefit, x)
    {
      isFetching := true;
      if currentPage == 1 {
        dataArray := [];
      }
      sent := Query(currentPage, "0" + IntToString(province), benefit);
      if x.response.status != 200 {
        isFetching := false;
        verdict := Error(BadRequest);
        return;
      }
      if x.response.body.None? {
        isFetching := false;
        verdict := Error(BadJSON);
        return;
      }
      var page := x.response.body.value;
      isFetching := false;
      // the spawned task
      if totalItems.None? {
        totalItems := Some(page.count);
      }
      apiResponse := Some(page);
      dataArray := dataArray + page.data;
      if |dataArray| < totalItems.value {
        currentPage := currentPage + 1;
        verdict := More;
      } else {
        shouldFetchMore := false;
        currentPage := 1;
        verdict := Finished;
      }
    }

    /**
     * `fetchData` and the chain of tasks it starts, one page per iteration;
     * `xs` are the server's answers in order.
     */
    method FetchData(province: int, benefit: string, xs: seq<Exchange>) returns (outcome: Outcome, sent: seq<Query>)
      requires Valid()
      modifies this
      ensures Valid()
      ensures RunResult(State(), outcome, sent) == Fetch(old(State()), province, benefit, xs)
      ensures old(isFetching) ==> outcome == Ignored && State() == old(State())
      ensures !old(isFetching) ==> !isFetching
    {
      if isFetching {
        return Ignored, [];
      }
      ghost var start := State();
      sent := [];
      var i := 0;
      while i < |xs|
        invariant 0 <= i <= |xs|
        invariant Valid() && !isFetching
        invariant Run(start, province, benefit, xs) ==
                  var rest := Run(State(), province, benefit, xs[i..]);
                  RunResult(rest.state, rest.outcome, sent + rest.sent)
      {
        assert xs[i..][0] == xs[i] && xs[i..][1..] == xs[i + 1..];
        var verdict, q := FetchPage(province, benefit, xs[i]);
        sent := sent + [q];
        i := i + 1;
        if verdict == Finished {
          return Completed, sent;
        } else if verdict.Error? {
          return Failed(verdict.error), sent;
        }
      }
      outcome := AwaitingPage;
    }

    /** `cancelFetch`: stop, drop the records and go back to page 1; the total and the last response stay. */
    method CancelFetch()
      requires Valid()
      modifies this
      ensures Valid()
      ensures !isFetching && dataArray == [] && currentPage == 1
      ensures totalItems == old(totalItems) && apiResponse == old(apiResponse) && shouldFetchMore == old(shouldFetchMore)
      ensures State() == Cancelled(old(State()))
    {
      isFetching := false;
      dataArray := [];
      currentPage := 1;
    }
  }
}
