/**
 * The queue fetcher of `AJiO/Managers/NetworkManager.swift`: it asks the
 * queue API for one page of 25 records at a time, gates every request
 * through a one-second window of at most ten requests, appends each decoded
 * page, and keeps asking for the next page while fewer records have arrived
 * than the total the first page reported.
 *
 * In the app each activation of `fetchData` spawns a main-actor task that
 * appends the page and calls `fetchData` again for the next page. Here that
 * chain is a loop: `Request` is one activation (with the task body up to the
 * recursive call) and `Run` the whole chain, over the exchanges the server
 * answers. The class `NetworkManager` keeps the source's fields and is proved
 * to follow `Request` and `Run`.
 */
module PagedFetcher {
  import opened Api

  const MaxRequestsPerSecond := 10
  /** Length of a rate window, in milliseconds. */
  const WindowMs := 1000

  // ---------------------------------------------------------------------------
  // The request-rate gate

  /** `requestStartTime` and `requestCount`. */
  datatype RateWindow = RateWindow(start: Option<int>, count: int)

  /** Every reachable window: never above the cap, and no count before the first window opens. */
  predicate WindowValid(w: RateWindow) {
    0 <= w.count <= MaxRequestsPerSecond && (w.start.None? ==> w.count == 0)
  }

  /** The window after one request is counted, and how long the request first slept. */
  datatype Gated = Gated(window: RateWindow, waitMs: int)

  /**
   * The accounting done before each request: a window that is at least one
   * second old is restarted; a full window still running is slept out and
   * then restarted; the request is then counted.
   */
  function Gate(w: RateWindow, now: int): (g: Gated)
    ensures g.window.start.Some?
    ensures WindowValid(w) ==> WindowValid(g.window) && 1 <= g.window.count
    ensures g.waitMs >= 0
    ensures g.waitMs > 0 <==> w.start.Some? && now - w.start.value < WindowMs && w.count >= MaxRequestsPerSecond
    ensures g.waitMs > 0 ==> now + g.waitMs == w.start.value + WindowMs
    // a window either goes on and counts one more request, or is replaced by a later one holding only this request
    ensures g.window.start == w.start ==> g.window.count == w.count + 1
    ensures w.start.Some? && g.window.start != w.start ==> g.window.start.value > w.start.value && g.window.count == 1
    // when the clock has not gone back, the request goes out inside the window it is counted in
    ensures w.start.None? || now >= w.start.value ==>
              g.window.start.value <= now + g.waitMs < g.window.start.value + WindowMs
  {
    match w.start
    case None => Gated(RateWindow(Some(now), w.count + 1), 0)
    case Some(start) =>
      var elapsed := now - start;
      if elapsed < WindowMs then
        if w.count >= MaxRequestsPerSecond then
          var waitMs := WindowMs - elapsed;
          Gated(RateWindow(Some(now + waitMs), 1), waitMs)
        else
          Gated(RateWindow(Some(start), w.count + 1), 0)
      else
        Gated(RateWindow(Some(now), 1), 0)
  }

  /** How many more requests a window that starts at `s` can take, seen from `w`: none for a window already closed. */
  function Room(w: RateWindow, s: int): int {
    if w.start.None? then MaxRequestsPerSecond
    else if s < w.start.value then 0
    else if s == w.start.value then MaxRequestsPerSecond - w.count
    else MaxRequestsPerSecond
  }

  lemma GateUsesRoom(w: RateWindow, now: int, s: int)
    requires WindowValid(w)
    ensures (if Gate(w, now).window.start == Some(s) then 1 else 0) + Room(Gate(w, now).window, s) <= Room(w, s)
  {
  }

  // ---------------------------------------------------------------------------
  // The fetcher's state and one activation of fetchData

  /** The fields of `NetworkManager`. */
  datatype Fetcher = Fetcher(
    dataArray: seq<Record>,
    isFetching: bool,
    totalItems: Option<int>,
    shouldFetchMore: bool,
    currentPage: int,
    window: RateWindow)

  /** The shared manager as the app creates it. */
  const Initial := Fetcher([], false, None, true, 1, RateWindow(None, 0))

  /** What every reachable state satisfies. */
  predicate Consistent(f: Fetcher) {
    f.currentPage >= 1 && WindowValid(f.window)
  }

  /** A request that went out: its query, the start of the rate window it was counted in, and how long it slept. */
  datatype Sent = Sent(query: Query, windowStart: int, waitMs: int)

  /** How an activation ends: it asks for the next page, the run is over, or it threw. */
  datatype Verdict = More | Finished | Error(error: FetchError)

  datatype Step = Step(verdict: Verdict, state: Fetcher, sent: Sent)

  /** The state a request is made from: a request for page 1 starts a new search, dropping the records and the total. */
  function Restarted(f: Fetcher): Fetcher {
    if f.currentPage == 1 then f.(dataArray := [], totalItems := None) else f
  }

  /**
   * One activation of `fetchData` that got past the re-entry guard, followed by
   * the task it spawns, up to the point where that task asks for the next page.
   */
  function Request(f: Fetcher, province: string, benefit: string, x: Exchange): (st: Step)
    ensures !st.state.isFetching
    ensures st.state.window == Gate(f.window, x.now).window
    ensures st.sent == Sent(Query(f.currentPage, province, benefit),
                            Gate(f.window, x.now).window.start.value, Gate(f.window, x.now).waitMs)
    ensures st.verdict.Error? <==> !Succeeded(x)
    ensures st.verdict == Error(BadRequest) <==> x.response.status != 200
    // a failed request appends nothing and leaves the total and the page where they were
    ensures st.verdict.Error? ==>
              && st.state.dataArray == Restarted(f).dataArray
              && st.state.totalItems == Restarted(f).totalItems
              && st.state.currentPage == f.currentPage
              && st.state.shouldFetchMore == f.shouldFetchMore
    // a decoded page goes after the records already there; the total is taken from it only if none is known
    ensures !st.verdict.Error? ==>
              && st.state.dataArray == Restarted(f).dataArray + Payload(x)
              && st.state.totalItems.Some?
              && (Restarted(f).totalItems.Some? ==> st.state.totalItems == Restarted(f).totalItems)
              && (Restarted(f).totalItems.None? ==> st.state.totalItems == Some(x.response.body.value.count))
    ensures st.verdict == More <==> !st.verdict.Error? && |st.state.dataArray| < st.state.totalItems.value
    ensures st.verdict == More ==> st.state.currentPage == f.currentPage + 1 && st.state.shouldFetchMore == f.shouldFetchMore
    ensures st.verdict == Finished ==> st.state.currentPage == 1 && !st.state.shouldFetchMore
  {
    var g := Gate(f.window, x.now);
    var f1 := Restarted(f).(isFetching := false, window := g.window);
    var sent := Sent(Query(f.currentPage, province, benefit), g.window.start.value, g.waitMs);
    if x.response.status != 200 then Step(Error(BadRequest), f1, sent)
    else if x.response.body.None? then Step(Error(BadJSON), f1, sent)
    else
      var page := x.response.body.value;
      var total := if f1.totalItems.None? then page.count else f1.totalItems.value;
      var data := f1.dataArray + page.data;
      if |data| < total then
        Step(More, f1.(totalItems := Some(total), dataArray := data, currentPage := f1.currentPage + 1), sent)
      else
        Step(Finished, f1.(totalItems := Some(total), dataArray := data, shouldFetchMore := false, currentPage := 1), sent)
  }

  lemma RequestKeepsConsistent(f: Fetcher, province: string, benefit: string, x: Exchange)
    requires Consistent(f)
    ensures Consistent(Request(f, province, benefit, x).state)
  {
  }

  // ---------------------------------------------------------------------------
  // The whole chain of pages

  datatype RunResult = RunResult(state: Fetcher, outcome: Outcome, sent: seq<Sent>)

  /** The chain of activations, one exchange per page, until a page ends it or the exchanges run out. */
  function Run(f: Fetcher, province: string, benefit: string, xs: seq<Exchange>): (r: RunResult)
    // one request per exchange used, and at least one once there is an exchange
    ensures |r.sent| <= |xs| && (xs != [] ==> |r.sent| >= 1 && !r.state.isFetching)
    // a started run is never ignored, and it stops short of the exchanges only by completing or failing
    ensures r.outcome != Ignored
    ensures |r.sent| < |xs| ==> r.outcome.Completed? || r.outcome.Failed?
    ensures r.outcome == AwaitingPage ==> |r.sent| == |xs|
    decreases |xs|
  {
    if xs == [] then RunResult(f, AwaitingPage, [])
    else
      var st := Request(f, province, benefit, xs[0]);
      match st.verdict
      case More =>
        var rest := Run(st.state, province, benefit, xs[1..]);
        RunResult(rest.state, rest.outcome, [st.sent] + rest.sent)
      case Finished => RunResult(st.state, Completed, [st.sent])
      case Error(e) => RunResult(st.state, Failed(e), [st.sent])
  }

  /** A call of `fetchData`: ignored while a fetch is running, otherwise the chain of pages. */
  function Fetch(f: Fetcher, province: string, benefit: string, xs: seq<Exchange>): (r: RunResult)
    ensures r.outcome == Ignored <==> f.isFetching
    ensures r.outcome == Ignored ==> r.state == f && r.sent == []
  {
    if f.isFetching then RunResult(f, Ignored, []) else Run(f, province, benefit, xs)
  }

  /** What `cancelFetch` leaves behind. */
  function Cancelled(f: Fetcher): (c: Fetcher)
    ensures !c.isFetching && c.dataArray == [] && c.currentPage == 1 && c.totalItems == None
    ensures c.shouldFetchMore == f.shouldFetchMore && c.window == f.window
    ensures Consistent(f) ==> Consistent(c)
  {
    f.(isFetching := false, dataArray := [], currentPage := 1, totalItems := None)
  }

  /** The number of requests counted in the window that starts at `s`. */
  function CountInWindow(sent: seq<Sent>, s: int): nat {
    if sent == [] then 0
    else (if sent[0].windowStart == s then 1 else 0) + CountInWindow(sent[1..], s)
  }

  /** The number of pages of a run that arrived and decoded: all of them, except the last when the run failed. */
  function Delivered(r: RunResult): int {
    if r.outcome.Failed? then |r.sent| - 1 else |r.sent|
  }

  /**
   * Pages are requested one after another, starting at the current page and
   * going up by one each time; one request per exchange used; the run stops
   * at a failure, at completion, or when the exchanges are used up.
   */
  lemma {:induction false} RunRequestsConsecutivePages(f: Fetcher, province: string, benefit: string, xs: seq<Exchange>)
    requires f.currentPage >= 1
    ensures var r := Run(f, province, benefit, xs);
      && (forall i :: 0 <= i < |r.sent| ==> r.sent[i].query == Query(f.currentPage + i, province, benefit))
      && (r.outcome == AwaitingPage && xs != [] ==> r.state.currentPage == f.currentPage + |xs|)
    decreases |xs|
  {
    if xs != [] {
      var st := Request(f, province, benefit, xs[0]);
      if st.verdict == More {
        RunRequestsConsecutivePages(st.state, province, benefit, xs[1..]);
      }
    }
  }

  /**
   * The records after a run are those the run started from (none when it
   * started at page 1) followed by every delivered page, in arrival order; a
   * failed page adds nothing.
   */
  lemma {:induction false} RunAppendsPagesInOrder(f: Fetcher, province: string, benefit: string, xs: seq<Exchange>)
    requires f.currentPage >= 1
    ensures var r := Run(f, province, benefit, xs);
      && (r.outcome.Failed? ==> |r.sent| >= 1)
      && 0 <= Delivered(r) <= |xs|
      && (forall i :: 0 <= i < Delivered(r) ==> Succeeded(xs[i]))
      && (r.outcome.Failed? ==> !Succeeded(xs[Delivered(r)]))
      && (xs != [] ==> r.state.dataArray == Restarted(f).dataArray + Concat(xs[..Delivered(r)]))
    decreases |xs|
  {
    if xs != [] {
      var st := Request(f, province, benefit, xs[0]);
      var r := Run(f, province, benefit, xs);
      match st.verdict
      case More =>
        var xs' := xs[1..];
        var r' := Run(st.state, province, benefit, xs');
        RunAppendsPagesInOrder(st.state, province, benefit, xs');
        var n := Delivered(r');
        assert Delivered(r) == n + 1;
        assert xs[..n + 1][1..] == xs'[..n];
        ConcatCons(xs[..n + 1]);
        if xs' == [] {
          assert r'.state == st.state;
          assert xs[..1] == [xs[0]];
          assert Concat(xs[..1]) == Payload(xs[0]) by { assert xs[..1][..0] == []; }
        }
      case Finished =>
        assert xs[..1] == [xs[0]];
        assert Concat(xs[..1]) == Payload(xs[0]) by { assert xs[..1][..0] == []; }
      case Error(e) =>
        assert xs[..0] == [];
    }
  }

  /**
   * The total is captured once: a run that starts at page 1 takes it from the
   * first page (and has none if that page fails); a run that continues keeps
   * the total it had. Later pages never change it.
   */
  lemma {:induction false} RunCapturesTotalOnce(f: Fetcher, province: string, benefit: string, xs: seq<Exchange>)
    requires f.currentPage >= 1
    requires xs != []
    ensures var r := Run(f, province, benefit, xs);
      r.state.totalItems ==
        if Restarted(f).totalItems.Some? then Restarted(f).totalItems
        else if Succeeded(xs[0]) then Some(xs[0].response.body.value.count)
        else None
    decreases |xs|
  {
    var st := Request(f, province, benefit, xs[0]);
    if st.verdict == More && |xs| > 1 {
      RunCapturesTotalOnce(st.state, province, benefit, xs[1..]);
    }
  }

  /**
   * How a run ends: a completed run has at least the total and is back at
   * page 1; a run waiting for a page has fewer records than the total; a failed
   * run stays on the page that failed.
   */
  lemma {:induction false} RunEndsAtTotal(f: Fetcher, province: string, benefit: string, xs: seq<Exchange>)
    requires f.currentPage >= 1
    ensures var r := Run(f, province, benefit, xs);
      && (r.outcome == Completed ==>
            && r.state.totalItems.Some? && |r.state.dataArray| >= r.state.totalItems.value
            && r.state.currentPage == 1 && !r.state.shouldFetchMore)
      && (r.outcome == AwaitingPage && xs != [] ==>
            r.state.totalItems.Some? && |r.state.dataArray| < r.state.totalItems.value)
      && (r.outcome.Failed? ==> r.state.currentPage == f.currentPage + |r.sent| - 1)
      && (r.outcome != Completed ==> r.state.shouldFetchMore == f.shouldFetchMore)
    decreases |xs|
  {
    if xs != [] {
      var st := Request(f, province, benefit, xs[0]);
      if st.verdict == More {
        RunEndsAtTotal(st.state, province, benefit, xs[1..]);
        RunRequestsConsecutivePages(st.state, province, benefit, xs[1..]);
      }
    }
  }

  /**
   * The rate limit over a whole run: no window ever counts more requests than
   * it has room for, so never more than `MaxRequestsPerSecond`.
   */
  lemma {:induction false} RunRespectsRateLimit(f: Fetcher, province: string, benefit: string, xs: seq<Exchange>, s: int)
    requires WindowValid(f.window)
    ensures CountInWindow(Run(f, province, benefit, xs).sent, s) <= Room(f.window, s) <= MaxRequestsPerSecond
    ensures WindowValid(Run(f, province, benefit, xs).state.window)
    decreases |xs|
  {
    if xs != [] {
      var st := Request(f, province, benefit, xs[0]);
      GateUsesRoom(f.window, xs[0].now, s);
      var r := Run(f, province, benefit, xs);
      if st.verdict == More {
        RunRespectsRateLimit(st.state, province, benefit, xs[1..], s);
        assert r.sent[1..] == Run(st.state, province, benefit, xs[1..]).sent;
      } else {
        assert r.sent[1..] == [];
      }
    }
  }

  /**
   * After `cancelFetch`, the next search starts afresh: its first request is
   * for page 1, and its records and total come from this search alone.
   */
  lemma CancelThenFetchStartsFresh(f: Fetcher, province: string, benefit: string, xs: seq<Exchange>)
    requires xs != []
    ensures var r := Fetch(Cancelled(f), province, benefit, xs);
      && |r.sent| >= 1 && r.sent[0].query.page == 1
      && 0 <= Delivered(r) <= |xs|
      && (forall i :: 0 <= i < Delivered(r) ==> Succeeded(xs[i]))
      && r.state.dataArray == Concat(xs[..Delivered(r)])
      && r.state.totalItems == (if Succeeded(xs[0]) then Some(xs[0].response.body.value.count) else None)
  {
    var c := Cancelled(f);
    RunRequestsConsecutivePages(c, province, benefit, xs);
    RunAppendsPagesInOrder(c, province, benefit, xs);
    RunCapturesTotalOnce(c, province, benefit, xs);
  }

  /**
   * A search that reports 30 records, answered with 25 and then 5, makes
   * exactly two requests (pages 1 and 2), ends with all 30 records and is
   * back at page 1; a third answer is never asked for.
   */
  lemma ThirtyRecordsTakeTwoRequests(province: string, benefit: string, third: Exchange)
    ensures var r := Fetch(Initial, province, benefit, [PageOf(0, 30, 25), PageOf(5, 30, 5), third]);
      && r.outcome == Completed
      && |r.sent| == 2 && r.sent[0].query.page == 1 && r.sent[1].query.page == 2
      && |r.state.dataArray| == 30 && r.state.totalItems == Some(30) && r.state.currentPage == 1
  {
    var xs := [PageOf(0, 30, 25), PageOf(5, 30, 5), third];
    var st1 := Request(Initial, province, benefit, xs[0]);
    assert Restarted(Initial) == Initial;
    assert |st1.state.dataArray| == 25 && st1.state.totalItems == Some(30);
    assert st1.verdict == More && st1.state.currentPage == 2;
    var st2 := Request(st1.state, province, benefit, xs[1]);
    assert Restarted(st1.state) == st1.state;
    assert |st2.state.dataArray| == 30;
    assert st2.verdict == Finished;
    assert xs[1..][0] == xs[1];
    var r2 := Run(st1.state, province, benefit, xs[1..]);
    assert r2 == RunResult(st2.state, Completed, [st2.sent]);
    var r := Run(Initial, province, benefit, xs);
    assert r == RunResult(r2.state, r2.outcome, [st1.sent] + r2.sent);
  }

  // ---------------------------------------------------------------------------
  // The class, with the source's fields

  class NetworkManager {
    var dataArray: seq<Record>
    var isFetching: bool
    var totalItems: Option<int>
    var shouldFetchMore: bool
    var currentPage: int
    var requestCount: int
    var requestStartTime: Option<int>

    /** The fields as a value. */
    function State(): Fetcher
      reads this
    {
      Fetcher(dataArray, isFetching, totalItems, shouldFetchMore, currentPage, RateWindow(requestStartTime, requestCount))
    }

    predicate Valid()
      reads this
    {
      Consistent(State())
    }

    constructor ()
      ensures Valid() && State() == Initial
    {
      dataArray := [];
      isFetching := false;
      totalItems := None;
      shouldFetchMore := true;
      currentPage := 1;
      requestCount := 0;
      requestStartTime := None;
    }

    /** The rate-window accounting before a request; returns how long the request sleeps first. */
    method CountRequest(now: int) returns (waitMs: int)
      requires Valid()
      modifies this
      ensures Valid()
      ensures Gated(RateWindow(requestStartTime, requestCount), waitMs) == Gate(old(State()).window, now)
      ensures dataArray == old(dataArray) && isFetching == old(isFetching) && totalItems == old(totalItems)
      ensures shouldFetchMore == old(shouldFetchMore) && currentPage == old(currentPage)
    {
      waitMs := 0;
      if requestStartTime.Some? {
        var elapsed := now - requestStartTime.value;
        if elapsed < WindowMs {
          if requestCount >= MaxRequestsPerSecond {
            waitMs := WindowMs - elapsed;
            requestCount := 0;
            requestStartTime := Some(now + waitMs);
          }
        } else {
          requestCount := 0;
          requestStartTime := Some(now);
        }
      } else {
        requestStartTime := Some(now);
      }
      requestCount := requestCount + 1;
    }

    /** One activation of `fetchData` past the guard, with the task body up to its recursive call. */
    method FetchPage(province: string, benefit: string, x: Exchange) returns (verdict: Verdict, sent: Sent)
      requires Valid() && !isFetching
      modifies this
      ensures Valid() && !isFetching
      ensures Step(verdict, State(), sent) == Request(old(State()), province, benefit, x)
    {
      isFetching := true;
      if currentPage == 1 {
        dataArray := [];
        totalItems := None;
      }
      var waitMs := CountRequest(x.now);
      sent := Sent(Query(currentPage, province, benefit), requestStartTime.value, waitMs);

      if x.response.status != 200 {
        isFetching := false;
        verdict := Error(BadRequest);
        return;
      }
      if x.response.body.None? {
        isFetching := false;
        verdict := Error(BadJSON);
        return;
      }
      var page := x.response.body.value;
      isFetching := false;
      // the spawned task
      if totalItems.None? {
        totalItems := Some(page.count);
      }
      dataArray := dataArray + page.data;
      if |dataArray| < totalItems.value {
        currentPage := currentPage + 1;
        verdict := More;
      } else {
        shouldFetchMore := false;
        currentPage := 1;
        verdict := Finished;
      }
    }

    /**
     * `fetchData` and the chain of tasks it starts, one page per iteration;
     * `xs` are the server's answers in order.
     */
    method FetchData(province: string, benefit: string, xs: seq<Exchange>) returns (outcome: Outcome, sent: seq<Sent>)
      requires Valid()
      modifies this
      ensures Valid()
      ensures RunResult(State(), outcome, sent) == Fetch(old(State()), province, benefit, xs)
      ensures old(isFetching) ==> outcome == Ignored && State() == old(State())
      ensures !old(isFetching) ==> !isFetching
    {
      if isFetching {
        return Ignored, [];
      }
      ghost var start := State();
      sent := [];
      var i := 0;
      while i < |xs|
        invariant 0 <= i <= |xs|
        invariant Valid() && !isFetching
        invariant Run(start, province, benefit, xs) ==
                  var rest := Run(State(), province, benefit, xs[i..]);
                  RunResult(rest.state, rest.outcome, sent + rest.sent)
        invariant i > 0 ==> !start.isFetching
      {
        assert xs[i..][0] == xs[i] && xs[i..][1..] == xs[i + 1..];
        var verdict, s := FetchPage(province, benefit, xs[i]);
        sent := sent + [s];
        i := i + 1;
        if verdict == Finished {
          return Completed, sent;
        } else if verdict.Error? {
          return Failed(verdict.error), sent;
        }
      }
      outcome := AwaitingPage;
    }

    /** `cancelFetch`: stop, drop the records, and go back to page 1 with no total. */
    method CancelFetch()
      requires Valid()
      modifies this
      ensures Valid()
      ensures !isFetching && dataArray == [] && currentPage == 1 && totalItems == None
      ensures shouldFetchMore == old(shouldFetchMore)
      ensures requestCount == old(requestCount) && requestStartTime == old(requestStartTime)
      ensures State() == Cancelled(old(State()))
    {
      isFetching := false;
      dataArray := [];
      currentPage := 1;
      totalItems := None;
    }
  }
}
