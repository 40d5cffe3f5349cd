/**
 * Values shared by both generations of the queue fetcher: the decoded API
 * response as far as the fetchers look at it, one exchange with the server,
 * the query string of a page request, and Swift's `String(Int)` rendering of
 * integers that both fetchers put into their query.
 */
module Api {

  datatype Option<+T> = None | Some(value: T)

  /** One queue entry (`DataElement`); the fetchers only ever append it, so only its `id` is kept. */
  datatype Record = Record(id: string)

  /** A decoded response body: `meta.count` and the `data` array. */
  datatype Page = Page(count: int, data: seq<Record>)

  /** The server's answer to one request: the HTTP status and the decoded body, or None when decoding fails. */
  datatype Response = Response(status: int, body: Option<Page>)

  /** One request as the environment sees it: the clock reading in milliseconds when `fetchData` runs, and the answer. */
  datatype Exchange = Exchange(now: int, response: Response)

  /** The two `FetchError` cases a request can end in (`invalidURL` is not part of this model). */
  datatype FetchError = BadRequest | BadJSON

  /** How a call of `fetchData`, followed through all the pages it chains, ends. */
  datatype Outcome =
    | Ignored              // a fetch was already running: the call returned at once
    | Completed            // the last page brought the count up to the total
    | Failed(error: FetchError)
    | AwaitingPage         // the chain wants another page but the given exchanges are used up

  /** The parameters of one page request. */
  datatype Query = Query(page: int, province: string, benefit: string)

  const BaseURL := "https://api.nfz.gov.pl/app-itl-api/queues"
  const PageLimit := 25

  /** A successful exchange: status 200 and a body that decoded. */
  predicate Succeeded(x: Exchange) {
    x.response.status == 200 && x.response.body.Some?
  }

  /** The records a successful exchange brings. */
  function Payload(x: Exchange): seq<Record>
    requires Succeeded(x)
  {
    x.response.body.value.data
  }

  /** The records of a run of successful exchanges, in arrival order. */
  function Concat(xs: seq<Exchange>): (r: seq<Record>)
    requires forall i :: 0 <= i < |xs| ==> Succeeded(xs[i])
  {
    if xs == [] then [] else Concat(xs[..|xs| - 1]) + Payload(xs[|xs| - 1])
  }

  lemma {:induction false} ConcatCons(xs: seq<Exchange>)
    requires |xs| > 0
    requires forall i :: 0 <= i < |xs| ==> Succeeded(xs[i])
    ensures Concat(xs) == Payload(xs[0]) + Concat(xs[1..])
  {
    if |xs| == 1 {
      assert xs[..0] == [];
      assert xs[1..] == [];
    } else {
      var init := xs[..|xs| - 1];
      ConcatCons(init);
      assert init[1..] == xs[1..][..|xs[1..]| - 1];
      assert xs[1..][|xs[1..]| - 1] == xs[|xs| - 1];
    }
  }

  /** `n` records, all alike; only how many there are matters to the fetchers. */
  function Records(n: nat): (r: seq<Record>)
    ensures |r| == n
  {
    seq(n, i => Record("r"))
  }

  /** A successful exchange at time `now` whose page reports `count` matches and carries `n` records. */
  function PageOf(now: int, count: int, n: nat): (x: Exchange)
    ensures x.now == now && Succeeded(x) && x.response.body.value.count == count && |Payload(x)| == n
  {
    Exchange(now, Response(200, Some(Page(count, Records(n)))))
  }

  // ---------------------------------------------------------------------------
  // Decimal rendering of integers (Swift's `String(Int)`) and its inverse.

  predicate IsDigit(c: char) { '0' <= c <= '9' }

  predicate AllDigits(s: string) { forall i :: 0 <= i < |s| ==> IsDigit(s[i]) }

  function DigitChar(d: nat): (c: char)
    requires d < 10
    ensures IsDigit(c) && c as int - '0' as int == d
  {
    ('0' as int + d) as char
  }

  /** Decimal digits of `n`, most significant first, without leading zeros. */
  function NatToDecimal(n: nat): (s: string)
    ensures |s| > 0 && AllDigits(s)
    ensures s[0] == '0' ==> n == 0
  {
    if n < 10 then [DigitChar(n)] else NatToDecimal(n / 10) + [DigitChar(n % 10)]
  }

  /** Swift's `String(i)`: a minus sign for negative values, then the digits, with no leading zero. */
  function IntToString(i: int): (s: string)
    ensures |s| > 0
    ensures i >= 0 ==> AllDigits(s) && (s[0] == '0' ==> i == 0)
    ensures i < 0 ==> |s| > 1 && s[0] == '-' && AllDigits(s[1..]) && s[1] != '0'
  {
    if i < 0 then "-" + NatToDecimal(-i) else NatToDecimal(i)
  }

  /** The value of a string of decimal digits. */
  function DecimalValue(s: string): nat
    requires AllDigits(s)
  {
    if s == [] then 0 else DecimalValue(s[..|s| - 1]) * 10 + (s[|s| - 1] as int - '0' as int)
  }

  /** Reads back what `IntToString` writes: an optional minus sign and at least one digit. */
  function ParseInt(s: string): (r: Option<int>)
    ensures r.Some? ==> |s| > 0
  {
    if |s| > 1 && s[0] == '-' && AllDigits(s[1..]) then Some(0 - DecimalValue(s[1..]) as int)
    else if |s| > 0 && AllDigits(s) then Some(DecimalValue(s))
    else None
  }

  lemma {:induction false} DecimalRoundTrip(n: nat)
    ensures DecimalValue(NatToDecimal(n)) == n
  {
    if n >= 10 {
      DecimalRoundTrip(n / 10);
      var s := NatToDecimal(n);
      assert s[..|s| - 1] == NatToDecimal(n / 10);
    }
  }

  /** `ParseInt` inverts `IntToString` on every integer. */
  lemma IntToStringRoundTrip(i: int)
    ensures ParseInt(IntToString(i)) == Some(i)
  {
    if i < 0 {
      DecimalRoundTrip(-i);
      assert IntToString(i)[1..] == NatToDecimal(-i);
    } else {
      DecimalRoundTrip(i);
    }
  }

  /** The query items of a page request, in the order the fetchers list them. */
  function QueryItems(q: Query): (items: seq<(string, string)>)
    ensures |items| == 8
    ensures forall i, j :: 0 <= i < j < |items| ==> items[i].0 != items[j].0
    ensures Lookup(items, "page") == Some(IntToString(q.page))
  {
    [ ("page", IntToString(q.page)),
      ("limit", "25"),
      ("format", "json"),
      ("case", "1"),
      ("province", q.province),
      ("benefit", q.benefit),
      ("benefitForChildren", "false"),
      ("api-version", "1.3") ]
  }

  /** The value of the first query item called `name`. */
  function Lookup(items: seq<(string, string)>, name: string): Option<string> {
    if items == [] then None
    else if items[0].0 == name then Some(items[0].1)
    else Lookup(items[1..], name)
  }

  /** In a list with distinct names, looking up the name of item `k` finds item `k`'s value. */
  lemma {:induction false} LookupAt(items: seq<(string, string)>, k: nat)
    requires k < |items|
    requires forall i, j :: 0 <= i < j < |items| ==> items[i].0 != items[j].0
    ensures Lookup(items, items[k].0) == Some(items[k].1)
  {
    if k > 0 {
      LookupAt(items[1..], k - 1);
    }
  }

  /** The query carries the page number (readable back as an integer), the fixed page size,
      and the province and search term exactly as given. */
  lemma QueryCarriesParameters(q: Query)
    ensures ParseInt(Lookup(QueryItems(q), "page").value) == Some(q.page)
    ensures Lookup(QueryItems(q), "limit") == Some(IntToString(PageLimit))
    ensures Lookup(QueryItems(q), "province") == Some(q.province)
    ensures Lookup(QueryItems(q), "benefit") == Some(q.benefit)
  {
    var items := QueryItems(q);
    IntToStringRoundTrip(q.page);
    assert IntToString(PageLimit) == "25" by {
      assert NatToDecimal(2) == "2";
      assert NatToDecimal(25) == NatToDecimal(2) + [DigitChar(5)];
    }
    LookupAt(items, 1);
    LookupAt(items, 4);
    LookupAt(items, 5);
  }
}
