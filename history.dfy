/** history.go: the chart history of one symbol. A HistoryQuery is filled
    with defaults before every request, turned into the query parameters of
    a GET against /v8/finance/chart/{symbol}, and the parallel OHLCV arrays
    of the first chart result are re-keyed by their rendered timestamps.
    The reply, the clock and the random choice of a User-Agent are
    parameters; time stamps are rendered in UTC. */
module HistoryChart {
  import opened Base
  import opened Text
  import opened Calendar

  /** PriceData: one bar. Prices are only copied, never computed. */
  datatype PriceData = PriceData(open: real, high: real, low: real, close: real, volume: Int64)

  const ZeroPriceData: PriceData := PriceData(0.0, 0.0, 0.0, 0.0, 0)

  /** YahooQuote: the parallel price arrays of one result. */
  datatype QuoteArrays = QuoteArrays(
    open: seq<real>, high: seq<real>, low: seq<real>, close: seq<real>, volume: seq<Int64>)

  /** YahooHistoryResult, restricted to what the core reads: the time stamps
      and Indicators.Quote. */
  datatype ChartResult = ChartResult(timestamp: seq<Int64>, quote: seq<QuoteArrays>)

  /** YahooHistoryRespose, with Chart.Result flattened to `result`. */
  datatype ChartResponse = ChartResponse(result: seq<ChartResult>)

  /** The zero YahooHistoryRespose returned beside every error. */
  const EmptyChart: ChartResponse := ChartResponse([])

  /** The value of a HistoryQuery, as callers build and pass it. */
  datatype Query = Query(range: string, interval: string, start: string, end: string, userAgent: string)

  const EmptyQuery: Query := Query("", "", "", "", "")

  /** The marker SetDefault leaves in Start when it cannot parse it. */
  const UnparsedStart: string := "default"

  // ---------------------------------------------------------------------------
  // Defaults
  // ---------------------------------------------------------------------------

  /** What SetDefault makes of a query, given the current Unix time and the
      User-Agent list with the index the random choice picks. Only empty
      fields are filled, except Start, which is rewritten from a date to its
      Unix seconds, or to "default" when it is not a date. */
  function Defaulted(q: Query, now: Int64, userAgents: seq<string>, pick: nat): (r: Query)
    requires q.userAgent == "" ==> pick < |userAgents|
    ensures r.range != "" || r.start != ""
    ensures q.range != "" || q.start != "" ==> r.range == q.range
    ensures q.range == "" && q.start == "" ==> r.range == "1mo"
    ensures r.interval != "" && (q.interval != "" ==> r.interval == q.interval)
    ensures q.interval == "" ==> r.interval == "1d"
    ensures r.start == "" <==> q.start == ""
    ensures r.start == UnparsedStart <==> q.start != "" && ParseDate(q.start).None?
    ensures ParseDate(q.start).Some? ==> r.start == Itoa(ParseDate(q.start).value)
    ensures ParseDate(q.start).Some? ==> ParseInt(r.start) == ParseDate(q.start)
    ensures q.end != "" ==> r.end == q.end
    ensures q.end == "" ==> r.end == Itoa(now) && ParseInt(r.end) == Some(now)
    ensures q.userAgent != "" ==> r.userAgent == q.userAgent
    ensures q.userAgent == "" ==> r.userAgent in userAgents
  {
    var range := if q.range == "" && q.start == "" then "1mo" else q.range;
    var interval := if q.interval == "" then "1d" else q.interval;
    var start :=
      if q.start == "" then ""
      else match ParseDate(q.start)
        case None => UnparsedStart
        case Some(t) => Itoa(t);
    var end := if q.end == "" then Itoa(now) else q.end;
    var userAgent := if q.userAgent == "" then userAgents[pick] else q.userAgent;
    StartRendering(q.start);
    ItoaRoundTrip(now);
    Query(range, interval, start, end, userAgent)
  }

  /** The rewritten Start parses back to the date's Unix seconds, and the
      text "default" is never such a rendering. */
  lemma StartRendering(start: string)
    ensures ParseDate(start).Some? ==>
      var t := ParseDate(start).value;
      MinInt64 <= t <= MaxInt64 && ParseInt(Itoa(t)) == Some(t) && Itoa(t) != UnparsedStart
      && t % SecondsPerDay == 0 && FormatDate(t) == start
  {
    if ParseDate(start).Some? {
      var t := ParseDate(start).value;
      FormatParseDate(start);
      assert FourDigitYear(t);
      ItoaRoundTrip(t);
      assert ParseInt(UnparsedStart) == None by {
        assert !IsDigit(UnparsedStart[0]);
      }
    }
  }

  /** SetDefault is not idempotent on Start: a second call cannot parse the
      Unix seconds the first one wrote, so any non-empty Start ends up as
      "default", while every other field keeps what the first call gave it. */
  lemma {:induction false} DefaultedTwice(q: Query, now1: Int64, now2: Int64, userAgents: seq<string>, pick1: nat, pick2: nat)
    requires pick1 < |userAgents| && pick2 < |userAgents| && "" !in userAgents
    ensures var r1 := Defaulted(q, now1, userAgents, pick1);
            var r2 := Defaulted(r1, now2, userAgents, pick2);
            && r2.range == r1.range && r2.interval == r1.interval
            && r2.end == r1.end && r2.userAgent == r1.userAgent
            && r2.start == (if q.start == "" then "" else UnparsedStart)
  {
    var r1 := Defaulted(q, now1, userAgents, pick1);
    assert r1.userAgent != "";
    assert r1.end != "" by {
      if q.end == "" {
        assert ParseInt(r1.end) == Some(now1);
      }
    }
    if q.start != "" {
      match ParseDate(q.start)
      case None =>
        assert r1.start == UnparsedStart;
        assert ParseDate(UnparsedStart) == None;
      case Some(t) =>
        assert r1.start == Itoa(t);
        DecimalIsNotDate(t);
    }
  }

  /** From the second call on, SetDefault changes nothing. */
  lemma {:induction false} DefaultedSettles(q: Query, now1: Int64, now2: Int64, now3: Int64, userAgents: seq<string>, pick1: nat, pick2: nat, pick3: nat)
    requires pick1 < |userAgents| && pick2 < |userAgents| && pick3 < |userAgents| && "" !in userAgents
    ensures var r2 := Defaulted(Defaulted(q, now1, userAgents, pick1), now2, userAgents, pick2);
            Defaulted(r2, now3, userAgents, pick3) == r2
  {
    var r1 := Defaulted(q, now1, userAgents, pick1);
    var r2 := Defaulted(r1, now2, userAgents, pick2);
    DefaultedTwice(q, now1, now2, userAgents, pick1, pick2);
    DefaultedTwice(r1, now2, now3, userAgents, pick2, pick3);
    var r3 := Defaulted(r2, now3, userAgents, pick3);
    assert r3.start == r2.start by {
      if r2.start != "" {
        assert r1.start != "";
      }
    }
  }

  /** HistoryQuery: the query a History sends, updated in place by SetDefault. */
  class HistoryQuery {
    var range: string
    var interval: string
    var start: string
    var end: string
    var userAgent: string

    function Value(): Query
      reads this
    {
      Query(range, interval, start, end, userAgent)
    }

    constructor (q: Query)
      ensures Value() == q
    {
      range, interval, start, end, userAgent := q.range, q.interval, q.start, q.end, q.userAgent;
    }

    /** HistoryQuery.SetDefault; `now` is time.Now().Unix() and `pick` the
        index rand.Intn chose in the User-Agent list. */
    method SetDefault(now: Int64, userAgents: seq<string>, pick: nat)
      requires userAgent == "" ==> pick < |userAgents|
      modifies this
      ensures Value() == Defaulted(old(Value()), now, userAgents, pick)
    {
      if range == "" && start == "" {
        range := "1mo";
      }
      if interval == "" {
        interval := "1d";
      }
      if start != "" {
        match ParseDate(start) {
          case None =>
            start := UnparsedStart;
          case Some(t) =>
            StartRendering(start);
            start := Itoa(t);
        }
      }
      if end == "" {
        end := Itoa(now);
      }
      if userAgent == "" {
        userAgent := userAgents[pick];
      }
    }
  }

  // ---------------------------------------------------------------------------
  // Re-keying the bars
  // ---------------------------------------------------------------------------

  /** Intervals whose bars are keyed by date alone. */
  predicate Daily(interval: string) {
    HasSuffix(interval, "d") || HasSuffix(interval, "wk") || HasSuffix(interval, "mo")
  }

  /** The map key of a bar: its date for daily, weekly and monthly intervals,
      its date and time of day otherwise. */
  function Key(interval: string, ts: int): string {
    if Daily(interval) then FormatDate(ts) else FormatDateTime(ts)
  }

  /** When there is a time stamp, the first quote exists and has a price and
      a volume for every time stamp, so that transformData's indexing cannot
      go out of range; a result without time stamps is never indexed. */
  predicate Complete(r: ChartResult) {
    |r.timestamp| > 0 ==>
      && |r.quote| > 0
      && |r.quote[0].open| >= |r.timestamp| && |r.quote[0].high| >= |r.timestamp|
      && |r.quote[0].low| >= |r.timestamp| && |r.quote[0].close| >= |r.timestamp|
      && |r.quote[0].volume| >= |r.timestamp|
  }

  /** The bar at index i: every field from the same index as its time stamp. */
  function Bar(r: ChartResult, i: nat): PriceData
    requires Complete(r) && i < |r.timestamp|
  {
    var q := r.quote[0];
    PriceData(q.open[i], q.high[i], q.low[i], q.close[i], q.volume[i])
  }

  /** The key of every time stamp, in order. */
  function KeysOf(interval: string, timestamps: seq<Int64>): (keys: seq<string>)
    ensures |keys| == |timestamps|
    ensures forall i :: 0 <= i < |timestamps| ==> keys[i] == Key(interval, timestamps[i])
  {
    seq(|timestamps|, i requires 0 <= i < |timestamps| => Key(interval, timestamps[i]))
  }

  /** Every bar of a complete result, in order. */
  function BarsOf(r: ChartResult): (bars: seq<PriceData>)
    requires Complete(r)
    ensures |bars| == |r.timestamp|
    ensures forall i :: 0 <= i < |r.timestamp| ==> bars[i] == Bar(r, i)
  {
    seq(|r.timestamp|, i requires 0 <= i < |r.timestamp| => Bar(r, i))
  }

  /** The map after storing the first n values under their keys, in index
      order. */
  function Store(keys: seq<string>, bars: seq<PriceData>, n: nat): map<string, PriceData>
    requires n <= |keys| == |bars|
  {
    if n == 0 then map[] else Store(keys, bars, n - 1)[keys[n - 1] := bars[n - 1]]
  }

  /** What transformData builds from a complete result. */
  function Rekey(interval: string, r: ChartResult): map<string, PriceData>
    requires Complete(r)
  {
    Store(KeysOf(interval, r.timestamp), BarsOf(r), |r.timestamp|)
  }

  /** A result without time stamps, even one without a quote, re-keys to the
      empty map. */
  lemma RekeyNoTimestamps(interval: string, r: ChartResult)
    requires |r.timestamp| == 0
    ensures Complete(r) && Rekey(interval, r) == map[]
  {
  }

  /** The keys stored are exactly the keys among the first n. */
  lemma {:induction false} StoreKeys(keys: seq<string>, bars: seq<PriceData>, n: nat, k: string)
    requires n <= |keys| == |bars|
    ensures k in Store(keys, bars, n) <==> exists i :: 0 <= i < n && keys[i] == k
  {
    if n > 0 {
      StoreKeys(keys, bars, n - 1, k);
      if keys[n - 1] != k && k in Store(keys, bars, n) {
        var i :| 0 <= i < n && keys[i] == k;
        assert i < n - 1;
      }
    }
  }

  /** Last write wins: the value under a key comes from the last index with
      that key. */
  lemma {:induction false} StoreLastWins(keys: seq<string>, bars: seq<PriceData>, n: nat, k: string)
    requires n <= |keys| == |bars|
    requires k in Store(keys, bars, n)
    ensures exists i :: LastWith(keys, n, k, i) && Store(keys, bars, n)[k] == bars[i]
  {
    if keys[n - 1] == k {
      assert LastWith(keys, n, k, n - 1);
    } else {
      StoreLastWins(keys, bars, n - 1, k);
      var i :| LastWith(keys, n - 1, k, i) && Store(keys, bars, n - 1)[k] == bars[i];
      assert LastWith(keys, n, k, i);
    }
  }

  /** Index i is the last of the first n whose key is k. */
  predicate LastWith(keys: seq<string>, n: nat, k: string, i: int)
    requires n <= |keys|
  {
    0 <= i < n && keys[i] == k && forall j :: i < j < n ==> keys[j] != k
  }

  /** There are at most as many entries as values stored. */
  lemma {:induction false} StoreSize(keys: seq<string>, bars: seq<PriceData>, n: nat)
    requires n <= |keys| == |bars|
    ensures |Store(keys, bars, n)| <= n
  {
    if n > 0 {
      StoreSize(keys, bars, n - 1);
      var m := Store(keys, bars, n - 1);
      assert m[keys[n - 1] := bars[n - 1]].Keys == m.Keys + {keys[n - 1]};
    }
  }

  /** transformData's map holds one entry per distinct key, each the bar of
      the last time stamp with that key, and no more entries than time
      stamps. */
  lemma RekeyEntries(interval: string, r: ChartResult, k: string)
    requires Complete(r)
    ensures |Rekey(interval, r)| <= |r.timestamp|
    ensures k in Rekey(interval, r) <==> exists i :: 0 <= i < |r.timestamp| && Key(interval, r.timestamp[i]) == k
    ensures k in Rekey(interval, r) ==> exists i ::
      LastWith(KeysOf(interval, r.timestamp), |r.timestamp|, k, i) && Rekey(interval, r)[k] == Bar(r, i)
  {
    var keys := KeysOf(interval, r.timestamp);
    StoreSize(keys, BarsOf(r), |r.timestamp|);
    StoreKeys(keys, BarsOf(r), |r.timestamp|, k);
    if k in Rekey(interval, r) {
      StoreLastWins(keys, BarsOf(r), |r.timestamp|, k);
    }
  }

  /** Key order is time order for time stamps of four-digit years: at the
      granularity of days for daily keys and of seconds otherwise. */
  lemma KeyOrder(interval: string, t1: int, t2: int)
    requires FourDigitYear(t1) && FourDigitYear(t2)
    ensures Daily(interval) ==>
      (Less(Key(interval, t1), Key(interval, t2)) <==> t1 / SecondsPerDay < t2 / SecondsPerDay)
    ensures Daily(interval) ==>
      (Key(interval, t1) == Key(interval, t2) <==> t1 / SecondsPerDay == t2 / SecondsPerDay)
    ensures !Daily(interval) ==> (Less(Key(interval, t1), Key(interval, t2)) <==> t1 < t2)
    ensures !Daily(interval) ==> (Key(interval, t1) == Key(interval, t2) <==> t1 == t2)
  {
    FormatDateOrder(t1, t2);
    FormatDateTimeOrder(t1, t2);
  }

  // ---------------------------------------------------------------------------
  // History
  // ---------------------------------------------------------------------------

  /** How a call ended: normally, with an error returned to the caller, or
      with log.Fatalf terminating the process. */
  datatype Status = Done | Failed(err: string) | Exited(message: string)

  /** History: a query shared by every request of one ticker. */
  class History {
    var query: HistoryQuery

    /** NewHistory: an empty query. */
    constructor ()
      ensures fresh(query) && query.Value() == EmptyQuery
    {
      query := new HistoryQuery(EmptyQuery);
    }

    /** SetQuery: the history now sends a fresh copy of `q`. */
    method SetQuery(q: Query)
      modifies this
      ensures fresh(query) && query.Value() == q
    {
      query := new HistoryQuery(q);
    }

    /** GetHistory: fills in the query's defaults, in place, then sends range
        only when it is non-empty and interval, period1 and period2 always.
        A transport error is returned as it is; a body that cannot be decoded
        ends the process; a decoded response without results is an error. The
        status code is not looked at. */
    method GetHistory(symbol: string, reply: Reply<ChartResponse>, now: Int64, userAgents: seq<string>, pick: nat)
      returns (params: map<string, string>, response: ChartResponse, status: Status)
      requires query.userAgent == "" ==> pick < |userAgents|
      modifies query
      ensures query.Value() == Defaulted(old(query.Value()), now, userAgents, pick)
      ensures "range" in params <==> query.range != ""
      ensures "range" in params ==> params["range"] == query.range
      ensures "interval" in params && params["interval"] == query.interval
      ensures "period1" in params && params["period1"] == query.start
      ensures "period2" in params && params["period2"] == query.end
      ensures params.Keys <= {"range", "interval", "period1", "period2"}
      ensures match reply
        case NoResponse(e) => status == Failed(e) && response == EmptyChart
        case Response(_, Unreadable(e)) =>
          status == Exited("Failed to decode history data JSON response: " + e)
        case Response(_, Malformed(e)) =>
          status == Exited("Failed to decode history data JSON response: " + e)
        case Response(_, Decoded(v)) =>
          if |v.result| == 0 then status == Failed("no data found for symbol: " + symbol) && response == EmptyChart
          else status == Done && response == v
    {
      query.SetDefault(now, userAgents, pick);
      params := map[];
      if query.range != "" {
        params := params["range" := query.range];
      }
      params := params["interval" := query.interval];
      params := params["period1" := query.start];
      params := params["period2" := query.end];
      match reply {
        case NoResponse(e) =>
          return params, EmptyChart, Failed(e);
        case Response(_, body) =>
          match body {
            case Unreadable(e) =>
              return params, EmptyChart, Exited("Failed to decode history data JSON response: " + e);
            case Malformed(e) =>
              return params, EmptyChart, Exited("Failed to decode history data JSON response: " + e);
            case Decoded(v) =>
              if |v.result| == 0 {
                return params, EmptyChart, Failed("no data found for symbol: " + symbol);
              }
              return params, v, Done;
          }
      }
    }

    /** History.transformData: every bar of the first result stored under its
        key, in index order, so that a later bar replaces an earlier one with
        the same key. */
    method TransformData(data: ChartResponse) returns (d: map<string, PriceData>)
      requires |data.result| > 0 && Complete(data.result[0])
      ensures d == Rekey(query.interval, data.result[0])
    {
      var r := data.result[0];
      ghost var keys, bars := KeysOf(query.interval, r.timestamp), BarsOf(r);
      d := map[];
      for i := 0 to |r.timestamp|
        invariant d == Store(keys, bars, i)
      {
        var key := Key(query.interval, r.timestamp[i]);
        d := d[key := Bar(r, i)];
      }
    }
  }
}
