/** ticker.go: a symbol with its own History. Quote fetches the history and
    returns the bar stored under the greatest key; History installs a query
    and returns the re-keyed bars. */
module Tickers {
  import opened Base
  import opened Text
  import opened Calendar
  import opened HistoryChart
  import Options

  /** A reply Quote can index: a decoded, non-empty chart whose first result
      has prices for every time stamp and at least one time stamp. */
  predicate QuoteReady(reply: Reply<ChartResponse>) {
    reply.Response? && reply.body.Decoded? && |reply.body.value.result| > 0 ==>
      Complete(reply.body.value.result[0]) && |reply.body.value.result[0].timestamp| > 0
  }

  /** A reply whose first result, if any, transformData can index. */
  predicate HistoryReady(reply: Reply<ChartResponse>) {
    reply.Response? && reply.body.Decoded? && |reply.body.value.result| > 0 ==>
      Complete(reply.body.value.result[0])
  }

  /** `p` is the bar transformData keeps under the greatest key: the bar of
      the last time stamp with that key, whose key is at least every other. */
  ghost predicate IsLatestBar(interval: string, r: ChartResult, p: PriceData)
    requires Complete(r)
  {
    var keys := KeysOf(interval, r.timestamp);
    exists i ::
      && 0 <= i < |keys| && LastWith(keys, |keys|, keys[i], i) && p == Bar(r, i)
      && forall j :: 0 <= j < |keys| ==> LessEq(keys[j], keys[i])
  }

  /** Index i holds the latest time stamp: none is of a later day (daily
      intervals) or a later second (others), and no later index has the same
      key. */
  predicate LatestIndex(interval: string, timestamps: seq<Int64>, i: int) {
    && 0 <= i < |timestamps|
    && (forall j :: i < j < |timestamps| ==> Key(interval, timestamps[j]) != Key(interval, timestamps[i]))
    && (forall j :: 0 <= j < |timestamps| ==>
          if Daily(interval) then timestamps[j] / SecondsPerDay <= timestamps[i] / SecondsPerDay
          else timestamps[j] <= timestamps[i])
  }

  /** For time stamps of four-digit years the bar under the greatest key is
      the bar of the latest time stamp. */
  lemma LatestBarIsLatest(interval: string, r: ChartResult, p: PriceData)
    requires Complete(r) && IsLatestBar(interval, r, p)
    requires forall j :: 0 <= j < |r.timestamp| ==> FourDigitYear(r.timestamp[j])
    ensures exists i :: LatestIndex(interval, r.timestamp, i) && p == Bar(r, i)
  {
    var keys := KeysOf(interval, r.timestamp);
    var i :| && 0 <= i < |keys| && LastWith(keys, |keys|, keys[i], i) && p == Bar(r, i)
             && forall j :: 0 <= j < |keys| ==> LessEq(keys[j], keys[i]);
    forall j | 0 <= j < |r.timestamp|
      ensures Daily(interval) ==> r.timestamp[j] / SecondsPerDay <= r.timestamp[i] / SecondsPerDay
      ensures !Daily(interval) ==> r.timestamp[j] <= r.timestamp[i]
    {
      KeyNotAfter(interval, r.timestamp[j], r.timestamp[i]);
    }
    assert LatestIndex(interval, r.timestamp, i);
  }

  /** A key at most another is of a time at most the other's. */
  lemma KeyNotAfter(interval: string, t1: int, t2: int)
    requires FourDigitYear(t1) && FourDigitYear(t2)
    requires LessEq(Key(interval, t1), Key(interval, t2))
    ensures Daily(interval) ==> t1 / SecondsPerDay <= t2 / SecondsPerDay
    ensures !Daily(interval) ==> t1 <= t2
  {
    KeyOrder(interval, t1, t2);
  }

  /** Ticker: the symbol, and the History whose query persists between
      requests. */
  class Ticker {
    const symbol: string
    const history: History

    /** NewTicker: the symbol verbatim and a history with an empty query. */
    constructor (symbol: string)
      ensures this.symbol == symbol
      ensures fresh(history) && fresh(history.query) && history.query.Value() == EmptyQuery
    {
      this.symbol := symbol;
      history := new History();
    }

    /** Quote: fetch the history (which defaults the shared query), collect
        the keys of the re-keyed bars, sort them and return the bar under the
        last. A history error is returned with the zero bar. */
    method Quote(reply: Reply<ChartResponse>, now: Int64, userAgents: seq<string>, pick: nat)
      returns (p: PriceData, status: Status)
      requires history.query.userAgent == "" ==> pick < |userAgents|
      requires QuoteReady(reply)
      modifies history.query
      ensures history.query.Value() == Defaulted(old(history.query.Value()), now, userAgents, pick)
      ensures status != Done ==> p == ZeroPriceData
      ensures match reply
        case NoResponse(e) => status == Failed(e)
        case Response(_, Decoded(v)) =>
          if |v.result| == 0 then status == Failed("no data found for symbol: " + symbol)
          else status == Done && IsLatestBar(history.query.interval, v.result[0], p)
        case Response(_, _) => status.Exited?
    {
      var _, response, st := history.GetHistory(symbol, reply, now, userAgents, pick);
      if st != Done {
        return ZeroPriceData, st;
      }
      var r := response.result[0];
      var data := history.TransformData(response);
      RekeyNonEmpty(history.query.interval, r);

      var dates := CollectKeys(data);
      dates := SortStrings(dates);
      assert |dates| == |multiset(data.Keys)| == |data.Keys| > 0;

      var latest := dates[|dates| - 1];
      assert latest in multiset(data.Keys);
      p, status := data[latest], Done;
      LatestOfSorted(history.query.interval, r, dates, p);
    }

    /** History: install a copy of `query`, fetch, and return the re-keyed
        bars of the first result; on an error, no bars. */
    method History(query: Query, reply: Reply<ChartResponse>, now: Int64, userAgents: seq<string>, pick: nat)
      returns (data: map<string, PriceData>, status: Status)
      requires query.userAgent == "" ==> pick < |userAgents|
      requires HistoryReady(reply)
      modifies history
      ensures fresh(history.query)
      ensures history.query.Value() == Defaulted(query, now, userAgents, pick)
      ensures status != Done ==> data == map[]
      ensures match reply
        case NoResponse(e) => status == Failed(e)
        case Response(_, Decoded(v)) =>
          if |v.result| == 0 then status == Failed("no data found for symbol: " + symbol)
          else status == Done && data == Rekey(history.query.interval, v.result[0])
        case Response(_, _) => status.Exited?
    {
      history.SetQuery(query);
      var _, response, st := history.GetHistory(symbol, reply, now, userAgents, pick);
      if st != Done {
        return map[], st;
      }
      data := history.TransformData(response);
      status := Done;
    }

    /** OptionChain: the flattened first expiry of the symbol's chain. */
    method OptionChain(reply: Reply<Options.OptionResponse>) returns (data: Options.OptionData)
      requires |Options.GetOptionChain(reply).result| > 0
      requires |Options.GetOptionChain(reply).result[0].options| > 0
      ensures data == Options.Flatten(Options.GetOptionChain(reply))
    {
      var chain := Options.GetOptionChain(reply);
      data := Options.TransformData(chain);
    }

    /** OptionChainByExpiration: the flattened chain of one expiration date,
        which must be a date with a non-empty chain, since transformData
        indexes the first result. */
    method OptionChainByExpiration(expiration: string, reply: Reply<Options.OptionResponse>)
      returns (request: Option<map<string, string>>, data: Options.OptionData)
      requires ParseDate(expiration).Some?
      requires |Options.GetOptionChain(reply).result| > 0
      requires |Options.GetOptionChain(reply).result[0].options| > 0
      ensures request == Some(map["date" := Itoa(ParseDate(expiration).value)])
      ensures data == Options.Flatten(Options.GetOptionChain(reply))
    {
      var chain;
      request, chain := Options.GetOptionChainByExpiration(symbol, expiration, reply);
      data := Options.TransformData(chain);
    }

    /** ExpirationDates: the expiration dates of the symbol's chain. */
    method ExpirationDates(reply: Reply<Options.OptionResponse>) returns (dates: seq<string>)
      requires |Options.GetOptionChain(reply).result| > 0
      ensures |dates| == |Options.GetOptionChain(reply).result[0].expirationDates|
      ensures forall i :: 0 <= i < |dates| ==>
        dates[i] == FormatDate(Options.GetOptionChain(reply).result[0].expirationDates[i])
    {
      dates := Options.GetExpirationDates(symbol, reply);
    }
  }

  /** The keys of a map, in the order map iteration happens to yield them. */
  method CollectKeys(data: map<string, PriceData>) returns (dates: seq<string>)
    ensures multiset(dates) == multiset(data.Keys)
  {
    dates := [];
    var rest := data.Keys;
    while rest != {}
      invariant multiset(dates) + multiset(rest) == multiset(data.Keys)
      decreases |rest|
    {
      var date :| date in rest;
      dates := dates + [date];
      rest := rest - {date};
    }
  }

  /** A result with a time stamp has at least one entry. */
  lemma RekeyNonEmpty(interval: string, r: ChartResult)
    requires Complete(r) && |r.timestamp| > 0
    ensures |Rekey(interval, r).Keys| > 0
  {
    var k := KeysOf(interval, r.timestamp)[0];
    RekeyEntries(interval, r, k);
    assert k in Rekey(interval, r);
  }

  /** The last of the sorted keys of transformData's map names the latest
      bar. */
  lemma LatestOfSorted(interval: string, r: ChartResult, dates: seq<string>, p: PriceData)
    requires Complete(r) && |dates| > 0 && Sorted(dates)
    requires multiset(dates) == multiset(Rekey(interval, r).Keys)
    requires dates[|dates| - 1] in Rekey(interval, r) && p == Rekey(interval, r)[dates[|dates| - 1]]
    ensures IsLatestBar(interval, r, p)
  {
    var keys := KeysOf(interval, r.timestamp);
    var latest := dates[|dates| - 1];
    assert latest in multiset(dates);
    RekeyEntries(interval, r, latest);
    var i :| LastWith(keys, |keys|, latest, i) && Rekey(interval, r)[latest] == Bar(r, i);
    forall j | 0 <= j < |keys|
      ensures LessEq(keys[j], keys[i])
    {
      RekeyEntries(interval, r, keys[j]);
      assert keys[j] in multiset(dates);
      SortedLast(dates, keys[j]);
    }
  }

  /** The last element of a sorted sequence is at least every element. */
  lemma SortedLast(dates: seq<string>, x: string)
    requires Sorted(dates) && x in dates
    ensures LessEq(x, dates[|dates| - 1])
  {
    var m :| 0 <= m < |dates| && dates[m] == x;
    if m < |dates| - 1 {
      assert LessEq(dates[m], dates[|dates| - 1]);
    }
  }
}
