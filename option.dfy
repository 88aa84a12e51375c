/** option.go: option chains. The chain of a symbol is fetched, optionally
    for one expiration date given as YYYY-MM-DD, and the calls and puts of
    its first expiry are flattened with their time stamps rendered as dates.
    The `Option` struct only holds the shared HTTP client, so its methods are
    module-level members here and the HTTP reply is a parameter; dates are
    rendered in UTC. */
module Options {
  import opened Base
  import opened Text
  import opened Calendar

  /** YahooOption: one contract as the chain lists it. */
  datatype Contract = Contract(
    contractSymbol: string,
    strike: real,
    currency: string,
    lastPrice: real,
    change: real,
    percentChange: real,
    volume: Int64,
    openInterest: Int64,
    bid: real,
    ask: real,
    contractSize: string,
    expiration: Int64,
    lastTradeDate: Int64,
    impliedVolatility: real,
    inTheMoney: bool)

  /** YahooOptions: the contracts of one expiry. */
  datatype Expiry = Expiry(expirationDate: Int64, hasMiniOptions: bool, calls: seq<Contract>, puts: seq<Contract>)

  /** YahooOptionResult, restricted to the fields the core reads. */
  datatype OptionResult = OptionResult(expirationDates: seq<Int64>, hasMiniOptions: bool, options: seq<Expiry>)

  /** YahooOptionResponse, with OptionChain.Result flattened to `result`. */
  datatype OptionResponse = OptionResponse(result: seq<OptionResult>)

  /** The zero YahooOptionResponse. */
  const EmptyOptions: OptionResponse := OptionResponse([])

  /** OptionDetail: a contract with its two time stamps as dates. */
  datatype OptionDetail = OptionDetail(
    contractSymbol: string,
    strike: real,
    currency: string,
    lastPrice: real,
    change: real,
    percentChange: real,
    volume: Int64,
    openInterest: Int64,
    bid: real,
    ask: real,
    contractSize: string,
    expiration: string,
    lastTradeDate: string,
    impliedVolatility: real,
    inTheMoney: bool)

  /** OptionData: the flattened first expiry. */
  datatype OptionData = OptionData(
    expirationDate: string, hasMiniOptions: bool, calls: seq<OptionDetail>, puts: seq<OptionDetail>)

  // ---------------------------------------------------------------------------
  // Fetching
  // ---------------------------------------------------------------------------

  /** GetOptionChain: the decoded chain, or the zero response after a
      transport or decoding error. The status code is not looked at. */
  function GetOptionChain(reply: Reply<OptionResponse>): (r: OptionResponse)
    ensures r != EmptyOptions ==> reply.Response? && reply.body.Decoded? && r == reply.body.value
    ensures reply.Response? && reply.body.Decoded? ==> r == reply.body.value
  {
    match reply
    case NoResponse(_) => EmptyOptions
    case Response(_, Decoded(v)) => v
    case Response(_, _) => EmptyOptions
  }

  /** GetOptionChainByExpiration: an expiration that is not a YYYY-MM-DD date
      gives the zero response without a request; otherwise the only
      parameter, date, is the decimal Unix time of that day's midnight. */
  method GetOptionChainByExpiration(symbol: string, expiration: string, reply: Reply<OptionResponse>)
    returns (request: Option<map<string, string>>, response: OptionResponse)
    ensures request == None <==> ParseDate(expiration) == None
    ensures request == None ==> response == EmptyOptions
    ensures request.Some? ==> request.value == map["date" := Itoa(ParseDate(expiration).value)]
    ensures request.Some? ==>
      && ParseInt(request.value["date"]).Some?
      && var t := ParseInt(request.value["date"]).value;
      && t % SecondsPerDay == 0 && FormatDate(t) == expiration
    ensures request.Some? ==> response == GetOptionChain(reply)
  {
    match ParseDate(expiration) {
      case None =>
        return None, EmptyOptions;
      case Some(t) =>
        FormatParseDate(expiration);
        assert FourDigitYear(t);
        ItoaRoundTrip(t);
        var params: map<string, string> := map[];
        params := params["date" := Itoa(t)];
        request := Some(params);
        response := GetOptionChain(reply);
    }
  }

  // ---------------------------------------------------------------------------
  // Flattening
  // ---------------------------------------------------------------------------

  /** `d` carries every field of `c` but the two time stamps unchanged. */
  predicate SameTerms(c: Contract, d: OptionDetail) {
    && d.contractSymbol == c.contractSymbol && d.strike == c.strike && d.currency == c.currency
    && d.lastPrice == c.lastPrice && d.change == c.change && d.percentChange == c.percentChange
    && d.volume == c.volume && d.openInterest == c.openInterest && d.bid == c.bid && d.ask == c.ask
    && d.contractSize == c.contractSize && d.impliedVolatility == c.impliedVolatility
    && d.inTheMoney == c.inTheMoney
  }

  /** `date` names the day of the Unix time `ts`: it reads back as that day's
      midnight. */
  predicate DateOf(date: string, ts: int) {
    ParseDate(date) == Some(ts / SecondsPerDay * SecondsPerDay)
  }

  /** The rendering of a time stamp of a four-digit year names its day. */
  lemma DateOfFormat(ts: int)
    ensures FourDigitYear(ts) ==> DateOf(FormatDate(ts), ts)
  {
    if FourDigitYear(ts) {
      ParseFormatDate(ts);
    }
  }

  /** `d` is the detail of `c`: the same terms, with its expiration and last
      trade rendered as dates. */
  predicate Renders(c: Contract, d: OptionDetail) {
    && SameTerms(c, d)
    && d.expiration == FormatDate(c.expiration)
    && d.lastTradeDate == FormatDate(c.lastTradeDate)
  }

  /** The two dates of a detail name the days of the contract's time stamps,
      for four-digit years. */
  lemma RendersPresents(c: Contract, d: OptionDetail)
    requires Renders(c, d)
    ensures Presents(c, d)
  {
    DateOfFormat(c.expiration);
    DateOfFormat(c.lastTradeDate);
  }

  /** The OptionDetail transformData builds for one contract. */
  function Detail(c: Contract): OptionDetail {
    OptionDetail(
      contractSymbol := c.contractSymbol,
      strike := c.strike,
      currency := c.currency,
      lastPrice := c.lastPrice,
      change := c.change,
      percentChange := c.percentChange,
      volume := c.volume,
      openInterest := c.openInterest,
      bid := c.bid,
      ask := c.ask,
      contractSize := c.contractSize,
      expiration := FormatDate(c.expiration),
      lastTradeDate := FormatDate(c.lastTradeDate),
      impliedVolatility := c.impliedVolatility,
      inTheMoney := c.inTheMoney)
  }

  /** `f` applied to every element of `s`, appended one by one. */
  function MapSeq<A, B>(f: A -> B, s: seq<A>): seq<B> {
    if |s| == 0 then [] else MapSeq(f, s[..|s| - 1]) + [f(s[|s| - 1])]
  }

  /** Mapping one more element appends its image. */
  lemma MapSeqStep<A, B>(f: A -> B, s: seq<A>, i: nat)
    requires i < |s|
    ensures MapSeq(f, s[..i + 1]) == MapSeq(f, s[..i]) + [f(s[i])]
  {
    assert s[..i + 1][..i] == s[..i];
  }

  /** The image at each position is the image of the element there. */
  lemma {:induction false} MapSeqAt<A, B>(f: A -> B, s: seq<A>)
    ensures |MapSeq(f, s)| == |s|
    ensures forall i :: 0 <= i < |s| ==> MapSeq(f, s)[i] == f(s[i])
  {
    if |s| > 0 {
      var init := s[..|s| - 1];
      MapSeqAt(f, init);
      forall i | 0 <= i < |s|
        ensures MapSeq(f, s)[i] == f(s[i])
      {
        if i < |init| {
          assert s[i] == init[i];
        }
      }
    }
  }

  /** The flattening of the first expiry of the first result. */
  function Flatten(data: OptionResponse): OptionData
    requires |data.result| > 0 && |data.result[0].options| > 0
  {
    var expiry := data.result[0].options[0];
    OptionData(
      FormatDate(expiry.expirationDate), data.result[0].hasMiniOptions,
      MapSeq(Detail, expiry.calls), MapSeq(Detail, expiry.puts))
  }

  /** Option.transformData: the calls and puts of the first expiry, element by
      element and in order; the expiration date from that expiry, the
      mini-options flag from the result. */
  method TransformData(data: OptionResponse) returns (out: OptionData)
    requires |data.result| > 0 && |data.result[0].options| > 0
    ensures out == Flatten(data)
  {
    var expiry := data.result[0].options[0];
    var date := FormatDate(expiry.expirationDate);
    var calls: seq<OptionDetail> := [];
    var puts: seq<OptionDetail> := [];
    for i := 0 to |expiry.calls|
      invariant calls == MapSeq(Detail, expiry.calls[..i])
    {
      MapSeqStep(Detail, expiry.calls, i);
      calls := calls + [Detail(expiry.calls[i])];
    }
    for i := 0 to |expiry.puts|
      invariant puts == MapSeq(Detail, expiry.puts[..i])
    {
      MapSeqStep(Detail, expiry.puts, i);
      puts := puts + [Detail(expiry.puts[i])];
    }
    assert expiry.calls[..|expiry.calls|] == expiry.calls;
    assert expiry.puts[..|expiry.puts|] == expiry.puts;
    out := OptionData(date, data.result[0].hasMiniOptions, calls, puts);
  }

  /** A detail renders its contract. */
  lemma DetailRenders(c: Contract)
    ensures Renders(c, Detail(c))
  {
  }

  /** `d` presents `c`: the same terms, and dates naming the days of its
      time stamps where those fall in four-digit years. */
  predicate Presents(c: Contract, d: OptionDetail) {
    && SameTerms(c, d)
    && (FourDigitYear(c.expiration) ==> DateOf(d.expiration, c.expiration))
    && (FourDigitYear(c.lastTradeDate) ==> DateOf(d.lastTradeDate, c.lastTradeDate))
  }

  /** The flattening keeps one detail per call and per put, in order; each
      carries its contract's terms and dates naming the days of its time
      stamps, and the expiration date names the day of the expiry. */
  lemma FlattenedContracts(data: OptionResponse)
    requires |data.result| > 0 && |data.result[0].options| > 0
    ensures var expiry, out := data.result[0].options[0], Flatten(data);
      && out.hasMiniOptions == data.result[0].hasMiniOptions
      && |out.calls| == |expiry.calls| && |out.puts| == |expiry.puts|
      && (forall i :: 0 <= i < |out.calls| ==> Presents(expiry.calls[i], out.calls[i]))
      && (forall i :: 0 <= i < |out.puts| ==> Presents(expiry.puts[i], out.puts[i]))
      && (FourDigitYear(expiry.expirationDate) ==> DateOf(out.expirationDate, expiry.expirationDate))
  {
    var expiry, out := data.result[0].options[0], Flatten(data);
    MapSeqAt(Detail, expiry.calls);
    MapSeqAt(Detail, expiry.puts);
    forall i | 0 <= i < |out.calls|
      ensures Presents(expiry.calls[i], out.calls[i])
    {
      DetailRenders(expiry.calls[i]);
      RendersPresents(expiry.calls[i], out.calls[i]);
    }
    forall i | 0 <= i < |out.puts|
      ensures Presents(expiry.puts[i], out.puts[i])
    {
      DetailRenders(expiry.puts[i]);
      RendersPresents(expiry.puts[i], out.puts[i]);
    }
    DateOfFormat(expiry.expirationDate);
  }

  /** GetExpirationDates: one date per expiration time stamp of the first
      result, in the same order. */
  method GetExpirationDates(symbol: string, reply: Reply<OptionResponse>) returns (dates: seq<string>)
    requires |GetOptionChain(reply).result| > 0
    ensures |dates| == |GetOptionChain(reply).result[0].expirationDates|
    ensures forall i :: 0 <= i < |dates| ==> dates[i] == FormatDate(GetOptionChain(reply).result[0].expirationDates[i])
  {
    var chain := GetOptionChain(reply);
    var stamps := chain.result[0].expirationDates;
    dates := [];
    for i := 0 to |stamps|
      invariant |dates| == i
      invariant forall k :: 0 <= k < i ==> dates[k] == FormatDate(stamps[k])
    {
      dates := dates + [FormatDate(stamps[i])];
    }
  }

  /** The expiration dates name the days of their time stamps and keep their
      order: for four-digit years, one date sorts before another exactly when
      its day is earlier. */
  lemma ExpirationDatesOrder(stamps: seq<Int64>, dates: seq<string>, i: int, j: int)
    requires |dates| == |stamps| && forall k :: 0 <= k < |dates| ==> dates[k] == FormatDate(stamps[k])
    requires 0 <= i < |dates| && 0 <= j < |dates|
    requires FourDigitYear(stamps[i]) && FourDigitYear(stamps[j])
    ensures DateOf(dates[i], stamps[i])
    ensures Less(dates[i], dates[j]) <==> stamps[i] / SecondsPerDay < stamps[j] / SecondsPerDay
  {
    ParseFormatDate(stamps[i]);
    FormatDateOrder(stamps[i], stamps[j]);
  }
}
