/**
 * The peer-to-peer market reader: the market of a (base, quote) token pair
 * as order-book lists and trade history with a human age per trade, and
 * the pair's market price taken from the best order on each side.
 */
module PeerToPeer {
  import opened Common

  /** The market id every pair query uses: both addresses lower-cased, joined by a colon. */
  function MarketId(base: string, quote: string): (id: string)
    ensures id == Lower(base) + ":" + Lower(quote)
    ensures |id| == |base| + |quote| + 1 && id[|base|] == ':'
  {
    Lower(base) + ":" + Lower(quote)
  }

  /** Addresses that differ only in letter case name the same market. */
  lemma MarketIdIgnoresCase(b1: string, q1: string, b2: string, q2: string)
    requires EqualsIgnoreCase(b1, b2) && EqualsIgnoreCase(q1, q2)
    ensures MarketId(b1, q1) == MarketId(b2, q2)
  {
  }

  /** Colon-free addresses are recovered, lower-cased, from their market id. */
  lemma MarketIdSplits(base: string, quote: string)
    requires ':' !in base
    ensures var id := MarketId(base, quote);
      FirstIndex(id, ':') == |base| && id[..|base|] == Lower(base) && id[|base| + 1..] == Lower(quote)
  {
    var id := MarketId(base, quote);
    assert id[..|base|] == Lower(base);
    assert id[|base| + 1..] == Lower(quote);
    forall j | 0 <= j < |base|
      ensures id[j] != ':'
    {
      assert base[j] != ':';
    }
    FirstIndexAt(id, ':', |base|);
  }

  // ---------------------------------------------------------------------
  // Ages
  // ---------------------------------------------------------------------

  datatype Age = SecondsAgo(seconds: real) | MinsAgo(mins: int) | HoursAgo(hours: int) | DaysAgo(days: int)

  /** Seconds between a trade's timestamp (in seconds) and the clock (in milliseconds). */
  function DiffSeconds(timestamp: int, nowMs: int): real
  {
    (nowMs - timestamp * 1000) as real / 1000.0
  }

  /** The coarsest unit whose threshold the age passes, the thresholds being strict. */
  function AgeOf(diff: real): Age
  {
    if diff > 86400.0 then DaysAgo((diff / 86400.0).Floor)
    else if diff > 3600.0 then HoursAgo((diff / 3600.0).Floor)
    else if diff > 60.0 then MinsAgo((diff / 60.0).Floor)
    else SecondsAgo(diff)
  }

  /** `getAge`: the message is overwritten by each threshold it passes, in increasing order. */
  method GetAge(timestamp: int, nowMs: int) returns (message: Age)
    ensures message == AgeOf(DiffSeconds(timestamp, nowMs))
  {
    var executionTime := timestamp * 1000;
    var diffSeconds := (nowMs - executionTime) as real / 1000.0;
    message := SecondsAgo(diffSeconds);
    if diffSeconds > 60.0 {
      message := MinsAgo((diffSeconds / 60.0).Floor);
    }
    if diffSeconds > 3600.0 {
      message := HoursAgo((diffSeconds / 3600.0).Floor);
    }
    if diffSeconds > 86400.0 {
      message := DaysAgo((diffSeconds / 86400.0).Floor);
    }
  }

  /** Each unit covers its own range: up to a minute in seconds, then 1–60 mins, 1–24 hours, 1 day or more. */
  lemma AgeRanges(diff: real)
    ensures AgeOf(diff).SecondsAgo? <==> diff <= 60.0
    ensures AgeOf(diff).MinsAgo? <==> 60.0 < diff <= 3600.0
    ensures AgeOf(diff).HoursAgo? <==> 3600.0 < diff <= 86400.0
    ensures AgeOf(diff).DaysAgo? <==> 86400.0 < diff
    ensures AgeOf(diff).MinsAgo? ==> 1 <= AgeOf(diff).mins <= 60
    ensures AgeOf(diff).HoursAgo? ==> 1 <= AgeOf(diff).hours <= 24
    ensures AgeOf(diff).DaysAgo? ==> AgeOf(diff).days >= 1
  {
  }

  // ---------------------------------------------------------------------
  // Orders and trades
  // ---------------------------------------------------------------------

  /** A bid or ask as the market query returns it. */
  datatype RawOrder = RawOrder(id: string, owner: string, baseAmount: string, quoteAmount: string, price: string)

  /** An order as the order book shows it: booked in the base token, executed in the quote token. */
  datatype PeerToPeerOrder = PeerToPeerOrder(orderId: string, owner: string, execAmount: string, bookAmount: string, price: string)

  function ToOrder(o: RawOrder): PeerToPeerOrder
  {
    PeerToPeerOrder(o.id, o.owner, o.quoteAmount, o.baseAmount, o.price)
  }

  /** The mapping loses nothing: the raw order is recovered from the shown one. */
  function FromOrder(o: PeerToPeerOrder): RawOrder
  {
    RawOrder(o.orderId, o.owner, o.bookAmount, o.execAmount, o.price)
  }

  lemma OrderRoundTrip(o: RawOrder, p: PeerToPeerOrder)
    ensures FromOrder(ToOrder(o)) == o
    ensures ToOrder(FromOrder(p)) == p
  {
  }

  function ToOrders(raw: seq<RawOrder>): (orders: seq<PeerToPeerOrder>)
    ensures |orders| == |raw|
    ensures forall i :: 0 <= i < |raw| ==> orders[i] == ToOrder(raw[i])
  {
    seq(|raw|, i requires 0 <= i < |raw| => ToOrder(raw[i]))
  }

  /** Ids, owners and prices keep their order and their values through the order-book mapping. */
  lemma ToOrdersInjective(a: seq<RawOrder>, b: seq<RawOrder>)
    requires ToOrders(a) == ToOrders(b)
    ensures a == b
  {
    assert |a| == |b|;
    forall i | 0 <= i < |a|
      ensures a[i] == b[i]
    {
      OrderRoundTrip(a[i], ToOrder(a[i]));
      OrderRoundTrip(b[i], ToOrder(b[i]));
      assert ToOrders(a)[i] == ToOrders(b)[i];
    }
  }

  datatype Trade = Trade(id: string, timestamp: int, price: string, baseAmount: string, quoteAmount: string,
                         baseCurrencyId: string, quoteCurrencyId: string)

  datatype PeerToPeerTransaction = PeerToPeerTransaction(trade: Trade, age: Age, baseToken: string, quoteToken: string)

  function ToTransaction(t: Trade, nowMs: int): (tx: PeerToPeerTransaction)
    ensures tx.trade == t && tx.age == AgeOf(DiffSeconds(t.timestamp, nowMs))
    ensures tx.baseToken == t.baseCurrencyId && tx.quoteToken == t.quoteCurrencyId
  {
    PeerToPeerTransaction(t, AgeOf(DiffSeconds(t.timestamp, nowMs)), t.baseCurrencyId, t.quoteCurrencyId)
  }

  datatype PeerToPeerMarket = PeerToPeerMarket(buyOrders: seq<PeerToPeerOrder>, sellOrders: seq<PeerToPeerOrder>,
                                               transactions: seq<PeerToPeerTransaction>)

  /** The market query's outcome: it threw, found no market, or returned the market's lists. */
  datatype MarketReply = MarketQueryFailed | NoMarket | MarketFound(bids: seq<RawOrder>, asks: seq<RawOrder>, trades: seq<Trade>)

  const EmptyMarket: PeerToPeerMarket := PeerToPeerMarket([], [], [])

  /**
   * `getMarket`: bids become buy orders, asks sell orders, and trades gain
   * their age; a missing market or a failed query gives empty lists, the
   * failure with an error notice.
   */
  function GetMarket(reply: MarketReply, nowMs: int): (r: (PeerToPeerMarket, bool))
    ensures r.1 <==> reply.MarketQueryFailed?
    ensures !reply.MarketFound? ==> r.0 == EmptyMarket
    ensures reply.MarketFound? ==>
      r.0.buyOrders == ToOrders(reply.bids) && r.0.sellOrders == ToOrders(reply.asks)
    ensures reply.MarketFound? ==>
      (|r.0.transactions| == |reply.trades|
       && forall i :: 0 <= i < |reply.trades| ==> r.0.transactions[i] == ToTransaction(reply.trades[i], nowMs))
  {
    match reply
    case MarketQueryFailed => (EmptyMarket, true)
    case NoMarket => (EmptyMarket, false)
    case MarketFound(bids, asks, trades) =>
      (PeerToPeerMarket(ToOrders(bids), ToOrders(asks),
         seq(|trades|, i requires 0 <= i < |trades| => ToTransaction(trades[i], nowMs))), false)
  }

  // ---------------------------------------------------------------------
  // Pair market price
  // ---------------------------------------------------------------------

  /**
   * The two price queries: one threw, or both answered with their order
   * prices best first (`None` where the answer carries no data, which makes
   * the copy of the list throw).
   */
  datatype PriceReply = PriceQueryFailed | PriceLists(buyPrices: Option<seq<string>>, sellPrices: Option<seq<string>>)

  datatype PairPrice = NoPrice | Quoted(price: string) | Midpoint(value: Option<real>)

  /** A price string read as BigNumber reads `price || '0'`; `None` is NaN. */
  function PriceValue(price: string): Option<real>
  {
    var p := ParseDecimal(if price == "" then "0" else price);
    if p.Some? then Some(DecimalValue(p.value)) else None
  }

  function MidpointOf(sell: string, buy: string): Option<real>
  {
    var s := PriceValue(sell);
    var b := PriceValue(buy);
    if s.Some? && b.Some? then Some((s.value + b.value) / 2.0) else None
  }

  /**
   * `getTokensPairMarketPrice`: with orders on one side only, that side's
   * best price as sent; with both, the midpoint of the best buy and sell;
   * with none or on failure, nothing (the failure with an error notice).
   */
  function PairMarketPrice(reply: PriceReply): (r: (PairPrice, bool))
    ensures r.1 <==> reply.PriceQueryFailed? || (reply.PriceLists? && (reply.buyPrices.None? || reply.sellPrices.None?))
    ensures r.0.Quoted? ==>
      (reply.PriceLists? && reply.buyPrices.Some? && reply.sellPrices.Some?
       && ((reply.buyPrices.value == [] && reply.sellPrices.value != [] && r.0.price == reply.sellPrices.value[0])
           || (reply.sellPrices.value == [] && reply.buyPrices.value != [] && r.0.price == reply.buyPrices.value[0])))
    ensures reply.PriceLists? && reply.buyPrices.Some? && reply.sellPrices.Some?
            && reply.buyPrices.value == [] && reply.sellPrices.value != [] ==>
      r.0 == Quoted(reply.sellPrices.value[0])
    ensures reply.PriceLists? && reply.buyPrices.Some? && reply.sellPrices.Some?
            && reply.sellPrices.value == [] && reply.buyPrices.value != [] ==>
      r.0 == Quoted(reply.buyPrices.value[0])
    ensures r.0 == NoPrice <==>
      reply.PriceQueryFailed? || reply.buyPrices.None? || reply.sellPrices.None?
      || (reply.buyPrices.value == [] && reply.sellPrices.value == [])
    ensures r.0.Midpoint? <==>
      (reply.PriceLists? && reply.buyPrices.Some? && reply.sellPrices.Some?
       && reply.buyPrices.value != [] && reply.sellPrices.value != [])
    ensures r.0.Midpoint? ==> r.0.value == MidpointOf(reply.sellPrices.value[0], reply.buyPrices.value[0])
  {
    match reply
    case PriceQueryFailed => (NoPrice, true)
    case PriceLists(buys, sells) =>
      if buys.None? || sells.None? then (NoPrice, true)
      else if buys.value == [] && sells.value == [] then (NoPrice, false)
      else if buys.value == [] then (Quoted(sells.value[0]), false)
      else if sells.value == [] then (Quoted(buys.value[0]), false)
      else (Midpoint(MidpointOf(sells.value[0], buys.value[0])), false)
  }

  /** The midpoint lies between the two best prices. */
  lemma MidpointBetween(sell: string, buy: string)
    requires MidpointOf(sell, buy).Some?
    ensures var m := MidpointOf(sell, buy).value;
      var s := PriceValue(sell).value;
      var b := PriceValue(buy).value;
      (s <= m <= b) || (b <= m <= s)
  {
  }

  /** With no order on either side there is no price, and nothing is notified. */
  lemma NoOrdersNoPrice()
    ensures PairMarketPrice(PriceLists(Some([]), Some([]))) == (NoPrice, false)
  {
  }
}
