/**
 * The decision-to-order step of one trading cycle on the KRW-BTC market:
 * the advisor's parsed answer, the won and bitcoin balances and (on the sell
 * path) the current price give at most one market order.
 * Exchange calls and console messages are represented by the returned value.
 */
module Trading {
  import opened Wrappers

  /** Smallest order value, in won, the cycle will submit; the guard is strict. */
  const MinOrderKrw: real := 5000.0

  /** Share of a balance put into a market order (0.3% kept back for fees);
      the buy and the sell path use the same factor. */
  const FeeFactor: real := 0.997

  /** The order the cycle places: none, a market buy spending `amount` won,
      or a market sell of `amount` bitcoin. */
  datatype Intent = NoOp | Buy(amount: real) | Sell(amount: real)

  /** Which branch message the cycle prints after the decision and reason
      lines: order executed, order failed for lack of funds, or hold.
      `Unrecognised` means an unknown decision, for which nothing more is
      printed. */
  datatype Outcome = Executed | SkippedInsufficient | Hold | Unrecognised

  datatype Step = Step(intent: Intent, outcome: Outcome)

  /** A parsed JSON value, as the advisor's answer decodes to. */
  datatype Json =
    | JNull
    | JBool(b: bool)
    | JNumber(n: real)
    | JString(s: string)
    | JArray(items: seq<Json>)
    | JObject(members: map<string, Json>)

  /** Why a cycle stops before the order step: a key the answer lacks
      (Python's KeyError), or a decision that is not a string and so has no
      `upper` method (Python's AttributeError). */
  datatype CycleError = MissingKey(key: string) | DecisionNotString

  /** The amount put into an order drawn from `balance`. */
  function OrderSize(balance: real): (a: real)
    ensures balance > 0.0 ==> 0.0 < a < balance
    ensures balance == 0.0 ==> a == 0.0
    ensures balance - a == balance * (1.0 - FeeFactor)
  {
    balance * FeeFactor
  }

  /** The buy/sell/hold branch: exact, case-sensitive comparison of the
      decision string, then the strict minimum-value guard of the chosen side. */
  function Decide(decision: string, krw: real, btc: real, price: real): (r: Step)
    ensures r.intent.Buy? <==> decision == "buy" && krw > MinOrderKrw
    ensures r.intent.Buy? ==> r.intent.amount == OrderSize(krw)
    ensures r.intent.Sell? <==> decision == "sell" && btc * price > MinOrderKrw
    ensures r.intent.Sell? ==> r.intent.amount == OrderSize(btc)
    ensures r.outcome == Executed <==> !r.intent.NoOp?
    ensures r.outcome == SkippedInsufficient <==>
              (decision == "buy" && krw <= MinOrderKrw) ||
              (decision == "sell" && btc * price <= MinOrderKrw)
    ensures r.outcome == Hold <==> decision == "hold"
    ensures r.outcome == Unrecognised <==> decision !in ["buy", "sell", "hold"]
  {
    if decision == "buy" then
      if krw > MinOrderKrw then Step(Buy(OrderSize(krw)), Executed)
      else Step(NoOp, SkippedInsufficient)
    else if decision == "sell" then
      if btc * price > MinOrderKrw then Step(Sell(OrderSize(btc)), Executed)
      else Step(NoOp, SkippedInsufficient)
    else if decision == "hold" then
      Step(NoOp, Hold)
    else
      Step(NoOp, Unrecognised)
  }

  /** The cycle from the parsed answer on: read "decision" (upper-casing it
      for display), read "reason", then take the order step. Any failure
      happens before an order is placed. */
  function RunCycle(advice: map<string, Json>, krw: real, btc: real, price: real): (r: Result<Step, CycleError>)
    ensures r == Failure(MissingKey("decision")) <==> "decision" !in advice
    ensures r == Failure(DecisionNotString) <==> "decision" in advice && !advice["decision"].JString?
    ensures r == Failure(MissingKey("reason")) <==>
              "decision" in advice && advice["decision"].JString? && "reason" !in advice
    ensures r.Success? <==>
              "decision" in advice && advice["decision"].JString? && "reason" in advice
    ensures r.Success? ==> r.value == Decide(advice["decision"].s, krw, btc, price)
  {
    if "decision" !in advice then Failure(MissingKey("decision"))
    else if !advice["decision"].JString? then Failure(DecisionNotString)
    else if "reason" !in advice then Failure(MissingKey("reason"))
    else Success(Decide(advice["decision"].s, krw, btc, price))
  }

  /** A hold decision never places an order, whatever the balances. */
  lemma HoldNeverOrders(krw: real, btc: real, price: real)
    ensures Decide("hold", krw, btc, price) == Step(NoOp, Hold)
  {
  }

  /** A buy of exactly `krw * 0.997` won happens precisely when the decision is
      "buy" and more than 5000 won is held; 5000 won itself is skipped. */
  lemma BuyExactly(decision: string, krw: real, btc: real, price: real)
    ensures Decide(decision, krw, btc, price).intent == Buy(krw * 0.997) <==>
              decision == "buy" && krw > 5000.0
    ensures Decide("buy", 5000.0, btc, price) == Step(NoOp, SkippedInsufficient)
  {
  }

  /** A buy never spends more than the won balance, and never nothing. */
  lemma BuyWithinBalance(decision: string, krw: real, btc: real, price: real)
    requires Decide(decision, krw, btc, price).intent.Buy?
    ensures 0.0 < Decide(decision, krw, btc, price).intent.amount < krw
  {
  }

  /** A sell of exactly `btc * 0.997` happens precisely when the decision is
      "sell" and the bitcoin held is worth more than 5000 won. */
  lemma SellExactly(decision: string, krw: real, btc: real, price: real)
    ensures Decide(decision, krw, btc, price).intent == Sell(btc * 0.997) <==>
              decision == "sell" && btc * price > 5000.0
  {
  }

  /** With a non-negative bitcoin balance, a sell is positive and less than it. */
  lemma SellWithinBalance(decision: string, krw: real, btc: real, price: real)
    requires btc >= 0.0
    requires Decide(decision, krw, btc, price).intent.Sell?
    ensures 0.0 < Decide(decision, krw, btc, price).intent.amount < btc
  {
  }

  /** Only the three exact lower-case strings are acted on; "BUY" and the like
      place nothing and print no branch message. */
  lemma OtherDecisionsPlaceNothing(decision: string, krw: real, btc: real, price: real)
    requires decision != "buy" && decision != "sell" && decision != "hold"
    ensures Decide(decision, krw, btc, price) == Step(NoOp, Unrecognised)
    ensures Decide("BUY", krw, btc, price) == Step(NoOp, Unrecognised)
    ensures Decide("Sell", krw, btc, price) == Step(NoOp, Unrecognised)
  {
  }

  /** The two order branches exclude each other: a buy only on "buy", a sell
      only on "sell", so one cycle places at most one order. */
  lemma AtMostOneOrder(decision: string, krw: real, btc: real, price: real)
    ensures Decide(decision, krw, btc, price).intent.Buy? ==> decision == "buy"
    ensures Decide(decision, krw, btc, price).intent.Sell? ==> decision == "sell"
  {
  }

  /** The price is fetched on the sell path only, and only there does it matter;
      the buy path ignores the bitcoin balance and the sell path the won balance. */
  lemma InputsEachPathReads(decision: string, krw: real, btc: real, price: real,
                            krw': real, btc': real, price': real)
    ensures decision != "sell" ==>
              Decide(decision, krw, btc, price) == Decide(decision, krw, btc', price')
    ensures decision != "buy" ==>
              Decide(decision, krw, btc, price) == Decide(decision, krw', btc, price)
  {
  }

  /** The reason text and any further keys of the answer do not influence
      the order. */
  lemma ReasonDoesNotMatter(advice: map<string, Json>, reason: Json, key: string, extra: Json,
                            krw: real, btc: real, price: real)
    requires "reason" in advice
    requires key != "decision"
    ensures RunCycle(advice["reason" := reason], krw, btc, price) == RunCycle(advice, krw, btc, price)
    ensures RunCycle(advice[key := extra], krw, btc, price) == RunCycle(advice, krw, btc, price)
  {
  }

  /** A well-formed answer yields the order step of its decision string. */
  lemma WellFormedAnswer(decision: string, reason: string, krw: real, btc: real, price: real)
    ensures RunCycle(map["decision" := JString(decision), "reason" := JString(reason)], krw, btc, price)
              == Success(Decide(decision, krw, btc, price))
  {
  }

  /** Sample cycles: 10000 won bought with 9970 won, 4000 won skipped, and
      0.01 bitcoin at 100,000,000 won sold as 0.00997 bitcoin. */
  lemma Scenarios()
    ensures Decide("buy", 10000.0, 0.0, 0.0) == Step(Buy(9970.0), Executed)
    ensures Decide("buy", 4000.0, 0.0, 0.0) == Step(NoOp, SkippedInsufficient)
    ensures Decide("sell", 0.0, 0.01, 100000000.0) == Step(Sell(0.00997), Executed)
    ensures Decide("sell", 0.0, 0.00004, 100000000.0) == Step(NoOp, SkippedInsufficient)
  {
  }
}
