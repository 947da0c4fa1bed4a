/** Rows of the trading database and the answers an exchange may give. */
module Records {
  import opened Numeric
  import opened Options
  import opened OrderMath
  import G = FinalGate

  datatype PlanStatus = Approved | Blocked | PaperExecuted | TestnetExecuted | TestnetClosed

  datatype Plan = Plan(symbol: string, side: string, entry: real, stopLoss: real, takeProfit: real,
                       capital: real, riskPct: real, notional: real, status: PlanStatus)

  datatype OrderKind = Market | StopOrder | TakeProfitOrder

  /** A status word after trimming and lower-casing. */
  datatype Status = New | PendingNew | PartiallyFilled | Filled | Triggered | Success
                  | Canceled | Expired | Rejected | OtherStatus(word: string)

  datatype Order = Order(planId: nat, external: string, kind: OrderKind, status: Status,
                         price: real, quantity: real, executed: real)

  datatype Position = Position(planId: nat, symbol: string, side: string, quantity: real, entry: real,
                               mark: real, pnl: real, leverage: int, isOpen: bool)

  datatype EventKind =
    | Decided(event: G.PlanEvent)
    | PaperBlocked
    | ExecutionDisabledEvent | BlockedNotApproved | BlockedExistingPosition(position: nat)
    | StepSizeMissing | QuantityInvalid | SideInvalid | CredentialsMissingEvent | RuntimeErrorEvent | SendError
    | OrderRefreshFailed | TradesLookupFailed | PositionRiskFailed | LeverageFallback
    | CleanupFailed(ref: string)
    | ProtectionFailed(stop: real, profit: real, fill: real, mark: real)
    | ProtectionSubmitted(stopRef: string, profitRef: string)
    | ExecutionSubmitted
    | LocalMarkUnavailable | LocalExitFailed(kind: OrderKind) | LocalExitNotFilled(kind: OrderKind)
    | LocalExitTriggered(kind: OrderKind)
    | ExitRefreshFailed(ref: string)
    | ExitOrderFilled(kind: OrderKind)
    | SiblingCancelUnavailable(ref: string) | SiblingCancelFailed(ref: string)

  datatype Event = Event(planId: nat, kind: EventKind)

  /** The tables; a row's id is its position in the table. */
  datatype Db = Db(plans: seq<Plan>, orders: seq<Order>, positions: seq<Position>, events: seq<Event>)

  // ----- What the exchange may answer -----

  /** A field of a reply: absent (or empty), numeric (or a numeric string), or anything else. */
  datatype Field = Missing | Num(number: real) | Word(text: string) {
    function ToFloat(fallback: real): real { if Num? then number else fallback }
  }

  /** An id of a reply: absent, a number, or a text; a zero and an empty text count as no id where one is used. */
  datatype Ident = NoId | Number(n: int) | Label(text: string) {
    predicate Truthy() {
      match this
      case NoId => false
      case Number(n) => n != 0
      case Label(text) => text != ""
    }

    predicate Empty() { this in [NoId, Label("")] }

    function AsText(): string {
      match this
      case NoId => ""
      case Number(n) => if n < 0 then "-" + Digits(-n) else Digits(n)
      case Label(text) => text
    }

    /** A number, or a text that reads as a whole number. */
    predicate Numeric() { Number? || (Label? && IsNumeral(Strip(text))) }

    predicate Positive()
      requires Numeric()
    {
      match this
      case Number(n) => n > 0
      case Label(text) => var t := Strip(text); t[0] != '-' && exists i :: 0 <= i < |t| && '1' <= t[i] <= '9'
    }
  }

  /** An optional sign, then digits, single underscores between them. */
  predicate IsNumeral(s: string) {
    var t := if s != "" && s[0] in "+-" then s[1..] else s;
    && t != "" && t[0] != '_' && t[|t| - 1] != '_'
    && forall i :: 0 <= i < |t| ==> '0' <= t[i] <= '9' || (t[i] == '_' && i > 0 && t[i - 1] != '_')
  }

  datatype Payload = Payload(status: Option<Status>, orderId: Ident, clientOrderId: Ident,
                             avgPrice: Field, price: Field, executedQty: Field, cumQuote: Field)

  datatype AlgoPayload = AlgoPayload(algoId: Ident, clientAlgoId: Ident,
                                     algoStatus: Option<Status>, plainStatus: Option<Status>,
                                     actualOrderId: Ident)

  datatype Trade = Trade(qty: Field, price: Field, quoteQty: Field)

  // ----- Order references -----

  datatype ExchangeRef = AlgoId(digits: string) | ClientAlgo(id: string)
                       | OrderId(number: string) | ClientOrder(client: string)
  {
    predicate IsAlgo() { AlgoId? || ClientAlgo? }
  }

  predicate IsSpace(c: char) { c in " \t\n\r" }

  function Strip(s: string): string
    decreases |s|
  {
    if s == "" then s
    else if IsSpace(s[0]) then Strip(s[1..])
    else if IsSpace(s[|s| - 1]) then Strip(s[..|s| - 1])
    else s
  }

  predicate IsDigits(s: string) { s != "" && Plain(s) }

  const ALGO := "algo:"
  const ALGO_CLIENT := "algo_client:"

  /** None stands for the error raised on an empty reference. */
  function ResolveRef(external: string): Option<ExchangeRef> {
    var ref := Strip(external);
    if ref == "" then None
    else if ALGO <= ref then
      var id := ref[|ALGO|..];
      Some(if IsDigits(id) then AlgoId(id) else ClientAlgo(id))
    else if ALGO_CLIENT <= ref then Some(ClientAlgo(ref[|ALGO_CLIENT|..]))
    else if IsDigits(ref) then Some(OrderId(ref))
    else Some(ClientOrder(ref))
  }

  function AlgoExternalId(p: AlgoPayload, clientId: string): string {
    if !p.algoId.Empty() then ALGO + p.algoId.AsText()
    else ALGO_CLIENT + Strip(if p.clientAlgoId.Truthy() then p.clientAlgoId.AsText() else clientId)
  }

  function LegacyExternalId(p: Payload, clientId: string): string {
    if p.orderId.Truthy() then p.orderId.AsText()
    else if p.clientOrderId.Truthy() then p.clientOrderId.AsText()
    else clientId
  }

  /** A stored algo reference is always recognised as one when it is resolved again. */
  lemma {:induction false} AlgoIdsResolveToAlgo(p: AlgoPayload, clientId: string)
    ensures ResolveRef(AlgoExternalId(p, clientId)).Some?
    ensures ResolveRef(AlgoExternalId(p, clientId)).value.IsAlgo()
  {
    var tail := if !p.algoId.Empty() then p.algoId.AsText()
                else Strip(if p.clientAlgoId.Truthy() then p.clientAlgoId.AsText() else clientId);
    if !p.algoId.Empty() {
      StripKeepsPrefix(ALGO, tail);
    } else {
      StripKeepsPrefix(ALGO_CLIENT, tail);
      assert ALGO[4] == ':' && ALGO_CLIENT[4] == '_';
    }
  }

  lemma {:induction false} StripKeepsPrefix(prefix: string, tail: string)
    requires prefix != "" && !IsSpace(prefix[0]) && !IsSpace(prefix[|prefix| - 1])
    ensures prefix <= Strip(prefix + tail)
    decreases |tail|
  {
    var s := prefix + tail;
    if tail == "" {
      assert s == prefix;
    } else if IsSpace(s[|s| - 1]) {
      assert s[..|s| - 1] == prefix + tail[..|tail| - 1];
      StripKeepsPrefix(prefix, tail[..|tail| - 1]);
    }
  }

  // ----- Reply interpretation -----

  function AlgoStatus(p: AlgoPayload): Status {
    var raw := if p.algoStatus.Some? then p.algoStatus.value
               else if p.plainStatus.Some? then p.plainStatus.value else New;
    match raw
    case PendingNew => New
    case Success => Filled
    case _ => raw
  }

  function PlainStatus(p: Payload, fallback: Status): Status {
    if p.status.Some? then p.status.value else fallback
  }

  function FillPrice(p: Payload, fallback: real): real {
    var price, qty, quote := p.price.ToFloat(0.0), p.executedQty.ToFloat(0.0), p.cumQuote.ToFloat(0.0);
    if p.avgPrice.ToFloat(0.0) > 0.0 then p.avgPrice.number
    else if price > 0.0 && p.status in [Some(Filled), Some(PartiallyFilled)] then price
    else if qty > 0.0 && quote > 0.0 then quote / qty
    else fallback
  }

  function Tolerance(requested: real): real { Max(0.000000000001, requested * 0.000000001) }

  function NormalizeStatus(raw: Option<Status>, executed: real, requested: real): Status {
    var status := if raw.Some? then raw.value else New;
    if executed <= 0.0 || status in [Filled, PartiallyFilled] then status
    else if executed >= Max(0.0, requested - Tolerance(requested)) then Filled
    else PartiallyFilled
  }

  // ----- Merging a refreshed reply -----

  /** Progress of an order; words outside the table rank below everything. */
  function Rank(s: Status): int {
    match s
    case New | PendingNew => 0
    case PartiallyFilled => 1
    case Canceled | Expired | Rejected => 2
    case Filled => 3
    case _ => -1
  }

  function PreferStatus(original: Option<Status>, refreshed: Option<Status>): Option<Status> {
    if refreshed.None? then original
    else if original.None? then refreshed
    else if Rank(original.value) == -1 && Rank(refreshed.value) == -1 then original
    else if Rank(refreshed.value) >= Rank(original.value) then refreshed
    else original
  }

  function PreferField(original: Field, refreshed: Field): Field {
    if refreshed.Missing? then original
    else if original.Missing? then refreshed
    else if !(original.Num? && refreshed.Num?) then original
    else if refreshed.number <= 0.0 < original.number then original
    else refreshed
  }

  function PreferId(original: Ident, refreshed: Ident): Ident {
    if refreshed.Empty() then original
    else if original.Empty() then refreshed
    else if !(original.Numeric() && refreshed.Numeric()) then original
    else if !refreshed.Positive() && original.Positive() then original
    else refreshed
  }

  function Merge(p: Payload, q: Payload): Payload {
    Payload(PreferStatus(p.status, q.status), PreferId(p.orderId, q.orderId),
            PreferId(p.clientOrderId, q.clientOrderId), PreferField(p.avgPrice, q.avgPrice),
            PreferField(p.price, q.price), PreferField(p.executedQty, q.executedQty),
            PreferField(p.cumQuote, q.cumQuote))
  }

  /** p carries at least the knowledge q has: nothing known is lost and no progress is undone. */
  predicate Improves(q: Payload, p: Payload) {
    && (q.status.Some? ==> p.status.Some? && Rank(p.status.value) >= Rank(q.status.value))
    && (q.status == Some(Filled) ==> p.status == Some(Filled))
    && (!q.orderId.Empty() ==> !p.orderId.Empty()) && (!q.clientOrderId.Empty() ==> !p.clientOrderId.Empty())
    && KeepsPositive(q.avgPrice, p.avgPrice) && KeepsPositive(q.price, p.price)
    && KeepsPositive(q.executedQty, p.executedQty) && KeepsPositive(q.cumQuote, p.cumQuote)
  }

  predicate KeepsPositive(before: Field, after: Field) {
    before.ToFloat(0.0) > 0.0 ==> after.ToFloat(0.0) > 0.0
  }

  /** A refreshed reply never downgrades the original, and merging the same reply twice changes nothing more. */
  lemma {:induction false} MergeNeverDowngrades(p: Payload, q: Payload)
    ensures Improves(p, Merge(p, q))
    ensures Merge(Merge(p, q), q) == Merge(p, q)
  {
    hide IsNumeral, Strip;
  }

  /** A positive number that the news bring is taken, unless the field held no number; without news it stays. */
  predicate TakesNumber(before: Field, news: Field, after: Field) {
    && (news.Num? && news.number > 0.0 && !before.Word? ==> after == news)
    && (news.Missing? ==> after == before)
    && (before.Missing? ==> after == news)
  }

  /** The word of an order moves on: news of a fill are taken from any word, news of an order that is over from any but
      Filled, news of a part fill from an order that was waiting; older news change nothing. */
  predicate TakesWord(before: Option<Status>, news: Option<Status>, after: Option<Status>) {
    var over := [Some(Canceled), Some(Expired), Some(Rejected)];
    var waiting := [None, Some(New), Some(PendingNew)];
    && (news == Some(Filled) ==> after == news)
    && (news in over && before != Some(Filled) ==> after == news)
    && (news == Some(PartiallyFilled) && before in waiting ==> after == news)
    && (news == Some(PartiallyFilled) && before in over ==> after == before)
    && (news in waiting && before !in waiting && (news.None? || before == Some(Filled) || before in over) ==>
          after == before)
  }

  /** A merged reply is up to date: it carries what the refreshed one knows beyond the original. */
  lemma {:induction false} MergeTakesNews(p: Payload, q: Payload)
    ensures var m := Merge(p, q);
      && TakesWord(p.status, q.status, m.status)
      && TakesNumber(p.avgPrice, q.avgPrice, m.avgPrice) && TakesNumber(p.price, q.price, m.price)
      && TakesNumber(p.executedQty, q.executedQty, m.executedQty) && TakesNumber(p.cumQuote, q.cumQuote, m.cumQuote)
  {
    hide PreferId;
  }

  datatype Confirmation = NotCallable | Raises | NoReply | Reply(payload: Payload)

  predicate NeedsRefresh(p: Payload) {
    var executed := p.executedQty.ToFloat(0.0);
    var deadUnfilled := p.status in [Some(Canceled), Some(Expired), Some(Rejected)] && executed <= 0.0;
    !deadUnfilled && (p.avgPrice.ToFloat(0.0) <= 0.0 || executed <= 0.0 || p.status in [Some(New), Some(PendingNew)])
  }

  /** The order as it is believed after the confirmation query; asking with an unusable order id fails too. */
  function Confirmed(p: Payload, c: Confirmation): Payload {
    if !NeedsRefresh(p) || c.NotCallable? || !AskableId(p.orderId) then p
    else match c
      case Reply(q) => Merge(p, q)
      case _ => p
  }

  /** What is no id is not asked with; anything else must read as a number. */
  predicate AskableId(id: Ident) { !id.Truthy() || id.Numeric() }

  predicate ConfirmationFails(p: Payload, c: Confirmation) {
    NeedsRefresh(p) && !c.NotCallable? && (c.Raises? || !AskableId(p.orderId))
  }

  // ----- Sums over fills -----

  function CountedQty(t: Trade): real { Max(0.0, t.qty.ToFloat(0.0)) }

  function CountedQuote(t: Trade): real {
    var qty, quote := t.qty.ToFloat(0.0), t.quoteQty.ToFloat(0.0);
    if qty <= 0.0 then 0.0 else if quote > 0.0 then quote else Times(t.price.ToFloat(0.0), qty)
  }

  function TotalQty(ts: seq<Trade>): real {
    if ts == [] then 0.0 else TotalQty(ts[..|ts| - 1]) + CountedQty(ts[|ts| - 1])
  }

  function TotalQuote(ts: seq<Trade>): real {
    if ts == [] then 0.0 else TotalQuote(ts[..|ts| - 1]) + CountedQuote(ts[|ts| - 1])
  }

  function SignedQty(ts: seq<Trade>): real {
    if ts == [] then 0.0 else SignedQty(ts[..|ts| - 1]) + ts[|ts| - 1].qty.ToFloat(0.0)
  }

  function PriceOfTrades(ts: seq<Trade>, fallback: real): real {
    if TotalQty(ts) > 0.0 && TotalQuote(ts) > 0.0 then TotalQuote(ts) / TotalQty(ts) else fallback
  }

  function QuantityOfTrades(ts: seq<Trade>, fallback: real): real {
    if SignedQty(ts) > 0.0 then SignedQty(ts) else fallback
  }

  method FillPriceFromTrades(ts: seq<Trade>, fallback: real) returns (price: real)
    ensures price == PriceOfTrades(ts, fallback)
  {
    var qty, quote := 0.0, 0.0;
    for i := 0 to |ts|
      invariant qty == TotalQty(ts[..i]) && quote == TotalQuote(ts[..i])
    {
      assert ts[..i + 1][..i] == ts[..i];
      var q := ts[i].qty.ToFloat(0.0);
      if q <= 0.0 {
        continue;
      }
      qty := qty + q;
      var reported := ts[i].quoteQty.ToFloat(0.0);
      quote := quote + if reported > 0.0 then reported else Times(ts[i].price.ToFloat(0.0), q);
    }
    assert ts[..|ts|] == ts;
    price := if qty > 0.0 && quote > 0.0 then quote / qty else fallback;
  }

  method ExecutedQuantityFromTrades(ts: seq<Trade>, fallback: real) returns (quantity: real)
    ensures quantity == QuantityOfTrades(ts, fallback)
  {
    var total := 0.0;
    for i := 0 to |ts|
      invariant total == SignedQty(ts[..i])
    {
      assert ts[..i + 1][..i] == ts[..i];
      total := total + ts[i].qty.ToFloat(0.0);
    }
    assert ts[..|ts|] == ts;
    quantity := if total > 0.0 then total else fallback;
  }

  /** An average: if every counted fill was struck between two prices, so is the reported fill price. */
  lemma {:induction false} FillPriceIsAnAverage(ts: seq<Trade>, low: real, high: real, fallback: real)
    requires TotalQty(ts) > 0.0 && TotalQuote(ts) > 0.0
    requires forall i :: 0 <= i < |ts| ==>
      Times(low, CountedQty(ts[i])) <= CountedQuote(ts[i]) <= Times(high, CountedQty(ts[i]))
    ensures low <= PriceOfTrades(ts, fallback) <= high
  {
    QuoteBetween(ts, low, high);
    Between(low, high, TotalQuote(ts), TotalQty(ts));
  }

  lemma {:induction false} Between(low: real, high: real, quote: real, qty: real)
    requires qty > 0.0 && Times(low, qty) <= quote <= Times(high, qty)
    ensures low <= quote / qty <= high
  {
    var price := quote / qty;
    assert price * qty == quote;
    if price < low {
      ProductPositive(low - price, qty);
    } else if price > high {
      ProductPositive(price - high, qty);
    }
  }

  lemma {:induction false} QuoteBetween(ts: seq<Trade>, low: real, high: real)
    requires forall i :: 0 <= i < |ts| ==>
      Times(low, CountedQty(ts[i])) <= CountedQuote(ts[i]) <= Times(high, CountedQty(ts[i]))
    ensures Times(low, TotalQty(ts)) <= TotalQuote(ts) <= Times(high, TotalQty(ts))
  {
    hide CountedQuote;
    if ts != [] {
      var init, t := ts[..|ts| - 1], ts[|ts| - 1];
      QuoteBetween(init, low, high);
      assert Times(low, TotalQty(init) + CountedQty(t)) == Times(low, TotalQty(init)) + Times(low, CountedQty(t));
      assert Times(high, TotalQty(init) + CountedQty(t)) == Times(high, TotalQty(init)) + Times(high, CountedQty(t));
    }
  }
}
