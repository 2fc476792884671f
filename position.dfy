/** A position: one buy-then-sell trade. The class holds the mutable state of
    a position (its state, its append-only log of state changes and the last
    buy and sell snapshots); the asynchronous completions of its two
    executions are the methods `BuyCompleted` and `SellCompleted`, and
    `Lifecycle` runs a fresh position through the whole sequence of events. */
module Positions {
  import opened Common
  import opened Decimals
  import opened Api
  import opened PositionExecution

  datatype PositionState =
    | New
    | Started
    | BuyOrderPending
    | BuyOrderFilled
    | BuyOrderFailed
    | BuyOrderCanceled
    | SellOrderPending
    | SellOrderOpen
    | SellOrderFilled
    | SellOrderCanceled
    | SellOrderFailed

  /** One record of the log; `timestamp` is the (UTC) instant of the change. */
  datatype PositionStateChange = PositionStateChange(oldState: PositionState, newState: PositionState, timestamp: int)

  /** The read-only view of a position. */
  datatype PositionJson = PositionJson(
    id: string,
    state: PositionState,
    buy: Option<Order>,
    sell: Option<Order>,
    changes: seq<PositionStateChange>)

  // ---------------------------------------------------------------------------
  // From an order snapshot to a state

  /** The state an execution's result leads to. The open state is only
      considered when one is supplied; "done" is split by the done reason. */
  function StateFor(order: Order, openState: Option<PositionState>, filledState: PositionState,
                    canceledState: PositionState, defaultState: PositionState): PositionState
  {
    if openState.Some? && order.status == Some("open") then openState.value
    else if order.status == Some("done") && order.doneReason == Some("filled") then filledState
    else if order.status == Some("done") && order.doneReason == Some("canceled") then canceledState
    else defaultState
  }

  function BuyStateFor(order: Order): PositionState
  {
    StateFor(order, None, BuyOrderFilled, BuyOrderCanceled, BuyOrderFailed)
  }

  function SellStateFor(order: Order): PositionState
  {
    StateFor(order, Some(SellOrderOpen), SellOrderFilled, SellOrderCanceled, SellOrderFailed)
  }

  /** The buy leg: filled and canceled need status "done" with that reason;
      everything else, an "open" buy included, is a failure. */
  lemma BuyStateRule(o: Order)
    ensures BuyStateFor(o) == BuyOrderFilled <==> o.status == Some("done") && o.doneReason == Some("filled")
    ensures BuyStateFor(o) == BuyOrderCanceled <==> o.status == Some("done") && o.doneReason == Some("canceled")
    ensures BuyStateFor(o) == BuyOrderFailed <==>
      !(o.status == Some("done") && (o.doneReason == Some("filled") || o.doneReason == Some("canceled")))
    ensures o.status == Some("open") ==> BuyStateFor(o) == BuyOrderFailed
  {
  }

  /** The sell leg: an "open" order takes precedence, then as for the buy leg. */
  lemma SellStateRule(o: Order)
    ensures SellStateFor(o) == SellOrderOpen <==> o.status == Some("open")
    ensures SellStateFor(o) == SellOrderFilled <==> o.status == Some("done") && o.doneReason == Some("filled")
    ensures SellStateFor(o) == SellOrderCanceled <==> o.status == Some("done") && o.doneReason == Some("canceled")
    ensures SellStateFor(o) == SellOrderFailed <==>
      o.status != Some("open") &&
      !(o.status == Some("done") && (o.doneReason == Some("filled") || o.doneReason == Some("canceled")))
  {
  }

  // ---------------------------------------------------------------------------
  // The log

  /** Each record starts where the previous one ended, the first at `from`. */
  predicate Chained(from: PositionState, log: seq<PositionStateChange>)
    decreases |log|
  {
    |log| == 0 || (log[0].oldState == from && Chained(log[0].newState, log[1..]))
  }

  /** The state reached by replaying the log from `from`. */
  function Replay(from: PositionState, log: seq<PositionStateChange>): PositionState
    decreases |log|
  {
    if |log| == 0 then from else Replay(log[0].newState, log[1..])
  }

  /** The records of passing from `from` through `states`, all at `now`. */
  function Records(from: PositionState, states: seq<PositionState>, now: int): (r: seq<PositionStateChange>)
    ensures |r| == |states|
    decreases |states|
  {
    if |states| == 0 then [] else [PositionStateChange(from, states[0], now)] + Records(states[0], states[1..], now)
  }

  /** Each record goes to the matching state, at `now`. */
  lemma {:induction false} RecordsShape(from: PositionState, states: seq<PositionState>, now: int)
    ensures var r := Records(from, states, now);
      forall i :: 0 <= i < |r| ==> r[i].newState == states[i] && r[i].timestamp == now
    decreases |states|
  {
    if |states| > 0 {
      RecordsShape(states[0], states[1..], now);
      var r := Records(from, states, now);
      var rest := Records(states[0], states[1..], now);
      assert r == [PositionStateChange(from, states[0], now)] + rest;
      assert forall i :: 1 <= i < |r| ==> r[i] == rest[i - 1];
    }
  }

  function LastOr(from: PositionState, states: seq<PositionState>): PositionState
  {
    if |states| == 0 then from else states[|states| - 1]
  }

  /** Appending a record that starts at the replayed state keeps the log
      chained and moves the replayed state to the record's new state. */
  lemma {:induction false} ChainedAppend(from: PositionState, log: seq<PositionStateChange>, c: PositionStateChange)
    requires Chained(from, log) && c.oldState == Replay(from, log)
    ensures Chained(from, log + [c]) && Replay(from, log + [c]) == c.newState
    decreases |log|
  {
    if |log| > 0 {
      assert (log + [c])[1..] == log[1..] + [c];
      ChainedAppend(log[0].newState, log[1..], c);
    }
  }

  /** A chained continuation of a chained log keeps it chained, and the
      replay goes on from where the first part ended. */
  lemma {:induction false} ChainedJoin(from: PositionState, l1: seq<PositionStateChange>, l2: seq<PositionStateChange>)
    requires Chained(from, l1) && Chained(Replay(from, l1), l2)
    ensures Chained(from, l1 + l2) && Replay(from, l1 + l2) == Replay(Replay(from, l1), l2)
    decreases |l1|
  {
    if |l1| == 0 {
      assert l1 + l2 == l2;
    } else {
      assert (l1 + l2)[0] == l1[0];
      assert (l1 + l2)[1..] == l1[1..] + l2;
      ChainedJoin(l1[0].newState, l1[1..], l2);
    }
  }

  /** The records of a path are chained and replay to the path's end. */
  lemma {:induction false} RecordsChained(from: PositionState, states: seq<PositionState>, now: int)
    ensures Chained(from, Records(from, states, now))
    ensures Replay(from, Records(from, states, now)) == LastOr(from, states)
    decreases |states|
  {
    if |states| > 0 {
      RecordsChained(states[0], states[1..], now);
      assert LastOr(states[0], states[1..]) == LastOr(from, states);
    }
  }

  /** The transitions of the position state machine. */
  predicate Allowed(a: PositionState, b: PositionState)
  {
    match a
    case New => b == Started
    case Started => b == BuyOrderPending
    case BuyOrderPending => b in {BuyOrderFilled, BuyOrderCanceled, BuyOrderFailed}
    case BuyOrderFilled => b == SellOrderPending
    case SellOrderPending => b in {SellOrderOpen, SellOrderFilled, SellOrderCanceled, SellOrderFailed}
    case _ => false
  }

  predicate Legal(log: seq<PositionStateChange>)
  {
    forall i :: 0 <= i < |log| ==> Allowed(log[i].oldState, log[i].newState)
  }

  /** A log every record of which is a state-machine transition. */
  predicate LegalPath(from: PositionState, states: seq<PositionState>)
    decreases |states|
  {
    |states| == 0 || (Allowed(from, states[0]) && LegalPath(states[0], states[1..]))
  }

  lemma {:induction false} RecordsLegal(from: PositionState, states: seq<PositionState>, now: int)
    requires LegalPath(from, states)
    ensures Legal(Records(from, states, now))
    decreases |states|
  {
    if |states| > 0 {
      RecordsLegal(states[0], states[1..], now);
      var r := Records(from, states, now);
      assert r == [PositionStateChange(from, states[0], now)] + Records(states[0], states[1..], now);
      forall i | 0 <= i < |r| ensures Allowed(r[i].oldState, r[i].newState) {
        if i > 0 { assert r[i] == Records(states[0], states[1..], now)[i - 1]; }
      }
    }
  }

  // ---------------------------------------------------------------------------
  // The sell order

  datatype SellQuote = SellQuote(fee: Decimal, funds: Decimal, size: Decimal, quotient: Decimal, price: Decimal)

  /** The sell terms computed from the bought size: the funds to recover
      (buy funds times one plus the fee, rounded up at the quote increment's
      scale), the size to sell (bought size times the sell fraction, rounded
      down at the base increment's scale) and the limit price (funds over
      size rounded half-up at the funds' scale, then up to a whole number).
      `None` where the division throws: a zero size. */
  function SellTerms(config: PositionConfig, product: Product, boughtSize: Decimal): (r: Option<SellQuote>)
  {
    var fee := Add(One, config.fee);
    var funds := SetScale(Multiply(config.funds, fee), product.quoteIncrement.scale, Ceiling);
    var size := SetScale(Multiply(boughtSize, config.sell), product.baseIncrement.scale, Floor);
    match Divide(funds, size, HalfUp)
    case None => None
    case Some(quotient) => Some(SellQuote(fee, funds, size, quotient, SetScale(quotient, 0, Ceiling)))
  }

  /** The sell arithmetic fails exactly when the size, rounded down to the
      base increment, is zero (the division by it throws). */
  lemma SellTermsDefined(config: PositionConfig, product: Product, boughtSize: Decimal)
    ensures SellTerms(config, product, boughtSize).None? <==>
      IsZero(SetScale(Multiply(boughtSize, config.sell), product.baseIncrement.scale, Floor))
  {
    var funds := SetScale(Multiply(config.funds, Add(One, config.fee)), product.quoteIncrement.scale, Ceiling);
    var size := SetScale(Multiply(boughtSize, config.sell), product.baseIncrement.scale, Floor);
    assert Divide(funds, size, HalfUp).None? <==> IsZero(size);
  }

  /** What each rounding step of the sell terms guarantees: the funds are
      not below the exact gross funds, the size is not above the exact size
      and is not zero, and the price is the least whole number not below the
      rounded quotient. */
  lemma SellTermsRounding(config: PositionConfig, product: Product, boughtSize: Decimal)
    requires SellTerms(config, product, boughtSize).Some?
    ensures var q := SellTerms(config, product, boughtSize).value;
      && SameValue(q.fee, Add(One, config.fee))
      && q.funds.scale == product.quoteIncrement.scale
      && LessEq(Multiply(config.funds, q.fee), q.funds)
      && Less(Subtract(q.funds, Decimal(1, q.funds.scale)), Multiply(config.funds, q.fee))
      && q.size.scale == product.baseIncrement.scale
      && LessEq(q.size, Multiply(boughtSize, config.sell))
      && Less(Multiply(boughtSize, config.sell), Add(q.size, Decimal(1, q.size.scale)))
      && !IsZero(q.size)
      && q.quotient.scale == q.funds.scale
      && q.price.scale == 0
      && LessEq(q.quotient, q.price)
      && Less(Subtract(q.price, One), q.quotient)
  {
    var q := SellTerms(config, product, boughtSize).value;
    var gross := Multiply(config.funds, Add(One, config.fee));
    var size := SetScale(Multiply(boughtSize, config.sell), product.baseIncrement.scale, Floor);
    assert q.funds == SetScale(gross, product.quoteIncrement.scale, Ceiling);
    assert q.size == size && Divide(q.funds, size, HalfUp) == Some(q.quotient);
    CeilingWithinUnit(gross, product.quoteIncrement.scale, q.funds);
    FloorWithinUnit(Multiply(boughtSize, config.sell), product.baseIncrement.scale, q.size);
    CeilingWithinUnit(q.quotient, 0, q.price);
  }

  /** What the rounding does guarantee: the proceeds, price times size,
      fall short of the funds by at most half a unit of the funds' last
      digit per unit of size. */
  lemma SellShortfallBound(config: PositionConfig, product: Product, boughtSize: Decimal)
    requires SellTerms(config, product, boughtSize).Some?
    requires SellTerms(config, product, boughtSize).value.size.unscaled > 0
    ensures var q := SellTerms(config, product, boughtSize).value;
      2 * (q.funds.unscaled * Pow10(q.size.scale) - q.price.unscaled * q.size.unscaled * Pow10(q.funds.scale))
        <= q.size.unscaled
  {
    var q := SellTerms(config, product, boughtSize).value;
    var funds := SetScale(Multiply(config.funds, Add(One, config.fee)), product.quoteIncrement.scale, Ceiling);
    var size := SetScale(Multiply(boughtSize, config.sell), product.baseIncrement.scale, Floor);
    assert q.funds == funds && q.size == size && Divide(funds, size, HalfUp) == Some(q.quotient);
    SellTermsRounding(config, product, boughtSize);
    // the half-up quotient times the size is at least the funds less half a
    // size unit, and the quotient is at most the price at the funds' scale
    CompareAt(q.quotient, q.price, q.funds.scale);
    ShortfallStep(q.funds.unscaled, q.size.unscaled, q.quotient.unscaled, q.price.unscaled,
                  Pow10(q.size.scale), Pow10(q.funds.scale));
  }

  lemma ShortfallStep(fu: int, su: int, qu: int, pu: int, zs: int, fs: int)
    requires su > 0 && 2 * (fu * zs - qu * su) <= su && qu <= pu * fs
    ensures 2 * (fu * zs - pu * su * fs) <= su
  {
    MulLess(qu, pu * fs, su);
    assert pu * fs * su == pu * su * fs;
  }

  /** Buy funds 10, fee 0.005, sell fraction 0.99, quote increment 0.01, base
      increment 0.00000001 and a bought size of 0.0002: the size is
      0.00019800, the quotient 50757.58 and the price 50758, and the
      proceeds 10.050084 cover the funds 10.05. */
  lemma SellCoversFundsExample()
    ensures var config := PositionConfig("BTC-USD", 1, Decimal(10, 0), Decimal(5, 3), Decimal(99, 2), "dayRangeStrategy");
            var product := Product("BTC-USD", Decimal(1, 2), Decimal(1, 8), "USD");
            var q := SellTerms(config, product, Decimal(2, 4));
            && q.Some? && q.value.funds == Decimal(1005, 2) && q.value.size == Decimal(19800, 8)
            && q.value.quotient == Decimal(5075758, 2) && q.value.price == Decimal(50758, 0)
            && LessEq(q.value.funds, Multiply(q.value.price, q.value.size))
  {
    var config := PositionConfig("BTC-USD", 1, Decimal(10, 0), Decimal(5, 3), Decimal(99, 2), "dayRangeStrategy");
    assert Pow10(0) == 1 && Pow10(1) == 10 && Pow10(2) == 100 && Pow10(3) == 1000;
    assert Pow10(6) == 1000000 && Pow10(8) == 100000000;
    var fee := Add(One, config.fee);
    assert Align(One, 3) == 1000;
    assert fee == Decimal(1005, 3);
    var gross := Multiply(config.funds, fee);
    assert gross == Decimal(10050, 3);
    assert DivRoundPositive(10050, 10, Ceiling) == 1005;
    var funds := SetScale(gross, 2, Ceiling);
    assert funds == Decimal(1005, 2);
    var bought := Multiply(Decimal(2, 4), config.sell);
    assert bought == Decimal(198, 6);
    var size := SetScale(bought, 8, Floor);
    assert Align(bought, 8) == 19800;
    assert size == Decimal(19800, 8);
    assert DivRoundPositive(100500000000, 19800, HalfUp) == 201000019800 / 39600 == 5075758;
    assert Divide(funds, size, HalfUp) == Some(Decimal(5075758, 2));
    assert DivRoundPositive(5075758, 100, Ceiling) == 50758;
    assert SetScale(Decimal(5075758, 2), 0, Ceiling) == Decimal(50758, 0);
    assert Multiply(Decimal(50758, 0), size) == Decimal(1005008400, 8);
    assert Align(funds, 8) == 1005000000;
  }

  /** The sell proceeds need not cover the funds: with buy funds 10, no fee,
      selling all of a bought size of 3.3, and both increments at one
      decimal, the quotient 10.0 / 3.3 rounds half-up to 3.0, the price is
      3, and 3 x 3.3 = 9.9 is below 10.0. */
  lemma SellProceedsCanFallShortOfFunds()
    ensures var config := PositionConfig("BTC-USD", 1, Decimal(10, 0), Zero, One, "alwaysTrueStrategy");
            var product := Product("BTC-USD", Decimal(1, 1), Decimal(1, 1), "USD");
            var q := SellTerms(config, product, Decimal(33, 1));
            && q.Some? && q.value.price == Decimal(3, 0) && q.value.size == Decimal(33, 1)
            && q.value.funds == Decimal(100, 1) && Less(Multiply(q.value.price, q.value.size), q.value.funds)
  {
    var config := PositionConfig("BTC-USD", 1, Decimal(10, 0), Zero, One, "alwaysTrueStrategy");
    var product := Product("BTC-USD", Decimal(1, 1), Decimal(1, 1), "USD");
    assert Pow10(0) == 1;
    assert Pow10(1) == 10;
    var fee := Add(One, config.fee);
    assert fee == Decimal(1, 0);
    var gross := Multiply(config.funds, fee);
    assert gross == Decimal(10, 0);
    var funds := SetScale(gross, 1, Ceiling);
    assert Align(gross, 1) == 100;
    assert funds == Decimal(100, 1);
    var bought := Multiply(Decimal(33, 1), config.sell);
    assert bought == Decimal(33, 1);
    var size := SetScale(bought, 1, Floor);
    assert Align(bought, 1) == 33;
    assert size == Decimal(33, 1);
    assert DivRoundPositive(1000, 33, HalfUp) == 2033 / 66 == 30;
    assert DivRound(1000, 33, HalfUp) == 30;
    var quotient := Decimal(30, 1);
    assert Divide(funds, size, HalfUp) == Some(quotient);
    assert DivRoundPositive(30, 10, Ceiling) == 3;
    assert SetScale(quotient, 0, Ceiling) == Decimal(3, 0);
    assert SellTerms(config, product, Decimal(33, 1)).value.price == Decimal(3, 0);
    assert Multiply(Decimal(3, 0), size) == Decimal(99, 1);
  }

  /** The market buy of a position: the configured funds, client id "B" + id. */
  function BuyOrderFor(id: string, config: PositionConfig, product: Product): (r: WriteOrder)
    ensures r.productId == product.id && r.side == "buy" && r.orderType == Some("market")
    ensures r.funds == Some(config.funds) && r.size.None? && r.price.None? && r.clientId == "B" + id
  {
    WriteOrder(product.id, "buy", Some("market"), Some(config.funds), None, None, "B" + id)
  }

  /** The limit sell of a position for a bought size: client id "S" + id; no
      order type is set. `None` where the sell arithmetic throws. */
  function SellOrderFor(id: string, config: PositionConfig, product: Product, boughtSize: Decimal): (r: Option<WriteOrder>)
    ensures r.Some? <==> SellTerms(config, product, boughtSize).Some?
    ensures r.Some? ==>
      && r.value.productId == product.id && r.value.side == "sell" && r.value.clientId == "S" + id
      && r.value.orderType.None? && r.value.funds.None?
      && r.value.size == Some(SellTerms(config, product, boughtSize).value.size)
      && r.value.price == Some(SellTerms(config, product, boughtSize).value.price)
  {
    match SellTerms(config, product, boughtSize)
    case None => None
    case Some(q) => Some(WriteOrder(product.id, "sell", None, None, Some(q.size), Some(q.price), "S" + id))
  }

  // ---------------------------------------------------------------------------
  // The position

  class Position {
    const id: string
    const config: PositionConfig
    const product: Product
    const buy: DonePredicate
    const sell: DonePredicate

    var state: PositionState
    var stateChanges: seq<PositionStateChange>
    var buyOrder: Option<Order>
    var sellOrder: Option<Order>

    /** The log replays from `New` to the current state. */
    ghost predicate Valid()
      reads this
    {
      Chained(New, stateChanges) && Replay(New, stateChanges) == state
    }

    constructor (id: string, config: PositionConfig, product: Product, buy: DonePredicate, sell: DonePredicate)
      ensures this.id == id && this.config == config && this.product == product
      ensures this.buy == buy && this.sell == sell
      ensures state == New && stateChanges == [] && buyOrder == None && sellOrder == None
      ensures Valid()
    {
      this.id := id;
      this.config := config;
      this.product := product;
      this.buy := buy;
      this.sell := sell;
      state := New;
      stateChanges := [];
      buyOrder := None;
      sellOrder := None;
    }

    method ChangeState(newState: PositionState, now: int)
      requires Valid()
      modifies this`state, this`stateChanges
      ensures Valid()
      ensures state == newState
      ensures stateChanges == old(stateChanges) + [PositionStateChange(old(state), newState, now)]
    {
      var oldState := state;
      state := newState;
      ChainedAppend(New, stateChanges, PositionStateChange(oldState, newState, now));
      stateChanges := stateChanges + [PositionStateChange(oldState, newState, now)];
    }

    method ChangeStateFor(order: Order, openState: Option<PositionState>, filledState: PositionState,
                          canceledState: PositionState, defaultState: PositionState, now: int)
      requires Valid()
      modifies this`state, this`stateChanges
      ensures Valid()
      ensures state == StateFor(order, openState, filledState, canceledState, defaultState)
      ensures stateChanges == old(stateChanges) + [PositionStateChange(old(state), state, now)]
    {
      // the branch of `changeState(order, …)` is `StateFor`
      ChangeState(StateFor(order, openState, filledState, canceledState, defaultState), now);
    }

    /** `init`: to `Started`, then to `BuyOrderPending`, and hand the market
        buy to the buy execution. */
    method Init(now: int) returns (request: WriteOrder)
      requires Valid()
      modifies this`state, this`stateChanges
      ensures Valid()
      ensures state == BuyOrderPending
      ensures stateChanges == old(stateChanges) + Records(old(state), [Started, BuyOrderPending], now)
      ensures request == BuyOrderFor(id, config, product)
    {
      ChangeState(Started, now);
      ChangeState(BuyOrderPending, now);
      request := BuyOrderFor(id, config, product);
    }

    /** `sellPosition`: needs the bought size of the buy snapshot (a missing
        one throws before anything changes); `sell` moves to
        `SellOrderPending` before it computes the terms. */
    method SellPosition(now: int) returns (request: Option<WriteOrder>)
      requires Valid()
      modifies this`state, this`stateChanges
      ensures Valid()
      ensures stateChanges == old(stateChanges) + Records(old(state), SellPositionSteps(old(buyOrder)), now)
      ensures state == LastOr(old(state), SellPositionSteps(old(buyOrder)))
      ensures request == if SellPositionSteps(buyOrder) == [] then None else SellOrderFor(id, config, product, buyOrder.value.filledSize.value)
    {
      if buyOrder.Some? && buyOrder.value.filledSize.Some? {
        ChangeState(SellOrderPending, now);
        request := SellOrderFor(id, config, product, buyOrder.value.filledSize.value);
      } else {
        request := None;
      }
    }

    /** The buy execution ends. A snapshot is mapped to a state and kept; an
        error is `BuyOrderFailed`; on completion the sell is attempted if the
        position is then `BuyOrderFilled`. */
    method BuyCompleted(outcome: Execution, now: int) returns (request: Option<WriteOrder>)
      requires Valid()
      modifies this`state, this`stateChanges, this`buyOrder
      ensures Valid()
      ensures buyOrder == if outcome.Completed? then Some(outcome.order) else old(buyOrder)
      ensures stateChanges == old(stateChanges) + Records(old(state), BuySteps(old(state), old(buyOrder), outcome), now)
      ensures state == LastOr(old(state), BuySteps(old(state), old(buyOrder), outcome))
      ensures request == if SellAttempted(old(state), old(buyOrder), outcome) then SellOrderFor(id, config, product, buyOrder.value.filledSize.value) else None
    {
      request := None;
      match outcome {
        case Failed(_) =>
          ChangeState(BuyOrderFailed, now);
        case Completed(o) =>
          ChangeStateFor(o, None, BuyOrderFilled, BuyOrderCanceled, BuyOrderFailed, now);
          buyOrder := Some(o);
          if state == BuyOrderFilled {
            request := SellPosition(now);
          }
        case CompletedEmpty =>
          if state == BuyOrderFilled {
            request := SellPosition(now);
          }
      }
    }

    /** The sell execution ends: a snapshot is mapped to a state (an "open"
        order is `SellOrderOpen`) and kept; an error is `SellOrderFailed`. */
    method SellCompleted(outcome: Execution, now: int)
      requires Valid()
      modifies this`state, this`stateChanges, this`sellOrder
      ensures Valid()
      ensures sellOrder == if outcome.Completed? then Some(outcome.order) else old(sellOrder)
      ensures stateChanges == old(stateChanges) + Records(old(state), SellSteps(outcome), now)
      ensures state == LastOr(old(state), SellSteps(outcome))
    {
      match outcome {
        case Failed(_) =>
          ChangeState(SellOrderFailed, now);
        case Completed(o) =>
          ChangeStateFor(o, Some(SellOrderOpen), SellOrderFilled, SellOrderCanceled, SellOrderFailed, now);
          sellOrder := Some(o);
        case CompletedEmpty =>
      }
    }

    /** `json`: a snapshot of the position. */
    function Json(): (j: PositionJson)
      reads this
      ensures j.id == id && j.state == state && j.buy == buyOrder && j.sell == sellOrder
      ensures j.changes == stateChanges
    {
      PositionJson(id, state, buyOrder, sellOrder, stateChanges)
    }
  }

  /** The states `sellPosition` passes through for a buy snapshot. */
  function SellPositionSteps(held: Option<Order>): seq<PositionState>
  {
    if held.Some? && held.value.filledSize.Some? then [SellOrderPending] else []
  }

  /** The state the buy leg's result moves the position to, before any sell. */
  function AfterBuy(from: PositionState, outcome: Execution): PositionState
  {
    match outcome
    case Failed(_) => BuyOrderFailed
    case Completed(o) => BuyStateFor(o)
    case CompletedEmpty => from
  }

  predicate SellAttempted(from: PositionState, held: Option<Order>, outcome: Execution)
  {
    && !outcome.Failed?
    && AfterBuy(from, outcome) == BuyOrderFilled
    && SellPositionSteps(if outcome.Completed? then Some(outcome.order) else held) != []
  }

  /** The states the buy leg's completion passes through. */
  function BuySteps(from: PositionState, held: Option<Order>, outcome: Execution): seq<PositionState>
  {
    var first := if outcome.CompletedEmpty? then [] else [AfterBuy(from, outcome)];
    first + (if SellAttempted(from, held, outcome) then [SellOrderPending] else [])
  }

  function SellSteps(outcome: Execution): seq<PositionState>
  {
    match outcome
    case Failed(_) => [SellOrderFailed]
    case Completed(o) => [SellStateFor(o)]
    case CompletedEmpty => []
  }

  lemma RecordsSplit(from: PositionState, a: seq<PositionState>, b: seq<PositionState>, now: int)
    ensures Records(from, a + b, now) == Records(from, a, now) + Records(LastOr(from, a), b, now)
    decreases |a|
  {
    if |a| > 0 {
      assert (a + b)[0] == a[0];
      assert (a + b)[1..] == a[1..] + b;
      RecordsSplit(a[0], a[1..], b, now);
      assert LastOr(a[0], a[1..]) == LastOr(from, a);
      var c := PositionStateChange(from, a[0], now);
      assert Records(from, a + b, now) == [c] + Records(a[0], a[1..] + b, now);
      assert Records(from, a, now) == [c] + Records(a[0], a[1..], now);
    } else {
      assert a + b == b;
    }
  }

  // ---------------------------------------------------------------------------
  // A whole position

  /** What the exchange answers for one position: the reply to each post and
      the successive answers to the polls of each leg, and the retry budget
      both legs use. */
  datatype Exchange = Exchange(
    buyPost: Reply<Order>,
    buyAnswers: nat -> Reply<Order>,
    sellPost: Reply<Order>,
    sellAnswers: nat -> Reply<Order>,
    budget: nat)

  function BuyOutcome(x: Exchange): Execution
  {
    ExecuteSpec(OrderDone, x.buyPost, x.buyAnswers, x.budget).0
  }

  function SellOutcome(x: Exchange): Execution
  {
    ExecuteSpec(OrderNotPending, x.sellPost, x.sellAnswers, x.budget).0
  }

  /** The sell is posted: the buy was filled, reported a filled size, and
      the sell arithmetic went through. */
  predicate SellPlaced(config: PositionConfig, product: Product, buyOutcome: Execution)
  {
    && SellAttempted(BuyOrderPending, None, buyOutcome)
    && SellTerms(config, product, buyOutcome.order.filledSize.value).Some?
  }

  /** The states a fresh position passes through. */
  function LifecycleSteps(config: PositionConfig, product: Product, buyOutcome: Execution, sellOutcome: Execution): seq<PositionState>
  {
    [Started, BuyOrderPending] + BuySteps(BuyOrderPending, None, buyOutcome)
    + (if SellPlaced(config, product, buyOutcome) then SellSteps(sellOutcome) else [])
  }

  /** The buy phase of a fresh position: it is started, its buy is executed,
      and the buy's completion either ends the position or yields the sell
      request to execute next. */
  method BuyPhase(id: string, config: PositionConfig, product: Product, x: Exchange, now: int)
    returns (p: Position, calls: seq<ApiCall>, sellRequest: Option<WriteOrder>)
    ensures fresh(p) && p.Valid()
    ensures p.id == id && p.config == config && p.product == product
    ensures p.buy == OrderDone && p.sell == OrderNotPending
    ensures p.stateChanges == Records(New, [Started, BuyOrderPending] + BuySteps(BuyOrderPending, None, BuyOutcome(x)), now)
    ensures p.state == LastOr(New, [Started, BuyOrderPending] + BuySteps(BuyOrderPending, None, BuyOutcome(x)))
    ensures p.buyOrder == (if BuyOutcome(x).Completed? then Some(BuyOutcome(x).order) else None)
    ensures p.sellOrder == None
    ensures sellRequest.Some? <==> SellPlaced(config, product, BuyOutcome(x))
    ensures sellRequest.Some? ==>
      sellRequest.value == SellOrderFor(id, config, product, BuyOutcome(x).order.filledSize.value).value
    ensures |calls| == 1 + ExecuteSpec(OrderDone, x.buyPost, x.buyAnswers, x.budget).1
    ensures calls[0] == PostOrder(BuyOrderFor(id, config, product))
  {
    p := new Position(id, config, product, OrderDone, OrderNotPending);
    var buyRequest := p.Init(now);
    var buyOutcome;
    buyOutcome, calls := Execute(OrderDone, buyRequest, x.buyPost, x.buyAnswers, x.budget);
    assert buyOutcome == BuyOutcome(x);
    sellRequest := p.BuyCompleted(buyOutcome, now);
    RecordsSplit(New, [Started, BuyOrderPending], BuySteps(BuyOrderPending, None, buyOutcome), now);
  }

  /** A fresh position is started, its buy is executed, and when the buy
      completes filled the sell is executed. The execution's callbacks run
      in order here; `now` stands for every clock reading. */
  method Lifecycle(id: string, config: PositionConfig, product: Product, x: Exchange, now: int)
    returns (p: Position, calls: seq<ApiCall>)
    ensures fresh(p) && p.Valid()
    ensures p.id == id && p.config == config && p.product == product
    ensures p.buy == OrderDone && p.sell == OrderNotPending
    ensures p.stateChanges == Records(New, LifecycleSteps(config, product, BuyOutcome(x), SellOutcome(x)), now)
    ensures p.state == LastOr(New, LifecycleSteps(config, product, BuyOutcome(x), SellOutcome(x)))
    ensures Legal(p.stateChanges)
    ensures p.buyOrder == (if BuyOutcome(x).Completed? then Some(BuyOutcome(x).order) else None)
    ensures p.sellOrder == (if SellPlaced(config, product, BuyOutcome(x)) && SellOutcome(x).Completed?
                            then Some(SellOutcome(x).order) else None)
    // the buy is posted first; the sell is posted, after the buy's polls, exactly when it is placed
    ensures |calls| >= 1 && calls[0] == PostOrder(BuyOrderFor(id, config, product))
    ensures var n := 1 + ExecuteSpec(OrderDone, x.buyPost, x.buyAnswers, x.budget).1;
      && |calls| == n + (if SellPlaced(config, product, BuyOutcome(x))
                         then 1 + ExecuteSpec(OrderNotPending, x.sellPost, x.sellAnswers, x.budget).1 else 0)
      && (SellPlaced(config, product, BuyOutcome(x)) ==>
            calls[n] == PostOrder(SellOrderFor(id, config, product, BuyOutcome(x).order.filledSize.value).value))
  {
    var sellRequest;
    p, calls, sellRequest := BuyPhase(id, config, product, x, now);
    ghost var steps := [Started, BuyOrderPending] + BuySteps(BuyOrderPending, None, BuyOutcome(x));
    ghost var all := LifecycleSteps(config, product, BuyOutcome(x), SellOutcome(x));
    if sellRequest.Some? {
      var sellOutcome, sellCalls := Execute(OrderNotPending, sellRequest.value, x.sellPost, x.sellAnswers, x.budget);
      p.SellCompleted(sellOutcome, now);
      calls := calls + sellCalls;
      RecordsSplit(New, steps, SellSteps(sellOutcome), now);
      assert all == steps + SellSteps(sellOutcome);
    } else {
      assert steps + [] == steps;
      assert all == steps;
    }
    LifecycleRecords(config, product, BuyOutcome(x), SellOutcome(x), now);
  }

  /** The log of a fresh position replays to the end of its path and holds
      only state-machine transitions. */
  lemma LifecycleRecords(config: PositionConfig, product: Product, buyOutcome: Execution, sellOutcome: Execution, now: int)
    ensures var all := LifecycleSteps(config, product, buyOutcome, sellOutcome);
      Replay(New, Records(New, all, now)) == LastOr(New, all) && Legal(Records(New, all, now))
  {
    var all := LifecycleSteps(config, product, buyOutcome, sellOutcome);
    RecordsChained(New, all, now);
    LifecycleLegal(config, product, buyOutcome, sellOutcome);
    RecordsLegal(New, all, now);
  }

  /** Whatever the exchange answers, a position only makes state-machine
      transitions. */
  lemma LifecycleLegal(config: PositionConfig, product: Product, buyOutcome: Execution, sellOutcome: Execution)
    ensures LegalPath(New, LifecycleSteps(config, product, buyOutcome, sellOutcome))
  {
    var buy := BuySteps(BuyOrderPending, None, buyOutcome);
    var sell := if SellPlaced(config, product, buyOutcome) then SellSteps(sellOutcome) else [];
    var tail := buy + sell;
    if |buy| == 0 {
      assert tail == [];
    } else {
      var afterBuy := buy[0];
      var rest := buy[1..] + sell;
      assert tail == [afterBuy] + rest;
      if |buy| == 1 {
        assert rest == [];
      } else {
        assert afterBuy == BuyOrderFilled && buy[1..] == [SellOrderPending];
        if |sell| == 1 {
          assert LegalPath(sell[0], []);
          assert sell == [sell[0]];
          assert LegalPath(SellOrderPending, sell);
        } else {
          assert sell == [];
        }
        assert rest == [SellOrderPending] + sell;
      }
      assert LegalPath(afterBuy, rest);
    }
    assert LegalPath(BuyOrderPending, tail);
    assert LifecycleSteps(config, product, buyOutcome, sellOutcome) == [Started] + ([BuyOrderPending] + tail);
  }

  /** The sell leg is entered exactly when the buy completed with a filled
      "done" snapshot that reports its filled size. */
  lemma SellOnlyAfterFilledBuy(config: PositionConfig, product: Product, buyOutcome: Execution, sellOutcome: Execution)
    ensures SellOrderPending in LifecycleSteps(config, product, buyOutcome, sellOutcome) <==>
      && buyOutcome.Completed?
      && buyOutcome.order.status == Some("done") && buyOutcome.order.doneReason == Some("filled")
      && buyOutcome.order.filledSize.Some?
  {
    var buy := BuySteps(BuyOrderPending, None, buyOutcome);
    var sell := if SellPlaced(config, product, buyOutcome) then SellSteps(sellOutcome) else [];
    assert LifecycleSteps(config, product, buyOutcome, sellOutcome) == [Started, BuyOrderPending] + buy + sell;
    assert SellOrderPending !in sell;
    BuyStateRule(if buyOutcome.Completed? then buyOutcome.order else Order("", "", None, None, None));
  }

  /** The sell terms of the happy path below: buy funds 10, fee 0.005, sell
      fraction 0.99, quote increment 0.01, base increment 0.00000001 and a
      bought size of 10 sell 9.90000000 at 2 (10.05 / 9.90000000 is 1.02 at
      the funds' scale, rounded up to a whole number). */
  lemma HappyPathSellTerms()
    ensures var config := PositionConfig("BTC-USD", 1, Decimal(10, 0), Decimal(5, 3), Decimal(99, 2), "alwaysTrueStrategy");
            var product := Product("BTC-USD", Decimal(1, 2), Decimal(1, 8), "USD");
            var q := SellTerms(config, product, Decimal(10, 0));
            && q.Some? && q.value.funds == Decimal(1005, 2)
            && q.value.size == Decimal(990000000, 8) && q.value.price == Decimal(2, 0)
  {
    var config := PositionConfig("BTC-USD", 1, Decimal(10, 0), Decimal(5, 3), Decimal(99, 2), "alwaysTrueStrategy");
    assert Pow10(0) == 1 && Pow10(1) == 10 && Pow10(2) == 100 && Pow10(3) == 1000;
    assert Pow10(6) == 1000000 && Pow10(8) == 100000000;
    var fee := Add(One, config.fee);
    assert Align(One, 3) == 1000;
    assert fee == Decimal(1005, 3);
    var gross := Multiply(config.funds, fee);
    assert gross == Decimal(10050, 3);
    assert DivRoundPositive(10050, 10, Ceiling) == 1005;
    var funds := SetScale(gross, 2, Ceiling);
    assert funds == Decimal(1005, 2);
    var bought := Multiply(Decimal(10, 0), config.sell);
    assert bought == Decimal(990, 2);
    var size := SetScale(bought, 8, Floor);
    assert Align(bought, 8) == 990000000;
    assert size == Decimal(990000000, 8);
    assert DivRoundPositive(100500000000, 990000000, HalfUp) == 201990000000 / 1980000000 == 102;
    assert Divide(funds, size, HalfUp) == Some(Decimal(102, 2));
    assert DivRoundPositive(102, 100, Ceiling) == 2;
    assert SetScale(Decimal(102, 2), 0, Ceiling) == Decimal(2, 0);
  }

  /** A buy reported done and filled with its filled size moves a pending
      position to BuyOrderFilled and on to the sell. */
  lemma FilledBuySteps(buyDone: Order)
    requires buyDone.status == Some("done") && buyDone.doneReason == Some("filled") && buyDone.filledSize.Some?
    ensures SellAttempted(BuyOrderPending, None, Completed(buyDone))
    ensures BuySteps(BuyOrderPending, None, Completed(buyDone)) == [BuyOrderFilled, SellOrderPending]
  {
    assert AfterBuy(BuyOrderPending, Completed(buyDone)) == BuyOrderFilled;
    assert SellPositionSteps(Some(buyDone)) == [SellOrderPending];
  }

  /** A buy reported done and filled with a size the sell arithmetic
      accepts, followed by a sell reported open, takes a position Started,
      BuyOrderPending, BuyOrderFilled, SellOrderPending, SellOrderOpen. */
  lemma FilledThenOpen(config: PositionConfig, product: Product, buyDone: Order, sellOpen: Order)
    requires buyDone.status == Some("done") && buyDone.doneReason == Some("filled") && buyDone.filledSize.Some?
    requires SellTerms(config, product, buyDone.filledSize.value).Some?
    requires sellOpen.status == Some("open")
    ensures LifecycleSteps(config, product, Completed(buyDone), Completed(sellOpen))
              == [Started, BuyOrderPending, BuyOrderFilled, SellOrderPending, SellOrderOpen]
  {
    FilledBuySteps(buyDone);
    assert SellPlaced(config, product, Completed(buyDone));
    assert SellSteps(Completed(sellOpen)) == [SellOrderOpen];
  }

  /** The happy path with the terms above, the buy filled with size 10. */
  lemma HappyPath()
    ensures var config := PositionConfig("BTC-USD", 1, Decimal(10, 0), Decimal(5, 3), Decimal(99, 2), "alwaysTrueStrategy");
            var product := Product("BTC-USD", Decimal(1, 2), Decimal(1, 8), "USD");
            var buyDone := Order("1", "BTC-USD", Some("done"), Some("filled"), Some(Decimal(10, 0)));
            var sellOpen := Order("2", "BTC-USD", Some("open"), None, None);
            LifecycleSteps(config, product, Completed(buyDone), Completed(sellOpen))
              == [Started, BuyOrderPending, BuyOrderFilled, SellOrderPending, SellOrderOpen]
  {
    var config := PositionConfig("BTC-USD", 1, Decimal(10, 0), Decimal(5, 3), Decimal(99, 2), "alwaysTrueStrategy");
    var product := Product("BTC-USD", Decimal(1, 2), Decimal(1, 8), "USD");
    var buyDone := Order("1", "BTC-USD", Some("done"), Some("filled"), Some(Decimal(10, 0)));
    var sellOpen := Order("2", "BTC-USD", Some("open"), None, None);
    HappyPathSellTerms();
    FilledThenOpen(config, product, buyDone, sellOpen);
  }
}
