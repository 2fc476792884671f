/** The decision to open a position for an instrument. A strategy answers
    a single reply: true, false, nothing, or an error. */
module Strategies {
  import opened Common
  import opened Decimals
  import opened Api
  import opened Products

  /** The funds gate: only sufficient funds lead on to the strategy's own
      decision; insufficient funds answer false, and a missing or failed
      funds check passes through unchanged. */
  function Gate(funds: Reply<bool>, shouldOpen: bool): (r: Reply<bool>)
    ensures r == Value(true) <==> funds == Value(true) && shouldOpen
    ensures funds == Value(false) ==> r == Value(false)
    ensures funds.Empty? <==> r.Empty?
    ensures funds.Error? <==> r.Error?
  {
    match funds
    case Value(ok) => if ok then Value(shouldOpen) else Value(false)
    case Empty => Empty
    case Error => Error
  }

  /** The first account in the given currency, if any. */
  function FirstAccount(accounts: seq<Account>, currency: string): (r: Option<Account>)
    ensures r.None? <==> forall i :: 0 <= i < |accounts| ==> accounts[i].currency != currency
    ensures forall i :: (0 <= i < |accounts| && accounts[i].currency == currency &&
                         (forall j :: 0 <= j < i ==> accounts[j].currency != currency)) ==> r == Some(accounts[i])
    decreases |accounts|
  {
    if |accounts| == 0 then None
    else if accounts[0].currency == currency then Some(accounts[0])
    else
      assert forall i :: 1 <= i < |accounts| ==> accounts[i] == accounts[1..][i - 1];
      FirstAccount(accounts[1..], currency)
  }

  /** The minimum balance for an instrument: the funds of the last
      configuration with its id, zero when there is none. */
  function MinFunds(configs: seq<PositionConfig>, productId: string): Decimal
    decreases |configs|
  {
    if |configs| == 0 then Zero
    else if configs[|configs| - 1].id == productId then configs[|configs| - 1].funds
    else MinFunds(configs[..|configs| - 1], productId)
  }

  /** With no configuration for the instrument the minimum is zero. */
  lemma {:induction false} MinFundsWithoutConfig(configs: seq<PositionConfig>, productId: string)
    requires forall i :: 0 <= i < |configs| ==> configs[i].id != productId
    ensures MinFunds(configs, productId) == Zero
    decreases |configs|
  {
    if |configs| > 0 {
      var init := configs[..|configs| - 1];
      assert forall i :: 0 <= i < |init| ==> init[i] == configs[i];
      MinFundsWithoutConfig(init, productId);
    }
  }

  /** Otherwise it is the funds of the last configuration for it. */
  lemma {:induction false} MinFundsIsLastMatch(configs: seq<PositionConfig>, productId: string, i: nat)
    requires i < |configs| && configs[i].id == productId
    requires forall k :: i < k < |configs| ==> configs[k].id != productId
    ensures MinFunds(configs, productId) == configs[i].funds
    decreases |configs|
  {
    var n := |configs| - 1;
    if i < n {
      var init := configs[..n];
      assert forall k :: 0 <= k < |init| ==> init[k] == configs[k];
      MinFundsIsLastMatch(init, productId, i);
    }
  }

  /** The funds check of an instrument with minimum balance `min`: nothing
      without a product or a matching account, an error if the accounts
      cannot be listed, and otherwise whether the first account in the
      product's quote currency holds strictly more than `min`. */
  function FundsCheck(min: Decimal, product: Option<Product>, accounts: ListReply<Account>): (r: Reply<bool>)
    ensures product.None? ==> r.Empty?
    ensures product.Some? && accounts.StreamError? ==> r.Error?
    ensures r.Value? <==> product.Some? && accounts.Items? && FirstAccount(accounts.items, product.value.quoteCurrency).Some?
    ensures r.Value? ==> (r.value <==> Less(min, FirstAccount(accounts.items, product.value.quoteCurrency).value.balance))
  {
    match product
    case None => Empty
    case Some(p) =>
      match accounts
      case StreamError => Error
      case Items(all) =>
        match FirstAccount(all, p.quoteCurrency)
        case None => Empty
        case Some(a) => Value(Less(min, a.balance))
  }

  /** The day-range band of a tick: a quarter of the 24-hour range, rounded
      half-up at the range's scale, in from either end. */
  function Band(tick: PriceTick): (r: (Decimal, Decimal))
  {
    var increment := Divide(Subtract(tick.twentyFourHourHigh, tick.twentyFourHourLow), Decimal(4, 0), HalfUp).value;
    (Add(tick.twentyFourHourLow, increment), Subtract(tick.twentyFourHourHigh, increment))
  }

  /** Open when the price lies strictly inside the band. */
  predicate DayRangeDecision(tick: PriceTick)
  {
    var (start, end) := Band(tick);
    Less(start, tick.price) && Less(tick.price, end)
  }

  /** When the 24-hour range is well formed, the band lies inside it; when
      it is inverted the band is empty. */
  lemma BandInsideRange(tick: PriceTick)
    ensures var (start, end) := Band(tick);
      && (LessEq(tick.twentyFourHourLow, tick.twentyFourHourHigh) ==>
            LessEq(tick.twentyFourHourLow, start) && LessEq(end, tick.twentyFourHourHigh))
      && (Less(tick.twentyFourHourHigh, tick.twentyFourHourLow) ==> LessEq(end, start))
  {
    var high, low := tick.twentyFourHourHigh, tick.twentyFourHourLow;
    var d := Subtract(high, low);
    var h := d.scale;
    assert Pow10(0) == 1;
    var increment := Divide(d, Decimal(4, 0), HalfUp).value;
    var (start, end) := Band(tick);
    var L, H, I := Align(low, h), Align(high, h), increment.unscaled;
    assert Align(d, h) == d.unscaled;
    assert d.unscaled == H - L;
    assert -4 <= 2 * (d.unscaled - I * 4) <= 4;
    assert Align(increment, h) == I;
    assert Align(start, h) == L + I;
    assert Align(end, h) == H - I;
    CompareAt(low, high, h);
    CompareAt(high, low, h);
    CompareAt(low, start, h);
    CompareAt(end, high, h);
    CompareAt(end, start, h);
  }

  /** A position is only opened at a price strictly inside the 24-hour range. */
  lemma DecisionWithinRange(tick: PriceTick)
    ensures DayRangeDecision(tick) ==>
      Less(tick.twentyFourHourLow, tick.price) && Less(tick.price, tick.twentyFourHourHigh)
  {
    var high, low, price := tick.twentyFourHourHigh, tick.twentyFourHourLow, tick.price;
    var (start, end) := Band(tick);
    BandInsideRange(tick);
    var m := Max(Max(high.scale, low.scale), price.scale);
    CompareAt(low, high, m);
    CompareAt(start, price, m);
    CompareAt(price, end, m);
    CompareAt(end, start, m);
    CompareAt(low, start, m);
    CompareAt(end, high, m);
    CompareAt(low, price, m);
    CompareAt(price, high, m);
  }

  /** A range of 40000 to 50000 gives the band 42500 to 47500: 45000 opens;
      41000, 49000 and the band's own start 42500 do not. */
  lemma DayRangeExample()
    ensures DayRangeDecision(PriceTick(Decimal(45000, 0), "BTC-USD", "", Zero, Zero, Decimal(50000, 0), Decimal(40000, 0)))
    ensures !DayRangeDecision(PriceTick(Decimal(49000, 0), "BTC-USD", "", Zero, Zero, Decimal(50000, 0), Decimal(40000, 0)))
    ensures !DayRangeDecision(PriceTick(Decimal(42500, 0), "BTC-USD", "", Zero, Zero, Decimal(50000, 0), Decimal(40000, 0)))
    ensures !DayRangeDecision(PriceTick(Decimal(41000, 0), "BTC-USD", "", Zero, Zero, Decimal(50000, 0), Decimal(40000, 0)))
  {
    assert Pow10(0) == 1;
    ExampleBand(Decimal(45000, 0));
    ExampleBand(Decimal(49000, 0));
    ExampleBand(Decimal(42500, 0));
    ExampleBand(Decimal(41000, 0));
  }

  /** The band of the range 40000 to 50000, whatever the price. */
  lemma ExampleBand(price: Decimal)
    ensures Band(PriceTick(price, "BTC-USD", "", Zero, Zero, Decimal(50000, 0), Decimal(40000, 0)))
      == (Decimal(42500, 0), Decimal(47500, 0))
  {
    var high, low := Decimal(50000, 0), Decimal(40000, 0);
    assert Pow10(0) == 1;
    assert Subtract(high, low) == Decimal(10000, 0);
    assert DivRoundPositive(10000, 4, HalfUp) == 20004 / 8 == 2500;
    assert Divide(Decimal(10000, 0), Decimal(4, 0), HalfUp) == Some(Decimal(2500, 0));
    assert Add(low, Decimal(2500, 0)) == Decimal(42500, 0);
    assert Subtract(high, Decimal(2500, 0)) == Decimal(47500, 0);
  }

  /** The day-range strategy: the latest decision per instrument, replaced
      on every tick, behind the funds gate. */
  class DayRangeStrategy {
    const configs: seq<PositionConfig>
    const repository: ProductRepository
    var decisions: map<string, bool>

    constructor (configs: seq<PositionConfig>, repository: ProductRepository)
      ensures this.configs == configs && this.repository == repository && decisions == map[]
    {
      this.configs := configs;
      this.repository := repository;
      decisions := map[];
    }

    /** `decide`: only the tick's instrument's decision is replaced. */
    method Decide(tick: PriceTick)
      modifies this`decisions
      ensures decisions == old(decisions)[tick.productId := DayRangeDecision(tick)]
    {
      var high, low := tick.twentyFourHourHigh, tick.twentyFourHourLow;
      var increment := Divide(Subtract(high, low), Decimal(4, 0), HalfUp).value;
      var start := Add(low, increment);
      var end := Subtract(high, increment);
      var decision := Less(tick.price, end) && Less(start, tick.price);
      decisions := decisions[tick.productId := decision];
    }

    /** `shouldOpen`: the latest decision, false before the first tick. */
    function ShouldOpen(productId: string): (open: bool)
      reads this
      ensures open <==> productId in decisions && decisions[productId]
    {
      if productId in decisions then decisions[productId] else false
    }

    /** `checkFunds`: the minimum is found by a scan of the configurations,
        then the product and the accounts are consulted. */
    method CheckFunds(productId: string, accounts: ListReply<Account>) returns (r: Reply<bool>)
      ensures r == FundsCheck(MinFunds(configs, productId), repository.Product(productId), accounts)
    {
      var min := Zero;
      for i := 0 to |configs|
        invariant min == MinFunds(configs[..i], productId)
      {
        assert configs[..i + 1][..i] == configs[..i];
        if configs[i].id == productId {
          min := configs[i].funds;
        }
      }
      assert configs[..|configs|] == configs;
      var product := repository.Product(productId);
      match product {
        case None =>
          r := Empty;
        case Some(p) =>
          match accounts {
            case StreamError =>
              r := Error;
            case Items(all) =>
              var account := FirstAccount(all, p.quoteCurrency);
              r := if account.Some? then Value(Less(min, account.value.balance)) else Empty;
          }
      }
    }
  }

  /** The strategies a configuration can name. */
  datatype Strategy = AlwaysTrue | AlwaysFalse | DayRange(dayRange: DayRangeStrategy)

  /** The answer of a strategy for an instrument, given the accounts the
      funds check would list. */
  function OpenDecision(strategy: Strategy, productId: string, accounts: ListReply<Account>): (r: Reply<bool>)
    reads if strategy.DayRange? then {strategy.dayRange, strategy.dayRange.repository} else {}
    ensures strategy.AlwaysTrue? ==> r == Value(true)
    ensures strategy.AlwaysFalse? ==> r == Value(false)
    ensures strategy.DayRange? ==>
      (r == Value(true) <==>
         && FundsCheck(MinFunds(strategy.dayRange.configs, productId),
                       strategy.dayRange.repository.Product(productId), accounts) == Value(true)
         && strategy.dayRange.ShouldOpen(productId))
  {
    match strategy
    case AlwaysTrue => Value(true)
    case AlwaysFalse => Value(false)
    case DayRange(s) =>
      Gate(FundsCheck(MinFunds(s.configs, productId), s.repository.Product(productId), accounts), s.ShouldOpen(productId))
  }

  /** `openPosition`: the accounts the funds check would list are a
      parameter. */
  method OpenPosition(strategy: Strategy, productId: string, accounts: ListReply<Account>) returns (r: Reply<bool>)
    ensures r == OpenDecision(strategy, productId, accounts)
  {
    match strategy {
      case AlwaysTrue =>
        r := Value(true);
      case AlwaysFalse =>
        r := Value(false);
      case DayRange(s) =>
        var funds := s.CheckFunds(productId, accounts);
        r := Gate(funds, s.ShouldOpen(productId));
    }
  }

  /** Whatever the strategy's own decision, insufficient funds never open. */
  lemma InsufficientFundsNeverOpen(s: DayRangeStrategy, productId: string, accounts: ListReply<Account>)
    requires FundsCheck(MinFunds(s.configs, productId), s.repository.Product(productId), accounts) == Value(false)
    ensures OpenDecision(DayRange(s), productId, accounts) == Value(false)
  {
  }
}
