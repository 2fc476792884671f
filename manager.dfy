/** The position manager: for each configured instrument, on every interval
    tick, count the instrument's outstanding orders, consult the configured
    strategy while below the cap, and open a position when it says yes. The
    interval itself is scheduling; one call of `Manage` is one tick. */
module Manager {
  import opened Common
  import opened Api
  import opened PositionExecution
  import opened Positions
  import opened Products
  import opened Strategies

  /** The number of orders for an instrument. */
  function CountFor(orders: seq<Order>, productId: string): (n: nat)
    ensures n <= |orders|
    ensures n == 0 <==> forall i :: 0 <= i < |orders| ==> orders[i].productId != productId
    ensures n == |orders| <==> forall i :: 0 <= i < |orders| ==> orders[i].productId == productId
    decreases |orders|
  {
    if |orders| == 0 then 0
    else
      var init := orders[..|orders| - 1];
      assert forall i :: 0 <= i < |init| ==> init[i] == orders[i];
      CountFor(init, productId) + (if orders[|orders| - 1].productId == productId then 1 else 0)
  }

  /** The counting of `manage`: one pass over the listed orders. */
  method CountOrders(orders: seq<Order>, productId: string) returns (count: nat)
    ensures count == CountFor(orders, productId)
  {
    count := 0;
    for i := 0 to |orders|
      invariant count == CountFor(orders[..i], productId)
    {
      var prefix := orders[..i + 1];
      assert prefix[..|prefix| - 1] == orders[..i] && prefix[|prefix| - 1] == orders[i];
      if orders[i].productId == productId {
        count := count + 1;
      }
    }
    assert orders[..|orders|] == orders;
  }

  /** The configuration a new position of an instrument gets: the first one
      with the instrument's id. */
  function ConfigFor(configs: seq<PositionConfig>, productId: string): (r: Option<PositionConfig>)
    ensures r.None? <==> forall i :: 0 <= i < |configs| ==> configs[i].id != productId
    ensures forall i :: (0 <= i < |configs| && configs[i].id == productId &&
                         (forall j :: 0 <= j < i ==> configs[j].id != productId)) ==> r == Some(configs[i])
    decreases |configs|
  {
    if |configs| == 0 then None
    else if configs[0].id == productId then Some(configs[0])
    else
      assert forall i :: 1 <= i < |configs| ==> configs[i] == configs[1..][i - 1];
      ConfigFor(configs[1..], productId)
  }

  /** The instruments `init` starts managing: each configuration whose
      product is cached, with that product, in configuration order. */
  function Managed(configs: seq<PositionConfig>, products: map<string, Product>): (r: seq<(Product, PositionConfig)>)
    ensures |r| <= |configs|
    ensures forall k :: 0 <= k < |r| ==> r[k].1 in configs && r[k].1.id in products && r[k].0 == products[r[k].1.id]
    decreases |configs|
  {
    if |configs| == 0 then []
    else
      var rest := Managed(configs[1..], products);
      assert forall c :: c in configs[1..] ==> c in configs;
      if configs[0].id in products then [(products[configs[0].id], configs[0])] + rest else rest
  }

  /** Every configuration with a cached product is managed, and no other. */
  lemma {:induction false} ManagedExactly(configs: seq<PositionConfig>, products: map<string, Product>, c: PositionConfig)
    ensures (exists k :: 0 <= k < |Managed(configs, products)| && Managed(configs, products)[k].1 == c) <==>
      c in configs && c.id in products
    decreases |configs|
  {
    var r := Managed(configs, products);
    if c in configs && c.id in products {
      if c == configs[0] {
        assert r[0].1 == c;
      } else {
        var rest := Managed(configs[1..], products);
        assert c in configs[1..];
        ManagedExactly(configs[1..], products, c);
        var k :| 0 <= k < |rest| && rest[k].1 == c;
        if configs[0].id in products {
          assert r == [(products[configs[0].id], configs[0])] + rest;
          assert r[k + 1].1 == c;
        } else {
          assert r[k].1 == c;
        }
      }
    }
  }

  /** Configuration order is kept: the instruments managed for two lists
      one after the other are those of each, one after the other. */
  lemma {:induction false} ManagedInOrder(a: seq<PositionConfig>, b: seq<PositionConfig>, products: map<string, Product>)
    ensures Managed(a + b, products) == Managed(a, products) + Managed(b, products)
    decreases |a|
  {
    if |a| == 0 {
      assert a + b == b;
    } else {
      var ab := a + b;
      assert ab[0] == a[0] && ab[1..] == a[1..] + b;
      ManagedInOrder(a[1..], b, products);
    }
  }

  /** A single configuration is managed with its cached product, or not at all. */
  lemma ManagedSingle(c: PositionConfig, products: map<string, Product>)
    ensures Managed([c], products) == if c.id in products then [(products[c.id], c)] else []
  {
    assert [c][1..] == [];
  }

  /** Why a new position could not be opened: no cached product, or no
      configuration for it (the position factory throws). */
  datatype NewPositionResult = Opened(id: string) | UnknownProduct | NoConfig

  /** What one tick of `manage` did. A failed order listing is dropped; a
      strategy name no bean answers to throws in the callback and is
      dropped too. */
  datatype ManageOutcome =
    | OrdersUnavailable
    | AtCapacity(count: nat)
    | StrategyMissing
    | NotOpened(decision: Reply<bool>)
    | Open(result: NewPositionResult)

  class PositionManager {
    const repository: ProductRepository
    const configs: seq<PositionConfig>
    var positions: map<string, Position>

    /** Every position is stored under its own id. */
    ghost predicate Valid()
      reads this
    {
      forall id :: id in positions ==> positions[id].id == id
    }

    constructor (repository: ProductRepository, configs: seq<PositionConfig>)
      ensures this.repository == repository && this.configs == configs && positions == map[]
      ensures Valid()
    {
      this.repository := repository;
      this.configs := configs;
      positions := map[];
    }

    /** `init`: the instruments to manage, one per configuration with a
        cached product. */
    method Init() returns (managed: seq<(Product, PositionConfig)>)
      ensures managed == Managed(configs, repository.products)
    {
      managed := [];
      var i := |configs|;
      while i > 0
        invariant 0 <= i <= |configs|
        invariant managed == Managed(configs[i..], repository.products)
      {
        i := i - 1;
        assert configs[i..][1..] == configs[i + 1..];
        var product := repository.Product(configs[i].id);
        if product.Some? {
          managed := [(product.value, configs[i])] + managed;
        }
      }
    }

    /** The private `newPosition(product)`: a position with the first
        configuration for the instrument is created, run, and stored under
        its id. */
    method NewPositionFor(product: Product, newId: string, x: Exchange, now: int) returns (result: NewPositionResult)
      requires Valid()
      modifies this`positions
      ensures Valid()
      ensures result.NoConfig? <==> ConfigFor(configs, product.id).None?
      ensures result.NoConfig? ==> positions == old(positions)
      ensures result.Opened? ==>
        && result.id == newId && newId in positions
        && positions.Keys == old(positions).Keys + {newId}
        && (forall id :: id in old(positions) && id != newId ==> positions[id] == old(positions)[id])
        && fresh(positions[newId])
        && positions[newId].config == ConfigFor(configs, product.id).value
        && positions[newId].product == product
        && positions[newId].stateChanges ==
             Records(New, LifecycleSteps(positions[newId].config, product, BuyOutcome(x), SellOutcome(x)), now)
      ensures !result.UnknownProduct?
    {
      var config := ConfigFor(configs, product.id);
      if config.None? {
        return NoConfig;
      }
      var p, calls := Lifecycle(newId, config.value, product, x, now);
      positions := positions[p.id := p];
      result := Opened(p.id);
    }

    /** The public `newPosition(productId)`: nothing for an instrument that
        is not cached. */
    method NewPosition(productId: string, newId: string, x: Exchange, now: int) returns (result: NewPositionResult)
      requires Valid()
      modifies this`positions
      ensures Valid()
      ensures result.UnknownProduct? <==> productId !in repository.products
      ensures result.NoConfig? <==> productId in repository.products && ConfigFor(configs, repository.products[productId].id).None?
      ensures !result.Opened? ==> positions == old(positions)
      ensures result.Opened? ==>
        && result.id == newId && positions.Keys == old(positions).Keys + {newId}
        && (forall id :: id in old(positions) && id != newId ==> positions[id] == old(positions)[id])
        && fresh(positions[newId])
        && positions[newId].config == ConfigFor(configs, repository.products[productId].id).value
        && positions[newId].product == repository.products[productId]
        && positions[newId].stateChanges ==
             Records(New, LifecycleSteps(positions[newId].config, positions[newId].product, BuyOutcome(x), SellOutcome(x)), now)
    {
      var product := repository.Product(productId);
      if product.None? {
        return UnknownProduct;
      }
      result := NewPositionFor(product.value, newId, x, now);
    }

    /** One tick of `manage` for an instrument: the orders are listed, the
        strategy is consulted only below the configured cap, and a position
        is opened only on a true answer. */
    method Manage(product: Product, config: PositionConfig, orders: ListReply<Order>,
                  strategies: map<string, Strategy>, accounts: ListReply<Account>,
                  newId: string, x: Exchange, now: int)
      returns (outcome: ManageOutcome)
      requires Valid()
      modifies this`positions
      ensures Valid()
      ensures outcome.OrdersUnavailable? <==> orders.StreamError?
      ensures orders.Items? && CountFor(orders.items, product.id) >= config.max ==>
        outcome == AtCapacity(CountFor(orders.items, product.id))
      ensures outcome.StrategyMissing? <==>
        orders.Items? && CountFor(orders.items, product.id) < config.max && config.strategy !in strategies
      ensures outcome.Open? <==>
        && orders.Items? && CountFor(orders.items, product.id) < config.max && config.strategy in strategies
        && OpenDecision(strategies[config.strategy], product.id, accounts) == Value(true)
      ensures outcome.NotOpened? ==> outcome.decision == OpenDecision(strategies[config.strategy], product.id, accounts)
      ensures !(outcome.Open? && outcome.result.Opened?) ==> positions == old(positions)
      ensures outcome.Open? ==> !outcome.result.UnknownProduct?
      ensures outcome.Open? ==> (outcome.result.NoConfig? <==> ConfigFor(configs, product.id).None?)
      ensures outcome.Open? && outcome.result.Opened? ==>
        && outcome.result.id == newId && positions.Keys == old(positions).Keys + {newId}
        && (forall id :: id in old(positions) && id != newId ==> positions[id] == old(positions)[id])
        && fresh(positions[newId])
        && positions[newId].config == ConfigFor(configs, product.id).value
        && positions[newId].product == product
        && positions[newId].stateChanges ==
             Records(New, LifecycleSteps(positions[newId].config, product, BuyOutcome(x), SellOutcome(x)), now)
    {
      match orders {
        case StreamError =>
          return OrdersUnavailable;
        case Items(all) =>
          var count := CountOrders(all, product.id);
          if count >= config.max {
            return AtCapacity(count);
          }
          if config.strategy !in strategies {
            return StrategyMissing;
          }
          var decision := OpenPosition(strategies[config.strategy], product.id, accounts);
          if decision != Value(true) {
            return NotOpened(decision);
          }
          var r := NewPositionFor(product, newId, x, now);
          outcome := Open(r);
      }
    }

    /** `getPosition`: a null id throws; an unknown one answers nothing. */
    function GetPosition(transactionId: Option<string>): (r: Reply<Position>)
      reads this
      ensures r.Error? <==> transactionId.None?
      ensures r.Value? <==> transactionId.Some? && transactionId.value in positions
      ensures r.Value? ==> r.value == positions[transactionId.value]
    {
      match transactionId
      case None => Error
      case Some(id) => if id in positions then Value(positions[id]) else Empty
    }
  }
}
