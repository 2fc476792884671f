/** The exchange's streaming handler: on connection it subscribes for the
    configured instruments, and then keeps the latest price tick of each
    instrument from the "ticker" messages it receives. */
module CoinbaseStream {
  import opened Common
  import opened Decimals
  import opened Api
  import opened Products

  /** A parsed message of the stream, reduced to the fields the handler
      reads (the statistics arrive as text and are taken here as parsed). */
  datatype StreamMessage = StreamMessage(
    messageType: string,
    productId: string,
    price: Decimal,
    time: string,
    twentyFourHourOpen: Decimal,
    twentyFourHourVolume: Decimal,
    twentyFourHourHigh: Decimal,
    twentyFourHourLow: Decimal)

  /** The signed subscription request. */
  datatype SubscriptionMessage = SubscriptionMessage(
    messageType: string,
    channels: seq<string>,
    productIds: seq<string>,
    signature: string,
    key: string,
    passphrase: string,
    timestamp: string)

  /** The API credentials of the connection. */
  datatype Credentials = Credentials(key: string, secret: string, passphrase: string)

  /** The request-signing routine: secret, path, method, body, timestamp. */
  type Signer = (string, string, string, string, string) -> string

  /** The tick a ticker message stands for: every field copied. */
  function TickOf(m: StreamMessage): (t: PriceTick)
    ensures t.productId == m.productId && t.price == m.price && t.time == m.time
    ensures t.twentyFourHourOpen == m.twentyFourHourOpen && t.twentyFourHourVolume == m.twentyFourHourVolume
    ensures t.twentyFourHourHigh == m.twentyFourHourHigh && t.twentyFourHourLow == m.twentyFourHourLow
  {
    PriceTick(m.price, m.productId, m.time, m.twentyFourHourOpen, m.twentyFourHourVolume,
              m.twentyFourHourHigh, m.twentyFourHourLow)
  }

  /** The tick map after a message: a ticker message overwrites its
      instrument's entry, any other message leaves the map alone. */
  function AfterMessage(ticks: map<string, PriceTick>, m: StreamMessage): map<string, PriceTick>
  {
    if m.messageType == "ticker" then ticks[m.productId := TickOf(m)] else ticks
  }

  /** The tick map after a sequence of messages, in order. */
  function AfterMessages(ticks: map<string, PriceTick>, ms: seq<StreamMessage>): map<string, PriceTick>
    decreases |ms|
  {
    if |ms| == 0 then ticks else AfterMessages(AfterMessage(ticks, ms[0]), ms[1..])
  }

  predicate TickerFor(m: StreamMessage, productId: string)
  {
    m.messageType == "ticker" && m.productId == productId
  }

  /** Messages without a ticker for an instrument leave its entry alone. */
  lemma {:induction false} OtherMessagesKeepTick(ticks: map<string, PriceTick>, ms: seq<StreamMessage>, productId: string)
    requires forall i :: 0 <= i < |ms| ==> !TickerFor(ms[i], productId)
    ensures productId in AfterMessages(ticks, ms) <==> productId in ticks
    ensures productId in ticks ==> AfterMessages(ticks, ms)[productId] == ticks[productId]
    decreases |ms|
  {
    if |ms| > 0 {
      assert forall i :: 0 <= i < |ms[1..]| ==> ms[1..][i] == ms[i + 1];
      OtherMessagesKeepTick(AfterMessage(ticks, ms[0]), ms[1..], productId);
    }
  }

  /** Last write wins: an instrument's entry is the tick of its last ticker
      message. */
  lemma {:induction false} LastTickerWins(ticks: map<string, PriceTick>, ms: seq<StreamMessage>, productId: string, i: nat)
    requires i < |ms| && TickerFor(ms[i], productId)
    requires forall j :: i < j < |ms| ==> !TickerFor(ms[j], productId)
    ensures productId in AfterMessages(ticks, ms) && AfterMessages(ticks, ms)[productId] == TickOf(ms[i])
    decreases |ms|
  {
    var rest := ms[1..];
    assert forall j :: 0 <= j < |rest| ==> rest[j] == ms[j + 1];
    if i > 0 {
      LastTickerWins(AfterMessage(ticks, ms[0]), rest, productId, i - 1);
    } else {
      OtherMessagesKeepTick(AfterMessage(ticks, ms[0]), rest, productId);
    }
  }

  /** The ids the handler subscribes for: the id of each configured
      instrument whose product is cached, in configuration order. */
  function SubscribedIds(configs: seq<PositionConfig>, products: map<string, Product>): (ids: seq<string>)
    ensures |ids| <= |configs|
    decreases |configs|
  {
    if |configs| == 0 then []
    else
      var init := SubscribedIds(configs[..|configs| - 1], products);
      var last := configs[|configs| - 1].id;
      if last in products then init + [products[last].id] else init
  }

  /** Every cached configured product is subscribed for, and nothing else. */
  lemma {:induction false} SubscribedExactly(configs: seq<PositionConfig>, products: map<string, Product>, id: string)
    ensures id in SubscribedIds(configs, products) <==>
      exists i :: 0 <= i < |configs| && configs[i].id in products && products[configs[i].id].id == id
    decreases |configs|
  {
    if |configs| > 0 {
      var n := |configs| - 1;
      var init := configs[..n];
      SubscribedExactly(init, products, id);
      assert forall i :: 0 <= i < n ==> init[i] == configs[i];
      if exists i :: 0 <= i < |configs| && configs[i].id in products && products[configs[i].id].id == id {
        var i :| 0 <= i < |configs| && configs[i].id in products && products[configs[i].id].id == id;
        if i < n {
          assert init[i].id in products && products[init[i].id].id == id;
        }
      }
    }
  }

  /** The ids keep configuration order: the ids of two lists of
      configurations one after the other are the ids of each, one after the
      other. With `SubscribedSingle`, a configuration listed twice is
      subscribed for twice. */
  lemma {:induction false} SubscribedInOrder(a: seq<PositionConfig>, b: seq<PositionConfig>, products: map<string, Product>)
    ensures SubscribedIds(a + b, products) == SubscribedIds(a, products) + SubscribedIds(b, products)
    decreases |b|
  {
    if |b| == 0 {
      assert a + b == a;
    } else {
      var n := |b| - 1;
      var ab := a + b;
      SubscribedInOrder(a, b[..n], products);
      assert ab[..|ab| - 1] == a + b[..n];
      assert ab[|ab| - 1] == b[n];
      var last := if b[n].id in products then [products[b[n].id].id] else [];
      assert SubscribedIds(ab, products) == SubscribedIds(a + b[..n], products) + last;
      assert SubscribedIds(b, products) == SubscribedIds(b[..n], products) + last;
    }
  }

  /** A single configuration gives its cached product's id, or nothing. */
  lemma SubscribedSingle(c: PositionConfig, products: map<string, Product>)
    ensures SubscribedIds([c], products) == if c.id in products then [products[c.id].id] else []
  {
    assert [c][..0] == [];
  }

  /** `subscriptionPayload`: a subscription to the heartbeat, user and
      ticker channels for `ids`, signed over a GET of `/users/self/verify`
      with an empty body at the message's own timestamp. */
  function SubscriptionPayload(credentials: Credentials, ids: seq<string>, timestamp: string, sign: Signer): (m: SubscriptionMessage)
    ensures m.messageType == "subscribe" && m.channels == ["heartbeat", "user", "ticker"]
    ensures m.productIds == ids && m.timestamp == timestamp
    ensures m.key == credentials.key && m.passphrase == credentials.passphrase
    ensures m.signature == sign(credentials.secret, "/users/self/verify", "GET", "", m.timestamp)
  {
    var signature := sign(credentials.secret, "/users/self/verify", "GET", "", timestamp);
    SubscriptionMessage("subscribe", ["heartbeat", "user", "ticker"], ids, signature,
                        credentials.key, credentials.passphrase, timestamp)
  }

  class CoinbaseWebSocketHandler {
    const credentials: Credentials
    const configs: seq<PositionConfig>
    const repository: ProductRepository
    var ticks: map<string, PriceTick>

    constructor (credentials: Credentials, configs: seq<PositionConfig>, repository: ProductRepository)
      ensures this.credentials == credentials && this.configs == configs && this.repository == repository
      ensures ticks == map[]
    {
      this.credentials := credentials;
      this.configs := configs;
      this.repository := repository;
      ticks := map[];
    }

    /** `updatePrice`: the message's instrument gets the message's tick. */
    method UpdatePrice(m: StreamMessage)
      modifies this`ticks
      ensures ticks == old(ticks)[m.productId := TickOf(m)]
    {
      ticks := ticks[m.productId := TickOf(m)];
    }

    /** `handleResponse`: only a ticker message updates the prices; the
        message itself is passed on. */
    method HandleResponse(m: StreamMessage) returns (passed: StreamMessage)
      modifies this`ticks
      ensures ticks == AfterMessage(old(ticks), m)
      ensures passed == m
    {
      if m.messageType == "ticker" {
        UpdatePrice(m);
      }
      passed := m;
    }

    /** The id collection of `handle`: each configured instrument is looked
        up in the cache, and the found products' ids are gathered in order. */
    method CollectIds() returns (ids: seq<string>)
      ensures ids == SubscribedIds(configs, repository.products)
    {
      ids := [];
      for i := 0 to |configs|
        invariant ids == SubscribedIds(configs[..i], repository.products)
      {
        assert configs[..i + 1][..i] == configs[..i];
        var product := repository.Product(configs[i].id);
        if product.Some? {
          ids := ids + [product.value.id];
        }
      }
      assert configs[..|configs|] == configs;
    }

    /** `handle`: subscribe for the collected ids, then handle every
        received message in order. */
    method Handle(received: seq<StreamMessage>, timestamp: string, sign: Signer)
      returns (subscription: SubscriptionMessage, passed: seq<StreamMessage>)
      modifies this`ticks
      ensures subscription == SubscriptionPayload(credentials, SubscribedIds(configs, repository.products), timestamp, sign)
      ensures passed == received
      ensures ticks == AfterMessages(old(ticks), received)
    {
      var ids := CollectIds();
      subscription := SubscriptionPayload(credentials, ids, timestamp, sign);
      passed := [];
      var i := 0;
      while i < |received|
        invariant 0 <= i <= |received|
        invariant passed == received[..i]
        invariant AfterMessages(ticks, received[i..]) == AfterMessages(old(ticks), received)
      {
        assert received[i..][1..] == received[i + 1..];
        var m := HandleResponse(received[i]);
        passed := passed + [m];
        i := i + 1;
      }
      assert received[..|received|] == received;
    }
  }
}
