/**
  The application component: it loads, for the connected account, the orders
  in which that account is the consumer or the producer; it remembers which
  order is selected and the viewer's roles on it; and it submits new orders
  with the price attached as payment.

  Calls to the wallet and the contract are not modelled: the contract's
  order records arrive as a sequence (`orders(i)` for `i` below
  `orderCount()`), and the wei amount of a new order as a number.
 */
module App {
  import opened Wrappers
  import opened OrderStatus

  // ---------------------------------------------------------------------
  // Records
  // ---------------------------------------------------------------------

  /** An order record as the contract's `orders(i)` returns it. */
  datatype ChainOrder = ChainOrder(
    consumer: string,
    producer: string,
    productId: nat,
    productName: string,
    productPrice: nat,        // wei
    purchaseTime: int,        // Unix seconds
    deliveryTime: int,        // Unix seconds, 0 when unset
    status: int,              // status code
    consumerConfirmedDelivery: bool,
    producerConfirmedShipment: bool)

  /** How the delivery time is presented: not yet, or at a timestamp. */
  datatype DeliveryText = NotDeliveredYet | DeliveredAt(timestamp: int)

  /** An order as the client keeps it for display, tagged with its index and the viewer's roles. */
  datatype OrderView = OrderView(
    id: nat,
    consumer: string,
    producer: string,
    productId: string,
    productName: string,
    productPrice: nat,        // wei; its ether rendering is not modelled
    purchaseTime: int,        // its locale rendering is not modelled
    deliveryTime: DeliveryText,
    status: string,
    consumerConfirmedDelivery: bool,
    producerConfirmedShipment: bool,
    isConsumer: bool,
    isProducer: bool)

  // ---------------------------------------------------------------------
  // Case-insensitive address comparison
  // ---------------------------------------------------------------------

  function LowerChar(c: char): char
  {
    if 'A' <= c <= 'Z' then (c as int + 32) as char else c
  }

  /** `toLowerCase` on the ASCII letters, which is all an address holds. */
  function ToLower(s: string): (r: string)
    ensures |r| == |s|
    ensures forall i :: 0 <= i < |s| ==> r[i] == LowerChar(s[i])
  {
    seq(|s|, i requires 0 <= i < |s| => LowerChar(s[i]))
  }

  /** Two addresses name the same account when they agree after lowercasing. */
  predicate SameAddress(a: string, b: string)
    ensures SameAddress(a, b) <==>
              |a| == |b| && forall i :: 0 <= i < |a| ==> LowerChar(a[i]) == LowerChar(b[i])
  {
    ToLower(a) == ToLower(b)
  }

  /** Lowercasing twice is lowercasing once. */
  lemma ToLowerIdempotent(s: string)
    ensures ToLower(ToLower(s)) == ToLower(s)
  {
  }

  /** Address comparison differs from plain equality only in letter case. */
  lemma SameAddressIsCaseInsensitive(a: string, b: string)
    ensures a == b ==> SameAddress(a, b)
    ensures ToLower(a) == a && ToLower(b) == b ==> (SameAddress(a, b) <==> a == b)
    ensures SameAddress(a, b) <==> SameAddress(b, a)
    ensures SameAddress(a, b) ==> |a| == |b|
  {
  }

  // ---------------------------------------------------------------------
  // Decimal rendering of a product id (`toString`)
  // ---------------------------------------------------------------------

  function DigitChar(d: nat): char
    requires d < 10
  {
    ('0' as int + d) as char
  }

  predicate IsDigit(c: char) { '0' <= c <= '9' }

  function DigitValue(c: char): nat
    requires IsDigit(c)
  {
    c as int - '0' as int
  }

  /** The decimal digits of `n`, most significant first, without leading zeros. */
  function DecimalString(n: nat): (s: string)
    ensures 0 < |s|
    ensures forall i :: 0 <= i < |s| ==> IsDigit(s[i])
    ensures |s| > 1 ==> s[0] != '0'
    decreases n
  {
    if n < 10 then [DigitChar(n)] else DecimalString(n / 10) + [DigitChar(n % 10)]
  }

  /** The number a string of decimal digits denotes. */
  function DecimalValue(s: string): nat
    requires forall i :: 0 <= i < |s| ==> IsDigit(s[i])
    decreases |s|
  {
    if s == [] then 0 else 10 * DecimalValue(s[..|s| - 1]) + DigitValue(s[|s| - 1])
  }

  /** Reading a rendered id gives back the id. */
  lemma {:induction false} DecimalRoundTrip(n: nat)
    ensures DecimalValue(DecimalString(n)) == n
    decreases n
  {
    var s := DecimalString(n);
    if n >= 10 {
      DecimalRoundTrip(n / 10);
      assert s[..|s| - 1] == DecimalString(n / 10);
    }
  }

  /** Distinct ids are rendered differently. */
  lemma DecimalStringInjective(m: nat, n: nat)
    ensures DecimalString(m) == DecimalString(n) ==> m == n
  {
    DecimalRoundTrip(m);
    DecimalRoundTrip(n);
  }

  // ---------------------------------------------------------------------
  // loadOrders
  // ---------------------------------------------------------------------

  /** The account is a party to the order: its consumer or its producer. */
  predicate IsParty(order: ChainOrder, userAddress: string)
    ensures IsParty(order, userAddress) <==>
              Project(order, 0, userAddress).isConsumer || Project(order, 0, userAddress).isProducer
  {
    SameAddress(order.consumer, userAddress) || SameAddress(order.producer, userAddress)
  }

  /** The display record `loadOrders` pushes for the order at index `i`. */
  function Project(order: ChainOrder, i: nat, userAddress: string): (v: OrderView)
    ensures v.id == i
    ensures && v.consumer == order.consumer && v.producer == order.producer
            && v.productName == order.productName && v.productPrice == order.productPrice
            && v.consumerConfirmedDelivery == order.consumerConfirmedDelivery
            && v.producerConfirmedShipment == order.producerConfirmedShipment
    ensures v.productId == DecimalString(order.productId) && DecimalValue(v.productId) == order.productId
    ensures v.deliveryTime == NotDeliveredYet <==> order.deliveryTime == 0
    ensures v.deliveryTime.DeliveredAt? ==> v.deliveryTime.timestamp == order.deliveryTime
    ensures v.purchaseTime == order.purchaseTime
    ensures ParseLabel(v.status) == FromCode(order.status)
    ensures FromCode(order.status).None? ==> v.status == UnknownLabel
    ensures FromCode(order.status).Some? ==> v.status == Name(FromCode(order.status).value)
    ensures v.isConsumer == SameAddress(order.consumer, userAddress)
    ensures v.isProducer == SameAddress(order.producer, userAddress)
  {
    DecimalRoundTrip(order.productId);
    OrderView(
      id := i,
      consumer := order.consumer,
      producer := order.producer,
      productId := DecimalString(order.productId),
      productName := order.productName,
      productPrice := order.productPrice,
      purchaseTime := order.purchaseTime,
      deliveryTime := if order.deliveryTime == 0 then NotDeliveredYet else DeliveredAt(order.deliveryTime),
      status := StatusText(order.status),
      consumerConfirmedDelivery := order.consumerConfirmedDelivery,
      producerConfirmedShipment := order.producerConfirmedShipment,
      isConsumer := SameAddress(order.consumer, userAddress),
      isProducer := SameAddress(order.producer, userAddress))
  }

  /**
    What `loadOrders` collects: the records of `orders`, in index order,
    that the account is a party to, each projected with its index.
   */
  function Selection(orders: seq<ChainOrder>, userAddress: string): (sel: seq<OrderView>)
    ensures |sel| <= |orders|
    decreases |orders|
  {
    if orders == [] then []
    else
      var n := |orders| - 1;
      Selection(orders[..n], userAddress)
      + (if IsParty(orders[n], userAddress) then [Project(orders[n], n, userAddress)] else [])
  }

  /** Each record is the projection of the contract's record at its own index. */
  predicate ProjectsAtId(views: seq<OrderView>, orders: seq<ChainOrder>, userAddress: string)
  {
    forall k :: 0 <= k < |views| ==>
      views[k].id < |orders| && views[k] == Project(orders[views[k].id], views[k].id, userAddress)
  }

  /** The records' ids strictly increase along the list. */
  predicate IdsIncreasing(views: seq<OrderView>)
  {
    forall k, l :: 0 <= k < l < |views| ==> views[k].id < views[l].id
  }

  /** Some record of the list carries id `i`. */
  predicate Listed(views: seq<OrderView>, i: nat)
  {
    exists k :: 0 <= k < |views| && views[k].id == i
  }

  /** An order's index is listed exactly when the account is a party to it. */
  predicate ListsExactlyParties(views: seq<OrderView>, orders: seq<ChainOrder>, userAddress: string)
  {
    forall i :: 0 <= i < |orders| ==> (IsParty(orders[i], userAddress) <==> Listed(views, i))
  }

  /**
    Every record of the selection is the projection of the contract's record
    at its own index, so its fields are copied from there.
   */
  lemma {:induction false} SelectionIndexed(orders: seq<ChainOrder>, userAddress: string)
    ensures ProjectsAtId(Selection(orders, userAddress), orders, userAddress)
    decreases |orders|
  {
    if orders != [] {
      var n := |orders| - 1;
      var prefix := orders[..n];
      SelectionIndexed(prefix, userAddress);
      var before := Selection(prefix, userAddress);
      var sel := Selection(orders, userAddress);
      forall k | 0 <= k < |sel|
        ensures sel[k].id < |orders| && sel[k] == Project(orders[sel[k].id], sel[k].id, userAddress)
      {
        if k < |before| {
          assert sel[k] == before[k];
          assert prefix[before[k].id] == orders[before[k].id];
        }
      }
    }
  }

  /** The selection lists each index at most once, in increasing order. */
  lemma {:induction false} SelectionIncreasing(orders: seq<ChainOrder>, userAddress: string)
    ensures IdsIncreasing(Selection(orders, userAddress))
    decreases |orders|
  {
    if orders != [] {
      var n := |orders| - 1;
      var prefix := orders[..n];
      SelectionIncreasing(prefix, userAddress);
      SelectionIndexed(prefix, userAddress);
    }
  }

  /** An index appears in the selection exactly when the account is a party to that order. */
  lemma {:induction false} SelectionComplete(orders: seq<ChainOrder>, userAddress: string)
    ensures ListsExactlyParties(Selection(orders, userAddress), orders, userAddress)
    decreases |orders|
  {
    if orders != [] {
      var n := |orders| - 1;
      var prefix := orders[..n];
      SelectionComplete(prefix, userAddress);
      SelectionIndexed(prefix, userAddress);
      var before := Selection(prefix, userAddress);
      var sel := Selection(orders, userAddress);
      forall i | 0 <= i < |orders|
        ensures IsParty(orders[i], userAddress) <==> Listed(sel, i)
      {
        if i < n {
          assert prefix[i] == orders[i];
          if IsParty(orders[i], userAddress) {
            var k :| 0 <= k < |before| && before[k].id == i;
            assert sel[k] == before[k];
          }
        } else if IsParty(orders[i], userAddress) {
          assert sel[|sel| - 1].id == i;
        }
      }
    }
  }

  /** Every kept record carries at least one role, and each role flag is its own comparison. */
  lemma SelectionRoles(orders: seq<ChainOrder>, userAddress: string, k: nat)
    requires k < |Selection(orders, userAddress)|
    ensures var v := Selection(orders, userAddress)[k];
      && (v.isConsumer || v.isProducer)
      && v.isConsumer == SameAddress(v.consumer, userAddress)
      && v.isProducer == SameAddress(v.producer, userAddress)
  {
    SelectionIndexed(orders, userAddress);
  }

  /** An order whose delivery time is unset is presented as not delivered yet. */
  lemma SelectionDeliveryText(orders: seq<ChainOrder>, userAddress: string, k: nat)
    requires k < |Selection(orders, userAddress)|
    ensures var v := Selection(orders, userAddress)[k];
      v.id < |orders| && (v.deliveryTime == NotDeliveredYet <==> orders[v.id].deliveryTime == 0)
  {
    SelectionIndexed(orders, userAddress);
  }

  /** Whether the account is a party does not depend on how its address is cased. */
  lemma SelectionIgnoresCase(orders: seq<ChainOrder>, a: string, b: string)
    requires SameAddress(a, b)
    ensures Selection(orders, a) == Selection(orders, b)
    decreases |orders|
  {
    if orders != [] {
      SelectionIgnoresCase(orders[..|orders| - 1], a, b);
    }
  }

  /**
    The loop of `loadOrders`: walks indices 0 to `orderCount - 1` in order and
    pushes the projection of each order the account is a party to.
   */
  method CollectOrders(orders: seq<ChainOrder>, userAddress: string) returns (ordersArray: seq<OrderView>)
    ensures ordersArray == Selection(orders, userAddress)
    ensures IdsIncreasing(ordersArray)
    ensures ProjectsAtId(ordersArray, orders, userAddress)
    ensures ListsExactlyParties(ordersArray, orders, userAddress)
  {
    ordersArray := [];
    var i := 0;
    while i < |orders|
      invariant 0 <= i <= |orders|
      invariant ordersArray == Selection(orders[..i], userAddress)
    {
      var order := orders[i];
      var isConsumer := SameAddress(order.consumer, userAddress);
      var isProducer := SameAddress(order.producer, userAddress);
      if isConsumer || isProducer {
        ordersArray := ordersArray + [Project(order, i, userAddress)];
      }
      assert orders[..i + 1][..i] == orders[..i];
      i := i + 1;
    }
    assert orders[..i] == orders;
    SelectionIndexed(orders, userAddress);
    SelectionIncreasing(orders, userAddress);
    SelectionComplete(orders, userAddress);
  }

  // ---------------------------------------------------------------------
  // handleCreateOrder
  // ---------------------------------------------------------------------

  /** The `createOrder` transaction: its arguments and the value attached to it. */
  datatype CreateOrderTx = CreateOrderTx(
    producer: string,
    productId: string,
    productName: string,
    productPrice: nat,   // wei
    value: nat)          // wei attached

  /** The escrow accepts a new order only when the attached value equals the declared price. */
  predicate PaymentMatches(tx: CreateOrderTx)
  {
    tx.value == tx.productPrice
  }

  /**
    `handleCreateOrder`: the form's fields go through unchanged, and the one
    wei amount is both the declared price and the attached value.
   */
  function CreateOrderRequest(producer: string, productId: string, productName: string, priceInWei: nat)
    : (tx: CreateOrderTx)
    ensures PaymentMatches(tx) && tx.productPrice == priceInWei
    ensures tx.producer == producer && tx.productId == productId && tx.productName == productName
  {
    CreateOrderTx(producer, productId, productName, priceInWei, priceInWei)
  }

  // ---------------------------------------------------------------------
  // The component's state
  // ---------------------------------------------------------------------

  /** The state hooks of the component that the order logic reads and writes. */
  class AppState {
    var account: string
    var orders: seq<OrderView>
    var selectedOrder: Option<OrderView>
    var isProducer: bool
    var isConsumer: bool

    /** The initial hook values: no account, no orders, nothing selected. */
    constructor ()
      ensures account == [] && orders == [] && selectedOrder == None
      ensures !isProducer && !isConsumer
    {
      account := [];
      orders := [];
      selectedOrder := None;
      isProducer := false;
      isConsumer := false;
    }

    /** `setAccount` with the first account the wallet reports. */
    method SetAccount(a: string)
      modifies this`account
      ensures account == a
    {
      account := a;
    }

    /** `loadOrders` followed by `setOrders`: the orders list becomes the account's selection. */
    method LoadOrders(chain: seq<ChainOrder>, userAddress: string)
      modifies this`orders
      ensures orders == Selection(chain, userAddress)
    {
      var ordersArray := CollectOrders(chain, userAddress);
      orders := ordersArray;
    }

    /** `selectOrder`: remembers the order and recomputes both roles against the account. */
    method SelectOrder(order: OrderView)
      modifies this`selectedOrder, this`isProducer, this`isConsumer
      ensures selectedOrder == Some(order)
      ensures isProducer == SameAddress(order.producer, account)
      ensures isConsumer == SameAddress(order.consumer, account)
    {
      selectedOrder := Some(order);
      isProducer := SameAddress(order.producer, account);
      isConsumer := SameAddress(order.consumer, account);
    }
  }

  /**
    Loading the account's orders and then selecting one of them from the
    list: the roles `selectOrder` recomputes are the ones `loadOrders`
    tagged the order with, so the view's buttons follow those tags.
   */
  method LoadThenSelect(st: AppState, chain: seq<ChainOrder>, k: nat)
    requires k < |Selection(chain, st.account)|
    modifies st
    ensures st.account == old(st.account)
    ensures st.orders == Selection(chain, st.account) && k < |st.orders|
    ensures st.selectedOrder == Some(st.orders[k])
    ensures st.isProducer == st.orders[k].isProducer
    ensures st.isConsumer == st.orders[k].isConsumer
  {
    st.LoadOrders(chain, st.account);
    st.SelectOrder(st.orders[k]);
    SelectionRoles(chain, st.account, k);
  }
}
