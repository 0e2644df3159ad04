/** The order seeder: fifteen times, it creates an order for a random customer
    with a random non-cancelled status, inserts one to five lines for distinct
    random products at their current prices, and sets the order's total to the
    sum of the line amounts. The random draws are parameters. */
module OrderSeeder {
  import opened Common

  datatype Status = Pending | Paid | Shipped | Completed | Cancelled

  /** The statuses the seeder draws from; `Cancelled` is not among them. */
  const SeedStatuses: seq<Status> := [Pending, Paid, Shipped, Completed]

  /** Orders created by one run. */
  const OrdersPerRun: nat := 15

  /** Bounds of `numberBetween` for the number of lines and for each quantity. */
  const MaxLinesPerOrder: int := 5
  const MaxUnitsPerLine: int := 3

  /** A row of `products`, as far as the seeder reads it. */
  datatype Product = Product(id: ProductId, price: real)

  /** A row of `orders`. */
  datatype Order = Order(userId: UserId, status: Status, total: real)

  /** A row of `order_items`. */
  datatype OrderItem = OrderItem(orderId: OrderId, productId: ProductId, quantity: int, price: real)

  /** The random choices of one iteration: the customer's position, the status's
      position in `SeedStatuses`, the drawn line count, the positions of the
      picked products and one quantity per picked product. */
  datatype Draw = Draw(customer: nat, status: nat, numItems: int, picked: seq<nat>, quantities: seq<int>)

  /** What `random()`, `randomElement` and `numberBetween` can return. */
  predicate ValidDraw(d: Draw, customerCount: nat, productCount: nat)
  {
    && d.customer < customerCount
    && d.status < |SeedStatuses|
    && 1 <= d.numItems <= MaxLinesPerOrder
    && |d.picked| == MinInt(d.numItems, productCount)
    && (forall i :: 0 <= i < |d.picked| ==> d.picked[i] < productCount)
    && (forall i, j :: 0 <= i < j < |d.picked| ==> d.picked[i] != d.picked[j])
    && |d.quantities| == |d.picked|
    && (forall i :: 0 <= i < |d.quantities| ==> 1 <= d.quantities[i] <= MaxUnitsPerLine)
  }

  // ---------------------------------------------------------------------------
  // Order lines and amounts

  function LineTotal(item: OrderItem): real
  {
    item.quantity as real * item.price
  }

  /** Every line has a non-negative quantity and price. */
  predicate NonNegativeItems(lines: seq<OrderItem>)
  {
    forall i :: 0 <= i < |lines| ==> lines[i].quantity >= 0 && lines[i].price >= 0.0
  }

  /** The sum of quantity times price, accumulated line by line from the first. */
  function Amount(lines: seq<OrderItem>): (r: real)
    ensures NonNegativeItems(lines) ==> r >= 0.0
  {
    if lines == [] then 0.0 else Amount(lines[..|lines| - 1]) + LineTotal(lines[|lines| - 1])
  }

  /** The lines the inner loop inserts for order `id`: one per picked product,
      at that product's price. */
  function NewLines(id: OrderId, picked: seq<Product>, quantities: seq<int>): (r: seq<OrderItem>)
    requires |quantities| == |picked|
    ensures |r| == |picked|
    ensures forall i :: 0 <= i < |r| ==> r[i].orderId == id && r[i].quantity == quantities[i]
    ensures forall i :: 0 <= i < |r| ==> r[i].productId == picked[i].id && r[i].price == picked[i].price
  {
    seq(|picked|, i requires 0 <= i < |picked| => OrderItem(id, picked[i].id, quantities[i], picked[i].price))
  }

  /** The rows of `order_items` that belong to order `id`, in insertion order. */
  function LinesOf(items: seq<OrderItem>, id: OrderId): (r: seq<OrderItem>)
    ensures forall x :: x in r ==> x in items && x.orderId == id
    ensures |r| <= |items|
  {
    if items == [] then []
    else
      var last := items[|items| - 1];
      LinesOf(items[..|items| - 1], id) + (if last.orderId == id then [last] else [])
  }

  lemma {:induction false} LinesOfAppend(items: seq<OrderItem>, more: seq<OrderItem>, id: OrderId)
    ensures LinesOf(items + more, id) == LinesOf(items, id) + LinesOf(more, id)
  {
    if more == [] {
      assert items + more == items;
    } else {
      var more' := more[..|more| - 1];
      assert (items + more)[..|items + more| - 1] == items + more';
      LinesOfAppend(items, more', id);
    }
  }

  /** Lines all of another order are not lines of `id`. */
  lemma {:induction false} LinesOfOther(more: seq<OrderItem>, id: OrderId)
    requires forall i :: 0 <= i < |more| ==> more[i].orderId != id
    ensures LinesOf(more, id) == []
  {
    if more != [] {
      LinesOfOther(more[..|more| - 1], id);
    }
  }

  /** Lines all of order `id` are all kept. */
  lemma {:induction false} LinesOfSame(more: seq<OrderItem>, id: OrderId)
    requires forall i :: 0 <= i < |more| ==> more[i].orderId == id
    ensures LinesOf(more, id) == more
  {
    if more != [] {
      LinesOfSame(more[..|more| - 1], id);
    }
  }

  /** Adding lines of one order leaves the lines of every other order as they were,
      and appends exactly those lines to that order's own. */
  lemma AppendOrderLines(items: seq<OrderItem>, more: seq<OrderItem>, id: OrderId, other: OrderId)
    requires forall i :: 0 <= i < |more| ==> more[i].orderId == id
    requires forall i :: 0 <= i < |items| ==> items[i].orderId != id
    requires other != id
    ensures LinesOf(items + more, other) == LinesOf(items, other)
    ensures LinesOf(items + more, id) == more
  {
    LinesOfAppend(items, more, other);
    LinesOfOther(more, other);
    LinesOfAppend(items, more, id);
    LinesOfOther(items, id);
    LinesOfSame(more, id);
  }

  /** A one-line order of 2 units at 10.00 totals 20.00. */
  lemma SingleLineOrder(id: OrderId, product: ProductId)
    ensures var lines := NewLines(id, [Product(product, 10.0)], [2]);
            |lines| == 1 && lines[0] == OrderItem(id, product, 2, 10.0) && Amount(lines) == 20.0
  {
    var lines := NewLines(id, [Product(product, 10.0)], [2]);
    assert lines[..0] == [];
  }

  // ---------------------------------------------------------------------------
  // What a seeded order looks like

  /** The picked products, by position. */
  function Pick(products: seq<Product>, picked: seq<nat>): (r: seq<Product>)
    requires forall i :: 0 <= i < |picked| ==> picked[i] < |products|
    ensures |r| == |picked|
    ensures forall i :: 0 <= i < |r| ==> r[i] == products[picked[i]]
  {
    seq(|picked|, i requires 0 <= i < |picked| => products[picked[i]])
  }

  /** Every product has its own id (the primary key of `products`). */
  predicate DistinctIds(products: seq<Product>)
  {
    forall i, j :: 0 <= i < j < |products| ==> products[i].id != products[j].id
  }

  /** An order as the seeder leaves it, with its lines. */
  ghost predicate SeededOrder(order: Order, lines: seq<OrderItem>, customers: seq<UserId>, products: seq<Product>)
  {
    && order.userId in customers
    && order.status in SeedStatuses && order.status != Cancelled
    && 1 <= |lines| <= MaxLinesPerOrder && |lines| <= |products|
    && (forall i, j :: 0 <= i < j < |lines| ==> lines[i].productId != lines[j].productId)
    && (forall i :: 0 <= i < |lines| ==> 1 <= lines[i].quantity <= MaxUnitsPerLine)
    && (forall i :: 0 <= i < |lines| ==> Product(lines[i].productId, lines[i].price) in products)
    && order.total == Amount(lines)
  }

  /** The lines drawn by a valid draw have the shape of a seeded order. */
  lemma DrawnLinesShape(id: OrderId, d: Draw, customers: seq<UserId>, products: seq<Product>)
    requires |customers| > 0 && |products| > 0 && DistinctIds(products)
    requires ValidDraw(d, |customers|, |products|)
    ensures var lines := NewLines(id, Pick(products, d.picked), d.quantities);
            SeededOrder(Order(customers[d.customer], SeedStatuses[d.status], Amount(lines)), lines, customers, products)
  {
    var picked := Pick(products, d.picked);
    var lines := NewLines(id, picked, d.quantities);
    forall i | 0 <= i < |lines|
      ensures Product(lines[i].productId, lines[i].price) in products
    {
      assert Product(lines[i].productId, lines[i].price) == products[d.picked[i]];
    }
  }

  // ---------------------------------------------------------------------------
  // The tables and the seeder

  class OrderStore {
    /** `orders`, the order id being the position. */
    var orders: seq<Order>
    /** `order_items`, in insertion order. */
    var orderItems: seq<OrderItem>

    /** Every line belongs to an existing order. */
    ghost predicate Valid()
      reads this
    {
      forall i :: 0 <= i < |orderItems| ==> orderItems[i].orderId < |orders|
    }

    constructor ()
      ensures Valid() && orders == [] && orderItems == []
    {
      orders := [];
      orderItems := [];
    }

    /** One iteration: create the order at total 0, insert one line per picked
        product while accumulating the total, then store the total. */
    method SeedOrder(customer: UserId, status: Status, picked: seq<Product>, quantities: seq<int>)
      returns (id: OrderId)
      requires Valid()
      requires |quantities| == |picked|
      modifies this
      ensures Valid()
      ensures id == |old(orders)|
      ensures orderItems == old(orderItems) + NewLines(id, picked, quantities)
      ensures orders == old(orders) + [Order(customer, status, Amount(NewLines(id, picked, quantities)))]
    {
      id := |orders|;
      orders := orders + [Order(customer, status, 0.0)];
      ghost var lines := NewLines(id, picked, quantities);
      var total := 0.0;
      var i := 0;
      while i < |picked|
        invariant 0 <= i <= |picked|
        invariant orders == old(orders) + [Order(customer, status, 0.0)]
        invariant orderItems == old(orderItems) + lines[..i]
        invariant total == Amount(lines[..i])
      {
        var quantity := quantities[i];
        var lineTotal := quantity as real * picked[i].price;
        orderItems := orderItems + [OrderItem(id, picked[i].id, quantity, picked[i].price)];
        total := total + lineTotal;
        assert lines[..i + 1][..i] == lines[..i];
        assert lines[..i + 1] == lines[..i] + [lines[i]];
        i := i + 1;
      }
      assert lines[..|picked|] == lines;
      orders := orders[id := orders[id].(total := total)];
    }

    /** `run`: nothing without customers or products, otherwise fifteen orders,
        each with its lines and its total equal to the sum of its line amounts. */
    method Run(customers: seq<UserId>, products: seq<Product>, draws: seq<Draw>)
      requires Valid()
      requires DistinctIds(products)
      requires |draws| == OrdersPerRun
      requires customers != [] && products != [] ==>
                 forall k :: 0 <= k < |draws| ==> ValidDraw(draws[k], |customers|, |products|)
      modifies this
      ensures Valid()
      ensures customers == [] || products == [] ==> orders == old(orders) && orderItems == old(orderItems)
      ensures customers != [] && products != [] ==>
        && |orders| == |old(orders)| + OrdersPerRun
        && orders[..|old(orders)|] == old(orders)
        && old(orderItems) <= orderItems
        && (forall k :: 0 <= k < |old(orders)| ==> LinesOf(orderItems, k) == LinesOf(old(orderItems), k))
        && (forall k :: |old(orders)| <= k < |orders| ==>
              SeededOrder(orders[k], LinesOf(orderItems, k), customers, products))
    {
      if customers == [] || products == [] {
        return;
      }
      var n := 0;
      while n < OrdersPerRun
        invariant 0 <= n <= OrdersPerRun
        invariant Valid()
        invariant |orders| == |old(orders)| + n
        invariant orders[..|old(orders)|] == old(orders)
        invariant old(orderItems) <= orderItems
        invariant forall k :: 0 <= k < |old(orders)| ==> LinesOf(orderItems, k) == LinesOf(old(orderItems), k)
        invariant forall k :: |old(orders)| <= k < |orders| ==>
                    SeededOrder(orders[k], LinesOf(orderItems, k), customers, products)
      {
        var d := draws[n];
        ghost var before := orderItems;
        ghost var ordersBefore := orders;
        var id := SeedOrder(customers[d.customer], SeedStatuses[d.status], Pick(products, d.picked), d.quantities);
        ghost var lines := NewLines(id, Pick(products, d.picked), d.quantities);
        DrawnLinesShape(id, d, customers, products);
        forall k | |old(orders)| <= k < |orders|
          ensures SeededOrder(orders[k], LinesOf(orderItems, k), customers, products)
        {
          if k == id {
            AppendOrderLines(before, lines, id, id + 1);
          } else {
            AppendOrderLines(before, lines, id, k);
            assert orders[k] == ordersBefore[k];
          }
        }
        forall k | 0 <= k < |old(orders)|
          ensures LinesOf(orderItems, k) == LinesOf(old(orderItems), k)
        {
          AppendOrderLines(before, lines, id, k);
        }
        assert orders[..|old(orders)|] == ordersBefore[..|old(orders)|];
        n := n + 1;
      }
    }
  }
}
