/** The order summary of the checkout page: the subtotal over every order line,
    a fixed shipping fee, and placing the order, which only cash on delivery allows. */
module CheckoutPage {
  import opened Common

  datatype OrderLine = OrderLine(id: nat, name: string, price: real, quantity: int)

  /** The shipping fee the page charges on every order. */
  const ShippingCost: real := 7.50

  /** The payment method selected when the page opens. */
  const InitialPaymentMethod: string := "cod"

  function LineAmount(line: OrderLine): real
  {
    line.price * line.quantity as real
  }

  /** The subtotal: the sum of every line's amount; there is no selection. */
  function Subtotal(lines: seq<OrderLine>): (r: real)
    ensures NonNegativeLines(lines) ==> r >= 0.0
  {
    if lines == [] then 0.0
    else
      assert NonNegativeLines(lines) ==> lines[0].price * lines[0].quantity as real >= 0.0;
      LineAmount(lines[0]) + Subtotal(lines[1..])
  }

  /** `orderItems.reduce((acc, item) => acc + item.price * item.quantity, acc0)`,
      the accumulation the page runs: it adds exactly the subtotal to the accumulator. */
  function ReduceSubtotal(acc: real, lines: seq<OrderLine>): (r: real)
    ensures r == acc + Subtotal(lines)
    decreases lines
  {
    if lines == [] then acc else ReduceSubtotal(acc + LineAmount(lines[0]), lines[1..])
  }

  /** `subtotal + shippingCost`, with the subtotal computed by the page's reduce;
      with non-negative prices and quantities it is at least the shipping fee. */
  function Total(lines: seq<OrderLine>): (r: real)
    ensures r == Subtotal(lines) + ShippingCost
    ensures NonNegativeLines(lines) ==> r >= ShippingCost
  {
    ReduceSubtotal(0.0, lines) + ShippingCost
  }

  /** What `handlePlaceOrder` tells the customer. */
  datatype PlaceOrderOutcome = OrderPlaced | InvalidPaymentMethod

  /** `handlePlaceOrder`: succeeds exactly for cash on delivery. */
  function PlaceOrder(selectedPaymentMethod: string): (r: PlaceOrderOutcome)
    ensures r == OrderPlaced <==> selectedPaymentMethod == "cod"
    ensures r == InvalidPaymentMethod <==> selectedPaymentMethod != "cod"
  {
    if selectedPaymentMethod == "cod" then OrderPlaced else InvalidPaymentMethod
  }

  /** Placing the order without touching the payment selector succeeds. */
  lemma DefaultMethodPlacesOrder()
    ensures PlaceOrder(InitialPaymentMethod) == OrderPlaced
  {
  }

  /** The subtotal distributes over concatenation. */
  lemma {:induction false} SubtotalAppend(a: seq<OrderLine>, b: seq<OrderLine>)
    ensures Subtotal(a + b) == Subtotal(a) + Subtotal(b)
  {
    if a == [] {
      assert a + b == b;
    } else {
      assert (a + b)[0] == a[0];
      assert (a + b)[1..] == a[1..] + b;
      SubtotalAppend(a[1..], b);
    }
  }

  predicate NonNegativeLines(lines: seq<OrderLine>)
  {
    forall i :: 0 <= i < |lines| ==> lines[i].price >= 0.0 && lines[i].quantity >= 0
  }

  /** The page's sample order: one pair of headphones at 120.50, two keyboards at
      79.99, so 280.48 before shipping and 287.98 in all. */
  lemma SampleOrderTotal()
    ensures Subtotal([OrderLine(1, "Wireless Headphones", 120.50, 1),
                      OrderLine(2, "Gaming Keyboard", 79.99, 2)]) == 280.48
    ensures Total([OrderLine(1, "Wireless Headphones", 120.50, 1),
                   OrderLine(2, "Gaming Keyboard", 79.99, 2)]) == 287.98
  {
    var lines := [OrderLine(1, "Wireless Headphones", 120.50, 1), OrderLine(2, "Gaming Keyboard", 79.99, 2)];
    assert lines[1..] == [lines[1]];
    assert lines[1..][1..] == [];
  }
}
