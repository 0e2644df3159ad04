/** The shopping-bag page: a client-side list of cart lines, each with a
    selection tick, the subtotal of the ticked lines, a one-code coupon and the
    floored total. The list transforms and the arithmetic are functions; the
    component state (`cartItems`, `couponCode`, `discount`) is the class
    `PageState`, whose handlers replace it. */
module CartPage {
  import opened Common
  import opened Text
  import opened Sequences
  import CheckoutPage

  datatype CartLine = CartLine(id: nat, name: string, price: real, quantity: int, isChecked: bool)

  /** The only coupon code the page recognises, compared after lower-casing. */
  const AcceptedCoupon: string := "save20"

  /** The share of the subtotal that the coupon takes off. */
  const CouponRate: real := 0.20

  // ---------------------------------------------------------------------------
  // List transforms

  /** `cartItems.filter(item => item.id !== id)`. */
  function RemoveItem(items: seq<CartLine>, id: nat): (r: seq<CartLine>)
    ensures forall x :: x in r ==> x in items && x.id != id
  {
    if items == [] then []
    else if items[0].id != id then [items[0]] + RemoveItem(items[1..], id)
    else RemoveItem(items[1..], id)
  }

  /** The quantity the minus and plus buttons produce: never below 1. */
  function ClampedQuantity(quantity: int, delta: int): (q: int)
    ensures q >= 1
    ensures quantity + delta >= 1 ==> q == quantity + delta
    ensures quantity + delta < 1 ==> q == 1
  {
    MaxInt(1, quantity + delta)
  }

  /** `prevItems.map(item => item.id === id ? { ...item, quantity: Math.max(1, item.quantity + delta) } : item)`. */
  function UpdateQuantity(items: seq<CartLine>, id: nat, delta: int): (r: seq<CartLine>)
    ensures |r| == |items|
    ensures forall i :: 0 <= i < |items| && items[i].id != id ==> r[i] == items[i]
    ensures forall i :: 0 <= i < |items| && items[i].id == id ==>
              r[i].quantity >= 1 && r[i] == items[i].(quantity := ClampedQuantity(items[i].quantity, delta))
  {
    if items == [] then []
    else
      var head := if items[0].id == id then items[0].(quantity := ClampedQuantity(items[0].quantity, delta)) else items[0];
      [head] + UpdateQuantity(items[1..], id, delta)
  }

  /** `prevItems.map(item => item.id === id ? { ...item, isChecked: !item.isChecked } : item)`. */
  function ToggleCheck(items: seq<CartLine>, id: nat): (r: seq<CartLine>)
    ensures |r| == |items|
    ensures forall i :: 0 <= i < |items| && items[i].id != id ==> r[i] == items[i]
    ensures forall i :: 0 <= i < |items| && items[i].id == id ==>
              r[i].isChecked == !items[i].isChecked && r[i] == items[i].(isChecked := r[i].isChecked)
  {
    if items == [] then []
    else
      var head := if items[0].id == id then items[0].(isChecked := !items[0].isChecked) else items[0];
      [head] + ToggleCheck(items[1..], id)
  }

  // ---------------------------------------------------------------------------
  // Pricing

  function LineAmount(item: CartLine): real
  {
    item.price * item.quantity as real
  }

  /** What one line adds to the subtotal: its amount when ticked, nothing otherwise. */
  function Contribution(item: CartLine): real
  {
    if item.isChecked then LineAmount(item) else 0.0
  }

  /** No line of the bag is ticked. */
  predicate NoneTicked(items: seq<CartLine>)
  {
    forall i :: 0 <= i < |items| ==> !items[i].isChecked
  }

  /** The subtotal: the sum of the ticked lines' amounts. */
  function Subtotal(items: seq<CartLine>): (r: real)
    ensures NoneTicked(items) ==> r == 0.0
  {
    if items == [] then 0.0 else Contribution(items[0]) + Subtotal(items[1..])
  }

  /** `cartItems.reduce((acc, item) => item.isChecked ? acc + item.price * item.quantity : acc, acc0)`,
      the accumulation the page runs: it adds exactly the subtotal to the accumulator. */
  function ReduceSubtotal(acc: real, items: seq<CartLine>): (r: real)
    ensures r == acc + Subtotal(items)
    decreases items
  {
    if items == [] then acc
    else
      var next := if items[0].isChecked then acc + LineAmount(items[0]) else acc;
      assert next == acc + Contribution(items[0]);
      ReduceSubtotal(next, items[1..])
  }

  /** `Math.max(0, subtotal - discount)`. */
  function Total(subtotal: real, discount: real): (r: real)
    ensures r >= 0.0
    ensures r >= subtotal - discount
    ensures r == 0.0 || r == subtotal - discount
  {
    Max(0.0, subtotal - discount)
  }

  /** The discount `handleApplyCoupon` stores for a code and the current subtotal. */
  function CouponDiscount(code: string, subtotal: real): (r: real)
    ensures 0.0 <= subtotal ==> 0.0 <= r <= subtotal
  {
    if LowerStr(code) == AcceptedCoupon then subtotal * CouponRate else 0.0
  }

  // ---------------------------------------------------------------------------
  // Properties of the transforms

  /** Removing keeps exactly the lines with another id, in their original order. */
  lemma {:induction false} RemoveItemKeepsOthers(items: seq<CartLine>, id: nat)
    ensures forall x :: x in RemoveItem(items, id) <==> x in items && x.id != id
    ensures IsSubsequence(RemoveItem(items, id), items)
    ensures forall x :: multiset(RemoveItem(items, id))[x] == if x.id != id then multiset(items)[x] else 0
  {
    if items != [] {
      RemoveItemKeepsOthers(items[1..], id);
      assert items == [items[0]] + items[1..];
      if items[0].id == id {
        SubsequenceOfTail(RemoveItem(items[1..], id), items);
      }
    }
  }

  /** Every line of the bag has at least one unit. */
  predicate QuantitiesPositive(items: seq<CartLine>)
  {
    forall i :: 0 <= i < |items| ==> items[i].quantity >= 1
  }

  /** None of the three handlers can bring a quantity below 1. */
  lemma TransformsKeepQuantitiesPositive(items: seq<CartLine>, id: nat, delta: int)
    requires QuantitiesPositive(items)
    ensures QuantitiesPositive(RemoveItem(items, id))
    ensures QuantitiesPositive(UpdateQuantity(items, id, delta))
    ensures QuantitiesPositive(ToggleCheck(items, id))
  {
    var r := RemoveItem(items, id);
    forall i | 0 <= i < |r|
      ensures r[i].quantity >= 1
    {
      assert r[i] in r;
      var j :| 0 <= j < |items| && items[j] == r[i];
    }
  }

  /** Ticking a line twice gives back the list it started from. */
  lemma ToggleTwice(items: seq<CartLine>, id: nat)
    ensures ToggleCheck(ToggleCheck(items, id), id) == items
  {
    var once := ToggleCheck(items, id);
    assert forall i :: 0 <= i < |items| ==> once[i].id == items[i].id;
  }

  // ---------------------------------------------------------------------------
  // Properties of the pricing

  /** The ticked lines, in order. */
  function Checked(items: seq<CartLine>): (r: seq<CartLine>)
    ensures forall x :: x in r <==> x in items && x.isChecked
    ensures forall x :: multiset(r)[x] == if x.isChecked then multiset(items)[x] else 0
    ensures IsSubsequence(r, items)
  {
    if items == [] then []
    else
      assert items == [items[0]] + items[1..];
      var rest := Checked(items[1..]);
      if items[0].isChecked then [items[0]] + rest
      else SubsequenceOfTail(rest, items); rest
  }

  /** A cart line as a checkout order line: the selection tick is dropped. */
  function AsOrderLines(items: seq<CartLine>): (r: seq<CheckoutPage.OrderLine>)
    ensures |r| == |items|
  {
    if items == [] then []
    else [CheckoutPage.OrderLine(items[0].id, items[0].name, items[0].price, items[0].quantity)]
         + AsOrderLines(items[1..])
  }

  /** The subtotal distributes over concatenation, so the subtotal of two
      disjoint groups of lines is the sum of their subtotals. */
  lemma {:induction false} SubtotalAppend(a: seq<CartLine>, b: seq<CartLine>)
    ensures Subtotal(a + b) == Subtotal(a) + Subtotal(b)
  {
    if a == [] {
      assert a + b == b;
    } else {
      assert (a + b)[0] == a[0];
      assert (a + b)[1..] == a[1..] + b;
      SubtotalAppend(a[1..], b);
    }
  }

  /** Only ticked lines count: the bag's subtotal is the checkout subtotal of
      its ticked lines, and unticked lines contribute nothing. */
  lemma {:induction false} SubtotalIsCheckedOnly(items: seq<CartLine>)
    ensures Subtotal(items) == CheckoutPage.Subtotal(AsOrderLines(Checked(items)))
  {
    if items != [] {
      SubtotalIsCheckedOnly(items[1..]);
      assert Subtotal(items) == Contribution(items[0]) + Subtotal(items[1..]);
      if items[0].isChecked {
        CheckedOrderLinesCons(items);
        var lines := AsOrderLines(Checked(items));
        assert CheckoutPage.Subtotal(lines) == CheckoutPage.LineAmount(lines[0]) + CheckoutPage.Subtotal(lines[1..]);
        SameAmount(items[0]);
      } else {
        assert Checked(items) == Checked(items[1..]);
      }
    }
  }

  /** A ticked line costs the same in the bag and at checkout. */
  lemma SameAmount(item: CartLine)
    requires item.isChecked
    ensures CheckoutPage.LineAmount(CheckoutPage.OrderLine(item.id, item.name, item.price, item.quantity)) ==
            Contribution(item)
  {
  }

  /** The checkout lines of a bag whose first line is ticked start with that line. */
  lemma CheckedOrderLinesCons(items: seq<CartLine>)
    requires items != [] && items[0].isChecked
    ensures var lines := AsOrderLines(Checked(items));
            && lines != []
            && lines[0] == CheckoutPage.OrderLine(items[0].id, items[0].name, items[0].price, items[0].quantity)
            && lines[1..] == AsOrderLines(Checked(items[1..]))
  {
  }

  predicate NonNegativeAmounts(items: seq<CartLine>)
  {
    forall i :: 0 <= i < |items| ==> items[i].price >= 0.0 && items[i].quantity >= 0
  }

  lemma {:induction false} SubtotalNonNegative(items: seq<CartLine>)
    requires NonNegativeAmounts(items)
    ensures Subtotal(items) >= 0.0
  {
    if items != [] {
      SubtotalNonNegative(items[1..]);
      assert items[0].price * items[0].quantity as real >= 0.0;
    }
  }

  /** The subtotal split around position `k`. */
  lemma {:induction false} SubtotalSplit(items: seq<CartLine>, k: nat)
    requires k < |items|
    ensures Subtotal(items) == Subtotal(items[..k]) + Contribution(items[k]) + Subtotal(items[k + 1..])
  {
    var tail := [items[k]] + items[k + 1..];
    assert items == items[..k] + tail;
    SubtotalAppend(items[..k], tail);
    assert tail[1..] == items[k + 1..];
    assert Subtotal(tail) == Contribution(items[k]) + Subtotal(items[k + 1..]);
  }

  /** Changing the line at `k` alone moves the subtotal by the change in its contribution. */
  lemma SubtotalReplace(a: seq<CartLine>, b: seq<CartLine>, k: nat)
    requires k < |a| == |b|
    requires a[..k] == b[..k] && a[k + 1..] == b[k + 1..]
    ensures Subtotal(b) == Subtotal(a) - Contribution(a[k]) + Contribution(b[k])
  {
    SubtotalSplit(a, k);
    SubtotalSplit(b, k);
  }

  lemma ToggledContribution(x: CartLine)
    ensures Contribution(x.(isChecked := !x.isChecked)) ==
            Contribution(x) + (if x.isChecked then -LineAmount(x) else LineAmount(x))
  {
    var y := x.(isChecked := !x.isChecked);
    assert y.price == x.price && y.quantity == x.quantity;
  }

  /** Ticking or unticking the line at `k` (its id unique in the bag) moves the
      subtotal by exactly that line's amount, down when it was ticked, up when not. */
  lemma ToggleMovesSubtotal(items: seq<CartLine>, k: nat)
    requires k < |items|
    requires forall i :: 0 <= i < |items| && i != k ==> items[i].id != items[k].id
    ensures Subtotal(ToggleCheck(items, items[k].id)) ==
            Subtotal(items) + (if items[k].isChecked then -LineAmount(items[k]) else LineAmount(items[k]))
  {
    var r := ToggleCheck(items, items[k].id);
    ToggleChangesOnlyAt(items, k);
    ToggledContribution(items[k]);
    SubtotalReplace(items, r, k);
  }

  /** Toggling a unique id changes the line at its position and nothing else. */
  lemma ToggleChangesOnlyAt(items: seq<CartLine>, k: nat)
    requires k < |items|
    requires forall i :: 0 <= i < |items| && i != k ==> items[i].id != items[k].id
    ensures var r := ToggleCheck(items, items[k].id);
            && |r| == |items|
            && r[..k] == items[..k] && r[k + 1..] == items[k + 1..]
            && r[k] == items[k].(isChecked := !items[k].isChecked)
  {
    var r := ToggleCheck(items, items[k].id);
    assert r[..k] == items[..k] by {
      forall i | 0 <= i < k ensures r[i] == items[i] { }
    }
    assert r[k + 1..] == items[k + 1..] by {
      forall i | k < i < |items| ensures r[i] == items[i] { }
    }
  }

  // ---------------------------------------------------------------------------
  // Properties of the coupon

  /** "save20" in any letter case takes 20% off: the discount is a fifth of the
      subtotal and, for a non-negative subtotal, the total is four fifths of it. */
  lemma Save20Applies(code: string, subtotal: real)
    requires LowerStr(code) == AcceptedCoupon
    ensures CouponDiscount(code, subtotal) == 0.20 * subtotal
    ensures subtotal >= 0.0 ==> Total(subtotal, CouponDiscount(code, subtotal)) == 0.80 * subtotal
  {
  }

  /** Any other code gives no discount, and the total is the subtotal floored at 0. */
  lemma OtherCodeNoDiscount(code: string, subtotal: real)
    requires LowerStr(code) != AcceptedCoupon
    ensures CouponDiscount(code, subtotal) == 0.0
    ensures Total(subtotal, CouponDiscount(code, subtotal)) == Max(0.0, subtotal)
  {
  }

  /** The code is compared after lower-casing: "SAVE20" and "Save20" are accepted too. */
  lemma CouponIgnoresCase()
    ensures LowerStr("SAVE20") == AcceptedCoupon
    ensures LowerStr("Save20") == AcceptedCoupon
  {
    assert LowerStr("SAVE20") == [Lower('S')] + LowerStr("AVE20");
    assert LowerStr("Save20") == [Lower('S')] + LowerStr("ave20");
  }

  /** The discount is stored, not derived: it keeps the value computed when the
      coupon was applied. Two 100.00 lines give a 40.00 discount; removing one
      of them leaves a 100.00 subtotal and a 60.00 total, 40% off rather than 20%. */
  lemma DiscountIsNotRecomputed()
    ensures var items := [CartLine(1, "A", 100.0, 1, true), CartLine(2, "B", 100.0, 1, true)];
            var discount := CouponDiscount(AcceptedCoupon, Subtotal(items));
            var after := RemoveItem(items, 2);
            discount == 40.0 && Subtotal(after) == 100.0 &&
            Total(Subtotal(after), discount) == 60.0 &&
            Total(Subtotal(after), discount) != 0.80 * Subtotal(after)
  {
    var items := [CartLine(1, "A", 100.0, 1, true), CartLine(2, "B", 100.0, 1, true)];
    assert items[..1] == [items[0]];
    assert items[..1][..0] == [];
    assert RemoveItem(items, 2) == [items[0]];
    assert [items[0]][..0] == [];
  }

  // ---------------------------------------------------------------------------
  // The component state

  /** The three lines the bag opens with; the office chair is not ticked. */
  const SampleCart: seq<CartLine> := [
    CartLine(1, "Wireless Headphones", 120.50, 1, true),
    CartLine(2, "Gaming Keyboard", 79.99, 2, true),
    CartLine(3, "Ergonomic Office Chair", 199.99, 1, false)
  ]

  /** The opening bag's subtotal counts the headphones and the two keyboards only. */
  lemma SampleCartSubtotal()
    ensures Subtotal(SampleCart) == 280.48
  {
    SubtotalSplit(SampleCart, 2);
    assert SampleCart[..2][..1] == [SampleCart[0]];
    assert SampleCart[..2][..1][..0] == [];
    assert SampleCart[3..] == [];
  }

  /** The page's state: the lines, the text in the coupon box and the stored discount. */
  class PageState {
    var cartItems: seq<CartLine>
    var couponCode: string
    var discount: real

    /** Every line in the bag has at least one unit. */
    ghost predicate Valid()
      reads this
    {
      QuantitiesPositive(cartItems)
    }

    constructor ()
      ensures Valid()
      ensures cartItems == SampleCart && couponCode == "" && discount == 0.0
    {
      cartItems := SampleCart;
      couponCode := "";
      discount := 0.0;
    }

    /** The `subtotal` the page shows. */
    function ShownSubtotal(): (r: real)
      reads this
      ensures r == Subtotal(cartItems)
    {
      ReduceSubtotal(0.0, cartItems)
    }

    /** The `total` the page shows. */
    function ShownTotal(): (r: real)
      reads this
      ensures r >= 0.0
    {
      Total(ShownSubtotal(), discount)
    }

    /** `handleRemoveItem(id)`. */
    method HandleRemoveItem(id: nat)
      requires Valid()
      modifies this
      ensures Valid()
      ensures cartItems == RemoveItem(old(cartItems), id)
      ensures couponCode == old(couponCode) && discount == old(discount)
    {
      TransformsKeepQuantitiesPositive(cartItems, id, 0);
      cartItems := RemoveItem(cartItems, id);
    }

    /** `handleUpdateQuantity(id, delta)`. */
    method HandleUpdateQuantity(id: nat, delta: int)
      requires Valid()
      modifies this
      ensures Valid()
      ensures cartItems == UpdateQuantity(old(cartItems), id, delta)
      ensures couponCode == old(couponCode) && discount == old(discount)
    {
      TransformsKeepQuantitiesPositive(cartItems, id, delta);
      cartItems := UpdateQuantity(cartItems, id, delta);
    }

    /** `handleToggleCheck(id)`. */
    method HandleToggleCheck(id: nat)
      requires Valid()
      modifies this
      ensures Valid()
      ensures cartItems == ToggleCheck(old(cartItems), id)
      ensures couponCode == old(couponCode) && discount == old(discount)
    {
      TransformsKeepQuantitiesPositive(cartItems, id, 0);
      cartItems := ToggleCheck(cartItems, id);
    }

    /** Typing in the coupon box (`setCouponCode`). */
    method SetCouponCode(code: string)
      requires Valid()
      modifies this
      ensures Valid()
      ensures couponCode == code
      ensures cartItems == old(cartItems) && discount == old(discount)
    {
      couponCode := code;
    }

    /** `handleApplyCoupon`: `applied` tells which toast is shown. The discount is
        a fifth of the current subtotal for "save20" in any case, 0 otherwise. */
    method HandleApplyCoupon() returns (applied: bool)
      requires Valid()
      modifies this`discount
      ensures Valid()
      ensures applied <==> LowerStr(couponCode) == AcceptedCoupon
      ensures applied ==> discount == 0.20 * Subtotal(cartItems)
      ensures !applied ==> discount == 0.0
      ensures applied && Subtotal(cartItems) >= 0.0 ==> ShownTotal() == 0.80 * ShownSubtotal()
      ensures !applied ==> ShownTotal() == Max(0.0, ShownSubtotal())
    {
      applied := LowerStr(couponCode) == AcceptedCoupon;
      discount := CouponDiscount(couponCode, Subtotal(cartItems));
    }
  }
}
