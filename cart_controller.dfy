/** The server-side cart: the `carts` table (one row per user, created on first
    use) and the `cart_items` table (one row per cart and product, holding a
    quantity and the price captured when the product was first added), with the
    four request handlers that read and change them. */
module CartController {
  import opened Common

  /** A row of `cart_items`. */
  datatype CartItem = CartItem(cartId: CartId, productId: ProductId, quantity: int, price: real)

  /** A request field validated as `required|integer`: absent, present but not an
      integer, or an integer. */
  datatype IntField = Missing | NotInteger | Integer(value: int)

  /** The error responses of the handlers. */
  datatype Error =
    | ValidationFailed  // 422: the request body failed validation
    | NotFound          // 404: `findOrFail` found no such row
    | Forbidden         // 403: the row belongs to another user's cart

  // ---------------------------------------------------------------------------
  // Table invariants

  /** No user owns two carts. */
  ghost predicate OneCartPerUser(carts: map<CartId, UserId>)
  {
    forall c1, c2 :: c1 in carts && c2 in carts && carts[c1] == carts[c2] ==> c1 == c2
  }

  /** No cart holds two rows for the same product. */
  ghost predicate OneRowPerProduct(items: map<ItemId, CartItem>)
  {
    forall i, j ::
      i in items && j in items && items[i].cartId == items[j].cartId && items[i].productId == items[j].productId
      ==> i == j
  }

  /** Every row has at least one unit. */
  ghost predicate QuantitiesPositive(items: map<ItemId, CartItem>)
  {
    forall i :: i in items ==> items[i].quantity >= 1
  }

  /** Every row belongs to an existing cart. */
  ghost predicate RowsInCarts(items: map<ItemId, CartItem>, carts: map<CartId, UserId>)
  {
    forall i :: i in items ==> items[i].cartId in carts
  }

  ghost predicate Consistent(carts: map<CartId, UserId>, items: map<ItemId, CartItem>)
  {
    OneCartPerUser(carts) && OneRowPerProduct(items) && QuantitiesPositive(items) && RowsInCarts(items, carts)
  }

  // ---------------------------------------------------------------------------
  // Specification of the table updates

  /** The cart of `user`, if one exists. */
  ghost function CartOf(carts: map<CartId, UserId>, user: UserId): (r: Option<CartId>)
    ensures r.Some? ==> r.value in carts && carts[r.value] == user
    ensures r.None? ==> forall c :: c in carts ==> carts[c] != user
  {
    if exists c :: c in carts && carts[c] == user then
      var c :| c in carts && carts[c] == user; Some(c)
    else None
  }

  /** `Cart::firstOrCreate(['user_id' => user])`: the tables after the call and
      the cart it returns; a new cart takes the next auto-increment id. */
  ghost function GetOrCreate(carts: map<CartId, UserId>, nextCartId: CartId, user: UserId): (r: (map<CartId, UserId>, CartId))
    requires nextCartId !in carts
    ensures r.1 in r.0 && r.0[r.1] == user
    ensures forall c :: c in carts ==> c in r.0 && r.0[c] == carts[c]
    ensures forall c :: c in r.0 && c !in carts ==> c == nextCartId
    ensures r.0 != carts ==> forall c :: c in carts ==> carts[c] != user
  {
    match CartOf(carts, user)
    case Some(c) => (carts, c)
    case None => (carts[nextCartId := user], nextCartId)
  }

  /** The row of `cart` for `product`, if one exists. */
  ghost function RowOf(items: map<ItemId, CartItem>, cart: CartId, product: ProductId): (r: Option<ItemId>)
    ensures r.Some? ==> r.value in items && items[r.value].cartId == cart && items[r.value].productId == product
    ensures r.None? ==> forall i :: i in items ==> items[i].cartId != cart || items[i].productId != product
  {
    if exists i :: i in items && items[i].cartId == cart && items[i].productId == product then
      var i :| i in items && items[i].cartId == cart && items[i].productId == product; Some(i)
    else None
  }

  /** The `cart_items` table after adding `quantity` of `product` at the current
      `price`: an existing row is topped up and keeps its price, otherwise a new
      row is inserted under the next id. */
  ghost function AddToCart(items: map<ItemId, CartItem>, nextItemId: ItemId, cart: CartId,
                           product: ProductId, quantity: int, price: real): (r: map<ItemId, CartItem>)
    ensures items.Keys <= r.Keys && r.Keys <= items.Keys + {nextItemId}
    ensures exists i :: i in r && r[i].cartId == cart && r[i].productId == product
    ensures forall i :: i in items && i != nextItemId && (items[i].cartId != cart || items[i].productId != product) ==> r[i] == items[i]
  {
    match RowOf(items, cart, product)
    case Some(i) => items[i := items[i].(quantity := items[i].quantity + quantity)]
    case None =>
      var r := items[nextItemId := CartItem(cart, product, quantity, price)];
      assert r[nextItemId].cartId == cart && r[nextItemId].productId == product;
      r
  }

  /** The rows `index` lists for a cart. */
  function ItemsOf(items: map<ItemId, CartItem>, cart: CartId): (r: map<ItemId, CartItem>)
    ensures forall i :: i in r <==> i in items && items[i].cartId == cart
    ensures forall i :: i in r ==> r[i] == items[i]
  {
    map i | i in items && items[i].cartId == cart :: items[i]
  }

  // ---------------------------------------------------------------------------
  // Request validation and the ownership check

  /** The `store` validation rules: `product_id` required and present in
      `products`, `quantity` required, an integer, at least 1. */
  function ValidateStore(productId: Option<ProductId>, quantity: IntField,
                         catalogue: map<ProductId, real>): (r: Result<(ProductId, int), Error>)
    ensures r.Ok? <==> productId.Some? && productId.value in catalogue && quantity.Integer? && quantity.value >= 1
    ensures r.Ok? ==> r.value == (productId.value, quantity.value)
    ensures r.Err? ==> r.error == ValidationFailed
  {
    if productId.None? || productId.value !in catalogue then Err(ValidationFailed)
    else if quantity.Missing? || quantity.NotInteger? || quantity.value < 1 then Err(ValidationFailed)
    else Ok((productId.value, quantity.value))
  }

  /** The `update` validation rule: `quantity` required, an integer, at least 1. */
  function ValidateQuantity(quantity: IntField): (r: Result<int, Error>)
    ensures r.Ok? <==> quantity.Integer? && quantity.value >= 1
    ensures r.Ok? ==> r.value == quantity.value
    ensures r.Err? ==> r.error == ValidationFailed
  {
    match quantity
    case Integer(q) => if q >= 1 then Ok(q) else Err(ValidationFailed)
    case _ => Err(ValidationFailed)
  }

  /** `findOrFail($itemId)` followed by `$item->cart->user_id !== auth()->id()`:
      the row when it exists and its cart belongs to `user`. A row whose cart is
      gone cannot arise in a valid store (`RowsInCarts`); the code would fail on
      the missing cart there, and the model answers forbidden only to stay total. */
  function Authorize(carts: map<CartId, UserId>, items: map<ItemId, CartItem>,
                     user: UserId, itemId: ItemId): (r: Result<CartItem, Error>)
    ensures r.Ok? <==> itemId in items && items[itemId].cartId in carts && carts[items[itemId].cartId] == user
    ensures r.Ok? ==> r.value == items[itemId]
    ensures r == Err(NotFound) <==> itemId !in items
    ensures r == Err(Forbidden) <==> itemId in items && !(items[itemId].cartId in carts && carts[items[itemId].cartId] == user)
  {
    if itemId !in items then Err(NotFound)
    else if items[itemId].cartId !in carts || carts[items[itemId].cartId] != user then Err(Forbidden)
    else Ok(items[itemId])
  }

  // ---------------------------------------------------------------------------
  // Properties of the specification

  /** Looking up a cart creates one only when the user has none; the user then
      owns exactly one cart, and a second lookup returns it and changes nothing. */
  lemma GetOrCreateIdempotent(carts: map<CartId, UserId>, nextCartId: CartId, user: UserId)
    requires OneCartPerUser(carts)
    requires forall c :: c in carts ==> c < nextCartId
    ensures var (carts', c) := GetOrCreate(carts, nextCartId, user);
            && OneCartPerUser(carts')
            && c in carts' && carts'[c] == user
            && (CartOf(carts, user).Some? ==> carts' == carts)
            && (CartOf(carts, user).None? ==> carts' == carts[c := user] && c !in carts)
            && GetOrCreate(carts', nextCartId + 1, user) == (carts', c)
  {
    var (carts', c) := GetOrCreate(carts, nextCartId, user);
    assert c in carts' && carts'[c] == user;
    var again := CartOf(carts', user);
    assert again.value == c;
  }

  /** Adding to a consistent table keeps it consistent: still one row per cart
      and product, and every quantity at least 1. */
  lemma AddToCartConsistent(carts: map<CartId, UserId>, items: map<ItemId, CartItem>, nextItemId: ItemId,
                            cart: CartId, product: ProductId, quantity: int, price: real)
    requires Consistent(carts, items)
    requires forall i :: i in items ==> i < nextItemId
    requires cart in carts && quantity >= 1
    ensures Consistent(carts, AddToCart(items, nextItemId, cart, product, quantity, price))
  {
  }

  /** When the cart already holds the product, the add tops up that row: no row
      is created, its price and product stay, every other row is untouched. */
  lemma AddToExistingRow(items: map<ItemId, CartItem>, nextItemId: ItemId,
                         cart: CartId, product: ProductId, quantity: int, price: real, i: ItemId)
    requires i in items && items[i].cartId == cart && items[i].productId == product
    requires OneRowPerProduct(items)
    ensures var r := AddToCart(items, nextItemId, cart, product, quantity, price);
            && r.Keys == items.Keys
            && r[i] == items[i].(quantity := items[i].quantity + quantity)
            && (forall j :: j in items && j != i ==> r[j] == items[j])
  {
  }

  /** When the cart does not hold the product, exactly one row is inserted, with
      the requested quantity and the price given, and nothing else changes. */
  lemma AddNewRow(items: map<ItemId, CartItem>, nextItemId: ItemId,
                  cart: CartId, product: ProductId, quantity: int, price: real)
    requires forall i :: i in items ==> items[i].cartId != cart || items[i].productId != product
    requires nextItemId !in items
    ensures var r := AddToCart(items, nextItemId, cart, product, quantity, price);
            && r.Keys == items.Keys + {nextItemId}
            && r[nextItemId] == CartItem(cart, product, quantity, price)
            && (forall j :: j in items ==> r[j] == items[j])
  {
  }

  /** Adding a product twice, `q1` units at price `p1` and then `q2` units at a
      possibly different price `p2`, leaves one row with `q1 + q2` units at the
      first price. */
  lemma AddTwiceMerges(items: map<ItemId, CartItem>, nextItemId: ItemId,
                       cart: CartId, product: ProductId, q1: int, p1: real, q2: int, p2: real)
    requires forall i :: i in items ==> items[i].cartId != cart || items[i].productId != product
    requires forall i :: i in items ==> i < nextItemId
    ensures var once := AddToCart(items, nextItemId, cart, product, q1, p1);
            var twice := AddToCart(once, nextItemId + 1, cart, product, q2, p2);
            && RowOf(twice, cart, product) == Some(nextItemId)
            && twice[nextItemId] == CartItem(cart, product, q1 + q2, p1)
            && twice.Keys == items.Keys + {nextItemId}
  {
    var once := AddToCart(items, nextItemId, cart, product, q1, p1);
    AddNewRow(items, nextItemId, cart, product, q1, p1);
    assert RowOf(once, cart, product) == Some(nextItemId);
    assert forall i :: i in once && once[i].cartId == cart && once[i].productId == product ==> i == nextItemId;
    var twice := AddToCart(once, nextItemId + 1, cart, product, q2, p2);
    assert twice.Keys == once.Keys;
    assert forall i :: i in twice && twice[i].cartId == cart && twice[i].productId == product ==> i == nextItemId;
  }

  // ---------------------------------------------------------------------------
  // The tables and the handlers

  class CartStore {
    /** `carts`: cart id to owning user. */
    var carts: map<CartId, UserId>
    /** `cart_items`: row id to row. */
    var items: map<ItemId, CartItem>
    /** `products`, read only here: product id to current price. */
    var catalogue: map<ProductId, real>
    /** The next auto-increment ids. */
    var nextCartId: CartId
    var nextItemId: ItemId

    ghost predicate Valid()
      reads this
    {
      && Consistent(carts, items)
      && (forall c :: c in carts ==> c < nextCartId)
      && (forall i :: i in items ==> i < nextItemId)
    }

    constructor (catalogue: map<ProductId, real>)
      ensures Valid()
      ensures this.catalogue == catalogue && carts == map[] && items == map[]
    {
      this.catalogue := catalogue;
      carts := map[];
      items := map[];
      nextCartId := 0;
      nextItemId := 0;
    }

    /** `Cart::firstOrCreate(['user_id' => user])`. */
    method FirstOrCreate(user: UserId) returns (cart: CartId)
      requires Valid()
      modifies this`carts, this`nextCartId
      ensures Valid()
      ensures (carts, cart) == GetOrCreate(old(carts), old(nextCartId), user)
      ensures cart in carts && carts[cart] == user
    {
      if exists c :: c in carts && carts[c] == user {
        cart :| cart in carts && carts[cart] == user;
      } else {
        cart := nextCartId;
        carts := carts[cart := user];
        nextCartId := nextCartId + 1;
      }
    }

    /** `index`: the caller's cart, created if need be, and its rows. */
    method Index(user: UserId) returns (cart: CartId, rows: map<ItemId, CartItem>)
      requires Valid()
      modifies this`carts, this`nextCartId
      ensures Valid()
      ensures (carts, cart) == GetOrCreate(old(carts), old(nextCartId), user)
      ensures rows == ItemsOf(items, cart)
      ensures items == old(items)
    {
      cart := FirstOrCreate(user);
      rows := ItemsOf(items, cart);
    }

    /** `store`: validate, find or create the caller's cart, then top up the
        product's row or insert one at the product's current price. */
    method Store(user: UserId, productId: Option<ProductId>, quantity: IntField) returns (r: Result<ItemId, Error>)
      requires Valid()
      modifies this`carts, this`nextCartId, this`items, this`nextItemId
      ensures Valid()
      ensures r.Err? <==> ValidateStore(productId, quantity, catalogue).Err?
      ensures r.Err? ==> r.error == ValidationFailed && carts == old(carts) && items == old(items)
      ensures r.Ok? ==>
        var (carts', cart) := GetOrCreate(old(carts), old(nextCartId), user);
        && carts == carts'
        && items == AddToCart(old(items), old(nextItemId), cart, productId.value, quantity.value,
                              catalogue[productId.value])
        && r.value in items && items[r.value].cartId == cart && items[r.value].productId == productId.value
    {
      var valid := ValidateStore(productId, quantity, catalogue);
      if valid.Err? {
        return Err(valid.error);
      }
      var (product, q) := valid.value;
      var cart := FirstOrCreate(user);
      var i := AddRow(cart, product, q);
      r := Ok(i);
    }

    /** The merge-or-insert step of `store`, for a validated product and quantity:
        top up the cart's row for the product, or insert one at its current price. */
    method AddRow(cart: CartId, product: ProductId, quantity: int) returns (i: ItemId)
      requires Valid()
      requires cart in carts && product in catalogue && quantity >= 1
      modifies this`items, this`nextItemId
      ensures Valid()
      ensures items == AddToCart(old(items), old(nextItemId), cart, product, quantity, catalogue[product])
      ensures i in items && items[i].cartId == cart && items[i].productId == product
    {
      ghost var added := AddToCart(items, nextItemId, cart, product, quantity, catalogue[product]);
      AddToCartConsistent(carts, items, nextItemId, cart, product, quantity, catalogue[product]);
      if exists j :: j in items && items[j].cartId == cart && items[j].productId == product {
        i :| i in items && items[i].cartId == cart && items[i].productId == product;
        assert RowOf(items, cart, product) == Some(i);
        items := items[i := items[i].(quantity := items[i].quantity + quantity)];
        assert items == added;
      } else {
        i := nextItemId;
        assert RowOf(items, cart, product) == None;
        items := items[i := CartItem(cart, product, quantity, catalogue[product])];
        assert items == added;
        nextItemId := nextItemId + 1;
      }
    }

    /** `update`: validate the quantity, find the row, check the caller owns it,
        then overwrite its quantity and nothing else. */
    method Update(user: UserId, itemId: ItemId, quantity: IntField) returns (r: Result<CartItem, Error>)
      requires Valid()
      modifies this`items
      ensures Valid()
      ensures quantity.Integer? && quantity.value >= 1 ==>
                r.Err? == Authorize(carts, old(items), user, itemId).Err?
      ensures !(quantity.Integer? && quantity.value >= 1) ==> r == Err(ValidationFailed)
      ensures r.Err? ==> items == old(items)
      ensures r.Err? && quantity.Integer? && quantity.value >= 1 ==> r == Authorize(carts, old(items), user, itemId)
      ensures r.Ok? ==>
        && items == old(items)[itemId := old(items)[itemId].(quantity := quantity.value)]
        && r.value == items[itemId]
    {
      var valid := ValidateQuantity(quantity);
      if valid.Err? {
        return Err(valid.error);
      }
      var found := Authorize(carts, items, user, itemId);
      if found.Err? {
        return Err(found.error);
      }
      items := items[itemId := found.value.(quantity := valid.value)];
      r := Ok(items[itemId]);
    }

    /** `destroy`: find the row, check the caller owns it, then delete that row only. */
    method Destroy(user: UserId, itemId: ItemId) returns (r: Result<(), Error>)
      requires Valid()
      modifies this`items
      ensures Valid()
      ensures r.Err? ==> Err(r.error) == Authorize(carts, old(items), user, itemId) && items == old(items)
      ensures r.Ok? ==>
        && Authorize(carts, old(items), user, itemId).Ok?
        && items == old(items) - {itemId}
    {
      var found := Authorize(carts, items, user, itemId);
      if found.Err? {
        return Err(found.error);
      }
      items := items - {itemId};
      r := Ok(());
    }
  }
}
