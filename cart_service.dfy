/** The cart service: the cart of a user, created on first use, and the
    edits of its items (add or merge, remove, set quantity, clear). */
module Carts {
  import opened Wrappers
  import opened ShopData
  import opened Repositories
  import CartView

  const ProductNotFound := "Товар не найден"
  const LineNotFound := "Товар не найден в корзине"

  /** The index of the first line of the product
      (`stream().filter(…).findFirst()`). */
  function FirstLine(lines: seq<CartLine>, productId: int): (r: Option<nat>)
    ensures r.Some? ==> r.value < |lines| && lines[r.value].product.id == productId
    ensures r.Some? ==> forall j :: 0 <= j < r.value ==> lines[j].product.id != productId
    ensures r.None? ==> forall j :: 0 <= j < |lines| ==> lines[j].product.id != productId
  {
    if lines == [] then None
    else if lines[0].product.id == productId then Some(0)
    else match FirstLine(lines[1..], productId)
      case None => None
      case Some(k) => Some(k + 1)
  }

  /** The search of the stream, one item at a time. */
  method FindFirst(lines: seq<CartLine>, productId: int) returns (r: Option<nat>)
    ensures r == FirstLine(lines, productId)
  {
    var i := 0;
    while i < |lines|
      invariant 0 <= i <= |lines|
      invariant forall j :: 0 <= j < i ==> lines[j].product.id != productId
    {
      if lines[i].product.id == productId {
        return Some(i);
      }
      i := i + 1;
    }
    return None;
  }

  /** The cart after getOrCreateCart: an existing cart is kept, otherwise
      an empty one is stored. */
  function Created(carts: map<int, seq<CartLine>>, userId: int): map<int, seq<CartLine>> {
    if userId in carts then carts else carts[userId := []]
  }

  /** A second call finds the cart the first one stored; the user then has
      a cart, an existing one unchanged and a new one empty, and no other
      user's cart is touched. */
  lemma CreatedOnce(carts: map<int, seq<CartLine>>, userId: int)
    ensures Created(Created(carts, userId), userId) == Created(carts, userId)
    ensures Created(carts, userId).Keys == carts.Keys + {userId}
    ensures Created(carts, userId)[userId] == (if userId in carts then carts[userId] else [])
    ensures forall u :: u in carts && u != userId ==> Created(carts, userId)[u] == carts[u]
  {
  }

  /** addToCart on the items: the first line of the product gains the
      quantity; without one, a new line is appended. */
  function Added(lines: seq<CartLine>, productId: int, product: Product, quantity: int): seq<CartLine> {
    match FirstLine(lines, productId)
    case Some(k) => lines[k := lines[k].(quantity := lines[k].quantity + quantity)]
    case None => lines + [CartLine(product, quantity)]
  }

  /** updateCartItemQuantity on the items: None when the product has no line. */
  function Updated(lines: seq<CartLine>, productId: int, quantity: int): Option<seq<CartLine>> {
    match FirstLine(lines, productId)
    case Some(k) => Some(lines[k := lines[k].(quantity := quantity)])
    case None => None
  }

  /** At most one line per product id. */
  predicate OneLinePerProduct(lines: seq<CartLine>) {
    forall i, j :: 0 <= i < j < |lines| ==> lines[i].product.id != lines[j].product.id
  }

  /** Adding a product that has a line keeps the number of lines and
      raises only that line's quantity. */
  lemma AddMerges(lines: seq<CartLine>, product: Product, quantity: int)
    requires FirstLine(lines, product.id).Some?
    ensures var k := FirstLine(lines, product.id).value;
            var r := Added(lines, product.id, product, quantity);
            && |r| == |lines|
            && r[k].product == lines[k].product && r[k].quantity == lines[k].quantity + quantity
            && forall j :: 0 <= j < |lines| && j != k ==> r[j] == lines[j]
  {
  }

  /** Adding a product without a line appends exactly one line. */
  lemma AddAppends(lines: seq<CartLine>, product: Product, quantity: int)
    requires FirstLine(lines, product.id).None?
    ensures Added(lines, product.id, product, quantity) == lines + [CartLine(product, quantity)]
  {
  }

  /** Adding keeps the cart at one line per product. */
  lemma AddKeepsOneLinePerProduct(lines: seq<CartLine>, product: Product, quantity: int)
    requires OneLinePerProduct(lines)
    ensures OneLinePerProduct(Added(lines, product.id, product, quantity))
  {
    var r := Added(lines, product.id, product, quantity);
    match FirstLine(lines, product.id)
    case Some(k) =>
      assert forall j :: 0 <= j < |r| ==> r[j].product == lines[j].product;
    case None =>
      assert forall j :: 0 <= j < |lines| ==> r[j] == lines[j];
  }

  /** With one line per product, the service's update and the page's local
      edit of the list agree. */
  lemma UpdateMatchesPage(lines: seq<CartLine>, productId: int, quantity: int)
    requires OneLinePerProduct(lines) && FirstLine(lines, productId).Some?
    ensures Updated(lines, productId, quantity) == Some(CartView.WithQuantity(lines, productId, quantity))
  {
    var k := FirstLine(lines, productId).value;
    var r := Updated(lines, productId, quantity).value;
    var w := CartView.WithQuantity(lines, productId, quantity);
    CartView.WithQuantityPointwise(lines, productId, quantity);
    forall j | 0 <= j < |lines| && j != k ensures lines[j].product.id != productId {
      if j > k {
        assert lines[k].product.id != lines[j].product.id;
      }
    }
    assert r == w;
  }

  /** Removing a product that has no line leaves the items as they are. */
  lemma {:induction false} RemoveAbsent(lines: seq<CartLine>, productId: int)
    requires FirstLine(lines, productId).None?
    ensures CartView.WithoutProduct(lines, productId) == lines
  {
    if lines != [] {
      RemoveAbsent(lines[1..], productId);
      assert lines == [lines[0]] + lines[1..];
    }
  }

  /** `removeIf`: the items, in order, without the product's lines. */
  method RemoveIf(lines: seq<CartLine>, productId: int) returns (kept: seq<CartLine>)
    ensures kept == CartView.WithoutProduct(lines, productId)
  {
    kept := [];
    var i := 0;
    while i < |lines|
      invariant 0 <= i <= |lines|
      invariant kept == CartView.WithoutProduct(lines[..i], productId)
    {
      CartView.WithoutProductAppend(lines[..i], [lines[i]], productId);
      assert lines[..i + 1] == lines[..i] + [lines[i]];
      if lines[i].product.id != productId {
        kept := kept + [lines[i]];
      }
      i := i + 1;
    }
    assert lines[..i] == lines;
  }

  class CartService {
    const cartRepository: CartRepository
    const productRepository: ProductRepository

    constructor (carts: CartRepository, products: ProductRepository)
      ensures cartRepository == carts && productRepository == products
    {
      cartRepository := carts;
      productRepository := products;
    }

    /** getOrCreateCart */
    method GetOrCreateCart(userId: int) returns (lines: seq<CartLine>)
      modifies cartRepository
      ensures cartRepository.carts == Created(old(cartRepository.carts), userId)
      ensures lines == cartRepository.carts[userId]
    {
      if userId !in cartRepository.carts {
        cartRepository.carts := cartRepository.carts[userId := []];
      }
      lines := cartRepository.carts[userId];
    }

    /** addToCart: an unknown product fails with the cart's items untouched
        (though the cart itself is created), otherwise the items grow as
        Added says. */
    method AddToCart(userId: int, productId: int, quantity: int) returns (r: Outcome)
      modifies cartRepository
      ensures r == if productId in productRepository.products then Pass else Fail(ProductNotFound)
      ensures var created := Created(old(cartRepository.carts), userId);
              cartRepository.carts ==
                if r.Fail? then created
                else created[userId := Added(created[userId], productId, productRepository.products[productId], quantity)]
      ensures (productRepository.Valid() && OneLinePerProduct(Created(old(cartRepository.carts), userId)[userId]))
                ==> OneLinePerProduct(cartRepository.carts[userId])
    {
      var lines := GetOrCreateCart(userId);
      if productId !in productRepository.products {
        return Fail(ProductNotFound);
      }
      var product := productRepository.products[productId];
      if productRepository.Valid() && OneLinePerProduct(lines) {
        AddKeepsOneLinePerProduct(lines, product, quantity);
      }
      var existing := FindFirst(lines, productId);
      if existing.Some? {
        var k := existing.value;
        lines := lines[k := lines[k].(quantity := lines[k].quantity + quantity)];
      } else {
        lines := lines + [CartLine(product, quantity)];
      }
      cartRepository.carts := cartRepository.carts[userId := lines];
      return Pass;
    }

    /** removeFromCart: every line of the product goes. */
    method RemoveFromCart(userId: int, productId: int)
      modifies cartRepository
      ensures var created := Created(old(cartRepository.carts), userId);
              cartRepository.carts == created[userId := CartView.WithoutProduct(created[userId], productId)]
    {
      var lines := GetOrCreateCart(userId);
      var kept := RemoveIf(lines, productId);
      cartRepository.carts := cartRepository.carts[userId := kept];
    }

    /** updateCartItemQuantity: the quantity is stored as given, with no
        lower bound; a product without a line fails. */
    method UpdateCartItemQuantity(userId: int, productId: int, quantity: int) returns (r: Outcome)
      modifies cartRepository
      ensures var created := Created(old(cartRepository.carts), userId);
              var updated := Updated(created[userId], productId, quantity);
              && (r == if updated.Some? then Pass else Fail(LineNotFound))
              && cartRepository.carts == if updated.Some? then created[userId := updated.value] else created
    {
      var lines := GetOrCreateCart(userId);
      var found := FindFirst(lines, productId);
      if found.None? {
        return Fail(LineNotFound);
      }
      var k := found.value;
      lines := lines[k := lines[k].(quantity := quantity)];
      cartRepository.carts := cartRepository.carts[userId := lines];
      return Pass;
    }

    /** clearCart */
    method ClearCart(userId: int)
      modifies cartRepository
      ensures cartRepository.carts == Created(old(cartRepository.carts), userId)[userId := []]
    {
      var lines := GetOrCreateCart(userId);
      cartRepository.carts := cartRepository.carts[userId := []];
    }
  }

  /** The update stores any quantity, zero and negative ones included, on
      the product's line. */
  lemma UpdateStoresAnyQuantity(lines: seq<CartLine>, productId: int, quantity: int)
    requires FirstLine(lines, productId).Some?
    ensures var k := FirstLine(lines, productId).value;
            && Updated(lines, productId, quantity).Some?
            && Updated(lines, productId, quantity).value[k].quantity == quantity
            && |Updated(lines, productId, quantity).value| == |lines|
  {
  }
}
