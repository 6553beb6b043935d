/** The product page: loading one product, the quantity stepper, the price
    shown on the add button and the add-to-cart request. The stored token
    and the replies of the service are parameters. */
module ProductDetail {
  import opened Wrappers
  import opened Text
  import opened ShopData
  import CartView

  /** The stepper's two moves. A decrement at 1 is ignored. */
  function Increment(q: int): int { q + 1 }

  function Decrement(q: int): int { if q > 1 then q - 1 else q }

  /** The stepper never goes below 1, and one step up is undone by one
      step down. */
  lemma StepperBounds(q: int)
    requires q >= 1
    ensures Increment(q) >= 1 && Decrement(q) >= 1
    ensures Decrement(Increment(q)) == q
    ensures q > 1 ==> Increment(Decrement(q)) == q
    ensures Decrement(1) == 1
  {
  }

  /** `(product.price * quantity)`, the price on the add button. */
  function ShownTotal(p: Product, quantity: int): int {
    p.price * quantity
  }

  /** The price on the add button is what the cart page charges for a cart
      holding just that product in that quantity. */
  lemma ShownTotalIsCartTotal(p: Product, quantity: int)
    ensures ShownTotal(p, quantity) == CartView.Subtotal(Some([CartLine(p, quantity)]))
  {
    var line := CartLine(p, quantity);
    assert [line][1..] == [];
    assert CartView.LinesTotal([line]) == CartView.LineTotal(line) + CartView.LinesTotal([]);
  }

  /** The price on the button grows with every increment by one unit price. */
  lemma ShownTotalSteps(p: Product, q: int)
    ensures ShownTotal(p, Increment(q)) == ShownTotal(p, q) + p.price
  {
  }

  /** The reply to GET /products/{id}: a non-ok HTTP status, a body, or a
      failure of its own (the request rejected, or a body that is not JSON)
      with the message of the error thrown. */
  datatype ProductReply =
    | HttpError(status: int)
    | Body(success: bool, product: Option<Product>, error: Option<string>)
    | FetchFailed(message: string)

  const NotFound := "Товар не найден"

  /** The message fetchProduct records on failure, if any. */
  function FetchError(reply: ProductReply): (r: Option<string>)
    ensures reply.Body? && reply.success ==> r == None
    ensures reply.HttpError? ==> r == Some("HTTP error! status: " + IntToString(reply.status))
    ensures reply.Body? && !reply.success ==> r.Some? && r.value != ""
    ensures reply.FetchFailed? ==> r == Some(reply.message)
  {
    match reply
    case FetchFailed(message) => Some(message)
    case HttpError(status) => Some("HTTP error! status: " + IntToString(status))
    case Body(success, _, error) =>
      if success then None else Some(if Truthy(error) then error.value else NotFound)
  }

  /** A request to POST /cart/add. */
  datatype AddRequest = AddRequest(productId: string, quantity: int)

  /** The reply to the add request; `Thrown` stands for a request that
      fails or a body that is not JSON. */
  datatype AddReply =
    | AddBody(ok: bool, success: bool, message: Option<string>, error: Option<string>)
    | Thrown(reason: string)

  const AuthRequired := "Требуется авторизация для добавления в корзину"
  const AddFailed := "Ошибка добавления в корзину"

  /** The alert shown after the add request. */
  function AddAlert(reply: AddReply, quantity: int): string {
    match reply
    case Thrown(message) => message
    case AddBody(ok, success, message, error) =>
      if !ok || !success then (if Truthy(error) then error.value else AddFailed)
      else if Truthy(message) then message.value
      else "Товар добавлен в корзину (" + IntToString(quantity) + " шт.)"
  }

  /** A refusal, by HTTP status or by the body, never shows a success text. */
  lemma RefusalAlert(reply: AddReply, quantity: int)
    requires reply.AddBody? && (!reply.ok || !reply.success)
    ensures AddAlert(reply, quantity) == (if Truthy(reply.error) then reply.error.value else AddFailed)
    ensures !Truthy(reply.error) ==> AddAlert(reply, quantity) == AddFailed
  {
  }

  class ProductDetailPage {
    const id: string
    var product: Option<Product>
    var loading: bool
    var error: Option<string>
    var quantity: int

    /** The stepper's value stays at least 1. */
    predicate Valid()
      reads this
    {
      quantity >= 1
    }

    constructor (id: string)
      ensures Valid() && this.id == id
      ensures product == None && loading && error == None && quantity == 1
    {
      this.id := id;
      product := None;
      loading := true;
      error := None;
      quantity := 1;
    }

    /** fetchProduct: the product on success; otherwise no product and the
        failure's message. Loading ends either way. */
    method FetchProduct(reply: ProductReply)
      modifies this
      ensures !loading && quantity == old(quantity)
      ensures error == FetchError(reply)
      ensures product == if error.None? then reply.product else None
    {
      loading := true;
      error := None;
      match reply {
        case HttpError(status) =>
          error := Some("HTTP error! status: " + IntToString(status));
          product := None;
        case Body(success, p, message) =>
          if !success {
            error := Some(if Truthy(message) then message.value else NotFound);
            product := None;
          } else {
            product := p;
          }
        case FetchFailed(message) =>
          error := Some(message);
          product := None;
      }
      loading := false;
    }

    method IncrementQuantity()
      requires Valid()
      modifies this
      ensures Valid() && quantity == Increment(old(quantity))
      ensures product == old(product) && loading == old(loading) && error == old(error)
    {
      quantity := quantity + 1;
    }

    method DecrementQuantity()
      requires Valid()
      modifies this
      ensures Valid() && quantity == Decrement(old(quantity))
      ensures product == old(product) && loading == old(loading) && error == old(error)
    {
      if quantity > 1 {
        quantity := quantity - 1;
      }
    }

    /** addToCart: without a token (none stored, or an empty one) nothing
        is sent, the sign-in page opens and the page says why; otherwise
        one request goes out with this page's product id and the current
        quantity, and the reply decides the alert. */
    method AddToCart(token: Option<string>, reply: AddReply)
      returns (sent: Option<AddRequest>, navigateTo: Option<string>, alert: string)
      requires Valid()
      ensures !Truthy(token) ==> sent == None && navigateTo == Some("/login") && alert == AuthRequired
      ensures Truthy(token) ==>
                sent == Some(AddRequest(id, quantity)) && navigateTo == None
                && alert == AddAlert(reply, quantity)
      ensures sent.Some? ==> sent.value.quantity >= 1
    {
      if !Truthy(token) {
        return None, Some("/login"), AuthRequired;
      }
      sent := Some(AddRequest(id, quantity));
      navigateTo := None;
      match reply {
        case Thrown(message) =>
          alert := message;
        case AddBody(ok, success, message, error) =>
          if !ok || !success {
            alert := if Truthy(error) then error.value else AddFailed;
          } else {
            alert := if Truthy(message) then message.value
                     else "Товар добавлен в корзину (" + IntToString(quantity) + " шт.)";
          }
      }
    }
  }
}
