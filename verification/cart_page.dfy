/** The cart page: each cart mutation replaces the held cart with the cart its 200 answer
    carries; the checkout handler does nothing. */
module CartPage {
  import opened Common
  import opened Domain

  /** Which cart request a handler sends, with its path argument. */
  datatype CartRequest = Increment(menuId: string) | Decrement(menuId: string) | Remove(cartItemId: string) | LoadCart

  class CartView {
    /** `null` until an answer arrives; a 200 answer without data stores `undefined`, here `None`. */
    var cart: Option<Cart>

    constructor ()
      ensures cart.None?
    {
      cart := None;
    }

    /** A mutation answer: 200 replaces the cart, a rejection shows `rejected` (when given) and keeps
        it, a thrown call shows the caught message and keeps it. */
    method Apply(reply: Call<Cart>, rejected: Option<string>) returns (fx: Effects)
      modifies this
      ensures reply.Returned? && IsOk(reply.response) ==> cart == reply.response.data && fx == Effects(None, None, true)
      ensures reply.Returned? && !IsOk(reply.response) ==> cart == old(cart) && fx == Effects(rejected, None, true)
      ensures reply.Threw? ==> cart == old(cart) && fx == Effects(Some(Caught(reply.failure, "")), None, true)
    {
      match reply
      case Threw(failure) =>
        fx := Effects(Some(Caught(failure, "")), None, true);
      case Returned(response) =>
        if IsOk(response) {
          cart := response.data;
          fx := Effects(None, None, true);
        } else {
          fx := Effects(rejected, None, true);
        }
    }

    /** `handleIncrement`: the only mutation that reports a rejected answer. */
    method HandleIncrement(menuId: string, reply: Call<Cart>) returns (request: CartRequest, fx: Effects)
      modifies this
      ensures request == Increment(menuId)
      ensures reply.Returned? && IsOk(reply.response) ==> cart == reply.response.data && fx.shown.None?
      ensures reply.Returned? && !IsOk(reply.response) ==>
        cart == old(cart) && fx.shown == Some("Failed to increment item quantity")
      ensures reply.Threw? ==> cart == old(cart) && fx.shown == Some(Caught(reply.failure, ""))
      ensures fx.sent && fx.navigation.None?
    {
      request := Increment(menuId);
      fx := Apply(reply, Some("Failed to increment item quantity"));
    }

    /** `handleDecrement`: a rejected answer is silent. */
    method HandleDecrement(menuId: string, reply: Call<Cart>) returns (request: CartRequest, fx: Effects)
      modifies this
      ensures request == Decrement(menuId)
      ensures reply.Returned? && IsOk(reply.response) ==> cart == reply.response.data && fx.shown.None?
      ensures reply.Returned? && !IsOk(reply.response) ==> cart == old(cart) && fx.shown.None?
      ensures reply.Threw? ==> cart == old(cart) && fx.shown == Some(Caught(reply.failure, ""))
      ensures fx.sent && fx.navigation.None?
    {
      request := Decrement(menuId);
      fx := Apply(reply, None);
    }

    /** `handleRemoveItemFromCart`: a rejected answer is silent. */
    method HandleRemoveItem(cartItemId: string, reply: Call<Cart>) returns (request: CartRequest, fx: Effects)
      modifies this
      ensures request == Remove(cartItemId)
      ensures reply.Returned? && IsOk(reply.response) ==> cart == reply.response.data && fx.shown.None?
      ensures reply.Returned? && !IsOk(reply.response) ==> cart == old(cart) && fx.shown.None?
      ensures reply.Threw? ==> cart == old(cart) && fx.shown == Some(Caught(reply.failure, ""))
      ensures fx.sent && fx.navigation.None?
    {
      request := Remove(cartItemId);
      fx := Apply(reply, None);
    }

    /** `fetchCart`, which the mount effect defines but never calls: a thrown call is swallowed. */
    method FetchCart(reply: Call<Cart>) returns (request: CartRequest, fx: Effects)
      modifies this
      ensures request == LoadCart
      ensures reply.Returned? && IsOk(reply.response) ==> cart == reply.response.data && fx.shown.None?
      ensures reply.Returned? && !IsOk(reply.response) ==>
        cart == old(cart) && fx.shown == Some("Failed to fetch cart details")
      ensures reply.Threw? ==> cart == old(cart) && fx.shown.None?
      ensures fx.sent && fx.navigation.None?
    {
      request := LoadCart;
      match reply
      case Threw(_) =>
        fx := Effects(None, None, true);
      case Returned(response) =>
        if IsOk(response) {
          cart := response.data;
          fx := Effects(None, None, true);
        } else {
          fx := Effects(Some("Failed to fetch cart details"), None, true);
        }
    }

    /** `handleCheckout`: its body is empty, so nothing is sent and nothing changes. */
    method HandleCheckout() returns (fx: Effects)
      ensures fx == Quiet
    {
      fx := Quiet;
    }
  }
}
