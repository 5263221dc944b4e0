/** The page of one menu item: loading it and its average rating, the quantity selector that
    never goes below one, adding to the cart, and the star line of each review. */
module MenuDetails {
  import opened Common
  import opened Text
  import opened Domain
  import opened Session

  /** The body of `addItemToCart`: the quantity travels as its decimal text. */
  datatype AddToCartRequest = AddToCartRequest(menuId: nat, quantity: string)

  const NeedsLogin := "You need to be logged in to add items to the cart"

  /** `'★'.repeat(rating) + '☆'.repeat(10 - rating)`; `repeat` throws outside 0..10. */
  function ReviewStars(rating: int): (stars: string)
    requires 0 <= rating <= 10
    ensures |stars| == 10
    ensures forall i :: 0 <= i < 10 ==> (stars[i] == '★' <==> i < rating)
    ensures forall i :: 0 <= i < 10 ==> (stars[i] == '☆' <==> i >= rating)
  {
    Repeat('★', rating) + Repeat('☆', 10 - rating)
  }

  /** `addItemToCart`'s body for a quantity of at least one. */
  function CartRequest(menuId: nat, quantity: int): (req: AddToCartRequest)
    requires quantity >= 1
    ensures req.menuId == menuId
    ensures ParseNumber(req.quantity) == Some(quantity as real)
  {
    DecimalStringRoundTrip(quantity);
    AddToCartRequest(menuId, DecimalString(quantity))
  }

  class MenuDetailsPage {
    var menu: Option<MenuItem>
    var averageRating: real
    var quantity: int
    var cartSuccess: bool

    /** The selector starts at one and stays there or above. */
    predicate Valid()
      reads this
    {
      quantity >= 1
    }

    constructor ()
      ensures Valid()
      ensures menu.None? && averageRating == 0.0 && quantity == 1 && !cartSuccess
    {
      menu := None;
      averageRating := 0.0;
      quantity := 1;
      cartSuccess := false;
    }

    /** The minus button is disabled at one. */
    predicate DecrementDisabled()
      reads this
      ensures Valid() ==> (DecrementDisabled() <==> quantity == 1)
    {
      quantity <= 1
    }

    method IncrementQuantity()
      requires Valid()
      modifies this
      ensures Valid() && quantity == old(quantity) + 1 && !DecrementDisabled()
      ensures menu == old(menu) && cartSuccess == old(cartSuccess) && averageRating == old(averageRating)
    {
      quantity := quantity + 1;
    }

    /** `Math.max(prev - 1, 1)`: one step down, but never below one. */
    method DecrementQuantity()
      requires Valid()
      modifies this
      ensures Valid()
      ensures old(quantity) > 1 ==> quantity == old(quantity) - 1
      ensures old(quantity) == 1 ==> quantity == 1
      ensures menu == old(menu) && cartSuccess == old(cartSuccess) && averageRating == old(averageRating)
    {
      quantity := if quantity - 1 > 1 then quantity - 1 else 1;
    }

    /** The effect run for the route's `id`: load the item, and after a 200 answer its average
        rating. Only a thrown call is reported; a rejected one leaves the page as it was. */
    method FetchMenu(id: Option<string>, menuReply: Call<MenuItem>, ratingReply: Call<real>)
      returns (ratingRequested: bool, fx: Effects)
      requires WellFormed(ratingReply)
      modifies this
      ensures quantity == old(quantity) && cartSuccess == old(cartSuccess)
      ensures id.None? || id.value == "" ==>
        fx == Effects(Some("Menu ID is required"), None, false) && !ratingRequested && unchanged(this)
      ensures fx.sent <==> id.Some? && id.value != ""
      ensures ratingRequested <==> fx.sent && menuReply.Returned? && IsOk(menuReply.response)
      ensures ratingRequested ==> menu == menuReply.response.data
      ensures ratingRequested && ratingReply.Returned? && IsOk(ratingReply.response) ==>
        averageRating == ratingReply.response.data.value && fx.shown.None?
      ensures ratingRequested && ratingReply.Returned? && !IsOk(ratingReply.response) ==>
        averageRating == old(averageRating) && fx.shown.None?
      ensures fx.sent && !ratingRequested ==> menu == old(menu) && averageRating == old(averageRating)
      ensures fx.sent && menuReply.Returned? && !IsOk(menuReply.response) ==> fx.shown.None?
      ensures fx.sent && (menuReply.Threw? || (ratingRequested && ratingReply.Threw?)) ==>
        fx.shown == Some("Failed to fetch menu details")
      ensures fx.navigation.None?
    {
      if id.None? || id.value == "" {
        return false, Effects(Some("Menu ID is required"), None, false);
      }
      match menuReply
      case Threw(_) =>
        return false, Effects(Some("Failed to fetch menu details"), None, true);
      case Returned(response) =>
        if !IsOk(response) {
          return false, Effects(None, None, true);
        }
        menu := response.data;
        ratingRequested := true;
        match ratingReply
        case Threw(_) =>
          fx := Effects(Some("Failed to fetch menu details"), None, true);
        case Returned(rating) =>
          if IsOk(rating) {
            averageRating := rating.data.value;
          }
          fx := Effects(None, None, true);
    }

    /** `handleAddToCart`, reachable only from the rendered item. A 200 answer raises the
        success banner; a rejected answer is silent. */
    method HandleAddToCart(session: SessionStore, reply: Call<()>) returns (sent: Option<AddToCartRequest>, fx: Effects)
      requires Valid() && menu.Some?
      modifies this
      ensures Valid() && quantity == old(quantity) && menu == old(menu) && averageRating == old(averageRating)
      ensures sent.Some? <==> session.IsAuthenticated()
      ensures sent.Some? ==> sent.value == CartRequest(menu.value.id, quantity)
      ensures fx.sent == sent.Some? && fx.navigation.None?
      ensures sent.None? ==> fx.shown == Some(NeedsLogin) && cartSuccess == old(cartSuccess)
      ensures sent.Some? && reply.Returned? && IsOk(reply.response) ==> cartSuccess && fx.shown.None?
      ensures sent.Some? && reply.Returned? && !IsOk(reply.response) ==>
        cartSuccess == old(cartSuccess) && fx.shown.None?
      ensures sent.Some? && reply.Threw? ==>
        cartSuccess == old(cartSuccess) && fx.shown == Some("Failed to add item to cart")
    {
      if !session.IsAuthenticated() {
        return None, Effects(Some(NeedsLogin), None, false);
      }
      sent := Some(CartRequest(menu.value.id, quantity));
      match reply
      case Threw(_) =>
        fx := Effects(Some("Failed to add item to cart"), None, true);
      case Returned(response) =>
        if IsOk(response) {
          cartSuccess := true;
        }
        fx := Effects(None, None, true);
    }

    /** The timer set after a successful add: the banner goes away. */
    method ClearCartSuccess()
      modifies this
      ensures !cartSuccess
      ensures menu == old(menu) && quantity == old(quantity) && averageRating == old(averageRating)
    {
      cartSuccess := false;
    }
  }
}
