/** The review form reached from the order history: the menu item named in the query, a
    ten-star rating, a comment, and the submission that goes back after a success. */
module LeaveReview {
  import opened Common
  import opened Text
  import opened Domain
  import opened Routes

  /** `createReview`'s body: every field travels as text. */
  datatype ReviewRequest = ReviewRequest(menuId: string, orderId: string, rating: string, comment: string)

  const MissingMenu := "Menu ID is required to leave a review."

  /** The body sent for the query's ids and the form's rating and comment; a missing id is sent empty. */
  function ReviewRequestOf(menuId: Option<string>, orderId: Option<string>, rating: int, comment: string): (req: ReviewRequest)
    ensures req.menuId == OrElse(menuId, "") && req.orderId == OrElse(orderId, "")
    ensures menuId.Some? ==> req.menuId == menuId.value
    ensures orderId.Some? ==> req.orderId == orderId.value
    ensures ParseNumber(req.rating) == Some(rating as real)
    ensures req.comment == comment
  {
    IntStringRoundTrip(rating);
    ReviewRequest(OrElse(menuId, ""), OrElse(orderId, ""), IntString(rating), comment)
  }

  class LeaveReviewPage {
    const menuId: Option<string>
    const orderId: Option<string>
    var menu: Option<MenuItem>
    var rating: int
    var comment: string
    var success: bool

    /** The rating is 0 (none chosen) or one of the ten stars. */
    predicate Valid()
      reads this
    {
      0 <= rating <= 10
    }

    constructor (menuId: Option<string>, orderId: Option<string>)
      ensures Valid()
      ensures this.menuId == menuId && this.orderId == orderId
      ensures menu.None? && rating == 0 && comment == "" && !success
    {
      this.menuId := menuId;
      this.orderId := orderId;
      menu := None;
      rating := 0;
      comment := "";
      success := false;
    }

    /** Star `star` (1..10) is drawn filled. */
    predicate StarFilled(star: int)
      reads this
      ensures StarFilled(star) <==> star <= rating
    {
      star <= rating
    }

    /** The submit button stays disabled until a star is chosen. */
    predicate SubmitDisabled()
      reads this
      ensures SubmitDisabled() <==> rating == 0
    {
      rating == 0
    }

    /** Clicking star `star`: exactly the stars up to it are filled afterwards. */
    method ClickStar(star: int)
      requires Valid() && 1 <= star <= 10
      modifies this
      ensures Valid() && rating == star && !SubmitDisabled()
      ensures forall s :: 1 <= s <= 10 ==> (StarFilled(s) <==> s <= star)
      ensures menu == old(menu) && comment == old(comment) && success == old(success)
    {
      rating := star;
    }

    /** Hovering a star sets the rating only while no element has the focus. */
    method HoverStar(star: int, bodyFocused: bool)
      requires Valid() && 1 <= star <= 10
      modifies this
      ensures Valid()
      ensures rating == (if bodyFocused then star else old(rating))
      ensures menu == old(menu) && comment == old(comment) && success == old(success)
    {
      if bodyFocused {
        rating := star;
      }
    }

    method HandleCommentChange(value: string)
      modifies this
      ensures comment == value
      ensures menu == old(menu) && rating == old(rating) && success == old(success)
    {
      comment := value;
    }

    /** The effect run for the query's `menuId`: without one, report it and navigate to
        "/profile/my-orders-history", a pathname the route table does not declare, so the
        visitor lands on the home page; with one, load the item. A rejected answer is silent. */
    method LoadMenu(reply: Call<MenuItem>) returns (fx: Effects)
      modifies this
      ensures rating == old(rating) && comment == old(comment) && success == old(success)
      ensures fx.sent <==> menuId.Some? && menuId.value != ""
      ensures !fx.sent ==> menu == old(menu) && fx == Effects(Some(MissingMenu), Some(GoTo(ReviewFallbackAsWritten)), false)
      ensures !fx.sent ==> Resolve(fx.navigation.value.path) == RedirectsHome
      ensures fx.sent ==> fx.navigation.None?
      ensures fx.sent && reply.Returned? && IsOk(reply.response) ==> menu == reply.response.data && fx.shown.None?
      ensures fx.sent && reply.Returned? && !IsOk(reply.response) ==> menu == old(menu) && fx.shown.None?
      ensures fx.sent && reply.Threw? ==> menu == old(menu) && fx.shown == Some(Caught(reply.failure, ""))
    {
      if menuId.None? || menuId.value == "" {
        ReviewFallbackMissesHistory();
        return Effects(Some(MissingMenu), Some(GoTo(ReviewFallbackAsWritten)), false);
      }
      match reply
      case Threw(failure) =>
        fx := Effects(Some(Caught(failure, "")), None, true);
      case Returned(response) =>
        if IsOk(response) {
          menu := response.data;
        }
        fx := Effects(None, None, true);
    }

    /** The same effect with the fallback the message announces: the order history by its
        declared pathname, which the route table resolves to that screen. */
    method LoadMenuAsIntended(reply: Call<MenuItem>) returns (fx: Effects)
      modifies this
      ensures rating == old(rating) && comment == old(comment) && success == old(success)
      ensures fx.sent <==> menuId.Some? && menuId.value != ""
      ensures !fx.sent ==> menu == old(menu) && fx == Effects(Some(MissingMenu), Some(GoTo(OrderHistoryPath)), false)
      ensures !fx.sent ==> Resolve(fx.navigation.value.path) == Shows(OrderHistoryScreen)
      ensures fx.sent ==> fx.navigation.None?
      ensures fx.sent && reply.Returned? && IsOk(reply.response) ==> menu == reply.response.data && fx.shown.None?
      ensures fx.sent && reply.Returned? && !IsOk(reply.response) ==> menu == old(menu) && fx.shown.None?
      ensures fx.sent && reply.Threw? ==> menu == old(menu) && fx.shown == Some(Caught(reply.failure, ""))
    {
      fx := LoadMenu(reply);
      if !fx.sent {
        fx := fx.(navigation := Some(GoTo(OrderHistoryPath)));
      }
    }

    /** `handleSubmit`: send the review; a 200 answer raises the success notice, after which
        the page goes back. */
    method HandleSubmit(reply: Call<()>) returns (sent: ReviewRequest, fx: Effects)
      modifies this
      ensures sent == ReviewRequestOf(menuId, orderId, old(rating), old(comment))
      ensures menu == old(menu) && rating == old(rating) && comment == old(comment)
      ensures fx.sent && fx.navigation.None?
      ensures reply.Returned? && IsOk(reply.response) ==> success && fx.shown.None?
      ensures reply.Returned? && !IsOk(reply.response) ==> success == old(success) && fx.shown.None?
      ensures reply.Threw? ==> success == old(success) && fx.shown == Some(Caught(reply.failure, ""))
    {
      sent := ReviewRequestOf(menuId, orderId, rating, comment);
      match reply
      case Threw(failure) =>
        fx := Effects(Some(Caught(failure, "")), None, true);
      case Returned(response) =>
        if IsOk(response) {
          success := true;
        }
        fx := Effects(None, None, true);
    }

    /** The timer set after a success goes back one history entry. */
    method AfterSuccess() returns (fx: Effects)
      requires success
      ensures fx.navigation == Some(GoBack) && fx.shown.None? && !fx.sent
    {
      fx := Effects(None, Some(GoBack), false);
    }
  }
}
