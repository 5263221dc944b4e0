/** The application's route table: which screen a pathname shows, and the catch-all that
    sends every other pathname to the home page. Two pages navigate to an order-history
    pathname that the table does not declare. */
module Routes {

  datatype Screen =
    | LoginScreen | HomeScreen | CategoriesScreen | RegisterScreen | MenuScreen
    | MenuDetailsScreen(id: string)
    | ProfileScreen | UpdateProfileScreen | OrderHistoryScreen | LeaveReviewScreen

  /** A declared route, or the `*` route's redirect to "/home". */
  datatype Resolution = Shows(screen: Screen) | RedirectsHome

  /** The pathname the order-history route is declared under, and the one the profile page uses. */
  const OrderHistoryPath := "/my-order-history"

  /** Where the review form sends a visitor who arrived without a menu id, as written. */
  const ReviewFallbackAsWritten := "/profile/my-orders-history"

  /** Where the payment page goes after a successful payment, as written. */
  const PaymentDoneAsWritten := "/my-orders-history"

  /** `/menu/:id`: one non-empty segment after "/menu/". */
  predicate IsMenuDetails(path: string) {
    |path| > 6 && path[..6] == "/menu/" && forall i :: 6 <= i < |path| ==> path[i] != '/'
  }

  /** The screen a pathname reaches. Matching here is exact and case-sensitive, and a trailing
      slash makes a different path; react-router is more lenient on both counts. */
  function Resolve(path: string): (r: Resolution)
    ensures r == Shows(OrderHistoryScreen) <==> path == OrderHistoryPath
    ensures r.Shows? && r.screen.MenuDetailsScreen? <==> IsMenuDetails(path)
    ensures r.Shows? && r.screen.MenuDetailsScreen? ==> r.screen.id == path[6..]
  {
    assert OrderHistoryPath[2] != "/menu/"[2];
    if IsMenuDetails(path) then Shows(MenuDetailsScreen(path[6..]))
    else if path == "/login" then Shows(LoginScreen)
    else if path == "/home" then Shows(HomeScreen)
    else if path == "/categories" then Shows(CategoriesScreen)
    else if path == "/register" then Shows(RegisterScreen)
    else if path == "/menu" then Shows(MenuScreen)
    else if path == "/profile" then Shows(ProfileScreen)
    else if path == "/update" then Shows(UpdateProfileScreen)
    else if path == OrderHistoryPath then Shows(OrderHistoryScreen)
    else if path == "/leave-review" then Shows(LeaveReviewScreen)
    else RedirectsHome
  }

  /** The screens wrapped in the customer guard. */
  predicate CustomerOnly(s: Screen)
    ensures CustomerOnly(s) <==> s in {ProfileScreen, UpdateProfileScreen, OrderHistoryScreen, LeaveReviewScreen}
  {
    s.ProfileScreen? || s.UpdateProfileScreen? || s.OrderHistoryScreen? || s.LeaveReviewScreen?
  }

  /** The declared pathname reaches the order history, behind the customer guard. */
  lemma OrderHistoryReachable()
    ensures Resolve(OrderHistoryPath) == Shows(OrderHistoryScreen)
    ensures CustomerOnly(Resolve(OrderHistoryPath).screen)
  {
  }

  /** The review form's fallback pathname matches no route and lands on the home page. */
  lemma ReviewFallbackMissesHistory()
    ensures Resolve(ReviewFallbackAsWritten) == RedirectsHome
  {
    assert ReviewFallbackAsWritten[1] != "/menu/"[1];
  }

  /** The payment page's pathname matches no route and lands on the home page. */
  lemma PaymentDoneMissesHistory()
    ensures Resolve(PaymentDoneAsWritten) == RedirectsHome
  {
    assert PaymentDoneAsWritten[2] != "/menu/"[2];
  }
}
