/** The session kept by `ApiService`: a bearer token and a role list under the two
    localStorage keys "token" and "roles", the predicates derived from them, the request
    header, and the URL of the all-orders listing. */
module Session {
  import opened Common
  import opened Text
  import opened Seqs

  datatype Header = Header(authorization: string, contentType: string)

  const BearerPrefix := "Bearer "

  /** The two storage entries. The role list is stored as JSON and parsed back unchanged. */
  class SessionStore {
    var token: Option<string>
    var roles: Option<seq<string>>

    /** Storage with neither entry. */
    constructor Empty()
      ensures token == None && roles == None
    {
      token := None;
      roles := None;
    }

    /** `localStorage.setItem("token", t)`. */
    method SaveToken(t: string)
      modifies this
      ensures GetToken() == Some(t)
      ensures roles == old(roles)
    {
      token := Some(t);
    }

    function GetToken(): Option<string>
      reads this
    {
      token
    }

    /** `localStorage.setItem("roles", JSON.stringify(rs))`. */
    method SaveRole(rs: seq<string>)
      modifies this
      ensures GetRoles() == Some(rs)
      ensures token == old(token)
    {
      roles := Some(rs);
    }

    /** The parsed role list, or `None` (null) when nothing is stored. */
    function GetRoles(): Option<seq<string>>
      reads this
    {
      roles
    }

    predicate HadRole(role: string)
      reads this
      ensures HadRole(role) <==> roles.Some? && role in roles.value
    {
      match GetRoles()
      case None => false
      case Some(rs) => role in rs
    }

    predicate IsAdmin()
      reads this
      ensures IsAdmin() <==> roles.Some? && "ADMIN" in roles.value
    {
      HadRole("ADMIN")
    }

    predicate IsCustomer()
      reads this
      ensures IsCustomer() <==> roles.Some? && "CUSTOMER" in roles.value
    {
      HadRole("CUSTOMER")
    }

    predicate IsDeliveryPerson()
      reads this
      ensures IsDeliveryPerson() <==> roles.Some? && "DELIVERY" in roles.value
    {
      HadRole("DELIVERY")
    }

    /** `!!token`: a stored, non-empty token. */
    predicate IsAuthenticated()
      reads this
      ensures IsAuthenticated() <==> token.Some? && token.value != ""
    {
      match GetToken()
      case None => false
      case Some(t) => t != ""
    }

    /** Removes both entries; afterwards nothing is authorised, and a second call changes nothing. */
    method Logout()
      modifies this
      ensures token == None && roles == None
      ensures !IsAuthenticated() && !IsAdmin() && !IsCustomer() && !IsDeliveryPerson()
      ensures old(token) == None && old(roles) == None ==> unchanged(this)
    {
      token := None;
      roles := None;
    }

    /** The token as template interpolation prints it: the text "null" when absent. */
    function TokenText(): string
      reads this
    {
      match GetToken()
      case None => "null"
      case Some(t) => t
    }

    /** `getHeader()`: "Bearer " followed by the stored token, and a JSON content type. */
    function GetHeader(): (h: Header)
      reads this
      ensures |h.authorization| >= |BearerPrefix| && h.authorization[..|BearerPrefix|] == BearerPrefix
      ensures token.Some? ==> h.authorization[|BearerPrefix|..] == token.value
      ensures token.None? ==> h.authorization[|BearerPrefix|..] == "null"
      ensures h.contentType == "application/json"
    {
      Header(BearerPrefix + TokenText(), "application/json")
    }
  }

  const OrdersPath := "/orders/all"

  /** The URL `getAllOrders(orderStatus, page, size)` requests, relative to the API base URL:
      the bare listing for an empty or missing status, otherwise a query with all three. */
  function OrdersUrl(orderStatus: Option<string>, page: nat, size: nat): (url: string)
    ensures |url| >= |OrdersPath| && url[..|OrdersPath|] == OrdersPath
    ensures url == OrdersPath <==> orderStatus.None? || orderStatus.value == ""
    ensures orderStatus.Some? && orderStatus.value != "" ==>
      url[|OrdersPath|..] == "?orderStatus=" + orderStatus.value + "&page=" + DecimalString(page)
                             + "&size=" + DecimalString(size)
  {
    if orderStatus.Some? && orderStatus.value != "" then
      var query := "?orderStatus=" + orderStatus.value + "&page=" + DecimalString(page)
                   + "&size=" + DecimalString(size);
      SplitAppend(OrdersPath, query);
      OrdersPath + query
    else
      SplitAppend(OrdersPath, []);
      OrdersPath
  }

  /** `getAllOrders(orderStatus)` with the default page 0 and size 200. */
  function AllOrdersUrl(orderStatus: Option<string>): (url: string)
    ensures orderStatus.None? || orderStatus.value == "" ==> url == OrdersPath
    ensures orderStatus.Some? && orderStatus.value != "" ==>
      url == OrdersPath + "?orderStatus=" + orderStatus.value + "&page=0&size=200"
  {
    if orderStatus.Some? && orderStatus.value != "" then
      DefaultQuery(orderStatus.value);
      OrdersUrl(orderStatus, 0, 200)
    else OrdersUrl(orderStatus, 0, 200)
  }

  lemma DefaultPaging()
    ensures "&page=" + DecimalString(0) + "&size=" + DecimalString(200) == "&page=0&size=200"
  {
    assert DecimalString(0) == "0";
    assert DecimalString(200) == DecimalString(20) + "0" == DecimalString(2) + "0" + "0";
  }

  lemma DefaultQuery(status: string)
    ensures "?orderStatus=" + status + "&page=" + DecimalString(0) + "&size=" + DecimalString(200)
            == "?orderStatus=" + status + "&page=0&size=200"
  {
    DefaultPaging();
    var head := "?orderStatus=" + status;
    assert head + "&page=" + DecimalString(0) + "&size=" + DecimalString(200)
           == head + ("&page=" + DecimalString(0) + "&size=" + DecimalString(200));
  }
}
