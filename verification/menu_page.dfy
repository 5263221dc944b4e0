/** The menu listing: which request loads it, the search box that filters the loaded items by
    name, the search request, and the card click that opens an item. */
module MenuPage {
  import opened Common
  import opened Text
  import opened Seqs
  import opened Domain

  /** The `data` of a menu answer: the list on success, an object with a message otherwise. */
  datatype MenuBody = MenuList(items: seq<MenuItem>) | ErrorBody(message: Option<string>)

  /** Which of the three listing requests is made. */
  datatype MenuQuery = ByCategory(categoryId: string) | AllMenus | Search(term: string)

  /** A 200 menu answer carries the list the page stores and filters. */
  predicate MenusReply(c: Call<MenuBody>) {
    c.Returned? && IsOk(c.response) ==> c.response.data.Some? && c.response.data.value.MenuList?
  }

  /** The `category` query parameter picks the filtered listing when present and non-empty. */
  function QueryFor(category: Option<string>): (q: MenuQuery)
    ensures q.ByCategory? <==> category.Some? && category.value != ""
    ensures q.ByCategory? ==> q.categoryId == category.value
    ensures !q.Search?
  {
    if category.Some? && category.value != "" then ByCategory(category.value) else AllMenus
  }

  /** The card filter: the lower-cased name includes the lower-cased search term. */
  predicate MatchesSearch(name: string, term: string) {
    Contains(ToLower(name), ToLower(term))
  }

  /** `filteredMenus`: the loaded items whose name matches, in their loaded order. */
  function FilteredMenus(menus: seq<MenuItem>, term: string): (r: seq<MenuItem>)
    ensures IsSubsequence(r, menus)
    ensures forall m :: m in r <==> m in menus && MatchesSearch(m.name, term)
  {
    Filter(menus, (m: MenuItem) => MatchesSearch(m.name, term))
  }

  /** An empty search box shows every loaded item. */
  lemma EmptySearchShowsAll(menus: seq<MenuItem>)
    ensures FilteredMenus(menus, "") == menus
  {
    forall m | m in menus
      ensures MatchesSearch(m.name, "")
    {
      ContainsEmpty(ToLower(m.name));
    }
    FilterKeepsAll(menus, (m: MenuItem) => MatchesSearch(m.name, ""));
  }

  /** An item is shown exactly when its lower-cased name has the lower-cased term at some position. */
  lemma ShownIffOccurs(menus: seq<MenuItem>, term: string, m: MenuItem)
    requires m in menus
    ensures m in FilteredMenus(menus, term) <==> exists i :: OccursAt(ToLower(m.name), ToLower(term), i)
  {
    ContainsIff(ToLower(m.name), ToLower(term));
  }

  /** The message shown for a rejected answer: `response.data.message || fallback`. Reading it from
      a missing `data` throws, and the catch shows the fallback. */
  function RejectedMessage(data: Option<MenuBody>, fallback: string): (msg: string)
    ensures data.Some? && data.value.ErrorBody? ==> msg == OrElse(data.value.message, fallback)
    ensures data.None? || data.value.MenuList? ==> msg == fallback
  {
    match data
    case Some(ErrorBody(m)) => OrElse(m, fallback)
    case _ => fallback
  }

  /** `navigateToMenuDetails`. */
  function MenuDetailsPath(id: nat): (path: string)
    ensures |path| > 6 && path[..6] == "/menu/"
    ensures ParseNumber(path[6..]) == Some(id as real)
  {
    var p := "/menu/" + DecimalString(id);
    assert p[6..] == DecimalString(id);
    DecimalStringRoundTrip(id);
    p
  }

  /** The price line of a card: two decimals and the currency. */
  function PriceLabel(m: MenuItem): (line: string)
    ensures |line| >= 8 && line[|line| - 4..] == " EUR"
    ensures ParseNumber(line[..|line| - 4]) == Some(m.price as real / 100.0)
  {
    var l := FixedCents(m.price) + " EUR";
    assert l[..|l| - 4] == FixedCents(m.price);
    FixedCentsRoundTrip(m.price);
    l
  }

  class MenuListing {
    var menus: seq<MenuItem>
    var searchTerm: string

    constructor ()
      ensures menus == [] && searchTerm == ""
    {
      menus := [];
      searchTerm := "";
    }

    /** What the grid renders. */
    function Shown(): (r: seq<MenuItem>)
      reads this
      ensures forall m :: m in r <==> m in menus && MatchesSearch(m.name, searchTerm)
    {
      FilteredMenus(menus, searchTerm)
    }

    method HandleSearchTermChange(value: string)
      modifies this
      ensures searchTerm == value && menus == old(menus)
    {
      searchTerm := value;
    }

    /** The effect run when the location's query changes: load by category or everything. */
    method FetchMenus(category: Option<string>, reply: Call<MenuBody>) returns (query: MenuQuery, fx: Effects)
      requires MenusReply(reply)
      modifies this
      ensures query == QueryFor(category)
      ensures searchTerm == old(searchTerm)
      ensures reply.Returned? && IsOk(reply.response) ==>
        menus == reply.response.data.value.items && fx == Effects(None, None, true)
      ensures reply.Returned? && !IsOk(reply.response) ==>
        menus == old(menus)
        && fx == Effects(Some(RejectedMessage(reply.response.data, "Failed to fetch menus")), None, true)
      ensures reply.Threw? ==>
        menus == old(menus)
        && fx == Effects(Some(OrElse(reply.failure.responseMessage, "Failed to fetch menus")), None, true)
    {
      query := QueryFor(category);
      fx := Receive(reply, "Failed to fetch menus");
    }

    /** `handleSearch`: ask the backend for the current term and replace the loaded items. */
    method HandleSearch(reply: Call<MenuBody>) returns (query: MenuQuery, fx: Effects)
      requires MenusReply(reply)
      modifies this
      ensures query == Search(old(searchTerm))
      ensures searchTerm == old(searchTerm)
      ensures reply.Returned? && IsOk(reply.response) ==>
        menus == reply.response.data.value.items && fx == Effects(None, None, true)
      ensures reply.Returned? && !IsOk(reply.response) ==>
        menus == old(menus)
        && fx == Effects(Some(RejectedMessage(reply.response.data, "Failed to search menus")), None, true)
      ensures reply.Threw? ==>
        menus == old(menus)
        && fx == Effects(Some(OrElse(reply.failure.responseMessage, "Failed to search menus")), None, true)
    {
      query := Search(searchTerm);
      fx := Receive(reply, "Failed to search menus");
    }

    /** The answer handling the two requests share. */
    method Receive(reply: Call<MenuBody>, fallback: string) returns (fx: Effects)
      requires MenusReply(reply)
      modifies this
      ensures searchTerm == old(searchTerm)
      ensures reply.Returned? && IsOk(reply.response) ==>
        menus == reply.response.data.value.items && fx == Effects(None, None, true)
      ensures reply.Returned? && !IsOk(reply.response) ==>
        menus == old(menus) && fx == Effects(Some(RejectedMessage(reply.response.data, fallback)), None, true)
      ensures reply.Threw? ==>
        menus == old(menus) && fx == Effects(Some(OrElse(reply.failure.responseMessage, fallback)), None, true)
    {
      match reply
      case Threw(failure) =>
        fx := Effects(Some(OrElse(failure.responseMessage, fallback)), None, true);
      case Returned(response) =>
        if IsOk(response) {
          menus := response.data.value.items;
          fx := Effects(None, None, true);
        } else {
          fx := Effects(Some(RejectedMessage(response.data, fallback)), None, true);
        }
    }
  }
}
