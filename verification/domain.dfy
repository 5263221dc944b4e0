/** The shapes of the backend's records as the pages read them. Money is held in integer
    cents; identifiers the backend sends as numbers are `nat`. */
module Domain {
  import opened Common

  /** A review attached to a menu item, with the order it was written for. */
  datatype Review = Review(id: nat, rating: int, comment: string, orderId: Option<int>)

  datatype MenuItem = MenuItem(
    id: nat,
    name: string,
    description: string,
    price: int,
    imageUrl: string,
    categoryId: Option<nat>,
    reviews: seq<Review>)

  datatype OrderItem = OrderItem(
    id: string,
    quantity: int,
    menuId: nat,
    menu: MenuItem,
    pricePerUnit: int,
    subTotal: int)

  /** Statuses are kept as the strings the backend sends ("INITIALIZED", "DELIVERED", ...). */
  datatype Order = Order(
    id: string,
    orderDate: string,
    totalAmount: int,
    orderStatus: string,
    paymentStatus: Option<string>,
    orderItems: seq<OrderItem>)

  /** A payment record; every field is optional on the wire. `None` stands for a field the
      answer leaves out (`undefined`); a JSON `null` is not modelled: it would add 0 to a sum
      where `undefined` gives NaN, and it is not `=== undefined`, so the revenue figures would
      differ for it. */
  datatype Payment = Payment(
    id: Option<nat>,
    orderId: Option<nat>,
    amount: Option<int>,
    paymentStatus: Option<string>,
    paymentGateway: Option<string>)

  datatype CartItem = CartItem(id: string, menu: MenuItem, quantity: int, pricePerUnit: int, subTotal: int)

  datatype Cart = Cart(id: nat, cartItems: seq<CartItem>, quantity: int, totalAmount: int)

  /** A file chosen in a file input; its contents are opaque here. */
  datatype File = File(name: string, size: nat)

  /** One `FormData.append(key, value)`. */
  datatype FormValue = Text(text: string) | Blob(file: File)
  datatype FormEntry = FormEntry(key: string, value: FormValue)

  function Keys(entries: seq<FormEntry>): (ks: seq<string>)
    ensures |ks| == |entries|
    ensures forall i :: 0 <= i < |entries| ==> ks[i] == entries[i].key
  {
    seq(|entries|, i requires 0 <= i < |entries| => entries[i].key)
  }

  /** `formData.get(key)`: the first value appended under `key`. */
  function Get(entries: seq<FormEntry>, key: string): Option<FormValue> {
    if entries == [] then None
    else if entries[0].key == key then Some(entries[0].value)
    else Get(entries[1..], key)
  }

  /** Looking a key up in two forms appended: the first form wins when it has the key. */
  lemma {:induction false} GetAppend(a: seq<FormEntry>, b: seq<FormEntry>, key: string)
    ensures Get(a + b, key) == if Get(a, key).Some? then Get(a, key) else Get(b, key)
  {
    if a != [] {
      assert (a + b)[1..] == a[1..] + b;
      GetAppend(a[1..], b, key);
    } else {
      assert a + b == b;
    }
  }

  /** The first entry answers for its own key; every other key is looked up in the rest. */
  lemma GetFirst(e: FormEntry, rest: seq<FormEntry>)
    ensures forall key :: Get([e] + rest, key) == if e.key == key then Some(e.value) else Get(rest, key)
  {
    assert ([e] + rest)[1..] == rest;
  }
}
