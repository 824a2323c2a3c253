/**
 * The order service's tables (orders_app/models.py): an order with its
 * status, amounts and delivery details, and its items.
 */
module OrderModels {
  import opened Common

  /** `STATUS_CHOICES`. */
  datatype Status = Pending | Confirmed | Processing | Shipped | Delivered | Cancelled

  /** `default='pending'`. */
  const DefaultStatus: Status := Pending

  /** The value stored in the `status` column. */
  function StatusName(s: Status): string {
    match s
    case Pending => "pending"
    case Confirmed => "confirmed"
    case Processing => "processing"
    case Shipped => "shipped"
    case Delivered => "delivered"
    case Cancelled => "cancelled"
  }

  /** `value in dict(STATUS_CHOICES)`, giving the choice it names. */
  function ParseStatus(name: string): (r: Option<Status>)
    ensures r.Some? <==> name in {"pending", "confirmed", "processing", "shipped", "delivered", "cancelled"}
    ensures r.Some? ==> StatusName(r.value) == name
  {
    if name == "pending" then Some(Pending)
    else if name == "confirmed" then Some(Confirmed)
    else if name == "processing" then Some(Processing)
    else if name == "shipped" then Some(Shipped)
    else if name == "delivered" then Some(Delivered)
    else if name == "cancelled" then Some(Cancelled)
    else None
  }

  /** Every choice is accepted under its own name, and only under it. */
  lemma StatusNamesRoundTrip(s: Status, t: Status)
    ensures ParseStatus(StatusName(s)) == Some(s)
    ensures StatusName(s) == StatusName(t) ==> s == t
  {
  }

  /** What the view reads from the request: each field may be absent. */
  datatype DeliveryRequest = DeliveryRequest(
    name: Option<string>, phone: Option<string>, address: Option<string>, city: Option<string>,
    state: Option<string>, postalCode: Option<string>, country: Option<string>,
    latitude: Option<real>, longitude: Option<real>, paymentMethod: Option<string>)

  /** The delivery columns of an order. */
  datatype Delivery = Delivery(
    name: string, phone: string, address: string, city: string, state: string, postalCode: string,
    country: string, latitude: Option<real>, longitude: Option<real>, paymentMethod: string)

  const DefaultCountry: string := "India"
  const DefaultPaymentMethod: string := "COD"

  /**
   * `request.data.get(field, default)` for each delivery column: text
   * fields default to '', the country to 'India', the payment method to
   * 'COD', and the coordinates to null.
   */
  function WithDefaults(req: DeliveryRequest): (d: Delivery)
    ensures d.name == ValueOr(req.name, "") && d.phone == ValueOr(req.phone, "")
    ensures d.address == ValueOr(req.address, "") && d.city == ValueOr(req.city, "")
    ensures d.state == ValueOr(req.state, "") && d.postalCode == ValueOr(req.postalCode, "")
    ensures d.country == ValueOr(req.country, DefaultCountry)
    ensures d.paymentMethod == ValueOr(req.paymentMethod, DefaultPaymentMethod)
    ensures d.latitude == req.latitude && d.longitude == req.longitude
  {
    Delivery(ValueOr(req.name, ""), ValueOr(req.phone, ""), ValueOr(req.address, ""), ValueOr(req.city, ""),
             ValueOr(req.state, ""), ValueOr(req.postalCode, ""), ValueOr(req.country, DefaultCountry),
             req.latitude, req.longitude, ValueOr(req.paymentMethod, DefaultPaymentMethod))
  }

  /** An empty request gets every default. */
  lemma EmptyRequestDefaults()
    ensures var d := WithDefaults(DeliveryRequest(None, None, None, None, None, None, None, None, None, None));
      d.country == "India" && d.paymentMethod == "COD" && d.name == "" && d.latitude.None?
  {
  }

  datatype OrderItem = OrderItem(productId: int, productName: string, quantity: int, price: real, subtotal: real)

  /** `OrderItem.save`: the subtotal is recomputed as quantity × price, whatever was supplied. */
  function SaveItem(item: OrderItem): (r: OrderItem)
    ensures r.subtotal == item.quantity as real * item.price
    ensures r.productId == item.productId && r.productName == item.productName
    ensures r.quantity == item.quantity && r.price == item.price
  {
    item.(subtotal := item.quantity as real * item.price)
  }

  /** Saving again changes nothing. */
  lemma SaveItemIdempotent(item: OrderItem, supplied: real)
    ensures SaveItem(SaveItem(item)) == SaveItem(item)
    ensures SaveItem(item.(subtotal := supplied)) == SaveItem(item)
  {
  }

  datatype Order = Order(
    id: int, userId: int, orderNumber: string, status: Status,
    totalAmount: real, taxAmount: real, delivery: Delivery, items: seq<OrderItem>)

  predicate IsHexDigit(c: char) {
    '0' <= c <= '9' || 'a' <= c <= 'f' || 'A' <= c <= 'F'
  }

  function UpperChar(c: char): (u: char)
    ensures 'a' <= c <= 'z' ==> u as int == c as int - 32
    ensures !('a' <= c <= 'z') ==> u == c
  {
    if 'a' <= c <= 'z' then (c as int - 32) as char else c
  }

  /** `str.upper()` on ASCII text. */
  function Upper(s: string): (r: string)
    ensures |r| == |s|
    ensures forall i :: 0 <= i < |s| ==> r[i] == UpperChar(s[i])
  {
    if s == [] then [] else [UpperChar(s[0])] + Upper(s[1..])
  }

  /** Python's `s[:n]`: the first n characters, or all of a shorter string. */
  function Prefix(s: string, n: nat): (r: string)
    ensures |r| == if |s| < n then |s| else n
    ensures r == s[..|r|]
  {
    if |s| < n then s else s[..n]
  }

  /**
   * `Order.save`: an order without a number gets 'ORD-' followed by the
   * first 12 characters of the fresh uuid's hex, upper-cased; a number once
   * set is kept.
   */
  function AssignNumber(current: string, uuidHex: string): (r: string)
    ensures current != "" ==> r == current
    ensures current == "" ==> |r| >= 4 && r[..4] == "ORD-" && r[4..] == Upper(Prefix(uuidHex, 12))
    ensures current == "" && |uuidHex| >= 12 ==> |r| == 16
    ensures current == "" && (forall i :: 0 <= i < |uuidHex| ==> IsHexDigit(uuidHex[i])) ==>
      forall i :: 4 <= i < |r| ==> '0' <= r[i] <= '9' || 'A' <= r[i] <= 'F'
  {
    if current != "" then current else "ORD-" + Upper(Prefix(uuidHex, 12))
  }

  /** A later save never replaces a number. */
  lemma NumberNeverOverwritten(current: string, first: string, later: string)
    ensures AssignNumber(current, first) != ""
    ensures AssignNumber(AssignNumber(current, first), later) == AssignNumber(current, first)
  {
    if current == "" {
      assert AssignNumber(current, first)[..4] == "ORD-";
    }
  }
}
