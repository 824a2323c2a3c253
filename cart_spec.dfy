/**
 * The cart both backends keep, seen abstractly: a finite map from product id
 * to a line holding a quantity and a unit price. The browser-side cart of the
 * products service and the cart service's per-user table are both projected
 * onto this view (ProductsClientApi.Project and CartViews.CartStore.LinesOf),
 * so that their add, set-quantity and remove operations can be compared.
 */
module CartSpec {

  datatype Line = Line(quantity: int, price: real)

  type Lines = map<int, Line>

  /** Every line holds at least one unit: a quantity of zero means "no line". */
  predicate AllPositive(lines: Lines) {
    forall k :: k in lines ==> lines[k].quantity >= 1
  }

  /** Adding accumulates into the product's line, keeping its price, or opens a new line. */
  function Added(lines: Lines, productId: int, quantity: int, price: real): (r: Lines)
    ensures r.Keys == lines.Keys + {productId}
    ensures productId in lines ==> r[productId] == Line(lines[productId].quantity + quantity, lines[productId].price)
    ensures productId !in lines ==> r[productId] == Line(quantity, price)
    ensures forall k :: k in lines && k != productId ==> r[k] == lines[k]
    ensures AllPositive(lines) && quantity >= 1 ==> AllPositive(r)
  {
    if productId in lines then lines[productId := Line(lines[productId].quantity + quantity, lines[productId].price)]
    else lines[productId := Line(quantity, price)]
  }

  /** Replaces the quantity of a present line and leaves every other line alone. */
  function QuantitySet(lines: Lines, productId: int, quantity: int): (r: Lines)
    requires productId in lines
    ensures r.Keys == lines.Keys
    ensures r[productId] == Line(quantity, lines[productId].price)
    ensures forall k :: k in lines && k != productId ==> r[k] == lines[k]
    ensures AllPositive(lines) && quantity >= 1 ==> AllPositive(r)
  {
    lines[productId := Line(quantity, lines[productId].price)]
  }

  /** Drops the product's line, if there is one. */
  function Removed(lines: Lines, productId: int): (r: Lines)
    ensures r.Keys == lines.Keys - {productId}
    ensures forall k :: k in r ==> r[k] == lines[k]
    ensures productId !in lines ==> r == lines
    ensures AllPositive(lines) ==> AllPositive(r)
  {
    lines - {productId}
  }

  /** Two adds of the same product at the same price make one line holding both quantities. */
  lemma AddTwiceIsOneLine(lines: Lines, productId: int, a: int, b: int, price: real)
    ensures Added(Added(lines, productId, a, price), productId, b, price) == Added(lines, productId, a + b, price)
    ensures |Added(Added(lines, productId, a, price), productId, b, price).Keys| == |Added(lines, productId, a, price).Keys|
  {
  }

  // ---------------------------------------------------------------------------
  // Sums over the values of a finite map
  // ---------------------------------------------------------------------------

  /** Σ f(v) over the values of `m`, in no particular order. */
  ghost function MapSum<K, V>(m: map<K, V>, f: V -> real): real
    decreases |m|
  {
    if m == map[] then 0.0
    else
      var k :| k in m;
      assert |(m - {k}).Keys| < |m.Keys| by { assert (m - {k}).Keys == m.Keys - {k}; }
      f(m[k]) + MapSum(m - {k}, f)
  }

  lemma SomeKey<K, V>(m: map<K, V>) returns (k: K)
    requires m != map[]
    ensures k in m
  {
    k :| k in m;
  }

  lemma RemoveOneKey<K, V>(m: map<K, V>, k: K)
    requires k in m
    ensures |m - {k}| == |m| - 1
  {
    assert (m - {k}).Keys == m.Keys - {k};
  }

  /** The sum does not depend on the order in which keys are taken out. */
  lemma {:induction false} MapSumRemove<K, V>(m: map<K, V>, k: K, f: V -> real)
    requires k in m
    ensures MapSum(m, f) == f(m[k]) + MapSum(m - {k}, f)
    decreases |m|
  {
    var j :| j in m && MapSum(m, f) == f(m[j]) + MapSum(m - {j}, f);
    if j != k {
      RemoveOneKey(m, j);
      RemoveOneKey(m, k);
      MapSumRemove(m - {j}, k, f);
      MapSumRemove(m - {k}, j, f);
      assert m - {j} - {k} == m - {k} - {j};
    }
  }

  function LineTotal(l: Line): real {
    l.price * l.quantity as real
  }

  function LineUnits(l: Line): real {
    l.quantity as real
  }

  /** Σ price × quantity over the lines. */
  ghost function Subtotal(lines: Lines): real {
    MapSum(lines, LineTotal)
  }

  /** Σ quantity over the lines. */
  ghost function Units(lines: Lines): real {
    MapSum(lines, LineUnits)
  }

  /** When no line is empty, the number of distinct products never exceeds the number of units. */
  lemma {:induction false} DistinctAtMostUnits(lines: Lines)
    requires AllPositive(lines)
    ensures |lines| as real <= Units(lines)
    decreases |lines|
  {
    if lines != map[] {
      var k := SomeKey(lines);
      MapSumRemove(lines, k, LineUnits);
      RemoveOneKey(lines, k);
      DistinctAtMostUnits(lines - {k});
    }
  }

  lemma {:induction false} AllSingleUnits(lines: Lines)
    requires forall k :: k in lines ==> lines[k].quantity == 1
    ensures Units(lines) == |lines| as real
    decreases |lines|
  {
    if lines != map[] {
      var k := SomeKey(lines);
      MapSumRemove(lines, k, LineUnits);
      RemoveOneKey(lines, k);
      AllSingleUnits(lines - {k});
    }
  }

  /**
   * The two badge rules (distinct products versus units) show the same number
   * exactly when every line holds a single unit.
   */
  lemma DistinctEqualsUnitsIff(lines: Lines)
    requires AllPositive(lines)
    ensures |lines| as real == Units(lines) <==> forall k :: k in lines ==> lines[k].quantity == 1
  {
    if exists j :: j in lines && lines[j].quantity != 1 {
      var j :| j in lines && lines[j].quantity != 1;
      MapSumRemove(lines, j, LineUnits);
      RemoveOneKey(lines, j);
      DistinctAtMostUnits(lines - {j});
    } else {
      AllSingleUnits(lines);
    }
  }
}
