/**
 * Shared vocabulary of the model: optional values, the string helpers the
 * browser scripts rely on (String.prototype.trim, parseInt, number-to-text),
 * the 10% tax rule and the shape of a remote reply.
 */
module Common {

  datatype Option<T> = None | Some(value: T)

  /** The given value, else the default: `dict.get(key, default)`, `x || ''` on an optional text. */
  function ValueOr<T>(given: Option<T>, default: T): (r: T)
    ensures given.Some? ==> r == given.value
    ensures given.None? ==> r == default
  {
    if given.Some? then given.value else default
  }

  // ---------------------------------------------------------------------------
  // Sequences
  // ---------------------------------------------------------------------------

  /** `f` applied to each element, in order. */
  function Map<A, B>(f: A -> B, s: seq<A>): (r: seq<B>)
    ensures |r| == |s|
    ensures forall i :: 0 <= i < |s| ==> r[i] == f(s[i])
  {
    if s == [] then [] else Map(f, s[..|s| - 1]) + [f(s[|s| - 1])]
  }

  /** Rows kept in creation order, listed newest first (`ordering = ['-created_at']`). */
  function NewestFirst<T>(rows: seq<T>): (r: seq<T>)
    ensures |r| == |rows|
    ensures forall i :: 0 <= i < |rows| ==> r[i] == rows[|rows| - 1 - i]
  {
    if rows == [] then [] else [rows[|rows| - 1]] + NewestFirst(rows[..|rows| - 1])
  }

  /** The position of the last element satisfying `p`, if any. */
  function LastIndexWhere<T>(s: seq<T>, p: T -> bool): (r: Option<nat>)
    ensures r.Some? ==> r.value < |s| && p(s[r.value])
    ensures r.Some? ==> forall i :: r.value < i < |s| ==> !p(s[i])
    ensures r.None? ==> forall i :: 0 <= i < |s| ==> !p(s[i])
  {
    if s == [] then None
    else if p(s[|s| - 1]) then Some(|s| - 1)
    else
      var r := LastIndexWhere(s[..|s| - 1], p);
      assert forall i :: 0 <= i < |s| - 1 ==> s[i] == s[..|s| - 1][i];
      r
  }

  // ---------------------------------------------------------------------------
  // Whitespace and trimming (String.prototype.trim)
  // ---------------------------------------------------------------------------

  /**
   * The characters `trim()` and `parseInt` skip: ECMAScript's WhiteSpace
   * (tab, vertical tab, form feed, the byte order mark and every space
   * separator of Unicode category Zs) and LineTerminator (line feed,
   * carriage return, line and paragraph separators).
   */
  predicate IsSpace(c: char) {
    c == '\t' || c == '\U{000B}' || c == '\U{000C}' || c == ' ' || c == '\U{00A0}' || c == '\U{FEFF}' ||
    c == '\U{1680}' || ('\U{2000}' <= c <= '\U{200A}') || c == '\U{202F}' || c == '\U{205F}' || c == '\U{3000}' ||
    c == '\n' || c == '\r' || c == '\U{2028}' || c == '\U{2029}'
  }

  /** Drops the leading white space; what is left starts with a non-space. */
  function TrimStart(s: string): (r: string)
    ensures |r| <= |s| && r == s[|s| - |r|..]
    ensures forall i :: 0 <= i < |s| - |r| ==> IsSpace(s[i])
    ensures r != [] ==> !IsSpace(r[0])
  {
    if s != [] && IsSpace(s[0]) then
      var r := TrimStart(s[1..]);
      assert forall i :: 1 <= i < |s| - |r| ==> s[i] == s[1..][i - 1];
      r
    else s
  }

  /** Drops the trailing white space; what is left ends with a non-space. */
  function TrimEnd(s: string): (r: string)
    ensures |r| <= |s| && r == s[..|r|]
    ensures forall i :: |r| <= i < |s| ==> IsSpace(s[i])
    ensures r != [] ==> !IsSpace(r[|r| - 1])
  {
    if s != [] && IsSpace(s[|s| - 1]) then
      var r := TrimEnd(s[..|s| - 1]);
      assert forall i :: |r| <= i < |s| - 1 ==> s[i] == s[..|s| - 1][i];
      r
    else s
  }

  /** `s.trim()`: empty exactly when `s` is all white space. */
  function Trim(s: string): (r: string)
    ensures |r| <= |s|
    ensures r == [] <==> forall i :: 0 <= i < |s| ==> IsSpace(s[i])
    ensures r != [] ==> !IsSpace(r[0]) && !IsSpace(r[|r| - 1])
  {
    TrimEnd(TrimStart(s))
  }

  // ---------------------------------------------------------------------------
  // Decimal digits, number-to-text and parseInt
  // ---------------------------------------------------------------------------

  predicate IsDigit(c: char) {
    '0' <= c <= '9'
  }

  predicate AllDigits(s: string) {
    forall i :: 0 <= i < |s| ==> IsDigit(s[i])
  }

  function DigitValue(c: char): (d: nat)
    requires IsDigit(c)
    ensures d < 10
  {
    c as int - '0' as int
  }

  function DigitChar(d: nat): (c: char)
    requires d < 10
    ensures IsDigit(c) && DigitValue(c) == d
  {
    ('0' as int + d) as char
  }

  /** The longest prefix of `s` made of decimal digits. */
  function DigitRun(s: string): (r: string)
    ensures |r| <= |s| && r == s[..|r|] && AllDigits(r)
    ensures |r| < |s| ==> !IsDigit(s[|r|])
  {
    if s != [] && IsDigit(s[0]) then [s[0]] + DigitRun(s[1..]) else []
  }

  /** The value of a digit string, read most significant digit first. */
  function DigitsValue(ds: string): nat
    requires AllDigits(ds)
  {
    if ds == [] then 0 else DigitsValue(ds[..|ds| - 1]) * 10 + DigitValue(ds[|ds| - 1])
  }

  /** Decimal text of a natural number, without leading zeros. */
  function NatToString(n: nat): (s: string)
    ensures s != [] && AllDigits(s)
  {
    if n < 10 then [DigitChar(n)] else NatToString(n / 10) + [DigitChar(n % 10)]
  }

  /** Decimal text of an integer, as a number is written into an input's value. */
  function IntToString(n: int): (s: string)
    ensures s != []
  {
    if n < 0 then "-" + NatToString(-n) else NatToString(n)
  }

  /**
   * `parseInt(s)` as the pages call it, without a radix, on the value of an
   * `<input type="number">`. Such a value holds only decimal text, so the
   * `0x` prefix that would switch `parseInt` to hexadecimal never occurs and
   * is not modelled. Leading white space is skipped, one optional sign is
   * read, then the longest run of digits; no digit at all gives NaN, which
   * is `None` here.
   */
  function ParseInt(s: string): Option<int> {
    ParseSigned(TrimStart(s))
  }

  /** What `parseInt` reads once the leading white space is gone. */
  function ParseSigned(t: string): Option<int> {
    var signed := t != [] && (t[0] == '-' || t[0] == '+');
    var ds := DigitRun(if signed then t[1..] else t);
    var magnitude: int := if ds == [] then 0 else DigitsValue(ds);
    if ds == [] then None
    else if signed && t[0] == '-' then Some(-magnitude)
    else Some(magnitude)
  }

  /** `parseInt(s) || 0`: NaN (and 0) read as 0. */
  function IntOrZero(s: string): int {
    match ParseInt(s)
    case None => 0
    case Some(n) => n
  }

  lemma {:induction false} NatToStringValue(n: nat)
    ensures DigitsValue(NatToString(n)) == n
  {
    if n >= 10 {
      var s := NatToString(n);
      assert s[..|s| - 1] == NatToString(n / 10);
      NatToStringValue(n / 10);
    }
  }

  lemma {:induction false} DigitRunOfDigits(s: string)
    requires AllDigits(s)
    ensures DigitRun(s) == s
  {
    if s != [] {
      DigitRunOfDigits(s[1..]);
    }
  }

  /** Writing a number into a text field and parsing it back gives the number. */
  lemma ParseIntOfIntToString(n: int)
    ensures ParseInt(IntToString(n)) == Some(n)
    ensures IntOrZero(IntToString(n)) == n
  {
    var s := IntToString(n);
    if n < 0 {
      var m := NatToString(-n);
      assert TrimStart(s) == s;
      assert s[1..] == m;
      DigitRunOfDigits(m);
      NatToStringValue(-n);
    } else {
      assert TrimStart(s) == s;
      DigitRunOfDigits(s);
      NatToStringValue(n);
    }
  }

  /**
   * White space before a number does not change what `parseInt` reads,
   * whichever of ECMAScript's white-space characters it is.
   */
  lemma ParseIntSkipsSpace(c: char, s: string)
    requires IsSpace(c)
    ensures ParseInt([c] + s) == ParseInt(s)
  {
    TrimStartSkipsSpace(c, s);
  }

  lemma TrimStartSkipsSpace(c: char, s: string)
    requires IsSpace(c)
    ensures TrimStart([c] + s) == TrimStart(s)
  {
    assert ([c] + s)[1..] == s;
  }

  /** A no-break space alone trims to nothing, and `parseInt` reads past it. */
  lemma NoBreakSpace()
    ensures Trim("\U{00A0}") == ""
    ensures ParseInt("\U{00A0}3") == Some(3)
  {
    assert IsSpace("\U{00A0}"[0]);
    assert IntToString(3) == [DigitChar(3)] == "3";
    ParseIntOfIntToString(3);
    ParseIntSkipsSpace('\U{00A0}', "3");
    assert "\U{00A0}3" == ['\U{00A0}'] + "3";
  }

  // ---------------------------------------------------------------------------
  // Prices and the 10% tax
  // ---------------------------------------------------------------------------

  /** The tax rate applied by the order service and every summary page. */
  const TaxRate: real := 0.10

  datatype Totals = Totals(subtotal: real, tax: real, total: real)

  /** `tax = subtotal * 0.10; total = subtotal + tax`, computed exactly. */
  function TotalsOf(subtotal: real): (t: Totals)
    ensures t.subtotal == subtotal
    ensures t.tax * 10.0 == subtotal
    ensures t.total == t.subtotal + t.tax
    ensures subtotal >= 0.0 ==> 0.0 <= t.tax <= t.total
  {
    var tax := subtotal * TaxRate;
    Totals(subtotal, tax, subtotal + tax)
  }

  // ---------------------------------------------------------------------------
  // Remote replies
  // ---------------------------------------------------------------------------

  /**
   * What a remote call can come back with: no response at all (the fetch
   * threw), a response whose body is not JSON, or a response with a parsed body.
   */
  datatype Reply<D> =
    | NoResponse(reason: string)
    | NotJson(status: int, reason: string)
    | Replied(status: int, body: D)

  /** `response.ok`: a 2xx status. */
  predicate IsOk(status: int) {
    200 <= status <= 299
  }

  /** One line of a cart as the cart service serialises it to the browser. */
  datatype CartEntry = CartEntry(id: int, productId: int, quantity: int, price: real)

  /** A line's price × quantity. */
  function EntryTotal(e: CartEntry): real {
    e.price * e.quantity as real
  }

  /** Σ price × quantity over the entries, read left to right. */
  function EntriesSubtotal(items: seq<CartEntry>): real {
    if items == [] then 0.0
    else EntriesSubtotal(items[..|items| - 1]) + EntryTotal(items[|items| - 1])
  }

  /** Σ quantity over the entries. */
  function EntriesUnits(items: seq<CartEntry>): int {
    if items == [] then 0 else EntriesUnits(items[..|items| - 1]) + items[|items| - 1].quantity
  }
}
