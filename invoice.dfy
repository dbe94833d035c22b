/**
 * The invoice arithmetic of app/utils/invoice.py: `InvoiceCalculator.calculate_totals`,
 * `CurrencyFormatter.format_money` and `validate_invoice_data`.
 *
 * `Decimal` arithmetic is exact here (`real`); quantising to `Decimal('0.01')` with
 * ROUND_HALF_UP rounds to whole cents, halves away from zero. Amounts after rounding are
 * integers of cents.
 */
module Invoice {
  import opened Wrappers
  import opened Text

  /** A value of an item dict: the key is absent, it holds `None`, or it holds a number. */
  datatype Field = Missing | Null | Num(value: real)

  datatype Item = Item(quantity: Field, unitPrice: Field, total: Field)

  /** `Decimal(str(item.get(key, 0)))`; `Decimal('None')` raises, which is `None` here. */
  function Amount(f: Field): Option<real> {
    match f
    case Missing => Some(0.0)
    case Null => None
    case Num(v) => Some(v)
  }

  /** An item's total: its `total` when that is not `None`, else `quantity * unit_price`. */
  function ItemTotal(item: Item): Option<real> {
    match item.total
    case Num(t) => Some(t)
    case _ =>
      match (Amount(item.quantity), Amount(item.unitPrice))
      case (Some(q), Some(p)) => Some(q * p)
      case _ => None
  }

  /** The running `subtotal` after the items, or `None` once one of them raised. */
  function Subtotal(items: seq<Item>): Option<real> {
    if items == [] then Some(0.0)
    else
      match (Subtotal(items[..|items| - 1]), ItemTotal(items[|items| - 1]))
      case (Some(s), Some(t)) => Some(s + t)
      case _ => None
  }

  /** `amount.quantize(Decimal('0.01'), rounding=ROUND_HALF_UP)`, in cents. */
  function Round(x: real): int {
    if x >= 0.0 then (x * 100.0 + 0.5).Floor else -((-x) * 100.0 + 0.5).Floor
  }

  datatype Totals = Totals(subtotal: int, tax: int, grand: int)

  /** What `calculate_totals(items, tax_rate)` returns, or `None` when it raises. */
  function TotalsOf(items: seq<Item>, taxRate: real): Option<Totals> {
    match Subtotal(items)
    case None => None
    case Some(s) => Some(TotalsFrom(s, taxRate))
  }

  /** The three figures quantised from the exact subtotal, tax and grand total. */
  function TotalsFrom(subtotal: real, taxRate: real): Totals {
    var tax := subtotal * taxRate;
    Totals(Round(subtotal), Round(tax), Round(subtotal + tax))
  }

  lemma {:induction false} SubtotalStaysNone(items: seq<Item>, i: nat)
    requires i <= |items| && Subtotal(items[..i]).None?
    ensures Subtotal(items).None?
    decreases |items| - i
  {
    if i < |items| {
      assert items[..i + 1][..i] == items[..i];
      SubtotalStaysNone(items, i + 1);
    } else {
      assert items[..i] == items;
    }
  }

  /** `InvoiceCalculator.calculate_totals(items, tax_rate)`. */
  method CalculateTotals(items: seq<Item>, taxRate: real) returns (r: Option<Totals>)
    ensures r == TotalsOf(items, taxRate)
  {
    var subtotal := 0.0;
    var i := 0;
    while i < |items|
      invariant 0 <= i <= |items| && Subtotal(items[..i]) == Some(subtotal)
    {
      assert items[..i + 1][..i] == items[..i];
      var itemTotal := ItemTotal(items[i]);
      if itemTotal.None? {
        assert Subtotal(items[..i + 1]).None?;
        SubtotalStaysNone(items, i + 1);
        assert TotalsOf(items, taxRate) == None;
        return None;
      }
      subtotal := subtotal + itemTotal.value;
      i := i + 1;
    }
    assert items[..i] == items;
    assert Subtotal(items) == Some(subtotal);
    var taxAmount := subtotal * taxRate;
    var grandTotal := subtotal + taxAmount;
    r := Some(Totals(Round(subtotal), Round(taxAmount), Round(grandTotal)));

  }

  // ---------------------------------------------------------------------------------
  // Rounding
  // ---------------------------------------------------------------------------------

  /**
   * Rounding is to the nearest cent, so off by at most half a cent; a tie goes up for a
   * non-negative amount and down for a negative one, i.e. away from zero.
   */
  lemma RoundNearest(x: real)
    ensures x >= 0.0 ==> x * 100.0 - 0.5 < Round(x) as real <= x * 100.0 + 0.5
    ensures x < 0.0 ==> x * 100.0 - 0.5 <= Round(x) as real < x * 100.0 + 0.5
  {
  }

  /** Those bounds single out the rounded value. */
  lemma RoundUnique(x: real, c: int)
    requires x >= 0.0 ==> x * 100.0 - 0.5 < c as real <= x * 100.0 + 0.5
    requires x < 0.0 ==> x * 100.0 - 0.5 <= c as real < x * 100.0 + 0.5
    ensures c == Round(x)
  {
    RoundNearest(x);
  }

  lemma RoundMonotone(x: real, y: real)
    requires x <= y
    ensures Round(x) <= Round(y)
  {
    RoundNearest(x);
    RoundNearest(y);
  }

  // ---------------------------------------------------------------------------------
  // Properties of the totals
  // ---------------------------------------------------------------------------------

  /** A field the item model accepts, `Field(ge=0)`: absent, `None`, or a non-negative number. */
  predicate NonNegative(f: Field) {
    f.Num? ==> f.value >= 0.0
  }

  /** An item whose total can be computed and is not negative. */
  predicate Computable(item: Item) {
    && NonNegative(item.quantity) && NonNegative(item.unitPrice) && NonNegative(item.total)
    && (!item.total.Num? ==> !item.quantity.Null? && !item.unitPrice.Null?)
  }

  lemma {:induction false} SubtotalNonNegative(items: seq<Item>)
    requires forall i :: 0 <= i < |items| ==> Computable(items[i])
    ensures Subtotal(items).Some? && Subtotal(items).value >= 0.0
  {
    if items != [] {
      SubtotalNonNegative(items[..|items| - 1]);
    }
  }

  /** With non-negative items and `0 <= tax_rate <= 1`, `0 <= tax <= subtotal <= grand_total`. */
  lemma TotalsOrdered(items: seq<Item>, taxRate: real)
    requires forall i :: 0 <= i < |items| ==> Computable(items[i])
    requires 0.0 <= taxRate <= 1.0
    ensures var t := TotalsOf(items, taxRate);
      t.Some? && 0 <= t.value.tax <= t.value.subtotal <= t.value.grand
  {
    SubtotalNonNegative(items);
    TotalsFromOrdered(Subtotal(items).value, taxRate);
  }

  lemma TotalsFromOrdered(s: real, rate: real)
    requires s >= 0.0 && 0.0 <= rate <= 1.0
    ensures var t := TotalsFrom(s, rate); 0 <= t.tax <= t.subtotal <= t.grand
  {
    var tax := s * rate;
    ScaleBounds(s, rate);
    RoundMonotone(0.0, tax);
    RoundMonotone(tax, s);
    RoundMonotone(s, s + tax);
    assert Round(0.0) == 0;
  }

  lemma ScaleBounds(s: real, rate: real)
    requires s >= 0.0 && 0.0 <= rate <= 1.0
    ensures 0.0 <= s * rate <= s
  {
    assert s - s * rate == s * (1.0 - rate);
  }

  lemma EmptyInvoice(taxRate: real)
    ensures TotalsOf([], taxRate) == Some(Totals(0, 0, 0))
  {
  }

  /** Each figure is rounded on its own, so the rounded grand total may miss the rounded sum by a cent, never more. */
  lemma GrandWithinCent(items: seq<Item>, taxRate: real)
    requires TotalsOf(items, taxRate).Some?
    ensures var t := TotalsOf(items, taxRate).value;
      -1 <= t.grand - (t.subtotal + t.tax) <= 1
  {
    var s := Subtotal(items).value;
    RoundNearest(s);
    RoundNearest(s * taxRate);
    RoundNearest(s + s * taxRate);
  }

  /** The cent can be lost: a subtotal of 0.125 at 20% rounds to 0.13 + 0.03 but a grand total of 0.15. */
  lemma CentDifference()
    ensures TotalsOf([Item(Missing, Missing, Num(0.125))], 0.2) == Some(Totals(13, 3, 15))
  {
    var items := [Item(Missing, Missing, Num(0.125))];
    assert items[..0] == [];
    assert Subtotal(items) == Some(0.125);
    RoundUnique(0.125, 13);
    RoundUnique(0.025, 3);
    RoundUnique(0.15, 15);
  }

  // ---------------------------------------------------------------------------------
  // validate_invoice_data
  // ---------------------------------------------------------------------------------

  /** `not data_dict.get(field)`, for a payload whose values are text. */
  predicate Absent(data: map<string, string>, field: string) {
    field !in data || data[field] == ""
  }

  function MissingFields(data: map<string, string>, required: seq<string>): (r: seq<string>)
    ensures forall f :: f in r <==> f in required && Absent(data, f)
  {
    if required == [] then []
    else (if Absent(data, required[0]) then [required[0]] else []) + MissingFields(data, required[1..])
  }

  const RequiredFields := ["invoice_number"]

  /** `validate_invoice_data(data)`: `None` when it returns, the exception when it raises. */
  function ValidateInvoiceData(data: map<string, string>): Option<HttpError> {
    var missing := MissingFields(data, RequiredFields);
    if missing != [] then Some(HttpError(400, "Missing required fields: " + Join(", ", missing))) else None
  }

  /** The payload is refused, with 400 and this exact text, iff `invoice_number` is missing or empty. */
  lemma ValidateIff(data: map<string, string>)
    ensures ValidateInvoiceData(data).Some? <==> Absent(data, "invoice_number")
    ensures ValidateInvoiceData(data).Some? ==>
      ValidateInvoiceData(data) == Some(HttpError(400, "Missing required fields: invoice_number"))
  {
    var missing := MissingFields(data, RequiredFields);
    assert RequiredFields[0] == "invoice_number" && RequiredFields[1..] == [];
    assert MissingFields(data, RequiredFields[1..]) == [];
    if Absent(data, "invoice_number") {
      assert missing == ["invoice_number"];
      assert Join(", ", missing) == "invoice_number";
      assert "Missing required fields: " + "invoice_number" == "Missing required fields: invoice_number";
    } else {
      assert missing == [];
    }
  }

  // ---------------------------------------------------------------------------------
  // format_money
  // ---------------------------------------------------------------------------------

  function DigitChar(d: int): char
    requires 0 <= d <= 9
  {
    ('0' as int + d) as char
  }

  predicate IsDigit(c: char) {
    '0' <= c <= '9'
  }

  predicate AllDigits(s: string) {
    forall i :: 0 <= i < |s| ==> IsDigit(s[i])
  }

  /** The decimal numeral of `n`, without leading zeros. */
  function Digits(n: nat): string
    decreases n
  {
    if n < 10 then [DigitChar(n)] else Digits(n / 10) + [DigitChar(n % 10)]
  }

  /** The number a string of digits denotes. */
  function Value(s: string): int {
    if s == [] then 0 else Value(s[..|s| - 1]) * 10 + (s[|s| - 1] as int - '0' as int)
  }

  lemma {:induction false} DigitsValue(n: nat)
    ensures Digits(n) != [] && AllDigits(Digits(n)) && Value(Digits(n)) == n
    ensures Digits(n)[0] == '0' ==> n == 0
    decreases n
  {
    if n >= 10 {
      DigitsValue(n / 10);
      var d := Digits(n);
      assert d[..|d| - 1] == Digits(n / 10);
    }
  }

  /** Three digits, with leading zeros. */
  function Pad3(k: int): string
    requires 0 <= k < 1000
  {
    [DigitChar(k / 100), DigitChar(k / 10 % 10), DigitChar(k % 10)]
  }

  /** The integer part with `,` between groups of three digits. */
  function Group(n: nat): string
    decreases n
  {
    if n < 1000 then Digits(n) else Group(n / 1000) + "," + Pad3(n % 1000)
  }

  /** The string without its commas. */
  function Uncomma(s: string): string {
    if s == [] then [] else Uncomma(s[..|s| - 1]) + (if s[|s| - 1] == ',' then [] else [s[|s| - 1]])
  }

  lemma {:induction false} UncommaAppend(a: string, b: string)
    ensures Uncomma(a + b) == Uncomma(a) + Uncomma(b)
    decreases |b|
  {
    if b == [] {
      assert a + b == a;
    } else {
      var b0 := b[..|b| - 1];
      assert (a + b)[..|a + b| - 1] == a + b0;
      UncommaAppend(a, b0);
    }
  }

  lemma {:induction false} UncommaDigits(s: string)
    requires AllDigits(s)
    ensures Uncomma(s) == s
  {
    if s != [] {
      UncommaDigits(s[..|s| - 1]);
    }
  }

  lemma DivTen(n: int, q: int, r: int)
    requires n == 10 * q + r && 0 <= r < 10
    ensures n / 10 == q && n % 10 == r
  {
  }

  /** A numeral of four or more digits is the numeral of its thousands and three more digits. */
  lemma DigitsSplit(n: nat)
    requires n >= 1000
    ensures Digits(n) == Digits(n / 1000) + Pad3(n % 1000)
  {
    var a, b := n / 1000, n % 1000;
    var x, y, z := b / 100, b / 10 % 10, b % 10;
    var n1, n2 := 100 * a + 10 * x + y, 10 * a + x;
    DivTen(n, n1, z);
    DivTen(n1, n2, y);
    DivTen(n2, a, x);
    assert Digits(n) == Digits(n1) + [DigitChar(z)];
    assert Digits(n1) == Digits(n2) + [DigitChar(y)];
    assert Digits(n2) == Digits(a) + [DigitChar(x)];
  }

  /** The grouped integer part holds the numeral's digits, in order, with only commas added. */
  lemma {:induction false} GroupDigits(n: nat)
    ensures Uncomma(Group(n)) == Digits(n)
    ensures Group(n) != [] && IsDigit(Group(n)[0])
    decreases n
  {
    DigitsValue(n);
    if n < 1000 {
      UncommaDigits(Digits(n));
    } else {
      GroupDigits(n / 1000);
      var p := Pad3(n % 1000);
      UncommaAppend(Group(n / 1000) + ",", p);
      UncommaAppend(Group(n / 1000), ",");
      assert Uncomma(",") == Uncomma([]) + [] == [];
      UncommaDigits(p);
      DigitsSplit(n);
    }
  }

  /** The two digits of the cents. */
  function Cents2(k: int): string
    requires 0 <= k < 100
  {
    [DigitChar(k / 10), DigitChar(k % 10)]
  }

  /** `format_money(amount, currency)` for an amount of `cents` cents: `f"{currency}{amount:,.2f}"`. */
  function FormatMoney(cents: int, currency: string): string {
    var a := if cents < 0 then -cents else cents;
    currency + (if cents < 0 then "-" else "") + MoneyBody(a)
  }

  /** `a` cents as grouped whole units, a point and two decimals. */
  function MoneyBody(a: nat): string {
    Group(a / 100) + "." + Cents2(a % 100)
  }

  /** Reads an amount written as `FormatMoney` writes it back into cents. */
  function ParseMoney(s: string, currency: string): Option<int> {
    if !StartsWith(s, currency) then None
    else
      var b := s[|currency|..];
      var neg := b != [] && b[0] == '-';
      match ParseUnsigned(if neg then b[1..] else b)
      case None => None
      case Some(v) => Some(if neg then -v else v)
  }

  /** Reads `whole.cc`, with commas allowed in `whole`, into cents. */
  function ParseUnsigned(body: string): Option<int> {
    if |body| < 4 || body[|body| - 3] != '.' then None
    else
      var whole := Uncomma(body[..|body| - 3]);
      var frac := body[|body| - 2..];
      if !AllDigits(whole) || !AllDigits(frac) then None
      else Some(Value(whole) * 100 + Value(frac))
  }

  lemma CentsValue(k: int)
    requires 0 <= k < 100
    ensures AllDigits(Cents2(k)) && Value(Cents2(k)) == k
  {
    var c := Cents2(k);
    assert c[..1] == [DigitChar(k / 10)];
    assert c[..1][..0] == [];
    assert Value(c[..1]) == k / 10;
    assert c[1] as int - '0' as int == k % 10;
  }

  /** The integer part, the point and the cents read back as cents. */
  lemma ReadBody(g: string, c: string, q: nat, r: int)
    requires g != [] && Uncomma(g) == Digits(q)
    requires |c| == 2 && AllDigits(c) && Value(c) == r
    ensures ParseUnsigned(g + "." + c) == Some(q * 100 + r)
  {
    DigitsValue(q);
    var body := g + "." + c;
    assert body[..|body| - 3] == g;
    assert body[|body| - 2..] == c;
  }

  /** Reading back a sign and an unsigned amount that does not start with `-`. */
  lemma ParseSign(currency: string, neg: bool, body: string, v: int)
    requires body != [] && body[0] != '-'
    requires ParseUnsigned(body) == Some(v)
    ensures ParseMoney(currency + (if neg then "-" else "") + body, currency) == Some(if neg then -v else v)
  {
    var b := (if neg then "-" else "") + body;
    var s := currency + (if neg then "-" else "") + body;
    assert s == currency + b;
    assert s[..|currency|] == currency;
    assert s[|currency|..] == b;
    if neg {
      assert b[1..] == body;
    } else {
      assert b == body;
    }
  }

  /** `MoneyBody` reads back as the cents it was made from. */
  lemma {:induction false} MoneyBodyValue(a: nat)
    ensures ParseUnsigned(MoneyBody(a)) == Some(a)
    ensures MoneyBody(a)[0] != '-'
  {
    Hundreds(a);
    var q, r := a / 100, a % 100;
    GroupDigits(q);
    CentsValue(r);
    ReadBody(Group(q), Cents2(r), q, r);
  }

  lemma Hundreds(a: int)
    requires a >= 0
    ensures 0 <= a / 100 && 0 <= a % 100 < 100 && (a / 100) * 100 + a % 100 == a
  {
  }

  /**
   * The text is the currency, a minus sign exactly for a negative amount, the whole units
   * with thousands grouping and two decimals: reading it back gives the amount.
   */
  lemma MoneyRoundTrip(cents: int, currency: string)
    ensures ParseMoney(FormatMoney(cents, currency), currency) == Some(cents)
  {
    var a := if cents < 0 then -cents else cents;
    MoneyBodyValue(a);
    ParseSign(currency, cents < 0, MoneyBody(a), a);
  }
}
