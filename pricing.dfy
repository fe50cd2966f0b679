/**
 * The product configurator's catalog table, its live price and the line item
 * it hands to the cart (src/pages/ProductCustomize.tsx).
 *
 * Prices are whole cents. The source computes
 * `Math.round((base + deltas) * (quantity / 100))` in floating point; here that
 * is `RoundHalfUp((base + deltas) * quantity)`, which rounds the exact
 * rational to the nearest cent with halves going up, as `Math.round` does.
 */
module Pricing {
  import opened Wrappers
  import Cart

  /** One allowed value of an axis and what it adds to the base price. */
  datatype AxisOption = AxisOption(title: string, value: string, price: int)

  datatype Product = Product(
    slug: string,
    name: string,
    basePrice: int,              // cents, for the reference quantity of 100
    sizes: seq<AxisOption>,
    paper: seq<AxisOption>,
    finish: seq<AxisOption>,
    quantities: seq<int>)

  /** `productConfig` */
  const BusinessCard := Product(
    "business-card",
    "Business Card",
    1200,
    [ AxisOption("3.5 x 2 in (US Standard)", "3.5x2", 0),
      AxisOption("3.3 x 2.1 in (EU)", "3.3x2.1", 100) ],
    [ AxisOption("Matte 14pt", "matte14", 0),
      AxisOption("Gloss 16pt", "gloss16", 200),
      AxisOption("Linen 14pt", "linen14", 300) ],
    [ AxisOption("No Lamination", "none", 0),
      AxisOption("Soft Touch", "soft-touch", 300),
      AxisOption("UV Spot", "uv-spot", 500) ],
    [100, 250, 500, 1000])

  /** The customizer's selections that the price depends on. */
  datatype Selection = Selection(size: string, paper: string, finish: string, quantity: int)

  /** The first entry of each table and the first listed quantity. */
  const DefaultSelection := Selection(
    BusinessCard.sizes[0].value,
    BusinessCard.paper[0].value,
    BusinessCard.finish[0].value,
    BusinessCard.quantities[0])

  /** Entry `k` is the first entry of `rows` whose value is `v`. */
  ghost predicate FirstMatch(rows: seq<AxisOption>, v: string, k: int) {
    0 <= k < |rows| && rows[k].value == v && forall j :: 0 <= j < k ==> rows[j].value != v
  }

  /** `rows.find((o) => o.value === v)`: the first entry with that value, if any. */
  function Find(rows: seq<AxisOption>, v: string): (r: Option<AxisOption>)
    ensures r.None? <==> forall i :: 0 <= i < |rows| ==> rows[i].value != v
    ensures r.Some? ==> exists k :: FirstMatch(rows, v, k) && rows[k] == r.value
  {
    if rows == [] then None
    else if rows[0].value == v then
      assert FirstMatch(rows, v, 0);
      Some(rows[0])
    else
      var r := Find(rows[1..], v);
      assert r.Some? ==> exists k :: FirstMatch(rows, v, k) && rows[k] == r.value
      by {
        if r.Some? {
          var k :| FirstMatch(rows[1..], v, k) && rows[1..][k] == r.value;
          assert rows[k + 1] == r.value;
          forall j | 0 <= j < k + 1 ensures rows[j].value != v {
            if j > 0 { assert rows[j] == rows[1..][j - 1]; }
          }
          assert FirstMatch(rows, v, k + 1);
        }
      }
      r
  }

  /** `rows.find(...)?.price ?? 0`: an unknown value silently contributes 0. */
  function Delta(rows: seq<AxisOption>, v: string): (d: int)
    ensures (exists k :: FirstMatch(rows, v, k) && rows[k].price == d) ||
            (d == 0 && forall i :: 0 <= i < |rows| ==> rows[i].value != v)
  {
    match Find(rows, v)
    case Some(o) => o.price
    case None => 0
  }

  /** The price of one reference quantity at this selection: base plus the three deltas. */
  function UnitSum(p: Product, s: Selection): int {
    p.basePrice + Delta(p.sizes, s.size) + Delta(p.paper, s.paper) + Delta(p.finish, s.finish)
  }

  /** `Math.round(t / 100)` for an integer `t`. */
  function RoundHalfUp(t: int): (r: int)
    ensures 100 * r - 50 <= t < 100 * r + 50
  {
    (t + 50) / 100
  }

  /** The memoised `price`: sum first, then scale by quantity / 100, then round once. */
  function Price(p: Product, s: Selection): (r: int)
    ensures 100 * r - 50 <= UnitSum(p, s) * s.quantity < 100 * r + 50
  {
    RoundHalfUp(UnitSum(p, s) * s.quantity)
  }

  /** `addToCart`: freezes the current price into a draft line of quantity 1;
      a missing or empty route slug falls back to the product's own slug. */
  function AddToCart(p: Product, slug: Option<string>, s: Selection, artPreview: Option<string>): (d: Cart.ItemDraft)
    ensures d.quantity == 1 && d.unitPrice == Price(p, s)
    ensures d.options.Keys == {"size", "paper", "finish"}
    ensures d.options["size"] == s.size && d.options["paper"] == s.paper && d.options["finish"] == s.finish
    ensures slug.None? || slug == Some("") ==> d.productId == p.slug
    ensures slug.Some? && slug.value != "" ==> d.productId == slug.value
    ensures d.name == p.name && d.artworkPreviewUrl == artPreview
  {
    var productId := if slug.Some? && slug.value != "" then slug.value else p.slug;
    Cart.ItemDraft(productId, p.name, map["size" := s.size, "paper" := s.paper, "finish" := s.finish],
      1, Price(p, s), artPreview)
  }

  // ---------------------------------------------------------------------------
  // Properties

  ghost predicate NonNegativeRows(rows: seq<AxisOption>) {
    forall i :: 0 <= i < |rows| ==> rows[i].price >= 0
  }

  ghost predicate WholeDollarRows(rows: seq<AxisOption>) {
    forall i :: 0 <= i < |rows| ==> rows[i].price % 100 == 0
  }

  /** Every table entry and the base price are non-negative. */
  ghost predicate NonNegative(p: Product) {
    p.basePrice >= 0 && NonNegativeRows(p.sizes) && NonNegativeRows(p.paper) && NonNegativeRows(p.finish)
  }

  /** Every table entry and the base price are whole dollars (multiples of 100 cents). */
  ghost predicate CentAligned(p: Product) {
    p.basePrice % 100 == 0 && WholeDollarRows(p.sizes) && WholeDollarRows(p.paper) && WholeDollarRows(p.finish)
  }

  /** An axis value not in its table contributes nothing to the price. */
  lemma UnknownValueIsFree(rows: seq<AxisOption>, v: string)
    requires forall i :: 0 <= i < |rows| ==> rows[i].value != v
    ensures Delta(rows, v) == 0
  {
  }

  /** A non-negative table contributes a non-negative amount, whatever value is selected. */
  lemma DeltaNonNegative(rows: seq<AxisOption>, v: string)
    requires NonNegativeRows(rows)
    ensures Delta(rows, v) >= 0
  {
  }

  lemma MulNonNegative(a: int, b: int)
    requires a >= 0 && b >= 0
    ensures a * b >= 0
  {
  }

  /** With non-negative tables, every non-negative quantity has a non-negative price. */
  lemma PriceNonNegative(p: Product, s: Selection)
    requires NonNegative(p) && s.quantity >= 0
    ensures Price(p, s) >= 0
  {
    DeltaNonNegative(p.sizes, s.size);
    DeltaNonNegative(p.paper, s.paper);
    DeltaNonNegative(p.finish, s.finish);
    var u, q := UnitSum(p, s), s.quantity;
    MulNonNegative(u, q);
    assert Price(p, s) == RoundHalfUp(u * q);
  }

  /** A whole-dollar table contributes whole dollars, whatever value is selected. */
  lemma DeltaWholeDollar(rows: seq<AxisOption>, v: string)
    requires WholeDollarRows(rows)
    ensures Delta(rows, v) % 100 == 0
  {
  }

  /** Rounding a whole number of hundreds, scaled by any quantity, is exact. */
  lemma RoundScaled(m: int, q: int)
    ensures (100 * m) * q == 100 * (m * q)
    ensures RoundHalfUp((100 * m) * q) == m * q
  {
  }

  lemma HundredsQuotient(x: int)
    requires x % 100 == 0
    ensures x == 100 * (x / 100)
  {
  }

  /** With whole-dollar tables, the unit sum is a whole number of hundreds. */
  lemma UnitSumWholeDollar(p: Product, s: Selection)
    requires CentAligned(p)
    ensures UnitSum(p, s) == 100 * (UnitSum(p, s) / 100)
  {
    var b, d1, d2, d3 := p.basePrice, Delta(p.sizes, s.size), Delta(p.paper, s.paper), Delta(p.finish, s.finish);
    DeltaWholeDollar(p.sizes, s.size);
    DeltaWholeDollar(p.paper, s.paper);
    DeltaWholeDollar(p.finish, s.finish);
    HundredsQuotient(b);
    HundredsQuotient(d1);
    HundredsQuotient(d2);
    HundredsQuotient(d3);
    var m := b / 100 + d1 / 100 + d2 / 100 + d3 / 100;
    assert UnitSum(p, s) == 100 * m;
    assert (100 * m) / 100 == m;
  }

  /** With whole-dollar tables, rounding never changes the price: it is the exact scaled sum. */
  lemma PriceExact(p: Product, s: Selection)
    requires CentAligned(p)
    ensures 100 * Price(p, s) == UnitSum(p, s) * s.quantity
    ensures Price(p, s) == UnitSum(p, s) / 100 * s.quantity
  {
    UnitSumWholeDollar(p, s);
    var u, q := UnitSum(p, s), s.quantity;
    var m := u / 100;
    assert Price(p, s) == RoundHalfUp(u * q);
    assert u * q == (100 * m) * q;
    RoundScaled(m, q);
  }

  /** With whole-dollar tables, price is linear in quantity: `price(q2) * q1 == price(q1) * q2`. */
  lemma PriceLinear(p: Product, s: Selection, q1: int, q2: int)
    requires CentAligned(p)
    ensures Price(p, s.(quantity := q2)) * q1 == Price(p, s.(quantity := q1)) * q2
  {
    var s1, s2 := s.(quantity := q1), s.(quantity := q2);
    PriceExact(p, s1);
    PriceExact(p, s2);
    var m := UnitSum(p, s) / 100;
    assert UnitSum(p, s1) / 100 == m && UnitSum(p, s2) / 100 == m;
    calc {
      Price(p, s2) * q1;
      (m * q2) * q1;
      { assert (m * q2) * q1 == m * (q2 * q1) == m * (q1 * q2) == (m * q1) * q2; }
      (m * q1) * q2;
      Price(p, s1) * q2;
    }
  }

  /** The business-card catalog is non-negative and whole-dollar. */
  lemma BusinessCardTables()
    ensures NonNegative(BusinessCard) && CentAligned(BusinessCard)
  {
  }

  /** For every business-card selection at a listed quantity, the price is
      exact, non-negative, and 500 cards cost exactly twice 250. */
  lemma BusinessCardPrices(s: Selection)
    requires s.quantity in BusinessCard.quantities
    ensures 100 * Price(BusinessCard, s) == UnitSum(BusinessCard, s) * s.quantity
    ensures Price(BusinessCard, s) >= 0
    ensures Price(BusinessCard, s.(quantity := 500)) == 2 * Price(BusinessCard, s.(quantity := 250))
  {
    BusinessCardTables();
    PriceExact(BusinessCard, s);
    PriceNonNegative(BusinessCard, s);
    PriceLinear(BusinessCard, s, 250, 500);
  }

  /** The default selections price at 1200; US size, gloss and soft touch at 250 price at 4250. */
  lemma BusinessCardExamples()
    ensures DefaultSelection == Selection("3.5x2", "matte14", "none", 100)
    ensures Price(BusinessCard, DefaultSelection) == 1200
    ensures Price(BusinessCard, Selection("3.5x2", "gloss16", "soft-touch", 250)) == 4250
  {
  }

  /** The line `addToCart` builds keeps the cart invariant, and adding it raises
      the subtotal by exactly the quoted price. */
  lemma AddToCartKeepsCartInvariant(p: Product, slug: Option<string>, s: Selection,
                                    art: Option<string>, state: Cart.CartState, newId: string)
    requires NonNegative(p) && s.quantity >= 0
    ensures Cart.DraftOk(AddToCart(p, slug, s, art))
    ensures Cart.Subtotal(Cart.Reduce(state, Cart.Add(AddToCart(p, slug, s, art)), newId).items)
            == Cart.Subtotal(state.items) + Price(p, s)
  {
    var d := AddToCart(p, slug, s, art);
    PriceNonNegative(p, s);
    Cart.AddTotals(state, d, newId);
    assert d.unitPrice * d.quantity == Price(p, s);
  }
}
