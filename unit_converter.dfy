/** Conversion between the unit an item is stocked in and the unit its
    price is quoted in (backend/utils/unit_converter.py). `Decimal`
    arithmetic is modelled by exact `real` arithmetic. */
module UnitConverter {
  import opened Strings

  /** The fixed table from (stock unit, price unit) to the number of stock
      units in one price unit. It is deliberately not symmetric. */
  const ConversionMap: map<(string, string), real> := map[
    ("grama", "kg") := 1000.0,
    ("grama", "grama") := 1.0,
    ("mililitro", "litro") := 1000.0,
    ("mililitro", "mililitro") := 1.0,
    ("unidade", "unidade") := 1.0,
    ("unidade", "pacote") := 1.0,
    ("unidade", "duzia") := 12.0,
    ("kg", "kg") := 1.0,
    ("litro", "litro") := 1.0
  ]

  /** The table key for a pair of unit names: both lower-cased. */
  function Key(measureUnity: string, priceUnit: string): (string, string) {
    (Lower(measureUnity), Lower(priceUnit))
  }

  /** `get_conversion_factor`: the table entry for the lower-cased pair, or 1
      for a pair the table does not list. Every factor is at least 1, so
      dividing by it is always defined. */
  function ConversionFactor(measureUnity: string, priceUnit: string): (r: real)
    ensures r >= 1.0
    ensures r == 1.0 || r == 12.0 || r == 1000.0
  {
    var key := Key(measureUnity, priceUnit);
    if key in ConversionMap then ConversionMap[key] else 1.0
  }

  /** `calculate_item_total_value`: the amount expressed in price units,
      times the price. */
  function ItemTotalValue(amount: real, price: real, measureUnity: string, priceUnit: string): (r: real)
    ensures r * ConversionFactor(measureUnity, priceUnit) == amount * price
  {
    (amount / ConversionFactor(measureUnity, priceUnit)) * price
  }

  /** `calculate_unit_price`: a price per `priceUnit` restated per
      `targetUnit`. The table is keyed (target unit, price unit). */
  function UnitPrice(price: real, priceUnit: string, targetUnit: string): (r: real)
    ensures r * ConversionFactor(targetUnit, priceUnit) == price
  {
    price / ConversionFactor(targetUnit, priceUnit)
  }

  // ---------------------------------------------------------------------
  // Properties

  /** The lookup does not depend on the case of either unit name. */
  lemma FactorIgnoresCase(measureUnity: string, priceUnit: string)
    ensures ConversionFactor(Upper(measureUnity), Upper(priceUnit)) == ConversionFactor(measureUnity, priceUnit)
    ensures ConversionFactor(Lower(measureUnity), Lower(priceUnit)) == ConversionFactor(measureUnity, priceUnit)
  {
    LowerOfUpper(measureUnity);
    LowerOfUpper(priceUnit);
    LowerIdempotent(measureUnity);
    LowerIdempotent(priceUnit);
  }

  /** Which pairs give which factor: 1000 exactly for gram-to-kilogram and
      millilitre-to-litre, 12 exactly for unit-to-dozen, and 1 for every
      other pair, listed or not. */
  lemma FactorTable(measureUnity: string, priceUnit: string)
    ensures ConversionFactor(measureUnity, priceUnit) == 1000.0 <==>
              Key(measureUnity, priceUnit) in {("grama", "kg"), ("mililitro", "litro")}
    ensures ConversionFactor(measureUnity, priceUnit) == 12.0 <==>
              Key(measureUnity, priceUnit) == ("unidade", "duzia")
    ensures Key(measureUnity, priceUnit) !in ConversionMap ==> ConversionFactor(measureUnity, priceUnit) == 1.0
  {
  }

  /** The table is not symmetric: asking for kilograms priced per gram
      falls back to 1 although grams priced per kilogram is 1000. */
  lemma ReversedPairFallsBack()
    ensures ConversionFactor("kg", "grama") == 1.0
    ensures ConversionFactor("grama", "kg") == 1000.0
    ensures ConversionFactor("GRAMA", "Kg") == 1000.0
  {
    assert Lower("kg") == "kg";
    assert Lower("grama") == "grama";
    assert Lower("GRAMA") == "grama";
    assert Lower("Kg") == "kg";
  }

  /** When both names are the same unit (up to case) the factor is 1 and
      the total value is just amount times price. */
  lemma SameUnitTotalIsProduct(amount: real, price: real, measureUnity: string, priceUnit: string)
    requires Lower(measureUnity) == Lower(priceUnit)
    ensures ConversionFactor(measureUnity, priceUnit) == 1.0
    ensures ItemTotalValue(amount, price, measureUnity, priceUnit) == amount * price
  {
  }

  /** A price per kilogram restated per gram is divided by 1000. */
  lemma KilogramPriceInGrams(price: real)
    ensures UnitPrice(price, "kg", "grama") == price / 1000.0
  {
    assert Lower("kg") == "kg";
    assert Lower("grama") == "grama";
  }

  /** The two computations agree: the total value of an amount is the
      amount times the price restated per stock unit. */
  lemma TotalValueIsAmountTimesUnitPrice(amount: real, price: real, measureUnity: string, priceUnit: string)
    ensures ItemTotalValue(amount, price, measureUnity, priceUnit)
            == amount * UnitPrice(price, priceUnit, measureUnity)
  {
    var f := ConversionFactor(measureUnity, priceUnit);
    calc {
      ItemTotalValue(amount, price, measureUnity, priceUnit);
      (amount / f) * price;
      (amount * price) / f;
      amount * (price / f);
    }
  }

  /** The total value is linear in the amount, and zero for no stock. */
  lemma TotalValueLinear(a1: real, a2: real, k: real, price: real, measureUnity: string, priceUnit: string)
    ensures ItemTotalValue(a1 + a2, price, measureUnity, priceUnit)
            == ItemTotalValue(a1, price, measureUnity, priceUnit) + ItemTotalValue(a2, price, measureUnity, priceUnit)
    ensures ItemTotalValue(k * a1, price, measureUnity, priceUnit)
            == k * ItemTotalValue(a1, price, measureUnity, priceUnit)
    ensures ItemTotalValue(0.0, price, measureUnity, priceUnit) == 0.0
  {
    var f := ConversionFactor(measureUnity, priceUnit);
    assert (a1 + a2) / f == a1 / f + a2 / f;
    assert (k * a1) / f == k * (a1 / f);
  }
}
