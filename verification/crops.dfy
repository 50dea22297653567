/**
  The crop catalogue update: every crop priced in the FAOSTAT table gets its
  producer price, the cost-model references and a moisture preference, and the
  baseline production cost per hectare is a fixed linear formula over table
  look-ups with defaults. Money is in MAD; reading and writing the catalogue
  file, the metadata texts and the console output are not modelled.
*/
module Crops {
  import opened Json

  /** One FAOSTAT row: price in MAD per tonne, the year it refers to, the FAOSTAT item. */
  datatype PriceEntry = PriceEntry(price: int, year: int, item: string)

  const FAOSTAT_PRICES: map<string, PriceEntry> := map[
    "soft_wheat" := PriceEntry(4338, 2024, "Wheat"),
    "durum_wheat" := PriceEntry(4338, 2024, "Wheat"),
    "barley" := PriceEntry(4540, 2024, "Barley"),
    "corn" := PriceEntry(4107, 2024, "Maize (corn)"),
    "sorghum" := PriceEntry(3800, 2020, "Sorghum"),
    "rice" := PriceEntry(3800, 2024, "Rice"),
    "chickpeas" := PriceEntry(15409, 2024, "Chick peas"),
    "lentils" := PriceEntry(15247, 2024, "Lentils"),
    "fava_beans" := PriceEntry(9920, 2024, "Broad beans, horse beans, dry"),
    "green_beans" := PriceEntry(6275, 2024, "Beans, green"),
    "tomatoes" := PriceEntry(2046, 2024, "Tomatoes"),
    "potatoes" := PriceEntry(3856, 2024, "Potatoes"),
    "onions" := PriceEntry(3000, 2024, "Onions, dry"),
    "watermelon" := PriceEntry(3153, 2024, "Watermelons"),
    "olives" := PriceEntry(11100, 2024, "Olives"),
    "almonds" := PriceEntry(21050, 2024, "Almonds, in shell"),
    "dates" := PriceEntry(31240, 2024, "Dates"),
    "oranges" := PriceEntry(5185, 2024, "Oranges"),
    "clementines" := PriceEntry(5185, 2024, "Oranges"),
    "grapes" := PriceEntry(7253, 2024, "Grapes"),
    "avocados" := PriceEntry(16000, 2020, "Avocados"),
    "bananas" := PriceEntry(6514, 2024, "Bananas"),
    "sugar_beet" := PriceEntry(520, 2024, "Sugar beet"),
    "sunflower" := PriceEntry(11407, 2024, "Sunflower seed"),
    "cumin" := PriceEntry(35000, 2024, "Cumin"),
    "henna" := PriceEntry(8000, 2023, "Henna"),
    "citrus" := PriceEntry(5185, 2024, "Oranges"),
    "date_palms" := PriceEntry(31240, 2024, "Dates"),
    "sugarcane" := PriceEntry(240, 2006, "Sugar cane")]

  /** Agricultural minimum wage, MAD per day. */
  const SMAG_PER_DAY: real := 84.37
  /** Irrigation water tariff, MAD per cubic metre. */
  const WATER_COST_PER_M3: real := 0.40

  const FERTILIZER_PER_HA: map<string, int> :=
    map["cereal" := 1800, "legume" := 1200, "vegetable" := 3500, "tree_crop" := 2500, "industrial" := 2200]
  const SEEDS_PER_HA: map<string, int> :=
    map["cereal" := 800, "legume" := 1200, "vegetable" := 2000, "tree_crop" := 0, "industrial" := 600]
  const MECHANIZATION_PER_HA: map<string, int> :=
    map["cereal" := 1200, "legume" := 900, "vegetable" := 1500, "tree_crop" := 800, "industrial" := 1100]

  /** Seasonal water need in mm per water-need class. */
  const WATER_NEED_MM: map<string, int> :=
    map["very_low" := 200, "low" := 350, "medium" := 500, "high" := 700, "very_high" := 900]

  const LABOR_DAYS: map<string, int> := map[
    "soft_wheat" := 20, "durum_wheat" := 20, "barley" := 18, "corn" := 30,
    "sorghum" := 22, "rice" := 40, "chickpeas" := 18, "lentils" := 16,
    "fava_beans" := 20, "green_beans" := 45, "tomatoes" := 80, "potatoes" := 50,
    "onions" := 55, "watermelon" := 35, "olives" := 30, "almonds" := 25,
    "dates" := 35, "oranges" := 40, "clementines" := 40, "grapes" := 50,
    "avocados" := 35, "bananas" := 45, "sugar_beet" := 40, "sunflower" := 20,
    "cumin" := 25, "henna" := 30]

  const CROP_CATEGORIES: map<string, string> := map[
    "soft_wheat" := "cereal", "durum_wheat" := "cereal", "barley" := "cereal",
    "corn" := "cereal", "sorghum" := "cereal", "rice" := "cereal",
    "chickpeas" := "legume", "lentils" := "legume", "fava_beans" := "legume",
    "green_beans" := "vegetable",
    "tomatoes" := "vegetable", "potatoes" := "vegetable", "onions" := "vegetable",
    "watermelon" := "vegetable",
    "olives" := "tree_crop", "almonds" := "tree_crop", "dates" := "tree_crop",
    "oranges" := "tree_crop", "clementines" := "tree_crop", "grapes" := "tree_crop",
    "avocados" := "tree_crop", "bananas" := "tree_crop",
    "sugar_beet" := "industrial", "sunflower" := "industrial",
    "cumin" := "industrial", "henna" := "industrial"]

  const PRICE_REGULATION: map<string, string> := map[
    "soft_wheat" := "regulated", "durum_wheat" := "regulated", "barley" := "market",
    "corn" := "market", "sorghum" := "market", "rice" := "market",
    "chickpeas" := "market", "lentils" := "market", "fava_beans" := "market",
    "green_beans" := "market", "tomatoes" := "market", "potatoes" := "market",
    "onions" := "market", "watermelon" := "market", "olives" := "market",
    "almonds" := "market", "dates" := "market", "oranges" := "export",
    "clementines" := "export", "grapes" := "market", "avocados" := "export",
    "bananas" := "market", "sugar_beet" := "regulated", "sunflower" := "subsidized",
    "cumin" := "market", "henna" := "market"]

  /** `dict.get(key, default)` on a table. */
  function Lookup<V>(table: map<string, V>, key: string, default: V): V
  {
    if key in table then table[key] else default
  }

  function Category(crop: string): string
  {
    Lookup(CROP_CATEGORIES, crop, "cereal")
  }

  function LaborDays(crop: string): int
  {
    Lookup(LABOR_DAYS, crop, 25)
  }

  function PriceCategory(crop: string): string
  {
    Lookup(PRICE_REGULATION, crop, "market")
  }

  /** The water term: the "medium" class converted at 10 m³/ha per mm and priced at the tariff. */
  function WaterCost(): real
  {
    (Lookup(WATER_NEED_MM, "medium", 500) * 10) as real * WATER_COST_PER_M3
  }

  /** The unrounded total of `compute_production_cost`. */
  function ProductionCostExact(crop: string): real
  {
    var cat := Category(crop);
    LaborDays(crop) as real * SMAG_PER_DAY
      + Lookup(FERTILIZER_PER_HA, cat, 1800) as real
      + Lookup(SEEDS_PER_HA, cat, 800) as real
      + Lookup(MECHANIZATION_PER_HA, cat, 1000) as real
      + WaterCost()
  }

  /** Rounding to the nearest integer, ties to the even neighbour. */
  function RoundHalfEven(x: real): (r: int)
    ensures x - 1.0 / 2.0 <= r as real <= x + 1.0 / 2.0
    ensures r as real - x == 1.0 / 2.0 || x - r as real == 1.0 / 2.0 ==> r % 2 == 0
  {
    var f := x.Floor;
    var frac := x - f as real;
    if frac < 1.0 / 2.0 then f
    else if frac > 1.0 / 2.0 then f + 1
    else if f % 2 == 0 then f else f + 1
  }

  /** `compute_production_cost`: the baseline cost per hectare. */
  function ProductionCost(crop: string): int
  {
    RoundHalfEven(ProductionCostExact(crop))
  }

  /** The water term is 500 mm × 10 m³/ha × 0.40 MAD/m³ = 2000 MAD for every crop. */
  lemma WaterCostIsConstant()
    ensures WaterCost() == 2000.0
  {
  }

  /** Every category the table assigns has an entry in the three per-category cost tables. */
  lemma CategoriesCovered(crop: string)
    ensures Category(crop) in FERTILIZER_PER_HA
    ensures Category(crop) in SEEDS_PER_HA
    ensures Category(crop) in MECHANIZATION_PER_HA
  {
    if crop in CROP_CATEGORIES {
      assert CROP_CATEGORIES[crop] in {"cereal", "legume", "vegetable", "tree_crop", "industrial"};
    }
  }

  /**
    The cost is the rounded sum of labour days × wage, the category's
    fertilizer, seed and mechanization costs, and the water term; the
    per-category defaults of the look-ups are never used.
  */
  lemma ProductionCostFormula(crop: string)
    ensures ProductionCostExact(crop) ==
      LaborDays(crop) as real * 84.37
        + FERTILIZER_PER_HA[Category(crop)] as real
        + SEEDS_PER_HA[Category(crop)] as real
        + MECHANIZATION_PER_HA[Category(crop)] as real
        + 2000.0
    ensures ProductionCostExact(crop) - 1.0 / 2.0 <= ProductionCost(crop) as real <= ProductionCostExact(crop) + 1.0 / 2.0
  {
    CategoriesCovered(crop);
    WaterCostIsConstant();
  }

  /** Tree crops are perennial: the seed term is zero. */
  lemma TreeCropsHaveNoSeedCost(crop: string)
    requires Category(crop) == "tree_crop"
    ensures ProductionCostExact(crop) ==
      LaborDays(crop) as real * 84.37 + 2500.0 + 800.0 + 2000.0
  {
    ProductionCostFormula(crop);
  }

  /**
    A crop absent from the category and labour tables is costed as a cereal
    with 25 labour days: 25 × 84.37 + 1800 + 800 + 1200 + 2000 = 7909.25,
    rounded to 7909.
  */
  lemma UnknownCropCost(crop: string)
    requires crop !in CROP_CATEGORIES && crop !in LABOR_DAYS
    ensures Category(crop) == "cereal" && LaborDays(crop) == 25
    ensures ProductionCostExact(crop) == 7909.25
    ensures ProductionCost(crop) == 7909
  {
    ProductionCostFormula(crop);
  }

  /** Soft wheat: 20 × 84.37 + 1800 + 800 + 1200 + 2000 = 7487.4, rounded to 7487. */
  lemma SoftWheatCost()
    ensures ProductionCostExact("soft_wheat") == 7487.4
    ensures ProductionCost("soft_wheat") == 7487
  {
    ProductionCostFormula("soft_wheat");
  }

  /** The moisture class derived from `water_need`, which defaults to "medium". */
  function MoisturePreference(waterNeed: Value): string
  {
    if waterNeed == Str("very_low") || waterNeed == Str("low") then "low"
    else if waterNeed == Str("high") || waterNeed == Str("very_high") then "high"
    else "medium"
  }

  function WaterNeed(record: map<string, Value>): Value
  {
    Lookup(record, WATER_NEED_FIELD, Str("medium"))
  }

  const MARKET_PRICE := "market_price_mad_per_ton"
  const OLD_COST := "production_cost_mad_per_ha"
  const PRICE_FIELD := "faostat_price_mad_per_ton"
  const YEAR_FIELD := "faostat_price_year"
  const ITEM_FIELD := "faostat_item_name"
  const CATEGORY_FIELD := "cost_category"
  const LABOR_FIELD := "labor_days_per_ha"
  const PRICE_CATEGORY_FIELD := "price_category"
  const MOISTURE_FIELD := "moisture_preference"
  const WATER_NEED_FIELD := "water_need"

  /**
    The field names told apart cheaply: they differ in length, except the item
    and labour fields, which differ in their first letter.
  */
  lemma FieldNameShapes()
    ensures |MARKET_PRICE| == 24 && |OLD_COST| == 26 && |PRICE_FIELD| == 25 && |YEAR_FIELD| == 18
    ensures |ITEM_FIELD| == 17 && |CATEGORY_FIELD| == 13 && |LABOR_FIELD| == 17
    ensures |PRICE_CATEGORY_FIELD| == 14 && |MOISTURE_FIELD| == 19 && |WATER_NEED_FIELD| == 10
    ensures ITEM_FIELD[0] == 'f' && LABOR_FIELD[0] == 'l'
  {
  }

  /** The fields the update writes. */
  function WrittenFields(): set<string>
  {
    {PRICE_FIELD, YEAR_FIELD, ITEM_FIELD, CATEGORY_FIELD, LABOR_FIELD, PRICE_CATEGORY_FIELD, MOISTURE_FIELD}
  }

  /**
    The update of one record given the table values: the old price and cost
    fields are dropped, then the seven fields are written in order.
  */
  function ApplyUpdate(record: map<string, Value>, entry: PriceEntry, category: string, laborDays: int,
                       priceCategory: string): map<string, Value>
  {
    (record - {MARKET_PRICE, OLD_COST})
      [PRICE_FIELD := Int(entry.price)]
      [YEAR_FIELD := Int(entry.year)]
      [ITEM_FIELD := Str(entry.item)]
      [CATEGORY_FIELD := Str(category)]
      [LABOR_FIELD := Int(laborDays)]
      [PRICE_CATEGORY_FIELD := Str(priceCategory)]
      [MOISTURE_FIELD := Str(MoisturePreference(WaterNeed(record)))]
  }

  /** A priced crop's record after the update, `prices` being the FAOSTAT table. */
  function UpdatedRecord(prices: map<string, PriceEntry>, crop: string, record: map<string, Value>): map<string, Value>
    requires crop in prices
  {
    ApplyUpdate(record, prices[crop], Category(crop), LaborDays(crop), PriceCategory(crop))
  }

  /**
    A catalogue once the crops in `visited` have been through a loop body that
    rewrites the records of the keys in `priced` with `update` and leaves the
    others alone.
  */
  function Remap(crops: map<string, map<string, Value>>, visited: set<string>, priced: set<string>,
                 update: (string, map<string, Value>) -> map<string, Value>): map<string, map<string, Value>>
  {
    map k | k in crops :: if k in visited && k in priced then update(k, crops[k]) else crops[k]
  }

  /** The record update of the loop over `prices`, extended to unpriced crops as the identity. */
  function Updater(prices: map<string, PriceEntry>): (string, map<string, Value>) -> map<string, Value>
  {
    (crop, record) => if crop in prices then UpdatedRecord(prices, crop, record) else record
  }

  /** The catalogue the update produces: every priced crop rewritten, the rest untouched. */
  function UpdatedCatalogue(prices: map<string, PriceEntry>, crops: map<string, map<string, Value>>)
    : map<string, map<string, Value>>
  {
    Remap(crops, crops.Keys, prices.Keys, Updater(prices))
  }

  /**
    `very_low`/`low` give "low", `high`/`very_high` give "high", and anything
    else, a missing or `null` `water_need` included, gives "medium".
  */
  lemma MoistureClasses(record: map<string, Value>)
    ensures MoisturePreference(WaterNeed(record)) == "low" <==>
      WATER_NEED_FIELD in record && record[WATER_NEED_FIELD] in {Str("very_low"), Str("low")}
    ensures MoisturePreference(WaterNeed(record)) == "high" <==>
      WATER_NEED_FIELD in record && record[WATER_NEED_FIELD] in {Str("high"), Str("very_high")}
    ensures MoisturePreference(WaterNeed(record)) in {"low", "medium", "high"}
    ensures WATER_NEED_FIELD !in record ==> MoisturePreference(WaterNeed(record)) == "medium"
  {
  }

  /**
    An updated record has lost its old price and cost fields, holds the given
    price, year, item and cost-model references and the derived moisture class,
    and keeps every other field.
  */
  lemma ApplyUpdateFields(record: map<string, Value>, entry: PriceEntry, category: string, laborDays: int,
                          priceCategory: string)
    ensures var r := ApplyUpdate(record, entry, category, laborDays, priceCategory);
      MARKET_PRICE !in r && OLD_COST !in r &&
      r.Keys == record.Keys - {MARKET_PRICE, OLD_COST} + WrittenFields() &&
      r[PRICE_FIELD] == Int(entry.price) && r[YEAR_FIELD] == Int(entry.year) && r[ITEM_FIELD] == Str(entry.item) &&
      r[CATEGORY_FIELD] == Str(category) && r[LABOR_FIELD] == Int(laborDays) &&
      r[PRICE_CATEGORY_FIELD] == Str(priceCategory) &&
      r[MOISTURE_FIELD] == Str(MoisturePreference(WaterNeed(record))) &&
      (forall f :: f in record && f !in WrittenFields() && f != MARKET_PRICE && f != OLD_COST ==> r[f] == record[f])
  {
    FieldNameShapes();
  }

  /**
    The alternate keys `citrus`, `date_palms` and `sugarcane` are priced but
    absent from the other tables, so they get the defaults: category "cereal",
    25 labour days and price category "market".
  */
  lemma CitrusUsesDefaults()
    ensures "citrus" in FAOSTAT_PRICES && FAOSTAT_PRICES["citrus"] == PriceEntry(5185, 2024, "Oranges")
    ensures Category("citrus") == "cereal" && LaborDays("citrus") == 25 && PriceCategory("citrus") == "market"
  {
    assert "citrus" !in CROP_CATEGORIES;
    assert "citrus" !in LABOR_DAYS;
    assert "citrus" !in PRICE_REGULATION;
  }

  lemma DatePalmsUseDefaults()
    ensures "date_palms" in FAOSTAT_PRICES && FAOSTAT_PRICES["date_palms"] == PriceEntry(31240, 2024, "Dates")
    ensures Category("date_palms") == "cereal" && LaborDays("date_palms") == 25 && PriceCategory("date_palms") == "market"
  {
    assert "date_palms" !in CROP_CATEGORIES;
    assert "date_palms" !in LABOR_DAYS;
    assert "date_palms" !in PRICE_REGULATION;
  }

  lemma SugarcaneUsesDefaults()
    ensures "sugarcane" in FAOSTAT_PRICES && FAOSTAT_PRICES["sugarcane"] == PriceEntry(240, 2006, "Sugar cane")
    ensures Category("sugarcane") == "cereal" && LaborDays("sugarcane") == 25 && PriceCategory("sugarcane") == "market"
  {
    assert "sugarcane" !in CROP_CATEGORIES;
    assert "sugarcane" !in LABOR_DAYS;
    assert "sugarcane" !in PRICE_REGULATION;
  }

  /** The pops and key assignments on one crop's record, in the order they happen. */
  method UpdateRecord(record: map<string, Value>, entry: PriceEntry, category: string, laborDays: int,
                      priceCategory: string) returns (cropData: map<string, Value>)
    ensures cropData == ApplyUpdate(record, entry, category, laborDays, priceCategory)
  {
    cropData := record;
    cropData := cropData - {MARKET_PRICE};
    cropData := cropData - {OLD_COST};
    cropData := cropData[PRICE_FIELD := Int(entry.price)];
    cropData := cropData[YEAR_FIELD := Int(entry.year)];
    cropData := cropData[ITEM_FIELD := Str(entry.item)];
    cropData := cropData[CATEGORY_FIELD := Str(category)];
    cropData := cropData[LABOR_FIELD := Int(laborDays)];
    cropData := cropData[PRICE_CATEGORY_FIELD := Str(priceCategory)];
    var waterNeed := if WATER_NEED_FIELD in cropData then cropData[WATER_NEED_FIELD] else Str("medium");
    FieldNameShapes();
    assert waterNeed == WaterNeed(record);
    if waterNeed == Str("very_low") || waterNeed == Str("low") {
      cropData := cropData[MOISTURE_FIELD := Str("low")];
    } else if waterNeed == Str("high") || waterNeed == Str("very_high") {
      cropData := cropData[MOISTURE_FIELD := Str("high")];
    } else {
      cropData := cropData[MOISTURE_FIELD := Str("medium")];
    }
    assert record - {MARKET_PRICE, OLD_COST} == record - {MARKET_PRICE} - {OLD_COST};
  }

  /** The crop catalogue, updated in place. */
  class Catalogue {
    var crops: map<string, map<string, Value>>

    constructor(crops: map<string, map<string, Value>>)
      ensures this.crops == crops
    {
      this.crops := crops;
    }

    /** The body of the per-crop loop for a priced crop. */
    method UpdateCrop(prices: map<string, PriceEntry>, crop: string)
      requires crop in crops && crop in prices
      modifies this
      ensures crops == old(crops)[crop := Updater(prices)(crop, old(crops)[crop])]
    {
      var cropData := UpdateRecord(crops[crop], prices[crop], Category(crop), LaborDays(crop), PriceCategory(crop));
      crops := crops[crop := cropData];
    }

    /**
      One pass of the loop body: a priced crop is updated and counted, any
      other one skipped; either way it joins the visited crops.
    */
    method VisitCrop(prices: map<string, PriceEntry>, crop: string, ghost original: map<string, map<string, Value>>,
                     visited: set<string>, ghost counted: set<string>, updated: nat)
      returns (visited': set<string>, ghost counted': set<string>, updated': nat)
      requires crop in original && crop !in visited
      requires crops == Remap(original, visited, prices.Keys, Updater(prices))
      requires forall k :: k in counted <==> k in visited && k in prices
      requires updated == |counted|
      modifies this
      ensures visited' == visited + {crop}
      ensures crops == Remap(original, visited', prices.Keys, Updater(prices))
      ensures forall k :: k in counted' <==> k in visited' && k in prices
      ensures updated' == |counted'|
    {
      RemapStep(original, visited, prices.Keys, Updater(prices), crop);
      updated' := updated;
      counted' := counted;
      if crop in prices {
        UpdateCrop(prices, crop);
        updated' := updated' + 1;
        counted' := counted' + {crop};
      }
      visited' := visited + {crop};
    }

    /**
      The loop over the catalogue against the price table `prices`: every priced
      crop is updated, every other crop is left as it was, and the counter is
      the number of priced crops.
    */
    method UpdateWith(prices: map<string, PriceEntry>) returns (updated: nat)
      modifies this
      ensures crops == UpdatedCatalogue(prices, old(crops))
      ensures updated == |old(crops).Keys * prices.Keys|
    {
      ghost var original := crops;
      var keys := crops.Keys;
      var visited: set<string> := {};
      ghost var counted: set<string> := {};
      RemapSpec(original, prices.Keys, Updater(prices));
      updated := 0;
      while visited != keys
        invariant keys == original.Keys && visited <= keys
        invariant crops == Remap(original, visited, prices.Keys, Updater(prices))
        invariant forall k :: k in counted <==> k in visited && k in prices
        invariant updated == |counted|
        decreases keys - visited
      {
        SomeLeft(keys, visited);
        var crop :| crop in keys - visited;
        visited, counted, updated := VisitCrop(prices, crop, original, visited, counted, updated);
      }
      assert counted == original.Keys * prices.Keys;
    }

    /** The update of the catalogue against the FAOSTAT table. */
    method UpdateAll() returns (updated: nat)
      modifies this
      ensures crops == UpdatedCatalogue(FAOSTAT_PRICES, old(crops))
      ensures updated == |old(crops).Keys * FAOSTAT_PRICES.Keys|
    {
      updated := UpdateWith(FAOSTAT_PRICES);
    }
  }

  /** One more crop through the loop body changes at most that crop's entry. */
  lemma RemapStep(crops: map<string, map<string, Value>>, visited: set<string>, priced: set<string>,
                  update: (string, map<string, Value>) -> map<string, Value>, crop: string)
    requires crop in crops && crop !in visited
    ensures crop in priced ==>
      Remap(crops, visited + {crop}, priced, update) == Remap(crops, visited, priced, update)[crop := update(crop, crops[crop])]
    ensures crop !in priced ==> Remap(crops, visited + {crop}, priced, update) == Remap(crops, visited, priced, update)
    ensures Remap(crops, visited, priced, update)[crop] == crops[crop]
  {
  }

  /**
    Before the loop nothing has changed; after it the keys are the same, every
    priced crop carries its rewritten record and every other crop its old one.
  */
  lemma RemapSpec(crops: map<string, map<string, Value>>, priced: set<string>,
                  update: (string, map<string, Value>) -> map<string, Value>)
    ensures Remap(crops, {}, priced, update) == crops
    ensures Remap(crops, crops.Keys, priced, update).Keys == crops.Keys
    ensures forall k :: k in crops && k in priced ==> Remap(crops, crops.Keys, priced, update)[k] == update(k, crops[k])
    ensures forall k :: k in crops && k !in priced ==> Remap(crops, crops.Keys, priced, update)[k] == crops[k]
  {
  }

  /**
    The update keeps the catalogue's crops; a priced crop gets its updated
    record and any other crop is left untouched.
  */
  lemma UpdatedCatalogueSpec(prices: map<string, PriceEntry>, crops: map<string, map<string, Value>>)
    ensures UpdatedCatalogue(prices, crops).Keys == crops.Keys
    ensures forall k :: k in crops && k in prices ==>
      UpdatedCatalogue(prices, crops)[k] == UpdatedRecord(prices, k, crops[k])
    ensures forall k :: k in crops && k !in prices ==> UpdatedCatalogue(prices, crops)[k] == crops[k]
  {
    RemapSpec(crops, prices.Keys, Updater(prices));
  }

  /** While some key is unvisited, one can be picked. */
  lemma SomeLeft(keys: set<string>, visited: set<string>)
    requires visited <= keys && visited != keys
    ensures keys - visited != {}
  {
    assert !(keys <= visited);
    var x :| x in keys && x !in visited;
    assert x in keys - visited;
  }
}
