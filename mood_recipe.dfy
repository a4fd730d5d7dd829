/** The mood-to-recipe server: the mood-boost formula, the reseeding of the ingredient
    table with 10 core ingredients and 990 jittered variants, and the nutrient averages
    of a generated recipe. The random choices and jitters are parameters; the table is
    passed in and out as a value, and the SQL query that picks ingredients for a mood is
    a parameter (its result). */
module MoodRecipe {
  import opened Text
  import Reals

  datatype Ingredient = Ingredient(name: string, category: string, omega3: int, serotonin: int, b12: int,
                                   tryptophan: int, moodTags: string)

  /** CORE_INGREDIENTS */
  const CoreIngredients := [
    Ingredient("Somon", "deniz", 94, 79, 84, 67, "stres,odak"),
    Ingredient("Ispanak", "sebze", 52, 58, 43, 61, "stres,yorgun"),
    Ingredient("Muz", "meyve", 37, 76, 58, 45, "mutlu,uykulu"),
    Ingredient("Bitter Çikolata", "tatli", 44, 67, 75, 38, "mutlu,yaratici"),
    Ingredient("Yumurta", "protein", 31, 42, 82, 59, "yorgun,odak"),
    Ingredient("Ceviz", "kuruyemis", 73, 54, 49, 70, "odak,stres"),
    Ingredient("Hindi", "protein", 28, 48, 66, 89, "uykulu,odak"),
    Ingredient("Çilek", "meyve", 21, 62, 29, 40, "asik,mutlu"),
    Ingredient("İstiridye", "deniz", 35, 46, 61, 33, "asik,romantik"),
    Ingredient("Kırmızı Et", "protein", 18, 35, 91, 30, "yorgun,motivasyonsuz")
  ]

  // ---------------------------------------------------------------- mood boost

  /** metrics.get(key, 0) */
  function Metric(metrics: map<string, real>, key: string): real
  {
    if key in metrics then metrics[key] else 0.0
  }

  /** mood_boost_formula before rounding: 0.4 serotonin + 0.3 cortisol reduction + 0.3
      dopamine, a missing metric counting as 0. The weights add up to 1, so when every
      metric lies in [lo, hi] (0 <= lo) so does the boost. */
  function MoodBoost(metrics: map<string, real>): (boost: real)
    ensures metrics == map[] ==> boost == 0.0
    ensures forall lo: real, hi: real ::
              (0.0 <= lo && Within(metrics, lo, hi)) ==> lo <= boost <= hi
  {
    0.4 * Metric(metrics, "serotonin") + 0.3 * Metric(metrics, "cortisol_reduction")
    + 0.3 * Metric(metrics, "dopamine")
  }

  /** The three metrics the formula reads are present and within [lo, hi]. */
  predicate Within(metrics: map<string, real>, lo: real, hi: real)
  {
    && "serotonin" in metrics && lo <= metrics["serotonin"] <= hi
    && "cortisol_reduction" in metrics && lo <= metrics["cortisol_reduction"] <= hi
    && "dopamine" in metrics && lo <= metrics["dopamine"] <= hi
  }

  /** Raising any one metric never lowers the boost. */
  lemma MoodBoostMonotonic(m1: map<string, real>, m2: map<string, real>)
    requires forall k :: k in m1 ==> k in m2 && 0.0 <= m1[k] <= m2[k]
    requires forall k :: k in m2 ==> m2[k] >= 0.0
    ensures MoodBoost(m1) <= MoodBoost(m2)
  {
    assert Metric(m1, "serotonin") <= Metric(m2, "serotonin");
    assert Metric(m1, "cortisol_reduction") <= Metric(m2, "cortisol_reduction");
    assert Metric(m1, "dopamine") <= Metric(m2, "dopamine");
  }

  // ---------------------------------------------------------------- reseeding

  const TableSize: nat := 1000
  const VariantCount: nat := 990

  /** max(5, min(99, value + jitter)) */
  function Jitter(value: int, delta: int): (v: int)
    ensures 5 <= v <= 99
    ensures 5 <= value + delta <= 99 ==> v == value + delta
  {
    if value + delta > 99 then 99 else if value + delta < 5 then 5 else value + delta
  }

  /** Four jitters, each a draw from random.randint(-12, 12). */
  datatype Deltas = Deltas(omega3: int, serotonin: int, b12: int, tryptophan: int)

  predicate ValidDeltas(d: Deltas)
  {
    -12 <= d.omega3 <= 12 && -12 <= d.serotonin <= 12 && -12 <= d.b12 <= 12 && -12 <= d.tryptophan <= 12
  }

  /** Variant k of a base ingredient: named "<base> Variant k", with the base's
      category and mood tags and each nutrient jittered and clamped to [5, 99]. */
  function Variant(base: Ingredient, k: nat, d: Deltas): (v: Ingredient)
    ensures v.category == base.category && v.moodTags == base.moodTags
    ensures StartsWith(v.name, base.name + " Variant ")
    ensures 5 <= v.omega3 <= 99 && 5 <= v.serotonin <= 99 && 5 <= v.b12 <= 99 && 5 <= v.tryptophan <= 99
  {
    var v := Ingredient(base.name + " Variant " + NatToDecimal(k), base.category,
                        Jitter(base.omega3, d.omega3), Jitter(base.serotonin, d.serotonin),
                        Jitter(base.b12, d.b12), Jitter(base.tryptophan, d.tryptophan), base.moodTags);
    assert v.name[..|base.name + " Variant "|] == base.name + " Variant ";
    v
  }

  /** A variant's nutrients stay within 12 of its base's. */
  lemma VariantNearBase(base: Ingredient, k: nat, d: Deltas)
    requires ValidDeltas(d)
    requires 5 <= base.omega3 <= 99 && 5 <= base.serotonin <= 99 && 5 <= base.b12 <= 99
             && 5 <= base.tryptophan <= 99
    ensures var v := Variant(base, k, d);
            && -12 <= v.omega3 - base.omega3 <= 12 && -12 <= v.serotonin - base.serotonin <= 12
            && -12 <= v.b12 - base.b12 <= 12 && -12 <= v.tryptophan - base.tryptophan <= 12
  {
  }

  /** The row at position j of a reseeded table: the core rows first, then variant
      j - 9 of the chosen base. */
  function SeededRow(j: nat, choices: seq<nat>, deltas: seq<Deltas>): Ingredient
    requires j < TableSize && |choices| == VariantCount && |deltas| == VariantCount
    requires forall i :: 0 <= i < |choices| ==> choices[i] < |CoreIngredients|
  {
    if j < |CoreIngredients| then CoreIngredients[j]
    else Variant(CoreIngredients[choices[j - 10]], j - 9, deltas[j - 10])
  }

  /** init_db's reseeding: a table with at least 1000 rows is kept; a smaller one is
      cleared and refilled with the 10 core rows followed by 990 variants, variant k
      built from the k-th choice (an index from random.choice) and jitters. */
  method InitDb(table: seq<Ingredient>, choices: seq<nat>, deltas: seq<Deltas>) returns (rows: seq<Ingredient>)
    requires |choices| == VariantCount && |deltas| == VariantCount
    requires forall i :: 0 <= i < |choices| ==> choices[i] < |CoreIngredients|
    ensures |table| >= TableSize ==> rows == table
    ensures |table| < TableSize ==> && |rows| == TableSize
                                    && rows[..|CoreIngredients|] == CoreIngredients
                                    && forall j :: 0 <= j < TableSize ==> rows[j] == SeededRow(j, choices, deltas)
  {
    if |table| >= TableSize {
      return table;
    }
    rows := CoreIngredients;
    var idx := 0;
    while idx < VariantCount
      invariant 0 <= idx <= VariantCount
      invariant |rows| == |CoreIngredients| + idx
      invariant rows[..|CoreIngredients|] == CoreIngredients
      invariant forall j :: 0 <= j < |rows| ==> rows[j] == SeededRow(j, choices, deltas)
    {
      var row := Variant(CoreIngredients[choices[idx]], idx + 1, deltas[idx]);
      assert row == SeededRow(|rows|, choices, deltas);
      rows := rows + [row];
      idx := idx + 1;
    }
  }

  /** Every row of a reseeded table has its nutrients in [5, 99] and its mood tags
      taken from a core ingredient. */
  lemma SeededRowsBounded(j: nat, choices: seq<nat>, deltas: seq<Deltas>)
    requires j < TableSize && |choices| == VariantCount && |deltas| == VariantCount
    requires forall i :: 0 <= i < |choices| ==> choices[i] < |CoreIngredients|
    ensures var row := SeededRow(j, choices, deltas);
            && 5 <= row.omega3 <= 99 && 5 <= row.serotonin <= 99 && 5 <= row.b12 <= 99 && 5 <= row.tryptophan <= 99
            && exists c :: c in CoreIngredients && c.moodTags == row.moodTags
  {
    if j < |CoreIngredients| {
      var c := CoreIngredients[j];
      assert c in CoreIngredients;
    } else {
      var c := CoreIngredients[choices[j - 10]];
      assert c in CoreIngredients;
    }
  }

  // ---------------------------------------------------------------- recipe metrics

  const Averaged: nat := 5

  datatype Nutrient = Omega3 | Serotonin | B12 | Tryptophan

  function Amount(i: Ingredient, n: Nutrient): int
  {
    match n
    case Omega3 => i.omega3
    case Serotonin => i.serotonin
    case B12 => i.b12
    case Tryptophan => i.tryptophan
  }

  /** One nutrient of each ingredient, as a list of reals. */
  function Column(picked: seq<Ingredient>, nutrient: Nutrient): (r: seq<real>)
    ensures |r| == |picked| && forall i :: 0 <= i < |picked| ==> r[i] == Amount(picked[i], nutrient) as real
  {
    seq(|picked|, i requires 0 <= i < |picked| => Amount(picked[i], nutrient) as real)
  }

  /** sum(value for the first five picks) / 5: the sum is over at most five picks but is
      always divided by five. */
  function AverageOfFirst(picked: seq<Ingredient>, nutrient: Nutrient): real
  {
    Reals.Sum(Column(Take(picked, Averaged), nutrient)) / Averaged as real
  }

  /** The metrics of generate_recipe: serotonin, cortisol reduction (the omega-3
      column) and dopamine (the B12 column). */
  function RecipeMetrics(picked: seq<Ingredient>): (m: map<string, real>)
    ensures m.Keys == {"serotonin", "cortisol_reduction", "dopamine"}
    ensures picked == [] ==> m["serotonin"] == m["cortisol_reduction"] == m["dopamine"] == 0.0
  {
    map["serotonin" := AverageOfFirst(picked, Serotonin),
        "cortisol_reduction" := AverageOfFirst(picked, Omega3),
        "dopamine" := AverageOfFirst(picked, B12)]
  }

  /** With fewer than five picks the division by five shrinks the average: k picks all
      with value v give k v / 5, not v. */
  lemma {:induction false} FewPicksDiluted(picked: seq<Ingredient>, nutrient: Nutrient, v: int)
    requires |picked| <= Averaged
    requires forall i :: 0 <= i < |picked| ==> Amount(picked[i], nutrient) == v
    ensures AverageOfFirst(picked, nutrient) == |picked| as real * v as real / 5.0
  {
    Reals.SumConstant(Column(picked, nutrient), v as real);
  }

  /** When every pick's nutrients lie within [lo, hi] (0 <= lo), so do the metrics once
      five or more ingredients were picked, and so does the mood boost. */
  lemma MetricsBounded(picked: seq<Ingredient>, lo: int, hi: int)
    requires 0 <= lo <= hi && |picked| >= Averaged
    requires forall i :: 0 <= i < |picked| ==> lo <= picked[i].serotonin <= hi && lo <= picked[i].omega3 <= hi
                                                && lo <= picked[i].b12 <= hi
    ensures Within(RecipeMetrics(picked), lo as real, hi as real)
    ensures lo as real <= MoodBoost(RecipeMetrics(picked)) <= hi as real
  {
    AverageBounded(picked, Serotonin, lo, hi);
    AverageBounded(picked, Omega3, lo, hi);
    AverageBounded(picked, B12, lo, hi);
  }

  /** The average of the first five picks lies within the bounds of every pick. */
  lemma AverageBounded(picked: seq<Ingredient>, nutrient: Nutrient, lo: int, hi: int)
    requires 0 <= lo <= hi && |picked| >= Averaged
    requires forall i :: 0 <= i < |picked| ==> lo <= Amount(picked[i], nutrient) <= hi
    ensures lo as real <= AverageOfFirst(picked, nutrient) <= hi as real
  {
    var column := Column(Take(picked, Averaged), nutrient);
    assert |column| == 5;
    Reals.SumBounds(column, lo as real, hi as real);
  }
}
