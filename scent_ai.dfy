/** The scent recommender's server side: the warm/cool/neutral reading of a colour
    palette, the weighted list of notes built from palette, mood, detected objects and
    sliders, the clamped cocktail proportions, the choice of at most three scents from
    the catalogue and the shape of the signature hash. */
module ScentAi {
  import opened Wrappers
  import opened Text
  import opened Reals
  import Json
  import Sorting

  // ---------------------------------------------------------------- palette

  const Warm := "warm"
  const Cool := "cool"
  const Neutral := "neutral"

  /** A colour starting with #f, #e, #d or #c (case-sensitive). */
  predicate WarmColor(c: string)
  {
    StartsWith(c, "#f") || StartsWith(c, "#e") || StartsWith(c, "#d") || StartsWith(c, "#c")
  }

  /** A colour starting with #0 to #6. */
  predicate CoolColor(c: string)
  {
    |c| >= 2 && c[0] == '#' && '0' <= c[1] <= '6'
  }

  /** No colour counts as both warm and cool. */
  lemma WarmCoolDisjoint(c: string)
    ensures !(WarmColor(c) && CoolColor(c))
  {
    if WarmColor(c) {
      assert c[1] in "fedc";
    }
  }

  /** How many colours satisfy a prefix test. */
  function Hits(colors: seq<string>, warm: bool): (n: nat)
    ensures n <= |colors|
  {
    if colors == [] then 0
    else
      Hits(colors[..|colors| - 1], warm)
      + (if (if warm then WarmColor(colors[|colors| - 1]) else CoolColor(colors[|colors| - 1])) then 1 else 0)
  }

  /** infer_profile: neutral for no colours, otherwise the majority of warm and cool
      hits, neutral on a tie. */
  function InferProfile(colors: seq<string>): (r: string)
    ensures colors == [] ==> r == Neutral
    ensures r == Warm <==> Hits(colors, true) > Hits(colors, false)
    ensures r == Cool <==> Hits(colors, false) > Hits(colors, true)
    ensures r == Neutral <==> Hits(colors, true) == Hits(colors, false)
  {
    if colors == [] then Neutral
    else if Hits(colors, true) > Hits(colors, false) then Warm
    else if Hits(colors, false) > Hits(colors, true) then Cool
    else Neutral
  }

  /** A colour from #7 to #b (or any other colour neither warm nor cool) never changes
      the profile. */
  lemma NeitherColorIrrelevant(colors: seq<string>, c: string)
    requires !WarmColor(c) && !CoolColor(c)
    ensures InferProfile(colors + [c]) == InferProfile(colors)
  {
    assert (colors + [c])[..|colors|] == colors;
  }

  /** The hits of two lists of colours add up. */
  lemma {:induction false} HitsAppend(a: seq<string>, b: seq<string>, warm: bool)
    ensures Hits(a + b, warm) == Hits(a, warm) + Hits(b, warm)
    decreases |b|
  {
    if b == [] {
      assert a + b == a;
    } else {
      var init := b[..|b| - 1];
      HitsAppend(a, init, warm);
      assert (a + b)[..|a + b| - 1] == a + init;
      assert (a + b)[|a + b| - 1] == b[|b| - 1];
    }
  }

  /** The counts, and so the profile, do not depend on the order of the colours: moving
      the last colour to the front leaves them unchanged. */
  lemma HitsRotate(colors: seq<string>, c: string, warm: bool)
    ensures Hits([c] + colors, warm) == Hits(colors + [c], warm)
  {
    HitsAppend([c], colors, warm);
    HitsAppend(colors, [c], warm);
  }

  // ---------------------------------------------------------------- notes

  const PaletteRules: map<string, seq<string>> := map[
    "warm" := ["Sandalwood", "Amber", "Vanilla", "Cardamom"],
    "cool" := ["Aquatic", "Ozone", "Mint", "Iris"],
    "neutral" := ["Musk", "Cedarwood", "Lavender", "Bergamot"]
  ]

  const MoodRules: map<string, seq<string>> := map[
    "cozy" := ["Sandalwood", "Amber", "Vanilla", "Tonka"],
    "professional" := ["Vetiver", "Cedarwood", "Bergamot", "Lavender"],
    "romantic" := ["Rose", "Jasmine", "Musk", "Oud"],
    "energetic" := ["Grapefruit", "Mint", "Lemon", "Pink Pepper"]
  ]

  const ObjectRules: map<string, seq<string>> := map[
    "wood" := ["Sandalwood", "Cedarwood", "Patchouli"],
    "metal" := ["Ozone", "Aquatic", "Aldehydes"],
    "fabric" := ["Musk", "Rose", "Peony"],
    "plant" := ["Vetiver", "Mint", "Geranium"]
  ]

  /** The rule tables of the recommender, passed around as one value. */
  datatype Rules = Rules(palette: map<string, seq<string>>, mood: map<string, seq<string>>,
                         objects: map<string, seq<string>>)

  const Tables := Rules(PaletteRules, MoodRules, ObjectRules)

  /** rules.get(key, default) */
  function Lookup(rules: map<string, seq<string>>, key: string, default: seq<string>): (r: seq<string>)
    ensures key in rules ==> r == rules[key]
    ensures key !in rules ==> r == default
  {
    if key in rules then rules[key] else default
  }

  /** The notes the detected objects contribute, object by object; unknown objects add
      nothing. */
  function ObjectNotes(rules: map<string, seq<string>>, objects: seq<string>): seq<string>
  {
    if objects == [] then []
    else ObjectNotes(rules, objects[..|objects| - 1]) + Lookup(rules, objects[|objects| - 1], [])
  }

  lemma {:induction false} ObjectNotesAppend(rules: map<string, seq<string>>, a: seq<string>, b: seq<string>)
    ensures ObjectNotes(rules, a + b) == ObjectNotes(rules, a) + ObjectNotes(rules, b)
    decreases |b|
  {
    if b == [] {
      assert a + b == a;
    } else {
      var b' := b[..|b| - 1];
      assert (a + b)[..|a + b| - 1] == a + b';
      ObjectNotesAppend(rules, a, b');
    }
  }

  /** Objects without a rule contribute no notes. */
  lemma {:induction false} UnknownObjectsAddNothing(rules: map<string, seq<string>>, objects: seq<string>)
    requires forall o :: o in objects ==> o !in rules
    ensures ObjectNotes(rules, objects) == []
  {
    if objects != [] {
      assert forall o :: o in objects[..|objects| - 1] ==> o in objects;
      UnknownObjectsAddNothing(rules, objects[..|objects| - 1]);
    }
  }

  const DefaultSlider: real := 50.0

  /** sliders.get(name, 50) */
  function Slider(sliders: map<string, real>, name: string): real
  {
    if name in sliders then sliders[name] else DefaultSlider
  }

  /** The notes the sliders add: three each for woody above 65, sweet above 65, floral
      above 60 and marine above 60, in that order. */
  function SliderNotes(sliders: map<string, real>): (r: seq<string>)
    ensures |r| == 3 * ((if Slider(sliders, "woody") > 65.0 then 1 else 0)
                       + (if Slider(sliders, "sweet") > 65.0 then 1 else 0)
                       + (if Slider(sliders, "floral") > 60.0 then 1 else 0)
                       + (if Slider(sliders, "marine") > 60.0 then 1 else 0))
  {
    (if Slider(sliders, "woody") > 65.0 then ["Oud", "Sandalwood", "Cedarwood"] else [])
    + (if Slider(sliders, "sweet") > 65.0 then ["Vanilla", "Tonka", "Amber"] else [])
    + (if Slider(sliders, "floral") > 60.0 then ["Rose", "Jasmine", "Peony"] else [])
    + (if Slider(sliders, "marine") > 60.0 then ["Aquatic", "Ozone", "Mint"] else [])
  }

  /** Missing sliders read as 50, which is below every threshold. */
  lemma NoSlidersNoExtras()
    ensures SliderNotes(map[]) == []
  {
  }

  /** The weighted notes of a request: the palette profile's rule, the mood's rule (an
      unknown mood uses the cozy rule), each object's rule in input order, then the
      slider extras. */
  method WeightedNotes(rules: Rules, profile: string, mood: string, objects: seq<string>,
                       sliders: map<string, real>) returns (notes: seq<string>)
    requires "cozy" in rules.mood
    ensures notes == Lookup(rules.palette, profile, []) + Lookup(rules.mood, mood, rules.mood["cozy"])
                     + ObjectNotes(rules.objects, objects) + SliderNotes(sliders)
  {
    notes := Lookup(rules.palette, profile, []);
    notes := notes + Lookup(rules.mood, mood, rules.mood["cozy"]);
    var head := notes;
    var i := 0;
    while i < |objects|
      invariant 0 <= i <= |objects|
      invariant notes == head + ObjectNotes(rules.objects, objects[..i])
    {
      assert objects[..i + 1][..i] == objects[..i];
      notes := notes + Lookup(rules.objects, objects[i], []);
      i := i + 1;
    }
    assert objects[..i] == objects;
    notes := notes + SliderNotes(sliders);
  }

  // ---------------------------------------------------------------- cocktail

  datatype Cocktail = Cocktail(oud: int, vanilla: int, floral: int, marine: int)

  /** The cocktail proportions from the sliders: int(woody * 0.8) in [5, 72],
      int(sweet * 0.35) in [4, 35], int(floral * 0.3) in [3, 28] and
      int(marine * 0.25) in [2, 22]. */
  function MixCocktail(sliders: map<string, real>): (c: Cocktail)
    ensures 5 <= c.oud <= 72 && 4 <= c.vanilla <= 35 && 3 <= c.floral <= 28 && 2 <= c.marine <= 22
  {
    Cocktail(ClampInt(Json.Trunc(Slider(sliders, "woody") * 0.8), 5, 72),
             ClampInt(Json.Trunc(Slider(sliders, "sweet") * 0.35), 4, 35),
             ClampInt(Json.Trunc(Slider(sliders, "floral") * 0.3), 3, 28),
             ClampInt(Json.Trunc(Slider(sliders, "marine") * 0.25), 2, 22))
  }

  /** Without sliders the cocktail is 40 oud, 17 vanilla, 15 floral and 12 marine. */
  lemma DefaultCocktail()
    ensures MixCocktail(map[]) == Cocktail(40, 17, 15, 12)
  {
    assert (17.5).Floor == 17 && (12.5).Floor == 12;
  }

  lemma TruncMonotonic(x: real, y: real)
    requires x <= y
    ensures Json.Trunc(x) <= Json.Trunc(y)
  {
    if x < 0.0 && y >= 0.0 {
    } else if x < 0.0 {
      assert (-y).Floor <= (-x).Floor;
    }
  }

  /** Raising the woody slider never lowers the oud share. */
  lemma OudMonotonic(s1: map<string, real>, s2: map<string, real>)
    requires Slider(s1, "woody") <= Slider(s2, "woody")
    ensures MixCocktail(s1).oud <= MixCocktail(s2).oud
  {
    TruncMonotonic(Slider(s1, "woody") * 0.8, Slider(s2, "woody") * 0.8);
  }

  // ---------------------------------------------------------------- recommendations

  datatype Scent = Scent(name: string, brand: string, top: string, middle: string, base: string,
                         profile: string, mood: string, score: real)

  function ScoreKey(s: Scent): real { s.score }

  /** A scent matches when its top, middle or base note is among the notes. */
  predicate Matches(s: Scent, notes: seq<string>)
  {
    s.top in notes || s.middle in notes || s.base in notes
  }

  function Filter(catalogue: seq<Scent>, notes: seq<string>): (r: seq<Scent>)
    ensures forall s :: s in r <==> s in catalogue && Matches(s, notes)
  {
    if catalogue == [] then []
    else (if Matches(catalogue[0], notes) then [catalogue[0]] else []) + Filter(catalogue[1..], notes)
  }

  const MaxRecommendations: nat := 3

  /** r holds the best min(3, |pool|) scents of pool, best first: drawn from pool, and
      every scent of pool left out scores no more than every scent kept. */
  ghost predicate TopOf(r: seq<Scent>, pool: seq<Scent>)
  {
    && |r| == (if |pool| < MaxRecommendations then |pool| else MaxRecommendations)
    && Sorting.SortedDesc(r, ScoreKey)
    && multiset(r) <= multiset(pool)
    && forall x, y :: x in r && y in multiset(pool) - multiset(r) ==> x.score >= y.score
  }

  /** The best three of a list by score, best first. */
  function Best(scents: seq<Scent>): (r: seq<Scent>)
    ensures TopOf(r, scents)
    ensures forall s :: s in r ==> s in scents
  {
    var sorted := Sorting.SortDesc(scents, ScoreKey);
    Sorting.SortDescSorted(scents, ScoreKey);
    var r := Take(sorted, MaxRecommendations);
    Sorting.PrefixIsTop(sorted, ScoreKey, |r|);
    assert forall s :: s in r ==> s in multiset(sorted);
    assert forall s :: s in multiset(scents) ==> s in scents;
    r
  }

  /** The notes the query matches against: the weighted notes, or Sandalwood alone when
      there are none. */
  function QueryNotes(notes: seq<string>): (r: seq<string>)
    ensures r != [] && (notes != [] ==> r == notes)
  {
    if notes == [] then ["Sandalwood"] else notes
  }

  /** The catalogue query: the best three scents sharing a note with the query notes, or,
      when no scent shares one, the best three of the whole catalogue. */
  function Recommendations(catalogue: seq<Scent>, notes: seq<string>): (r: seq<Scent>)
    ensures var matching := Filter(catalogue, QueryNotes(notes));
            && (matching != [] ==> TopOf(r, matching))
            && (matching == [] ==> TopOf(r, catalogue))
    ensures forall s :: s in r ==> s in catalogue
    ensures (exists s :: s in catalogue && Matches(s, QueryNotes(notes)))
              ==> forall s :: s in r ==> Matches(s, QueryNotes(notes))
    ensures r == [] <==> catalogue == []
  {
    var matching := Filter(catalogue, QueryNotes(notes));
    if matching != [] then Best(matching)
    else
      assert catalogue != [] ==> catalogue[0] in catalogue;
      Best(catalogue)
  }

  /** The first of a list sorted by descending score scores at least as much as any. */
  lemma BestFirst(rows: seq<Scent>)
    requires rows != [] && Sorting.SortedDesc(rows, ScoreKey)
    ensures forall s :: s in rows ==> rows[0].score >= s.score
  {
    forall s | s in rows ensures rows[0].score >= s.score {
      var k :| 0 <= k < |rows| && rows[k] == s;
      if k > 0 { assert ScoreKey(rows[0]) >= ScoreKey(rows[k]); }
    }
  }

  /** hexdigest()[:16].upper(): the first sixteen hex digits, upper-cased. The digest
      itself (SHA-256 of the parts joined by "|") is not part of this model. */
  function SignatureHash(hexDigest: string): (r: string)
    requires |hexDigest| == 64 && forall i :: 0 <= i < |hexDigest| ==> IsHexLower(hexDigest[i])
    ensures |r| == 16 && forall i :: 0 <= i < 16 ==> IsHexUpper(r[i])
  {
    var r := Upper(hexDigest[..16]);
    forall i | 0 <= i < 16 ensures IsHexUpper(r[i]) {
      assert r[i] == UpperChar(hexDigest[i]);
      HexUpper(hexDigest[i]);
    }
    r
  }

  lemma HexUpper(c: char)
    requires IsHexLower(c)
    ensures IsHexUpper(UpperChar(c))
  {
    if IsDigit(c) {
      assert !IsLowerAscii(c) && c as int < 128;
    } else {
      assert UpperChar(c) as int == c as int - 32;
    }
  }

  predicate IsHexLower(c: char) { IsDigit(c) || 'a' <= c <= 'f' }
  predicate IsHexUpper(c: char) { IsDigit(c) || 'A' <= c <= 'F' }

  /** The part of the response this model computes. */
  datatype Recommendation = Recommendation(profile: string, mood: string, accordScore: real,
                                           signature: string, signatureHash: string,
                                           cocktail: Cocktail, recommendations: seq<Scent>)

  /** POST /api/recommend: infers the profile, assembles the notes, queries the
      catalogue and mixes the cocktail; an empty catalogue leaves no best scent and the
      handler raises. */
  method Recommend(palette: seq<string>, objects: seq<string>, mood: string, sliders: map<string, real>,
                   catalogue: seq<Scent>, hexDigest: string) returns (r: Option<Recommendation>)
    requires |hexDigest| == 64 && forall i :: 0 <= i < |hexDigest| ==> IsHexLower(hexDigest[i])
    ensures r.None? <==> catalogue == []
    ensures r.Some? ==> var rec := r.value;
      && rec.profile == InferProfile(palette)
      && 1 <= |rec.recommendations| <= MaxRecommendations
      && rec.signature == rec.recommendations[0].base + " Signature"
      && rec.accordScore == rec.recommendations[0].score * 0.4 + 49.5
      && (forall s :: s in rec.recommendations ==> rec.recommendations[0].score >= s.score)
      && rec.mood == mood
      && rec.signatureHash == SignatureHash(hexDigest)
      && rec.cocktail == MixCocktail(sliders)
      && rec.recommendations == Recommendations(catalogue,
           Lookup(Tables.palette, InferProfile(palette), []) + Lookup(Tables.mood, mood, Tables.mood["cozy"])
           + ObjectNotes(Tables.objects, objects) + SliderNotes(sliders))
  {
    var profile := InferProfile(palette);
    var notes := WeightedNotes(Tables, profile, mood, objects, sliders);
    var rows := Recommendations(catalogue, notes);
    if rows == [] {
      return None;
    }
    var best := rows[0];
    BestFirst(rows);
    r := Some(Recommendation(profile, mood, best.score * 0.4 + 85.0 * 0.3 + 80.0 * 0.3,
                             best.base + " Signature", SignatureHash(hexDigest),
                             MixCocktail(sliders), rows));
  }
}
