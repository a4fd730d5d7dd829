/** The aura scanner's server side: the colour-weighted choice of an aura from the
    palette, the chakra energy map, the lucky day and weekly forecast, and the checks
    on a journal entry. The random draws of the server (jitters, boosts, amplitudes)
    and the clock (the forecast dates) are parameters. */
module AuraScanner {
  import opened Wrappers
  import opened Text
  import opened Reals
  import opened Dicts
  import Json

  datatype AuraProfile = AuraProfile(key: string, name: string, hex: string, chakra: string,
                                     element: string, personality: string, crystal: string)

  const AuraPalette: seq<AuraProfile> := [
    AuraProfile("blue", "Mavi", "#45B2FF", "Boğaz", "Su", "İletişimci, empatik, nazik lider.", "Akuamarin"),
    AuraProfile("red", "Kırmızı", "#FF4D5A", "Kök", "Ateş", "Kararlı, cesur, güç odaklı.", "Kırmızı Jasper"),
    AuraProfile("green", "Yeşil", "#37E6A1", "Kalp", "Toprak", "Şifacı, dengeleyici, doğa sever.", "Aventurin"),
    AuraProfile("violet", "Mor", "#A874FF", "Taç", "Eter", "Vizyoner, spiritüel, sezgisel.", "Ametist"),
    AuraProfile("gold", "Altın", "#F9D55B", "Solar", "Ateş", "Özgüvenli, yaratıcı, görünür.", "Sitrin"),
    AuraProfile("turquoise", "Turkuaz", "#40E8E0", "Boğaz", "Su", "Anlatıcı, akışta, ilham verici.", "Turkuaz"),
    AuraProfile("indigo", "İndigo", "#5261FF", "Üçüncü Göz", "Eter", "Derin düşünen, sezgisel analist.", "Lapis Lazuli"),
    AuraProfile("orange", "Turuncu", "#FF9A44", "Sakral", "Ateş", "Neşeli, üretken, sosyal.", "Karnelyan"),
    AuraProfile("pink", "Pembe", "#FF7AC6", "Kalp", "Su", "Romantik, sıcak, kapsayıcı.", "Gül Kuvars"),
    AuraProfile("silver", "Gümüş", "#C7D0E7", "Taç", "Hava", "Gözlemci, zihin berrak, rafine.", "Ay Taşı"),
    AuraProfile("teal", "Teal", "#22B7A8", "Kalp", "Toprak", "Sakinleştirici, güven inşa eden.", "Yeşim"),
    AuraProfile("magenta", "Magenta", "#E045B5", "Sakral", "Ateş", "Tutkulu, artistik, dönüştürücü.", "Rodonit")
  ]

  // ---------------------------------------------------------------- aura index

  /** (v - lo) / (hi - lo), clamped to [0, 1]; equal bounds divide by zero and raise,
      so they are excluded. */
  function Normalize(v: real, lo: real, hi: real): (r: real)
    requires lo != hi
    ensures 0.0 <= r <= 1.0
  {
    Max(0.0, Min(1.0, (v - lo) / (hi - lo)))
  }

  /** Over increasing bounds, a larger value never normalises lower, and a value inside
      the bounds keeps its relative position. */
  lemma NormalizeMonotonic(a: real, b: real, lo: real, hi: real)
    requires lo < hi && a <= b
    ensures Normalize(a, lo, hi) <= Normalize(b, lo, hi)
    ensures lo <= a <= hi ==> Normalize(a, lo, hi) * (hi - lo) == a - lo
  {
    QuotientMonotonic(a - lo, b - lo, hi - lo);
    QuotientSign(a - lo, hi - lo);
  }

  datatype Rgb = Rgb(r: int, g: int, b: int)
  datatype Hsv = Hsv(hue: real, sat: real, val: real)

  /** The warm and cool undertones of a skin colour and the weighted score. */
  datatype Weights = Weights(warm: real, cool: real, weighted: real)

  function AuraWeights(skin: Rgb, eye: Hsv, lightReflection: real): (w: Weights)
    ensures 0.0 <= w.warm <= 1.0 && 0.0 <= w.cool <= 1.0
    ensures 0.0 <= eye.hue <= 360.0 && 0.0 <= eye.sat <= 1.0 ==> 0.0 <= w.weighted <= 1.0
  {
    var warm := Normalize(((skin.r - skin.b) + 128) as real, 0.0, 255.0);
    var cool := Normalize(((skin.b - skin.r) + 128) as real, 0.0, 255.0);
    var undertone := warm * 0.6 + cool * 0.4;
    var iris := eye.hue / 360.0 * 0.7 + eye.sat * 0.3;
    var light := Normalize(lightReflection, 0.0, 1.0);
    Weights(warm, cool, undertone * 0.5 + iris * 0.3 + light * 0.2)
  }

  /** int(round(weighted * 11)): a position in the palette for an eye hue in [0, 360]
      and a saturation in [0, 1]; other eye readings can fall outside it. */
  function WeightedAuraIndex(skin: Rgb, eye: Hsv, lightReflection: real): (index: int)
    ensures 0.0 <= eye.hue <= 360.0 && 0.0 <= eye.sat <= 1.0 ==> 0 <= index < |AuraPalette|
  {
    RoundHalfEven(AuraWeights(skin, eye, lightReflection).weighted * 11.0)
  }

  /** AURA_PALETTE[index] with Python indexing: a negative index counts from the end,
      and an index past either end raises. */
  function PaletteAt(index: int): (r: Option<AuraProfile>)
    ensures 0 <= index < |AuraPalette| ==> r == Some(AuraPalette[index])
    ensures -|AuraPalette| <= index < 0 ==> r == Some(AuraPalette[|AuraPalette| + index])
    ensures r.None? <==> index < -|AuraPalette| || index >= |AuraPalette|
  {
    if 0 <= index < |AuraPalette| then Some(AuraPalette[index])
    else if -|AuraPalette| <= index < 0 then Some(AuraPalette[|AuraPalette| + index])
    else None
  }

  /** An eye reading with a negative hue can yield a negative index, which silently
      selects a profile from the end of the palette instead of failing. */
  lemma NegativeHueWrapsAround()
    ensures WeightedAuraIndex(Rgb(0, 0, 255), Hsv(-650.0, 0.0, 0.0), 0.0) == -2
    ensures PaletteAt(-2) == Some(AuraPalette[10])
  {
    var w := AuraWeights(Rgb(0, 0, 255), Hsv(-650.0, 0.0, 0.0), 0.0);
    assert w.warm == 0.0 && w.cool == 1.0;
    assert w.weighted * 11.0 == -473.0 / 240.0;
    assert (-473.0 / 240.0).Floor == -2;
  }

  // ---------------------------------------------------------------- chakras

  const ChakraNames := ["Kök", "Sakral", "Solar", "Kalp", "Boğaz", "Üçüncü Göz", "Taç"]
  const ChakraBase := [62, 66, 70, 64, 68, 72, 74]

  /** Every profile's focus chakra is one of the seven. */
  lemma PaletteChakras()
    ensures forall p :: p in AuraPalette ==> p.chakra in ChakraNames
  {
  }

  /** The chakra names hold no repeats. */
  lemma ChakraNamesDistinct()
    ensures Distinct(ChakraNames)
  {
  }

  predicate Distinct(names: seq<string>)
  {
    forall i, j :: 0 <= i < j < |names| ==> names[i] != names[j]
  }

  /** The value of one chakra after its jitter: base + jitter + int(8 flux) clamped to
      [30, 98], then for the focus chakra raised by the boost and clamped to [35, 99]. */
  function ChakraValue(base: int, focus: bool, flux: real, jitter: int, boost: int): (v: int)
    ensures focus ==> 35 <= v <= 99
    ensures !focus ==> 30 <= v <= 98
  {
    var jittered := ClampInt(base + jitter + Json.Trunc(flux * 8.0), 30, 98);
    if focus then ClampInt(jittered + boost, 35, 99) else jittered
  }

  /** A non-negative focus boost never lowers the focus chakra below its jittered value. */
  lemma FocusBoostRaises(base: int, flux: real, jitter: int, boost: int)
    requires boost >= 0
    ensures ChakraValue(base, true, flux, jitter, boost) >= ChakraValue(base, false, flux, jitter, boost)
  {
  }

  /** chakra_map over the table of chakra names and base values (ChakraNames and
      ChakraBase): each chakra, in order, gets its base value plus its drawn jitter in
      [-10, 10] and the flux term, clamped; then the profile's focus chakra gets the
      drawn boost in [8, 16]. */
  method ChakraMap(names: seq<string>, base: seq<int>, focus: string, flux: real, jitters: seq<int>,
                   boost: int) returns (chakras: Dict<string, int>)
    requires Distinct(names) && focus in names
    requires |base| == |names| && |jitters| == |names|
    ensures Keys(chakras) == names
    ensures forall i :: 0 <= i < |chakras| ==>
              chakras[i].1 == ChakraValue(base[i], names[i] == focus, flux, jitters[i], boost)
    ensures forall i :: 0 <= i < |chakras| && names[i] != focus ==> 30 <= chakras[i].1 <= 98
    ensures forall i :: 0 <= i < |chakras| && names[i] == focus ==> 35 <= chakras[i].1 <= 99
  {
    chakras := [];
    var i := 0;
    while i < |names|
      invariant 0 <= i <= |names| && |chakras| == i
      invariant forall k :: 0 <= k < i ==> chakras[k] == (names[k], base[k])
    {
      chakras := chakras + [(names[i], base[i])];
      i := i + 1;
    }
    i := 0;
    while i < |names|
      invariant 0 <= i <= |names| && |chakras| == |names|
      invariant forall k :: 0 <= k < |chakras| ==> chakras[k].0 == names[k]
      invariant forall k :: 0 <= k < i ==> chakras[k].1 == ChakraValue(base[k], false, flux, jitters[k], boost)
      invariant forall k :: i <= k < |chakras| ==> chakras[k].1 == base[k]
    {
      chakras := chakras[i := (names[i], ClampInt(chakras[i].1 + jitters[i] + Json.Trunc(flux * 8.0), 30, 98))];
      i := i + 1;
    }
    var f :| 0 <= f < |names| && names[f] == focus;
    chakras := chakras[f := (focus, ClampInt(chakras[f].1 + boost, 35, 99))];
    KeysOfNames(chakras, names);
  }

  lemma KeysOfNames(chakras: Dict<string, int>, names: seq<string>)
    requires |chakras| == |names| && forall k :: 0 <= k < |chakras| ==> chakras[k].0 == names[k]
    ensures Keys(chakras) == names
  {
  }

  // ---------------------------------------------------------------- forecast

  const Days := ["Pazartesi", "Salı", "Çarşamba", "Perşembe", "Cuma", "Cumartesi", "Pazar"]

  /** sum(ord(ch) for ch in s) */
  function CodePointSum(s: string): nat
  {
    if s == [] then 0 else CodePointSum(s[..|s| - 1]) + s[|s| - 1] as nat
  }

  lemma {:induction false} CodePointSumAppend(a: string, b: string)
    ensures CodePointSum(a + b) == CodePointSum(a) + CodePointSum(b)
    decreases |b|
  {
    if b != [] {
      assert (a + b)[..|a + b| - 1] == a + b[..|b| - 1];
      CodePointSumAppend(a, b[..|b| - 1]);
    } else {
      assert a + b == a;
    }
  }

  /** The lucky day of an aura key: the code-point sum of the key, modulo 7. */
  function LuckyDaySeed(key: string): (r: string)
    ensures r in Days
    ensures r == Days[CodePointSum(key) % 7]
  {
    Days[CodePointSum(key) % |Days|]
  }

  /** The lucky day depends only on the code points, not on how the key is split:
      swapping its two halves gives the same day. */
  lemma LuckyDaySwap(a: string, b: string)
    ensures LuckyDaySeed(a + b) == LuckyDaySeed(b + a)
  {
    CodePointSumAppend(a, b);
    CodePointSumAppend(b, a);
  }

  const ZodiacHints: map<string, string> := map[
    "koç" := "Ateşin yükseliyor; liderlik fırsatları açık.",
    "boğa" := "Toprak enerjin sabit; finansal sezgin güçlü.",
    "ikizler" := "İletişimde yıldızlı bir hafta seni bekliyor.",
    "yengeç" := "Kalp çakrası çalışmasıyla duygusal netlik geliyor.",
    "aslan" := "Sahne senin; görünürlükten çekinme.",
    "başak" := "Rutinlerini sadeleştir, enerji kaçaklarını kapat.",
    "terazi" := "İlişkilerde denge kurman güçlü sonuçlar verecek.",
    "akrep" := "Derin sezgilerin doğru sinyal veriyor.",
    "yay" := "Keşif ve eğitim konularında şanslısın.",
    "oğlak" := "Uzun vadeli planlar için ideal hafta.",
    "kova" := "İnovatif fikirlerin destek buluyor.",
    "balık" := "Meditasyon ve rüya çalışmaları etkili."
  ]
  const DefaultHint := "Sezgin bu hafta pusulan olacak."

  /** ZODIAC_HINTS.get((zodiac or "").strip().lower(), default); a missing zodiac reads
      as the empty string. */
  function ZodiacHint(zodiac: Option<string>, hints: map<string, string>): (r: string)
    ensures Lower(Strip(zodiac.GetOr(""))) !in hints ==> r == DefaultHint
    ensures Lower(Strip(zodiac.GetOr(""))) in hints ==> r == hints[Lower(Strip(zodiac.GetOr("")))]
  {
    var k := Lower(Strip(zodiac.GetOr("")));
    if k in hints then hints[k] else DefaultHint
  }

  /** Surrounding spaces do not change the hint. */
  lemma HintIgnoresSpacing(zodiac: string, hints: map<string, string>)
    ensures ZodiacHint(Some(zodiac), hints) == ZodiacHint(Some(Strip(zodiac)), hints)
  {
    StripIdempotent(zodiac);
  }

  datatype Step = Step(date: string, energy: int)
  datatype Prediction = Prediction(luckyDay: string, summary: string, zodiacHint: string,
                                   crystal: string, timeline: seq<Step>)

  /** weekly_prediction: seven steps, one per day from today, each with its drawn
      energy in [45, 98]; then the zodiac hint, the lucky day and the summary. */
  method WeeklyPrediction(aura: AuraProfile, zodiac: Option<string>, dates: seq<string>,
                          amplitudes: seq<int>) returns (p: Prediction)
    requires |dates| == 7 && |amplitudes| == 7
    requires forall i :: 0 <= i < 7 ==> 45 <= amplitudes[i] <= 98
    ensures |p.timeline| == 7
    ensures forall i :: 0 <= i < 7 ==> p.timeline[i] == Step(dates[i], amplitudes[i])
    ensures forall i :: 0 <= i < 7 ==> 45 <= p.timeline[i].energy <= 98
    ensures p.zodiacHint == ZodiacHint(zodiac, ZodiacHints)
    ensures p.luckyDay == LuckyDaySeed(aura.key) && p.luckyDay in Days
    ensures p.summary == aura.name + " frekansın yükseliyor. " + p.zodiacHint
    ensures p.crystal == aura.crystal
  {
    var steps: seq<Step> := [];
    var i := 0;
    while i < 7
      invariant 0 <= i <= 7 && |steps| == i
      invariant forall k :: 0 <= k < i ==> steps[k] == Step(dates[k], amplitudes[k])
    {
      steps := steps + [Step(dates[i], amplitudes[i])];
      i := i + 1;
    }
    var hint := ZodiacHint(zodiac, ZodiacHints);
    p := Prediction(LuckyDaySeed(aura.key), aura.name + " frekansın yükseliyor. " + hint, hint,
                    aura.crystal, steps);
  }

  // ---------------------------------------------------------------- journal

  const NoteRequired := "note required"
  const ServerError := "Internal Server Error"

  datatype JournalEntry = JournalEntry(note: string, mood: int, auraKey: Json.Json, tags: string)

  /** The strings of a JSON list, or None when some item is not a string. */
  function StringItems(items: seq<Json.Json>): (r: Option<seq<string>>)
    ensures r.Some? ==> |r.value| == |items| && forall i :: 0 <= i < |items| ==> items[i] == Json.JStr(r.value[i])
  {
    if items == [] then Some([])
    else if !items[0].JStr? then None
    else match StringItems(items[1..])
      case None => None
      case Some(rest) => Some([items[0].s] + rest)
  }

  /** Tags ",".join can take: anything but a list holding a non-string. */
  predicate TagsJoinable(tags: Json.Json)
  {
    tags.JList? ==> StringItems(tags.items).Some?
  }

  /** POST /api/journal: the note is str()-converted and stripped, the mood converted
      with int() (which raises on a malformed value), an empty note is refused, the mood
      is stored clamped to [1, 5] and list tags joined with ","; a list holding a
      non-string cannot be joined and raises, and an aura key that is a list, an object
      or an integer beyond 64 bits cannot be stored and raises. */
  function JournalPost(p: Json.Payload): (r: Result<JournalEntry>)
    ensures Json.ToInt(Json.Get(p, "mood", Json.JInt(3))).None? ==> r == Err(ServerError)
    ensures (Json.ToInt(Json.Get(p, "mood", Json.JInt(3))).Some?
             && Strip(Json.Str(Json.Get(p, "note", Json.JStr("")))) == []) ==> r == Err(NoteRequired)
    ensures r.Ok? <==> && Json.ToInt(Json.Get(p, "mood", Json.JInt(3))).Some?
                       && Strip(Json.Str(Json.Get(p, "note", Json.JStr("")))) != []
                       && TagsJoinable(Json.Get(p, "tags", Json.JList([], "[]")))
                       && Json.Bindable(Json.Get(p, "aura_key", Json.JNull))
    ensures r.Ok? ==> && r.value.note == Strip(Json.Str(Json.Get(p, "note", Json.JStr(""))))
                      && r.value.mood == ClampInt(Json.ToInt(Json.Get(p, "mood", Json.JInt(3))).value, 1, 5)
                      && r.value.auraKey == Json.Get(p, "aura_key", Json.JNull)
    ensures r.Ok? ==> r.value.note != [] && 1 <= r.value.mood <= 5
    ensures r.Ok? && "mood" !in p ==> r.value.mood == 3
  {
    var note := Strip(Json.Str(Json.Get(p, "note", Json.JStr(""))));
    var mood := Json.ToInt(Json.Get(p, "mood", Json.JInt(3)));
    var tags := Json.Get(p, "tags", Json.JList([], "[]"));
    if mood.None? then Err(ServerError)
    else if note == [] then Err(NoteRequired)
    else if tags.JList? && StringItems(tags.items).None? then Err(ServerError)
    else if !Json.Bindable(Json.Get(p, "aura_key", Json.JNull)) then Err(ServerError)
    else
      var tagText := if tags.JList? then Join(StringItems(tags.items).value, ",") else Json.Str(tags);
      Ok(JournalEntry(note, ClampInt(mood.value, 1, 5), Json.Get(p, "aura_key", Json.JNull), tagText))
  }

  /** A journal entry with string tags stores them joined by commas. */
  lemma JournalTags(p: Json.Payload, tags: seq<string>)
    requires "tags" in p && p["tags"].JList? && |p["tags"].items| == |tags|
    requires forall i :: 0 <= i < |tags| ==> p["tags"].items[i] == Json.JStr(tags[i])
    requires JournalPost(p).Ok?
    ensures JournalPost(p).value.tags == Join(tags, ",")
  {
    var items := p["tags"].items;
    var r := StringItems(items).value;
    assert r == tags;
  }
}
