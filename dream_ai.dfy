/** The dream interpreter's deterministic core: symbol extraction from the dream text,
    the word-list sentiment score, Jungian archetype selection, zodiac signs from
    ecliptic longitudes, the clamped fate score, the request checks of the analysis
    endpoint and the seven-day symbol trend table. */
module DreamAi {
  import opened Wrappers
  import opened Text
  import opened Reals
  import Json
  import opened Dicts
  import Sorting

  /** The symbol dictionary, in its declaration order: symbol -> meaning. */
  const SymbolDb: Dict<string, string> := [
    ("uçmak", "özgürlük, sınırları aşma arzusu"),
    ("dusmek", "kontrol kaybı ya da belirsizlik kaygısı"),
    ("düşmek", "kontrol kaybı ya da belirsizlik kaygısı"),
    ("su", "duygusal derinlik, bilinçaltı akışı"),
    ("deniz", "duygusal bilinçaltı, bilinmeyen"),
    ("okyanus", "sonsuz olasılıklar, güçlü duygu"),
    ("yangın", "dönüşüm, bastırılmış öfke"),
    ("ates", "yaşam enerjisi, yıkım ve yaratım"),
    ("ateş", "yaşam enerjisi, yıkım ve yaratım"),
    ("ev", "benlik, iç dünya"),
    ("oda", "mahrem alan, psikolojik katman"),
    ("kapı", "fırsat veya geçiş eşiği"),
    ("anahtar", "çözüm, keşif"),
    ("yol", "yaşam yönü, karar süreci"),
    ("araba", "kontrol, ilerleme"),
    ("tren", "kader akışı, toplumsal rota"),
    ("ucak", "yüksek hedefler, kaçış"),
    ("uçak", "yüksek hedefler, kaçış"),
    ("merdiven", "yükseliş veya düşüş"),
    ("asansor", "hızlı değişim"),
    ("asansör", "hızlı değişim"),
    ("dag", "engel ve başarı"),
    ("dağ", "engel ve başarı"),
    ("orman", "bilinmeyenle yüzleşme"),
    ("agac", "köklenme, büyüme"),
    ("ağaç", "köklenme, büyüme"),
    ("cicek", "umut, incelik"),
    ("çiçek", "umut, incelik"),
    ("yılan", "dönüşüm, korku, şifa"),
    ("kedi", "sezgi, bağımsızlık"),
    ("kopek", "sadakat, korunma"),
    ("köpek", "sadakat, korunma"),
    ("kus", "özgür ruh, haber"),
    ("kuş", "özgür ruh, haber"),
    ("at", "güç, hareket"),
    ("aslan", "cesaret, ego"),
    ("kaplan", "içgüdüsel güç"),
    ("fil", "hafıza, köklü bilgelik"),
    ("balik", "bereket, bilinçaltı"),
    ("balık", "bereket, bilinçaltı"),
    ("kurt", "içgüdü, yalnızlık"),
    ("ayı", "koruyuculuk, güç"),
    ("tavsan", "kırılganlık, hız"),
    ("tavşan", "kırılganlık, hız"),
    ("bebek", "yeni başlangıç"),
    ("cocuk", "masumiyet, iyileşme"),
    ("çocuk", "masumiyet, iyileşme"),
    ("anne", "şefkat, korunma"),
    ("baba", "otorite, yapı"),
    ("ogretmen", "rehberlik"),
    ("öğretmen", "rehberlik"),
    ("doktor", "iyileşme ihtiyacı"),
    ("hastane", "onarma, kırılganlık"),
    ("okul", "öğrenme döngüsü"),
    ("sinav", "performans kaygısı"),
    ("sınav", "performans kaygısı"),
    ("telefon", "iletişim ihtiyacı"),
    ("mesaj", "duygusal haber"),
    ("internet", "bağlantı, bilgi yükü"),
    ("robot", "duygudan kopma"),
    ("uzay", "sınırsız potansiyel"),
    ("yildiz", "rehberlik, umut"),
    ("yıldız", "rehberlik, umut"),
    ("ay", "duygu ritmi, sezgi"),
    ("gunes", "kimlik, canlılık"),
    ("güneş", "kimlik, canlılık"),
    ("karanlik", "gölge arketipi"),
    ("karanlık", "gölge arketipi"),
    ("isik", "farkındalık"),
    ("ışık", "farkındalık"),
    ("ayna", "kendilikle yüzleşme"),
    ("maske", "sosyal persona"),
    ("kan", "yaşam gücü, travma izi"),
    ("dis", "kaygı, kontrol"),
    ("diş", "kaygı, kontrol"),
    ("sac", "kimlik, imaj"),
    ("saç", "kimlik, imaj"),
    ("hamilelik", "yaratıcılık, üretim"),
    ("evlilik", "birleşme arketipi"),
    ("yuzuk", "bağlılık"),
    ("yüzük", "bağlılık"),
    ("altin", "özdeğer"),
    ("altın", "özdeğer"),
    ("para", "güvenlik, değer"),
    ("hazine", "gizli yetenek"),
    ("hirsiz", "sınır ihlali"),
    ("hırsız", "sınır ihlali"),
    ("polis", "düzen, vicdan"),
    ("mahkeme", "iç yargı"),
    ("hapishane", "sıkışmışlık"),
    ("savas", "iç çatışma"),
    ("savaş", "iç çatışma"),
    ("silah", "savunma, tehdit"),
    ("patlama", "ani boşalma"),
    ("deprem", "temel sarsıntı"),
    ("firtina", "duygusal kaos"),
    ("fırtına", "duygusal kaos"),
    ("yagmur", "arınma"),
    ("yağmur", "arınma"),
    ("kar", "duygusal soğuma"),
    ("ruzgar", "değişim"),
    ("rüzgar", "değişim"),
    ("gol", "durgun duygu"),
    ("göl", "durgun duygu"),
    ("nehir", "zaman akışı"),
    ("kopru", "geçiş"),
    ("köprü", "geçiş"),
    ("adalet", "denge arayışı"),
    ("tapinak", "manevi arayış"),
    ("tapınak", "manevi arayış"),
    ("melek", "korunma"),
    ("seytan", "gölge dürtü"),
    ("şeytan", "gölge dürtü"),
    ("zombi", "tükenmişlik"),
    ("canavar", "bastırılmış korku"),
    ("labirent", "karmaşa"),
    ("saat", "zaman baskısı"),
    ("gec kalmak", "yetişememe stresi"),
    ("geç kalmak", "yetişememe stresi"),
    ("ucurum", "risk"),
    ("uçurum", "risk"),
    ("gemi", "yaşam yolculuğu"),
    ("liman", "güvenli alan"),
    ("ada", "yalıtılmışlık"),
    ("kule", "mesafe, savunma"),
    ("kraliçe", "anima gücü"),
    ("kral", "otorite merkezi"),
    ("kahraman", "cesur benlik"),
    ("gölge", "reddedilmiş benlik"),
    ("anima", "duygusal iç ses"),
    ("animus", "eylem iradesi"),
    ("kayıp", "yas süreci"),
    ("ölüm", "dönüşüm ve kapanış"),
    ("yeniden doğuş", "yenilenme"),
    ("muzik", "ruhsal uyum"),
    ("müzik", "ruhsal uyum"),
    ("dans", "ifade özgürlüğü"),
    ("resim", "yaratıcılık"),
    ("tiyatro", "persona oyunu"),
    ("kahve", "uyanış"),
    ("çay", "dinginlik"),
    ("ekmek", "temel güvenlik"),
    ("sofra", "paylaşım")
  ]

  // ---------------------------------------------------------------- symbols

  /** The keys, in order, that occur in `lowered` as substrings. */
  function Matches(keys: seq<string>, lowered: string): (r: seq<string>)
    ensures forall k :: k in r <==> k in keys && Contains(lowered, k)
  {
    if keys == [] then []
    else (if Contains(lowered, keys[0]) then [keys[0]] else []) + Matches(keys[1..], lowered)
  }

  /** set(s) as a list: the same elements, each once. */
  function Distinct(s: seq<string>): (r: seq<string>)
    ensures forall x :: x in r <==> x in s
    ensures forall i, j :: 0 <= i < j < |r| ==> r[i] != r[j]
  {
    if s == [] then []
    else
      var t := Distinct(s[1..]);
      if s[0] in t then t else [s[0]] + t
  }

  const MaxSymbols: nat := 12

  /** sorted(set(k for k in keys if k in text.lower()))[:12]: the matching keys in
      code-point order, without repeats, and when more than twelve match, the twelve
      smallest. */
  function ExtractSymbols(text: string, keys: seq<string>): (r: seq<string>)
    ensures |r| <= MaxSymbols
    ensures Sorting.StrictlyAscending(r)
    ensures forall k :: k in r ==> k in keys && Contains(Lower(text), k)
    ensures forall k :: k in keys && Contains(Lower(text), k) && k !in r ==>
              |r| == MaxSymbols && Sorting.LexLessEq(r[MaxSymbols - 1], k)
  {
    var found := Distinct(Matches(keys, Lower(text)));
    var sorted := Sorting.SortStrings(found);
    Sorting.SortStringsStrict(found);
    SameElements(sorted, found);
    SortedPrefix(sorted, MaxSymbols);
    Take(sorted, MaxSymbols)
  }

  lemma SameElements(a: seq<string>, b: seq<string>)
    requires multiset(a) == multiset(b)
    ensures forall x :: x in a <==> x in b
  {
    assert forall x :: x in a <==> x in multiset(a);
    assert forall x :: x in b <==> x in multiset(b);
  }

  /** The first n elements of a strictly ascending list: still strictly ascending, and
      an element left out comes after all of them. */
  lemma SortedPrefix(sorted: seq<string>, n: nat)
    requires n > 0 && Sorting.StrictlyAscending(sorted)
    ensures Sorting.StrictlyAscending(Take(sorted, n))
    ensures forall k :: k in sorted && k !in Take(sorted, n) ==>
              |Take(sorted, n)| == n && Sorting.LexLessEq(Take(sorted, n)[n - 1], k)
  {
    var r := Take(sorted, n);
    forall k | k in sorted && k !in r
      ensures |r| == n && Sorting.LexLessEq(r[n - 1], k)
    {
      var j :| 0 <= j < |sorted| && sorted[j] == k;
      assert forall i :: 0 <= i < |r| ==> r[i] == sorted[i];
      assert sorted[n - 1] == r[n - 1];
    }
  }

  // ---------------------------------------------------------------- sentiment

  const PositiveWords: set<string> :=
    {"mutlu", "huzur", "güzel", "sevgi", "neşe", "başarı", "rahat", "iyi", "umut", "özgür"}
  const NegativeWords: set<string> :=
    {"korku", "kaygı", "üzgün", "karanlık", "panik", "kabus", "yalnız", "kayıp", "ölüm", "stres"}

  /** Every character that is not a word character becomes a space. */
  function WordCharsOnly(s: string): (r: string)
    ensures |r| == |s|
    ensures forall i :: 0 <= i < |s| ==> r[i] == if IsWordChar(s[i]) then s[i] else ' '
  {
    if s == [] then [] else [if IsWordChar(s[0]) then s[0] else ' '] + WordCharsOnly(s[1..])
  }

  /** re.findall(r"\w+", s): the maximal runs of word characters, in order. */
  function WordRuns(s: string): (r: seq<string>)
    ensures forall w, i :: w in r && 0 <= i < |w| ==> IsWordChar(w[i])
  {
    var t := WordCharsOnly(s);
    WordsKeep(t, IsWordChar);
    Words(t)
  }

  /** How many of the words belong to the vocabulary (repeats counted). */
  function CountIn(words: seq<string>, vocabulary: set<string>): (n: nat)
    ensures n <= |words|
  {
    if words == [] then 0
    else (if words[0] in vocabulary then 1 else 0) + CountIn(words[1..], vocabulary)
  }

  /** 0.5 plus (pos - neg) / max(1, n / 4), clamped to [0, 1]. */
  function Mood(pos: nat, neg: nat, n: nat): (r: real)
    ensures 0.0 <= r <= 1.0
  {
    var raw := (pos as real - neg as real) / Max(1.0, n as real / 4.0);
    Max(0.0, Min(1.0, 0.5 + raw))
  }

  /** The mood of a dream: 0.5 without words, otherwise from the counts of positive and
      negative words among its words. */
  function SentimentScore(text: string): (r: real)
    ensures WordRuns(Lower(text)) == [] ==> r == 0.5
    ensures 0.0 <= r <= 1.0
  {
    var words := WordRuns(Lower(text));
    if words == [] then 0.5
    else Mood(CountIn(words, PositiveWords), CountIn(words, NegativeWords), |words|)
  }

  /** The mood leans the way the counts lean. */
  lemma MoodLeaning(pos: nat, neg: nat, n: nat)
    ensures Mood(pos, neg, n) > 0.5 <==> pos > neg
    ensures Mood(pos, neg, n) < 0.5 <==> pos < neg
  {
    Reals.QuotientSign(pos as real - neg as real, Max(1.0, n as real / 4.0));
  }

  /** The score is above 0.5 exactly when positive words outnumber negative ones, and
      below exactly when they are outnumbered. */
  lemma SentimentLeaning(text: string)
    ensures var words := WordRuns(Lower(text));
      var pos, neg := CountIn(words, PositiveWords), CountIn(words, NegativeWords);
      && (SentimentScore(text) > 0.5 <==> pos > neg)
      && (SentimentScore(text) < 0.5 <==> pos < neg)
  {
    var words := WordRuns(Lower(text));
    if words != [] {
      MoodLeaning(CountIn(words, PositiveWords), CountIn(words, NegativeWords), |words|);
    } else {
      assert CountIn(words, PositiveWords) == 0 && CountIn(words, NegativeWords) == 0;
    }
  }

  // ---------------------------------------------------------------- archetypes

  datatype Archetype = Hero | Shadow | Anima | WoundedHealer | Wanderer

  /** The name the response carries for each archetype. */
  function Name(a: Archetype): string
  {
    match a
    case Hero => "Kahraman"
    case Shadow => "Gölge"
    case Anima => "Anima"
    case WoundedHealer => "Yaralı Şifacı"
    case Wanderer => "Gezgin"
  }

  const HeroSymbols := ["kahraman", "aslan", "dağ"]
  const ShadowSymbols := ["gölge", "karanlık", "canavar", "şeytan", "seytan"]
  const AnimaSymbols := ["anne", "kraliçe", "su", "ay"]

  /** any(s in symbols for s in candidates) */
  predicate AnyOf(symbols: seq<string>, candidates: seq<string>)
  {
    exists s :: s in candidates && s in symbols
  }

  /** The archetypes a dream's symbols and mood call up, in the order Hero, Shadow,
      Anima, Wounded Healer; the Wanderer when none applies. */
  function Archetypes(symbols: seq<string>, mood: real): (r: seq<Archetype>)
    ensures r != []
    ensures Hero in r <==> AnyOf(symbols, HeroSymbols)
    ensures Shadow in r <==> AnyOf(symbols, ShadowSymbols)
    ensures Anima in r <==> AnyOf(symbols, AnimaSymbols)
    ensures WoundedHealer in r <==> mood < 0.4
    ensures Wanderer in r <==> r == [Wanderer]
    ensures Wanderer in r <==> !AnyOf(symbols, HeroSymbols) && !AnyOf(symbols, ShadowSymbols)
                               && !AnyOf(symbols, AnimaSymbols) && mood >= 0.4
    ensures RankOrdered(r)
  {
    RulesChosen(symbols, mood);
    var arcs := Chosen(RuleOrder, symbols, mood);
    if arcs == [] then [Wanderer] else assert arcs[0] in arcs; arcs
  }

  /** Going through the four rules picks exactly the archetypes whose rule fires, each
      once and in rule order. */
  lemma RulesChosen(symbols: seq<string>, mood: real)
    ensures forall a :: a in Chosen(RuleOrder, symbols, mood) <==> a != Wanderer && Applies(a, symbols, mood)
    ensures RankOrdered(Chosen(RuleOrder, symbols, mood))
  {
    assert RuleOrder[0] == Hero && RuleOrder[1] == Shadow && RuleOrder[2] == Anima
           && RuleOrder[3] == WoundedHealer;
    ChosenOrdered(RuleOrder, symbols, mood);
  }

  /** The four rules, in the order the handler tries them. */
  const RuleOrder := [Hero, Shadow, Anima, WoundedHealer]

  /** Whether the rule for an archetype fires; the Wanderer has no rule of its own. */
  predicate Applies(a: Archetype, symbols: seq<string>, mood: real)
  {
    match a
    case Hero => AnyOf(symbols, HeroSymbols)
    case Shadow => AnyOf(symbols, ShadowSymbols)
    case Anima => AnyOf(symbols, AnimaSymbols)
    case WoundedHealer => mood < 0.4
    case Wanderer => false
  }

  /** The archetypes of `rules` whose rule fires, appended in rule order. */
  function Chosen(rules: seq<Archetype>, symbols: seq<string>, mood: real): (r: seq<Archetype>)
    ensures forall a :: a in r <==> a in rules && Applies(a, symbols, mood)
  {
    if rules == [] then []
    else (if Applies(rules[0], symbols, mood) then [rules[0]] else []) + Chosen(rules[1..], symbols, mood)
  }

  /** Choosing keeps the rule order. */
  lemma {:induction false} ChosenOrdered(rules: seq<Archetype>, symbols: seq<string>, mood: real)
    requires RankOrdered(rules)
    ensures RankOrdered(Chosen(rules, symbols, mood))
  {
    if rules != [] {
      var rest := Chosen(rules[1..], symbols, mood);
      assert RankOrdered(rules[1..]) by {
        forall i, j | 0 <= i < j < |rules[1..]| ensures Rank(rules[1..][i]) < Rank(rules[1..][j]) {
          assert rules[1..][i] == rules[i + 1] && rules[1..][j] == rules[j + 1];
        }
      }
      ChosenOrdered(rules[1..], symbols, mood);
      forall a | a in rest ensures Rank(rules[0]) < Rank(a) {
        var k :| 1 <= k < |rules| && rules[k] == a;
      }
    }
  }

  /** The ranks strictly increase along the list. */
  predicate RankOrdered(r: seq<Archetype>)
  {
    forall i, j :: 0 <= i < j < |r| ==> Rank(r[i]) < Rank(r[j])
  }

  /** The position of an archetype in the order the rules are tried. */
  function Rank(a: Archetype): nat
  {
    match a
    case Hero => 0
    case Shadow => 1
    case Anima => 2
    case WoundedHealer => 3
    case Wanderer => 4
  }

  /** The names in the response are all different, so the list of names says which
      archetypes were chosen. */
  lemma NamesDistinct(a: Archetype, b: Archetype)
    requires a != b
    ensures Name(a) != Name(b)
  {
    assert (Name(a)[0], |Name(a)|) != (Name(b)[0], |Name(b)|);
  }

  // ---------------------------------------------------------------- astrology

  const Signs := ["Koç", "Boğa", "İkizler", "Yengeç", "Aslan", "Başak", "Terazi", "Akrep",
                  "Yay", "Oğlak", "Kova", "Balık"]

  /** int(lon // 30) % 12: the thirty-degree sector, wrapped around the circle. */
  function SignIndex(lon: real): (k: nat)
    ensures k < 12
  {
    (lon / 30.0).Floor % 12
  }

  function SignFromLongitude(lon: real): (r: string)
    ensures r in Signs
  {
    Signs[SignIndex(lon)]
  }

  /** A longitude in [30k, 30k + 30) lies in sign k (mod 12), negative k included. */
  lemma SignSector(lon: real, k: int)
    requires 30.0 * k as real <= lon < 30.0 * (k + 1) as real
    ensures SignIndex(lon) == k % 12
  {
    assert k as real <= lon / 30.0 < (k + 1) as real;
  }

  /** A full turn of the circle gives the same sign. */
  lemma SignPeriodic(lon: real)
    ensures SignFromLongitude(lon + 360.0) == SignFromLongitude(lon)
  {
    var k := (lon / 30.0).Floor;
    SignSector(lon, k);
    SignSector(lon + 360.0, k + 12);
    assert (k + 12) % 12 == k % 12;
    assert SignIndex(lon + 360.0) == SignIndex(lon);
  }

  const Planets := ["Güneş", "Ay", "Merkür", "Venüs", "Mars", "Jüpiter", "Satürn"]

  datatype Placement = Placement(longitude: real, sign: string)

  /** The planets' placements from their longitudes (from the ephemeris or, without
      one, from the drawn values times 360). */
  function PlacePlanets(names: seq<string>, longitudes: seq<real>): (r: Dict<string, Placement>)
    requires |longitudes| == |names|
    ensures Keys(r) == names
    ensures forall i :: 0 <= i < |r| ==> r[i].1.longitude == longitudes[i] && r[i].1.sign in Signs
  {
    if names == [] then []
    else [(names[0], Placement(longitudes[0], SignFromLongitude(longitudes[0])))]
         + PlacePlanets(names[1..], longitudes[1..])
  }

  /** astro["planets"].get("Ay", {}).get("sign", "") */
  function MoonSign(planets: Dict<string, Placement>): (r: string)
    ensures "Ay" !in Keys(planets) ==> r == ""
  {
    match Get(planets, "Ay")
    case Some(p) => p.sign
    case None => ""
  }

  // ---------------------------------------------------------------- fate

  const HarmonySigns: set<string> := {"Balık", "Yengeç", "Terazi"}

  /** int(max(35, min(99, 50 + 35 mood + 2 symbols + harmony + jitter))), where the
      harmony bonus is 6 for a water or air moon and `jitter` is the drawn integer
      in [-4, 4]. */
  function FateScore(mood: real, symbolCount: nat, moonSign: string, jitter: int): (r: int)
    ensures 35 <= r <= 99
  {
    var harmony := if moonSign in HarmonySigns then 6.0 else 0.0;
    var raw := 50.0 + mood * 35.0 + (symbolCount * 2) as real + harmony + jitter as real;
    Clamp(raw, 35.0, 99.0).Floor
  }

  /** A better mood, more symbols, a harmonious moon or a larger draw never lower the
      fate score. */
  lemma FateMonotonic(mood1: real, mood2: real, n1: nat, n2: nat, moon1: string, moon2: string,
                      jitter1: int, jitter2: int)
    requires mood1 <= mood2 && n1 <= n2 && jitter1 <= jitter2
    requires moon1 in HarmonySigns ==> moon2 in HarmonySigns
    ensures FateScore(mood1, n1, moon1, jitter1) <= FateScore(mood2, n2, moon2, jitter2)
  {
    var h1 := if moon1 in HarmonySigns then 6.0 else 0.0;
    var h2 := if moon2 in HarmonySigns then 6.0 else 0.0;
    var raw1 := 50.0 + mood1 * 35.0 + (n1 * 2) as real + h1 + jitter1 as real;
    var raw2 := 50.0 + mood2 * 35.0 + (n2 * 2) as real + h2 + jitter2 as real;
    assert raw1 <= raw2;
    FloorMonotonic(Clamp(raw1, 35.0, 99.0), Clamp(raw2, 35.0, 99.0));
  }

  lemma FloorMonotonic(x: real, y: real)
    requires x <= y
    ensures x.Floor <= y.Floor
  {
  }

  // ---------------------------------------------------------------- analysis

  const Langs := ["tr", "en", "de", "fr", "es", "it", "pt", "ru", "ar", "ja", "ko", "zh"]
  const TooShort := "Rüya metni en az 10 karakter olmalıdır."
  /** An exception inside the handler: the server answers 500. */
  const ServerError := "Internal Server Error"
  const MinDreamLength: nat := 10

  /** (payload.get(key, "") or "").strip(): a falsy value reads as "", a string is
      stripped, and any other value has no strip() and raises. */
  function StrippedField(p: Json.Payload, key: string): (r: Result<string>)
    ensures key !in p ==> r == Ok("")
    ensures key in p && p[key].JStr? ==> r == Ok(Strip(p[key].s))
  {
    var v := Json.Get(p, key, Json.JStr(""));
    if !Json.Truthy(v) then Ok("")
    else if v.JStr? then Ok(Strip(v.s))
    else Err(ServerError)
  }

  /** payload.get("lang", "tr") if it is a known language, else "tr"; a list or object
      cannot be looked up in the language table and raises. */
  function Language(p: Json.Payload): (r: Result<string>)
    ensures r.Ok? ==> r.value in Langs
    ensures "lang" !in p ==> r == Ok("tr")
    ensures "lang" in p && p["lang"].JStr? ==>
              r == Ok(if p["lang"].s in Langs then p["lang"].s else "tr")
  {
    var v := Json.Get(p, "lang", Json.JStr("tr"));
    if v.JList? || v.JObject? then Err(ServerError)
    else if v.JStr? && v.s in Langs then Ok(v.s)
    else Ok("tr")
  }

  /** What the analysis endpoint computes for a dream when no language-model key is
      usable (the offline interpretation). */
  datatype Analysis = Analysis(text: string, lang: string, symbols: seq<string>, mood: real,
                               archetypes: seq<Archetype>, fateScore: int, symbolCount: nat)

  /** POST /api/analyze: the dream text is stripped and must have at least 10
      characters; the language falls back to "tr"; symbols, mood and fate follow. */
  function Analyze(p: Json.Payload, db: Dict<string, string>, planets: Dict<string, Placement>, jitter: int): (r: Result<Analysis>)
    ensures (StrippedField(p, "dream").Ok? && |StrippedField(p, "dream").value| < MinDreamLength)
              ==> r == Err(TooShort)
    ensures r.Ok? ==> var a := r.value;
      && Ok(a.text) == StrippedField(p, "dream") && |a.text| >= MinDreamLength
      && Ok(a.lang) == Language(p) && a.lang in Langs
      && a.symbols == ExtractSymbols(a.text, Keys(db)) && a.symbolCount == |a.symbols| <= MaxSymbols
      && a.mood == SentimentScore(a.text) && 0.0 <= a.mood <= 1.0
      && a.archetypes == Archetypes(a.symbols, a.mood) && a.archetypes != []
      && 35 <= a.fateScore <= 99
  {
    match StrippedField(p, "dream")
    case Err(e) => Err(e)
    case Ok(text) =>
      if |text| < MinDreamLength then Err(TooShort)
      else if Language(p).Err? then Err(ServerError)
      else if StrippedField(p, "openai_key").Err? then Err(ServerError)
      else
        var symbols := ExtractSymbols(text, Keys(db));
        var mood := SentimentScore(text);
        Ok(Analysis(text, Language(p).value, symbols, mood, Archetypes(symbols, mood),
                    FateScore(mood, |symbols|, MoonSign(planets), jitter), |symbols|))
  }

  // ---------------------------------------------------------------- trends

  /** symbols.count(x) */
  function CountOf(symbols: seq<string>, x: string): nat
  {
    if symbols == [] then 0 else (if symbols[0] == x then 1 else 0) + CountOf(symbols[1..], x)
  }

  /** counter[x], which is 0 for a symbol never seen. */
  function Count(counter: Dict<string, nat>, x: string): nat
  {
    Get(counter, x).GetOr(0)
  }

  /** counter.update(symbols): each occurrence adds one, new symbols go at the end. */
  function Tally(counter: Dict<string, nat>, symbols: seq<string>): (r: Dict<string, nat>)
    decreases |symbols|
  {
    if symbols == [] then counter else Tally(Bump(counter, symbols[0]), symbols[1..])
  }

  /** counter[x] += 1 */
  function Bump(counter: Dict<string, nat>, x: string): (r: Dict<string, nat>)
  {
    Put(counter, x, Count(counter, x) + 1)
  }

  lemma BumpCount(counter: Dict<string, nat>, y: string, x: string)
    ensures Count(Bump(counter, y), x) == Count(counter, x) + (if y == x then 1 else 0)
  {
    var bumped: nat := Count(counter, y) + 1;
    var zero: nat := 0;
    GetPutOr<string, nat>(counter, y, bumped, x, zero);
    assert Bump(counter, y) == Put(counter, y, bumped);
  }

  /** The counter after the first rows; a row whose stored JSON does not decode is
      skipped. */
  function TallyRows(rows: seq<Option<seq<string>>>): Dict<string, nat>
  {
    if rows == [] then []
    else
      var c := TallyRows(rows[..|rows| - 1]);
      match rows[|rows| - 1]
      case Some(symbols) => Tally(c, symbols)
      case None => c
  }

  /** How often x occurs across the decodable rows. */
  function Occurrences(rows: seq<Option<seq<string>>>, x: string): nat
  {
    if rows == [] then 0
    else
      Occurrences(rows[..|rows| - 1], x)
      + match rows[|rows| - 1] case Some(symbols) => CountOf(symbols, x) case None => 0
  }

  lemma {:induction false} TallyCount(counter: Dict<string, nat>, symbols: seq<string>, x: string)
    ensures Count(Tally(counter, symbols), x) == Count(counter, x) + CountOf(symbols, x)
    decreases |symbols|
  {
    if symbols != [] {
      BumpCount(counter, symbols[0], x);
      TallyCount(Bump(counter, symbols[0]), symbols[1..], x);
    }
  }

  /** The counter holds, for every symbol, its number of occurrences in the rows. */
  lemma {:induction false} TallyRowsCount(rows: seq<Option<seq<string>>>, x: string)
    ensures Count(TallyRows(rows), x) == Occurrences(rows, x)
  {
    if rows != [] {
      TallyRowsCount(rows[..|rows| - 1], x);
      match rows[|rows| - 1]
      case Some(symbols) => TallyCount(TallyRows(rows[..|rows| - 1]), symbols, x);
      case None =>
    }
  }

  lemma {:induction false} TallyKeysUnique(counter: Dict<string, nat>, symbols: seq<string>)
    requires UniqueKeys(counter)
    ensures UniqueKeys(Tally(counter, symbols))
    decreases |symbols|
  {
    if symbols != [] {
      PutUnique(counter, symbols[0], Count(counter, symbols[0]) + 1);
      TallyKeysUnique(Bump(counter, symbols[0]), symbols[1..]);
    }
  }

  lemma {:induction false} TallyRowsUnique(rows: seq<Option<seq<string>>>)
    ensures UniqueKeys(TallyRows(rows))
  {
    if rows != [] {
      TallyRowsUnique(rows[..|rows| - 1]);
      match rows[|rows| - 1]
      case Some(symbols) => TallyKeysUnique(TallyRows(rows[..|rows| - 1]), symbols);
      case None =>
    }
  }

  datatype TrendEntry = TrendEntry(symbol: string, count: nat, meaning: string)

  function CountKey(e: (string, nat)): real { e.1 as real }

  const TopTrends: nat := 5

  /** counter.most_common(5): the five largest counts (all of them when there are fewer),
      largest first; every entry left out counts no more than every entry kept. */
  function MostCommon(counter: Dict<string, nat>): (r: seq<(string, nat)>)
    ensures |r| == if |counter| < TopTrends then |counter| else TopTrends
    ensures Sorting.SortedDesc(r, CountKey)
    ensures forall e :: e in r ==> e in counter
    ensures multiset(r) <= multiset(counter)
    ensures |counter| <= TopTrends ==> multiset(r) == multiset(counter)
    ensures forall x, y :: x in r && y in multiset(counter) - multiset(r) ==> x.1 >= y.1
  {
    var sorted := Sorting.SortDesc(counter, CountKey);
    Sorting.SortDescSorted(counter, CountKey);
    var r := Take(sorted, TopTrends);
    Sorting.PrefixIsTop(sorted, CountKey, |r|);
    assert |counter| <= TopTrends ==> r == sorted;
    assert forall e :: e in r ==> e in multiset(sorted);
    assert forall e :: e in multiset(counter) ==> e in counter;
    r
  }

  /** A symbol left out of the most common counts no more than any listed one, and when
      fewer than five are listed every counted symbol is listed. */
  lemma CommonTop(counter: Dict<string, nat>, x: string)
    ensures var common := MostCommon(counter);
      && (x !in Keys(common) ==> forall e :: e in common ==> Count(counter, x) <= e.1)
      && (|common| < TopTrends && Count(counter, x) > 0 ==> x in Keys(common))
  {
    CommonTopOf(counter, MostCommon(counter), x);
  }

  lemma CommonTopOf(counter: Dict<string, nat>, common: seq<(string, nat)>, x: string)
    requires |common| == if |counter| < TopTrends then |counter| else TopTrends
    requires |counter| <= TopTrends ==> multiset(common) == multiset(counter)
    requires forall x, y :: x in common && y in multiset(counter) - multiset(common) ==> x.1 >= y.1
    ensures x !in Keys(common) ==> forall e :: e in common ==> Count(counter, x) <= e.1
    ensures |common| < TopTrends && Count(counter, x) > 0 ==> x in Keys(common)
  {
    if Count(counter, x) > 0 {
      var k := Find(counter, x);
      var e := counter[k];
      assert e == (x, Count(counter, x));
      assert e in multiset(counter);
      if x !in Keys(common) {
        assert forall i :: 0 <= i < |common| ==> Keys(common)[i] == common[i].0;
        assert e !in multiset(common);
      }
      if |common| < TopTrends {
        assert e in multiset(common);
        var i :| 0 <= i < |common| && common[i] == e;
        assert Keys(common)[i] == x;
      }
    }
  }

  function Entry(db: Dict<string, string>, e: (string, nat)): TrendEntry
  {
    TrendEntry(e.0, e.1, Get(db, e.0).GetOr(""))
  }

  /** GET /api/trends over the rows stored in the last seven days: counts the symbols
      of every row, then reports the five most common with their true counts and
      meanings, largest first, and the number of rows. A symbol left out occurs no more
      often than any listed one, and fewer than five are listed only when every
      occurring symbol is. */
  method Trends(db: Dict<string, string>, rows: seq<Option<seq<string>>>) returns (top: seq<TrendEntry>, total: nat)
    ensures total == |rows|
    ensures |top| <= TopTrends
    ensures forall i :: 0 <= i < |top| ==> top[i].count == Occurrences(rows, top[i].symbol) > 0
    ensures forall i, j :: 0 <= i < j < |top| ==> top[i].symbol != top[j].symbol
    ensures forall i, j :: 0 <= i < j < |top| ==> top[i].count >= top[j].count
    ensures forall x, i :: 0 <= i < |top| && !Listed(top, x) ==> Occurrences(rows, x) <= top[i].count
    ensures |top| < TopTrends ==> forall x :: Occurrences(rows, x) > 0 ==> Listed(top, x)
    ensures forall i :: 0 <= i < |top| ==> top[i].meaning == Get(db, top[i].symbol).GetOr("")
  {
    var counter := CountRows(rows);
    var common := MostCommon(counter);
    top := Entries(db, common);
    TopEntries(rows, common, top);
    total := |rows|;
  }

  /** The response entries built from the most common symbols of the rows: their true
      counts, distinct symbols, largest first, and the top of all occurring symbols. */
  lemma TopEntries(rows: seq<Option<seq<string>>>, common: seq<(string, nat)>, top: seq<TrendEntry>)
    requires common == MostCommon(TallyRows(rows))
    requires |top| == |common|
    requires forall k :: 0 <= k < |top| ==> top[k].symbol == common[k].0 && top[k].count == common[k].1
    ensures forall i :: 0 <= i < |top| ==> top[i].count == Occurrences(rows, top[i].symbol) > 0
    ensures forall i, j :: 0 <= i < j < |top| ==> top[i].symbol != top[j].symbol
    ensures forall i, j :: 0 <= i < j < |top| ==> top[i].count >= top[j].count
    ensures forall x, i :: 0 <= i < |top| && !Listed(top, x) ==> Occurrences(rows, x) <= top[i].count
    ensures |top| < TopTrends ==> forall x :: Occurrences(rows, x) > 0 ==> Listed(top, x)
  {
    CommonCounts(rows, common);
    CommonDistinct(rows, common);
    assert forall k :: 0 <= k < |common| ==> common[k] in common;
    TrendsTop(rows, common, top);
  }

  /** The loop over the rows: each row that decodes updates the counter. */
  method CountRows(rows: seq<Option<seq<string>>>) returns (counter: Dict<string, nat>)
    ensures counter == TallyRows(rows)
  {
    counter := [];
    var n := 0;
    while n < |rows|
      invariant n <= |rows|
      invariant counter == TallyRows(rows[..n])
    {
      assert rows[..n + 1][..n] == rows[..n];
      match rows[n] {
        case Some(symbols) => counter := Tally(counter, symbols);
        case None =>
      }
      n := n + 1;
    }
    assert rows[..n] == rows;
  }

  /** The listed entries of the most common symbols are the top of all occurring ones. */
  lemma TrendsTop(rows: seq<Option<seq<string>>>, common: seq<(string, nat)>, top: seq<TrendEntry>)
    requires common == MostCommon(TallyRows(rows))
    requires |top| == |common|
    requires forall k :: 0 <= k < |top| ==> top[k].symbol == common[k].0 && top[k].count == common[k].1
    ensures forall x, i :: 0 <= i < |top| && !Listed(top, x) ==> Occurrences(rows, x) <= top[i].count
    ensures |top| < TopTrends ==> forall x :: Occurrences(rows, x) > 0 ==> Listed(top, x)
  {
    var counter := TallyRows(rows);
    forall x
      ensures !Listed(top, x) ==> forall i :: 0 <= i < |top| ==> Occurrences(rows, x) <= top[i].count
      ensures |top| < TopTrends && Occurrences(rows, x) > 0 ==> Listed(top, x)
    {
      TallyRowsCount(rows, x);
      CommonTop(counter, x);
      var c: nat := Count(counter, x);
      ListedAt(common, top, x, c);
    }
  }

  /** One symbol, counted c times, against response entries built from entries that
      list it or count at least c each: the same facts for the entries. */
  lemma ListedAt(common: seq<(string, nat)>, top: seq<TrendEntry>, x: string, c: nat)
    requires |top| == |common|
    requires forall k :: 0 <= k < |top| ==> top[k].symbol == common[k].0 && top[k].count == common[k].1
    requires x !in Keys(common) ==> forall e :: e in common ==> c <= e.1
    requires |common| < TopTrends && c > 0 ==> x in Keys(common)
    ensures !Listed(top, x) ==> forall i :: 0 <= i < |top| ==> c <= top[i].count
    ensures |top| < TopTrends && c > 0 ==> Listed(top, x)
  {
  }

  /** Whether symbol x is one of the listed trends. */
  predicate Listed(top: seq<TrendEntry>, x: string)
  {
    exists i :: 0 <= i < |top| && top[i].symbol == x
  }

  /** Every entry of the counter built from the rows holds the symbol's true count. */
  lemma CommonCounts(rows: seq<Option<seq<string>>>, common: seq<(string, nat)>)
    requires forall e :: e in common ==> e in TallyRows(rows)
    ensures forall e :: e in common ==> e.1 == Occurrences(rows, e.0)
  {
    var counter := TallyRows(rows);
    TallyRowsUnique(rows);
    forall e | e in common ensures e.1 == Occurrences(rows, e.0) {
      var k :| 0 <= k < |counter| && counter[k] == e;
      FindIs(counter, e.0, k);
      TallyRowsCount(rows, e.0);
    }
  }

  /** Entries drawn from the counter, none more often than the counter holds it, name
      different symbols, each counted at least once. */
  lemma CommonDistinct(rows: seq<Option<seq<string>>>, common: seq<(string, nat)>)
    requires forall e :: e in common ==> e in TallyRows(rows)
    requires multiset(common) <= multiset(TallyRows(rows))
    ensures forall i, j :: 0 <= i < j < |common| ==> common[i].0 != common[j].0
    ensures forall i :: 0 <= i < |common| ==> common[i].1 > 0
  {
    var counter := TallyRows(rows);
    TallyRowsUnique(rows);
    CommonCounts(rows, common);
    forall i, j | 0 <= i < j < |common| ensures common[i].0 != common[j].0 {
      if common[i].0 == common[j].0 {
        assert common[i] in counter && common[j] in counter;
        var ki :| 0 <= ki < |counter| && counter[ki] == common[i];
        var kj :| 0 <= kj < |counter| && counter[kj] == common[j];
        assert ki == kj;
        TwiceCounted(common, i, j);
        OnceEach(counter, common[i]);
        assert false;
      }
    }
    forall i | 0 <= i < |common| ensures common[i].1 > 0 {
      var e := common[i];
      assert e in common;
      var k :| 0 <= k < |counter| && counter[k] == e;
      assert Keys(counter)[k] == e.0;
      TallyRowsPositive(rows, e.0);
      TallyRowsCount(rows, e.0);
    }
  }

  /** An element at two positions is counted at least twice. */
  lemma TwiceCounted<T>(s: seq<T>, i: nat, j: nat)
    requires i < j < |s| && s[i] == s[j]
    ensures multiset(s)[s[i]] >= 2
  {
    assert s == s[..j] + s[j..];
    assert s[i] == s[..j][i];
    assert s[j] == s[j..][0];
  }

  /** With unique keys no entry occurs twice. */
  lemma {:induction false} OnceEach(d: Dict<string, nat>, e: (string, nat))
    requires UniqueKeys(d)
    ensures multiset(d)[e] <= 1
  {
    if d != [] {
      assert d == [d[0]] + d[1..];
      OnceEach(d[1..], e);
      if e == d[0] {
        assert e !in d[1..] by {
          forall k | 0 <= k < |d[1..]| ensures d[1..][k] != e {
            assert d[1..][k] == d[k + 1];
          }
        }
      }
    }
  }

  /** Every symbol of the counter was counted at least once. */
  lemma {:induction false} TallyPositive(counter: Dict<string, nat>, symbols: seq<string>, x: string)
    requires x in Keys(counter) ==> Count(counter, x) > 0
    ensures x in Keys(Tally(counter, symbols)) ==> Count(Tally(counter, symbols), x) > 0
    decreases |symbols|
  {
    if symbols != [] {
      var b := Bump(counter, symbols[0]);
      BumpCount(counter, symbols[0], x);
      assert Keys(b) == if symbols[0] in Keys(counter) then Keys(counter) else Keys(counter) + [symbols[0]];
      assert x in Keys(b) && x != symbols[0] ==> x in Keys(counter);
      TallyPositive(b, symbols[1..], x);
    }
  }

  lemma {:induction false} TallyRowsPositive(rows: seq<Option<seq<string>>>, x: string)
    ensures x in Keys(TallyRows(rows)) ==> Count(TallyRows(rows), x) > 0
  {
    if rows != [] {
      TallyRowsPositive(rows[..|rows| - 1], x);
      match rows[|rows| - 1]
      case Some(symbols) => TallyPositive(TallyRows(rows[..|rows| - 1]), symbols, x);
      case None =>
    }
  }

  /** The response entries of the most common symbols, in order, with their meanings. */
  method Entries(db: Dict<string, string>, common: seq<(string, nat)>) returns (top: seq<TrendEntry>)
    ensures |top| == |common|
    ensures forall k :: 0 <= k < |top| ==> top[k] == TrendEntry(common[k].0, common[k].1, Get(db, common[k].0).GetOr(""))
  {
    top := [];
    var i := 0;
    while i < |common|
      invariant i <= |common|
      invariant top == seq(i, k requires 0 <= k < i => Entry(db, common[k]))
    {
      top := top + [Entry(db, common[i])];
      i := i + 1;
    }
  }
}
