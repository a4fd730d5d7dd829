/** The "talk to yourself at another age" server: the persona for an age, the canned
    reply used when no language model answers, the interest score stored with each
    dialogue, and the pivot analysis. The language-model answer and the random draws
    are parameters; of the database writes only the values that make them fail are
    modelled. */
module TimeTravel {
  import opened Wrappers
  import opened Text
  import Json
  import Sorting

  datatype Persona = Persona(tone: string, focus: string)

  /** PERSONAS: the four ages with a hand-written persona. */
  const Personas: map<int, Persona> := map[
    5 := Persona("masum, oyunbaz, meraklı", "oyun, aile, güven"),
    15 := Persona("asi, duygusal, kimlik arayışında", "arkadaşlar, özgürlük, sınırlar"),
    30 := Persona("kariyer odaklı, pragmatik", "iş, ilişki, hedefler"),
    60 := Persona("bilge, nostaljik, sakin", "anlam, sağlık, miras")
  ]

  /** The personas of the five age bands, youngest first. */
  const BandPersonas := [
    Persona("çocuksu, hayalperest", "eğlence, güven"),
    Persona("enerjik, sorgulayıcı", "kimlik, arkadaşlar"),
    Persona("hedef odaklı", "kariyer, denge"),
    Persona("olgun, mentorvari", "sürdürülebilirlik"),
    Persona("bilge, yavaş ve derin", "huzur, miras")
  ]

  /** The lower bounds of the second to fifth bands. */
  const BandStarts := [10, 20, 40, 55]

  /** How many band starts an age has reached: the index of its band. */
  function BandIndex(starts: seq<int>, age: int): (k: nat)
    ensures k <= |starts|
  {
    if starts == [] then 0
    else (if starts[0] <= age then 1 else 0) + BandIndex(starts[1..], age)
  }

  /** An older age never falls in a younger band. */
  lemma {:induction false} BandIndexMonotonic(starts: seq<int>, a: int, b: int)
    requires a <= b
    ensures BandIndex(starts, a) <= BandIndex(starts, b)
  {
    if starts != [] {
      BandIndexMonotonic(starts[1..], a, b);
    }
  }

  /** get_persona: the hand-written persona for ages 5, 15, 30 and 60; otherwise the
      first of the bands below 10, below 20, below 40 and below 55 that the age falls
      in, else the oldest band. */
  function GetPersona(age: int): (p: Persona)
    ensures age in Personas ==> p == Personas[age]
    ensures age !in Personas ==> p == BandPersonas[BandIndex(BandStarts, age)]
  {
    BandOfStarts(age);
    if age in Personas then Personas[age]
    else if age < 10 then BandPersonas[0]
    else if age < 20 then BandPersonas[1]
    else if age < 40 then BandPersonas[2]
    else if age < 55 then BandPersonas[3]
    else BandPersonas[4]
  }

  lemma BandOfStarts(age: int)
    ensures BandIndex(BandStarts, age) == if age < 10 then 0 else if age < 20 then 1 else if age < 40 then 2
                                          else if age < 55 then 3 else 4
  {
    var e1, e2, e3 := BandStarts[1..], BandStarts[2..], BandStarts[3..];
    assert e1[1..] == e2 && e2[1..] == e3 && e3[1..] == [];
    assert BandIndex(e3, age) == if age < 55 then 0 else 1;
    assert BandIndex(e2, age) == if age < 40 then 0 else if age < 55 then 1 else 2;
    assert BandIndex(e1, age) == if age < 20 then 0 else if age < 40 then 1 else if age < 55 then 2 else 3;
  }

  /** The hand-written personas override their bands: none of the four equals the
      persona its band would give. */
  lemma ExactAgesOverride(age: int)
    requires age in Personas
    ensures GetPersona(age) != BandPersonas[BandIndex(BandStarts, age)]
  {
    assert age == 5 || age == 15 || age == 30 || age == 60;
    assert BandPersonas[0].tone != Personas[5].tone;
  }

  // ---------------------------------------------------------------- replies

  const QuoteLength: nat := 80

  /** The three sentences of the canned reply. */
  function Seeds(age: int, mood: string, message: string): (s: seq<string>)
    ensures |s| == 3
  {
    var persona := GetPersona(age);
    [IntToDecimal(age) + " yaşındaki ben olarak söylüyorum: " + mood + " hissetmen çok anlaşılır.",
     "Şu anki odak alanım " + persona.focus + ". Küçük bir adım at: bugün 15 dakikalık mini bir aksiyon seç.",
     "Mesajındaki ana tema '" + Take(message, QuoteLength) + "' bana bir pivot anını hatırlatıyor."]
  }

  /** fallback_reply: the three sentences joined by single spaces. It opens with the
      age, and the message appears in it only through its first 80 characters. */
  function FallbackReply(age: int, mood: string, message: string): (r: string)
    ensures StartsWith(r, IntToDecimal(age))
    ensures Contains(r, Take(message, QuoteLength))
  {
    var s := Seeds(age, mood, message);
    ReplyShape(IntToDecimal(age), " yaşındaki ben olarak söylüyorum: ", mood, " hissetmen çok anlaşılır.",
               s[1], "Mesajındaki ana tema '", Take(message, QuoteLength), "' bana bir pivot anını hatırlatıyor.");
    s[0] + " " + (s[1] + " " + s[2])
  }

  /** The shape of the reply: it starts with the first sentence's leading part and
      contains the quoted part of the third. */
  lemma ReplyShape(head: string, l1: string, mood: string, l2: string, second: string, l3: string,
                   quote: string, l4: string)
    ensures var r := head + l1 + mood + l2 + " " + (second + " " + (l3 + quote + l4));
      StartsWith(r, head) && Contains(r, quote)
  {
    var r := head + l1 + mood + l2 + " " + (second + " " + (l3 + quote + l4));
    var before := head + l1 + mood + l2 + " " + second + " " + l3;
    assert r == head + (l1 + mood + l2 + " " + (second + " " + (l3 + quote + l4)));
    StartsWithConcat(head, l1 + mood + l2 + " " + (second + " " + (l3 + quote + l4)));
    assert r == before + quote + l4;
    ContainsMiddle(before, quote, l4);
  }

  /** The reply is the seeds joined with " ". */
  lemma FallbackIsJoin(age: int, mood: string, message: string)
    ensures FallbackReply(age, mood, message) == Join(Seeds(age, mood, message), " ")
  {
    JoinThree(Seeds(age, mood, message), " ");
  }

  /** Two messages that agree on their first 80 characters get the same reply. */
  lemma FallbackIgnoresTail(age: int, mood: string, m1: string, m2: string)
    requires Take(m1, QuoteLength) == Take(m2, QuoteLength)
    ensures FallbackReply(age, mood, m1) == FallbackReply(age, mood, m2)
  {
    assert Seeds(age, mood, m1) == Seeds(age, mood, m2);
  }

  // ---------------------------------------------------------------- interest score

  /** The distinct words of a text, after lower-casing. */
  function DistinctWords(text: string): set<string>
  {
    set w | w in Words(Lower(text))
  }

  /** save_dialogue's score: eight points per distinct lower-cased word plus a draw
      from random.randint(5, 30), capped at 100. */
  function InterestingScore(text: string, draw: int): (score: int)
    requires 5 <= draw <= 30
    ensures 5 <= score <= 100
    ensures score <= |DistinctWords(text)| * 8 + draw
    ensures score == 100 || score == |DistinctWords(text)| * 8 + draw
  {
    var n := |DistinctWords(text)| * 8 + draw;
    if n < 100 then n else 100
  }

  /** A text with more distinct words never scores lower for the same draw. */
  lemma ScoreMonotonic(t1: string, t2: string, draw: int)
    requires 5 <= draw <= 30
    requires |DistinctWords(t1)| <= |DistinctWords(t2)|
    ensures InterestingScore(t1, draw) <= InterestingScore(t2, draw)
  {
  }

  // ---------------------------------------------------------------- chat

  const ServerError := "Internal Server Error"
  const DefaultAge: int := 30

  datatype ChatReply = ChatReply(reply: string, persona: Persona, score: int)

  /** chat: the age (default 30) must convert with int(), the message must be a string,
      and the age and the mood must be values the database can store (not a list, an
      object or an integer beyond 64 bits), or the handler fails; a null mood fails too,
      at the insert, because the mood column is NOT NULL. The reply is the model's answer, or the canned reply when there
      is none. */
  function Chat(p: Json.Payload, modelReply: Option<string>, draw: int): (r: Result<ChatReply>)
    requires 5 <= draw <= 30
    ensures r.Err? <==> Json.ToInt(Json.Get(p, "age", Json.JInt(DefaultAge))).None?
                        || !Json.Get(p, "message", Json.JStr("")).JStr?
                        || !Json.FitsInt64(Json.ToInt(Json.Get(p, "age", Json.JInt(DefaultAge))).value)
                        || !Json.Bindable(Json.Get(p, "mood", Json.JStr("neutral")))
                        || Json.Get(p, "mood", Json.JStr("neutral")).JNull?
    ensures r.Ok? ==> var age := Json.ToInt(Json.Get(p, "age", Json.JInt(DefaultAge))).value;
                      var message := Json.Get(p, "message", Json.JStr("")).s;
                      && r.value.persona == GetPersona(age)
                      && 5 <= r.value.score <= 100
                      && (modelReply.Some? ==> r.value.reply == modelReply.value)
                      && (modelReply.None? ==>
                            r.value.reply == FallbackReply(age, Json.Str(Json.Get(p, "mood", Json.JStr("neutral"))), message))
  {
    var age := Json.ToInt(Json.Get(p, "age", Json.JInt(DefaultAge)));
    var message := Json.Get(p, "message", Json.JStr(""));
    var moodValue := Json.Get(p, "mood", Json.JStr("neutral"));
    if age.None? || !message.JStr? || !Json.FitsInt64(age.value) || !Json.Bindable(moodValue) || moodValue.JNull? then
      Err(ServerError)
    else
      var mood := Json.Str(moodValue);
      var reply := if modelReply.Some? then modelReply.value else FallbackReply(age.value, mood, message.s);
      Ok(ChatReply(reply, GetPersona(age.value), InterestingScore(message.s, draw)))
  }

  // ---------------------------------------------------------------- pivots

  datatype Pivot = Pivot(title: string, impact: int, age: int)

  function Impact(p: Pivot): real { p.impact as real }

  /** The three pivots with their drawn impacts, in the handler's order. */
  function Pivots(d1: int, d2: int, d3: int): seq<Pivot>
  {
    [Pivot("Eğitim Yolu", d1, 18), Pivot("İlk Büyük Kariyer Kararı", d2, 25),
     Pivot("İlişki / Aile Dengesi", d3, 33)]
  }

  const DefaultCorrelation: real := 0.67

  const MoodCorrelations: map<string, real> := map["happy" := 0.78, "anxious" := 0.64,
                                                   "motivated" := 0.81, "sad" := 0.52]

  /** The mood correlation: the table's value, 0.67 for any other mood, and no value
      (the dict lookup raises) for a list or object, which cannot be a dict key. */
  function MoodCorrelation(mood: Json.Json): (c: Option<real>)
    ensures mood.JList? || mood.JObject? <==> c.None?
    ensures mood.JStr? && mood.s !in MoodCorrelations ==> c == Some(DefaultCorrelation)
    ensures c.Some? ==> 0.5 < c.value < 0.85
  {
    if mood.JList? || mood.JObject? then None
    else if mood.JStr? && mood.s in MoodCorrelations then Some(MoodCorrelations[mood.s])
    else Some(DefaultCorrelation)
  }

  datatype PivotAnalysis = PivotAnalysis(age: int, correlation: real, pivots: seq<Pivot>, paradoxRisk: real)

  /** The three pivots sorted by impact: a rearrangement of them, highest impact
      first, the first impact within the range of the draws. */
  lemma SortedPivots(d1: int, d2: int, d3: int)
    requires 60 <= d1 <= 95 && 55 <= d2 <= 92 && 50 <= d3 <= 90
    ensures var sorted := Sorting.SortDesc(Pivots(d1, d2, d3), Impact);
            && |sorted| == 3
            && multiset(sorted) == multiset(Pivots(d1, d2, d3))
            && Sorting.SortedDesc(sorted, Impact)
            && 50 <= sorted[0].impact <= 95
  {
    var pivots := Pivots(d1, d2, d3);
    var sorted := Sorting.SortDesc(pivots, Impact);
    Sorting.SortDescSorted(pivots, Impact);
    assert sorted[0] in multiset(pivots);
    assert sorted[0] in pivots;
  }

  /** The paradox risk before rounding: (1 - correlation) times the uniform draw. */
  function ParadoxRisk(correlation: real, u: real): (risk: real)
    requires 0.5 < correlation < 0.85 && 0.2 <= u <= 0.8
    ensures 0.0 < risk < 0.4
  {
    var spread := 1.0 - correlation;
    assert 0.15 < spread < 0.5;
    assert spread * u <= spread * 0.8 < 0.5 * 0.8;
    assert spread * u >= spread * 0.2 > 0.0;
    (1.0 - correlation) * u
  }

  /** pivot_analysis: the three pivots sorted by impact, highest first (the draws are
      random.randint(60, 95), (55, 92) and (50, 90)); the paradox risk is
      (1 - correlation) times a draw from random.uniform(0.2, 0.8), before rounding. */
  function PivotAnalysisOf(p: Json.Payload, d1: int, d2: int, d3: int, u: real): (r: Result<PivotAnalysis>)
    requires 60 <= d1 <= 95 && 55 <= d2 <= 92 && 50 <= d3 <= 90 && 0.2 <= u <= 0.8
    ensures r.Err? <==> MoodCorrelation(Json.Get(p, "mood", Json.JStr("neutral"))).None?
                        || Json.ToInt(Json.Get(p, "age", Json.JInt(DefaultAge))).None?
    ensures r.Ok? ==> && |r.value.pivots| == 3
                      && multiset(r.value.pivots) == multiset(Pivots(d1, d2, d3))
                      && Sorting.SortedDesc(r.value.pivots, Impact)
                      && 50 <= r.value.pivots[0].impact <= 95
                      && 0.0 < r.value.paradoxRisk < 0.4
  {
    var corr := MoodCorrelation(Json.Get(p, "mood", Json.JStr("neutral")));
    var age := Json.ToInt(Json.Get(p, "age", Json.JInt(DefaultAge)));
    if corr.None? || age.None? then Err(ServerError)
    else
      SortedPivots(d1, d2, d3);
      Ok(PivotAnalysis(age.value, corr.value, Sorting.SortDesc(Pivots(d1, d2, d3), Impact),
                       ParadoxRisk(corr.value, u)))
  }
}
