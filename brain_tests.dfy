/** The question generators of the "Thought Speed Test" client, the ten-question set built
    from them, and the metrics computed from the answers. Every Math.random() draw is a
    parameter: a real in [0, 1). */
module BrainTests {
  import opened Wrappers
  import opened Text
  import BrainSpeed
  import Reals

  /** A Math.random() draw. */
  type Unit = u: real | 0.0 <= u < 1.0

  /** randomInt(min, max): Math.floor(u * (max - min + 1)) + min. */
  function RandomInt(lo: int, hi: int, u: Unit): int
  {
    (u * (hi - lo + 1) as real).Floor + lo
  }

  /** A draw in [0, 1) lands in [lo, hi]. */
  lemma RandomIntRange(lo: int, hi: int, u: Unit)
    requires lo <= hi
    ensures lo <= RandomInt(lo, hi, u) <= hi
  {
    var n := (hi - lo + 1) as real;
    assert 0.0 <= u * n < n by {
      assert u * n <= 1.0 * n - (1.0 - u) * n;
    }
  }

  /** pick(arr): the element at Math.floor(u * arr.length). */
  function Pick<T>(arr: seq<T>, u: Unit): T
    requires arr != []
  {
    var n := |arr| as real;
    assert 0.0 <= u * n < n by {
      assert u * n <= 1.0 * n - (1.0 - u) * n;
    }
    arr[(u * n).Floor]
  }

  datatype Question = Question(prompt: string, answer: string, kind: string,
                               options: seq<string>, html: bool, reactive: bool,
                               revealMs: Option<nat>)

  function Plain(prompt: string, answer: string, kind: string): Question
  {
    Question(prompt, answer, kind, [], false, false, None)
  }

  /** The i-th draw of a question, 0 when the draws run out. */
  function Draw(us: seq<Unit>, i: nat): Unit
  {
    if i < |us| then us[i] else 0.0
  }

  /** mathTest: a + b with both operands growing with the difficulty. */
  function MathOperands(diff: int, us: seq<Unit>): (int, int)
  {
    (RandomInt(8 + diff * 2, 30 + diff * 8, Draw(us, 0)), RandomInt(4 + diff, 20 + diff * 4, Draw(us, 1)))
  }

  function MathTest(diff: int, us: seq<Unit>): Question
  {
    var (a, b) := MathOperands(diff, us);
    Plain(IntToDecimal(a) + " + " + IntToDecimal(b) + " = ?", IntToDecimal(a + b), "math")
  }

  /** The math answer is the decimal spelling of the sum. */
  lemma MathAnswer(diff: int, us: seq<Unit>)
    requires diff >= 0
    ensures var (a, b) := MathOperands(diff, us);
      a + b >= 12 && DecimalValue(MathTest(diff, us).answer) == a + b
  {
    var (a, b) := MathOperands(diff, us);
    RandomIntRange(8 + diff * 2, 30 + diff * 8, Draw(us, 0));
    RandomIntRange(4 + diff, 20 + diff * 4, Draw(us, 1));
    DecimalRoundTrip(a + b);
  }

  function PatternTest(): Question
  {
    Question("🔴 🟢 🔴 → ?", "🟢", "pattern", ["🟢", "🔴", "🔵"], false, false, None)
  }

  /** The number of digits the memory question shows: min(7, 3 + diff), and none when that
      is negative (Array.from treats a negative length as 0). */
  function MemoryLength(diff: int): nat
  {
    var n := if 7 < 3 + diff then 7 else 3 + diff;
    if n < 0 then 0 else n
  }

  function Digits(us: seq<Unit>, n: nat): (r: seq<string>)
    ensures |r| == n
    ensures forall i :: 0 <= i < n ==> |r[i]| == 1 && IsDigit(r[i][0])
  {
    if n == 0 then []
    else
      var d := RandomInt(0, 9, Draw(us, n - 1));
      var c := if 0 <= d <= 9 then d else 0;
      Digits(us, n - 1) + [NatToDecimal(c)]
  }

  /** s.replace(/ /g, '') */
  function RemoveSpaces(s: string): (r: string)
    ensures |r| <= |s|
  {
    if s == [] then [] else (if s[0] == ' ' then [] else [s[0]]) + RemoveSpaces(s[1..])
  }

  /** memoryTest: the digits shown spaced out; the answer is the same digits without the
      spaces. */
  function MemoryTest(diff: int, us: seq<Unit>): Question
  {
    var shown := Join(Digits(us, MemoryLength(diff)), " ");
    Question("Hafıza: " + shown + " (3sn sonra yaz)", RemoveSpaces(shown), "memory", [], false, false, Some(3000))
  }

  lemma {:induction false} RemoveSpacesAppend(a: string, b: string)
    ensures RemoveSpaces(a + b) == RemoveSpaces(a) + RemoveSpaces(b)
  {
    if a != [] {
      assert (a + b)[0] == a[0] && (a + b)[1..] == a[1..] + b;
      RemoveSpacesAppend(a[1..], b);
      var head: string := if a[0] == ' ' then [] else [a[0]];
      calc {
        RemoveSpaces(a + b);
        head + RemoveSpaces(a[1..] + b);
        head + (RemoveSpaces(a[1..]) + RemoveSpaces(b));
        (head + RemoveSpaces(a[1..])) + RemoveSpaces(b);
        RemoveSpaces(a) + RemoveSpaces(b);
      }
    } else {
      assert a + b == b;
    }
  }

  /** Joining single digits with spaces and removing the spaces gives the digits back. */
  lemma {:induction false} RemoveSpacesJoin(ds: seq<string>)
    requires forall i :: 0 <= i < |ds| ==> |ds[i]| == 1 && ds[i][0] != ' '
    ensures RemoveSpaces(Join(ds, " ")) == Concat(ds)
  {
    if |ds| == 1 {
      assert RemoveSpaces(ds[0]) == ds[0];
      assert Concat(ds) == ds[0] + Concat([]);
    } else if |ds| > 1 {
      RemoveSpacesJoin(ds[1..]);
      RemoveSpacesAppend(ds[0] + " ", Join(ds[1..], " "));
      RemoveSpacesAppend(ds[0], " ");
      assert RemoveSpaces(ds[0]) == ds[0];
      assert RemoveSpaces(" ") == [];
    }
  }

  /** The memory answer has one digit per digit shown: min(7, 3 + diff) of them. */
  lemma MemoryAnswer(diff: int, us: seq<Unit>)
    ensures var q := MemoryTest(diff, us);
      q.answer == Concat(Digits(us, MemoryLength(diff))) && |q.answer| == MemoryLength(diff)
      && forall i :: 0 <= i < |q.answer| ==> IsDigit(q.answer[i])
  {
    var ds := Digits(us, MemoryLength(diff));
    RemoveSpacesJoin(ds);
    ConcatDigits(ds);
  }

  lemma {:induction false} ConcatDigits(ds: seq<string>)
    requires forall i :: 0 <= i < |ds| ==> |ds[i]| == 1 && IsDigit(ds[i][0])
    ensures |Concat(ds)| == |ds| && forall i :: 0 <= i < |ds| ==> Concat(ds)[i] == ds[i][0]
  {
    if ds != [] {
      ConcatDigits(ds[1..]);
      assert Concat(ds) == ds[0] + Concat(ds[1..]);
    }
  }

  datatype StroopWord = StroopWord(text: string, color: string, answer: string)

  const StroopWords := [StroopWord("KIRMIZI", "blue", "MAVİ"), StroopWord("MAVİ", "green", "YEŞİL"),
                        StroopWord("YEŞİL", "red", "KIRMIZI")]

  /** stroopTest: the answer is the colour of the ink, not the word. */
  function StroopTest(us: seq<Unit>): Question
  {
    var w := Pick(StroopWords, Draw(us, 0));
    Question("Renk kelimesini değil, YAZI RENGİNİ seç: <span style=\"color:" + w.color + "\">" + w.text + "</span>",
             w.answer, "stroop", ["KIRMIZI", "MAVİ", "YEŞİL"], true, false, None)
  }

  /** The Stroop answer is one of the offered colours. */
  lemma StroopAnswer(us: seq<Unit>)
    ensures StroopTest(us).answer in StroopTest(us).options
    ensures exists w :: w in StroopWords && StroopTest(us).answer == w.answer && StroopTest(us).prompt[|StroopTest(us).prompt| - |w.text| - 7..] == w.text + "</span>"
  {
    var w := Pick(StroopWords, Draw(us, 0));
    var p := StroopTest(us).prompt;
    assert p[|p| - |w.text| - 7..] == w.text + "</span>";
  }

  /** sequenceTest: base, base + step, base + 2 step, and the answer base + 3 step. */
  function SequenceTerms(diff: int, us: seq<Unit>): (int, int)
  {
    (RandomInt(1, 5, Draw(us, 0)), RandomInt(1, if 2 < diff then diff else 2, Draw(us, 1)))
  }

  function SequenceTest(diff: int, us: seq<Unit>): Question
  {
    var (base, step) := SequenceTerms(diff, us);
    Plain("Sayı dizisi: " + Join([IntToDecimal(base), IntToDecimal(base + step),
                                  IntToDecimal(base + step * 2), "?"], ", "),
          IntToDecimal(base + step * 3), "sequence")
  }

  lemma SequenceAnswer(diff: int, us: seq<Unit>)
    ensures var (base, step) := SequenceTerms(diff, us);
      1 <= base <= 5 && step >= 1 && DecimalValue(SequenceTest(diff, us).answer) == base + 3 * step
  {
    var (base, step) := SequenceTerms(diff, us);
    RandomIntRange(1, 5, Draw(us, 0));
    RandomIntRange(1, if 2 < diff then diff else 2, Draw(us, 1));
    DecimalRoundTrip(base + 3 * step);
  }

  function OddOneOutTest(): Question
  {
    Plain("Farklı olan sembol? △ △ △ ⬠", "⬠", "odd")
  }

  function CompareOperands(diff: int, us: seq<Unit>): (int, int)
  {
    (RandomInt(10, 100 + diff * 50, Draw(us, 0)), RandomInt(10, 100 + diff * 50, Draw(us, 1)))
  }

  /** quickCompareTest: the answer is the larger number. */
  function QuickCompareTest(diff: int, us: seq<Unit>): Question
  {
    var (a, b) := CompareOperands(diff, us);
    Plain("Hangisi büyük? " + IntToDecimal(a) + " vs " + IntToDecimal(b),
          if a > b then IntToDecimal(a) else IntToDecimal(b), "compare")
  }

  /** The answer is the larger of the two numbers shown, and no smaller than either. */
  lemma CompareAnswer(diff: int, us: seq<Unit>)
    requires diff >= 0
    ensures var (a, b) := CompareOperands(diff, us);
      var m := if a >= b then a else b;
      QuickCompareTest(diff, us).answer == IntToDecimal(m) && m >= 10
      && DecimalValue(QuickCompareTest(diff, us).answer) == m && a <= m && b <= m
  {
    var (a, b) := CompareOperands(diff, us);
    RandomIntRange(10, 100 + diff * 50, Draw(us, 0));
    RandomIntRange(10, 100 + diff * 50, Draw(us, 1));
    DecimalRoundTrip(if a >= b then a else b);
  }

  function SpatialRotateTest(): Question
  {
    Question("2D rotasyon: ► 90° saat yönü = ?", "▼", "spatial", ["▲", "▼", "◄"], false, false, None)
  }

  /** dualTaskTest: "EVET" exactly when the drawn number is even. */
  function DualNumber(diff: int, us: seq<Unit>): int
  {
    RandomInt(3, 12 + diff, Draw(us, 1))
  }

  function DualTaskTest(diff: int, us: seq<Unit>): Question
  {
    var letter := Pick(["A", "B", "C", "D"], Draw(us, 0));
    var n := DualNumber(diff, us);
    Plain("Aynı anda çöz: " + letter + " + " + IntToDecimal(n) + " çift mi? (EVET/HAYIR)",
          if n % 2 == 0 then "EVET" else "HAYIR", "dual")
  }

  /** "EVET" exactly when the number is even, "HAYIR" otherwise. */
  lemma DualAnswer(diff: int, us: seq<Unit>)
    ensures DualTaskTest(diff, us).answer == (if DualNumber(diff, us) % 2 == 0 then "EVET" else "HAYIR")
  {
  }

  function ReactionTapTest(): Question
  {
    Question("Ekran yeşil olduğunda HEMEN dokun!", "TAP", "reaction", [], false, true, None)
  }

  const KindNames := ["math", "pattern", "memory", "stroop", "sequence", "odd", "compare",
                      "spatial", "dual", "reaction"]

  /** The `tests` array: one generator per kind, each taking the difficulty and the draws. */
  type Generator = (int, seq<Unit>) -> Question

  const Tests: seq<Generator> :=
    [(d, us) => MathTest(d, us), (d, us) => PatternTest(), (d, us) => MemoryTest(d, us),
     (d, us) => StroopTest(us), (d, us) => SequenceTest(d, us), (d, us) => OddOneOutTest(),
     (d, us) => QuickCompareTest(d, us), (d, us) => SpatialRotateTest(),
     (d, us) => DualTaskTest(d, us), (d, us) => ReactionTapTest()]

  /** tests[kind](diff) */
  function MakeQuestion(kind: nat, diff: int, us: seq<Unit>): Question
    requires kind < |Tests|
  {
    Tests[kind](diff, us)
  }

  /** Generator k produces questions of the k-th kind. */
  lemma MakeQuestionKind(kind: nat, diff: int, us: seq<Unit>)
    requires kind < |Tests|
    ensures MakeQuestion(kind, diff, us).kind == KindNames[kind]
  {
    if kind < 5 {
      assert kind == 0 || kind == 1 || kind == 2 || kind == 3 || kind == 4;
    } else {
      assert kind == 5 || kind == 6 || kind == 7 || kind == 8 || kind == 9;
    }
  }

  /** The draws of question i, none when they run out. */
  function DrawsFor(draws: seq<seq<Unit>>, i: nat): seq<Unit>
  {
    if i < |draws| then draws[i] else []
  }

  /** generateSet(rounds, difficulty): `rounds` questions, question i coming from
      tests[i mod |tests|] at the starting difficulty plus one for every three questions
      before it. */
  method GenerateSet(tests: seq<Generator>, rounds: int, difficulty: int, draws: seq<seq<Unit>>)
      returns (questions: seq<Question>)
    requires tests != []
    ensures |questions| == if rounds < 0 then 0 else rounds
    ensures forall i :: 0 <= i < |questions| ==>
      questions[i] == tests[i % |tests|](difficulty + i / 3, DrawsFor(draws, i))
  {
    questions := [];
    var diff := difficulty;
    var i := 0;
    while i < rounds
      invariant 0 <= i <= (if rounds < 0 then 0 else rounds) && |questions| == i
      invariant diff == difficulty + i / 3
      invariant forall j :: 0 <= j < i ==>
        questions[j] == tests[j % |tests|](difficulty + j / 3, DrawsFor(draws, j))
    {
      questions := questions + [tests[i % |tests|](diff, DrawsFor(draws, i))];
      ThirdStep(i);
      if (i + 1) % 3 == 0 {
        diff := diff + 1;
      }
      i := i + 1;
    }
  }

  lemma ThirdStep(i: nat)
    ensures (i + 1) / 3 == i / 3 + (if (i + 1) % 3 == 0 then 1 else 0)
  {
  }

  /** A set built from the ten standard generators cycles through the ten kinds, and
      every question's difficulty is at least the starting one. */
  lemma StandardSetKinds(questions: seq<Question>, difficulty: int, draws: seq<seq<Unit>>)
    requires forall i :: 0 <= i < |questions| ==>
      questions[i] == Tests[i % |Tests|](difficulty + i / 3, DrawsFor(draws, i))
    ensures forall i :: 0 <= i < |questions| ==> questions[i].kind == KindNames[i % 10]
  {
    forall i | 0 <= i < |questions| ensures questions[i].kind == KindNames[i % 10] {
      MakeQuestionKind(i % 10, difficulty + i / 3, DrawsFor(draws, i));
    }
  }

  // ---------------------------------------------------------------------------
  // Metrics
  // ---------------------------------------------------------------------------

  /** One entry of `state.results`: the question type, whether it was right, the reaction
      time and the per-question accuracy (1 or 0). */
  datatype Answer = Answer(testType: string, correct: bool, reactionMs: real, accuracy: real)

  datatype Metrics = Metrics(accuracy: real, avgReactionMs: real, score: real)

  function CorrectCount(results: seq<Answer>): (r: nat)
    ensures r <= |results|
  {
    if results == [] then 0 else (if results[0].correct then 1 else 0) + CorrectCount(results[1..])
  }

  function TotalReaction(results: seq<Answer>): real
  {
    if results == [] then 0.0 else results[0].reactionMs + TotalReaction(results[1..])
  }

  /** calculateMetrics: the share of correct answers, the mean reaction time (1000 ms for
      no answers), and 80 points of accuracy plus 20 of speed, the speed being clamped to
      [0, 1]. */
  function CalculateMetrics(results: seq<Answer>): (m: Metrics)
    ensures results == [] ==> m.accuracy == 0.0 && m.avgReactionMs == 1000.0
    ensures 0.0 <= m.accuracy <= 1.0
    ensures 0.0 <= m.score <= 100.0
    ensures results != [] && CorrectCount(results) == |results| ==> m.accuracy == 1.0
  {
    var n := |results|;
    var accuracy := if n > 0 then Reals.QuotientSign(CorrectCount(results) as real, n as real);
                                  CorrectCount(results) as real / n as real
                    else 0.0;
    var avg := if n > 0 then TotalReaction(results) / n as real else 1000.0;
    var raw := 1.0 - (avg - 120.0) / (1500.0 - 120.0);
    var speedNorm := if raw < 0.0 then 0.0 else if raw > 1.0 then 1.0 else raw;
    Metrics(accuracy, avg, accuracy * 80.0 + speedNorm * 20.0)
  }

  /** The client's score and the server's compute_score agree on the same accuracy and
      mean reaction time (before either rounds to two decimals). */
  lemma MetricsAgreeWithServer(results: seq<Answer>)
    ensures var m := CalculateMetrics(results);
      m.score == BrainSpeed.ComputeScore(m.accuracy, m.avgReactionMs)
  {
    var m := CalculateMetrics(results);
    var t := (m.avgReactionMs - 120.0) / (1500.0 - 120.0);
    BrainSpeed.QuotientBounds(m.avgReactionMs - 120.0, 1500.0 - 120.0);
    assert 1.0 - t < 0.0 <==> t > 1.0;
  }

  /** One more correct answer at the same reaction times never lowers the score. */
  lemma CorrectAnswerHelps(results: seq<Answer>, i: nat)
    requires i < |results| && !results[i].correct
    ensures CalculateMetrics(results).score <= CalculateMetrics(results[i := results[i].(correct := true)]).score
  {
    var fixed := results[i := results[i].(correct := true)];
    CountSet(results, i);
    ReactionSet(results, i);
    Reals.QuotientMonotonic(CorrectCount(results) as real, CorrectCount(fixed) as real, |results| as real);
  }

  lemma {:induction false} CountSet(results: seq<Answer>, i: nat)
    requires i < |results| && !results[i].correct
    ensures CorrectCount(results[i := results[i].(correct := true)]) == CorrectCount(results) + 1
  {
    var fixed := results[i := results[i].(correct := true)];
    if i > 0 {
      assert fixed[1..] == results[1..][i - 1 := results[i].(correct := true)];
      CountSet(results[1..], i - 1);
    } else {
      assert fixed[1..] == results[1..];
    }
  }

  lemma {:induction false} ReactionSet(results: seq<Answer>, i: nat)
    requires i < |results|
    ensures TotalReaction(results[i := results[i].(correct := true)]) == TotalReaction(results)
  {
    var fixed := results[i := results[i].(correct := true)];
    if i > 0 {
      assert fixed[1..] == results[1..][i - 1 := results[i].(correct := true)];
      ReactionSet(results[1..], i - 1);
    } else {
      assert fixed[1..] == results[1..];
    }
  }
}
