/** The client-side test runner of the "Thought Speed Test": the HTML escaper used when
    a prompt is shown as text, and the runner state that moves through the questions. */
module BrainRunner {
  import opened Wrappers
  import opened Text
  import opened BrainTests

  predicate Special(c: char)
  {
    c == '&' || c == '<' || c == '>' || c == '\'' || c == '"'
  }

  /** The entity that replaces one character. */
  function EscapeChar(c: char): (r: string)
    ensures Special(c) ==> |r| >= 4 && r[0] == '&'
    ensures !Special(c) ==> r == [c]
  {
    match c
    case '&' => "&amp;"
    case '<' => "&lt;"
    case '>' => "&gt;"
    case '\'' => "&#39;"
    case '"' => "&quot;"
    case _ => [c]
  }

  /** escapeHtml: every & < > ' " replaced by its entity, every other character kept. The
      result holds none of < > ' " and every & in it starts an entity. */
  function EscapeHtml(s: string): (r: string)
    ensures |r| >= |s|
    ensures forall i :: 0 <= i < |r| ==> r[i] != '<' && r[i] != '>' && r[i] != '\'' && r[i] != '"'
  {
    if s == [] then [] else EscapeChar(s[0]) + EscapeHtml(s[1..])
  }

  /** Text without special characters passes through unchanged. */
  lemma {:induction false} EscapePlain(s: string)
    requires forall i :: 0 <= i < |s| ==> !Special(s[i])
    ensures EscapeHtml(s) == s
  {
    if s != [] {
      EscapePlain(s[1..]);
    }
  }

  /** The inverse: the five entities read back as their characters. */
  function UnescapeHtml(s: string): string
  {
    if s == [] then []
    else if s[0] == '&' && |s| >= 5 && s[..5] == "&amp;" then "&" + UnescapeHtml(s[5..])
    else if s[0] == '&' && |s| >= 4 && s[..4] == "&lt;" then "<" + UnescapeHtml(s[4..])
    else if s[0] == '&' && |s| >= 4 && s[..4] == "&gt;" then ">" + UnescapeHtml(s[4..])
    else if s[0] == '&' && |s| >= 5 && s[..5] == "&#39;" then "'" + UnescapeHtml(s[5..])
    else if s[0] == '&' && |s| >= 6 && s[..6] == "&quot;" then "\"" + UnescapeHtml(s[6..])
    else [s[0]] + UnescapeHtml(s[1..])
  }

  lemma UnescapeOne(c: char, t: string)
    ensures UnescapeHtml(EscapeChar(c) + t) == [c] + UnescapeHtml(t)
  {
    var e := EscapeChar(c);
    var s := e + t;
    assert s[..|e|] == e && s[|e|..] == t;
    if c == '&' {
      assert s[..5] == "&amp;";
    } else if c == '<' {
      assert s[1] == 'l' && s[..4] == "&lt;";
      assert |s| >= 5 ==> s[..5][1] == 'l';
    } else if c == '>' {
      assert s[1] == 'g' && s[..4] == "&gt;";
      assert |s| >= 5 ==> s[..5][1] == 'g';
      assert s[..4][1] == 'g';
    } else if c == '\'' {
      assert s[1] == '#' && s[..5] == "&#39;";
      assert s[..4][1] == '#';
    } else if c == '"' {
      assert s[1] == 'q' && s[..6] == "&quot;";
      assert s[..5][1] == 'q' && s[..4][1] == 'q';
    } else {
      assert s[0] == c && s[1..] == t;
    }
  }

  /** Escaping loses nothing: unescaping gives the original text back. */
  lemma {:induction false} EscapeRoundTrip(s: string)
    ensures UnescapeHtml(EscapeHtml(s)) == s
  {
    if s != [] {
      EscapeRoundTrip(s[1..]);
      UnescapeOne(s[0], EscapeHtml(s[1..]));
      assert [s[0]] + s[1..] == s;
    }
  }

  /** Trimmed and upper-cased, the typed answer equals the expected one. */
  predicate IsCorrect(answer: string, expected: string)
  {
    Upper(Strip(answer)) == Upper(Strip(expected))
  }

  /** The expected answer itself is accepted, whitespace around an answer never matters,
      and the relation is symmetric. */
  lemma IsCorrectProperties(answer: string, expected: string)
    ensures IsCorrect(expected, expected)
    ensures IsCorrect(Strip(answer), expected) == IsCorrect(answer, expected)
    ensures IsCorrect(answer, expected) == IsCorrect(expected, answer)
  {
    StripIdempotent(answer);
  }

  /** Math.max(1, now - start) */
  function ReactionMs(now: real, start: real): (r: real)
    ensures r >= 1.0 && r >= now - start
    ensures now - start >= 1.0 ==> r == now - start
  {
    if now - start > 1.0 then now - start else 1.0
  }

  datatype Lang = Tr | En

  function Toggled(lang: Lang): (r: Lang)
    ensures r != lang
  {
    if lang == Tr then En else Tr
  }

  lemma ToggleTwice(lang: Lang)
    ensures Toggled(Toggled(lang)) == lang
  {
  }

  /** What nextQuestion leads to. */
  datatype Step = Finished(metrics: Metrics) | AwaitTap | Asked(shown: string)

  /** The prompt as rendered: HTML prompts as they are, the others escaped. */
  function Shown(q: Question): (r: string)
    ensures !q.html ==> forall i :: 0 <= i < |r| ==> r[i] != '<' && r[i] != '>'
  {
    if q.html then q.prompt else EscapeHtml(q.prompt)
  }

  /** The `state` object of the runner. */
  class Runner {
    var lang: Lang
    var running: bool
    var tests: seq<Question>
    var index: nat
    var results: seq<Answer>
    var currentStart: real
    /** Whether the reaction round's green light is on. */
    var active: bool

    /** One result per answered question. Repeated events can push the index past the
        last question, as they do on the page. */
    ghost predicate Valid()
      reads this
    {
      |results| == index
    }

    /** The intended bound on top of Valid: never more answers than questions. */
    ghost predicate Bounded()
      reads this
    {
      Valid() && index <= |tests|
    }

    constructor ()
      ensures Valid() && lang == Tr && !running && tests == [] && index == 0 && results == []
    {
      lang := Tr;
      running := false;
      tests := [];
      index := 0;
      results := [];
      currentStart := 0.0;
      active := false;
    }

    /** startTest: ignored while a run is in progress; otherwise ten questions from
        difficulty 1, index 0 and no results, then the first question. */
    method StartTest(draws: seq<seq<Unit>>, now: real) returns (step: Option<Step>)
      requires Valid()
      modifies this`running, this`tests, this`index, this`results, this`currentStart, this`active
      ensures Valid()
      ensures old(running) ==>
        (running && tests == old(tests) && index == old(index) && results == old(results) && step == None
         && currentStart == old(currentStart) && active == old(active))
      ensures !old(running) ==>
        (running && index == 0 && results == [] && |tests| == 10
         && (forall i :: 0 <= i < 10 ==> tests[i] == Tests[i % 10](1 + i / 3, DrawsFor(draws, i)))
         && step == Some(Ask(tests[0])))
      ensures !old(running) && !tests[0].reactive ==> currentStart == now && active == old(active)
      ensures !old(running) && tests[0].reactive ==> currentStart == old(currentStart) && !active
    {
      if running {
        return None;
      }
      running := true;
      tests := GenerateSet(Tests, 10, 1, draws);
      index := 0;
      results := [];
      var first := NextQuestion(now);
      step := Some(first);
    }

    /** nextQuestion: past the last question the run ends with the metrics of the
        results; a reaction question waits for the light; any other question is shown and
        its clock starts. */
    method NextQuestion(now: real) returns (step: Step)
      requires Valid()
      modifies this`running, this`currentStart, this`active
      ensures Valid()
      ensures step == Next(old(this.tests), old(this.index), old(this.results))
      ensures running == (old(running) && index < |tests|)
      ensures step.Asked? ==> currentStart == now
      ensures step.AwaitTap? ==> !active
      ensures !step.Asked? ==> currentStart == old(currentStart)
      ensures !step.AwaitTap? ==> active == old(active)
    {
      if index >= |tests| {
        running := false;
        step := Finished(CalculateMetrics(results));
        return;
      }
      var q := tests[index];
      if q.reactive {
        active := false;
        step := AwaitTap;
        return;
      }
      currentStart := now;
      step := Asked(Shown(q));
    }

    /** The green light of a reaction round: from now on a tap counts, timed from now. */
    method Activate(now: real)
      modifies this`active, this`currentStart
      ensures active && currentStart == now
    {
      active := true;
      currentStart := now;
    }

    /** submitAnswer for the question q the Enter listener was attached to: one result,
        correct exactly when the trimmed, upper-cased answers agree; the index moves on by
        one. The listener stays attached, so a second Enter submits q again. */
    method SubmitAnswer(answer: string, q: Question, now: real)
      requires Valid()
      modifies this`results, this`index
      ensures Valid()
      ensures index == old(index) + 1
      ensures results == old(results) + [Answer(q.kind, IsCorrect(answer, q.answer), ReactionMs(now, currentStart),
                                               if IsCorrect(answer, q.answer) then 1.0 else 0.0)]
      ensures old(Bounded()) && old(index) < |tests| ==> Bounded()
    {
      var correct := IsCorrect(answer, q.answer);
      results := results + [Answer(q.kind, correct, ReactionMs(now, currentStart), if correct then 1.0 else 0.0)];
      index := index + 1;
    }

    /** onTap, run once: one reaction result, correct exactly when the light was already
        on; the index moves on by one. */
    method Tap(now: real)
      requires Valid()
      modifies this`results, this`index
      ensures Valid()
      ensures index == old(index) + 1
      ensures results == old(results) + [TapAnswer(active, now, currentStart)]
      ensures old(Bounded()) && old(index) < |tests| ==> Bounded()
    {
      results := results + [TapAnswer(active, now, currentStart)];
      index := index + 1;
    }

    /** A touch on the reaction button: onTap is registered once for touchstart and once
        for click, and a touch fires both, so onTap runs twice. On the last question the
        index ends one past the end and both pending nextQuestion calls finish the run. */
    method TouchTap(touchAt: real, clickAt: real)
      requires Valid()
      modifies this`results, this`index
      ensures Valid()
      ensures index == old(index) + 2
      ensures results == old(results) + [TapAnswer(active, touchAt, currentStart), TapAnswer(active, clickAt, currentStart)]
      ensures old(index) + 1 == |tests| ==> !Bounded() && Next(tests, index, results).Finished?
    {
      Tap(touchAt);
      Tap(clickAt);
    }

    /** toggleLang: tr becomes en and en becomes tr. */
    method ToggleLang()
      modifies this`lang
      ensures lang == Toggled(old(lang))
    {
      lang := Toggled(lang);
    }
  }

  /** The result onTap records. */
  function TapAnswer(active: bool, now: real, start: real): (a: Answer)
    ensures a.testType == "reaction" && a.correct == active && a.reactionMs >= 1.0
    ensures a.accuracy == (if active then 1.0 else 0.0)
  {
    Answer("reaction", active, ReactionMs(now, start), if active then 1.0 else 0.0)
  }

  function Ask(q: Question): Step
  {
    if q.reactive then AwaitTap else Asked(Shown(q))
  }

  /** The step nextQuestion takes from a given position. */
  function Next(tests: seq<Question>, index: nat, results: seq<Answer>): Step
  {
    if index >= |tests| then Finished(CalculateMetrics(results)) else Ask(tests[index])
  }

  /** A run of n questions answered in turn ends exactly after the n-th answer, and then
      with the metrics of all n answers. */
  lemma RunEnds(tests: seq<Question>, results: seq<Answer>)
    requires |results| <= |tests|
    ensures Next(tests, |results|, results).Finished? <==> |results| == |tests|
    ensures |results| == |tests| ==> Next(tests, |results|, results).metrics == CalculateMetrics(results)
  {
  }
}
