/** The request-level logic of the Emoji Story service: cleaning and validating a story
    submitted as JSON, counting share/export/play events, and capping the page sizes of
    the gallery and trending listings. The database is modelled by the values it holds. */
module EmojiStory {
  import opened Wrappers
  import opened Text
  import opened Json

  /** A validated story, as stored in the stories table. */
  datatype StoryPayload = StoryPayload(
    text: string,
    emojiSequence: string,
    language: string,
    mood: string,
    title: string,
    authorName: string,
    durationSeconds: int,
    theme: string,
    score: int)

  const TextRequired := "text alanı boş olamaz"
  const EmojiRequired := "emoji_sequence alanı boş olamaz"
  const DurationRange := "duration_seconds 5-60 arasında olmalıdır"

  /** str(payload.get(key, default)).strip() */
  function Field(p: Payload, key: string, default: string): string
  {
    Strip(Str(Get(p, key, JStr(default))))
  }

  /** int(payload.get(key, default)), with TypeError and ValueError replaced by the default. */
  function IntField(p: Payload, key: string, default: int): (r: int)
    ensures key !in p ==> r == default
    ensures key in p && ToInt(p[key]).Some? ==> r == ToInt(p[key]).value
    ensures key in p && ToInt(p[key]).None? ==> r == default
  {
    ToInt(Get(p, key, JInt(default))).GetOr(default)
  }

  /** max(lo, min(x, hi)) */
  function Clamp(x: int, lo: int, hi: int): (r: int)
    requires lo <= hi
    ensures lo <= r <= hi
    ensures lo <= x <= hi ==> r == x
    ensures x < lo ==> r == lo
    ensures x > hi ==> r == hi
  {
    if x < lo then lo else if x > hi then hi else x
  }

  /** Cleans a submitted story: strips every text field, lower-cases language, mood and
      theme, falls back to 15 seconds and score 0 when those are not integers, rejects an
      empty text, then an empty emoji sequence, then a duration outside 5..60, and
      truncates title, author and theme and clamps the score. */
  function ParseStoryPayload(p: Payload): (r: Result<StoryPayload>)
    // the checks, in the order they are made
    ensures Field(p, "text", "") == [] ==> r == Err(TextRequired)
    ensures Field(p, "text", "") != [] && Field(p, "emoji_sequence", "") == [] ==> r == Err(EmojiRequired)
    ensures (Field(p, "text", "") != [] && Field(p, "emoji_sequence", "") != []
             && !(5 <= IntField(p, "duration_seconds", 15) <= 60)) ==> r == Err(DurationRange)
    ensures r.Ok? <==> Field(p, "text", "") != [] && Field(p, "emoji_sequence", "") != []
                       && 5 <= IntField(p, "duration_seconds", 15) <= 60
    // what an accepted story holds
    ensures r.Ok? ==> r.value.text == Field(p, "text", "") && r.value.text != []
    ensures r.Ok? ==> r.value.emojiSequence == Field(p, "emoji_sequence", "")
    ensures r.Ok? ==> r.value.language == Lower(Field(p, "language", "tr"))
    ensures r.Ok? ==> r.value.mood == Lower(Field(p, "mood", "funny"))
    ensures r.Ok? ==> |r.value.title| <= 80 && r.value.title <= Field(p, "title", "Emoji Story")
    ensures r.Ok? && |Field(p, "title", "Emoji Story")| <= 80 ==> r.value.title == Field(p, "title", "Emoji Story")
    ensures r.Ok? ==> |r.value.authorName| <= 50 && r.value.authorName <= Field(p, "author_name", "Anonim")
    ensures r.Ok? && |Field(p, "author_name", "Anonim")| <= 50 ==> r.value.authorName == Field(p, "author_name", "Anonim")
    ensures r.Ok? ==> |r.value.theme| <= 40 && r.value.theme <= Lower(Field(p, "theme", "cinematic"))
    ensures r.Ok? && |Field(p, "theme", "cinematic")| <= 40 ==> r.value.theme == Lower(Field(p, "theme", "cinematic"))
    ensures r.Ok? ==> 5 <= r.value.durationSeconds <= 60 && r.value.durationSeconds == IntField(p, "duration_seconds", 15)
    ensures r.Ok? ==> 0 <= r.value.score <= 10000
    ensures r.Ok? && 0 <= IntField(p, "score", 0) <= 10000 ==> r.value.score == IntField(p, "score", 0)
  {
    Validate(Extract(p))
  }

  /** The cleaned fields, before any check: stripped, lower-cased where the handler
      lower-cases, integers with their fallbacks applied. */
  function Extract(p: Payload): (c: StoryPayload)
    ensures c.text == Field(p, "text", "") && c.emojiSequence == Field(p, "emoji_sequence", "")
    ensures c.language == Lower(Field(p, "language", "tr")) && c.mood == Lower(Field(p, "mood", "funny"))
    ensures c.title == Field(p, "title", "Emoji Story") && c.authorName == Field(p, "author_name", "Anonim")
    ensures c.theme == Lower(Field(p, "theme", "cinematic"))
    ensures c.durationSeconds == IntField(p, "duration_seconds", 15) && c.score == IntField(p, "score", 0)
  {
    StoryPayload(Field(p, "text", ""), Field(p, "emoji_sequence", ""), Lower(Field(p, "language", "tr")),
                 Lower(Field(p, "mood", "funny")), Field(p, "title", "Emoji Story"),
                 Field(p, "author_name", "Anonim"), IntField(p, "duration_seconds", 15),
                 Lower(Field(p, "theme", "cinematic")), IntField(p, "score", 0))
  }

  /** The checks and the final truncations and clamp, on cleaned fields. */
  function Validate(c: StoryPayload): (r: Result<StoryPayload>)
    ensures c.text == [] ==> r == Err(TextRequired)
    ensures c.text != [] && c.emojiSequence == [] ==> r == Err(EmojiRequired)
    ensures (c.text != [] && c.emojiSequence != [] && !(5 <= c.durationSeconds <= 60)) ==> r == Err(DurationRange)
    ensures r.Ok? <==> c.text != [] && c.emojiSequence != [] && 5 <= c.durationSeconds <= 60
    ensures r.Ok? ==> r.value == c.(title := Take(c.title, 80), authorName := Take(c.authorName, 50),
                                    theme := Take(c.theme, 40), score := Clamp(c.score, 0, 10000))
  {
    if c.text == [] then Err(TextRequired)
    else if c.emojiSequence == [] then Err(EmojiRequired)
    else if c.durationSeconds < 5 || c.durationSeconds > 60 then Err(DurationRange)
    else Ok(c.(title := Take(c.title, 80), authorName := Take(c.authorName, 50),
               theme := Take(c.theme, 40), score := Clamp(c.score, 0, 10000)))
  }

  /** The fields of a story need no further cleaning. */
  predicate CleanStory(s: StoryPayload)
  {
    Trimmed(s.text) && s.text != [] && Trimmed(s.emojiSequence) && s.emojiSequence != []
    && Trimmed(s.language) && LowerFixed(s.language) && Trimmed(s.mood) && LowerFixed(s.mood)
    && Trimmed(s.title) && |s.title| <= 80 && Trimmed(s.authorName) && |s.authorName| <= 50
    && Trimmed(s.theme) && LowerFixed(s.theme) && |s.theme| <= 40
    && 5 <= s.durationSeconds <= 60 && 0 <= s.score <= 10000
  }

  /** The request body that stores `s` as JSON strings and integers. */
  predicate Carries(p: Payload, s: StoryPayload)
  {
    "text" in p && p["text"] == JStr(s.text)
    && "emoji_sequence" in p && p["emoji_sequence"] == JStr(s.emojiSequence)
    && "language" in p && p["language"] == JStr(s.language)
    && "mood" in p && p["mood"] == JStr(s.mood)
    && "title" in p && p["title"] == JStr(s.title)
    && "author_name" in p && p["author_name"] == JStr(s.authorName)
    && "theme" in p && p["theme"] == JStr(s.theme)
    && "duration_seconds" in p && p["duration_seconds"] == JInt(s.durationSeconds)
    && "score" in p && p["score"] == JInt(s.score)
  }

  /** Parsing is idempotent on stored stories: a payload carrying a story whose fields are
      already clean parses back to exactly that story. */
  lemma ParseCleanStoryUnchanged(p: Payload, s: StoryPayload)
    requires Carries(p, s) && CleanStory(s)
    ensures ParseStoryPayload(p) == Ok(s)
  {
    ExtractClean(p, s);
  }

  lemma ExtractClean(p: Payload, s: StoryPayload)
    requires Carries(p, s) && CleanStory(s)
    ensures Extract(p) == s
  {
    var c := Extract(p);
    CleanField(p, "text", "", s.text);
    CleanField(p, "emoji_sequence", "", s.emojiSequence);
    CleanField(p, "title", "Emoji Story", s.title);
    CleanField(p, "author_name", "Anonim", s.authorName);
    CleanLowerField(p, "language", "tr", s.language);
    CleanLowerField(p, "mood", "funny", s.mood);
    CleanLowerField(p, "theme", "cinematic", s.theme);
    assert c.durationSeconds == s.durationSeconds && c.score == s.score;
  }

  lemma CleanField(p: Payload, key: string, default: string, v: string)
    requires key in p && p[key] == JStr(v) && Trimmed(v)
    ensures Field(p, key, default) == v
  {
    StripTrimmed(v);
  }

  lemma CleanLowerField(p: Payload, key: string, default: string, v: string)
    requires key in p && p[key] == JStr(v) && Trimmed(v) && LowerFixed(v)
    ensures Lower(Field(p, key, default)) == v
  {
    CleanField(p, key, default, v);
  }

  /** The interaction counters of one story. */
  datatype Counters = Counters(shares: nat, exports: nat, plays: nat)

  datatype Counter = Shares | Exports | Plays

  /** The event names that have a counter column. */
  function CounterFor(eventName: string): (r: Option<Counter>)
    ensures r == Some(Shares) <==> eventName == "share"
    ensures r == Some(Exports) <==> eventName == "export"
    ensures r == Some(Plays) <==> eventName == "play"
  {
    if eventName == "share" then Some(Shares)
    else if eventName == "export" then Some(Exports)
    else if eventName == "play" then Some(Plays)
    else None
  }

  function Bump(c: Counters, k: Counter): Counters
  {
    match k
    case Shares => c.(shares := c.shares + 1)
    case Exports => c.(exports := c.exports + 1)
    case Plays => c.(plays := c.plays + 1)
  }

  /** The cleaned event name: str(payload.get("event_name", "unknown")).strip().lower(). */
  function EventName(p: Payload): string
  {
    Lower(Field(p, "event_name", "unknown"))
  }

  /** Logs an event with the cleaned name `name` against a story (None when the story
      does not exist): an empty name is refused before the story is looked up, a missing
      story is refused next, and a known event bumps exactly its own counter. */
  function LogStoryEvent(name: string, story: Option<Counters>): (r: Result<Counters>)
    ensures name == [] ==> r == Err("event_name required")
    ensures name != [] && story.None? ==> r == Err("story not found")
    ensures r.Ok? <==> name != [] && story.Some?
    ensures r.Ok? && name == "share" ==> r.value == story.value.(shares := story.value.shares + 1)
    ensures r.Ok? && name == "export" ==> r.value == story.value.(exports := story.value.exports + 1)
    ensures r.Ok? && name == "play" ==> r.value == story.value.(plays := story.value.plays + 1)
    ensures r.Ok? && CounterFor(name).None? ==> r.value == story.value
  {
    if name == [] then Err("event_name required")
    else if story.None? then Err("story not found")
    else match CounterFor(name)
      case Some(k) => Ok(Bump(story.value, k))
      case None => Ok(story.value)
  }

  /** The trending weight of a story. */
  function TrendScore(score: int, c: Counters): int
  {
    score * 2 + c.shares * 4 + c.exports * 3 + c.plays
  }

  /** A logged event raises the trending weight by 4 for a share, 3 for an export, 1 for a
      play and 0 for any other name, and raises the counter total by at most one. */
  lemma LogEventTrendIncrease(name: string, score: int, story: Counters)
    requires name != []
    ensures var after := LogStoryEvent(name, Some(story)).value;
      TrendScore(score, after) - TrendScore(score, story)
        == (if name == "share" then 4 else if name == "export" then 3
            else if name == "play" then 1 else 0)
  {
  }

  /** int(request.args.get("limit", default)) capped at `cap`; a value that is not an
      integer makes int() raise, which the handler does not catch (None here). */
  function CappedLimit(arg: Option<string>, default: int, cap: int): (r: Option<int>)
    ensures arg.None? ==> r == Some(if default < cap then default else cap)
    ensures arg.Some? ==> (r.Some? <==> ParseInt(Strip(arg.value)).Some?)
    ensures r.Some? ==> r.value <= cap
    ensures arg.Some? && r.Some? && ParseInt(Strip(arg.value)).value <= cap ==> r.value == ParseInt(Strip(arg.value)).value
  {
    var raw := if arg.None? then Some(default) else ParseInt(Strip(arg.value));
    match raw
    case None => None
    case Some(v) => Some(if v < cap then v else cap)
  }

  /** The gallery listing's LIMIT value: default 20, never above 100. A negative value
      passes through unchanged, and SQLite reads a negative LIMIT as no limit. */
  function ListLimit(arg: Option<string>): (r: Option<int>)
    ensures r.Some? ==> r.value <= 100
    ensures arg.None? ==> r == Some(20)
  {
    CappedLimit(arg, 20, 100)
  }

  /** The trending listing's LIMIT value: default 10, never above 50. A negative value
      passes through unchanged, and SQLite reads a negative LIMIT as no limit. */
  function TrendingLimit(arg: Option<string>): (r: Option<int>)
    ensures r.Some? ==> r.value <= 50
    ensures arg.None? ==> r == Some(10)
  {
    CappedLimit(arg, 10, 50)
  }

  /** ?limit=-1 is below both caps, so it reaches the query unchanged. */
  lemma NegativeLimitPassesThrough()
    ensures ListLimit(Some("-1")) == Some(-1)
    ensures TrendingLimit(Some("-1")) == Some(-1)
  {
    var s := "-1";
    assert !IsSpace(s[0]) && !IsSpace(s[1]);
    var l := StripLeft(s);
    assert |l| == 2;
    var t := StripRight(l);
    assert |t| == 2;
    assert Strip(s) == s;
    assert !IsDigit(s[0]) && s[1..] == "1";
    assert DecimalValue("1") == 1;
  }
}
