# LLS novelty apps — a Dafny model

This project models the deterministic logic of a collection of small novelty web apps
(Flask back ends with JavaScript front ends). Each app becomes one Dafny module:

- **Emoji Story** (`EmojiStory`, `EmojiSpeech`): cleaning and validating a submitted
  story, the share/export/play event counters and the listing page-size caps, plus the
  speech front end that turns a transcript into emoji and guards start/stop.
- **Sesini Ressam Yap** (`WavEncoding`): float samples to 16-bit PCM, the 44-byte RIFF
  WAVE header and little-endian sample writer, the merge of captured PCM chunks, and the
  18-item gallery.
- **Brain Speed** (`BrainSpeed`, `BrainTests`, `BrainRunner`): score normalisation,
  variance and the brain-type classifier; the in-memory rooms with their 4-player cap and
  waiting → running → finished status; the client's question generators, test-set
  builder and metrics; the HTML escaper and the test runner's state.
- **Mind Reader** (`MindReader`): the room registry with players and spectators, the
  thought-data updates, pairwise round scoring with `corr`, and removal on disconnect.
- **Dream AI** (`DreamAi`): symbol extraction, sentiment, archetypes, zodiac signs from
  longitudes, the fate score, the input checks of `analyze` and the trends tally.
- **Aura Scanner** (`AuraScanner`, `ChakraPanel`): normalisation, the weighted aura
  index, the chakra map, the lucky-day seed, the weekly prediction, the journal, and the
  client's chakra status list.
- **Scent AI** (`ScentAi`, `Camera`): the palette profile, weighted-note assembly, the
  cocktail clamps, recommendations and the signature-hash shape; the camera's colour
  encoder, mood and object detectors and the room scan.
- **Voice Avatar** (`VoiceAvatar`): the 55-item catalog, the list filters, trending,
  and the required-field checks of customise and marketplace upload.
- **Time Travel** (`TimeTravel`, `AgePicker`): personas by age, the offline fallback
  reply, the dialogue score, the pivot analysis, and the client's age picker.
- **Mood Recipe** (`MoodRecipe`): the mood-boost formula, the reseeding of the
  ingredient table, and the nutrient averages of a recipe.

Shared modules hold what the apps have in common: `Wrappers` (`Option`, `Result`),
`Text` (Python `strip`, case mapping of ASCII, Latin-1 and the Turkish letters, `split`, `join`, decimal printing), `Json`
(request bodies as JSON values, Python `int()` and truthiness), `Reals` (sums, clamps,
rounding), `Sorting` (stable descending sort by a key, ascending string sort) and `Dicts`
(insertion-ordered dictionaries).

Random draws (`random.*`, `Math.random`), clocks and identifiers are parameters. The
database, Socket.IO and HTTP plumbing are left out; a handler that reads or writes the
database takes the rows it reads as values and returns what it would write. The two
in-memory room stores (Brain Speed's `ROOMS`, Mind Reader's `rooms`) are classes whose
fields the handlers update, as are the speech engine, the test runner and the gallery.

## Model

| member | source | states |
|---|---|---|
| EmojiStory.ParseStoryPayload | emoji_story/app.py:121-158 | An empty stripped text is rejected first, then an empty stripped emoji sequence, then a duration outside 5..60; the result is Ok exactly when all three checks pass. An accepted story holds the stripped text and emoji sequence, lower-cased language and mood, title, author and theme that are prefixes of the cleaned inputs of length at most 80, 50 and 40 (and equal to them when short enough), the duration, and a score in [0, 10000] equal to the input when in range. |
| EmojiStory.Extract | emoji_story/app.py:123-139 | The cleaned fields: each text field stripped (language, mood and theme also lower-cased), with the defaults "", "tr", "funny", "Emoji Story", "Anonim", "cinematic", 15 and 0 for missing keys. |
| EmojiStory.IntField | emoji_story/app.py:131-139 | `int(payload.get(key, default))` with TypeError/ValueError caught: a missing key gives the default, a convertible value gives its integer, anything else gives the default. |
| EmojiStory.Validate | emoji_story/app.py:141-158 | The three checks in order with their messages; an accepted story is the cleaned one with title, author and theme truncated to 80, 50 and 40 and the score clamped. |
| EmojiStory.Clamp | emoji_story/app.py:157 | `max(lo, min(x, hi))` lies in [lo, hi], is x inside the range and the nearer bound outside it. |
| EmojiStory.ParseCleanStoryUnchanged | emoji_story/app.py:121-158 | A request body carrying an already clean story parses back to exactly that story, so parsing a stored story again changes nothing. |
| EmojiStory.CounterFor | emoji_story/app.py:280-284 | "share", "export" and "play" map to the shares, exports and plays counters, each exactly for its own name; any other name maps to none. |
| EmojiStory.LogStoryEvent | emoji_story/app.py:275-299 | An empty event name is refused before the story is looked up, a missing story is refused next; otherwise share, export and play each raise exactly their own counter by one and any other name changes no counter. |
| EmojiStory.LogEventTrendIncrease | emoji_story/app.py:294-299 | A logged event raises the trending weight `score*2 + shares*4 + exports*3 + plays` (line 321) by 4, 3, 1 or 0. |
| EmojiStory.CappedLimit | emoji_story/app.py:200 | `min(int(arg), cap)`: a missing argument gives min(default, cap); a non-integer argument fails; a result never exceeds the cap and equals the argument when it is within it. |
| EmojiStory.ListLimit | emoji_story/app.py:200 | The gallery's LIMIT value defaults to 20 and never exceeds 100; a negative value passes through, and SQLite reads it as no limit. |
| EmojiStory.TrendingLimit | emoji_story/app.py:316 | The trending LIMIT value defaults to 10 and never exceeds 50; a negative value passes through, and SQLite reads it as no limit. |
| EmojiStory.NegativeLimitPassesThrough | emoji_story/app.py:200 | `?limit=-1` gives the LIMIT value -1 on both listings, so the cap does not bound the number of rows returned. |
| EmojiSpeech.Separate | emoji_story/static/js/speech.js:65 | Every character that is not a letter, digit or whitespace becomes a space; the length and every kept character stay. |
| EmojiSpeech.TokensAreWords | emoji_story/static/js/speech.js:65 | After lower-casing, separating and dropping empty pieces, every token is a non-empty run of letters and digits. |
| EmojiSpeech.DictEmojis | emoji_story/static/js/speech.js:66-69 | The dictionary emoji of each word that has one, in word order: at most one per word and each a dictionary value. |
| EmojiSpeech.DictEmojisAppend | emoji_story/static/js/speech.js:67-69 | Looking up two word lists one after the other gives the concatenation of their emoji, so order and repeats are kept. |
| EmojiSpeech.DictEmojisEmpty | emoji_story/static/js/speech.js:67-70 | No dictionary emoji is found exactly when no word is a dictionary key. |
| EmojiSpeech.CanonicalString | emoji_story/static/js/speech.js:71-73 | The case-insensitive comparison key of a text has one character per character of the text. |
| EmojiSpeech.Fallbacks | emoji_story/static/js/speech.js:71-73 | The fallback emoji come in the order ❤️, 😱, 😂, each exactly when its case-insensitive pattern occurs in the text; there are at most three and none exactly when no pattern occurs. |
| EmojiSpeech.EmojiListCases | emoji_story/static/js/speech.js:66-74 | When some word is in the dictionary the answer is exactly the dictionary emoji (no fallback); otherwise it is the fallbacks, or 🎬✨🧠 when there are none. |
| EmojiSpeech.EmojiListNonEmpty | emoji_story/static/js/speech.js:70-76 | With a dictionary of non-empty emoji the answer is never empty. |
| EmojiSpeech.TextToEmoji | emoji_story/static/js/speech.js:64-77 | The loop that pushes each hit and then the fallbacks returns the joined emoji list. |
| EmojiSpeech.CollectHits | emoji_story/static/js/speech.js:66-68 | The loop over the words collects exactly the dictionary emoji of the words, in word order. |
| EmojiSpeech.JoinResults | emoji_story/static/js/speech.js:43-46 | The onresult loop concatenates the transcripts from `resultIndex` on. |
| EmojiSpeech.SpeechEngine.constructor | emoji_story/static/js/speech.js:25-41 | A new engine is not listening, has language tr-TR, an empty final text and has asked nothing of the recogniser. |
| EmojiSpeech.SpeechEngine.Start | emoji_story/static/js/speech.js:61 | Asks the recogniser to start only when there is one and the engine is not listening; nothing else changes. |
| EmojiSpeech.SpeechEngine.Stop | emoji_story/static/js/speech.js:62 | Asks the recogniser to stop only when there is one and the engine is listening; nothing else changes. |
| EmojiSpeech.SpeechEngine.OnStart | emoji_story/static/js/speech.js:51 | The onstart callback sets listening. |
| EmojiSpeech.SpeechEngine.OnEnd | emoji_story/static/js/speech.js:52 | The onend callback clears listening. |
| EmojiSpeech.SpeechEngine.SetLanguage | emoji_story/static/js/speech.js:56-59 | Sets the engine's language, and the recogniser's only when there is a recogniser. |
| EmojiSpeech.SpeechEngine.OnResult | emoji_story/static/js/speech.js:42-50 | The final text is the stripped concatenated transcript and the emoji reported are textToEmoji of it. |
| WavEncoding.Pcm | ses_ressam/static/script.js:89-90 | One sample: clamped to [-1, 1], scaled by 0x8000 below zero and 0x7fff otherwise and truncated; 1 and above give 32767, -1 and below give -32768, 0 gives 0, and the sign is kept except for tiny negatives that truncate to 0. |
| WavEncoding.PcmMonotonic | ses_ressam/static/script.js:89-90 | A louder input never gives a smaller sample. |
| WavEncoding.FloatTo16BitPCM | ses_ressam/static/script.js:86-93 | A fresh sample array of the same length whose element i is the converted input i. |
| WavEncoding.U16RoundTrip | ses_ressam/static/script.js:112-113 | A 16-bit field written little-endian reads back as itself. |
| WavEncoding.I16RoundTrip | ses_ressam/static/script.js:123 | A signed 16-bit sample written as two's complement, low byte first, reads back as itself. |
| WavEncoding.U32RoundTrip | ses_ressam/static/script.js:108 | A 32-bit field written little-endian reads back as the value modulo 2^32. |
| WavEncoding.WavHeader | ses_ressam/static/script.js:107-119 | The header is 44 bytes: a 12-byte RIFF header, a 24-byte format chunk and an 8-byte data header. |
| WavEncoding.WavBytes | ses_ressam/static/script.js:98 | The file for n samples is exactly 44 + 2n bytes. |
| WavEncoding.PcmBytesAppend | ses_ressam/static/script.js:121-125 | One more sample adds its two little-endian bytes at the end. |
| WavEncoding.WavHeaderLayout | ses_ressam/static/script.js:107-119 | Bytes 0-3 are "RIFF", 8-11 "WAVE", 12-15 "fmt " and 36-39 "data"; the RIFF size is 36 + 2n and the data size 2n (modulo 2^32); the format chunk holds size 16, format 1, one channel, the sample rate, byte rate 2 × rate, block align 2 and 16 bits per sample. |
| WavEncoding.WavSamplesRoundTrip | ses_ressam/static/script.js:121-125 | Sample i sits at offset 44 + 2i and reads back as itself. |
| WavEncoding.WavRoundTrip | ses_ressam/static/script.js:95-128 | Decoding the data region of an encoded file gives back exactly the samples. |
| WavEncoding.WriteAt | ses_ressam/static/script.js:103 | Writing bytes from an offset puts exactly them there and leaves every later byte as it was. |
| WavEncoding.WriteString | ses_ressam/static/script.js:101-105 | writeString stores each character of an ASCII tag as one byte. |
| WavEncoding.WriteRiffHeader | ses_ressam/static/script.js:107-109 | The first 12 bytes become the RIFF header; later bytes are untouched. |
| WavEncoding.WriteFormatChunk | ses_ressam/static/script.js:110-117 | Bytes 12-35 become the format chunk; the first 12 and the later bytes are untouched. |
| WavEncoding.WriteHeader | ses_ressam/static/script.js:107-119 | The first 44 bytes become the whole header. |
| WavEncoding.EncodeWav | ses_ressam/static/script.js:95-128 | A fresh buffer whose contents are exactly the header followed by the little-endian samples. |
| WavEncoding.WriteSamples | ses_ressam/static/script.js:121-125 | After the loop the buffer holds the untouched header followed by every sample as two little-endian bytes. |
| WavEncoding.FlattenAppend | ses_ressam/static/script.js:193-196 | A later chunk lands after everything that arrived before it. |
| WavEncoding.MergeChunks | ses_ressam/static/script.js:190-196 | The merged buffer is the concatenation of the chunks in arrival order; its length is the sum of their lengths. |
| WavEncoding.RecordingToWav | ses_ressam/static/script.js:189-199 | The fallback recording path yields a file of 44 + 2 × (total length) bytes whose decoded samples are the converted merged input. |
| WavEncoding.Gallery.constructor | ses_ressam/static/script.js:52 | The gallery starts empty. |
| WavEncoding.Gallery.Save | ses_ressam/static/script.js:51-54 | The new item goes first and only the first 18 are kept. |
| WavEncoding.GallerySaveShape | ses_ressam/static/script.js:53-54 | After a save there are between 1 and 18 items, the new one first, followed by a prefix of the older ones in order. |
| BrainSpeed.Normalize | brain_speed/app.py:127-130 | 0 when max ≤ min; otherwise always in [0, 1], 0 at or below min, 1 at or above max, and the exact fraction (value − min)/(max − min) in between. |
| BrainSpeed.NormalizeMonotonic | brain_speed/app.py:127-130 | A larger value is never normalised lower. |
| BrainSpeed.ComputeScore | brain_speed/app.py:133-137 | 80 × accuracy + 20 × (1 − normalize(ms, 120, 1500)): in [0, 100] for accuracy in [0, 1], 80 × accuracy + 20 at or below 120 ms, 80 × accuracy at or above 1500 ms. |
| BrainSpeed.ComputeScoreMonotonic | brain_speed/app.py:133-137 | A slower reaction never raises the score and a higher accuracy never lowers it. |
| BrainSpeed.Variance | brain_speed/app.py:158-162 | The population variance is 0 for an empty list and never negative. |
| BrainSpeed.VarianceConstant | brain_speed/app.py:158-162 | A list of equal values has variance 0. |
| BrainSpeed.InferBrainType | brain_speed/app.py:140-155 | Always one of the four brain types; "Dengeli Zihin" for an empty list; otherwise the fast rule (mean ms < 320 and mean accuracy > 0.7) wins, then the strategic rule (accuracy > 0.85, variance < 12000), then the creative rule (variance > 70000), each exactly when the earlier rules fail and it holds, with missing keys read as accuracy 0 and 800 ms. |
| BrainSpeed.SteadyIsNotCreative | brain_speed/app.py:147-154 | When every reaction time is the same the type is never "Yaratıcı Sentezci". |
| BrainSpeed.NameOf | brain_speed/app.py:316 | The user name is the first at most 32 characters of the input. |
| BrainSpeed.CodeFromDraws | brain_speed/app.py:475-477 | A code has one character per draw, each from A-Z0-9. |
| BrainSpeed.AllReadyFinishedMeans | brain_speed/app.py:464 | The finish check holds exactly when every ready player has finished. |
| BrainSpeed.MarkReady | brain_speed/app.py:409-410 | A present player is marked ready and nothing else changes; an absent one changes nothing. |
| BrainSpeed.MarkFinished | brain_speed/app.py:459-462 | The player's record (a ready one with score 0 when missing) gets the final score, the reaction time and the finished flag; every other record and the readiness of an existing record are unchanged. |
| BrainSpeed.Rooms.constructor | brain_speed/app.py:37-38 | No rooms and no active matches. |
| BrainSpeed.Rooms.GenRoomCode | brain_speed/app.py:474-479 | The first drawn 6-character A-Z0-9 code that is not already a room, with every earlier draw taken; none when every draw is taken. |
| BrainSpeed.Rooms.CreateRoom | brain_speed/app.py:298-307 | The new room is waiting, hosted by the user, with the host as its only, not-ready, zero-score player; no other room changes. |
| BrainSpeed.Rooms.JoinRoomHttp | brain_speed/app.py:312-330 | An unknown code gives "Room not found", a room with 4 or more players gives "Room full" for a new name, both without any change; otherwise the player is (re)entered not ready with score 0 and nothing else changes. |
| BrainSpeed.Rooms.StartMatch | brain_speed/app.py:500-524 | The room becomes running and is recorded as the new match's; an unknown room changes nothing. |
| BrainSpeed.Rooms.OnPlayerReady | brain_speed/app.py:398-416 | An unknown room is refused without change; otherwise the player is marked ready and, once at least two players are ready, the room becomes running with an active match. |
| BrainSpeed.Rooms.FinalizeMatch | brain_speed/app.py:530-559 | Without the room or an active match nothing happens; otherwise the ranking is the players sorted by score, highest first, and the room becomes finished. |
| BrainSpeed.Rooms.SetPlayers | brain_speed/app.py:459-462 | The room's player records are replaced and nothing else changes. |
| BrainSpeed.Rooms.OnFinishMatch | brain_speed/app.py:446-468 | An unknown room is refused without change; otherwise the player's record is updated and the match is finalized (room finished, ranking returned) exactly when every ready player has finished and a match is active. |
| BrainSpeed.Rooms.CloseIfDone | brain_speed/app.py:464-468 | The room is finished and the ranking returned exactly as the finalization of a room whose ready players have all finished prescribes; otherwise nothing but that room's record changes. |
| BrainSpeed.JoinKeepsCap | brain_speed/app.py:322-326 | An accepted HTTP join never takes a room past 4 players unless it already had more. |
| BrainSpeed.JoinRecord | brain_speed/app.py:326 | After a join the player is present, not ready, with score 0, and no other record changed. |
| BrainSpeed.RankingProperties | brain_speed/app.py:536-538 | The ranking is a permutation of the players sorted by score, highest first, and the winner (its first entry) has the top score. |
| BrainTests.RandomIntRange | brain_speed/static/js/tests.js:16-18 | randomInt(min, max) with a draw in [0, 1) lies in [min, max]. |
| BrainTests.MathAnswer | brain_speed/static/js/tests.js:24-28 | The math answer is the decimal spelling of a + b (at least 12). |
| BrainTests.Digits | brain_speed/static/js/tests.js:37 | The memory digits: the requested number of single decimal digits. |
| BrainTests.RemoveSpacesAppend | brain_speed/static/js/tests.js:38 | Removing spaces distributes over concatenation. |
| BrainTests.RemoveSpacesJoin | brain_speed/static/js/tests.js:37-38 | Joining single characters with spaces and removing the spaces gives their concatenation. |
| BrainTests.MemoryAnswer | brain_speed/static/js/tests.js:35-39 | The memory answer is the shown digits without spaces: min(7, 3 + diff) decimal digits. |
| BrainTests.StroopAnswer | brain_speed/static/js/tests.js:41-45 | The Stroop answer is among the offered options and is the ink colour of the word shown. |
| BrainTests.SequenceAnswer | brain_speed/static/js/tests.js:47-52 | base is in [1, 5], step ≥ 1, and the answer is the decimal spelling of base + 3 × step. |
| BrainTests.CompareAnswer | brain_speed/static/js/tests.js:59-63 | The compare answer is the decimal spelling of max(a, b), which is at least 10 and no smaller than either number. |
| BrainTests.DualAnswer | brain_speed/static/js/tests.js:69-73 | "EVET" exactly when the drawn number is even, "HAYIR" otherwise. |
| BrainTests.MakeQuestionKind | brain_speed/static/js/tests.js:3-14 | Generator k of the tests array yields questions of the k-th type. |
| BrainTests.GenerateSet | brain_speed/static/js/tests.js:79-87 | Exactly `rounds` items (none for a negative count); item i comes from tests[i mod 10] at the initial difficulty plus ⌊i/3⌋. |
| BrainTests.StandardSetKinds | brain_speed/static/js/tests.js:79-87 | A standard set cycles through the ten question types in order. |
| BrainTests.CorrectCount | brain_speed/static/js/tests.js:90 | The number of correct results is at most the number of results. |
| BrainTests.CalculateMetrics | brain_speed/static/js/tests.js:89-96 | No results give accuracy 0 and mean 1000 ms; accuracy is always in [0, 1] (1 when every answer is right) and the score in [0, 100]. |
| BrainTests.MetricsAgreeWithServer | brain_speed/static/js/tests.js:93-94 | The client's score equals the server's compute_score of the same accuracy and mean reaction time (before rounding). |
| BrainTests.CorrectAnswerHelps | brain_speed/static/js/tests.js:89-95 | Turning one wrong answer into a right one, at the same reaction times, never lowers the score. |
| BrainRunner.EscapeChar | brain_speed/static/js/main.js:274 | Each of & < > ' " becomes an entity starting with &, every other character stays itself. |
| BrainRunner.EscapeHtml | brain_speed/static/js/main.js:273-275 | The escaped text is no shorter than the input and contains none of < > ' ". |
| BrainRunner.EscapePlain | brain_speed/static/js/main.js:273-275 | Text without special characters passes through unchanged. |
| BrainRunner.EscapeRoundTrip | brain_speed/static/js/main.js:273-275 | Reading the five entities back gives the original text, so escaping loses nothing. |
| BrainRunner.IsCorrectProperties | brain_speed/static/js/main.js:131-133 | The expected answer is accepted, surrounding whitespace never matters, and the comparison is symmetric. |
| BrainRunner.ReactionMs | brain_speed/static/js/main.js:130 | The reaction time is at least 1 and equals the elapsed time whenever that is at least 1. |
| BrainRunner.ToggleTwice | brain_speed/static/js/main.js:188 | Toggling the language twice restores it. |
| BrainRunner.Shown | brain_speed/static/js/main.js:76 | A non-HTML prompt is shown escaped, with no < or >. |
| BrainRunner.Runner.constructor | brain_speed/static/js/main.js:2-11 | Language tr, not running, no tests, index 0, no results. |
| BrainRunner.Runner.StartTest | brain_speed/static/js/main.js:58-65 | Ignored while running, which leaves every field (questions, index, results, question clock, tap flag) as it was; otherwise running with ten questions generated from difficulty 1, index 0, no results, and the first question asked: a reaction question clears the tap flag and keeps the clock, any other starts the clock and keeps the flag. |
| BrainRunner.Runner.NextQuestion | brain_speed/static/js/main.js:67-99 | At or past the last question (the index can overshoot after repeated events) the run stops with the metrics of the results; a reaction question waits for the light with the tap flag cleared; any other question is shown and its clock starts; the clock changes only when a question is shown and the flag only when a reaction question waits. |
| BrainRunner.Runner.Activate | brain_speed/static/js/main.js:120-122 | The reaction light turns on and the clock starts. |
| BrainRunner.Runner.SubmitAnswer | brain_speed/static/js/main.js:88-91 | For the question the Enter listener was attached to, at any index (a second Enter submits the same question again): appends exactly one result, correct exactly when the trimmed, upper-cased answers agree, and advances the index by one; from below the last question it keeps at most one result per question. |
| BrainRunner.Runner.Tap | brain_speed/static/js/main.js:108-114 | One run of onTap at any index: appends exactly one reaction result, correct exactly when the light was on, and advances the index by one; from below the last question it keeps at most one result per question. |
| BrainRunner.Runner.TouchTap | brain_speed/static/js/main.js:116-118 | A touch fires both the touchstart and the click listener: two results and the index up by two; on the last question the index ends past the end, more results than questions, and the run finishes from there. |
| BrainRunner.TapAnswer | brain_speed/static/js/main.js:109-111 | The recorded reaction result is correct exactly when the light was on, with a reaction time of at least 1 ms. |
| BrainRunner.Runner.ToggleLang | brain_speed/static/js/main.js:187-188 | tr becomes en and en becomes tr. |
| BrainRunner.RunEnds | brain_speed/static/js/main.js:70-73 | With one result per answered question, the run finishes exactly after the last question, with the metrics of all results. |
| MindReader.JoinRoomCap | mind_reader/app.py:141-155 | A "player" join never takes a room past 4 players and leaves the new record with emotion [0.33, 0.33, 0.34], pupil 0.5, no timing and score 0; a spectator join never fails and only adds the sid to the spectators. |
| MindReader.OtherRoleUncapped | mind_reader/app.py:141-155 | Only the role "player" is capped: a full room still takes a sid joining with any other role, as a player. |
| MindReader.JoinKeepsOthers | mind_reader/app.py:146-155 | A join leaves every other player's record unchanged. |
| MindReader.ThoughtUpdate | mind_reader/app.py:189-191 | Keeps name and score; the emotion becomes the sent one (else stays); the pupil becomes the converted one (else stays); the timing becomes the converted one or the clock when none was sent; a failed conversion raises and leaves that field and every later one as it was, the earlier ones updated. |
| MindReader.PartialThoughtUpdate | mind_reader/app.py:189-190 | A pupil that does not convert raises after the emotion was replaced: only the emotion changes. |
| MindReader.Corr | mind_reader/app.py:208-219 | corr is 0 when either vector has no spread and otherwise is clamped to [-1, 1] (the square root is a parameter). |
| MindReader.CorrConstant | mind_reader/app.py:212-218 | A player whose emotion values are all equal correlates 0 with everybody. |
| MindReader.MaxTiming | mind_reader/app.py:203-206 | t_max: none exactly when no player has a timing, otherwise no smaller than any player's timing. |
| MindReader.PairScore | mind_reader/app.py:226-230 | A pair's score, 0.6 × emotional correlation + 0.2 × pupil sync + 0.2 × timing sync, always lies in [0, 1]. |
| MindReader.Row | mind_reader/app.py:223 | The inner loop visits (i, j) for j from i + 1 up to n − 1, in order. |
| MindReader.PairsBelowRange | mind_reader/app.py:222-223 | Every pair the nested loops visit has i < j < n. |
| MindReader.PairsBelowComplete | mind_reader/app.py:222-223 | Every pair i < j < n is visited. |
| MindReader.PairsBelowDistinct | mind_reader/app.py:222-223 | No pair is visited twice. |
| MindReader.PairsBelowCount | mind_reader/app.py:222-231 | The loops compute n(n − 1)/2 pair scores. |
| MindReader.ScoresMatchPairs | mind_reader/app.py:222-231 | Score k is the score of the k-th visited pair. |
| MindReader.PairScores | mind_reader/app.py:221-231 | The nested loops append exactly one score per unordered pair, in loop order. |
| MindReader.AppendRow | mind_reader/app.py:223-231 | The inner loop appends the scores of (i, j) for every j > i, in order, after the scores already there. |
| MindReader.GroupScore | mind_reader/app.py:233-234 | The group score, the mean pair score as a percentage, lies in [0, 100]. |
| MindReader.RoundScoresBounded | mind_reader/app.py:221-231 | With at least two players there is at least one pair score, and every pair score lies in [0, 1]. |
| MindReader.MeanBounds | mind_reader/app.py:233 | The mean of a non-empty list of scores in [0, 1] lies in [0, 1]. |
| MindReader.RoundScore | mind_reader/app.py:221-234 | The pair loop followed by the mean computes the group score. |
| MindReader.WithScore | mind_reader/app.py:238-239 | Every player keeps its sid and record except for the score, which becomes the group score. |
| MindReader.AssignScores | mind_reader/app.py:238-243 | The assignment loop sets every player's score to the group score; when the INSERT refuses the row it stops after the first player, whose score is already set. |
| MindReader.ScoredAll | mind_reader/app.py:238-239 | Scoring all of the players one by one gives every player the group score. |
| MindReader.ScoredKeys | mind_reader/app.py:238-239 | Scoring any number of the players keeps the same sids in the same order. |
| MindReader.SameScoreForAll | mind_reader/app.py:238-239 | After a round all players have the same score and the set of players is unchanged. |
| MindReader.Leave | mind_reader/app.py:261-275 | After a disconnect the sid is neither a player nor a spectator of the room, the state is unchanged and the spectators lose only that sid. |
| MindReader.LeaveKeepsOthers | mind_reader/app.py:261-275 | Every other player keeps its record and every other spectator stays. |
| MindReader.Registry.constructor | mind_reader/app.py:14 | No rooms. |
| MindReader.Registry.CreateRoom | mind_reader/app.py:79 | A fresh lobby room with no players or spectators under the drawn code; no other room changes. |
| MindReader.Registry.OnJoin | mind_reader/app.py:129-155 | The code is upper-cased, the name cut to 24 characters, the role defaults to "player"; an unknown code gets a fresh lobby room first (kept even when the join is then refused); a player join to a full room is refused with "Room full. Join as spectator."; otherwise the room becomes the joined room and nothing else changes. |
| MindReader.Registry.OpenRoom | mind_reader/app.py:135-136 | An unknown code gets a fresh lobby room; an existing room is left as it is; no other room changes. |
| MindReader.Registry.JoinOpenRoom | mind_reader/app.py:141-155 | A refused player join changes nothing and reports that the room is full; otherwise only the joined room changes, to the room with the newcomer. |
| MindReader.Registry.OnThoughtData | mind_reader/app.py:182-191 | Data from a sid that is not a player of the named room changes nothing and does not raise; otherwise only that player's record changes, to the (possibly partial) update, and the handler raises exactly when a conversion failed. |
| MindReader.Registry.OnSubmitRound | mind_reader/app.py:194-251 | Nothing changes and nothing raises for an unknown room or one with fewer than 2 players. A player with an empty emotion list makes the handler raise before any change. A category that is null, a list, an object or an integer outside 64 bits (the column is TEXT NOT NULL) makes the first INSERT raise after only the first player got the group score. Otherwise every player gets the group score, which lies in [0, 100], and the score is reported. No other room changes. |
| MindReader.Registry.OnDisconnect | mind_reader/app.py:258-275 | The sid leaves the players and spectators of every room; no room is added or removed. |
| MindReader.Registry.LeaveRoom | mind_reader/app.py:262-275 | The sid leaves one room's players and spectators; no other room changes. |
| DreamAi.Matches | dream_ai/app.py:225-226 | A key is kept exactly when it is one of the symbol keys and occurs in the lower-cased text. |
| DreamAi.Distinct | dream_ai/app.py:227 | The set of found keys: the same elements, each once. |
| DreamAi.ExtractSymbols | dream_ai/app.py:224-227 | At most 12 symbols, strictly ascending, each a key occurring in the lower-cased text; a key that occurs but is missing only misses because 12 smaller keys were kept. |
| DreamAi.SameElements | dream_ai/app.py:227 | Sorting the found keys keeps exactly the same elements. |
| DreamAi.SortedPrefix | dream_ai/app.py:227 | The first 12 of a strictly ascending list are strictly ascending and no larger than any element left out. |
| DreamAi.WordCharsOnly | dream_ai/app.py:231 | Every non-word character becomes a separator and every word character stays in place. |
| DreamAi.WordRuns | dream_ai/app.py:231 | Every word found consists of word characters only. |
| DreamAi.CountIn | dream_ai/app.py:234-235 | The number of positive (or negative) words never exceeds the number of words. |
| DreamAi.Mood | dream_ai/app.py:236-237 | 0.5 + (pos − neg) / max(1, n/4), clamped, lies in [0, 1]. |
| DreamAi.SentimentScore | dream_ai/app.py:230-237 | A text without words scores 0.5; every score lies in [0, 1]. |
| DreamAi.MoodLeaning | dream_ai/app.py:236-237 | The mood is above 0.5 exactly when there are more positive than negative words, and below exactly when there are fewer. |
| DreamAi.SentimentLeaning | dream_ai/app.py:230-237 | The same holds for the sentiment score of any text. |
| DreamAi.Archetypes | dream_ai/app.py:240-252 | Never empty; the hero, shadow and anima appear exactly when one of their symbols was found, the wounded healer exactly when the mood is below 0.4, the wanderer exactly when no other rule fires, and then alone; the archetypes come in the source's order. |
| DreamAi.RulesChosen | dream_ai/app.py:241-249 | Going through the four rules picks exactly the archetypes whose rule fires, never the wanderer, in rank order. |
| DreamAi.Chosen | dream_ai/app.py:241-249 | An archetype is picked exactly when it is among the rules tried and its rule fires. |
| DreamAi.ChosenOrdered | dream_ai/app.py:241-249 | Picking from rules listed in rank order keeps them in rank order. |
| DreamAi.NamesDistinct | dream_ai/app.py:243-251 | Different archetypes are reported under different names. |
| DreamAi.SignIndex | dream_ai/app.py:256 | int(lon // 30) % 12 is a sign index below 12. |
| DreamAi.SignFromLongitude | dream_ai/app.py:255-256 | The result is one of the twelve signs. |
| DreamAi.SignSector | dream_ai/app.py:255-256 | A longitude in [30k, 30k + 30) gets sign index k mod 12, for every integer k, negative ones included. |
| DreamAi.SignPeriodic | dream_ai/app.py:255-256 | Adding a full turn of 360 degrees does not change the sign. |
| DreamAi.PlacePlanets | dream_ai/app.py:266-275 | One entry per planet, in order, keeping its longitude, with a sign among the twelve. |
| DreamAi.MoonSign | dream_ai/app.py:329 | Without a moon entry the moon sign is empty. |
| DreamAi.FateScore | dream_ai/app.py:328-331 | The fate score lies in [35, 99]. |
| DreamAi.FateMonotonic | dream_ai/app.py:328-331 | A better mood, more symbols, a harmonious moon or a larger draw never lowers the fate score. |
| DreamAi.StrippedField | dream_ai/app.py:356 | A missing field reads as the empty string and a string field is stripped. |
| DreamAi.Language | dream_ai/app.py:359 | Any language that is returned is supported; a missing or unsupported string language falls back to "tr". |
| DreamAi.Analyze | dream_ai/app.py:353-372 | A dream shorter than 10 characters after stripping is refused; an accepted analysis carries the stripped text, a supported language, the extracted symbols and their count, the sentiment in [0, 1], a non-empty archetype list and a fate score in [35, 99]. |
| DreamAi.BumpCount | dream_ai/app.py:404 | Counting one symbol raises its count by one and leaves every other count unchanged. |
| DreamAi.TallyCount | dream_ai/app.py:404 | Counting a symbol list adds each symbol's number of occurrences in the list. |
| DreamAi.TallyRowsCount | dream_ai/app.py:402-407 | After all rows, each symbol's count is its number of occurrences over the rows that decode; a row that fails to decode adds nothing. |
| DreamAi.TallyKeysUnique | dream_ai/app.py:404 | Counting keeps one entry per symbol. |
| DreamAi.TallyRowsUnique | dream_ai/app.py:402-407 | The counter built from all rows has one entry per symbol. |
| DreamAi.MostCommon | dream_ai/app.py:408 | min(5, size of the counter) entries of the counter, by descending count (all of them when there are at most five), and every entry left out counts no more than every entry kept. |
| DreamAi.CommonTop | dream_ai/app.py:408 | A symbol not among the most common counts no more than any listed one; with fewer than five listed, every counted symbol is listed. |
| DreamAi.TrendsTop | dream_ai/app.py:402-408 | Over the rows: a symbol left out occurs no more often than any listed one, and with fewer than five listed every occurring symbol is listed. |
| DreamAi.CommonDistinct | dream_ai/app.py:402-408 | Entries taken from the counter, none more often than the counter holds it, name different symbols, and each was counted at least once. |
| DreamAi.TallyRowsPositive | dream_ai/app.py:402-407 | Every symbol the counter holds has a count of at least one. |
| DreamAi.TopEntries | dream_ai/app.py:402-409 | The response entries of the most common symbols have distinct symbols, their true positive counts, descending order and the top property over the rows. |
| DreamAi.Trends | dream_ai/app.py:394-409 | At most five distinct symbols, by descending count, each with its true number of occurrences in the rows (at least one) and its meaning (empty when unknown); a symbol left out occurs no more often than any listed one, and fewer than five are listed only when every occurring symbol is; the total is the number of rows. |
| AuraScanner.Normalize | aura_scanner/app.py:102-103 | The normalised value always lies in [0, 1]. |
| AuraScanner.NormalizeMonotonic | aura_scanner/app.py:102-103 | A larger value never normalises lower, and inside the range normalising is exact (v − lo)/(hi − lo). |
| Reals.QuotientMonotonic | aura_scanner/app.py:103 | Dividing by a positive range keeps the order of the dividends. |
| AuraScanner.AuraWeights | aura_scanner/app.py:106-115 | The warm and cool weights lie in [0, 1], and so does the weighted sum when the hue lies in [0, 360] and the saturation in [0, 1]. |
| AuraScanner.WeightedAuraIndex | aura_scanner/app.py:106-121 | For a hue in [0, 360] and a saturation in [0, 1] the index is a valid palette position. |
| AuraScanner.PaletteAt | aura_scanner/app.py:194 | Python list indexing: a non-negative index below 12 picks that profile, an index in [−12, 0) counts from the end, anything else raises. |
| AuraScanner.NegativeHueWrapsAround | aura_scanner/app.py:106-121 | A hue of −650 gives index −2, which the analysis endpoint silently turns into the second-to-last profile. |
| AuraScanner.PaletteChakras | aura_scanner/app.py:31-44 | Every palette profile's focus chakra is one of the seven chakra names. |
| AuraScanner.ChakraNamesDistinct | aura_scanner/app.py:126-134 | The seven chakra names are distinct. |
| AuraScanner.ChakraValue | aura_scanner/app.py:136-141 | A plain chakra ends in [30, 98] and the focus chakra in [35, 99]. |
| AuraScanner.FocusBoostRaises | aura_scanner/app.py:139-141 | A non-negative boost (the drawn one lies in [8, 16]) never leaves the focus chakra lower than it would be without the boost. |
| AuraScanner.ChakraMap | aura_scanner/app.py:126-142 | One entry per chakra name in order, each the jittered and clamped base value, the focus chakra also boosted; plain values lie in [30, 98] and the focus value in [35, 99]. |
| AuraScanner.KeysOfNames | aura_scanner/app.py:136-138 | Updating each chakra in place keeps the key order of the base table. |
| AuraScanner.CodePointSumAppend | aura_scanner/app.py:146 | The code-point sum of a concatenation is the sum of the parts' sums. |
| AuraScanner.LuckyDaySeed | aura_scanner/app.py:144-146 | The lucky day is one of the seven days, picked by the code-point sum modulo 7. |
| AuraScanner.LuckyDaySwap | aura_scanner/app.py:144-146 | Swapping the two halves of a key never changes its lucky day. |
| AuraScanner.ZodiacHint | aura_scanner/app.py:157 | A known sign (after stripping and lower-casing) gets its hint; anything else, including no sign, gets the default hint. |
| AuraScanner.HintIgnoresSpacing | aura_scanner/app.py:157 | Surrounding spaces do not change the hint. |
| AuraScanner.WeeklyPrediction | aura_scanner/app.py:152-166 | Seven steps with the given dates and drawn energies in [45, 98], the zodiac hint, the profile's lucky day and crystal, and the summary built from the profile name and the hint. |
| AuraScanner.StringItems | aura_scanner/app.py:297 | When every item is a string the result lists exactly those strings, in order. |
| AuraScanner.JournalPost | aura_scanner/app.py:280-300 | A mood that int() cannot convert raises; an empty note after stripping is refused; tags holding a non-string, or an aura key that is a list, an object or an integer outside the signed 64-bit range, raise; the entry is stored exactly when none of these happens, with the stripped note, the converted mood clamped to [1, 5] (3 when none was sent) and the aura key as sent. |
| AuraScanner.JournalTags | aura_scanner/app.py:297 | A list of string tags is stored joined by commas. |
| ChakraPanel.ScoreOf | aura_scanner/static/js/chakra.js:15-16 | A missing or null score reads as 50; a present one is kept. |
| ChakraPanel.Status | aura_scanner/static/js/chakra.js:12-17 | Each status keeps the table's name and colour, and is "Dengesiz" exactly when the score is below 55 and "Akışta" otherwise. |
| ChakraPanel.ChakraStatusMap | aura_scanner/static/js/chakra.js:11-18 | One status per metadata entry, in the table's order. |
| ChakraPanel.OnlyChakraKeysMatter | aura_scanner/static/js/chakra.js:11-18 | Two score maps that agree on the table's names give the same panel. |
| ChakraPanel.EmptyMapUnbalanced | aura_scanner/static/js/chakra.js:11-18 | With no scores every chakra shows 50 and is unbalanced. |
| ScentAi.WarmCoolDisjoint | scent_ai/app.py:110-111 | No colour counts both as warm and as cool. |
| ScentAi.Hits | scent_ai/app.py:110-111 | The number of warm (or cool) hits never exceeds the number of colours. |
| ScentAi.InferProfile | scent_ai/app.py:106-116 | No colours give "neutral"; otherwise "warm" exactly when warm hits outnumber cool ones, "cool" exactly when cool hits outnumber warm ones, and "neutral" exactly when they tie. |
| ScentAi.NeitherColorIrrelevant | scent_ai/app.py:106-116 | A colour that is neither warm nor cool never changes the profile. |
| ScentAi.HitsRotate | scent_ai/app.py:110-111 | Moving a colour from the front to the back does not change the hit counts. |
| ScentAi.HitsAppend | scent_ai/app.py:110-111 | The warm (or cool) hits of two lists of colours joined are the sum of their hits. |
| ScentAi.Lookup | scent_ai/app.py:141-145 | dict.get: a key with a rule gets that rule, any other key the default. |
| ScentAi.ObjectNotesAppend | scent_ai/app.py:144-145 | The notes of two object lists one after the other are the notes of the first followed by those of the second. |
| ScentAi.UnknownObjectsAddNothing | scent_ai/app.py:144-145 | Objects without a rule add no notes. |
| ScentAi.SliderNotes | scent_ai/app.py:147-159 | Three extra notes for each slider over its threshold (woody and sweet above 65, floral and marine above 60). |
| ScentAi.NoSlidersNoExtras | scent_ai/app.py:147-159 | Missing sliders read as 50 and add no notes. |
| ScentAi.WeightedNotes | scent_ai/app.py:139-159 | The notes are the profile's rule, then the mood's rule (an unknown mood uses the cozy rule), then each object's rule in input order, then the slider extras. |
| ScentAi.MixCocktail | scent_ai/app.py:182-187 | Each proportion lies in its clamp range: oud [5, 72], vanilla [4, 35], floral [3, 28], marine [2, 22]. |
| ScentAi.DefaultCocktail | scent_ai/app.py:147-150 | Without sliders the cocktail is 40 oud, 17 vanilla, 15 floral and 12 marine. |
| ScentAi.TruncMonotonic | scent_ai/app.py:183-186 | int() of a larger real is never smaller. |
| ScentAi.OudMonotonic | scent_ai/app.py:183 | A higher woody slider never lowers the oud proportion. |
| ScentAi.Filter | scent_ai/app.py:164-172 | A scent is kept exactly when it is in the catalogue and one of its top, middle or base notes is among the notes. |
| ScentAi.Best | scent_ai/app.py:171-172 | ORDER BY score DESC LIMIT 3: min(3, n) of the scents, best first, and every scent left out scores no more than every scent kept. |
| ScentAi.Recommendations | scent_ai/app.py:161-178 | When some catalogue scent shares a note with the weighted notes (Sandalwood when there are none), the best min(3, matching) of the matching scents, best first, every matching scent left out scoring no more than every one kept; otherwise the best min(3, catalogue) of the whole catalogue in the same sense; empty only for an empty catalogue. |
| ScentAi.SignatureHash | scent_ai/app.py:120-122 | Sixteen upper-case hex digits. |
| ScentAi.HexUpper | scent_ai/app.py:122 | Upper-casing a lower-case hex digit gives an upper-case hex digit. |
| ScentAi.Recommend | scent_ai/app.py:131-189 | An empty catalogue leaves no best scent (the handler raises); otherwise the profile is inferred from the palette, the recommended scents are the catalogue query's answer for the notes assembled from profile, mood, objects and sliders (one to three, best first), the signature is the best scent's base note plus " Signature", the accord score is 0.4 × its score + 49.5, the mood is the one given, the hash is the 16-digit prefix of the request digest in upper case and the cocktail follows the sliders. |
| Camera.HexDigit | scent_ai/static/js/camera.js:12 | A digit below 16 becomes a lower-case hex digit. |
| Camera.HexString | scent_ai/static/js/camera.js:12 | toString(16) is a non-empty string of lower-case hex digits, one digit below 16 and two below 256. |
| Camera.ToHex | scent_ai/static/js/camera.js:12 | The hex text of a number is never empty. |
| Camera.Pad2 | scent_ai/static/js/camera.js:12 | padStart(2, '0'): a string of two or more characters is kept; a shorter one is padded on the left to two characters ending with the original. |
| Camera.RgbToHex | scent_ai/static/js/camera.js:11-13 | For byte channels the colour is "#" followed by six lower-case hex digits. |
| Camera.ChannelHex | scent_ai/static/js/camera.js:12 | A byte channel becomes exactly two lower-case hex digits. |
| Camera.DigitValue | scent_ai/static/js/camera.js:12 | A hex digit's value is below 16. |
| Camera.DigitRoundTrip | scent_ai/static/js/camera.js:12 | Reading back a written hex digit gives the original digit. |
| Camera.ChannelRoundTrip | scent_ai/static/js/camera.js:12 | Every byte is written as exactly two hex digits that read back as the byte. |
| Camera.RgbRoundTrip | scent_ai/static/js/camera.js:11-13 | Every byte colour is written as seven characters that parse back to the same three channels. |
| Camera.DetectMood | scent_ai/static/js/camera.js:15-20 | The rules apply in order: "cozy" exactly when the brightness is below 90, "energetic" exactly when it is not and the brightness exceeds 150 with a saturation above 45, "professional" exactly when neither applies and the saturation is below 30, "romantic" otherwise. |
| Camera.CameraMoodsKnown | scent_ai/static/js/camera.js:15-20 | Every mood the camera detects has a rule on the server. |
| Camera.DetectObjects | scent_ai/static/js/camera.js:22-29 | Never empty; wood, metal and plant appear exactly when red, blue or green strictly dominates; fabric appears exactly when the channels are close or no channel strictly dominates; wood, metal and plant exclude each other; the objects come in the source's order and each has a server rule. |
| Camera.SampleInFrame | scent_ai/static/js/camera.js:39-42 | Every sampled pixel's three channels lie inside the frame. |
| Camera.ChannelSumBounds | scent_ai/static/js/camera.js:39-43 | The sum of k sampled channel values lies in [0, 255 k]. |
| Camera.SampleFrame | scent_ai/static/js/camera.js:38-43 | The loop visits ceil(len / 100) pixels and sums each of their three channels. |
| Camera.AveragesAsWritten | scent_ai/static/js/camera.js:38-47 | As written: the averages are undefined exactly when the frame is shorter than 100 bytes. |
| Camera.AveragesOvershoot | scent_ai/static/js/camera.js:38-47 | As written, a 26-pixel frame of value 200 averages to 400 per channel. |
| Camera.Averages | scent_ai/static/js/camera.js:38-47 | Corrected: the averages are taken over the pixels actually sampled, exist exactly for a non-empty frame and are channel values. |
| Camera.AveragesAgree | scent_ai/static/js/camera.js:38-47 | For a frame of a whole number of strides (a multiple of 100 bytes) the corrected averages equal the ones the page computes. |
| Camera.AverageOf | scent_ai/static/js/camera.js:45-47 | The rounded mean of n byte values is a byte value. |
| Camera.Palette | scent_ai/static/js/camera.js:52-58 | Without an extracted palette, the average colour followed by the four fixed colours; with one, one well-formed hex colour per extracted byte colour. |
| Camera.FallbackPaletteIsCool | scent_ai/static/js/camera.js:56-57 | The fallback palette always makes the server infer a cool profile, whatever the average colour. |
| Camera.NotWarm | scent_ai/static/js/camera.js:57 | A colour whose first hex digit is 0-9, a or b is not warm. |
| Camera.FallbackColorsCool | scent_ai/static/js/camera.js:57 | Three of the four fixed colours are cool and none is warm, so one more colour cannot tip the palette to warm or neutral. |
| Camera.ScanRoom | scent_ai/static/js/camera.js:31-66 | An empty frame gives no scan; otherwise, for the averages over the sampled pixels, the mood comes from their brightness and saturation (in [0, 255]), the objects are exactly the ones detected for them, the palette is the extractor's or the fallback, and the lighting is "bright" exactly when the brightness exceeds 130. |
| Camera.SampleAverages | scent_ai/static/js/camera.js:38-47 | The sums of the sampling loop, divided by the number of pixels the loop visited and rounded, are the corrected averages of the frame; none for an empty frame. |
| Camera.ScanOf | scent_ai/static/js/camera.js:49-65 | The mood comes from the brightness and a saturation in [0, 255], the objects are exactly the ones detected for the averages, the palette is the extractor's or the fallback, and the lighting is "bright" exactly above a brightness of 130. |
| Camera.RankedUnique | scent_ai/static/js/camera.js:22-29 | Two object lists in the detector's order with the same members are equal. |
| Camera.DetectedUnique | scent_ai/static/js/camera.js:22-29 | The detected objects are determined by the averages: two lists that both fit them are equal. |
| Camera.Saturation | scent_ai/static/js/camera.js:50 | For channel values the saturation, the largest channel minus the smallest, lies in [0, 255]. |
| Camera.Lighting | scent_ai/static/js/camera.js:65 | The lighting is "bright" exactly when the brightness exceeds 130, "dim" otherwise. |
| Camera.Max3 | scent_ai/static/js/camera.js:50 | Math.max of three values: one of them and no smaller than any. |
| Camera.Min3 | scent_ai/static/js/camera.js:50 | Math.min of three values: one of them and no larger than any. |
| VoiceAvatar.TwoDigits | voice_avatar/app.py:30 | f"{n:02d}" is at least two decimal digits. |
| VoiceAvatar.TwoDigitsInjective | voice_avatar/app.py:30 | Different numbers get different labels. |
| VoiceAvatar.Catalog | voice_avatar/app.py:27-41 | 55 entries with ids 1 to 55 in order, the style picked by id mod 7, the Astronaut model exactly for ids divisible by 3 (one of the three models otherwise), and a drawn trending score in [10, 100]. |
| VoiceAvatar.CatalogUnique | voice_avatar/app.py:27-41 | No two entries share an id or a name. |
| VoiceAvatar.KeepStyle | voice_avatar/app.py:97 | The result is a subsequence of the list (its order kept) holding every item of the style exactly as often as the list does and nothing else. |
| VoiceAvatar.KeepName | voice_avatar/app.py:99 | The result is a subsequence of the list (its order kept) holding every item whose lower-cased name contains the query exactly as often as the list does and nothing else. |
| VoiceAvatar.SubsequenceTrans | voice_avatar/app.py:96-99 | A selection from a selection is a selection from the original list, in its order. |
| VoiceAvatar.FiltersCommute | voice_avatar/app.py:96-99 | Filtering by style then by name gives the same list, in the same order, as by name then by style. |
| VoiceAvatar.ListAvatars | voice_avatar/app.py:90-100 | The list is a subsequence of the catalogue (catalogue order) holding each entry that has the style (when a non-empty style is given) and matches the cleaned query (when it is non-empty) exactly as often as the catalogue does, and nothing else; the count is its length, so the number of matching catalogue entries. |
| VoiceAvatar.Trending | voice_avatar/app.py:103-106 | Twelve entries (fewer for a smaller catalogue), highest score first, drawn from the catalogue, and every entry left out scores no more than every entry shown. |
| VoiceAvatar.Missing | voice_avatar/app.py:124 | A field is listed exactly when it is required and absent. |
| VoiceAvatar.IndexIn | voice_avatar/app.py:124 | The position returned holds the element. |
| VoiceAvatar.MissingInOrder | voice_avatar/app.py:124 | Missing fields are listed in the order of the required list. |
| VoiceAvatar.Values | voice_avatar/app.py:135-146 | The row holds each required field's value, in the order of the list. |
| VoiceAvatar.Customize | voice_avatar/app.py:109-151 | A request with an absent required field is refused with "missing fields: " followed by the missing ones joined by ", "; the row is stored exactly when all ten fields are present and none is null, a list, an object or an integer outside the signed 64-bit range (the table cannot take those), and it holds the ten values from avatar_id to voice_preset. |
| VoiceAvatar.FirstFalsy | voice_avatar/app.py:157-159 | The first key whose value is absent or falsy, with every earlier one truthy; none when all are truthy. |
| VoiceAvatar.MarketplaceUpload | voice_avatar/app.py:154-168 | When name, model_url or creator is absent or falsy, the first such field is named with " required"; the upload is stored exactly when all three are truthy and none is a list, an object or an integer outside the signed 64-bit range, and it keeps the three values. |
| TimeTravel.BandIndex | time_travel/app.py:61-69 | An age falls in one of the five bands. |
| TimeTravel.BandIndexMonotonic | time_travel/app.py:61-69 | An older age never falls in a younger band. |
| TimeTravel.GetPersona | time_travel/app.py:58-69 | Ages 5, 15, 30 and 60 get their hand-written persona; every other age gets the persona of its band (below 10, below 20, below 40, below 55, older). |
| TimeTravel.BandOfStarts | time_travel/app.py:61-69 | The band index is 0 below 10, 1 below 20, 2 below 40, 3 below 55 and 4 otherwise. |
| TimeTravel.ExactAgesOverride | time_travel/app.py:59-60 | Each hand-written persona differs from the one its band would give. |
| TimeTravel.Seeds | time_travel/app.py:74-78 | The canned reply has three sentences. |
| TimeTravel.FallbackReply | time_travel/app.py:72-79 | The reply opens with the age and contains the first 80 characters of the message. |
| TimeTravel.FallbackIsJoin | time_travel/app.py:79 | The reply is the three sentences joined by single spaces. |
| TimeTravel.FallbackIgnoresTail | time_travel/app.py:72-79 | Two messages that agree on their first 80 characters get the same reply. |
| TimeTravel.InterestingScore | time_travel/app.py:111 | The score lies in [5, 100] and is eight points per distinct lower-cased word plus the draw, unless capped at 100, and never more than that sum. |
| TimeTravel.ScoreMonotonic | time_travel/app.py:111 | More distinct words never score lower for the same draw. |
| TimeTravel.Chat | time_travel/app.py:108-140 | The handler fails exactly when the age does not convert with int() or lies outside the signed 64-bit range, the message is not a string, or the mood is a list, an object, an integer outside that range or null (null is refused by the NOT NULL mood column); otherwise the persona is the one for the age, the stored score lies in [5, 100], and the reply is the model's answer or, without one, the canned reply. |
| TimeTravel.MoodCorrelation | time_travel/app.py:154 | A list or object mood raises; an unknown mood gets 0.67; every correlation lies in (0.5, 0.85). |
| TimeTravel.SortedPivots | time_travel/app.py:149-160 | The sorted pivots are a rearrangement of the three, highest impact first, with a top impact in [50, 95]. |
| TimeTravel.ParadoxRisk | time_travel/app.py:161 | The paradox risk lies strictly between 0 and 0.4. |
| TimeTravel.PivotAnalysisOf | time_travel/app.py:143-163 | The handler fails exactly when the mood is a list or object or the age does not convert with int(); otherwise the three pivots sorted by impact and a paradox risk in (0, 0.4). |
| AgePicker.Band | time_travel/static/js/age.js:3-9 | The band index is at most the number of band ends; with ascending ends, every end before it is below the age and the age does not exceed any end from it on, so it is the first band whose end the age does not exceed. |
| AgePicker.DescribePersona | time_travel/static/js/age.js:3-9 | Every age gets one of the five labels, the one of its band (up to 6, up to 16, up to 35, up to 65, older). |
| AgePicker.BandOfEnds | time_travel/static/js/age.js:4-8 | The band index is 0 up to 6, 1 up to 16, 2 up to 35, 3 up to 65 and 4 otherwise. |
| AgePicker.BandMonotonic | time_travel/static/js/age.js:3-9 | An older age never gets a younger label. |
| AgePicker.AgesCoverLabels | time_travel/static/js/age.js:1-19 | Eight ages, strictly ascending, the default 30 among them, and each of the five persona labels is shown for at least one offered age. |
| AgePicker.BandsDisagree | time_travel/static/js/age.js:7 | At 38 the page shows the fourth label while the server answers with its third band's persona. |
| MoodRecipe.MoodBoost | mood_recipe/app.py:109-113 | No metrics give a boost of 0; when all three metrics lie in [lo, hi] with lo ≥ 0, so does the boost. |
| MoodRecipe.MoodBoostMonotonic | mood_recipe/app.py:109-113 | Raising any metric never lowers the boost. |
| MoodRecipe.Jitter | mood_recipe/app.py:90-93 | The jittered value lies in [5, 99] and equals value + delta whenever that does. |
| MoodRecipe.Variant | mood_recipe/app.py:85-95 | A variant keeps its base's category and mood tags, is named after the base followed by " Variant ", and has every nutrient in [5, 99]. |
| MoodRecipe.VariantNearBase | mood_recipe/app.py:90-93 | With jitters in [−12, 12], a variant's nutrients stay within 12 of its base's. |
| MoodRecipe.InitDb | mood_recipe/app.py:80-104 | A table of 1000 or more rows is kept; a smaller one is replaced by the 10 core rows followed by 990 variants, variant k built from the k-th drawn base and jitters. |
| MoodRecipe.SeededRowsBounded | mood_recipe/app.py:83-96 | Every row of a reseeded table has its nutrients in [5, 99] and the mood tags of a core ingredient. |
| MoodRecipe.Column | mood_recipe/app.py:186-188 | One value per picked ingredient, that ingredient's nutrient. |
| MoodRecipe.RecipeMetrics | mood_recipe/app.py:185-189 | Exactly the keys serotonin, cortisol_reduction and dopamine, all 0 when nothing was picked. |
| MoodRecipe.FewPicksDiluted | mood_recipe/app.py:186-188 | With k ≤ 5 picks all of value v, the metric is k v / 5, not v: the sum is always divided by 5. |
| MoodRecipe.MetricsBounded | mood_recipe/app.py:185-190 | With five or more picks whose nutrients lie in [lo, hi], every metric and the mood boost lie in [lo, hi]. |
| MoodRecipe.AverageBounded | mood_recipe/app.py:185-190 | With five or more picks whose nutrient lies in [lo, hi], the average of the first five lies in [lo, hi]. |
| Json.Trunc | scent_ai/app.py:183-186 | int() of a real truncates toward zero: the result is within 1 of the input, on the zero side. |
| Json.ToInt | time_travel/app.py:128 | int(): an integer is kept, a boolean becomes 1 or 0, a float truncates toward zero, a string is parsed after stripping, and null, a list or an object raises. |
| Json.ParseInt | aura_scanner/app.py:283 | A string converts exactly when it is a non-empty run of digits, optionally after one sign. |
| Json.ParseIntRoundTrip | time_travel/app.py:128 | The decimal text of any integer converts back to that integer. |
| Text.StripProperties | dream_ai/app.py:356 | str.strip() gives the empty string exactly for all-whitespace input, and otherwise the slice of the input between the first and last non-space characters. |
| Text.StripIdempotent | dream_ai/app.py:356 | Stripping twice is stripping once. |
| Text.DecimalRoundTrip | voice_avatar/app.py:30 | Reading back the decimal text of a number gives the number. |
| Sorting.SortDescSorted | brain_speed/app.py:536 | sorted(..., reverse=True) by a key yields keys that never increase. |
| Sorting.SortDescFirstIsMax | brain_speed/app.py:536-538 | The first element of the sorted list has a key no smaller than any element's. |
| Sorting.PrefixIsTop | voice_avatar/app.py:105 | The first n of a descending list are the top n: every element cut off has a key no larger than every element kept. |
| Sorting.SortStringsAscending | dream_ai/app.py:227 | sorted() of strings is in code-point order. |
| Reals.SumBounds | mood_recipe/app.py:186-188 | A sum of n values within [lo, hi] lies within [n lo, n hi]. |
| Reals.SumConstant | mood_recipe/app.py:186-188 | A sum of n copies of c is n c. |

## Left out

- Flask routing, HTTP status codes and the SQLite schemas and queries: a handler's database rows are passed in as values (the ingredient query of `recommend_ingredients`, the scent catalogue, the dream rows of the last seven days, the dialogue rows), and of the inserts only the values sqlite refuses to bind are modelled. The listing routes (`list_stories`, `trending`, `analytics_summary`, `seed_demo_data`, the leaderboards, `countries`, the aura `trends` and `history`, the scent `trends`, the voice-avatar GET routes, the mood-recipe journal, `top_dialogues`) are pure queries and are modelled only through their limit caps where they have one.
- Sorting.SortDesc: SQL `ORDER BY score DESC` leaves ties in an unspecified order; the model keeps tied rows in catalogue order, as Python's stable `sorted` does.
- Socket.IO emits, `join_room`/`leave_room` on the transport, `request.sid` plumbing and the threading/eventlet async modes: networking and concurrency. Only the updates of the in-memory dictionaries are modelled.
- Brain Speed's socket `on_join_room`, `on_leave_room` and `on_disconnect` handlers: they add players to and remove players from `ROOMS` (the socket join has no 4-player cap), and these changes to the rooms are not modelled; only the HTTP join, readiness, match start and match end are. Also out: `on_match_progress`, which overwrites a player's score in the room with the reported score (brain_speed/app.py:430-431); `finalize_match` ranks the players by that field (brain_speed/app.py:536), so the effect of progress reports on the ranking and winner of Rooms.FinalizeMatch is not captured. Also out: `on_presence` and `on_connect` (online-user bookkeeping and broadcasts), `submit_score` (percentile and database write), `calculate_percentile`, `ensure_user`, `track_event` and `get_leaderboard_payload` (database reads).
- Mind Reader's `signal` and `reaction` handlers: they only relay a message to the room. The `leaderboard` route is a database read.
- Language-model and HTTP calls (`call_openai` in dream_ai, `generate_recipe_with_openai` in mood_recipe, `openai_reply` in time_travel): their answers are parameters. Dream AI's `offline_interpretation` and prediction texts, the recipe text, the share texts, the time capsule and the alternative-life constants are canned prose and are not modelled.
- The Swiss Ephemeris (`swisseph`) and the date parsing of `compute_astro`: the planets' longitudes are parameters.
- SHA-256: ScentAi.SignatureHash takes the hex digest as a parameter and states only its shape.
- The audio features and image generation of the voice-painting server (librosa, numpy, PIL): floating-point library code.
- Randomness (`random.*`, `Math.random`, the molecule choice of the scent response) and clocks (`now_iso`, `Date.now`, forecast dates): the drawn values and times are parameters.
- MoodRecipe.MoodBoost: the result is not rounded to two places.
- BrainSpeed.ComputeScore: the score is not rounded to two places (`round(weighted, 2)`); it is the exact weighted sum.
- MindReader.GroupScore: the group score is not rounded to two places (`round(group * 100, 2)`); it is the exact mean percentage.
- MindReader.Registry.OnSubmitRound: the score stored for every player is the unrounded group score (see MindReader.GroupScore).
- MindReader.ThoughtUpdate: float() itself is not modelled; what it makes of the pupil and timing fields (a number or an exception) is a parameter, and the emotion is taken as a list of numbers.
- TimeTravel.ParadoxRisk: the result is not rounded to two places.
- ScentAi.Recommend: the accord score is not rounded to one place, and the molecule formula and style are not modelled.
- DreamAi.PlacePlanets: the stored longitude is not rounded to three places.
- MoodRecipe.RecipeMetrics: the metrics shown in the response are not rounded to one place (the boost is computed from the unrounded ones, as in the source).
- AuraScanner.AuraWeights: the displayed weights are not rounded; the aura index itself uses round-half-even exactly.
- `toFixed` in the front ends and floating-point NaN and infinities: all arithmetic is on exact reals and integers.
- MindReader.Corr: the square root is a parameter; only the clamp to [-1, 1] is relied on.
- AuraScanner.Normalize: requires lo != hi, because equal bounds make the source divide by zero and raise; the handler always passes fixed distinct bounds.
- Text.Upper: ASCII and Latin-1 small letters, ğ, ş and ı are upper-cased one to one; Python's `str.upper()` applies the full Unicode mapping, which also changes ß to SS, ſ to S, ﬁ to FI and ÿ to Ÿ, and upper-cases other scripts. The callers inherit this: MindReader.Registry.OnJoin opens room "ß" where the server opens "SS", and BrainSpeed.CodeOf leaves such characters in the room code.
- MindReader.Registry.OnJoin: the name is taken as a string. A list sent as the name survives the `[:24]` slice in the source and makes that player's INSERT in `on_submit_round` raise, which the model does not capture.
- Text.Lower: ASCII, Latin-1 and the Turkish Ğ, Ş, Ö, Ü and Ç letters are lower-cased one to one; İ is left unchanged and no locale rules are applied.
- EmojiSpeech.Separate: letters are those of ASCII, Latin-1 and the Latin Extended-A/B blocks (up to U+024F) and digits are ASCII, where the page's `\p{L}\p{N}` keeps every Unicode letter and number; a word holding a Greek, Cyrillic or CJK character is split at it ("kediπ" yields the token "kedi"), because the Unicode category tables are not modelled.
- EmojiSpeech.TokensAreWords: the tokens are runs of the narrowed letter and digit class above, not of JavaScript's Unicode classes.
- DreamAi.WordCharsOnly: the word class is the narrowed letter class above plus ASCII digits and '_', where Python's `\w` is Unicode; words in other scripts (the ru, ar, ja, ko and zh pages) are not counted, so the sentiment of such a dream can differ from the server's.
- DreamAi.WordRuns: the runs are those of the narrowed word class, so they differ from `re.findall(r"\w+")` on text outside the Latin blocks.
- Json.ParseInt: only ASCII digits after an optional sign are accepted; Python's int() also accepts single underscores between digits ("1_000") and the decimal digits of other scripts, which the model reports as a failed conversion.
- BrainRunner.IsCorrectProperties: JavaScript's `trim` is modelled by Python's whitespace set, which differs on U+FEFF, U+001C to U+001F and U+0085, and `toUpperCase` by the model's ASCII, Latin-1 and Turkish upper-casing rather than the full Unicode mapping.
- BrainRunner.Runner.SubmitAnswer: a second Enter within the 300 ms before the next question submits the same question again; the model lets this happen and has no guard for it.
- `WORD_TO_EMOJI[w]` on a word that names an object-prototype property (such as "constructor"): the dictionary is a finite map holding only its own entries.
- Browser and UI code: DOM, canvas, WebGL, three.js, p5, Web Audio, MediaRecorder, SpeechRecognition, getUserMedia, service workers and build scripts; the bounded localStorage lists of the dream, aura and mind-reader pages are UI glue.
- The head and eye tracking controller that moves the on-screen cursor: its source is not part of this model.
- EmojiSpeech.SpeechEngine.OnResult: the transcript is trimmed with Python's whitespace set (Text.Strip), whereas the page's JavaScript `trim` differs on U+FEFF (trimmed by JavaScript only) and on U+001C to U+001F and U+0085 (trimmed by Python only); a transcript ending in one of these keeps or loses it differently in the model, which can change the final text and the emoji found in it.

## Findings

| source | as written | input that shows it | evidently intended | confidence | as-written member | corrected member |
|---|---|---|---|---|---|---|
| brain_speed/static/js/main.js:116-118 | onTap is registered once for click and once for touchstart, and a touch fires both, so one tap records two results and advances the index by two | a touch on the reaction button of the last (tenth) question: the index goes from 9 to 11, there are 11 results for 10 questions, and both pending nextQuestion calls finish the run | one result per tap, so the index never passes the number of questions | not executed | BrainRunner.Runner.TouchTap | BrainRunner.Runner.Tap |
| scent_ai/static/js/camera.js:39-47 | the channel sums cover every 25th pixel, ceil(len/100) samples, but are divided by floor(len/100), which is 0 for frames under 100 bytes | a 104-byte frame (26 pixels) whose colour bytes are all 200 samples 2 pixels and divides by 1, giving the average Rgb(400, 400, 400) | divide each sum by the number of pixels sampled, so every average is a byte | not executed | Camera.AveragesAsWritten | Camera.Averages |
