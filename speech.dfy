/** The speech front end of Emoji Story: turning a recognised transcript into a string
    of emoji through a fixed word dictionary with substring fallbacks, and the listening
    guard around the browser's recogniser. The recogniser itself is outside the model;
    the calls made to it are recorded. */
module EmojiSpeech {
  import opened Text

  /** The word dictionary. Keys are lower-case words; every value is a non-empty emoji. */
  const WordToEmoji: map<string, string> := map[
    "anne" := "👩‍👧", "baba" := "👨‍👦", "kedi" := "😺", "köpek" := "🐶", "kus" := "🐦", "kuş" := "🐦",
    "balık" := "🐟", "koş" := "🏃‍♂️", "kos" := "🏃‍♂️", "yürüyüş" := "🚶", "gül" := "😂", "komik" := "🤣",
    "agla" := "😢", "ağla" := "😢", "araba" := "🚗", "uçak" := "✈️", "ucak" := "✈️", "yemek" := "🍕",
    "pizza" := "🍕", "kahve" := "☕", "su" := "💧", "aşk" := "❤️", "sevgi" := "💖", "kalp" := "❤️",
    "korku" := "😱", "korktum" := "😨", "mutlu" := "😊", "üzgün" := "😞", "okul" := "🏫", "iş" := "💼",
    "ev" := "🏠", "şehir" := "🏙️", "deniz" := "🌊", "dağ" := "⛰️", "güneş" := "☀️", "gece" := "🌙",
    "yıldız" := "⭐", "star" := "⭐", "yağmur" := "🌧️", "fırtına" := "🌪️", "kar" := "❄️", "yangın" := "🔥",
    "para" := "💸", "altın" := "🥇", "oyun" := "🎮", "müzik" := "🎵", "dans" := "💃", "parti" := "🎉",
    "doğumgünü" := "🎂", "kitap" := "📚", "film" := "🎬", "kamera" := "📷", "telefon" := "📱",
    "mesaj" := "💬", "internet" := "🌐", "doktor" := "🩺", "hastane" := "🏥", "ilaç" := "💊",
    "spor" := "🏋️", "futbol" := "⚽", "basketbol" := "🏀", "bebek" := "👶", "çocuk" := "🧒",
    "arkadaş" := "🫂", "aile" := "👨‍👩‍👧‍👦", "dünya" := "🌍", "türkiye" := "🇹🇷", "turkey" := "🦃",
    "london" := "🇬🇧", "paris" := "🇫🇷", "madrid" := "🇪🇸", "yeni" := "✨", "eski" := "🕰️", "hızlı" := "⚡",
    "yavaş" := "🐢", "güçlü" := "💪", "zayıf" := "🪶", "kral" := "👑", "kraliçe" := "👸", "robot" := "🤖",
    "uzay" := "🚀", "mars" := "🪐", "başarı" := "🏆", "kaybet" := "💔", "kazandım" := "🏅", "sınav" := "📝",
    "tatil" := "🏖️", "festival" := "🎪", "market" := "🛒", "aşkım" := "🥰", "öpücük" := "😘",
    "sinirli" := "😡", "şaşkın" := "😲", "soru" := "❓", "cevap" := "✅", "start" := "🚀", "bitiş" := "🏁",
    "macera" := "🧭", "hazine" := "💎", "ghost" := "👻", "canavar" := "👹", "vampire" := "🧛",
    "witch" := "🧙", "pirate" := "🏴‍☠️", "ninja" := "🥷", "burger" := "🍔", "dondurma" := "🍦",
    "pasta" := "🍰", "meyve" := "🍎", "muz" := "🍌", "çilek" := "🍓", "sağlık" := "❤️‍🩹", "şans" := "🍀",
    "luck" := "🍀", "başarılar" := "🎯", "komedi" := "🎭", "drama" := "🎭"]

  /** What `textToEmoji` returns when nothing matched at all. */
  const DefaultEmojis: seq<string> := ["🎬", "✨", "🧠"]

  /** A dictionary whose every value is a non-empty string (a truthy JS value). */
  ghost predicate ValidDictionary(dict: map<string, string>)
  {
    forall w :: w in dict ==> dict[w] != []
  }

  /** The character a tokeniser keeps: a letter or a digit (the class [\p{L}\p{N}]). */
  predicate Kept(c: char) { IsLetter(c) || IsDigit(c) }

  /** Every character outside letters, digits and whitespace becomes a space; whitespace
      also becomes a space, which does not change how the text splits into words. */
  function Separate(s: string): (r: string)
    ensures |r| == |s|
    ensures forall i :: 0 <= i < |s| ==> r[i] == (if Kept(s[i]) then s[i] else ' ')
  {
    if s == [] then [] else [if Kept(s[0]) then s[0] else ' '] + Separate(s[1..])
  }

  /** text.toLowerCase().replace(/[^\p{L}\p{N}\s]/gu, ' ').split(/\s+/).filter(Boolean) */
  function Tokens(text: string): (r: seq<string>)
  {
    Words(Separate(Lower(text)))
  }

  /** Tokens are non-empty runs of letters and digits. */
  lemma TokensAreWords(text: string)
    ensures forall k :: 0 <= k < |Tokens(text)| ==> Tokens(text)[k] != []
    ensures forall w, i :: w in Tokens(text) && 0 <= i < |w| ==> Kept(w[i])
  {
    var s := Separate(Lower(text));
    forall i | 0 <= i < |s| ensures IsSpace(s[i]) || Kept(s[i]) {
    }
    WordsKeep(s, Kept);
  }

  /** The dictionary emoji of each word that has one, in word order, repeats kept. */
  function DictEmojis(words: seq<string>, dict: map<string, string>): (r: seq<string>)
    ensures |r| <= |words|
    ensures forall e :: e in r ==> exists w :: w in dict && dict[w] == e
  {
    if words == [] then []
    else if words[0] in dict then [dict[words[0]]] + DictEmojis(words[1..], dict)
    else DictEmojis(words[1..], dict)
  }

  /** Looking words up one list after another is looking up their concatenation. */
  lemma {:induction false} DictEmojisAppend(a: seq<string>, b: seq<string>, dict: map<string, string>)
    ensures DictEmojis(a + b, dict) == DictEmojis(a, dict) + DictEmojis(b, dict)
  {
    if a == [] {
      assert a + b == b;
    } else {
      assert (a + b)[0] == a[0] && (a + b)[1..] == a[1..] + b;
      DictEmojisAppend(a[1..], b, dict);
    }
  }

  /** Some emoji is found exactly when some word is in the dictionary. */
  lemma {:induction false} DictEmojisEmpty(words: seq<string>, dict: map<string, string>)
    ensures DictEmojis(words, dict) == [] <==> forall i :: 0 <= i < |words| ==> words[i] !in dict
  {
    if words != [] {
      DictEmojisEmpty(words[1..], dict);
      if words[0] !in dict {
        forall i | 0 <= i < |words| ensures words[i] !in dict <== forall j :: 0 <= j < |words[1..]| ==> words[1..][j] !in dict {
          if i > 0 { assert words[i] == words[1..][i - 1]; }
        }
      }
    }
  }

  /** JavaScript's case-insensitive comparison key for a character in a regular
      expression without the u flag: its upper-case form, except that a non-ASCII
      character is never mapped to an ASCII one. */
  function Canonical(c: char): (r: char)
    ensures c as int >= 128 ==> r as int >= 128
  {
    var u := UpperChar(c);
    if c as int >= 128 && u as int < 128 then c else u
  }

  function CanonicalString(s: string): (r: string)
    ensures |r| == |s| && forall i :: 0 <= i < |s| ==> r[i] == Canonical(s[i])
  {
    if s == [] then [] else [Canonical(s[0])] + CanonicalString(s[1..])
  }

  /** /pattern/i.test(text) for a literal pattern. */
  predicate MatchesIgnoringCase(text: string, pattern: string)
  {
    Contains(CanonicalString(text), CanonicalString(pattern))
  }

  /** /(love|aşk|sev)/i */
  predicate LoveWord(text: string)
  {
    MatchesIgnoringCase(text, "love") || MatchesIgnoringCase(text, "aşk") || MatchesIgnoringCase(text, "sev")
  }

  /** /(kork|fear)/i */
  predicate FearWord(text: string)
  {
    MatchesIgnoringCase(text, "kork") || MatchesIgnoringCase(text, "fear")
  }

  /** /(fun|komik|gül)/i */
  predicate FunWord(text: string)
  {
    MatchesIgnoringCase(text, "fun") || MatchesIgnoringCase(text, "komik") || MatchesIgnoringCase(text, "gül")
  }

  /** The fallback emoji, found in the original text: a heart, a scream and a laugh, in
      that order, each when its pattern occurs. */
  function Fallbacks(text: string): (r: seq<string>)
    ensures |r| <= 3
    ensures r == [] <==> !LoveWord(text) && !FearWord(text) && !FunWord(text)
    ensures LoveWord(text) ==> r[0] == "❤️"
    ensures !LoveWord(text) && FearWord(text) ==> r[0] == "😱"
    ensures FunWord(text) ==> r[|r| - 1] == "😂"
  {
    (if LoveWord(text) then ["❤️"] else [])
    + (if FearWord(text) then ["😱"] else [])
    + (if FunWord(text) then ["😂"] else [])
  }

  /** The emoji list textToEmoji joins: the dictionary hits, or else the fallbacks, or
      else the default three. */
  function EmojiList(text: string, dict: map<string, string>): seq<string>
  {
    var hits := DictEmojis(Tokens(text), dict);
    if hits != [] then hits
    else if Fallbacks(text) != [] then Fallbacks(text)
    else DefaultEmojis
  }

  /** When some word is in the dictionary the answer is exactly the dictionary emoji (no
      fallback is added); otherwise it is the fallbacks, or the default three when no
      fallback pattern occurs either. */
  lemma EmojiListCases(text: string, dict: map<string, string>)
    ensures (exists i :: 0 <= i < |Tokens(text)| && Tokens(text)[i] in dict)
            ==> EmojiList(text, dict) == DictEmojis(Tokens(text), dict)
    ensures (forall i :: 0 <= i < |Tokens(text)| ==> Tokens(text)[i] !in dict)
            ==> EmojiList(text, dict) == (if Fallbacks(text) != [] then Fallbacks(text) else DefaultEmojis)
  {
    DictEmojisEmpty(Tokens(text), dict);
  }

  /** The answer is never empty. */
  lemma EmojiListNonEmpty(text: string, dict: map<string, string>)
    requires ValidDictionary(dict)
    ensures EmojiList(text, dict) != [] && Concat(EmojiList(text, dict)) != []
  {
    var list := EmojiList(text, dict);
    var hits := DictEmojis(Tokens(text), dict);
    if hits != [] {
      DictEmojisNonEmpty(Tokens(text), dict);
      assert list[0] == hits[0];
    } else if Fallbacks(text) != [] {
      assert list[0] == Fallbacks(text)[0] && list[0] in ["❤️", "😱", "😂"];
    } else {
      assert list == DefaultEmojis;
    }
    ConcatHead(list);
  }

  /** With a valid dictionary every emoji found is non-empty. */
  lemma {:induction false} DictEmojisNonEmpty(words: seq<string>, dict: map<string, string>)
    requires ValidDictionary(dict)
    ensures forall k :: 0 <= k < |DictEmojis(words, dict)| ==> DictEmojis(words, dict)[k] != []
  {
    if words != [] {
      DictEmojisNonEmpty(words[1..], dict);
    }
  }

  /** textToEmoji: the loop over the words pushes each dictionary hit, then the fallback
      tests run only when nothing was pushed. */
  method TextToEmoji(text: string, dict: map<string, string>) returns (r: string)
    ensures r == Concat(EmojiList(text, dict))
  {
    var found := CollectHits(Tokens(text), dict);
    if found == [] {
      found := Fallbacks(text);
      if found == [] {
        found := DefaultEmojis;
      }
    }
    r := Concat(found);
  }

  /** The loop over the words: each word found in the dictionary pushes its emoji. */
  method CollectHits(words: seq<string>, dict: map<string, string>) returns (found: seq<string>)
    ensures found == DictEmojis(words, dict)
  {
    found := [];
    var i := 0;
    while i < |words|
      invariant 0 <= i <= |words|
      invariant found == DictEmojis(words[..i], dict)
    {
      var w := words[i];
      assert words[..i + 1] == words[..i] + [w];
      DictEmojisAppend(words[..i], [w], dict);
      if w in dict {
        found := found + [dict[w]];
      }
      i := i + 1;
    }
    assert words[..i] == words;
  }

  /** The transcripts of the results from `resultIndex` on, concatenated. */
  function Transcript(transcripts: seq<string>, resultIndex: nat): string
  {
    Concat(transcripts[if resultIndex <= |transcripts| then resultIndex else |transcripts|..])
  }

  /** The onresult loop that builds the transcript. */
  method JoinResults(transcripts: seq<string>, resultIndex: nat) returns (text: string)
    ensures text == Transcript(transcripts, resultIndex)
  {
    var from := if resultIndex <= |transcripts| then resultIndex else |transcripts|;
    text := [];
    var i := from;
    while i < |transcripts|
      invariant from <= i <= |transcripts|
      invariant text == Concat(transcripts[from..i])
    {
      ConcatAppend(transcripts[from..i], [transcripts[i]]);
      assert transcripts[from..i + 1] == transcripts[from..i] + [transcripts[i]];
      assert Concat([transcripts[i]]) == transcripts[i] + Concat([]);
      text := text + transcripts[i];
      i := i + 1;
    }
    assert transcripts[from..i] == transcripts[from..];
  }

  /** A call the engine makes into the browser's recogniser. */
  datatype Request = StartRecognition | StopRecognition

  /** EmojiSpeechEngine: the recogniser (present or not), the language, whether the
      recogniser has reported that it is listening, and the last final transcript. */
  class SpeechEngine {
    const hasRecognition: bool
    /** The word dictionary the engine looks words up in. */
    const dict: map<string, string>
    var lang: string
    var recognitionLang: string
    var listening: bool
    var finalText: string
    /** The calls made to the recogniser so far, oldest first. */
    var requests: seq<Request>

    constructor(hasRecognition: bool)
      ensures this.hasRecognition == hasRecognition && dict == WordToEmoji
      ensures lang == "tr-TR" && listening == false && finalText == [] && requests == []
      ensures hasRecognition ==> recognitionLang == "tr-TR"
    {
      this.hasRecognition := hasRecognition;
      dict := WordToEmoji;
      lang := "tr-TR";
      recognitionLang := "tr-TR";
      listening := false;
      finalText := [];
      requests := [];
    }

    /** start(): asks the recogniser to start only when there is one and it is not
        already listening. */
    method Start()
      modifies this`requests
      ensures requests == old(requests) + (if hasRecognition && !listening then [StartRecognition] else [])
    {
      if hasRecognition && !listening {
        requests := requests + [StartRecognition];
      }
    }

    /** stop(): asks the recogniser to stop only when there is one and it is listening. */
    method Stop()
      modifies this`requests
      ensures requests == old(requests) + (if hasRecognition && listening then [StopRecognition] else [])
    {
      if hasRecognition && listening {
        requests := requests + [StopRecognition];
      }
    }

    /** The recogniser's onstart callback. */
    method OnStart()
      modifies this`listening
      ensures listening
    {
      listening := true;
    }

    /** The recogniser's onend callback. */
    method OnEnd()
      modifies this`listening
      ensures !listening
    {
      listening := false;
    }

    /** setLanguage(lang): the engine's language, and the recogniser's when there is one. */
    method SetLanguage(newLang: string)
      modifies this`lang, this`recognitionLang
      ensures lang == newLang
      ensures recognitionLang == if hasRecognition then newLang else old(recognitionLang)
    {
      lang := newLang;
      if hasRecognition {
        recognitionLang := newLang;
      }
    }

    /** The recogniser's onresult callback: the transcripts from the first new result on
        are concatenated and trimmed, and the emoji for that text are returned. */
    method OnResult(transcripts: seq<string>, resultIndex: nat) returns (emojis: string)
      modifies this`finalText
      ensures finalText == Strip(Transcript(transcripts, resultIndex))
      ensures emojis == Concat(EmojiList(finalText, dict))
    {
      var text := JoinResults(transcripts, resultIndex);
      var trimmed := Strip(text);
      emojis := TextToEmoji(trimmed, dict);
      finalText := trimmed;
    }
  }
}
