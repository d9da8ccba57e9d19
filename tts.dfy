/**
 * Voice selection of the speech synthesiser (`detect_language` and the voice choice of
 * `text_to_speech`): a priority-ordered classifier over characters and substrings that returns a
 * language code, and a lookup of that code's neural voice. Python's `str.lower` is a parameter.
 */
module Tts {

  import opened Wrappers

  /** The `VOICES` table: language code to voice name. */
  const Voices: map<string, string> := map[
    "az" := "az-AZ-BanuNeural",
    "tr" := "tr-TR-EmelNeural",
    "en" := "en-US-JennyNeural",
    "ru" := "ru-RU-SvetlanaNeural",
    "de" := "de-DE-KatjaNeural",
    "fr" := "fr-FR-DeniseNeural",
    "es" := "es-ES-ElviraNeural",
    "ar" := "ar-SA-ZariyahNeural",
    "zh" := "zh-CN-XiaoxiaoNeural",
    "ja" := "ja-JP-NanamiNeural",
    "ko" := "ko-KR-SunHiNeural"
  ]

  /** The fallback of `VOICES.get`. */
  const FallbackVoice: string := "en-US-JennyNeural"

  /** The Turkish keywords looked for in the lower-cased text. */
  const TurkishWords: seq<string> := ["merhaba", "nasılsın", "teşekkür", "değil", "güzel"]

  /** The Turkish letters looked for when no script rule applied. */
  const TurkishLetters: seq<string> := ["ı", "ö", "ü", "ç", "ş"]

  /** Python's `w in s` on two strings: `w` occurs in `s` as a contiguous substring. */
  predicate Contains(s: string, w: string)
    decreases |s|
  {
    |w| <= |s| && (s[..|w|] == w || Contains(s[1..], w))
  }

  /** The same test stated directly: some position of `s` starts a copy of `w`. */
  ghost predicate OccursAt(s: string, w: string, i: int)
  {
    0 <= i && i + |w| <= |s| && s[i .. i + |w|] == w
  }

  lemma {:induction false} ContainsIff(s: string, w: string)
    ensures Contains(s, w) <==> exists i :: OccursAt(s, w, i)
  {
    if Contains(s, w) {
      var i := ContainsWitness(s, w);
    }
    if exists i :: OccursAt(s, w, i) {
      var i :| OccursAt(s, w, i);
      OccursContains(s, w, i);
    }
  }

  lemma {:induction false} ContainsWitness(s: string, w: string) returns (i: nat)
    requires Contains(s, w)
    ensures OccursAt(s, w, i)
    decreases |s|
  {
    if s[..|w|] == w {
      i := 0;
    } else {
      var j := ContainsWitness(s[1..], w);
      assert s[j + 1 .. j + 1 + |w|] == s[1..][j .. j + |w|];
      i := j + 1;
    }
  }

  lemma {:induction false} OccursContains(s: string, w: string, i: int)
    requires OccursAt(s, w, i)
    ensures Contains(s, w)
    decreases i
  {
    if i > 0 {
      assert s[1..][i - 1 .. i - 1 + |w|] == s[i .. i + |w|];
      OccursContains(s[1..], w, i - 1);
    }
  }

  /** A one-character string occurs in `s` exactly when the character does. */
  lemma ContainsChar(s: string, c: char)
    ensures Contains(s, [c]) <==> c in s
  {
    ContainsIff(s, [c]);
    if c in s {
      var i :| 0 <= i < |s| && s[i] == c;
      assert OccursAt(s, [c], i);
    }
    if exists i :: OccursAt(s, [c], i) {
      var i :| OccursAt(s, [c], i);
      assert s[i] == c;
    }
  }

  /** Occurrence is transitive: a substring of a substring of `s` is a substring of `s`. */
  lemma ContainsTrans(s: string, w: string, v: string)
    requires Contains(s, w) && Contains(w, v)
    ensures Contains(s, v)
  {
    ContainsIff(s, w);
    ContainsIff(w, v);
    var i :| OccursAt(s, w, i);
    var j :| OccursAt(w, v, j);
    assert w == s[i .. i + |w|];
    forall k | 0 <= k < |v| ensures s[i + j + k] == v[k] {
      assert v[k] == w[j + k];
    }
    assert s[i + j .. i + j + |v|] == v;
    assert OccursAt(s, v, i + j);
    ContainsIff(s, v);
  }

  /** Some word of the list occurs in `s` (a keyword test). */
  predicate ContainsAny(s: string, words: seq<string>)
  {
    exists k :: 0 <= k < |words| && Contains(s, words[k])
  }

  /** Some character of the text lies in the closed code-point range from `lo` to `hi` (a script test). */
  predicate AnyInRange(text: string, lo: char, hi: char)
  {
    exists i :: 0 <= i < |text| && lo <= text[i] <= hi
  }

  predicate Azerbaijani(lower: string) { Contains(lower, "ə") || Contains(lower, "ğ") }
  predicate Cyrillic(text: string) { AnyInRange(text, '\U{0400}', '\U{04FF}') }
  predicate Han(text: string) { AnyInRange(text, '\U{4E00}', '\U{9FFF}') }
  predicate Kana(text: string) { AnyInRange(text, '\U{3040}', '\U{30FF}') }
  predicate Hangul(text: string) { AnyInRange(text, '\U{AC00}', '\U{D7AF}') }
  predicate Arabic(text: string) { AnyInRange(text, '\U{0600}', '\U{06FF}') }

  /**
   * `detect_language`. The first two rules and the last look at the lower-cased text, the script
   * rules at the text as given.
   */
  function DetectLanguage(text: string, lower: string -> string): (code: string)
    ensures code in Voices
  {
    var textLower := lower(text);
    if Azerbaijani(textLower) then "az"
    else if ContainsAny(textLower, TurkishWords) then "tr"
    else if Cyrillic(text) then "ru"
    else if Han(text) then "zh"
    else if Kana(text) then "ja"
    else if Hangul(text) then "ko"
    else if Arabic(text) then "ar"
    else if ContainsAny(textLower, TurkishLetters) && !Contains(textLower, "ə") then "tr"
    else "en"
  }

  /** Whatever else it contains, text whose lower-cased form has "ə" or "ğ" is Azerbaijani, and only such text is. */
  lemma AzerbaijaniFirst(text: string, lower: string -> string)
    ensures DetectLanguage(text, lower) == "az" <==> Azerbaijani(lower(text))
  {
  }

  /** Without the Azerbaijani letters, a Turkish keyword decides "tr" before any script rule. */
  lemma TurkishKeywordSecond(text: string, lower: string -> string, k: nat)
    requires !Azerbaijani(lower(text))
    requires k < |TurkishWords| && Contains(lower(text), TurkishWords[k])
    ensures DetectLanguage(text, lower) == "tr"
  {
  }

  /**
   * The keyword "değil" can never be what decides "tr": it contains "ğ", so the Azerbaijani rule
   * has already answered.
   */
  lemma DegilShadowed(text: string, lower: string -> string)
    requires Contains(lower(text), "değil")
    ensures DetectLanguage(text, lower) == "az"
  {
    assert "değil"[2..3] == "ğ";
    assert OccursAt("değil", "ğ", 2);
    ContainsIff("değil", "ğ");
    ContainsTrans(lower(text), "değil", "ğ");
  }

  /** The script rules in their fixed priority: Cyrillic, Han, kana, Hangul, Arabic. */
  lemma ScriptPriority(text: string, lower: string -> string)
    requires !Azerbaijani(lower(text)) && !ContainsAny(lower(text), TurkishWords)
    ensures Cyrillic(text) ==> DetectLanguage(text, lower) == "ru"
    ensures !Cyrillic(text) && Han(text) ==> DetectLanguage(text, lower) == "zh"
    ensures !Cyrillic(text) && !Han(text) && Kana(text) ==> DetectLanguage(text, lower) == "ja"
    ensures !Cyrillic(text) && !Han(text) && !Kana(text) && Hangul(text) ==> DetectLanguage(text, lower) == "ko"
    ensures !Cyrillic(text) && !Han(text) && !Kana(text) && !Hangul(text) && Arabic(text)
      ==> DetectLanguage(text, lower) == "ar"
  {
  }

  /** One Cyrillic character decides "ru" once the two lower-case rules have not applied. */
  lemma CyrillicCharGivesRu(text: string, lower: string -> string, i: nat)
    requires !Azerbaijani(lower(text)) && !ContainsAny(lower(text), TurkishWords)
    requires i < |text| && '\U{0400}' <= text[i] <= '\U{04FF}'
    ensures DetectLanguage(text, lower) == "ru"
  {
  }

  /** Text none of whose scripts matched: any Turkish letter gives "tr"; the "ə" guard is always true there. */
  lemma TurkishLettersLast(text: string, lower: string -> string)
    requires !Azerbaijani(lower(text)) && !ContainsAny(lower(text), TurkishWords)
    requires !Cyrillic(text) && !Han(text) && !Kana(text) && !Hangul(text) && !Arabic(text)
    ensures DetectLanguage(text, lower) == (if ContainsAny(lower(text), TurkishLetters) then "tr" else "en")
  {
  }

  /** "en" is returned exactly when no rule applies. */
  lemma EnglishDefault(text: string, lower: string -> string)
    ensures DetectLanguage(text, lower) == "en" <==>
      && !Azerbaijani(lower(text)) && !ContainsAny(lower(text), TurkishWords)
      && !Cyrillic(text) && !Han(text) && !Kana(text) && !Hangul(text) && !Arabic(text)
      && !ContainsAny(lower(text), TurkishLetters)
  {
  }

  /** The voice branch of `text_to_speech`: an explicit voice wins; otherwise the detected language's voice. */
  function ChooseVoice(text: string, voice: Option<string>, lower: string -> string): (v: string)
  {
    match voice
    case Some(given) => given
    case None =>
      var lang := DetectLanguage(text, lower);
      if lang in Voices then Voices[lang] else FallbackVoice
  }

  /**
   * An explicitly passed voice bypasses detection; an omitted one is always the detected code's own
   * entry of `VOICES`, so the `.get` fallback is never what decides.
   */
  lemma VoiceChoice(text: string, voice: Option<string>, lower: string -> string)
    ensures voice.Some? ==> ChooseVoice(text, voice, lower) == voice.value
    ensures voice.None? ==> DetectLanguage(text, lower) in Voices
    ensures voice.None? ==> ChooseVoice(text, voice, lower) == Voices[DetectLanguage(text, lower)]
    ensures voice.None? ==> ChooseVoice(text, voice, lower) in Voices.Values
  {
  }
}
