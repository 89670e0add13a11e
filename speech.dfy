/**
 * Voice choice for speech synthesis, shared by the session's read-aloud button (App.tsx) and the
 * fortune viewer's play button (components/FortuneViewer.tsx): among the voices the browser
 * offers, the first Korean voice whose name contains one of the preferred words, otherwise the
 * first Korean voice, otherwise none (the browser's default is then used).
 */
module Speech {
  import opened Wrappers
  import opened JsString

  /** A `SpeechSynthesisVoice`, reduced to the two fields the choice reads. */
  datatype Voice = Voice(lang: string, name: string)

  /**
   * A `SpeechSynthesisUtterance` as handed to `speak`: the text, the chosen voice and the language
   * tag. Rate and pitch are left out.
   */
  datatype Utterance = Utterance(text: string, voice: Option<Voice>, lang: string)

  /** Every utterance is tagged with this language. */
  const KoreanTag: string := "ko-KR"

  /** The name fragments the session prefers (App.tsx). */
  const SessionVoiceNames: seq<string> := ["Google", "Yuna", "여성"]

  /** The name fragments the viewer prefers, all of them female voices (FortuneViewer.tsx). */
  const ViewerVoiceNames: seq<string> := ["Female", "여성", "Yuna", "Heami"]

  /** `v.lang.startsWith('ko')`: the fallback search's test. */
  predicate SpeaksKorean(v: Voice) {
    StartsWith(v.lang, "ko")
  }

  /** The first search's test: a Korean language tag and a name containing a preferred fragment. */
  predicate Preferred(v: Voice, names: seq<string>) {
    && (v.lang == KoreanTag || StartsWith(v.lang, "ko"))
    && exists j :: 0 <= j < |names| && Includes(v.name, names[j])
  }

  /** The first search's test is stricter than the fallback's, since "ko-KR" starts with "ko". */
  lemma PreferredSpeaksKorean(v: Voice, names: seq<string>)
    requires Preferred(v, names)
    ensures SpeaksKorean(v)
  {
    if v.lang == KoreanTag {
      assert v.lang[..2] == "ko";
    }
  }

  /** Index `i` holds the first preferred voice. */
  ghost predicate FirstPreferred(voices: seq<Voice>, names: seq<string>, i: int) {
    && 0 <= i < |voices| && Preferred(voices[i], names)
    && forall k :: 0 <= k < i ==> !Preferred(voices[k], names)
  }

  /** Index `i` holds the first Korean voice. */
  ghost predicate FirstKorean(voices: seq<Voice>, i: int) {
    && 0 <= i < |voices| && SpeaksKorean(voices[i])
    && forall k :: 0 <= k < i ==> !SpeaksKorean(voices[k])
  }

  /** `xs.findIndex(p)` as an option: the index of the first element satisfying `p`. */
  function FindIndex<T>(xs: seq<T>, p: T -> bool): (r: Option<nat>)
    ensures r.Some? ==> r.value < |xs| && p(xs[r.value])
    ensures r.Some? ==> forall k :: 0 <= k < r.value ==> !p(xs[k])
    ensures r.None? ==> forall k :: 0 <= k < |xs| ==> !p(xs[k])
  {
    if xs == [] then
      None
    else if p(xs[0]) then
      Some(0)
    else
      match FindIndex(xs[1..], p)
      case None => None
      case Some(i) => Some(i + 1)
  }

  /**
   * `voices.find(preferred) || voices.find(korean)`: the first preferred voice if there is one,
   * otherwise the first Korean voice; none exactly when no voice is Korean.
   */
  function PickVoice(voices: seq<Voice>, names: seq<string>): (r: Option<Voice>)
    ensures forall i :: FirstPreferred(voices, names, i) ==> r == Some(voices[i])
    ensures (forall k :: 0 <= k < |voices| ==> !Preferred(voices[k], names)) ==>
      forall i :: FirstKorean(voices, i) ==> r == Some(voices[i])
    ensures r.None? <==> forall k :: 0 <= k < |voices| ==> !SpeaksKorean(voices[k])
  {
    match FindIndex(voices, v => Preferred(v, names))
    case Some(i) =>
      PreferredSpeaksKorean(voices[i], names);
      Some(voices[i])
    case None =>
      match FindIndex(voices, SpeaksKorean)
      case Some(j) => Some(voices[j])
      case None => None
  }

  /** A Korean-tagged utterance of `text` in the voice chosen with the preferred `names`. */
  function KoreanUtterance(text: string, voices: seq<Voice>, names: seq<string>): (u: Utterance)
    ensures u.text == text && u.lang == KoreanTag
    ensures u.voice == PickVoice(voices, names)
    ensures u.voice.Some? ==> u.voice.value in voices && SpeaksKorean(u.voice.value)
  {
    var v := PickVoice(voices, names);
    assert v.Some? ==> exists i :: FirstPreferred(voices, names, i) || FirstKorean(voices, i) by {
      if v.Some? {
        FirstExists(voices, names);
      }
    }
    Utterance(text, v, KoreanTag)
  }

  /** When some voice is Korean, the first preferred or the first Korean voice exists. */
  lemma FirstExists(voices: seq<Voice>, names: seq<string>)
    requires exists k :: 0 <= k < |voices| && SpeaksKorean(voices[k])
    ensures exists i :: FirstPreferred(voices, names, i) || FirstKorean(voices, i)
  {
    var j := FindIndex(voices, SpeaksKorean);
    assert FirstKorean(voices, j.value);
  }

  /**
   * A preferred voice wins over an earlier Korean one, a voice with a preferred name but another
   * language is skipped, and without a preferred voice the first Korean one is taken.
   */
  lemma PickVoiceExample()
    ensures PickVoice([Voice("en-US", "Yuna"), Voice("ko", "X"), Voice("ko-KR", "Yuna")], ViewerVoiceNames)
      == Some(Voice("ko-KR", "Yuna"))
    ensures PickVoice([Voice("en-US", "Yuna"), Voice("ko", "X")], ViewerVoiceNames)
      == Some(Voice("ko", "X"))
  {
    var voices := [Voice("en-US", "Yuna"), Voice("ko", "X"), Voice("ko-KR", "Yuna")];
    assert !SpeaksKorean(voices[0]) by {
      assert voices[0].lang[..2] == "en";
    }
    assert !Preferred(voices[1], ViewerVoiceNames) by {
      forall j | 0 <= j < |ViewerVoiceNames| ensures !Includes("X", ViewerVoiceNames[j]) {
      }
    }
    assert Preferred(voices[2], ViewerVoiceNames) by {
      assert OccursAt("Yuna", "Yuna", 0);
      assert Includes("Yuna", ViewerVoiceNames[2]);
    }
    assert FirstPreferred(voices, ViewerVoiceNames, 2);
    var fewer := voices[..2];
    assert FirstKorean(fewer, 1);
  }
}
