/**
 * The fortune viewer (components/FortuneViewer.tsx): the birth-year list it derives from its
 * script, the lucky-pig blessing counter and overlay, the play/stop toggle of the spoken title,
 * and the shower of money confetti that follows the speech or the confetti button.
 */
module Viewer {
  import opened Wrappers
  import opened BirthYears
  import opened Speech

  /** What is read after the title: "Press the lucky pig at the bottom twice and luck will come." */
  const GuideSentence: string := ". 화면 하단의 복돼지를 두 번 누르시면 복이 찾아옵니다."

  /** The money shower lasts this many milliseconds from its start. */
  const ShowerDuration: int := 3000

  /** The interval timer of the shower fires every this many milliseconds. */
  const ShowerInterval: int := 50

  /**
   * The bursts of one money shower that ends at `end`, when the interval timer reads the clock
   * values `clock` in turn: every reading with time left (`end - now > 0`) fires a burst, and the
   * first reading without time left clears the timer.
   */
  function Bursts(end: int, clock: seq<int>): (n: nat)
    ensures n <= |clock|
    ensures forall k :: 0 <= k < n ==> clock[k] < end
    ensures n < |clock| ==> clock[n] >= end
  {
    if clock == [] || end - clock[0] <= 0 then 0 else 1 + Bursts(end, clock[1..])
  }

  /**
   * The interval callback of `triggerMoneyConfetti`, run on the successive clock readings: it
   * stops at the first reading with no time left, and fires one burst per earlier reading.
   */
  method MoneyShower(start: int, clock: seq<int>) returns (bursts: nat)
    ensures bursts == Bursts(start + ShowerDuration, clock)
  {
    var end := start + ShowerDuration;
    bursts := 0;
    var stopped := false;
    while bursts < |clock| && !stopped
      invariant bursts <= |clock|
      invariant forall k :: 0 <= k < bursts ==> clock[k] < end
      invariant stopped ==> bursts < |clock| && clock[bursts] >= end
      decreases |clock| - bursts, !stopped
    {
      var timeLeft := end - clock[bursts];
      if timeLeft <= 0 {
        stopped := true;
      } else {
        bursts := bursts + 1;
      }
    }
    BurstsIsLeadingRun(end, clock, bursts);
  }

  /** `Bursts` is the length of the leading run of readings before the end. */
  lemma {:induction false} BurstsIsLeadingRun(end: int, clock: seq<int>, n: nat)
    requires n <= |clock|
    requires forall k :: 0 <= k < n ==> clock[k] < end
    requires n < |clock| ==> clock[n] >= end
    ensures Bursts(end, clock) == n
  {
    if n > 0 {
      BurstsIsLeadingRun(end, clock[1..], n - 1);
    }
  }

  /**
   * On a clock that ticks exactly every 50 milliseconds, the shower fires 59 bursts: at 50, 100,
   * ..., 2950 milliseconds; the tick at 3000 has no time left and stops it.
   */
  lemma {:induction false} NominalShower(start: int, clock: seq<int>)
    requires |clock| >= ShowerDuration / ShowerInterval
    requires forall k :: 0 <= k < |clock| ==> clock[k] == start + ShowerInterval * (k + 1)
    ensures Bursts(start + ShowerDuration, clock) == ShowerDuration / ShowerInterval - 1
  {
    var n := ShowerDuration / ShowerInterval - 1;
    assert clock[n] == start + ShowerDuration;
    BurstsIsLeadingRun(start + ShowerDuration, clock, n);
  }

  /** The viewer's state cells, with the effects it hands to the browser recorded as counters. */
  class FortuneViewer {
    /** The title prop, which is read aloud. */
    const title: string
    /** Whether `window.confetti` is present; every confetti effect is skipped without it. */
    const hasConfetti: bool
    /** The script prop. */
    var script: string
    var birthYears: seq<string>
    var blessingCount: nat
    var showBlessing: bool
    var isPlaying: bool
    /** The utterances handed to `speechSynthesis.speak`, in order. */
    var spoken: seq<Utterance>
    /** The number of `speechSynthesis.cancel` calls. */
    var cancels: nat
    /** The one-shot bursts of the double-click. */
    var blessingBursts: nat
    /** The bursts of all money showers. */
    var moneyBursts: nat

    /** Mounting: every cell at its initial value, then the effect on `script` fills the list. */
    constructor (title: string, script: string, hasConfetti: bool)
      ensures this.title == title && this.script == script && this.hasConfetti == hasConfetti
      ensures birthYears == BirthYearList(script)
      ensures blessingCount == 0 && !showBlessing && !isPlaying
      ensures spoken == [] && cancels == 0 && blessingBursts == 0 && moneyBursts == 0
    {
      this.title := title;
      this.script := script;
      this.hasConfetti := hasConfetti;
      birthYears := BirthYearList(script);
      blessingCount := 0;
      showBlessing := false;
      isPlaying := false;
      spoken := [];
      cancels := 0;
      blessingBursts := 0;
      moneyBursts := 0;
    }

    /** A new script prop: the effect recomputes the birth-year list, and nothing else changes. */
    method ScriptChanged(newScript: string)
      modifies this`script, this`birthYears
      ensures script == newScript && birthYears == BirthYearList(newScript)
    {
      script := newScript;
      birthYears := BirthYearList(newScript);
    }

    /**
     * `handlePigDoubleClick`: one more blessing, the overlay shown, one burst when confetti is
     * available; nothing else changes.
     */
    method PigDoubleClick()
      modifies this`blessingCount, this`showBlessing, this`blessingBursts
      ensures blessingCount == old(blessingCount) + 1 && showBlessing
      ensures blessingBursts == old(blessingBursts) + (if hasConfetti then 1 else 0)
    {
      blessingCount := blessingCount + 1;
      showBlessing := true;
      if hasConfetti {
        blessingBursts := blessingBursts + 1;
      }
    }

    /** The timeout 2.5 seconds after a double-click hides the overlay. */
    method BlessingTimeout()
      modifies this`showBlessing
      ensures !showBlessing
    {
      showBlessing := false;
    }

    /**
     * `handlePlayTTS`: while playing, it cancels the speech and stops, speaking nothing new;
     * otherwise it starts playing and speaks the title and the guide sentence in the chosen
     * voice.
     */
    method PlayTts(voices: seq<Voice>)
      modifies this`isPlaying, this`spoken, this`cancels
      ensures isPlaying == !old(isPlaying)
      ensures old(isPlaying) ==> cancels == old(cancels) + 1 && spoken == old(spoken)
      ensures !old(isPlaying) ==> cancels == old(cancels)
      ensures !old(isPlaying) ==>
        spoken == old(spoken) + [KoreanUtterance(title + GuideSentence, voices, ViewerVoiceNames)]
    {
      if isPlaying {
        cancels := cancels + 1;
        isPlaying := false;
        return;
      }
      isPlaying := true;
      var utterance := KoreanUtterance(title + GuideSentence, voices, ViewerVoiceNames);
      spoken := spoken + [utterance];
    }

    /**
     * `utterance.onend`: playing stops and the money shower runs (from `start`, on the clock
     * readings `clock`) when confetti is available.
     */
    method SpeechEnded(start: int, clock: seq<int>)
      modifies this`isPlaying, this`moneyBursts
      ensures !isPlaying
      ensures moneyBursts == old(moneyBursts) + (if hasConfetti then Bursts(start + ShowerDuration, clock) else 0)
    {
      isPlaying := false;
      TriggerMoneyShower(start, clock);
    }

    /** `utterance.onerror`: playing stops. */
    method SpeechFailed()
      modifies this`isPlaying
      ensures !isPlaying
    {
      isPlaying := false;
    }

    /** `triggerMoneyConfetti`, also bound to the confetti button: a shower if confetti is available. */
    method TriggerMoneyShower(start: int, clock: seq<int>)
      modifies this`moneyBursts
      ensures moneyBursts == old(moneyBursts) + (if hasConfetti then Bursts(start + ShowerDuration, clock) else 0)
    {
      if hasConfetti {
        var bursts := MoneyShower(start, clock);
        moneyBursts := moneyBursts + bursts;
      }
    }
  }
}
