/**
 * The session controller (App.tsx): one `AppState` cell and the editable script, changed by the
 * upload, the analysis, the video generation, the close button and the script editor. Each
 * asynchronous handler is split into the phase that runs before its remote call (`Begin…`) and
 * the phase that runs when the call settles (`…Completed`, with the call's outcome as input).
 */
module Session {
  import opened Wrappers
  import opened JsString
  import opened Types
  import opened Speech
  import opened Gemini

  const AnalyzingMessage: string := "명리학적으로 대본을 분석하고 있습니다..."
  const AnalysisFailedMessage: string := "분석에 실패했습니다."
  const GeneratingMessage: string := "12지신이 쏟아지는 우주 영상을 빚어내고 있습니다..."
  const GeneratedMessage: string := "영상 제작 완료!"
  const GenerationFailedMessage: string := "생성 실패. 유료 계정 키인지 확인하세요."

  /** The error text after which the key selector of the host is opened again. */
  const EntityNotFound: string := "Requested entity was not found."

  /**
   * The two state cells of the controller, and whether a remote call that a begin phase started
   * has yet to settle (the `await` the handler is suspended on).
   */
  datatype State = State(app: AppState, script: string, inFlight: bool)

  /** The session when the page opens. */
  const Initial: State := State(AppState(Setup, None, None, None, false, ""), "", false)

  /** `handleImageUpload`: a chosen file's data URL becomes the screenshot; no file, no change. */
  function Uploaded(s: State, file: Option<string>): State {
    match file
    case None => s
    case Some(dataUrl) => s.(app := s.app.(screenshotBase64 := Some(dataUrl)))
  }

  /**
   * The first phase of `startAnalysis`: busy with the analysing message and the analysis call in
   * flight, if there is a screenshot.
   */
  function AnalysisBegun(s: State): State {
    if !Truthy(s.app.screenshotBase64) then s
    else s.(app := s.app.(isGenerating := true, statusMessage := AnalyzingMessage), inFlight := true)
  }

  /**
   * Whether the `catch` of `startAnalysis` throws before its state update: the error mentions the
   * missing entity, so it calls `window.aistudio.openSelectKey()`, and outside the host page there
   * is no `window.aistudio` to call it on.
   */
  predicate CatchThrows(r: Result<ViralAnalysis, string>, hostPresent: bool) {
    r.Failure? && Includes(r.error, EntityNotFound) && !hostPresent
  }

  /**
   * The second phase of `startAnalysis`, when the call settles: on success the analysis screen
   * with the result and its suggested script; on failure, not busy, with the failure message,
   * unless the `catch` throws first, which leaves the cells as the first phase set them.
   */
  function AnalysisCompleted(s: State, r: Result<ViralAnalysis, string>, hostPresent: bool): State {
    match r
    case Success(a) =>
      s.(app := s.app.(step := Analysis, analysis := Some(a), isGenerating := false, statusMessage := ""),
         script := a.suggestedFortuneScript, inFlight := false)
    case Failure(_) =>
      if CatchThrows(r, hostPresent) then s.(inFlight := false)
      else s.(app := s.app.(isGenerating := false, statusMessage := AnalysisFailedMessage), inFlight := false)
  }

  /**
   * The first phase of `startVideoGeneration`: busy on the generation screen with no video yet,
   * if the script is not empty.
   */
  function GenerationBegun(s: State): State {
    if s.script == "" then s
    else s.(app := s.app.(isGenerating := true, step := Generation, videoUrl := None,
                          statusMessage := GeneratingMessage), inFlight := true)
  }

  /** The second phase of `startVideoGeneration`: the video URL on success, the failure message otherwise. */
  function GenerationCompleted(s: State, r: Result<string, string>): State {
    match r
    case Success(url) =>
      s.(app := s.app.(videoUrl := Some(url), isGenerating := false, statusMessage := GeneratedMessage),
         inFlight := false)
    case Failure(_) =>
      s.(app := s.app.(isGenerating := false, statusMessage := GenerationFailedMessage), inFlight := false)
  }

  /** The close button of the analysis screen. */
  function Closed(s: State): State {
    s.(app := s.app.(step := Setup))
  }

  /** The script editor's `onChange`. */
  function Edited(s: State, v: string): State {
    s.(script := v)
  }

  /** The analyse button is enabled only with a screenshot and nothing in progress. */
  predicate AnalyzeEnabled(s: State) {
    Truthy(s.app.screenshotBase64) && !s.app.isGenerating
  }

  /** The analysis screen, with its close button, editor and generate button, is shown. */
  predicate AnalysisShown(s: State) {
    s.app.step == Analysis && s.app.analysis.Some?
  }

  /** On the generation screen with nothing in progress, the video when there is one. */
  predicate VideoShown(s: State) {
    s.app.step == Generation && !s.app.isGenerating && Truthy(s.app.videoUrl)
  }

  /** On the generation screen with nothing in progress and no video, the error and the retry button. */
  predicate RetryShown(s: State) {
    s.app.step == Generation && !s.app.isGenerating && !Truthy(s.app.videoUrl)
  }

  /** The generation screen's result panel, with its speech button, is shown. */
  predicate TtsShown(s: State) {
    s.app.step == Generation && !s.app.isGenerating
  }

  /** Everything that happens to the session: the user's actions and the settling of the remote calls. */
  datatype Event =
    | Upload(file: Option<string>)
    | BeginAnalysis
    | AnalysisDone(analysis: Result<ViralAnalysis, string>, hostPresent: bool)
    | BeginGeneration
    | GenerationDone(video: Result<string, string>)
    | Close
    | Edit(text: string)

  /**
   * When an event can happen: the controls exist only on their screen (the analyse button also
   * only while nothing is in progress), and a remote call settles only while it is in flight, on
   * the screen that started it.
   */
  predicate Enabled(s: State, e: Event) {
    match e
    case Upload(_) => s.app.step == Setup
    case BeginAnalysis => s.app.step == Setup && !s.app.isGenerating
    case AnalysisDone(_, _) => s.app.step == Setup && s.inFlight
    case BeginGeneration => AnalysisShown(s) || RetryShown(s)
    case GenerationDone(_) => s.app.step == Generation && s.inFlight
    case Close => AnalysisShown(s)
    case Edit(_) => AnalysisShown(s)
  }

  function Step(s: State, e: Event): State {
    match e
    case Upload(file) => Uploaded(s, file)
    case BeginAnalysis => AnalysisBegun(s)
    case AnalysisDone(r, host) => AnalysisCompleted(s, r, host)
    case BeginGeneration => GenerationBegun(s)
    case GenerationDone(r) => GenerationCompleted(s, r)
    case Close => Closed(s)
    case Edit(v) => Edited(s, v)
  }

  /**
   * What holds of every reachable session: a call is in flight only while busy, and never on the
   * analysis screen; the analysis screen has an analysis and is never busy; the generation screen
   * has an analysis and a non-empty script, and has no video while busy.
   */
  predicate Wellformed(s: State) {
    && (s.inFlight ==> s.app.isGenerating && s.app.step != Analysis)
    && (s.app.step == Analysis ==> s.app.analysis.Some? && !s.app.isGenerating)
    && (s.app.step == Generation ==> s.app.analysis.Some? && s.script != "")
    && (s.app.step == Generation && s.app.isGenerating ==> s.app.videoUrl.None?)
  }

  /** The only screen changes: SETUP to ANALYSIS, ANALYSIS to SETUP, ANALYSIS to GENERATION. */
  predicate StepEdge(a: AppStep, b: AppStep) {
    || (a == Setup && b == Analysis)
    || (a == Analysis && b == Setup)
    || (a == Analysis && b == Generation)
  }

  /** Every enabled event keeps the session well formed. */
  lemma StepKeepsWellformed(s: State, e: Event)
    requires Wellformed(s) && Enabled(s, e)
    ensures Wellformed(Step(s, e))
  {
  }

  /**
   * The screen changes only along `StepEdge`, and each edge has one cause: a successful analysis,
   * the close button, or a generation begun from the analysis screen. Generating again from the
   * generation screen stays on it.
   */
  lemma StepChangesOnlyAlongEdges(s: State, e: Event)
    requires Wellformed(s) && Enabled(s, e)
    ensures var t := Step(s, e).app.step;
      t != s.app.step ==> StepEdge(s.app.step, t)
    ensures var t := Step(s, e).app.step;
      && (s.app.step == Setup ==> (t == Analysis <==> e.AnalysisDone? && e.analysis.Success?))
      && (s.app.step == Analysis ==> (t == Setup <==> e == Close))
      && (s.app.step == Analysis ==> (t == Generation <==> e == BeginGeneration && s.script != ""))
      && (s.app.step == Generation ==> t == Generation)
  {
  }

  /**
   * The busy flag goes up only when a begin phase starts a call, and comes down only when that
   * call settles.
   */
  lemma BusyFlagDiscipline(s: State, e: Event)
    requires Wellformed(s) && Enabled(s, e)
    ensures !s.app.isGenerating && Step(s, e).app.isGenerating ==>
      (e == BeginAnalysis && Truthy(s.app.screenshotBase64)) || (e == BeginGeneration && s.script != "")
    ensures s.app.isGenerating && !Step(s, e).app.isGenerating ==> e.AnalysisDone? || e.GenerationDone?
  {
  }

  /** The session after the events `es`, in order. */
  function Run(s: State, es: seq<Event>): State
    decreases |es|
  {
    if es == [] then s else Run(Step(s, es[0]), es[1..])
  }

  /** Each event of `es` is enabled when it happens. */
  predicate Possible(s: State, es: seq<Event>)
    decreases |es|
  {
    es == [] || (Enabled(s, es[0]) && Possible(Step(s, es[0]), es[1..]))
  }

  /** Every session reachable from the opening one is well formed. */
  lemma {:induction false} RunKeepsWellformed(s: State, es: seq<Event>)
    requires Wellformed(s) && Possible(s, es)
    ensures Wellformed(Run(s, es))
    decreases |es|
  {
    if es != [] {
      StepKeepsWellformed(s, es[0]);
      RunKeepsWellformed(Step(s, es[0]), es[1..]);
    }
  }

  /**
   * The analyse button is enabled exactly when pressing it starts an analysis; without a
   * screenshot the handler changes nothing.
   */
  lemma AnalyzeButtonGuard(s: State)
    requires s.app.step == Setup && !s.app.isGenerating
    ensures AnalyzeEnabled(s) <==> AnalysisBegun(s).app.isGenerating
    ensures !AnalyzeEnabled(s) ==> AnalysisBegun(s) == s
  {
  }

  /** Beginning an analysis changes only the busy flag and the message. */
  lemma AnalysisBegunFrame(s: State)
    requires Truthy(s.app.screenshotBase64)
    ensures var t := AnalysisBegun(s);
      && t.app.isGenerating && t.app.statusMessage == AnalyzingMessage
      && t.app.step == s.app.step && t.app.screenshotBase64 == s.app.screenshotBase64
      && t.app.analysis == s.app.analysis && t.app.videoUrl == s.app.videoUrl && t.script == s.script
  {
  }

  /**
   * A settled analysis has no call in flight, and unless the `catch` throws it is not busy.
   * Success opens the analysis screen on the result with its suggested script; failure keeps the
   * screen, the analysis and the script. Either way the screenshot and the video are kept.
   */
  lemma AnalysisCompletedFrame(s: State, r: Result<ViralAnalysis, string>, hostPresent: bool)
    ensures var t := AnalysisCompleted(s, r, hostPresent);
      && !t.inFlight
      && (!t.app.isGenerating <==> !CatchThrows(r, hostPresent) || !s.app.isGenerating)
      && t.app.screenshotBase64 == s.app.screenshotBase64 && t.app.videoUrl == s.app.videoUrl
      && (r.Success? ==>
            && AnalysisShown(t) && t.app.analysis == Some(r.value) && t.app.statusMessage == ""
            && t.script == r.value.suggestedFortuneScript)
      && (r.Failure? ==>
            && t.app.step == s.app.step && t.app.analysis == s.app.analysis && t.script == s.script)
      && (r.Failure? && !CatchThrows(r, hostPresent) ==> t.app.statusMessage == AnalysisFailedMessage)
      && (CatchThrows(r, hostPresent) ==> t.app == s.app)
  {
  }

  /**
   * Outside the host page, an analysis that fails with the missing-entity error leaves the setup
   * screen busy with the analysing message for good: no call is in flight, so the only event
   * still possible is choosing another file, and that keeps it busy.
   */
  lemma {:induction false} AnalysisStuckWithoutHost(s: State, r: Result<ViralAnalysis, string>, es: seq<Event>)
    requires Wellformed(s) && Enabled(s, BeginAnalysis) && Truthy(s.app.screenshotBase64)
    requires CatchThrows(r, false)
    requires Possible(AnalysisCompleted(AnalysisBegun(s), r, false), es)
    ensures forall k :: 0 <= k < |es| ==> es[k].Upload?
    ensures var t := Run(AnalysisCompleted(AnalysisBegun(s), r, false), es);
      t.app.step == Setup && t.app.isGenerating && t.app.statusMessage == AnalyzingMessage && !t.inFlight
  {
    StuckStaysStuck(AnalysisCompleted(AnalysisBegun(s), r, false), es);
  }

  /** A setup screen that is busy with no call in flight admits only uploads, which keep it so. */
  lemma {:induction false} StuckStaysStuck(s: State, es: seq<Event>)
    requires s.app.step == Setup && s.app.isGenerating && !s.inFlight
    requires Possible(s, es)
    ensures forall k :: 0 <= k < |es| ==> es[k].Upload?
    ensures var t := Run(s, es);
      t.app.step == Setup && t.app.isGenerating && t.app.statusMessage == s.app.statusMessage && !t.inFlight
    decreases |es|
  {
    if es != [] {
      var next := Step(s, es[0]);
      assert es[0].Upload?;
      StuckStaysStuck(next, es[1..]);
      forall k | 0 <= k < |es| ensures es[k].Upload? {
        if k > 0 {
          assert es[k] == es[1..][k - 1];
        }
      }
    }
  }

  /** Generating from an empty script changes nothing; otherwise the generation screen is busy, with no video. */
  lemma GenerationBegunFrame(s: State)
    ensures s.script == "" ==> GenerationBegun(s) == s
    ensures s.script != "" ==>
      var t := GenerationBegun(s);
      && t.app.step == Generation && t.app.isGenerating && t.app.videoUrl.None?
      && t.app.screenshotBase64 == s.app.screenshotBase64 && t.app.analysis == s.app.analysis
      && t.script == s.script
  {
  }

  /**
   * A generation that fails after it began leaves no video, so the retry button is shown; one that
   * succeeds with a non-empty URL shows the video.
   */
  lemma GenerationOutcomeShown(s: State, r: Result<string, string>)
    requires s.script != ""
    ensures r.Failure? ==> RetryShown(GenerationCompleted(GenerationBegun(s), r))
    ensures r.Success? && r.value != "" ==> VideoShown(GenerationCompleted(GenerationBegun(s), r))
  {
  }

  /** Upload changes only the screenshot. */
  lemma UploadFrame(s: State, file: Option<string>)
    ensures Uploaded(s, file).script == s.script
    ensures Uploaded(s, file).app == s.app.(screenshotBase64 := Uploaded(s, file).app.screenshotBase64)
  {
  }

  /** Closing changes only the screen. */
  lemma CloseFrame(s: State)
    ensures Closed(s).script == s.script && Closed(s).app == s.app.(step := Closed(s).app.step)
  {
  }

  /**
   * The mounted controller: the two state cells, and the effects it hands to the service client,
   * the host and the browser, recorded in order.
   */
  class App {
    var state: AppState
    var editableScript: string
    /** A remote call started by a begin phase has not settled yet. */
    var inFlight: bool
    /** The screenshots handed to `analyzeViralShorts`. */
    var analysisCalls: seq<string>
    /** The scripts handed to `generateFortuneVideo`. */
    var videoCalls: seq<string>
    /** The number of `window.aistudio.openSelectKey` calls. */
    var keySelectorOpens: nat
    /** The number of `speechSynthesis.cancel` calls. */
    var cancels: nat
    /** The utterances handed to `speechSynthesis.speak`. */
    var spoken: seq<Utterance>
    /** The confetti bursts fired when an utterance ends. */
    var celebrations: nat

    function Snapshot(): State
      reads this
    {
      State(state, editableScript, inFlight)
    }

    predicate Valid()
      reads this
    {
      Wellformed(Snapshot())
    }

    constructor ()
      ensures Snapshot() == Initial && Valid()
      ensures analysisCalls == [] && videoCalls == [] && keySelectorOpens == 0
      ensures cancels == 0 && spoken == [] && celebrations == 0
    {
      state := AppState(Setup, None, None, None, false, "");
      editableScript := "";
      inFlight := false;
      analysisCalls := [];
      videoCalls := [];
      keySelectorOpens := 0;
      cancels := 0;
      spoken := [];
      celebrations := 0;
    }

    method HandleImageUpload(file: Option<string>)
      requires Valid() && Enabled(Snapshot(), Upload(file))
      modifies this`state
      ensures Snapshot() == Uploaded(old(Snapshot()), file) && Valid()
    {
      StepKeepsWellformed(Snapshot(), Upload(file));
      if file.Some? {
        state := state.(screenshotBase64 := Some(file.value));
      }
    }

    /** The first phase of `startAnalysis`, which hands the screenshot to the analysis call. */
    method StartAnalysis()
      requires Valid() && Enabled(Snapshot(), BeginAnalysis)
      modifies this`state, this`inFlight, this`analysisCalls
      ensures Snapshot() == AnalysisBegun(old(Snapshot())) && Valid()
      ensures analysisCalls == old(analysisCalls) +
        (if Truthy(old(state.screenshotBase64)) then [old(state.screenshotBase64.value)] else [])
    {
      StepKeepsWellformed(Snapshot(), BeginAnalysis);
      if !Truthy(state.screenshotBase64) {
        return;
      }
      state := state.(isGenerating := true, statusMessage := AnalyzingMessage);
      inFlight := true;
      analysisCalls := analysisCalls + [state.screenshotBase64.value];
    }

    /**
     * The second phase of `startAnalysis`. On failure the host's key selector is reopened exactly
     * when the error message mentions the missing entity; `hostPresent` says whether the page runs
     * inside the host that provides `window.aistudio`. Without it that call throws and the
     * handler ends there.
     */
    method CompleteAnalysis(r: Result<ViralAnalysis, string>, hostPresent: bool)
      requires Valid() && Enabled(Snapshot(), AnalysisDone(r, hostPresent))
      modifies this`state, this`editableScript, this`inFlight, this`keySelectorOpens
      ensures Snapshot() == AnalysisCompleted(old(Snapshot()), r, hostPresent) && Valid()
      ensures keySelectorOpens == old(keySelectorOpens) +
        (if r.Failure? && Includes(r.error, EntityNotFound) && hostPresent then 1 else 0)
    {
      StepKeepsWellformed(Snapshot(), AnalysisDone(r, hostPresent));
      inFlight := false;
      match r
      case Success(result) =>
        state := state.(step := Analysis, analysis := Some(result), isGenerating := false,
                        statusMessage := "");
        editableScript := result.suggestedFortuneScript;
      case Failure(message) =>
        if Includes(message, EntityNotFound) {
          if !hostPresent {
            return;
          }
          keySelectorOpens := keySelectorOpens + 1;
        }
        state := state.(isGenerating := false, statusMessage := AnalysisFailedMessage);
    }

    /** The first phase of `startVideoGeneration`, from the generate or the retry button. */
    method StartVideoGeneration()
      requires Valid() && Enabled(Snapshot(), BeginGeneration)
      modifies this`state, this`inFlight, this`videoCalls
      ensures Snapshot() == GenerationBegun(old(Snapshot())) && Valid()
      ensures videoCalls == old(videoCalls) + (if old(editableScript) == "" then [] else [old(editableScript)])
    {
      StepKeepsWellformed(Snapshot(), BeginGeneration);
      if editableScript == "" {
        return;
      }
      state := state.(isGenerating := true, step := Generation, videoUrl := None,
                      statusMessage := GeneratingMessage);
      inFlight := true;
      videoCalls := videoCalls + [editableScript];
    }

    /** The second phase of `startVideoGeneration`. */
    method CompleteGeneration(r: Result<string, string>)
      requires Valid() && Enabled(Snapshot(), GenerationDone(r))
      modifies this`state, this`inFlight
      ensures Snapshot() == GenerationCompleted(old(Snapshot()), r) && Valid()
      ensures r.Failure? ==> RetryShown(Snapshot())
    {
      StepKeepsWellformed(Snapshot(), GenerationDone(r));
      inFlight := false;
      match r
      case Success(url) =>
        state := state.(videoUrl := Some(url), isGenerating := false, statusMessage := GeneratedMessage);
      case Failure(_) =>
        state := state.(isGenerating := false, statusMessage := GenerationFailedMessage);
    }

    method Close()
      requires Valid() && Enabled(Snapshot(), Event.Close)
      modifies this`state
      ensures Snapshot() == Closed(old(Snapshot())) && Valid()
    {
      StepKeepsWellformed(Snapshot(), Event.Close);
      state := state.(step := Setup);
    }

    method EditScript(v: string)
      requires Valid() && Enabled(Snapshot(), Edit(v))
      modifies this`editableScript
      ensures Snapshot() == Edited(old(Snapshot()), v) && Valid()
    {
      StepKeepsWellformed(Snapshot(), Edit(v));
      editableScript := v;
    }

    /**
     * `handleTTS`: with an empty script nothing happens; otherwise any speech is cancelled and the
     * script is spoken in the chosen Korean voice. The state cells are not touched. Its button is
     * rendered only in the result panel of the generation screen.
     */
    method HandleTts(voices: seq<Voice>)
      requires TtsShown(Snapshot())
      modifies this`cancels, this`spoken
      ensures editableScript == "" ==> cancels == old(cancels) && spoken == old(spoken)
      ensures editableScript != "" ==>
        && cancels == old(cancels) + 1
        && spoken == old(spoken) + [KoreanUtterance(editableScript, voices, SessionVoiceNames)]
    {
      if editableScript == "" {
        return;
      }
      cancels := cancels + 1;
      spoken := spoken + [KoreanUtterance(editableScript, voices, SessionVoiceNames)];
    }

    /** `utter.onend`: a burst of confetti. */
    method OnTtsEnd()
      modifies this`celebrations
      ensures celebrations == old(celebrations) + 1
    {
      celebrations := celebrations + 1;
    }
  }
}
