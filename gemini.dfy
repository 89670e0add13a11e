/**
 * The client of the AI service (services/geminiService.ts): the pure steps around the two remote
 * calls, namely choosing the credential, cutting the image payload out of a data URL, reading the
 * analysis reply, choosing the pig or toad motif and filling the video prompt, composing the
 * download URL, and the loop that polls the video operation until it is done. The remote calls
 * themselves are inputs: the first operation status and the statuses later polls return, whether
 * the download succeeded, and the object URL the browser made for it.
 */
module Gemini {
  import opened Wrappers
  import opened JsString

  /** The errors the client raises itself, before or between remote calls. */
  datatype ServiceError = MissingKey | UriMissing | FetchFailed

  /** A JavaScript value that is a string or absent (`undefined`, `null`) is truthy when non-empty. */
  predicate Truthy(v: Option<string>) {
    v.Some? && v.value != ""
  }

  /**
   * `window.GEMINI_API_KEY || localStorage.getItem('GEMINI_API_KEY')`, then the missing-key
   * check: the global wins when it is non-empty, the stored entry is the fallback, and when
   * neither is non-empty the call fails before reaching the service.
   */
  function ResolveApiKey(global: Option<string>, stored: Option<string>): (r: Result<string, ServiceError>)
    ensures r.Success? <==> Truthy(global) || Truthy(stored)
    ensures r.Failure? ==> r.error == MissingKey
    ensures r.Success? ==> r.value != ""
    ensures Truthy(global) ==> r == Success(global.value)
    ensures !Truthy(global) && Truthy(stored) ==> r == Success(stored.value)
  {
    if Truthy(global) then Success(global.value)
    else if Truthy(stored) then Success(stored.value)
    else Failure(MissingKey)
  }

  /** The position of the first comma of `s`. */
  ghost predicate FirstComma(s: string, i: int) {
    0 <= i < |s| && s[i] == ',' && forall k :: 0 <= k < i ==> s[k] != ','
  }

  /**
   * `dataUrl.split(',')[1]`: absent (`undefined`) when the URL has no comma, otherwise the text
   * between the first comma and the next comma or the end.
   */
  function Payload(dataUrl: string): (r: Option<string>)
    ensures r.None? <==> ',' !in dataUrl
    ensures forall i :: FirstComma(dataUrl, i) ==>
      && r.Some? && ',' !in r.value && OccursAt(dataUrl, r.value, i + 1)
      && (i + 1 + |r.value| == |dataUrl| || dataUrl[i + 1 + |r.value|] == ',')
  {
    var parts := Split(dataUrl, ',');
    SplitHead(dataUrl, ',');
    if |parts| >= 2 then
      assert ',' in dataUrl by {
        assert Join(parts, ',') == parts[0] + [','] + Join(parts[1..], ',');
        assert dataUrl[|parts[0]|] == ',';
      }
      assert forall i :: FirstComma(dataUrl, i) ==> Split(dataUrl, ',')[1] == parts[1];
      forall i | FirstComma(dataUrl, i) { PayloadIsSecondPart(dataUrl, i); }
      Some(parts[1])
    else
      assert ',' !in dataUrl;
      None
  }

  /** The first part of a split that has a second one ends at the first comma. */
  lemma FirstCommaEndsHead(s: string, i: int)
    requires |Split(s, ',')| >= 2 && FirstComma(s, i)
    ensures |Split(s, ',')[0]| == i
  {
    var head := Split(s, ',')[0];
    SplitHead(s, ',');
    forall k | 0 <= k < |head| ensures s[k] != ',' {
      assert s[k] == head[k];
    }
    assert FirstComma(s, |head|);
  }

  /** The second part of the split starts right after the first comma and runs to the next one. */
  lemma PayloadIsSecondPart(s: string, i: int)
    requires |Split(s, ',')| >= 2 && FirstComma(s, i)
    ensures var p := Split(s, ',')[1];
      ',' !in p && OccursAt(s, p, i + 1) && (i + 1 + |p| == |s| || s[i + 1 + |p|] == ',')
  {
    FirstCommaEndsHead(s, i);
    SplitSecond(s, ',');
  }

  /** `response.text || '{}'`: the reply text, or an empty JSON object when it is empty or absent. */
  function ResponseJson(text: Option<string>): (r: string)
    ensures r != ""
    ensures Truthy(text) ==> r == text.value
    ensures !Truthy(text) ==> r == "{}"
  {
    if Truthy(text) then text.value else "{}"
  }

  const AnalysisModel: string := "gemini-3-pro-preview"
  const ImageMimeType: string := "image/png"

  /** The inline image part of the analysis request (the prompt text is not part of this model). */
  datatype AnalysisRequest = AnalysisRequest(model: string, data: Option<string>, mimeType: string)

  /**
   * What `analyzeViralShorts` asks of the service for `image`: nothing when no credential is
   * set, otherwise the analysis model on the image's payload as PNG.
   */
  function AnalyzeRequest(image: string, global: Option<string>, stored: Option<string>): (r: Result<AnalysisRequest, ServiceError>)
    ensures r.Failure? <==> !Truthy(global) && !Truthy(stored)
    ensures r.Failure? ==> r.error == MissingKey
    ensures r.Success? ==> r.value == AnalysisRequest(AnalysisModel, Payload(image), ImageMimeType)
  {
    match ResolveApiKey(global, stored)
    case Failure(e) => Failure(e)
    case Success(_) => Success(AnalysisRequest(AnalysisModel, Payload(image), ImageMimeType))
  }

  /** The word "pig" the motif choice looks for. */
  const PigWord: string := "돼지"

  /** `a + b` occurs in `s` only where `b` occurs in `s` too. */
  lemma OccursOfSuffix(s: string, a: string, b: string)
    requires Occurs(s, a + b)
    ensures Occurs(s, b)
  {
    var k :| OccursAt(s, a + b, k);
    assert s[k + |a|..k + |a| + |b|] == (a + b)[|a|..];
    assert OccursAt(s, b, k + |a|);
  }

  /**
   * `isPig`: the script with all whitespace removed includes "돼지", "돈돼지" or "복돼지". The
   * last two contain the first, so the choice is exactly whether "돼지" occurs once whitespace is
   * removed.
   */
  function IsPig(script: string): (r: bool)
    ensures r <==> Occurs(RemoveWhitespace(script), PigWord)
  {
    var clean := RemoveWhitespace(script);
    assert "돈" + PigWord == "돈돼지" && "복" + PigWord == "복돼지";
    if Includes(clean, "돈돼지") then
      OccursOfSuffix(clean, "돈", PigWord);
      true
    else if Includes(clean, "복돼지") then
      OccursOfSuffix(clean, "복", PigWord);
      true
    else
      Includes(clean, PigWord)
  }

  /** Inserting or deleting whitespace anywhere in the script never changes the motif. */
  lemma MotifIgnoresWhitespace(a: string, w: string, b: string)
    requires AllWhitespace(w)
    ensures IsPig(a + w + b) == IsPig(a + b)
  {
    WhitespaceInsertionInvisible(a, w, b);
  }

  /** "돼 지" (pig, with a space inside the word) still chooses the pig. */
  lemma SpacedPigExample()
    ensures IsPig("돼 지")
  {
    assert RemoveWhitespace("돼 지") == PigWord by {
      assert "돼 지"[1..] == " 지" && " 지"[1..] == "지" && "지"[1..] == [];
    }
    assert OccursAt(PigWord, PigWord, 0);
  }

  const PigPhrase: string := "a massive, glowing Golden Fortune Pig statue at the bottom center"
  const ToadPhrase: string := "a majestic, ruby-eyed Golden Fortune Toad statue at the bottom center"

  /** `focalObject`: the golden pig when the script speaks of a pig, the golden toad otherwise. */
  function FocalObject(script: string): (r: string)
    ensures r == PigPhrase <==> IsPig(script)
    ensures r == ToadPhrase <==> !IsPig(script)
  {
    assert |PigPhrase| != |ToadPhrase|;
    if IsPig(script) then PigPhrase else ToadPhrase
  }

  /** The video prompt template up to the slot for the focal object. */
  const PromptHead: string :=
    "\n    High-quality 9:16 vertical cinematic video. "
    + "\n    SCENE: A mysterious deep space universe background with glowing blue and purple nebulas."
    + "\n    MOTION: Diverse golden statues of the 12 Chinese zodiac animals (Dragon, Tiger, Snake, etc.) are falling gracefully like golden rain from the top to the bottom of the screen."
    + "\n    SUBJECT: At the bottom, "

  /** The video prompt template after the slot for the focal object. */
  const PromptTail: string :=
    " is sitting on a pile of gold coins, glowing intensely."
    + "\n    VISUAL STYLE: Photorealistic 3D animation, golden glowing light, luxury atmosphere, sparkles and particles."
    + "\n    NO TEXT: Ensure no text is visible in the video."
    + "\n  "

  /** `videoPrompt`: the template with the focal object in its one slot. */
  function VideoPrompt(script: string): (r: string)
    ensures |r| == |PromptHead| + |FocalObject(script)| + |PromptTail|
    ensures r[..|PromptHead|] == PromptHead && r[|r| - |PromptTail|..] == PromptTail
    ensures OccursAt(r, FocalObject(script), |PromptHead|)
  {
    var r := PromptHead + FocalObject(script) + PromptTail;
    assert r[|PromptHead|..|PromptHead| + |FocalObject(script)|] == FocalObject(script);
    r
  }

  /**
   * The prompt shows the motif: scripts with the same motif get the same prompt and scripts with
   * different motifs different prompts (the two phrases differ in length).
   */
  lemma PromptShowsMotif(a: string, b: string)
    ensures VideoPrompt(a) == VideoPrompt(b) <==> IsPig(a) == IsPig(b)
  {
    assert |PigPhrase| != |ToadPhrase|;
  }

  const VideoModel: string := "veo-3.1-fast-generate-preview"

  /** The `generateVideos` request: model, prompt and configuration. */
  datatype VideoRequest = VideoRequest(
    model: string, prompt: string, numberOfVideos: nat, resolution: string, aspectRatio: string)

  /** The request for `script`, at the default aspect ratio 9:16. */
  function VideoRequestFor(script: string): (r: VideoRequest)
    ensures r.model == VideoModel && r.prompt == VideoPrompt(script)
    ensures r.numberOfVideos == 1 && r.resolution == "720p" && r.aspectRatio == "9:16"
  {
    VideoRequest(VideoModel, VideoPrompt(script), 1, "720p", "9:16")
  }

  /** The parts of an operation status the client reads. */
  datatype VideoFile = VideoFile(uri: Option<string>)
  datatype GeneratedVideo = GeneratedVideo(video: Option<VideoFile>)
  datatype OperationResponse = OperationResponse(generatedVideos: Option<seq<GeneratedVideo>>)
  datatype Operation = Operation(done: bool, response: Option<OperationResponse>)

  /**
   * `operation.response?.generatedVideos?.[0]?.video?.uri`: the first video's URI, absent as
   * soon as any link of the chain is.
   */
  function DownloadLink(op: Operation): (r: Option<string>)
    ensures r.Some? <==>
      && op.response.Some? && op.response.value.generatedVideos.Some?
      && |op.response.value.generatedVideos.value| > 0
      && op.response.value.generatedVideos.value[0].video.Some?
      && op.response.value.generatedVideos.value[0].video.value.uri.Some?
    ensures r.Some? ==> r == op.response.value.generatedVideos.value[0].video.value.uri
  {
    match op.response
    case None => None
    case Some(response) =>
      match response.generatedVideos
      case None => None
      case Some(videos) =>
        if |videos| == 0 then None
        else
          match videos[0].video
          case None => None
          case Some(file) => file.uri
  }

  /** `${downloadLink}&key=${apiKey}`: the link, then the key as a query parameter. */
  function FetchUrl(link: string, key: string): (r: string)
    ensures |r| == |link| + 5 + |key|
    ensures r[..|link|] == link && r[|link|..|link| + 5] == "&key=" && r[|link| + 5..] == key
  {
    link + "&key=" + key
  }

  /**
   * The number of polls the loop makes: none once a status is done, otherwise one more for each
   * further status, until a done one or the end of the statuses supplied.
   */
  function PollCount(first: Operation, updates: seq<Operation>): (n: nat)
    ensures n <= |updates|
    ensures forall k :: 0 <= k < n ==> !Current(first, updates, k).done
    ensures n < |updates| ==> Current(first, updates, n).done
    decreases |updates|
  {
    if first.done || updates == [] then
      0
    else
      var n := 1 + PollCount(updates[0], updates[1..]);
      assert forall k :: 1 <= k <= n ==> Current(first, updates, k) == Current(updates[0], updates[1..], k - 1);
      n
  }

  /** The status held after `k` polls. */
  function Current(first: Operation, updates: seq<Operation>, k: nat): Operation
    requires k <= |updates|
  {
    if k == 0 then first else updates[k - 1]
  }

  /**
   * `while (!operation.done) operation = await getVideosOperation(...)`: the loop leaves only on
   * a done status; each poll replaces the status with the next one supplied. When the supplied
   * statuses run out first, the operation is still running.
   */
  method PollUntilDone(first: Operation, updates: seq<Operation>) returns (op: Operation, polls: nat)
    ensures polls == PollCount(first, updates)
    ensures polls <= |updates| && op == Current(first, updates, polls)
    ensures op.done || polls == |updates|
  {
    op := first;
    polls := 0;
    while !op.done && polls < |updates|
      invariant polls <= |updates| && op == Current(first, updates, polls)
      invariant forall k :: 0 <= k < polls ==> !Current(first, updates, k).done
    {
      op := updates[polls];
      polls := polls + 1;
    }
    PollCountIsFirstDone(first, updates, polls);
  }

  /** `PollCount` is the index of the first done status, or the number of statuses supplied. */
  lemma {:induction false} PollCountIsFirstDone(first: Operation, updates: seq<Operation>, n: nat)
    requires n <= |updates|
    requires forall k :: 0 <= k < n ==> !Current(first, updates, k).done
    requires n < |updates| ==> Current(first, updates, n).done
    ensures PollCount(first, updates) == n
    decreases |updates|
  {
    if n > 0 {
      assert !Current(first, updates, 0).done;
      forall k | 0 <= k <= n - 1
        ensures Current(updates[0], updates[1..], k) == Current(first, updates, k + 1)
      {
      }
      PollCountIsFirstDone(updates[0], updates[1..], n - 1);
    }
  }

  /** What a call of `generateFortuneVideo` ends with: still polling, or a URL or an error. */
  datatype VideoOutcome = StillPolling | Finished(result: Result<string, ServiceError>)

  /**
   * `generateFortuneVideo(script)`: the credential check, the request, the poll loop, the URI
   * check, the download and the object URL. `fetchOk` is the download's `ok` flag and
   * `objectUrl` what `URL.createObjectURL` returns for it.
   */
  method GenerateFortuneVideo(
    script: string, global: Option<string>, stored: Option<string>,
    first: Operation, updates: seq<Operation>, fetchOk: bool, objectUrl: string)
    returns (request: Option<VideoRequest>, fetchUrl: Option<string>, outcome: VideoOutcome)
    ensures ResolveApiKey(global, stored).Failure? ==>
      request.None? && fetchUrl.None? && outcome == Finished(Failure(MissingKey))
    ensures ResolveApiKey(global, stored).Success? ==> request == Some(VideoRequestFor(script))
    ensures ResolveApiKey(global, stored).Success? ==>
      var last := Current(first, updates, PollCount(first, updates));
      var link := DownloadLink(last);
      && (!last.done ==> outcome == StillPolling && fetchUrl.None?)
      && (last.done && !Truthy(link) ==> outcome == Finished(Failure(UriMissing)) && fetchUrl.None?)
      && (last.done && Truthy(link) ==>
            && fetchUrl == Some(FetchUrl(link.value, ResolveApiKey(global, stored).value))
            && outcome == Finished(if fetchOk then Success(objectUrl) else Failure(FetchFailed)))
  {
    var key := ResolveApiKey(global, stored);
    if key.Failure? {
      return None, None, Finished(Failure(MissingKey));
    }
    request := Some(VideoRequestFor(script));
    var op, polls := PollUntilDone(first, updates);
    if !op.done {
      return request, None, StillPolling;
    }
    var link := DownloadLink(op);
    if !Truthy(link) {
      return request, None, Finished(Failure(UriMissing));
    }
    fetchUrl := Some(FetchUrl(link.value, key.value));
    if !fetchOk {
      return request, fetchUrl, Finished(Failure(FetchFailed));
    }
    outcome := Finished(Success(objectUrl));
  }
}
