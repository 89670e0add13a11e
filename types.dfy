/** The records and the step enumeration shared by the session controller (types.ts). */
module Types {
  import opened Wrappers

  /** The structured result of the screenshot analysis: seven strings, as the response schema demands. */
  datatype ViralAnalysis = ViralAnalysis(
    suggestedTitle: string,
    hook: string,
    visualStyle: string,
    pacing: string,
    textOverlayStrategy: string,
    engagementFactor: string,
    suggestedFortuneScript: string)

  /** The three screens of the application. */
  datatype AppStep = Setup | Analysis | Generation

  /** The session record the controller keeps in one state cell; `null` fields are `None`. */
  datatype AppState = AppState(
    step: AppStep,
    screenshotBase64: Option<string>,
    analysis: Option<ViralAnalysis>,
    videoUrl: Option<string>,
    isGenerating: bool,
    statusMessage: string)
}
