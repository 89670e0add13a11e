# Zodiac fortune shorts studio — a Dafny model of its core

The application takes a screenshot of a short video and has a remote model analyse it. The
analysis yields a fortune script. The user edits that script and has a remote video model
render a background video for it, showing either a golden pig or a golden toad. The script can
be read aloud in a Korean voice. A fortune viewer lists the birth years ("78년생", "05년생", …)
that the script mentions, sorted by year, and shows a lucky pig that answers double-clicks.

This project models the logic inside that flow. Each file is one module:

- `birth_years.dfy` (`BirthYears`). The viewer's birth-year list:
  - the global pattern `(\d{2,4})년생`, scanned left to right with JavaScript's greedy and
    backtracking semantics;
  - duplicates removed with `Set` order;
  - two-digit years widened by `parseInt` and the 30/99 rule;
  - a stable ascending sort by that year.
- `viewer.dfy` (`Viewer`). The viewer as a class:
  - the blessing counter and overlay;
  - the play/stop speech toggle;
  - the money-confetti interval loop, run on an explicit sequence of clock readings.
- `speech.dfy` (`Speech`). The voice choice that the session and the viewer share: the first
  preferred Korean voice, otherwise the first Korean one, otherwise none.
- `gemini.dfy` (`Gemini`). The service client's pure steps:
  - credential resolution, the data-URL payload and the empty-reply fallback;
  - the pig/toad motif and the video prompt;
  - the download URL and the poll loop (a method with a loop);
  - the whole video pipeline, with the remote results as inputs.
- `key_gate.dfy` (`KeyGate`). The credential field as a class over the browser's storage entry
  and window global. It is proved against pure transition functions on a `Gate` value.
- `session.dfy` (`Session`). The session controller as a class. Each asynchronous handler is
  split into a begin method and a complete method, proved against pure transition functions on
  a `Session.State` value, with a reachability invariant and the allowed screen changes.
- `js_string.dfy` (`JsString`). The JavaScript string built-ins used above:
  - `\s` and `\d`;
  - `includes`, `indexOf`, `replace`, `trim`, `split`.
- `types.dfy` (`Types`) holds the records of types.ts. `wrappers.dfy` (`Wrappers`) holds
  `Option` for `null`/`undefined` and `Result` for thrown errors.

Remote calls, timers and browser effects are inputs or recorded counters:

- The analysis and video calls, polling statuses, the download's `ok` flag and the object URL
  are parameters.
- The FileReader result is a parameter, and so are the voice list and the clock readings of the
  interval timer.
- `speak`, `cancel`, the confetti bursts and `openSelectKey` are recorded as sequences or counts.

Some behaviour of the code worth knowing when reading the model:

- An empty or missing analysis reply is not an error. The client parses `'{}'` instead and
  returns that object as the analysis (`Gemini.ResponseJson`).
- The birth-year list is always sorted by year.
- The credential gate keeps the key in the browser's local storage and copies it to a window
  global, which the client reads first.
- The analysis result's script field is `suggestedFortuneScript`.
- On an analysis failure that mentions the missing entity, the handler calls the host page's
  key selector before its state update. Outside the host page that call throws, and the
  session stays busy with the analysing message (`Session.AnalysisStuckWithoutHost`).

## Model

| member | source | states |
|---|---|---|
| `BirthYears.IsToken` | components/FortuneViewer.tsx:24 | the language of `(\d{2,4})년생`: 2 to 4 ASCII digits, then the suffix, and nothing else; the reference the scan is proved against |
| `BirthYears.DigitRun` | components/FortuneViewer.tsx:24 | the digit run from an index is maximal: all digits, followed by a non-digit or the end |
| `BirthYears.TryDigits` | components/FortuneViewer.tsx:24 | the backtracking of the greedy `\d{2,4}` yields a match of 2 to the available digits plus the suffix, inside the script |
| `BirthYears.TryDigitsFindsWholeRun` | components/FortuneViewer.tsx:24 | backtracking from the whole digit run finds the suffix exactly when it follows the whole run |
| `BirthYears.MatchAt` | components/FortuneViewer.tsx:24 | a match at an index is two to four digits plus the suffix long and lies inside the script |
| `BirthYears.MatchAtIsToken` | components/FortuneViewer.tsx:24-25 | the pattern matches at an index exactly when a token (2–4 ASCII digits then 년생) starts there, and the match is that token |
| `BirthYears.TokenAtIsDigitRun` | components/FortuneViewer.tsx:24 | for every length, both directions: a token of that length starts at an index exactly when the digit run there is 2 to 4 long, is followed by the suffix, and the length is the run plus the suffix |
| `BirthYears.TokenIsDigitRun` | components/FortuneViewer.tsx:24 | one direction, for one given token: its digits are the whole digit run at its start, 2 to 4 long, followed by the suffix |
| `BirthYears.DigitRunIsToken` | components/FortuneViewer.tsx:24 | a digit run of 2 to 4 digits followed by the suffix is a token |
| `BirthYears.Matches` | components/FortuneViewer.tsx:25 | every match of the left-to-right global scan lies inside the script at or after the scan's start |
| `BirthYears.MatchIsMatchAt` | components/FortuneViewer.tsx:25 | each match of the scan is the match of the pattern at its own start |
| `BirthYears.MatchIsToken` | components/FortuneViewer.tsx:24-25 | for one index k of the scan, the k-th span is a token of the script |
| `BirthYears.MatchesAreTokens` | components/FortuneViewer.tsx:24-25 | all spans of the scan at once are tokens, as a quantified fact for the functions built on the scan |
| `BirthYears.MatchesAreOrdered` | components/FortuneViewer.tsx:25 | the matches come left to right without overlapping |
| `BirthYears.CoveringMatch` | components/FortuneViewer.tsx:25 | an index at or after the scan's start where the pattern matches lies inside some match of the scan |
| `BirthYears.MatchesAreLeftmost` | components/FortuneViewer.tsx:25 | every token of the script is covered by some match, so none is skipped except inside an earlier match (as in 12345년생, whose match is 2345년생) |
| `BirthYears.Texts` | components/FortuneViewer.tsx:25 | the match list holds exactly the substrings at the matched spans, one per span |
| `BirthYears.MatchStrings` | components/FortuneViewer.tsx:25 | `script.match(yearPattern) \|\| []` returns only tokens |
| `BirthYears.MatchStringsOccur` | components/FortuneViewer.tsx:24-25 | every matched string occurs in the script |
| `BirthYears.FiveDigitRunExample` | components/FortuneViewer.tsx:24-25 | "12345년생" yields the single match "2345년생" |
| `BirthYears.Dedupe` | components/FortuneViewer.tsx:26 | `[...new Set(matches)]` keeps exactly the same elements, none twice |
| `BirthYears.FirstIndex` | components/FortuneViewer.tsx:26 | the first position of an element of a list |
| `BirthYears.FirstIndexOfPrefix` | components/FortuneViewer.tsx:26 | appending to a list does not move the first position of an element already in it |
| `BirthYears.DedupeKeepsFirstOccurrenceOrder` | components/FortuneViewer.tsx:26 | the deduplicated list is in the order of first occurrences |
| `BirthYears.DedupeCountsOnce` | components/FortuneViewer.tsx:26 | a list without repeats holds each element at most once as a multiset |
| `BirthYears.ParseInt` | components/FortuneViewer.tsx:30-31 | `parseInt` of a string of ASCII digits, in base 10: the decimal value of the digits, most significant first |
| `BirthYears.ParseIntLeadingZero` | components/FortuneViewer.tsx:30-31 | `parseInt` drops leading zeros |
| `BirthYears.FullYear` | components/FortuneViewer.tsx:34-35 | years below 100 become 1931..2030 with the same last two digits (≤30 → 2000+y, 31–99 → 1900+y), others are kept |
| `BirthYears.NoSuffixAmongDigits` | components/FortuneViewer.tsx:30-31 | in a token the suffix occurs only at its end |
| `BirthYears.TokenDigits` | components/FortuneViewer.tsx:30-31 | `replace('년생', '')` on a token leaves exactly its digits |
| `BirthYears.Year` | components/FortuneViewer.tsx:30-35 | the comparator's year of a token is the widened value of its digits |
| `BirthYears.YearKey` | components/FortuneViewer.tsx:29-38 | the comparator's sort key: the year of a token (every sorted string is one) |
| `BirthYears.YearExamples` | components/FortuneViewer.tsx:33-35 | "05년생" is the year 2005 and "78년생" the year 1978 |
| `BirthYears.InsertBy` | components/FortuneViewer.tsx:29-38 | one insertion step of the sort adds exactly the element (multiset) |
| `BirthYears.InsertKeepsSorted` | components/FortuneViewer.tsx:29-38 | inserting into a list ascending by the key keeps it ascending |
| `BirthYears.SortBy` | components/FortuneViewer.tsx:29-38 | the sort is a permutation of its input and ascending by the key |
| `BirthYears.InsertWithKey` | components/FortuneViewer.tsx:29-38 | an insertion places the element before the elements with its own key that were already there |
| `BirthYears.SortIsStable` | components/FortuneViewer.tsx:29-38 | the elements with any one key keep their relative order (the stable sort of ES2019) |
| `BirthYears.BirthYearList` | components/FortuneViewer.tsx:23-41 | the displayed list holds only tokens |
| `BirthYears.BirthYearListIsSound` | components/FortuneViewer.tsx:24-25 | every listed token occurs in the script |
| `BirthYears.BirthYearListIsComplete` | components/FortuneViewer.tsx:25-26 | a string is listed exactly when it is a match of the pattern |
| `BirthYears.BirthYearListHasNoRepeats` | components/FortuneViewer.tsx:26 | no string is listed twice |
| `BirthYears.PermutationKeepsNoRepeats` | components/FortuneViewer.tsx:26-38 | reordering a list without repeats gives a list without repeats |
| `BirthYears.BirthYearListIsEmptyIff` | components/FortuneViewer.tsx:25 | the list is empty exactly when no token occurs anywhere in the script |
| `BirthYears.BirthYearListIsOrdered` | components/FortuneViewer.tsx:26-38 | the list is a permutation of the deduplicated matches, ascending by year, with ties (78년생, 1978년생) in first-occurrence order |
| `Viewer.Bursts` | components/FortuneViewer.tsx:112-130 | the bursts of one shower are the leading clock readings with time left, stopped by the first reading without |
| `Viewer.MoneyShower` | components/FortuneViewer.tsx:103-132 | the interval loop fires exactly `Bursts(start + 3000, clock)` bursts |
| `Viewer.BurstsIsLeadingRun` | components/FortuneViewer.tsx:112-118 | the burst count is the length of the leading run of readings before the end |
| `Viewer.NominalShower` | components/FortuneViewer.tsx:107-130 | on a clock ticking every 50 ms the shower fires 59 bursts |
| `Viewer.FortuneViewer.constructor` | components/FortuneViewer.tsx:9-41 | initial cells (count 0, no overlay, not playing) and the birth-year list of the script |
| `Viewer.FortuneViewer.ScriptChanged` | components/FortuneViewer.tsx:23-41 | a new script recomputes the list and changes nothing else |
| `Viewer.FortuneViewer.PigDoubleClick` | components/FortuneViewer.tsx:44-59 | the count grows by exactly 1 and the overlay is shown, one burst when confetti exists, nothing else changes |
| `Viewer.FortuneViewer.BlessingTimeout` | components/FortuneViewer.tsx:58 | the overlay is hidden |
| `Viewer.FortuneViewer.PlayTts` | components/FortuneViewer.tsx:62-100 | while playing: one cancel, playing off, nothing spoken; otherwise playing on and the title followed by the guide sentence (the constant `Viewer.GuideSentence`, FortuneViewer.tsx line 72) spoken in the chosen voice |
| `Viewer.FortuneViewer.SpeechEnded` | components/FortuneViewer.tsx:90-93 | playing off, then a money shower |
| `Viewer.FortuneViewer.SpeechFailed` | components/FortuneViewer.tsx:95-97 | playing off |
| `Viewer.FortuneViewer.TriggerMoneyShower` | components/FortuneViewer.tsx:103-132 | one shower's bursts when confetti exists, none otherwise |
| `Speech.PreferredSpeaksKorean` | App.tsx:88-91 | a voice passing the first search also passes the fallback's |
| `Speech.FindIndex` | App.tsx:88-91 | `find` returns the first element satisfying the test, or none when none does |
| `Speech.SpeaksKorean` | App.tsx:91 | the fallback `find` test: the language tag starts with "ko" |
| `Speech.Preferred` | App.tsx:88-90 | the first `find` test: a Korean tag and a name containing one of the preferred fragments |
| `Speech.PickVoice` | App.tsx:88-91 | the first preferred Korean voice, else the first Korean voice; none exactly when no voice is Korean |
| `Speech.KoreanUtterance` | components/FortuneViewer.tsx:72-86 | the utterance carries the text and "ko-KR", its voice is the one `PickVoice` chooses from the preferred names, and that voice, if any, is an offered Korean voice |
| `Speech.FirstExists` | App.tsx:88-91 | when some voice is Korean, a first preferred or a first Korean voice exists |
| `Speech.PickVoiceExample` | components/FortuneViewer.tsx:77-80 | a preferred voice wins over an earlier Korean one; a preferred name in another language is skipped |
| `Gemini.Truthy` | services/geminiService.ts:64-67 | an optional string is truthy exactly when present and non-empty, as the `||` and `if (!…)` tests read it |
| `Gemini.ResolveApiKey` | services/geminiService.ts:64-67 | the global when non-empty, else the stored entry when non-empty, else the missing-key error |
| `Gemini.Payload` | services/geminiService.ts:36 | absent without a comma; otherwise the text between the first comma and the next comma or the end |
| `Gemini.FirstCommaEndsHead` | services/geminiService.ts:36 | the first part of the split ends at the first comma |
| `Gemini.PayloadIsSecondPart` | services/geminiService.ts:36 | the second part starts right after the first comma, has no comma and runs to the next comma or the end |
| `Gemini.ResponseJson` | services/geminiService.ts:59 | the reply text when non-empty, otherwise "{}" |
| `Gemini.AnalyzeRequest` | services/geminiService.ts:5-36 | no request without a credential; otherwise the analysis model on the image's payload as PNG |
| `Gemini.OccursOfSuffix` | services/geminiService.ts:72 | where "돈돼지" or "복돼지" occurs, "돼지" occurs |
| `Gemini.IsPig` | services/geminiService.ts:71-72 | the pig is chosen exactly when "돼지" occurs once whitespace is removed |
| `Gemini.MotifIgnoresWhitespace` | services/geminiService.ts:71 | inserting whitespace anywhere never changes the motif |
| `Gemini.SpacedPigExample` | services/geminiService.ts:71-72 | "돼 지" chooses the pig |
| `Gemini.FocalObject` | services/geminiService.ts:73-75 | the pig phrase exactly for pig scripts, the toad phrase exactly for the others |
| `Gemini.VideoPrompt` | services/geminiService.ts:77-84 | the prompt is the fixed head, the focal phrase and the fixed tail |
| `Gemini.PromptShowsMotif` | services/geminiService.ts:73-84 | two scripts get the same prompt exactly when they get the same motif |
| `Gemini.VideoRequestFor` | services/geminiService.ts:87-95 | the video model, the prompt, one video, 720p, 9:16 |
| `Gemini.DownloadLink` | services/geminiService.ts:103 | the first video's URI exactly when every link of the optional chain is present |
| `Gemini.FetchUrl` | services/geminiService.ts:107 | the link, then "&key=", then the key |
| `Gemini.PollCount` | services/geminiService.ts:98-101 | the polls stop at the first done status, or when the supplied statuses run out |
| `Gemini.PollUntilDone` | services/geminiService.ts:98-101 | the loop leaves only on a done status (or exhausted statuses), each poll taking the next status |
| `Gemini.PollCountIsFirstDone` | services/geminiService.ts:98-101 | the poll count is the index of the first done status |
| `Gemini.GenerateFortuneVideo` | services/geminiService.ts:62-116 | missing key before any request; still polling; missing URI; failed fetch; or the object URL, with the fetch URL built from link and key |
| `JsString.IsAsciiDigit` | components/FortuneViewer.tsx:24 | `\d` without the `u` flag: exactly the ten ASCII digits |
| `JsString.IsWhitespace` | services/geminiService.ts:71 | `\s`, the same set `trim` strips: the ECMAScript WhiteSpace and LineTerminator code points |
| `JsString.StartsWith` | App.tsx:89 | `startsWith`: the prefix is the string's first characters |
| `JsString.Includes` | services/geminiService.ts:72 | `includes` is true exactly when the substring occurs |
| `JsString.IndexOf` | components/FortuneViewer.tsx:30-31 | the first occurrence, or -1 exactly when there is none |
| `JsString.ReplaceFirst` | components/FortuneViewer.tsx:30-31 | only the first occurrence is replaced; no occurrence, no change |
| `JsString.RemoveWhitespace` | services/geminiService.ts:71 | the result has no whitespace and is no longer than the input |
| `JsString.RemoveWhitespaceAppend` | services/geminiService.ts:71 | removing whitespace distributes over concatenation |
| `JsString.RemoveWhitespaceKeepsText` | services/geminiService.ts:71 | text without whitespace is kept as it is |
| `JsString.WhitespaceInsertionInvisible` | services/geminiService.ts:71 | whitespace inserted anywhere disappears once whitespace is removed |
| `JsString.TrimStart` | components/ApiKeySelector.tsx:29 | a suffix whose dropped prefix is all whitespace and that starts with a non-whitespace character |
| `JsString.TrimEnd` | components/ApiKeySelector.tsx:29 | a prefix whose dropped suffix is all whitespace and that ends with a non-whitespace character |
| `JsString.Trim` | components/ApiKeySelector.tsx:29 | empty exactly for all-whitespace input; otherwise it starts and ends with non-whitespace |
| `JsString.TrimIsInfix` | components/ApiKeySelector.tsx:29-31 | the input is the trimmed text with only whitespace around it |
| `JsString.TrimIdempotent` | components/ApiKeySelector.tsx:29-31 | trimming twice is trimming once |
| `JsString.Split` | services/geminiService.ts:36 | the parts contain no separator and join back into the input |
| `JsString.SplitHead` | services/geminiService.ts:36 | the first part runs to the first separator, and the rest is the split of what follows it |
| `JsString.SplitSecond` | services/geminiService.ts:36 | the second part starts right after the first separator and runs to the next separator or the end |
| `KeyGate.Mounted` | components/ApiKeySelector.tsx:9-11 | the `useState` initialisers: empty field, no key, not editing, with whatever the browser holds |
| `KeyGate.Checked` | components/ApiKeySelector.tsx:17-24 | `checkKey` on the gate value: a non-empty stored entry is loaded into the field, marks the key present and becomes the global; otherwise nothing changes |
| `KeyGate.Saved` | components/ApiKeySelector.tsx:28-38 | `handleSaveKey` on the gate value: trimmed text that is not empty is stored and published, the key is marked present and editing ends; otherwise nothing changes |
| `KeyGate.Changed` | components/ApiKeySelector.tsx:62 | `onChange`: only the field text changes |
| `KeyGate.Focused` | components/ApiKeySelector.tsx:63 | `onFocus`: only editing turns on |
| `KeyGate.Displayed` | components/ApiKeySelector.tsx:61 | the field's value: the raw text while editing, otherwise the 24-asterisk mask when a key is present, otherwise empty |
| `KeyGate.SaveBlankIsNoOp` | components/ApiKeySelector.tsx:29-37 | saving text that trims to nothing changes no cell, stored entry or global |
| `KeyGate.SaveStoresTrimmed` | components/ApiKeySelector.tsx:29-33 | saving stores the trimmed text in both browser cells, sets hasKey, ends editing, keeps the field as typed |
| `KeyGate.SaveIdempotent` | components/ApiKeySelector.tsx:30-33 | saving twice equals saving once |
| `KeyGate.CheckWithoutEntryIsNoOp` | components/ApiKeySelector.tsx:18-19 | with no (or an empty) stored entry `checkKey` changes nothing |
| `KeyGate.SaveThenCheck` | components/ApiKeySelector.tsx:18-31 | after a save of v, a fresh gate loads trim(v) into its field and the global, and the client resolves trim(v) |
| `KeyGate.SaveMasksFocusReveals` | components/ApiKeySelector.tsx:61-63 | after a save the field shows the mask, and after a focus the raw text |
| `KeyGate.HasKeyMonotone` | components/ApiKeySelector.tsx:10-32 | once hasKey is true no sequence of events clears it |
| `KeyGate.RunKeepsKeyPublished` | components/ApiKeySelector.tsx:17-33 | every event keeps "hasKey implies a non-empty stored entry equal to the global" |
| `KeyGate.PublishedKeyIsResolved` | services/geminiService.ts:64-67 | when the gate shows a key, the client resolves exactly the stored key |
| `KeyGate.Browser.constructor` | components/ApiKeySelector.tsx:18-23 | the storage entry and the global as given |
| `KeyGate.KeySelector.constructor` | components/ApiKeySelector.tsx:9-11 | empty field, no key, not editing |
| `KeyGate.KeySelector.CheckKey` | components/ApiKeySelector.tsx:17-26 | the state becomes `Checked` of the old state; the stored entry and editing are untouched |
| `KeyGate.KeySelector.HandleSaveKey` | components/ApiKeySelector.tsx:28-39 | the state becomes `Saved` of the old state; the result says which alert is shown |
| `KeyGate.KeySelector.OnChange` | components/ApiKeySelector.tsx:62 | only the field text changes |
| `KeyGate.KeySelector.OnFocus` | components/ApiKeySelector.tsx:63 | only editing turns on |
| `Session.Uploaded` | App.tsx:20-29 | a chosen file's data URL becomes the screenshot; without a file nothing changes |
| `Session.AnalysisBegun` | App.tsx:31-33 | without a screenshot nothing changes; otherwise busy with the analysing message and the analysis call in flight |
| `Session.CatchThrows` | App.tsx:46-48 | the catch block throws: the error mentions "Requested entity was not found." and there is no host page to open the key selector |
| `Session.AnalysisCompleted` | App.tsx:35-50 | success: analysis screen, the result, its suggested script, not busy; failure: not busy with the failure message, unless the catch block throws, which leaves the screen as it was |
| `Session.GenerationBegun` | App.tsx:54-62 | an empty script changes nothing; otherwise busy on the generation screen with no video and the call in flight |
| `Session.GenerationCompleted` | App.tsx:64-78 | success: the video URL and the done message; failure: the failure message; either way not busy |
| `Session.Closed` | App.tsx:161 | the close button returns to the setup screen |
| `Session.Edited` | App.tsx:181 | the editor replaces the script |
| `Session.AnalyzeEnabled` | App.tsx:144 | the analyse button is enabled with a screenshot and nothing in progress |
| `Session.AnalysisShown` | App.tsx:154 | the analysis screen renders when the step is ANALYSIS and an analysis is present |
| `Session.VideoShown` | App.tsx:218 | the video renders on the generation screen, not busy, with a video URL |
| `Session.RetryShown` | App.tsx:197-224 | the generation screen, not busy and without a video, shows the error and the retry button |
| `Session.TtsShown` | App.tsx:197-231 | the speech button is rendered on the generation screen once it is no longer busy |
| `Session.Enabled` | App.tsx:112-224 | each control exists only on its screen (the analyse button only while idle), and a remote call settles only while it is in flight |
| `Session.StepKeepsWellformed` | App.tsx:31-80 | every enabled event keeps the reachable-session invariant |
| `Session.StepChangesOnlyAlongEdges` | App.tsx:31-161 | the screen changes only SETUP→ANALYSIS (analysis success), ANALYSIS→SETUP (close), ANALYSIS→GENERATION (generate); generation stays |
| `Session.BusyFlagDiscipline` | App.tsx:33-78 | the busy flag rises only when a begin phase starts a call and falls only when the call settles |
| `Session.RunKeepsWellformed` | App.tsx:7-80 | every session reachable by enabled events is well formed |
| `Session.AnalyzeButtonGuard` | App.tsx:144 | the analyse button is enabled exactly when pressing it starts an analysis; without a screenshot nothing changes |
| `Session.AnalysisBegunFrame` | App.tsx:33 | beginning an analysis changes only the busy flag and the message |
| `Session.AnalysisCompletedFrame` | App.tsx:36-50 | no call is left in flight; success opens the analysis screen with its script; failure keeps screen, analysis and script, and shows the failure message and clears the busy flag exactly when the catch block does not throw; both keep screenshot and video |
| `Session.AnalysisStuckWithoutHost` | App.tsx:44-50 | outside the host page, a missing-entity failure leaves the setup screen busy with the analysing message for good: only uploads remain possible, and they keep it so |
| `Session.StuckStaysStuck` | App.tsx:141-144 | a setup screen that is busy with no call in flight admits only uploads, which keep it busy with the same message |
| `Session.GenerationBegunFrame` | App.tsx:55-62 | an empty script changes nothing; otherwise busy on the generation screen with no video |
| `Session.GenerationOutcomeShown` | App.tsx:65-78 | a failed generation shows the retry button; a successful one shows the video |
| `Session.UploadFrame` | App.tsx:20-29 | an upload changes only the screenshot |
| `Session.CloseFrame` | App.tsx:161 | the close button changes only the screen |
| `Session.App.constructor` | App.tsx:8-17 | the initial session on the setup screen, with no effects |
| `Session.App.HandleImageUpload` | App.tsx:20-29 | the state becomes `Uploaded` of the old one and stays well formed |
| `Session.App.StartAnalysis` | App.tsx:31-35 | the begin phase; the screenshot is sent exactly when there is one |
| `Session.App.CompleteAnalysis` | App.tsx:35-51 | the complete phase, as `AnalysisCompleted`; the key selector reopens exactly on a "Requested entity was not found." failure inside the host page |
| `Session.App.StartVideoGeneration` | App.tsx:54-64 | the begin phase from the generate or retry button; the script is sent exactly when non-empty |
| `Session.App.CompleteGeneration` | App.tsx:64-79 | the complete phase; a failure leaves the retry button shown |
| `Session.App.Close` | App.tsx:161 | the close button returns to the setup screen |
| `Session.App.EditScript` | App.tsx:181 | only the script changes |
| `Session.App.HandleTts` | App.tsx:82-108 | callable only while the speech button is shown; nothing on an empty script; otherwise one cancel and the script spoken in the chosen voice |
| `Session.App.OnTtsEnd` | App.tsx:98-105 | one confetti burst |

## Left out

- Remote calls are inputs, not code: `generateContent`, `generateVideos`, `getVideosOperation`,
  `fetch`, `blob` and `URL.createObjectURL`. An exception a remote call throws is passed through
  unchanged by the source; the model shows it only as a `Failure` given to the complete phases.
- The analysis prompt text (services/geminiService.ts:14-29) and the response schema are
  constants sent to the remote model; they are not modelled. `JSON.parse` is not modelled: the
  analysis result is a `ViralAnalysis` input, and only the `'{}'` fallback is (`Gemini.ResponseJson`).
- An empty reply parses to `{}`, which the source returns as a `ViralAnalysis` with every field
  undefined; the model represents that as a `ViralAnalysis` input whose fields are empty.
- Gemini.VideoPrompt: it is proved to be the head, the focal phrase and the tail, and to differ
  between motifs, but not that it never contains the other motif's phrase. That would need
  reasoning about every position of two long string constants.
- Gemini.GenerateFortuneVideo: the source polls forever while the status is not done. The model
  takes a finite list of statuses and reports `StillPolling` when they run out. The 10-second
  wait between polls is left out.
- Timers and randomness: `setTimeout` (the 2.5 s overlay timeout is the event
  `BlessingTimeout`, the poll wait is dropped), `setInterval` (run on explicit clock readings),
  and `Math.random` (the pig's direction and the confetti angles).
- Floating point: speech rate and pitch, and every confetti parameter.
- Rendering, CSS, `alert` texts and `console.error`. The host's `openSelectKey` is only counted
  when the host is present; when it is absent, the call throws and ends the handler.
- Async interleaving: React state batching, stale closures and overlapping handlers. Each
  handler is a begin step and a complete step. The generation and analysis calls complete only
  while in flight (`Session.Enabled`).
- Session.App.CompleteAnalysis: an error without a `message` is modelled as an empty message,
  which, like the absent one, never contains the phrase.
- parseInt's NaN path cannot arise here: every sorted string is a token with 2 to 4 digits.
- `onKeyValidated` is passed as a function that does nothing (App.tsx:121), so it is left out.
- App.tsx does not mount the fortune viewer; the viewer is modelled on its own.

