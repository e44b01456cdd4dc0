# redstorm-front: a verified model of the scanner dashboard's core

This project models, in Dafny, the client-side logic of the redstorm-front
security-scanner dashboard, a Next.js application that drives a backend
through six scan phases (pre-engagement, reconnaissance, scanning,
vulnerability, exploitation, report) and renders what comes back. The
modules follow the components:

- `UrlScanner` (`url_scanner.dfy`) models `src/components/url-scanner.tsx`.
  The component's React state is the class `Scanner`. `runRealScan` is a
  `while` loop over the phases that rewrites the progress array after
  every answer. It is proved equal to the pure function `ScanRun`, which
  gives the state a scan leaves behind. The module also covers the report
  derivation `convertToSecurityReport` and its score formula, `resetScan`,
  the scan button's guard, and the step badge and icon.
- `SecurityReport` (`security_report.dfy`) models
  `src/components/security-report.tsx`: the score label, the severity
  colour and icon of a section, the recommendation blocks, the
  placeholder shown without a report, the downloaded object and the
  sanitised file name. It also models the render as written, which throws
  because the language hook provides no `t`.
- `JsonViewer` (`json_viewer.dfy`) models `src/components/json-viewer.tsx`:
  the set of expanded panels (class `Viewer`), its toggle, and what each
  panel shows.
- `UseLanguage` (`use_language.dfy`) models `src/hooks/use-language.ts`:
  the language chosen on mount from storage and the browser, and
  `changeLanguage`, which persists the choice (class `LanguagePreference`).
- `PhaseResultCard` (`phase_result_card.dfy`) models
  `src/components/phase-result-card.tsx`: the English and French titles,
  the icons, the badge rules, the execution-time text, and the body each
  phase renders, including the truncation of long lists and the
  subdomain list as written, which throws on a subdomain object.
- `ResultCard` (`result_card.dfy`) models `src/components/result-card.tsx`:
  the title fallback, the subdomain label, the DNS value text, the
  severity counts and the per-phase bodies.
- `Wrappers`, `JsText`, `Lists` and `Types` hold what these share:
  - `Option`, and `Rendering` for a render that may throw;
  - the JavaScript string built-ins the components call (`trim`, ASCII
    `toLowerCase`, `startsWith`, the decimal text of an integer in a
    template literal, `join`);
  - slicing with a "+N more" count;
  - the JSON shapes the backend returns.

The backend is a parameter. The phase endpoint is a function `backend`
from step to outcome: each phase is requested at most once per scan, so
one answer per step is all a scan can observe. The report endpoint is one
`ReportOutcome`. The clock values (report id and timestamp, `Date.now()`
in the file name, the download's `generatedAt`) are parameters too.

The system's written design and the code differ in two ways, and the
model follows the code:

- After a phase answers with a failure status, the code has already
  marked the next entry "running" before it returns. It is not left
  "pending".
- The loop stops only on the statuses "failed" and "error", or on a
  thrown error. Any other status, say "partial", marks the entry failed
  and the scan goes on.

## Model

| member | source | states |
|---|---|---|
| UrlScanner.Scanner.constructor | src/components/url-scanner.tsx:65-70 | On mount the url is empty, nothing is scanning, the progress array is empty, the current step is -1 and no report is held or shown. |
| UrlScanner.Scanner.EditUrl | src/components/url-scanner.tsx:426-431 | Typing changes the url only while no scan is running; the field is disabled during a scan. |
| UrlScanner.Scanner.RunRealScan | src/components/url-scanner.tsx:258-396 | A scan leaves exactly the state `ScanRun` gives for the backend's answers. The report it stores is the one derived from the array held when the scan started. The requests sent are `ScanRequests`. The url is unchanged. |
| UrlScanner.Scanner.ScanDerivingReport | src/components/url-scanner.tsx:258-396 | The scan loop, given how the report is derived from the final array. The new state is `ScanRun` of the old state, storing the report derived from `FinalProgress`. The requests are extended by `ScanRequests`, and the url is unchanged. |
| UrlScanner.Scanner.RunScanReportingFinalProgress | src/components/url-scanner.tsx:258-396 | The corrected scan: the same state `ScanRun` gives, except that the report stored on success is derived from the array the scan produced. |
| UrlScanner.Scanner.UrlIsBlank | src/components/url-scanner.tsx:259 | `!url.trim()` holds exactly when every character of the url is JavaScript whitespace. |
| UrlScanner.Scanner.BeginScan | src/components/url-scanner.tsx:261-271 | Starting a scan sets scanning, step 0, no report, not shown, and the initial array. |
| UrlScanner.Scanner.AnswerPhase | src/components/url-scanner.tsx:276-335 | One iteration requests phase `i` once. It rewrites the array by that outcome and sets the current step to `i`. It reports a halt exactly for a thrown error or a "failed"/"error" status, and then clears scanning. |
| UrlScanner.Scanner.AdvancePhase | src/components/url-scanner.tsx:276-335 | After `i` phases that did not halt, answering phase `i` makes the array `ProgressAfter` `i + 1` phases and appends that phase's request. It halts exactly when `i` is where the scan stops, and otherwise the stop lies beyond `i`. |
| UrlScanner.Scanner.WalkPhases | src/components/url-scanner.tsx:274-336 | The loop reaches the report step exactly when no phase halts, and then the array is `ProgressAfter` all five phases. Otherwise it stops idle at the halting phase, with the array after that phase's update. The requests sent are the phase requests up to the one reached. |
| UrlScanner.Scanner.RequestReport | src/components/url-scanner.tsx:338-395 | Report generation marks the report entry running and sends one report request. It then completes the entry with the payload, or fails it with the error's message. A report is stored and shown only on success. The scan ends idle at step -1. |
| UrlScanner.Scanner.ResetScan | src/components/url-scanner.tsx:398-404 | From any state, reset restores the mount state and keeps the url. |
| UrlScanner.Scanner.ClickScanButton | src/components/url-scanner.tsx:434-436 | A click does nothing and sends nothing when the button is disabled. It resets a running scan without a request, and otherwise runs a scan to the state `ScanRun` gives, sending that scan's requests. |
| UrlScanner.ScanButtonAction | src/components/url-scanner.tsx:435-436 | The button is disabled exactly when the url is blank and no scan runs. It resets exactly when a scan runs, and starts a scan exactly when the url is not blank and none runs. |
| UrlScanner.InitialProgress | src/components/url-scanner.tsx:266-270 | The initial array has one entry per step, in step order, without results or message. The first is running and every other is pending. |
| UrlScanner.FirstHalt | src/components/url-scanner.tsx:274-314 | The loop's stopping index: every earlier phase continued, and the phase at the index halts unless it is the report index. |
| UrlScanner.ProgressAfterShape | src/components/url-scanner.tsx:286-307 | After `k` non-halting phases, the array keeps step order. Each entry before `k` holds its phase's answer, entry `k` is running (the report entry too, once all five phases answered), and later entries are still in their initial pending state. |
| UrlScanner.OtherStatusFailsWithoutHalting | src/components/url-scanner.tsx:291-310 | A status other than "completed", "failed" and "error" marks its entry failed, and the next entry becomes running. The loop does not stop there. |
| UrlScanner.HaltOnFailedAnswer | src/components/url-scanner.tsx:286-314 | A scan stopped by a "failed" or "error" answer ends idle at that step with no report. The entry is failed, with the results' message only for "failed". The next entry is running, the later ones pending, and the earlier ones carry their answers' statuses. |
| UrlScanner.HaltOnTransportError | src/components/url-scanner.tsx:315-335 | A scan stopped by a thrown error changes only the failing entry: it becomes failed with the error's message or "Unknown error occurred". Every later entry stays pending. |
| UrlScanner.FullScan | src/components/url-scanner.tsx:338-395 | When no phase halts, the phase entries hold their answers. The report entry is completed with the payload exactly when generation succeeds, and failed with its message exactly when it throws. A report is set and shown exactly on success. The scan ends idle at step -1. |
| UrlScanner.ReportOnlyAfterFullSuccess | src/components/url-scanner.tsx:258-396 | Every scan of a non-blank url ends idle. A report is set, and shown, exactly when no phase halted and generation succeeded. The step ends at -1 exactly when no phase halted. |
| UrlScanner.BlankUrlIsNoOp | src/components/url-scanner.tsx:259 | A blank url changes nothing and sends no request. |
| UrlScanner.RequestOrder | src/components/url-scanner.tsx:274-356 | Phases are requested once each, in step order, up to and including the one that halts. The report step never goes to the phase endpoint. The report request is sent, last, exactly when no phase halted. |
| UrlScanner.PhaseRequestsShape | src/components/url-scanner.tsx:274-276 | The loop's first `n` requests are `n` phase requests, none for the report step. |
| UrlScanner.ReconnaissanceFailureScenario | src/components/url-scanner.tsx:286-314 | When reconnaissance answers "failed", two requests are sent. Pre-engagement is completed, reconnaissance failed, scanning running, the rest pending, and there is no report. |
| UrlScanner.ConvertToSecurityReport | src/components/url-scanner.tsx:167-256 | The report carries the given url, id and timestamp, status completed and 10 passed checks. Its summary counts come from the first vulnerability entry, and its score is the score formula of those counts. Each section's duration is the time of its own step's first entry, or 0: validation from pre-engagement, reconnaissance from reconnaissance, enumeration from scanning, exploitation from exploitation, and both the scan and the vulnerability sections from the vulnerability entry. |
| UrlScanner.DurationOf | src/components/url-scanner.tsx:202 | A section's duration is the entry's execution time. It is 0 when there is no entry or the entry has no time. |
| UrlScanner.OverallScore | src/components/url-scanner.tsx:181 | The score is the larger of 20 and 100 minus 25 per critical issue, 5 per warning and 2 per vulnerability: it is at least both and equal to one of them. It is 100 with no issues, and at most 100 for non-negative counts. |
| UrlScanner.SummaryOf | src/components/url-scanner.tsx:176-179 | The summary counts are the vulnerability phase's results: vulnerabilities from `vulnerabilities_found`, critical issues from `critical` and warnings from `medium`, each 0 when missing; all are 0 without that phase. "passed" is always 10. |
| UrlScanner.SectionStatusRules | src/components/url-scanner.tsx:196-253 | Validation and exploitation succeed exactly when their phase's first entry is completed, and are errors otherwise. Reconnaissance and enumeration likewise succeed or warn. Scan and vulnerability are errors exactly when a critical issue is counted, and warnings otherwise. |
| UrlScanner.EmptyProgressGivesDefaults | src/components/url-scanner.tsx:176-253 | Derived from an empty array, the report scores 100 with zero counts. Validation is an error with "Target validation failed", exploitation an error with "No exploitation attempted", and the other sections warn. Every duration is 0. |
| UrlScanner.FindStepIsFirst | src/components/url-scanner.tsx:169-173 | `find` returns nothing exactly when no entry has the step, and otherwise the first entry that has it. |
| UrlScanner.FirstIndex | src/components/url-scanner.tsx:169-173 | When an entry has the step, the index found is that of the first such entry. |
| UrlScanner.MessageOr | src/components/url-scanner.tsx:201 | A section's details are the results' message when it is non-empty, and the fallback text otherwise. |
| UrlScanner.StepDisplayIsInjective | src/components/url-scanner.tsx:82-106 | The step badge variant and the step icon each tell the four statuses apart. |
| UrlScanner.PhaseCardsMembership | src/components/url-scanner.tsx:521-522 | A result card is shown for an entry exactly when it is completed, holds results and is not the report step. |
| UrlScanner.PhaseCardsKeepOrder | src/components/url-scanner.tsx:521-522 | The cards keep the array's order, as `filter` does. The k-th card is the entry at the k-th position of `CardPositions`, and those positions lie inside the array and strictly increase. |
| UrlScanner.CardPositionsIncrease | src/components/url-scanner.tsx:521-522 | The positions of the entries that get a card lie inside the array and strictly increase. |
| UrlScanner.FirstScanReportIgnoresPhases | src/components/url-scanner.tsx:373 | As written, a first scan (or one after a reset) whose phases all complete, with 3 critical issues found, stores a report with a failed validation section and a score of 100. |
| UrlScanner.ReportFromFinalProgress | src/components/url-scanner.tsx:167-256 | When every phase completes, the corrected scan stores and shows a report with successful validation, reconnaissance, enumeration and exploitation sections. Its summary is the vulnerability phase's own counts. |
| UrlScanner.CompletedScanProgress | src/components/url-scanner.tsx:286-370 | When every phase completes, no phase halts. The final array is in step order with the five phase entries completed, and the vulnerability entry holds that phase's results. |
| UrlScanner.CompletedPhasesReport | src/components/url-scanner.tsx:167-256 | From any array in step order whose five phase entries are completed, the derived report has the four phase-status sections successful, and counts from the vulnerability entry. |
| UrlScanner.CompletedStepsAreFound | src/components/url-scanner.tsx:169-173 | In such an array each phase's own entry is the first with its step, and it is completed. |
| SecurityReport.ScoreRatingOf | src/components/security-report.tsx:213-219 | 80 and above is excellent, 60-79 good, 40-59 fair, below 40 poor; each holds in both directions. |
| SecurityReport.ScoreRatingMonotone | src/components/security-report.tsx:213-219 | A higher score never gets a worse label. |
| SecurityReport.ReportScoreRating | src/components/security-report.tsx:213-219 | A report with no issues is excellent. More issues of any kind never improve the label, and three critical issues make it poor. |
| SecurityReport.SeverityColor | src/components/security-report.tsx:63-74 | "error" is red, "warning" yellow, "success" green, and any other status blue; each holds in both directions. |
| SecurityReport.SeverityIconOf | src/components/security-report.tsx:76-87 | "error" gets the x-circle, "warning" the triangle, "success" the check, and any other status the eye; each holds in both directions. |
| SecurityReport.SeverityLookupsAgree | src/components/security-report.tsx:63-87 | The icon always matches the colour. A section status is never blue, and distinct section statuses get distinct colours. |
| SecurityReport.RecommendationBlocks | src/components/security-report.tsx:270-299 | Critical actions appear exactly with critical issues, and first. Recommended actions appear exactly with warnings. Best practices always appear, once, last. |
| SecurityReport.SectionCardOf | src/components/security-report.tsx:227-260 | A section card takes its status's colour and the matching icon. Its findings list is shown exactly when it has entries. |
| SecurityReport.RenderReport | src/components/security-report.tsx:50-300 | The render as intended, with a translation function: no report renders the placeholder and nothing else. A report renders its url, score, summary, score label, the six section cards in order and its recommendation blocks. |
| SecurityReport.RenderReportWithHook | src/components/security-report.tsx:47-145 | The render as written: it throws exactly when the language hook's result has no `t`, whether or not there is a report, and otherwise is the intended render. |
| SecurityReport.ShownReportThrows | src/components/url-scanner.tsx:537 | Every scan that ends with a generated report shows it, and with the hook as written (`language` and `changeLanguage` only) the shown report view throws. |
| SecurityReport.ReportPageCards | src/components/security-report.tsx:227-299 | When the scan section is an error exactly with critical issues, no card is blue, and the critical-actions block appears exactly when the scan card is red. |
| SecurityReport.ReportPageFromScan | src/components/url-scanner.tsx:223-234 | Every report a scan derives meets that condition. |
| SecurityReport.DownloadObject | src/components/security-report.tsx:89-94 | The downloaded object holds every field of the report unchanged, plus the given `generatedAt` and `format` "JSON". |
| SecurityReport.Sanitize | src/components/security-report.tsx:100 | The sanitised url is as long as the url. |
| SecurityReport.SanitizePointwise | src/components/security-report.tsx:100 | Each character is replaced on its own: kept when it is an ASCII letter or digit, a dash otherwise. |
| SecurityReport.SanitizedCharacters | src/components/security-report.tsx:100 | The result holds only letters, digits and dashes. It keeps every letter and digit in place and has a dash wherever the url had anything else. |
| SecurityReport.SanitizeIdempotent | src/components/security-report.tsx:100 | Sanitising a sanitised name changes nothing. |
| SecurityReport.DownloadFileName | src/components/security-report.tsx:100 | The file name is "security-report-", the sanitised url, a dash, the time and ".json", with exactly that length. |
| JsonViewer.Viewer.constructor | src/components/json-viewer.tsx:18 | On mount only panel 0 is expanded. |
| JsonViewer.Viewer.TogglePhase | src/components/json-viewer.tsx:21-29 | A click replaces the expanded set by its toggle at the clicked index. |
| JsonViewer.Toggled | src/components/json-viewer.tsx:21-29 | The clicked index is expanded afterwards exactly when it was not before, and every other index keeps its state. |
| JsonViewer.ToggleTwice | src/components/json-viewer.tsx:21-29 | Clicking the same panel twice restores the set. |
| JsonViewer.TogglesCommute | src/components/json-viewer.tsx:21-29 | Clicks on two panels give the same set in either order. |
| JsonViewer.PanelOf | src/components/json-viewer.tsx:59-89 | A panel's badge is accent exactly when its status is "completed". Its chevron points down, and its results are shown, exactly when its index is expanded. |
| JsonViewer.RenderPanels | src/components/json-viewer.tsx:59 | The formatted tab has one panel per result, in order. |
| JsonViewer.MountedThenClicked | src/components/json-viewer.tsx:18-83 | On mount only the first panel shows its details. A click on panel `i` flips panel `i` and no other. |
| UseLanguage.Resolve | src/hooks/use-language.ts:10-22 | A saved "en" or "fr" is the language. Otherwise French is chosen exactly when the lower-cased browser language starts with "fr", and the current language is kept when it does not. |
| UseLanguage.SavedLanguageWins | src/hooks/use-language.ts:12-14 | The saved code of either language resolves back to it, whatever the browser says. |
| UseLanguage.BrowserDetection | src/hooks/use-language.ts:16-20 | "FR-ca" and "fr" give French, "en-US" keeps English, and an empty saved value defers to the browser. |
| UseLanguage.LanguagePreference.constructor | src/hooks/use-language.ts:8 | Before the mount effect runs, the language is English. |
| UseLanguage.LanguagePreference.LoadSavedLanguage | src/hooks/use-language.ts:10-22 | The mount effect sets the language `Resolve` gives and leaves storage unchanged. |
| UseLanguage.LanguagePreference.ChangeLanguage | src/hooks/use-language.ts:24-27 | Changing the language sets it and stores its code under "cybersec-language", with no other storage change. |
| UseLanguage.ChangeThenRemount | src/hooks/use-language.ts:10-27 | After `changeLanguage(l)`, a fresh mount over the same storage resolves to `l`. |
| PhaseResultCard.PhaseTitle | src/components/phase-result-card.tsx:38-58 | Every step has a non-empty title in both languages. |
| PhaseResultCard.PhaseTitlesDistinct | src/components/phase-result-card.tsx:38-58 | Within one language, different steps have different titles. |
| PhaseResultCard.PhaseIconOf | src/components/phase-result-card.tsx:21-36 | The report step, and only it, gets the file icon. |
| PhaseResultCard.AvailabilityBadge | src/components/phase-result-card.tsx:68-69 | The availability badge is default exactly when the target is available, and destructive otherwise. |
| PhaseResultCard.PortStateBadge | src/components/phase-result-card.tsx:188 | A port badge is default exactly when the port is "open", and secondary otherwise. |
| PhaseResultCard.SeverityBadge | src/components/phase-result-card.tsx:255 | A vulnerability badge is destructive exactly for "critical" or "high", and secondary otherwise. |
| PhaseResultCard.ExploitBadge | src/components/phase-result-card.tsx:306-307 | An exploit badge is default exactly when the attempt succeeded, and secondary otherwise. |
| PhaseResultCard.PreengagementViewOf | src/components/phase-result-card.tsx:60-93 | The pre-engagement body shows the availability and its badge. The IP address and message appear only when non-empty. |
| PhaseResultCard.ReconnaissanceViewOf | src/components/phase-result-card.tsx:95-163 | The body as intended. The DNS block appears exactly when there is a record type. The subdomain block appears exactly when there is a subdomain. It shows the names of the first ten, a record by its `subdomain` field, with "+N more" exactly when there are more than ten, and shown plus hidden is all of them. |
| PhaseResultCard.ReconnaissanceRenderAsWritten | src/components/phase-result-card.tsx:125-133 | The body as written throws exactly when one of the first ten subdomains is an object. Otherwise every shown subdomain is a bare name and the body is the intended one. |
| PhaseResultCard.DeclaredSubdomainShapeThrows | src/lib/types.ts:21-27 | A subdomain list shaped as the backend's type declares it, `{subdomain, status}` objects, makes the body as written throw, while the intended body shows the name. |
| PhaseResultCard.PortRowOf | src/components/phase-result-card.tsx:174-190 | A port row shows the service, or "Unknown" when it is missing or empty, and the state badge. |
| PhaseResultCard.ScanningViewOf | src/components/phase-result-card.tsx:165-213 | The port list appears exactly when a port was found, with one row per port, in order. |
| PhaseResultCard.VulnerabilityRowOf | src/components/phase-result-card.tsx:245-260 | A row is titled by the name, or the title when the name is empty, and gets the severity badge. |
| PhaseResultCard.VulnerabilityViewOf | src/components/phase-result-card.tsx:215-276 | The four counts default to 0. The list appears exactly when there is a vulnerability and shows the first five rows in order, with "+N more" exactly when there are more than five. |
| PhaseResultCard.ExploitRowOf | src/components/phase-result-card.tsx:302-310 | An attempt row is named by the name, or the type when the name is empty, and gets the success badge. |
| PhaseResultCard.ExploitationViewOf | src/components/phase-result-card.tsx:278-322 | The counts default to 0. The attempts appear exactly when there is one, each as a row in order. The message appears only when non-empty. |
| PhaseResultCard.RenderResults | src/components/phase-result-card.tsx:324-339 | The dispatch as intended, with the intended reconnaissance body. The report step renders "No results available", and only it does. Any other step renders nothing exactly when it has no results, and otherwise its own body. |
| PhaseResultCard.RenderResultsAsWritten | src/components/phase-result-card.tsx:324-339 | The dispatch as written, which the card uses. It throws exactly for a reconnaissance step whose results list a subdomain record among the first ten. Whenever it renders, it renders what `RenderResults` gives. |
| PhaseResultCard.PhaseCardOf | src/components/phase-result-card.tsx:341-362 | A card shows its step's title and icon, and the header text `TimeLabelOf` gives for its execution time. It shows its body exactly while expanded, and that body is the render as written, which may throw. |
| PhaseResultCard.TimeLabelOf | src/components/phase-result-card.tsx:350-352 | A non-zero time is shown as the time. A zero time prints a stray "0" and a missing one (`NaN`) a stray "NaN", each exactly in that case. |
| PhaseResultCard.AnsweredPhaseCard | src/components/phase-result-card.tsx:324-339 | The expanded card of an answered phase renders nothing exactly when the answer carried no results. It throws exactly for a reconnaissance answer that lists a subdomain record among its first ten. |
| ResultCard.DefaultTitle | src/components/result-card.tsx:30-34 | Every known phase has a non-empty built-in name. |
| ResultCard.PhaseTitle | src/components/result-card.tsx:28-37 | A known phase is titled by its translated name, or its built-in name when that is missing or empty, and is never untitled. Any other phase key is its own title. |
| ResultCard.SubdomainLabel | src/components/result-card.tsx:96 | A subdomain given as a string is its own label. A record is labelled by its `subdomain` field. |
| ResultCard.DnsValueText | src/components/result-card.tsx:80 | An array of records prints joined with ", ", and anything else prints as its text. |
| ResultCard.DnsValueTextCases | src/components/result-card.tsx:80 | A single record prints as itself, no records as nothing, and two with ", " between them. |
| ResultCard.DnsListAppend | src/components/result-card.tsx:80 | One more record in a non-empty list prints as the previous text, ", " and that record. |
| ResultCard.VulnCount | src/components/result-card.tsx:134 | The total is the list's length, or 0 without a list. |
| ResultCard.SeverityCount | src/components/result-card.tsx:135-136 | A severity count never exceeds the total and is 0 without a list. |
| ResultCard.SeverityCountsBounded | src/components/result-card.tsx:134-136 | The critical and high counts together never exceed the total. |
| ResultCard.SeverityToneOf | src/components/result-card.tsx:160-168 | Critical is pink, high yellow, and anything else cyan; each holds in both directions. |
| ResultCard.ReconnaissanceResultOf | src/components/result-card.tsx:65-110 | Every DNS entry is printed with its value text whenever records are present. Subdomains appear exactly when there is one: the labels of the first five, with "+N more" exactly when there are more than five. |
| ResultCard.VulnerabilityRowOf | src/components/result-card.tsx:156-170 | A row's tag colour is its severity's tone. |
| ResultCard.VulnerabilityResultOf | src/components/result-card.tsx:132-180 | The body shows the critical, high and total counts, with critical plus high at most the total. It lists the first three vulnerabilities exactly when there is one. |
| ResultCard.RenderResults | src/components/result-card.tsx:39-215 | An unknown phase key renders its results as raw JSON, and only it does. Each known phase renders its own body. Pre-engagement shows its target, validity and non-empty IP address. Scanning lists the ports exactly when there are some, one row per port with its number and its service, or "Unknown" when the service is empty. Exploitation lists the attempts exactly when there are some, one row per attempt with its name, success and description. |
| JsText.TrimStart | src/components/url-scanner.tsx:259 | The result is a suffix of the input. Everything removed is whitespace, and the result does not start with whitespace. |
| JsText.TrimEnd | src/components/url-scanner.tsx:259 | The result is a prefix of the input. Everything removed is whitespace, and the result does not end with whitespace. |
| JsText.TrimIsEmptyIffBlank | src/components/url-scanner.tsx:259 | `trim()` is empty exactly when every character is whitespace. |
| JsText.AsciiLowerChar | src/hooks/use-language.ts:17 | Upper-case ASCII letters move to lower case, and every other character is kept. |
| JsText.AsciiLower | src/hooks/use-language.ts:17 | Lower-casing keeps the length and maps each character on its own. |
| JsText.DigitChar | src/components/url-scanner.tsx:207 | A digit's character is between '0' and '9'. |
| JsText.NatToString | src/components/url-scanner.tsx:207 | The decimal text of a number is non-empty and made only of digits. |
| JsText.NatToStringRoundTrip | src/components/url-scanner.tsx:207 | Reading the decimal text back gives the number. |
| JsText.IntToString | src/components/security-report.tsx:100 | A negative number prints as a minus sign followed by the text of its magnitude. |
| JsText.JoinIsEmptyIff | src/components/url-scanner.tsx:218 | With a non-empty separator, the join is empty exactly for no items or one empty item. That is when "None" is shown. |
| JsText.JoinAppend | src/components/result-card.tsx:80 | Joining a non-empty list with one more string appends the separator and that string. |
| Lists.Truncate | src/components/phase-result-card.tsx:129-136 | The shown part is the first `min(n, limit)` items. Shown plus hidden is all items, and some are hidden exactly when there are more than the limit. |
| Lists.CountWhere | src/components/result-card.tsx:135-136 | The count is at most the length, and 0 exactly when no item matches. |
| Lists.DisjointCountsBounded | src/components/result-card.tsx:134-136 | Counts of two predicates no item meets together are at most the length. |
| Types.Truthy | src/components/phase-result-card.tsx:78 | An optional string is shown exactly when it is present and non-empty. |
| Types.OrElse | src/components/phase-result-card.tsx:248 | `a \|\| b` is `a` when it is a non-empty string and `b` otherwise. |

## Left out

- The HTTP requests (`fetch`, JSON parsing, status codes) are not modelled. The phase endpoint is the `backend` function and the report endpoint one `ReportOutcome`. A failed HTTP status and a network error are both `TransportError`, which is what the code's `throw` makes of them.
- React's state batching and re-rendering are not modelled. `RunRealScan` writes each update in program order. The report it stores is derived first from the array the handler captured; it is the same value the source computes at line 373.
- `setCurrentStep(scanSteps.length - 1)` before report generation is folded into the final state. The step is -1 again when the scan ends.
- UI timestamps (`toLocaleTimeString`), the report id (`scan-${Date.now()}`), the report timestamp and `generatedAt` are left out or given as parameters. They come from the clock.
- The client id is left out. It is random and only sent in request bodies.
- Floating point is not modelled. `execution_time_seconds * 1000` is an integer product, so a missing time is `None` rather than `NaN`. `toFixed(2)`, the progress percentage and `Math.round` are left out.
- PhaseResultCard.PhaseCardOf: reads a missing time as `NaN`, which is what every entry the scanner hands the card holds (a completed phase entry, whose time was set from the answer). An entry that never had a time would show nothing in the source and "NaN" here.
- The progress list's "Completed in" line (src/components/url-scanner.tsx:497-501) is not modelled. It has the same `executionTime &&` guard, so it prints a stray "0" or "NaN" in the same cases as the card.
- JsText.AsciiLower: does not model `toLowerCase` beyond ASCII. It is exact for the `startsWith("fr")` test it serves.
- SecurityReport.Sanitize: works on characters, not UTF-16 code units. A character outside the Basic Multilingual Plane becomes one dash here but two in JavaScript.
- The text of `JSON.stringify`, the raw JSON tab, the viewer's JSON download, the blob and anchor plumbing of the report download, and `handleReportDownload` are left out. They are DOM and serialisation work.
- The translation tables are left out. Labels are datatype constructors. The step names of the result card are the parameter `steps`. The report view's calls of `t`, which the language hook does not provide, are modelled only as the TypeError they throw (see "## Findings").
- The fields `whois_info`, `scan_summary`, `response_time_ms` and `cvss_score` are left out; they are only shown verbatim. The port numbers and versions are carried but not analysed.
- The cards' own collapse state (`isExpanded`, which starts true) is a parameter of `PhaseResultCard.PhaseCardOf`. Its toggle is not modelled.
- ResultCard.PhaseTitle: does not model keys such as "constructor" that the object-literal lookup would find on `Object.prototype`.
- `resetScan` while a request is in flight is not modelled. The model runs a scan to completion in one call, so it has no interleaving.
- Markup-only components, the page layout and the `src/lib/types.ts` declarations beyond the fields read are not part of this model.

## Findings

| source | as written | input that shows it | evidently intended | confidence | as-written member | corrected member |
|---|---|---|---|---|---|---|
| src/components/url-scanner.tsx:373 | The report is derived from `scanProgress` as captured when `runRealScan` was invoked, not from the array the scan produced. On a first scan that array is empty. | A first scan where every phase answers "completed" and the vulnerability phase reports `critical: 3`. The stored report has a failed validation section and a score of 100. | Derive the report from the final progress array, so completed phases give successful sections and the counts are the vulnerability phase's own (proved in UrlScanner.ReportFromFinalProgress). | not executed | UrlScanner.FirstScanReportIgnoresPhases | UrlScanner.Scanner.RunScanReportingFinalProgress |
| src/components/security-report.tsx:47 | The component takes `t` from `useLanguage()`, but the hook returns only `language` and `changeLanguage` (src/hooks/use-language.ts:29). Both branches call `t` (lines 56 and 117), so every render throws a TypeError. | Any scan where every phase completes and the report is generated: the scanner sets `showReport` and renders the report view, which throws. | Take `t` from a hook that provides it, so the view renders the placeholder or the report page. | not executed | SecurityReport.ShownReportThrows | SecurityReport.RenderReport |
| src/components/phase-result-card.tsx:131 | Each of the first ten subdomains is put into the page as it is. The backend's type declares them as `{subdomain, status}` objects (src/lib/types.ts:23-26), and React throws on an object child. | A reconnaissance answer with `subdomains: [{subdomain: "www.example.com", status: "active"}]`; the card starts expanded, so it throws on mount. | Show each subdomain's name, taking the `subdomain` field of a record, as the result card does (src/components/result-card.tsx:96). | not executed | PhaseResultCard.DeclaredSubdomainShapeThrows | PhaseResultCard.ReconnaissanceViewOf |
