# CompeteAI core, modelled in Dafny

CompeteAI is a browser app. It asks a language model for a competitive audit of a company's web domain, normalises the JSON answer into a report, and shows and stores the reports. This project models the app's logic as immutable datatypes and pure functions and proves properties of them:

- **Response extraction and normalisation.**
  - The answer text is cut from the first `{` to the last `}`, using JavaScript's `substring`, including its argument swap.
  - The result goes to an abstract JSON parser, a function parameter `parse: string -> Option<Json>`.
  - The parsed object is then normalised field by field: truthiness defaults, array checks, whole-object defaults.
  - Source URLs come from the grounding chunks.
  - The competitor image is the first inline part, or a fixed fallback URL.
- **The audit form.**
  - The empty-input guard.
  - Domain cleaning: the prefix regex, then the cut at the first slash.
  - The rolling progress log: the last eight entries plus the new step.
  - The success and failure handling of a probe.
- **The display helpers.**
  - Feature-status badges.
  - The rounded mean sentiment shown on the dashboard.
  - The sentiment score colour bands.
- **The report-list state machine of the application shell.**
  - Load and persist.
  - Add by prepending; delete by filtering.
  - Selection, tab switches and view switches, with and without closing the mobile menu; the print selection.
- **The report viewer's media updates.**
  - The one-shot audio briefing.
  - The video URL hand-off, including the replace-by-id in the stored list.
  - The video panel's generate guard and progress messages.
- **The report schema**, in two forms.
  - Typed datatypes.
  - A raw `Report` that keeps the `Json` values the normaliser passes through unchecked.
  - `SchemaCodec.AsAudit` and `SchemaCodec.ToJson` connect the two, with a round-trip lemma.

Timer ticks, confirmations, request outcomes, report ids and timestamps are all inputs to the functions. The storage cell is a `Storage.Blob`: absent, unparseable, or a list of reports.

Behaviours a reader might expect but the code does not have; the model follows the code:

- **Domain cleaning.** Nothing is lower-cased. `https://www.Example.com/pricing` cleans to `Example.com`, not `example.com` (`AuditForm.CleanDomainKeepsCase`).
- **Upper-case schemes.** Only a lower-case scheme is stripped, so `HTTPS://x.com` cleans to `HTTPS:`.
- **`swot` and `battlecard` defaults.** These defaults replace the whole object, and only when it is falsy. A present object with missing sub-lists is kept as it is (`SchemaCodec.PartialSwotKeptAsIs`).
- **Failed parses.** When the braced slice fails to parse, the raw text is not tried again (`Extraction.NoRetryOnRawText`).
- **`null` answers.** An answer that parses to `null` fails with the engine's property-read error, wrapped in the probe prefix. Other answers that are not objects take every default.
- **Empty domain.** `companyName` is the empty string when the parsed value is falsy and the domain is empty.
- **Media fields.** The schema in types.ts does not declare `audioUrl` or `videoUrl`. The report viewer attaches them at run time, so the model's `Types.AuditResult` carries both as optional fields.

## Model

| member | source | states |
|---|---|---|
| Types.ViewName | types.ts:42-46 | each of the three views carries one of the values `dashboard`, `new_audit`, `audit_detail` |
| Types.ViewNamesDistinct | types.ts:42-46 | two views have the same value exactly when they are the same view, so there are exactly three |
| JsString.IndexOf | services/geminiService.ts:8 | the result is -1 exactly when the character is absent; otherwise it is a position holding the character with no earlier occurrence |
| JsString.LastIndexOf | services/geminiService.ts:9 | the result is -1 exactly when the character is absent; otherwise it is a position holding the character with no later occurrence |
| JsString.Substring | services/geminiService.ts:11 | both arguments are clamped to the string and the smaller one starts the slice; gives the result's length and every character |
| JsString.SubstringSymmetric | services/geminiService.ts:11 | swapping the two arguments never changes the result |
| JsString.ToLower | components/FeatureMatrix.tsx:11 | same length, each character lower-cased on its own |
| JsString.ToLowerIdempotent | components/FeatureMatrix.tsx:11 | lower-casing twice is the same as lower-casing once |
| Extraction.ExtractJson | services/geminiService.ts:5-19 | succeeds exactly when the chosen candidate parses, and then returns the parsed value; every failure is the single extraction error message |
| Extraction.CandidateWhenOrdered | services/geminiService.ts:8-12 | when the first `{` comes before the last `}`, the candidate is exactly the text from that `{` to that `}` inclusive |
| Extraction.CandidateWhenReversed | services/geminiService.ts:8-12 | when the last `}` comes before the first `{`, the swapped `substring` yields the text strictly between them |
| Extraction.CandidateWithoutBraces | services/geminiService.ts:10-14 | when either brace is missing, the whole text is the candidate |
| Extraction.ReversedBracesExample | services/geminiService.ts:11 | `"}5{"` yields the candidate `"5"` |
| Extraction.EmbeddedObjectFound | services/geminiService.ts:7-12 | an object between brace-free prose before and after it is extracted exactly |
| Extraction.NoRetryOnRawText | services/geminiService.ts:10-18 | when the braced slice does not parse, the result is the extraction error, whatever the raw text would parse to |
| AuditService.Uris | services/geminiService.ts:106-108 | never more URIs than chunks, and none of them empty |
| AuditService.UrisConcat | services/geminiService.ts:106-108 | the URIs of joined chunk lists are the joined URI lists, so chunk order is kept |
| AuditService.SourceUrls | services/geminiService.ts:106-108 | missing grounding metadata gives `[]`; otherwise the URLs are non-empty and at most one per chunk |
| AuditService.SourceUrlsAppend | services/geminiService.ts:106-108 | a chunk adds exactly its truthy `web.uri` and nothing when the URI is absent or empty |
| AuditService.Normalize | services/geminiService.ts:110-123 | fails exactly for a `null` answer, with the property-read message; otherwise keeps the given id, domain, timestamp and URLs verbatim |
| AuditService.NormalizedTextFields | services/geminiService.ts:115-117 | a truthy `companyName`, `industry` or `summary` is kept; a falsy one becomes the domain, "General Industry" or "Intelligence summary complete."; `industry` and `summary` are therefore always truthy |
| AuditService.NormalizedListFields | services/geminiService.ts:118-122 | `techStack`, `featureGap` and `sentiment` keep an array's items unchecked, and anything else becomes `[]`; a string is never wrapped |
| AuditService.NormalizedNestedObjects | services/geminiService.ts:119-120 | `swot` and `battlecard` are kept whole when truthy and replaced by the all-empty object only when falsy |
| AuditService.ResponseText | services/geminiService.ts:105 | the text is never empty; an absent or empty response text becomes `"{}"` |
| AuditService.PerformAudit | services/geminiService.ts:105-127 | every failure is "Strategic probe failed: " plus the cause (request error, extraction error or null read); a parsed object gives the normalised report with the chunk URLs |
| AuditService.EmptyResponseDefaults | services/geminiService.ts:105-123 | an empty or absent text gives a report with every field at its default and the domain as the company name |
| AuditService.ProseOnlyResponseFails | services/geminiService.ts:14-18 | prose without braces that does not parse ends in the prefixed extraction error |
| CompetitorImage.FirstInline | services/geminiService.ts:143-145 | finds an inline part exactly when one exists, and every earlier part has none |
| CompetitorImage.ImageUrl | services/geminiService.ts:143-149 | the result is always the data URL of the first inline part or the fallback URL, and the fallback when there is no inline part or the call failed |
| CompetitorImage.ImageUsesFirstInlinePart | services/geminiService.ts:143-145 | the data of the first inline part is used, whatever follows it |
| SchemaCodec.SwotRoundTrip | types.ts:1-6 | a SWOT record written as JSON reads back unchanged |
| SchemaCodec.BattlecardRoundTrip | types.ts:8-12 | a battlecard written as JSON reads back unchanged |
| SchemaCodec.FeaturesRoundTrip | types.ts:14-18 | a feature list written as JSON reads back unchanged |
| SchemaCodec.SentimentsRoundTrip | types.ts:20-24 | a sentiment list written as JSON reads back unchanged |
| SchemaCodec.NormalizeRoundTrip | services/geminiService.ts:110-123 | a record with non-empty text fields, written as the answer JSON and normalised with its own id, domain, timestamp and URLs, reads back as exactly that record |
| SchemaCodec.PartialSwotKeptAsIs | services/geminiService.ts:119 | a `swot` holding only `strengths` is passed through unrepaired, so the report does not read as a schema record |
| SchemaCodec.DocumentedRangesNotEnforced | types.ts:14-24 | an example, not a property of the app: the status words and the score range are only documented, so the model's schema reader accepts the status "beta" and the score 150 unchanged, as nothing in the app rejects them |
| AuditForm.CleanDomain | components/AuditForm.tsx:31 | the result contains no `/`; it is the text right after the matched prefix and runs to the end of the input or to a `/` |
| AuditForm.CleanDomainOfUrl | components/AuditForm.tsx:31 | for an optional lower-case scheme, an optional `www.`, a slash-free host and a path, the result is exactly the host |
| AuditForm.CleanDomainKeepsCase | components/AuditForm.tsx:31 | `https://www.Example.com/pricing` cleans to `Example.com`, with the case kept |
| AuditForm.UpperCaseSchemeKept | components/AuditForm.tsx:31 | `HTTPS://x.com` cleans to `HTTPS:` |
| AuditForm.Submit | components/AuditForm.tsx:29-35 | an empty input is ignored; any other input starts loading, clears the error and sets the log to the initial line for the cleaned domain |
| AuditForm.EmptyCleanedStillSubmitted | components/AuditForm.tsx:29-31 | `https://` cleans to the empty string and is still submitted |
| AuditForm.Tick | components/AuditForm.tsx:39 | after a tick the log holds at most nine lines: the last (up to) eight earlier lines in order, then the step message |
| AuditForm.HistoryEntries | components/AuditForm.tsx:35-40 | the full history is the initial line, then `loadingSteps[k mod 7]` for the k-th tick |
| AuditForm.LogWindow | components/AuditForm.tsx:37-41 | after n ticks the log is exactly the last nine entries of the full history, so its length is min(n + 1, 9) |
| AuditForm.Settle | components/AuditForm.tsx:43-52 | loading is off after either outcome; a success hands the record on; a failure hands nothing on and shows the message, or the fixed fallback when there is none |
| AuditForm.ProbeFailureShown | components/AuditForm.tsx:47-49 | a failed probe shows its own prefixed message, not the fallback, and hands nothing on |
| FeatureMatrix.StatusBadge | components/FeatureMatrix.tsx:10-31 | after lower-casing: "available" and "yes" give Operational, "limited", "partial" and "beta" give Limited, every other string gives Signal Gap |
| FeatureMatrix.BadgeIgnoresCase | components/FeatureMatrix.tsx:11 | statuses that are equal once lower-cased get the same badge |
| FeatureMatrix.BadgeOfLowered | components/FeatureMatrix.tsx:11 | lower-casing a status first never changes its badge |
| FeatureMatrix.DeclaredStatusBadges | components/FeatureMatrix.tsx:12-29 | the three declared words get the three different badges |
| FeatureMatrix.MixedCaseStatuses | components/FeatureMatrix.tsx:11-29 | "YES" is Operational, "Beta" is Limited, "" is Signal Gap |
| FeatureMatrix.FeatureRows | components/FeatureMatrix.tsx:70-83 | one row per feature, in input order, each with its own badge |
| FeatureMatrix.MatrixRows | components/FeatureMatrix.tsx:70-90 | an empty list gives exactly the single placeholder row; otherwise there is one row per feature and no placeholder |
| FeatureMatrix.FeatureRowsAppend | components/FeatureMatrix.tsx:70-83 | the rows of joined lists are the joined rows |
| Dashboard.AverageSentiment | components/Dashboard.tsx:86 | an empty list shows 0; otherwise the figure is the mean score rounded to the nearest integer, halves upwards |
| Dashboard.RoundingUnique | components/Dashboard.tsx:86 | only one integer is the rounded mean, so the rounding statement pins the figure down |
| Dashboard.ScoreSumBounds | components/Dashboard.tsx:86 | scores in 0..100 sum to between 0 and 100 times the count |
| Dashboard.AverageWithinRange | components/Dashboard.tsx:86 | when every score is in 0..100, the displayed figure is in 0..100 |
| Dashboard.SingleEntryAverage | components/Dashboard.tsx:86 | a one-entry list shows that entry's score |
| Dashboard.Headline | components/Dashboard.tsx:79 | the first strength, or nothing when there are no strengths |
| Dashboard.CardOf | components/Dashboard.tsx:55-91 | a card shows the report's id, name and domain, the rounded mean sentiment, a tech count equal to the tech list's length, and the first strength as its quote, or no quote when there are no strengths |
| Dashboard.Render | components/Dashboard.tsx:29-49 | the empty state exactly when there is no report; otherwise one card per report, in list order, each the card of its report |
| Dashboard.CardSentimentInRange | components/Dashboard.tsx:84-86 | a report whose scores are in 0..100 shows a sentiment figure in 0..100 |
| Dashboard.SingleEntryCard | components/Dashboard.tsx:79-86 | a report with one sentiment entry and no strengths shows that entry's score and an empty quote |
| Dashboard.NewReportCardFirst | components/Dashboard.tsx:49-51 | a report put at the front of the list gets the first card, followed by the previous cards in order |
| Dashboard.DeleteRequest | components/Dashboard.tsx:70 | the id is passed on exactly when the confirmation is accepted |
| ReviewAnalysis.ScoreBand | components/ReviewAnalysis.tsx:19 | emerald exactly above 70, amber exactly in (40, 70], rose exactly at 40 or below |
| ReviewAnalysis.LabelAndBarAgree | components/ReviewAnalysis.tsx:19-26 | the label's ternary and the bar's separate ternary each pick the class of the score's band, so label and bar always show the same band |
| ReviewAnalysis.ColoursIdentifyBand | components/ReviewAnalysis.tsx:19-26 | the three label classes are pairwise different and so are the three bar classes, so each class names exactly one band |
| ReviewAnalysis.BandMonotone | components/ReviewAnalysis.tsx:19 | a higher score never gets a lower band |
| ReviewAnalysis.CardOf | components/ReviewAnalysis.tsx:13-44 | a card keeps the category and gripes in order, its bar width is the score, and both colours come from the score's band |
| ReviewAnalysis.Cards | components/ReviewAnalysis.tsx:13 | one card per sentiment entry, in order |
| ReviewAnalysis.CardColoursMatch | components/ReviewAnalysis.tsx:19-26 | whatever band a card's label colour names, its bar colour names the same band |
| Storage.IndexOfId | components/AuditResults.tsx:52 | -1 exactly when no report has the id; otherwise the first position with it |
| Storage.FindById | App.tsx:41 | nothing exactly when no report has the id; otherwise the first report in the list with that id |
| Storage.FindInPrefix | App.tsx:41 | a match in the front of a list wins over anything after it |
| App.Mount | App.tsx:19-32 | a parseable stored list is loaded; a missing or unparseable one leaves the list empty with no crash, and the list is written back |
| App.CompleteAudit | App.tsx:34-39 | the new report is put at the front, selected, and shown on the overview tab in the detail view |
| App.RemoveId | App.tsx:44 | no survivor has the id, and every report without the id survives |
| App.RemoveIdAppend | App.tsx:44 | filtering distributes over joined lists, so survivors keep their original order |
| App.RemoveIdAbsent | App.tsx:44 | deleting an id nobody has changes nothing |
| App.RemoveIdIdempotent | App.tsx:44 | deleting the same id twice equals deleting it once |
| App.FindAfterRemove | App.tsx:41-44 | deleting one id never changes which report a lookup of another id finds |
| App.DeleteAudit | App.tsx:43-49 | deleting the selected id clears the selection and returns to the dashboard; deleting another id leaves the selection and the view alone |
| App.SelectAudit | App.tsx:51-56 | sets the id, the given tab or the overview tab by default, and the detail view, and closes the menu |
| App.SelectedAudit | App.tsx:41 | nothing exactly when there is no selection or no report carries the selected id; otherwise the first report in the list with that id |
| App.SelectShowsFirstMatch | App.tsx:41-56 | opening an id hands the first report with it to the report viewer on the chosen tab, or shows "No audit selected" when no report has it |
| App.PrintSet | App.tsx:67-68 | "all" prints the whole list; "single" prints the selected report, or nothing when none matches |
| App.Render | App.tsx:67-187 | printing shows the print set; the detail view shows "No audit selected" exactly when no report matches the selection |
| App.Dispatch | App.tsx:30-32 | whenever an event changes the list, the whole new list is written to storage |
| App.DispatchKeepsSynced | App.tsx:30-32 | if storage held the list before an event, it holds it after |
| App.Step | App.tsx:34-181 | only completing and deleting change the list; the sidebar and navbar view switches close the menu while the in-page ones leave it as it was; a tab switch changes only the tab; every field not set by an event keeps its value |
| App.NavigationsDifferOnlyInMenu | App.tsx:148-165 | the navbar's view switch and the dashboard's or form's plain view switch give the same state except the menu, and they differ whenever the menu was open |
| App.ChangeTabShowsTab | App.tsx:168-174 | switching tabs on an open report shows the same report on the chosen tab |
| App.BackFromMissingReport | App.tsx:177-187 | the link back from "No audit selected" shows the dashboard of the current list |
| App.RunSynced | App.tsx:19-32 | after start-up and any sequence of the shell's own actions, storage holds exactly the shell's list |
| App.CompleteShowsResult | App.tsx:34-41 | right after completion, the detail view shows the new report on the overview tab |
| App.DeleteOpenReport | App.tsx:45-48 | deleting the open report shows the dashboard of the remaining list |
| App.DeleteOtherKeepsSelection | App.tsx:41-48 | deleting any other id leaves the open report open |
| App.ConfirmedDelete | components/Dashboard.tsx:70 | an unconfirmed delete changes nothing; a confirmed one is the shell's delete |
| App.Deliver | components/AuditResults.tsx:46-58 | the video hand-off leaves the shell's state alone and rewrites only the storage cell, replacing the first stored entry with the id |
| App.VideoUrlLostOnNextPersist | components/AuditResults.tsx:46-58 | after the hand-off for one of two stored reports the cell no longer mirrors the shell's list, and deleting the other report stores the first without its video URL |
| App.DeliverFixed | components/AuditResults.tsx:46-58 | the intended hand-off replaces the first entry with the id in the shell's own list, changes nothing else, and keeps the storage cell in step with the list |
| App.FindReplaced | components/AuditResults.tsx:52-54 | after the first entry with an id is replaced, a lookup of that id finds the replacement |
| App.FixedHandOffKeepsVideo | components/AuditResults.tsx:46-58 | with the intended hand-off, the same two-report example stores the first report with its video URL |
| App.FixedVideoSurvivesDelete | App.tsx:30-44 | with the intended hand-off, deleting any other report still stores the updated report under its id |
| App.RunFixedSynced | App.tsx:19-32 | with the intended hand-off, storage holds exactly the shell's list after start-up and any sequence of events |
| AuditResults.TabIdsDistinct | components/AuditResults.tsx:24-31 | there are six tab ids, pairwise distinct |
| AuditResults.ContentFor | components/AuditResults.tsx:143-171 | each of the six ids selects its own panel, and any other id renders nothing |
| AuditResults.TabsShowDifferentPanels | components/AuditResults.tsx:143-171 | two different tabs never render the same panel |
| AuditResults.AudioBriefing | components/AuditResults.tsx:33-44 | no request when audio is already set; on success only `audioUrl` changes; on failure the record is unchanged; the spinner is off afterwards |
| AuditResults.AudioAtMostOnce | components/AuditResults.tsx:34-38 | once audio has been produced, a second press requests nothing and changes nothing |
| AuditResults.ReplaceFirst | components/AuditResults.tsx:50-55 | only the first entry with the id is replaced; the length and every other entry stay the same; a list without the id is unchanged |
| AuditResults.VideoGenerated | components/AuditResults.tsx:46-58 | the viewer's copy changes only `videoUrl`; storage is rewritten only when a list is stored and holds the id; an unparseable stored list throws |
| AuditResults.StoredVideoReplacesFirstMatch | components/AuditResults.tsx:50-55 | in the stored list the first matching entry becomes the updated report, and the entries before and after it are untouched |
| AuditResults.GenerateVideo | components/VideoBriefing.tsx:40-49 | a failure changes neither the report nor storage; a success sets the video URL; an unparseable stored list surfaces as the panel's alert |
| AuditResults.GeneratedVideoIsShown | components/VideoBriefing.tsx:52-71 | after a successful generation the panel shows the player, so no second generation is offered |
| VideoBriefing.Render | components/VideoBriefing.tsx:52-88 | the player exactly when `videoUrl` is set; the prompt exactly when it is not set and nothing is generating; progress always shows a non-empty message |
| VideoBriefing.LogAfterTicks | components/VideoBriefing.tsx:34-38 | with no tick the log is unchanged; after a tick it is one of the six messages |
| VideoBriefing.ProgressCycles | components/VideoBriefing.tsx:35-38 | the k-th tick shows message k mod 6, so the messages repeat every six ticks |
| VideoBriefing.StartGeneration | components/VideoBriefing.tsx:33-49 | generation is off afterwards; a success hands the URL on exactly once; a failure hands nothing on and alerts "Video Generation Failed: " plus the message |
| VideoBriefing.ProgressShownWhileGenerating | components/VideoBriefing.tsx:73-79 | while generating, the progress screen shows the latest tick's message |

## Left out

- Gemini SDK calls, prompts and response schemas (services/geminiService.ts:21-103, 130-141). They are foreign network calls. The response text, grounding chunks, image parts and request errors are inputs.
- `JSON.parse` and `JSON.stringify`. Parsing is an abstract parameter `parse`, and its facts are stated as `requires` where needed. Storage holds decoded lists, not text.
- `generateBriefingAudio` and `generateBriefingVideo`. They are not defined in the service file. Their results are inputs, `Result<string, string>`.
- The random report id and the `new Date()` timestamp. Both are parameters.
- `setInterval` and `setTimeout`. Ticks are counted as inputs.
- `window.print`, `confirm`, `alert` and the `window.aistudio` key dialog. Confirmation is a boolean input; an alert is returned as its text. The key dialog always lets generation proceed, as the code does.
- React state timing, such as the viewer's `useState(audit)` snapshot. The viewer's copy of the report is an input of the hand-off (`current`), and events are applied one at a time.
- App.RunSynced: covers the shell's own actions only. The viewer's video hand-off writes the storage cell directly and breaks the mirror (see Findings); `App.RunFixedSynced` states the property with the intended hand-off.
- App.SelectShowsFirstMatch: `ReportPage` names the report the shell hands to the viewer. The viewer (App.tsx:169, no `key`) keeps the copy it took when it mounted (components/AuditResults.tsx:21). So opening another report while the detail view is already open keeps showing the old one until the viewer remounts, and a video hand-off in that state writes the old copy at the new report's index. The viewer's lifetime is not modelled.
- Dashboard.CardOf: takes schema records only. The normaliser lets through a `swot` object without a `strengths` list (`SchemaCodec.PartialSwotKeptAsIs`), and the card's `strengths[0]` read then throws (components/Dashboard.tsx:79). That crash is not modelled: the shell's list holds schema records only.
- FeatureMatrix.StatusBadge: takes a string status. The normaliser lets through feature entries without a string `status`, and `toLowerCase` then throws (components/FeatureMatrix.tsx:11). That crash is not modelled.
- App.Mount: a stored value that parses to something other than a list is not modelled. The code would store that non-list value and fail on the next lookup.
- CompetitorImage.ImageUrl: a part whose `inlineData` is present but has no `data` is not modelled. The code would build a data URL ending in "undefined".
- JsString.ToLower: lower-cases ASCII `A`-`Z` only. JavaScript's `toLowerCase` also maps non-ASCII letters.
- Dashboard.AverageSentiment: scores are integers. Fractional scores and floating-point rounding are not modelled.
- Markup-only components (Battlecard, SWOTCard, TechStack, Navbar, Sidebar), plus styling, icons, logos and the printed page layout.
- The tab bar's `hideTabs` flag and the hero image. They affect layout only.

## Findings

| source | as written | input that shows it | evidently intended | confidence | as-written member | corrected member |
|---|---|---|---|---|---|---|
| components/AuditResults.tsx:46-58 | the video hand-off writes the new `videoUrl` into the storage cell only, while the shell's list, which the persist effect (App.tsx:30-32) writes whole at its next change, keeps the report without it | stored `[a, b]` with different ids, a video for `a`, then delete `b`: the cell ends as `[a]` without the video URL | the video URL is kept in the shell's list and so survives later writes | medium, not executed | App.VideoUrlLostOnNextPersist | App.FixedHandOffKeepsVideo |
