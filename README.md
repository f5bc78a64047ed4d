# GTA Roof Guard: a verified model of the dispatch site's logic

GTA Roof Guard is a marketing site for an emergency roofing dispatch network. It has a
homeowner chat that asks an AI provider for nearby crews, a sales chat aimed at roofing
contractors, a partner control centre that runs AI "crews" to draft outreach e-mails and
a subscription strategy, and a contractor sign-up wizard. Everything runs in the browser.

This project models the deterministic part of that site in Dafny and proves what it
promises:

- `wrappers.dfy`: `Option` and `Result`, standing in for `undefined` and for thrown errors.
- `strings.dfy`: the JavaScript string operations the site relies on, with their exact
  semantics. It covers `trim` (the full `WhiteSpace` and `LineTerminator` set),
  `split('\n')` (always at least one piece), `join`, `startsWith`/`endsWith`, and `||` on
  strings.
- `types.dfy`: the records of `types.ts`. Optional properties become `Option`, and string
  unions become closed datatypes (`Role`, `TaskStatus`).
- `local_storage.dfy`: `localStorage` as a class holding a `map<string, string>`, and the
  three keys the site uses.
- `gemini.dfy`: the AI gateway adapter, the five calls of `services/gemini.ts`.
  - The provider's answer is an input value (`ProviderOutcome`): loose optional text plus
    grounding chunks. So is `JSON.parse`: a function-typed parameter that may fail.
  - Each adapter reports the request it would send, so "no call without a key" can be
    stated.
  - This file covers the history replay, the location hint, the text fallbacks, the
    chunk-to-roofer loop, the greedy `{…}` extraction and the estimate field defaults.
- `partner_sales_ai.dfy`: the `MarkdownLite` line classifier and `parseBold`, whose
  regular-expression split is modelled exactly. It also has the sales chat as a class.
- `chat.dfy`: the dispatch chat as a class, with the reply and error turns and the cap of
  three roofer cards per message.
- `admin_section.dfy`: the e-mail body formatting, the company-name fallbacks, the
  agent-task boards of the two pipelines, and the console as a class.
- `add_listing.dfy`: the stored strategy and the render of its sections, the specialty
  toggle, the four-step vetting wizard as a class, and the hand-off of a strategy from the
  console's lab to this page through `localStorage`.

Each asynchronous `handleSend` is split at its `await`. `Submit` is everything before it:
the guard, the user turn, clearing the input and raising `isLoading`. `Settle` is
everything after it: exactly one reply or system turn, then lowering `isLoading`.
`HandleSend` runs the two in order.

The two admin pipelines are methods that take the provider's answer as input. They step
their task boards through the same per-id and wholesale updates as the component, in the
same order.

Two behaviours of the code are worth stating plainly, because the model keeps them:

- The outreach and strategy adapters return whatever `JSON.parse` yields and check no
  field; an empty provider text is parsed as `{}`. So the e-mail and strategy records
  (`GeneratedEmail`, `ListingStrategy`, `PricingOption`) have an `Option` per field, and
  only a failure of `parse` is an error. The consequences are modelled too:
  - an empty outreach reply completes all three agents, and the preview's
    `generateEmailHtml` then throws on the missing body (`InvitationOf` is `None`,
    `EmptyOutreachReplyBreaksPreview`);
  - an empty strategy reply is stored as `{}`; the subscription page loads it in place of the
    default, and its render then throws (`StrategyPage` is `None`,
    `EmptyStrategyReplyBreaksPage`).
- The review snippet source is `placeAnswerSources || source`, chosen before any snippet is
  looked at, and an object is truthy. So a present `placeAnswerSources` without snippets
  gives `""`, even when `source` has one. `EmergencyRoofer` states this case separately.

## Model

| member | source | states |
|---|---|---|
| Gemini.Parsed | services/gemini.ts:223-224 | a `JSON.parse` failure becomes a malformed-response error; a parsed value passes through unchanged |
| Types.UserTurn | components/Chat.tsx:47-52 | a user turn with exactly the given text, id and timestamp, with no roofer cards and no safety flag |
| Gemini.ResolveApiKey | services/gemini.ts:86 | the key is `process.env.API_KEY` when a `process` object exists, otherwise `window.process.env.API_KEY` |
| Gemini.HasApiKey | services/gemini.ts:87 | an adapter goes on exactly when the resolved key is present and non-empty |
| Gemini.TurnOf | services/gemini.ts:126-131 | a system message replays to no turn, any other message to exactly one |
| Gemini.ReplayHistory | services/gemini.ts:126-131 | the replay has no more turns than the history, and a history of system turns only replays to nothing |
| Gemini.BuildContents | services/gemini.ts:126-133 | the contents are the replayed history followed by exactly one more turn, the new message as a user turn |
| Gemini.ReplayAppend | services/gemini.ts:126-131 | the replay of a concatenated history is the replay of each part, in order |
| Gemini.ReplayOne | services/gemini.ts:127-131 | a system message replays to nothing; a user message to a `user` turn and an assistant message to a `model` turn, with its text |
| Gemini.ReplayLength | services/gemini.ts:91-96 | the replay has one turn per non-system message |
| Gemini.ContentsShape | services/gemini.ts:126-133 | the contents sent have (non-system turns + 1) entries, and the last is the new message as a user turn |
| Gemini.LocationHint | services/gemini.ts:144 | a hint is attached iff a location is given and both coordinates are truthy (present and non-zero); it carries exactly those coordinates |
| Gemini.GroundedPlacesAppend | services/gemini.ts:154-156 | the places grounded by concatenated chunk lists are those of each list, in order |
| Gemini.GroundedPlacesOne | services/gemini.ts:155-156 | a chunk with a `maps` record contributes exactly that record; one without contributes nothing |
| Gemini.GroundedPlaces | services/gemini.ts:154-156 | at most one place per chunk |
| Gemini.GroundedPlacesMembers | services/gemini.ts:155-156 | every chunk's `maps` record is among the grounded places, and every grounded place is some chunk's `maps` record |
| Gemini.PlaceOf | services/gemini.ts:156 | a chunk contributes its `maps` record, or nothing when it has none |
| Gemini.ChunkPlaces | services/gemini.ts:152-154 | an absent chunk list grounds nothing; a present one grounds only its chunks' `maps` records |
| Gemini.ReviewSourceOf | services/gemini.ts:158 | `placeAnswerSources` when present, otherwise `source`, whether or not either has snippets |
| Gemini.RoofersFrom | services/gemini.ts:151-172 | one roofer per grounded place, in order, each the mapping of its place; an absent chunk list gives none |
| Gemini.CollectRoofers | services/gemini.ts:151-172 | the `forEach`/`push` loop builds exactly `RoofersFrom` |
| Gemini.FirstSnippetText | services/gemini.ts:159 | a non-empty snippet is the text of the first review snippet of the chosen source |
| Gemini.EmergencyRoofer | services/gemini.ts:157-169 | the name is the title, or "Emergency Crew" when the title is missing or empty; contact fields are copied; the snippet comes from `placeAnswerSources` when present; a location is set iff `latLng` is present and carries its coordinates |
| Gemini.EstimateRoofer | services/gemini.ts:307-313 | the name is the title, or "Elite Installer"; contact fields are copied; no snippet and no location |
| Gemini.ExtractJsonSpan | services/gemini.ts:292-298 | a span exists iff some `}` follows some `{`; it starts with `{` and ends with `}`; no `{` precedes it and no `}` follows it in the text |
| Gemini.ExtractEmbeddedObject | services/gemini.ts:293-295 | an object between prose with no `{` before it and no `}` after it is extracted exactly, inner braces included |
| Gemini.EstimateFromFields | services/gemini.ts:318-323 | each text field is the parsed one when non-empty, else its fixed placeholder; the companies are exactly the grounded roofers |
| Gemini.EngagePartnerSales | services/gemini.ts:85-114 | a request is sent iff a key resolves, else "API Key is missing."; the request replays the history; a failed call is a provider error; a reply is never empty and falls back to the waitlist text |
| Gemini.EmergencyExchange | services/gemini.ts:116-178 | a request is sent iff a key resolves, with the replayed history, the Maps tool and the location hint; a failed call is a provider error; the text falls back to "Dispatch processing..."; the roofers are the grounded ones |
| Gemini.SendEmergencyMessage | services/gemini.ts:116-178 | the step-by-step adapter (push onto the contents, chunk loop) returns exactly what `EmergencyExchange` specifies |
| Gemini.GenerateOutreachEmail | services/gemini.ts:180-229 | a request is sent iff a key resolves, else "API Key missing."; the request has the website and instruction fallbacks, and a response schema requiring `subject` and `body`; empty text parses `{}`; the parsed object, with whatever fields it has, is returned as it is |
| Gemini.GenerateNetworkStrategy | services/gemini.ts:231-258 | a request in JSON mode is sent iff a key resolves; empty text parses `{}`; the parsed object is returned as it is, and a parse failure is the only malformed case |
| Gemini.GetRoofingEstimate | services/gemini.ts:260-328 | a request is sent iff a key resolves; no `{…}` span fails with "No JSON found in response"; otherwise the span is parsed and the fields defaulted, with the grounded roofers |
| Strings.Trim | components/Chat.tsx:44 | the result is the slice of the input between its leading and trailing whitespace runs, and it neither begins nor ends with whitespace |
| Strings.TrimEmptyIffBlank | components/Chat.tsx:44-45 | the trim is empty iff every character is whitespace |
| Strings.TrimIdempotent | components/PartnerSalesAI.tsx:16 | trimming twice is trimming once |
| Strings.Or | components/AdminSection.tsx:54 | `s || fallback`: `s` when non-empty, otherwise the fallback |
| Strings.OptOr | services/gemini.ts:109 | a missing or empty string gives the fallback, otherwise the string itself |
| Strings.Interpolate | components/AddListing.tsx:71 | a template literal writes a string as it is and a missing one as `undefined`; only an empty string gives an empty text |
| Strings.Split | components/PartnerSalesAI.tsx:11 | at least one piece, and no piece contains the separator |
| Strings.SplitCount | components/PartnerSalesAI.tsx:11 | there is one more piece than there are separators |
| Strings.JoinSplit | components/AddListing.tsx:145 | joining the pieces with the separator gives the string back |
| Strings.JoinExcludes | components/AdminSection.tsx:19 | a character in neither the parts nor the separator is not in the join |
| PartnerSalesAI.CloseFrom | components/PartnerSalesAI.tsx:53 | the lazy `.*?\*\*` finds the first `**` at or after the start with no line terminator before it |
| PartnerSalesAI.MatchEnd | components/PartnerSalesAI.tsx:53 | a match starts and ends with `**`, is at least four long, and holds no line terminator |
| PartnerSalesAI.BoldSplit | components/PartnerSalesAI.tsx:53 | the split gives at least one part, and the empty text splits to one empty part |
| PartnerSalesAI.SplitFromConcat | components/PartnerSalesAI.tsx:53 | from any position, the pieces of the split concatenate to the rest of the text |
| PartnerSalesAI.BoldSplitConcat | components/PartnerSalesAI.tsx:53 | the parts of the capturing split concatenate to the input text |
| PartnerSalesAI.SplitFromShape | components/PartnerSalesAI.tsx:53 | from any position, the split alternates text and bold tokens |
| PartnerSalesAI.BoldSplitShape | components/PartnerSalesAI.tsx:53 | the split has odd length and every odd-indexed part is a `**…**` token |
| PartnerSalesAI.Inner | components/PartnerSalesAI.tsx:58 | `slice(2, -2)`: the part minus two characters at each end, or empty when shorter than four |
| PartnerSalesAI.RenderPart | components/PartnerSalesAI.tsx:55-62 | bold iff the part starts and ends with `**`, and then the part is `**` + text + `**`; any other part passes through unchanged |
| PartnerSalesAI.RenderParts | components/PartnerSalesAI.tsx:54-63 | one rendered part per split part, each rendered independently |
| PartnerSalesAI.ParseBold | components/PartnerSalesAI.tsx:52-64 | an odd number of rendered parts, and every odd-indexed one (a captured `**…**` match) is bold |
| PartnerSalesAI.CapturedPartsAreBold | components/PartnerSalesAI.tsx:53-61 | every captured token renders as bold, and its delimiters add back to the token |
| PartnerSalesAI.ShowRenderParts | components/PartnerSalesAI.tsx:54-63 | restoring delimiters on rendered parts gives their concatenation, unless a part is a bare `**` or `***` |
| PartnerSalesAI.ParseBoldRoundTrip | components/PartnerSalesAI.tsx:52-64 | rendering loses nothing: restoring the delimiters gives the input back, unless a part is a bare `**` or `***` |
| PartnerSalesAI.LoneDelimiterCollapses | components/PartnerSalesAI.tsx:53-58 | the exception occurs: the text `**` renders as one empty bold part |
| PartnerSalesAI.HeaderText | components/PartnerSalesAI.tsx:23 | the `###` marker and at most one following whitespace character are removed, nothing else |
| PartnerSalesAI.ClassifyLine | components/PartnerSalesAI.tsx:16-45 | spacer iff blank; header iff the trim starts with `###`; bullet iff not a header and it starts with `* ` or `- `, its content being the trim after those two characters; otherwise a paragraph of the trim |
| PartnerSalesAI.ClassifyTrimmed | components/PartnerSalesAI.tsx:16 | a line and its trim render the same block |
| PartnerSalesAI.MarkdownLite | components/PartnerSalesAI.tsx:11-15 | one block per `\n`-separated line (newlines + 1 in all), in line order |
| PartnerSalesAI.SalesReply | components/PartnerSalesAI.tsx:100-115 | an assistant turn with the reply on success; on any failure a system turn with the fixed maintenance text; never a user turn |
| PartnerSalesAI.SalesChat.constructor | components/PartnerSalesAI.tsx:67-76 | the transcript is the single welcome turn, the input is empty, nothing is in flight |
| PartnerSalesAI.SalesChat.EditInput | components/PartnerSalesAI.tsx:193 | typing changes only the input, and only while nothing is in flight |
| PartnerSalesAI.SalesChat.Submit | components/PartnerSalesAI.tsx:85-98 | no-op iff the trimmed input is empty or a request is in flight; otherwise it appends the user turn with the trimmed text, clears the input and raises `isLoading` |
| PartnerSalesAI.SalesChat.Settle | components/PartnerSalesAI.tsx:100-118 | appends exactly the reply for the adapter's result on the captured text and history, then lowers `isLoading` |
| PartnerSalesAI.SalesChat.HandleSend | components/PartnerSalesAI.tsx:85-119 | an accepted send appends the user turn and then exactly one reply turn computed from the pre-send history; a refused one changes nothing |
| Chat.DispatchReply | components/Chat.tsx:61-76 | success gives an assistant turn with the text and roofers; failure gives a system turn "Connection Issue: " + (message or fallback) + advice, with no roofers |
| Chat.DisplayedRoofers | components/Chat.tsx:162 | at most three cards: the first min(n, 3) roofers, in order |
| Chat.ShownDispatchOptions | components/Chat.tsx:154-164 | the cards under a dispatch reply are the first (at most three) grounded places, mapped as emergency roofers |
| Chat.FailedDispatchNotReplayed | components/Chat.tsx:70-76 | the system turn of a failed dispatch is skipped by the next replay; the provider sees the user's words only |
| Chat.DispatchChat.constructor | components/Chat.tsx:10-20 | the transcript is the single welcome turn, the input is empty, no location and nothing in flight |
| Chat.DispatchChat.EditInput | components/Chat.tsx:188-189 | typing changes only the input, and only while nothing is in flight |
| Chat.DispatchChat.LocationFound | components/Chat.tsx:36 | the geolocation callback sets both coordinates and nothing else |
| Chat.DispatchChat.Submit | components/Chat.tsx:42-56 | no-op iff the trimmed input is empty or loading; otherwise it appends the user turn with the trimmed text, clears the input, raises `isLoading`, and captures the history and location |
| Chat.DispatchChat.Settle | components/Chat.tsx:58-79 | appends exactly the dispatch reply for the adapter's result, then lowers `isLoading`; input and location are unchanged |
| Chat.DispatchChat.HandleSend | components/Chat.tsx:42-80 | an accepted send appends the user turn and then exactly one reply turn for the pre-send history and current location; a refused one changes nothing |
| AdminSection.CleanLine | components/AdminSection.tsx:19 | one line gives at most one segment, which is non-empty and trimmed |
| AdminSection.CleanLines | components/AdminSection.tsx:19 | at most one segment per line, each non-empty and trimmed |
| AdminSection.CleanLinesKeepOut | components/AdminSection.tsx:19 | trimming and filtering bring in no character that the lines lack |
| AdminSection.CleanLinesEmpty | components/AdminSection.tsx:19 | no segment survives iff every line is blank |
| AdminSection.BodySegments | components/AdminSection.tsx:19 | every segment is non-empty, trimmed and free of newlines |
| AdminSection.FormattedBody | components/AdminSection.tsx:19 | the formatted body contains no newline |
| AdminSection.FormattedBodyEmptyIffBlank | components/AdminSection.tsx:19 | the formatted body is empty iff the e-mail body is blank |
| AdminSection.JoinAllWhitespace | components/AdminSection.tsx:19 | with a whitespace separator, a join is blank iff every part is |
| AdminSection.FormattedBodyIdempotent | components/AdminSection.tsx:19 | formatting an already formatted body changes nothing |
| AdminSection.InvitationOf | components/AdminSection.tsx:15-66 | the invitation exists iff the e-mail has a body (otherwise `split` throws); its body is the formatted body, newline-free and empty iff the e-mail body is blank; the subject is interpolated, a missing one as `undefined`; banner and footer use the company fallbacks |
| AdminSection.BannerCompany | components/AdminSection.tsx:54 | the company, or "Premier Contractor" when it is empty; never empty |
| AdminSection.FooterCompany | components/AdminSection.tsx:109 | the company, or "your firm" when it is empty; never empty |
| AdminSection.ActionBarCompany | components/AdminSection.tsx:164 | the company, or "Target" when it is empty; never empty |
| AdminSection.UpdateTask | components/AdminSection.tsx:324-334 | the per-id update: the same length, tasks with another id unchanged, tasks with that id given the new status and message |
| AdminSection.SetAllTasks | components/AdminSection.tsx:338 | the wholesale update: every task keeps its id and agent and gets the shared status and message |
| AdminSection.UpdatesKeepRoster | components/AdminSection.tsx:324-354 | no update adds, drops, reorders or renames an agent |
| AdminSection.UpdateTaskIdempotent | components/AdminSection.tsx:324 | repeating a per-id update changes nothing more |
| AdminSection.UpdatesCommute | components/AdminSection.tsx:324-331 | updates of two different ids commute |
| AdminSection.SetAllOverrides | components/AdminSection.tsx:338 | a wholesale update erases any earlier per-id or wholesale update |
| AdminSection.KickoffTasks | components/AdminSection.tsx:312-316 | the run's first board: the same three agents, the researcher working on the company (or "target"), the others idle |
| AdminSection.DraftingTasks | components/AdminSection.tsx:324-325 | the board during drafting: the same three agents, research completed, drafting working, compliance idle |
| AdminSection.OutreachDrafts | components/AdminSection.tsx:324-325 | after the first pause: research completed, drafting under way |
| AdminSection.OutreachRosters | components/AdminSection.tsx:274-278 | the completed and halted boards show the same three agents as the initial board |
| AdminSection.OutreachSucceeds | components/AdminSection.tsx:330-334 | the remaining steps of a successful run complete all three agents |
| AdminSection.OutreachHalts | components/AdminSection.tsx:337-338 | a failure halts the same three agents with one shared message |
| AdminSection.OutreachBoards | components/AdminSection.tsx:312-338 | the boards shown during a run, computed step by step: drafting; then the three-agent audit and the completed board, or the halted board |
| AdminSection.AdminConsole.constructor | components/AdminSection.tsx:268-298 | everything starts empty and idle with the initial boards; a saved endpoint is loaded only when non-empty |
| AdminSection.AdminConsole.EditOutreachForm | components/AdminSection.tsx:390-393 | the four form fields change, nothing else |
| AdminSection.AdminConsole.EditEndpoints | components/AdminSection.tsx:487-504 | the two endpoint fields change, nothing else |
| AdminSection.AdminConsole.SaveIntegrations | components/AdminSection.tsx:300-304 | both endpoint keys are written and no other key changes |
| AdminSection.AdminConsole.RunEmailAgent | components/AdminSection.tsx:306-343 | success gives the parsed e-mail and all three agents completed; any failure gives no e-mail and all agents halted; the flag ends false and nothing else changes |
| AdminSection.AdminConsole.RunStrategyLab | components/AdminSection.tsx:345-358 | returns the board published first, every task working on the context; success stores the serialised strategy under its key and completes that board; failure leaves the store untouched and sets it to error; the flag ends false |
| AdminSection.OutreachRunEndsUniform | components/AdminSection.tsx:334-338 | a finished outreach run leaves every agent completed, or every agent in error |
| AdminSection.StrategyRunEndsUniform | components/AdminSection.tsx:352-354 | a finished strategy run leaves every task completed, or every task in error |
| AdminSection.StrategyWorkingBoard | components/AdminSection.tsx:347 | the same tasks, every one working, with "Processing market context..." |
| AdminSection.StrategyRunFromWorking | components/AdminSection.tsx:347-354 | the completed and failed boards from the working board equal those from the board before the run |
| AdminSection.EmptyOutreachReplyBreaksPreview | components/AdminSection.tsx:336 | an empty outreach reply is a success carrying `{}`, and the preview of that e-mail throws |
| AddListing.StoredStrategy | components/AddListing.tsx:38-43 | a saved strategy replaces the default exactly when the saved string is non-empty and parses, whatever fields the parsed object has; otherwise the default stays |
| AddListing.RoadmapPoints | components/AddListing.tsx:145 | no points iff the strategy has no `marketingStrategy` (the render throws); otherwise one point per line, joining back to the text |
| AddListing.SavedStrategyReloads | components/AddListing.tsx:38-43 | a strategy written by `JSON.stringify` and read back by `JSON.parse` loads as written |
| AddListing.TierFeatures | components/AddListing.tsx:166-173 | the feature lists exist iff every tier has `features`, one list per tier, in order, each that tier's features |
| AddListing.StrategyPage | components/AddListing.tsx:134-173 | the page renders iff `marketingStrategy`, `pricingOptions` and every tier's `features` exist; then the copy (empty when missing), the roadmap that joins back to the text, the tiers and their features |
| AddListing.DefaultStrategyRenders | components/AddListing.tsx:5-14 | the default strategy renders, with three tier cards |
| AddListing.SavedEmptyObjectBreaksPage | components/AddListing.tsx:38-43 | a saved `{}` replaces the default and the render then throws |
| AddListing.Without | components/AddListing.tsx:90 | the filter removes every `s`, keeps every other item, and is the identity when `s` is absent |
| AddListing.WithoutAppend | components/AddListing.tsx:90 | filtering distributes over concatenation, so order is kept |
| AddListing.ToggleSpecialty | components/AddListing.tsx:86-93 | `s` is present afterwards iff it was absent; an absent `s` is appended at the end; the other specialties keep their presence |
| AddListing.ToggleKeepsOthers | components/AddListing.tsx:89-91 | the other specialties keep their relative order |
| AddListing.ToggleTwice | components/AddListing.tsx:86-93 | toggling an absent specialty twice gives back the original list |
| AddListing.WithoutNoDuplicates | components/AddListing.tsx:90 | filtering keeps a list free of duplicates |
| AddListing.ToggleKeepsNoDuplicates | components/AddListing.tsx:86-93 | toggles never put a specialty in the list twice |
| AddListing.SyncLabel | components/AddListing.tsx:72 | "Pushed to Google Sheets" iff a non-empty sheet link is saved, else "Local Only" |
| AddListing.SuccessNotice | components/AddListing.tsx:71 | the notice is exactly the lead, the name, the status line, `Tier: ` with the tier (`undefined` when missing) and the sync line |
| AddListing.ListingWizard.constructor | components/AddListing.tsx:16-43 | default form, step 1, no tier, closed; the strategy is `StoredStrategy` of the saved value, so a non-empty saved value that parses replaces the default whatever its fields |
| AddListing.ListingWizard.CanGoBack | components/AddListing.tsx:259 | Back is offered exactly from the second step on |
| AddListing.ListingWizard.CanContinue | components/AddListing.tsx:260 | Continue is enabled exactly before step 4, and on step 1 only with a name |
| AddListing.ListingWizard.CanAuthorize | components/AddListing.tsx:243-251 | authorisation needs the last step, no submission in flight and non-empty email and phone, and is offered whenever those hold outside a sync |
| AddListing.ListingWizard.OpenVetting | components/AddListing.tsx:45-49 | selects the tier, resets the step to 1 and opens the modal |
| AddListing.ListingWizard.CloseModal | components/AddListing.tsx:193 | closes the modal and keeps the step, tier and form |
| AddListing.ListingWizard.NextStep | components/AddListing.tsx:83 | behind the Continue guard (before step 4, and not on step 1 with an empty name): one step forward, staying within 1..4 |
| AddListing.ListingWizard.PrevStep | components/AddListing.tsx:84 | behind the Back guard (after step 1): one step back, staying within 1..4 |
| AddListing.ListingWizard.EditIdentity | components/AddListing.tsx:205-207 | step 1 edits name, website and address only |
| AddListing.ListingWizard.ToggleSpecialtyChoice | components/AddListing.tsx:215-216 | step 2 toggles one offered specialty; the list stays free of duplicates and drawn from the offered choices |
| AddListing.ListingWizard.EditVetting | components/AddListing.tsx:224-225 | step 3 edits the license and flips the insurance box |
| AddListing.ListingWizard.EditContact | components/AddListing.tsx:239-240 | step 4 edits email and phone only |
| AddListing.ListingWizard.FinalizePartnership | components/AddListing.tsx:51-81 | behind the enabled button (non-empty email and phone): returns the success notice with the name, tier and sync label; closes, resets the step, sync status and form; keeps the tier |
| AddListing.PublishStrategy | components/AdminSection.tsx:349-350 | a lab run then a fresh page mount on the same store: a successful run's strategy is the one loaded, a failed run leaves what was saved before |
| AddListing.EmptyStrategyReplyBreaksPage | services/gemini.ts:253 | an empty strategy reply is a success carrying `{}`; once stored, the page loads it and its render throws |
| LocalStorage.LocalStore.GetItem | components/AdminSection.tsx:294-295 | `null` iff the key was never set, otherwise the stored value |
| LocalStorage.LocalStore.SetItem | components/AdminSection.tsx:301-302 | the key maps to the new value and every other key is unchanged |

## Left out

- The provider call, `JSON.parse`, `JSON.stringify`, `Date.now()`, the `setTimeout` pauses and the geolocation API are not modelled; each is a parameter or input instead.
- Message ids and timestamps come from a `Stamp` input rather than the clock.
- The prompt templates and system instructions are not modelled as text. A request records which instruction it carries, the caller-supplied prompt fields and the `required` properties of its response schema. The schema's property types and descriptions are left out.
- Every `parse` yields an object whose fields are each present or absent: the estimate, e-mail, strategy and tier records. A JSON value that is not an object (`null`, a number, an array) and a field of another type, such as a numeric `body`, are not modelled.
- Numbers are mathematical reals. `NaN` is not representable, so a `NaN` coordinate is not treated as falsy. `ProviderLatLng` always carries both coordinates.
- Strings are sequences of code points. UTF-16 surrogate pairs and the `u`-less regular expression's code-unit view are not modelled.
- A grounding response is the first candidate's chunk list only. Other candidates are not modelled.
- The console, the clipboard, `alert` (except the text of the partnership notice) and scrolling are left out. So are the logged sheet export and webhook trigger in `finalizePartnership`, which only log.
- The HTML e-mail template is left out except for `formattedBody`, the subject and the company fallbacks. The plain-text clipboard copy of `email.body` is left out.
- `localStorage` quota errors are not modelled.
- Async interleavings are not modelled. An edit made while a pipeline or chat request is awaited, overlapping sends, and state changes between the two awaits of a run are outside the model. An in-flight request is only the `isLoading` flag and the `Valid()` invariant.
- The Back button during syncing is not modelled: a wizard event between the start and the end of `finalizePartnership` is outside the model.
- `RunEmailAgent`: the intermediate boards are computed by `OutreachBoards` and published in order. The method's contract states only the final board, because the intermediate ones are overwritten before the run ends.
- `RunEmailAgent` requires a non-empty company and city, which the form's `required` fields enforce before `runEmailAgent` can run. The `'target'` fallback in the first board is still modelled in `KickoffTasks`.
- `ParseBoldRoundTrip` holds only when no split part is a bare `**` or `***`. Rendering those as empty bold loses characters, as `LoneDelimiterCollapses` shows.
- `CostEstimator`, `RooferResult` (including `rating.toFixed(1)`), `AboutUs`, `HowItWorks`, `ContactUs`, `Header`, `SafetyBanner` and `App` are not part of this model: they hold no stateable logic.
- The tab switches of `Chat` and `AdminSection` only choose what is drawn, and are left out.
