# Luminous Deep: the A2UI loop and its side stores, in Dafny

The Sanctuary site shows model-generated interface cards inside narrative
rooms. A model answer or an image scan is turned into a `{component, props}`
payload, normalised, stored per (user, room) and rehydrated into the room's
on-screen UI through a de-duplication key. This project models that loop and
the small record stores and studio lookups around it, and proves what each
of them promises.

Modules, one per source file of the core:

- `VisualInput` (components/VisualInput.tsx): the downscale attempts against
  the byte budget, the scan's field reading, header framing at the alignment
  thresholds 50 and 80, the telemetry lines, the financial-document branch,
  `normalizeA2UIPayload`, and the scan panel's state (`ScanPanel`).
- `SanctuaryTerminal` (components/registry/SanctuaryTerminal.tsx): payload
  and spend extraction, dossier selection by earliest mention, the ledger
  projection, the intercept order of `handleSend`, and the loop that saves
  each visible message once (`Terminal`).
- `RoomState` (convex/roomState.ts): the room-state table (`RoomStore`).
- `Renderer` (components/A2UIRenderer.tsx): the rehydrate effect, the
  `update_room_ui` tool and the render lookup (`RoomRenderer`).
- `Registry` (components/registry/index.tsx) and `TerminalCard`
  (components/registry/BunkerTerminal.tsx).
- `Ledger` (convex/ledger.ts) and `LedgerCard`
  (components/registry/BunkerLedger.tsx, the `SignCard` signing guard).
- `Brian` (convex/brian.ts), `Messages` (convex/messages.ts), `Library`
  (convex/library.ts), `Signals` (convex/studio/signals.ts),
  `SignalsPage` and `Slugs` (app/studio/signals/page.tsx), `Content`
  (convex/studio/content.ts), `Unified` (convex/studio/unified.ts),
  `Genesis` (convex/genesis.ts), `GenesisDb` (convex/genesis_db.ts),
  `Archive` (convex/artifacts.ts), `Media` (convex/studio/mutations.ts),
  `Debug` (convex/debug.ts), `TheaLux` (convex/seedsTheaLux.ts) and
  `EdgeNav` (components/narrative/EdgeNav.tsx).
- Shared helpers: `Wrappers` (Option and Result), `Seqs` (array and query
  operations, including the stable sort by a key pair), `Text` (the
  JavaScript string operations used, over `seq<char>`) and `Json` (parsed
  JSON values with JavaScript's truthiness, `typeof` and property access).

Conventions. A database table is a class holding a `seq` of records in
creation order and the next id. Each mutation is a method whose `ensures`
ties the new table to a pure function of the old one, and the lemmas about
those functions state what the mutation promises. A thrown error is a
`Failure` that leaves the table unchanged. Identity is an
`Option<string>` (the caller's subject, `None` when signed out), and the
clock is a parameter. Model answers, vision answers and component props
are input strings or `Json` values. `JSON.parse`, `JSON.stringify` and the
text of a fractional number are foreign functions passed in a `Foreign`
bundle. Window events, chat messages and store calls made by a component
are appended to an output log.

## Model

| member | source | states |
|---|---|---|
| VisualInput.MulMono | components/VisualInput.tsx:41-43 | multiplying both sides of an inequality by the same natural keeps it (used for the scaling bounds) |
| VisualInput.DivBetween | components/VisualInput.tsx:42-43 | integer division recovers the quotient between two multiples (used for the exact rounding of a scaled side) |
| VisualInput.DivBelow | components/VisualInput.tsx:42-43 | a numerator below `(d + 1) * b` divides to at most `d` (used for the scaling bounds) |
| VisualInput.ScaledBounds | components/VisualInput.tsx:41-43 | no attempt enlarges a side, and the longest side ends at the attempt's size, or stays as it is when already smaller |
| VisualInput.ChooseFromFirstFit | components/VisualInput.tsx:40-62 | with every attempt before `k` over the budget, attempt `k` decides: no canvas context fails, a fitting payload is taken; past the last attempt the last payload is taken |
| VisualInput.DownscaleFirstFit | components/VisualInput.tsx:33-64 | a failed image load fails; the first attempt within 4.5 MiB wins in the order 1024/0.75, 768/0.6, 512/0.5; a missing context fails at that attempt; when all are too large the 512 payload is sent and nothing is refused |
| VisualInput.Downscale | components/VisualInput.tsx:29-75 | the loop over the attempts yields exactly the payload or the error of `Downscaled` |
| VisualInput.ChooseFrom | components/VisualInput.tsx:39-62 | the attempts from a given one on fail only with the canvas error, and a payload they yield is the encoding of one of those attempts or, past the last attempt, the previous attempt's payload |
| VisualInput.Downscaled | components/VisualInput.tsx:29-75 | an image that did not load fails with the image error and only then; any other failure is the canvas error; a payload is the encoding of one of the three attempts |
| VisualInput.NumProp | components/VisualInput.tsx:102 | a number exactly when the property holds a JSON number, and then that number |
| VisualInput.NonObjectReadsDefaults | components/VisualInput.tsx:93-111 | data that is not an object reads as a failed parse, never a document, with no score, telemetry, room vibe or total, and the "UNKNOWN TARGET" and "NO VERDICT" defaults |
| VisualInput.ReadScan | components/VisualInput.tsx:93-111 | the parse counts as failed exactly for a non-object value; a document is detected only in an object; a score or telemetry array is read only when the field is a number or an array |
| VisualInput.TerminalLines | components/VisualInput.tsx:113-126 | with parsed data and a telemetry array, exactly that many lines plus six: target, alignment, verdict and a rule, the telemetry in order, a rule and the room vibe; otherwise exactly the two encryption-error lines |
| VisualInput.HeaderBands | components/VisualInput.tsx:189-197 | "DIVERGENCE DETECTED" exactly for a score below 50, "SYNCED" exactly for one at or above 80, "ACTIVE" otherwise or without a score; the glitch is 0.8 exactly for divergence and 0 otherwise |
| VisualInput.Header | components/VisualInput.tsx:189-194 | the header is one of the three band headers, and the divergence one exactly when the score diverges |
| VisualInput.Glitch | components/VisualInput.tsx:196-197 | the glitch is 0.8 or 0, and non-zero exactly when the score diverges |
| VisualInput.ProjectionsRegistered | components/VisualInput.tsx:145-289 | every projection names BunkerLedger, CortexArtifact or BunkerTerminal, all of them registry keys |
| VisualInput.UnwrapProps | components/VisualInput.tsx:219-238 | string props are parsed, `{}` on failure; then a string `ui_data` is parsed (`{}` on failure), an object `ui_data` replaces the props, and any other `ui_data` leaves them |
| VisualInput.StringPropsParsed | components/VisualInput.tsx:220-226 | unparsable string props become `{}`; parsable ones without `ui_data` become the parsed value |
| VisualInput.ResolvedLines | components/VisualInput.tsx:244-249 | a non-empty array of lines as given, a string split on newlines with empty pieces dropped, and the fallback when neither yields lines; never empty when the fallback is not |
| VisualInput.ArtifactKind | components/VisualInput.tsx:282-287 | always Myth, Signal or Reflection, and the requested type whenever it is one of them |
| VisualInput.NormalizeOutcomes | components/VisualInput.tsx:218-294 | a projection exactly for an object payload asking for BunkerTerminal or ArtifactCard; a terminal only for a score below 50 and always with lines; a terminal request with no score or one at least 50 becomes the reflection artifact; artifacts keep the scan's image and caption |
| VisualInput.Normalize | components/VisualInput.tsx:215-294 | a projection exactly for an object payload naming `BunkerTerminal` or `ArtifactCard`, and a terminal exactly for a terminal request on a diverging score |
| VisualInput.TerminalFallsBack | components/VisualInput.tsx:242-251 | a diverging terminal request without props shows the divergence header, the telemetry lines and glitch 0.8 |
| VisualInput.AmountMatch | components/VisualInput.tsx:131-132 | the match is the greedy decimal that starts at the total's first digit: a digit run with a fraction of at most two digits; there is none exactly when the total has no digit |
| VisualInput.AmountInPence | components/VisualInput.tsx:131-132 | the amount is never negative and is a whole number of pence |
| VisualInput.AmountExample | components/VisualInput.tsx:131-132 | "£12.34" reads as 12.34 and a total with no digit as 0 |
| VisualInput.MissingMerchantRefused | components/VisualInput.tsx:143-162 | as written, a receipt without a merchant projects and stores its card and then sends a `logSpend` the store refuses |
| VisualInput.DocumentEffectsAsWritten | components/VisualInput.tsx:143-162 | as written, a receipt without a merchant yields only the card, its storage and a spend the ledger's validation refuses; with a merchant the branch is the corrected one |
| VisualInput.MissingMerchantExample | components/VisualInput.tsx:107-130 | a concrete scan (`document_detected: true`, `total: "£12.34"`, no merchant) takes the branch as written and stops after the refused spend |
| VisualInput.DocumentLogged | components/VisualInput.tsx:130-182 | with the merchant left out when missing, every document shows and stores its card, logs an entry with the parsed amount, the allocation, the merchant or "UNKNOWN VENDOR", Julian and `scan-<now>`, and then announces the update |
| VisualInput.DocumentEffects | components/VisualInput.tsx:130-182 | the corrected document branch shows the ledger card first, always sends a spend the ledger accepts, for the card's amount, and has four effects, five with a message callback |
| VisualInput.DocumentCard | components/VisualInput.tsx:130-141 | the ledger card is verified by Julian, carries the parsed amount, and is allocated to the category, else the merchant, else "Uncategorised"; its date is the document's date when one was read, and today otherwise |
| VisualInput.DocumentVersionsAgree | components/VisualInput.tsx:155-162 | with a merchant the version as written and the corrected one issue the same effects |
| VisualInput.ProjectionBranchShape | components/VisualInput.tsx:332-349 | a room change first exactly when the resolved room differs and a callback exists, then the 12-second scan lock, the projection and its store under the same component; the projection is a registry key and shown once |
| VisualInput.ProjectionEffects | components/VisualInput.tsx:332-349 | the projection branch shows the projection, stores it under the resolved room, and shows nothing else |
| VisualInput.PayloadOf | components/VisualInput.tsx:311-322 | a truthy payload is used as it is; any other payload used is the parse of the braced part of the raw response |
| VisualInput.FinalProjection | components/VisualInput.tsx:306-331 | a failed model call gives the default artifact; any other projection is the normalized payload; every projection names a registered component |
| VisualInput.AnalysedEffects | components/VisualInput.tsx:87-359 | a scan issues no effect exactly when the vision call fails, and every projection it shows names a registered component |
| VisualInput.ScanEffects | components/VisualInput.tsx:29-359 | a file issues effects exactly when it downscales and its vision call succeeds, and every projection shown names a registered component |
| VisualInput.DocumentBranchShape | components/VisualInput.tsx:130-183 | the document branch shows a BunkerLedger, stores that same card, and never changes room or locks the scanner |
| VisualInput.ScanPanel.constructor | components/VisualInput.tsx:18 | idle with no effects |
| VisualInput.ScanPanel.HandleFileSelect | components/VisualInput.tsx:77-84 | no file changes nothing; otherwise the effects are exactly those of `ScanEffects`, with the corrected document branch, and the busy flag ends cleared whatever failed |
| VisualInput.ScanPanel.Analyse | components/VisualInput.tsx:87-359 | the effects of the vision call, the document branch or the projection branch are appended as `AnalysedEffects` states, with the corrected document branch that omits a missing merchant, the busy flag untouched |
| RoomState.UserOf | convex/roomState.ts:29-30 | the caller's subject when it is present and non-empty, otherwise "guest"; `autoArchive` names its creator the same way |
| RoomState.Find | convex/roomState.ts:32-37 | the `by_user_room` lookup with `.first()`: the earliest record with that (user, room) key, or none when no record has it |
| RoomState.PersistUpserts | convex/roomState.ts:49-63 | an existing key is patched in place and reported "updated" with its id; a missing key gets exactly one new record and is reported "created" with the next id |
| RoomState.Persist | convex/roomState.ts:32-63 | an insert is reported exactly when the table grows by one; every stored record keeps its id and place, and records of other keys are untouched |
| RoomState.PersistStores | convex/roomState.ts:40-61 | after the upsert the key's record holds the new component, props and time; on a patch it keeps its id, and objective and status change only when the argument is non-empty; an insert stores objective and status exactly as given |
| RoomState.PersistKeepsOthers | convex/roomState.ts:32-50 | records of every other (user, room) key are unchanged |
| RoomState.PersistWellFormed | convex/roomState.ts:49-63 | the upsert keeps at most one record per key and distinct ids |
| RoomState.UpdateObjectiveStores | convex/roomState.ts:79-100 | only `currentObjective` and `lastUpdated` of an existing record change; otherwise a record with no component and the given objective is inserted; other keys are untouched |
| RoomState.UpdateObjectiveWellFormed | convex/roomState.ts:86-100 | `updateObjective` keeps at most one record per key |
| RoomState.GetRoomState | convex/roomState.ts:113-121 | a record is returned exactly when the caller (or "guest") has one for the room, and it is one of the table's records with that key |
| RoomState.GetAllRoomStates | convex/roomState.ts:160-166 | exactly the caller's records: each returned record is in the table and the caller's, and each of the caller's records is returned |
| RoomState.ClearRoomStateRemoves | convex/roomState.ts:134-149 | fails with "Unauthorised" exactly when there is no identity; otherwise no record for the key remains, other keys are unchanged, and the result is "cleared" exactly when a record existed and "no_op" exactly when nothing changed |
| RoomState.Clear | convex/roomState.ts:134-149 | a clear fails exactly when signed out; "cleared" is reported exactly when one record goes, and every record left was stored before |
| RoomState.AdminClearRoomRemovesOne | convex/roomState.ts:181-194 | with no identity check, "cleared" exactly when some record has the room id, in which case the earliest such record (of any user) is the one removed; otherwise nothing changes |
| RoomState.AdminClear | convex/roomState.ts:181-194 | "cleared" is reported exactly when one record goes, and every record left was stored before |
| RoomState.RemovePreservesWellFormed | convex/roomState.ts:145-188 | deleting one record keeps the keys unique and the ids distinct |
| RoomState.RoomStore.constructor | convex/roomState.ts:20 | the table starts empty |
| RoomState.RoomStore.PersistRoomUpdate | convex/roomState.ts:28-63 | the table and the result are those of `Persist` on the old table; the id counter moves only on an insert; at most one record per key holds throughout |
| RoomState.RoomStore.UpdateObjective | convex/roomState.ts:75-101 | the table and the result are those of `ObjectiveUpdate` on the old table, keeping one record per key |
| RoomState.RoomStore.ClearRoomState | convex/roomState.ts:133-150 | an error and no change when signed out; otherwise the table and the result are those of `Clear` |
| RoomState.RoomStore.AdminClearRoom | convex/roomState.ts:180-195 | the table and the result are those of `AdminClear` on the old table |
| Renderer.RehydrateSuppressesRepeats | components/A2UIRenderer.tsx:19-29 | a crashed renderer changes nothing; otherwise, for a record with a component and props, the key becomes `component-lastUpdated`; a key equal to the last one changes nothing; a new key whose props parse replaces the UI; a new key whose props fail to parse keeps the UI and crashes the renderer, as the unguarded `JSON.parse` throws out of the effect; any change of UI implies the key was new |
| Renderer.Rehydrate | components/A2UIRenderer.tsx:18-35 | the renderer crashes only when it had crashed already or when a complete record's props fail to parse; a newly shown UI is always the record's component with its parsed props |
| Renderer.RehydrateIdempotent | components/A2UIRenderer.tsx:18-35 | delivering the same query result twice leaves the same state as delivering it once |
| Renderer.RehydrateSameKey | components/A2UIRenderer.tsx:20-23 | a second record with the same component and time stamp changes neither the UI nor the key |
| Renderer.RehydrateClearsOnlyWhenAbsent | components/A2UIRenderer.tsx:19-34 | for a renderer that has not crashed, an absent record (loading or null) clears both UI and key; a present record without component or props leaves both as they were; a present record never clears the key |
| Renderer.ToolComponentsRegistered | components/A2UIRenderer.tsx:42 | the three names the `update_room_ui` tool declares are all registry keys |
| Renderer.Draw | components/A2UIRenderer.tsx:74-88 | nothing is drawn exactly when there is no UI; a component is drawn exactly when the name is a registry key, and it is that key's component with the UI's props |
| Renderer.ToolThenRehydrate | components/A2UIRenderer.tsx:19-64 | after the tool persists its UI, the record the query then delivers is complete and rehydrates to the same UI the tool showed, whatever key was seen before, provided the stringified props parse back |
| Renderer.RoomRenderer.constructor | components/A2UIRenderer.tsx:12-15 | no UI, no key and no crash at mount |
| Renderer.RoomRenderer.OnRoomState | components/A2UIRenderer.tsx:18-35 | the new view is `Rehydrate` of the old one, so props that fail to parse crash the renderer and a crashed renderer ignores every later result; no room change is fired |
| Renderer.RoomRenderer.HandleTool | components/A2UIRenderer.tsx:48-65 | a crashed renderer fires nothing, shows nothing new and persists nothing; otherwise a room change is fired only for a different room when a callback exists, the UI becomes the tool's (component, props) with the key untouched, and the store receives `persistRoomUpdate` under the new room with the props stringified |
| Registry.Lookup | components/registry/index.tsx:35-45 | a component exactly for the nine keys, and the component registered under that name |
| Registry.NamesAreKeys | components/registry/index.tsx:35-45 | every component is registered under its own name and no two components share a name |
| Registry.NineKeys | components/registry/index.tsx:35-45 | the key set has exactly nine members |
| Registry.DistinctCard | components/registry/index.tsx:35-45 | a list of pairwise distinct names has as many members as entries (used for the count of keys) |
| TerminalCard.HeaderText | components/registry/BunkerTerminal.tsx:51-53 | the given header exactly when it is a string with a non-blank trim, otherwise the checksum-error header |
| TerminalCard.BlankHeaderFallsBack | components/registry/BunkerTerminal.tsx:51-53 | a whitespace-only string, an absent header and a non-string header all fall back |
| TerminalCard.DisplayHeader | components/registry/BunkerTerminal.tsx:62-63 | the scanner-uplink prefix is put before the header exactly when the header mentions "telemetry" or "scanner" in any case |
| TerminalCard.PrefixIffTelemetry | components/registry/BunkerTerminal.tsx:62-63 | the shown header starts with the prefix exactly when the header is telemetry, or already started with it |
| TerminalCard.SafeLines | components/registry/BunkerTerminal.tsx:55-60 | never empty; a non-empty array as given, anything else becomes the two checksum and retry lines |
| TerminalCard.CleanLineKeepsOtherText | components/registry/BunkerTerminal.tsx:80-87 | a line with neither stale date, and not both "CURRENT_DATE" and "2024", is shown unchanged |
| TerminalCard.CleanLine | components/registry/BunkerTerminal.tsx:78-88 | a line with neither stale date and no CURRENT_DATE marker is shown as it is |
| TerminalCard.CleanLineReplacesStaleDate | components/registry/BunkerTerminal.tsx:80 | the stale date "24/05/2024" becomes the live date |
| TerminalCard.CleanLineSystemYear | components/registry/BunkerTerminal.tsx:84-86 | on a "CURRENT_DATE" line without stale dates every "2024" becomes "2026" |
| TerminalCard.ProcessedLinesAsWritten | components/registry/BunkerTerminal.tsx:78-88 | the rewriting as written yields lines exactly when every element is a string, one rewritten line per element |
| TerminalCard.NonStringLineBreaksCard | components/registry/BunkerTerminal.tsx:55-80 | a number among the model's lines makes `line.replace` fail, so the card cannot render |
| TerminalCard.ProcessedLines | components/registry/BunkerTerminal.tsx:78-88 | the corrected rewriting: one line per element, each the rewriting of the element's text |
| TerminalCard.ProcessedLinesAgree | components/registry/BunkerTerminal.tsx:78-88 | wherever the rewriting as written succeeds, the corrected one shows the same lines |
| TerminalCard.LineNumberValue | components/registry/BunkerTerminal.tsx:115 | each line number has at least two digits and reads back as its position plus one; below 9 it is "0" and one digit |
| TerminalCard.Card | components/registry/BunkerTerminal.tsx:50-119 | with the corrected line rewriting, the card shows the display header and one numbered, rewritten line per safe line, never none |
| SignalsPage.PreviewCutoff | app/studio/signals/page.tsx:357 | for a non-negative glitch point the preview is at most thirty characters; for a glitch point inside the text it is exactly the (up to) thirty characters that end at the glitch point |
| SignalsPage.PreviewAtEnd | app/studio/signals/page.tsx:357 | a glitch point at or past the end of the text shows the tail of the text from thirty characters before the glitch point (the empty string when that is past the end too) |
| SignalsPage.LoadedGlitchPoint | app/studio/signals/page.tsx:59 | a missing or zero glitch point loads as 100; any other value is kept |
| SignalsPage.SignalForm.constructor | app/studio/signals/page.tsx:30-45 | nothing is selected and every field holds its `useState` default (season 0, episode 1, locked, glitch point 100, empty strings) |
| SignalsPage.SignalForm.Select | app/studio/signals/page.tsx:30 | only the selection changes |
| SignalsPage.SignalForm.Load | app/studio/signals/page.tsx:49-76 | with no selection the form is reset to the new-entry blank (glitch point 50, the placeholder text); a selected signal found in the loaded list fills every field from it, cover image and subtitle defaulting to empty and the glitch point through `LoadedGlitchPoint`, leaving the generated prompt; while loading or when the selected id is not in the list nothing changes |
| SignalsPage.SignalForm.TitleChanged | app/studio/signals/page.tsx:85-91 | the title becomes the input; for a new entry the slug becomes the signal slug of the current season, episode and input; for a selected entry the slug is kept; nothing else changes |
| SignalsPage.NewEntrySlugShape | app/studio/signals/page.tsx:89 | for season and episode below 1000 the automatic slug has hyphens at positions 3 and 7 and a well-formed slug after them |
| Ledger.LogSpendInserts | convex/ledger.ts:8-31 | fails exactly when an optional argument arrives as `null`; otherwise exactly one entry is appended with the next id, the given amount, allocation and date, the caller or "guest", the merchant or "UNKNOWN VENDOR", the verifier or "Julian", the scan id when given and no signature, and earlier entries are unchanged |
| Ledger.AppendSpend | convex/ledger.ts:8-31 | a spend fails exactly when a `null` argument is refused by validation; otherwise one entry is appended after the stored ones and its id is returned |
| Ledger.SignEntryStamps | convex/ledger.ts:42-52 | fails exactly when no entry has the id; otherwise only that entry's `signedAt` and `signedBy` change, to the time and the caller or "guest", and the returned stamp is the stored one |
| Ledger.Sign | convex/ledger.ts:42-52 | signing fails exactly when no entry has the id; otherwise the table keeps its size and every entry its id |
| Ledger.ResignOverwrites | convex/ledger.ts:47-50 | signing again succeeds and leaves the same table as signing only the second time: the last stamp wins |
| Ledger.RecentAllocations | convex/ledger.ts:63-70 | nothing when signed out; otherwise exactly the smaller of `limit` and the caller's entry count, each entry in the table and the caller's |
| Ledger.RecentAllocationsNewest | convex/ledger.ts:66-70 | with a positive limit the caller's newest entry comes first, and the result is empty only when the caller has none |
| Ledger.NewestDecreasing | convex/ledger.ts:69-70 | the first `limit` of an increasing run reversed have strictly decreasing ids |
| Ledger.RecentAllocationsNewestFirst | convex/ledger.ts:68-70 | the result is newest first, each entry's id above the next one's; for a signed-in caller it holds exactly the smaller of `limit` and the caller's count of the caller's entries, none more often than stored, and every entry of the caller's that is left out is older than every entry returned |
| Ledger.FilterKeepsOrder | convex/ledger.ts:68 | selecting the caller's entries keeps ids increasing |
| Ledger.LedgerStore.constructor | convex/ledger.ts:20 | the table starts empty |
| Ledger.LedgerStore.LogSpend | convex/ledger.ts:16-32 | the table and result are those of `AppendSpend`: a refused call changes nothing, a stored one appends and advances the id counter |
| Ledger.LedgerStore.SignEntry | convex/ledger.ts:42-53 | the table and result are those of `Sign`, a missing entry changing nothing |
| LedgerCard.SignerText | components/registry/BunkerLedger.tsx:23-101 | unsigned shows the verifier (default "Julian"); signed shows the signer when it is non-empty, otherwise the verifier |
| LedgerCard.SignCard.constructor | components/registry/BunkerLedger.tsx:27-28 | the card starts signed exactly when `signedAt` is truthy, not signing, with no chat |
| LedgerCard.SignCard.BeginSign | components/registry/BunkerLedger.tsx:37-111 | signing starts exactly when the card has an entry id and is neither signed nor signing (the button's enabled state); nothing else changes |
| LedgerCard.SignCard.FinishSign | components/registry/BunkerLedger.tsx:40-55 | signing always ends; success marks the card signed and emits the signature chat line once; failure emits nothing |
| LedgerCard.SignCard.Rerender | components/registry/BunkerLedger.tsx:58-62 | a truthy `signedAt` in new props marks the card signed; nothing marks it unsigned |
| LedgerCard.SignCard.HandleSign | components/registry/BunkerLedger.tsx:36-56 | a disabled card changes nothing; an enabled one calls `signEntry` once, ends not signing, and is signed, announced and stamped in the store exactly when the call succeeds |
| Brian.ProcessUserContext | convex/brian.ts:91-141 | fails with the configuration error exactly when the key is absent or empty; otherwise always succeeds with the raw response, and the payload is the parse of the greedy first-`{`-to-last-`}` span, or none when there is no span or it does not parse |
| Brian.ContextPayloadNeedsBraces | convex/brian.ts:125-141 | a response without a closing brace yields no payload and the raw response |
| Brian.GenerateA2UI | convex/brian.ts:255-296 | the key error without a key; "No JSON" with the raw response when there is no brace span; the parsed span when it parses; and the parse error thrown out of the action when it does not |
| Brian.AnalyseVisualOutcomes | convex/brian.ts:162-239 | success exactly when the key is set, the reply arrived and is OK, its text is non-empty and its brace span parses, yielding that parse; a rejected `fetch` or `response.json()` fails with "Vision analysis failed: " and the thrown error; every failure after the key check carries that prefix |
| Brian.AnalyseVisual | convex/brian.ts:153-239 | a missing key fails with the configuration error; after it, a rejected `fetch` or `response.json()` is rethrown by the catch as "Vision analysis failed: " and the error; a success needs an OK reply whose text has a brace span |
| Brian.AnalyseVisualErrorOrder | convex/brian.ts:196-238 | a rejected call reports its own error, a failed status "Vision API Failed", then a missing text "No text response from Vision API", then a missing span "No JSON found", each wrapped by the catch |
| Brian.Chat | convex/brian.ts:310-332 | "GOOGLE_API_KEY missing" without a key, the model's text otherwise |
| Brian.MissingKeyFailsFirst | convex/brian.ts:92-311 | without a key every action fails the same way whatever the model would have said |
| Brian.DecodeWeatherCode | convex/brian.ts:395-403 | each WMO band maps to its label in both directions, and anything else is "Variable" |
| Brian.IsRaining | convex/brian.ts:376 | a code that the decoder calls clear, overcast or fog is never reported as raining |
| Brian.RainAgreesWithLabel | convex/brian.ts:376-403 | every wet label (drizzle, rain, showers) is raining and no dry one is; code 95 is "Variable" yet raining |
| Brian.TideLevel | convex/brian.ts:368 | HIGH exactly above 3, LOW exactly below 1.5, MID in between |
| Brian.NetworkStatus | convex/brian.ts:354-360 | "OPTIMAL" exactly when the first draw exceeds 0.05, then a ping of 2-6 ms; otherwise "LATENCY_DETECTED" with 100-149 ms |
| Brian.IslandTelemetry | convex/brian.ts:346-391 | the "Telemetry Unavailable" result exactly when the weather body has no `current` (the field read throws); otherwise the reading has the time, the decoded condition, raining exactly for a code of at least 51, the tide band and the network status |
| Messages.SaveMessageOutcomes | convex/messages.ts:11-35 | a guest is skipped and writes nothing; "exists" exactly when the signed-in caller passes a truthy source id already stored for them, returning that message's id and writing nothing; otherwise exactly one message, owned by the caller, is appended with the next id |
| Messages.Save | convex/messages.ts:11-35 | a message is created exactly when the table grows by one; stored messages are never changed, and a new one is the caller's and carries the id returned |
| Messages.SaveWithoutSourceInserts | convex/messages.ts:17-35 | a signed-in save without a truthy source id always inserts |
| Messages.SavePreserves | convex/messages.ts:17-35 | saving keeps each (user, truthy source id) on at most one message, with increasing ids |
| Messages.SaveIdempotent | convex/messages.ts:17-24 | a second save with the same truthy source id reports the message the first created and leaves the table unchanged |
| Messages.Ordered | convex/messages.ts:49-54 | exactly the caller's messages, re-ordered by (creation time, id) |
| Messages.GetMessages | convex/messages.ts:44-55 | nothing for a guest; otherwise exactly the smaller of the limit (default 200) and the caller's message count, all the caller's, oldest first |
| Messages.GetRecentMessages | convex/messages.ts:64-75 | nothing for a guest; otherwise exactly the smaller of the limit (default 5) and the caller's message count, all the caller's, newest first |
| Messages.GetMessagesExact | convex/messages.ts:44-55 | the page holds the smaller of the limit and the caller's count of the caller's messages, none more often than stored, and every message of the caller's that is left out sorts after every message returned: the oldest are taken |
| Messages.GetRecentMessagesExact | convex/messages.ts:64-75 | the page holds the smaller of the limit and the caller's count of the caller's messages, none more often than stored, and every message of the caller's that is left out sorts before every message returned: the newest are taken |
| Messages.OrderedMembers | convex/messages.ts:49-53 | every message read is in the table and the caller's |
| Messages.ReadsCoverCaller | convex/messages.ts:47-75 | with a limit covering the table every message of the caller is read, and the recent read is the ascending read reversed |
| Messages.MessageStore.constructor | convex/messages.ts:27 | the table starts empty |
| Messages.MessageStore.SaveMessage | convex/messages.ts:10-36 | the table and the outcome are those of `Save`, and the id counter moves only on an insert |
| Library.Sorted | convex/library.ts:29-32 | a permutation of the signals ordered by season, then episode |
| Seqs.SortByStable | convex/library.ts:29-32 | the sort is stable, as `Array.prototype.sort` is: the rows sharing any one key keep their stored order |
| Seqs.InsertStable | convex/studio/unified.ts:89 | inserting into a sorted list places the new row after every row with the same key |
| Library.ReadingOrder | convex/library.ts:10-32 | the reading order holds exactly the stored signals |
| Library.ProgressMap | convex/library.ts:35-44 | each key maps to one of the caller's records, and to a record for that very signal |
| Library.ReadingOrderSorted | convex/library.ts:11-32 | reading order holds every signal exactly once, by season, then episode |
| Library.ProgressMapKeys | convex/library.ts:42-44 | the progress map has a record for exactly the signals some record names |
| Library.ProgressMapLast | convex/library.ts:42-44 | the record kept for a signal is the last record naming it |
| Library.ProgressMapLastWins | convex/library.ts:35-45 | both the keys and the later-overwrites-earlier rule together |
| Library.HeroIndex | convex/library.ts:48-66 | none exactly when there are no signals; otherwise the first signal not completed, every earlier one completed, or, when all are completed, the last signal |
| Library.FillProgress | convex/library.ts:42-44 | the loop builds exactly `ProgressMap` of the records |
| Library.FindHero | convex/library.ts:51-66 | the loop and its fallback find exactly `HeroIndex` |
| Library.Assemble | convex/library.ts:69-78 | one entry per signal in order, each with its progress or null, and the hero is the entry at the hero's index |
| Library.StateFor | convex/library.ts:69-78 | a state that matches the order has a hero exactly when there are signals, and the hero is one of the entries listed |
| Library.GetLibraryState | convex/library.ts:7-79 | the entries are the reading order with the caller's progress, and the hero is the first uncompleted signal, else the last, else none |
| Library.GuestLibrary | convex/library.ts:8-54 | without identity no entry carries progress and the hero is the first signal |
| Signals.PublishUpserts | convex/studio/signals.ts:26-53 | fails exactly when a given id names no signal; with an id that signal is patched and its id returned; without one the first signal with the same slug is patched and no record is added; with no such slug exactly one signal is inserted with the next id; the written record holds the draft and `publishedAt` = now |
| Signals.Publish | convex/studio/signals.ts:26-53 | only a publish by id can fail; a success adds at most one signal, and adds one exactly when no id is given and no signal has the draft's slug, returning the next id |
| Signals.PublishKeepsOthers | convex/studio/signals.ts:37-52 | a publish changes no signal other than the one it returns |
| Signals.Delete | convex/studio/signals.ts:59-61 | fails exactly when no signal has the id; otherwise exactly that signal is removed |
| Signals.PublishKeepsWellFormed | convex/studio/signals.ts:14-55 | a publish keeps every id unique and below the next one, drawing a new id only when it inserts |
| Signals.DeleteRemovesOnly | convex/studio/signals.ts:57-62 | with unique ids, a delete leaves no signal with that id, keeps every other signal, and keeps the ids unique |
| Signals.ListSignals | convex/studio/signals.ts:7-10 | every signal once, ordered by season and episode descending |
| Signals.RepairIdempotent | convex/studio/signals.ts:71-76 | a repaired signal always has a slug, repairing twice equals repairing once, and a rebuilt slug ends in the well-formed slug of the title |
| Signals.Repair | convex/studio/signals.ts:71-76 | a repair changes at most the slug, and never a signal that has one |
| Signals.RepairedSlug | convex/studio/signals.ts:71-76 | the written slug is never empty and ends with the title's slug |
| Signals.RepairAll | convex/studio/signals.ts:67-78 | the loop repairs every signal (only a missing slug is rewritten, to `sss-eee-title`) and counts exactly those whose slug was missing |
| Signals.SignalStore.constructor | convex/studio/signals.ts:14 | the table starts empty |
| Signals.SignalStore.PublishSignal | convex/studio/signals.ts:25-54 | the table and the returned id are those of `Publish`; a failed patch changes nothing |
| Signals.SignalStore.DeleteSignal | convex/studio/signals.ts:59-61 | the table is that of `Delete`; a missing id changes nothing and fails |
| Signals.SignalStore.RepairSlugs | convex/studio/signals.ts:66-79 | every signal is replaced by its repair and the message reports the number of missing slugs |
| Slugs.RunEnd | app/studio/signals/page.tsx:81 | the run that starts at the position holds only characters outside [a-z0-9] and ends at the end of the string or at a character in [a-z0-9] |
| Slugs.Collapse | app/studio/signals/page.tsx:81 | empty exactly when the input is; a leading slug character is kept and a leading run of other characters becomes one hyphen |
| Slugs.CollapseClean | app/studio/signals/page.tsx:81 | after the replacement only [a-z0-9] and hyphens remain and no two hyphens are adjacent |
| Slugs.StripKeepsClean | app/studio/signals/page.tsx:82 | dropping a leading and a trailing hyphen from a clean string yields a slug (no hyphen at either end) |
| Slugs.GenerateSlug | app/studio/signals/page.tsx:79-83 | `generateSlug` always yields a slug: [a-z0-9] with single inner hyphens and none at the ends |
| Slugs.LowerOfClean | app/studio/signals/page.tsx:80 | lowercasing leaves a clean string unchanged |
| Slugs.CollapseOfClean | app/studio/signals/page.tsx:81 | the replacement leaves a clean string unchanged when a leading hyphen is not followed by another |
| Slugs.GenerateSlugIdempotent | app/studio/signals/page.tsx:79-83 | applying `generateSlug` to its own result changes nothing |
| Slugs.SignalSlugShape | app/studio/signals/page.tsx:89 | for season and episode below 1000 the slug is two three-digit fields, each followed by a hyphen, then exactly the title's slug |
| Slugs.SignalSlug | app/studio/signals/page.tsx:88-90 | the full slug is longer than the title's slug and ends with it |
| Slugs.SlugPad | convex/studio/signals.ts:73 | a number in 0..999 pads to exactly three characters |
| Slugs.NatDigits | convex/studio/signals.ts:73 | a number below 10, 100 or 1000 has at most one, two or three decimal digits |
| SanctuaryTerminal.SpaceRunEnd | components/registry/SanctuaryTerminal.tsx:167 | the `\s*` after the opening: the run holds only white space and ends at the end or at a non-space character |
| SanctuaryTerminal.FencedBlock | components/registry/SanctuaryTerminal.tsx:167 | a found block starts at the first case-insensitive "```json", its capture starts after the white space that follows, and ends at the first closing fence after that; no block means no opening is followed by any closing at all |
| SanctuaryTerminal.NoClosingFence | components/registry/SanctuaryTerminal.tsx:167 | when nothing closes the first opening, nothing closes any later opening either, so the whole match fails |
| SanctuaryTerminal.Extract | components/registry/SanctuaryTerminal.tsx:166-182 | `extractA2UIPayload` never throws and never returns an empty text: it is the acknowledgement or a string trimmed at both ends; no candidate or an empty one gives no payload, otherwise the payload is what `JSON.parse` gives for the candidate (the fenced capture, else the greedy brace span) |
| SanctuaryTerminal.Cleaned | components/registry/SanctuaryTerminal.tsx:177-181 | the text left after removing the fenced blocks and the first brace span is never empty, and is the acknowledgement or starts and ends with a non-space |
| SanctuaryTerminal.TrimmedOr | components/registry/SanctuaryTerminal.tsx:180-181 | `s.trim() \|\| dflt` is the trimmed text, or the default when that is empty; never empty |
| SanctuaryTerminal.RemoveFences | components/registry/SanctuaryTerminal.tsx:178 | removing the fenced blocks never lengthens the text |
| SanctuaryTerminal.PlainTextPassesThrough | components/registry/SanctuaryTerminal.tsx:166-182 | text with no backtick and no brace yields no payload and is shown trimmed, or as the acknowledgement when blank |
| SanctuaryTerminal.NoBacktickNoOpening | components/registry/SanctuaryTerminal.tsx:167 | text without a backtick holds no fenced opening |
| SanctuaryTerminal.OpeningAtStart | components/registry/SanctuaryTerminal.tsx:167 | a block at the start of the text has its opening found at position 0 |
| SanctuaryTerminal.ClosingAtEnd | components/registry/SanctuaryTerminal.tsx:167 | contents without a backtick are closed by the final fence |
| SanctuaryTerminal.NoFenceAt | components/registry/SanctuaryTerminal.tsx:167 | no closing fence starts at a character other than a backtick |
| SanctuaryTerminal.FencedBlockWhole | components/registry/SanctuaryTerminal.tsx:167 | a lone fenced block whose contents start with a non-space and hold no backtick is matched as the whole text, its capture being exactly the contents |
| SanctuaryTerminal.FencedBlockRoundTrip | components/registry/SanctuaryTerminal.tsx:166-182 | wrapping a JSON text in a fenced block and extracting it gives back the parse of that text, with the acknowledgement as the displayed text |
| SanctuaryTerminal.SpendDigitAt | components/registry/SanctuaryTerminal.tsx:185 | a match of a pound sign or "gbp" in any case, with at most one white space, points at a following digit |
| SanctuaryTerminal.SpendFrom | components/registry/SanctuaryTerminal.tsx:185 | the leftmost position at or after the start where an amount match begins; none exactly when no position matches |
| SanctuaryTerminal.ClassRunEnd | components/registry/SanctuaryTerminal.tsx:189 | the run holds only letters, digits, white space and hyphens and ends at the end or at a character outside that class |
| SanctuaryTerminal.AllocationAt | components/registry/SanctuaryTerminal.tsx:189 | a capture of "to", white space and a lazy class run up to a terminator is non-empty and holds only class characters |
| SanctuaryTerminal.AllocationFrom | components/registry/SanctuaryTerminal.tsx:189 | the leftmost position where the allocation pattern matches; none exactly when no position does |
| SanctuaryTerminal.ExtractSpend | components/registry/SanctuaryTerminal.tsx:184-192 | `extractSpend` finds a spend exactly when some position starts an amount match; the amount is `Number` of the decimal captured by the leftmost match, so non-negative and a whole number of pence, and the allocation is the trimmed leftmost capture or "General Allocation" |
| SanctuaryTerminal.SpendExample | components/registry/SanctuaryTerminal.tsx:184-192 | "£5 to fuel" yields the spend 5 allocated to "fuel" |
| SanctuaryTerminal.SampleSpend | components/registry/SanctuaryTerminal.tsx:185-188 | the amount of the sample is 5 and its allocation "fuel" |
| SanctuaryTerminal.NoToAt | components/registry/SanctuaryTerminal.tsx:189 | the case-insensitive "to" cannot start at a character other than `t` or `T` |
| SanctuaryTerminal.SampleAllocation | components/registry/SanctuaryTerminal.tsx:189-190 | the allocation of the sample is "fuel" |
| SanctuaryTerminal.SampleMatchStart | components/registry/SanctuaryTerminal.tsx:189 | the leftmost allocation match of the sample starts at its "to" |
| SanctuaryTerminal.AllocationSkips | components/registry/SanctuaryTerminal.tsx:189 | the leftmost search passes over a position that cannot start "to" |
| SanctuaryTerminal.TrimFuel | components/registry/SanctuaryTerminal.tsx:190 | trimming "fuel" leaves it unchanged |
| SanctuaryTerminal.SampleAllocationAt | components/registry/SanctuaryTerminal.tsx:189 | the pattern matches the sample at its "to" with the capture "fuel" |
| SanctuaryTerminal.PayloadEffects | components/registry/SanctuaryTerminal.tsx:404-415 | a payload has effects exactly when its component and props are both truthy; the first is the projection of that component and props; the control-room update follows exactly when the component is a string; nothing else is emitted |
| SanctuaryTerminal.DossierTarget | components/registry/SanctuaryTerminal.tsx:110-120 | no target exactly when none of the three names occurs in the lowercased text; a target's name occurs in it |
| SanctuaryTerminal.DossierTargetEarliest | components/registry/SanctuaryTerminal.tsx:119-120 | the chosen name occurs no later than any other name that occurs |
| SanctuaryTerminal.DossierShownInControlRoom | components/registry/SanctuaryTerminal.tsx:122-163 | no target, no effect; otherwise exactly the dossier's projection and a control-room update under the same component, which is a registered component |
| SanctuaryTerminal.DossierEffects | components/registry/SanctuaryTerminal.tsx:110-163 | no effect exactly when no name is mentioned; otherwise two effects, the second storing the dossier in the control room |
| SanctuaryTerminal.DossierPropsShape | components/registry/SanctuaryTerminal.tsx:123-160 | Julian's dossier has exactly a header and lines; the other two have exactly a title, content and type, "Reflection" for Eleanor and "Signal" for Cassie |
| SanctuaryTerminal.RouteOrder | components/registry/SanctuaryTerminal.tsx:288-330 | input is ignored exactly when it is all white space; the protocol phrase wins over the ledger words; a chat send mentions neither |
| SanctuaryTerminal.RouteOf | components/registry/SanctuaryTerminal.tsx:288-330 | the protocol route needs the phrase in the uppercased text; the ledger route needs a ledger word and no phrase |
| SanctuaryTerminal.ReplyOf | components/registry/SanctuaryTerminal.tsx:424-463 | a completed reply comes from a completion whose last message is the assistant's, with non-empty text; a fallback reply is the direct call's answer; a failed send had a throwing completion or direct call |
| SanctuaryTerminal.LedgerLines | components/registry/SanctuaryTerminal.tsx:340-348 | the archive lines are the count line, one line per entry in the given order, and the integrity footer, four more lines than entries |
| SanctuaryTerminal.EntryLine | components/registry/SanctuaryTerminal.tsx:344 | an entry line starts with "£" and ends with the entry's allocation |
| SanctuaryTerminal.LedgerReply | components/registry/SanctuaryTerminal.tsx:363-378 | with entries, the reply is the access banner, the entry count and the wall notice; without any, the empty-ledger notice |
| SanctuaryTerminal.SendOrder | components/registry/SanctuaryTerminal.tsx:404-480 | a chat send appends the user's text to the chat runtime exactly once, right after the user payload's effects; a spend is logged exactly when a reply arrived and the text names an amount, and then the log call and the ledger card come third and second from the end |
| SanctuaryTerminal.SendEvents | components/registry/SanctuaryTerminal.tsx:404-480 | the user's text is appended to the chat runtime right after the user's payload effects, and a failed reply ends the send there |
| SanctuaryTerminal.SpendEvents | components/registry/SanctuaryTerminal.tsx:193-219 | `projectLedger` logs the spend first, then shows and stores the ledger card under "BunkerLedger" in the control room: three effects |
| SanctuaryTerminal.ChatEvents | components/registry/SanctuaryTerminal.tsx:383-480 | a chat send always appends the user's text to the chat runtime |
| SanctuaryTerminal.SendMessages | components/registry/SanctuaryTerminal.tsx:384-470 | the user's message first, never empty (the cleaned text or "UI PAYLOAD SUBMITTED"); the assistant's reply second exactly when a reply arrived |
| SanctuaryTerminal.TailEvents | components/registry/SanctuaryTerminal.tsx:437-479 | after the append: nothing on a failed reply; with a spend the log call and the ledger card come at the end; no append and no other log call there |
| SanctuaryTerminal.ChatSendOrder | components/registry/SanctuaryTerminal.tsx:383-480 | the same ordering for the send computed from the input and its dependencies |
| SanctuaryTerminal.ProtocolZeroSkipsChat | components/registry/SanctuaryTerminal.tsx:295-327 | Protocol Zero emits four effects and none of them reaches the chat runtime or the ledger |
| SanctuaryTerminal.InterceptsSkipChat | components/registry/SanctuaryTerminal.tsx:330-381 | the ledger intercept never reaches the chat runtime or the ledger, ends with the user's and then the reply's saved message, and shows the archive card exactly when there are recent entries |
| SanctuaryTerminal.SourceIds | components/registry/SanctuaryTerminal.tsx:277 | one source id per event |
| SanctuaryTerminal.SavesOnce | components/registry/SanctuaryTerminal.tsx:264-286 | the persistence loop saves each id at most once, never an id already known, and exactly the saved ids become known |
| SanctuaryTerminal.SourceIdsAppend | components/registry/SanctuaryTerminal.tsx:277 | the ids of a sequence followed by one event are the ids of the sequence followed by that event's id |
| SanctuaryTerminal.SavesStep | components/registry/SanctuaryTerminal.tsx:268-283 | one iteration saves the message exactly when it has content and its id is not yet known, and makes its id known when it has content |
| SanctuaryTerminal.Session.constructor | components/registry/SanctuaryTerminal.tsx:28-46 | empty input, no messages, no effects, no error, no pulse and no saved ids |
| SanctuaryTerminal.Session.Type | components/registry/SanctuaryTerminal.tsx:28 | only the input changes |
| SanctuaryTerminal.Session.OnUser | components/registry/SanctuaryTerminal.tsx:52-89 | the ritual runs once per session and only for a signed-in user: the glitch and the avatar projection are emitted and the greeting is shown; otherwise nothing is shown or emitted |
| SanctuaryTerminal.Session.OnChatEvent | components/registry/SanctuaryTerminal.tsx:241-255 | a chat event with content is shown and saved under its role, the assistant by default; one without content changes nothing |
| SanctuaryTerminal.Session.PersistVisible | components/registry/SanctuaryTerminal.tsx:264-286 | the loop leaves the saved ids and the effects as `SavedAfter` and `Saves` give them for the visible messages |
| SanctuaryTerminal.Session.SendProtocolZero | components/registry/SanctuaryTerminal.tsx:295-327 | the input is cleared, the user's message shown, and the Protocol Zero effects emitted |
| SanctuaryTerminal.Session.SendLedgerQuery | components/registry/SanctuaryTerminal.tsx:330-381 | the input is cleared, the user's message and the ledger reply are shown, and the ledger intercept's effects emitted |
| SanctuaryTerminal.Session.SendChat | components/registry/SanctuaryTerminal.tsx:383-485 | the input is cleared, the messages and effects of the send are added, the error is set exactly when the reply failed, the Isabella pulse is raised when the text names her, and the ledger gains exactly one entry exactly when a reply arrived and the text names an amount |
| SanctuaryTerminal.Session.HandleSend | components/registry/SanctuaryTerminal.tsx:288-486 | blank input changes nothing; otherwise the route (Protocol Zero, ledger query, chat) decides the new messages, effects, error, pulse and ledger as above |
| SanctuaryTerminal.HardCodedProjectionsRegistered | components/registry/SanctuaryTerminal.tsx:76-85 | every component the terminal projects by name, and every dossier's component, is a registry key |
| Content.ReplaceKeepsPacksDistinct | convex/studio/content.ts:180-184 | overwriting a pack in place under its id and hotspot keeps pack ids and hotspots distinct |
| Content.AppendKeepsPacksDistinct | convex/studio/content.ts:189-193 | inserting a pack with a fresh id and an unused hotspot keeps pack ids and hotspots distinct |
| Content.RemoveKeepsPacksDistinct | convex/studio/content.ts:275 | deleting a pack keeps pack ids and hotspots distinct |
| Content.RemoveKeepsRevealIdsDistinct | convex/studio/content.ts:323 | deleting a reveal keeps reveal ids distinct |
| Content.Overwrite | convex/studio/content.ts:179-184 | the overwritten pack keeps its id and creation time, takes the importer and the given fields, keeps its old value for each omitted optional field, and its version is the stored one plus one whatever version was supplied |
| Content.ImportOutcomes | convex/studio/content.ts:154-195 | a known hotspot without confirmation is a conflict naming the stored pack, with nothing written; with confirmation the stored pack is archived as it was and overwritten in place under its id, one version up; an unknown hotspot adds exactly one pack with the supplied version under the next id; scenes, reveals and objects never change |
| Content.Import | convex/studio/content.ts:154-195 | a conflict writes nothing; an import draws one id and touches neither scenes, reveals nor objects, archives a history row exactly when it overwrites, and adds a pack exactly when it does not |
| Content.ImportKeepsWellFormed | convex/studio/content.ts:154-195 | an import keeps ids below the counter, pack and reveal ids distinct and at most one pack per hotspot |
| Content.VoiceMapping | convex/studio/content.ts:239-245 | a workshop (in any case) speaks as sparkline, a study or home as hearth, and every other domain as systems, with each voice reached only so |
| Content.Voice | convex/studio/content.ts:240-245 | the voice is always one of sparkline, hearth or systems |
| Content.Hint | convex/studio/content.ts:268 | a non-empty hint line is used as it is; a missing or empty one becomes "Look closer at the" and the lowercased title |
| Content.TargetScene | convex/studio/content.ts:229-237 | the pack's own scene when it exists; else the first scene whose slug is the lowercased domain; failure with the "cannot be recovered" message exactly when neither exists; a success is always an existing scene |
| Content.PublishOutcomes | convex/studio/content.ts:222-278 | a publish fails exactly when the pack is missing or its scene can be neither found nor recovered; otherwise it adds exactly one published canon reveal with a fresh id in an existing scene and exactly one object at (55, 45) in that scene that opens it, removes that pack, keeps every other pack and leaves scenes and history alone |
| Content.PublishCopiesPack | convex/studio/content.ts:229-270 | the reveal lands in the pack's target scene, the recovered one when the stored scene is gone, with the pack's title, copy, type, tags, media and phase and the voice of its domain; the object is named after the pack and carries `hintLine` or the "Look closer at the" default |
| Content.Publish | convex/studio/content.ts:222-278 | a successful publish adds one reveal and one object, removes one pack, draws two ids and leaves scenes and history alone |
| Content.PublishFailure | convex/studio/content.ts:226-237 | the failure half: pack missing, or its scene lost |
| Content.RemovedPack | convex/studio/content.ts:275 | deleting the pack found by id leaves no pack with that id and keeps every other pack |
| Content.PublishKeepsWellFormed | convex/studio/content.ts:222-278 | a successful publish keeps the tables well formed |
| Content.DeleteLeavesNoGhostDots | convex/studio/content.ts:317-335 | deleting fails exactly when no reveal has the id; otherwise that reveal and every object pointing at it are gone, every other reveal and object stays, and packs and scenes are untouched |
| Content.DeleteReveal | convex/studio/content.ts:317-335 | a delete fails exactly when no reveal has the id; otherwise one reveal goes, objects only go, and packs, scenes and history are untouched |
| Content.MoveLinked | convex/studio/content.ts:114-124 | every object linked to the reveal is moved to the scene and every other object is unchanged, in place |
| Content.ReassignMovesLinked | convex/studio/content.ts:90-128 | an unknown slug is refused with its message; a success puts the reveal and all of its linked objects in the first scene with that slug, moves nothing else, and reports the number of linked objects |
| Content.Reassign | convex/studio/content.ts:90-128 | a reassignment keeps the number of reveals and objects, touches no pack, scene or id, and moves no more objects than there are |
| Content.ReferencedIff | convex/studio/content.ts:74 | a reveal is referenced exactly when some object carries its id |
| Content.UnlinkedFilterMembers | convex/studio/content.ts:77 | a reveal passes the unlinked filter exactly when it is stored and no object references it |
| Content.ListUnlinkedExact | convex/studio/content.ts:68-80 | the unlinked listing holds exactly the reveals no object references, newest first |
| Content.ListUnlinked | convex/studio/content.ts:68-80 | the unlinked listing is never longer than the reveal table |
| Content.Enrich | convex/studio/content.ts:32-56 | an entry is linked and anchored exactly when some object references the reveal; it then names the first such object, its scene's name and its name when it has one; the scene slug is that of the reveal's space or "home" |
| Content.ListAllExact | convex/studio/content.ts:18-66 | every reveal appears exactly once, enriched, and the listing runs from the latest publication (or creation) time down |
| Content.ListAll | convex/studio/content.ts:18-66 | the listing has one entry per reveal |
| Content.ContentStore.constructor | convex/studio/content.ts:11 | the store holds the given well-formed tables |
| Content.ContentStore.ImportPack | convex/studio/content.ts:130-196 | the new tables and the outcome are those of `Import`, and the tables stay well formed |
| Content.ContentStore.PublishPack | convex/studio/content.ts:222-278 | a failure leaves every table as it was; a success leaves the tables of `Publish`, still well formed |
| Content.ContentStore.DeleteRevealAndObjects | convex/studio/content.ts:317-335 | a failure leaves every table as it was; a success leaves the tables of `DeleteReveal`, still well formed |
| Content.ContentStore.ReassignRevealSpace | convex/studio/content.ts:90-128 | a failure leaves every table as it was; a success leaves the tables and the result of `Reassign`, still well formed |
| Content.DeleteKeepsWellFormed | convex/studio/content.ts:317-335 | a successful delete keeps the tables well formed |
| Content.ReassignKeepsWellFormed | convex/studio/content.ts:90-128 | a successful reassignment keeps the tables well formed |
| Content.RemoveLinked | convex/studio/content.ts:326-333 | the scan leaves exactly the objects not linked to the reveal, in their order |
| Content.MoveObjects | convex/studio/content.ts:114-126 | the loop leaves the objects as `MoveLinked` gives them and counts the linked ones |
| Unified.ById | convex/studio/unified.ts:16 | the scene map finds a stored scene with the id exactly when one exists |
| Unified.BySlug | convex/studio/unified.ts:17 | the slug map finds a stored scene with the slug exactly when one exists, and it is the last such scene, as a `Map` built from the list keeps the last entry per key |
| Unified.RevealScene | convex/studio/unified.ts:25-35 | a reveal with a linked object is placed in that object's scene, or "Unknown"/"home" when that scene is gone, with no fall-back to its space; an unlinked reveal is placed in its space when that resolves, otherwise "Unknown"/"home" |
| Unified.PackScene | convex/studio/unified.ts:57-68 | a pack with a scene id is placed in that scene or "Unknown"/"home"; without one, a non-empty domain is placed in the scene whose slug is the lowercased domain, or under "Unknown" with the raw domain as the slug; a pack with neither is "Unknown"/"home" |
| Unified.MergedFromRow | convex/studio/unified.ts:88 | every merged entry comes from a stored reveal or a stored pack |
| Unified.ListUnifiedExact | convex/studio/unified.ts:5-91 | the listing has one entry per reveal and one per pack, each traced to its row, in a permutation of the merged list, newest first |
| Unified.ListUnified | convex/studio/unified.ts:5-91 | the listing has one entry per reveal and per pack |
| Unified.EntryKinds | convex/studio/unified.ts:37-84 | a reveal's entry is "Published" from the reveals and linked exactly when some object references it; a pack's entry is a "Draft" from the packs, never linked, and carries the raw pack |
| Genesis.SystemError | convex/genesis.ts:112 | the caught error's message is reported after "System Error: ", and "Unknown Failure" stands in for an empty one |
| Genesis.FirstTruthy | convex/genesis.ts:87-99 | `a \|\| b \|\| d` returns the first truthy value in the order written, so a later value wins only when every earlier one is falsy; no truthy value gives the default |
| Genesis.ApiError | convex/genesis.ts:72 | the bad-status message is the status header followed by at most the first hundred characters of the error body, and the whole body when it is that short |
| Genesis.SafeStory | convex/genesis.ts:86-93 | the title, else "Untitled Transmission"; the content, else the body, else the description, else "Content corrupted during transmission."; slug, author and room as read |
| Genesis.SafeArtifact | convex/genesis.ts:95-100 | `null` throws; otherwise the keyword array when it is one, else ["unknown"]; the title, else "Unknown Artifact"; the content, else the description, else "Analysis pending."; the type, else "Signal" |
| Genesis.ValidStory | convex/genesis_db.ts:13-20 | the story passes exactly when title and content are strings and slug, author and room are each absent or a string, and then keeps those values and the tier |
| Genesis.ValidArtifact | convex/genesis_db.ts:21-26 | an artifact passes exactly when its keywords are an array of strings and title, content and type are strings, and then keeps those values |
| Genesis.Sanitise | convex/genesis.ts:82-106 | a `null` reply is the type error; every failure is the type error or the save validator's error; a success carries the validated story with the caller's tier and one artifact per element of the reply's array, none without one |
| Genesis.SafeArtifacts | convex/genesis.ts:95 | a falsy artifacts value gives no artifacts; a success on a truthy one means it was an array, with one artifact per element |
| Genesis.MapArtifacts | convex/genesis.ts:95-100 | the map succeeds exactly when no element is `null` (reading a property of `null` throws), and then sanitises each element in place |
| Genesis.OptString | convex/genesis_db.ts:15-18 | `v.optional(v.string())` admits exactly an absent value (as absent) or a string; `null` and other values are refused |
| Genesis.StringArray | convex/genesis_db.ts:22 | `v.array(v.string())` admits only an array, and gives back exactly its strings |
| Genesis.StringItems | convex/genesis_db.ts:22 | the items are admitted exactly when every one is a string, and are given back unchanged |
| Genesis.ValidArtifacts | convex/genesis_db.ts:21-26 | the artifact array passes exactly when every artifact passes, each validated in place |
| Genesis.IngestOutcomes | convex/genesis.ts:17-115 | the action saves exactly when it succeeds, and then reports the saved story's title and passes the caller's tier; a missing key fails first with the configuration message and saves nothing; then a `fetch`, `response.text()` or `response.json()` that threw is caught as "System Error: " with its message and saves nothing; then a bad status gives the API error, then an empty reply, then a reply that does not parse |
| Genesis.IngestRawContent | convex/genesis.ts:17-115 | a story is saved only with a key, a reply that arrived without a thrown error and with an ok status, and text that parses; the saved story is exactly what sanitising that parse gives |
| Genesis.FirstTruthyString | convex/genesis.ts:87-99 | a string chosen by `\|\|` with a non-empty default is never empty |
| Genesis.ValidStoryShape | convex/genesis.ts:86-93 | a validated story has a non-empty title and content and the caller's tier |
| Genesis.ValidArtifactShape | convex/genesis.ts:95-100 | a validated artifact has a non-empty title, content and type |
| Genesis.SanitisedShape | convex/genesis.ts:86-100 | a sanitised reply has a story with a title and content, every artifact has a title, content and type, and there is one artifact per element of the reply's array and none without one |
| Genesis.SavedKeywords | convex/genesis.ts:96 | a saved artifact keeps the reply's keyword array when it is an array and is tagged "unknown" otherwise |
| Genesis.StringsInjective | convex/genesis.ts:96 | two string lists with the same JSON form are equal |
| Genesis.TitleOnlyReplySaves | convex/genesis.ts:86-108 | a reply naming only a story title is saved under that title with the default content, no slug, author or room, and no artifacts |
| Genesis.NonArrayArtifactsFail | convex/genesis.ts:95 | a `null` reply, or a truthy artifacts value that is not an array, ends in the caught type error and saves nothing |
| GenesisDb.Or | convex/genesis_db.ts:29-37 | `o \|\| d` keeps a non-empty value and replaces an absent or empty one by the default |
| GenesisDb.DerivedSlugAgrees | convex/genesis_db.ts:29 | a slug derived from the title is clean, and stripping its edge hyphens gives the studio's slug of the same title |
| GenesisDb.StoryOf | convex/genesis_db.ts:32-40 | the stored story keeps the title and tier, is published now, has non-empty content, author and room, and its slug is the given or derived one |
| GenesisDb.KindOf | convex/genesis_db.ts:45-46 | "Myth" and "Reflection" are kept, every other type is stored as "Signal", and none is stored as a visual |
| GenesisDb.LinkedRows | convex/genesis_db.ts:43-56 | one stored artifact per argument, in order, with consecutive ids |
| GenesisDb.LinkedRowsShape | convex/genesis_db.ts:48-55 | each stored artifact keeps its argument's title and keywords, has content, points at the story, names the pipeline as creator and is never a visual |
| GenesisDb.StoryStore.constructor | convex/genesis_db.ts:32 | the stories table starts empty |
| GenesisDb.StoryStore.SaveContent | convex/genesis_db.ts:28-59 | exactly one story is added under the next id and exactly the linked artifacts, in order, are added to the archive |
| Archive.SearchFindsFirst | convex/artifacts.ts:20-37 | the search returns the first artifact, in scan order, with a keyword that contains the query or is contained in it, both lowercased; none exactly when no artifact has such a keyword |
| Archive.SearchByKeyword | convex/artifacts.ts:20-37 | a found artifact is stored and one of its keywords matches the query |
| Archive.SearchIgnoresCase | convex/artifacts.ts:23-33 | a query equal to a keyword up to case finds that artifact |
| Archive.ArtifactByKeyword | convex/artifacts.ts:73-79 | exact, case-sensitive membership: the first artifact whose keywords include the keyword, none exactly when no artifact's do |
| Archive.LowerAll | convex/artifacts.ts:107 | lowercasing keeps the number and order of the keywords and lowercases each |
| Archive.CreatedKeywords | convex/artifacts.ts:103-109 | a created artifact keeps its keywords' number and order, lowercased, and the search reaches it from any casing of each keyword |
| Archive.SeedRows | convex/artifacts.ts:198-203 | one seeded artifact per entry, in order, with consecutive ids, each stamped with the time |
| Archive.FindTitle | convex/artifacts.ts:240-243 | a found index holds an artifact with the title; none exactly when no artifact has it |
| Archive.AddMissing | convex/artifacts.ts:237-249 | the lore seeding adds at most one artifact per entry, and the counter and the table grow by the number it reports |
| Archive.AddMissingExtends | convex/artifacts.ts:245-246 | the lore seeding only appends: the table before it is a prefix of the table after |
| Archive.AddMissingStep | convex/artifacts.ts:238-248 | one iteration skips an entry whose title is present and otherwise inserts it and counts it |
| Archive.AddMissingCovers | convex/artifacts.ts:237-249 | after the lore seeding every entry's title is in the table |
| Archive.AddMissingNone | convex/artifacts.ts:245 | when every title is already present the seeding adds nothing and changes nothing |
| Archive.SecondLoreSeedingAddsNothing | convex/artifacts.ts:213-252 | a second lore seeding adds zero artifacts and leaves the table and counter as the first left them |
| Archive.ArchiveStore.constructor | convex/artifacts.ts:26 | the table starts empty |
| Archive.ArchiveStore.Insert | convex/artifacts.ts:103 | exactly the artifact is appended under the next id |
| Archive.ArchiveStore.CreateArtifact | convex/artifacts.ts:95-111 | exactly one artifact with the given fields and lowercased keywords is appended, and its id returned |
| Archive.ArchiveStore.AutoArchive | convex/artifacts.ts:113-131 | exactly one artifact is appended with the url as content, the fixed keywords and the creator, and its id returned |
| Archive.ArchiveStore.InsertSeeds | convex/artifacts.ts:198-203 | the loop appends exactly the seed rows of the entries, in order |
| Archive.ArchiveStore.SeedArchive | convex/artifacts.ts:137-208 | a non-empty table is reported as already seeded and left alone; an empty one receives exactly the eight entries in order, reported with count 8 |
| Archive.ArchiveStore.AddMissingEntries | convex/artifacts.ts:237-249 | the loop leaves the table, the counter and the count that `AddMissing` gives |
| Archive.ArchiveStore.SeedSanctuaryLore | convex/artifacts.ts:213-252 | the table becomes that of the lore seeding and the message reports how many were added |
| Media.Patch | convex/studio/mutations.ts:21-22 | the patched record keeps its id, takes every supplied field, and keeps its stored folder, width and height where those were omitted |
| Media.UpsertOutcomes | convex/studio/mutations.ts:16-25 | a known public id is patched in place with no record added; an unknown one adds exactly one record with the given fields under the next id; records with other public ids are untouched |
| Media.Upsert | convex/studio/mutations.ts:16-25 | a patch keeps the counter and the table's size; an insert draws one id and appends one record after the stored ones |
| Media.UpsertStores | convex/studio/mutations.ts:16-25 | after the upsert some record holds every supplied field |
| Media.UpsertIdempotent | convex/studio/mutations.ts:16-25 | repeating the identical upsert leaves the table and the counter as the first call left them |
| Media.UpsertKeepsUnique | convex/studio/mutations.ts:16-25 | the upsert never creates a second record for a public id |
| Media.MediaStore.constructor | convex/studio/mutations.ts:17 | the table starts empty |
| Media.MediaStore.UpsertMediaRecord | convex/studio/mutations.ts:4-27 | the table and the counter become those of `Upsert` |
| Debug.FixCasing | convex/debug.ts:9-11 | a reveal whose status is "Published" gets the status "published" and nothing else changes; any other reveal is unchanged |
| Debug.FixCasingIdempotent | convex/debug.ts:9-11 | a fixed reveal is never miscased, fixing twice is fixing once, and only the status differs from the original |
| Debug.SecondFixFindsNothing | convex/debug.ts:3-16 | a second run over a fixed table fixes zero reveals and changes none |
| Debug.FixAll | convex/debug.ts:8-13 | the loop fixes every reveal in place and counts exactly the miscased ones |
| Debug.FixStatusCasing | convex/debug.ts:3-16 | only the reveals change, each as `FixCasing` gives it, and the message reports the number read and the number fixed |
| TheaLux.MetadataFor | convex/seedsTheaLux.ts:17-37 | a signal receives metadata exactly when it is season 0, episode 1 or 2 |
| TheaLux.Upgrade | convex/seedsTheaLux.ts:15-42 | a non-matching signal is left alone; a matching one receives the episode's subtitle, summaries, reading time and cover plus some release date, and no field outside those six changes |
| TheaLux.ReleaseKeepsPublication | convex/seedsTheaLux.ts:25-35 | the release date is the publication time when it is set and non-zero, otherwise the current time, and the publication time itself is kept |
| TheaLux.UpgradeStable | convex/seedsTheaLux.ts:8-46 | for a published signal, running the upgrade a second time at any later time changes nothing |
| TheaLux.UpgradeAll | convex/seedsTheaLux.ts:11-43 | the loop upgrades every signal of the snapshot in place and counts exactly the matching ones |
| TheaLux.UpgradeMetadata | convex/seedsTheaLux.ts:8-47 | only the signal rows change, each as `Upgrade` gives it, ids and the counter are kept, and the message reports the number of matching signals |
| EdgeNav.IndexOf | components/narrative/EdgeNav.tsx:23 | a found index points at the slug in the walk, and nothing is found exactly when the slug is not in the walk |
| EdgeNav.SequenceDistinct | components/narrative/EdgeNav.tsx:7 | no room appears twice in the walk |
| EdgeNav.EveryRoomLabelled | components/narrative/EdgeNav.tsx:7-17 | every room of the walk has a non-empty label |
| EdgeNav.EmptyIsHome | components/narrative/EdgeNav.tsx:22 | the empty slug navigates exactly as the home room |
| EdgeNav.OutsideRendersNothing | components/narrative/EdgeNav.tsx:22-26 | the component renders nothing exactly when the normalized slug is outside the walk |
| EdgeNav.IndexOfRoom | components/narrative/EdgeNav.tsx:23-29 | each room of the walk is found at its own position and navigates from there |
| EdgeNav.Adjacent | components/narrative/EdgeNav.tsx:28-65 | the previous edge is missing only in the first room and the next only in the last; otherwise they lead to the adjacent rooms with those rooms' labels |
| EdgeNav.Routes | components/narrative/EdgeNav.tsx:37-56 | the previous route is the site root for the home room and the room's path otherwise; the next route is the room's path |
| EdgeNav.NextThenPrev | components/narrative/EdgeNav.tsx:28-29 | following the next edge and then the previous one returns to the starting room |
| EdgeNav.EdgeNavFor | components/narrative/EdgeNav.tsx:22-65 | navigation exists exactly for rooms of the walk, the empty slug counting as home; only the first room lacks a previous edge and only the last a next one |
| Text.ToLower | app/studio/signals/page.tsx:80 | `toLowerCase` keeps the length and lowercases each upper-case ASCII letter, leaving every other character as it is |
| Text.ToLowerIdempotent | convex/artifacts.ts:107 | lowercasing an already lowercased string changes nothing |
| Text.ToUpper | components/registry/SanctuaryTerminal.tsx:295 | `toUpperCase` keeps the length and upper-cases each lower-case ASCII letter, leaving every other character as it is |
| Text.TrimBothEmpty | components/registry/SanctuaryTerminal.tsx:289 | trimming both ends leaves nothing exactly when every character is ECMAScript white space |
| Text.Trim | components/registry/SanctuaryTerminal.tsx:180 | `trim` leaves no white space at either end, leaves the empty string exactly for an all-white-space input, and returns a contiguous part of the input with only white space cut away before and after it |
| Text.IndexOf | components/registry/SanctuaryTerminal.tsx:167 | `indexOf` finds the pattern exactly when it occurs, and then at its first occurrence |
| Text.IndexOfChar | convex/brian.ts:125 | the first position of a character: it holds the character and none before it does, and nothing is found only when it is absent |
| Text.LastIndexOfChar | convex/brian.ts:125 | the last position of a character: it holds the character and none after it does, and nothing is found only when it is absent |
| Text.BraceSpan | convex/brian.ts:125 | the greedy match of `/\{[\s\S]*\}/` runs from the first `{` to the last `}` after it |
| Text.BraceSpanNone | convex/brian.ts:125 | without a match no `{` is followed anywhere by a `}` |
| Text.ReplaceAllAbsent | components/registry/BunkerTerminal.tsx:80-85 | a global replace of a pattern that does not occur changes nothing |
| Text.ReplaceAllSelf | components/registry/BunkerTerminal.tsx:80-85 | replacing a pattern by itself changes nothing |
| Text.DecimalAt | components/VisualInput.tsx:131 | the greedy match of `[0-9]+(?:\.[0-9]{1,2})?` at a digit takes the whole run of digits; it takes a fraction exactly when a point and a digit follow that run, and two fraction digits exactly when a second digit follows |
| Text.DecimalInPence | components/registry/SanctuaryTerminal.tsx:185-186 | a matched amount is non-negative and a whole number of hundredths |
| Text.NatToString | components/registry/BunkerTerminal.tsx:115 | `String(n)` is a non-empty run of digits with no leading zero |
| Text.IntToString | convex/genesis.ts:72 | `String(n)` of a negative number is a minus sign before the digits of its magnitude |
| Text.NatToStringRoundTrip | components/registry/BunkerTerminal.tsx:115 | reading back the digits of `String(n)` gives `n` |
| Text.PadStart | app/studio/signals/page.tsx:89 | `padStart` leaves a long enough string alone and otherwise fills on the left up to the width, ending with the original string |
| Text.Split | components/VisualInput.tsx:247 | `split` returns at least one piece, and no piece contains the separator |
| Text.SplitJoin | components/VisualInput.tsx:247 | joining the pieces of `split(c)` with `c` gives back the input |
| Text.NonEmpty | components/VisualInput.tsx:247 | `filter(Boolean)` keeps only non-empty strings drawn from the input, and keeps every non-empty one |
| Text.NonEmptyKeepsOrder | components/VisualInput.tsx:247 | `filter(Boolean)` is the order-preserving filter of the non-empty strings |

## Left out

- Case folding covers ASCII letters only; `toLowerCase` and `toUpperCase` on other Unicode letters are not modelled.
- Floating point is not modelled. JSON numbers and money are exact decimals; `toFixed`, `toLocaleString` and the tide's cosine are left out or passed in as parameters.
- Image decoding and the canvas are a parameter: a function from the target size and quality to an optional data URL.
- Timers are left out: `setTimeout`, the pulse reset after four seconds and every animation delay.
- The clipboard and `handleShare` are not modelled.
- Calls into code that is not part of this model are parameters: `JSON.parse`, `JSON.stringify`, the language and vision model calls, the weather fetch and `fetch` in general.
- `requireStudioAccess` is not modelled. The studio mutations run as if access had been granted.
- Database ids are natural numbers handed out in creation order; Convex's id strings and `_creationTime` are not modelled beyond that order.
- Limit arguments are natural numbers. A negative or fractional `limit` is not modelled.
- Seeding and `saveContent` take one clock reading per call in the model, so every row they insert carries the same time.
- The text of thrown errors is not modelled. A throw is a `Failure`, and the messages built from errors are kept only where the code returns them.
- A failure of `response.json()` in the telemetry call is not modelled. In the vision call it is a `Rejected` reply, like a rejected `fetch`.
- `weather_code` is read only when it is a JSON number.
- `applyDossierProjection` is defined in components/registry/SanctuaryTerminal.tsx but never called. It is modelled, but no send path uses it.
- The relative order of the terminal's chat messages and its window events within one send is not modelled; they are two separate logs.
- The terminal's persist events are logged but not applied to `RoomStore`.
- Lookup: `ComponentRegistry[name]` also finds inherited `Object.prototype` members such as "constructor" or "toString"; the model treats every name outside the nine keys as unregistered.
- Draw: draws through `Lookup`, so an inherited `Object.prototype` name shows the missing-component frame in the model instead of whatever the code would render.
- JavaScript strings are sequences of UTF-16 code units, while the model's strings are sequences of Unicode scalar values. Lengths and positions therefore differ for characters outside the Basic Multilingual Plane: `slice`, `substring(0, 100)`, `padStart`, `length` and the index-based helpers of `Text`.
- PreviewCutoff: its thirty-character window counts scalar values, not UTF-16 code units.
- PreviewAtEnd: its window counts scalar values, not UTF-16 code units.
- AnalysedEffects: takes the corrected document branch, `DocumentEffects`, in which a missing merchant is omitted; the branch as written, where the spend is refused, is `DocumentEffectsAsWritten` (see Findings).
- ScanEffects: runs `AnalysedEffects`, so it uses the corrected document branch too.
- Analyse: appends `AnalysedEffects`, so it states the corrected document branch, not the refusal as written.
- HandleFileSelect: appends `ScanEffects`, so it states the corrected document branch, not the refusal as written.
- Card: rewrites lines with the corrected `ProcessedLines`, which shows a non-string line as its text; as written the card throws on such a line (see Findings).
- content.ts operations outside this model: `listPacks`, `updatePack`, `deletePack` and `resolveMedia`.
- artifacts.ts operations outside this model: `searchContent`, `getStoryBySlug` and `listAll`.
- Four behaviours of the code that its comments or names do not suggest, which the model follows:
  - in unified.ts, a reveal whose linked object's scene does not resolve gets the "Unknown" scene; there is no fallback to its `spaceId`;
  - the document branch of VisualInput needs a non-empty `total`;
  - the scan's "Vibe" chat message names the current room;
  - a failed second model call leaves the `CortexArtifact` default as the projection.

## Findings

| source | as written | input that shows it | evidently intended | confidence | as-written member | corrected member |
|---|---|---|---|---|---|---|
| components/registry/BunkerTerminal.tsx:80 | every element of the model's `lines` array is treated as a string, and `line.replace` is called on it | `lines: ["SCAN", 42]`; the number has no `replace`, so the card throws while rendering | each line shown as its text, with the dates rewritten as for strings | not executed | TerminalCard.NonStringLineBreaksCard | TerminalCard.ProcessedLinesAgree |
| components/VisualInput.tsx:159 | a missing merchant is passed to `logSpend` as `null`, but the field's validator at convex/ledger.ts:11 is `v.optional(v.string())`, which refuses `null` | a scan `{document_detected: true, total: "£12.34"}` with no merchant; the ledger card is stored, then `logSpend` is refused and nothing is logged | the merchant omitted when missing, so the entry is filed under "UNKNOWN VENDOR" | not executed | VisualInput.MissingMerchantRefused | VisualInput.DocumentLogged |
