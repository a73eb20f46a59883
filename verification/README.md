# Batch upload simulator of the AutoMatTuner dashboard, in Dafny

This project models the logic at the centre of the AutoMatTuner monitor. The monitor is a browser dashboard that simulates packaging applications and uploading them to Intune. The model covers:

- **the registry and the log feed** (`Types`): applications (`IntuneApp`) with a five-valued `AppStatus`, plus log entries with an INFO/WARN/ERROR/SUCCESS level;
- **the two batch transitions** (`Batch`): starting a batch sends every IDLE app to PACKAGING at 5%. A tick moves every PACKAGING or UPLOADING app to the shared counter, switching it to UPLOADING above 30. When the counter reaches 100 the tick finishes every in-flight app: the app named exactly `7-Zip` is rejected (ERROR at 85) and the others are deployed (SUCCESS at 100);
- **the progress driver** (`Driver`): `startUpload` logs one INFO entry, starts the batch and arms an interval. The counter starts at 5 and grows by 5 on each firing. Each firing may log a random "Packaging stream" entry, applies one tick and logs one ERROR entry per rejected package. On the firing where the counter reaches 100 it logs "Batch sequence completed." and clears the interval;
- **the dashboard figures** (`Dashboard`): the deployed, failed and processing counts, the three-slice chart and its colours;
- **the deployment-view queries** (`AppManager`): whether a run is in progress (this disables the INITIATE button), the choice of the log entry sent for error analysis, and the status badge text.

Everything is pure functions over immutable datatypes held in `seq`. Ticks are explicit steps (`Driver.Step`), and `Driver.RunTicks` folds them over a sequence of environment inputs.

What is proved, in short:
- The interval fires exactly 19 times (the counter goes 10, 15, …, 100). After that no app is in flight, and further firings change nothing.
- Progress stays within 0..100, and SUCCESS implies 100.
- SUCCESS, ERROR and IDLE are absorbing under ticks.
- In a run started while nothing is in flight (the only kind the start button allows), an app that stays in flight gains exactly 5 points per firing while the run is armed.
- The outcome of a run from any registry is fixed. From the initial registry the run ends with Google Chrome SUCCESS(100), 7-Zip ERROR(85), Adobe Reader DC ERROR(45) and VLC Media Player SUCCESS(100).
- The log feed only grows by appending. A complete run adds one ERROR entry per rejected package and exactly one SUCCESS entry. With the within-firing order the model fixes (see "## Left out"), the SUCCESS entry is the last entry and the latest rejection comes just before it. The source does not fix that order: it appends the rejection from inside the `setApps` updater (App.tsx:66), so whether it lands before or after the completion entry (App.tsx:84) depends on when React runs that updater.
- The dashboard counts are multiplicities of statuses. Together with the IDLE apps they partition the registry, and they are invariant under reordering.
- The button is disabled exactly when the dashboard shows an active process.
- Error analysis is asked about the most recent ERROR entry, and only for an app in ERROR. A whole analysis round ends with the answer shown for the selected app.

Behaviour of the code worth noting:
- A failed package's progress is set to the constant 85, not kept at the value it had reached, so 7-Zip drops from 95 to 85 on the completing firing.
- The interval is cleared when the counter reaches 100, whatever the apps' statuses. No app is in flight at that point, because the completing tick finishes every in-flight app (`Batch.Tick`, `Driver.StopsAfterNineteenTicks`).
- Error analysis sends the message of the most recent ERROR entry of the whole feed, whichever app is analysed (`AppManager.AnalysisIgnoresApp`). Every rejection entry reads "FATAL: 7-Zip upload rejected. 401 Unauthorized." (`Batch.RejectionLog`). So after a complete run that rejected 7-Zip, analysing the failed "Adobe Reader DC" sends 7-Zip's rejection (`AppManager.AnalysisAfterRejection`; this relies on the within-firing order noted above).

## Model

| member | source | states |
|---|---|---|
| Batch.StartBatch | App.tsx:43-45 | Length and order are kept. Each app keeps id, name, version, size and lastUpdated. Every IDLE app becomes PACKAGING at 5, every other app is returned unchanged, and no app is left IDLE |
| Batch.Finish | App.tsx:63-75 | A finishing app is ERROR exactly when its name is "7-Zip", and then its progress is 85. Otherwise it is SUCCESS at 100. It keeps its identity fields |
| Batch.Tick | App.tsx:61-80 | Length, order and identity fields are kept. Apps not PACKAGING or UPLOADING are unchanged. Below 100 an in-flight app gets progress = counter and stays in flight, UPLOADING exactly when the counter is above 30. From 100 on it is finished, and no app is left in flight |
| Batch.RejectionLog | App.tsx:63-71 | Rejection entries appear only on the completing tick. Each is an ERROR entry reading "FATAL: 7-Zip upload rejected. 401 Unauthorized.", with the firing's clock stamp |
| Batch.RejectionLogCount | App.tsx:63-71 | The completing tick logs exactly one rejection per in-flight "7-Zip" record |
| Batch.StartBatchKeepsRegistryOk | App.tsx:43-45 | Starting a batch keeps 0 ≤ progress ≤ 100 and SUCCESS ⇒ progress = 100 |
| Batch.TickKeepsRegistryOk | App.tsx:72-77 | A tick with a non-negative counter keeps 0 ≤ progress ≤ 100 and SUCCESS ⇒ progress = 100 |
| Driver.StartUpload | App.tsx:38-48 | Starting appends exactly one INFO "Initiating batch upload sequence..." entry to the unchanged feed. It applies `StartBatch` and arms the interval with the counter at 5 |
| Driver.Step | App.tsx:49-86 | A cleared interval changes nothing. Otherwise the counter grows by 5, the registry takes one tick, and the firing's `TickLog` entries are appended to the feed. The interval stays armed exactly while the counter is below 100, and the firing that clears it ends the feed with the completion entry |
| Driver.TickLog | App.tsx:52-85 | No firing logs a WARN entry or more than one INFO entry. On the completing firing there are exactly (0 or 1 chatter) + (in-flight "7-Zip" apps) + 1 entries. All are INFO or ERROR except the last, which is the "Batch sequence completed." SUCCESS entry. On any other firing there is at most one entry, an INFO chatter entry |
| Driver.RunTicks | App.tsx:49-86 | After any number of firings the registry keeps its length and the feed extends the old one by appending. Firing a cleared interval changes nothing |
| Driver.RunAbsorbing | App.tsx:62-79 | An app that is not PACKAGING or UPLOADING is unchanged by any number of firings |
| Driver.TickLogErrors | App.tsx:63-85 | A firing's entries contain one ERROR per in-flight "7-Zip" app on the completing tick, and none otherwise |
| Driver.TickLogSuccesses | App.tsx:82-85 | A firing's entries contain exactly one SUCCESS entry on the completing tick, and none otherwise |
| Driver.RunCounter | App.tsx:48-50 | After n firings the counter is min(start + 5n, 100). The counter stays a multiple of 5 in 5..100, the interval is armed exactly while it is below 100, and a stopped run has no app in flight |
| Driver.StopsAfterNineteenTicks | App.tsx:48-85 | A run from any registry is still armed after n firings exactly when n < 19. Once stopped, no app is PACKAGING or UPLOADING |
| Driver.RunKeepsRegistryOk | App.tsx:61-80 | 0 ≤ progress ≤ 100 and SUCCESS ⇒ 100 hold after any number of firings |
| Driver.StartUploadSynced | App.tsx:43-48 | Starting while nothing is in flight puts every in-flight app at the counter |
| Driver.StepAdvancesProgress | App.tsx:48-77 | In a synchronised run, an app in flight before and after a firing gains exactly 5 points, and synchronisation is kept |
| Driver.BatchOutcome | App.tsx:61-85 | After 19 or more firings, every SUCCESS or ERROR app is unchanged. Every other app is ERROR(85) if named "7-Zip" and SUCCESS(100) otherwise, in the same order and with the same identity fields |
| Driver.RunLogs | App.tsx:61-85 | Running an armed run to completion adds one ERROR entry per rejected package and one SUCCESS entry |
| Driver.RunEndsWithCompletion | App.tsx:82-85 | A completed run's feed ends with "Batch sequence completed." |
| Driver.BatchLastError | App.tsx:61-85 | After a complete run that rejected a package, the most recent ERROR entry of the feed reads "FATAL: 7-Zip upload rejected. 401 Unauthorized.", and only the completion entry follows it |
| Driver.BatchLog | App.tsx:40-85 | The feed of a complete run extends the starting feed. Its ERROR count grows by the number of rejected packages and its SUCCESS count by exactly one, and it ends with the completion entry |
| Driver.InitialRegistryOk | App.tsx:16-21 | The initial registry satisfies 0 ≤ progress ≤ 100 and SUCCESS ⇒ progress = 100 |
| Driver.InitialRun | App.tsx:16-21 | A complete run from the initial registry ends with Google Chrome SUCCESS(100), 7-Zip ERROR(85), Adobe Reader DC ERROR(45) and VLC Media Player SUCCESS(100), and logs exactly one ERROR entry |
| Driver.DriveBatch | App.tsx:38-87 | Starting and then firing until the interval is cleared takes exactly 19 firings. It ends with the counter at 100, every app at its `Outcome`, and a feed that extends the starting one |
| Dashboard.CountIn | components/Dashboard.tsx:27-29 | A `filter(...).length` count over a set of statuses is never more than the number of apps |
| Dashboard.SuccessCount | components/Dashboard.tsx:27 | successCount is the number of SUCCESS apps (their multiplicity among the statuses) |
| Dashboard.ErrorCount | components/Dashboard.tsx:28 | errorCount is the number of ERROR apps |
| Dashboard.ProcessingCount | components/Dashboard.tsx:29 | processingCount is the number of PACKAGING apps plus the number of UPLOADING apps |
| Dashboard.CountIsMultiplicity | components/Dashboard.tsx:27-28 | The count for one status is the multiplicity of that status among the apps' statuses. So successCount is the number of SUCCESS apps and errorCount the number of ERROR apps |
| Dashboard.CountInUnion | components/Dashboard.tsx:29 | Counting over two disjoint status sets is counting over their union. So processingCount is the number of PACKAGING apps plus the number of UPLOADING apps |
| Dashboard.CountInExtremes | components/Dashboard.tsx:27-29 | A count is 0 exactly when no app has the status, and equals the registry length exactly when all apps have it |
| Dashboard.CountsPartition | components/Dashboard.tsx:27-29 | success + error + processing + idle = apps.length, so the displayed counts never exceed the total |
| Dashboard.CountsDependOnStatusesOnly | components/Dashboard.tsx:27-29 | Registries with the same statuses in the same order have the same counts, whatever their other fields |
| Dashboard.CountsPermutationInvariant | components/Dashboard.tsx:27-29 | Reordering the registry (equal multisets of apps) leaves every count unchanged |
| Dashboard.ChartData | components/Dashboard.tsx:27-35 | The chart data has exactly three entries, named Deployed, Processing and Failed in that order. Their values are the numbers of SUCCESS apps, of PACKAGING plus UPLOADING apps, and of ERROR apps, and sum to at most the number of apps |
| Dashboard.SliceColor | components/Dashboard.tsx:120 | A slice's colour is always a palette entry, and is entry `index` when the index is below the palette size |
| Dashboard.SliceColorsMatchLegend | components/Dashboard.tsx:119-135 | Each chart slice's lookup index is its own index (in 0..3), so its pie colour is the legend colour. No two slices share a colour |
| AppManager.UploadRunning | components/AppManager.tsx:55 | The INITIATE button is disabled (some app PACKAGING or UPLOADING) exactly when the dashboard's processing count is positive |
| AppManager.RunDisablesStart | components/AppManager.tsx:55-58 | After starting from a registry with a queued app, the button is disabled after n firings exactly when n < 19 |
| AppManager.Reverse | components/AppManager.tsx:24 | `slice().reverse()` has the same length, and its entry k is the original's entry length-1-k |
| AppManager.FindError | components/AppManager.tsx:24 | `find` returns an ERROR entry of the feed, namely the first one: whenever entry i is ERROR and no earlier entry is, it returns entry i. It returns nothing exactly when the feed has no ERROR entry |
| AppManager.SelectErrorLog | components/AppManager.tsx:24 | The selected entry is the most recent ERROR entry of the feed, and nothing is selected exactly when the feed has no ERROR entry |
| AppManager.LastErrorIsSelected | components/AppManager.tsx:24 | The first ERROR entry of the reversed copy is the last ERROR entry of the feed, and the copy has one exactly when the feed does |
| AppManager.AnalyzeError | components/AppManager.tsx:22-28 | Analysis is a no-op (no request, panel unchanged) unless the app is ERROR and the feed has an ERROR entry. When it starts, the panel selects the app, clears the previous answer and shows it as analysing |
| AppManager.AnalyzeErrorUsesLastError | components/AppManager.tsx:22-29 | For an ERROR app and a feed with an ERROR entry, the request is that entry's message, and no later entry is ERROR |
| AppManager.AnalysisIgnoresApp | components/AppManager.tsx:22-29 | Any two ERROR apps are analysed with the same message |
| AppManager.AnalysisAfterRejection | components/AppManager.tsx:22-29 | After a complete run that rejected a package, analysing any app in ERROR requests analysis of "FATAL: 7-Zip upload rejected. 401 Unauthorized." |
| AppManager.AnalysisRound | components/AppManager.tsx:22-31 | A whole round for an ERROR app with an ERROR entry in the feed ends with the app selected, the answer held and analysing off. The panel shows the answer exactly when it is not empty, as the condition at components/AppManager.tsx:177 requires |
| AppManager.BadgeLabel | components/AppManager.tsx:34-41 | The badge is one of five labels: DEPLOYED exactly for SUCCESS, FAILED exactly for ERROR, PACKING exactly for PACKAGING, UPLOADING exactly for UPLOADING, and QUEUED exactly for IDLE |
| AppManager.BadgeLabelInjective | components/AppManager.tsx:34-41 | Distinct statuses show distinct badges, so the badge identifies the status |

## Left out

- Rendering, CSS, the theme toggle, tab navigation (including the switch to the APPS tab in `startUpload`), the login screen and the settings page: presentation or external plumbing with no logic to model.
- The 600 ms timer and React scheduling. Firings are explicit sequential steps. The stale `apps`/`logs` closures of `startUpload`, the `setLogs` call made from inside the `setApps` updater, and overlapping intervals from re-entering `startUpload` are not modelled. Within one firing the entries are appended in the order chatter, rejections, completion.
- Randomness: whether a firing logs the "Packaging stream" chatter, and its numeric tag, are part of each firing's input (`Driver.TickInput`).
- The clock: entry ids and timestamps come from a `Stamp` input and are opaque. All entries of one firing share that firing's stamp, whereas the source reads the clock once per entry. Nothing is claimed about id uniqueness or time order.
- The external generative-AI service (script generation and log analysis) and the configuration service. Analysis is modelled up to the request it issues (`AppManager.AnalyzeError`); the answer is an input to `AppManager.CompleteAnalysis`. Overlapping analyses, where a second request starts before the first answer arrives, are not modelled. The AI assistant's prompt guard, clipboard use and HTML highlighting are not modelled.
- Driver.StepAdvancesProgress: strict growth of in-flight progress is proved only for runs started while nothing is in flight (`Driver.StartUploadSynced`). The button guard ensures this. Without it, an app already PACKAGING at, say, 50 would drop to 10 on the first firing.
