# A verified model of a client-side video-clipping app

The app takes an uploaded video, "detects" candidate clips, lets the user trim and
style them, and "exports" them through a simulated job queue into a list of
downloadable records. A browser key-value store persists that list, along with
the dashboard's projects, statistics and settings. Every service in the app is
simulated with random numbers, timers and that store. This project models the
logic behind those simulations in Dafny and proves properties of the model:

- the export job queue and its processing driver (`ExportQueue`);
- the exported-record store (`ExportStorage`) over a modelled key-value store (`Storage`);
- the clip generators and time formatters (`ClipDetection`, `ClipUtils`, `ClipDraws`, `TimeText`);
- the project, statistics and settings store behind the dashboard (`DashboardData`);
- keyboard-shortcut matching with its clamped seek and volume (`KeyboardShortcuts`);
- the handler logic of the interactive components (trim modal, both timelines,
  editor preview and tabs, export modals, upload zone and preview, downloads and
  settings pages, project grid, processing screen, onboarding tour, clip results grid);
- the constant tables for export presets, platforms and caption styles
  (`ExportTypes`, `EditorTypes`, `ClipTypes`, `DashboardTypes`).

Randomness, the clock and user input become parameters: a random draw is a
`real` in [0, 1), and `Date.now()` is an integer of milliseconds. Timers become
explicit events (`Tick`, `Complete`, `FireCompletion`). JavaScript numbers are
`real`. `Math.round(x)` is `Floor(x + 0.5)`. `%` truncates toward zero, as in
JavaScript. `toString(radix)`, `padStart` and `toFixed(1)` are written out in the
module `Js`, and the array sort is a stable insertion sort on sequences (`Sorting`).
A processing step's `label` is the field `labelText`, because `label` is a Dafny keyword. State that a hook or component keeps in React state is the field of a `class`,
and each handler is a method stating the whole new state. The pure rules
behind each handler are functions, with lemmas relating them to one another.

## Model

| member | source | states |
|---|---|---|
| ExportQueue.PlatformTags | src/hooks/useExportQueue.ts:157-162 | the platform tag table has an entry for exactly the four platforms, each holding four tags |
| ExportQueue.GenerateHashtags | src/hooks/useExportQueue.ts:155-165 | the result holds 4 to 8 tags; it starts with the four base tags, followed by the platform's own tags, and is exactly the base tags for a missing or unknown platform |
| ExportQueue.JobIdInjective | src/hooks/useExportQueue.ts:88 | two ids `export-<clipId>-<ms>` are equal exactly when both the clip ids and the clock readings are |
| ExportQueue.NewJobs | src/hooks/useExportQueue.ts:87-97 | one job per clip, in clip order: queued, progress 0, 5 seconds remaining, with clip id, title, thumbnail and config copied, and its id and creation time from that clip's own clock readings |
| ExportQueue.NewJobIdsDistinct | src/hooks/useExportQueue.ts:87-97 | two jobs of a batch share an id exactly when their clips share an id and the clock read the same millisecond for both, so distinct clip ids always give distinct job ids |
| ExportQueue.FirstQueued | src/hooks/useExportQueue.ts:14 | finds the first queued job in list order, or reports that no job is queued |
| ExportQueue.MarkProcessing | src/hooks/useExportQueue.ts:20-24 | only jobs with the picked id become processing; every other job is unchanged |
| ExportQueue.TickProgress | src/hooks/useExportQueue.ts:31 | the progress shown by a tick is at most 99, and not negative once time has passed |
| ExportQueue.TickRemaining | src/hooks/useExportQueue.ts:32 | the remaining seconds are never negative, and are 0 once the drawn duration has elapsed |
| ExportQueue.TickMonotone | src/hooks/useExportQueue.ts:30-32 | as time passes, progress does not fall and remaining time does not rise |
| ExportQueue.SetProgress | src/hooks/useExportQueue.ts:34-40 | writes progress and remaining time into every job with that id, whatever its status; other jobs are unchanged |
| ExportQueue.CompletedJob | src/hooks/useExportQueue.ts:48-56 | the snapshot becomes complete with progress 100, no time remaining, a completion date and the download URL; its other fields are kept |
| ExportQueue.ReplaceById | src/hooks/useExportQueue.ts:58-60 | every job with that id is replaced by the completed job, whatever its current status |
| ExportQueue.CancelJobs | src/hooks/useExportQueue.ts:105-113 | a queued or processing job with that id becomes failed with "Cancelled by user"; every other job is unchanged |
| ExportQueue.CancelSettles | src/hooks/useExportQueue.ts:105-113 | after a cancel no job with that id is active, and cancelling again changes nothing |
| ExportQueue.ClearCompleted | src/hooks/useExportQueue.ts:115-119 | exactly the queued and processing jobs are kept |
| ExportQueue.ClearCompletedKeepsOrder | src/hooks/useExportQueue.ts:115-119 | clearing keeps the kept jobs in their relative order: it distributes over joining two lists |
| ExportQueue.ClearCompletedIdempotent | src/hooks/useExportQueue.ts:115-119 | clearing twice is the same as clearing once |
| ExportQueue.PlatformBadges | src/hooks/useExportQueue.ts:68-70 | one badge: the platform when one is set, otherwise "Custom" |
| ExportQueue.Record | src/hooks/useExportQueue.ts:63-76 | the record copies the job's id, title and thumbnail, and carries the platform label, one badge (the platform, or "Custom" without one), the job's file size ("Unknown" when absent) and download URL (empty when absent), the share link for that id and the platform's hashtags |
| ExportQueue.CompletedClips | src/hooks/useExportQueue.ts:121-138 | one record per complete job, in job order |
| ExportQueue.ActiveXorComplete | src/hooks/useExportQueue.ts:146-151 | on a non-empty list, allComplete holds exactly when hasActiveJobs does not |
| ExportQueue.ExportQueue.constructor | src/hooks/useExportQueue.ts:7-9 | the queue starts with no jobs and is not processing |
| ExportQueue.ExportQueue.AddToQueue | src/hooks/useExportQueue.ts:85-103 | the new jobs are appended after every existing job, which is left untouched |
| ExportQueue.ExportQueue.ProcessNext | src/hooks/useExportQueue.ts:13-24 | nothing starts while a job is in flight or none is queued; otherwise the first queued job becomes processing and is remembered with its drawn duration of 3000 to 5000 ms |
| ExportQueue.ExportQueue.Tick | src/hooks/useExportQueue.ts:29-41 | a tick writes the in-flight job's progress and remaining time by id, and does nothing when no job is in flight |
| ExportQueue.ExportQueue.Complete | src/hooks/useExportQueue.ts:44-79 | completion replaces the job by id with the completed snapshot stamped with the first clock reading, adds its record, dated by the second reading, first in the store, saves the list under its key with every other key unchanged, and clears the processing flag |
| ExportQueue.ExportQueue.Cancel | src/hooks/useExportQueue.ts:105-113 | the job list becomes its cancelled rewrite |
| ExportQueue.ExportQueue.ClearCompletedJobs | src/hooks/useExportQueue.ts:115-119 | the job list keeps only its active jobs |
| ExportQueue.CancelledJobResurrected | src/hooks/useExportQueue.ts:48-60 | as written, a job cancelled while in flight ends up complete |
| ExportQueue.TickAfterCancel | src/hooks/useExportQueue.ts:34-40 | as written, a tick changes the progress of a job that has already been cancelled |
| ExportQueue.ReplaceIfProcessing | src/hooks/useExportQueue.ts:58-60 | the status-checked completion leaves complete and failed jobs unchanged, and replaces a processing job with that id |
| ExportQueue.ProgressIfProcessing | src/hooks/useExportQueue.ts:34-40 | the status-checked tick leaves complete and failed jobs unchanged |
| ExportQueue.StartIfQueued | src/hooks/useExportQueue.ts:20-24 | the status-checked start leaves complete and failed jobs unchanged |
| ExportQueue.GuardedTerminalStable | src/hooks/useExportQueue.ts:20-119 | with status-checked writes, no event changes a complete or failed job; only clearing removes it |
| ExportQueue.GuardedCancelSticks | src/hooks/useExportQueue.ts:48-77 | with status-checked writes, finishing a job that was cancelled changes no job and stores no record |
| Storage.LocalStorage.constructor | src/hooks/useExportStorage.ts:12 | the key-value store starts empty |
| Storage.LocalStorage.GetItem | src/hooks/useExportStorage.ts:12-13 | a read finds a value exactly when the key is present, and that value is the stored one |
| Storage.LocalStorage.SetItem | src/hooks/useExportStorage.ts:30 | a write sets one key and leaves every other key as it was |
| Storage.LocalStorage.RemoveItem | src/hooks/useExportStorage.ts:54 | a removal deletes one key and leaves every other key as it was |
| Storage.ClipsToJson | src/hooks/useExportStorage.ts:30 | serialising maps each record in order, with its date written as text |
| Storage.ClipsFromJson | src/hooks/useExportStorage.ts:16-19 | rehydrating maps each stored record in order, with its date read back from text |
| Storage.ClipsRoundTrip | src/hooks/useExportStorage.ts:16-30 | reading back what was written gives the same records, dates included |
| Storage.ProjectsToJson | src/hooks/useDashboardData.ts:81 | serialising maps each project in order, with its upload date written as text |
| Storage.ProjectsFromJson | src/hooks/useDashboardData.ts:36-39 | rehydrating maps each stored project in order, with its upload date read back from text |
| Storage.ProjectsRoundTrip | src/hooks/useDashboardData.ts:36-39 | reading back the saved projects gives the same projects, dates included |
| ExportStorage.LoadedClips | src/hooks/useExportStorage.ts:10-25 | a stored record list is loaded with its dates rehydrated; a missing or unreadable entry leaves the list as it was |
| ExportStorage.SaveThenLoad | src/hooks/useExportStorage.ts:10-34 | loading right after a save gives back exactly the saved records |
| ExportStorage.ClipsByPlatform | src/hooks/useExportStorage.ts:57-59 | a record is kept exactly when its platform is the one asked for |
| ExportStorage.ClipsByDateRange | src/hooks/useExportStorage.ts:61-66 | a record is kept exactly when its export date lies in the closed range |
| ExportStorage.ExportStore.constructor | src/hooks/useExportStorage.ts:7 | the store starts with no records |
| ExportStorage.ExportStore.Load | src/hooks/useExportStorage.ts:10-25 | the records become what was loaded from the key |
| ExportStorage.ExportStore.SaveToStorage | src/hooks/useExportStorage.ts:28-34 | the whole list is written under the one key, and no other key changes |
| ExportStorage.ExportStore.Add | src/hooks/useExportStorage.ts:36-42 | the record goes first, newest first, and the whole new list is saved |
| ExportStorage.ExportStore.Remove | src/hooks/useExportStorage.ts:44-50 | every record with that id goes, the rest keep their order, and the new list is saved |
| ExportStorage.ExportStore.ClearAll | src/hooks/useExportStorage.ts:52-55 | the list empties and the key is deleted |
| Js.Floor | src/utils/clipDetection.ts:19 | `Math.floor`: the greatest integer not above the argument |
| Js.Round | src/utils/clipDetection.ts:49 | `Math.round`: the integer within half a unit, halves rounding up |
| Js.Trunc | src/utils/clipDetection.ts:67 | truncation toward zero: the floor for non-negative numbers and minus the floor of the negation otherwise |
| Js.Rem | src/utils/clipDetection.ts:67 | `%` on numbers: for a non-negative dividend and a positive divisor, the remainder below the divisor left by flooring |
| Js.Decimal | src/utils/clipDetection.ts:68 | `toString()` of a whole number: a non-empty run of decimal digits, one digit exactly below 10 |
| Js.DecimalInjective | src/utils/clipUtils.ts:58-61 | different whole numbers are written differently |
| Js.PadStart | src/utils/clipDetection.ts:68 | `padStart`: the text ends the padded result, the fill character fills the rest, and the length is the larger of the width and the text's length |
| Js.Fixed1 | src/hooks/useExportQueue.ts:54 | `toFixed(1)`: one digit after the point, and for a non-negative number the digits read as the number times ten, rounded |
| Js.Lower | src/pages/Downloads.tsx:53 | `toLowerCase` on letters A to Z, character by character, keeping the length |
| Js.Clamp | src/components/editor/EditorVideoPreview.tsx:87 | `Math.max(lo, Math.min(hi, x))`: inside [lo, hi] when lo ≤ hi, and the number itself when it already lies there |
| Js.Toggle | src/components/export/ExportConfigModal.tsx:60-66 | the toggle idiom removes a present id and appends an absent one, leaving every other id's membership unchanged |
| Js.ToggleTwice | src/components/export/ExportConfigModal.tsx:60-66 | toggling keeps an id list free of duplicates, and toggling twice restores membership for every id, and the list itself when the id was absent |
| Js.Filter | src/utils/clipDetection.ts:62 | `filter`: the kept elements are exactly those of the input passing the test |
| Js.FilterAppend | src/pages/Downloads.tsx:51-55 | `filter` keeps relative order: it distributes over concatenation |
| Sorting.Insert | src/utils/clipDetection.ts:62 | one insertion step adds exactly the one element |
| Sorting.Sort | src/utils/clipDetection.ts:62 | the sorted list has the same elements with the same multiplicities |
| Sorting.SortSorted | src/utils/clipDetection.ts:62 | under a total comparator, the sort's result is in order and a permutation of its input |
| Sorting.SortedPairs | src/components/dashboard/ProjectGrid.tsx:40-53 | under a transitive comparator, neighbours in order means every pair is in order |
| Sorting.SortedFixed | src/components/dashboard/ProjectGrid.tsx:40-53 | sorting a list already in order leaves it unchanged |
| ClipDraws.RetryEndsAt | src/utils/clipDetection.ts:37-41 | every chosen title index is one the retry loop can stop at: unused unless all titles are used |
| ClipDraws.TitlesBeforeSize | src/utils/clipDetection.ts:21-41 | after `i` clips at most `i` title indices are in use |
| ClipDraws.ByStartTotal | src/utils/clipDetection.ts:62 | the start-time comparator is total and transitive |
| ClipDraws.SortKeepsDistinct | src/utils/clipDetection.ts:62 | sorting keeps ids and titles pairwise distinct |
| ClipDetection.TitleSuggestionsDistinct | src/utils/clipDetection.ts:3-16 | the twelve title suggestions are pairwise distinct |
| ClipDetection.NumClips | src/utils/clipDetection.ts:19 | between five and eight clips, and one per 30 seconds of video strictly between those bounds |
| ClipDetection.MockClipFacts | src/utils/clipDetection.ts:26-58 | each clip's id is `clip-<i+1>` with the chosen title; it starts in [0, max(0, d-60)] and ends at the earlier of the video's end and its drawn length; for a positive duration it ends after it starts, inside the video; the score lies in [45, 98], and `selected` holds exactly when the score exceeds 70 |
| ClipDetection.Generated | src/utils/clipDetection.ts:26-59 | the loop pushes one clip per index, and there are NumClips of them |
| ClipDetection.GeneratedDistinct | src/utils/clipDetection.ts:37-52 | before sorting, ids and titles are pairwise distinct (at most eight clips draw from twelve titles) |
| ClipDetection.GenerateMockClips | src/utils/clipDetection.ts:18-63 | 5 to 8 clips, sorted by start time, a permutation of the generated ones, every clip placed and scored as above, with distinct ids and titles |
| ClipDetection.SortedClips | src/utils/clipDetection.ts:62 | sorting keeps the count, the per-clip facts and distinctness, and orders by start time |
| ClipDetection.SortedClipsPlaced | src/utils/clipDetection.ts:62 | every sorted clip is placed and scored as above |
| ClipDetection.GeneratedPlaced | src/utils/clipDetection.ts:26-59 | every generated clip is placed and scored as above |
| ClipDetection.SortedClipsDistinct | src/utils/clipDetection.ts:62 | sorted clips keep distinct ids and titles |
| ClipDetection.FormatTimestamp | src/utils/clipDetection.ts:65-69 | for a time in [0, 6000) the text is five characters with a colon in the middle; for any non-negative time its two groups read back as the whole minutes and the whole seconds under a minute |
| ClipDetection.FormatDuration | src/utils/clipDetection.ts:71-80 | below a rounded minute the text is the rounded seconds followed by " seconds"; from a minute on it is `Xm Ys` with whole minutes X ≥ 1 and seconds Y < 60 such that 60·X + Y is the rounded length |
| ClipDetection.ScoreColor | src/utils/clipDetection.ts:82-86 | each colour holds exactly on its band: 80 and over, 60 to 80, below 60 |
| ClipDetection.ScoreLabel | src/utils/clipDetection.ts:88-93 | each label holds exactly on its band: 85 and over, 70 to 85, 55 to 70, below 55 |
| ClipDetection.ScoreStepsMonotone | src/utils/clipDetection.ts:82-93 | a higher score never gets a lower label or colour |
| ClipUtils.FormatTimestamp | src/utils/clipUtils.ts:3-7 | for a non-negative time the minutes are written unpadded before the colon, and the two groups read back as the whole minutes and whole seconds |
| ClipUtils.FormatDuration | src/utils/clipUtils.ts:9-17 | below a rounded minute the text is the rounded seconds followed by " seconds"; otherwise it shows whole minutes m ≥ 1 and seconds s < 60 with m·60+s equal to the rounded length, as `M minute(s)` when s is zero |
| ClipUtils.AfterLast | src/utils/clipUtils.ts:61 | the text after the last mark is a suffix of the input with no mark in it |
| ClipUtils.AfterLastMark | src/utils/clipUtils.ts:61 | the number after ` #` is recovered from a numbered title |
| ClipUtils.NumberedTitlesDistinct | src/utils/clipUtils.ts:61 | titles with different numbers differ, whatever their templates |
| ClipUtils.MaxStart | src/utils/clipUtils.ts:40 | the latest start is never negative |
| ClipUtils.StartTime | src/utils/clipUtils.ts:41 | the start lies in [0, maxStart] |
| ClipUtils.Clamp | src/utils/clipUtils.ts:62-63 | the stored score lies in [45, 99], exceeds 70 exactly when the raw score does, and equals the raw score when that is already in range |
| ClipUtils.GeneratedClipFacts | src/utils/clipUtils.ts:38-64 | each clip's id is `clip-<i+1>` and its title is the template numbered `#<i+1>`; the drawn duration lies in [15, 60); the clip starts in [0, maxStart], ends at the earlier of its drawn end and the video's end, and when the video has room keeps its full length and ends ten seconds or more before the video does; the score lies in [45, 99], and `selected` holds exactly when it exceeds 70 |
| ClipUtils.Generated | src/utils/clipUtils.ts:38-65 | the loop pushes exactly `count` clips |
| ClipUtils.GeneratedPlaced | src/utils/clipUtils.ts:38-65 | every generated clip is placed and scored as above |
| ClipUtils.GeneratedDistinct | src/utils/clipUtils.ts:58-61 | ids and titles are pairwise distinct, because both carry the clip's number, even once more than ten clips exhaust the templates |
| ClipUtils.GenerateClips | src/utils/clipUtils.ts:32-69 | `count` clips sorted by start time, a permutation of the generated ones, every clip placed and scored as above, with distinct ids and titles |
| ClipUtils.SortedClips | src/utils/clipUtils.ts:68 | sorting keeps the count, the per-clip facts and distinctness, and orders by start time |
| TimeText.MinutesSeconds | src/utils/clipDetection.ts:66-67 | a non-negative time has non-negative whole minutes and whole seconds below 60, seconds that truncation and flooring agree on, and fewer than 100 minutes below 6000 seconds |
| TimeText.PaddedClock | src/utils/clipDetection.ts:68 | two padded numbers around a colon read back as those numbers, and take five characters below 100 minutes |
| TimeText.ClockReads | src/utils/clipUtils.ts:6 | a minute text and a seconds text around a colon read back as their numbers |
| TimeText.TwoDigits | src/utils/clipUtils.ts:6 | a number padded to two digits reads back as itself |
| TimeText.DecimalShort | src/utils/clipDetection.ts:68 | a number below 100 takes at most two digits |
| ExportTypes.PlatformPresets | src/types/export.ts:53-78 | every preset is MP4; LinkedIn's quality is medium and every other platform's is high; each preset's aspect ratio and maximum duration equal the platform's entry in the platform table |
| EditorTypes.PlatformOfKey | src/types/clipEditor.ts:61-66 | a key names a platform exactly when it is that platform's key |
| EditorTypes.PlatformKeyRoundTrip | src/types/clipEditor.ts:61-66 | every platform has its own key, and reading the key back gives the platform |
| EditorTypes.PlatformSpecs | src/types/clipEditor.ts:61-66 | every duration limit is positive, and only LinkedIn is square (1:1) while the others are 9:16 |
| EditorTypes.CaptionStylePresets | src/types/clipEditor.ts:68-97 | every preset's font size lies in [12, 48] and its background opacity in [0, 1] |
| EditorTypes.DefaultsMatchTables | src/types/clipEditor.ts:99-129 | the default platform settings are TikTok's spec with no hashtags, and the default captions are the minimal preset's five fields, switched off |
| DashboardTypes.MergeSettings | src/hooks/useDashboardData.ts:139-140 | each field an update supplies wins, and every other field is kept |
| DashboardTypes.MergeLaws | src/hooks/useDashboardData.ts:139-140 | merging the same update twice is merging once; an empty update changes nothing; an update supplying every field replaces the settings |
| DashboardTypes.MergeProject | src/hooks/useDashboardData.ts:110-112 | for each of the eight project fields, a supplied value wins and an absent one keeps the project's own; an empty update changes nothing |
| DashboardTypes.MergeProjectIdempotent | src/hooks/useDashboardData.ts:110-112 | merging the same update twice is merging it once |
| DashboardData.WeeklyActivity | src/hooks/useDashboardData.ts:10-16 | seven entries, Monday to Sunday, each with a whole number of clips in [0, 8) |
| DashboardData.Initial | src/hooks/useDashboardData.ts:19-27 | before the mount effect: no projects, zero counters, the default settings, and onboarding counted as complete |
| DashboardData.LoadState | src/hooks/useDashboardData.ts:31-67 | an unreadable project list stops the load with nothing changed; the onboarding flag changes only when every stored value parses; settings and counters change only to the stored ones, the counters with a fresh weekly activity |
| DashboardData.LoadParsed | src/hooks/useDashboardData.ts:31-67 | when every stored value parses, the onboarding flag is set exactly when the stored text is "true"; stored projects come back with their dates, stored settings replace the defaults, and stored counters come back with a fresh weekly activity |
| DashboardData.CorruptProjectsLoadNothing | src/hooks/useDashboardData.ts:31-67 | an unreadable project list aborts the whole effect, so nothing is loaded and onboarding stays counted as complete |
| DashboardData.SaveThenLoadProjects | src/hooks/useDashboardData.ts:80-83 | a saved project list is what the next mount loads |
| DashboardData.NewProject | src/hooks/useDashboardData.ts:86-91 | the new project has the id `project-<ms>` from the first clock reading, the upload date from the second, and every other field from the draft |
| DashboardData.NewProjectIdsDiffer | src/hooks/useDashboardData.ts:89 | projects created at different milliseconds get different ids |
| DashboardData.UpdateProjects | src/hooks/useDashboardData.ts:108-116 | every project with the id takes the merged update, and every other project is unchanged |
| DashboardData.UpdateMissingId | src/hooks/useDashboardData.ts:108-116 | an update for an id no project has changes nothing |
| DashboardData.DeleteProjects | src/hooks/useDashboardData.ts:118-124 | a project is kept exactly when its id differs |
| DashboardData.DeleteIdempotent | src/hooks/useDashboardData.ts:118-124 | deleting twice is deleting once |
| DashboardData.Increment | src/hooks/useDashboardData.ts:126-137 | clips created grow by the count and hours saved by a quarter hour per clip; the other counters are kept |
| DashboardData.IncrementAdds | src/hooks/useDashboardData.ts:126-137 | two increments add up to one increment by their sum |
| DashboardData.OnboardingPersists | src/hooks/useDashboardData.ts:145-153 | when the other keys parse, completing onboarding survives a reload, and so does resetting it |
| DashboardData.DashboardData.constructor | src/hooks/useDashboardData.ts:19-28 | the hook starts in the initial state |
| DashboardData.DashboardData.Load | src/hooks/useDashboardData.ts:31-67 | the state becomes what the mount effect loads from the store |
| DashboardData.DashboardData.SaveProjects | src/hooks/useDashboardData.ts:80-83 | the whole list is written under its key and becomes the projects; nothing else changes |
| DashboardData.DashboardData.AddProject | src/hooks/useDashboardData.ts:85-106 | the new project, built from the two clock readings, goes first, one more video is counted, and the list is saved |
| DashboardData.DashboardData.UpdateProject | src/hooks/useDashboardData.ts:108-116 | the projects become their update by id, and the list is saved |
| DashboardData.DashboardData.DeleteProject | src/hooks/useDashboardData.ts:118-124 | the projects lose every project with the id, and the list is saved |
| DashboardData.DashboardData.IncrementClipsCreated | src/hooks/useDashboardData.ts:126-137 | the counters are incremented and saved; nothing else changes |
| DashboardData.DashboardData.UpdateSettings | src/hooks/useDashboardData.ts:139-143 | the settings become the shallow merge and are saved |
| DashboardData.DashboardData.CompleteOnboarding | src/hooks/useDashboardData.ts:145-148 | the flag is set and "true" is written under its key |
| DashboardData.DashboardData.ResetOnboarding | src/hooks/useDashboardData.ts:150-153 | the flag is cleared and its key deleted |
| KeyboardShortcuts.LowerIdempotent | src/hooks/useKeyboardShortcuts.ts:25 | lowering an already lowered key changes nothing |
| KeyboardShortcuts.MatchesExactly | src/hooks/useKeyboardShortcuts.ts:25-30 | an event matches exactly when the keys agree ignoring case, ctrl-or-meta is pressed exactly when the shortcut wants ctrl, and shift and alt each exactly when the shortcut wants them; lowering the event's key changes no match |
| KeyboardShortcuts.HandleKeyDown | src/hooks/useKeyboardShortcuts.ts:14-38 | nothing fires while typing in a text field; otherwise the first matching shortcut in list order fires, and none fires only when no shortcut matches |
| KeyboardShortcuts.VideoShortcutsUnambiguous | src/hooks/useKeyboardShortcuts.ts:54-132 | no event matches two of the video shortcuts |
| KeyboardShortcuts.Video.constructor | src/hooks/useKeyboardShortcuts.ts:47 | the video starts paused at time 0 with full, unmuted volume |
| KeyboardShortcuts.Perform | src/hooks/useKeyboardShortcuts.ts:58-130 | with a video present, play/pause flips paused; the seeks move five seconds, clamped to [0, duration]; the volume keys move by 0.1, clamped to [0, 1]; mute flips muted; fullscreen changes nothing tracked; each action changes nothing else; with no video, nothing happens |
| KeyboardShortcuts.ActionsClamp | src/hooks/useKeyboardShortcuts.ts:74-106 | the seeks keep the time in [0, duration] and the volume keys keep the volume in [0, 1] |
| KeyboardShortcuts.MuteTwice | src/hooks/useKeyboardShortcuts.ts:113-117 | muting twice restores the mute flag and changes nothing else |
| ClipPreviewModal.TrimModal.constructor | src/components/clips/ClipPreviewModal.tsx:18-28 | the trim range is the clip's, the video is put at its start, nothing is changed and nothing plays |
| ClipPreviewModal.TrimModal.TimeUpdate | src/components/clips/ClipPreviewModal.tsx:34-42 | the shown time follows the video; at or past the end the video goes back to the start and stops |
| ClipPreviewModal.TrimModal.TogglePlay | src/components/clips/ClipPreviewModal.tsx:48-60 | playing flips; starting play from outside [start, end) first puts the video at the start |
| ClipPreviewModal.TrimModal.AdjustStartTime | src/components/clips/ClipPreviewModal.tsx:62-69 | the start becomes the clamped new start, changes are flagged, and a video before the new start is moved to it |
| ClipPreviewModal.TrimModal.AdjustEndTime | src/components/clips/ClipPreviewModal.tsx:71-75 | the end becomes the clamped new end, and changes are flagged |
| ClipPreviewModal.TrimModal.ResetTrim | src/components/clips/ClipPreviewModal.tsx:77-84 | the range returns to the clip's, the change flag clears, and the video goes to the clip's start |
| ClipPreviewModal.TrimModal.Saved | src/components/clips/ClipPreviewModal.tsx:86-93 | the saved clip has the trimmed range and every other field of the original clip |
| ClipPreviewModal.TrimModal.HandleSeek | src/components/clips/ClipPreviewModal.tsx:95-101 | the slider value becomes both the video's time and the shown time |
| ClipPreviewModal.NewStart | src/components/clips/ClipPreviewModal.tsx:63 | the new start is never negative, leaves at least five seconds before an end of five or more, and is the requested start when that is within bounds |
| ClipPreviewModal.NewEnd | src/components/clips/ClipPreviewModal.tsx:72 | the new end lies five seconds or more after the start, is never before the requested end, and is the requested end when that is far enough |
| ClipPreviewModal.SaveUntouched | src/components/clips/ClipPreviewModal.tsx:86-93 | saving an untouched trim gives back the clip itself |
| ClipPreviewModal.StartMovesBack | src/components/clips/ClipPreviewModal.tsx:63 | moving the start and moving it back restores it when neither move meets a bound |
| Timeline.TimeFromPosition | src/components/timeline/VideoTimeline.tsx:32-42 | the time lies in [0, duration] for a non-negative duration, and is the cursor's share of the zoomed width times the duration whenever that already lies there |
| Timeline.NonZeroWidth | src/components/timeline/VideoTimeline.tsx:38 | a laid-out timeline with zoom at least 1 has a non-zero zoomed width |
| Timeline.Markers | src/components/timeline/VideoTimeline.tsx:103-106 | the markers are 0, interval, 2·interval, … up to the duration: each lies in [0, duration], the next one would pass the duration, and there is at least one exactly when the duration is not negative |
| Timeline.ProgressionAt | src/components/clips/VideoTimeline.tsx:89-91 | the j-th marker is j times the interval |
| ClipsTimeline.MarkerInterval | src/components/clips/VideoTimeline.tsx:88 | markers every 60 s above five minutes, every 15 s above one minute, and every 5 s otherwise |
| ClipsTimeline.ZoomIn | src/components/clips/VideoTimeline.tsx:123 | zooming in adds a half step up to 4, keeping a zoom on half steps in [1, 4] |
| ClipsTimeline.ZoomOut | src/components/clips/VideoTimeline.tsx:114 | zooming out takes a half step down to 1, keeping a zoom on half steps in [1, 4] |
| ClipsTimeline.ZoomRoundTrip | src/components/clips/VideoTimeline.tsx:114-123 | in then out restores a zoom below the top, and out then in restores a zoom above the bottom |
| ClipsTimeline.Normalised | src/components/clips/VideoTimeline.tsx:65-66 | the two drag ends ordered: start ≤ end, and the set of ends is the same |
| ClipsTimeline.ClipsTimeline.constructor | src/components/clips/VideoTimeline.tsx:26-29 | zoom 1 and no drag |
| ClipsTimeline.ClipsTimeline.Click | src/components/clips/VideoTimeline.tsx:41-45 | a click seeks to the cursor's time, on the timeline, unless a drag is in progress |
| ClipsTimeline.ClipsTimeline.MouseDown | src/components/clips/VideoTimeline.tsx:47-54 | with shift a drag starts with both ends at the cursor's time; without shift nothing changes |
| ClipsTimeline.ClipsTimeline.MouseMove | src/components/clips/VideoTimeline.tsx:56-61 | a drag's far end follows the cursor; otherwise nothing changes |
| ClipsTimeline.ClipsTimeline.MouseUp | src/components/clips/VideoTimeline.tsx:63-74 | a custom clip is produced exactly when a drag with both ends spans five seconds or more, and it is the ordered span; the drag always ends |
| ClipsTimeline.ClipsTimeline.ZoomInClick | src/components/clips/VideoTimeline.tsx:123 | the zoom becomes the zoomed-in value |
| ClipsTimeline.ClipsTimeline.ZoomOutClick | src/components/clips/VideoTimeline.tsx:114 | the zoom becomes the zoomed-out value |
| EditorTimeline.MarkerInterval | src/components/timeline/VideoTimeline.tsx:102 | markers every 60 s above five minutes, every 30 s above one minute, and every 10 s otherwise |
| EditorTimeline.ZoomIn | src/components/timeline/VideoTimeline.tsx:98 | zooming in multiplies by 1.5, up to 4, and stays at least 1 |
| EditorTimeline.ZoomOut | src/components/timeline/VideoTimeline.tsx:99 | zooming out divides by 1.5, down to 1, and stays at most 4 |
| EditorTimeline.ZoomRoundTrip | src/components/timeline/VideoTimeline.tsx:98-99 | in then out restores the zoom while the top is not hit |
| EditorTimeline.EditorTimeline.constructor | src/components/timeline/VideoTimeline.tsx:25-30 | zoom 1, no scrubbing, no selection and no hover |
| EditorTimeline.EditorTimeline.MouseDown | src/components/timeline/VideoTimeline.tsx:44-56 | shift starts a selection at the cursor without seeking; a plain press starts scrubbing and seeks to the cursor |
| EditorTimeline.EditorTimeline.MouseMove | src/components/timeline/VideoTimeline.tsx:58-67 | the hover follows the cursor; scrubbing seeks; a selection's far end follows the cursor; nothing else changes |
| EditorTimeline.EditorTimeline.MouseUp | src/components/timeline/VideoTimeline.tsx:69-81 | a clip is created exactly when a selection with both ends spans more than five seconds and a callback was given; every drag and selection ends |
| EditorTimeline.EditorTimeline.MouseLeave | src/components/timeline/VideoTimeline.tsx:83-88 | the hover goes and scrubbing stops; a selection stays |
| EditorTimeline.EditorTimeline.ZoomInClick | src/components/timeline/VideoTimeline.tsx:98 | the zoom becomes the zoomed-in value |
| EditorTimeline.EditorTimeline.ZoomOutClick | src/components/timeline/VideoTimeline.tsx:99 | the zoom becomes the zoomed-out value |
| EditorVideoPreview.Progress | src/components/editor/EditorVideoPreview.tsx:39-41 | 0 for a clip of zero or negative length; otherwise in [0, 100] while the time is inside the clip, 0 at its start and 100 at its end |
| EditorVideoPreview.ProgressBounds | src/components/editor/EditorVideoPreview.tsx:40 | a relative time inside a positive duration is a percentage in [0, 100] |
| EditorVideoPreview.SeekTime | src/components/editor/EditorVideoPreview.tsx:91-96 | a percentage in [0, 100] maps into [start, end] |
| EditorVideoPreview.Scale100 | src/components/editor/EditorVideoPreview.tsx:93 | a percentage in [0, 100] of a duration lies in [0, duration] |
| EditorVideoPreview.SeekThenProgress | src/components/editor/EditorVideoPreview.tsx:91-96 | the progress shown after seeking to a percentage is that percentage |
| EditorVideoPreview.SkipTime | src/components/editor/EditorVideoPreview.tsx:84-89 | a skip lands in [start, end], exactly where asked when that is inside |
| EditorVideoPreview.OverlaysExclusive | src/components/editor/EditorVideoPreview.tsx:113-152 | the hook and the title overlay never show together, and with the hook enabled the title shows only strictly between 3 and 5 seconds |
| EditorVideoPreview.VisibleEmojis | src/components/editor/EditorVideoPreview.tsx:185 | an emoji is shown exactly during the two seconds from its timestamp |
| EditorVideoPreview.AlphaSuffix | src/components/editor/EditorVideoPreview.tsx:175 | for an opacity in [0, 1], two lower-case hex digits that read back as the opacity times 255, rounded, a byte in [0, 255] |
| EditorVideoPreview.HexByte | src/components/editor/EditorVideoPreview.tsx:175 | a byte written in hex and padded to two digits is two hex digits that read back as the byte |
| EditorVideoPreview.BackgroundColor | src/components/editor/EditorVideoPreview.tsx:175 | the colour is followed by exactly the two alpha digits |
| EditorVideoPreview.Player.constructor | src/components/editor/EditorVideoPreview.tsx:43-47 | the video is put at the clip's start, not playing and not muted |
| EditorVideoPreview.Player.TimeUpdate | src/components/editor/EditorVideoPreview.tsx:53-63 | the shown time follows the video, and at or past the end the video wraps to the start |
| EditorVideoPreview.Player.TogglePlay | src/components/editor/EditorVideoPreview.tsx:70-82 | playing flips, and starting play from outside [start, end) first puts the video at the start |
| EditorVideoPreview.Player.Skip | src/components/editor/EditorVideoPreview.tsx:84-89 | the video moves to the clamped skip time |
| EditorVideoPreview.Player.HandleSeek | src/components/editor/EditorVideoPreview.tsx:91-96 | the video moves to the time of the slider's percentage |
| EditorVideoPreview.Player.ToggleMute | src/components/editor/EditorVideoPreview.tsx:98-103 | muting flips, and the video's flag follows |
| EditorVideoPreview.ControlsStayInRange | src/components/editor/EditorVideoPreview.tsx:84-96 | skipping and seeking both keep the time within the clip |
| ExportConfigModal.ApplyPreset | src/components/export/ExportConfigModal.tsx:50-58 | quality and format come from the platform's preset, the platform is set, and the caption option is kept |
| ExportConfigModal.PresetOverrides | src/components/export/ExportConfigModal.tsx:50-58 | a later preset wholly overrides an earlier one |
| ExportConfigModal.SelectedClips | src/components/export/ExportConfigModal.tsx:73 | a clip is listed exactly when its id is selected |
| ExportConfigModal.SelectedClipsIgnoresUnknown | src/components/export/ExportConfigModal.tsx:73 | selecting an id no clip has lists no more clips |
| ExportConfigModal.SameFilter | src/components/export/ExportConfigModal.tsx:73 | a filter test that agrees on every clip gives the same list |
| ExportConfigModal.Modal.constructor | src/components/export/ExportConfigModal.tsx:42-48 | the config starts at high quality, MP4, burned-in captions and no platform, and the selection is the one passed in |
| ExportConfigModal.Modal.PlatformPreset | src/components/export/ExportConfigModal.tsx:50-58 | the config becomes the preset applied to it |
| ExportConfigModal.Modal.ToggleClipSelection | src/components/export/ExportConfigModal.tsx:60-66 | the selection becomes its toggle |
| ExportConfigModal.Modal.HandleExport | src/components/export/ExportConfigModal.tsx:68-71 | nothing is exported exactly when the selection is empty; otherwise the selection and the config go out unchanged |
| ExportConfigModal.ToggleTwiceRestores | src/components/export/ExportConfigModal.tsx:60-66 | toggling one id twice restores every id's membership, and restores the list itself when the id was absent; the config does not change |
| ExportProcessingModal.StatusCount | src/components/export/ExportProcessingModal.tsx:28-30 | a status count is at most the number of jobs |
| ExportProcessingModal.CountsPartition | src/components/export/ExportProcessingModal.tsx:28-30 | the queued, processing, complete and failed counts add up to the number of jobs |
| ExportProcessingModal.CountZero | src/components/export/ExportProcessingModal.tsx:28-30 | a status count is 0 exactly when no job has that status |
| ExportProcessingModal.ProgressSumBounds | src/components/export/ExportProcessingModal.tsx:31-33 | when every progress lies in [0, 100], their sum lies in [0, 100 times the job count] |
| ExportProcessingModal.TotalProgress | src/components/export/ExportProcessingModal.tsx:31-33 | 0 with no jobs; otherwise the rounded mean progress, which lies in [0, 100] when every progress does |
| ExportProcessingModal.MeanBounds | src/components/export/ExportProcessingModal.tsx:32 | a sum within [0, 100·n] over n gives a mean in [0, 100] |
| ExportProcessingModal.UniformProgress | src/components/export/ExportProcessingModal.tsx:31-33 | when every job shows the same progress, the total shows it too |
| ExportProcessingModal.MeanOfUniform | src/components/export/ExportProcessingModal.tsx:32 | n equal values average to that value |
| ExportProcessingModal.AllDoneCounts | src/components/export/ExportProcessingModal.tsx:35 | all jobs are done exactly when the complete and failed counts make up every job |
| ExportProcessingModal.CloseRequest | src/components/export/ExportProcessingModal.tsx:64 | a close request is honoured exactly when every job is complete or failed |
| ExportProcessingModal.CanCancel | src/components/export/ExportProcessingModal.tsx:117 | cancel is offered exactly for queued and processing jobs |
| ExportProcessingModal.StatusText | src/components/export/ExportProcessingModal.tsx:50-61 | a queued job shows "Queued" and a complete one "Complete"; a failed job shows its error when it has a non-empty one and "Failed" otherwise; a processing job's text starts with its progress and "% - " |
| PlatformTab.SuggestedHashtags | src/components/editor/PlatformTab.tsx:22-27 | each platform suggests five distinct tags, each starting with "#" |
| PlatformTab.SelectPlatform | src/components/editor/PlatformTab.tsx:32-40 | the platform is set, aspect ratio and maximum duration come from the platform table, and the hashtags are kept |
| PlatformTab.AsTag | src/components/editor/PlatformTab.tsx:44 | the tag starts with "#": the input itself when it already does, otherwise the input behind a "#" |
| PlatformTab.AsTagIdempotent | src/components/editor/PlatformTab.tsx:44 | normalising a tag twice is normalising it once |
| PlatformTab.AddTag | src/components/editor/PlatformTab.tsx:45-50 | a tag already present leaves the list as it is, and an absent one is appended; the list then holds exactly the old tags and the new one, and stays free of duplicates |
| PlatformTab.RemoveTag | src/components/editor/PlatformTab.tsx:55-60 | exactly the other tags are kept |
| PlatformTab.RemoveUndoesAdd | src/components/editor/PlatformTab.tsx:45-60 | removing a tag just added to a list without it gives back the list |
| PlatformTab.SelectPlatformValidity | src/components/editor/PlatformTab.tsx:32-40 | after selecting a platform, the duration is valid exactly when it is within that platform's limit (60 s for YouTube) |
| PlatformTab.Tab.constructor | src/components/editor/PlatformTab.tsx:30 | the tab starts with the given settings and an empty input |
| PlatformTab.Tab.SetInput | src/components/editor/PlatformTab.tsx:30 | the input holds the typed text |
| PlatformTab.Tab.Select | src/components/editor/PlatformTab.tsx:32-40 | the settings become the selected platform's |
| PlatformTab.Tab.AddHashtag | src/components/editor/PlatformTab.tsx:42-53 | a blank input changes nothing; otherwise the normalised tag is added unless already present, and the input is cleared either way |
| PlatformTab.Tab.RemoveHashtag | src/components/editor/PlatformTab.tsx:55-60 | the hashtags lose the tag; nothing else changes |
| PlatformTab.Tab.AddSuggestedHashtag | src/components/editor/PlatformTab.tsx:62-69 | the suggested tag is added unless already present; nothing else changes |
| PlatformTab.EditsKeepNoDup | src/components/editor/PlatformTab.tsx:32-69 | adding a typed or suggested tag, removing a tag and selecting a platform all keep the hashtag list free of duplicates |
| CaptionsTab.ApplyPreset | src/components/editor/CaptionsTab.tsx:28-35 | the style and its five preset fields are set; enabled, position and text are kept |
| CaptionsTab.PresetOverrides | src/components/editor/CaptionsTab.tsx:28-35 | a later preset wholly overrides an earlier one |
| CaptionsTab.SetEnabled | src/components/editor/CaptionsTab.tsx:45-48 | the switch sets `enabled` and nothing else |
| CaptionsTab.SetPosition | src/components/editor/CaptionsTab.tsx:73-77 | the position select sets the position and nothing else |
| CaptionsTab.SetFontSize | src/components/editor/CaptionsTab.tsx:98-104 | the font size is the slider value, in [12, 48] on the slider, and nothing else changes |
| CaptionsTab.SetOpacity | src/components/editor/CaptionsTab.tsx:144-155 | the opacity is the slider value over 100, in [0, 1] on the slider, and nothing else changes |
| CaptionsTab.OpacityLabelShowsSlider | src/components/editor/CaptionsTab.tsx:144-155 | the percentage label shows the slider value just set |
| CaptionsTab.PresetsOnSliders | src/components/editor/CaptionsTab.tsx:28-35 | every preset puts the font size at a whole slider position in [12, 48] and the opacity label in [0, 100] |
| VisualTab.EmojiId | src/components/editor/VisualTab.tsx:28 | `emoji-` followed by the clock's milliseconds |
| VisualTab.ZoomId | src/components/editor/VisualTab.tsx:51 | `zoom-` followed by the clock's milliseconds |
| VisualTab.EmojiPosition | src/components/editor/VisualTab.tsx:31-34 | both coordinates lie in [20, 80) |
| VisualTab.AddEmoji | src/components/editor/VisualTab.tsx:26-40 | exactly one reaction is appended, at the current time, with the clock's id and the selected emoji; nothing else changes |
| VisualTab.RemoveEmoji | src/components/editor/VisualTab.tsx:42-47 | exactly the reactions with other ids are kept; nothing else changes |
| VisualTab.RemoveUndoesAddEmoji | src/components/editor/VisualTab.tsx:26-47 | removing a reaction just added, when no earlier one has its id, gives back the settings |
| VisualTab.SameMillisecondRemovesBoth | src/components/editor/VisualTab.tsx:28-47 | two reactions added in the same millisecond share an id, so removing one removes both |
| VisualTab.AddZoomEffect | src/components/editor/VisualTab.tsx:49-60 | exactly one 1.3x zoom is appended, from the current time until two seconds later or the clip's end, whichever comes first; nothing else changes |
| VisualTab.RemoveZoomEffect | src/components/editor/VisualTab.tsx:150-155 | exactly the zoom effects with other ids are kept; nothing else changes |
| VisualTab.ZoomInsideClip | src/components/editor/VisualTab.tsx:49-60 | a zoom added inside the clip ends after it starts and within the clip |
| VisualTab.SetProgressBar | src/components/editor/VisualTab.tsx:119 | the progress-bar position is set and nothing else |
| VideoUploadZone.TooLargeMessage | src/components/upload/VideoUploadZone.tsx:37 | the message names the 500 MB limit |
| VideoUploadZone.ValidateFile | src/components/upload/VideoUploadZone.tsx:14-40 | a file passes exactly when its type is MP4, QuickTime or AVI and its size is at most 500·1024·1024 bytes; the type is checked first, so a file failing both reports the format |
| VideoUploadZone.Step | src/components/upload/VideoUploadZone.tsx:47 | one tick adds between 5 and 20 |
| VideoUploadZone.RunAdvances | src/components/upload/VideoUploadZone.tsx:46-56 | the counter reaches 100 or grows by at least 5 per tick, and never passes 100 from below |
| VideoUploadZone.FinishesWithinTwenty | src/components/upload/VideoUploadZone.tsx:46-56 | twenty ticks from 0 always reach 100 |
| VideoUploadZone.RunSnoc | src/components/upload/VideoUploadZone.tsx:46-56 | one more tick continues the run from where it stood |
| VideoUploadZone.UploadZone.constructor | src/components/upload/VideoUploadZone.tsx:23-28 | idle, no progress, no file, no error, no timers |
| VideoUploadZone.UploadZone.HandleFile | src/components/upload/VideoUploadZone.tsx:43-66 | a rejected file shows its error and no file; an accepted one starts uploading from 0 with a new timer |
| VideoUploadZone.UploadZone.Tick | src/components/upload/VideoUploadZone.tsx:46-56 | a running timer advances its counter; on reaching 100 it stops, sets success at 100 and reports its file; a stopped timer does nothing |
| VideoUploadZone.UploadZone.HandleDrop | src/components/upload/VideoUploadZone.tsx:68-74 | with no file the zone goes idle and nothing else changes; a rejected file shows its error, no file, and keeps the progress and timers; an accepted one starts uploading from 0 with no error and a new timer |
| VideoUploadZone.UploadZone.DragOver | src/components/upload/VideoUploadZone.tsx:76-79 | the zone shows dragging |
| VideoUploadZone.UploadZone.DragLeave | src/components/upload/VideoUploadZone.tsx:81-84 | the zone goes idle |
| VideoUploadZone.UploadZone.Reset | src/components/upload/VideoUploadZone.tsx:95-105 | status, progress, file and error return to their initial values |
| VideoUploadZone.UploadCompletes | src/components/upload/VideoUploadZone.tsx:42-66 | an accepted file ends in success at 100 and is reported once, within twenty ticks of its timer |
| VideoPreview.Hms | src/components/upload/VideoPreview.tsx:20-22 | hours, minutes below 60 and seconds below 60 that make up the whole seconds of a non-negative time |
| VideoPreview.MinuteParts | src/components/upload/VideoPreview.tsx:21-22 | the minutes and seconds computed with `%` are the remainders of the whole seconds |
| VideoPreview.FormatDuration | src/components/upload/VideoPreview.tsx:19-28 | for a non-negative time: from one hour on, `h:mm:ss` reading back as its hours, minutes and seconds; below an hour, `m:ss` reading back as its minutes and seconds |
| VideoPreview.HoursText | src/components/upload/VideoPreview.tsx:25 | `h:mm:ss` reads back as its three numbers |
| VideoPreview.HoursReads | src/components/upload/VideoPreview.tsx:25 | an hour text and a clock text around a colon read back as their numbers |
| VideoPreview.MinutesText | src/components/upload/VideoPreview.tsx:27 | `m:ss` reads back as its two numbers |
| VideoPreview.FormatFileSize | src/components/upload/VideoPreview.tsx:30-35 | below one mebibyte the size in KB, from there in MB, each to one decimal that reads back as the rounded tenths |
| VideoPreview.FileFormat | src/components/upload/VideoPreview.tsx:37-44 | the three video types map to MP4, MOV and AVI, and "Unknown" shows exactly for other types |
| VideoPreview.AcceptedFilesHaveFormat | src/components/upload/VideoPreview.tsx:37-44 | every file the upload zone accepts shows a known format |
| VideoPreview.Player.constructor | src/components/upload/VideoPreview.tsx:48-50 | not playing, not muted, at time 0 |
| VideoPreview.Player.TimeUpdate | src/components/upload/VideoPreview.tsx:77-82 | the shown time follows the video |
| VideoPreview.Player.TogglePlay | src/components/upload/VideoPreview.tsx:84-93 | playing flips |
| VideoPreview.Player.ToggleMute | src/components/upload/VideoPreview.tsx:95-100 | muting flips, and the video's flag follows |
| VideoPreview.Player.HandleSeek | src/components/upload/VideoPreview.tsx:102-107 | the slider value becomes both the video's time and the shown time |
| VideoPreview.MuteTwice | src/components/upload/VideoPreview.tsx:95-100 | muting twice restores the flag and changes nothing else |
| Downloads.FilteredClips | src/pages/Downloads.tsx:51-55 | a record is shown exactly when its lower-cased title contains the lower-cased query and the filter is "all" or its platform, in store order |
| Downloads.NoFilterShowsAll | src/pages/Downloads.tsx:51-55 | an empty query with the "all" filter shows every record |
| Downloads.Unique | src/pages/Downloads.tsx:58 | `new Set` keeps each value once and loses none |
| Downloads.UniqueAfter | src/pages/Downloads.tsx:58 | adding values after a duplicate-free prefix keeps the prefix and adds each new value once |
| Downloads.Platforms | src/pages/Downloads.tsx:58 | each platform present among the records is listed exactly once |
| Downloads.PlatformsOf | src/pages/Downloads.tsx:58 | the platforms listed are exactly those of the records |
| Downloads.DownloadTargets | src/pages/Downloads.tsx:73-78 | with a selection, the shown records that are selected; without one, every shown record |
| Downloads.FilterFilter | src/pages/Downloads.tsx:73-78 | filtering twice is filtering once by both tests |
| Downloads.Without | src/pages/Downloads.tsx:80-95 | a record is kept exactly when its id is not among the removed ids |
| Downloads.WithoutOneMore | src/pages/Downloads.tsx:86-95 | removing one more id after a batch is removing the longer batch |
| Downloads.WithoutNothing | src/pages/Downloads.tsx:86-95 | removing no ids keeps every record |
| Downloads.DownloadsPage.constructor | src/pages/Downloads.tsx:40-45 | no query, the "all" filter and no selection |
| Downloads.DownloadsPage.Shown | src/pages/Downloads.tsx:51-55 | every record shown is in the store |
| Downloads.DownloadsPage.ToggleClipSelection | src/pages/Downloads.tsx:60-66 | the selection becomes its toggle |
| Downloads.DownloadsPage.DownloadAll | src/pages/Downloads.tsx:73-78 | the records downloaded are the download targets of the shown records |
| Downloads.DownloadsPage.Delete | src/pages/Downloads.tsx:80-84 | the record leaves the store, which is saved under its key with every other key unchanged, and its id leaves the selection |
| Downloads.DownloadsPage.DeleteAll | src/pages/Downloads.tsx:86-95 | with a selection, exactly the selected records leave the store, which is saved under its key with every other key unchanged; without one, the store is emptied and its key deleted; the selection ends empty |
| Downloads.RemoveEach | src/pages/Downloads.tsx:88-90 | removing the ids one by one removes exactly the records with those ids, and the store ends saved under its key with every other key unchanged |
| SettingsPage.ToggleCaptionStyle | src/pages/Settings.tsx:59-65 | the favourite styles become their toggle, and nothing else changes |
| SettingsPage.TogglePlatform | src/pages/Settings.tsx:67-73 | the preferred platforms become their toggle, and nothing else changes |
| SettingsPage.ToggleStyleTwice | src/pages/Settings.tsx:59-65 | ticking a style twice keeps the same favourites, and the same list when the style was unticked |
| SettingsPage.StoragePercentage | src/pages/Settings.tsx:75 | never above 100; twice the megabytes up to 50 MB and 100 from there; not negative for a non-negative use |
| SettingsPage.Page.constructor | src/pages/Settings.tsx:47 | the local copy is the hook's settings at the first render |
| SettingsPage.Page.ToggleStyle | src/pages/Settings.tsx:59-65 | the local copy's favourite styles are toggled |
| SettingsPage.Page.TogglePlatformPreference | src/pages/Settings.tsx:67-73 | the local copy's platforms are toggled |
| SettingsPage.Page.HandleSave | src/pages/Settings.tsx:49-52 | the stored settings become the local copy, which is written under its key; projects, counters and the onboarding flag are unchanged |
| SettingsPage.Page.Sync | src/pages/Settings.tsx:47 | the local copy is set to the hook's current settings |
| SettingsPage.OpenAsWritten | src/pages/Settings.tsx:47 | as written, the local copy holds the defaults even after the stored settings are loaded |
| SettingsPage.OpenSynced | src/pages/Settings.tsx:47 | with the copy synchronised after loading, the local copy holds the loaded settings |
| SettingsPage.StaleSaveRevertsStoredSettings | src/pages/Settings.tsx:47-52 | as written, saving right after opening writes the defaults over different stored settings |
| SettingsPage.SyncedSaveKeepsStoredSettings | src/pages/Settings.tsx:47-65 | with the copy synchronised, toggling one style and saving changes only that style in the stored settings |
| ProjectGrid.TitleLeTotal | src/components/dashboard/ProjectGrid.tsx:50-51 | any two titles are ordered one way or the other |
| ProjectGrid.TitleLeTransitive | src/components/dashboard/ProjectGrid.tsx:50-51 | the title order is transitive |
| ProjectGrid.OrdersTotal | src/components/dashboard/ProjectGrid.tsx:40-53 | each of the four sort orders is total and transitive |
| ProjectGrid.Search | src/components/dashboard/ProjectGrid.tsx:32-37 | an empty query keeps every project; otherwise a project is kept exactly when its lower-cased title contains the lower-cased query |
| ProjectGrid.FilteredProjects | src/components/dashboard/ProjectGrid.tsx:29-56 | the list shown holds exactly the projects the search keeps, each as often as there |
| ProjectGrid.FilteredProjectsOrdered | src/components/dashboard/ProjectGrid.tsx:30-55 | the list shown is a permutation of the search result, and any two entries are in the chosen order |
| ProjectGrid.SortOrdersMean | src/components/dashboard/ProjectGrid.tsx:40-49 | "recent" lists newest uploads first, "oldest" oldest first, and "clips" by falling clip count |
| ProjectGrid.Displayed | src/components/dashboard/ProjectGrid.tsx:125 | the first ten of the ordered list, or all of it when shorter |
| ProjectGrid.DisplayedMatches | src/components/dashboard/ProjectGrid.tsx:32-37 | every project shown matches the search, and with ten or fewer matches all of them are shown |
| ProcessingScreen.Tick | src/components/processing/ProcessingScreen.tsx:27-32 | one 50 ms tick adds 1.25 percent and never passes 100; the progress never falls and stays within 0 to 100 |
| ProcessingScreen.ProgressClosedForm | src/components/processing/ProcessingScreen.tsx:27-32 | after n ticks the progress is 1.25·n percent, capped at 100 |
| ProcessingScreen.FullBeforeCompletion | src/components/processing/ProcessingScreen.tsx:22-57 | the 80 ticks that fit in the 4 seconds before completion bring the progress to 100 |
| ProcessingScreen.ScheduleOrdered | src/components/processing/ProcessingScreen.tsx:34-57 | each step starts before it ends, ends before the next one starts, and every step ends before the completion timer fires |
| ProcessingScreen.StartStatuses | src/components/processing/ProcessingScreen.tsx:36-42 | when step k starts, the steps before it are complete, step k alone is processing, and the rest are pending; length, ids and labels are kept |
| ProcessingScreen.EndStatuses | src/components/processing/ProcessingScreen.tsx:45-51 | when step k ends, the steps up to it are complete and the rest pending, none processing; length, ids and labels are kept |
| ProcessingScreen.CountPrefix | src/components/processing/ProcessingScreen.tsx:36-51 | a list whose first k steps are complete and whose step k alone may be processing counts k complete and at most one processing |
| ProcessingScreen.NoneProcessing | src/components/processing/ProcessingScreen.tsx:45-51 | with no step processing, the processing count is zero |
| ProcessingScreen.StepCounts | src/components/processing/ProcessingScreen.tsx:36-51 | when step k starts, k steps are complete and one is processing; when it ends, k+1 are complete and none is processing |
| ProcessingScreen.Screen.constructor | src/components/processing/ProcessingScreen.tsx:11-20 | three pending steps, zero progress, the first step current, timers live |
| ProcessingScreen.Screen.ProgressTimer | src/components/processing/ProcessingScreen.tsx:27-32 | while the timers are live the progress advances by one tick; after cleanup it does not change |
| ProcessingScreen.Screen.StepStarts | src/components/processing/ProcessingScreen.tsx:35-43 | the steps take their start statuses and the index becomes current |
| ProcessingScreen.Screen.StepEnds | src/components/processing/ProcessingScreen.tsx:45-52 | the steps take their end statuses |
| ProcessingScreen.Screen.CompleteTimer | src/components/processing/ProcessingScreen.tsx:55-57 | the completion callback runs once while the timer is live and not after cleanup |
| ProcessingScreen.Screen.Cleanup | src/components/processing/ProcessingScreen.tsx:59-62 | the interval and the completion timer are cleared |
| ProcessingScreen.RunAllSteps | src/components/processing/ProcessingScreen.tsx:34-53 | after every step has started and ended in order, all three steps are complete, none is processing, and the ids are unchanged |
| OnboardingTour.NextStep | src/components/onboarding/OnboardingTour.tsx:43-49 | the next step exists exactly before the last of the four steps, and is the following one |
| OnboardingTour.NextWalksTheTour | src/components/onboarding/OnboardingTour.tsx:43-49 | n presses of "next" from the first step reach step n for n below 4 and finish the tour from the fourth press on |
| OnboardingTour.Tour.constructor | src/components/onboarding/OnboardingTour.tsx:40-41 | the tour opens visible on the first step |
| OnboardingTour.Tour.Complete | src/components/onboarding/OnboardingTour.tsx:55-60 | the tour is hidden and one completion callback is scheduled |
| OnboardingTour.Tour.Next | src/components/onboarding/OnboardingTour.tsx:43-49 | before the last step the tour advances one step; on the last step it completes |
| OnboardingTour.Tour.Skip | src/components/onboarding/OnboardingTour.tsx:51-53 | skipping completes the tour without moving the step |
| OnboardingTour.Tour.GetStarted | src/components/onboarding/OnboardingTour.tsx:62-65 | the tour completes and the page navigates to the upload route |
| OnboardingTour.Tour.SelectStep | src/components/onboarding/OnboardingTour.tsx:97 | clicking a dot makes that step current and changes nothing else |
| OnboardingTour.Tour.FireCompletion | src/components/onboarding/OnboardingTour.tsx:57-59 | a scheduled completion callback runs once |
| OnboardingTour.SkipThenFire | src/components/onboarding/OnboardingTour.tsx:51-60 | skipping and letting the delay pass hides the tour and reports completion exactly once |
| ClipResultsGrid.Ids | src/components/clips/ClipResultsGrid.tsx:22-32 | the ids of the clips, in order |
| ClipResultsGrid.SelectedCount | src/components/clips/ClipResultsGrid.tsx:20 | at most the number of clips; all of them exactly when every clip is selected; zero exactly when none is |
| ClipResultsGrid.CountExtremes | src/components/clips/ClipResultsGrid.tsx:20 | a count equals the length exactly when every item passes, and zero exactly when none does |
| ClipResultsGrid.ToggleSelect | src/components/clips/ClipResultsGrid.tsx:22-32 | the clip with the id flips its selection; every other clip is unchanged |
| ClipResultsGrid.ApplyFlips | src/components/clips/ClipResultsGrid.tsx:22-32 | a batch of distinct ids flips exactly the clips whose ids it holds |
| ClipResultsGrid.ToggleCalls | src/components/clips/ClipResultsGrid.tsx:22-32 | the toggle calls made are the ids of the clips whose selection differs from the wanted one, in order |
| ClipResultsGrid.SelectAll | src/components/clips/ClipResultsGrid.tsx:22-26 | the ids toggled are those of the unselected clips |
| ClipResultsGrid.DeselectAll | src/components/clips/ClipResultsGrid.tsx:28-32 | the ids toggled are those of the selected clips |
| ClipResultsGrid.CallsAreExactly | src/components/clips/ClipResultsGrid.tsx:22-32 | with distinct ids, the calls are distinct and hold a clip's id exactly when its selection differs from the wanted one |
| ClipResultsGrid.SelectAllSelectsEvery | src/components/clips/ClipResultsGrid.tsx:22-26 | with distinct ids, select-all leaves every clip selected and otherwise unchanged |
| ClipResultsGrid.DeselectAllClearsEvery | src/components/clips/ClipResultsGrid.tsx:28-32 | with distinct ids, deselect-all leaves every clip unselected and otherwise unchanged |
| ClipResultsGrid.SelectAllWhenAllSelected | src/components/clips/ClipResultsGrid.tsx:22-26 | when every clip is already selected, select-all makes no call |

## Left out

- Rendering: JSX, animation, charts, confetti, icons and styling, and the components whose only logic is display arithmetic over the modelled formatters.
- Real time: `setInterval`, `setTimeout` and `await` become explicit events, with elapsed time, durations and random draws as parameters. React's effect re-runs, batching and stale closures are not modelled beyond the one stale settings copy listed under Findings.
- JSON: encoding is abstract. A stored value of the wrong kind is treated like text that does not parse, and the hook falls back as it does on a parse error. Only the date rehydration step is written out.
- Storage failures: a quota error on `setItem` is not modelled, so every write succeeds.
- `calculateStorageUsed` in src/hooks/useDashboardData.ts iterates the browser's own store and is not part of this model; the settings page takes the used megabytes as a parameter.
- `extractThumbnail` in src/utils/clipUtils.ts draws on a canvas and is not part of this model.
- Browser calls: play, pause, fullscreen, clipboard, toasts and navigation are left out. Only their effect on the modelled fields (current time, volume, muted, the route) is kept, and a missing video element is not modelled.
- `toLowerCase` is ASCII lower-casing, `localeCompare` is code-unit order, and `trim` removes JavaScript's white-space and line-terminator characters. Locale and Unicode case rules are not modelled.
- `toFixed(1)` is modelled for values below 1e21, where JavaScript switches to exponent notation; the sizes formatted are far below that.
- Dictionary lookups by platform name do not model keys inherited from `Object.prototype` (such as "constructor").
- The timelines require a nonzero rendered width, since the source divides by it; an unlaid-out element (width 0, giving NaN) is not modelled. The export driver's job duration is a positive number of milliseconds.
- Array sorting in place is modelled as a stable sort on sequences; the copy taken in ProjectGrid.tsx:30 makes that faithful there. In the clip generators the array is local, so no aliasing is lost.
- The upload zone's interval timers are separate timers in the model. `resetUpload` does not stop a running one, as written, so it can still turn a reset zone to success.
- The processing screen's per-step timeouts are not cleared by its cleanup, as written; the model keeps them live after `Cleanup` and cancels only the progress and completion timers.
- ClipResultsGrid: the parent's `onSelectClip` is not part of this model. The grid's lemmas assume it toggles the clip's `selected` flag, which is how the selection is used.
- EditorVideoPreview.tsx imports `formatTime` from src/utils/clipUtils.ts, which exports no such function (lines 6 and 204). That display line is not modelled.
- ClipDetection.GenerateMockClips: requires a nonzero video duration. At duration 0 the source still returns five clips from 0 to 0, but the position score divides 0 by 0, so every score is NaN and no clip is selected; the model's reals have no NaN, so that input is left out.
- ClipUtils.GenerateClips: requires a nonzero video duration for the same reason: at duration 0 the position score is 0/0, the scores are NaN and no clip is selected, which the model's reals cannot express.
- VideoPreview.FormatDuration: states nothing for negative times, where JavaScript's truncating `%` and `Math.floor` give a string with minus signs inside it.
- ExportProcessingModal.StatusText: for a processing job it states the leading "<progress>% - " and not the remaining-time text after it; a failed job with an error text of "Queued" shows the same text as a queued job, so the queued case is an implication only.

## Findings

| source | as written | input that shows it | evidently intended | confidence | as-written member | corrected member |
|---|---|---|---|---|---|---|
| src/hooks/useExportQueue.ts:48-60, 77, 105-113 | completion writes the snapshot taken at start over the job by id without looking at its current status, and then records the export | cancel a job while it is processing, then let its duration pass: the job reads "complete" and a download record is added | a job cancelled while processing stays failed and adds no record; finished jobs never change | not executed | ExportQueue.CancelledJobResurrected, ExportQueue.TickAfterCancel | ExportQueue.GuardedTerminalStable, ExportQueue.GuardedCancelSticks |
| src/pages/Settings.tsx:47-52 | the local copy is `useState(settings)`, taken once at the first render, before the dashboard data have loaded from storage | stored settings with quality "low": open the page and press save at once, and the defaults (quality "high") are written over them | the local copy follows the loaded settings, so saving writes only what the user changed | not executed | SettingsPage.StaleSaveRevertsStoredSettings, SettingsPage.OpenAsWritten | SettingsPage.SyncedSaveKeepsStoredSettings, SettingsPage.OpenSynced |
