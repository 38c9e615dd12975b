# Karaoke server job-scheduling core, in Dafny

This project models the in-memory core of a self-hosted karaoke server. Guests add songs by link. The server resolves the link into a listing with yt-dlp or the Bilibili favourites API. It downloads each queued song in two stages (video, then audio), measures its loudness, and optionally separates the vocals with demucs so the song can be sung as karaoke. The core is:

- **State store** (`State.StateStore`). It holds the queue (`playlist`), the current song, the history (at most 50 copies), the player status, the scheduling flags and the two job maps. Song objects live in one map from id to song. The queue, the current song and the job maps refer to them by id, so a change to a song is seen through every reference, as with the shared JavaScript objects. The invariant `Valid()` states:
  - the history is bounded;
  - no queue entry repeats, and the current song is never in the queue;
  - a song is `downloading` exactly when it has a download job;
  - a song is `karaokeProcessing` exactly when it has a separation job, and only ready songs are separated;
  - the manual separation queue holds no id twice, and the tracked download (`currentDownloadingId`) has a job;
  - the single-flight flag `isProcessingKaraoke` is set exactly while a separation process runs, and only that process's song can hold a separation job.
- **Download scheduler** (`Downloader`). `processDownloadQueue` starts pending songs in order, under a cap of `clamp(maxConcurrentDownloads, 1, 5)`. The per-song state machine runs the video stage, the audio stage and the loudness analysis, each as an event handler. Its error path is `handleDownloadError`.
- **Separation scheduler** (`Karaoke`). It runs one separation at a time. It serves a manual FIFO queue first, then scans the current song followed by the queue. It also covers the separation process's data, close and error events, and termination.
- **Socket handlers** (`Server`). These are promote-next-song, batch and single add, re-add from history, queue editing, shuffle, player controls, player ticks, full reset, and the deferred deletion of finished songs.
- **Configuration** (`Config`). It covers the deep merge, the defaults, and the load/save/get/reset cycle of `advanced-config.json` (class `ConfigManager`).
- **Pure helpers** (`SystemService`, `Fetcher`). These are:
  - the loudness gain;
  - cookie-file routing;
  - network-interface listing;
  - file deletion with retries;
  - the yt-dlp listing arguments, the normalisation of its JSON lines, and the favourites pager.

External processes (yt-dlp, demucs, ffmpeg) are not run. Each becomes an event-handler method that receives what the process reported: a percentage, an exit code, a spawn error, the parsed loudness report or the listing lines. The file system is a `set<Artifact>` of files that exist, or a boolean such as "the separation output exists". Broadcasts are appended to `log`. Song ids and shuffle choices are parameters.

`server.js` duplicates most of `src/services/*`, `src/config/configManager.js` and `src/utils/state.js`. Each behaviour is modelled once, from the copy cited in the table. Two differences between the copies matter here. `deleteSongFile` in `src/services/system.js` drops the separation job without terminating it, while the server's copy calls `terminateKaraokeProcess`; both are modelled. The server's own `startDownload` (server.js:407-416) broadcasts `sync_state` without the `autoProcessKaraoke` field, while `src/services/downloader.js` broadcasts through `emitSync`, which includes it; the model follows `downloader.js` (see "## Left out").

Files: `types.dfy` (song values), `state.dfy` (store), `config.dfy`, `system.dfy`, `karaoke.dfy`, `downloader.dfy`, `server.dfy`, `fetcher.dfy`.

## Model

| member | source | states |
|---|---|---|
| Types.NewSong | server.js:885-895 | a new song has the given id, title, uploader, link and requester; it is pending at progress 0 with no files and no karaoke state |
| Types.RemoveFirst | src/services/karaoke.js:50-53 | `findIndex` + `splice`: an absent element leaves the list unchanged; otherwise the list is one shorter, and it keeps every other element and adds none |
| Types.RemoveFirstNoDup | server.js:968-970 | removing an element from a duplicate-free list leaves it duplicate-free and without that element |
| Config.MergeFieldsSpec | src/config/configManager.js:68-75 | deepMerge key by key: target keys the source lacks are untouched; a null source value leaves the target value; an object merges into an object and stays an object, except that an array target is kept as it was (see "## Left out"); anything else overwrites |
| Config.DeepMerge | src/config/configManager.js:66-77 | the result is an object keeping every target key; a source that is neither an object nor an array leaves the target unchanged; an array source writes each entry that is neither null nor an object under its index name, leaves every other target key as it was, and adds no key but index names |
| Config.IndexKey | src/config/configManager.js:68 | the property name of an array index is a non-empty string of decimal digits with no leading zero, ending in the index's last digit, one digit long exactly below 10 |
| Config.IndexKeyInjective | src/config/configManager.js:68 | distinct indices have distinct property names |
| Config.IndexFieldsValues | src/config/configManager.js:68 | `Object.keys` of an array: every entry is found under its index name |
| Config.IndexFieldsKeys | src/config/configManager.js:68 | an array has no property name but its index names |
| Config.ArraySourceWritesIndexKeys | src/config/configManager.js:66-77 | merging the array `["a"]` keeps the target's keys and adds `"0": "a"` |
| Config.MergeSelf | src/config/configManager.js:66-77 | merging a document onto itself changes nothing |
| Config.MergeIdempotent | src/config/configManager.js:66-77 | merging the same source twice equals merging it once |
| Config.MergeReapply | src/config/configManager.js:94-98 | merging a merge result back onto the same target changes nothing |
| Config.MergeKeepsAllPaths | src/config/configManager.js:69-71 | a source shaped like the target keeps every key path of the target, including nested sections |
| Config.SectionsAlwaysPresent | src/config/configManager.js:79-92 | whatever is loaded onto the defaults, the ytdlp, demucs, ffmpeg and system keys stay present |
| Config.DownloadCap | src/services/downloader.js:186 | for a setting that is missing, falsy or a JSON number, the cap lies in [1, 5]; it is 1 when the setting is missing or falsy, and the setting itself when that is a number in [1, 5] (settings present but not a number: see "## Left out") |
| Config.LoudnessBound | src/services/system.js:120 | the gain bound is never negative, and it is 12 when the setting is absent |
| Config.DefaultSettings | src/config/configManager.js:52-61 | with the defaults: cap 1, delete delay 20000 ms, loudness target -16, gain bound 12 |
| Config.DefaultsAfterShallowLoad | src/config/configManager.js:84 | the shallow spread keeps the defaults' keys, and a non-object file leaves the defaults as they were |
| Config.ShallowLoadPollutesDefaults | src/config/configManager.js:84 | after the shallow load of a file with `maxConcurrentDownloads: 3`, the shared default itself gives a cap of 3 instead of 1 |
| Config.ConfigManager.constructor | src/config/configManager.js:64 | nothing is loaded yet, and the defaults are DEFAULT_ADVANCED_CONFIG |
| Config.ConfigManager.Load | src/config/configManager.js:79-92 | a stored file merged onto an unshared copy of the defaults, else the defaults; every default key is kept and the defaults are left untouched |
| Config.ConfigManager.LoadAsWritten | src/config/configManager.js:79-92 | the same result, but the shared defaults become `DefaultsAfterShallowLoad(defaults, file)` |
| Config.ConfigManager.Save | src/config/configManager.js:94-104 | on a successful write, the file and the in-memory config both become the config merged onto the defaults; a failed write changes neither |
| Config.ConfigManager.Get | src/config/configManager.js:106-109 | the first call loads as the corrected `Load` does (not the polluting load of line 84, see "## Findings"); later calls return the stored config, as a value nobody else can change |
| Config.ConfigManager.Reset | src/config/configManager.js:111-121 | the in-memory config becomes the defaults even when the write fails; the file does too only when it succeeds |
| Config.SaveThenLoad | src/config/configManager.js:94-98 | what is saved loads back unchanged |
| State.Lookup | src/utils/state.js:33-39 | the song objects named by a list of ids, position by position |
| State.StateStore.constructor | src/utils/state.js:2-25 | empty queue, history and song map, no current song, the default player status, all flags off, both job maps empty, no sink; the invariant holds |
| State.StateStore.SetIO | src/utils/state.js:27-29 | a sink is attached |
| State.StateStore.CurrentSnapshot | src/utils/state.js:33-39 | the broadcast carries exactly the queue's songs in order, the current song, the player status, the history and the auto flag |
| State.StateStore.EmitSync | src/utils/state.js:31-41 | without a sink nothing happens; otherwise exactly one snapshot is appended; nothing else changes and the invariant is kept |
| State.StateStore.EmitProgress | src/services/downloader.js:87 | a progress broadcast is appended only when a sink is attached |
| SystemService.Clamp | src/services/system.js:151 | the result lies in [-b, b]; it is the input when that lies inside, else the nearer bound |
| SystemService.LoudnessGain | src/services/system.js:115-168 | for a report whose measured loudness is a number, the gain lies within the bound; every failure (spawn error, non-zero or missing exit code, no report) gives 0; a report gives the target minus the measured loudness, clamped |
| SystemService.DefaultGain | src/services/system.js:117-120 | with the defaults the gain lies in [-12, 12], and a -20 LUFS track gets +4 dB |
| SystemService.IncludesOccurs | src/services/system.js:45 | `includes` holds exactly when the part occurs at some position |
| SystemService.CookiesPathSpec | src/services/system.js:44-54 | a returned cookie file exists; the bilibili file goes exactly to links naming bilibili.com when it exists; the YouTube file goes exactly to the other links naming youtube.com or youtu.be when it exists; any other link gets none |
| SystemService.BilibiliCheckedFirst | src/services/system.js:45-48 | a link naming bilibili.com never gets the YouTube file, even when it also names youtube.com |
| SystemService.ListedOnMembers | src/services/system.js:17-25 | an interface's entries are exactly its IPv4 non-internal addresses under its name |
| SystemService.ListedMembers | src/services/system.js:16-26 | every listed entry is an external address of the interface it names, and every external address is listed |
| SystemService.GetNetworkInterfaces | src/services/system.js:12-28 | the nested loop yields the listed entries in iteration order, else the single localhost entry; never empty |
| SystemService.TryDelete | src/services/system.js:94-104 | at most retries + 1 unlink calls; none when the file is gone; success only on a successful unlink |
| SystemService.TryDeleteGivesUp | src/services/system.js:94-104 | a file that stays locked is tried exactly retries + 1 times (4 with the default), then given up silently |
| SystemService.DeletionTargets | src/services/system.js:107-112 | the video and audio files when set, and the karaoke file when the id is not 0; nothing else |
| SystemService.DeleteSongFile | server.js:635-681 | nothing for no song; otherwise the targets are the song's files, the separation is terminated when the id is not 0, download jobs are left to their close handler, and the invariant is kept |
| SystemService.DeleteSongFileAsWritten | src/services/system.js:56-113 | the song's separation job is dropped from the map; its flag and manual-queue entry are not touched |
| SystemService.DeleteAsWrittenBreaksAgreement | src/services/system.js:71-79 | for a song being separated, dropping the job leaves it marked separating with no job |
| Karaoke.FirstEligible | src/services/karaoke.js:147 | the index of the first ready, unseparated, not-separating entry; every entry before it is ineligible |
| Karaoke.Candidates | src/services/karaoke.js:162 | the eligible ids of the scan, in order |
| Karaoke.CandidatesHead | src/services/karaoke.js:162-165 | the filter is non-empty exactly when an eligible entry exists, and its head is the first eligible entry |
| Karaoke.ManualPickIsFirstEligible | src/services/karaoke.js:145-156 | the manual pass picks the first eligible entry and drops it and every entry before it; with none, it empties the queue |
| Karaoke.NextKaraokeSpec | src/services/karaoke.js:141-174 | a pick is always eligible; an eligible manual entry is picked first; otherwise, with auto on, the first eligible song of [current, ...queue]; with auto off, only manual entries |
| Karaoke.FailedSeparationIsPickedAgain | src/services/karaoke.js:102-127 | a ready, not yet separated song whose separation closed with a non-zero code or without output is `Separated` into an eligible song again, so the next auto pass with an empty manual queue and that song current picks it again |
| Karaoke.Started | src/services/karaoke.js:62-63 | separating at progress 0; no other field changes |
| Karaoke.RegisterSeparation | src/services/karaoke.js:62-86 | the song is started, its id joins the separation map, and its process is the running one |
| Karaoke.ProcessVocalSeparation | src/services/karaoke.js:56-86 | it starts exactly when the audio file exists and the song is neither separated nor separating; otherwise nothing changes |
| Karaoke.Launch | src/services/karaoke.js:147-149 | the corrected launch: the single-flight flag ends up set exactly when the pick's audio file exists, and the invariant holds |
| Karaoke.ServeManualQueue | src/services/karaoke.js:145-156 | the recursive shift loop leaves the queue and the pick that `ManualPick` describes; the pick is eligible; no pick leaves the queue empty |
| Karaoke.LaunchAsWritten | src/services/karaoke.js:147-149 | the flag is set whatever happens, and a process runs only when the audio file exists |
| Karaoke.ProcessNextKaraoke | src/services/karaoke.js:141-174 | a no-op while a separation runs; otherwise the pass `NextKaraoke` describes; the flag ends up set only when a separation started; the invariant is kept |
| Karaoke.ProcessNextKaraokeAsWritten | src/services/karaoke.js:141-174 | the same pass, but a pick whose audio file is gone leaves the flag set with nothing running |
| Karaoke.WedgeWitness | src/services/karaoke.js:56-60 | a ready song queued by hand whose audio file is missing is still picked |
| Karaoke.Enqueued | src/services/karaoke.js:179-184 | a prioritised id is appended once; the queue otherwise stays as it was and stays duplicate-free |
| Karaoke.QueueKaraokeProcessing | src/services/karaoke.js:176-188 | a no-op for a separated or separating song; otherwise the manual queue grows as `Enqueued` says; when busy nothing else changes (songs, jobs, running process, flag, log); when idle one scheduling pass picks by `NextKaraoke`, launches as `LaunchOutcome` says, and sets the flag exactly when the pick's audio is present |
| Karaoke.QueueAllReadySongs | src/services/karaoke.js:190-193 | when busy nothing changes; when idle one scheduling pass picks by `NextKaraoke`, launches as `LaunchOutcome` says, and sets the flag exactly when the pick's audio is present |
| Karaoke.ReportedPercent | src/services/karaoke.js:93 | the reported percentage is rounded and capped at 99 |
| Karaoke.OnSeparationData | src/services/karaoke.js:88-100 | the rounded, capped percentage is taken and broadcast only when it is strictly above the current one; progress never decreases and stays at most 99 |
| Karaoke.Separated | src/services/karaoke.js:103-124 | the song is no longer separating; it becomes separated (progress 100, karaoke file) exactly on exit 0 with the output present; otherwise nothing else changes |
| Karaoke.ReleaseSeparation | src/services/karaoke.js:102-104 | the job leaves the map, the song becomes the given value, the flag is cleared and no process runs |
| Karaoke.FinishSeparation | src/services/karaoke.js:102-126 | the song is `Separated`, the job is gone, a snapshot is broadcast and the flag is clear |
| Karaoke.OnSeparationClose | src/services/karaoke.js:102-128 | after the close and the next scheduling pass, the song is separated exactly when it was before or the run succeeded with output |
| Karaoke.OnSeparationError | src/services/karaoke.js:130-138 | the job is gone, the song's separated state is unchanged, and the scheduler runs again |
| Karaoke.TerminateKaraokeProcess | src/services/karaoke.js:32-54 | no job and no manual-queue entry for the id remain; a song that had a job is no longer separating and is back at progress 0; the single-flight flag is left for the killed process's close event |
| Downloader.PendingIn | src/services/downloader.js:192 | the pending ids of the list, in order |
| Downloader.PendingInNoDup | src/services/downloader.js:190-192 | filtering keeps a duplicate-free list duplicate-free |
| Downloader.DownloadCandidates | src/services/downloader.js:190-192 | exactly the pending songs among the current song and the queue, with the current song first when it is pending |
| Downloader.CandidatesNoDup | src/services/downloader.js:190-192 | under the store invariant no candidate appears twice |
| Downloader.Fresh | src/services/downloader.js:194 | the candidates without a download job |
| Downloader.Admit | src/services/downloader.js:193-197 | the songs one pass starts: fresh candidates only |
| Downloader.AdmitFull | src/services/downloader.js:187-188 | with the job map at the cap, a pass starts nothing |
| Downloader.AdmitSpec | src/services/downloader.js:193-197 | the started songs are a prefix of the fresh candidates; each started while fewer than `cap` jobs were registered; a fresh candidate is left over only when the job map is full |
| Downloader.Begun | src/services/downloader.js:34-35 | downloading at progress 0; no other field changes |
| Downloader.BeginAll | src/services/downloader.js:34-35 | the songs of the started ids are `Begun`, all others unchanged |
| Downloader.RegisterAll | src/services/downloader.js:78 | the started ids hold their video process, all other jobs unchanged |
| Downloader.Walk | src/services/downloader.js:193-197 | the loop as a state transformer over songs and jobs; it keeps the song map's keys |
| Downloader.WalkIsAdmit | src/services/downloader.js:193-197 | the loop starts exactly the songs `Admit` names: songs `BeginAll`, jobs `RegisterAll` of them |
| Downloader.VideoPercent | src/services/downloader.js:84 | a reported 0-100% maps into [0, 50] |
| Downloader.AudioPercent | src/services/downloader.js:128 | a reported 0-100% maps into [50, 80] |
| Downloader.StagePercentsOrdered | src/services/downloader.js:80-134 | both stage maps are strictly increasing, and no video-stage value exceeds an audio-stage value |
| Downloader.Completed | src/services/downloader.js:158-166 | ready at 100% with both files, both paths and the gain; not separated, no karaoke file; identity and separation flag kept |
| Downloader.StartsOnlyPending | src/services/downloader.js:190-196 | a pass never starts a song that is not pending, so a finished song is never restarted |
| Downloader.RegisterDownload | src/services/downloader.js:34-78 | the song is `Begun` and its video process is registered |
| Downloader.TrackDownload | src/services/downloader.js:29-33 | the current song's download becomes the tracked one |
| Downloader.BeginDownload | src/services/downloader.js:29-35 | the song is downloading from 0% and its video job is registered (the `set` at line 78); it becomes the tracked download only when it is the current song; the snapshot broadcast is left to `StartDownload` |
| Downloader.StartDownload | src/services/downloader.js:27-78 | a no-op for an id with a download job; otherwise as `BeginDownload` |
| Downloader.CollectPending | src/services/downloader.js:190-192 | the loop builds exactly `DownloadCandidates` |
| Downloader.StartFresh | src/services/downloader.js:193-196 | a fresh id starts; the job count grows by one and one broadcast is appended when a sink is attached |
| Downloader.WalkStep | src/services/downloader.js:194-196 | one loop step does what `Walk` does on one candidate, and it says whether the loop stops |
| Downloader.StartAdmitted | src/services/downloader.js:193-197 | the loop starts exactly `Admit(pending, jobs, cap)`: songs become `BeginAll` and jobs `RegisterAll` of them, with one broadcast per start |
| Downloader.ProcessDownloadQueue | src/services/downloader.js:185-198 | with cap `DownloadCap(cfg)`, the pass starts exactly the admitted candidates and keeps the invariant |
| Downloader.AcceptProgress | src/services/downloader.js:85-88 | a value is taken and broadcast only when strictly above the song's progress; progress never decreases |
| Downloader.OnVideoData | src/services/downloader.js:80-90 | half the reported percentage, accepted as `AcceptProgress` says |
| Downloader.OnAudioData | src/services/downloader.js:124-134 | 50 plus 30% of the reported percentage, accepted as `AcceptProgress` says |
| Downloader.SetProgress | src/services/downloader.js:142-143 | the progress is set and broadcast unconditionally |
| Downloader.SetStage | src/services/downloader.js:121-122 | the job now holds the next stage's process |
| Downloader.Untrack | src/services/downloader.js:152-155 | the tracked download is cleared when it is this one, and `isDownloading` follows |
| Downloader.Unregister | src/services/downloader.js:16 | the job leaves the map and the song takes its new value |
| Downloader.FailDownload | src/services/downloader.js:15-23 | the job is gone, the song is in error, tracking is cleared when it matched, and a snapshot is broadcast |
| Downloader.HandleDownloadError | src/services/downloader.js:15-25 | as `FailDownload`, then the queue is scanned again; the failed song stays in error |
| Downloader.OnVideoClose | src/services/downloader.js:92-122 | exit 0 moves the job to the audio stage; any other code is a download error |
| Downloader.OnVideoError | src/services/downloader.js:180-182 | a spawn error is a download error |
| Downloader.OnAudioClose | src/services/downloader.js:136-143 | exit 0 sets progress 80 and moves to the loudness stage; any other code is a download error |
| Downloader.OnAudioError | src/services/downloader.js:175-177 | a spawn error is a download error |
| Downloader.CompleteDownload | src/services/downloader.js:150-166 | the job is gone and the song is `Completed` with the gain |
| Downloader.PlayIfCurrent | src/services/downloader.js:169 | the player starts only when the finished song is the current one |
| Downloader.ReportAnalysed | src/services/downloader.js:147-155 | progress 95 is set and broadcast, and tracking is cleared when it matched |
| Downloader.FinishDownload | src/services/downloader.js:146-166 | the job is gone, the song is `Completed` with `LoudnessGain`, tracking is cleared when it matched, and exactly one 95% broadcast is sent |
| Downloader.HandOver | src/services/downloader.js:168 | with auto on, the scheduler may start this song; with auto off, the songs, the manual queue and the separation jobs are untouched |
| Downloader.CompleteAndHandOver | src/services/downloader.js:146-168 | `FinishDownload` then `HandOver`: the song is completed (and may be started); with auto off nothing else changes |
| Downloader.CompleteAndPlay | src/services/downloader.js:146-169 | as above, and the player starts exactly when the song is the current one |
| Downloader.OnLoudnessDone | src/services/downloader.js:146-172 | the whole success path: job gone, song completed with the measured gain (or started), invariant kept |
| Server.Lineup | server.js:844-853 | the current song then the queue, with the same members and length |
| Server.SyncAndSchedule | server.js:855-856 | broadcast, then one download pass, which changes no song that is not downloading and adds no song; every song is as before or the same song with its download begun (`BegunOrKept`) |
| Server.PushHistory | server.js:836-838 | the copy goes to the front; the rest is a prefix of the old history; the length grows by one up to 50 |
| Server.RetireCurrent | server.js:835-842 | the current song's copy heads the history and is scheduled for deferred deletion; with no current song nothing happens |
| Server.AdvanceQueue | server.js:844-853 | the queue head becomes current and plays from 0 with pitch 0 and vocal removal off; with an empty queue nothing is current and nothing plays; the line is the old queue |
| Server.ChangeSong | server.js:835-853 | `RetireCurrent` followed by `AdvanceQueue` |
| Server.PromoteNextSong | server.js:834-857 | the old current song is in the history and queued for deletion, the line is the old queue; with an empty queue the player only stops, otherwise it plays from 0 with pitch 0 and vocal removal off, the rest of the player status kept; and the invariant holds |
| Server.PlacedLineup | server.js:896-901 | placing songs appends exactly those songs to the line, in order |
| Server.Enqueue | server.js:896-901 | with no current song the song becomes current and plays; otherwise it is appended to the queue |
| Server.Enlist | server.js:884-903 | every entry becomes a new pending song under its id, placed in order; older songs are unchanged |
| Server.AddBatchSongs | server.js:879-910 | an empty batch changes nothing; otherwise every entry is placed in order, and the song map is `BatchAdded`: the old songs, each unchanged or begun, plus under each id the `NewSong` of its entry (title, uploader, link, requester), unchanged or begun, and nothing else |
| Server.EnlistAndSchedule | server.js:884-910 | a non-empty batch is placed in order and the song map is `BatchAdded` |
| Server.ScheduleAfterBatch | server.js:905-909 | the broadcast and download pass after a batch keep the song map `BatchAdded` |
| Server.EnlistedIsBatchAdded | server.js:884-903 | the enlisted batch is `BatchAdded` with no download begun |
| Server.BatchAddedThenScheduled | server.js:905-909 | a download pass after a batch add leaves a batch add |
| Server.AddSong | server.js:916-946 | an empty listing changes nothing; otherwise its first entry is placed as a batch of one, and the song under the new id is `NewSong` of that entry, possibly with its download begun |
| Server.Readded | server.js:949 | the re-added song keeps title, uploader, link and requester; it is pending with no files and no karaoke state |
| Server.ReaddAsWrittenKeepsKaraokeState | server.js:949 | an entry copied while separating re-enters marked separating with no job; one copied after separation claims a karaoke track |
| Server.ReaddAsWrittenWitness | server.js:949 | a concrete history entry that shows the broken agreement |
| Server.ReaddHistory | server.js:948-959 | the corrected re-add joins the line as `Enqueue` places it; the song map gains exactly the new id, whose song is `Readded` (title, uploader, link, requester of the entry) possibly with its download begun, and every older song is unchanged or begun; the invariant holds |
| Server.AddedThenScheduled | server.js:950-958 | one added song passed through the download scheduler is as added or begun, and every other song as before or begun |
| Server.SpliceIsRemoveFirst | server.js:968-970 | `splice` at the found index is `RemoveFirst` |
| Server.Unlink | server.js:968-972 | the song leaves the queue, and comes back at its front for `top`; the other entries keep their order |
| Server.EditQueue | server.js:968-972 | as `Unlink`; `delete` also terminates the song's separation and returns its files |
| Server.ManageQueue | server.js:967-977 | an unknown id changes nothing; otherwise the queue is edited as `Unlink` says, and only `delete` deletes files |
| Server.SetAutoProcess | server.js:1005-1012 | the flag is stored; switching it off, or on while a separation runs, touches no song, job, queue or flag; switching it on while idle runs one pass that picks by `NextKaraoke` with auto on, launches as `SeparationLaunch` says and sets the flag exactly when the pick's audio is present; the last broadcast is a snapshot |
| Server.EnableAutoProcess | server.js:1007-1009 | the flag is on, and one scheduling pass ran when idle, as in `SetAutoProcess` |
| Server.Swap | server.js:1018 | the two positions are exchanged and every other position is kept |
| Server.SwapPermutes | server.js:1018 | a swap is a permutation |
| Server.SwapNoDup | server.js:1018 | a swap keeps a duplicate-free queue duplicate-free |
| Server.Shuffled | server.js:1016-1019 | the Fisher-Yates pass keeps the length |
| Server.ShuffledPermutes | server.js:1016-1019 | the shuffle is a permutation of the queue |
| Server.ShuffledNoDup | server.js:1016-1019 | the shuffle keeps the queue duplicate-free |
| Server.ShuffledIdentity | server.js:1016-1019 | when every position is its own partner, the queue is unchanged |
| Server.ShuffledKeepsShape | server.js:1016-1019 | a shuffled queue has the same members and no repeats |
| Server.Shuffle | server.js:1016-1019 | the in-place loop yields `Shuffled` |
| Server.ShuffleQueue | server.js:1014-1023 | the queue is `Shuffled`, the current song stays; when automatic separation is on and idle, one pass over the shuffled queue picks by `NextKaraoke` and launches as `SeparationLaunch` says, the flag set exactly when the pick's audio is present; otherwise no song, job, queue or flag changes |
| Server.AutoPass | server.js:1021-1023 | with automatic separation on and idle, one scheduling pass as `ProcessNextKaraoke` states it; otherwise nothing but the log changes |
| Server.ApplyControl | server.js:1026-1037 | each control sets only its own field (toggle negates `playing`) |
| Server.ControlTwice | server.js:1026-1037 | toggling twice restores the status; every other control is idempotent |
| Server.ControlAction | server.js:1025-1040 | the control is applied; without a vocal-removal trigger no song, job or queue changes; with one while a separation runs, the current song joins the manual queue once |
| Server.Patched | server.js:1043 | each field present in the tick wins; absent fields keep their value |
| Server.PatchedIdempotent | server.js:1043 | applying a tick twice equals applying it once, and an empty tick changes nothing |
| Server.PlayerTick | server.js:1042-1045 | the status becomes `Patched` |
| Server.TargetsOf | server.js:1048 | the files of every song deleted, and nothing else |
| Server.DeleteOne | server.js:1048 | one deletion, which returns the song's files and clears its separation job and queue entry |
| Server.DeleteAll | server.js:1048 | every doomed song's files are returned, and each doomed song with a non-zero id has no job or queue entry left |
| Server.ClearPlayback | server.js:1049-1051 | empty queue and history, no current song, default player status, auto off |
| Server.Doomed | server.js:1048 | the queue's songs, the current song and the history copies are all doomed |
| Server.SystemReset | server.js:1047-1055 | every doomed song's files are deleted and its separation terminated; then the playback set is cleared and the invariant holds |
| Server.FirePendingDeletion | server.js:839-841 | a due timer (in any order) removes its entry and deletes the copy's files, terminating that id's separation |
| Fetcher.SetValue | src/services/fetcher.js:16-18 | a setting is used exactly when it is present and truthy, with its own value |
| Fetcher.ReadListingOptions | src/services/fetcher.js:11-20 | the three listing switches are on unless explicitly `false`; the proxy is used only when truthy |
| Fetcher.ListingSwitches | src/services/fetcher.js:13-15 | each of the three switches appears exactly when it is on, and nothing else appears |
| Fetcher.ConfiguredOptions | src/services/fetcher.js:16-20 | the other options never repeat a listing switch or the cookie option; the proxy appears, with its value, exactly when set |
| Fetcher.CookieArgs | src/services/fetcher.js:21-22 | the cookie option appears, with its file, exactly when a cookie file applies |
| Fetcher.ListingArgs | src/services/fetcher.js:12-23 | the link is last, and each listing switch appears exactly when it is on |
| Fetcher.ListingArgsProxy | src/services/fetcher.js:16 | the proxy option appears exactly when a proxy is set |
| Fetcher.ListingArgsCookies | src/services/fetcher.js:21-22 | the cookie option appears exactly when a cookie file applies |
| Fetcher.RunArgs | src/services/fetcher.js:11-23 | the link is last; `--no-playlist` appears unless explicitly false; cookies appear exactly when `getCookiesPath` finds a file |
| Fetcher.ItemUrl | src/services/fetcher.js:46-66 | `url`, else `webpage_url`, else a link built from the id by extractor (YouTube or absent: watch link; BiliBili: video link; other: the input), else the input |
| Fetcher.ItemTitle | src/services/fetcher.js:59-63 | `title`, else "Video id", else "Unknown Title"; never empty |
| Fetcher.ItemUploader | src/services/fetcher.js:64 | `uploader`, else `uploader_id`, else "Unknown"; never empty |
| Fetcher.Normalize | src/services/fetcher.js:44-68 | the entry's title and uploader are non-empty, and its link is `ItemUrl` |
| Fetcher.Entries | src/services/fetcher.js:32-37 | exactly the lines that parsed, in order |
| Fetcher.EntriesNonEmpty | src/services/fetcher.js:32-42 | there are entries exactly when some line parsed |
| Fetcher.NormalizeAll | src/services/fetcher.js:44-68 | one normalised entry per parsed line, position by position |
| Fetcher.RunYtDlp | src/services/fetcher.js:29-87 | a listing exactly on exit 0 with some line parsed, and then it is non-empty; null on a spawn error, a non-zero exit or no parsed line |
| Fetcher.CollectedBound | src/services/fetcher.js:123-135 | at most 5 pages are collected, so at most 5 pages' worth of media |
| Fetcher.CollectedFirstPage | src/services/fetcher.js:124-135 | the media start with the first page's; an empty page ends the collection |
| Fetcher.FetchFavlist | src/services/fetcher.js:124-135 | the pager loop collects exactly `Collected`: pages in order, stopping at page 5, an empty page or `has_more` false |
| Fetcher.FavItem | src/services/fetcher.js:138-143 | a favourite's title, its uploader's name (else "Unknown") and its bilibili.com/video link |
| Fetcher.FavItems | src/services/fetcher.js:138-143 | one entry per favourite, position by position |
| Fetcher.FetchUrlInfo | src/services/fetcher.js:90-157 | a non-favourites link uses yt-dlp; a favourites link uses the pager, and falls back to yt-dlp when nothing was collected; a result is never empty |

## Left out

- Processes, the file system and the network are not run. yt-dlp, demucs and ffmpeg become event-handler parameters (percent, exit code, spawn error, parsed report, listing lines). The files that exist are a `set<Artifact>` or a boolean parameter. The Bilibili API is a page oracle `fetch`.
- The timers become explicit state: the deferred deletions are a list of song copies (`pendingDeletions`) whose timers may fire in any order. Retries of `tryDelete` are a step counter in `TryDelete`.
- Ids come from `Date.now()` (plus a random offset in a batch) and shuffle partners from `Math.random()`. Both are parameters: fresh ids, and partner choices in range. Id collisions within a batch are therefore not modelled.
- The socket.io transport is a log of broadcasts (`sync_state`, `update_progress`, `karaoke_progress`). Emits to one socket or of no state are not modelled: `add_success`, `exec_control`, `error_msg`, `parse_result`, `sync_tick`, `system_info`, `advanced_config`, `advanced_config_saved`, and the snapshot sent on connection.
- `getWifiSSID` is left out: it only parses `netsh` output for display.
- The favourites regex match is a parameter `fav` of `FetchUrlInfo`. The regex itself is not modelled.
- The yt-dlp download and demucs argument builders (downloader.js:50-74, 100-119; karaoke.js:68-82) are left out. They are flag-to-string appends. The listing options `--socket-timeout`, `--user-agent`, `--no-check-certificates` and `--no-warnings` are modelled as present or absent, without their rendered values (`String(...)`).
- `cleanupSeparatedFiles` and the removal of the separation output directory are left out, since they touch only the file system.
- The fields `pic` and `playedAt` are left out, since nothing in the core reads them. The legacy `localPath: null` override in `readd_history` is left out too, since the model has no such field.
- `karaokeProcessingQueue = []` in `system_reset` (server.js:1052) is left out. It assigns a name that is never declared, so it creates a global that nothing reads.
- Floating point is modelled as `real`. `Math.round` is modelled as rounding half up on non-negative values. `parseFloat`, `toFixed` and IEEE rounding are not modelled.
- Config.NumberOr: a setting that is present but not a number reads as the default, whereas JavaScript would use the value as it is.
- Config.DeepMerge: an array target that the source gives as an object is kept unchanged. JavaScript keeps the (truthy) array and writes the object's keys into it. For example, the default `ytdlp.addHeader: []` (src/config/configManager.js:23) merged with `{"ytdlp":{"addHeader":{"0":"Referer: x"}}}` gives `["Referer: x"]` in JavaScript, which src/services/downloader.js:70 passes on as a header; the model gives `[]`. A `__proto__` key in the source is stored as an ordinary key, whereas JavaScript merges it into `Object.prototype`. `Json` has no `undefined`; a missing key plays that role.
- Server.ManageQueue: the contract states the queue and the deleted files, but not what the download pass and the separation pass then do to songs and jobs. Those passes are specified by `ProcessDownloadQueue` and `ProcessNextKaraoke`.
- Server.ControlAction: when a vocal-removal trigger finds the scheduler idle, the contract states only that the invariant holds, not which song the pass starts.
- Server.PlayerTick: the tick is a record of optional known fields. Unknown keys, and explicit `null` values that JavaScript would copy in, are not modelled.
- Server.SyncAndSchedule: the contract states what the download pass leaves alone, not which songs it starts. `ProcessDownloadQueue` states that.
- Karaoke.OnSeparationClose: the contract states the song's separated state and the invariant. The rest of the following scheduling pass is stated by `ProcessNextKaraoke`.
- Karaoke.OnSeparationError: the same as for the close handler.
- Downloader.OnLoudnessDone: the contract does not restate the player status or which songs the final download pass starts. `CompleteAndPlay` and `ProcessDownloadQueue` state those.
- Downloader.HandOver: with automatic separation on, the contract says only that the finished song is unchanged or started. It does not say which song the pass picks; `QueueKaraokeProcessing` states that.
- Config.DownloadCap: any setting that is present but not a number (a string, an array, an object) is read as the cap 1. In JavaScript it is coerced: a numeric string such as "3" and a one-element array such as `[3]` give 3; a non-numeric string or an object such as `{}` give NaN, so that `activeCount >= NaN` is false and no cap applies at all. Neither is modelled, because the JSON model does not convert values to numbers.
- SystemService.LoudnessGain: the loudness report is taken as a real number. An `input_i` that `parseFloat` turns into NaN (such as "-inf", which ffmpeg reports for silence) makes the gain NaN, and `Math.max`/`Math.min` pass it on unclamped; floating point is not modelled.
- One terminal event per process: every external process is assumed to deliver exactly one of its terminal events (`close` or `error`), and the handlers `Karaoke.OnSeparationClose`, `Karaoke.OnSeparationError`, `Downloader.OnVideoClose`, `Downloader.OnVideoError`, `Downloader.OnAudioClose` and `Downloader.OnAudioError` require the job they end to be live. Node can emit `close` after `error`. For a separation, such a late `close` would clear `isProcessingKaraoke` while another separation runs (src/services/karaoke.js:102-136). For a download, `handleDownloadError` would run twice. Neither interleaving is modelled.
- Sync broadcast of the server's own `startDownload`: the model broadcasts the `emitSync` snapshot, which carries `autoProcessKaraoke`. The copy at server.js:416 omits that field.
- Fetcher.ConfiguredOptions: the option values are the configured JSON values and are not rendered to strings.

## Findings

| source | as written | input that shows it | evidently intended | confidence | as-written member | corrected member |
|---|---|---|---|---|---|---|
| src/services/system.js:71-79 | `deleteSongFile` deletes the separation job's map entry without clearing the song's `karaokeProcessing` flag or its manual-queue entry. `server.js` requires none of `src/services/*`, so this copy is not used by the running server. The killed process's later `close` clears the flag again, so the flag disagreement is transient; the stale manual-queue entry stays | delete a queued song while it is being separated | terminate the separation as `terminateKaraokeProcess` does (the server's copy at server.js:655-658) | not executed | SystemService.DeleteAsWrittenBreaksAgreement | SystemService.DeleteSongFile |
| src/services/karaoke.js:146-149 | `processNextKaraoke` sets `isProcessingKaraoke` before `processVocalSeparation`, which returns early when the audio file is missing, and nothing clears the flag | a ready song queued by hand, or the current song with automatic separation on, whose audio file was removed from the downloads folder by something other than the server (`WedgeWitness`); no path inside the server is known to remove it first, since the deferred deletion terminates the song's separation state and drops its manual-queue entry before deleting files | the flag set only when a separation actually starts, so later passes are not blocked forever | not executed | Karaoke.ProcessNextKaraokeAsWritten | Karaoke.ProcessNextKaraoke |
| src/config/configManager.js:84 | `{ ...DEFAULT_ADVANCED_CONFIG }` copies only the top level, so the merge writes into the default sections themselves | load a file with `system.maxConcurrentDownloads: 3`, then reset: the reset default has a cap of 3 | merge onto a deep copy, as lines 90 and 96 do | not executed | Config.ShallowLoadPollutesDefaults | Config.ConfigManager.Load |
| server.js:949 | `readd_history` spreads the whole history entry, so `karaokeProcessing`, `karaokeReady`, `karaokeSrc` and the file paths of the old song are copied into the new one | re-add an entry copied while its song was being separated (`ReaddAsWrittenWitness`) | a fresh pending song with only title, uploader, link and requester kept | not executed | Server.ReaddAsWrittenKeepsKaraokeState | Server.Readded |
