# DVBViewer live-TV adapter, modelled in Dafny

`DVBViewerTvService` connects a media server's live-TV service contract to the DVBViewer Recording Service. Most of its members forward a request to the backend proxies (`TvProxy`, `StreamingProxy`) and hand back the answer. This model covers the class's own logic:

- **Status report** (module `Status`). Configuration is checked first, then the backend is probed. A failing probe gives the same "Unavailable, check your settings" record as an invalid configuration.
- **New-timer defaults** (module `TimerDefaults`). Padding flags are decided on the intervals' ticks; padding lengths are the intervals truncated to whole seconds. The day list is the program's local start day, or empty without a program. The recording policy is fixed.
- **Timer-list cache** (module `TimerCache`, on values; class `TvService.DVBViewerTvService`, in fields). It holds one entry under "timers" with a 20-second absolute expiry, plus a `refreshTimers` flag that create, update and cancel raise before they call the backend.
- **Stream session tracker** (module `StreamSession`; the class's `currentStreamDetails`). Every successful open replaces the tracked session, and the last writer wins.
- **Pass-throughs and unsupported members** (the class). Forwarded calls append to a ghost log of backend requests and touch nothing else. The seven unsupported members always fail with `NotImplemented` and have no frame to change.

Backend answers are parameters. A `Result` is either the value or the exception the call raises. The clock (`now`, in ticks), the configuration switches, the plugin version and the host's UTC-to-local day conversion are parameters too. The ghost field `calls` records every backend request in order, and `CountFetches` counts the schedule-list fetches among them.

## Model

| member | source | states |
|---|---|---|
| Status.GetStatusInfo | DVBViewerTVPlugin/DVBViewerTVService.cs:36-84 | The status is Ok iff the configuration is valid and the probe succeeds. Every Unavailable status is the single "check your settings" record with version "DVBViewer Live TV Plugin V{plugin}". An Ok status carries the connected message and version "…V{plugin} - {service}". An update is never reported. |
| Status.InvalidConfigurationIgnoresProbe | DVBViewerTVPlugin/DVBViewerTVService.cs:40-53 | With an invalid configuration the probe's answer cannot change the status, so the backend is not consulted. The status is Unavailable with the "check your settings" message. |
| Status.FailedProbeLooksLikeInvalidConfiguration | DVBViewerTVPlugin/DVBViewerTVService.cs:56-81 | A failing probe yields exactly the record an invalid configuration yields, and no fault escapes. |
| Status.OkVersionEmbedsBothVersions | DVBViewerTVPlugin/DVBViewerTVService.cs:58-66 | The Ok version label splits into product label, plugin version, " - " and service version, in that order. |
| Status.OkVersionDeterminesServiceVersion | DVBViewerTVPlugin/DVBViewerTVService.cs:58-66 | Equal Ok version labels for one plugin version imply equal service versions. |
| TimerDefaults.TruncatedSeconds | DVBViewerTVPlugin/DVBViewerTVService.cs:158-159 | Casting TotalSeconds to an integer gives the whole seconds truncated toward zero: within one second of the interval, on the side of zero. |
| TimerDefaults.GetNewTimerDefaults | DVBViewerTVPlugin/DVBViewerTVService.cs:146-166 | A fault from the schedule-defaults query is passed on unchanged. Otherwise each padding-required flag holds iff its interval is strictly positive, and each padding length is that interval in whole seconds truncated toward zero. Days is [local start day] with a program and [] without. The policy is record-new-only with no other options. |
| TimerDefaults.PaddingSecondsAreIntervalLengths | DVBViewerTVPlugin/DVBViewerTVService.cs:156-159 | For whole-second intervals, the padding seconds are exactly the interval lengths. |
| TimerDefaults.PaddingFlagsAgreeWithSeconds | DVBViewerTVPlugin/DVBViewerTVService.cs:156-159 | Positive padding seconds imply the flag. A flagged padding is never negative. |
| TimerDefaults.SubSecondPaddingIsRequiredButZero | DVBViewerTVPlugin/DVBViewerTVService.cs:156-159 | The flag reads ticks but the length reads truncated seconds, so a half-second interval is flagged as required with 0 padding seconds. |
| TimerCache.ReadTimers | DVBViewerTVPlugin/DVBViewerTVService.cs:168-196 | Disabled cache: always fetch, state unchanged. Enabled: the flag ends cleared, and the read fetches iff the flag was set or no entry was live. A fetch returns the backend's answer and stores it until now + 20 s (nothing on failure). A hit returns the stored list and changes nothing. |
| TimerCache.MutationForcesRefetch | DVBViewerTVPlugin/DVBViewerTVService.cs:174-187 | After create, update or cancel, the next cached read fetches and returns the backend's current answer, however young the entry. |
| TimerCache.TwoReadsWithinLifetime | DVBViewerTVPlugin/DVBViewerTVService.cs:180-190 | Two cached reads less than 20 s apart, the first one succeeding, fetch at most once. When the first fetched, or its entry is still live, they return the same list. |
| TimerCache.DisabledCacheFetchesOnEveryRead | DVBViewerTVPlugin/DVBViewerTVService.cs:192-195 | Over any sequence of reads and mutations with the cache disabled, the fetches equal the reads. Each read returns the backend's answer, and the entry is untouched. |
| TimerCache.ReadsWithinLifetimeShareOneList | DVBViewerTVPlugin/DVBViewerTVService.cs:170-190 | Take a successful cached read, then any number of reads before its entry expires (now + 20 s when it fetched), with no mutation between. The whole run asks the backend at most once, only in the first read, and every read returns the same list. |
| TimerCache.LiveEntryServesEveryRead | DVBViewerTVPlugin/DVBViewerTVService.cs:180-190 | While a clean entry is live and nothing mutates, every read returns its list, nothing is fetched and the state stays as it was. |
| TimerCache.ReadTimersAsWritten | DVBViewerTVPlugin/DVBViewerTVService.cs:180-190 | The read as written samples the clock for Contains and expiry before the fetch and for Get after it. It returns null only when the entry the corrected read would leave is dead at Get time. |
| TimerCache.SlowFetchReturnsNull | DVBViewerTVPlugin/DVBViewerTVService.cs:183-190 | A cold read whose backend call takes 20 s returns null (see Findings). |
| TimerCache.AsWrittenAgreesWhilePrompt | DVBViewerTVPlugin/DVBViewerTVService.cs:180-190 | When the entry is still live at Get time, or the fetch failed, the as-written read returns what the corrected read returns. |
| TimerCache.ReadTimersAlwaysAnswers | DVBViewerTVPlugin/DVBViewerTVService.cs:180-190 | The corrected read fails iff it fetched and the backend failed; otherwise it returns a list. |
| StreamSession.Open | DVBViewerTVPlugin/DVBViewerTVService.cs:246-261 | A successful open replaces the tracked session with the new one and returns its media source. A failed open keeps the tracked session and passes the fault on. |
| StreamSession.LatestSessionWins | DVBViewerTVPlugin/DVBViewerTVService.cs:246-261 | After any sequence of open attempts, the tracked session is the last successful one, or the initial one if none succeeded. |
| TvService.DVBViewerTvService.constructor | DVBViewerTVPlugin/DVBViewerTVService.cs:21-22 | A new service starts with the flag down, no cached entry, no stream session and no backend request. |
| TvService.DVBViewerTvService.GetTimersAsync | DVBViewerTVPlugin/DVBViewerTVService.cs:168-196 | The fields and the result follow TimerCache.ReadTimers exactly. The log gains one schedule-list request iff it fetched, so the fetch count grows by that much. The stream session is unchanged. |
| TvService.DVBViewerTvService.CreateTimerAsync | DVBViewerTVPlugin/DVBViewerTVService.cs:198-203 | Raises the flag and leaves the entry, then issues the create request. The backend's outcome, failure included, is returned. |
| TvService.DVBViewerTvService.UpdateTimerAsync | DVBViewerTVPlugin/DVBViewerTVService.cs:205-210 | Raises the flag and leaves the entry, then issues the change request and returns its outcome. |
| TvService.DVBViewerTvService.CancelTimerAsync | DVBViewerTVPlugin/DVBViewerTVService.cs:212-217 | Raises the flag and leaves the entry, then issues the delete request and returns its outcome. |
| TvService.DVBViewerTvService.GetSeriesTimersAsync | DVBViewerTVPlugin/DVBViewerTVService.cs:219-222 | Forwards the series list. The frame excludes the flag and the cache. |
| TvService.DVBViewerTvService.CreateSeriesTimerAsync | DVBViewerTVPlugin/DVBViewerTVService.cs:224-228 | Forwards the creation. The flag and the cache are untouched. |
| TvService.DVBViewerTvService.UpdateSeriesTimerAsync | DVBViewerTVPlugin/DVBViewerTVService.cs:230-234 | Forwards the change. The flag and the cache are untouched. |
| TvService.DVBViewerTvService.CancelSeriesTimerAsync | DVBViewerTVPlugin/DVBViewerTVService.cs:236-240 | Forwards the deletion. The flag and the cache are untouched. |
| TvService.DVBViewerTvService.GetChannelsAsync | DVBViewerTVPlugin/DVBViewerTVService.cs:95-98 | Forwards the channel list or its fault and changes no state. |
| TvService.DVBViewerTvService.GetChannelImageAsync | DVBViewerTVPlugin/DVBViewerTVService.cs:100-110 | Forwards the logo. A missing-logo fault is passed on unchanged. |
| TvService.DVBViewerTvService.GetProgramsAsync | DVBViewerTVPlugin/DVBViewerTVService.cs:112-115 | Forwards the channel and the time window unchanged and returns the backend's answer. |
| TvService.DVBViewerTvService.GetRecordingsAsync | DVBViewerTVPlugin/DVBViewerTVService.cs:126-129 | Forwards the recording list or its fault. |
| TvService.DVBViewerTvService.DeleteRecordingAsync | DVBViewerTVPlugin/DVBViewerTVService.cs:136-140 | Issues the deletion and returns its outcome. |
| TvService.DVBViewerTvService.GetChannelStream | DVBViewerTVPlugin/DVBViewerTVService.cs:246-250 | Requests a live stream for the channel. The tracked session and the result follow StreamSession.Open. |
| TvService.DVBViewerTvService.GetRecordingStream | DVBViewerTVPlugin/DVBViewerTVService.cs:257-261 | Requests the recording at offset zero. The tracked session and the result follow StreamSession.Open. |
| TvService.DVBViewerTvService.ResetTuner | DVBViewerTVPlugin/DVBViewerTVService.cs:86-89 | Always fails with NotImplemented and may change nothing. |
| TvService.DVBViewerTvService.GetProgramImageAsync | DVBViewerTVPlugin/DVBViewerTVService.cs:117-120 | Always fails with NotImplemented and may change nothing. |
| TvService.DVBViewerTvService.GetRecordingImageAsync | DVBViewerTVPlugin/DVBViewerTVService.cs:131-134 | Always fails with NotImplemented and may change nothing. |
| TvService.DVBViewerTvService.GetChannelStreamMediaSources | DVBViewerTVPlugin/DVBViewerTVService.cs:252-255 | Always fails with NotImplemented and may change nothing. |
| TvService.DVBViewerTvService.GetRecordingStreamMediaSources | DVBViewerTVPlugin/DVBViewerTVService.cs:263-266 | Always fails with NotImplemented and may change nothing. |
| TvService.DVBViewerTvService.RecordLiveStream | DVBViewerTVPlugin/DVBViewerTVService.cs:268-271 | Always fails with NotImplemented and may change nothing. |
| TvService.DVBViewerTvService.CloseLiveStream | DVBViewerTVPlugin/DVBViewerTVService.cs:273-276 | Always fails with NotImplemented and may change nothing. |
| TvService.ReadCreateRead | DVBViewerTVPlugin/DVBViewerTVService.cs:168-203 | A cold read returns the backend's list. After a timer is created, the next read, at any time, returns the backend's new list. |
| TvService.ReadTwiceWithinLifetime | DVBViewerTVPlugin/DVBViewerTVService.cs:168-196 | From a fresh service, two reads less than 20 s apart return the same list whatever the backend would answer the second time, and the backend is asked exactly once. |
| TvService.ChannelThenRecording | DVBViewerTVPlugin/DVBViewerTVService.cs:246-261 | After a channel stream and then a recording stream are opened, only the recording's session is tracked. |

## Left out

- The backend proxies' own behaviour (network calls, wire format, entity mapping): each answer is an input. The entity records keep only identifying fields, because their definitions are not part of this model.
- Tasks, async plumbing, cancellation tokens and `Task.Delay(0, …)`: calls are sequential and complete. A cancelled token's effect on the returned task is not modelled.
- Logging, and reading the plugin version by reflection: the version is an input string.
- Concurrency: the cache and `_currentStreamDetails` are process-wide (the field is static and `MemoryCache.Default` is shared), but the model has one service instance called sequentially.
- `MemoryCache` internals: only the single key, absolute expiry (live iff now < expiry) and eviction of an expired entry on lookup are modelled. Eviction under memory pressure is not.
- TimerDefaults.GetNewTimerDefaults: does not model double rounding of `TotalSeconds` or the unchecked `Int32` cast of an out-of-range value. Intervals are exact integers of ticks, and time-zone conversion is the `localDay` input.
- The events `RecordingStatusChanged` and `DataSourceChanged` are declared but never raised, so they are not modelled. The same goes for the constant `HomePageUrl` and `Name` properties.
- The unsupported members take no cancellation token, and their "no side effect" is expressed by having no modifies frame.

## Findings

| source | as written | input that shows it | evidently intended | confidence | as-written member | corrected member |
|---|---|---|---|---|---|---|
| DVBViewerTVPlugin/DVBViewerTVService.cs:183-190 | The expiry is computed before the backend fetch, and the list is read back with a second lookup (`Get`) after the fetch and `Add`. An entry that has already expired is not returned, so the cast yields a null task. | Cache enabled and cold, the schedule fetch takes 20 s: the stored entry is already expired and `GetTimersAsync` returns null. | The read returns the list it just fetched or found live. | medium, not executed | TimerCache.SlowFetchReturnsNull | TimerCache.ReadTimersAlwaysAnswers |

The class's `GetTimersAsync` uses the corrected read, with one clock reading per call. `TimerCache.AsWrittenAgreesWhilePrompt` shows that this matches the source whenever the read completes before the entry it relies on expires.

Two cached reads within 20 s return identical lists only when the first read fetched the list, or when the entry it was served from is still live at the second read. An entry stored earlier can expire between the two reads, and the second read then fetches again. `TimerCache.TwoReadsWithinLifetime` and `TimerCache.ReadsWithinLifetimeShareOneList` state what the code guarantees.
