/** DVBViewerTvService: the adapter between the media server's live-TV service
    contract and the DVBViewer Recording Service. Every backend call is an
    input: the answer the backend would give is passed in, and the ghost field
    `calls` records the requests issued, in order. */
module TvService {
  import opened Base
  import opened Entities
  import opened TimerCache
  import StreamSession

  class DVBViewerTvService {
    /** Raised by the timer mutators, consumed by the next cached read. */
    var refreshTimers: bool
    /** The "timers" entry of the memory cache. */
    var timerCache: Option<CacheEntry>
    /** The descriptor of the most recently opened stream. */
    var currentStreamDetails: Option<StreamingDetails>
    /** Every request sent to the backend proxies so far. */
    ghost var calls: seq<BackendCall>

    function CacheView(): CacheState
      reads this
    {
      CacheState(refreshTimers, timerCache)
    }

    constructor ()
      ensures !refreshTimers && timerCache == None && currentStreamDetails == None && calls == []
    {
      refreshTimers := false;
      timerCache := None;
      currentStreamDetails := None;
      calls := [];
    }

    // ---- Timers ----

    /** GetTimersAsync: `enableTimerCache` is the configuration switch, `now`
        the clock, `schedules` the backend's schedule list (or its error). */
    method GetTimersAsync(enableTimerCache: bool, now: int, schedules: Result<seq<TimerInfo>>) returns (r: Result<seq<TimerInfo>>)
      modifies this
      ensures var o := ReadTimers(old(CacheView()), enableTimerCache, now, schedules);
        r == o.result && CacheView() == o.state &&
        calls == old(calls) + (if o.fetched then [GetSchedules] else [])
      ensures CountFetches(calls) == old(CountFetches(calls)) + (if ReadTimers(old(CacheView()), enableTimerCache, now, schedules).fetched then 1 else 0)
      ensures currentStreamDetails == old(currentStreamDetails)
    {
      if enableTimerCache {
        if refreshTimers {
          timerCache := None;
          refreshTimers := false;
        }
        if !IsLive(timerCache, now) {
          // the lookup itself evicts an expired entry
          timerCache := None;
          var expiration := now + TimerCacheLifetime;
          calls := calls + [GetSchedules];
          if schedules.Failure? {
            r := Failure(schedules.fault);
            CountFetchesAppend(old(calls), [GetSchedules]);
            return;
          }
          timerCache := Some(CacheEntry(schedules.value, expiration));
          CountFetchesAppend(old(calls), [GetSchedules]);
        }
        r := Success(timerCache.value.timers);
      } else {
        calls := calls + [GetSchedules];
        CountFetchesAppend(old(calls), [GetSchedules]);
        r := schedules;
      }
    }

    /** CreateTimerAsync: the flag is raised before the backend is asked, so
        the next cached read refetches even when the creation fails. */
    method CreateTimerAsync(info: TimerInfo, created: Outcome) returns (r: Outcome)
      modifies this`refreshTimers, this`calls
      ensures CacheView() == Invalidate(old(CacheView()))
      ensures calls == old(calls) + [CreateSchedule(info)]
      ensures r == created
    {
      refreshTimers := true;
      calls := calls + [CreateSchedule(info)];
      r := created;
    }

    /** UpdateTimerAsync: invalidates like CreateTimerAsync. */
    method UpdateTimerAsync(info: TimerInfo, changed: Outcome) returns (r: Outcome)
      modifies this`refreshTimers, this`calls
      ensures CacheView() == Invalidate(old(CacheView()))
      ensures calls == old(calls) + [ChangeSchedule(info)]
      ensures r == changed
    {
      refreshTimers := true;
      calls := calls + [ChangeSchedule(info)];
      r := changed;
    }

    /** CancelTimerAsync: invalidates like CreateTimerAsync. */
    method CancelTimerAsync(timerId: string, deleted: Outcome) returns (r: Outcome)
      modifies this`refreshTimers, this`calls
      ensures CacheView() == Invalidate(old(CacheView()))
      ensures calls == old(calls) + [DeleteSchedule(timerId)]
      ensures r == deleted
    {
      refreshTimers := true;
      calls := calls + [DeleteSchedule(timerId)];
      r := deleted;
    }

    // ---- Series timers: forwarded, outside the timer cache ----

    method GetSeriesTimersAsync(seriesSchedules: Result<seq<SeriesTimerInfo>>) returns (r: Result<seq<SeriesTimerInfo>>)
      modifies this`calls
      ensures calls == old(calls) + [GetSeriesSchedules] && r == seriesSchedules
    {
      calls := calls + [GetSeriesSchedules];
      r := seriesSchedules;
    }

    method CreateSeriesTimerAsync(info: SeriesTimerInfo, created: Outcome) returns (r: Outcome)
      modifies this`calls
      ensures calls == old(calls) + [CreateSeriesSchedule(info)] && r == created
    {
      calls := calls + [CreateSeriesSchedule(info)];
      r := created;
    }

    method UpdateSeriesTimerAsync(info: SeriesTimerInfo, changed: Outcome) returns (r: Outcome)
      modifies this`calls
      ensures calls == old(calls) + [ChangeSeriesSchedule(info)] && r == changed
    {
      calls := calls + [ChangeSeriesSchedule(info)];
      r := changed;
    }

    method CancelSeriesTimerAsync(timerId: string, deleted: Outcome) returns (r: Outcome)
      modifies this`calls
      ensures calls == old(calls) + [DeleteSeriesSchedule(timerId)] && r == deleted
    {
      calls := calls + [DeleteSeriesSchedule(timerId)];
      r := deleted;
    }

    // ---- Channels, programs and recordings: forwarded ----

    method GetChannelsAsync(channels: Result<seq<ChannelInfo>>) returns (r: Result<seq<ChannelInfo>>)
      modifies this`calls
      ensures calls == old(calls) + [GetChannels] && r == channels
    {
      calls := calls + [GetChannels];
      r := channels;
    }

    /** A missing logo's null-reference fault is rethrown unchanged. */
    method GetChannelImageAsync(channelId: string, logo: Result<ImageStream>) returns (r: Result<ImageStream>)
      modifies this`calls
      ensures calls == old(calls) + [GetChannelLogo(channelId)] && r == logo
    {
      calls := calls + [GetChannelLogo(channelId)];
      r := logo;
    }

    method GetProgramsAsync(channelId: string, startDateUtc: int, endDateUtc: int, programs: Result<seq<ProgramInfo>>) returns (r: Result<seq<ProgramInfo>>)
      modifies this`calls
      ensures calls == old(calls) + [GetPrograms(channelId, startDateUtc, endDateUtc)] && r == programs
    {
      calls := calls + [GetPrograms(channelId, startDateUtc, endDateUtc)];
      r := programs;
    }

    method GetRecordingsAsync(recordings: Result<seq<RecordingInfo>>) returns (r: Result<seq<RecordingInfo>>)
      modifies this`calls
      ensures calls == old(calls) + [GetRecordings] && r == recordings
    {
      calls := calls + [GetRecordings];
      r := recordings;
    }

    method DeleteRecordingAsync(recordingId: string, deleted: Outcome) returns (r: Outcome)
      modifies this`calls
      ensures calls == old(calls) + [DeleteRecording(recordingId)] && r == deleted
    {
      calls := calls + [DeleteRecording(recordingId)];
      r := deleted;
    }

    // ---- Streaming ----

    /** GetChannelStream: `details` is the streaming proxy's live-stream
        session for the channel; `streamId` is not used. */
    method GetChannelStream(channelId: string, streamId: string, details: Result<StreamingDetails>) returns (r: Result<MediaSourceInfo>)
      modifies this`currentStreamDetails, this`calls
      ensures var o := StreamSession.Open(old(currentStreamDetails), details);
        currentStreamDetails == o.current && r == o.result
      ensures calls == old(calls) + [GetLiveTvStream(channelId)]
    {
      calls := calls + [GetLiveTvStream(channelId)];
      if details.Failure? {
        return Failure(details.fault);
      }
      currentStreamDetails := Some(details.value);
      r := Success(currentStreamDetails.value.sourceInfo);
    }

    /** GetRecordingStream: playback from the start of the recording. */
    method GetRecordingStream(recordingId: string, streamId: string, details: Result<StreamingDetails>) returns (r: Result<MediaSourceInfo>)
      modifies this`currentStreamDetails, this`calls
      ensures var o := StreamSession.Open(old(currentStreamDetails), details);
        currentStreamDetails == o.current && r == o.result
      ensures calls == old(calls) + [BackendCall.GetRecordingStream(recordingId, 0)]
    {
      calls := calls + [BackendCall.GetRecordingStream(recordingId, 0)];
      if details.Failure? {
        return Failure(details.fault);
      }
      currentStreamDetails := Some(details.value);
      r := Success(currentStreamDetails.value.sourceInfo);
    }

    // ---- Unsupported: always fail, touch nothing ----

    method ResetTuner(id: string) returns (r: Outcome)
      ensures r == Fail(NotImplemented)
    {
      r := Fail(NotImplemented);
    }

    method GetProgramImageAsync(programId: string, channelId: string) returns (r: Result<ImageStream>)
      ensures r == Failure(NotImplemented)
    {
      r := Failure(NotImplemented);
    }

    method GetRecordingImageAsync(recordingId: string) returns (r: Result<ImageStream>)
      ensures r == Failure(NotImplemented)
    {
      r := Failure(NotImplemented);
    }

    method GetChannelStreamMediaSources(channelId: string) returns (r: Result<seq<MediaSourceInfo>>)
      ensures r == Failure(NotImplemented)
    {
      r := Failure(NotImplemented);
    }

    method GetRecordingStreamMediaSources(recordingId: string) returns (r: Result<seq<MediaSourceInfo>>)
      ensures r == Failure(NotImplemented)
    {
      r := Failure(NotImplemented);
    }

    method RecordLiveStream(id: string) returns (r: Outcome)
      ensures r == Fail(NotImplemented)
    {
      r := Fail(NotImplemented);
    }

    method CloseLiveStream(id: string) returns (r: Outcome)
      ensures r == Fail(NotImplemented)
    {
      r := Fail(NotImplemented);
    }
  }

  /** A cold cached read fetches and stores the list; creating a timer then
      forces the next read, however soon, to fetch the backend's new list. */
  method ReadCreateRead(now: int, later: int, before: seq<TimerInfo>, timer: TimerInfo, after: seq<TimerInfo>)
    returns (first: Result<seq<TimerInfo>>, second: Result<seq<TimerInfo>>)
    ensures first == Success(before) && second == Success(after)
  {
    var service := new DVBViewerTvService();
    first := service.GetTimersAsync(true, now, Success(before));
    var _ := service.CreateTimerAsync(timer, Pass);
    second := service.GetTimersAsync(true, later, Success(after));
    assert service.calls == [GetSchedules, CreateSchedule(timer), GetSchedules];
  }

  /** Two cached reads less than 20 s apart, with no mutation between them,
      return the same list and fetch once, whatever the backend would say the
      second time. */
  method ReadTwiceWithinLifetime(now: int, later: int, stored: seq<TimerInfo>, other: Result<seq<TimerInfo>>)
    returns (first: Result<seq<TimerInfo>>, second: Result<seq<TimerInfo>>, ghost fetches: nat)
    requires later < now + TimerCacheLifetime
    ensures first == Success(stored) && second == first
    ensures fetches == 1
  {
    var service := new DVBViewerTvService();
    first := service.GetTimersAsync(true, now, Success(stored));
    second := service.GetTimersAsync(true, later, other);
    fetches := CountFetches(service.calls);
  }

  /** Opening a channel stream and then a recording stream leaves only the
      recording's session tracked. */
  method ChannelThenRecording(channelId: string, recordingId: string, live: StreamingDetails, recorded: StreamingDetails)
    returns (tracked: Option<StreamingDetails>)
    ensures tracked == Some(recorded)
  {
    var service := new DVBViewerTvService();
    var _ := service.GetChannelStream(channelId, "", Success(live));
    var _ := service.GetRecordingStream(recordingId, "", Success(recorded));
    tracked := service.currentStreamDetails;
  }
}
