/** The host-side records the adapter passes between the media server and the
    Recording Service. Their full field lists live in the host's and the
    backend proxy's libraries; only the fields the adapter reads or writes, or
    that identify a record, are kept. */
module Entities {
  import opened Base

  /** TimeSpan and DateTime resolution: one tick is 100 ns. */
  const TicksPerSecond: int := 10_000_000

  datatype DayOfWeek = Sunday | Monday | Tuesday | Wednesday | Thursday | Friday | Saturday

  datatype ChannelInfo = ChannelInfo(id: string, name: string, number: string)

  datatype ProgramInfo = ProgramInfo(id: string, channelId: string, name: string, startDateUtc: int, endDateUtc: int)

  datatype RecordingInfo = RecordingInfo(id: string, name: string, channelId: string)

  datatype ImageStream = ImageStream(format: string, data: seq<bv8>)

  /** A single scheduled recording. */
  datatype TimerInfo = TimerInfo(id: string, channelId: string, programId: string, startDateUtc: int, endDateUtc: int)

  /** A recurring schedule, and also the shape of the new-timer defaults. */
  datatype SeriesTimerInfo = SeriesTimerInfo(
    id: string,
    channelId: string,
    programId: string,
    isPostPaddingRequired: bool,
    isPrePaddingRequired: bool,
    postPaddingSeconds: int,
    prePaddingSeconds: int,
    recordNewOnly: bool,
    recordAnyChannel: bool,
    recordAnyTime: bool,
    days: seq<DayOfWeek>,
    skipEpisodesInLibrary: bool)

  /** The backend-wide pre- and post-recording intervals, as TimeSpan ticks. */
  datatype ScheduleDefaults = ScheduleDefaults(preRecordInterval: int, postRecordInterval: int)

  datatype MediaSourceInfo = MediaSourceInfo(id: string, path: string)

  /** The session descriptor the streaming proxy hands back when a stream is opened. */
  datatype StreamingDetails = StreamingDetails(streamId: string, sourceInfo: MediaSourceInfo)

  /** One request the adapter issues to the backend proxies, in the order issued. */
  datatype BackendCall =
    | GetChannels
    | GetChannelLogo(channelId: string)
    | GetPrograms(channelId: string, startDateUtc: int, endDateUtc: int)
    | GetRecordings
    | DeleteRecording(recordingId: string)
    | GetSchedules
    | CreateSchedule(timer: TimerInfo)
    | ChangeSchedule(timer: TimerInfo)
    | DeleteSchedule(timerId: string)
    | GetSeriesSchedules
    | CreateSeriesSchedule(series: SeriesTimerInfo)
    | ChangeSeriesSchedule(series: SeriesTimerInfo)
    | DeleteSeriesSchedule(seriesId: string)
    | GetLiveTvStream(channelId: string)
    | GetRecordingStream(recordingId: string, offsetTicks: int)

  /** How many times the schedule list was fetched in a sequence of backend calls. */
  function CountFetches(calls: seq<BackendCall>): nat
  {
    if calls == [] then 0
    else (if calls[0] == GetSchedules then 1 else 0) + CountFetches(calls[1..])
  }

  lemma {:induction false} CountFetchesAppend(a: seq<BackendCall>, b: seq<BackendCall>)
    ensures CountFetches(a + b) == CountFetches(a) + CountFetches(b)
  {
    if a != [] {
      assert (a + b)[1..] == a[1..] + b;
      CountFetchesAppend(a[1..], b);
    } else {
      assert a + b == b;
    }
  }
}
