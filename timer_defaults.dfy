/** GetNewTimerDefaultsAsync: the defaults offered for a new timer, derived from
    the backend-wide schedule defaults and, when one is given, the program the
    timer is for. */
module TimerDefaults {
  import opened Base
  import opened Entities

  /** The fixed recording policy every new-timer default carries. */
  predicate HasDefaultPolicy(t: SeriesTimerInfo)
  {
    t.recordNewOnly && !t.recordAnyChannel && !t.recordAnyTime && !t.skipEpisodesInLibrary
  }

  /** (Int32)interval.TotalSeconds: whole seconds, truncated toward zero. */
  function TruncatedSeconds(ticks: int): (s: int)
    ensures ticks >= 0 ==> s * TicksPerSecond <= ticks < (s + 1) * TicksPerSecond
    ensures ticks <= 0 ==> (s - 1) * TicksPerSecond < ticks <= s * TicksPerSecond
  {
    if ticks >= 0 then ticks / TicksPerSecond else -((-ticks) / TicksPerSecond)
  }

  /** The new-timer defaults. `answer` is the backend's schedule defaults, or
      the exception its query raises, which is passed on unchanged. `localDay`
      gives the local day of the week of a UTC instant (the host's time zone). */
  function GetNewTimerDefaults(answer: Result<ScheduleDefaults>, program: Option<ProgramInfo>, localDay: int -> DayOfWeek): (r: Result<SeriesTimerInfo>)
    ensures answer.Failure? ==> r == Failure(answer.fault)
    ensures answer.Success? ==> r.Success?
    ensures r.Success? ==> (r.value.isPostPaddingRequired <==> answer.value.postRecordInterval > 0)
    ensures r.Success? ==> (r.value.isPrePaddingRequired <==> answer.value.preRecordInterval > 0)
    ensures r.Success? ==> r.value.postPaddingSeconds == TruncatedSeconds(answer.value.postRecordInterval)
    ensures r.Success? ==> r.value.prePaddingSeconds == TruncatedSeconds(answer.value.preRecordInterval)
    ensures r.Success? && program.None? ==> r.value.days == []
    ensures r.Success? && program.Some? ==> r.value.days == [localDay(program.value.startDateUtc)]
    ensures r.Success? ==> HasDefaultPolicy(r.value)
  {
    match answer
    case Failure(f) => Failure(f)
    case Success(defaults) =>
      var days := if program.Some? then [localDay(program.value.startDateUtc)] else [];
      Success(SeriesTimerInfo(
        id := "", channelId := "", programId := "",
        isPostPaddingRequired := defaults.postRecordInterval > 0,
        isPrePaddingRequired := defaults.preRecordInterval > 0,
        postPaddingSeconds := TruncatedSeconds(defaults.postRecordInterval),
        prePaddingSeconds := TruncatedSeconds(defaults.preRecordInterval),
        recordNewOnly := true,
        recordAnyChannel := false,
        recordAnyTime := false,
        days := days,
        skipEpisodesInLibrary := false))
  }

  /** For intervals of whole seconds (the backend's are whole minutes) the
      padding seconds are exactly the interval lengths. */
  lemma PaddingSecondsAreIntervalLengths(defaults: ScheduleDefaults, program: Option<ProgramInfo>, localDay: int -> DayOfWeek)
    requires defaults.preRecordInterval % TicksPerSecond == 0
    requires defaults.postRecordInterval % TicksPerSecond == 0
    ensures GetNewTimerDefaults(Success(defaults), program, localDay).value.prePaddingSeconds * TicksPerSecond == defaults.preRecordInterval
    ensures GetNewTimerDefaults(Success(defaults), program, localDay).value.postPaddingSeconds * TicksPerSecond == defaults.postRecordInterval
  {
  }

  /** A positive padding length is always flagged as required, and a padding
      flagged as required never has a negative length. */
  lemma PaddingFlagsAgreeWithSeconds(defaults: ScheduleDefaults, program: Option<ProgramInfo>, localDay: int -> DayOfWeek)
    ensures var r := GetNewTimerDefaults(Success(defaults), program, localDay).value;
      (r.prePaddingSeconds > 0 ==> r.isPrePaddingRequired) &&
      (r.postPaddingSeconds > 0 ==> r.isPostPaddingRequired) &&
      (r.isPrePaddingRequired ==> r.prePaddingSeconds >= 0) &&
      (r.isPostPaddingRequired ==> r.postPaddingSeconds >= 0)
  {
  }

  /** The flag is decided on ticks and the length on truncated seconds, so a
      sub-second interval is flagged as required with zero padding seconds. */
  lemma SubSecondPaddingIsRequiredButZero(localDay: int -> DayOfWeek)
    ensures var r := GetNewTimerDefaults(Success(ScheduleDefaults(TicksPerSecond / 2, TicksPerSecond / 2)), None, localDay).value;
      r.isPrePaddingRequired && r.prePaddingSeconds == 0 &&
      r.isPostPaddingRequired && r.postPaddingSeconds == 0
  {
  }
}
