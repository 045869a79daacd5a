/** The stream session tracker: the descriptor of the most recently opened
    stream, channel or recording, replaced on every successful open and never
    released. */
module StreamSession {
  import opened Base
  import opened Entities

  /** The tracked session after an open attempt, and what the caller gets back. */
  datatype OpenOutcome = OpenOutcome(current: Option<StreamingDetails>, result: Result<MediaSourceInfo>)

  /** GetChannelStream and GetRecordingStream: `answer` is what the streaming
      proxy yields. A successful open replaces the tracked session whatever it
      was and hands back its media source; a failed one raises before the
      assignment, so the tracked session is kept. */
  function Open(current: Option<StreamingDetails>, answer: Result<StreamingDetails>): (o: OpenOutcome)
    ensures answer.Success? ==> o.current == Some(answer.value) && o.result == Success(answer.value.sourceInfo)
    ensures answer.Failure? ==> o.current == current && o.result == Failure(answer.fault)
  {
    match answer
    case Success(details) => OpenOutcome(Some(details), Success(details.sourceInfo))
    case Failure(f) => OpenOutcome(current, Failure(f))
  }

  /** The tracked session after a sequence of open attempts, one after another. */
  function AfterOpens(current: Option<StreamingDetails>, attempts: seq<Result<StreamingDetails>>): Option<StreamingDetails>
    decreases |attempts|
  {
    if attempts == [] then current
    else AfterOpens(Open(current, attempts[0]).current, attempts[1..])
  }

  /** The last successfully opened session in a sequence of attempts, if any. */
  function LastOpened(attempts: seq<Result<StreamingDetails>>): Option<StreamingDetails>
  {
    if attempts == [] then None
    else if attempts[|attempts| - 1].Success? then Some(attempts[|attempts| - 1].value)
    else LastOpened(attempts[..|attempts| - 1])
  }

  lemma {:induction false} AfterOpensSnoc(current: Option<StreamingDetails>, attempts: seq<Result<StreamingDetails>>, last: Result<StreamingDetails>)
    ensures AfterOpens(current, attempts + [last]) == Open(AfterOpens(current, attempts), last).current
    decreases |attempts|
  {
    if attempts == [] {
      assert attempts + [last] == [last];
    } else {
      assert (attempts + [last])[1..] == attempts[1..] + [last];
      AfterOpensSnoc(Open(current, attempts[0]).current, attempts[1..], last);
    }
  }

  /** Last writer wins: only the latest successfully opened session remains
      tracked; the earlier one is kept only when no open succeeded. */
  lemma {:induction false} LatestSessionWins(current: Option<StreamingDetails>, attempts: seq<Result<StreamingDetails>>)
    ensures AfterOpens(current, attempts) == if LastOpened(attempts).Some? then LastOpened(attempts) else current
    decreases |attempts|
  {
    if attempts != [] {
      var init, last := attempts[..|attempts| - 1], attempts[|attempts| - 1];
      assert attempts == init + [last];
      AfterOpensSnoc(current, init, last);
      LatestSessionWins(current, init);
    }
  }
}
