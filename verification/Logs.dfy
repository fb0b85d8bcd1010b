// GetTrainedModelLogs: streaming a growing log to a client in pages.
module Logs {
  import opened Wrappers
  import opened JobStatus
  import opened Entries
  import opened Records
  import opened Repository

  const PAGE_SIZE: nat := 10

  datatype LogError = ServiceFailed | ReadFailed | SendFailed | StatusFailed | GaveUp

  /** The training data service holding one job's log, which others append to at any time. */
  class LogService {
    var lines: seq<string>

    /** At most `pageSize` lines from the 1-based position `pos`, none only when the log has no more. Callers know no
        more than this contract. */
    method GetLogs(pos: nat, pageSize: nat, reliable: bool) returns (r: Result<seq<string>, LogError>)
      requires pos >= 1 && pageSize >= 1
      modifies this
      ensures old(lines) <= lines
      ensures reliable ==> r.Success?
      ensures r.Failure? ==> r.error == ServiceFailed
      ensures r.Success? ==> var page := r.value;
        && |page| <= pageSize
        && (page != [] ==> pos - 1 + |page| <= |lines| && page == lines[pos - 1..pos - 1 + |page|])
        && (page == [] ==> |lines| <= pos - 1)
    {
      r := Success(if pos - 1 < |lines| then [lines[pos - 1]] else []);
    }
  }

  /** The client's stream. */
  class OutStream {
    var sent: seq<string>

    constructor ()
      ensures sent == []
    {
      sent := [];
    }

    method Send(line: string, reliable: bool) returns (ok: bool)
      modifies this
      ensures sent == if ok then old(sent) + [line] else old(sent)
      ensures reliable ==> ok
    {
      ok := *;
      ok := ok || reliable;
      if ok { sent := sent + [line]; }
    }
  }

  /** The job is missing, or in a status after which it writes no more logs. */
  predicate Finished(docs: seq<TrainingRecord>, id: TrainingId) {
    var tr := FindDoc(docs, id);
    tr.None? || tr.value.status.None?
    || tr.value.status.value.status in {COMPLETED, FAILED, HALTED, STORING}
  }

  /** A job that is there writes logs until it is storing its results or has ended. */
  lemma {:induction false} FinishedIff(docs: seq<TrainingRecord>, id: TrainingId)
    requires FindDoc(docs, id).Some? && FindDoc(docs, id).value.status.Some?
    ensures var s := FindDoc(docs, id).value.status.value.status;
      && (Finished(docs, id) <==> Terminal(s) || s == STORING)
      && (!Finished(docs, id) && !NotBegun(s) <==> s == DEPLOY || s == DOWNLOADING || s == PROCESSING)
  {
  }

  method IsLearningFinished(repo: TrainingsRepository, id: TrainingId, up: bool) returns (done: bool, ok: bool)
    requires FindDoc(repo.docs, id).Some? ==> FindDoc(repo.docs, id).value.status.Some?
    ensures ok == up && (ok ==> (done <==> Finished(repo.docs, id)))
    ensures !ok ==> done
  {
    var tr := repo.Find(id, up);
    if tr.Failure? { return true, tr.error == NotFound; }
    var s := tr.value.status.value.status;
    done := s == COMPLETED || s == FAILED || s == HALTED || s == STORING;
    ok := true;
  }

  ghost predicate StatusesSet(docs: seq<TrainingRecord>) {
    forall d | d in docs :: d.status.Some?
  }

  const SECOND: nat := 1_000_000_000

  /** Two seconds pass, or more, and others update the records. Callers know no more than this contract. */
  method Pause(repo: TrainingsRepository) returns (elapsed: nat)
    requires StatusesSet(repo.docs)
    modifies repo
    ensures StatusesSet(repo.docs) && elapsed >= 2 * SECOND
  {
    elapsed := 2 * SECOND;
  }

  // ---- waiting for the job to start ----

  const WAITING: string := "Waiting for training to start for log follow: "

  predicate IsWaiting(line: string) {
    WAITING <= line
  }

  predicate NotBegun(s: Status) {
    s == NOT_STARTED || s == QUEUED || s == PENDING
  }

  /** The job is there and past its initial statuses. */
  predicate Begun(docs: seq<TrainingRecord>, id: TrainingId) {
    var tr := FindDoc(docs, id);
    tr.Some? && tr.value.status.Some? && !NotBegun(tr.value.status.value.status)
  }

  method HasBegun(repo: TrainingsRepository, id: TrainingId, up: bool) returns (begun: bool, ok: bool)
    requires StatusesSet(repo.docs)
    ensures ok <==> up && FindDoc(repo.docs, id).Some?
    ensures begun <==> ok && Begun(repo.docs, id)
  {
    var tr := repo.Find(id, up);
    if tr.Failure? { return false, false; }
    begun, ok := !NotBegun(tr.value.status.value.status), true;
  }

  const PATIENCE: nat := 600 * SECOND

  const REPORT: nat := 15 * SECOND

  /** When the last report was due, given the times of the polls that found the job not begun. */
  function LastReport(polls: seq<nat>): nat {
    if polls == [] then 0
    else
      var last, time := LastReport(polls[..|polls| - 1]), polls[|polls| - 1];
      if time <= PATIENCE && time - last == REPORT then time else last
  }

  /** The reports: one for each poll that comes exactly 15 seconds after the report before, or after the start. */
  function Reports(polls: seq<nat>, minutes: nat -> string): seq<string> {
    if polls == [] then []
    else
      var before, time := polls[..|polls| - 1], polls[|polls| - 1];
      Reports(before, minutes)
      + if time <= PATIENCE && time - LastReport(before) == REPORT then [WAITING + minutes(time) + " minutes"] else []
  }

  /** The client is told nothing unless some poll comes exactly 15 seconds after the start. */
  lemma {:induction false} SilentIff(polls: seq<nat>, minutes: nat -> string)
    ensures Reports(polls, minutes) == [] <==> REPORT !in polls
    ensures REPORT !in polls ==> LastReport(polls) == 0
    decreases |polls|
  {
    if polls != [] {
      SilentIff(polls[..|polls| - 1], minutes);
      assert polls == polls[..|polls| - 1] + [polls[|polls| - 1]];
    }
  }

  /** So it is told nothing when the polls come every two seconds sharp. */
  lemma {:induction false} SharpPollsAreSilent(polls: seq<nat>, minutes: nat -> string)
    requires forall i | 0 <= i < |polls| :: polls[i] == 2 * SECOND * i
    ensures Reports(polls, minutes) == []
  {
    SilentIff(polls, minutes);
  }

  /** Polls come two seconds apart, or more, and none follows one after ten minutes. */
  predicate Paced(polls: seq<nat>) {
    && (polls != [] ==> polls[0] == 0)
    && (forall i | 0 <= i < |polls| - 1 :: polls[i] <= PATIENCE && polls[i] + 2 * SECOND <= polls[i + 1])
  }

  /** The time of a poll after those made. */
  predicate ComesNext(polls: seq<nat>, time: nat) {
    if polls == [] then time == 0 else polls[|polls| - 1] <= PATIENCE && polls[|polls| - 1] + 2 * SECOND <= time
  }

  lemma {:induction false} PollMade(polls: seq<nat>, time: nat, minutes: nat -> string)
    requires Paced(polls) && ComesNext(polls, time)
    ensures var polls', last := polls + [time], LastReport(polls);
      if time <= PATIENCE && time - last == REPORT
      then LastReport(polls') == time
           && Reports(polls', minutes) == Reports(polls, minutes) + [WAITING + minutes(time) + " minutes"]
      else LastReport(polls') == last && Reports(polls', minutes) == Reports(polls, minutes)
    ensures Paced(polls + [time])
  {
    assert (polls + [time])[..|polls|] == polls;
  }

  /** Where the waiting stands: what has been sent, the polls made, the present time and that of the last report. */
  ghost predicate Waited(before: seq<string>, sent: seq<string>, polls: seq<nat>, time: nat, last: nat,
                         minutes: nat -> string, reliable: bool)
  {
    && before <= sent && (forall i | |before| <= i < |sent| :: IsWaiting(sent[i]))
    && Paced(polls) && ComesNext(polls, time) && last == LastReport(polls) <= time
    && (reliable ==> sent == before + Reports(polls, minutes))
  }

  lemma {:induction false} WaitedOn(before: seq<string>, sent: seq<string>, polls: seq<nat>, time: nat, last: nat,
                                    minutes: nat -> string, reliable: bool, sent': seq<string>, time': nat)
    requires Waited(before, sent, polls, time, last, minutes, reliable)
    requires time <= PATIENCE && time + 2 * SECOND <= time'
    requires var line := WAITING + minutes(time) + " minutes";
      if time - last == REPORT then sent' == sent + [line] || (!reliable && sent' == sent) else sent' == sent
    ensures var last' := if time - last == REPORT then time else last;
      Waited(before, sent', polls + [time], time', last', minutes, reliable)
  {
    PollMade(polls, time, minutes);
    var line := WAITING + minutes(time) + " minutes";
    assert line[..|WAITING|] == WAITING;
  }

  /** A failure to send is only logged. */
  method TellWaiting(out: OutStream, minutes: string, reliable: bool)
    modifies out
    ensures out.sent == old(out.sent) || out.sent == old(out.sent) + [WAITING + minutes + " minutes"]
    ensures reliable ==> out.sent == old(out.sent) + [WAITING + minutes + " minutes"]
  {
    var line := WAITING + minutes + " minutes";
    var _ := out.Send(line, reliable);
  }

  /** Without `follow` there is no waiting. With it, polling goes on every two seconds until the job has begun, for at
      most ten minutes; `minutes` is how a duration prints. The client is told after exactly 15 seconds without news,
      and a failure to do so is only logged. `polls` are the times of the polls that found the job not begun. */
  method WaitUntilJobStart(repo: TrainingsRepository, id: TrainingId, follow: bool, out: OutStream,
                           minutes: nat -> string, reliable: bool)
    returns (error: Option<LogError>, polls: seq<nat>)
    requires StatusesSet(repo.docs)
    modifies repo, out
    ensures Paced(polls) && (reliable ==> out.sent == old(out.sent) + Reports(polls, minutes))
    ensures error == Some(GaveUp) <==> polls != [] && polls[|polls| - 1] > PATIENCE
    ensures StatusesSet(repo.docs) && old(out.sent) <= out.sent
    ensures forall i | |old(out.sent)| <= i < |out.sent| :: IsWaiting(out.sent[i])
    ensures !follow ==> error.None? && polls == [] && out.sent == old(out.sent) && repo.docs == old(repo.docs)
    ensures follow && error.None? ==> Begun(repo.docs, id)
    ensures error == Some(GaveUp) ==> !Begun(repo.docs, id)
    ensures reliable && error.Some? ==> error == Some(GaveUp) || FindDoc(repo.docs, id).None?
  {
    polls := [];
    if !follow { return None, []; }
    var duration: nat, lastReport: nat := 0, 0;
    while true
      invariant StatusesSet(repo.docs)
      invariant Waited(old(out.sent), out.sent, polls, duration, lastReport, minutes, reliable)
      decreases if duration <= PATIENCE then PATIENCE + SECOND - duration else 0
    {
      var up := *;
      var begun, ok := HasBegun(repo, id, up || reliable);
      if !ok { return Some(StatusFailed), polls; }
      if begun { break; }
      if duration > PATIENCE {
        PollMade(polls, duration, minutes);
        return Some(GaveUp), polls + [duration];
      }
      ghost var sent, time, last := out.sent, duration, lastReport;
      if duration - lastReport == REPORT {
        TellWaiting(out, minutes(duration), reliable);
        lastReport := duration;
      }
      var elapsed := Pause(repo);
      WaitedOn(old(out.sent), sent, polls, time, last, minutes, reliable, out.sent, duration + elapsed);
      polls := polls + [duration];
      duration := duration + elapsed;
    }
    error := None;
  }

  // ---- streaming ----

  /** After the first `waited` lines, what has been sent is the beginning of the log, without gap or repeat. */
  predicate Streamed(sent: seq<string>, waited: nat, lines: seq<string>, rindex: nat) {
    waited <= |sent| && rindex == |sent| - waited + 1 && sent[waited..] <= lines
  }

  /** First come `waited` lines about waiting, then the log. `queries` is how many calls of GetLogs fit in the 4-minute
      context; after that the service call fails. When all services are `reliable` and the job exists that is the only
      way for the streaming to fail, and without `follow` it takes that many non-empty pages. */
  method GetTrainedModelLogs(tds: LogService, repo: TrainingsRepository, id: TrainingId, follow: bool, queries: nat,
                             out: OutStream, minutes: nat -> string, reliable: bool)
    returns (error: Option<LogError>, waited: nat)
    requires out.sent == [] && StatusesSet(repo.docs)
    modifies tds, repo, out
    ensures waited <= |out.sent| && (forall i | 0 <= i < waited :: IsWaiting(out.sent[i])) && (!follow ==> waited == 0)
    ensures out.sent[waited..] <= tds.lines && old(tds.lines) <= tds.lines
    ensures error.None? ==> out.sent[waited..] == tds.lines
    ensures error.None? && follow ==> Finished(repo.docs, id)
    ensures error == Some(GaveUp) ==> follow && out.sent[waited..] == [] && !Begun(repo.docs, id)
    ensures reliable && error.Some? ==>
      error == Some(ServiceFailed) || (follow && (error == Some(GaveUp) || FindDoc(repo.docs, id).None?))
    ensures reliable && !follow && error.Some? ==> |out.sent| >= queries
  {
    var polls;
    error, polls := WaitUntilJobStart(repo, id, follow, out, minutes, reliable);
    waited := |out.sent|;
    if error.None? { error := StreamLogs(tds, repo, id, follow, queries, out, reliable); }
  }

  /** Passes the lines of a page on until one cannot be read or sent. */
  method SendPage(page: seq<string>, out: OutStream, reliable: bool)
    returns (error: Option<LogError>, nRecordsFound: nat)
    modifies out
    ensures nRecordsFound <= |page| && out.sent == old(out.sent) + page[..nRecordsFound]
    ensures if error.None? then nRecordsFound == |page| else !reliable && error.value in {ReadFailed, SendFailed}
  {
    nRecordsFound := 0;
    while nRecordsFound < |page|
      invariant nRecordsFound <= |page| && out.sent == old(out.sent) + page[..nRecordsFound]
    {
      var readOk := *;
      if !readOk && !reliable { return Some(ReadFailed), nRecordsFound; }
      var sendOk := out.Send(page[nRecordsFound], reliable);
      if !sendOk { return Some(SendFailed), nRecordsFound; }
      nRecordsFound := nRecordsFound + 1;
    }
    error := None;
  }

  lemma {:induction false} PageStreamed(sent: seq<string>, waited: nat, lines: seq<string>, rindex: nat,
                                        page: seq<string>, n: nat)
    requires Streamed(sent, waited, lines, rindex) && n <= |page|
    requires page != [] ==> rindex - 1 + |page| <= |lines| && page == lines[rindex - 1..rindex - 1 + |page|]
    ensures Streamed(sent + page[..n], waited, lines, rindex + n)
  {
    var k := rindex - 1;
    assert (sent + page[..n])[waited..] == sent[waited..] + page[..n];
    if n > 0 {
      assert sent[waited..] == lines[..k] && page[..n] == lines[k..k + n];
      assert lines[..k] + lines[k..k + n] == lines[..k + n];
    }
  }

  /** What GetTrainedModelLogs does once the job has begun. */
  method StreamLogs(tds: LogService, repo: TrainingsRepository, id: TrainingId, follow: bool, queries: nat,
                    out: OutStream, reliable: bool)
    returns (error: Option<LogError>)
    requires StatusesSet(repo.docs)
    modifies tds, repo, out
    ensures StatusesSet(repo.docs) && error != Some(GaveUp) && old(tds.lines) <= tds.lines
    ensures old(out.sent) <= out.sent && out.sent[|old(out.sent)|..] <= tds.lines
    ensures error.None? ==> out.sent == old(out.sent) + tds.lines
    ensures error.None? && follow ==> Finished(repo.docs, id)
    ensures reliable && error.Some? ==> error == Some(ServiceFailed)
    ensures reliable && error.Some? && !follow ==> |out.sent| >= |old(out.sent)| + queries
  {
    ghost var waited := |out.sent|;
    var rindex: nat := 1;
    var left: nat := queries;
    while true
      invariant Streamed(out.sent, waited, tds.lines, rindex)
      invariant old(tds.lines) <= tds.lines && StatusesSet(repo.docs)
      invariant old(out.sent) <= out.sent && left <= queries && (!follow ==> |out.sent| >= waited + queries - left)
      decreases left
    {
      if left == 0 { return Some(ServiceFailed); }
      left := left - 1;
      var inStream := tds.GetLogs(rindex, PAGE_SIZE, reliable);
      if inStream.Failure? { return Some(inStream.error); }
      ghost var before := out.sent;
      var nRecordsFound;
      error, nRecordsFound := SendPage(inStream.value, out, reliable);
      PageStreamed(before, waited, tds.lines, rindex, inStream.value, nRecordsFound);
      rindex := rindex + nRecordsFound;
      if error.Some? { return; }
      if nRecordsFound == 0 {
        if !follow { break; }
        var up := *;
        var isDone, ok := IsLearningFinished(repo, id, up || reliable);
        if !ok { return Some(StatusFailed); }
        if isDone { break; }
        var _ := Pause(repo);
      }
    }
    return None;
  }
}
