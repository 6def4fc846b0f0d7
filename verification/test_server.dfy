/**
 The Flask service's test record: `start_test` admits or refuses a run,
 `get_status` returns the record, and `run_speedtest` is the fixed sequence of
 writes to the record, ending in `completed` or dropping to `error` at the first
 failure. The speed-test library is represented by the outcomes it produces.
 */
module TestServer {
  import opened Wrappers
  import opened Wire

  datatype Status = Idle | Running | Starting | FindingServer | TestingPing | TestingDownload | TestingUpload | Completed | Error

  /** The status string the record carries. */
  function Name(s: Status): string {
    match s
    case Idle => "idle"
    case Running => "running"
    case Starting => "starting"
    case FindingServer => "finding_server"
    case TestingPing => "testing_ping"
    case TestingDownload => "testing_download"
    case TestingUpload => "testing_upload"
    case Completed => "completed"
    case Error => "error"
  }

  /** Reads a status string back; strings the server never writes have no status. */
  function Parse(text: string): Option<Status> {
    match text
    case "idle" => Some(Idle)
    case "running" => Some(Running)
    case "starting" => Some(Starting)
    case "finding_server" => Some(FindingServer)
    case "testing_ping" => Some(TestingPing)
    case "testing_download" => Some(TestingDownload)
    case "testing_upload" => Some(TestingUpload)
    case "completed" => Some(Completed)
    case "error" => Some(Error)
    case _ => None
  }

  /** A status name reads back to the status written. */
  lemma NameRoundTrip(s: Status)
    ensures Parse(Name(s)) == Some(s)
  {
  }

  /** Only a status's own name reads back to it, so distinct statuses have distinct names. */
  lemma NameInjective(s: Status, text: string)
    ensures Parse(text) == Some(s) ==> text == Name(s)
  {
  }

  /** `current_test`. */
  datatype Record = Record(
    status: Status,
    ping: Option<real>,
    download: Option<real>,
    upload: Option<real>,
    server: Option<ServerInfo>,
    error: Option<string>)

  /** The record with `status` and no results or error. */
  function Blank(status: Status): (r: Record)
    ensures r.status == status
    ensures r.ping.None? && r.download.None? && r.upload.None? && r.server.None? && r.error.None?
  {
    Record(status, None, None, None, None, None)
  }

  /** The record at process start. */
  function InitialRecord(): (r: Record)
    ensures r.status == Idle && r == Blank(Idle)
  {
    Record(Idle, None, None, None, None, None)
  }

  /** The statuses during which a new test is refused. */
  predicate InProgress(s: Status) {
    s in {Running, Starting, FindingServer, TestingPing, TestingDownload, TestingUpload}
  }

  /** The HTTP reply of `start_test`. */
  datatype Reply = Started(message: string) | Refused(code: int, error: string)

  /**
   `start_test`: refused with 400 while a test is in progress, leaving the record
   alone; otherwise the record is replaced by a blank `starting` one (and the
   background run is launched).
   */
  function StartTest(r: Record): (result: (Reply, Record))
    ensures InProgress(r.status) <==> result.0.Refused?
    ensures result.0.Refused? ==> result.0 == Refused(400, "Test already in progress") && result.1 == r
    ensures result.0.Started? ==> result.0.message == "Test started" && result.1 == Blank(Starting)
  {
    if InProgress(r.status) then (Refused(400, "Test already in progress"), r)
    else (Started("Test started"), Blank(Starting))
  }

  /** Two start requests without a step of the run in between: the second is refused. */
  lemma SecondStartRefused(r: Record)
    ensures var (first, r1) := StartTest(r);
      var (second, r2) := StartTest(r1);
      second.Refused? && r2 == r1
  {
  }

  /** The JSON body of `get_status`. */
  function ToSnapshot(r: Record): Snapshot {
    Snapshot(Name(r.status), r.server, r.ping, r.download, r.upload, r.error)
  }

  /** `get_status`: the record as JSON; the record itself is unchanged. */
  function GetStatus(r: Record): (result: (Snapshot, Record))
    ensures result.1 == r
    ensures Parse(result.0.status) == Some(r.status)
    ensures result.0.server == r.server && result.0.ping == r.ping && result.0.error == r.error
    ensures result.0.download == r.download && result.0.upload == r.upload
  {
    NameRoundTrip(r.status);
    (ToSnapshot(r), r)
  }

  /** One assignment to the record made by the run. */
  datatype Write =
    | SetStatus(status: Status)
    | SetError(error: Option<string>)
    | SetServer(info: ServerInfo)
    | SetPing(ping: real)
    | SetDownload(download: real)
    | SetUpload(upload: real)

  function Apply(r: Record, w: Write): Record {
    match w
    case SetStatus(s) => r.(status := s)
    case SetError(e) => r.(error := e)
    case SetServer(info) => r.(server := Some(info))
    case SetPing(x) => r.(ping := Some(x))
    case SetDownload(x) => r.(download := Some(x))
    case SetUpload(x) => r.(upload := Some(x))
  }

  /** The record after the writes `ws`, in order. */
  function ApplyAll(r: Record, ws: seq<Write>): Record
    decreases |ws|
  {
    if |ws| == 0 then r else Apply(ApplyAll(r, ws[..|ws| - 1]), ws[|ws| - 1])
  }

  /** A library call: its value, or the message of the exception it raised. */
  datatype Attempt<T> = Ok(value: T) | Raise(message: string)

  /** A transfer phase: the rates reported by the progress callback, then the final result. */
  datatype Transfer = Transfer(progress: seq<real>, result: Attempt<real>)

  /**
   What the library does in one run: creating the client, choosing a server
   (with the reading of its fields), reading the ping, and the two transfers.
   Rates are in Mbps, already rounded to two decimals.
   */
  datatype Probe = Probe(
    client: Attempt<()>,
    server: Attempt<ServerInfo>,
    ping: Attempt<real>,
    download: Transfer,
    upload: Transfer)

  /** The `except` branch. */
  function Fail(message: string): seq<Write> {
    [SetStatus(Error), SetError(Some(message))]
  }

  function Downloads(xs: seq<real>): (ws: seq<Write>)
    ensures |ws| == |xs| && forall i :: 0 <= i < |xs| ==> ws[i] == SetDownload(xs[i])
  {
    seq(|xs|, i requires 0 <= i < |xs| => SetDownload(xs[i]))
  }

  function Uploads(xs: seq<real>): (ws: seq<Write>)
    ensures |ws| == |xs| && forall i :: 0 <= i < |xs| ==> ws[i] == SetUpload(xs[i])
  {
    seq(|xs|, i requires 0 <= i < |xs| => SetUpload(xs[i]))
  }

  /** The writes of `run_speedtest` once the download has finished. */
  function UploadPhase(p: Probe, d: real): seq<Write> {
    [SetDownload(d), SetStatus(TestingUpload)] + Uploads(p.upload.progress)
    + match p.upload.result
      case Raise(m) => Fail(m)
      case Ok(u) => [SetUpload(u), SetStatus(Completed)]
  }

  /** The writes of `run_speedtest` once the ping is read. */
  function DownloadPhase(p: Probe, x: real): seq<Write> {
    [SetPing(x), SetStatus(TestingDownload)] + Downloads(p.download.progress)
    + match p.download.result
      case Raise(m) => Fail(m)
      case Ok(d) => UploadPhase(p, d)
  }

  /** The writes of `run_speedtest` once the server is chosen. */
  function MeasurePhase(p: Probe, info: ServerInfo): seq<Write> {
    [SetServer(info), SetStatus(TestingPing)]
    + match p.ping
      case Raise(m) => Fail(m)
      case Ok(x) => DownloadPhase(p, x)
  }

  /**
   Every write `run_speedtest` makes to the record, in order. `ProgramEnding`,
   `RunStatuses`, `SuccessfulRun` and `FailedRun` state what these writes do.
   */
  function Program(p: Probe): seq<Write> {
    [SetStatus(Running), SetError(None)]
    + match p.client
      case Raise(m) => Fail(m)
      case Ok(_) =>
        [SetStatus(FindingServer)]
        + match p.server
          case Raise(m) => Fail(m)
          case Ok(info) => MeasurePhase(p, info)
  }

  /**
   The record when the run is over: `completed` with the four results and no
   error, or `error` with the message of the first library call that raised.
   */
  function RunSpeedtest(r: Record, p: Probe): (r': Record)
    ensures Succeeds(p) ==> r' == Record(Completed, Some(p.ping.value), Some(p.download.result.value),
                                         Some(p.upload.result.value), Some(p.server.value), None)
    ensures !Succeeds(p) ==> r'.status == Error && r'.error == FailureOf(p)
  {
    if Succeeds(p) then
      SuccessfulRun(r, p);
      ApplyAll(r, Program(p))
    else
      FailedRun(r, p);
      ApplyAll(r, Program(p))
  }

  /** Every library call succeeds. */
  predicate Succeeds(p: Probe) {
    p.client.Ok? && p.server.Ok? && p.ping.Ok? && p.download.result.Ok? && p.upload.result.Ok?
  }

  /** The message of the first library call that raised, if any. */
  function FailureOf(p: Probe): (m: Option<string>)
    ensures m.None? <==> Succeeds(p)
  {
    if p.client.Raise? then Some(p.client.message)
    else if p.server.Raise? then Some(p.server.message)
    else if p.ping.Raise? then Some(p.ping.message)
    else if p.download.result.Raise? then Some(p.download.result.message)
    else if p.upload.result.Raise? then Some(p.upload.result.message)
    else None
  }

  /** The statuses written, in order. */
  function StatusWrites(ws: seq<Write>): (ss: seq<Status>)
    ensures |ss| <= |ws|
    decreases |ws|
  {
    if |ws| == 0 then []
    else StatusWrites(ws[..|ws| - 1]) + (if ws[|ws| - 1].SetStatus? then [ws[|ws| - 1].status] else [])
  }

  lemma {:induction false} StatusWritesAppend(a: seq<Write>, b: seq<Write>)
    ensures StatusWrites(a + b) == StatusWrites(a) + StatusWrites(b)
    decreases |b|
  {
    if |b| == 0 {
      assert a + b == a;
    } else {
      assert (a + b)[..|a + b| - 1] == a + b[..|b| - 1];
      StatusWritesAppend(a, b[..|b| - 1]);
    }
  }

  lemma {:induction false} NoStatusInRates(xs: seq<real>)
    ensures StatusWrites(Downloads(xs)) == [] && StatusWrites(Uploads(xs)) == []
    decreases |xs|
  {
    if |xs| > 0 {
      NoStatusInRates(xs[..|xs| - 1]);
      assert Downloads(xs)[..|xs| - 1] == Downloads(xs[..|xs| - 1]);
      assert Uploads(xs)[..|xs| - 1] == Uploads(xs[..|xs| - 1]);
    }
  }

  /** The statuses of the successful path, in the order the run writes them. */
  const Ladder: seq<Status> := [Running, FindingServer, TestingPing, TestingDownload, TestingUpload, Completed]

  /** How many statuses of `Ladder` the run writes before it succeeds or fails. */
  function Reached(p: Probe): (n: nat)
    ensures 1 <= n <= |Ladder| && (n == |Ladder| <==> Succeeds(p))
  {
    if p.client.Raise? then 1
    else if p.server.Raise? then 2
    else if p.ping.Raise? then 3
    else if p.download.result.Raise? then 4
    else if p.upload.result.Raise? then 5
    else 6
  }

  /**
   Reference statement of the status sequence: the run walks the ladder up to
   the step that raised, then writes `error`; a run without failure walks it all.
   */
  function ExpectedStatuses(p: Probe): seq<Status> {
    Ladder[..Reached(p)] + (if Succeeds(p) then [] else [Error])
  }

  lemma {:induction false} ApplyAllAppend(r: Record, a: seq<Write>, b: seq<Write>)
    ensures ApplyAll(r, a + b) == ApplyAll(ApplyAll(r, a), b)
    decreases |b|
  {
    if |b| == 0 {
      assert a + b == a;
    } else {
      assert (a + b)[..|a + b| - 1] == a + b[..|b| - 1];
      ApplyAllAppend(r, a, b[..|b| - 1]);
    }
  }

  /** The status of a record after some writes is the last status written, if any. */
  lemma {:induction false} StatusIsLastWritten(r: Record, ws: seq<Write>)
    ensures var ss := StatusWrites(ws);
      ApplyAll(r, ws).status == if |ss| == 0 then r.status else ss[|ss| - 1]
    decreases |ws|
  {
    if |ws| > 0 {
      StatusIsLastWritten(r, ws[..|ws| - 1]);
    }
  }

  /** The progress callbacks of the download only move the download reading. */
  lemma {:induction false} DownloadRates(r: Record, xs: seq<real>)
    ensures ApplyAll(r, Downloads(xs)) == if |xs| == 0 then r else r.(download := Some(xs[|xs| - 1]))
    decreases |xs|
  {
    if |xs| > 0 {
      assert Downloads(xs)[..|xs| - 1] == Downloads(xs[..|xs| - 1]);
      DownloadRates(r, xs[..|xs| - 1]);
    }
  }

  /** The progress callbacks of the upload only move the upload reading. */
  lemma {:induction false} UploadRates(r: Record, xs: seq<real>)
    ensures ApplyAll(r, Uploads(xs)) == if |xs| == 0 then r else r.(upload := Some(xs[|xs| - 1]))
    decreases |xs|
  {
    if |xs| > 0 {
      assert Uploads(xs)[..|xs| - 1] == Uploads(xs[..|xs| - 1]);
      UploadRates(r, xs[..|xs| - 1]);
    }
  }

  lemma ApplyOne(r: Record, a: Write)
    ensures ApplyAll(r, [a]) == Apply(r, a)
  {
  }

  lemma ApplyTwo(r: Record, a: Write, b: Write)
    ensures ApplyAll(r, [a, b]) == Apply(Apply(r, a), b)
  {
    assert [a, b][..1] == [a];
    ApplyOne(r, a);
    assert ApplyAll(r, [a, b]) == Apply(ApplyAll(r, [a]), b);
  }

  lemma FailStatuses(m: string)
    ensures StatusWrites(Fail(m)) == [Error]
  {
  }

  lemma PairStatuses(w: Write, st: Status)
    requires !w.SetStatus?
    ensures StatusWrites([w, SetStatus(st)]) == [st]
  {
  }

  /** The statuses written from the upload on. */
  function UploadStatuses(p: Probe): seq<Status> {
    [TestingUpload] + (if p.upload.result.Ok? then [Completed] else [Error])
  }

  /** The statuses written from the ping on. */
  function MeasureStatuses(p: Probe): seq<Status> {
    [TestingPing]
    + if p.ping.Raise? then [Error]
      else [TestingDownload] + if p.download.result.Raise? then [Error] else UploadStatuses(p)
  }

  lemma UploadPhaseStatuses(p: Probe, d: real)
    ensures StatusWrites(UploadPhase(p, d)) == UploadStatuses(p)
  {
    NoStatusInRates(p.upload.progress);
    var up := Uploads(p.upload.progress);
    var last :=
      match p.upload.result
      case Raise(m) => Fail(m)
      case Ok(u) => [SetUpload(u), SetStatus(Completed)];
    if p.upload.result.Ok? {
      PairStatuses(SetUpload(p.upload.result.value), Completed);
    } else {
      FailStatuses(p.upload.result.message);
    }
    PairStatuses(SetDownload(d), TestingUpload);
    StatusWritesAppend([SetDownload(d), SetStatus(TestingUpload)] + up, last);
    StatusWritesAppend([SetDownload(d), SetStatus(TestingUpload)], up);
  }

  lemma DownloadPhaseStatuses(p: Probe, x: real)
    ensures StatusWrites(DownloadPhase(p, x))
            == [TestingDownload] + if p.download.result.Raise? then [Error] else UploadStatuses(p)
  {
    NoStatusInRates(p.download.progress);
    var down := Downloads(p.download.progress);
    var rest :=
      match p.download.result
      case Raise(m) => Fail(m)
      case Ok(d) => UploadPhase(p, d);
    if p.download.result.Ok? {
      UploadPhaseStatuses(p, p.download.result.value);
    } else {
      FailStatuses(p.download.result.message);
    }
    PairStatuses(SetPing(x), TestingDownload);
    StatusWritesAppend([SetPing(x), SetStatus(TestingDownload)] + down, rest);
    StatusWritesAppend([SetPing(x), SetStatus(TestingDownload)], down);
  }

  lemma MeasurePhaseStatuses(p: Probe, info: ServerInfo)
    ensures StatusWrites(MeasurePhase(p, info)) == MeasureStatuses(p)
  {
    PairStatuses(SetServer(info), TestingPing);
    var rest :=
      match p.ping
      case Raise(m) => Fail(m)
      case Ok(x) => DownloadPhase(p, x);
    if p.ping.Raise? {
      FailStatuses(p.ping.message);
    } else {
      DownloadPhaseStatuses(p, p.ping.value);
    }
    StatusWritesAppend([SetServer(info), SetStatus(TestingPing)], rest);
  }

  /** The reference sequence, phase by phase. */
  lemma ExpectedStatusesShape(p: Probe)
    ensures ExpectedStatuses(p)
            == [Running] + if p.client.Raise? then [Error]
               else [FindingServer] + if p.server.Raise? then [Error] else MeasureStatuses(p)
  {
  }

  /** The run's writes for every outcome of the library: the ladder up to the failing step, then `error`. */
  lemma RunStatuses(p: Probe)
    ensures StatusWrites(Program(p)) == ExpectedStatuses(p)
  {
    ExpectedStatusesShape(p);
    assert StatusWrites([SetStatus(Running), SetError(None)]) == [Running] by {
      assert [SetStatus(Running), SetError(None)][..1] == [SetStatus(Running)];
      assert [SetStatus(Running)][..0] == [];
    }
    var afterClient :=
      match p.client
      case Raise(m) => Fail(m)
      case Ok(_) =>
        [SetStatus(FindingServer)]
        + match p.server
          case Raise(m) => Fail(m)
          case Ok(info) => MeasurePhase(p, info);
    assert Program(p) == [SetStatus(Running), SetError(None)] + afterClient;
    if p.client.Raise? {
      FailStatuses(p.client.message);
    } else {
      var tail :=
        match p.server
        case Raise(m) => Fail(m)
        case Ok(info) => MeasurePhase(p, info);
      if p.server.Raise? {
        FailStatuses(p.server.message);
      } else {
        MeasurePhaseStatuses(p, p.server.value);
      }
      assert StatusWrites([SetStatus(FindingServer)]) == [FindingServer] by {
        assert [SetStatus(FindingServer)][..0] == [];
      }
      StatusWritesAppend([SetStatus(FindingServer)], tail);
    }
    StatusWritesAppend([SetStatus(Running), SetError(None)], afterClient);
  }

  /** A successful run writes the statuses running, finding_server, testing_ping, testing_download, testing_upload, completed, in that order. */
  lemma SuccessfulRunStatuses(p: Probe)
    requires Succeeds(p)
    ensures StatusWrites(Program(p)) == [Running, FindingServer, TestingPing, TestingDownload, TestingUpload, Completed]
  {
    RunStatuses(p);
  }

  /** The run first sets `running` and clears any earlier error message. */
  lemma RunClearsErrorFirst(r: Record, p: Probe)
    ensures |Program(p)| >= 2
    ensures ApplyAll(r, Program(p)[..2]) == r.(status := Running, error := None)
  {
    assert Program(p)[..2] == [SetStatus(Running), SetError(None)];
    ApplyTwo(r, SetStatus(Running), SetError(None));
  }

  /** The upload phase of a run whose upload succeeds. */
  lemma UploadPhaseApplied(q: Record, p: Probe, d: real)
    requires p.upload.result.Ok?
    ensures ApplyAll(q, UploadPhase(p, d))
            == q.(download := Some(d), upload := Some(p.upload.result.value), status := Completed)
  {
    var u := p.upload.result.value;
    var up := Uploads(p.upload.progress);
    var q1 := ApplyAll(q, [SetDownload(d), SetStatus(TestingUpload)]);
    ApplyTwo(q, SetDownload(d), SetStatus(TestingUpload));
    UploadRates(q1, p.upload.progress);
    ApplyTwo(ApplyAll(q1, up), SetUpload(u), SetStatus(Completed));
    ApplyAllAppend(q1, up, [SetUpload(u), SetStatus(Completed)]);
    assert UploadPhase(p, d) == [SetDownload(d), SetStatus(TestingUpload)] + (up + [SetUpload(u), SetStatus(Completed)]);
    ApplyAllAppend(q, [SetDownload(d), SetStatus(TestingUpload)], up + [SetUpload(u), SetStatus(Completed)]);
  }

  /** The download and upload phases of a run whose transfers succeed. */
  lemma DownloadPhaseApplied(q: Record, p: Probe, x: real)
    requires p.download.result.Ok? && p.upload.result.Ok?
    ensures ApplyAll(q, DownloadPhase(p, x))
            == q.(ping := Some(x), download := Some(p.download.result.value),
                  upload := Some(p.upload.result.value), status := Completed)
  {
    var d := p.download.result.value;
    var down := Downloads(p.download.progress);
    var q1 := ApplyAll(q, [SetPing(x), SetStatus(TestingDownload)]);
    ApplyTwo(q, SetPing(x), SetStatus(TestingDownload));
    DownloadRates(q1, p.download.progress);
    UploadPhaseApplied(ApplyAll(q1, down), p, d);
    ApplyAllAppend(q1, down, UploadPhase(p, d));
    assert DownloadPhase(p, x) == [SetPing(x), SetStatus(TestingDownload)] + (down + UploadPhase(p, d));
    ApplyAllAppend(q, [SetPing(x), SetStatus(TestingDownload)], down + UploadPhase(p, d));
  }

  /** Everything after the client is created, for a run without failure. */
  lemma MeasurePhaseApplied(q: Record, p: Probe)
    requires Succeeds(p)
    ensures ApplyAll(q, MeasurePhase(p, p.server.value))
            == q.(server := Some(p.server.value), ping := Some(p.ping.value), download := Some(p.download.result.value),
                  upload := Some(p.upload.result.value), status := Completed)
  {
    var info, x := p.server.value, p.ping.value;
    var q1 := ApplyAll(q, [SetServer(info), SetStatus(TestingPing)]);
    ApplyTwo(q, SetServer(info), SetStatus(TestingPing));
    DownloadPhaseApplied(q1, p, x);
    assert MeasurePhase(p, info) == [SetServer(info), SetStatus(TestingPing)] + DownloadPhase(p, x);
    ApplyAllAppend(q, [SetServer(info), SetStatus(TestingPing)], DownloadPhase(p, x));
  }

  /** A run without failure ends `completed` with every result recorded and no error. */
  lemma SuccessfulRun(r: Record, p: Probe)
    requires Succeeds(p)
    ensures ApplyAll(r, Program(p)) == Record(Completed, Some(p.ping.value), Some(p.download.result.value),
                                              Some(p.upload.result.value), Some(p.server.value), None)
  {
    var m := MeasurePhase(p, p.server.value);
    var r1 := ApplyAll(r, [SetStatus(Running), SetError(None)]);
    ApplyTwo(r, SetStatus(Running), SetError(None));
    var r2 := ApplyAll(r1, [SetStatus(FindingServer)]);
    ApplyOne(r1, SetStatus(FindingServer));
    MeasurePhaseApplied(r2, p);
    ApplyAllAppend(r1, [SetStatus(FindingServer)], m);
    assert Program(p) == [SetStatus(Running), SetError(None)] + ([SetStatus(FindingServer)] + m);
    ApplyAllAppend(r, [SetStatus(Running), SetError(None)], [SetStatus(FindingServer)] + m);
  }

  /** How the run's writes end: with the `completed` write, or with the `except` branch for the first failure. */
  lemma ProgramEnding(p: Probe)
    ensures |Program(p)| >= 4
    ensures Succeeds(p) ==> Program(p)[|Program(p)| - 1] == SetStatus(Completed)
    ensures !Succeeds(p) ==> Program(p)[|Program(p)| - 2..] == Fail(FailureOf(p).value)
  {
  }

  /**
   A run in which a library call raised ends in `error` with that call's
   message; every other field keeps the value it had just before the failure.
   */
  lemma FailedRun(r: Record, p: Probe)
    requires FailureOf(p).Some?
    ensures var ws := Program(p);
      |ws| >= 2 && ws == ws[..|ws| - 2] + Fail(FailureOf(p).value)
      && ApplyAll(r, ws) == ApplyAll(r, ws[..|ws| - 2]).(status := Error, error := FailureOf(p))
  {
    var ws := Program(p);
    var m := FailureOf(p).value;
    ProgramEnding(p);
    var before := ws[..|ws| - 2];
    assert ws == before + Fail(m);
    ApplyAllAppend(r, before, Fail(m));
    ApplyTwo(ApplyAll(r, before), SetStatus(Error), SetError(Some(m)));
  }

  /** The four results are all recorded. */
  ghost predicate HasResults(r: Record) {
    r.server.Some? && r.ping.Some? && r.download.Some? && r.upload.Some?
  }

  lemma NoStatusWritten(ws: seq<Write>)
    requires |StatusWrites(ws)| == 0
    ensures |ws| == 0 || !ws[|ws| - 1].SetStatus?
  {
  }

  /** In the reference status sequence, `completed` can only be the last entry of a successful run. */
  lemma CompletedIsLastExpected(p: Probe, j: nat)
    requires j < |ExpectedStatuses(p)| && ExpectedStatuses(p)[j] == Completed
    ensures Succeeds(p) && j == |ExpectedStatuses(p)| - 1
  {
  }

  /**
   For any writes in which `completed` is written at most once, as the very last
   write: a record that was not `completed` only reads `completed` after all of them.
   */
  lemma CompletedOnlyAfterLastWrite(r: Record, ws: seq<Write>, k: nat)
    requires r.status != Completed && k <= |ws|
    requires ApplyAll(r, ws[..k]).status == Completed
    requires var ss := StatusWrites(ws);
      forall j :: 0 <= j < |ss| && ss[j] == Completed ==> j == |ss| - 1 && ws[|ws| - 1] == SetStatus(Completed)
    ensures k == |ws|
  {
    var ss := StatusWrites(ws[..k]);
    StatusIsLastWritten(r, ws[..k]);
    assert ws == ws[..k] + ws[k..];
    StatusWritesAppend(ws[..k], ws[k..]);
    assert StatusWrites(ws)[|ss| - 1] == Completed;
    NoStatusWritten(ws[k..]);
  }

  /** Only the last write of a successful run sets `completed`. */
  lemma CompletedOnlyAtEnd(r: Record, p: Probe, k: nat)
    requires r.status != Completed && k <= |Program(p)|
    ensures ApplyAll(r, Program(p)[..k]).status == Completed ==> k == |Program(p)| && Succeeds(p)
  {
    if ApplyAll(r, Program(p)[..k]).status == Completed {
      var ws := Program(p);
      ProgramEnding(p);
      RunStatuses(p);
      forall j | 0 <= j < |StatusWrites(ws)| && StatusWrites(ws)[j] == Completed
        ensures j == |StatusWrites(ws)| - 1 && ws[|ws| - 1] == SetStatus(Completed)
      {
        CompletedIsLastExpected(p, j);
      }
      CompletedOnlyAfterLastWrite(r, ws, k);
      assert ws[..k] == ws;
      StatusIsLastWritten(r, ws);
      CompletedIsLastExpected(p, |StatusWrites(ws)| - 1);
    }
  }

  /**
   Whatever a poll reads during a run launched on a record that is not
   `completed`: if the status is `completed`, the server, ping, download and
   upload fields are all present.
   */
  lemma CompletedHasResults(r: Record, p: Probe, k: nat)
    requires r.status != Completed && k <= |Program(p)|
    ensures ApplyAll(r, Program(p)[..k]).status == Completed ==> HasResults(ApplyAll(r, Program(p)[..k]))
  {
    if ApplyAll(r, Program(p)[..k]).status == Completed {
      CompletedOnlyAtEnd(r, p, k);
      assert Program(p)[..k] == Program(p);
      SuccessfulRun(r, p);
    }
  }

  /** `start_test` then the run it launches: a run without failure always ends `completed` with results. */
  lemma StartThenRun(r: Record, p: Probe)
    requires !InProgress(r.status) && Succeeds(p)
    ensures var (reply, r1) := StartTest(r);
      reply.Started? && RunSpeedtest(r1, p).status == Completed && HasResults(RunSpeedtest(r1, p))
  {
    SuccessfulRun(StartTest(r).1, p);
  }
}
