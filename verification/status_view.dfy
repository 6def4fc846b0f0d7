/**
 `updateUI`: how one status snapshot is reconciled into the dashboard, i.e. the
 status text and progress table, the readings with their quality ratings, the
 gauge and the chart-append rule. `resetUI` restores the placeholders.
 */
module StatusView {
  import opened Wrappers
  import opened Wire
  import opened Quality
  import Speedometer
  import opened ChartBuffer

  /** Text and progress-bar percentage for a status. */
  datatype StatusEntry = StatusEntry(text: string, progress: int)

  /** The client's status table. */
  const Table: map<string, StatusEntry> := map[
    "starting" := StatusEntry("Initializing test...", 5),
    "finding_server" := StatusEntry("Finding optimal server...", 15),
    "testing_ping" := StatusEntry("Testing latency...", 30),
    "testing_download" := StatusEntry("Testing download speed...", 50),
    "testing_upload" := StatusEntry("Testing upload speed...", 80),
    "completed" := StatusEntry("Test completed!", 100),
    "error" := StatusEntry("Error occurred", 0)]

  /** Table lookup with the fallback for a status the table does not know. */
  function Entry(status: string): (e: StatusEntry)
    ensures status !in Table ==> e.text == status && e.progress == 0
    ensures e.progress in {0, 5, 15, 30, 50, 80, 100}
  {
    if status in Table then Table[status] else StatusEntry(status, 0)
  }

  /** The table entries, one by one. */
  lemma EntryValues()
    ensures Entry("starting") == StatusEntry("Initializing test...", 5)
    ensures Entry("finding_server") == StatusEntry("Finding optimal server...", 15)
    ensures Entry("testing_ping") == StatusEntry("Testing latency...", 30)
    ensures Entry("testing_download") == StatusEntry("Testing download speed...", 50)
    ensures Entry("testing_upload") == StatusEntry("Testing upload speed...", 80)
    ensures Entry("completed") == StatusEntry("Test completed!", 100)
    ensures Entry("error") == StatusEntry("Error occurred", 0)
    ensures Entry("running") == StatusEntry("running", 0)
  {
  }

  /** A metric display: the `--` placeholder or a value with its rating. */
  datatype Reading = Blank | Shown(value: real, quality: Quality)

  /**
   The dashboard as far as behaviour goes: status line, gauge label, progress
   bar, server block (`None` is the "Connecting..." placeholder), the three
   readings, the gauge's target dash offset and the two colour classes of the
   status line.
   */
  datatype Panel = Panel(
    statusText: string,
    speedLabel: string,
    progress: int,
    server: Option<ServerInfo>,
    ping: Reading,
    download: Reading,
    upload: Reading,
    gauge: real,
    red: bool,
    green: bool)

  /** `resetUI` without its chart part; the colour classes are left as they are. */
  function ResetPanel(p: Panel): (r: Panel)
    ensures r.statusText == "Initializing..." && r.speedLabel == "Testing..." && r.progress == 0
    ensures r.server.None? && r.ping == Blank && r.download == Blank && r.upload == Blank
    ensures r.gauge == Speedometer.ArcLength
    ensures r.red == p.red && r.green == p.green
  {
    Speedometer.ArcOffsetAtRest();
    Panel("Initializing...", "Testing...", 0, None, Blank, Blank, Blank,
          Speedometer.ArcOffset(0.0), p.red, p.green)
  }

  /**
   Reference statement of the chart rule: a snapshot adds the point
   `(download, 0)` while downloading, `(download or 0, upload)` while uploading
   or once completed, provided the metric of that phase is present, and no point
   otherwise.
   */
  function SampleFor(s: Snapshot): Option<(real, real)> {
    match s.status
    case "testing_download" =>
      if s.download.Some? then Some((s.download.value, 0.0)) else None
    case "testing_upload" =>
      if s.upload.Some? then Some((OrZero(s.download), s.upload.value)) else None
    case "completed" =>
      if s.upload.Some? then Some((OrZero(s.download), s.upload.value)) else None
    case _ => None
  }

  /** The speed the gauge is pointed at when a point is added. */
  function GaugeSpeedFor(s: Snapshot, point: (real, real)): real {
    if s.status == "testing_download" then point.0 else point.1
  }

  /** The reading for a metric the snapshot carries, else the old one. */
  function Read(previous: Reading, value: Option<real>, rate: real -> Quality): Reading {
    if value.Some? then Shown(value.value, rate(value.value)) else previous
  }

  /** The status line, bar, server block and latency reading of `updateUI`. */
  function UpdateHeader(p: Panel, s: Snapshot): (r: Panel)
    ensures r.statusText == Entry(s.status).text && r.speedLabel == Entry(s.status).text
    ensures r.progress == Entry(s.status).progress
    ensures r.server == if s.server.Some? then s.server else p.server
    ensures r.ping == Read(p.ping, s.ping, PingQuality)
    ensures r.download == p.download && r.upload == p.upload && r.gauge == p.gauge
    ensures r.red == p.red && r.green == p.green
  {
    var e := Entry(s.status);
    var p1 := p.(statusText := e.text, progress := e.progress, speedLabel := e.text);
    var p2 := if s.server.Some? then p1.(server := s.server) else p1;
    if s.ping.Some? then p2.(ping := Shown(s.ping.value, PingQuality(s.ping.value))) else p2
  }

  /** The download block: shown when present; gauge and chart only while downloading. */
  function UpdateDownload(p: Panel, c: Chart, s: Snapshot, stamp: Stamp): (r: (Panel, Chart))
    ensures r.0 == p.(download := Read(p.download, s.download, SpeedQuality), gauge := r.0.gauge)
    ensures s.download.Some? && s.status == "testing_download" ==>
      r.1 == Push(c, stamp, s.download, Some(0.0)) && r.0.gauge == Speedometer.ArcOffset(s.download.value)
    ensures !(s.download.Some? && s.status == "testing_download") ==> r.1 == c && r.0.gauge == p.gauge
  {
    if s.download.Some? then
      var q := p.(download := Shown(s.download.value, SpeedQuality(s.download.value)));
      if s.status == "testing_download" then
        (q.(gauge := Speedometer.ArcOffset(s.download.value)), Push(c, stamp, s.download, Some(0.0)))
      else (q, c)
    else (p, c)
  }

  /** The upload block: shown when present; gauge and chart while uploading or completed. */
  function UpdateUpload(p: Panel, c: Chart, s: Snapshot, stamp: Stamp): (r: (Panel, Chart))
    ensures r.0 == p.(upload := Read(p.upload, s.upload, SpeedQuality), gauge := r.0.gauge)
    ensures s.upload.Some? && (s.status == "testing_upload" || s.status == "completed") ==>
      r.1 == Push(c, stamp, Some(OrZero(s.download)), s.upload) && r.0.gauge == Speedometer.ArcOffset(s.upload.value)
    ensures !(s.upload.Some? && (s.status == "testing_upload" || s.status == "completed")) ==>
      r.1 == c && r.0.gauge == p.gauge
  {
    if s.upload.Some? then
      var q := p.(upload := Shown(s.upload.value, SpeedQuality(s.upload.value)));
      if s.status == "testing_upload" || s.status == "completed" then
        (q.(gauge := Speedometer.ArcOffset(s.upload.value)), Push(c, stamp, Some(OrZero(s.download)), s.upload))
      else (q, c)
    else (p, c)
  }

  /**
   `updateUI(data)`: status line and bar from the table, each present metric shown
   with its rating, and the gauge and chart updated by the rule `SampleFor`.
   `stamp` is the clock reading.
   */
  function UpdateUI(p: Panel, c: Chart, s: Snapshot, stamp: Stamp): (r: (Panel, Chart))
    ensures r.0.statusText == Entry(s.status).text && r.0.speedLabel == Entry(s.status).text
    ensures r.0.progress == Entry(s.status).progress
    ensures r.0.server == if s.server.Some? then s.server else p.server
    ensures r.0.ping == Read(p.ping, s.ping, PingQuality)
    ensures r.0.download == Read(p.download, s.download, SpeedQuality)
    ensures r.0.upload == Read(p.upload, s.upload, SpeedQuality)
    ensures r.0.red == p.red && r.0.green == p.green
    ensures SampleFor(s).None? ==> r.1 == c && r.0.gauge == p.gauge
    ensures SampleFor(s).Some? ==>
      r.1 == Push(c, stamp, Some(SampleFor(s).value.0), Some(SampleFor(s).value.1))
      && r.0.gauge == Speedometer.ArcOffset(GaugeSpeedFor(s, SampleFor(s).value))
  {
    var h := UpdateHeader(p, s);
    var d := UpdateDownload(h, c, s, stamp);
    UpdateUpload(d.0, d.1, s, stamp)
  }

  /**
   A snapshot adds at most one point to a valid chart and keeps it valid: the
   chart is either untouched or is the window of the last `MaxPoints` points of
   the old contents followed by the one point `SampleFor` names.
   */
  lemma AtMostOnePointPerUpdate(p: Panel, c: Chart, s: Snapshot, stamp: Stamp)
    requires Valid(c)
    ensures var c' := UpdateUI(p, c, s, stamp).1;
      Valid(c')
      && (SampleFor(s).None? ==> c' == c)
      && (SampleFor(s).Some? ==>
            Samples(c') == LastN(Samples(c) + [Sample(stamp, SampleFor(s).value.0, SampleFor(s).value.1)], MaxPoints))
  {
    if SampleFor(s).Some? {
      var (d, u) := SampleFor(s).value;
      assert OrZero(Some(d)) == d && OrZero(Some(u)) == u;
    }
  }
}
