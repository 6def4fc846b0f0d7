/**
 The dashboard's test session: the start-button click handler, the 300 ms poll
 loop (`pollStatus`) and the 500 ms settle timer scheduled on a terminal status,
 as a state machine. Timers and requests are abstract events; a response may
 arrive in any state (a response to a poll issued before the loop was stopped
 is simply an event arriving after the stop).
 */
module Session {
  import opened Wrappers
  import opened Wire
  import opened ChartBuffer
  import opened StatusView

  /** Why `POST /api/start-test` failed: a non-2xx reply (with its optional `error` field) or a thrown error. */
  datatype StartFailure = Refused(error: Option<string>) | Thrown(message: string)

  /** Why a status poll failed: a non-2xx reply or a thrown error. */
  datatype PollFailure = NotOk | Broken(message: string)

  datatype Event =
    | Click
    | StartOk
    | StartFail(why: StartFailure)
    | Tick
    | PollOk(snapshot: Snapshot, stamp: Stamp)
    | PollFail(failure: PollFailure)
    | Settle

  /**
   `disabled` is the start button's state, `polling` whether `pollInterval` is set.
   `settles` are the pending 500 ms timers with the snapshot each will report,
   earliest first. `connectionErrors` counts connection errors shown since the
   last accepted start and `polls` the status requests issued; both are
   observations, not program variables.
   */
  datatype Client = Client(
    disabled: bool,
    polling: bool,
    panel: Panel,
    chart: Chart,
    settles: seq<Snapshot>,
    connectionErrors: nat,
    polls: nat)

  /** `completed` and `error` end a session. */
  predicate Terminal(status: string) {
    status == "completed" || status == "error"
  }

  /** `showError(message)`. */
  function ShowError(p: Panel, message: string): (r: Panel)
    ensures r.statusText == "Error: " + message && r.speedLabel == "Test failed" && r.progress == 0
    ensures r.red && r.green == p.green
    ensures r.ping == p.ping && r.download == p.download && r.upload == p.upload
    ensures r.server == p.server && r.gauge == p.gauge
  {
    p.(statusText := "Error: " + message, red := true, speedLabel := "Test failed", progress := 0)
  }

  /** `showSuccess()`. */
  function ShowSuccess(p: Panel): (r: Panel)
    ensures r.statusText == "Test completed successfully!" && !r.red && r.green
    ensures r.progress == p.progress && r.ping == p.ping && r.download == p.download && r.upload == p.upload
    ensures r.speedLabel == p.speedLabel && r.server == p.server && r.gauge == p.gauge
  {
    p.(red := false, green := true, statusText := "Test completed successfully!")
  }

  /** The text after "Failed to start test: " for a start failure. */
  function StartMessage(why: StartFailure): (m: string)
    ensures why.Refused? ==> m == StringOr(why.error, "Failed to start test")
    ensures why.Thrown? ==> m == why.message
  {
    match why
    case Refused(e) => StringOr(e, "Failed to start test")
    case Thrown(m) => m
  }

  /** The text after "Connection error: " for a poll failure. */
  function PollMessage(why: PollFailure): (m: string)
    ensures why.NotOk? ==> m == "Server error"
    ensures why.Broken? ==> m == why.message
  {
    match why
    case NotOk => "Server error"
    case Broken(m) => m
  }

  /**
   The click handler up to its request: ignored while the button is disabled,
   otherwise the poll timer is cleared, the display and chart are reset, the
   button is disabled and the start request goes out.
   */
  function OnClick(s: Client): (t: Client)
    ensures s.disabled ==> t == s
    ensures !s.disabled ==> t.disabled && !t.polling && t.chart == Reset(s.chart)
    ensures !s.disabled ==> t.panel == ResetPanel(s.panel)
    ensures t.settles == s.settles && t.polls == s.polls && t.connectionErrors == s.connectionErrors
  {
    if s.disabled then s
    else s.(polling := false, panel := ResetPanel(s.panel), chart := Reset(s.chart),
            disabled := true)
  }

  /**
   The start request succeeded: the 300 ms poll interval is set, and a new
   session begins with no connection error shown yet.
   */
  function OnStartOk(s: Client): (t: Client)
    ensures t.polling && t.disabled == s.disabled && t.panel == s.panel && t.chart == s.chart
    ensures t.settles == s.settles && t.polls == s.polls && t.connectionErrors == 0
  {
    s.(polling := true, connectionErrors := 0)
  }

  /** The start request failed: the error is shown and the button re-enabled; the poll timer is not touched. */
  function OnStartFail(s: Client, why: StartFailure): (t: Client)
    ensures !t.disabled && t.polling == s.polling
    ensures t.panel == ShowError(s.panel, "Failed to start test: " + StartMessage(why))
    ensures t.chart == s.chart && t.settles == s.settles
    ensures t.polls == s.polls && t.connectionErrors == s.connectionErrors
  {
    s.(panel := ShowError(s.panel, "Failed to start test: " + StartMessage(why)), disabled := false)
  }

  /** The poll interval fires: a status request is issued exactly when the timer is set. */
  function OnTick(s: Client): (t: Client)
    ensures t.polls == if s.polling then s.polls + 1 else s.polls
    ensures t.polling == s.polling && t.disabled == s.disabled
    ensures t.panel == s.panel && t.chart == s.chart && t.settles == s.settles
    ensures t.connectionErrors == s.connectionErrors
  {
    if s.polling then s.(polls := s.polls + 1) else s
  }

  /**
   A status reply: `updateUI`, and on a terminal status the timer is cleared and
   a settle timer carrying the snapshot is scheduled. Applied whether or not the
   timer is still set.
   */
  function OnPollOk(s: Client, snap: Snapshot, stamp: Stamp): (t: Client)
    ensures (t.panel, t.chart) == UpdateUI(s.panel, s.chart, snap, stamp)
    ensures Terminal(snap.status) ==> !t.polling && t.settles == s.settles + [snap]
    ensures !Terminal(snap.status) ==> t.polling == s.polling && t.settles == s.settles
    ensures t.disabled == s.disabled && t.connectionErrors == s.connectionErrors && t.polls == s.polls
  {
    var (panel, chart) := UpdateUI(s.panel, s.chart, snap, stamp);
    var t := s.(panel := panel, chart := chart);
    if Terminal(snap.status) then t.(polling := false, settles := s.settles + [snap]) else t
  }

  /**
   A failed poll: reported only while the timer is still set, and then the
   timer is cleared and the button re-enabled; otherwise ignored.
   */
  function OnPollFail(s: Client, why: PollFailure): (t: Client)
    ensures !t.polling
    ensures !s.polling ==> t == s
    ensures s.polling ==> t.connectionErrors == s.connectionErrors + 1 && !t.disabled
    ensures s.polling ==> t.panel == ShowError(s.panel, "Connection error: " + PollMessage(why))
    ensures t.chart == s.chart && t.settles == s.settles && t.polls == s.polls
  {
    if s.polling then
      s.(polling := false, panel := ShowError(s.panel, "Connection error: " + PollMessage(why)),
         disabled := false, connectionErrors := s.connectionErrors + 1)
    else s
  }

  /** The earliest settle timer fires: the button is re-enabled, then the outcome is shown. */
  function OnSettle(s: Client): (t: Client)
    ensures |s.settles| == 0 ==> t == s
    ensures |s.settles| > 0 ==> !t.disabled && t.settles == s.settles[1..] && t.polling == s.polling
    ensures |s.settles| > 0 && s.settles[0].status == "error" ==>
      t.panel == ShowError(s.panel, StringOr(s.settles[0].error, "An error occurred"))
    ensures |s.settles| > 0 && s.settles[0].status != "error" ==> t.panel == ShowSuccess(s.panel)
    ensures t.chart == s.chart && t.polls == s.polls && t.connectionErrors == s.connectionErrors
  {
    if |s.settles| == 0 then s
    else
      var snap := s.settles[0];
      var u := s.(disabled := false, settles := s.settles[1..]);
      if snap.status == "error" then u.(panel := ShowError(u.panel, StringOr(snap.error, "An error occurred")))
      else u.(panel := ShowSuccess(u.panel))
  }

  /**
   One event, dispatched to its handler. Only an accepted start sets the poll
   timer; one event issues at most one status request, and reports at most one
   connection error, and that only while the timer is set.
   */
  function Step(s: Client, e: Event): (t: Client)
    ensures !s.polling && !e.StartOk? ==> !t.polling && t.polls == s.polls
    ensures t.polls <= s.polls + 1
    ensures !e.StartOk? ==> t.connectionErrors <= s.connectionErrors + (if s.polling then 1 else 0)
    ensures !e.StartOk? && !s.polling ==> !t.polling
    ensures e.Click? && s.disabled ==> t == s
  {
    match e
    case Click => OnClick(s)
    case StartOk => OnStartOk(s)
    case StartFail(why) => OnStartFail(s, why)
    case Tick => OnTick(s)
    case PollOk(snap, stamp) => OnPollOk(s, snap, stamp)
    case PollFail(why) => OnPollFail(s, why)
    case Settle => OnSettle(s)
  }

  /** The state after the events `es`, in order. */
  function Run(s: Client, es: seq<Event>): Client
    decreases |es|
  {
    if |es| == 0 then s else Run(Step(s, es[0]), es[1..])
  }

  /** No start request succeeds during `es`. */
  predicate NoStart(es: seq<Event>) {
    forall i :: 0 <= i < |es| ==> !es[i].StartOk?
  }

  /** Only a successful start sets the poll timer. */
  lemma StepKeepsStopped(s: Client, e: Event)
    requires !s.polling && !e.StartOk?
    ensures !Step(s, e).polling && Step(s, e).polls == s.polls
  {
  }

  /**
   Once the timer is cleared, no status request is issued again until a start
   request succeeds.
   */
  lemma {:induction false} NoPollsWithoutStart(s: Client, es: seq<Event>)
    requires !s.polling && NoStart(es)
    ensures !Run(s, es).polling && Run(s, es).polls == s.polls
    decreases |es|
  {
    if |es| > 0 {
      StepKeepsStopped(s, es[0]);
      NoPollsWithoutStart(Step(s, es[0]), es[1..]);
    }
  }

  /** Between successful starts, at most one connection error is reported, and only if the timer was set. */
  lemma {:induction false} AtMostOneConnectionError(s: Client, es: seq<Event>)
    requires NoStart(es)
    ensures Run(s, es).connectionErrors <= s.connectionErrors + (if s.polling then 1 else 0)
    decreases |es|
  {
    if |es| > 0 {
      var t := Step(s, es[0]);
      assert t.connectionErrors <= s.connectionErrors + (if s.polling then 1 else 0);
      assert s.polling || !t.polling;
      assert !t.polling || t.connectionErrors <= s.connectionErrors;
      AtMostOneConnectionError(t, es[1..]);
    }
  }

  /** A session (accepted click, then its start reply) reports at most one connection error. */
  lemma OneConnectionErrorPerSession(s: Client, rest: seq<Event>)
    requires !s.disabled && NoStart(rest)
    ensures Run(s, [Click, StartOk] + rest).connectionErrors <= 1
  {
    var t := Step(Step(s, Click), StartOk);
    assert ([Click, StartOk] + rest)[1..] == [StartOk] + rest;
    assert ([StartOk] + rest)[1..] == rest;
    AtMostOneConnectionError(t, rest);
  }

  /** A click on a disabled button does nothing, whatever else is going on. */
  lemma ClickWhileDisabledIsNoop(s: Client)
    requires s.disabled
    ensures Step(s, Click) == s
  {
  }

  /** A start that fails leaves no poll timer and an enabled button. */
  lemma FailedStartLeavesIdle(s: Client, why: StartFailure)
    requires !s.disabled
    ensures var t := Step(Step(s, Click), StartFail(why));
      !t.polling && !t.disabled && t.panel.red
      && t.panel == ShowError(ResetPanel(s.panel), "Failed to start test: " + StartMessage(why))
  {
  }

  /**
   A start, one poll answered `completed`, and the settle timer: polling has
   stopped, the button is enabled again and success is shown.
   */
  lemma CompletedSession(s: Client, snap: Snapshot, stamp: Stamp)
    requires !s.disabled && s.settles == [] && snap.status == "completed"
    ensures var t := Step(Step(Step(Step(Step(s, Click), StartOk), Tick), PollOk(snap, stamp)), Settle);
      !t.polling && !t.disabled && t.settles == [] && t.polls == s.polls + 1
      && t.panel.statusText == "Test completed successfully!" && t.panel.green && !t.panel.red
  {
  }

  /** A start followed by a failing first poll: one error, the button enabled, polling stopped. */
  lemma BrokenFirstPoll(s: Client, why: PollFailure)
    requires !s.disabled
    ensures var t := Step(Step(Step(Step(s, Click), StartOk), Tick), PollFail(why));
      !t.polling && !t.disabled && t.connectionErrors == 1 && t.polls == s.polls + 1
      && t.panel.red && t.panel.statusText == "Error: " + ("Connection error: " + PollMessage(why))
  {
  }

  /** A download-phase snapshot with 42 Mbps shows 42 rated Fair, a 50% bar, and one chart point. */
  lemma DownloadSnapshotShown(s: Client, stamp: Stamp)
    requires !s.disabled
    ensures var snap := Snapshot("testing_download", None, None, Some(42.0), None, None);
      var t := Step(Step(Step(Step(s, Click), StartOk), Tick), PollOk(snap, stamp));
      t.polling && t.disabled
      && t.panel.download == Shown(42.0, Quality.Quality(Quality.Fair, 50))
      && t.panel.progress == 50 && t.panel.statusText == "Testing download speed..."
      && Valid(t.chart) && Samples(t.chart) == [Sample(stamp, 42.0, 0.0)]
  {
  }
}
