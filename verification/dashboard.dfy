/**
 How the client's status table meets the statuses the service actually writes.
 */
module Dashboard {
  import opened TestServer
  import opened StatusView

  /** The progress bar for a server status, as the client draws it. */
  function ProgressOf(s: Status): int {
    Entry(Name(s)).progress
  }

  /**
   The client table knows every status the service writes except `idle` and
   `running`, which fall back to their own name and an empty bar.
   */
  lemma UnmappedServerStatuses(s: Status)
    ensures Name(s) !in Table <==> s == Idle || s == Running
    ensures (s == Idle || s == Running) ==> Entry(Name(s)) == StatusEntry(Name(s), 0)
  {
  }

  /** The bar for each status the service writes. */
  lemma ProgressTable()
    ensures ProgressOf(Idle) == 0 && ProgressOf(Running) == 0 && ProgressOf(Starting) == 5
    ensures ProgressOf(FindingServer) == 15 && ProgressOf(TestingPing) == 30
    ensures ProgressOf(TestingDownload) == 50 && ProgressOf(TestingUpload) == 80
    ensures ProgressOf(Completed) == 100 && ProgressOf(Error) == 0
  {
    EntryValues();
    assert "idle" !in Table;
  }

  /**
   Along a run without failure the bar reads 0, 15, 30, 50, 80, 100: it never
   moves back once the run is going. The record `start_test` leaves behind shows
   5, so the first write of the run (`running`) takes the bar back to 0.
   */
  lemma ProgressAlongSuccessfulRun(p: Probe)
    requires Succeeds(p)
    ensures var ss := StatusWrites(Program(p));
      |ss| == 6
      && ProgressOf(ss[0]) == 0 && ProgressOf(ss[1]) == 15 && ProgressOf(ss[2]) == 30
      && ProgressOf(ss[3]) == 50 && ProgressOf(ss[4]) == 80 && ProgressOf(ss[5]) == 100
      && (forall i :: 0 < i < |ss| ==> ProgressOf(ss[i - 1]) <= ProgressOf(ss[i]))
    ensures ProgressOf(StartTest(InitialRecord()).1.status) == 5 && ProgressOf(Running) == 0
  {
    SuccessfulRunStatuses(p);
    ProgressTable();
  }

  /** The error the client shows for a failed run is the service's message, or its fallback when the message is empty. */
  lemma FailedRunMessage(r: Record, p: Probe)
    requires FailureOf(p).Some?
    ensures var snap := ToSnapshot(RunSpeedtest(r, p));
      snap.status == "error"
      && Wire.StringOr(snap.error, "An error occurred")
         == (if FailureOf(p).value == "" then "An error occurred" else FailureOf(p).value)
  {
    FailedRun(r, p);
  }
}
