/**
 * The clipboard service of the current client
 * (apps/client/src/wsclip/services/clipboard.py): reads and writes of the
 * system clipboard, the gate deciding whether a local change is sent
 * (one-shot echo guard, size limit, unchanged-content filter), and the
 * polling loop that feeds the gate.
 *
 * The system clipboard is the field `clipboard`; a value the user copies
 * between two polls is one element of the `samples` given to `MonitorLoop`.
 */
module Clipboard {
  import opened Wrappers
  import Strings

  /** The two fields the gate reads: `_last_content` and `_last_received`. */
  datatype GateState = GateState(lastContent: Option<string>, lastReceived: Option<string>)

  /** What `should_ignore_change` answers, and the `_last_received` it leaves. */
  datatype GateOutcome = GateOutcome(ignore: bool, lastReceived: Option<string>)

  /** Python's truth value of `_last_received`: set and non-empty. */
  predicate Marked(lastReceived: Option<string>)
  {
    lastReceived.Some? && lastReceived.value != ""
  }

  /** `pyperclip.paste()` seen through `get`: an empty clipboard reads as `None`. */
  function ReadClipboard(clipboard: string): (r: Option<string>)
    ensures r.None? <==> clipboard == ""
    ensures r.Some? ==> r.value == clipboard
  {
    if clipboard == "" then None else Some(clipboard)
  }

  /**
   * `should_ignore_change`: the echo of what was just written is ignored once
   * (and the marker cleared); content over `maxSize` UTF-8 bytes is ignored;
   * otherwise the change is ignored when it equals the last reported content.
   */
  function Gate(st: GateState, maxSize: int, content: string): (r: GateOutcome)
    ensures r.lastReceived != st.lastReceived ==> r.ignore && r.lastReceived == None
    ensures !r.ignore ==> Strings.Utf8Length(content) <= maxSize && Some(content) != st.lastContent
  {
    if Marked(st.lastReceived) && content == st.lastReceived.value then GateOutcome(true, None)
    else if Strings.Utf8Length(content) > maxSize then GateOutcome(true, st.lastReceived)
    else GateOutcome(Some(content) == st.lastContent, st.lastReceived)
  }

  /**
   * One pass of the `_monitor_loop` body on the clipboard value `current`:
   * a non-empty value the gate lets through becomes `_last_content` and is
   * reported to `on_change`.
   */
  function Poll(st: GateState, maxSize: int, current: string): (GateState, Option<string>)
  {
    if current == "" then (st, None)
    else
      var g := Gate(st, maxSize, current);
      if g.ignore then (GateState(st.lastContent, g.lastReceived), None)
      else (GateState(Some(current), g.lastReceived), Some(current))
  }

  /** The loop over a sequence of polled values: the final state and the values reported, in order. */
  function Monitor(st: GateState, maxSize: int, samples: seq<string>): (r: (GateState, seq<string>))
    ensures |r.1| <= |samples|
  {
    if samples == [] then (st, [])
    else
      var (mid, reported) := Monitor(st, maxSize, samples[..|samples| - 1]);
      var (next, out) := Poll(mid, maxSize, samples[|samples| - 1]);
      (next, if out.Some? then reported + [out.value] else reported)
  }

  class ClipboardService {
    const maxSizeBytes: int
    /** The system clipboard. */
    var clipboard: string
    var monitoring: bool
    var lastContent: Option<string>
    var lastReceived: Option<string>
    /** Whether a monitor task is held (`_monitor_task is not None`). */
    var monitorTask: bool

    function State(): GateState
      reads this
    {
      GateState(lastContent, lastReceived)
    }

    constructor(maxSizeBytes: int, clipboard: string)
      ensures this.maxSizeBytes == maxSizeBytes && this.clipboard == clipboard
      ensures !monitoring && lastContent == None && lastReceived == None && !monitorTask
    {
      this.maxSizeBytes := maxSizeBytes;
      this.clipboard := clipboard;
      monitoring := false;
      lastContent := None;
      lastReceived := None;
      monitorTask := false;
    }

    /** `get`: the clipboard text, or `None` when it is empty. */
    method Get() returns (r: Option<string>)
      ensures r == ReadClipboard(clipboard)
    {
      if clipboard == "" {
        r := None;
      } else {
        r := Some(clipboard);
      }
    }

    /** `set`: write the clipboard and remember the text as the echo to ignore; a failed write changes nothing. */
    method Set(text: string, writeOk: bool) returns (ok: bool)
      modifies this
      ensures ok == writeOk
      ensures writeOk ==> clipboard == text && lastReceived == Some(text)
      ensures !writeOk ==> clipboard == old(clipboard) && lastReceived == old(lastReceived)
      ensures lastContent == old(lastContent) && monitoring == old(monitoring) && monitorTask == old(monitorTask)
    {
      if !writeOk {
        return false;
      }
      clipboard := text;
      lastReceived := Some(text);
      ok := true;
    }

    /** `should_ignore_change`: the gate; it may clear the echo marker and touches nothing else. */
    method ShouldIgnoreChange(content: string) returns (ignore: bool)
      modifies this
      ensures GateOutcome(ignore, lastReceived) == Gate(old(State()), maxSizeBytes, content)
      ensures lastContent == old(lastContent) && clipboard == old(clipboard)
      ensures monitoring == old(monitoring) && monitorTask == old(monitorTask)
    {
      if lastReceived.Some? && lastReceived.value != "" && content == lastReceived.value {
        lastReceived := None;
        return true;
      }
      var contentBytes := Strings.Utf8Length(content);
      if contentBytes > maxSizeBytes {
        return true;
      }
      ignore := Some(content) == lastContent;
    }

    /** `start_monitoring`: nothing when already monitoring; otherwise the current clipboard is the baseline. */
    method StartMonitoring()
      modifies this
      ensures old(monitoring) ==>
        monitoring && lastContent == old(lastContent) && monitorTask == old(monitorTask)
      ensures !old(monitoring) ==>
        monitoring && lastContent == ReadClipboard(clipboard) && monitorTask
      ensures clipboard == old(clipboard) && lastReceived == old(lastReceived)
    {
      if monitoring {
        return;
      }
      monitoring := true;
      lastContent := Get();
      monitorTask := true;
    }

    /** `stop_monitoring`: clear the flag and drop the task. */
    method StopMonitoring()
      modifies this
      ensures !monitoring && !monitorTask
      ensures clipboard == old(clipboard) && lastContent == old(lastContent) && lastReceived == old(lastReceived)
    {
      monitoring := false;
      monitorTask := false;
    }

    /**
     * One pass of the `_monitor_loop` body: the clipboard now holds `sample`;
     * a non-empty value the gate lets through becomes the baseline and is
     * the value handed to `on_change`.
     */
    method PollOnce(sample: string) returns (report: Option<string>)
      modifies this
      ensures clipboard == sample
      ensures (State(), report) == Poll(old(State()), maxSizeBytes, sample)
      ensures monitoring == old(monitoring) && monitorTask == old(monitorTask)
    {
      clipboard := sample;
      report := None;
      var current := Get();
      if current.Some? {
        var ignore := ShouldIgnoreChange(current.value);
        if !ignore {
          lastContent := current;
          report := current;
        }
      }
    }

    /**
     * `_monitor_loop` while monitoring: before poll `i` the clipboard holds
     * `samples[i]`; the loop stops when the samples run out (the point where
     * it is cancelled). Returns the values passed to `on_change`.
     */
    method MonitorLoop(samples: seq<string>) returns (reported: seq<string>)
      modifies this
      ensures var n := if old(monitoring) then |samples| else 0;
        (State(), reported) == Monitor(old(State()), maxSizeBytes, samples[..n])
      ensures monitoring == old(monitoring) && monitorTask == old(monitorTask)
    {
      reported := [];
      var i := 0;
      ghost var start := State();
      while i < |samples| && monitoring
        invariant 0 <= i <= |samples|
        invariant monitoring == old(monitoring) && monitorTask == old(monitorTask)
        invariant !monitoring ==> i == 0
        invariant (State(), reported) == Monitor(start, maxSizeBytes, samples[..i])
      {
        assert samples[..i + 1][..i] == samples[..i];
        var report := PollOnce(samples[i]);
        if report.Some? {
          reported := reported + [report.value];
        }
        i := i + 1;
      }
      if monitoring {
        assert samples[..|samples|] == samples;
      }
    }
  }

  // ---------------------------------------------------------------------
  // Properties of the gate

  /**
   * The echo guard is one-shot: right after a write of `x` the change to `x`
   * is ignored and the marker cleared; asked again, the gate answers as if
   * nothing had been written.
   */
  lemma EchoOneShot(st: GateState, maxSize: int, x: string)
    requires x != "" && st.lastReceived == Some(x)
    ensures Gate(st, maxSize, x) == GateOutcome(true, None)
    ensures Gate(GateState(st.lastContent, None), maxSize, x).ignore
      <==> Strings.Utf8Length(x) > maxSize || st.lastContent == Some(x)
  {
  }

  /** An absent or empty marker never suppresses anything and is left as it is. */
  lemma EmptyMarkerNeverSuppresses(st: GateState, maxSize: int, content: string)
    requires st.lastReceived == None || st.lastReceived == Some("")
    ensures Gate(st, maxSize, content).lastReceived == st.lastReceived
    ensures Gate(st, maxSize, content).ignore
      <==> Strings.Utf8Length(content) > maxSize || st.lastContent == Some(content)
  {
  }

  /**
   * The size limit is persistent: oversized content that is not the pending
   * echo is ignored and leaves the state as it was, so it is ignored again on
   * every later call.
   */
  lemma SizeGatePersistent(st: GateState, maxSize: int, content: string)
    requires Strings.Utf8Length(content) > maxSize
    requires !(Marked(st.lastReceived) && content == st.lastReceived.value)
    ensures Gate(st, maxSize, content) == GateOutcome(true, st.lastReceived)
    ensures Poll(st, maxSize, content) == (st, None)
  {
  }

  /**
   * Past the echo and size checks the gate is the unchanged-content filter,
   * and a change it lets through becomes the baseline, so the same content
   * asked about again is ignored.
   */
  lemma UnchangedContentFilter(st: GateState, maxSize: int, content: string)
    requires content != "" && Strings.Utf8Length(content) <= maxSize
    requires !(Marked(st.lastReceived) && content == st.lastReceived.value)
    ensures Gate(st, maxSize, content).ignore <==> st.lastContent == Some(content)
    ensures !Gate(st, maxSize, content).ignore ==>
      var next := Poll(st, maxSize, content).0;
      Poll(st, maxSize, content).1 == Some(content) && Gate(next, maxSize, content).ignore
  {
    var next := Poll(st, maxSize, content).0;
    if !Gate(st, maxSize, content).ignore {
      assert next.lastReceived == st.lastReceived;
    }
  }

  // ---------------------------------------------------------------------
  // Properties of the polling loop

  /** The reports of a polling run, given the baseline the run started from. */
  predicate WellReported(baseline: Option<string>, maxSize: int, samples: seq<string>, reported: seq<string>)
  {
    && (forall j :: 0 <= j < |reported| ==> reported[j] != "" && Strings.Utf8Length(reported[j]) <= maxSize)
    && (forall j :: 0 <= j < |reported| ==> reported[j] in samples)
    && (|reported| > 0 ==> baseline != Some(reported[0]))
    && (forall j :: 0 < j < |reported| ==> reported[j] != reported[j - 1])
  }

  /**
   * What the loop reports: non-empty values within the size limit, each one
   * polled, the first different from the starting baseline and each
   * different from the one before; the final baseline is the last report.
   */
  lemma {:induction false} MonitorReports(st: GateState, maxSize: int, samples: seq<string>)
    ensures var (fin, reported) := Monitor(st, maxSize, samples);
      && WellReported(st.lastContent, maxSize, samples, reported)
      && fin.lastContent == (if reported == [] then st.lastContent else Some(reported[|reported| - 1]))
  {
    if samples != [] {
      var init := samples[..|samples| - 1];
      var last := samples[|samples| - 1];
      MonitorReports(st, maxSize, init);
      var (mid, before) := Monitor(st, maxSize, init);
      var (fin, reported) := Monitor(st, maxSize, samples);
      assert forall s :: s in init ==> s in samples;
      if Poll(mid, maxSize, last).1.Some? {
        assert reported == before + [last];
        if before != [] {
          assert mid.lastContent == Some(before[|before| - 1]);
        }
      } else {
        assert reported == before;
      }
    }
  }

  // ---------------------------------------------------------------------
  // The echo comes back on the second poll

  /**
   * As written, the value just received is suppressed on the first poll only:
   * the baseline stays at the previous report, so the next poll of the same
   * value reports it and it is sent back to the peer.
   */
  lemma EchoReturnsOnSecondPoll()
    ensures Monitor(GateState(Some("a"), Some("x")), 1048576, ["x", "x"]).1 == ["x"]
  {
    var st := GateState(Some("a"), Some("x"));
    assert ["x", "x"][..1] == ["x"];
    assert [ "x"][..0] == [];
    assert Monitor(st, 1048576, ["x"]) == (GateState(Some("a"), None), []);
  }

  /** The evidently intended poll: an echo that is suppressed also becomes the baseline. */
  function GuardedPoll(st: GateState, maxSize: int, current: string): (GateState, Option<string>)
  {
    if current == "" then (st, None)
    else if Marked(st.lastReceived) && current == st.lastReceived.value then
      (GateState(Some(current), None), None)
    else Poll(st, maxSize, current)
  }

  function GuardedMonitor(st: GateState, maxSize: int, samples: seq<string>): (GateState, seq<string>)
  {
    if samples == [] then (st, [])
    else
      var (mid, reported) := GuardedMonitor(st, maxSize, samples[..|samples| - 1]);
      var (next, out) := GuardedPoll(mid, maxSize, samples[|samples| - 1]);
      (next, if out.Some? then reported + [out.value] else reported)
  }

  /**
   * With the guarded poll a value written by `set` is never reported while the
   * clipboard keeps holding it, however many polls see it.
   */
  lemma {:induction false} GuardedNeverEchoes(st: GateState, maxSize: int, x: string, n: nat)
    requires x != "" && st.lastReceived == Some(x)
    ensures GuardedMonitor(st, maxSize, seq(n, _ => x)).1 == []
    ensures n > 0 ==> GuardedMonitor(st, maxSize, seq(n, _ => x)).0 == GateState(Some(x), None)
  {
    if n > 0 {
      var samples := seq(n, _ => x);
      assert samples[..n - 1] == seq(n - 1, _ => x);
      GuardedNeverEchoes(st, maxSize, x, n - 1);
      if n - 1 > 0 {
        var mid := GuardedMonitor(st, maxSize, samples[..n - 1]).0;
        assert mid == GateState(Some(x), None);
        assert Poll(mid, maxSize, x).1 == None;
      }
    }
  }
}
