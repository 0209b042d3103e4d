/**
 * The orchestration of the current client
 * (apps/client/src/wsclip/core/sync_manager.py): the session and the
 * clipboard service it owns, the handler it registers, connecting with or
 * without retry, starting a mode, the auto-mode and manual-mode send
 * paths, writing received clipboard text, and stopping.
 *
 * Each callback is one atomic step here; the concurrency between the
 * monitor, the hotkey thread and the receive loop is an interleaving of
 * these steps.
 */
module Sync {
  import opened Wrappers
  import opened Messages
  import Backoff
  import Config
  import Session
  import Clipboard

  /** The identity of `_on_clipboard_received` as a registered handler. */
  const ClipboardHandler: Session.Handler := 0

  /** The side effects `stop` has on its collaborators, in the order it has them. */
  datatype Action = MonitoringStopped | HotkeysStopped | SessionDisconnected

  /** The strategy `_connect_with_retry` builds: the settings' delays and the configured attempt limit. */
  function RetryParams(c: Config.ConnectionConfig): Backoff.BackoffParams
  {
    Backoff.BackoffParams(1.0, 30.0, c.reconnect.maxAttempts)
  }

  /** Whether `_connect_with_retry` ends connected, the calls of `connect` going as `outcome` says. */
  function Connects(c: Config.ConnectionConfig, outcome: nat -> Backoff.ConnectOutcome): bool
  {
    if c.reconnect.enabled then Backoff.Retry(RetryParams(c), outcome).connected
    else outcome(0) == Backoff.Succeeded
  }

  /**
   * The clipboard after the handler has run on each dispatched message in
   * turn, the `i`-th write succeeding when `writeOk(i)`: the text of the last
   * clipboard message written, if any.
   */
  function LastWritten(ds: seq<(Session.Handler, Message)>, writeOk: nat -> bool): Option<string>
  {
    if ds == [] then None
    else
      var i := |ds| - 1;
      if ds[i].0 == ClipboardHandler && ds[i].1.ClipboardTextMessage? && writeOk(i) then Some(ds[i].1.content)
      else LastWritten(ds[..i], writeOk)
  }

  class SyncManager {
    var config: Config.AppConfig
    const ws: Session.WebSocketService
    const clipboard: Clipboard.ClipboardService
    /** `hotkey_service is not None`. */
    var hotkeyService: bool
    /** Whether the global hotkey listener is running. */
    var hotkeysListening: bool

    /** The session is consistent and only the clipboard handler is registered on it. */
    ghost predicate Valid()
      reads this, ws
    {
      ws.Valid() && ws.handlers == map["clipboard_text" := ClipboardHandler]
    }

    /** `__init__`: build both services from the configuration and register the clipboard handler. */
    constructor(config: Config.AppConfig, clipboardContent: string)
      ensures this.config == config && !hotkeyService && !hotkeysListening
      ensures fresh(ws) && fresh(clipboard) && Valid()
      ensures ws.workerUrl == config.connection.workerUrl && ws.token == config.connection.token
      ensures ws.peerId == config.connection.peerId && ws.proxy == Some(config.proxy)
      ensures !ws.authenticated && ws.transport == Session.NoSocket && ws.outbox == []
      ensures clipboard.maxSizeBytes == config.clipboard.maxSizeMb * 1024 * 1024
      ensures clipboard.clipboard == clipboardContent && !clipboard.monitoring
      ensures clipboard.lastContent == None && clipboard.lastReceived == None
    {
      this.config := config;
      ws := new Session.WebSocketService(
        config.connection.workerUrl, config.connection.token, config.connection.peerId, Some(config.proxy));
      clipboard := new Clipboard.ClipboardService(config.clipboard.maxSizeMb * 1024 * 1024, clipboardContent);
      hotkeyService := false;
      hotkeysListening := false;
      new;
      ws.RegisterHandler("clipboard_text", ClipboardHandler);
    }

    /**
     * `_connect_with_retry`: one direct `connect` when reconnecting is
     * disabled; otherwise a fresh strategy with the configured attempt limit
     * drives `connect`, the `i`-th call meeting `attempts(i)`.
     */
    method ConnectWithRetry(attempts: nat -> Session.Attempt, now: string) returns (ok: bool, calls: nat)
      requires Valid()
      modifies ws
      ensures Valid()
      ensures ok == Connects(config.connection, Session.Outcomes(ws.workerUrl, attempts))
      ensures !config.connection.reconnect.enabled ==> calls == 1
      ensures config.connection.reconnect.enabled ==>
        Backoff.RetryResult(ok, calls) == Backoff.Retry(RetryParams(config.connection), Session.Outcomes(ws.workerUrl, attempts))
      ensures ok ==> ws.IsConnected()
    {
      var outcome := Session.Outcomes(ws.workerUrl, attempts);
      if !config.connection.reconnect.enabled {
        var dial;
        ok, dial := ws.Connect(attempts(0).openOk, attempts(0).reply, now);
        return ok, 1;
      }
      var strategy := new Backoff.ReconnectionStrategy(1.0, 30.0, config.connection.reconnect.maxAttempts);
      strategy.Reset();
      calls := 0;
      while true
        invariant fresh(strategy) && Valid()
        invariant strategy.Params() == RetryParams(config.connection)
        invariant strategy.Valid() && calls == strategy.attemptCount
        invariant Backoff.Retry(strategy.Params(), outcome) == Backoff.RetryFrom(strategy.Params(), outcome, calls)
        decreases Backoff.Max0(strategy.maxAttempts) - strategy.attemptCount
      {
        var attempt := attempts(calls);
        var dial;
        ok, dial := ws.Connect(attempt.openOk, attempt.reply, now);
        calls := calls + 1;
        if ok {
          strategy.Reset();
          return;
        }
        var delay := strategy.GetNextDelay();
        if delay < 0.0 {
          return;
        }
      }
    }

    /**
     * `start`: an explicit mode overrides the configured one; a failed
     * connection returns without starting either mode; otherwise auto mode
     * starts the clipboard monitor and manual mode the hotkey listener.
     * (The receive loop that follows is `ReceiveAndApply`.)
     */
    method Start(mode: Option<ClipboardSyncMode>, attempts: nat -> Session.Attempt, now: string)
      returns (connected: bool)
      requires Valid()
      modifies this, ws, clipboard
      ensures Valid()
      ensures config == old(config).(clipboard := old(config).clipboard.(
        syncMode := if mode.Some? then mode.value else old(config).clipboard.syncMode))
      ensures connected == Connects(config.connection, Session.Outcomes(ws.workerUrl, attempts))
      ensures connected ==> ws.IsConnected()
      ensures !connected || config.clipboard.syncMode == Manual ==>
        clipboard.monitoring == old(clipboard.monitoring) && clipboard.lastContent == old(clipboard.lastContent)
      ensures !connected || config.clipboard.syncMode == Auto ==>
        hotkeyService == old(hotkeyService) && hotkeysListening == old(hotkeysListening)
      ensures connected && config.clipboard.syncMode == Auto ==> clipboard.monitoring
      ensures connected && config.clipboard.syncMode == Manual ==> hotkeyService && hotkeysListening
      ensures clipboard.clipboard == old(clipboard.clipboard) && clipboard.lastReceived == old(clipboard.lastReceived)
    {
      if mode.Some? {
        config := config.(clipboard := config.clipboard.(syncMode := mode.value));
      }
      var calls;
      connected, calls := ConnectWithRetry(attempts, now);
      if connected {
        StartTrigger();
      }
    }

    /** The second half of `start` once connected: the clipboard monitor in auto mode, the hotkey listener in manual mode. */
    method StartTrigger()
      modifies this, clipboard
      ensures config == old(config)
      ensures config.clipboard.syncMode == Manual ==>
        clipboard.monitoring == old(clipboard.monitoring) && clipboard.lastContent == old(clipboard.lastContent)
      ensures config.clipboard.syncMode == Auto ==>
        hotkeyService == old(hotkeyService) && hotkeysListening == old(hotkeysListening)
      ensures config.clipboard.syncMode == Auto ==> clipboard.monitoring
      ensures config.clipboard.syncMode == Manual ==> hotkeyService && hotkeysListening
      ensures clipboard.clipboard == old(clipboard.clipboard) && clipboard.lastReceived == old(clipboard.lastReceived)
    {
      if config.clipboard.syncMode == Auto {
        clipboard.StartMonitoring();
      } else {
        hotkeyService := true;
        hotkeysListening := true;
      }
    }

    /**
     * One pass of the monitor in auto mode (`on_clipboard_change`): the
     * clipboard now holds `sample`, and a change the monitor reports is sent
     * with source AUTO.
     */
    method AutoPoll(sample: string, messageId: string, now: string) returns (report: Option<string>)
      requires Valid()
      modifies ws, clipboard
      ensures Valid()
      ensures (clipboard.State(), report) == Clipboard.Poll(old(clipboard.State()), clipboard.maxSizeBytes, sample)
      ensures clipboard.clipboard == sample
      ensures ws.outbox == old(ws.outbox) +
        (if report.Some? then
           Session.ClipboardFrames(ws.authenticated, ws.transport, ws.peerId, report.value, Auto, messageId, now)
         else [])
      ensures ws.authenticated == old(ws.authenticated) && ws.transport == old(ws.transport)
      ensures ws.pairedPeer == old(ws.pairedPeer)
    {
      report := clipboard.PollOnce(sample);
      if report.Some? {
        var _ := ws.SendClipboard(report.value, Auto, messageId, now);
      }
    }

    /**
     * `send_current_clipboard` (manual mode): an empty clipboard sends
     * nothing; otherwise its text is sent with source MANUAL without
     * consulting the monitor's gate, so every press sends.
     */
    method SendCurrentClipboard(messageId: string, now: string) returns (content: Option<string>)
      requires Valid()
      modifies ws
      ensures Valid()
      ensures content == Clipboard.ReadClipboard(clipboard.clipboard)
      ensures ws.outbox == old(ws.outbox) +
        (if content.Some? then
           Session.ClipboardFrames(ws.authenticated, ws.transport, ws.peerId, content.value, Manual, messageId, now)
         else [])
      ensures ws.authenticated == old(ws.authenticated) && ws.transport == old(ws.transport)
      ensures clipboard.State() == old(clipboard.State())
    {
      content := clipboard.Get();
      if content.Some? {
        var _ := ws.SendClipboard(content.value, Manual, messageId, now);
      }
    }

    /** `_on_clipboard_received`: only clipboard messages are written to the clipboard. */
    method OnClipboardReceived(m: Message, writeOk: bool) returns (written: bool)
      modifies clipboard
      ensures written <==> m.ClipboardTextMessage? && writeOk
      ensures written ==> clipboard.clipboard == m.content && clipboard.lastReceived == Some(m.content)
      ensures !written ==> clipboard.clipboard == old(clipboard.clipboard) && clipboard.lastReceived == old(clipboard.lastReceived)
      ensures clipboard.lastContent == old(clipboard.lastContent) && clipboard.monitoring == old(clipboard.monitoring)
    {
      if !m.ClipboardTextMessage? {
        return false;
      }
      written := clipboard.Set(m.content, writeOk);
    }

    /**
     * The receive loop of either mode with the registered handler applied:
     * every message dispatched is a clipboard message, and the clipboard
     * ends up holding the last one written (the `i`-th write succeeding when
     * `writeOk(i)`).
     */
    method ReceiveAndApply(frames: seq<Session.Frame>, writeOk: nat -> bool)
      returns (dispatched: seq<(Session.Handler, Message)>)
      requires Valid()
      modifies ws, clipboard
      ensures Valid()
      ensures forall j :: 0 <= j < |dispatched| ==>
        dispatched[j].0 == ClipboardHandler && dispatched[j].1.ClipboardTextMessage?
      ensures var w := LastWritten(dispatched, writeOk);
        && clipboard.clipboard == (if w.Some? then w.value else old(clipboard.clipboard))
        && clipboard.lastReceived == (if w.Some? then w else old(clipboard.lastReceived))
      ensures clipboard.lastContent == old(clipboard.lastContent) && clipboard.monitoring == old(clipboard.monitoring)
      ensures ws.outbox == old(ws.outbox)
    {
      var consumed;
      ghost var start := Session.Listen(ws.pairedPeer, ws.transport, [], true);
      dispatched, consumed := ws.ReceiveLoop(frames);
      if old(ws.authenticated) {
        Session.DispatchedRegistered(ws.handlers, start, frames[..consumed]);
        assert Session.AllRegistered(ws.handlers, dispatched);
      }
      forall j | 0 <= j < |dispatched|
        ensures dispatched[j].0 == ClipboardHandler && dispatched[j].1.ClipboardTextMessage?
      {
        assert TypeTag(TypeOf(dispatched[j].1)) == "clipboard_text";
        TagOnlyClipboard(dispatched[j].1);
      }
      var i := 0;
      while i < |dispatched|
        invariant 0 <= i <= |dispatched| && Valid()
        invariant var w := LastWritten(dispatched[..i], writeOk);
          && clipboard.clipboard == (if w.Some? then w.value else old(clipboard.clipboard))
          && clipboard.lastReceived == (if w.Some? then w else old(clipboard.lastReceived))
        invariant clipboard.lastContent == old(clipboard.lastContent) && clipboard.monitoring == old(clipboard.monitoring)
        invariant ws.outbox == old(ws.outbox)
      {
        assert dispatched[..i + 1][..i] == dispatched[..i];
        var _ := OnClipboardReceived(dispatched[i].1, writeOk(i));
        i := i + 1;
      }
      assert dispatched[..i] == dispatched;
    }

    /**
     * `stop`: the trigger of the current mode is stopped first (the monitor
     * in auto mode, the hotkey listener in manual mode when there is one),
     * then the session is disconnected.
     */
    method Stop() returns (steps: seq<Action>)
      requires Valid()
      modifies this, ws, clipboard
      ensures Valid() && config == old(config)
      ensures steps ==
        (if config.clipboard.syncMode == Auto then [MonitoringStopped]
         else if hotkeyService then [HotkeysStopped] else []) + [SessionDisconnected]
      ensures config.clipboard.syncMode == Auto ==> !clipboard.monitoring
      ensures config.clipboard.syncMode == Manual ==> !hotkeysListening || !hotkeyService
      ensures !ws.IsConnected() && !ws.running && ws.pairedPeer == None
      ensures ws.outbox == old(ws.outbox) && ws.sessionId == old(ws.sessionId)
      ensures clipboard.clipboard == old(clipboard.clipboard) && clipboard.lastReceived == old(clipboard.lastReceived)
      ensures hotkeyService == old(hotkeyService)
    {
      steps := [];
      if config.clipboard.syncMode == Auto {
        clipboard.StopMonitoring();
        steps := steps + [MonitoringStopped];
      } else if hotkeyService {
        hotkeysListening := false;
        steps := steps + [HotkeysStopped];
      }
      ws.Disconnect();
      steps := steps + [SessionDisconnected];
    }
  }

  /** A message tagged `clipboard_text` is a clipboard message. */
  lemma TagOnlyClipboard(m: Message)
    requires TypeTag(TypeOf(m)) == "clipboard_text"
    ensures m.ClipboardTextMessage?
  {
  }
}
