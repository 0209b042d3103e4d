/**
 * The state and the text of the terminal interface of the current client
 * (apps/client/src/wsclip/utils/tui.py): `format_hotkey`, the token and
 * status strings of the status panel, and the `TUIManager` fields that
 * `add_log`, `update_status` and `stop` change. Drawing with Rich is not
 * modelled; `live` only records whether a live display is held.
 */
module Tui {
  import opened Wrappers
  import Strings
  import Config
  import Messages

  // ---------------------------------------------------------------------
  // format_hotkey

  /** The display names of the pynput key tokens, in the order they are replaced. */
  const Replacements: seq<(string, string)> := [
    ("<alt>", "Alt"), ("<shift>", "Shift"), ("<ctrl>", "Ctrl"), ("<cmd>", "Cmd"),
    ("<enter>", "Enter"), ("<space>", "Space"), ("<tab>", "Tab"), ("<backspace>", "Backspace"),
    ("<delete>", "Delete"), ("<esc>", "Esc"), ("<up>", "Up"), ("<down>", "Down"),
    ("<left>", "Left"), ("<right>", "Right")]

  /** Every pattern of a replacement table is non-empty. */
  predicate Patterns(table: seq<(string, string)>)
  {
    forall i :: 0 <= i < |table| ==> table[i].0 != []
  }

  /** The `for old, new in replacements.items()` loop: each replacement applied to the whole text, in order. */
  function ApplyReplacements(s: string, table: seq<(string, string)>): string
    requires Patterns(table)
    decreases |table|
  {
    if table == [] then s
    else ApplyReplacements(Strings.Replace(s, table[0].0, table[0].1), table[1..])
  }

  /** `format_hotkey`: key tokens become their names, then every `+` becomes ` + `. */
  function FormatHotkey(pynputFormat: string): string
  {
    Strings.Replace(ApplyReplacements(pynputFormat, Replacements), "+", " + ")
  }

  /** `parts` joined with `sep` between consecutive parts. */
  function Join(parts: seq<string>, sep: string): string
  {
    if |parts| == 0 then ""
    else if |parts| == 1 then parts[0]
    else parts[0] + (sep + Join(parts[1..], sep))
  }

  /**
   * A hotkey whose keys are written `<k1>+<k2>+...+<kn>`, each a token of
   * the table or a plain key such as `c`, is displayed as the key names
   * joined with ` + `: `<alt>+<shift>+<enter>` is shown as `Alt + Shift + Enter`.
   */
  lemma FormatHotkeyJoin(texts: seq<string>, names: seq<string>)
    requires |texts| == |names|
    requires forall i :: 0 <= i < |texts| ==> KeyOf(Replacements, texts[i], names[i])
    ensures FormatHotkey(Join(texts, "+")) == Join(names, " + ")
  {
    TableFacts();
    TableJoin(Replacements, texts, names);
  }

  // ---------------------------------------------------------------------
  // Proof of FormatHotkeyJoin, segment by segment

  /** `<name>` with no angle bracket inside. */
  predicate Token(t: string)
  {
    |t| >= 2 && t[0] == '<' && t[|t| - 1] == '>' && forall k :: 0 < k < |t| - 1 ==> t[k] != '<' && t[k] != '>'
  }

  /** A segment the pattern cannot straddle: the pattern itself, free of its first character, or another token. */
  predicate Separable(seg: string, pat: string)
    requires pat != []
  {
    seg == pat || pat[0] !in seg || (Token(seg) && Token(pat))
  }

  /** What the replacements make of a segment on its own. */
  function SegAfter(seg: string, table: seq<(string, string)>): string
    decreases |table|
  {
    if table == [] then seg
    else SegAfter(if seg == table[0].0 then table[0].1 else seg, table[1..])
  }

  /** The segment, and what each replacement makes of it, is separable from the next pattern. */
  predicate Clean(seg: string, table: seq<(string, string)>)
    requires Patterns(table)
    decreases |table|
  {
    table == [] ||
    (Separable(seg, table[0].0) && Clean(if seg == table[0].0 then table[0].1 else seg, table[1..]))
  }

  /** The literal table: token patterns, pairwise distinct, names free of `<` and `+`. */
  lemma TableFacts()
    ensures TokenTable(Replacements)
  {
    TableTokens();
    TableDistinct();
    TableNames();
  }

  lemma TableTokens()
    ensures forall j :: 0 <= j < |Replacements| ==> Token(Replacements[j].0)
  {
  }

  lemma TableDistinct()
    ensures forall j, k :: 0 <= j < k < |Replacements| ==> Replacements[j].0 != Replacements[k].0
  {
  }

  lemma TableNames()
    ensures forall j :: 0 <= j < |Replacements| ==> '<' !in Replacements[j].1 && '+' !in Replacements[j].1
  {
  }

  /** A token that differs from the pattern token does not start a match. */
  lemma TokenMismatch(seg: string, pat: string, rest: string)
    requires Token(seg) && Token(pat) && seg != pat
    ensures !Strings.StartsWith(seg + rest, pat)
  {
    var s := seg + rest;
    if |pat| <= |s| {
      if |pat| < |seg| {
        assert s[..|pat|][|pat| - 1] == seg[|pat| - 1] != '>';
      } else if |pat| > |seg| {
        assert s[..|pat|][|seg| - 1] == '>' != pat[|seg| - 1];
      } else {
        assert s[..|pat|] == seg;
      }
    }
  }

  /** Replacing in `seg + rest` treats a separable segment on its own. */
  lemma SegSplit(seg: string, rest: string, pat: string, rep: string)
    requires pat != [] && Separable(seg, pat)
    ensures Strings.Replace(seg + rest, pat, rep) == (if seg == pat then rep else seg) + Strings.Replace(rest, pat, rep)
  {
    if seg == pat {
      Strings.ReplaceHit(pat, rest, rep);
    } else if pat[0] !in seg {
      Strings.KeepPrefix(seg, rest, pat, rep);
    } else {
      OtherTokenKept(seg, rest, pat, rep);
    }
  }

  /** A token other than the pattern is kept whole, since `<` starts no other token inside it. */
  lemma OtherTokenKept(seg: string, rest: string, pat: string, rep: string)
    requires Token(seg) && Token(pat) && seg != pat
    ensures Strings.Replace(seg + rest, pat, rep) == seg + Strings.Replace(rest, pat, rep)
  {
    var s := seg + rest;
    var tail := seg[1..];
    TokenMismatch(seg, pat, rest);
    assert s[1..] == tail + rest;
    assert Strings.Replace(s, pat, rep) == [s[0]] + Strings.Replace(s[1..], pat, rep);
    assert pat[0] !in tail;
    Strings.KeepPrefix(tail, rest, pat, rep);
    assert seg == [s[0]] + tail;
  }

  /** The replacements treat a clean segment at the front on its own. */
  lemma {:induction false} FoldSplit(seg: string, rest: string, table: seq<(string, string)>)
    requires Patterns(table) && Clean(seg, table)
    ensures ApplyReplacements(seg + rest, table) == SegAfter(seg, table) + ApplyReplacements(rest, table)
    decreases |table|
  {
    if table != [] {
      var (p, r) := table[0];
      SegSplit(seg, rest, p, r);
      var seg' := if seg == p then r else seg;
      FoldSplit(seg', Strings.Replace(rest, p, r), table[1..]);
    }
  }

  /** A segment free of `<` is untouched by token replacements. */
  lemma {:induction false} PlainSegment(seg: string, table: seq<(string, string)>)
    requires Patterns(table) && forall i :: 0 <= i < |table| ==> Token(table[i].0)
    requires '<' !in seg
    ensures Clean(seg, table) && SegAfter(seg, table) == seg
  {
    if table != [] {
      assert table[0].0[0] == '<';
      assert seg != table[0].0;
      PlainSegment(seg, table[1..]);
    }
  }

  /** Each pattern of a table of distinct tokens with `<`-free names becomes its name. */
  lemma {:induction false} TableEntry(table: seq<(string, string)>, i: nat)
    requires Patterns(table) && i < |table|
    requires forall j :: 0 <= j < |table| ==> Token(table[j].0)
    requires forall j, k :: 0 <= j < k < |table| ==> table[j].0 != table[k].0
    requires forall j :: 0 <= j < |table| ==> '<' !in table[j].1
    ensures Clean(table[i].0, table) && SegAfter(table[i].0, table) == table[i].1
  {
    if i == 0 {
      PlainSegment(table[0].1, table[1..]);
    } else {
      assert table[i].0 != table[0].0;
      assert table[1..][i - 1] == table[i];
      TableEntry(table[1..], i - 1);
    }
  }

  /** A table of pairwise distinct token patterns whose names hold neither `<` nor `+`. */
  predicate TokenTable(table: seq<(string, string)>)
  {
    && Patterns(table)
    && (forall j :: 0 <= j < |table| ==> Token(table[j].0))
    && (forall j, k :: 0 <= j < k < |table| ==> table[j].0 != table[k].0)
    && (forall j :: 0 <= j < |table| ==> '<' !in table[j].1 && '+' !in table[j].1)
  }

  /** A key written `text` and shown as `name`: a pattern of the table, or a plain key shown as written. */
  predicate KeyOf(table: seq<(string, string)>, text: string, name: string)
  {
    (exists j :: 0 <= j < |table| && table[j] == (text, name)) ||
    (text == name && text != "" && '<' !in text && '+' !in text)
  }

  /** `format_hotkey`'s two steps on keys joined with `+`, for any token table. */
  lemma TableJoin(table: seq<(string, string)>, texts: seq<string>, names: seq<string>)
    requires TokenTable(table) && |texts| == |names|
    requires forall i :: 0 <= i < |texts| ==> KeyOf(table, texts[i], names[i])
    ensures Strings.Replace(ApplyReplacements(Join(texts, "+"), table), "+", " + ") == Join(names, " + ")
  {
    forall i | 0 <= i < |texts|
      ensures Clean(texts[i], table) && SegAfter(texts[i], table) == names[i]
    {
      if j :| 0 <= j < |table| && table[j] == (texts[i], names[i]) {
        TableEntry(table, j);
      } else {
        PlainSegment(texts[i], table);
      }
    }
    PlainSegment("+", table);
    FoldJoin(texts, names, "+", table);
    forall i | 0 <= i < |names|
      ensures '+' !in names[i]
    {
      if j :| 0 <= j < |table| && table[j] == (texts[i], names[i]) {
        assert names[i] == table[j].1;
      }
    }
    PlusJoin(names);
  }

  /** The replacements on an empty text leave it empty. */
  lemma {:induction false} ApplyEmpty(table: seq<(string, string)>)
    requires Patterns(table)
    ensures ApplyReplacements("", table) == ""
  {
    if table != [] {
      ApplyEmpty(table[1..]);
    }
  }

  /** The replacements on joined clean segments work segment by segment. */
  lemma {:induction false} FoldJoin(texts: seq<string>, names: seq<string>, sep: string, table: seq<(string, string)>)
    requires Patterns(table) && |texts| == |names|
    requires forall i :: 0 <= i < |texts| ==> Clean(texts[i], table) && SegAfter(texts[i], table) == names[i]
    requires Clean(sep, table) && SegAfter(sep, table) == sep
    ensures ApplyReplacements(Join(texts, sep), table) == Join(names, sep)
  {
    if |texts| == 1 {
      FoldSplit(texts[0], "", table);
      ApplyEmpty(table);
      assert texts[0] + "" == texts[0];
    } else if |texts| > 1 {
      var tail := Join(texts[1..], sep);
      assert Join(texts, sep) == texts[0] + (sep + tail);
      assert Join(names, sep) == names[0] + (sep + Join(names[1..], sep));
      FoldJoin(texts[1..], names[1..], sep, table);
      FoldSplit(texts[0], sep + tail, table);
      FoldSplit(sep, tail, table);
    } else {
      ApplyEmpty(table);
    }
  }

  /** Spacing the `+` of `+`-free names joined with `+`. */
  lemma {:induction false} PlusJoin(names: seq<string>)
    requires forall i :: 0 <= i < |names| ==> '+' !in names[i]
    ensures Strings.Replace(Join(names, "+"), "+", " + ") == Join(names, " + ")
  {
    if |names| == 1 {
      SegSplit(names[0], "", "+", " + ");
      assert names[0] + "" == names[0];
      assert Strings.Replace("", "+", " + ") == "";
    } else if |names| > 1 {
      var tail := Join(names[1..], "+");
      PlusJoin(names[1..]);
      SegSplit(names[0], "+" + tail, "+", " + ");
      SegSplit("+", tail, "+", " + ");
    }
  }

  // ---------------------------------------------------------------------
  // The status panel's strings

  /** The displayed token: unchanged up to 20 characters, else the first 8, `...` and the last 8. */
  function TokenDisplay(token: string): (r: string)
    ensures |token| <= 20 ==> r == token
    ensures |token| > 20 ==> |r| == 19 && r[..8] == token[..8] && r[8..11] == "..." && r[11..] == token[|token| - 8..]
    ensures |r| <= 20
  {
    if |token| <= 20 then token else token[..8] + "..." + token[|token| - 8..]
  }

  /** The status line: `Connected` tells whether the peer is active; any other status is shown as is. */
  function StatusText(connectionStatus: string, peerActive: bool): (r: string)
    ensures connectionStatus != "Connected" ==> r == connectionStatus
    ensures connectionStatus == "Connected" ==>
      Strings.StartsWith(r, "Connected • ") && (r == "Connected • Peer Active" <==> peerActive)
  {
    if connectionStatus == "Connected" then
      if peerActive then "Connected • Peer Active" else "Connected • Waiting for peer"
    else connectionStatus
  }

  // ---------------------------------------------------------------------
  // The log buffer

  /** One log line: time, message and level. */
  datatype LogEntry = LogEntry(timestamp: string, message: string, level: string)

  /** `deque(maxlen=100)`. */
  const MaxLogs := 100

  /** `logs.append(entry)` on a deque bounded at `MaxLogs`: a full buffer drops its oldest entry. */
  function AppendLog(logs: seq<LogEntry>, entry: LogEntry): seq<LogEntry>
  {
    if |logs| < MaxLogs then logs + [entry] else logs[1..] + [entry]
  }

  /** The buffer after appending each entry in turn. */
  function AppendLogs(logs: seq<LogEntry>, entries: seq<LogEntry>): seq<LogEntry>
  {
    if entries == [] then logs
    else AppendLog(AppendLogs(logs, entries[..|entries| - 1]), entries[|entries| - 1])
  }

  /** One append keeps the bound, puts the entry last and keeps the latest earlier entries in order. */
  lemma AppendLogSpec(logs: seq<LogEntry>, entry: LogEntry)
    requires |logs| <= MaxLogs
    ensures var r := AppendLog(logs, entry);
      && |r| == (if |logs| < MaxLogs then |logs| + 1 else MaxLogs)
      && r[|r| - 1] == entry
      && r[..|r| - 1] == logs[|logs| - (|r| - 1)..]
  {
  }

  /** Whatever was appended, the buffer holds exactly the latest `MaxLogs` entries, oldest first. */
  lemma {:induction false} AppendLogsKeepsLatest(logs: seq<LogEntry>, entries: seq<LogEntry>)
    requires |logs| <= MaxLogs
    ensures var all := logs + entries;
      AppendLogs(logs, entries) == all[if |all| > MaxLogs then |all| - MaxLogs else 0..]
  {
    if entries != [] {
      var init := entries[..|entries| - 1];
      var e := entries[|entries| - 1];
      AppendLogsKeepsLatest(logs, init);
      var before := logs + init;
      var all := logs + entries;
      assert all == before + [e];
      var mid := AppendLogs(logs, init);
      assert mid == before[if |before| > MaxLogs then |before| - MaxLogs else 0..];
      if |mid| < MaxLogs {
        assert |before| < MaxLogs;
        assert mid + [e] == all;
      } else {
        assert mid[1..] + [e] == all[|all| - MaxLogs..];
      }
    }
  }

  // ---------------------------------------------------------------------
  // TUIManager

  class TUIManager {
    const config: Config.AppConfig
    const mode: Messages.ClipboardSyncMode
    var connectionStatus: string
    var peerActive: bool
    var token: string
    const proxyEnabled: bool
    const proxyInfo: Option<string>
    var logs: seq<LogEntry>
    /** Whether a live display is held (`live is not None`). */
    var live: bool

    ghost predicate Valid()
      reads this
    {
      |logs| <= MaxLogs
    }

    /** `__init__`: disconnected, no peer, the configured token or `N/A`, an empty log. */
    constructor(config: Config.AppConfig)
      ensures this.config == config && mode == config.clipboard.syncMode
      ensures connectionStatus == "Disconnected" && !peerActive
      ensures token == if config.connection.token == "" then "N/A" else config.connection.token
      ensures proxyEnabled == config.proxy.enabled
      ensures proxyInfo == if config.proxy.enabled then
        Some(config.proxy.host + ":" + Strings.IntToString(config.proxy.port)) else None
      ensures logs == [] && !live && Valid()
    {
      this.config := config;
      mode := config.clipboard.syncMode;
      connectionStatus := "Disconnected";
      peerActive := false;
      token := if config.connection.token == "" then "N/A" else config.connection.token;
      proxyEnabled := config.proxy.enabled;
      proxyInfo := if config.proxy.enabled then
        Some(config.proxy.host + ":" + Strings.IntToString(config.proxy.port)) else None;
      logs := [];
      live := false;
    }

    /** `start`: take a live display. */
    method Start()
      modifies this
      ensures live
      ensures connectionStatus == old(connectionStatus) && peerActive == old(peerActive)
      ensures token == old(token) && logs == old(logs)
    {
      live := true;
    }

    /** `stop`: drop the live display if there is one; a second call changes nothing. */
    method Stop()
      modifies this
      ensures !live
      ensures connectionStatus == old(connectionStatus) && peerActive == old(peerActive)
      ensures token == old(token) && logs == old(logs)
    {
      if live {
        live := false;
      }
    }

    /** `update_status`: only the fields given a value change. */
    method UpdateStatus(status: Option<string>, active: Option<bool>, newToken: Option<string>)
      modifies this
      ensures connectionStatus == if status.Some? then status.value else old(connectionStatus)
      ensures peerActive == if active.Some? then active.value else old(peerActive)
      ensures token == if newToken.Some? then newToken.value else old(token)
      ensures logs == old(logs) && live == old(live)
    {
      if status.Some? {
        connectionStatus := status.value;
      }
      if active.Some? {
        peerActive := active.value;
      }
      if newToken.Some? {
        token := newToken.value;
      }
    }

    /** `add_log`: one entry appended at the end of the bounded buffer; `timestamp` is the clock's reading. */
    method AddLog(message: string, level: string, timestamp: string)
      requires Valid()
      modifies this
      ensures Valid()
      ensures logs == AppendLog(old(logs), LogEntry(timestamp, message, level))
      ensures connectionStatus == old(connectionStatus) && peerActive == old(peerActive)
      ensures token == old(token) && live == old(live)
    {
      var entry := LogEntry(timestamp, message, level);
      if |logs| < MaxLogs {
        logs := logs + [entry];
      } else {
        logs := logs[1..] + [entry];
      }
    }

    /** The status line the panel shows. */
    function Status(): (r: string)
      reads this
      ensures connectionStatus != "Connected" ==> r == connectionStatus
      ensures connectionStatus == "Connected" ==>
        Strings.StartsWith(r, "Connected • ") && (r == "Connected • Peer Active" <==> peerActive)
    {
      StatusText(connectionStatus, peerActive)
    }
  }
}
