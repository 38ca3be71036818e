/**
 * The browser-side telemetry pipeline of the monitor (App.tsx): a newest-first log bounded
 * to 100 entries, the MQTT event handlers that update the component state one event at a
 * time, and the status label derived from that state.
 *
 * The MQTT client, the React effect machinery and the network call to the bridge are not
 * modelled: each broker event is a method call, and the result of every external action
 * (parsing the payload, subscribing, sending to Tuya) is passed in as a parameter.
 */
module Pipeline {
  import opened Wrappers

  /** Severity of a log entry (`LogType` in types.ts). */
  datatype LogType = Info | Success | Error | Warning

  /**
   * The text of a log entry, one constructor per message template of App.tsx, carrying the
   * values interpolated into it. Number formatting (`toFixed(2)`) is not modelled.
   */
  datatype Message =
    | ConnectingTo(host: string)                     // App.tsx:43
    | BrokerConnected                                // App.tsx:48
    | SubscribedTo(topic: string)                    // App.tsx:51
    | SubscribeFailed(reason: string)                // App.tsx:53
    | InvalidPower(payload: string)                  // App.tsx:63
    | PowerReceived(watts: real)                     // App.tsx:69
    | AboveThreshold(watts: real, threshold: real)   // App.tsx:72
    | SentToTuya                                     // App.tsx:76
    | SendFailed(reason: string)                     // App.tsx:79
    | BelowThreshold(watts: real, threshold: real)   // App.tsx:83
    | BrokerError(reason: string)                    // App.tsx:88
    | ConnectionClosed                               // App.tsx:95

  /** One log entry: when it was produced, what it says and how severe it is. */
  datatype LogEntry = LogEntry(timestamp: int, message: Message, kind: LogType)

  /** The log keeps at most this many entries. */
  const MaxLogs: nat := 100

  function Min(a: int, b: int): int { if a <= b then a else b }

  /** The first `n` elements of `s`, or all of them when `s` is shorter. */
  function Take<T>(s: seq<T>, n: nat): (r: seq<T>)
    ensures |r| == Min(|s|, n)
    ensures forall i :: 0 <= i < |r| ==> r[i] == s[i]
  {
    if |s| <= n then s else s[..n]
  }

  function Reversed<T>(s: seq<T>): (r: seq<T>)
    ensures |r| == |s|
  {
    if s == [] then [] else Reversed(s[1..]) + [s[0]]
  }

  /**
   * `addLog`: the new entry goes in front and the old log, cut to its first 99 entries,
   * follows it. The new entry is newest, the length grows by one up to the bound, and the
   * older entries keep their order; only those beyond position 99 are dropped.
   */
  function AddLog(logs: seq<LogEntry>, entry: LogEntry): (r: seq<LogEntry>)
    ensures |r| == Min(|logs| + 1, MaxLogs)
    ensures |r| <= MaxLogs
    ensures r[0] == entry
    ensures forall i :: 1 <= i < |r| ==> r[i] == logs[i - 1]
  {
    [entry] + logs[..Min(|logs|, MaxLogs - 1)]
  }

  /** Several `addLog` calls in a row, oldest entry first. */
  function AddLogs(logs: seq<LogEntry>, entries: seq<LogEntry>): seq<LogEntry>
    decreases |entries|
  {
    if entries == [] then logs else AddLogs(AddLog(logs, entries[0]), entries[1..])
  }

  lemma {:induction false} TakeOfTake<T>(a: seq<T>, b: seq<T>, n: nat)
    ensures Take(a + Take(b, n), n) == Take(a + b, n)
  {
    var lhs, rhs := Take(a + Take(b, n), n), Take(a + b, n);
    assert |lhs| == |rhs|;
    forall i | 0 <= i < |lhs| ensures lhs[i] == rhs[i] {
      if i >= |a| {
        assert (a + Take(b, n))[i] == Take(b, n)[i - |a|];
      }
    }
  }

  lemma AddLogIsTake(logs: seq<LogEntry>, entry: LogEntry)
    requires |logs| <= MaxLogs
    ensures AddLog(logs, entry) == Take([entry] + logs, MaxLogs)
  {
  }

  /**
   * The log is a sliding window: starting from a bounded log, any run of `addLog` calls
   * leaves exactly the 100 most recent entries, newest first.
   */
  lemma {:induction false} AddLogsWindow(logs: seq<LogEntry>, entries: seq<LogEntry>)
    requires |logs| <= MaxLogs
    ensures AddLogs(logs, entries) == Take(Reversed(entries) + logs, MaxLogs)
    decreases |entries|
  {
    if entries == [] {
      assert Reversed(entries) + logs == logs;
    } else {
      var e, rest := entries[0], entries[1..];
      var next := AddLog(logs, e);
      AddLogsWindow(next, rest);
      AddLogIsTake(logs, e);
      assert Reversed(entries) == Reversed(rest) + [e];
      TakeOfTake(Reversed(rest), [e] + logs, MaxLogs);
      assert Reversed(rest) + ([e] + logs) == Reversed(entries) + logs;
    }
  }

  lemma AddLogsTwo(logs: seq<LogEntry>, a: LogEntry, b: LogEntry)
    ensures AddLogs(logs, [a, b]) == AddLog(AddLog(logs, a), b)
  {
    assert [a, b][1..] == [b];
    assert [b][1..] == [];
    assert AddLogs(AddLog(logs, a), [b]) == AddLogs(AddLog(AddLog(logs, a), b), []);
  }

  lemma AddLogsThree(logs: seq<LogEntry>, a: LogEntry, b: LogEntry, c: LogEntry)
    ensures AddLogs(logs, [a, b, c]) == AddLog(AddLog(AddLog(logs, a), b), c)
  {
    assert [a, b, c][1..] == [b, c];
    AddLogsTwo(AddLog(logs, a), b, c);
  }

  /** The status label shown on the dashboard (`getStatus`), with its colour. */
  datatype Status = Napaka | Deluje | Ustavljeno {
    function Text(): string {
      match this
      case Napaka => "NAPAKA"
      case Deluje => "DELUJE"
      case Ustavljeno => "USTAVLJENO"
    }
    function Color(): string {
      match this
      case Napaka => "bg-red-500"
      case Deluje => "bg-green-500"
      case Ustavljeno => "bg-yellow-500"
    }
  }

  /**
   * `getStatus`: an ERROR as newest entry wins whatever the run flag says; otherwise the
   * label follows the run flag. An empty log never yields NAPAKA.
   */
  function GetStatus(logs: seq<LogEntry>, isRunning: bool): (s: Status)
    ensures s == Napaka <==> logs != [] && logs[0].kind == Error
    ensures s == Deluje <==> isRunning && !(logs != [] && logs[0].kind == Error)
    ensures s == Ustavljeno <==> !isRunning && !(logs != [] && logs[0].kind == Error)
    ensures logs == [] ==> s != Napaka
  {
    if |logs| > 0 && logs[0].kind == Error then Napaka
    else if isRunning then Deluje
    else Ustavljeno
  }

  /** After any `addLog`, the status depends only on the new entry and the run flag. */
  lemma StatusAfterAddLog(logs: seq<LogEntry>, entry: LogEntry, isRunning: bool)
    ensures GetStatus(AddLog(logs, entry), isRunning) ==
      if entry.kind == Error then Napaka else if isRunning then Deluje else Ustavljeno
  {
  }

  /** Result of the broker's subscribe callback. */
  datatype SubscribeResult = Subscribed | SubscribeError(reason: string)

  /** Result of forwarding a reading to the bridge: it resolved, or it threw with a message. */
  datatype SendResult = Sent | SendError(reason: string)

  /** The dashboard component's state and its event handlers. */
  class Monitor {
    const threshold: real
    const host: string
    const topic: string

    var isRunning: bool
    var logs: seq<LogEntry>
    var currentPower: Option<real>
    var lastUpdate: Option<int>

    /** The initial component state: stopped, no logs, no reading, no update yet. */
    constructor (threshold: real, host: string, topic: string)
      ensures this.threshold == threshold && this.host == host && this.topic == topic
      ensures !isRunning && logs == [] && currentPower == None && lastUpdate == None
      ensures GetStatus(logs, isRunning) == Ustavljeno
    {
      this.threshold := threshold;
      this.host := host;
      this.topic := topic;
      isRunning := false;
      logs := [];
      currentPower := None;
      lastUpdate := None;
    }

    /** `handleToggle`: flips the run flag and nothing else. */
    method HandleToggle()
      modifies this
      ensures isRunning == !old(isRunning)
      ensures logs == old(logs) && currentPower == old(currentPower) && lastUpdate == old(lastUpdate)
    {
      isRunning := !isRunning;
    }

    /** The effect run when the flag turns on: it announces the connection attempt. */
    method BeginConnect(now: int)
      requires isRunning
      modifies this
      ensures logs == AddLog(old(logs), LogEntry(now, ConnectingTo(host), Info))
      ensures isRunning && currentPower == old(currentPower) && lastUpdate == old(lastUpdate)
    {
      logs := AddLog(logs, LogEntry(now, ConnectingTo(host), Info));
    }

    /**
     * The `connect` handler with its subscribe callback: a SUCCESS entry, then either an INFO
     * entry for the subscription or exactly one ERROR entry that stops the run.
     */
    method OnConnect(subscribe: SubscribeResult, now: int)
      modifies this
      ensures currentPower == old(currentPower) && lastUpdate == old(lastUpdate)
      ensures subscribe == Subscribed ==>
        && logs == AddLogs(old(logs), [LogEntry(now, BrokerConnected, Success),
                                       LogEntry(now, SubscribedTo(topic), Info)])
        && isRunning == old(isRunning)
      ensures subscribe.SubscribeError? ==>
        && logs == AddLogs(old(logs), [LogEntry(now, BrokerConnected, Success),
                                       LogEntry(now, SubscribeFailed(subscribe.reason), Error)])
        && !isRunning
        && GetStatus(logs, isRunning) == Napaka
    {
      ghost var logs0 := logs;
      var connected := LogEntry(now, BrokerConnected, Success);
      logs := AddLog(logs, connected);
      var entry := match subscribe
        case Subscribed => LogEntry(now, SubscribedTo(topic), Info)
        case SubscribeError(reason) => LogEntry(now, SubscribeFailed(reason), Error);
      logs := AddLog(logs, entry);
      AddLogsTwo(logs0, connected, entry);
      if subscribe.SubscribeError? {
        isRunning := false;
      }
    }

    /**
     * The `message` handler, with the send to Tuya and its outcome as one step. `parsed` is
     * what `parseFloat` made of `payload` (None for NaN); `forwarded` is the value the send
     * was called with, None when no send was made.
     */
    method OnMessage(payload: string, parsed: Option<real>, send: SendResult, now: int)
      returns (forwarded: Option<real>)
      modifies this
      // not a number: one WARNING, nothing else changes
      ensures parsed == None ==>
        && forwarded == None
        && logs == AddLog(old(logs), LogEntry(now, InvalidPower(payload), Warning))
        && currentPower == old(currentPower) && lastUpdate == old(lastUpdate)
        && isRunning == old(isRunning)
      // a reading is shown, and logged before any threshold decision (first entry of each list below)
      ensures parsed.Some? ==> currentPower == parsed
      // at or below the threshold: one skip entry, no send
      ensures parsed.Some? && parsed.value <= threshold ==>
        && forwarded == None
        && logs == AddLogs(old(logs), [LogEntry(now, PowerReceived(parsed.value), Info),
                                       LogEntry(now, BelowThreshold(parsed.value, threshold), Info)])
        && isRunning == old(isRunning) && lastUpdate == old(lastUpdate)
      // above the threshold: exactly one send with the reading
      ensures parsed.Some? && parsed.value > threshold ==> forwarded == Some(parsed.value)
      ensures parsed.Some? && parsed.value > threshold && send == Sent ==>
        && logs == AddLogs(old(logs), [LogEntry(now, PowerReceived(parsed.value), Info),
                                       LogEntry(now, AboveThreshold(parsed.value, threshold), Info),
                                       LogEntry(now, SentToTuya, Success)])
        && lastUpdate == Some(now) && isRunning == old(isRunning)
      ensures parsed.Some? && parsed.value > threshold && send.SendError? ==>
        && logs == AddLogs(old(logs), [LogEntry(now, PowerReceived(parsed.value), Info),
                                       LogEntry(now, AboveThreshold(parsed.value, threshold), Info),
                                       LogEntry(now, SendFailed(send.reason), Error)])
        && lastUpdate == old(lastUpdate) && !isRunning
        && GetStatus(logs, isRunning) == Napaka
    {
      ghost var logs0 := logs;
      forwarded := None;
      if parsed.None? {
        logs := AddLog(logs, LogEntry(now, InvalidPower(payload), Warning));
        return;
      }
      var watts := parsed.value;
      currentPower := Some(watts);
      var received := LogEntry(now, PowerReceived(watts), Info);
      logs := AddLog(logs, received);
      if watts > threshold {
        var above := LogEntry(now, AboveThreshold(watts, threshold), Info);
        logs := AddLog(logs, above);
        forwarded := Some(watts);
        match send
        case Sent =>
          lastUpdate := Some(now);
          var done := LogEntry(now, SentToTuya, Success);
          logs := AddLog(logs, done);
          AddLogsThree(logs0, received, above, done);
        case SendError(reason) =>
          var failed := LogEntry(now, SendFailed(reason), Error);
          logs := AddLog(logs, failed);
          isRunning := false;
          AddLogsThree(logs0, received, above, failed);
      } else {
        var skip := LogEntry(now, BelowThreshold(watts, threshold), Info);
        logs := AddLog(logs, skip);
        AddLogsTwo(logs0, received, skip);
      }
    }

    /** The `error` handler: exactly one ERROR entry, and the run stops. */
    method OnError(reason: string, now: int)
      modifies this
      ensures logs == AddLog(old(logs), LogEntry(now, BrokerError(reason), Error))
      ensures !isRunning && GetStatus(logs, isRunning) == Napaka
      ensures currentPower == old(currentPower) && lastUpdate == old(lastUpdate)
    {
      logs := AddLog(logs, LogEntry(now, BrokerError(reason), Error));
      isRunning := false;
    }

    /**
     * The `close` handler. Its guard reads the run flag captured when the effect started,
     * which is always true, so every close logs one WARNING.
     */
    method OnClose(now: int)
      modifies this
      ensures logs == AddLog(old(logs), LogEntry(now, ConnectionClosed, Warning))
      ensures isRunning == old(isRunning)
      ensures currentPower == old(currentPower) && lastUpdate == old(lastUpdate)
    {
      logs := AddLog(logs, LogEntry(now, ConnectionClosed, Warning));
    }
  }
}
