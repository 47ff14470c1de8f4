/** The secretary's behaviour as functions over a value `State`: the
    recording table (`logging`), the files the recorder appends to, and the
    outbound actions sent so far. Each function describes one handler of
    `SecretaryBot` in irc-secretary.py; the class in bot.dfy implements them
    with the program's own loops and updates in place. */
module Machine {
  import opened Text
  import opened Identity
  import opened LogLines

  /** What the bot sends out. `Report` is a private message to the boss
      (`_report`), `Emote` a CTCP action in a channel (`connection.action`),
      `HelpMsg` the help text `_helpmsg` was meant to send, `Die` the call to
      `die()`, and `Crash` an exception that nothing catches, which ends the
      bot. */
  datatype Action =
    | Report(msg: string)
    | Notice(who: string, msg: string)
    | Join(channel: string)
    | Part(channel: string)
    | Emote(channel: string, msg: string)
    | HelpMsg
    | Die
    | Crash

  /** `logging` maps a recorded channel to its log file name (the dictionary
      entry's `filename`; the open file is the entry in `files` of that name).
      `files` maps a file name to the lines appended to it. */
  datatype State = State(
    logging: map<string, string>,
    files: map<string, seq<string>>,
    output: seq<Action>)

  const Refusal := "I'm not allowed to talk with you"
  const MissingChannel := "You must indicate at least one channel for this action."
  const UnknownChannelAction := "Unknown action for channels command"
  const ChannelUsage := "Usage: channel <join|leave> <channel> ..."
  const StartedEmote := "started recording activity in this channel"
  const StoppedEmote := "stoped recording activity in this channel"
  const Greeting := "Hi boss, I'm here to assist you. Type 'help' to view available commands."
  const InfoRule := "------"
  const InfoHeader := "Working in the following channels:"

  /** The lines of file `fname`; a file never written is empty. */
  function Lines(files: map<string, seq<string>>, fname: string): seq<string>
  {
    if fname in files then files[fname] else []
  }

  /** Appending one line to one file (`file.write(msg + '\n')`). */
  function AppendLine(files: map<string, seq<string>>, fname: string, line: string): (r: map<string, seq<string>>)
    ensures Lines(r, fname) == Lines(files, fname) + [line]
    ensures forall f :: f != fname ==> (f in r <==> f in files) && Lines(r, f) == Lines(files, f)
  {
    files[fname := Lines(files, fname) + [line]]
  }

  function Emit(s: State, acts: seq<Action>): State
  {
    s.(output := s.output + acts)
  }

  // ---------------------------------------------------------------- channel

  /** The loop body of `_channel_action` for one channel. */
  function ChannelStep(action: string, channel: string): seq<Action>
  {
    if action == "join" then [Report("Joining channel " + channel + "..."), Join(channel)]
    else if action == "leave" then [Report("Leaving channel " + channel + "..."), Part(channel)]
    else []
  }

  /** The actions of the loop of `_channel_action` over `channels`. */
  function ChannelOutput(action: string, channels: seq<string>): (out: seq<Action>)
    ensures |out| == if action == "join" || action == "leave" then 2 * |channels| else 0
    decreases |channels|
  {
    if channels == [] then []
    else ChannelOutput(action, channels[..|channels| - 1]) + ChannelStep(action, channels[|channels| - 1])
  }

  /** The complaint about a sub-action other than `join` and `leave`. */
  function ChannelUsageReports(action: string): seq<Action>
  {
    if action != "join" && action != "leave"
    then [Report(UnknownChannelAction), Report(ChannelUsage)] else []
  }

  /** `_channel_action(cmd)`: it never touches the recording, and once a
      channel is named it answers in pairs, at least one pair. */
  function ChannelCommand(s: State, cmd: string): (r: State)
    ensures r.logging == s.logging && r.files == s.files && s.output <= r.output
    ensures |Split(cmd)| >= 3 ==>
      |r.output| >= |s.output| + 2 && (|r.output| - |s.output|) % 2 == 0
  {
    var parts := Split(cmd);
    if |parts| < 3 then Emit(s, [Report(MissingChannel)])
    else Emit(s, ChannelUsageReports(parts[1]) + ChannelOutput(parts[1], parts[2..]))
  }

  // ---------------------------------------------------------------- log

  /** `log start` for one channel: a no-op when it is already recorded. */
  function StartLogging(s: State, channel: string, today: string, now: string): (r: State)
    ensures channel in r.logging && s.output <= r.output
    ensures channel in s.logging ==> r == s
    ensures channel !in s.logging ==> |r.output| == |s.output| + 2
  {
    if channel in s.logging then s
    else
      var fname := LogFileName(today, channel);
      State(
        s.logging[channel := fname],
        AppendLine(s.files, fname, StartMarker(now)),
        s.output + [Emote(channel, StartedEmote), Report("Start logging " + channel + " to " + fname)])
  }

  /** `log stop` for one channel: a no-op when it is not recorded. `close()` is
      never called; the entry is only dropped from the table. */
  function StopLogging(s: State, channel: string, now: string): (r: State)
    ensures channel !in r.logging && s.output <= r.output
    ensures channel !in s.logging ==> r == s
    ensures channel in s.logging ==> |r.output| == |s.output| + 2
  {
    if channel !in s.logging then s
    else
      var fname := s.logging[channel];
      State(
        s.logging - {channel},
        AppendLine(s.files, fname, StopMarker(now)),
        s.output + [Emote(channel, StoppedEmote), Report("Stoped logging " + channel + " to " + fname)])
  }

  /** The loop body of `_log_action` for one channel; `pause`, `resume` and
      any other sub-action do nothing. */
  function LogStep(s: State, action: string, channel: string, today: string, now: string): (r: State)
    ensures s.output <= r.output && (|r.output| == |s.output| || |r.output| == |s.output| + 2)
  {
    if action == "start" then StartLogging(s, channel, today, now)
    else if action == "stop" then StopLogging(s, channel, now)
    else s
  }

  /** The loop of `_log_action` over `channels`, in order. It only adds to
      the output, an emote and a report at a time. */
  function LogAll(s: State, action: string, channels: seq<string>, today: string, now: string): (r: State)
    ensures s.output <= r.output && (|r.output| - |s.output|) % 2 == 0
    decreases |channels|
  {
    if channels == [] then s
    else LogStep(LogAll(s, action, channels[..|channels| - 1], today, now), action, channels[|channels| - 1], today, now)
  }

  /** `_log_action(cmd)`, with the date and `HH:MM` time it reads once. */
  function LogCommand(s: State, cmd: string, today: string, now: string): (r: State)
    ensures s.output <= r.output
    ensures |Split(cmd)| >= 3 ==> (|r.output| - |s.output|) % 2 == 0
  {
    var parts := Split(cmd);
    if |parts| < 3 then Emit(s, [Report(MissingChannel)])
    else LogAll(s, parts[1], parts[2..], today, now)
  }

  // ---------------------------------------------------------------- info

  /** One channel's line of `_info`; `str(bool)` is `True` or `False`. */
  function InfoLine(channel: string, logged: bool): (line: string)
    ensures |line| > |channel| && line[..|channel|] == channel
    ensures StartsWith(line[|channel|..], "\t Log: ")
  {
    channel + "\t Log: " + (if logged then "True" else "False") + " - Ask: N/A"
  }

  function InfoRows(logging: map<string, string>, joined: seq<string>): (rows: seq<Action>)
    ensures |rows| == |joined|
    decreases |joined|
  {
    if joined == [] then []
    else
      var c := joined[|joined| - 1];
      InfoRows(logging, joined[..|joined| - 1]) + [Report(InfoLine(c, c in logging))]
  }

  /** `_info()`, for the channels the connection is in. */
  function InfoOutput(logging: map<string, string>, joined: seq<string>): (out: seq<Action>)
    ensures |out| == |joined| + 3
  {
    [Report(InfoRule), Report(InfoHeader)] + InfoRows(logging, joined) + [Report(InfoRule)]
  }

  // ---------------------------------------------------------------- dispatch

  /** `do_command`: a private message or notice `cmd` from `source`. */
  function Handle(s: State, boss: string, source: string, cmd: string,
                  joined: seq<string>, today: string, now: string): (r: State)
    ensures s.output <= r.output
    ensures Sender(source) != boss || !StartsWith(cmd, "log") ==>
      r.logging == s.logging && r.files == s.files
  {
    var who := Sender(source);
    if who != boss then Emit(s, [Notice(who, Refusal)])
    else if StartsWith(cmd, "channel") then ChannelCommand(s, cmd)
    else if StartsWith(cmd, "log") then LogCommand(s, cmd, today, now)
    else if cmd == "help" then Emit(s, [HelpMsg])
    else if cmd == "info" then Emit(s, InfoOutput(s.logging, joined))
    else if cmd == "thanks" then s
    else if cmd == "bye" then Emit(s, [Die])
    else Emit(s, [Report("Not understood: " + cmd)])
  }

  /** `do_command` exactly as irc-secretary.py has it. `help` calls
      `self._helpmsg()`, which neither the class nor the IRC library defines;
      the AttributeError is caught nowhere and ends the bot. `Handle` models
      the evidently intended reply instead. */
  function HandleAsWritten(s: State, boss: string, source: string, cmd: string,
                           joined: seq<string>, today: string, now: string): (r: State)
    ensures s.output <= r.output
  {
    if Sender(source) == boss && cmd == "help" then Emit(s, [Crash])
    else Handle(s, boss, source, cmd, joined, today, now)
  }

  /** `_log_event`: a public message or action `what` from `source` in `target`.
      Only the recorded channel's file changes. */
  function RecordEvent(s: State, kind: EventKind, target: string, source: string,
                       what: string, now: string): (r: State)
    ensures r.logging == s.logging && r.output == s.output
    ensures target !in s.logging ==> r == s
  {
    if target in s.logging
    then s.(files := AppendLine(s.files, s.logging[target], FormatEvent(kind, now, Sender(source), what)))
    else s
  }

  /** The text `_log_event` records for an event with arguments `args`: the
      first one. A bare CTCP `ACTION` carries no argument; it is recorded with
      an empty text. */
  function EventText(args: seq<string>): string
  {
    if args == [] then "" else args[0]
  }

  /** `_log_event` exactly as irc-secretary.py has it, over the event's
      argument list. In a recorded channel, `e.arguments()[0]` on an event with
      no argument raises an IndexError that is caught nowhere and ends the
      bot. `RecordEvent` of `EventText(args)` models the evidently intended
      behaviour instead. */
  function RecordEventAsWritten(s: State, kind: EventKind, target: string, source: string,
                                args: seq<string>, now: string): (r: State)
    ensures r.logging == s.logging && s.output <= r.output
    ensures target !in s.logging ==> r == s
  {
    if target !in s.logging then s
    else if args == [] then Emit(s, [Crash])
    else RecordEvent(s, kind, target, source, args[0], now)
  }
}
