/** `SecretaryBot` as the program has it: an object whose handlers update the
    recording table in place, append to log files and send actions out, with
    the loops of `_channel_action`, `_log_action` and `_info`. Every handler
    is proved to do exactly what the matching function of `Machine` says. */
module Bot {
  import opened Text
  import opened Identity
  import opened LogLines
  import opened Machine

  class SecretaryBot {
    /** The only nick whose commands are obeyed. */
    const boss: string
    /** The nick the bot asks the server for. */
    var nickname: string
    /** `self.logging`: recorded channel -> log file name. */
    var logging: map<string, string>
    /** The log files, as the lines appended to each. */
    var files: map<string, seq<string>>
    /** Everything sent out so far, oldest first. */
    var output: seq<Action>

    function Snapshot(): State
      reads this
    {
      State(logging, files, output)
    }

    /** `__init__`: nothing is recorded yet; `disk` is what the log files
        already hold. */
    constructor (boss: string, disk: map<string, seq<string>>)
      ensures this.boss == boss && nickname == BotNickname(boss)
      ensures Snapshot() == State(map[], disk, [])
    {
      this.boss := boss;
      nickname := BotNickname(boss);
      logging := map[];
      files := disk;
      output := [];
    }

    /** `on_nicknameinuse`: retry with an underscore appended. */
    method OnNicknameInUse()
      modifies this`nickname
      ensures nickname == NextNick(old(nickname))
    {
      nickname := nickname + "_";
    }

    /** `on_welcome`: greet the boss. */
    method OnWelcome()
      modifies this`output
      ensures output == old(output) + [Report(Greeting)]
    {
      ReportToBoss(Greeting);
    }

    /** `_report`: a private message to the boss. */
    method ReportToBoss(msg: string)
      modifies this`output
      ensures output == old(output) + [Report(msg)]
    {
      output := output + [Report(msg)];
    }

    /** `do_command`, for `on_privmsg` and `on_privnotice`. `joined` is the
        list of channels the connection is in; `today` and `now` are the
        date and `HH:MM` time of the call. */
    method DoCommand(source: string, cmd: string, joined: seq<string>, today: string, now: string)
      modifies this`logging, this`files, this`output
      ensures Snapshot() == Handle(old(Snapshot()), boss, source, cmd, joined, today, now)
    {
      var who := Sender(source);
      if who != boss {
        output := output + [Notice(who, Refusal)];
      } else if StartsWith(cmd, "channel") {
        ChannelAction(cmd);
      } else if StartsWith(cmd, "log") {
        LogAction(cmd, today, now);
      } else if cmd == "help" {
        // `_helpmsg` is defined nowhere; this is the reply it was meant to give
        output := output + [HelpMsg];
      } else if cmd == "info" {
        Info(joined);
      } else if cmd == "thanks" {
      } else if cmd == "bye" {
        output := output + [Die];
      } else {
        ReportToBoss("Not understood: " + cmd);
      }
    }

    /** `_channel_action`. */
    method ChannelAction(cmd: string)
      modifies this`output
      ensures Snapshot() == ChannelCommand(old(Snapshot()), cmd)
    {
      var parts := Split(cmd);
      if |parts| < 3 {
        ReportToBoss(MissingChannel);
        return;
      }
      var action := parts[1];
      var channels := parts[2..];
      if action != "join" && action != "leave" {
        ReportToBoss(UnknownChannelAction);
        ReportToBoss(ChannelUsage);
      }
      JoinOrLeaveEach(action, channels);
    }

    /** The loop of `_channel_action`: each channel in turn is announced, then
        joined or left; a sub-action other than `join` and `leave` does nothing. */
    method JoinOrLeaveEach(action: string, channels: seq<string>)
      modifies this`output
      ensures output == old(output) + ChannelOutput(action, channels)
    {
      var i := 0;
      while i < |channels|
        invariant 0 <= i <= |channels|
        invariant output == old(output) + ChannelOutput(action, channels[..i])
      {
        var channel := channels[i];
        if action == "join" {
          ReportToBoss("Joining channel " + channel + "...");
          output := output + [Join(channel)];
        } else if action == "leave" {
          ReportToBoss("Leaving channel " + channel + "...");
          output := output + [Part(channel)];
        }
        assert channels[..i + 1][..i] == channels[..i];
        i := i + 1;
      }
      assert channels[..i] == channels;
    }

    /** `_log_action`. The date and time are read once, before the loop. */
    method LogAction(cmd: string, today: string, now: string)
      modifies this`logging, this`files, this`output
      ensures Snapshot() == LogCommand(old(Snapshot()), cmd, today, now)
    {
      var parts := Split(cmd);
      if |parts| < 3 {
        ReportToBoss(MissingChannel);
        return;
      }
      var action := parts[1];
      var channels := parts[2..];
      var i := 0;
      while i < |channels|
        invariant 0 <= i <= |channels|
        invariant Snapshot() == LogAll(old(Snapshot()), action, channels[..i], today, now)
      {
        LogChannel(action, channels[i], today, now);
        assert channels[..i + 1][..i] == channels[..i];
        i := i + 1;
      }
      assert channels[..i] == channels;
    }

    /** The body of `_log_action`'s loop for one channel. */
    method LogChannel(action: string, channel: string, today: string, now: string)
      modifies this`logging, this`files, this`output
      ensures Snapshot() == LogStep(old(Snapshot()), action, channel, today, now)
    {
      if action == "start" {
        if channel !in logging {
          var fname := LogFileName(today, channel);
          logging := logging[channel := fname];
          Log(channel, StartMarker(now));
          output := output + [Emote(channel, StartedEmote)];
          ReportToBoss("Start logging " + channel + " to " + fname);
        }
      } else if action == "stop" {
        if channel in logging {
          Log(channel, StopMarker(now));
          var fname := logging[channel];
          logging := logging - {channel};
          output := output + [Emote(channel, StoppedEmote)];
          ReportToBoss("Stoped logging " + channel + " to " + fname);
        }
      }
    }

    /** `_info`, over the channels the connection is in. */
    method Info(joined: seq<string>)
      modifies this`output
      ensures output == old(output) + InfoOutput(logging, joined)
    {
      ReportToBoss(InfoRule);
      ReportToBoss(InfoHeader);
      ghost var before := output;
      var i := 0;
      while i < |joined|
        invariant 0 <= i <= |joined|
        invariant output == before + InfoRows(logging, joined[..i])
      {
        var channel := joined[i];
        var isLogged := channel in logging;
        ReportToBoss(InfoLine(channel, isLogged));
        assert joined[..i + 1][..i] == joined[..i];
        i := i + 1;
      }
      assert joined[..i] == joined;
      ReportToBoss(InfoRule);
    }

    /** `_log_event`, for `on_pubmsg` and `on_action`; `args` is the event's
      argument list, and an action without one is recorded with empty text. */
    method LogEvent(kind: EventKind, target: string, source: string, args: seq<string>, now: string)
      modifies this`files
      ensures Snapshot() == RecordEvent(old(Snapshot()), kind, target, source, EventText(args), now)
    {
      if target in logging {
        var who := Sender(source);
        var what := if args == [] then "" else args[0];
        var msg := FormatEvent(kind, now, who, what);
        Log(target, msg);
      }
    }

    /** `_log`: append one line to a recorded channel's file. */
    method Log(channel: string, msg: string)
      requires channel in logging
      modifies this`files
      ensures files == AppendLine(old(files), logging[channel], msg)
    {
      var fname := logging[channel];
      files := files[fname := Lines(files, fname) + [msg]];
    }
  }
}
