# irc-secretary, modelled in Dafny

`irc-secretary.py` is an IRC bot that works as a secretary for one person, its
boss. It obeys private messages and notices from the boss only. It joins and
leaves channels on request. It records the traffic of chosen channels to
append-only log files, one per channel and day, under `/tmp`.

This project models the bot's own logic, without its IRC library:

- `text.dfy` (module `Text`): Python 2's `str.split()`, `startswith`, `strip`
  and a character search, with the lemma that splitting words joined by
  spaces gives the words back.
- `identity.dfy` (module `Identity`): the sender's nick taken from an IRC
  source (`nick!user@host`), the bot nickname `boss.rstrip('_') + '_sec'`, and
  the retry nickname after a collision (append `_`).
- `server_arg.dfy` (module `ServerArg`): the `server[:port]` argument, with
  Python 2's `int()` for the port and 6667 as default.
- `log_lines.dfy` (module `LogLines`): the log file name, the start and stop
  marker lines, the two event-line formats, and a reader that recovers the
  event from its line.
- `machine.dfy` (module `Machine`): the bot's behaviour as functions over a
  value `State(logging, files, output)`. `logging` maps a recorded channel to
  its file name. `files` maps a file name to the lines appended to it.
  `output` is the list of actions sent so far: `Report` (a private message
  to the boss), `Notice`, `Join`, `Part`, `Emote` (a CTCP action), `HelpMsg`,
  `Die` and `Crash` (an uncaught exception).
- `properties.dfy` (module `Properties`): the lemmas. They cover
  authorisation, the order of channel actions, idempotent start and stop,
  frame conditions, the `info` listing and a start/record/stop session.
- `bot.dfy` (module `Bot`): the class `SecretaryBot`. Its fields are the
  ones the program updates in place. Its methods keep the program's loops
  and branches. Each method is proved to produce exactly the state that the
  matching `Machine` function gives.

The date (`%Y-%m-%d`) and the time (`%H:%M`) are parameters `today` and
`now`. The channels the connection is in (`self.channels`) are a parameter
`joined`. The bot's behaviour as written, which the model follows:

- Starting a channel that is already recorded does nothing and reports
  nothing. Stopping a channel that is not recorded does nothing.
- `log stop` only removes the table entry. It never calls `close()` on the
  file.
- `bye` only calls `die()`. No log is stopped and `close()` is never called.
- `pause` and `resume` are accepted and do nothing.
- Several literals are spelled "Stoped".
- `help` calls a method that is defined nowhere, so it ends the bot. This is
  logged under "## Findings"; the rest of the model gives the intended reply.
- In a recorded channel, an action event without an argument (a bare CTCP
  `ACTION`, which anyone in the channel can send) makes `_log_event` index
  an empty list, which ends the bot. This is logged under "## Findings";
  the rest of the model records it with an empty text.
- An unknown `channel` sub-action gets the two usage reports, and the loop
  then acts on no channel.

## Model

| member | source | states |
|---|---|---|
| Text.Split | irc-secretary.py:76 | `cmd.split()`; its contract is `Text.SplitSpace` and `Text.SplitWordThen`, which with `Split("") == []` (its first case) fix the result on every input: the maximal runs of non-whitespace, in order |
| Text.SplitSpace | irc-secretary.py:76 | a whitespace character (blank, tab, newline, carriage return, vertical tab, form feed) in front of the text, leading or between words, adds no token |
| Text.SplitSpaces | irc-secretary.py:76 | neither does any run of whitespace in front of the text |
| Text.SplitWordThen | irc-secretary.py:76 | a word followed by whitespace or by the end of the text is the first token, and splitting goes on after it |
| Text.SplitWordSpaced | irc-secretary.py:76 | a word followed by a non-empty run of whitespace is the first token, and the rest is split on its own |
| Text.SplitUnwords | irc-secretary.py:76 | splitting single-space-joined words (non-empty, no whitespace) gives back exactly those words, so the handlers see the boss's words as typed |
| Text.SplitGivesWords | irc-secretary.py:94 | every token of `cmd.split()` is non-empty and free of whitespace |
| Identity.Sender | irc-secretary.py:50 | the sender is the longest prefix of the source that holds no `!`, ending just before the first `!` if there is one |
| Identity.SenderOfMask | irc-secretary.py:141 | for a mask `nick!rest` whose nick has no `!`, the sender is exactly that nick |
| Identity.RStripUnderscores | irc-secretary.py:26 | `rstrip('_')` yields a prefix that does not end in `_`, and everything it removed is `_` |
| Identity.BotNickname | irc-secretary.py:26 | the bot's nickname is a prefix of the boss's nick followed by `_sec` |
| Identity.NextNick | irc-secretary.py:32 | the retry nickname is the nickname it is given with one `_` after it |
| Identity.NickAfterCollisionsShape | irc-secretary.py:31-32 | if each retry builds on the nickname last requested, after k collisions the nickname is the original followed by exactly k underscores |
| Identity.CollisionNicksDistinct | irc-secretary.py:31-32 | if each retry builds on the nickname last requested, successive retries never offer a nickname already tried |
| Identity.BotNicknameIgnoresUnderscores | irc-secretary.py:26 | trailing underscores on the boss's nick do not change the bot's nickname |
| Identity.BotNeverTakesBossNick | irc-secretary.py:26 | the derived nickname, with any number of underscores appended, is never the boss's nick |
| ServerArg.ParseServer | irc-secretary.py:157-166 | a parsed host is the part of the argument before its first `:`, and holds no `:` |
| ServerArg.PyInt | irc-secretary.py:161 | Python 2's `int()` on the port text; its contract is given by the lemmas below: bare digits, digits with whitespace around them, a sign followed by any whitespace, and texts with no digit |
| Text.StripSpaces | irc-secretary.py:161 | `strip()` removes exactly the whitespace runs around a text that neither starts nor ends with whitespace |
| ServerArg.HostOnly | irc-secretary.py:157-166 | an argument without `:` is all host, with port 6667 |
| ServerArg.HostAndPort | irc-secretary.py:157-162 | `host:port` with a decimal port parses to that host and port |
| ServerArg.PortWithoutDigits | irc-secretary.py:160-164 | a port text with no digit is refused as an erroneous port |
| ServerArg.PyIntOfDigits | irc-secretary.py:161 | `int()` of a run of decimal digits is its decimal value |
| ServerArg.PyIntSigned | irc-secretary.py:161 | `int()` of `-` or `+`, then any whitespace, then decimal digits, with any whitespace around the whole, is the signed decimal value |
| ServerArg.PyIntUnsigned | irc-secretary.py:161 | `int()` of decimal digits with any whitespace around them is their decimal value |
| ServerArg.PyIntSignThenSpaces | irc-secretary.py:161 | `int()` of `-` or `+`, then any whitespace, then decimal digits is the signed decimal value |
| ServerArg.MinusBlankDigits | irc-secretary.py:161 | `int()` of `- <digits>` is minus their decimal value |
| ServerArg.PyIntStrips | irc-secretary.py:161 | whitespace around the port text does not change what `int()` reads |
| ServerArg.HostThenPortText | irc-secretary.py:157-164 | after the first `:`, the rest of the argument is the port text: the endpoint has that host and `int()` of the text, or the port is erroneous when `int()` refuses the text |
| ServerArg.SpaceAfterSign | irc-secretary.py:157-162 | `host:- n` parses to that host and port -n |
| LogLines.LogFileName | irc-secretary.py:113 | the log file's path starts with `/tmp/` and ends in `-<channel>.log` |
| LogLines.StartMarker | irc-secretary.py:115 | the start marker line begins with dashes and the word `Started` |
| LogLines.StopMarker | irc-secretary.py:120 | the stop marker line begins with dashes and the word `Stoped`, as the program spells it |
| LogLines.FormatEvent | irc-secretary.py:135-144 | every event line begins with the time stamp `[HH:MM] ` |
| LogLines.ParseFormatEvent | irc-secretary.py:135-144 | an event line written for a `pubmsg` or an `action` reads back as the same kind, time, nick and text, whenever the time holds no `]` and the nick holds neither a blank nor `>` |
| LogLines.MarkersAreNotEvents | irc-secretary.py:115-120 | the start and stop marker lines are never read as events |
| LogLines.LogFileNameInjective | irc-secretary.py:113 | on one day, two channels share a log file name only if they are the same channel |
| Machine.AppendLine | irc-secretary.py:147-148 | writing a line adds it at the end of that file and leaves every other file as it was |
| Machine.ChannelOutput | irc-secretary.py:85-91 | the channel loop sends two actions per channel for `join` and `leave`, and none for any other sub-action |
| Machine.ChannelCommand | irc-secretary.py:75-91 | the channel handler never touches the recording table or the files, only adds to the output, and once a channel is named answers in pairs, at least one pair |
| Machine.StartLogging | irc-secretary.py:111-117 | after `start` the channel is recorded; a channel recorded already changes nothing; a new one adds exactly two actions |
| Machine.StopLogging | irc-secretary.py:118-124 | after `stop` the channel is not recorded; a channel not recorded changes nothing; a recorded one adds exactly two actions |
| Machine.LogStep | irc-secretary.py:110-124 | one turn of the log loop adds nothing or exactly two actions to the output |
| Machine.LogAll | irc-secretary.py:110-124 | the log loop only adds to the output, an even number of actions |
| Machine.LogCommand | irc-secretary.py:93-124 | the log handler only adds to the output, and once a channel is named it adds an even number of actions |
| Machine.InfoLine | irc-secretary.py:131 | an `info` row begins with the channel's name followed by `\t Log: ` |
| Machine.InfoRows | irc-secretary.py:129-131 | `info` prints one row per joined channel |
| Machine.InfoOutput | irc-secretary.py:126-132 | `info` sends three reports more than there are joined channels |
| Machine.Handle | irc-secretary.py:49-70 | a command only adds to the output, and only the boss's commands that start with `log` can change the recording table or the files |
| Machine.HandleAsWritten | irc-secretary.py:59-60 | `do_command` as written, where `help` ends the bot; it only adds to the output |
| Machine.RecordEvent | irc-secretary.py:134-148 | channel traffic changes neither the table nor the output, and nothing at all in an unrecorded channel |
| Machine.RecordEventAsWritten | irc-secretary.py:134-145 | `_log_event` as written over the event's argument list: the table never changes, the output only grows, and an unrecorded channel changes nothing |
| Properties.ChannelOutputInOrder | irc-secretary.py:85-91 | for `join` or `leave`, the loop sends a progress report then a join (or part) for each channel, in argument order; any other sub-action sends nothing |
| Properties.ChannelOutputKinds | irc-secretary.py:85-91 | the channel loop sends only reports, joins and parts |
| Properties.ChannelCommandInOrder | irc-secretary.py:55-91 | any boss command that starts with `channel` and has at least three words, however spaced, changes no table entry and no file; for `join`/`leave` it sends 2n actions, a report and then a join or part for each channel in order; an unknown sub-action sends exactly the two usage reports |
| Properties.MissingChannelArgs | irc-secretary.py:76-79 | a `channel` or `log` command of fewer than three words gets exactly the missing-channel report and changes nothing |
| Properties.LogAllKinds | irc-secretary.py:110-124 | the log loop only appends to the output, and only emotes and reports |
| Properties.LogAllFrame | irc-secretary.py:110-124 | the log loop leaves the table entry of every channel not named in the command as it was |
| Properties.LogAllMonotone | irc-secretary.py:110-124 | `start` only adds table entries, and every other sub-action only removes them |
| Properties.LogAllFilesFrame | irc-secretary.py:110-124 | `start` writes only to the new files of the named channels, and `stop` only to the files the named channels were recorded to |
| Properties.LogAllReaches | irc-secretary.py:110-124 | after `start` every named channel is recorded; after `stop` none is |
| Properties.LogAllNoOp | irc-secretary.py:111-124 | starting channels that are all recorded, stopping channels none of which is, and `pause`/`resume` change nothing |
| Properties.LogCommandIdempotent | irc-secretary.py:93-124 | repeating a `log` command that names at least one channel, at any later date and time, changes nothing more |
| Properties.LogCommandOneChannel | irc-secretary.py:93-110 | a `log` command that names one channel is one step of the loop |
| Properties.CanonicalLogCommand | irc-secretary.py:94-99 | `log <action> <c>` written with single spaces is read as `action` on channel `c` |
| Properties.SpacedLogCommand | irc-secretary.py:94-99 | a first word starting with `log`, then an action and a channel, separated by any non-empty runs of whitespace and followed by any, is read as `action` on channel `c` |
| Properties.StartOneChannel | irc-secretary.py:57-117 | any boss command starting with `log` whose words are `<first> start c`, however spaced, for a new channel records it to `/tmp/<date>-c.log`, appends exactly the start marker to that file only, then sends an emote and then the report; for a recorded channel it does nothing |
| Properties.StopOneChannel | irc-secretary.py:57-124 | any such command `<first> stop c`, for a recorded channel, appends exactly the stop marker to its file only, removes only its entry, then sends an emote and then a report naming the old file; for an unrecorded channel it does nothing |
| Properties.InertLogActions | irc-secretary.py:101-124 | `log pause` and `log resume` (and any other sub-action) change nothing |
| Properties.StartTwiceThenInfo | irc-secretary.py:108-132 | the same `start` command twice is one start, and `info` afterwards lists `c` with `Log: True` |
| Properties.InfoRowsShape | irc-secretary.py:129-131 | row i of `info` names the i-th joined channel and says `True` exactly when it is recorded |
| Properties.InfoShape | irc-secretary.py:126-132 | `info` sends n + 3 reports: the rule, the header, one row per channel in order, and the rule |
| Properties.InfoSendsReports | irc-secretary.py:126-132 | `info` sends private messages to the boss only |
| Properties.ChannelCommandSends | irc-secretary.py:75-91 | the channel handler sends reports, joins and parts only |
| Properties.LogCommandSends | irc-secretary.py:93-124 | the log handler sends emotes and reports only |
| Properties.OnlyStrangersAreRefused | irc-secretary.py:49-53 | a sender other than the boss gets exactly one refusal notice and nothing else changes; the boss is never sent a notice |
| Properties.RepliesByCommand | irc-secretary.py:49-70 | the bot quits exactly when the boss says `bye`, sends help exactly when the boss says `help`, never crashes, and `thanks` changes nothing |
| Properties.NotUnderstoodExactly | irc-secretary.py:55-70 | the boss gets exactly the one "Not understood: cmd" report precisely when no branch recognises `cmd`, and then nothing else changes |
| Properties.HelpCrashesAsWritten | irc-secretary.py:59-60 | as written, the boss's `help` ends the bot; every other command is handled as the corrected dispatcher handles it |
| Properties.BareActionCrashesAsWritten | irc-secretary.py:139-145 | as written, an action with no argument from any sender in a recorded channel sends only `Crash` and writes nothing; an event with arguments is recorded with its first one |
| Properties.BareActionIsRecorded | irc-secretary.py:139-145 | corrected, such an action sends nothing and appends one line to the channel's file, which reads back as an action with empty text by that nick |
| Properties.RecordEventEffect | irc-secretary.py:134-148 | traffic in an unrecorded channel changes nothing; in a recorded one exactly one line is appended to its file only, and that line reads back as the event whenever the time holds no `]` and the nick holds neither a blank nor `>` |
| Properties.UnrecordedTrafficWritesNothing | irc-secretary.py:139-140 | any number of events in channels that are not recorded write nothing |
| Properties.StartRecordStop | irc-secretary.py:108-148 | start, one event, stop, with the commands spaced in any way: the file gains exactly the start marker, the event line and the stop marker, in that order, and the table is as before |
| Bot.SecretaryBot.constructor | irc-secretary.py:25-29 | the bot starts with the boss's nick, the derived nickname and nothing recorded |
| Bot.SecretaryBot.OnNicknameInUse | irc-secretary.py:31-32 | a collision appends `_` to the nickname last requested |
| Bot.SecretaryBot.OnWelcome | irc-secretary.py:34-35 | on connecting the boss gets the greeting |
| Bot.SecretaryBot.ReportToBoss | irc-secretary.py:72-73 | a report is one private message to the boss |
| Bot.SecretaryBot.DoCommand | irc-secretary.py:49-70 | the dispatcher leaves the bot exactly in the state `Handle` gives |
| Bot.SecretaryBot.ChannelAction | irc-secretary.py:75-84 | the channel handler leaves the bot exactly in the state `ChannelCommand` gives |
| Bot.SecretaryBot.JoinOrLeaveEach | irc-secretary.py:85-91 | the channel loop appends exactly the actions of `ChannelOutput` |
| Bot.SecretaryBot.LogAction | irc-secretary.py:93-124 | the log handler's loop updates the table, the files and the output exactly as `LogAll` does |
| Bot.SecretaryBot.LogChannel | irc-secretary.py:111-124 | one turn of the log loop updates the table, the files and the output exactly as `LogStep` does |
| Bot.SecretaryBot.Info | irc-secretary.py:126-132 | the `info` loop appends exactly `InfoOutput` |
| Bot.SecretaryBot.LogEvent | irc-secretary.py:134-145 | channel traffic changes the files exactly as `RecordEvent` does on the event's first argument, or on empty text when there is none |
| Bot.SecretaryBot.Log | irc-secretary.py:147-148 | a log write appends one line to the channel's file |

## Left out

- The IRC library (`SingleServerIRCBot`, `irclib`), the connection and the
  `on_privmsg`, `on_privnotice`, `on_pubmsg` and `on_action` wiring. Outbound
  calls are recorded as actions. Inbound events are method arguments.
- Machine.Handle: `help` calls `_helpmsg`, which neither irc-secretary.py
  nor the IRC library defines; as written the AttributeError ends the bot
  (see "## Findings" and Machine.HandleAsWritten). `Handle` gives the
  evidently intended reply instead, the single action `HelpMsg`, whose text
  is unknown.
- Bot.SecretaryBot.DoCommand: follows `Handle`, so `help` sends `HelpMsg`
  and the bot goes on, where the program as written would end.
- Bot.SecretaryBot.OnNicknameInUse: the field `nickname` stands for the
  nickname last requested, not for python-irclib's `get_nickname()`, which
  is the nickname the server confirmed and changes only on the welcome
  reply or a confirmed NICK. While registering, the program therefore
  retries with the first nickname plus one `_` every time, and a second
  collision offers that same nickname again. The library is not part of
  this model.
- Identity.NickAfterCollisionsShape: describes retries that each build on
  the nickname last requested, for the reason above; it is not what the
  program does on a second collision during registration.
- Identity.CollisionNicksDistinct: likewise; with python-irclib a second
  collision during registration repeats the previous retry.
- Open file objects, buffering and `open(fname, 'a')`. A file is the list of
  lines written to it. Lines written before the bot started are a
  constructor argument. Open and write failures are not handled by the
  program, so they are not modelled.
- `datetime.today()` and `datetime.now()`: the date and time are parameters.
- `self.channels`, kept by the IRC library: a parameter `joined`. Joining or
  leaving only sends the request, so the model does not change `joined`.
- `die()`: the action `Die`. The model does not end the process. Commands
  handled after `Die` are not meaningful.
- `main`'s usage check, `print`, `sys.exit` and `bot.start()`. Only the
  `server[:port]` parsing is modelled.
- ServerArg.ParseServer: like Python 2's `int()`, it accepts ports out of
  range and negative ports. The lemmas cover digits with or without a sign,
  any whitespace around them and after the sign, and texts with no digit.
  No lemma covers a text that mixes digits with other characters, which
  `PyInt` refuses.
- Text.Split and ServerArg.PyInt carry no contract of their own. Their
  properties are lemmas, which keeps the proofs that use them small.
- The `msgs` table in `_log_action`, which is never used, and the
  commented-out body of `thanks`.
- Event types other than `pubmsg` and `action`: only those two are bound
  to `_log_event`. An action without an argument is covered under
  "## Findings".
- Machine.RecordEvent: takes the event's text, not its argument list. For an
  action with no argument, the program as written ends (see
  Machine.RecordEventAsWritten); Bot.SecretaryBot.LogEvent records an empty
  text instead.
- Characters are Dafny characters. Byte strings and encodings are not
  modelled.

## Findings

| source | as written | input that shows it | evidently intended | confidence | as-written member | corrected member |
|---|---|---|---|---|---|---|
| irc-secretary.py:59-60 | `help` calls `self._helpmsg()`, which is defined neither in the file nor in the IRC library, and nothing catches the AttributeError | the boss sends `help`, as the greeting at line 35 tells them to | the bot answers with a help text and keeps running | not executed; high that the method is undefined, medium that nothing in the library catches the exception | Machine.HandleAsWritten, Properties.HelpCrashesAsWritten | Machine.Handle, Properties.RepliesByCommand |
| irc-secretary.py:142 | `what = e.arguments()[0]` for every event in a recorded channel | any member of a recorded channel sends a bare CTCP `ACTION` (`\x01ACTION\x01`, a `/me` with no text), which the IRC library turns into an `action` event with no argument; the IndexError is caught nowhere | the action is recorded, with empty text, and the bot keeps running | not executed; medium, resting on how the IRC library splits CTCP messages, which is not part of this model | Machine.RecordEventAsWritten, Properties.BareActionCrashesAsWritten | Machine.RecordEvent, Properties.BareActionIsRecorded |
