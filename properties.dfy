/** What the secretary promises, proved about the functions of `Machine`:
    authorisation, the order of channel actions, idempotent start and stop,
    frame conditions on the recording table and the files, the `info`
    listing and the recorded file of a start/record/stop session. */
module Properties {
  import opened Text
  import opened Identity
  import opened LogLines
  import opened Machine

  /** The actions sent on the way from `s` to `t`. */
  function Sent(s: State, t: State): seq<Action>
    requires s.output <= t.output
  {
    t.output[|s.output|..]
  }

  // ---------------------------------------------------------------- channel

  /** `channel join|leave c1 ... cn` reports and joins (or leaves) each
      channel in argument order; any other sub-action acts on none. */
  lemma {:induction false} ChannelOutputInOrder(action: string, cs: seq<string>)
    ensures action != "join" && action != "leave" ==> ChannelOutput(action, cs) == []
    ensures action == "join" || action == "leave" ==> |ChannelOutput(action, cs)| == 2 * |cs|
    ensures action == "join" ==> forall i :: 0 <= i < |cs| ==>
      ChannelOutput(action, cs)[2 * i] == Report("Joining channel " + cs[i] + "...") &&
      ChannelOutput(action, cs)[2 * i + 1] == Join(cs[i])
    ensures action == "leave" ==> forall i :: 0 <= i < |cs| ==>
      ChannelOutput(action, cs)[2 * i] == Report("Leaving channel " + cs[i] + "...") &&
      ChannelOutput(action, cs)[2 * i + 1] == Part(cs[i])
  {
    if action == "join" || action == "leave" {
      forall i | 0 <= i < |cs|
        ensures ChannelOutput(action, cs)[2 * i] == ChannelStep(action, cs[i])[0]
        ensures ChannelOutput(action, cs)[2 * i + 1] == ChannelStep(action, cs[i])[1]
      {
        ChannelOutputAt(action, cs, i);
      }
    }
  }

  /** The two actions the channel loop sends for its i-th channel. */
  lemma {:induction false} ChannelOutputAt(action: string, cs: seq<string>, i: nat)
    requires action == "join" || action == "leave"
    requires i < |cs|
    ensures ChannelOutput(action, cs)[2 * i] == ChannelStep(action, cs[i])[0]
    ensures ChannelOutput(action, cs)[2 * i + 1] == ChannelStep(action, cs[i])[1]
    decreases |cs|
  {
    var init := cs[..|cs| - 1];
    if i < |init| {
      ChannelOutputAt(action, init, i);
      assert init[i] == cs[i];
    }
  }

  /** The channel loop emits reports, joins and parts only. */
  lemma {:induction false} ChannelOutputKinds(action: string, cs: seq<string>)
    ensures forall a :: a in ChannelOutput(action, cs) ==> a.Report? || a.Join? || a.Part?
    decreases |cs|
  {
    if cs != [] {
      ChannelOutputKinds(action, cs[..|cs| - 1]);
    }
  }

  /** The boss's `channel...` commands go to the channel handler. */
  lemma HandleChannelCommand(s: State, boss: string, source: string, cmd: string,
                             joined: seq<string>, today: string, now: string)
    requires Sender(source) == boss && StartsWith(cmd, "channel")
    ensures Handle(s, boss, source, cmd, joined, today, now) == ChannelCommand(s, cmd)
  {
  }

  /** The full effect of a boss's command that starts with `channel` and
      names an action and channels, however it is spaced: nothing but the
      actions it sends, which for `join` and `leave` are a progress report and
      the join or part of each channel in argument order, and for any other
      sub-action the two usage reports. */
  lemma ChannelCommandInOrder(s: State, boss: string, source: string, cmd: string,
                              joined: seq<string>, today: string, now: string)
    requires Sender(source) == boss && StartsWith(cmd, "channel") && |Split(cmd)| >= 3
    ensures var t := Handle(s, boss, source, cmd, joined, today, now);
      t.logging == s.logging && t.files == s.files
    ensures var out := Sent(s, Handle(s, boss, source, cmd, joined, today, now));
      var action := Split(cmd)[1];
      var cs := Split(cmd)[2..];
      (action != "join" && action != "leave" ==> out == [Report(UnknownChannelAction), Report(ChannelUsage)]) &&
      (action == "join" || action == "leave" ==> |out| == 2 * |cs|) &&
      (action == "join" ==> forall i :: 0 <= i < |cs| ==>
        out[2 * i] == Report("Joining channel " + cs[i] + "...") && out[2 * i + 1] == Join(cs[i])) &&
      (action == "leave" ==> forall i :: 0 <= i < |cs| ==>
        out[2 * i] == Report("Leaving channel " + cs[i] + "...") && out[2 * i + 1] == Part(cs[i]))
  {
    var t := Handle(s, boss, source, cmd, joined, today, now);
    HandleChannelCommand(s, boss, source, cmd, joined, today, now);
    var parts := Split(cmd);
    assert Sent(s, t) == ChannelUsageReports(parts[1]) + ChannelOutput(parts[1], parts[2..]);
    ChannelOutputInOrder(parts[1], parts[2..]);
  }

  /** A `channel` or `log` command of fewer than three words gets exactly the
      missing-channel report, and nothing else happens. */
  lemma MissingChannelArgs(s: State, boss: string, source: string, cmd: string,
                           joined: seq<string>, today: string, now: string)
    requires Sender(source) == boss
    requires StartsWith(cmd, "channel") || StartsWith(cmd, "log")
    requires |Split(cmd)| < 3
    ensures Handle(s, boss, source, cmd, joined, today, now) == Emit(s, [Report(MissingChannel)])
  {
  }

  // ---------------------------------------------------------------- log

  /** One step of the log loop appends emotes and reports only. */
  lemma LogStepKinds(u: State, action: string, c: string, today: string, now: string)
    ensures var t := LogStep(u, action, c, today, now);
      u.output <= t.output &&
      forall i :: |u.output| <= i < |t.output| ==> t.output[i].Emote? || t.output[i].Report?
  {
  }

  /** The log loop emits emotes and reports only. */
  lemma {:induction false} LogAllKinds(s: State, action: string, cs: seq<string>, today: string, now: string)
    ensures var t := LogAll(s, action, cs, today, now);
      s.output <= t.output &&
      forall i :: |s.output| <= i < |t.output| ==> t.output[i].Emote? || t.output[i].Report?
    decreases |cs|
  {
    if cs != [] {
      var u := LogAll(s, action, cs[..|cs| - 1], today, now);
      LogAllKinds(s, action, cs[..|cs| - 1], today, now);
      LogStepKinds(u, action, cs[|cs| - 1], today, now);
    }
  }

  /** The log loop leaves every channel it is not given as it was. */
  lemma {:induction false} LogAllFrame(s: State, action: string, cs: seq<string>, today: string, now: string)
    ensures var t := LogAll(s, action, cs, today, now);
      forall d :: d !in cs ==>
        (d in t.logging <==> d in s.logging) && (d in s.logging ==> t.logging[d] == s.logging[d])
    decreases |cs|
  {
    if cs != [] {
      LogAllFrame(s, action, cs[..|cs| - 1], today, now);
      assert forall d :: d in cs[..|cs| - 1] ==> d in cs;
    }
  }

  /** `log start` only adds entries and `log stop` only removes them. */
  lemma {:induction false} LogAllMonotone(s: State, action: string, cs: seq<string>, today: string, now: string)
    ensures var t := LogAll(s, action, cs, today, now);
      (action == "start" ==> forall d :: d in s.logging ==> d in t.logging && t.logging[d] == s.logging[d]) &&
      (action != "start" ==> forall d :: d in t.logging ==> d in s.logging && t.logging[d] == s.logging[d])
    decreases |cs|
  {
    if cs != [] {
      LogAllMonotone(s, action, cs[..|cs| - 1], today, now);
    }
  }

  /** Files written by a `log start` over `cs` on day `today`. */
  function StartedFiles(today: string, cs: seq<string>): set<string>
  {
    set c | c in cs :: LogFileName(today, c)
  }

  /** Files written by a `log stop` over `cs`: those of the channels recorded before. */
  function StoppedFiles(s: State, cs: seq<string>): set<string>
  {
    set c | c in cs && c in s.logging :: s.logging[c]
  }

  /** A `log` command writes only to the files of the channels it names. */
  lemma {:induction false} LogAllFilesFrame(s: State, action: string, cs: seq<string>, today: string, now: string)
    ensures var t := LogAll(s, action, cs, today, now);
      forall f :: (action == "start" ==> f !in StartedFiles(today, cs)) &&
                  (action != "start" ==> f !in StoppedFiles(s, cs)) ==>
        (f in t.files <==> f in s.files) && Lines(t.files, f) == Lines(s.files, f)
    decreases |cs|
  {
    if cs != [] {
      var init := cs[..|cs| - 1];
      var c := cs[|cs| - 1];
      LogAllFilesFrame(s, action, init, today, now);
      LogAllMonotone(s, action, init, today, now);
      assert forall d :: d in init ==> d in cs;
      assert StartedFiles(today, init) <= StartedFiles(today, cs);
      assert StoppedFiles(s, init) <= StoppedFiles(s, cs);
      var u := LogAll(s, action, init, today, now);
      if action == "stop" && c in u.logging {
        assert u.logging[c] in StoppedFiles(s, cs);
      }
    }
  }

  /** After `log start` over `cs`, every one of them is recorded; after
      `log stop`, none of them is. */
  lemma {:induction false} LogAllReaches(s: State, action: string, cs: seq<string>, today: string, now: string)
    ensures action == "start" ==> forall c :: c in cs ==> c in LogAll(s, action, cs, today, now).logging
    ensures action == "stop" ==> forall c :: c in cs ==> c !in LogAll(s, action, cs, today, now).logging
    decreases |cs|
  {
    if cs != [] {
      var init := cs[..|cs| - 1];
      LogAllReaches(s, action, init, today, now);
      assert forall c :: c in cs ==> c in init || c == cs[|cs| - 1];
    }
  }

  /** `log start` of channels all recorded already, `log stop` of channels
      none of which is recorded, and every other sub-action change nothing. */
  lemma {:induction false} LogAllNoOp(s: State, action: string, cs: seq<string>, today: string, now: string)
    requires action == "start" ==> forall c :: c in cs ==> c in s.logging
    requires action == "stop" ==> forall c :: c in cs ==> c !in s.logging
    ensures LogAll(s, action, cs, today, now) == s
    decreases |cs|
  {
    if cs != [] {
      LogAllNoOp(s, action, cs[..|cs| - 1], today, now);
    }
  }

  /** Repeating a `log` command, at any later date and time, changes
      nothing more: start;start is one start and stop;stop one stop. */
  lemma LogCommandIdempotent(s: State, boss: string, source: string, cmd: string, joined: seq<string>,
                             today: string, now: string, today2: string, now2: string)
    requires Sender(source) == boss && StartsWith(cmd, "log") && |Split(cmd)| >= 3
    ensures var t := Handle(s, boss, source, cmd, joined, today, now);
      Handle(t, boss, source, cmd, joined, today2, now2) == t
  {
    var t := Handle(s, boss, source, cmd, joined, today, now);
    HandleLogCommand(s, boss, source, cmd, joined, today, now);
    HandleLogCommand(t, boss, source, cmd, joined, today2, now2);
    var parts := Split(cmd);
    LogAllReaches(s, parts[1], parts[2..], today, now);
    LogAllNoOp(t, parts[1], parts[2..], today2, now2);
  }

  /** The boss's `log...` commands go to the log handler. */
  lemma HandleLogCommand(s: State, boss: string, source: string, cmd: string,
                         joined: seq<string>, today: string, now: string)
    requires Sender(source) == boss && StartsWith(cmd, "log")
    ensures Handle(s, boss, source, cmd, joined, today, now) == LogCommand(s, cmd, today, now)
  {
    assert !StartsWith(cmd, "channel") by {
      assert cmd[0] == 'l';
    }
  }

  /** `cmd` starts with `log` and its words are `<first> <action> <c>`: the
      handler reads it as `action` on channel `c` whatever the spacing and
      whatever follows `log` in the first word. */
  predicate LogCommandFor(cmd: string, action: string, c: string)
  {
    StartsWith(cmd, "log") && |Split(cmd)| == 3 && Split(cmd)[1] == action && Split(cmd)[2] == c
  }

  /** A log command naming one channel is one step of the log loop. */
  lemma LogCommandOneChannel(s: State, cmd: string, action: string, c: string, today: string, now: string)
    requires |Split(cmd)| == 3 && Split(cmd)[1] == action && Split(cmd)[2] == c
    ensures LogCommand(s, cmd, today, now) == LogStep(s, action, c, today, now)
  {
    assert Split(cmd)[2..] == [c];
    assert LogAll(s, action, [c], today, now) == LogStep(s, action, c, today, now);
  }

  /** `log <action> <c>` with single spaces is such a command. */
  lemma CanonicalLogCommand(action: string, c: string)
    requires IsWord(action) && IsWord(c)
    ensures LogCommandFor("log " + action + " " + c, action, c)
  {
    var ws := ["log", action, c];
    assert Unwords([c]) == c;
    assert ws[1..] == [action, c] && [action, c][1..] == [c];
    assert Unwords([action, c]) == action + " " + c;
    assert Unwords(ws) == "log " + action + " " + c;
    assert forall w :: w in ws ==> IsWord(w);
    SplitUnwords(ws);
    UnwordsStartsWith(ws);
  }

  /** A `log` command however it is spaced: a first word that starts with
      `log`, then the action and the channel, each after a run of any
      whitespace, and any whitespace at the end. */
  lemma SpacedLogCommand(first: string, sp1: string, action: string, sp2: string, c: string, sp3: string)
    requires IsWord(first) && StartsWith(first, "log") && IsWord(action) && IsWord(c)
    requires IsSpaces(sp1) && sp1 != [] && IsSpaces(sp2) && sp2 != [] && IsSpaces(sp3)
    ensures LogCommandFor(first + sp1 + action + sp2 + c + sp3, action, c)
  {
    var cmd := first + sp1 + action + sp2 + c + sp3;
    var rest2 := c + sp3;
    var rest1 := action + sp2 + rest2;
    assert cmd == first + sp1 + rest1;
    assert rest1 == action + sp2 + rest2;
    SplitWordSpaced(first, sp1, rest1);
    SplitWordSpaced(action, sp2, rest2);
    if sp3 == [] {
      assert rest2 == c + [];
      SplitWordThen(c, []);
    } else {
      assert rest2 == c + sp3 + [];
      SplitWordSpaced(c, sp3, []);
    }
    assert Split(cmd) == [first, action, c];
    assert cmd[..3] == first[..3];
  }

  /** `log start c`: for a new channel, record it to `/tmp/<date>-c.log`,
      write the start marker, emote, then report; for a channel already
      recorded, nothing at all. */
  lemma StartOneChannel(s: State, boss: string, source: string, cmd: string, c: string,
                        joined: seq<string>, today: string, now: string)
    requires Sender(source) == boss && LogCommandFor(cmd, "start", c)
    ensures var t := Handle(s, boss, source, cmd, joined, today, now);
      var fname := LogFileName(today, c);
      (c in s.logging ==> t == s) &&
      (c !in s.logging ==>
        t.logging == s.logging[c := fname] &&
        Lines(t.files, fname) == Lines(s.files, fname) + [StartMarker(now)] &&
        (forall f :: f != fname ==> (f in t.files <==> f in s.files) && Lines(t.files, f) == Lines(s.files, f)) &&
        t.output == s.output + [Emote(c, StartedEmote), Report("Start logging " + c + " to " + fname)])
  {
    HandleLogCommand(s, boss, source, cmd, joined, today, now);
    LogCommandOneChannel(s, cmd, "start", c, today, now);
  }

  /** `log stop c`: for a recorded channel, write the stop marker to its
      file, drop it from the table, emote, then report the old file name;
      for a channel not recorded, nothing at all. */
  lemma StopOneChannel(s: State, boss: string, source: string, cmd: string, c: string,
                       joined: seq<string>, today: string, now: string)
    requires Sender(source) == boss && LogCommandFor(cmd, "stop", c)
    ensures var t := Handle(s, boss, source, cmd, joined, today, now);
      (c !in s.logging ==> t == s) &&
      (c in s.logging ==>
        var fname := s.logging[c];
        c !in t.logging &&
        (forall d :: d != c ==> (d in t.logging <==> d in s.logging) && (d in t.logging ==> t.logging[d] == s.logging[d])) &&
        Lines(t.files, fname) == Lines(s.files, fname) + [StopMarker(now)] &&
        (forall f :: f != fname ==> (f in t.files <==> f in s.files) && Lines(t.files, f) == Lines(s.files, f)) &&
        t.output == s.output + [Emote(c, StoppedEmote), Report("Stoped logging " + c + " to " + fname)])
  {
    HandleLogCommand(s, boss, source, cmd, joined, today, now);
    LogCommandOneChannel(s, cmd, "stop", c, today, now);
  }

  /** `log pause|resume c1 ... cn` (or any other sub-action) changes nothing. */
  lemma InertLogActions(s: State, boss: string, source: string, cmd: string,
                        joined: seq<string>, today: string, now: string)
    requires Sender(source) == boss && StartsWith(cmd, "log") && |Split(cmd)| >= 3
    requires Split(cmd)[1] != "start" && Split(cmd)[1] != "stop"
    ensures Handle(s, boss, source, cmd, joined, today, now) == s
  {
    HandleLogCommand(s, boss, source, cmd, joined, today, now);
    LogAllNoOp(s, Split(cmd)[1], Split(cmd)[2..], today, now);
  }

  // ---------------------------------------------------------------- info

  /** The rows of `info`: one per joined channel, in order, saying whether it is recorded. */
  lemma {:induction false} InfoRowsShape(logging: map<string, string>, joined: seq<string>)
    ensures |InfoRows(logging, joined)| == |joined|
    ensures forall i :: 0 <= i < |joined| ==>
      InfoRows(logging, joined)[i] == Report(InfoLine(joined[i], joined[i] in logging))
    decreases |joined|
  {
    if joined != [] {
      var init := joined[..|joined| - 1];
      InfoRowsShape(logging, init);
      assert forall i :: 0 <= i < |init| ==> init[i] == joined[i];
    }
  }

  /** For n joined channels `info` sends n + 3 reports: two header lines, one
      line per channel whose `Log:` is `True` exactly when it is recorded, and
      a footer. */
  lemma InfoShape(logging: map<string, string>, joined: seq<string>)
    ensures var out := InfoOutput(logging, joined);
      |out| == |joined| + 3 &&
      out[0] == Report(InfoRule) && out[1] == Report(InfoHeader) && out[|out| - 1] == Report(InfoRule) &&
      forall i :: 0 <= i < |joined| ==> out[i + 2] == Report(InfoLine(joined[i], joined[i] in logging))
  {
    InfoRowsShape(logging, joined);
  }

  /** `log start c` twice in a row is one start, and `info` then lists `c`,
      wherever it appears among the joined channels, as recorded. */
  lemma StartTwiceThenInfo(s: State, boss: string, source: string, cmd: string, c: string, joined: seq<string>,
                           today: string, now: string, today2: string, now2: string)
    requires Sender(source) == boss && LogCommandFor(cmd, "start", c)
    ensures var t1 := Handle(s, boss, source, cmd, joined, today, now);
      var t2 := Handle(t1, boss, source, cmd, joined, today2, now2);
      t2 == t1 && c in t2.logging &&
      forall i :: 0 <= i < |joined| && joined[i] == c ==>
        InfoOutput(t2.logging, joined)[i + 2] == Report(InfoLine(c, true))
  {
    LogCommandIdempotent(s, boss, source, cmd, joined, today, now, today2, now2);
    StartOneChannel(s, boss, source, cmd, c, joined, today, now);
    var t1 := Handle(s, boss, source, cmd, joined, today, now);
    InfoShape(t1.logging, joined);
  }

  // ---------------------------------------------------------------- dispatch

  /** The channel handler sends reports, joins and parts only. */
  lemma ChannelCommandSends(s: State, cmd: string)
    ensures var t := ChannelCommand(s, cmd);
      forall a :: a in Sent(s, t) ==> a.Report? || a.Join? || a.Part?
  {
    var parts := Split(cmd);
    if |parts| >= 3 {
      ChannelOutputKinds(parts[1], parts[2..]);
      var t := ChannelCommand(s, cmd);
      assert Sent(s, t) == ChannelUsageReports(parts[1]) + ChannelOutput(parts[1], parts[2..]);
    }
  }

  /** The log handler sends emotes and reports only. */
  lemma LogCommandSends(s: State, cmd: string, today: string, now: string)
    ensures var t := LogCommand(s, cmd, today, now);
      forall a :: a in Sent(s, t) ==> a.Emote? || a.Report?
  {
    var parts := Split(cmd);
    if |parts| >= 3 {
      var t := LogCommand(s, cmd, today, now);
      LogAllKinds(s, parts[1], parts[2..], today, now);
      forall a | a in Sent(s, t)
        ensures a.Emote? || a.Report?
      {
        var k :| 0 <= k < |Sent(s, t)| && Sent(s, t)[k] == a;
        assert t.output[|s.output| + k] == a;
      }
    }
  }

  /** `info` sends reports only. */
  lemma InfoSendsReports(logging: map<string, string>, joined: seq<string>)
    ensures forall a :: a in InfoOutput(logging, joined) ==> a.Report?
  {
    InfoShape(logging, joined);
    var out := InfoOutput(logging, joined);
    forall a | a in out
      ensures a.Report?
    {
      var k :| 0 <= k < |out| && out[k] == a;
      if 2 <= k < |out| - 1 {
        assert out[k] == Report(InfoLine(joined[k - 2], joined[k - 2] in logging));
      }
    }
  }

  /** Only the boss is obeyed: anyone else gets exactly one refusal notice and
      nothing else happens; the boss is never sent a notice. */
  lemma OnlyStrangersAreRefused(s: State, boss: string, source: string, cmd: string,
                                joined: seq<string>, today: string, now: string)
    ensures var t := Handle(s, boss, source, cmd, joined, today, now);
      (Sender(source) != boss ==> t == Emit(s, [Notice(Sender(source), Refusal)])) &&
      (Sender(source) == boss ==> forall a :: a in Sent(s, t) ==> !a.Notice?)
  {
    if Sender(source) == boss {
      if StartsWith(cmd, "channel") {
        ChannelCommandSends(s, cmd);
      } else if StartsWith(cmd, "log") {
        LogCommandSends(s, cmd, today, now);
      } else if cmd == "info" {
        InfoSendsReports(s.logging, joined);
      }
    }
  }

  /** The commands matched by `startswith` and the exact-match ones. */
  predicate Recognised(cmd: string)
  {
    StartsWith(cmd, "channel") || StartsWith(cmd, "log") ||
    cmd == "help" || cmd == "info" || cmd == "thanks" || cmd == "bye"
  }

  /** Which replies leave the bot: the bot is told to quit exactly when the
      boss says `bye`, sends help exactly when the boss says `help`, never
      crashes, and does nothing at all on `thanks`. */
  lemma RepliesByCommand(s: State, boss: string, source: string, cmd: string,
                         joined: seq<string>, today: string, now: string)
    ensures var t := Handle(s, boss, source, cmd, joined, today, now);
      (Die in Sent(s, t) <==> Sender(source) == boss && cmd == "bye") &&
      (HelpMsg in Sent(s, t) <==> Sender(source) == boss && cmd == "help") &&
      Crash !in Sent(s, t) &&
      (Sender(source) == boss && cmd == "thanks" ==> t == s)
  {
    var t := Handle(s, boss, source, cmd, joined, today, now);
    if Sender(source) == boss {
      if StartsWith(cmd, "channel") {
        ChannelCommandSends(s, cmd);
        assert cmd != "bye" && cmd != "help";
      } else if StartsWith(cmd, "log") {
        LogCommandSends(s, cmd, today, now);
        assert cmd[..3] == "log";
        assert cmd != "bye" && cmd != "help";
      } else if cmd == "info" {
        InfoSendsReports(s.logging, joined);
      }
    }
  }

  /** The boss gets exactly the one "Not understood" report precisely for
      the commands the dispatcher does not recognise, and such a command
      changes nothing else. */
  lemma NotUnderstoodExactly(s: State, boss: string, source: string, cmd: string,
                             joined: seq<string>, today: string, now: string)
    ensures var t := Handle(s, boss, source, cmd, joined, today, now);
      Sent(s, t) == [Report("Not understood: " + cmd)] <==> Sender(source) == boss && !Recognised(cmd)
    ensures var t := Handle(s, boss, source, cmd, joined, today, now);
      Sender(source) == boss && !Recognised(cmd) ==> t.logging == s.logging && t.files == s.files
  {
    var t := Handle(s, boss, source, cmd, joined, today, now);
    if Sender(source) == boss && (StartsWith(cmd, "channel") || StartsWith(cmd, "log")) && |Split(cmd)| < 3 {
      assert Sent(s, t) == [Report(MissingChannel)];
      MissingChannelIsNoEcho(cmd);
    }
  }

  /** The missing-channel report is not the echo of a `channel` or `log` command. */
  lemma MissingChannelIsNoEcho(cmd: string)
    requires StartsWith(cmd, "channel") || StartsWith(cmd, "log")
    ensures MissingChannel != "Not understood: " + cmd
  {
    assert cmd[0] == 'c' || cmd[0] == 'l';
    assert MissingChannel[16] == 'e';
    assert ("Not understood: " + cmd)[16] == cmd[0];
  }

  /** As written, the boss's `help` (the command the greeting offers) ends
      the bot instead of answering it; every other command is handled as
      `Handle` says. */
  lemma HelpCrashesAsWritten(s: State, boss: string, source: string, cmd: string,
                             joined: seq<string>, today: string, now: string)
    requires Sender(source) == boss
    ensures Sent(s, HandleAsWritten(s, boss, source, "help", joined, today, now)) == [Crash]
    ensures cmd != "help" ==>
      HandleAsWritten(s, boss, source, cmd, joined, today, now) == Handle(s, boss, source, cmd, joined, today, now)
  {
  }

  // ---------------------------------------------------------------- recording

  /** Channel traffic: nothing for a channel not recorded; for a recorded one,
      exactly one line appended to its file, which reads back as the event. */
  lemma RecordEventEffect(s: State, kind: EventKind, target: string, source: string,
                          what: string, now: string)
    ensures var t := RecordEvent(s, kind, target, source, what, now);
      t.logging == s.logging && t.output == s.output && (target !in s.logging ==> t == s)
    ensures var t := RecordEvent(s, kind, target, source, what, now);
      target in s.logging ==>
        var fname := s.logging[target];
        |Lines(t.files, fname)| == |Lines(s.files, fname)| + 1 &&
        Lines(t.files, fname)[..|Lines(s.files, fname)|] == Lines(s.files, fname) &&
        (forall f :: f != fname ==> (f in t.files <==> f in s.files) && Lines(t.files, f) == Lines(s.files, f)) &&
        (Readable(now, Sender(source)) ==>
          ParseEvent(Lines(t.files, fname)[|Lines(s.files, fname)|]) == Some(Entry(kind, now, Sender(source), what)))
  {
    if target in s.logging && Readable(now, Sender(source)) {
      ParseFormatEvent(kind, now, Sender(source), what);
    }
  }

  /** As written, a bare CTCP `ACTION` (no argument) from anyone in a
      recorded channel ends the bot and writes nothing; an event that carries
      its text is recorded as `RecordEvent` says. */
  lemma BareActionCrashesAsWritten(s: State, kind: EventKind, target: string, source: string,
                                   args: seq<string>, now: string)
    requires target in s.logging
    ensures var t := RecordEventAsWritten(s, CtcpAction, target, source, [], now);
      Sent(s, t) == [Crash] && t.files == s.files
    ensures args != [] ==>
      RecordEventAsWritten(s, kind, target, source, args, now) == RecordEvent(s, kind, target, source, args[0], now)
  {
  }

  /** Corrected: a bare CTCP `ACTION` in a recorded channel sends nothing and
      appends one line to the channel's file, which reads back as an action
      with empty text. */
  lemma BareActionIsRecorded(s: State, target: string, source: string, now: string)
    requires target in s.logging && Readable(now, Sender(source))
    ensures var t := RecordEvent(s, CtcpAction, target, source, EventText([]), now);
      var fname := s.logging[target];
      t.output == s.output && t.logging == s.logging &&
      |Lines(t.files, fname)| == |Lines(s.files, fname)| + 1 &&
      Lines(t.files, fname)[..|Lines(s.files, fname)|] == Lines(s.files, fname) &&
      ParseEvent(Lines(t.files, fname)[|Lines(s.files, fname)|]) == Some(Entry(CtcpAction, now, Sender(source), ""))
  {
    RecordEventEffect(s, CtcpAction, target, source, "", now);
  }

  /** A stream of channel events, handled one after the other. */
  datatype Event = Event(kind: EventKind, target: string, source: string, what: string, now: string)

  function RecordAll(s: State, events: seq<Event>): State
    decreases |events|
  {
    if events == [] then s
    else
      var e := events[|events| - 1];
      RecordEvent(RecordAll(s, events[..|events| - 1]), e.kind, e.target, e.source, e.what, e.now)
  }

  /** Any number of events in channels that are not recorded write nothing. */
  lemma {:induction false} UnrecordedTrafficWritesNothing(s: State, events: seq<Event>)
    requires forall e :: e in events ==> e.target !in s.logging
    ensures RecordAll(s, events) == s
    decreases |events|
  {
    if events != [] {
      UnrecordedTrafficWritesNothing(s, events[..|events| - 1]);
      assert events[|events| - 1] in events;
    }
  }

  /** `log start c`, one message in `c`, `log stop c`: the file holds exactly
      the start marker, the event line and the stop marker after what it held
      before, and the recording table is back where it was. */
  lemma StartRecordStop(s: State, boss: string, source: string, startCmd: string, stopCmd: string,
                        c: string, joined: seq<string>, today: string, now1: string, kind: EventKind,
                        speaker: string, what: string, now2: string, today3: string, now3: string)
    requires Sender(source) == boss && c !in s.logging
    requires LogCommandFor(startCmd, "start", c) && LogCommandFor(stopCmd, "stop", c)
    ensures var fname := LogFileName(today, c);
      var t1 := Handle(s, boss, source, startCmd, joined, today, now1);
      var t2 := RecordEvent(t1, kind, c, speaker, what, now2);
      var t3 := Handle(t2, boss, source, stopCmd, joined, today3, now3);
      t3.logging == s.logging &&
      Lines(t3.files, fname) ==
        Lines(s.files, fname) + [StartMarker(now1), FormatEvent(kind, now2, Sender(speaker), what), StopMarker(now3)]
  {
    var fname := LogFileName(today, c);
    var t1 := Handle(s, boss, source, startCmd, joined, today, now1);
    StartOneChannel(s, boss, source, startCmd, c, joined, today, now1);
    var t2 := RecordEvent(t1, kind, c, speaker, what, now2);
    var t3 := Handle(t2, boss, source, stopCmd, joined, today3, now3);
    StopOneChannel(t2, boss, source, stopCmd, c, joined, today3, now3);
    assert t3.logging == s.logging;
  }
}
