/** What the recorder writes: the log file name, the start and stop marker
    lines and the two kinds of event line (irc-secretary.py lines 113, 115,
    120 and 135-144), with a reader that recovers an event from its line. */
module LogLines {
  import opened Text

  /** The two event types the bot records: `pubmsg` and `action`. */
  datatype EventKind = PubMsg | CtcpAction

  /** The fields of a recorded event line. */
  datatype Entry = Entry(kind: EventKind, when: string, who: string, what: string)

  /** `'/tmp/%s-%s.log' % (today, channel)`: a path that starts with
      `/tmp/` and ends in `-<channel>.log` (a channel name may hold `/`). */
  function LogFileName(today: string, channel: string): (fname: string)
    ensures StartsWith(fname, "/tmp/")
    ensures |fname| >= |channel| + 5 && fname[|fname| - |channel| - 5..] == "-" + channel + ".log"
  {
    "/tmp/" + today + "-" + channel + ".log"
  }

  /** The start marker; like the stop marker it begins with a dash, so it can
      never be taken for an event line. */
  function StartMarker(now: string): (line: string)
    ensures StartsWith(line, "----- Started ")
  {
    "----- Started logging at " + now + " -----"
  }

  /** The stop marker, spelled as the program writes it. */
  function StopMarker(now: string): (line: string)
    ensures StartsWith(line, "----- Stoped ")
  {
    "----- Stoped logging at " + now + " -----"
  }

  /** `'[%s] <%s> %s'` for a public message, `'[%s] \t* %s %s'` for an action. */
  function FormatEvent(kind: EventKind, when: string, who: string, what: string): (line: string)
    ensures StartsWith(line, "[" + when + "] ")
  {
    match kind
    case PubMsg => "[" + when + "] <" + who + "> " + what
    case CtcpAction => "[" + when + "] \t* " + who + " " + what
  }

  /** Reads an event line back; `None` for any other line. */
  function ParseEvent(line: string): Option<Entry>
  {
    if |line| == 0 || line[0] != '[' then None
    else
      var j := IndexOf(line, ']');
      if j == |line| then None else ParseBody(line[1..j], line[j + 1..])
  }

  /** The part of an event line after its `[HH:MM]` stamp. */
  function ParseBody(when: string, rest: string): Option<Entry>
  {
    if StartsWith(rest, " <") then
      var body := rest[2..];
      var k := IndexOf(body, '>');
      if k == |body| || !StartsWith(body[k..], "> ") then None
      else Some(Entry(PubMsg, when, body[..k], body[k + 2..]))
    else if StartsWith(rest, " \t* ") then
      var body := rest[4..];
      var k := IndexOf(body, ' ');
      if k == |body| then None
      else Some(Entry(CtcpAction, when, body[..k], body[k + 1..]))
    else None
  }

  /** A valid nick holds neither `>` nor a space, and a `HH:MM` time holds no `]`. */
  predicate Readable(when: string, who: string)
  {
    ']' !in when && '>' !in who && ' ' !in who
  }

  lemma ParseStamp(when: string, rest: string)
    requires ']' !in when
    ensures ParseEvent("[" + when + "]" + rest) == ParseBody(when, rest)
  {
    var line := "[" + when + "]" + rest;
    IndexOfAfter("[" + when, ']', rest);
    assert line[1..|when| + 1] == when;
    assert line[|when| + 2..] == rest;
  }

  lemma ParsePubMsgBody(when: string, who: string, what: string)
    requires '>' !in who
    ensures ParseBody(when, " <" + who + "> " + what) == Some(Entry(PubMsg, when, who, what))
  {
    var rest := " <" + who + "> " + what;
    var body := rest[2..];
    assert body == who + ['>'] + (" " + what);
    IndexOfAfter(who, '>', " " + what);
    assert IndexOf(body, '>') == |who|;
    assert StartsWith(rest, " <");
    assert body[..|who|] == who && body[|who|..] == "> " + what;
    assert StartsWith(body[|who|..], "> ");
    assert body[|who| + 2..] == what;
  }

  lemma ParseActionBody(when: string, who: string, what: string)
    requires ' ' !in who
    ensures ParseBody(when, " \t* " + who + " " + what) == Some(Entry(CtcpAction, when, who, what))
  {
    var rest := " \t* " + who + " " + what;
    assert rest[1] == '\t';
    var body := rest[4..];
    assert body == who + " " + what;
    IndexOfAfter(who, ' ', what);
    assert body[..|who|] == who && body[|who| + 1..] == what;
  }

  /** An event line is read back as the event that was written. */
  lemma ParseFormatEvent(kind: EventKind, when: string, who: string, what: string)
    requires Readable(when, who)
    ensures ParseEvent(FormatEvent(kind, when, who, what)) == Some(Entry(kind, when, who, what))
  {
    var rest := if kind == PubMsg then " <" + who + "> " + what else " \t* " + who + " " + what;
    FormatEventStamp(kind, when, who, what);
    ParseStamp(when, rest);
    if kind == PubMsg {
      ParsePubMsgBody(when, who, what);
    } else {
      ParseActionBody(when, who, what);
    }
  }

  lemma FormatEventStamp(kind: EventKind, when: string, who: string, what: string)
    ensures FormatEvent(kind, when, who, what) ==
      "[" + when + "]" + (if kind == PubMsg then " <" + who + "> " + what else " \t* " + who + " " + what)
  {
  }

  /** The recorder's own marker lines are never taken for events. */
  lemma MarkersAreNotEvents(now: string)
    ensures ParseEvent(StartMarker(now)) == None
    ensures ParseEvent(StopMarker(now)) == None
  {
    assert StartMarker(now)[0] == '-';
    assert StopMarker(now)[0] == '-';
  }

  /** On one day, distinct channels are logged to distinct files. */
  lemma LogFileNameInjective(today: string, c: string, d: string)
    requires LogFileName(today, c) == LogFileName(today, d)
    ensures c == d
  {
    var f := LogFileName(today, c);
    var k := |"/tmp/" + today + "-"|;
    assert f[k..|f| - 4] == c;
    assert LogFileName(today, d)[k..|f| - 4] == d;
  }
}
