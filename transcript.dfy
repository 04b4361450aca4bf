/** The per-day transcript written after a successful exchange: the file name
    built from the day part of an ISO timestamp, and the two-line entry. The
    parsers here are reference readers of that format, used to state what a
    written entry preserves. */
module Transcript {
  import opened Options
  import opened JsStrings
  import opened Messages

  const HistoryPrefix := "chat_history_"
  const HistorySuffix := ".txt"

  /** `chat_history_${iso.split('T')[0]}.txt` */
  function HistoryFileName(isoStamp: string): (name: string)
  {
    HistoryPrefix + Before(isoStamp, 'T') + HistorySuffix
  }

  /** Reads the day back out of a history file name. */
  function DayOfFileName(name: string): (day: Option<string>)
  {
    if |name| >= |HistoryPrefix| + |HistorySuffix|
      && name[..|HistoryPrefix|] == HistoryPrefix
      && name[|name| - |HistorySuffix|..] == HistorySuffix
    then Some(name[|HistoryPrefix|..|name| - |HistorySuffix|])
    else None
  }

  /** For an ISO-8601 stamp `day + "T" + time` the file is named after `day`. */
  lemma HistoryFileNameOfIso(day: string, time: string)
    requires 'T' !in day
    ensures HistoryFileName(day + "T" + time) == HistoryPrefix + day + HistorySuffix
  {
    BeforeFirstSeparator(day, 'T', time);
  }

  /** The day is recoverable from every file name the logger builds. */
  lemma DayOfHistoryFileName(isoStamp: string)
    ensures DayOfFileName(HistoryFileName(isoStamp)) == Some(Before(isoStamp, 'T'))
  {
    var day := Before(isoStamp, 'T');
    var name := HistoryFileName(isoStamp);
    assert name[..|HistoryPrefix|] == HistoryPrefix;
    assert name[|name| - |HistorySuffix|..] == HistorySuffix;
    assert name[|HistoryPrefix|..|name| - |HistorySuffix|] == day;
  }

  /** One transcript line: `[${stamp}] ${role}: ${text}`. */
  function LogLine(stamp: string, role: Role, text: string): string
  {
    "[" + stamp + "] " + RoleName(role) + ": " + text
  }

  /** The entry written for one exchange: a leading newline, the user line,
      the assistant line, each followed by a newline. */
  function LogEntry(userStamp: string, prompt: string, assistantStamp: string, reply: string): string
  {
    "\n" + LogLine(userStamp, User, prompt) + "\n" + LogLine(assistantStamp, Assistant, reply) + "\n"
  }

  datatype LogRecord = LogRecord(stamp: string, role: Role, text: string)

  /** What follows the stamp of a line of the given role. */
  function RoleTag(role: Role): string
  {
    "] " + RoleName(role) + ": "
  }

  predicate StartsWith(s: string, prefix: string)
  {
    |prefix| <= |s| && s[..|prefix|] == prefix
  }

  /** Reads one transcript line: the stamp runs to the first `]`. */
  function ParseLogLine(line: string): (r: Option<LogRecord>)
  {
    if line == [] || line[0] != '[' then None
    else
      var stamp := Before(line[1..], ']');
      ParseTagged(stamp, line[1 + |stamp|..])
  }

  /** Reads the role tag and the text that follow a line's stamp. */
  function ParseTagged(stamp: string, rest: string): (r: Option<LogRecord>)
  {
    if StartsWith(rest, RoleTag(User)) then
      Some(LogRecord(stamp, User, rest[|RoleTag(User)|..]))
    else if StartsWith(rest, RoleTag(Assistant)) then
      Some(LogRecord(stamp, Assistant, rest[|RoleTag(Assistant)|..]))
    else
      None
  }

  /** A line is its opening bracket, its stamp, and the role tag before the text. */
  lemma LogLineShape(stamp: string, role: Role, text: string)
    ensures LogLine(stamp, role, text) == ['['] + (stamp + (RoleTag(role) + text))
  {
  }

  /** A line written with a stamp free of `]` reads back as what was written. */
  lemma ParseLogLineRoundTrip(stamp: string, role: Role, text: string)
    requires ']' !in stamp
    ensures ParseLogLine(LogLine(stamp, role, text)) == Some(LogRecord(stamp, role, text))
  {
    var tag := RoleTag(role);
    LogLineParts(stamp, role, text);
    BeforeFirstSeparator(stamp, ']', tag[1..] + text);
    ParseTaggedRoundTrip(stamp, role, text);
  }

  /** The role tag decides the role, and the text is what follows it. */
  lemma ParseTaggedRoundTrip(stamp: string, role: Role, text: string)
    ensures ParseTagged(stamp, RoleTag(role) + text) == Some(LogRecord(stamp, role, text))
  {
    var rest := RoleTag(role) + text;
    assert rest[..|RoleTag(role)|] == RoleTag(role);
    if role == Assistant {
      assert rest[2] == 'a';
    }
  }

  /** Whatever `ParseTagged` accepts is a role tag followed by the text. */
  lemma ParseTaggedSound(stamp: string, rest: string)
    requires ParseTagged(stamp, rest).Some?
    ensures var r := ParseTagged(stamp, rest).value;
      r.stamp == stamp && rest == RoleTag(r.role) + r.text
  {
    var r := ParseTagged(stamp, rest).value;
    assert rest == rest[..|RoleTag(r.role)|] + rest[|RoleTag(r.role)|..];
  }

  /** Where the stamp and the tag sit in a line. */
  lemma LogLineParts(stamp: string, role: Role, text: string)
    ensures var line := LogLine(stamp, role, text);
      && line != [] && line[0] == '['
      && line[1..] == stamp + [']'] + (RoleTag(role)[1..] + text)
      && line[1 + |stamp|..] == RoleTag(role) + text
  {
    LogLineShape(stamp, role, text);
    BracketedParts(stamp, RoleTag(role), text);
  }

  /** The same positions for any tag that opens with `]`. */
  lemma BracketedParts(stamp: string, tag: string, text: string)
    requires tag != [] && tag[0] == ']'
    ensures var line := ['['] + (stamp + (tag + text));
      && line[1..] == stamp + [']'] + (tag[1..] + text)
      && line[1 + |stamp|..] == tag + text
  {
    assert tag == [']'] + tag[1..];
  }

  /** Conversely, every line the reader accepts is exactly the line written
      from what it read. */
  lemma ParseLogLineSound(line: string)
    requires ParseLogLine(line).Some?
    ensures var r := ParseLogLine(line).value;
      ']' !in r.stamp && line == LogLine(r.stamp, r.role, r.text)
  {
    var r := ParseLogLine(line).value;
    BeforeSpec(line[1..], ']');
    ParsedLineFields(line);
    LogLineShape(r.stamp, r.role, r.text);
  }

  /** What the reader found: the stamp up to the first `]`, then the tag of
      the role it returns, then the text. */
  lemma ParsedLineFields(line: string)
    requires ParseLogLine(line).Some?
    ensures var r := ParseLogLine(line).value;
      line == ['['] + (r.stamp + (RoleTag(r.role) + r.text))
  {
    var stamp := Before(line[1..], ']');
    var rest := line[1 + |stamp|..];
    ParseTaggedSound(stamp, rest);
    BeforeSpec(line[1..], ']');
    SplitAfterStamp(line, stamp);
  }

  /** A string is its first character, a prefix of the remainder, and what
      follows that prefix. */
  lemma SplitAfterStamp(line: string, stamp: string)
    requires line != [] && stamp <= line[1..]
    ensures line == [line[0]] + (stamp + line[1 + |stamp|..])
  {
    assert line[1..] == stamp + line[1 + |stamp|..];
    assert line == [line[0]] + line[1..];
  }

  /** `s.split('\n')`. */
  function Lines(s: string): (r: seq<string>)
    ensures |r| >= 1
    decreases |s|
  {
    var head := Before(s, '\n');
    if |head| == |s| then [s] else [head] + Lines(s[|head| + 1..])
  }

  /** Splitting at the first newline. */
  lemma LinesCons(head: string, tail: string)
    requires '\n' !in head
    ensures Lines(head + "\n" + tail) == [head] + Lines(tail)
  {
    BeforeFirstSeparator(head, '\n', tail);
    assert (head + "\n" + tail)[|head| + 1..] == tail;
  }

  /** A string without a newline is a single line. */
  lemma LinesSingle(s: string)
    requires '\n' !in s
    ensures Lines(s) == [s]
  {
    BeforeWithoutSeparator(s, '\n');
  }

  /** Reads an entry back into its user record and its assistant record. */
  function ParseLogEntry(entry: string): (r: Option<(LogRecord, LogRecord)>)
  {
    var lines := Lines(entry);
    if |lines| != 4 || lines[0] != "" || lines[3] != "" then None
    else
      match (ParseLogLine(lines[1]), ParseLogLine(lines[2]))
      case (Some(u), Some(a)) =>
        if u.role == User && a.role == Assistant then Some((u, a)) else None
      case _ => None
  }

  /** A line of single-line parts is single-line. */
  lemma LogLineSingleLine(stamp: string, role: Role, text: string)
    requires '\n' !in stamp && '\n' !in text
    ensures '\n' !in LogLine(stamp, role, text)
  {
    LogLineShape(stamp, role, text);
    assert '\n' !in RoleTag(role);
  }

  /** An entry is exactly two lines between newlines when the prompt, the
      reply and the stamps are single-line. */
  lemma LogEntryLines(userStamp: string, prompt: string, assistantStamp: string, reply: string)
    requires '\n' !in userStamp && '\n' !in prompt && '\n' !in assistantStamp && '\n' !in reply
    ensures Lines(LogEntry(userStamp, prompt, assistantStamp, reply)) ==
      ["", LogLine(userStamp, User, prompt), LogLine(assistantStamp, Assistant, reply), ""]
  {
    LogLineSingleLine(userStamp, User, prompt);
    LogLineSingleLine(assistantStamp, Assistant, reply);
    LinesOfTwoFramed(LogLine(userStamp, User, prompt), LogLine(assistantStamp, Assistant, reply));
  }

  /** Two single-line strings framed by newlines split into four lines. */
  lemma LinesOfTwoFramed(u: string, a: string)
    requires '\n' !in u && '\n' !in a
    ensures Lines("\n" + u + "\n" + a + "\n") == ["", u, a, ""]
  {
    var tail := a + "\n";
    var body := u + "\n" + tail;
    assert Lines(tail) == [a, ""] by {
      LinesTrailingNewline(a);
    }
    assert Lines(body) == [u, a, ""] by {
      LinesCons(u, tail);
    }
    assert Lines("\n" + body) == ["", u, a, ""] by {
      LinesLeadingNewline(body);
    }
    FramedAsNested(u, a);
  }

  /** Regrouping of the framed form, kept apart to keep the proof above small. */
  lemma FramedAsNested(u: string, a: string)
    ensures "\n" + u + "\n" + a + "\n" == "\n" + (u + "\n" + (a + "\n"))
  {
  }

  /** A leading newline splits off an empty first line. */
  lemma LinesLeadingNewline(tail: string)
    ensures Lines("\n" + tail) == [""] + Lines(tail)
  {
    assert ("\n" + tail)[1..] == tail;
  }

  /** A single line ended by a newline is that line and an empty one. */
  lemma LinesTrailingNewline(a: string)
    requires '\n' !in a
    ensures Lines(a + "\n") == [a, ""]
  {
    BeforeFirstSeparator(a, '\n', "");
    assert a + "\n" == a + ['\n'] + "";
    assert (a + "\n")[|a| + 1..] == "";
  }

  /** A single-line exchange with ISO-like stamps reads back from its entry:
      the user line carries the prompt, the assistant line the reply. */
  lemma LogEntryRoundTrip(userStamp: string, prompt: string, assistantStamp: string, reply: string)
    requires '\n' !in userStamp && '\n' !in prompt && '\n' !in assistantStamp && '\n' !in reply
    requires ']' !in userStamp && ']' !in assistantStamp
    ensures ParseLogEntry(LogEntry(userStamp, prompt, assistantStamp, reply)) ==
      Some((LogRecord(userStamp, User, prompt), LogRecord(assistantStamp, Assistant, reply)))
  {
    LogEntryLines(userStamp, prompt, assistantStamp, reply);
    ParseLogLineRoundTrip(userStamp, User, prompt);
    ParseLogLineRoundTrip(assistantStamp, Assistant, reply);
  }
}
