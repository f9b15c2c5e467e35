/**
 * The texts of the three kinds of notification message — the launch-error
 * report, the summary, and one message per captured stream — and, for each,
 * a reader that takes the text apart again. The round-trip lemmas show that
 * every field a message carries can be read back exactly, so escaped
 * command output and arguments never change the message's structure.
 */
module Messages {
  import opened Wrappers
  import opened Text
  import opened Html
  import opened Decimal

  /** A bold title, as in `<strong>Command:</strong> `. */
  function Strong(title: string): string {
    "<strong>" + title + ":</strong> "
  }

  /** The `--id` title in front of every report. It is inserted as given, without escaping. */
  function Prefix(id: string): string {
    if id == "" then "" else Strong(id)
  }

  function Verdict(status: int): string {
    if status == 0 then "Success\n\n" else "Failure\n\n"
  }

  /** The summary's command line, with the quoted arguments in a code span. */
  function CodeLine(command: string): string {
    "<strong>Command:</strong> <code>" + (Escape(command) + "</code>\n")
  }

  /** A labelled line holding an escaped value. */
  function FieldLine(title: string, value: string): string {
    Strong(title) + (Escape(value) + "\n")
  }

  function ExitLine(status: int): string {
    Strong("Exit status") + (FormatInt(status) + "\n")
  }

  /** The list of dumped streams; absent when there is none. */
  function StreamsLine(names: seq<string>): string {
    if names == [] then "" else Strong("Streams") + (Join(names, ", ") + "\n")
  }

  /** A preformatted block: an unescaped marker followed by the escaped body. */
  function PreBlock(marker: string, body: string): string {
    "<pre>" + (marker + (Escape(body) + "</pre>"))
  }

  /** The single message sent when the command could not be run. */
  function LaunchErrorText(id: string, command: string, elapsed: string, error: string): string {
    Prefix(id) + ("Command error\n\n" + (FieldLine("Command", command) + (FieldLine("Elapsed time", elapsed) + PreBlock("", error))))
  }

  /** The summary message, sent first when the command ran. */
  function SummaryText(id: string, status: int, command: string, elapsed: string, names: seq<string>): string {
    Prefix(id) + (Verdict(status) + (CodeLine(command) + (FieldLine("Elapsed time", elapsed) + (ExitLine(status) + StreamsLine(names)))))
  }

  /** The part of a stream that fits: its last `limit` bytes when it is longer. */
  function Window(data: Bytes, limit: int): (r: Bytes)
    requires limit >= 0
    ensures |r| == if |data| > limit then limit else |data|
    ensures data[|data| - |r|..] == r
  {
    if |data| > limit then data[|data| - limit..] else data
  }

  const Ellipsis := "..."

  /** The message dumping one stream, marked with "..." when it was cut. */
  function StreamText(name: string, data: Bytes, limit: int): string
    requires limit >= 0
  {
    "<strong>" + (name + (":</strong>\n" + PreBlock(if |data| > limit then Ellipsis else "", AsText(Window(data, limit)))))
  }

  // ---------------------------------------------------------------------
  // Readers

  datatype Summary = Summary(succeeded: bool, command: string, elapsed: string, status: int, streams: Option<string>)

  datatype LaunchReport = LaunchReport(command: string, elapsed: string, error: string)

  datatype StreamReport = StreamReport(name: string, body: string)

  function ReadVerdict(s: string): Option<(bool, string)> {
    match Expect("Success\n\n", s)
    case Some(rest) => Some((true, rest))
    case None =>
      match Expect("Failure\n\n", s)
      case Some(rest) => Some((false, rest))
      case None => None
  }

  function ReadCode(s: string): Option<(string, string)> {
    var rest :- Expect("<strong>Command:</strong> <code>", s);
    var (escaped, after) := Until('<', rest);
    var rest' :- Expect("</code>\n", after);
    Some((Unescape(escaped), rest'))
  }

  function ReadField(title: string, s: string): Option<(string, string)> {
    var rest :- Expect(Strong(title), s);
    var (chunk, after) := Until('<', rest);
    if chunk == "" || chunk[|chunk| - 1] != '\n' then None
    else Some((Unescape(chunk[..|chunk| - 1]), after))
  }

  function ReadExit(s: string): Option<(int, string)> {
    var rest :- Expect(Strong("Exit status"), s);
    var (digits, after) := Until('\n', rest);
    var status :- ParseInt(digits);
    var rest' :- Expect("\n", after);
    Some((status, rest'))
  }

  function ReadStreams(s: string): Option<Option<string>> {
    if s == "" then Some(None)
    else
      var rest :- Expect(Strong("Streams"), s);
      if rest == "" || rest[|rest| - 1] != '\n' then None
      else Some(Some(rest[..|rest| - 1]))
  }

  /** A preformatted block that ends the text; yields its unescaped content. */
  function ReadBlock(s: string): Option<string> {
    var rest :- Expect("<pre>", s);
    var (chunk, after) := Until('<', rest);
    if after != "</pre>" then None else Some(Unescape(chunk))
  }

  function ParseSummary(id: string, text: string): Option<Summary> {
    var afterId :- Expect(Prefix(id), text);
    var verdict :- ReadVerdict(afterId);
    var command :- ReadCode(verdict.1);
    var elapsed :- ReadField("Elapsed time", command.1);
    var exit :- ReadExit(elapsed.1);
    var streams :- ReadStreams(exit.1);
    Some(Summary(verdict.0, command.0, elapsed.0, exit.0, streams))
  }

  function ParseLaunchError(id: string, text: string): Option<LaunchReport> {
    var afterId :- Expect(Prefix(id), text);
    var afterTitle :- Expect("Command error\n\n", afterId);
    var command :- ReadField("Command", afterTitle);
    var elapsed :- ReadField("Elapsed time", command.1);
    var error :- ReadBlock(elapsed.1);
    Some(LaunchReport(command.0, elapsed.0, error))
  }

  function ParseStream(text: string): Option<StreamReport> {
    var afterOpen :- Expect("<strong>", text);
    var (name, after) := Until(':', afterOpen);
    var block :- Expect(":</strong>\n", after);
    var body :- ReadBlock(block);
    Some(StreamReport(name, body))
  }

  // ---------------------------------------------------------------------
  // Round trips

  lemma ReadVerdictRoundTrip(status: int, rest: string)
    ensures ReadVerdict(Verdict(status) + rest) == Some((status == 0, rest))
  {
    var s := Verdict(status) + rest;
    ExpectLiteral(Verdict(status), rest);
    if status != 0 {
      assert s[..9][0] == 'F';
    }
  }

  lemma ReadCodeRoundTrip(command: string, rest: string)
    ensures ReadCode(CodeLine(command) + rest) == Some((command, rest))
  {
    var open, escaped, close := "<strong>Command:</strong> <code>", Escape(command), "</code>\n";
    assert CodeLine(command) + rest == open + (escaped + (close + rest));
    ExpectLiteral(open, escaped + (close + rest));
    UntilSplits('<', escaped, close + rest);
    ExpectLiteral(close, rest);
  }

  lemma ReadFieldRoundTrip(title: string, value: string, rest: string)
    requires rest == "" || rest[0] == '<'
    ensures ReadField(title, FieldLine(title, value) + rest) == Some((value, rest))
  {
    var chunk := Escape(value) + "\n";
    assert FieldLine(title, value) + rest == Strong(title) + (chunk + rest);
    ExpectLiteral(Strong(title), chunk + rest);
    UntilSplits('<', chunk, rest);
    assert chunk[..|chunk| - 1] == Escape(value);
  }

  lemma ReadExitRoundTrip(status: int, rest: string)
    ensures ReadExit(ExitLine(status) + rest) == Some((status, rest))
  {
    var digits := FormatInt(status);
    assert ExitLine(status) + rest == Strong("Exit status") + (digits + ("\n" + rest));
    ExpectLiteral(Strong("Exit status"), digits + ("\n" + rest));
    UntilSplits('\n', digits, "\n" + rest);
    ExpectLiteral("\n", rest);
  }

  lemma ReadStreamsRoundTrip(names: seq<string>)
    ensures ReadStreams(StreamsLine(names)) == Some(if names == [] then None else Some(Join(names, ", ")))
  {
    if names != [] {
      var line := Join(names, ", ") + "\n";
      ExpectLiteral(Strong("Streams"), line);
      assert line[..|line| - 1] == Join(names, ", ");
    }
  }

  lemma ReadBlockRoundTrip(marker: string, body: string)
    requires forall i :: 0 <= i < |marker| ==> marker[i] != '<' && marker[i] != '&'
    ensures ReadBlock(PreBlock(marker, body)) == Some(marker + body)
  {
    var chunk := marker + Escape(body);
    assert PreBlock(marker, body) == "<pre>" + (chunk + "</pre>");
    ExpectLiteral("<pre>", chunk + "</pre>");
    UntilSplits('<', chunk, "</pre>");
    UnescapePlain(marker, Escape(body));
  }

  /**
   * The summary can be read back: whether it reports success (exactly when
   * the status is 0), the command, the elapsed time, the exit status, and
   * the streams line, present exactly when some stream is dumped.
   */
  lemma SummaryRoundTrip(id: string, status: int, command: string, elapsed: string, names: seq<string>)
    ensures ParseSummary(id, SummaryText(id, status, command, elapsed, names))
            == Some(Summary(status == 0, command, elapsed, status,
                            if names == [] then None else Some(Join(names, ", "))))
  {
    var exit := ExitLine(status) + StreamsLine(names);
    var field := FieldLine("Elapsed time", elapsed) + exit;
    var code := CodeLine(command) + field;
    var verdict := Verdict(status) + code;
    ExpectLiteral(Prefix(id), verdict);
    ReadVerdictRoundTrip(status, code);
    ReadCodeRoundTrip(command, field);
    assert exit[0] == '<';
    ReadFieldRoundTrip("Elapsed time", elapsed, exit);
    ReadExitRoundTrip(status, StreamsLine(names));
    ReadStreamsRoundTrip(names);
  }

  /** The launch-error report can be read back: command, elapsed time and error text. */
  lemma LaunchErrorRoundTrip(id: string, command: string, elapsed: string, error: string)
    ensures ParseLaunchError(id, LaunchErrorText(id, command, elapsed, error))
            == Some(LaunchReport(command, elapsed, error))
  {
    var block := PreBlock("", error);
    var field := FieldLine("Elapsed time", elapsed) + block;
    var commandLine := FieldLine("Command", command) + field;
    var afterId := "Command error\n\n" + commandLine;
    ExpectLiteral(Prefix(id), afterId);
    ExpectLiteral("Command error\n\n", commandLine);
    assert field[0] == '<';
    ReadFieldRoundTrip("Command", command, field);
    assert block[0] == '<';
    ReadFieldRoundTrip("Elapsed time", elapsed, block);
    ReadBlockRoundTrip("", error);
    assert "" + error == error;
  }

  /**
   * A stream message reads back as its name and a body that is the whole
   * stream when it fits in `limit` bytes, and otherwise "..." followed by
   * exactly the stream's last `limit` bytes.
   */
  lemma StreamRoundTrip(name: string, data: Bytes, limit: int)
    requires limit >= 0
    requires ':' !in name
    ensures ParseStream(StreamText(name, data, limit))
            == Some(StreamReport(name, if |data| > limit then Ellipsis + AsText(data[|data| - limit..])
                                       else AsText(data)))
  {
    var marker := if |data| > limit then Ellipsis else "";
    var block := PreBlock(marker, AsText(Window(data, limit)));
    var heading := ":</strong>\n" + block;
    ExpectLiteral("<strong>", name + heading);
    UntilSplits(':', name, heading);
    ExpectLiteral(":</strong>\n", block);
    ReadBlockRoundTrip(marker, AsText(Window(data, limit)));
    assert "" + AsText(data) == AsText(data);
  }
}
