/**
 * The program's decisions (the body of `main`): whether to notify, what
 * the messages say, and how the run ends. Flag parsing, environment
 * lookup, clocks, logging and the network are inputs; a run is the list of
 * send requests made and how the process terminated.
 */
module Notify {
  import opened Wrappers
  import opened Text
  import opened Errors
  import opened Runner
  import opened Telegram
  import opened Messages
  import opened Delivery

  /** The `--id`, `--success` and `--limit` flags. */
  datatype Config = Config(id: string, onSuccess: bool, limit: int)

  /** `TELEGRAM_NOTIFY_TOKEN` and `TELEGRAM_NOTIFY_CHAT_ID`, when set. */
  datatype Env = Env(token: Option<string>, chatId: Option<string>)

  /** A captured stream with its name; pairing them keeps name and bytes aligned. */
  datatype Stream = Stream(name: string, data: Bytes)

  /**
   * What a run did: whether it went on to notify (reading the environment),
   * the bot name it logged, the send requests it made in order, and how it ended.
   */
  datatype Run = Run(notifying: bool, sender: Option<string>, sends: seq<SendRequest>, end: Termination)

  /** The bot API seen from main: the reply to the `k`-th message send (0 is the first), given its form. */
  type Transport = (nat, Form) -> Reply<SentMessage>

  /** Sends `req` to `chatId` as the `k`-th message. */
  function Deliver(chatId: string, req: SendRequest, k: nat, transport: Transport): Result<int, Error> {
    SendMessage(chatId, req.text, req.silent, req.replyTo, f => transport(k, f))
  }

  function Outbox(chatId: string, transport: Transport): Sender {
    (k: nat, req: SendRequest) => Deliver(chatId, req, k, transport)
  }

  predicate ShouldNotify(cmd: CommandResult, onSuccess: bool) {
    !(cmd.err.None? && cmd.status == 0 && !onSuccess)
  }

  /** stdout then stderr, each only when the command wrote something to it. */
  function Streams(stdout: Bytes, stderr: Bytes): (r: seq<Stream>)
    ensures |r| == (if |stdout| > 0 then 1 else 0) + (if |stderr| > 0 then 1 else 0)
    ensures forall i :: 0 <= i < |r| ==> |r[i].data| > 0
    ensures forall i :: 0 <= i < |r| ==> r[i] == Stream("stdout", stdout) || r[i] == Stream("stderr", stderr)
    ensures |stdout| > 0 ==> r[0] == Stream("stdout", stdout)
    ensures |stderr| > 0 ==> r[|r| - 1] == Stream("stderr", stderr)
  {
    (if |stdout| > 0 then [Stream("stdout", stdout)] else [])
      + (if |stderr| > 0 then [Stream("stderr", stderr)] else [])
  }

  function Names(streams: seq<Stream>): (r: seq<string>)
    ensures |r| == |streams|
    ensures forall i :: 0 <= i < |r| ==> r[i] == streams[i].name
  {
    seq(|streams|, i requires 0 <= i < |streams| => streams[i].name)
  }

  /** The streams line can only list "stdout", "stderr", or both in that order. */
  lemma StreamsLineNames(stdout: Bytes, stderr: Bytes)
    ensures var names := Names(Streams(stdout, stderr));
            && (|stdout| > 0 && |stderr| > 0 ==> Join(names, ", ") == "stdout, stderr")
            && (|stdout| > 0 && |stderr| == 0 ==> Join(names, ", ") == "stdout")
            && (|stdout| == 0 && |stderr| > 0 ==> Join(names, ", ") == "stderr")
            && (|stdout| == 0 && |stderr| == 0 ==> names == [])
  {
    var names := Names(Streams(stdout, stderr));
    if |stdout| > 0 && |stderr| > 0 {
      assert names == ["stdout", "stderr"];
      assert names[1..] == ["stderr"];
    } else if |stdout| > 0 {
      assert names == ["stdout"];
    } else if |stderr| > 0 {
      assert names == ["stderr"];
    }
  }

  /**
   * The dump of each stream, in order; `None` when the limit is negative,
   * where slicing the first stream at `len - limit` is past its end and panics.
   */
  function Dumps(streams: seq<Stream>, limit: int): (r: Option<seq<string>>)
    ensures r.None? <==> limit < 0 && |streams| > 0
    ensures r.Some? ==> |r.value| == |streams|
    ensures r.Some? ==> forall i :: 0 <= i < |streams| ==>
              limit >= 0 && r.value[i] == StreamText(streams[i].name, streams[i].data, limit)
  {
    if streams == [] then Some([])
    else if limit < 0 then None
    else Some(seq(|streams|, i requires 0 <= i < |streams| => StreamText(streams[i].name, streams[i].data, limit)))
  }

  function SummaryOf(cfg: Config, cmd: CommandResult, quoted: string, elapsed: string): string {
    SummaryText(cfg.id, cmd.status, quoted, elapsed, Names(Streams(cmd.stdout, cmd.stderr)))
  }

  /** The single message about a launch failure, after which the run always fails. */
  function ReportLaunchError(cfg: Config, sender: string, quoted: string, elapsed: string,
                             cause: Error, send: Sender): (r: Run)
    ensures r.notifying && r.sender == Some(sender)
    ensures |r.sends| == 1 && !r.sends[0].silent && r.sends[0].replyTo == NoReply
    ensures r.end.Fatal?
  {
    var req := SendRequest(LaunchErrorText(cfg.id, quoted, elapsed, Message(cause)), false, NoReply);
    var end := match send(0, req)
      case Failure(e) => Fatal(Message(e))
      case Success(_) => Fatal("error: failed to run program: " + quoted + ": " + Message(cause));
    Run(true, Some(sender), [req], end)
  }

  /** The summary, then each stream as a reply to it, then exit with the command's status. */
  function ReportRun(cfg: Config, sender: string, quoted: string, elapsed: string,
                     cmd: CommandResult, send: Sender): (r: Run)
    ensures r.notifying && r.sender == Some(sender)
    ensures 1 <= |r.sends| <= 1 + |Streams(cmd.stdout, cmd.stderr)|
    ensures r.end.Exit? ==> r.end.code == cmd.status && |r.sends| == 1 + |Streams(cmd.stdout, cmd.stderr)|
  {
    var silent := cfg.onSuccess && cmd.status == 0;
    var dumps := Dumps(Streams(cmd.stdout, cmd.stderr), cfg.limit);
    var summaryText := SummaryOf(cfg, cmd, quoted, elapsed);
    var d := Dispatch(summaryText, dumps, silent, cmd.status, send);
    SummaryGoesFirst(summaryText, dumps, silent, cmd.status, send);
    ExitOnlyWhenAllSent(summaryText, dumps, silent, cmd.status, send);
    Run(true, Some(sender), d.sent, d.end)
  }

  /** Everything after the command ran: `cmd` is runCommand's result. */
  function Report(cfg: Config, quoted: string, elapsed: string, cmd: CommandResult, env: Env,
                  identity: Reply<User>, transport: Transport): (r: Run)
    ensures r.notifying <==> cmd.err.Some? || cmd.status != 0 || cfg.onSuccess
    ensures !r.notifying ==> r.sends == [] && r.sender == None && r.end == Exit(0)
    ensures r.notifying && !Connected(env, identity) ==> r.sends == [] && r.sender == None && r.end.Fatal?
    ensures r.sends != [] ==> Connected(env, identity) && r.sender.Some?
    ensures r.end.Exit? ==> r.end.code == cmd.status
    ensures cmd.err.Some? ==> r.end.Fatal?
  {
    if !ShouldNotify(cmd, cfg.onSuccess) then Run(false, None, [], Exit(0))
    else if env.token.None? then Run(true, None, [], Fatal("error: telegram token not defined"))
    else if env.chatId.None? then Run(true, None, [], Fatal("error: telegram chat id not defined"))
    else
      match NewTelegram(env.token.value, identity)
      case Failure(e) => Run(true, None, [], Fatal(Message(e)))
      case Success(bot) =>
        var send := Outbox(env.chatId.value, transport);
        if cmd.err.Some? then ReportLaunchError(cfg, bot.userName, quoted, elapsed, cmd.err.value, send)
        else ReportRun(cfg, bot.userName, quoted, elapsed, cmd, send)
  }

  /**
   * One run of the program with positional arguments `args`. `quoted` is
   * their `%q` rendering, `elapsed` the running time as text, `child` the
   * outcome of running them, `identity` the reply to getMe.
   */
  function Invoke(cfg: Config, args: seq<string>, quoted: string, elapsed: string, child: ChildOutcome,
                  env: Env, identity: Reply<User>, transport: Transport): (r: Run)
    ensures |args| == 0 ==> r == Run(false, None, [], Exit(0))
    ensures r.sends != [] ==> |args| > 0 && Connected(env, identity)
    ensures r.end.Exit? ==> r.end.code == RunCommand(args, child).status
  {
    if |args| == 0 then Run(false, None, [], Exit(0))
    else Report(cfg, quoted, elapsed, RunCommand(args, child), env, identity, transport)
  }

  // ---------------------------------------------------------------------
  // Properties of a run

  /** The conditions under which the program gets as far as sending. */
  predicate Connected(env: Env, identity: Reply<User>) {
    env.token.Some? && env.chatId.Some? && NewTelegram(env.token.value, identity).Success?
  }

  /**
   * With both variables set and a bot identity, the program logs the bot's
   * name and reports through the bot API at the configured chat: the launch
   * error when the command could not be run, the run otherwise.
   */
  lemma ConnectedRunReports(cfg: Config, quoted: string, elapsed: string, cmd: CommandResult, env: Env,
                            identity: Reply<User>, transport: Transport)
    requires ShouldNotify(cmd, cfg.onSuccess) && Connected(env, identity)
    ensures var r := Report(cfg, quoted, elapsed, cmd, env, identity, transport);
            var bot := NewTelegram(env.token.value, identity).value;
            var send := Outbox(env.chatId.value, transport);
            && bot.token == env.token.value
            && r.sender == Some(bot.userName) && bot.userName != ""
            && (cmd.err.Some? ==> r == ReportLaunchError(cfg, bot.userName, quoted, elapsed, cmd.err.value, send))
            && (cmd.err.None? ==> r == ReportRun(cfg, bot.userName, quoted, elapsed, cmd, send))
  {
  }

  /**
   * A launch failure is reported in one audible, reply-less message that
   * reads back as the command, the elapsed time and the error, and no stream
   * is dumped; the run then fails whether or not that message went out.
   */
  lemma LaunchErrorSendsOneMessage(cfg: Config, sender: string, quoted: string, elapsed: string, cause: Error,
                                   send: Sender)
    ensures var r := ReportLaunchError(cfg, sender, quoted, elapsed, cause, send);
            var delivered := send(0, r.sends[0]);
            && |r.sends| == 1
            && !r.sends[0].silent && r.sends[0].replyTo == NoReply
            && ParseLaunchError(cfg.id, r.sends[0].text) == Some(LaunchReport(quoted, elapsed, Message(cause)))
            && r.end.Fatal?
            && (delivered.Failure? ==> r.end == Fatal(Message(delivered.error)))
            && (delivered.Success? ==> r.end == Fatal("error: failed to run program: " + quoted + ": " + Message(cause)))
  {
    LaunchErrorRoundTrip(cfg.id, quoted, elapsed, Message(cause));
  }

  /**
   * The run's first message is its summary. It reads back as success exactly
   * when the status is 0, with the quoted command, the elapsed time, the
   * exit status, and a streams line naming the dumped streams, absent when
   * none is.
   */
  lemma SummaryDescribesRun(cfg: Config, sender: string, quoted: string, elapsed: string, cmd: CommandResult,
                            send: Sender)
    ensures var r := ReportRun(cfg, sender, quoted, elapsed, cmd, send);
            var names := Names(Streams(cmd.stdout, cmd.stderr));
            ParseSummary(cfg.id, r.sends[0].text)
            == Some(Messages.Summary(cmd.status == 0, quoted, elapsed, cmd.status,
                                     if names == [] then None else Some(Join(names, ", "))))
  {
    var names := Names(Streams(cmd.stdout, cmd.stderr));
    var silent := cfg.onSuccess && cmd.status == 0;
    var dumps := Dumps(Streams(cmd.stdout, cmd.stderr), cfg.limit);
    SummaryGoesFirst(SummaryOf(cfg, cmd, quoted, elapsed), dumps, silent, cmd.status, send);
    SummaryRoundTrip(cfg.id, cmd.status, quoted, elapsed, names);
  }

  /**
   * Every message of a run is silent exactly when the command succeeded and
   * `--success` is set, and the summary has no reply target.
   */
  lemma SilentExactlyOnQuietSuccess(cfg: Config, sender: string, quoted: string, elapsed: string,
                                    cmd: CommandResult, send: Sender)
    ensures var r := ReportRun(cfg, sender, quoted, elapsed, cmd, send);
            && (forall i :: 0 <= i < |r.sends| ==> (r.sends[i].silent <==> cfg.onSuccess && cmd.status == 0))
            && r.sends[0].replyTo == NoReply
  {
    var silent := cfg.onSuccess && cmd.status == 0;
    var dumps := Dumps(Streams(cmd.stdout, cmd.stderr), cfg.limit);
    AllEquallySilent(SummaryOf(cfg, cmd, quoted, elapsed), dumps, silent, cmd.status, send);
    SummaryGoesFirst(SummaryOf(cfg, cmd, quoted, elapsed), dumps, silent, cmd.status, send);
  }

  /** The stream names "stdout" and "stderr" hold no colon, which ends a name when a dump is read. */
  lemma StreamNamesPlain(stdout: Bytes, stderr: Bytes)
    ensures forall i :: 0 <= i < |Streams(stdout, stderr)| ==> ':' !in Streams(stdout, stderr)[i].name
  {
    var streams := Streams(stdout, stderr);
    forall i | 0 <= i < |streams|
      ensures ':' !in streams[i].name
    {
      if streams[i].name == "stdout" {
        assert forall j :: 0 <= j < 6 ==> "stdout"[j] != ':';
      } else {
        assert forall j :: 0 <= j < 6 ==> "stderr"[j] != ':';
      }
    }
  }

  /**
   * Each stream dump reads back as the stream's name and either the whole
   * stream or "..." and exactly its last `limit` bytes.
   */
  lemma DumpsReadBack(streams: seq<Stream>, limit: int)
    requires forall i :: 0 <= i < |streams| ==> ':' !in streams[i].name
    ensures var dumps := Dumps(streams, limit);
            dumps.Some? ==> forall i :: 0 <= i < |streams| ==>
              var data := streams[i].data;
              ParseStream(dumps.value[i])
              == Some(StreamReport(streams[i].name,
                                   if |data| > limit then Ellipsis + AsText(data[|data| - limit..]) else AsText(data)))
  {
    var dumps := Dumps(streams, limit);
    if dumps.Some? {
      forall i | 0 <= i < |streams|
        ensures ParseStream(dumps.value[i])
                == Some(StreamReport(streams[i].name,
                                     if |streams[i].data| > limit
                                     then Ellipsis + AsText(streams[i].data[|streams[i].data| - limit..])
                                     else AsText(streams[i].data)))
      {
        var text := dumps.value[i];
        assert text == StreamText(streams[i].name, streams[i].data, limit);
        StreamRoundTrip(streams[i].name, streams[i].data, limit);
      }
    }
  }

  /**
   * A message after the first is sent only once the summary was delivered;
   * message `i` is then the dump of stream `i - 1`, replying to the summary.
   */
  lemma DumpsReplyInOrder(cfg: Config, sender: string, quoted: string, elapsed: string, cmd: CommandResult,
                          send: Sender)
    ensures var r := ReportRun(cfg, sender, quoted, elapsed, cmd, send);
            var dumps := Dumps(Streams(cmd.stdout, cmd.stderr), cfg.limit);
            var summary := send(0, r.sends[0]);
            forall i :: 1 <= i < |r.sends| ==>
              && summary.Success?
              && dumps.Some?
              && r.sends[i].text == dumps.value[i - 1]
              && r.sends[i].replyTo == summary.value
  {
    var silent := cfg.onSuccess && cmd.status == 0;
    var dumps := Dumps(Streams(cmd.stdout, cmd.stderr), cfg.limit);
    var summaryText := SummaryOf(cfg, cmd, quoted, elapsed);
    var d := Dispatch(summaryText, dumps, silent, cmd.status, send);
    assert ReportRun(cfg, sender, quoted, elapsed, cmd, send).sends == d.sent;
    SummaryGoesFirst(summaryText, dumps, silent, cmd.status, send);
    if send(0, d.sent[0]).Success? {
      DumpsReplyToSummary(summaryText, dumps, silent, cmd.status, send);
    }
  }

  /** A negative limit panics on the first stream, after the summary was delivered. */
  lemma NegativeLimitPanics(cfg: Config, sender: string, quoted: string, elapsed: string, cmd: CommandResult,
                            send: Sender)
    ensures var r := ReportRun(cfg, sender, quoted, elapsed, cmd, send);
            && (r.end == Panic <==>
                  cfg.limit < 0 && |Streams(cmd.stdout, cmd.stderr)| > 0 && send(0, r.sends[0]).Success?)
            && (r.end == Panic ==> |r.sends| == 1)
  {
    var silent := cfg.onSuccess && cmd.status == 0;
    var dumps := Dumps(Streams(cmd.stdout, cmd.stderr), cfg.limit);
    UnformattableDumpPanics(SummaryOf(cfg, cmd, quoted, elapsed), dumps, silent, cmd.status, send);
  }

  /** Every bot reply accepts the message and gives it id `msgId`. */
  ghost predicate AlwaysAccepts(transport: Transport, msgId: int) {
    forall k, f :: transport(k, f) == Decoded(Envelope(true, "", SentMessage(msgId)))
  }

  /**
   * `false` exits 1 without output; without `--success` exactly one audible
   * summary is sent and the program exits 1.
   */
  lemma FailingCommandScenario(id: string, limit: int, quoted: string, elapsed: string, token: string,
                               chatId: string, identity: Reply<User>, transport: Transport, msgId: int)
    requires NewTelegram(token, identity).Success?
    requires AlwaysAccepts(transport, msgId)
    ensures var r := Invoke(Config(id, false, limit), ["false"], quoted, elapsed, ExitError(WaitStatus(1), [], []),
                            Env(Some(token), Some(chatId)), identity, transport);
            && |r.sends| == 1
            && !r.sends[0].silent
            && r.end == Exit(1)
  {
    var cmd := RunCommand(["false"], ExitError(WaitStatus(1), [], []));
    assert Streams(cmd.stdout, cmd.stderr) == [];
    assert Replies([], false, msgId) == [];
  }

  /**
   * `echo hi` with `--success`: a silent summary and one silent stdout dump
   * replying to it, then exit 0.
   */
  lemma EchoScenario(id: string, limit: int, quoted: string, elapsed: string, token: string, chatId: string,
                     identity: Reply<User>, transport: Transport, msgId: int, out: Bytes)
    requires NewTelegram(token, identity).Success?
    requires AlwaysAccepts(transport, msgId)
    requires limit >= 0 && |out| > 0
    ensures var r := Invoke(Config(id, true, limit), ["echo", "hi"], quoted, elapsed, Clean(out, []),
                            Env(Some(token), Some(chatId)), identity, transport);
            && |r.sends| == 2
            && r.sends[0].silent && r.sends[1].silent
            && r.sends[1] == SendRequest(StreamText("stdout", out, limit), true, msgId)
            && r.end == Exit(0)
  {
    var cfg := Config(id, true, limit);
    var cmd := RunCommand(["echo", "hi"], Clean(out, []));
    var env := Env(Some(token), Some(chatId));
    var bot := NewTelegram(token, identity).value;
    var send := Outbox(chatId, transport);
    var streams := Streams(cmd.stdout, cmd.stderr);
    assert streams == [Stream("stdout", out)];
    var summaryText := SummaryOf(cfg, cmd, quoted, elapsed);
    var dumps := Dumps(streams, limit);
    ConnectedRunReports(cfg, quoted, elapsed, cmd, env, identity, transport);
    DumpsReplyToSummary(summaryText, dumps, true, 0, send);
    ExitOnlyWhenAllSent(summaryText, dumps, true, 0, send);
    var chain := SendAll(Replies(dumps.value, true, msgId), 1, send);
    assert chain.failure.None?;
  }
}
