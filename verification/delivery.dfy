/**
 * The order in which main sends its messages, apart from what they say:
 * the summary first, then each stream dump as a reply to it, stopping at
 * the first failed send (lines 209-224 of main.go). The texts are given;
 * the bot API is a `Sender`.
 */
module Delivery {
  import opened Wrappers
  import opened Errors

  /** One `sendMessage` call: its text, whether it is silent, and its reply target. */
  datatype SendRequest = SendRequest(text: string, silent: bool, replyTo: int)

  /** The reply target main passes when a message replies to nothing. */
  const NoReply := -1

  /** One send as main sees it: the `k`-th message's id (0 is the first), or the error that ended it. */
  type Sender = (nat, SendRequest) -> Result<int, Error>

  /**
   * How the process ends: `os.Exit` (returning from main is exit 0),
   * `log.Fatal` with its message (exit status 1), or a runtime panic.
   */
  datatype Termination = Exit(code: int) | Fatal(message: string) | Panic

  /** The sends made, in order, and how the run ended. */
  datatype Sends = Sends(sent: seq<SendRequest>, end: Termination)

  /** How a run of sends ended: all were sent, or one failed and stopped the rest. */
  datatype Chain = Chain(sent: seq<SendRequest>, failure: Option<Error>)

  /**
   * Sends `reqs` as the `k`-th, `k+1`-th, ... messages, stopping at the
   * first failure; `sent` lists the attempts, the failed one included.
   */
  function SendAll(reqs: seq<SendRequest>, k: nat, send: Sender): (c: Chain)
    ensures |c.sent| <= |reqs| && c.sent == reqs[..|c.sent|]
    ensures c.failure.None? ==> |c.sent| == |reqs|
    ensures forall i :: 0 <= i < |c.sent| ==>
              (send(k + i, reqs[i]).Success? <==> !(c.failure.Some? && i == |c.sent| - 1))
    ensures c.failure.Some? ==>
              |c.sent| > 0 && send(k + |c.sent| - 1, reqs[|c.sent| - 1]) == Failure(c.failure.value)
    decreases |reqs|
  {
    if reqs == [] then Chain([], None)
    else
      match send(k, reqs[0])
      case Failure(e) => Chain([reqs[0]], Some(e))
      case Success(_) =>
        var rest := SendAll(reqs[1..], k + 1, send);
        var sent := [reqs[0]] + rest.sent;
        assert sent == reqs[..|sent|] by {
          assert reqs[..|sent|] == [reqs[0]] + reqs[1..][..|rest.sent|];
        }
        assert forall i :: 1 <= i < |sent| ==> send(k + i, reqs[i]) == send(k + 1 + (i - 1), reqs[1..][i - 1]);
        Chain(sent, rest.failure)
  }

  /** The stream dumps: each text sent with the same silence, as a reply to `replyTo`. */
  function Replies(texts: seq<string>, silent: bool, replyTo: int): (r: seq<SendRequest>)
    ensures |r| == |texts|
    ensures forall i :: 0 <= i < |r| ==> r[i] == SendRequest(texts[i], silent, replyTo)
  {
    seq(|texts|, i requires 0 <= i < |texts| => SendRequest(texts[i], silent, replyTo))
  }

  /**
   * Sends the summary without a reply target, then, once it is delivered,
   * each dump as a reply to it. `dumps` is `None` when formatting the first
   * dump panics; the command's `status` is the exit status when all went out.
   */
  function Dispatch(summaryText: string, dumps: Option<seq<string>>, silent: bool, status: int, send: Sender): Sends
  {
    var summary := SendRequest(summaryText, silent, NoReply);
    match send(0, summary)
    case Failure(e) => Sends([summary], Fatal(Message(e)))
    case Success(msgId) =>
      match dumps
      case None => Sends([summary], Panic)
      case Some(texts) =>
        var chain := SendAll(Replies(texts, silent, msgId), 1, send);
        var end := match chain.failure
          case None => Exit(status)
          case Some(e) => Fatal(Message(e));
        Sends([summary] + chain.sent, end)
  }

  /** The number of messages a dispatch may send: the summary and one per dump. */
  function Planned(dumps: Option<seq<string>>): nat {
    1 + match dumps case None => 0 case Some(texts) => |texts|
  }

  /** The summary goes first, without a reply target; if it fails, nothing else is sent. */
  lemma SummaryGoesFirst(summaryText: string, dumps: Option<seq<string>>, silent: bool, status: int, send: Sender)
    ensures var d := Dispatch(summaryText, dumps, silent, status, send);
            var summary := send(0, d.sent[0]);
            && 1 <= |d.sent| <= Planned(dumps)
            && d.sent[0] == SendRequest(summaryText, silent, NoReply)
            && (summary.Failure? ==> d == Sends([d.sent[0]], Fatal(Message(summary.error))))
  {
  }

  /**
   * After a delivered summary, the later messages are the dumps in order,
   * each a reply to the summary's id.
   */
  lemma DumpsReplyToSummary(summaryText: string, dumps: Option<seq<string>>, silent: bool, status: int, send: Sender)
    requires send(0, SendRequest(summaryText, silent, NoReply)).Success?
    ensures var d := Dispatch(summaryText, dumps, silent, status, send);
            var msgId := send(0, SendRequest(summaryText, silent, NoReply)).value;
            forall i :: 1 <= i < |d.sent| ==>
              dumps.Some? && d.sent[i] == SendRequest(dumps.value[i - 1], silent, msgId)
  {
    var d := Dispatch(summaryText, dumps, silent, status, send);
    if dumps.Some? {
      var reqs := Replies(dumps.value, silent, send(0, SendRequest(summaryText, silent, NoReply)).value);
      var chain := SendAll(reqs, 1, send);
      assert d.sent == [d.sent[0]] + chain.sent;
    }
  }

  /** Every message of a dispatch has the same silence. */
  lemma AllEquallySilent(summaryText: string, dumps: Option<seq<string>>, silent: bool, status: int, send: Sender)
    ensures var d := Dispatch(summaryText, dumps, silent, status, send);
            forall i :: 0 <= i < |d.sent| ==> d.sent[i].silent == silent
  {
    var summary := SendRequest(summaryText, silent, NoReply);
    if send(0, summary).Success? {
      DumpsReplyToSummary(summaryText, dumps, silent, status, send);
    }
  }

  /**
   * The sends stop at the first failure: every message before the last was
   * delivered, and a fatal end means the last one failed.
   */
  lemma FirstFailureStops(summaryText: string, dumps: Option<seq<string>>, silent: bool, status: int, send: Sender)
    ensures var d := Dispatch(summaryText, dumps, silent, status, send);
            && (forall i :: 0 <= i < |d.sent| - 1 ==> send(i, d.sent[i]).Success?)
            && (d.end.Fatal? ==> send(|d.sent| - 1, d.sent[|d.sent| - 1]).Failure?)
  {
    var d := Dispatch(summaryText, dumps, silent, status, send);
    var summary := SendRequest(summaryText, silent, NoReply);
    if send(0, summary).Success? && dumps.Some? {
      var reqs := Replies(dumps.value, silent, send(0, summary).value);
      var chain := SendAll(reqs, 1, send);
      assert d.sent == [summary] + chain.sent;
      assert forall i :: 1 <= i < |d.sent| ==> send(i, d.sent[i]) == send(1 + (i - 1), reqs[i - 1]);
      if d.end.Fatal? {
        var n := |chain.sent|;
        assert d.sent[|d.sent| - 1] == reqs[n - 1];
      }
    }
  }

  /** The command's own status is the exit status only when every planned message was delivered. */
  lemma ExitOnlyWhenAllSent(summaryText: string, dumps: Option<seq<string>>, silent: bool, status: int, send: Sender)
    ensures var d := Dispatch(summaryText, dumps, silent, status, send);
            d.end.Exit? ==>
              && dumps.Some?
              && d.end.code == status
              && |d.sent| == Planned(dumps)
              && forall i :: 0 <= i < |d.sent| ==> send(i, d.sent[i]).Success?
  {
    var d := Dispatch(summaryText, dumps, silent, status, send);
    var summary := SendRequest(summaryText, silent, NoReply);
    if send(0, summary).Success? && dumps.Some? {
      var reqs := Replies(dumps.value, silent, send(0, summary).value);
      var chain := SendAll(reqs, 1, send);
      assert d.sent == [summary] + chain.sent;
      assert forall i :: 1 <= i < |d.sent| ==> send(i, d.sent[i]) == send(1 + (i - 1), reqs[i - 1]);
    }
  }

  /** A dump that cannot be formatted panics right after the summary is delivered. */
  lemma UnformattableDumpPanics(summaryText: string, dumps: Option<seq<string>>, silent: bool, status: int, send: Sender)
    ensures var d := Dispatch(summaryText, dumps, silent, status, send);
            && (d.end == Panic <==> dumps.None? && send(0, d.sent[0]).Success?)
            && (d.end == Panic ==> |d.sent| == 1)
  {
  }
}
