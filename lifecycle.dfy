/**
 * The one-way shutdown state machine every span processor, log processor and metric exporter
 * of the guest follows: a single flag moves from active to shut down and never back. Forwarding
 * calls (`on_start`, `on_end`, `OnStart`, `OnEnd`) reach the host only while active; `force_flush`
 * fails once shut down; `shutdown` answers like `force_flush` in the state it finds, and then
 * latches the flag.
 */
module Lifecycle {
  import opened Wrappers

  /** The calls a host SDK makes on a component. */
  datatype Call = Forward | Flush | Stop

  /** What the caller observes: a forwarded or dropped record, or the result of flush or shutdown. */
  datatype Reply = Delivered | Dropped | Answered(result: SdkResult)

  /** `force_flush`: fails with the component's already-shut-down error exactly when shut down. */
  function FlushReply(shut: bool, err: SdkError): (r: SdkResult)
    ensures r.Failure? <==> shut
    ensures r.Failure? ==> r.error == err
  {
    if shut then Failure(err) else Success
  }

  /** The reply to one call made while the flag reads `shut`. */
  function ReplyTo(shut: bool, c: Call, err: SdkError): (r: Reply)
    ensures c.Forward? ==> (r == Delivered <==> !shut) && (r == Dropped <==> shut)
    ensures !c.Forward? ==> r == Answered(FlushReply(shut, err))
  {
    match c
    case Forward => if shut then Dropped else Delivered
    case _ => Answered(FlushReply(shut, err))
  }

  /** The flag after one call on a latching component. */
  function Next(shut: bool, c: Call): (s: bool)
    ensures shut ==> s
    ensures s <==> shut || c.Stop?
  {
    shut || c == Stop
  }

  /** The replies of a latching component to a sequence of calls, in order. */
  function Replies(shut: bool, calls: seq<Call>, err: SdkError): (r: seq<Reply>)
    ensures |r| == |calls|
    decreases |calls|
  {
    if calls == [] then []
    else [ReplyTo(shut, calls[0], err)] + Replies(Next(shut, calls[0]), calls[1..], err)
  }

  /** Each call is answered in the state left by the calls before it: shut down once any shutdown ran. */
  lemma {:induction false} ReplyAt(shut: bool, calls: seq<Call>, err: SdkError, i: nat)
    requires i < |calls|
    ensures Replies(shut, calls, err)[i] == ReplyTo(shut || Stop in calls[..i], calls[i], err)
    decreases i
  {
    if i > 0 {
      ReplyAt(Next(shut, calls[0]), calls[1..], err, i - 1);
      assert calls[1..][..i - 1] == calls[1..i];
      assert calls[..i] == [calls[0]] + calls[1..i];
    }
  }

  /** On a fresh component, everything before the first shutdown is delivered or succeeds, the first shutdown included. */
  lemma BeforeShutdown(calls: seq<Call>, err: SdkError, i: nat)
    requires i < |calls| && Stop !in calls[..i]
    ensures Replies(false, calls, err)[i] == (if calls[i].Forward? then Delivered else Answered(Success))
  {
    ReplyAt(false, calls, err, i);
  }

  /** After a shutdown, nothing reaches the host and every flush and every further shutdown fails. */
  lemma AfterShutdown(calls: seq<Call>, err: SdkError, i: nat, j: nat)
    requires i < j < |calls| && calls[i].Stop?
    ensures Replies(false, calls, err)[j] == (if calls[j].Forward? then Dropped else Answered(Failure(err)))
  {
    ReplyAt(false, calls, err, j);
    assert calls[..j][i] == Stop;
  }

  /**
   * The replies of a component whose shutdown never writes its flag (Go value receivers): every
   * call is answered in the initial state.
   */
  function StuckReplies(shut: bool, calls: seq<Call>, err: SdkError): (r: seq<Reply>)
    ensures |r| == |calls|
    ensures forall i :: 0 <= i < |calls| ==> r[i] == ReplyTo(shut, calls[i], err)
  {
    seq(|calls|, i requires 0 <= i < |calls| => ReplyTo(shut, calls[i], err))
  }

  /**
   * The two machines part at the first call after a shutdown: the latching one drops or refuses
   * it, the stuck one still delivers or succeeds.
   */
  lemma StuckDiffers(calls: seq<Call>, err: SdkError, i: nat)
    requires i + 1 < |calls| && calls[i].Stop?
    ensures Replies(false, calls, err)[i + 1] != StuckReplies(false, calls, err)[i + 1]
  {
    AfterShutdown(calls, err, i, i + 1);
  }

  /** A host import: every value the guest hands it, in the order handed. */
  class Channel<T> {
    var sent: seq<T>

    constructor ()
      ensures sent == []
    {
      sent := [];
    }

    method Send(x: T)
      modifies this
      ensures sent == old(sent) + [x]
    {
      sent := sent + [x];
    }
  }
}
