/**
 lib/worker-message.js:194-280 in its own form, on the main thread: an object whose fields are
 updated by each send, each message from the worker and the worker's end.  Its methods are
 proved to be the transitions of WorkerRequests and TokenBucket.
 */
module WorkerMessages {
  import opened Wrappers
  import W = WorkerRequests
  import B = TokenBucket

  /** What a message that the worker itself created leads to. */
  datatype Verdict = Handled | Denied | RateLimited

  const RATE_EXEMPT := {"sandbox-violation", "peer-self-invalidate"}

  class WorkerMessage {
    var msgQueue: map<nat, W.Pending>
    var msgID: nat
    var ended: Option<W.Reason>
    var messageRate: Option<real>
    var rateTokens: real
    var rateRefillAt: real
    // Effects: messages posted, requests sent with a callback, callbacks run.
    var posted: nat
    var calls: nat
    var answers: seq<W.Answer>

    ghost function Requests(): W.State
      reads this
    {
      W.State(ended, msgQueue, msgID, posted, calls, answers)
    }

    constructor (now: real)
      ensures Requests() == W.Start() && messageRate.None?
    {
      msgQueue, msgID, ended := map[], 0, None;
      messageRate, rateTokens, rateRefillAt := None, 0.0, now;
      posted, calls, answers := 0, 0, [];
    }

    method AnswerCallback(call: nat, outcome: W.Outcome)
      modifies `answers
      ensures Requests() == W.AnswerWith(old(Requests()), call, outcome)
    {
      answers := answers + [W.Answer(call, outcome)];
    }

    /** A message without a callback needs no reply. */
    method PostToWorker()
      modifies `posted
      ensures posted == if ended.Some? then old(posted) else old(posted) + 1
    {
      if ended.Some? { return; }
      posted := posted + 1;
    }

    method SendMessageToWorker(callback: W.Script)
      modifies `msgQueue, `msgID, `posted, `calls, `answers, `ended
      ensures Requests() == if old(ended).None? then W.Enqueue(old(Requests()), callback) else
        W.RunEnded(W.AnswerWith(old(Requests()).(calls := old(calls) + 1), old(calls), W.Ended(old(ended).value)),
                   old(ended).value, callback)
      decreases if ended.None? then 1 else 0, callback, 1
    {
      if ended.Some? {
        calls := calls + 1;
        AnswerCallback(calls - 1, W.Ended(ended.value));
        RunCallback(callback);
        return;
      }
      msgQueue := msgQueue[msgID := W.Pending(calls, callback)];
      msgID, calls, posted := msgID + 1, calls + 1, posted + 1;
    }

    /** Whoever runs a callback runs it to its end. */
    method RunCallback(k: W.Script)
      modifies `msgQueue, `msgID, `posted, `calls, `answers, `ended
      ensures Requests() == W.Run(old(Requests()), k)
      decreases if ended.None? then 1 else 0, k, 0
    {
      match k {
        case Done =>
        case Send(callback, rest) =>
          if ended.Some? {
            ghost var s1 := W.AnswerWith(Requests().(calls := calls + 1), calls, W.Ended(ended.value));
            W.RunEndedQueue(s1, ended.value, callback);
          }
          SendMessageToWorker(callback);
          RunCallback(rest);
        case Notify(rest) =>
          PostToWorker();
          RunCallback(rest);
        case End(reason, rest) =>
          EndWith(reason, rest);
          RunCallback(rest);
      }
    }

    method EndWith(reason: W.Reason, ghost under: W.Script)
      modifies `msgQueue, `msgID, `posted, `calls, `answers, `ended
      ensures Requests() == W.EndWith(old(Requests()), reason) && ended.Some?
      decreases if ended.None? then 1 else 0, under, 1
    {
      if ended.Some? { return; }
      ended := Some(reason);
      var pending, n := msgQueue, msgID;
      msgQueue := map[];
      ghost var s := Requests();
      for id := 0 to n
        invariant Requests() == W.AnswerPending(s, reason, pending, id)
        invariant ended == Some(reason)
      {
        if id in pending {
          AnswerCallback(pending[id].call, W.Ended(reason));
          ghost var s1 := Requests();
          W.RunEndedQueue(s1, reason, pending[id].callback);
          RunCallback(pending[id].callback);
        }
      }
    }

    method OnReply(id: nat, outcome: W.Outcome)
      modifies `msgQueue, `msgID, `posted, `calls, `answers, `ended
      ensures Requests() == W.Reply(old(Requests()), id, outcome)
    {
      if id !in msgQueue { return; }
      var pending := msgQueue[id];
      AnswerCallback(pending.call, outcome);
      RunCallback(pending.callback);
      msgQueue := msgQueue - {id};
    }

    ghost function Bucket(): B.Bucket
      requires messageRate.Some?
      reads this
    {
      B.Bucket(messageRate.value, rateTokens, rateRefillAt)
    }

    /** The rate check of a message that the worker itself created. */
    method OnChildMessage(command: string, now: real) returns (verdict: Verdict)
      modifies `rateTokens, `rateRefillAt
      ensures messageRate.None? || command in RATE_EXEMPT ==>
        verdict == Handled && rateTokens == old(rateTokens) && rateRefillAt == old(rateRefillAt)
      ensures messageRate.Some? && command !in RATE_EXEMPT ==>
        && Bucket() == B.Arrive(old(Bucket()), now).1
        && (verdict == Handled <==> B.Arrive(old(Bucket()), now).0)
        && (verdict == Denied ==> command == "peer-channel-request")
        && (verdict == RateLimited ==> command != "peer-channel-request")
    {
      if messageRate.Some? && command !in RATE_EXEMPT {
        var tokens := rateTokens + (now - rateRefillAt) * messageRate.value / 1000.0;
        rateTokens := if messageRate.value <= tokens then messageRate.value else tokens;
        rateRefillAt := now;
        if rateTokens < 1.0 {
          return if command == "peer-channel-request" then Denied else RateLimited;
        }
        rateTokens := rateTokens - 1.0;
      }
      return Handled;
    }
  }
}
