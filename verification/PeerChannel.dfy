/**
 lib/peer-channel.js in its own form: one object whose event handlers update its fields.
 Every handler is proved to be the corresponding transition of PeerEnd, so the run theorems
 of PeerEndInvariants and PeerLink are about these methods.
 */
module PeerChannels {
  import opened Wrappers
  import opened PeerEnd

  class PeerChannel {
    const maxConcurrentInvokes: Option<nat>
    const onInvoke: bool  // whether an invoke handler was given
    var activeSends: int
    var sendQueue: seq<Request>
    var activeDispatches: int
    var dispatchQueue: seq<Request>
    var msgID: nat
    var pending: map<nat, nat>
    var closed: bool
    // Effects, in order: callbacks run, handler starts, handlers still running, messages posted.
    var calls: nat
    var answers: seq<Answer>
    var closes: nat
    var served: seq<Request>
    var running: seq<Request>
    var posted: seq<Message>
    // History only.
    ghost var received: seq<Message>
    ghost var made: seq<Call>
    ghost var exchanges: seq<Exchange>

    ghost function State(): End
      reads this
    {
      End(maxConcurrentInvokes, onInvoke, activeSends, sendQueue, activeDispatches, dispatchQueue,
          msgID, pending, closed, calls, answers, closes, served, running,
          received, posted, made, exchanges)
    }

    constructor (maxConcurrentInvokes: Option<nat>, onInvoke: bool)
      ensures State() == Fresh(maxConcurrentInvokes, onInvoke)
    {
      this.maxConcurrentInvokes, this.onInvoke := maxConcurrentInvokes, onInvoke;
      activeSends, sendQueue := 0, [];
      activeDispatches, dispatchQueue := 0, [];
      msgID, pending, closed := 0, map[], false;
      calls, answers, closes, served, running, posted := 0, [], 0, [], [], [];
      received, made, exchanges := [], [], [];
    }

    method Invoke(call: Call)
      modifies this
      ensures State() == PeerEnd.Invoke(old(State()), call)
    {
      if closed {
        answers, calls := answers + [Answer(calls, Gone)], calls + 1;
        return;
      }
      var request := Register(call);
      if maxConcurrentInvokes.Some? && activeSends >= maxConcurrentInvokes.value {
        sendQueue := sendQueue + [request];
        return;
      }
      SendInvoke(request);
    }

    /** The call gets its message id and its timer. */
    method Register(call: Call) returns (request: Request)
      modifies `pending, `msgID, `calls, `made
      ensures request == Request(old(msgID), call)
      ensures pending == old(pending)[old(msgID) := old(calls)]
      ensures msgID == old(msgID) + 1 && calls == old(calls) + 1 && made == old(made) + [call]
    {
      request := Request(msgID, call);
      pending := pending[msgID := calls];
      msgID, calls, made := msgID + 1, calls + 1, made + [call];
    }

    method SendInvoke(request: Request)
      modifies `activeSends, `posted
      ensures activeSends == old(activeSends) + 1
      ensures posted == if closed then old(posted) else old(posted) + [PeerInvoke(request)]
    {
      activeSends := activeSends + 1;
      Post(PeerInvoke(request));
    }

    /** `postMessage` on a closed port does nothing. */
    method Post(message: Message)
      modifies `posted
      ensures posted == if closed then old(posted) else old(posted) + [message]
    {
      if !closed { posted := posted + [message]; }
    }

    method OnTimer(id: nat)
      requires id in pending
      modifies this
      ensures State() == Timeout(old(State()), id)
    {
      var callback := pending[id];
      pending := pending - {id};
      sendQueue := Without(sendQueue, id);
      answers := answers + [Answer(callback, TimedOut)];
    }

    method DrainSendQueue()
      modifies `activeSends, `posted, `sendQueue
      ensures State() == PeerEnd.DrainSendQueue(old(State()))
    {
      if |sendQueue| == 0 { return; }
      if maxConcurrentInvokes.Some? && activeSends >= maxConcurrentInvokes.value { return; }
      var next := sendQueue[0];
      sendQueue := sendQueue[1..];
      SendInvoke(next);
    }

    /** A closed port delivers nothing, so the channel is open here. */
    method OnMessage(message: Message)
      requires !closed
      modifies this
      ensures State() == Receive(old(State()), message)
    {
      received := received + [message];
      match message {
        case PeerInvoke(request) => HandleInvoke(request);
        case PeerReply(reply) => HandleReply(reply);
        case Other =>
      }
    }

    method HandleInvoke(request: Request)
      modifies this
      ensures State() == PeerEnd.HandleInvoke(old(State()), request)
    {
      if !onInvoke {
        PostReply(request, Reply(request.id, Some(PEER_NO_HANDLER), None, None));
        return;
      }
      if maxConcurrentInvokes.Some? && activeDispatches >= maxConcurrentInvokes.value {
        dispatchQueue := dispatchQueue + [request];
        return;
      }
      DispatchInvoke(request);
    }

    method PostReply(request: Request, reply: Reply)
      modifies `posted, `exchanges
      ensures State() == PeerEnd.PostReply(old(State()), Exchange(request, reply))
    {
      if !closed { exchanges := exchanges + [Exchange(request, reply)]; }
      Post(PeerReply(reply));
    }

    method DispatchInvoke(request: Request)
      modifies this
      ensures State() == PeerEnd.DispatchInvoke(old(State()), request)
    {
      activeDispatches := activeDispatches + 1;
      served, running := served + [request], running + [request];
    }

    /** The reply callback handed to the `i`-th handler run that has not replied yet. */
    method ReplyTo(i: nat, errCode: Option<string>, data: Option<Value>, metering: Option<Value>)
      requires i < |running|
      modifies this
      ensures State() == Finish(old(State()), i, errCode, data, metering)
    {
      var request := running[i];
      running := running[..i] + running[i + 1..];
      activeDispatches := activeDispatches - 1;
      PostReply(request, Reply(request.id, errCode, data, metering));
      DrainDispatchQueue();
    }

    method DrainDispatchQueue()
      modifies this
      ensures State() == PeerEnd.DrainDispatchQueue(old(State()))
    {
      if |dispatchQueue| == 0 { return; }
      if maxConcurrentInvokes.Some? && activeDispatches >= maxConcurrentInvokes.value { return; }
      var next := dispatchQueue[0];
      dispatchQueue := dispatchQueue[1..];
      DispatchInvoke(next);
    }

    method HandleReply(reply: Reply)
      modifies this
      ensures State() == PeerEnd.HandleReply(old(State()), reply)
    {
      activeSends := activeSends - 1;
      DrainSendQueue();
      if reply.id !in pending { return; }
      var callback := pending[reply.id];
      pending := pending - {reply.id};
      if reply.errCode.Some? {
        answers := answers + [Answer(callback, Replied(reply.errCode, reply.data, None))];
      } else {
        answers := answers + [Answer(callback, Replied(None, reply.data, reply.metering))];
      }
    }

    /** Pending ids are visited in increasing order, as integer keys are. */
    method FailPending()
      modifies `answers, `pending
      ensures answers == old(answers) + GoneAnswers(old(pending), msgID) && pending == map[]
    {
      for id := 0 to msgID
        invariant answers == old(answers) + GoneAnswers(pending, id) && pending == old(pending)
      {
        if id in pending { answers := answers + [Answer(pending[id], Gone)]; }
      }
      pending := map[];
    }

    /** What is still queued has nobody left to be sent or replied to. */
    method DropQueues()
      modifies `sendQueue, `dispatchQueue
      ensures sendQueue == [] && dispatchQueue == []
    {
      sendQueue := [];
      dispatchQueue := [];
    }

    method Invalidate()
      modifies this
      ensures State() == PeerEnd.Invalidate(old(State()))
    {
      if closed { return; }
      closed := true;
      FailPending();
      DropQueues();
      closes := closes + 1;
    }
  }
}
