/**
 One end of a direct peer channel (lib/peer-channel.js), as a value and a set of
 transitions.  Each transition is one atomic event handler of the source; the class in
 PeerChannel.dfy performs them in place and is proved against them.

 Four fields are history only, never read by a transition: `received` and `posted` are
 everything that came in and went out over the port, `made` the arguments of every call
 that got a message id, and `exchanges` every request this end replied to with its reply.
 */
module PeerEnd {
  import opened Wrappers

  type Value = string

  /** The arguments of one `invoke` call. */
  datatype Call = Call(deviceID: string, serviceID: string, actionName: string, input: Value, billingKey: Option<string>)

  datatype Request = Request(id: nat, call: Call)

  datatype Reply = Reply(id: nat, errCode: Option<string>, data: Option<Value>, metering: Option<Value>)

  /** What travels over a port: `Other` is a null or unrecognized message. */
  datatype Message = PeerInvoke(request: Request) | PeerReply(reply: Reply) | Other

  datatype Outcome = Gone | TimedOut | Replied(errCode: Option<string>, data: Option<Value>, metering: Option<Value>)

  /** One run of a callback: `call` numbers the `invoke` calls on this end, from 0. */
  datatype Answer = Answer(call: nat, outcome: Outcome)

  datatype Exchange = Exchange(request: Request, reply: Reply)

  datatype End = End(
    cap: Option<nat>, hasHandler: bool,
    activeSends: int, sendQueue: seq<Request>,
    activeDispatches: int, dispatchQueue: seq<Request>,
    msgID: nat, pending: map<nat, nat>, closed: bool,
    calls: nat, answers: seq<Answer>, closes: nat,
    served: seq<Request>, running: seq<Request>,
    received: seq<Message>, posted: seq<Message>, made: seq<Call>, exchanges: seq<Exchange>)

  const PEER_NO_HANDLER := "PEER_NO_HANDLER"

  function Fresh(cap: Option<nat>, hasHandler: bool): End {
    End(cap, hasHandler, 0, [], 0, [], 0, map[], false, 0, [], 0, [], [], [], [], [], [])
  }

  predicate AtCap(cap: Option<nat>, active: int) { cap.Some? && active >= cap.value }

  // ----- caller role -----

  function SendInvoke(e: End, r: Request): End {
    e.(activeSends := e.activeSends + 1,
       posted := if e.closed then e.posted else e.posted + [PeerInvoke(r)])
  }

  function Invoke(e: End, c: Call): End {
    if e.closed then
      e.(calls := e.calls + 1, answers := e.answers + [Answer(e.calls, Gone)])
    else
      var r := Request(e.msgID, c);
      var e1 := e.(msgID := e.msgID + 1, calls := e.calls + 1, made := e.made + [c],
                   pending := e.pending[e.msgID := e.calls]);
      if AtCap(e.cap, e.activeSends) then e1.(sendQueue := e1.sendQueue + [r]) else SendInvoke(e1, r)
  }

  function Without(q: seq<Request>, id: nat): seq<Request> {
    if q == [] then []
    else if q[0].id == id then Without(q[1..], id)
    else [q[0]] + Without(q[1..], id)
  }

  /** The timer of call `id` fires; it exists exactly while the call is pending. */
  function Timeout(e: End, id: nat): End {
    if id !in e.pending then e
    else
      e.(pending := e.pending - {id}, sendQueue := Without(e.sendQueue, id),
         answers := e.answers + [Answer(e.pending[id], TimedOut)])
  }

  function DrainSendQueue(e: End): End {
    if e.sendQueue == [] || AtCap(e.cap, e.activeSends) then e
    else SendInvoke(e.(sendQueue := e.sendQueue[1..]), e.sendQueue[0])
  }

  /** A reply nobody waits for is dropped. */
  function AnswerPending(e: End, r: Reply): End {
    if r.id !in e.pending then e
    else
      e.(pending := e.pending - {r.id},
         answers := e.answers + [Answer(e.pending[r.id], OutcomeOf(r))])
  }

  function HandleReply(e: End, r: Reply): End {
    AnswerPending(DrainSendQueue(e.(activeSends := e.activeSends - 1)), r)
  }

  /** What the caller's callback is given: a failed call carries no metering result. */
  function OutcomeOf(r: Reply): Outcome {
    Replied(r.errCode, r.data, if r.errCode.Some? then None else r.metering)
  }

  // ----- callee role -----

  function PostReply(e: End, x: Exchange): End {
    if e.closed then e
    else e.(posted := e.posted + [PeerReply(x.reply)], exchanges := e.exchanges + [x])
  }

  function HandleInvoke(e: End, r: Request): End {
    if !e.hasHandler then
      PostReply(e, Exchange(r, Reply(r.id, Some(PEER_NO_HANDLER), None, None)))
    else if AtCap(e.cap, e.activeDispatches) then
      e.(dispatchQueue := e.dispatchQueue + [r])
    else
      DispatchInvoke(e, r)
  }

  /** `onInvoke` starts on `r`. */
  function DispatchInvoke(e: End, r: Request): End {
    e.(activeDispatches := e.activeDispatches + 1, served := e.served + [r], running := e.running + [r])
  }

  function DrainDispatchQueue(e: End): End {
    if e.dispatchQueue == [] || AtCap(e.cap, e.activeDispatches) then e
    else DispatchInvoke(e.(dispatchQueue := e.dispatchQueue[1..]), e.dispatchQueue[0])
  }

  /** The reply callback of the `i`-th `onInvoke` still running is called. */
  function Finish(e: End, i: nat, errCode: Option<string>, data: Option<Value>, metering: Option<Value>): End
    requires i < |e.running|
  {
    var r := e.running[i];
    var e1 := e.(activeDispatches := e.activeDispatches - 1, running := e.running[..i] + e.running[i + 1..]);
    DrainDispatchQueue(PostReply(e1, Exchange(r, Reply(r.id, errCode, data, metering))))
  }

  // ----- both roles -----

  /** A message arrives; a closed port delivers nothing. */
  function Receive(e: End, m: Message): End {
    if e.closed then e
    else
      var e1 := e.(received := e.received + [m]);
      match m
      case PeerInvoke(r) => HandleInvoke(e1, r)
      case PeerReply(r) => HandleReply(e1, r)
      case Other => e1
  }

  /** The PEER_GONE answers of every pending call below `n`, in id order. */
  function GoneAnswers(pending: map<nat, nat>, n: nat): seq<Answer> {
    if n == 0 then []
    else GoneAnswers(pending, n - 1) + if n - 1 in pending then [Answer(pending[n - 1], Gone)] else []
  }

  function Invalidate(e: End): End {
    if e.closed then e
    else
      e.(closed := true, pending := map[], answers := e.answers + GoneAnswers(e.pending, e.msgID),
         sendQueue := [], dispatchQueue := [], closes := e.closes + 1)
  }

  // ----- runs -----

  datatype Event =
    | InvokeEvent(call: Call)
    | TimeoutEvent(id: nat)
    | ReceiveEvent(message: Message)
    | FinishEvent(i: nat, errCode: Option<string>, data: Option<Value>, metering: Option<Value>)
    | InvalidateEvent

  function Apply(e: End, ev: Event): End {
    match ev
    case InvokeEvent(c) => Invoke(e, c)
    case TimeoutEvent(id) => Timeout(e, id)
    case ReceiveEvent(m) => Receive(e, m)
    case FinishEvent(i, err, d, p) => if i < |e.running| then Finish(e, i, err, d, p) else e
    case InvalidateEvent => Invalidate(e)
  }
}
