/**
 Two ends of one port pair: what one end has posted and the other has not yet received is
 on the wire, in order.  The two caps, and which ends have an invoke handler, are arbitrary.
 */
module PeerLink {
  import opened Wrappers
  import opened PeerEnd
  import opened PeerEndInvariants

  datatype Link = Link(a: End, b: End)

  datatype Step = AtA(event: Event) | AtB(event: Event) | DeliverToA | DeliverToB

  /** A local event is anything but the arrival of a message, which the wire alone decides. */
  predicate Local(ev: Event) { !ev.ReceiveEvent? }

  function Deliver(src: End, dst: End): End {
    if |dst.received| < |src.posted| then Receive(dst, src.posted[|dst.received|]) else dst
  }

  function Move(l: Link, s: Step): Link {
    match s
    case AtA(ev) => if Local(ev) then l.(a := Apply(l.a, ev)) else l
    case AtB(ev) => if Local(ev) then l.(b := Apply(l.b, ev)) else l
    case DeliverToA => l.(a := Deliver(l.b, l.a))
    case DeliverToB => l.(b := Deliver(l.a, l.b))
  }

  function Run(l: Link, steps: seq<Step>): Link {
    if steps == [] then l else Move(Run(l, steps[..|steps| - 1]), steps[|steps| - 1])
  }

  function Opened(capA: Option<nat>, capB: Option<nat>, handlerA: bool, handlerB: bool): Link {
    Link(Fresh(capA, handlerA), Fresh(capB, handlerB))
  }

  ghost predicate Wired(l: Link) { l.b.received <= l.a.posted && l.a.received <= l.b.posted }

  function Wire(src: End, dst: End): seq<Message>
    requires dst.received <= src.posted
  {
    src.posted[|dst.received|..]
  }

  // ----- the invariant of the pair -----

  lemma ApplyHistories(e: End, ev: Event)
    ensures e.posted <= Apply(e, ev).posted
    ensures Local(ev) ==> Apply(e, ev).received == e.received
    ensures Apply(e, ev).cap == e.cap && Apply(e, ev).hasHandler == e.hasHandler
  {
  }

  lemma ReceiveHistories(e: End, m: Message)
    ensures Receive(e, m).received == if e.closed then e.received else e.received + [m]
  {
  }

  lemma DeliverIs(src: End, dst: End)
    requires |dst.received| < |src.posted|
    ensures Deliver(src, dst) == Apply(dst, ReceiveEvent(src.posted[|dst.received|]))
  {
  }

  lemma DeliverHistories(src: End, dst: End)
    requires dst.received <= src.posted
    ensures Deliver(src, dst).received <= src.posted
    ensures dst.posted <= Deliver(src, dst).posted
    ensures Deliver(src, dst).cap == dst.cap && Deliver(src, dst).hasHandler == dst.hasHandler
  {
    if |dst.received| < |src.posted| {
      var m := src.posted[|dst.received|];
      DeliverIs(src, dst);
      ReceiveHistories(dst, m);
      ApplyHistories(dst, ReceiveEvent(m));
      assert dst.received + [m] == src.posted[..|dst.received| + 1];
    }
  }

  lemma DeliverKeeps(src: End, dst: End)
    requires Inv(dst) && dst.received <= src.posted
    ensures Inv(Deliver(src, dst))
  {
    if |dst.received| < |src.posted| { ReceiveKeeps(dst, src.posted[|dst.received|]); }
  }

  lemma MoveKeeps(l: Link, s: Step)
    requires Inv(l.a) && Inv(l.b) && Wired(l)
    ensures Inv(Move(l, s).a) && Inv(Move(l, s).b) && Wired(Move(l, s))
    ensures Move(l, s).a.cap == l.a.cap && Move(l, s).b.cap == l.b.cap
    ensures Move(l, s).a.hasHandler == l.a.hasHandler && Move(l, s).b.hasHandler == l.b.hasHandler
  {
    match s
    case AtA(ev) => if Local(ev) { ApplyKeeps(l.a, ev); ApplyHistories(l.a, ev); }
    case AtB(ev) => if Local(ev) { ApplyKeeps(l.b, ev); ApplyHistories(l.b, ev); }
    case DeliverToA => DeliverKeeps(l.b, l.a); DeliverHistories(l.b, l.a);
    case DeliverToB => DeliverKeeps(l.a, l.b); DeliverHistories(l.a, l.b);
  }

  lemma {:induction false} EveryLink(l: Link, steps: seq<Step>)
    requires Inv(l.a) && Inv(l.b) && Wired(l)
    ensures var r := Run(l, steps);
      && Inv(r.a) && Inv(r.b) && Wired(r) && r.a.cap == l.a.cap && r.b.cap == l.b.cap
      && r.a.hasHandler == l.a.hasHandler && r.b.hasHandler == l.b.hasHandler
  {
    if steps != [] {
      EveryLink(l, steps[..|steps| - 1]);
      MoveKeeps(Run(l, steps[..|steps| - 1]), steps[|steps| - 1]);
    }
  }

  lemma EveryOpened(capA: Option<nat>, capB: Option<nat>, handlerA: bool, handlerB: bool, steps: seq<Step>)
    ensures var r := Run(Opened(capA, capB, handlerA, handlerB), steps);
      && Inv(r.a) && Inv(r.b) && Wired(r) && r.a.cap == capA && r.b.cap == capB
      && r.a.hasHandler == handlerA && r.b.hasHandler == handlerB
  {
    FreshHolds(capA, handlerA);
    FreshHolds(capB, handlerB);
    EveryLink(Opened(capA, capB, handlerA, handlerB), steps);
  }

  // ----- conservation -----

  /** Every send slot `x` has in use is on the wire, at `y`, or on its way back. */
  ghost predicate Conserved(x: End, y: End)
    requires y.received <= x.posted && x.received <= y.posted
  {
    x.activeSends ==
      |Invokes(Wire(x, y))| + |y.dispatchQueue| + y.activeDispatches + |Replies(Wire(y, x))|
  }

  lemma Split(ms: seq<Message>, n: nat)
    requires n <= |ms|
    ensures Invokes(ms) == Invokes(ms[..n]) + Invokes(ms[n..])
    ensures Replies(ms) == Replies(ms[..n]) + Replies(ms[n..])
  {
    assert ms == ms[..n] + ms[n..];
    Concat(ms[..n], ms[n..]);
  }

  lemma {:induction false} Concat(ms: seq<Message>, ns: seq<Message>)
    ensures Invokes(ms + ns) == Invokes(ms) + Invokes(ns)
    ensures Replies(ms + ns) == Replies(ms) + Replies(ns)
  {
    if ns == [] {
      assert ms + ns == ms;
    } else {
      var front, m := ns[..|ns| - 1], ns[|ns| - 1];
      Concat(ms, front);
      assert ms + ns == (ms + front) + [m] && ns == front + [m];
      ReceivedAppend(ms + front, m);
      ReceivedAppend(front, m);
    }
  }

  lemma OpenConserves(x: End, y: End)
    requires Books(x) && Books(y) && !x.closed && !y.closed
    requires y.received <= x.posted && x.received <= y.posted
    ensures Conserved(x, y)
  {
    Split(x.posted, |y.received|);
    Split(y.posted, |x.received|);
    assert x.posted[..|y.received|] == y.received;
    assert y.posted[..|x.received|] == x.received;
  }

  ghost predicate Follows(l: Link, step: Step, l': Link) { l' == Move(l, step) }

  /** A run of two new ends, as the sequence of its states. */
  ghost predicate IsRun(ls: seq<Link>, steps: seq<Step>) {
    && |ls| == |steps| + 1
    && ls[0] == Opened(ls[0].a.cap, ls[0].b.cap, ls[0].a.hasHandler, ls[0].b.hasHandler)
    && forall i :: 0 <= i < |steps| ==> Follows(ls[i], steps[i], ls[i + 1])
  }

  lemma {:induction false} RunKeeps(ls: seq<Link>, steps: seq<Step>)
    requires IsRun(ls, steps)
    ensures var l := ls[|steps|]; Inv(l.a) && Inv(l.b) && Wired(l)
    decreases |steps|
  {
    if steps == [] {
      FreshHolds(ls[0].a.cap, ls[0].a.hasHandler);
      FreshHolds(ls[0].b.cap, ls[0].b.hasHandler);
    } else {
      var n := |steps| - 1;
      assert IsRun(ls[..n + 1], steps[..n]);
      RunKeeps(ls[..n + 1], steps[..n]);
      assert Follows(ls[n], steps[n], ls[n + 1]);
      MoveKeeps(ls[n], steps[n]);
    }
  }

  /** While a port pair is open, both directions conserve send slots, in every interleaving. */
  lemma {:induction false} Conservation(ls: seq<Link>, steps: seq<Step>)
    requires IsRun(ls, steps) && !ls[|steps|].a.closed && !ls[|steps|].b.closed
    ensures var l := ls[|steps|]; Wired(l) && Conserved(l.a, l.b) && Conserved(l.b, l.a)
  {
    RunKeeps(ls, steps);
    OpenConserves(ls[|steps|].a, ls[|steps|].b);
    OpenConserves(ls[|steps|].b, ls[|steps|].a);
  }

  // ----- the caller's queue -----

  /** A reply is to a request that was sent, and what is in the queue was not. */
  lemma QueuedPending(x: End, y: End)
    requires Inv(x) && Inv(y) && y.received <= x.posted && x.received <= y.posted
    ensures forall r :: r in x.sendQueue ==> r.id in x.pending
  {
    forall r | r in x.sendQueue ensures r.id in x.pending {
      if HasReply(x.received, r.id) {
        var q :| q in Replies(x.received) && q.id == r.id;
        var sent := ReplyToSent(x, y, q);
        SentBeforeQueued(x, sent, r);
      }
    }
  }

  lemma SentBeforeQueued(x: End, sent: Request, r: Request)
    requires InOrder(x) && sent in Invokes(x.posted) && r in x.sendQueue
    ensures sent.id < r.id
  {
    var all, n := Invokes(x.posted) + x.sendQueue, |Invokes(x.posted)|;
    var i :| 0 <= i < n && Invokes(x.posted)[i] == sent;
    var j :| 0 <= j < |x.sendQueue| && x.sendQueue[j] == r;
    assert all[i] == sent && all[n + j] == r;
  }

  lemma ReplyToSent(x: End, y: End, q: Reply) returns (sent: Request)
    requires Inv(y) && y.received <= x.posted && x.received <= y.posted && q in Replies(x.received)
    ensures sent in Invokes(x.posted) && sent.id == q.id
  {
    Split(x.posted, |y.received|);
    Split(y.posted, |x.received|);
    assert x.posted[..|y.received|] == y.received && y.posted[..|x.received|] == x.received;
    assert q in Replies(y.posted);
    var i :| 0 <= i < |RepliesOf(y.exchanges)| && RepliesOf(y.exchanges)[i] == q;
    sent := y.exchanges[i].request;
    assert y.exchanges[i] in y.exchanges && Requests(y.exchanges)[i] == sent;
    assert sent in Requests(y.exchanges) && sent in Invokes(y.received);
  }

  /**
   In every run of two ends, a pending call's request has been sent or is in the queue, and the
   queue holds nothing but the requests of pending calls, while as many as the cap are out.
   */
  lemma {:induction false} CallsWaitInQueue(ls: seq<Link>, steps: seq<Step>)
    requires IsRun(ls, steps)
    ensures var x := ls[|steps|].a;
      && (forall id :: id in x.pending ==> id < |x.made| && Request(id, x.made[id]) in Invokes(x.posted) + x.sendQueue)
      && (forall r :: r in x.sendQueue ==> r.id in x.pending)
      && (x.sendQueue != [] ==> x.cap.Some? && x.activeSends == x.cap.value)
  {
    RunKeeps(ls, steps);
    QueuedPending(ls[|steps|].a, ls[|steps|].b);
  }

  // ----- the callee's queue -----

  /** The callee accepts at least as many invokes at once as the caller sends. */
  predicate CapWithin(caller: Option<nat>, callee: Option<nat>) {
    callee.None? || (caller.Some? && caller.value <= callee.value)
  }

  /** What `x` posted and has no reply to is within its cap, even once it is closed. */
  lemma OutWithinCap(x: End)
    requires Books(x) && Caps(x) && x.cap.Some?
    ensures |Invokes(x.posted)| - |Replies(x.received)| <= x.cap.value
  {
  }

  /** A callee's queue and its running requests are all out at the caller. */
  lemma HeldWithinOut(x: End, y: End)
    requires Books(y) && !y.closed && y.received <= x.posted && x.received <= y.posted
    ensures |y.dispatchQueue| + y.activeDispatches <= |Invokes(x.posted)| - |Replies(x.received)|
  {
    Split(x.posted, |y.received|);
    Split(y.posted, |x.received|);
    assert x.posted[..|y.received|] == y.received;
    assert y.posted[..|x.received|] == x.received;
  }

  /** With a callee cap at least the caller's, the callee's queue is empty in every run, whichever end has closed. */
  lemma NoCalleeQueue(capA: Option<nat>, capB: Option<nat>, handlerA: bool, handlerB: bool, steps: seq<Step>)
    requires CapWithin(capA, capB)
    ensures Run(Opened(capA, capB, handlerA, handlerB), steps).b.dispatchQueue == []
  {
    EveryOpened(capA, capB, handlerA, handlerB, steps);
    var l := Run(Opened(capA, capB, handlerA, handlerB), steps);
    if l.b.dispatchQueue != [] {
      OutWithinCap(l.a);
      HeldWithinOut(l.a, l.b);
      assert false;
    }
  }

  /** `n` calls on A, each delivered to B at once. */
  function Burst(n: nat, c: Call): seq<Step> {
    if n == 0 then [] else Burst(n - 1, c) + [AtA(InvokeEvent(c)), DeliverToB]
  }

  lemma {:induction false} RunSnoc(l: Link, steps: seq<Step>, s: Step)
    ensures Run(l, steps + [s]) == Move(Run(l, steps), s)
  {
  }

  lemma {:induction false} RunSnoc2(l: Link, steps: seq<Step>, s: Step, t: Step)
    ensures Run(l, steps + [s, t]) == Move(Move(Run(l, steps), s), t)
  {
    assert steps + [s, t] == (steps + [s]) + [t];
    RunSnoc(l, steps + [s], t);
    RunSnoc(l, steps, s);
  }

  ghost predicate Filled(l: Link, capB: nat, n: nat) {
    && !l.a.closed && !l.b.closed
    && l.a.activeSends == n && |l.a.posted| == |l.b.received| == n
    && l.b.activeDispatches == (if n <= capB then n else capB)
    && |l.b.dispatchQueue| == (if n <= capB then 0 else n - capB)
  }

  lemma {:induction false} BurstFills(capA: Option<nat>, capB: nat, handlerA: bool, n: nat, c: Call)
    requires n <= capB + 1
    requires capA.Some? ==> n <= capA.value
    ensures Filled(Run(Opened(capA, Some(capB), handlerA, true), Burst(n, c)), capB, n)
  {
    if n > 0 {
      BurstFills(capA, capB, handlerA, n - 1, c);
      var start := Opened(capA, Some(capB), handlerA, true);
      RunSnoc2(start, Burst(n - 1, c), AtA(InvokeEvent(c)), DeliverToB);
      EveryOpened(capA, Some(capB), handlerA, true, Burst(n - 1, c));
      OneMore(Run(start, Burst(n - 1, c)), capB, n - 1, c);
    }
  }

  lemma OneMore(l: Link, capB: nat, n: nat, c: Call)
    requires Filled(l, capB, n) && l.b.cap == Some(capB) && l.b.hasHandler && n <= capB
    requires l.a.cap.Some? ==> n < l.a.cap.value
    ensures Filled(Move(Move(l, AtA(InvokeEvent(c))), DeliverToB), capB, n + 1)
  {
  }

  ghost predicate QueueEmptyAfter(capA: Option<nat>, capB: Option<nat>, handlerA: bool, steps: seq<Step>) {
    Run(Opened(capA, capB, handlerA, true), steps).b.dispatchQueue == []
  }

  /** The callee's queue stays empty in every run exactly when its cap is at least the caller's. */
  lemma CalleeQueueEmptyIffCapWithin(capA: Option<nat>, capB: Option<nat>, handlerA: bool)
    ensures (forall steps :: QueueEmptyAfter(capA, capB, handlerA, steps)) <==> CapWithin(capA, capB)
  {
    if CapWithin(capA, capB) {
      forall steps ensures QueueEmptyAfter(capA, capB, handlerA, steps) {
        NoCalleeQueue(capA, capB, handlerA, true, steps);
      }
    } else {
      var c := Call("", "", "", "", None);
      BurstFills(capA, capB.value, handlerA, capB.value + 1, c);
      assert !QueueEmptyAfter(capA, capB, handlerA, Burst(capB.value + 1, c));
    }
  }

  // ----- order and correlation -----

  lemma ServedOrder(l: Link)
    requires Inv(l.a) && Inv(l.b) && Wired(l)
    ensures Ascending(l.b.served)
    ensures forall r :: r in l.b.served ==> r.id < |l.a.made| && r.call == l.a.made[r.id]
    ensures l.b.hasHandler && !l.b.closed ==>
      Ascending(l.b.served + l.b.dispatchQueue + Invokes(Wire(l.a, l.b)) + l.a.sendQueue)
  {
    Split(l.a.posted, |l.b.received|);
    assert l.a.posted[..|l.b.received|] == l.b.received;
    var all := Invokes(l.a.posted) + l.a.sendQueue;
    assert l.b.served <= Invokes(l.b.received) <= Invokes(l.a.posted) <= all;
    forall i, j | 0 <= i < j < |l.b.served| ensures l.b.served[i].id < l.b.served[j].id {
      assert l.b.served[i] == all[i] && l.b.served[j] == all[j];
    }
    forall r | r in l.b.served ensures r.id < |l.a.made| && r.call == l.a.made[r.id] {
      var i :| 0 <= i < |l.b.served| && l.b.served[i] == r;
      assert r == all[i];
    }
    if l.b.hasHandler && !l.b.closed {
      assert l.b.served + l.b.dispatchQueue + Invokes(Wire(l.a, l.b)) + l.a.sendQueue == all;
    }
  }

  /**
   B serves A's requests in the order A's calls were made, each at most once and each with
   the arguments its own call was given.
   */
  lemma ServedInCallOrder(capA: Option<nat>, capB: Option<nat>, handlerA: bool, handlerB: bool, steps: seq<Step>)
    ensures var l := Run(Opened(capA, capB, handlerA, handlerB), steps);
      && Ascending(l.b.served)
      && (forall r :: r in l.b.served ==> r.id < |l.a.made| && r.call == l.a.made[r.id])
      && (handlerB && !l.b.closed ==>
          Wired(l) && Ascending(l.b.served + l.b.dispatchQueue + Invokes(Wire(l.a, l.b)) + l.a.sendQueue))
  {
    EveryOpened(capA, capB, handlerA, handlerB, steps);
    ServedOrder(Run(Opened(capA, capB, handlerA, handlerB), steps));
  }

  /** An answer of call `k` that is not local is B's reply to the request call `k` made. */
  ghost predicate Correlated(l: Link, k: nat, outcome: Outcome) {
    k < |l.a.made| &&
    exists x :: x in l.b.exchanges && x.request == Request(k, l.a.made[k]) && outcome ==
      Replied(x.reply.errCode, x.reply.data, if x.reply.errCode.Some? then None else x.reply.metering)
  }

  lemma AnswersBelongToCalls(capA: Option<nat>, capB: Option<nat>, handlerA: bool, handlerB: bool, steps: seq<Step>)
    ensures var l := Run(Opened(capA, capB, handlerA, handlerB), steps);
      forall a :: a in l.a.answers && a.outcome.Replied? ==> Correlated(l, a.call, a.outcome)
  {
    EveryOpened(capA, capB, handlerA, handlerB, steps);
    AnswersCorrelated(Run(Opened(capA, capB, handlerA, handlerB), steps));
  }

  lemma AnswersCorrelated(l: Link)
    requires Inv(l.a) && Inv(l.b) && Wired(l)
    ensures forall a :: a in l.a.answers && a.outcome.Replied? ==> Correlated(l, a.call, a.outcome)
  {
    Split(l.a.posted, |l.b.received|);
    Split(l.b.posted, |l.a.received|);
    assert l.a.posted[..|l.b.received|] == l.b.received;
    assert l.b.posted[..|l.a.received|] == l.a.received;
    forall a | a in l.a.answers && a.outcome.Replied?
      ensures Correlated(l, a.call, a.outcome)
    {
      var r :| r in Replies(l.a.received) && r.id == a.call && a.outcome == OutcomeOf(r);
      assert r in Replies(l.b.posted);
      var i :| 0 <= i < |RepliesOf(l.b.exchanges)| && RepliesOf(l.b.exchanges)[i] == r;
      var x := l.b.exchanges[i];
      assert x in l.b.exchanges && Requests(l.b.exchanges)[i] == x.request;
      assert x.request in Invokes(l.b.received);
      assert x.request in Invokes(l.a.posted) + l.a.sendQueue;
    }
  }

  /** B replies to no request twice. */
  lemma RepliedOnce(capA: Option<nat>, capB: Option<nat>, handlerA: bool, handlerB: bool, steps: seq<Step>)
    ensures var l := Run(Opened(capA, capB, handlerA, handlerB), steps);
      forall i, j :: 0 <= i < j < |l.b.exchanges| ==> l.b.exchanges[i].request.id != l.b.exchanges[j].request.id
  {
    EveryOpened(capA, capB, handlerA, handlerB, steps);
    var l := Run(Opened(capA, capB, handlerA, handlerB), steps);
    Split(l.a.posted, |l.b.received|);
    assert l.a.posted[..|l.b.received|] == l.b.received;
    var all := Invokes(l.a.posted) + l.a.sendQueue;
    var inv := Invokes(l.b.received);
    assert inv <= all;
    forall i, j | 0 <= i < j < |inv| ensures inv[i].id < inv[j].id { assert all[i].id < all[j].id; }
    var rs := Requests(l.b.exchanges);
    if handlerB {
      assert Ascending(l.b.served) by {
        forall i, j | 0 <= i < j < |l.b.served| ensures l.b.served[i].id < l.b.served[j].id {
          assert inv[i].id < inv[j].id;
        }
      }
      assert multiset(rs) <= multiset(l.b.served);
      DistinctIds(rs, l.b.served);
    }
    forall i, j | 0 <= i < j < |l.b.exchanges|
      ensures l.b.exchanges[i].request.id != l.b.exchanges[j].request.id
    {
      assert rs[i].id != rs[j].id;
    }
  }

  lemma DistinctIds(rs: seq<Request>, served: seq<Request>)
    requires Ascending(served) && multiset(rs) <= multiset(served)
    ensures forall i, j :: 0 <= i < j < |rs| ==> rs[i].id != rs[j].id
  {
    forall i, j | 0 <= i < j < |rs| ensures rs[i].id != rs[j].id {
      if rs[i].id == rs[j].id {
        assert rs[i] in multiset(served) && rs[j] in multiset(served);
        var p :| 0 <= p < |served| && served[p] == rs[i];
        var q :| 0 <= q < |served| && served[q] == rs[j];
        assert p == q;
        TwiceInRange(rs, i, j);
        OnceInAscending(served, p);
        assert false;
      }
    }
  }

  lemma TwiceInRange(rs: seq<Request>, i: nat, j: nat)
    requires i < j < |rs| && rs[i] == rs[j]
    ensures multiset(rs)[rs[i]] >= 2
  {
    assert rs == rs[..j] + rs[j..];
    assert rs[i] in rs[..j] && rs[i] in rs[j..];
  }

  lemma OnceInAscending(served: seq<Request>, p: nat)
    requires Ascending(served) && p < |served|
    ensures multiset(served)[served[p]] == 1
  {
    assert served == served[..p] + [served[p]] + served[p + 1..];
    assert served[p] !in served[..p] && served[p] !in served[p + 1..];
  }

  /** An end without a handler replies PEER_NO_HANDLER to everything. */
  lemma {:induction false} NoHandlerRefuses(ls: seq<Link>, steps: seq<Step>, a: Answer)
    requires IsRun(ls, steps) && !ls[|steps|].b.hasHandler && a in ls[|steps|].a.answers && a.outcome.Replied?
    ensures a.outcome == Replied(Some("PEER_NO_HANDLER"), None, None) && ls[|steps|].b.served == []
  {
    RunKeeps(ls, steps);
    AnswersCorrelated(ls[|steps|]);
    assert Correlated(ls[|steps|], a.call, a.outcome);
  }
}
