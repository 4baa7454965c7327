/**
 What every event keeps at one end of a peer channel, whatever the other side sends
 (late, duplicate, unknown or made-up replies included), and therefore what holds after
 every run.
 */
module PeerEndInvariants {
  import opened Wrappers
  import opened PeerEnd

  function Invokes(ms: seq<Message>): seq<Request> {
    if ms == [] then []
    else
      var m := ms[|ms| - 1];
      Invokes(ms[..|ms| - 1]) + if m.PeerInvoke? then [m.request] else []
  }

  function Replies(ms: seq<Message>): seq<Reply> {
    if ms == [] then []
    else
      var m := ms[|ms| - 1];
      Replies(ms[..|ms| - 1]) + if m.PeerReply? then [m.reply] else []
  }

  function Requests(xs: seq<Exchange>): seq<Request> { seq(|xs|, i requires 0 <= i < |xs| => xs[i].request) }

  function RepliesOf(xs: seq<Exchange>): seq<Reply> { seq(|xs|, i requires 0 <= i < |xs| => xs[i].reply) }

  function Count(answers: seq<Answer>, k: nat): nat {
    if answers == [] then 0
    else Count(answers[..|answers| - 1], k) + if answers[|answers| - 1].call == k then 1 else 0
  }

  ghost predicate Ascending(q: seq<Request>) { forall i, j :: 0 <= i < j < |q| ==> q[i].id < q[j].id }

  // ----- the invariant, part by part -----

  /**
   The two counters are exactly the traffic that has not come back yet; what had not come back
   when the channel was closed was within the cap.
   */
  ghost predicate Books(e: End) {
    && e.activeDispatches == |e.running|
    && (!e.closed ==>
      && e.activeSends == |Invokes(e.posted)| - |Replies(e.received)|
      && |e.dispatchQueue| + e.activeDispatches + |Replies(e.posted)| == |Invokes(e.received)|)
    && (e.closed && e.cap.Some? ==> |Invokes(e.posted)| - |Replies(e.received)| <= e.cap.value)
  }

  /** Neither counter passes the cap, and a call waits only while its counter is at the cap. */
  ghost predicate Caps(e: End) {
    && (e.cap.Some? ==> e.activeSends <= e.cap.value && e.activeDispatches <= e.cap.value)
    && (e.sendQueue != [] ==> e.cap.Some? && e.activeSends == e.cap.value && !e.closed)
    && (e.dispatchQueue != [] ==> e.cap.Some? && e.activeDispatches == e.cap.value && !e.closed)
  }

  /** Requests leave in the order of their ids, each carrying its own call's arguments. */
  ghost predicate InOrder(e: End) {
    && |e.made| == e.msgID
    && Ascending(Invokes(e.posted) + e.sendQueue)
    && forall r :: r in Invokes(e.posted) + e.sendQueue ==> r.id < e.msgID && r.call == e.made[r.id]
  }

  /** Every call has been answered or is pending, and never both. */
  ghost predicate Once(e: End) {
    && e.msgID <= e.calls
    && (!e.closed ==> e.calls == e.msgID)
    && (e.closed ==> e.pending == map[])
    && (forall id :: id in e.pending ==> id < e.msgID && e.pending[id] == id)
    && (forall k: nat :: Settled(e, k))
    && e.closes == if e.closed then 1 else 0
  }

  ghost predicate Settled(e: End, k: nat) {
    Count(e.answers, k) == if k < e.calls && k !in e.pending then 1 else 0
  }

  /** Requests are served in arrival order, and each reply belongs to the request it is filed under. */
  ghost predicate Serving(e: End) {
    && Replies(e.posted) == RepliesOf(e.exchanges)
    && (forall x :: x in e.exchanges ==> x.reply.id == x.request.id)
    && (e.hasHandler ==>
      && e.served <= Invokes(e.received)
      && (!e.closed ==> e.served + e.dispatchQueue == Invokes(e.received))
      && multiset(e.running) + multiset(Requests(e.exchanges)) <= multiset(e.served))
    && (!e.hasHandler ==>
      && e.served == [] && e.running == [] && e.dispatchQueue == []
      && Requests(e.exchanges) == Invokes(e.received)
      && forall x :: x in e.exchanges ==> x.reply == Reply(x.request.id, Some(PEER_NO_HANDLER), None, None))
    && (forall r :: r in Requests(e.exchanges) ==> r in Invokes(e.received))
  }

  /** An answer that is not local came from a received reply with that call's id. */
  ghost predicate Answering(e: End) {
    forall a :: a in e.answers && a.outcome.Replied? ==>
      exists r :: r in Replies(e.received) && r.id == a.call && a.outcome == OutcomeOf(r)
  }

  ghost predicate HasReply(received: seq<Message>, id: nat) { exists q :: q in Replies(received) && q.id == id }

  /** A pending call has sent its request or has it in the queue; what is in the queue is pending, or the peer has made up a reply to it. */
  ghost predicate Tracked(e: End) {
    && |e.made| == e.msgID
    && (forall id :: id in e.pending ==> id < e.msgID && Request(id, e.made[id]) in Invokes(e.posted) + e.sendQueue)
    && (forall r :: r in e.sendQueue ==> r.id in e.pending || HasReply(e.received, r.id))
  }

  ghost predicate Inv(e: End) { Books(e) && Caps(e) && InOrder(e) && Once(e) && Serving(e) && Answering(e) && Tracked(e) }

  // ----- one event -----

  lemma {:induction false} AscendingDrops(lo: seq<Request>, q: seq<Request>)
    requires Ascending(lo + q) && q != []
    ensures Ascending(lo + q[1..])
  {
    var whole, less := lo + q, lo + q[1..];
    forall i, j | 0 <= i < j < |less| ensures less[i].id < less[j].id {
      var i', j' := if i < |lo| then i else i + 1, if j < |lo| then j else j + 1;
      assert whole[i'].id < whole[j'].id;
    }
  }

  lemma {:induction false} WithoutHas(q: seq<Request>, id: nat)
    ensures forall r :: r in Without(q, id) <==> r in q && r.id != id
    decreases |q|
  {
    if q != [] {
      WithoutHas(q[1..], id);
      assert q == [q[0]] + q[1..];
    }
  }

  lemma {:induction false} WithoutAscends(q: seq<Request>, id: nat, lo: seq<Request>)
    requires Ascending(lo + q)
    ensures Ascending(lo + Without(q, id))
    decreases |q|
  {
    if q == [] {
      assert lo + Without(q, id) == lo + q;
    } else if q[0].id == id {
      AscendingDrops(lo, q);
      WithoutAscends(q[1..], id, lo);
    } else {
      assert lo + q == (lo + [q[0]]) + q[1..];
      WithoutAscends(q[1..], id, lo + [q[0]]);
      assert (lo + [q[0]]) + Without(q[1..], id) == lo + Without(q, id);
    }
  }

  lemma {:induction false} WithoutKeeps(q: seq<Request>, id: nat, lo: seq<Request>)
    requires Ascending(lo + q)
    ensures Ascending(lo + Without(q, id))
    ensures forall r :: r in Without(q, id) <==> r in q && r.id != id
    ensures Without(q, id) != [] ==> q != []
  {
    WithoutHas(q, id);
    WithoutAscends(q, id, lo);
  }

  lemma GoneCounts(pending: map<nat, nat>, n: nat, k: nat)
    requires forall id :: id in pending ==> pending[id] == id
    ensures Count(GoneAnswers(pending, n), k) == if k < n && k in pending then 1 else 0
    ensures forall a :: a in GoneAnswers(pending, n) ==> a.outcome.Gone?
  {
    if n > 0 {
      GoneCounts(pending, n - 1, k);
      CountAppend(GoneAnswers(pending, n - 1), if n - 1 in pending then [Answer(pending[n - 1], Gone)] else [], k);
    }
  }

  lemma CountAppend(s: seq<Answer>, t: seq<Answer>, k: nat)
    ensures Count(s + t, k) == Count(s, k) + Count(t, k)
  {
    if t == [] {
      assert s + t == s;
    } else {
      assert (s + t)[..|s + t| - 1] == s + t[..|t| - 1];
      CountAppend(s, t[..|t| - 1], k);
    }
  }

  lemma SendKeeps(e: End, r: Request)
    requires !e.closed && Books(e) && InOrder(e)
    requires Ascending(Invokes(e.posted) + [r] + e.sendQueue) && r.id < e.msgID && r.call == e.made[r.id]
    ensures Books(SendInvoke(e, r)) && InOrder(SendInvoke(e, r))
    ensures Replies(SendInvoke(e, r).posted) == Replies(e.posted)
    ensures Invokes(SendInvoke(e, r).posted) == Invokes(e.posted) + [r]
  {
  }

  lemma InvokeQueued(e: End, c: Call)
    requires Books(e) && Caps(e) && InOrder(e) && !e.closed && AtCap(e.cap, e.activeSends)
    ensures Books(Invoke(e, c)) && Caps(Invoke(e, c)) && InOrder(Invoke(e, c))
  {
    var r := Request(e.msgID, c);
    assert Invokes(e.posted) + (e.sendQueue + [r]) == Invokes(e.posted) + e.sendQueue + [r];
  }

  lemma InvokeSent(e: End, c: Call)
    requires Books(e) && Caps(e) && InOrder(e) && !e.closed && !AtCap(e.cap, e.activeSends)
    ensures Books(Invoke(e, c)) && InOrder(Invoke(e, c))
    ensures Replies(Invoke(e, c).posted) == Replies(e.posted)
  {
    var r := Request(e.msgID, c);
    var e1 := e.(msgID := e.msgID + 1, calls := e.calls + 1, made := e.made + [c],
                 pending := e.pending[e.msgID := e.calls]);
    assert e.sendQueue == [];
    assert Invokes(e.posted) + [] == Invokes(e.posted);
    assert Invokes(e.posted) + [r] + e.sendQueue == Invokes(e.posted) + [r];
    assert InOrder(e1);
    SendKeeps(e1, r);
  }

  lemma InvokeSends(e: End, c: Call)
    requires Books(e) && Caps(e) && InOrder(e)
    ensures Books(Invoke(e, c)) && Caps(Invoke(e, c)) && InOrder(Invoke(e, c))
    ensures Replies(Invoke(e, c).posted) == Replies(e.posted)
  {
    if !e.closed {
      if AtCap(e.cap, e.activeSends) { InvokeQueued(e, c); } else { InvokeSent(e, c); }
    }
  }

  lemma InvokeOnce(e: End, c: Call)
    requires Once(e)
    ensures Once(Invoke(e, c))
  {
    forall k: nat ensures Settled(Invoke(e, c), k) {
      assert Settled(e, k);
      CountAppend(e.answers, [Answer(e.calls, Gone)], k);
    }
  }

  lemma ServingFrame(e: End, e': End)
    requires Serving(e) && Replies(e'.posted) == Replies(e.posted)
    requires e'.exchanges == e.exchanges && e'.served == e.served && e'.running == e.running
    requires e'.dispatchQueue == e.dispatchQueue && e'.hasHandler == e.hasHandler && e'.closed == e.closed
    requires Invokes(e'.received) == Invokes(e.received)
    ensures Serving(e')
  {
  }

  lemma InvokeTracks(e: End, c: Call)
    requires Tracked(e) && InOrder(e)
    ensures Tracked(Invoke(e, c))
  {
    if !e.closed {
      var e', r := Invoke(e, c), Request(e.msgID, c);
      assert Invokes(e'.posted) + e'.sendQueue == Invokes(e.posted) + e.sendQueue + [r]
        || (Invokes(e'.posted) == Invokes(e.posted) + [r] && e'.sendQueue == e.sendQueue);
      assert r in Invokes(e'.posted) + e'.sendQueue;
      forall id | id in e'.pending ensures id < e'.msgID && Request(id, e'.made[id]) in Invokes(e'.posted) + e'.sendQueue {
        if id in e.pending {
          assert Request(id, e.made[id]) in Invokes(e.posted) + e.sendQueue && e'.made[id] == e.made[id];
        }
      }
    }
  }

  lemma InvokeKeeps(e: End, c: Call)
    requires Inv(e)
    ensures Inv(Invoke(e, c))
  {
    InvokeTracks(e, c);
    InvokeSends(e, c);
    InvokeOnce(e, c);
    ServingFrame(e, Invoke(e, c));
    if e.closed {
      AnsweringAppend(e, Invoke(e, c), Answer(e.calls, Gone));
    } else {
      AnsweringMonotone(e, Invoke(e, c));
    }
  }

  lemma AnsweringAppend(e: End, e': End, a: Answer)
    requires Answering(e) && e'.answers == e.answers + [a]
    requires forall q :: q in Replies(e.received) ==> q in Replies(e'.received)
    requires a.outcome.Replied? ==>
      exists r :: r in Replies(e'.received) && r.id == a.call && a.outcome == OutcomeOf(r)
    ensures Answering(e')
  {
  }

  lemma TimeoutOnce(e: End, id: nat)
    requires Once(e) && id in e.pending
    ensures Once(Timeout(e, id))
  {
    forall k: nat ensures Settled(Timeout(e, id), k) {
      assert Settled(e, k);
      CountAppend(e.answers, [Answer(e.pending[id], TimedOut)], k);
    }
  }

  lemma TimeoutTracks(e: End, id: nat)
    requires Tracked(e) && id in e.pending
    ensures Tracked(Timeout(e, id))
  {
    var e' := Timeout(e, id);
    WithoutHas(e.sendQueue, id);
    forall k | k in e'.pending ensures Request(k, e'.made[k]) in Invokes(e'.posted) + e'.sendQueue {
      assert Request(k, e.made[k]) in Invokes(e.posted) + e.sendQueue;
    }
  }

  lemma TimeoutKeeps(e: End, id: nat)
    requires Inv(e)
    ensures Inv(Timeout(e, id))
  {
    if id in e.pending {
      TimeoutTracks(e, id);
      WithoutKeeps(e.sendQueue, id, Invokes(e.posted));
      TimeoutOnce(e, id);
      ServingFrame(e, Timeout(e, id));
      AnsweringAppend(e, Timeout(e, id), Answer(e.pending[id], TimedOut));
    }
  }

  lemma InvalidateKeeps(e: End)
    requires Inv(e)
    ensures Inv(Invalidate(e))
  {
    if !e.closed {
      forall k: nat ensures Settled(Invalidate(e), k) {
        assert Settled(e, k);
        GoneCounts(e.pending, e.msgID, k);
        CountAppend(e.answers, GoneAnswers(e.pending, e.msgID), k);
      }
      GoneCounts(e.pending, e.msgID, 0);
      assert Ascending(Invokes(e.posted)) by {
        forall i, j | 0 <= i < j < |Invokes(e.posted)| ensures Invokes(e.posted)[i].id < Invokes(e.posted)[j].id {
          assert (Invokes(e.posted) + e.sendQueue)[i].id < (Invokes(e.posted) + e.sendQueue)[j].id;
        }
      }
      assert Invokes(e.posted) + [] == Invokes(e.posted);
    }
  }

  /** What a received message changes in the histories. */
  lemma ReceivedAppend(ms: seq<Message>, m: Message)
    ensures Invokes(ms + [m]) == Invokes(ms) + if m.PeerInvoke? then [m.request] else []
    ensures Replies(ms + [m]) == Replies(ms) + if m.PeerReply? then [m.reply] else []
  {
  }

  lemma DrainSendKeeps(e: End)
    requires !e.closed && Books(e) && InOrder(e)
    ensures Books(DrainSendQueue(e)) && InOrder(DrainSendQueue(e))
    ensures Replies(DrainSendQueue(e).posted) == Replies(e.posted)
  {
    if e.sendQueue != [] && !AtCap(e.cap, e.activeSends) {
      var e1 := e.(sendQueue := e.sendQueue[1..]);
      var whole := Invokes(e.posted) + e.sendQueue;
      assert whole == Invokes(e.posted) + [e.sendQueue[0]] + e.sendQueue[1..];
      assert e.sendQueue[0] in whole;
      assert InOrder(e1) by {
        forall i, j | 0 <= i < j < |Invokes(e.posted) + e1.sendQueue|
          ensures (Invokes(e.posted) + e1.sendQueue)[i].id < (Invokes(e.posted) + e1.sendQueue)[j].id
        {
          var n := |Invokes(e.posted)|;
          assert whole[if i < n then i else i + 1].id < whole[if j < n then j else j + 1].id;
        }
      }
      SendKeeps(e1, e.sendQueue[0]);
    }
  }

  /** The end between the counting of a reply and its matching with a pending call. */
  function Counted(e: End, r: Reply): End {
    DrainSendQueue(e.(received := e.received + [PeerReply(r)], activeSends := e.activeSends - 1))
  }

  lemma CountedSends(e: End, r: Reply)
    requires Books(e) && InOrder(e) && !e.closed
    ensures var e1 := Counted(e, r);
      && Books(e1) && InOrder(e1)
      && Replies(e1.posted) == Replies(e.posted)
      && Invokes(e1.received) == Invokes(e.received) && Replies(e1.received) == Replies(e.received) + [r]
  {
    ReceivedAppend(e.received, PeerReply(r));
    var e0 := e.(received := e.received + [PeerReply(r)], activeSends := e.activeSends - 1);
    assert Books(e0);
    assert InOrder(e0);
    DrainSendKeeps(e0);
  }

  lemma ReplySends(e: End, r: Reply)
    requires Books(e) && Caps(e) && InOrder(e) && !e.closed
    ensures var e' := Receive(e, PeerReply(r));
      && Books(e') && Caps(e') && InOrder(e')
      && Replies(e'.posted) == Replies(e.posted)
      && Invokes(e'.received) == Invokes(e.received) && Replies(e'.received) == Replies(e.received) + [r]
  {
    CountedSends(e, r);
    CountedCaps(e, r);
    ReplyIs(e, r);
    SendFrame(Counted(e, r), Receive(e, PeerReply(r)));
  }

  /** What follows the counting only matches the reply with its call. */
  lemma ReplyIs(e: End, r: Reply)
    requires !e.closed
    ensures var e' := Receive(e, PeerReply(r)); e' == Counted(e, r).(pending := e'.pending, answers := e'.answers)
  {
    assert Receive(e, PeerReply(r)) == AnswerPending(Counted(e, r), r);
    AnswersOnly(Counted(e, r), r);
  }

  lemma AnswersOnly(e: End, r: Reply)
    ensures var e' := AnswerPending(e, r); e' == e.(pending := e'.pending, answers := e'.answers)
  {
  }

  lemma SendFrame(e: End, e': End)
    requires Books(e) && Caps(e) && InOrder(e)
    requires e' == e.(pending := e'.pending, answers := e'.answers)
    ensures Books(e') && Caps(e') && InOrder(e')
  {
  }

  lemma CountedCaps(e: End, r: Reply)
    requires Caps(e) && !e.closed
    ensures Caps(Counted(e, r))
  {
  }

  lemma DrainSendTracks(e: End)
    requires Tracked(e) && !e.closed
    ensures Tracked(DrainSendQueue(e)) && DrainSendQueue(e).received == e.received
  {
    var e' := DrainSendQueue(e);
    if e.sendQueue != [] && !AtCap(e.cap, e.activeSends) {
      assert e.sendQueue == [e.sendQueue[0]] + e.sendQueue[1..];
      assert Invokes(e'.posted) + e'.sendQueue == Invokes(e.posted) + e.sendQueue;
    }
  }

  lemma ReplyTracks(e: End, r: Reply)
    requires Tracked(e) && !e.closed
    ensures Tracked(Receive(e, PeerReply(r)))
  {
    var e0 := e.(received := e.received + [PeerReply(r)], activeSends := e.activeSends - 1);
    ReceivedAppend(e.received, PeerReply(r));
    forall id | HasReply(e.received, id) ensures HasReply(e0.received, id) {
      var q :| q in Replies(e.received) && q.id == id;
      assert q in Replies(e0.received);
    }
    assert Tracked(e0);
    DrainSendTracks(e0);
    AnswerTracks(Counted(e, r), r);
  }

  lemma AnswerTracks(e: End, r: Reply)
    requires Tracked(e) && r in Replies(e.received)
    ensures Tracked(AnswerPending(e, r))
  {
    assert HasReply(e.received, r.id);
  }

  lemma ReplyOnce(e: End, r: Reply)
    requires Once(e) && !e.closed
    ensures Once(Receive(e, PeerReply(r)))
  {
    forall k: nat ensures Settled(Receive(e, PeerReply(r)), k) {
      assert Settled(e, k);
      if r.id in e.pending { CountAppend(e.answers, [Answer(e.pending[r.id], OutcomeOf(r))], k); }
    }
  }

  lemma ReplyAnswers(e: End, r: Reply)
    requires Answering(e) && Once(e) && !e.closed
    ensures Answering(Receive(e, PeerReply(r)))
  {
  }

  /** A reply changes nothing on the callee's side. */
  lemma ReplyServes(e: End, r: Reply)
    requires Books(e) && InOrder(e) && Serving(e) && !e.closed
    ensures Serving(Receive(e, PeerReply(r)))
  {
    CountedSends(e, r);
    ReplyIs(e, r);
    CountedServes(e, r);
    ServingFrame(e, Receive(e, PeerReply(r)));
  }

  lemma CountedServes(e: End, r: Reply)
    ensures var e1 := Counted(e, r);
      && e1.exchanges == e.exchanges && e1.served == e.served && e1.running == e.running
      && e1.dispatchQueue == e.dispatchQueue && e1.hasHandler == e.hasHandler && e1.closed == e.closed
  {
  }

  lemma HandleReplyKeeps(e: End, e': End, r: Reply)
    requires Inv(e) && !e.closed && e' == Receive(e, PeerReply(r))
    ensures Inv(e')
  {
    assert Books(e') && Caps(e') && InOrder(e') by { ReplySends(e, r); }
    assert Once(e') by { ReplyOnce(e, r); }
    assert Serving(e') by { ReplyServes(e, r); }
    assert Answering(e') by { ReplyAnswers(e, r); }
    assert Tracked(e') by { ReplyTracks(e, r); }
  }

  /** The callee's side changes nothing that the caller's calls depend on. */
  lemma TrackedFrame(e: End, e': End)
    requires Tracked(e) && Invokes(e'.posted) == Invokes(e.posted) && Replies(e'.received) == Replies(e.received)
    requires e'.sendQueue == e.sendQueue && e'.pending == e.pending && e'.made == e.made && e'.msgID == e.msgID
    ensures Tracked(e')
  {
    forall id | HasReply(e.received, id) ensures HasReply(e'.received, id) {
      var q :| q in Replies(e.received) && q.id == id;
      assert q in Replies(e'.received);
    }
  }

  lemma AnsweringMonotone(e: End, e': End)
    requires Answering(e) && e'.answers == e.answers
    requires forall q :: q in Replies(e.received) ==> q in Replies(e'.received)
    ensures Answering(e')
  {
  }

  lemma SettledSame(e: End, e': End)
    requires Once(e) && e'.answers == e.answers && e'.pending == e.pending && e'.calls == e.calls
    ensures forall k: nat :: Settled(e', k)
  {
    forall k: nat ensures Settled(e', k) { assert Settled(e, k); }
  }

  lemma PostReplyEffect(e: End, x: Exchange)
    requires !e.closed
    ensures var e' := PostReply(e, x);
      && Invokes(e'.posted) == Invokes(e.posted)
      && Replies(e'.posted) == Replies(e.posted) + [x.reply]
      && Requests(e'.exchanges) == Requests(e.exchanges) + [x.request]
      && RepliesOf(e'.exchanges) == RepliesOf(e.exchanges) + [x.reply]
  {
  }

  lemma InvokeRefused(e: End, r: Request)
    requires Books(e) && Serving(e) && !e.closed && !e.hasHandler
    ensures var e' := Receive(e, PeerInvoke(r));
      && Books(e') && Serving(e')
      && Invokes(e'.posted) == Invokes(e.posted) && Replies(e'.received) == Replies(e.received)
  {
  }

  lemma InvokeAccepted(e: End, r: Request)
    requires Books(e) && Serving(e) && !e.closed && e.hasHandler
    requires e.dispatchQueue != [] ==> AtCap(e.cap, e.activeDispatches)
    ensures var e' := Receive(e, PeerInvoke(r));
      && Books(e') && Serving(e')
      && e'.posted == e.posted && Replies(e'.received) == Replies(e.received)
  {
  }

  lemma InvokeArrives(e: End, r: Request)
    requires Books(e) && Serving(e) && !e.closed
    requires e.dispatchQueue != [] ==> AtCap(e.cap, e.activeDispatches)
    ensures var e' := Receive(e, PeerInvoke(r));
      && Books(e') && Serving(e')
      && Invokes(e'.posted) == Invokes(e.posted) && Replies(e'.received) == Replies(e.received)
  {
    if e.hasHandler { InvokeAccepted(e, r); } else { InvokeRefused(e, r); }
  }

  lemma InvokeCaps(e: End, r: Request)
    requires Caps(e) && !e.closed
    ensures Caps(Receive(e, PeerInvoke(r)))
  {
  }

  lemma HandleInvokeKeeps(e: End, r: Request)
    requires Inv(e) && !e.closed
    ensures Inv(Receive(e, PeerInvoke(r)))
  {
    var e' := Receive(e, PeerInvoke(r));
    InvokeArrives(e, r);
    InvokeCaps(e, r);
    TrackedFrame(e, e');
    SettledSame(e, e');
    AnsweringMonotone(e, e');
    assert InOrder(e');
    assert Once(e');
  }

  lemma OtherKeeps(e: End)
    requires Inv(e) && !e.closed
    ensures Inv(Receive(e, Other))
  {
    ReceivedAppend(e.received, Other);
    TrackedFrame(e, Receive(e, Other));
    SettledSame(e, Receive(e, Other));
    AnsweringMonotone(e, Receive(e, Other));
  }

  lemma DrainDispatchKeeps(e: End)
    requires Books(e) && Serving(e)
    requires e.cap.Some? ==> e.activeDispatches <= e.cap.value
    requires e.dispatchQueue != [] ==> !e.closed && e.cap.Some? && e.activeDispatches + 1 >= e.cap.value
    ensures var e' := DrainDispatchQueue(e);
      && Books(e') && Serving(e')
      && (e.cap.Some? ==> e'.activeDispatches <= e.cap.value)
      && (e'.dispatchQueue != [] ==> !e.closed && e.cap.Some? && e'.activeDispatches == e.cap.value)
  {
  }

  /** The reply is on the port and the slot is free; the queue is not drained yet. */
  function ReplyPosted(e: End, i: nat, errCode: Option<string>, data: Option<Value>, metering: Option<Value>): End
    requires i < |e.running|
  {
    var r := e.running[i];
    PostReply(e.(activeDispatches := e.activeDispatches - 1, running := e.running[..i] + e.running[i + 1..]),
              Exchange(r, Reply(r.id, errCode, data, metering)))
  }

  lemma RepliedServing(e: End, i: nat, errCode: Option<string>, data: Option<Value>, metering: Option<Value>)
    requires Books(e) && Serving(e) && i < |e.running|
    ensures Books(ReplyPosted(e, i, errCode, data, metering)) && Serving(ReplyPosted(e, i, errCode, data, metering))
    ensures Invokes(ReplyPosted(e, i, errCode, data, metering).posted) == Invokes(e.posted)
  {
    var r := e.running[i];
    var e1 := e.(activeDispatches := e.activeDispatches - 1, running := e.running[..i] + e.running[i + 1..]);
    var x := Exchange(r, Reply(r.id, errCode, data, metering));
    var e2 := PostReply(e1, x);
    MovedOver(e.running, i, Requests(e.exchanges), e.served);
    if !e.closed {
      PostReplyEffect(e1, x);
      assert Requests(e2.exchanges) == Requests(e.exchanges) + [r];
      assert r in e.served && r in Invokes(e.received);
    }
  }

  /** A request that stops running and is replied to is still counted once. */
  lemma MovedOver(running: seq<Request>, i: nat, replied: seq<Request>, served: seq<Request>)
    requires i < |running| && multiset(running) + multiset(replied) <= multiset(served)
    ensures multiset(running[..i] + running[i + 1..]) + multiset(replied + [running[i]]) <= multiset(served)
    ensures multiset(running[..i] + running[i + 1..]) + multiset(replied) <= multiset(served)
    ensures running[i] in served
  {
    assert running == running[..i] + [running[i]] + running[i + 1..];
    assert running[i] in multiset(running);
    assert running[i] in multiset(served);
  }

  lemma FinishIs(e: End, i: nat, errCode: Option<string>, data: Option<Value>, metering: Option<Value>)
    requires i < |e.running|
    ensures var e2 := ReplyPosted(e, i, errCode, data, metering);
      var e' := Finish(e, i, errCode, data, metering);
      && e' == DrainDispatchQueue(e2)
      && e'.posted == e2.posted && e'.sendQueue == e.sendQueue && e'.activeSends == e.activeSends
      && e2.cap == e.cap && e2.dispatchQueue == e.dispatchQueue && e2.activeDispatches == e.activeDispatches - 1
      && e2.closed == e.closed && e'.closed == e.closed && e'.cap == e.cap
  {
  }

  lemma FinishServes(e: End, i: nat, errCode: Option<string>, data: Option<Value>, metering: Option<Value>)
    requires Books(e) && Caps(e) && Serving(e) && i < |e.running|
    ensures var e' := Finish(e, i, errCode, data, metering);
      Books(e') && Caps(e') && Serving(e') && Invokes(e'.posted) == Invokes(e.posted)
  {
    RepliedServing(e, i, errCode, data, metering);
    var e2 := ReplyPosted(e, i, errCode, data, metering);
    DrainDispatchKeeps(e2);
    FinishIs(e, i, errCode, data, metering);
  }

  lemma FinishKeeps(e: End, i: nat, errCode: Option<string>, data: Option<Value>, metering: Option<Value>)
    requires Inv(e) && i < |e.running|
    ensures Inv(Finish(e, i, errCode, data, metering))
  {
    var e' := Finish(e, i, errCode, data, metering);
    FinishServes(e, i, errCode, data, metering);
    TrackedFrame(e, e');
    SettledSame(e, e');
    AnsweringMonotone(e, e');
    assert InOrder(e');
    assert Once(e');
  }

  lemma ReceiveKeeps(e: End, m: Message)
    requires Inv(e)
    ensures Inv(Receive(e, m))
  {
    if !e.closed {
      match m
      case PeerInvoke(r) => HandleInvokeKeeps(e, r);
      case PeerReply(r) => HandleReplyKeeps(e, Receive(e, m), r);
      case Other => OtherKeeps(e);
    }
  }

  lemma ApplyKeeps(e: End, ev: Event)
    requires Inv(e)
    ensures Inv(Apply(e, ev))
  {
    match ev
    case InvokeEvent(c) => InvokeKeeps(e, c);
    case TimeoutEvent(id) => TimeoutKeeps(e, id);
    case ReceiveEvent(m) => ReceiveKeeps(e, m);
    case FinishEvent(i, err, d, p) => if i < |e.running| { FinishKeeps(e, i, err, d, p); }
    case InvalidateEvent => InvalidateKeeps(e);
  }

  // ----- every run -----

  lemma FreshHolds(cap: Option<nat>, hasHandler: bool)
    ensures Inv(Fresh(cap, hasHandler))
  {
  }

  ghost predicate Follows(e: End, ev: Event, e': End) { e' == Apply(e, ev) }

  /** A run of a new end, as the sequence of its states. */
  ghost predicate IsRun(es: seq<End>, evs: seq<Event>) {
    && |es| == |evs| + 1 && es[0] == Fresh(es[0].cap, es[0].hasHandler)
    && forall i :: 0 <= i < |evs| ==> Follows(es[i], evs[i], es[i + 1])
  }

  lemma {:induction false} RunKeeps(es: seq<End>, evs: seq<Event>)
    requires IsRun(es, evs)
    ensures Inv(es[|evs|])
    decreases |evs|
  {
    if evs == [] {
      FreshHolds(es[0].cap, es[0].hasHandler);
    } else {
      var n := |evs| - 1;
      assert IsRun(es[..n + 1], evs[..n]);
      RunKeeps(es[..n + 1], evs[..n]);
      assert Follows(es[n], evs[n], es[n + 1]);
      ApplyKeeps(es[n], evs[n]);
    }
  }

  /**
   In every run, each call's callback has run once if the call is no longer pending or the channel
   is closed, and not at all before; nothing else runs a callback.
   */
  lemma {:induction false} CallbackRunsOnce(es: seq<End>, evs: seq<Event>, k: nat)
    requires IsRun(es, evs)
    ensures var e := es[|evs|];
      && Count(e.answers, k) <= 1
      && (Count(e.answers, k) == 1 <==> k < e.calls && (e.closed || k !in e.pending))
  {
    RunKeeps(es, evs);
    assert Settled(es[|evs|], k);
  }

  /** In every run, requests leave in increasing id order, and one waits only while as many as the cap are out. */
  lemma {:induction false} RequestsLeaveInOrder(es: seq<End>, evs: seq<Event>)
    requires IsRun(es, evs)
    ensures var e := es[|evs|];
      && Ascending(Invokes(e.posted) + e.sendQueue)
      && (e.sendQueue != [] ==> e.cap.Some? && e.activeSends == e.cap.value)
      && (e.cap.Some? ==> e.activeSends <= e.cap.value)
  {
    RunKeeps(es, evs);
  }

  /**
   In every run, the request of a pending call has been sent or is in the queue, with that call's
   arguments; a request in the queue is one whose call is pending, so that no call that has timed
   out is ever sent, unless the peer replied to it before it was sent.
   */
  lemma {:induction false} PendingIsSentOrQueued(es: seq<End>, evs: seq<Event>)
    requires IsRun(es, evs)
    ensures var e := es[|evs|];
      && (forall id :: id in e.pending ==> id < |e.made| && Request(id, e.made[id]) in Invokes(e.posted) + e.sendQueue)
      && (forall r :: r in e.sendQueue ==> r.id in e.pending || HasReply(e.received, r.id))
  {
    RunKeeps(es, evs);
  }

  /** What an answer says is so: a gone channel is closed, a call that timed out had its timer go off. */
  ghost predicate Truthful(e: End, evs: seq<Event>) {
    && (forall a :: a in e.answers && a.outcome.Gone? ==> e.closed)
    && (forall a :: a in e.answers && a.outcome.TimedOut? ==> TimeoutEvent(a.call) in evs)
  }

  ghost predicate OwnIds(e: End) { forall id :: id in e.pending ==> e.pending[id] == id }

  /** The answers that an event adds. */
  lemma {:induction false} AnswersAdded(e: End, ev: Event, e': End) returns (more: seq<Answer>)
    requires OwnIds(e) && e' == Apply(e, ev)
    ensures e'.answers == e.answers + more && (e.closed ==> e'.closed)
    ensures forall a :: a in more && a.outcome.Gone? ==> e'.closed
    ensures forall a :: a in more && a.outcome.TimedOut? ==> ev == TimeoutEvent(a.call)
  {
    match ev
    case InvokeEvent(c) => more := if e.closed then [Answer(e.calls, Gone)] else [];
    case TimeoutEvent(id) => more := if id in e.pending then [Answer(id, TimedOut)] else [];
    case ReceiveEvent(m) => more := ReceivedAnswers(e, m);
    case FinishEvent(i, err, d, p) => more := FinishAnswers(e, i, err, d, p, e');
    case InvalidateEvent => more := InvalidateAnswers(e);
  }

  lemma {:induction false} InvalidateAnswers(e: End) returns (more: seq<Answer>)
    requires OwnIds(e)
    ensures Invalidate(e).answers == e.answers + more && Invalidate(e).closed
    ensures forall a :: a in more ==> a.outcome.Gone?
  {
    more := if e.closed then [] else GoneAnswers(e.pending, e.msgID);
    GoneCounts(e.pending, e.msgID, 0);
  }

  lemma {:induction false} FinishAnswers(e: End, i: nat, errCode: Option<string>, data: Option<Value>, metering: Option<Value>, e': End) returns (more: seq<Answer>)
    requires e' == Apply(e, FinishEvent(i, errCode, data, metering))
    ensures more == [] && e'.answers == e.answers + more && e'.closed == e.closed
  {
    more := [];
    if i < |e.running| { FinishIs(e, i, errCode, data, metering); }
  }

  lemma {:induction false} ReceivedAnswers(e: End, m: Message) returns (more: seq<Answer>)
    ensures Receive(e, m).answers == e.answers + more && Receive(e, m).closed == e.closed
    ensures forall a :: a in more ==> a.outcome.Replied?
  {
    more := [];
    if !e.closed && m.PeerReply? {
      more := MatchedAnswer(Counted(e, m.reply), m.reply);
      CountedAnswers(e, m.reply);
      assert Receive(e, m) == AnswerPending(Counted(e, m.reply), m.reply);
    }
  }

  lemma CountedAnswers(e: End, r: Reply)
    ensures Counted(e, r).answers == e.answers && Counted(e, r).closed == e.closed
  {
  }

  lemma MatchedAnswer(e: End, r: Reply) returns (more: seq<Answer>)
    ensures AnswerPending(e, r).answers == e.answers + more && AnswerPending(e, r).closed == e.closed
    ensures forall a :: a in more ==> a.outcome.Replied?
  {
    more := if r.id in e.pending then [Answer(e.pending[r.id], OutcomeOf(r))] else [];
  }

  lemma {:induction false} TruthfulNext(e: End, ev: Event, e': End, evs: seq<Event>)
    requires Inv(e) && e' == Apply(e, ev) && Truthful(e, evs)
    ensures Truthful(e', evs + [ev])
  {
    var more := AnswersAdded(e, ev, e');
    TruthfulAppend(e, e', evs, ev, more);
  }

  lemma TruthfulAppend(e: End, e': End, evs: seq<Event>, ev: Event, more: seq<Answer>)
    requires Truthful(e, evs) && e'.answers == e.answers + more && (e.closed ==> e'.closed)
    requires forall a :: a in more && a.outcome.Gone? ==> e'.closed
    requires forall a :: a in more && a.outcome.TimedOut? ==> ev == TimeoutEvent(a.call)
    ensures Truthful(e', evs + [ev])
  {
  }

  /**
   In every run, a callback is told PEER_GONE only if the channel is closed, and that its call
   timed out only if that call's timer went off; anything else it is told is a reply received
   for that call.
   */
  lemma {:induction false} AnswersTellWhy(es: seq<End>, evs: seq<Event>, a: Answer)
    requires IsRun(es, evs) && a in es[|evs|].answers
    ensures match a.outcome
      case Gone => es[|evs|].closed
      case TimedOut => TimeoutEvent(a.call) in evs
      case Replied(_, _, _) => HasReply(es[|evs|].received, a.call)
  {
    RunKeeps(es, evs);
    RunTruthful(es, evs);
  }

  lemma {:induction false} RunTruthful(es: seq<End>, evs: seq<Event>)
    requires IsRun(es, evs)
    ensures Truthful(es[|evs|], evs)
    decreases |evs|
  {
    if evs != [] {
      var n := |evs| - 1;
      assert IsRun(es[..n + 1], evs[..n]);
      RunKeeps(es[..n + 1], evs[..n]);
      RunTruthful(es[..n + 1], evs[..n]);
      assert Follows(es[n], evs[n], es[n + 1]);
      TruthfulNext(es[n], evs[n], es[n + 1], evs[..n]);
      assert evs[..n] + [evs[n]] == evs;
    }
  }

  /** A closed end receives and sends nothing, starts on nothing, and stays closed; a call on it is answered PEER_GONE at once. */
  lemma {:induction false} ClosedIsSilent(es: seq<End>, evs: seq<Event>, ev: Event, e': End)
    requires IsRun(es, evs) && es[|evs|].closed && Follows(es[|evs|], ev, e')
    ensures var e := es[|evs|];
      && e'.closed && e'.posted == e.posted && e'.received == e.received && e'.served == e.served && e'.sendQueue == []
      && e'.answers == if ev.InvokeEvent? then e.answers + [Answer(e.calls, Gone)] else e.answers
  {
    RunKeeps(es, evs);
    if ev.FinishEvent? && ev.i < |es[|evs|].running| { FinishIs(es[|evs|], ev.i, ev.errCode, ev.data, ev.metering); }
  }

  /** The invalidation of an open end answers the pending calls, all of them with PEER_GONE and in the order they were made. */
  lemma {:induction false} InvalidationInOrder(es: seq<End>, evs: seq<Event>, i: nat, j: nat)
    requires IsRun(es, evs) && !es[|evs|].closed
    requires var e, e' := es[|evs|], Invalidate(es[|evs|]); |e.answers| <= i < j < |e'.answers|
    ensures var e, e' := es[|evs|], Invalidate(es[|evs|]);
      e'.answers[i].outcome == e'.answers[j].outcome == Gone && e'.answers[i].call < e'.answers[j].call
  {
    RunKeeps(es, evs);
    var e := es[|evs|];
    GoneAscend(e.pending, e.msgID, i - |e.answers|, j - |e.answers|);
  }

  lemma {:induction false} GoneAscend(pending: map<nat, nat>, n: nat, i: nat, j: nat)
    requires (forall id :: id in pending ==> pending[id] == id) && i < j < |GoneAnswers(pending, n)|
    ensures var gs := GoneAnswers(pending, n); gs[i].outcome == gs[j].outcome == Gone && gs[i].call < gs[j].call < n
  {
    var m := n - 1;
    if j < |GoneAnswers(pending, m)| { GoneAscend(pending, m, i, j); } else { GoneBelow(pending, m, i); }
  }

  lemma {:induction false} GoneBelow(pending: map<nat, nat>, n: nat, i: nat)
    requires (forall id :: id in pending ==> pending[id] == id) && i < |GoneAnswers(pending, n)|
    ensures GoneAnswers(pending, n)[i].outcome == Gone && GoneAnswers(pending, n)[i].call < n
  {
    if i < |GoneAnswers(pending, n - 1)| { GoneBelow(pending, n - 1, i); }
  }
}
