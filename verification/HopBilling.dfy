/**
 Billing of hops over one direct channel (lib/device-manager.js:362-398,
 lib/peer-channel.js:244-247): the callee runs the action of each request, asks the main
 thread to meter it, and only then replies.  Any number of requests are under way at once, on
 behalf of different outer callers, and finish in any order.

 A request the channel does not allow is one whose action fails.
 */
module HopBilling {
  import opened Wrappers
  import opened PeerEnd
  import opened PeerEndInvariants
  import opened PeerLink

  const RATE_LIMITED := "RATE_LIMITED"
  const HOP_IDENTITY_UNRESOLVED := "HOP_IDENTITY_UNRESOLVED"

  /** One metering request, with the output of the action it is for. */
  datatype Charge = Charge(request: Request, key: string, output: Option<Value>)

  /** What an action called back with, or what a metering request was answered with. */
  datatype Callback = Callback(errCode: Option<string>, value: Option<Value>)

  /**
   `metering` holds, by request id, the outputs of the hops whose metering request is out.
   `acted` (what each action called back with) and `answered` (what the main thread answered each
   metering request with) are history, taken from the steps themselves.
   */
  datatype Ledger = Ledger(
    grantKey: Option<string>, metering: map<nat, Option<Value>>, charges: seq<Charge>,
    acted: map<nat, Callback>, answered: map<nat, Callback>)

  datatype Bill = Bill(link: Link, ledger: Ledger)

  /** The key of a call, or the identity the channel was granted to. */
  function KeyOf(call: Call, grantKey: Option<string>): Option<string> {
    if call.billingKey.Some? then call.billingKey else grantKey
  }

  function Reply(s: Bill, i: nat, errCode: Option<string>, data: Option<Value>, result: Option<Value>): Bill
    requires i < |s.link.b.running|
  {
    s.(link := Move(s.link, AtB(FinishEvent(i, errCode, data, result))))
  }

  /** The action of the `i`-th request under way calls back. */
  function Acted(s: Bill, i: nat, errCode: Option<string>, data: Option<Value>): Bill
    requires i < |s.link.b.running|
  {
    var r := s.link.b.running[i];
    var b := s.ledger;
    var key := KeyOf(r.call, b.grantKey);
    if errCode.Some? then Reply(s, i, errCode, data, None)
    else if key.None? then Reply(s, i, Some(HOP_IDENTITY_UNRESOLVED), None, None)
    else s.(ledger := b.(metering := b.metering[r.id := data], charges := b.charges + [Charge(r, key.value, data)]))
  }

  /** The metering request of the `i`-th request under way is answered. */
  function Metered(s: Bill, i: nat, errCode: Option<string>, result: Option<Value>): Bill
    requires i < |s.link.b.running|
  {
    var r := s.link.b.running[i];
    if r.id !in s.ledger.metering then s
    else
      var s1 := s.(ledger := s.ledger.(metering := s.ledger.metering - {r.id}));
      if errCode == Some(RATE_LIMITED) then Reply(s1, i, errCode, None, None)
      else Reply(s1, i, None, s.ledger.metering[r.id], result)
  }

  /** The action of `r` succeeded, and there is somebody to charge for it. */
  predicate Earned(b: Ledger, r: Request) {
    r.id in b.acted && b.acted[r.id].errCode.None? && (r.call.billingKey.Some? || b.grantKey.Some?)
  }

  /** The metering request of `r` is out. */
  predicate Awaits(b: Ledger, r: Request) { Earned(b, r) && r.id !in b.answered }

  predicate Refused(b: Ledger, id: nat) { id in b.answered && b.answered[id].errCode == Some("RATE_LIMITED") }

  datatype BillStep =
    | LinkStep(step: Step)
    | ActedStep(i: nat, errCode: Option<string>, data: Option<Value>)
    | MeteredStep(i: nat, errCode: Option<string>, result: Option<Value>)

  /** An action calls back once, and so does a metering request. */
  predicate CanAct(s: Bill, i: nat) { i < |s.link.b.running| && s.link.b.running[i].id !in s.ledger.acted }

  predicate CanMeter(s: Bill, i: nat) { i < |s.link.b.running| && Awaits(s.ledger, s.link.b.running[i]) }

  function NoteActed(s: Bill, i: nat, errCode: Option<string>, data: Option<Value>): Ledger
    requires i < |s.link.b.running|
  {
    s.ledger.(acted := s.ledger.acted[s.link.b.running[i].id := Callback(errCode, data)])
  }

  function NoteAnswered(s: Bill, i: nat, errCode: Option<string>, result: Option<Value>): Ledger
    requires i < |s.link.b.running|
  {
    s.ledger.(answered := s.ledger.answered[s.link.b.running[i].id := Callback(errCode, result)])
  }

  /** The callee replies only through its billing code. */
  predicate Outside(step: Step) { !(step.AtB? && step.event.FinishEvent?) }

  function Next(s: Bill, step: BillStep): Bill {
    match step
    case LinkStep(x) => if Outside(x) then s.(link := Move(s.link, x)) else s
    case ActedStep(i, err, data) => if CanAct(s, i) then Acted(s.(ledger := NoteActed(s, i, err, data)), i, err, data) else s
    case MeteredStep(i, err, result) =>
      if CanMeter(s, i) then Metered(s.(ledger := NoteAnswered(s, i, err, result)), i, err, result) else s
  }

  function Start(capA: Option<nat>, capB: Option<nat>, grantKey: Option<string>): Bill {
    Bill(Opened(capA, capB, false, true), Ledger(grantKey, map[], [], map[], map[]))
  }

  function Exec(s: Bill, steps: seq<BillStep>): Bill {
    if steps == [] then s else Next(Exec(s, steps[..|steps| - 1]), steps[|steps| - 1])
  }

  // ----- what a step does to the callee's desk -----

  /** The requests under way, all requests ever started on, and those replied to. */
  datatype Desk = Desk(closed: bool, running: seq<Request>, served: seq<Request>, exchanges: seq<Exchange>)

  function DeskOf(e: End): Desk { Desk(e.closed, e.running, e.served, e.exchanges) }

  ghost predicate LinkOk(l: Link) { Inv(l.a) && Inv(l.b) && Wired(l) && l.b.hasHandler }

  /** At most one request more is started on. */
  ghost predicate Starts(d: Desk, d': Desk, running: seq<Request>) {
    && (d.closed ==> d'.closed)
    && ((d'.running == running && d'.served == d.served) ||
        (exists r :: d'.running == running + [r] && d'.served == d.served + [r]))
  }

  function Dropped(q: seq<Request>, i: nat): seq<Request>
    requires i < |q|
  {
    q[..i] + q[i + 1..]
  }

  lemma ReceiveEffect(e: End, m: Message)
    requires e.hasHandler
    ensures var d' := DeskOf(Receive(e, m)); d'.exchanges == e.exchanges && Starts(DeskOf(e), d', e.running)
  {
  }

  lemma LocalEffect(e: End, ev: Event)
    requires e.hasHandler && Local(ev) && !ev.FinishEvent?
    ensures var d' := DeskOf(Apply(e, ev)); d'.(closed := e.closed) == DeskOf(e) && (e.closed ==> d'.closed)
  {
  }

  lemma FinishEffect(e: End, i: nat, errCode: Option<string>, data: Option<Value>, result: Option<Value>)
    requires i < |e.running|
    ensures var r := e.running[i]; var d' := DeskOf(Finish(e, i, errCode, data, result));
      && Starts(DeskOf(e), d', Dropped(e.running, i))
      && d'.exchanges == if e.closed then e.exchanges
                         else e.exchanges + [Exchange(r, PeerEnd.Reply.Reply(r.id, errCode, data, result))]
  {
  }

  lemma LinkKeeps(l: Link, step: Step)
    requires LinkOk(l)
    ensures LinkOk(Move(l, step))
  {
    MoveKeeps(l, step);
  }

  lemma OutsideEffect(l: Link, step: Step)
    requires l.b.hasHandler && Outside(step)
    ensures var d' := DeskOf(Move(l, step).b); d'.exchanges == l.b.exchanges && Starts(DeskOf(l.b), d', l.b.running)
  {
    match step
    case AtA(_) =>
    case AtB(ev) => if Local(ev) { LocalEffect(l.b, ev); }
    case DeliverToA =>
    case DeliverToB => if |l.b.received| < |l.a.posted| { ReceiveEffect(l.b, l.a.posted[|l.b.received|]); }
  }

  /** Requests under way or replied to are all different, and were started on in id order. */
  ghost predicate Apart(d: Desk) {
    && (forall i, j :: 0 <= i < j < |d.running| ==> d.running[i].id != d.running[j].id)
    && (forall i, x :: 0 <= i < |d.running| && x in d.exchanges ==> x.request.id != d.running[i].id)
    && (forall r :: r in d.running ==> r in d.served)
    && (forall x :: x in d.exchanges ==> x.request in d.served)
    && Ascending(d.served)
  }

  lemma DeskApart(d: Desk)
    requires Ascending(d.served) && multiset(d.running) + multiset(Requests(d.exchanges)) <= multiset(d.served)
    ensures Apart(d)
  {
    var rs := d.running + Requests(d.exchanges);
    DistinctIds(rs, d.served);
    forall i, j | 0 <= i < j < |d.running| ensures d.running[i].id != d.running[j].id { assert rs[i].id != rs[j].id; }
    forall i, x | 0 <= i < |d.running| && x in d.exchanges ensures x.request.id != d.running[i].id {
      var k :| 0 <= k < |d.exchanges| && d.exchanges[k] == x;
      assert rs[|d.running| + k] == x.request && rs[i] == d.running[i];
    }
    forall r | r in d.running ensures r in d.served {
      assert r in multiset(d.running) + multiset(Requests(d.exchanges));
      assert r in multiset(d.served);
    }
    forall x | x in d.exchanges ensures x.request in d.served {
      var k :| 0 <= k < |d.exchanges| && d.exchanges[k] == x;
      assert Requests(d.exchanges)[k] == x.request;
      assert x.request in multiset(Requests(d.exchanges)) && x.request in multiset(d.served);
    }
  }

  lemma LinkApart(l: Link)
    requires LinkOk(l)
    ensures Apart(DeskOf(l.b))
  {
    ServedOrder(l);
    DeskApart(DeskOf(l.b));
  }

  // ----- the ledger -----

  ghost predicate Charged(charges: seq<Charge>, r: Request, output: Option<Value>) {
    exists c :: c in charges && c.request == r && c.output == output
  }

  ghost predicate Uncharged(charges: seq<Charge>, id: nat) { forall c :: c in charges ==> c.request.id != id }

  /** Each charge is for a request of its own, at the key that request's call resolves to. */
  ghost predicate ChargesOk(b: Ledger, served: seq<Request>) {
    && (forall c :: c in b.charges ==> c.request in served && KeyOf(c.request.call, b.grantKey) == Some(c.key))
    && (forall i, j :: 0 <= i < j < |b.charges| ==> b.charges[i].request.id != b.charges[j].request.id)
  }

  /** A request is charged exactly if it was earned, and only then is there an answer to its metering. */
  ghost predicate EarnedOk(b: Ledger, r: Request) {
    && (r.id in b.answered ==> Earned(b, r))
    && if Earned(b, r) then Charged(b.charges, r, b.acted[r.id].value) else Uncharged(b.charges, r.id)
  }

  /** The reply that what the action and the main thread called back with call for, once they have. */
  function Expected(b: Ledger, r: Request): Option<PeerEnd.Reply> {
    if r.id !in b.acted then None
    else
      var act := b.acted[r.id];
      if act.errCode.Some? then Some(PeerEnd.Reply.Reply(r.id, act.errCode, act.value, None))
      else if !Earned(b, r) then Some(PeerEnd.Reply.Reply(r.id, Some("HOP_IDENTITY_UNRESOLVED"), None, None))
      else if r.id !in b.answered then None
      else if Refused(b, r.id) then Some(PeerEnd.Reply.Reply(r.id, Some("RATE_LIMITED"), None, None))
      else Some(PeerEnd.Reply.Reply(r.id, None, act.value, b.answered[r.id].value))
  }

  /** A request under way lacks a callback; its output is kept while its metering request is out. */
  predicate UnderWayOk(b: Ledger, r: Request) {
    && Expected(b, r).None? && (r.id in b.metering <==> Awaits(b, r))
    && (r.id in b.metering ==> b.metering[r.id] == b.acted[r.id].value)
  }

  predicate ExchangeOk(b: Ledger, x: Exchange) { Expected(b, x.request) == Some(x.reply) }

  ghost predicate Replied(exchanges: seq<Exchange>, r: Request) { exists x :: x in exchanges && x.request == r }

  ghost predicate KnownId(served: seq<Request>, id: nat) { exists r :: r in served && r.id == id }

  /** The ledger speaks only of requests that were served. */
  ghost predicate Known(b: Ledger, served: seq<Request>) {
    forall id :: id in b.metering || id in b.acted || id in b.answered ==> KnownId(served, id)
  }

  ghost predicate Balanced(b: Ledger, d: Desk) { Kept(b, d) && Accounted(d) }

  /** While the callee is open, no request it has started on is lost. */
  ghost predicate Accounted(d: Desk) { !d.closed ==> forall r :: r in d.served ==> r in d.running || Replied(d.exchanges, r) }

  ghost predicate Kept(b: Ledger, d: Desk) {
    && ChargesOk(b, d.served) && Known(b, d.served)
    && (forall r :: r in d.served ==> EarnedOk(b, r))
    && (forall r :: r in d.running ==> UnderWayOk(b, r))
    && (forall x :: x in d.exchanges ==> ExchangeOk(b, x))
  }

  lemma KnownGrows(b: Ledger, served: seq<Request>, served': seq<Request>)
    requires Known(b, served) && served <= served'
    ensures Known(b, served')
  {
    forall id | id in b.metering || id in b.acted || id in b.answered ensures KnownId(served', id) {
      assert KnownId(served, id);
      var r :| r in served && r.id == id;
      assert r in served';
    }
  }

  /** A request just started on is new to the ledger. */
  lemma NewRequest(b: Ledger, served: seq<Request>, r: Request)
    requires Ascending(served + [r]) && ChargesOk(b, served) && Known(b, served)
    ensures Uncharged(b.charges, r.id) && r.id !in b.metering && r.id !in b.acted && r.id !in b.answered
  {
    forall q | q in served ensures q.id != r.id {
      var i :| 0 <= i < |served| && served[i] == q;
      assert (served + [r])[i] == q && (served + [r])[|served|] == r;
    }
    assert !KnownId(served, r.id);
  }

  /** The ledger after at most one request has been started on, if it was right for `running`. */
  lemma StartsBalanced(b: Ledger, d: Desk, d': Desk, running: seq<Request>)
    requires Apart(d') && Starts(d, d', running) && Balanced(b, Desk(d.closed, running, d.served, d'.exchanges))
    ensures Balanced(b, d')
  {
    if d'.served != d.served {
      var r :| d'.running == running + [r] && d'.served == d.served + [r];
      NewRequest(b, d.served, r);
      KnownGrows(b, d.served, d'.served);
    }
  }

  lemma DroppedIndex(q: seq<Request>, i: nat, r: Request) returns (k: nat)
    requires i < |q| && r in Dropped(q, i)
    ensures k < |q| && k != i && q[k] == r
  {
    var m :| 0 <= m < |Dropped(q, i)| && Dropped(q, i)[m] == r;
    k := if m < i then m else m + 1;
  }

  /** Two ledgers that agree on every request but the one with this id. */
  ghost predicate SameElsewhere(b: Ledger, b': Ledger, id: nat) {
    && b'.grantKey == b.grantKey
    && (forall k :: k != id ==> (k in b'.metering <==> k in b.metering))
    && (forall k :: k != id ==> (k in b'.acted <==> k in b.acted))
    && (forall k :: k != id ==> (k in b'.answered <==> k in b.answered))
    && (forall k :: k != id && k in b.metering ==> b'.metering[k] == b.metering[k])
    && (forall k :: k != id && k in b.acted ==> b'.acted[k] == b.acted[k])
    && (forall k :: k != id && k in b.answered ==> b'.answered[k] == b.answered[k])
  }

  lemma AscendingIds(served: seq<Request>, q: Request, r: Request)
    requires Ascending(served) && q in served && r in served && q.id == r.id
    ensures q == r
  {
    var i :| 0 <= i < |served| && served[i] == q;
    var j :| 0 <= j < |served| && served[j] == r;
  }

  lemma DroppedRest(q: seq<Request>, i: nat, r: Request)
    requires i < |q| && r in q && r != q[i]
    ensures r in Dropped(q, i)
  {
    var k :| 0 <= k < |q| && q[k] == r;
    assert Dropped(q, i)[if k < i then k else k - 1] == r;
  }

  /** What the ledger says of a request does not depend on the others. */
  lemma SameSaid(b: Ledger, b': Ledger, id: nat, q: Request)
    requires SameElsewhere(b, b', id) && q.id != id
    ensures Expected(b', q) == Expected(b, q) && Earned(b', q) == Earned(b, q)
    ensures UnderWayOk(b, q) ==> UnderWayOk(b', q)
    ensures b'.charges == b.charges && EarnedOk(b, q) ==> EarnedOk(b', q)
  {
  }

  /** A request that is replied to leaves what the ledger says of the others alone. */
  lemma RestKept(b: Ledger, b': Ledger, d: Desk, i: nat)
    requires Kept(b, d) && Apart(d) && i < |d.running| && b'.charges == b.charges
    requires SameElsewhere(b, b', d.running[i].id) && EarnedOk(b', d.running[i])
    ensures Kept(b', d.(running := Dropped(d.running, i)))
  {
    var r := d.running[i];
    forall q | q in d.served ensures EarnedOk(b', q) {
      assert EarnedOk(b, q);
      if q.id == r.id { AscendingIds(d.served, q, r); } else { SameSaid(b, b', r.id, q); }
    }
    forall q | q in Dropped(d.running, i) ensures UnderWayOk(b', q) {
      var k := DroppedIndex(d.running, i, q);
      assert UnderWayOk(b, q) && d.running[k].id != r.id;
      SameSaid(b, b', r.id, q);
    }
    forall x | x in d.exchanges ensures ExchangeOk(b', x) {
      assert ExchangeOk(b, x) && x.request.id != r.id;
      SameSaid(b, b', r.id, x.request);
    }
    RestKnown(b, b', d, r);
    assert ChargesOk(b', d.served);
  }

  lemma RestKnown(b: Ledger, b': Ledger, d: Desk, r: Request)
    requires Known(b, d.served) && r in d.served && SameElsewhere(b, b', r.id)
    ensures Known(b', d.served)
  {
    forall id | id in b'.metering || id in b'.acted || id in b'.answered ensures KnownId(d.served, id) {
      if id == r.id { assert r in d.served; } else { assert id in b.metering || id in b.acted || id in b.answered; }
    }
  }

  lemma ReplyAccounted(d: Desk, i: nat, x: Exchange)
    requires Accounted(d) && i < |d.running| && x.request == d.running[i]
    ensures Accounted(Desk(d.closed, Dropped(d.running, i), d.served, d.exchanges + [x]))
  {
    if !d.closed {
      forall q | q in d.served ensures q in Dropped(d.running, i) || Replied(d.exchanges + [x], q) {
        if q == d.running[i] {
          assert x in d.exchanges + [x];
        } else if q in d.running {
          DroppedRest(d.running, i, q);
        } else {
          var y :| y in d.exchanges && y.request == q;
          assert y in d.exchanges + [x];
        }
      }
    }
  }

  /** A reply balances if it is what its request's callbacks call for. */
  lemma FinishBalanced(b: Ledger, b': Ledger, d: Desk, d': Desk, i: nat, x: Exchange)
    requires Balanced(b, d) && Apart(d) && Apart(d') && i < |d.running| && b'.charges == b.charges
    requires SameElsewhere(b, b', d.running[i].id) && EarnedOk(b', d.running[i]) && x.request == d.running[i]
    requires Starts(d, d', Dropped(d.running, i)) && ExchangeOk(b', x)
    requires d'.exchanges == if d.closed then d.exchanges else d.exchanges + [x]
    ensures Balanced(b', d')
  {
    RestKept(b, b', d, i);
    ReplyAccounted(d, i, x);
    StartsBalanced(b', d, d', Dropped(d.running, i));
  }

  lemma ChargedStays(charges: seq<Charge>, c: Charge, r: Request)
    ensures forall output :: Charged(charges, r, output) ==> Charged(charges + [c], r, output)
    ensures c.request.id != r.id && Uncharged(charges, r.id) ==> Uncharged(charges + [c], r.id)
  {
  }

  /** The metering request of one more action goes out. */
  lemma ChargeBalanced(b: Ledger, b': Ledger, d: Desk, i: nat, key: string, data: Option<Value>)
    requires Balanced(b, d) && Apart(d) && i < |d.running| && d.running[i].id !in b.acted
    requires KeyOf(d.running[i].call, b.grantKey) == Some(key)
    requires var r := d.running[i];
      b' == b.(acted := b.acted[r.id := Callback(None, data)], metering := b.metering[r.id := data],
               charges := b.charges + [Charge(r, key, data)])
    ensures Balanced(b', d)
  {
    var r := d.running[i];
    NotAnswered(b, d, r);
    ChargeEarned(b, b', d, r, key, data);
    assert SameElsewhere(b, b', r.id);
    forall q | q in d.running ensures UnderWayOk(b', q) {
      var k :| 0 <= k < |d.running| && d.running[k] == q;
      assert UnderWayOk(b, q);
      if k != i { SameSaid(b, b', r.id, q); }
    }
    forall x | x in d.exchanges ensures ExchangeOk(b', x) {
      assert ExchangeOk(b, x) && x.request.id != r.id;
      SameSaid(b, b', r.id, x.request);
    }
    RestKnown(b, b', d, r);
    ChargeFiled(b, b', d, r, Charge(r, key, data));
  }

  lemma ChargeFiled(b: Ledger, b': Ledger, d: Desk, r: Request, c: Charge)
    requires ChargesOk(b, d.served) && r in d.served && Uncharged(b.charges, r.id)
    requires c.request == r && KeyOf(r.call, b.grantKey) == Some(c.key)
    requires b'.grantKey == b.grantKey && b'.charges == b.charges + [c]
    ensures ChargesOk(b', d.served)
  {
  }

  /** Nothing is answered before its action has called back. */
  lemma NotAnswered(b: Ledger, d: Desk, r: Request)
    requires Balanced(b, d) && r in d.running && r.id !in b.acted
    ensures r.id !in b.answered && r.id !in b.metering && EarnedOk(b, r) && Uncharged(b.charges, r.id)
  {
  }

  lemma ChargeEarned(b: Ledger, b': Ledger, d: Desk, r: Request, key: string, data: Option<Value>)
    requires Apart(d) && r in d.served && (forall q :: q in d.served ==> EarnedOk(b, q)) && KeyOf(r.call, b.grantKey).Some?
    requires b'.grantKey == b.grantKey && b'.acted == b.acted[r.id := Callback(None, data)] && r.id !in b.acted
    requires b'.answered == b.answered
    requires b'.charges == b.charges + [Charge(r, key, data)]
    ensures forall q :: q in d.served ==> EarnedOk(b', q)
  {
    var c := Charge(r, key, data);
    assert c in b'.charges;
    forall q | q in d.served ensures EarnedOk(b', q) {
      assert EarnedOk(b, q);
      if q.id == r.id { AscendingIds(d.served, q, r); } else { ChargedStays(b.charges, c, q); }
    }
  }

  // ----- the steps -----

  ghost predicate Billed(s: Bill) { LinkOk(s.link) && Balanced(s.ledger, DeskOf(s.link.b)) }

  lemma OutsideBilled(s: Bill, step: Step)
    requires Billed(s) && Outside(step)
    ensures Billed(s.(link := Move(s.link, step)))
  {
    var l' := Move(s.link, step);
    LinkKeeps(s.link, step);
    LinkApart(l');
    OutsideEffect(s.link, step);
    StartsBalanced(s.ledger, DeskOf(s.link.b), DeskOf(l'.b), s.link.b.running);
  }

  lemma ReplyBilled(s: Bill, b: Ledger, i: nat, errCode: Option<string>, data: Option<Value>, result: Option<Value>)
    requires Billed(s) && i < |s.link.b.running| && b.charges == s.ledger.charges
    requires SameElsewhere(s.ledger, b, s.link.b.running[i].id) && EarnedOk(b, s.link.b.running[i])
    requires var r := s.link.b.running[i]; ExchangeOk(b, Exchange(r, PeerEnd.Reply.Reply(r.id, errCode, data, result)))
    ensures Billed(Reply(s.(ledger := b), i, errCode, data, result))
  {
    var l' := Move(s.link, AtB(FinishEvent(i, errCode, data, result)));
    LinkKeeps(s.link, AtB(FinishEvent(i, errCode, data, result)));
    FinishMoves(s.link, l', i, errCode, data, result);
    LinkApart(s.link);
    LinkApart(l');
    var r := s.link.b.running[i];
    var x := Exchange(r, PeerEnd.Reply.Reply(r.id, errCode, data, result));
    FinishBalanced(s.ledger, b, DeskOf(s.link.b), DeskOf(l'.b), i, x);
    assert Reply(s.(ledger := b), i, errCode, data, result) == Bill(l', b);
  }

  lemma FinishMoves(l: Link, l': Link, i: nat, errCode: Option<string>, data: Option<Value>, result: Option<Value>)
    requires i < |l.b.running| && l' == Move(l, AtB(FinishEvent(i, errCode, data, result)))
    ensures Starts(DeskOf(l.b), DeskOf(l'.b), Dropped(l.b.running, i))
    ensures var r := l.b.running[i]; var x := Exchange(r, PeerEnd.Reply.Reply(r.id, errCode, data, result));
      l'.b.exchanges == if l.b.closed then l.b.exchanges else l.b.exchanges + [x]
  {
    FinishEffect(l.b, i, errCode, data, result);
  }

  lemma ActedBilled(s: Bill, s': Bill, i: nat, errCode: Option<string>, data: Option<Value>)
    requires Billed(s) && CanAct(s, i) && s' == Acted(s.(ledger := NoteActed(s, i, errCode, data)), i, errCode, data)
    ensures Billed(s') && s'.ledger.grantKey == s.ledger.grantKey
  {
    var r := s.link.b.running[i];
    LinkApart(s.link);
    NotAnswered(s.ledger, DeskOf(s.link.b), r);
    var b := NoteActed(s, i, errCode, data);
    if errCode.Some? {
      ReplyBilled(s, b, i, errCode, data, None);
    } else if KeyOf(r.call, b.grantKey).None? {
      ReplyBilled(s, b, i, Some(HOP_IDENTITY_UNRESOLVED), None, None);
    } else {
      ChargeBalanced(s.ledger, s'.ledger, DeskOf(s.link.b), i, KeyOf(r.call, b.grantKey).value, data);
    }
  }

  lemma MeteringOff(b: Ledger, b': Ledger, r: Request, answer: Callback)
    requires EarnedOk(b, r) && Awaits(b, r)
    requires b' == b.(metering := b.metering - {r.id}, answered := b.answered[r.id := answer])
    ensures SameElsewhere(b, b', r.id) && EarnedOk(b', r) && Earned(b', r)
  {
  }

  lemma MeteredBilled(s: Bill, s': Bill, i: nat, errCode: Option<string>, result: Option<Value>)
    requires Billed(s) && CanMeter(s, i)
    requires s' == Metered(s.(ledger := NoteAnswered(s, i, errCode, result)), i, errCode, result)
    ensures Billed(s') && s'.ledger.grantKey == s.ledger.grantKey
  {
    var r := s.link.b.running[i];
    LinkApart(s.link);
    assert UnderWayOk(s.ledger, r) && r in s.link.b.served && EarnedOk(s.ledger, r);
    var b := NoteAnswered(s, i, errCode, result).(metering := s.ledger.metering - {r.id});
    MeteringOff(s.ledger, b, r, Callback(errCode, result));
    if errCode == Some(RATE_LIMITED) {
      ReplyBilled(s, b, i, errCode, None, None);
    } else {
      ReplyBilled(s, b, i, None, s.ledger.metering[r.id], result);
    }
  }

  lemma NextBilled(s: Bill, s': Bill, step: BillStep)
    requires Billed(s) && s' == Next(s, step)
    ensures Billed(s') && s'.ledger.grantKey == s.ledger.grantKey
  {
    match step
    case LinkStep(x) => LinkStepBilled(s, s', x);
    case ActedStep(i, err, data) => if CanAct(s, i) { ActedBilled(s, s', i, err, data); }
    case MeteredStep(i, err, result) => if CanMeter(s, i) { MeteredBilled(s, s', i, err, result); }
  }

  lemma LinkStepBilled(s: Bill, s': Bill, x: Step)
    requires Billed(s) && s' == if Outside(x) then s.(link := Move(s.link, x)) else s
    ensures Billed(s') && s'.ledger.grantKey == s.ledger.grantKey
  {
    if Outside(x) { OutsideBilled(s, x); }
  }

  lemma StartBilled(capA: Option<nat>, capB: Option<nat>, grantKey: Option<string>)
    ensures Billed(Start(capA, capB, grantKey))
  {
    FreshHolds(capA, false);
    FreshHolds(capB, true);
    EmptyBalanced(Ledger(grantKey, map[], [], map[], map[]), DeskOf(Fresh(capB, true)));
  }

  lemma EmptyBalanced(b: Ledger, d: Desk)
    requires b.metering == map[] && b.charges == [] && b.acted == map[] && b.answered == map[]
    requires d.running == [] && d.served == [] && d.exchanges == []
    ensures Balanced(b, d)
  {
  }

  lemma {:induction false} EveryRun(start: Bill, steps: seq<BillStep>)
    requires Billed(start)
    ensures Billed(Exec(start, steps)) && Exec(start, steps).ledger.grantKey == start.ledger.grantKey
    decreases |steps|
  {
    if steps != [] {
      EveryRun(start, steps[..|steps| - 1]);
      NextBilled(Exec(start, steps[..|steps| - 1]), Exec(start, steps), steps[|steps| - 1]);
    }
  }

  // ----- the results -----

  /**
   In every run, every metering request is for one call of the caller's, at the key that call
   was made with (or the granted identity if it had none), and no call has two.
   */
  lemma {:induction false} ChargedOnceToOwnKey(capA: Option<nat>, capB: Option<nat>, grantKey: Option<string>, steps: seq<BillStep>, i: nat)
    requires i < |Exec(Start(capA, capB, grantKey), steps).ledger.charges|
    ensures var s := Exec(Start(capA, capB, grantKey), steps); var c := s.ledger.charges[i];
      && c.request.id < |s.link.a.made| && c.request.call == s.link.a.made[c.request.id]
      && (if c.request.call.billingKey.Some? then c.key == c.request.call.billingKey.value else grantKey == Some(c.key))
      && forall j :: 0 <= j < |s.ledger.charges| && j != i ==> s.ledger.charges[j].request.id != c.request.id
  {
    var start := Start(capA, capB, grantKey);
    StartBilled(capA, capB, grantKey);
    EveryRun(start, steps);
    var s := Exec(start, steps);
    assert s.ledger.charges[i] in s.ledger.charges;
    ServedOrder(s.link);
  }

  /** A call whose request was served, whose action succeeded, and for which there was somebody to charge. */
  predicate CallEarned(s: Bill, k: nat) {
    k < |s.link.a.made| && Request(k, s.link.a.made[k]) in s.link.b.served && Earned(s.ledger, Request(k, s.link.a.made[k]))
  }

  lemma CallCharged(s: Bill, k: nat)
    requires Billed(s)
    ensures if CallEarned(s, k) then Charged(s.ledger.charges, Request(k, s.link.a.made[k]), s.ledger.acted[k].value)
            else Uncharged(s.ledger.charges, k)
  {
    ServedOrder(s.link);
    if CallEarned(s, k) {
      assert EarnedOk(s.ledger, Request(k, s.link.a.made[k]));
    } else {
      forall c | c in s.ledger.charges ensures c.request.id != k {
        assert c.request in s.link.b.served;
        assert EarnedOk(s.ledger, c.request);
      }
    }
  }

  /**
   In every run, a call of the caller's, however it was answered, is charged exactly if its request
   was served, its action succeeded and there was a key; it is charged with what the action returned.
   */
  lemma {:induction false} ChargedIffEarned(capA: Option<nat>, capB: Option<nat>, grantKey: Option<string>, steps: seq<BillStep>, k: nat)
    ensures var s := Exec(Start(capA, capB, grantKey), steps);
      if CallEarned(s, k) then Charged(s.ledger.charges, Request(k, s.link.a.made[k]), s.ledger.acted[k].value)
      else Uncharged(s.ledger.charges, k)
  {
    StartBilled(capA, capB, grantKey);
    EveryRun(Start(capA, capB, grantKey), steps);
    CallCharged(Exec(Start(capA, capB, grantKey), steps), k);
  }

  /**
   In every run, the callee replies to a request exactly what its action and the main thread's
   answer to its metering request, as they came in, call for: the error and the data of an action
   that failed; HOP_IDENTITY_UNRESOLVED if there is nobody to charge; the error alone if the main
   thread refused to meter it; else the action's output with the metering result.  While the callee
   is open, it has replied exactly if those callbacks are in.
   */
  lemma {:induction false} RepliesAsCalledFor(
    capA: Option<nat>, capB: Option<nat>, grantKey: Option<string>, steps: seq<BillStep>, r: Request)
    requires r in Exec(Start(capA, capB, grantKey), steps).link.b.served
    ensures var s := Exec(Start(capA, capB, grantKey), steps); var e := s.link.b;
      && (forall x :: x in e.exchanges && x.request == r ==> Expected(s.ledger, r) == Some(x.reply))
      && (r in e.running ==> Expected(s.ledger, r).None?)
      && (!e.closed ==> (Expected(s.ledger, r).Some? <==> Replied(e.exchanges, r)) && (Expected(s.ledger, r).None? <==> r in e.running))
  {
    StartBilled(capA, capB, grantKey);
    EveryRun(Start(capA, capB, grantKey), steps);
    var s := Exec(Start(capA, capB, grantKey), steps);
    assert Balanced(s.ledger, DeskOf(s.link.b));
    assert forall x :: x in s.link.b.exchanges ==> ExchangeOk(s.ledger, x);
    if r in s.link.b.running { assert UnderWayOk(s.ledger, r); }
  }

  /** The answer of a call is what the callbacks of its request call for. */
  ghost predicate AsCalledFor(s: Bill, a: Answer) {
    a.call < |s.link.a.made| && var r := Request(a.call, s.link.a.made[a.call]);
    r in s.link.b.served && Expected(s.ledger, r).Some? && a.outcome == OutcomeOf(Expected(s.ledger, r).value)
  }

  /**
   In every run and for every answer: one that came from the callee is what the callbacks of the
   call's own request call for, so that a success was metered and carries the action's output and
   the metering result, and a failure was metered exactly if the main thread refused it; a timeout
   or PEER_GONE was metered exactly if the action succeeded all the same and there was a key.
   */
  lemma {:induction false} AnswersMatchCharges(capA: Option<nat>, capB: Option<nat>, grantKey: Option<string>, steps: seq<BillStep>, a: Answer)
    requires a in Exec(Start(capA, capB, grantKey), steps).link.a.answers
    ensures var s := Exec(Start(capA, capB, grantKey), steps);
      && (a.outcome.Replied? ==> AsCalledFor(s, a))
      && (if a.outcome.Replied? && a.outcome.errCode.None? then
            a.call < |s.link.a.made| && Charged(s.ledger.charges, Request(a.call, s.link.a.made[a.call]), a.outcome.data)
          else if a.outcome.Replied? then
            !Uncharged(s.ledger.charges, a.call) <==> Refused(s.ledger, a.call)
          else
            !Uncharged(s.ledger.charges, a.call) <==> CallEarned(s, a.call))
  {
    StartBilled(capA, capB, grantKey);
    EveryRun(Start(capA, capB, grantKey), steps);
    var s := Exec(Start(capA, capB, grantKey), steps);
    CallCharged(s, a.call);
    if a.outcome.Replied? { AnswerAsCalledFor(s, a); }
  }

  lemma AnswerAsCalledFor(s: Bill, a: Answer)
    requires Billed(s) && a in s.link.a.answers && a.outcome.Replied?
    ensures AsCalledFor(s, a)
    ensures CallEarned(s, a.call) <==> a.outcome.errCode.None? || Refused(s.ledger, a.call)
  {
    AnswersCorrelated(s.link);
    LinkApart(s.link);
    assert Correlated(s.link, a.call, a.outcome);
    var x :| x in s.link.b.exchanges && x.request == Request(a.call, s.link.a.made[a.call]) && a.outcome == OutcomeOf(x.reply);
    ExchangeFits(s.ledger, DeskOf(s.link.b), x);
  }

  lemma ExchangeFits(b: Ledger, d: Desk, x: Exchange)
    requires Kept(b, d) && Apart(d) && x in d.exchanges
    ensures x.request in d.served && Expected(b, x.request) == Some(x.reply)
    ensures Earned(b, x.request) <==> x.reply.errCode.None? || Refused(b, x.request.id)
  {
    assert ExchangeOk(b, x) && EarnedOk(b, x.request);
  }

  /** A call that timed out and is metered: its action succeeds after the caller has given up. */
  lemma {:induction false} TimedOutAndCharged() returns (steps: seq<BillStep>)
    ensures var s := Exec(Start(None, None, Some("k")), steps);
      && s.link.a.answers == [Answer(0, TimedOut)]
      && |s.ledger.charges| == 1 && s.ledger.charges[0].request.id == 0
  {
    var c := Call("d", "s", "t", "", None);
    var start := Start(None, None, Some("k"));
    steps := [LinkStep(AtA(InvokeEvent(c))), LinkStep(DeliverToB), LinkStep(AtA(TimeoutEvent(0))), ActedStep(0, None, None)];
    var s1, s2, s3, s4 := ExecFour(start, steps);
    CallServed(start, s1, s2, c);
    ServedLate(s2, s3, s4, c);
  }

  lemma {:induction false} ExecFour(start: Bill, steps: seq<BillStep>) returns (s1: Bill, s2: Bill, s3: Bill, s4: Bill)
    requires |steps| == 4
    ensures s1 == Next(start, steps[0]) && s2 == Next(s1, steps[1]) && s3 == Next(s2, steps[2]) && s4 == Next(s3, steps[3])
    ensures s4 == Exec(start, steps)
  {
    s1, s2, s3, s4 := Exec(start, steps[..1]), Exec(start, steps[..2]), Exec(start, steps[..3]), Exec(start, steps[..4]);
    assert Exec(start, steps[..0]) == start && steps[..4] == steps;
    ExecNext(start, steps, 0);
    ExecNext(start, steps, 1);
    ExecNext(start, steps, 2);
    ExecNext(start, steps, 3);
  }

  ghost predicate AtWork(s: Bill, c: Call) {
    && s.link.a.pending == map[0 := 0] && s.link.a.answers == [] && s.link.b.running == [Request(0, c)]
    && s.ledger == Ledger(Some("k"), map[], [], map[], map[])
  }

  lemma CallServed(s0: Bill, s1: Bill, s2: Bill, c: Call)
    requires s0 == Start(None, None, Some("k"))
    requires s1 == Next(s0, LinkStep(AtA(InvokeEvent(c)))) && s2 == Next(s1, LinkStep(DeliverToB))
    ensures AtWork(s2, c)
  {
    assert s1.link.a.posted == [PeerInvoke(Request(0, c))];
  }

  lemma ServedLate(s2: Bill, s3: Bill, s4: Bill, c: Call)
    requires AtWork(s2, c)
    requires s3 == Next(s2, LinkStep(AtA(TimeoutEvent(0)))) && s4 == Next(s3, ActedStep(0, None, None))
    ensures s4.link.a.answers == [Answer(0, TimedOut)]
    ensures |s4.ledger.charges| == 1 && s4.ledger.charges[0].request.id == 0
  {
    assert s3.link.b == s2.link.b && s3.ledger == s2.ledger;
  }

  lemma {:induction false} ExecNext(start: Bill, steps: seq<BillStep>, n: nat)
    requires n < |steps|
    ensures Exec(start, steps[..n + 1]) == Next(Exec(start, steps[..n]), steps[n])
  {
    assert steps[..n + 1][..n] == steps[..n];
  }
}
