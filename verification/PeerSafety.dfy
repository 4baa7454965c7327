/**
 What brokering guarantees in every run, with worker crashes, reloads, revocations, calls in
 both directions between two workers, and module code that posts invokes of its own:

 - a callee serves an invoke only for a device that was authorized under the registry entry
   that opened that very channel, and
 - once a callee has handled the message that takes a channel down, that channel serves
   nothing more.

 Both rest on the order of the queue to the callee: an Allow or an Invalidate sent for an
 entry is always preceded there by that entry's own Open and by no later one.
 */
module PeerSafety {
  import opened Wrappers
  import opened PeerBrokering

  // ----- the newest channel a queue will have opened -----

  function OpenedPort(e: Ends, w: Worker, a: Worker): Option<nat> {
    if Pair(w, a) in e.lastOpen && e.lastOpen[Pair(w, a)] < |e.chans|
    then Some(e.chans[e.lastOpen[Pair(w, a)]].port) else None
  }

  /** The port of the newest channel from `a` once `q` is handled, if it is `before` now. */
  function NewestOpen(q: seq<ToWorker>, a: Worker, before: Option<nat>): Option<nat> {
    if q == [] then before
    else
      var m := q[|q| - 1];
      if m.ChannelOpen? && m.caller == a then Some(m.port) else NewestOpen(q[..|q| - 1], a, before)
  }

  lemma {:induction false} NewestAppend(q: seq<ToWorker>, r: seq<ToWorker>, a: Worker, before: Option<nat>)
    ensures NewestOpen(q + r, a, before) == NewestOpen(r, a, NewestOpen(q, a, before))
  {
    if r == [] {
      assert q + r == q;
    } else {
      assert (q + r)[..|q + r| - 1] == q + r[..|r| - 1];
      NewestAppend(q, r[..|r| - 1], a, before);
    }
  }

  lemma {:induction false} NewestQuiet(q: seq<ToWorker>, a: Worker, before: Option<nat>)
    requires forall m :: m in q ==> !m.ChannelOpen?
    ensures NewestOpen(q, a, before) == before
  {
    if q != [] { NewestQuiet(q[..|q| - 1], a, before); }
  }

  /** The caller and port a message is about, if it acts on an existing channel. */
  function About(m: ToWorker): Option<(Worker, nat)> {
    match m
    case ChannelAllow(a, _, _, p) => Some((a, p))
    case Invalidate(a, closes) => if closes.Some? then Some((a, closes.value)) else None
    case _ => None
  }

  ghost predicate InTurn(q: seq<ToWorker>, i: nat, before: Option<nat>)
    requires i < |q|
  {
    About(q[i]).Some? ==> NewestOpen(q[..i], About(q[i]).value.0, before) == Some(About(q[i]).value.1)
  }

  function Caller(m: ToWorker): Worker { if About(m).Some? then About(m).value.0 else 0 }

  // ----- the invariant -----

  /** Slots hold open channels of the right pair; the newest callee end of a pair is in its slot until it closes. */
  ghost predicate Shape(e: Ends) {
    && (forall p :: p in e.slots ==>
        var c := e.slots[p];
        && c < |e.chans| && e.chans[c].owner == p.one && e.chans[c].peer == p.other && !e.chans[c].closed
        && (e.chans[c].allowed.Some? ==> p in e.lastOpen && e.lastOpen[p] == c))
    && (forall p :: p in e.lastOpen ==>
        var c := e.lastOpen[p];
        && c < |e.chans| && e.chans[c].owner == p.one && e.chans[c].peer == p.other && e.chans[c].allowed.Some?
        && (e.chans[c].closed || (p in e.slots && e.slots[p] == c)))
  }

  /** Every message about a channel is in turn, and every registry entry is the newest channel of its pair. */
  ghost predicate Ordered(registry: map<Pair, Entry>, e: Ends, inbox: Inbox) {
    && (forall w, i :: 0 <= i < |Queue(inbox, w)| ==>
        InTurn(Queue(inbox, w), i, OpenedPort(e, w, Caller(Queue(inbox, w)[i]))))
    && (forall p :: p in registry ==>
        NewestOpen(Queue(inbox, p.other), p.one, OpenedPort(e, p.other, p.one)) == Some(registry[p].port))
  }

  ghost predicate Passed(log: seq<Event>, port: nat, caller: Worker, callee: Worker, device: Device) {
    exists k :: Authorized(port, caller, callee, Grant(k, device)) in log
  }

  ghost predicate MessagePassed(log: seq<Event>, w: Worker, m: ToWorker) {
    match m
    case ChannelOpen(a, _, d, p) => Passed(log, p, a, w, d)
    case ChannelAllow(a, d, _, p) => Passed(log, p, a, w, d)
    case _ => true
  }

  ghost predicate ChanPassed(log: seq<Event>, c: Chan) {
    c.allowed.Some? ==> forall d :: d in c.allowed.value ==> Passed(log, c.port, c.peer, c.owner, d)
  }

  /** Every device a channel allows, or is about to, was authorized under its entry. */
  ghost predicate Backed(log: seq<Event>, e: Ends, inbox: Inbox) {
    && (forall c :: 0 <= c < |e.chans| ==> ChanPassed(log, e.chans[c]))
    && (forall w, i :: 0 <= i < |Queue(inbox, w)| ==> MessagePassed(log, w, Queue(inbox, w)[i]))
  }

  /** A port opens one callee end only. */
  ghost predicate OnePort(nextPort: nat, e: Ends, inbox: Inbox) {
    && (forall c :: 0 <= c < |e.chans| && e.chans[c].allowed.Some? ==> e.chans[c].port < nextPort)
    && (forall c, d :: 0 <= c < d < |e.chans| && e.chans[c].allowed.Some? && e.chans[d].allowed.Some? ==>
        e.chans[c].port != e.chans[d].port)
    && (forall w, i :: 0 <= i < |Queue(inbox, w)| && Queue(inbox, w)[i].ChannelOpen? ==>
        Pending(nextPort, e, Queue(inbox, w)[i].port))
    && (forall w, i, v, j |
        0 <= i < |Queue(inbox, w)| && 0 <= j < |Queue(inbox, v)|
        && Queue(inbox, w)[i].ChannelOpen? && Queue(inbox, v)[j].ChannelOpen?
        && Queue(inbox, w)[i].port == Queue(inbox, v)[j].port :: w == v && i == j)
  }

  /** A port that has been made and has no callee end yet. */
  ghost predicate Pending(nextPort: nat, e: Ends, port: nat) {
    && port < nextPort
    && forall c :: 0 <= c < |e.chans| && e.chans[c].allowed.Some? ==> e.chans[c].port != port
  }

  ghost predicate Down(e: Ends, inbox: Inbox, port: nat) {
    && (forall c :: 0 <= c < |e.chans| && e.chans[c].allowed.Some? && e.chans[c].port == port ==> e.chans[c].closed)
    && (forall w, i :: 0 <= i < |Queue(inbox, w)| && Queue(inbox, w)[i].ChannelOpen? ==> Queue(inbox, w)[i].port != port)
  }

  ghost predicate DownPorts(log: seq<Event>, nextPort: nat, e: Ends, inbox: Inbox) {
    forall p: nat :: Invalidated(p) in log ==> p < nextPort && Down(e, inbox, p)
  }

  /** Every served invoke comes after the authorization of its device under its channel's entry. */
  ghost predicate ServedAfterPassed(log: seq<Event>) {
    forall j :: 0 <= j < |log| && log[j].Served? ==>
      exists i, a, k :: 0 <= i < j && log[i] == Authorized(log[j].port, a, log[j].callee, Grant(k, log[j].device))
  }

  /** Nothing is served on a port after it was taken down at the callee. */
  ghost predicate NothingAfterDown(log: seq<Event>) {
    forall i, j :: 0 <= i < j < |log| && log[i].Invalidated? && log[j].Served? ==> log[i].port != log[j].port
  }

  ghost predicate Safe(s: Sys) {
    && Shape(s.ends)
    && Ordered(s.main.registry, s.ends, s.inbox)
    && Backed(s.log, s.ends, s.inbox)
    && OnePort(s.main.nextPort, s.ends, s.inbox)
    && DownPorts(s.log, s.main.nextPort, s.ends, s.inbox)
    && ServedAfterPassed(s.log)
    && NothingAfterDown(s.log)
  }

  // ----- the log grows -----

  lemma LogGrows(log: seq<Event>, log': seq<Event>, e: Ends, inbox: Inbox)
    requires Backed(log, e, inbox) && forall ev :: ev in log ==> ev in log'
    ensures Backed(log', e, inbox)
  {
    PassedGrows(log, log');
    forall w, i | 0 <= i < |Queue(inbox, w)| ensures MessagePassed(log', w, Queue(inbox, w)[i]) {
      assert MessagePassed(log, w, Queue(inbox, w)[i]);
    }
    forall c | 0 <= c < |e.chans| ensures ChanPassed(log', e.chans[c]) { assert ChanPassed(log, e.chans[c]); }
  }

  lemma PassedGrows(log: seq<Event>, log': seq<Event>)
    requires forall ev :: ev in log ==> ev in log'
    ensures forall p, a, b, d :: Passed(log, p, a, b, d) ==> Passed(log', p, a, b, d)
  {
    forall p, a, b, d | Passed(log, p, a, b, d) ensures Passed(log', p, a, b, d) {
      var k :| Authorized(p, a, b, Grant(k, d)) in log;
      assert Authorized(p, a, b, Grant(k, d)) in log';
    }
  }

  ghost predicate Plain(ev: Event) { !ev.Served? && !ev.Invalidated? }

  lemma LogPlain(log: seq<Event>, es: seq<Event>)
    requires ServedAfterPassed(log) && NothingAfterDown(log) && forall ev :: ev in es ==> Plain(ev)
    ensures ServedAfterPassed(log + es) && NothingAfterDown(log + es)
    ensures forall p: nat :: Invalidated(p) in log + es <==> Invalidated(p) in log
  {
    var log' := log + es;
    forall j | |log| <= j < |log'| ensures Plain(log'[j]) { assert log'[j] == es[j - |log|]; }
    forall j | 0 <= j < |log'| && log'[j].Served?
      ensures exists i, a, k :: 0 <= i < j && log'[i] == Authorized(log'[j].port, a, log'[j].callee, Grant(k, log'[j].device))
    {
      var i, a, k :| 0 <= i < j && log[i] == Authorized(log[j].port, a, log[j].callee, Grant(k, log[j].device));
      assert log'[i] == log[i];
    }
    forall i, j | 0 <= i < j < |log'| && log'[i].Invalidated? && log'[j].Served? ensures log'[i].port != log'[j].port {
      assert j < |log|;
    }
  }

  // ----- messages that open nothing are added -----

  /** `inbox'` adds to each queue messages that open nothing, each authorized and in turn. */
  ghost predicate Adds(registry: map<Pair, Entry>, e: Ends, inbox: Inbox, inbox': Inbox, log: seq<Event>) {
    && (forall w :: Queue(inbox, w) <= Queue(inbox', w))
    && (forall w, i :: |Queue(inbox, w)| <= i < |Queue(inbox', w)| ==>
        Addable(registry, log, w, Queue(inbox', w)[i]))
  }

  ghost predicate Addable(registry: map<Pair, Entry>, log: seq<Event>, w: Worker, m: ToWorker) {
    && !m.ChannelOpen?
    && MessagePassed(log, w, m)
    && (About(m).Some? ==>
        var (a, p) := About(m).value; Pair(a, w) in registry && registry[Pair(a, w)].port == p)
  }

  /** The registry keeps some of its entries, on the same ports. */
  ghost predicate Keeps(registry: map<Pair, Entry>, registry': map<Pair, Entry>) {
    forall p :: p in registry' ==> p in registry && registry'[p].port == registry[p].port
  }

  lemma AddedNewest(registry: map<Pair, Entry>, e: Ends, inbox: Inbox, inbox': Inbox, log: seq<Event>, w: Worker, n: nat, a: Worker)
    requires Adds(registry, e, inbox, inbox', log)
    requires |Queue(inbox, w)| <= n <= |Queue(inbox', w)|
    ensures forall before :: NewestOpen(Queue(inbox', w)[..n], a, before) == NewestOpen(Queue(inbox, w), a, before)
  {
    var q, q' := Queue(inbox, w), Queue(inbox', w);
    var more := q'[|q|..n];
    assert q'[..n] == q + more;
    forall m | m in more ensures !m.ChannelOpen? {
      var i :| 0 <= i < |more| && more[i] == m;
      assert Addable(registry, log, w, q'[|q| + i]);
    }
    forall before ensures NewestOpen(q'[..n], a, before) == NewestOpen(q, a, before) {
      NewestAppend(q, more, a, before);
      NewestQuiet(more, a, NewestOpen(q, a, before));
    }
  }

  lemma AddsOrdered(registry: map<Pair, Entry>, registry': map<Pair, Entry>, e: Ends, inbox: Inbox, inbox': Inbox, log: seq<Event>)
    requires Ordered(registry, e, inbox) && Adds(registry, e, inbox, inbox', log) && Keeps(registry, registry')
    ensures Ordered(registry', e, inbox')
  {
    forall w, i | 0 <= i < |Queue(inbox', w)|
      ensures InTurn(Queue(inbox', w), i, OpenedPort(e, w, Caller(Queue(inbox', w)[i])))
    {
      var q, q' := Queue(inbox, w), Queue(inbox', w);
      if i < |q| {
        assert InTurn(q, i, OpenedPort(e, w, Caller(q[i])));
        assert q'[..i] == q[..i];
      } else {
        assert Addable(registry, log, w, q'[i]);
        AddedNewest(registry, e, inbox, inbox', log, w, i, Caller(q'[i]));
      }
    }
    forall p | p in registry'
      ensures NewestOpen(Queue(inbox', p.other), p.one, OpenedPort(e, p.other, p.one)) == Some(registry'[p].port)
    {
      var q' := Queue(inbox', p.other);
      AddedNewest(registry, e, inbox, inbox', log, p.other, |q'|, p.one);
      assert q'[..|q'|] == q';
    }
  }

  lemma AddsBacked(registry: map<Pair, Entry>, e: Ends, inbox: Inbox, inbox': Inbox, log: seq<Event>)
    requires Backed(log, e, inbox) && Adds(registry, e, inbox, inbox', log)
    ensures Backed(log, e, inbox')
  {
    forall w, i | 0 <= i < |Queue(inbox', w)| ensures MessagePassed(log, w, Queue(inbox', w)[i]) {
      if i < |Queue(inbox, w)| {
        assert MessagePassed(log, w, Queue(inbox, w)[i]);
      } else {
        assert Addable(registry, log, w, Queue(inbox', w)[i]);
      }
    }
  }

  lemma AddedOpens(registry: map<Pair, Entry>, e: Ends, inbox: Inbox, inbox': Inbox, log: seq<Event>, w: Worker, i: nat)
    requires Adds(registry, e, inbox, inbox', log)
    requires i < |Queue(inbox', w)| && Queue(inbox', w)[i].ChannelOpen?
    ensures i < |Queue(inbox, w)| && Queue(inbox, w)[i] == Queue(inbox', w)[i]
  {
    forall n | |Queue(inbox, w)| <= n < |Queue(inbox', w)| ensures !Queue(inbox', w)[n].ChannelOpen? {
      assert Addable(registry, log, w, Queue(inbox', w)[n]);
    }
  }

  lemma AddsPorts(registry: map<Pair, Entry>, nextPort: nat, e: Ends, inbox: Inbox, inbox': Inbox, log: seq<Event>, dlog: seq<Event>)
    requires OnePort(nextPort, e, inbox) && DownPorts(dlog, nextPort, e, inbox) && Adds(registry, e, inbox, inbox', log)
    ensures OnePort(nextPort, e, inbox') && DownPorts(dlog, nextPort, e, inbox')
  {
    forall w, i | 0 <= i < |Queue(inbox', w)| && Queue(inbox', w)[i].ChannelOpen?
      ensures i < |Queue(inbox, w)| && Queue(inbox, w)[i] == Queue(inbox', w)[i]
    {
      AddedOpens(registry, e, inbox, inbox', log, w, i);
    }
  }

  /** A step of the main thread that opens nothing: messages go out, entries may go, the log says nothing new. */
  ghost predicate Quiet(s: Sys, s': Sys, es: seq<Event>) {
    && s'.ends == s.ends && s'.main.nextPort == s.main.nextPort && s'.log == s.log + es
    && (forall ev :: ev in es ==> Plain(ev))
    && Keeps(s.main.registry, s'.main.registry)
    && Adds(s.main.registry, s.ends, s.inbox, s'.inbox, s'.log)
  }

  lemma QuietStep(s: Sys, s': Sys, es: seq<Event>)
    requires Safe(s) && Quiet(s, s', es)
    ensures Safe(s')
  {
    LogGrows(s.log, s'.log, s.ends, s.inbox);
    LogPlain(s.log, es);
    AddsOrdered(s.main.registry, s'.main.registry, s.ends, s.inbox, s'.inbox, s'.log);
    AddsBacked(s.main.registry, s.ends, s.inbox, s'.inbox, s'.log);
    AddsPorts(s.main.registry, s.main.nextPort, s.ends, s.inbox, s'.inbox, s'.log, s.log);
  }

  lemma SendOne(s: Sys, w: Worker, m: ToWorker, log: seq<Event>)
    requires Addable(s.main.registry, log, w, m)
    ensures Adds(s.main.registry, s.ends, s.inbox, Push(s.inbox, w, m), log)
  {
  }

  // ----- the main thread -----

  lemma DenyQuiet(s: Sys, w: Worker, device: Device, code: string)
    ensures Quiet(s, Deny(s, w, device, code), [])
  {
    SendOne(s, w, ChannelDeny(device, code), s.log);
    assert s.log + [] == s.log;
  }

  lemma DenySafe(s: Sys, w: Worker, device: Device, code: string)
    requires Safe(s)
    ensures Safe(Deny(s, w, device, code))
  {
    DenyQuiet(s, w, device, code);
    QuietStep(s, Deny(s, w, device, code), []);
  }

  /** Nothing the invariant speaks about has changed. */
  lemma SameSafe(s: Sys, s': Sys)
    requires Safe(s)
    requires s'.ends == s.ends && s'.inbox == s.inbox && s'.log == s.log
    requires s'.main.registry == s.main.registry && s'.main.nextPort == s.main.nextPort
    ensures Safe(s')
  {
  }

  lemma RequestSafe(s: Sys, caller: Worker, device: Device, key: Key, missing: string)
    requires Safe(s)
    ensures Safe(HandleRequest(s, caller, device, key, missing))
  {
    DenySafe(s, caller, device, missing);
    DenySafe(s, caller, device, "PEER_SELF_TARGET");
    if device in s.main.deviceMap {
      SameSafe(s, AddCheck(s, Check(caller, device, key, Some(s.main.deviceMap[device]), "")));
    } else {
      SameSafe(s, AddCheck(s, Check(caller, device, key, None, missing)));
    }
  }

  lemma GrantOnOpenQuiet(s: Sys, device: Device, key: Key, caller: Worker, callee: Worker) returns (ev: Event)
    requires Pair(caller, callee) in s.main.registry
    ensures Quiet(s, GrantOnOpen(s, device, key, caller, callee), [ev])
  {
    var s' := GrantOnOpen(s, device, key, caller, callee);
    var p := s.main.registry[Pair(caller, callee)].port;
    ev := Authorized(p, caller, callee, Grant(key, device));
    assert s'.log == s.log + [ev];
    assert ev in s'.log;
    assert Passed(s'.log, p, caller, callee, device);
    if callee in s.main.ended {
      SendOne(s, caller, ChannelDeny(device, s.main.ended[callee]), s'.log);
    } else {
      SendOne(s, callee, ChannelAllow(caller, device, s.main.nextAllow, p), s'.log);
    }
  }

  lemma GrantOnOpenSafe(s: Sys, device: Device, key: Key, caller: Worker, callee: Worker)
    requires Safe(s) && Pair(caller, callee) in s.main.registry
    ensures Safe(GrantOnOpen(s, device, key, caller, callee))
  {
    var ev := GrantOnOpenQuiet(s, device, key, caller, callee);
    QuietStep(s, GrantOnOpen(s, device, key, caller, callee), [ev]);
  }

  /** A new entry: its Open is the newest of its pair, and its port is nobody else's. */
  lemma GrantNewSafe(s: Sys, device: Device, key: Key, caller: Worker, callee: Worker)
    requires Safe(s)
    ensures Safe(GrantNew(s, device, key, caller, callee))
  {
    var p := s.main.nextPort;
    var ev := Authorized(p, caller, callee, Grant(key, device));
    var open := ChannelOpen(caller, key, device, p);
    var registry := s.main.registry[Pair(caller, callee) := Entry(p, {Grant(key, device)})];
    var s1 := s.(main := s.main.(registry := registry, nextPort := p + 1),
                 inbox := Push(s.inbox, callee, open), log := s.log + [ev]);
    assert ev in s1.log;
    assert Passed(s1.log, p, caller, callee, device);
    LogGrows(s.log, s1.log, s.ends, s.inbox);
    LogPlain(s.log, [ev]);
    OpenSentOrdered(s.main.registry, s.ends, s.inbox, caller, callee, key, device, p);
    OpenSentBacked(s1.log, s.ends, s.inbox, callee, open);
    OpenSentPorts(s.log, p, s.ends, s.inbox, callee, open);
    assert Safe(s1);
    GrantSentQuiet(s1, caller, ChannelGrant(device, callee, Some(p)));
    QuietStep(s1, GrantNew(s, device, key, caller, callee), []);
  }

  lemma GrantSentQuiet(s: Sys, w: Worker, m: ToWorker)
    requires m.ChannelGrant?
    ensures Quiet(s, s.(inbox := Push(s.inbox, w, m)), [])
  {
    SendOne(s, w, m, s.log);
    assert s.log + [] == s.log;
  }

  lemma OpenSentOrdered(registry: map<Pair, Entry>, e: Ends, inbox: Inbox, caller: Worker, callee: Worker,
                        key: Key, device: Device, p: nat)
    requires Ordered(registry, e, inbox)
    ensures Ordered(registry[Pair(caller, callee) := Entry(p, {Grant(key, device)})], e,
                    Push(inbox, callee, ChannelOpen(caller, key, device, p)))
  {
    var open := ChannelOpen(caller, key, device, p);
    var registry' := registry[Pair(caller, callee) := Entry(p, {Grant(key, device)})];
    var inbox' := Push(inbox, callee, open);
    var q, q' := Queue(inbox, callee), Queue(inbox', callee);
    assert q' == q + [open];
    forall w, i | 0 <= i < |Queue(inbox', w)|
      ensures InTurn(Queue(inbox', w), i, OpenedPort(e, w, Caller(Queue(inbox', w)[i])))
    {
      if i < |Queue(inbox, w)| {
        assert InTurn(Queue(inbox, w), i, OpenedPort(e, w, Caller(Queue(inbox, w)[i])));
        assert Queue(inbox', w)[..i] == Queue(inbox, w)[..i];
      }
    }
    forall pair | pair in registry'
      ensures NewestOpen(Queue(inbox', pair.other), pair.one, OpenedPort(e, pair.other, pair.one)) == Some(registry'[pair].port)
    {
      if pair != Pair(caller, callee) && pair.other == callee {
        assert q'[..|q'| - 1] == q;
      }
    }
  }

  lemma OpenSentBacked(log: seq<Event>, e: Ends, inbox: Inbox, callee: Worker, open: ToWorker)
    requires Backed(log, e, inbox) && MessagePassed(log, callee, open)
    ensures Backed(log, e, Push(inbox, callee, open))
  {
    var inbox' := Push(inbox, callee, open);
    forall w, i | 0 <= i < |Queue(inbox', w)| ensures MessagePassed(log, w, Queue(inbox', w)[i]) {
      if i < |Queue(inbox, w)| { assert MessagePassed(log, w, Queue(inbox, w)[i]); }
    }
  }

  lemma OpenSentPorts(log: seq<Event>, p: nat, e: Ends, inbox: Inbox, callee: Worker, open: ToWorker)
    requires OnePort(p, e, inbox) && DownPorts(log, p, e, inbox) && open.ChannelOpen? && open.port == p
    ensures OnePort(p + 1, e, Push(inbox, callee, open)) && DownPorts(log, p + 1, e, Push(inbox, callee, open))
  {
    var inbox' := Push(inbox, callee, open);
    forall w, i | 0 <= i < |Queue(inbox', w)| && Queue(inbox', w)[i].ChannelOpen?
      ensures Pending(p + 1, e, Queue(inbox', w)[i].port)
      ensures (w == callee && i == |Queue(inbox, w)|) || (i < |Queue(inbox, w)| && Queue(inbox', w)[i] == Queue(inbox, w)[i])
      ensures (w == callee && i == |Queue(inbox, w)|) || Queue(inbox', w)[i].port < p
    {
      if i < |Queue(inbox, w)| { assert Pending(p, e, Queue(inbox, w)[i].port); }
    }
  }

  lemma AuthSafe(s: Sys, i: nat, ok: bool, code: string)
    requires Safe(s) && i < |s.main.checks|
    ensures Safe(Authenticated(s, i, ok, code))
  {
    var c := s.main.checks[i];
    var s1 := s.(main := s.main.(checks := s.main.checks[..i] + s.main.checks[i + 1..]));
    SameSafe(s, s1);
    DenySafe(s1, c.caller, c.device, code);
    DenySafe(s1, c.caller, c.device, c.code);
    if c.callee.Some? {
      if Pair(c.caller, c.callee.value) in s1.main.registry {
        GrantOnOpenSafe(s1, c.device, c.key, c.caller, c.callee.value);
      } else {
        GrantNewSafe(s1, c.device, c.key, c.caller, c.callee.value);
      }
    }
  }

  lemma AllowedSafe(s: Sys, id: nat)
    requires Safe(s)
    ensures Safe(Allowed(s, id))
  {
    if id in s.main.awaiting {
      var a := s.main.awaiting[id];
      var s1 := s.(main := s.main.(awaiting := s.main.awaiting - {id}));
      SameSafe(s, s1);
      GrantSentQuiet(s1, a.caller, ChannelGrant(a.device, a.callee, None));
      QuietStep(s1, Allowed(s, id), []);
    }
  }

  lemma CloseRevokedQuiet(s: Sys, pair: Pair, port: nat)
    requires pair in s.main.registry && s.main.registry[pair].port == port
    ensures Quiet(s, CloseRevoked(s, pair, port), [])
  {
    var inbox1 := Push(s.inbox, pair.one, Invalidate(pair.other, None));
    SendOne(s, pair.one, Invalidate(pair.other, None), s.log);
    SendOne(s.(inbox := inbox1), pair.other, Invalidate(pair.one, Some(port)), s.log);
    AddsTwice(s.main.registry, s.ends, s.inbox, inbox1, CloseRevoked(s, pair, port).inbox, s.log);
    assert s.log + [] == s.log;
  }

  lemma CloseRevokedSafe(s: Sys, pair: Pair, port: nat)
    requires Safe(s)
    ensures Safe(CloseRevoked(s, pair, port))
  {
    if pair in s.main.registry && s.main.registry[pair].port == port {
      CloseRevokedQuiet(s, pair, port);
      QuietStep(s, CloseRevoked(s, pair, port), []);
    }
  }

  lemma AddsTwice(registry: map<Pair, Entry>, e: Ends, inbox: Inbox, inbox1: Inbox, inbox2: Inbox, log: seq<Event>)
    requires Adds(registry, e, inbox, inbox1, log) && Adds(registry, e, inbox1, inbox2, log)
    ensures Adds(registry, e, inbox, inbox2, log)
  {
    forall w ensures Queue(inbox, w) <= Queue(inbox2, w) {
      assert Queue(inbox, w) <= Queue(inbox1, w) <= Queue(inbox2, w);
    }
    forall w, i | |Queue(inbox, w)| <= i < |Queue(inbox2, w)| ensures Addable(registry, log, w, Queue(inbox2, w)[i]) {
      assert Queue(inbox1, w) <= Queue(inbox2, w);
      if i < |Queue(inbox1, w)| {
        assert Addable(registry, log, w, Queue(inbox1, w)[i]);
        assert Queue(inbox2, w)[i] == Queue(inbox1, w)[i];
      }
    }
  }

  lemma InvalidationsSent(s: Sys, w: Worker, o: Worker)
    ensures Queue(InvalidateWorker(s, w).inbox, o) == Queue(s.inbox, o) + Invalidations(s.main.registry, w, o)
  {
    var registry := s.main.registry;
    assert Pair(w, o) in registry ==> Pair(w, o).other in Parties(registry);
    assert Pair(o, w) in registry ==> Pair(o, w).one in Parties(registry);
  }

  lemma InvalidateWorkerQuiet(s: Sys, w: Worker)
    ensures Quiet(s, InvalidateWorker(s, w), [])
  {
    var registry, inbox' := s.main.registry, InvalidateWorker(s, w).inbox;
    forall o ensures Queue(s.inbox, o) <= Queue(inbox', o) { InvalidationsSent(s, w, o); }
    forall o, i | |Queue(s.inbox, o)| <= i < |Queue(inbox', o)| ensures Addable(registry, s.log, o, Queue(inbox', o)[i]) {
      InvalidationsSent(s, w, o);
      assert Queue(inbox', o)[i] == Invalidations(registry, w, o)[i - |Queue(s.inbox, o)|];
    }
    assert s.log + [] == s.log;
  }

  lemma InvalidateWorkerSafe(s: Sys, w: Worker)
    requires Safe(s)
    ensures Safe(InvalidateWorker(s, w))
  {
    InvalidateWorkerQuiet(s, w);
    QuietStep(s, InvalidateWorker(s, w), []);
  }

  lemma PurgeSafe(s: Sys, w: Worker)
    requires Safe(s)
    ensures Safe(Purge(s, w))
  {
    var left := map d | d in s.main.deviceMap && s.main.deviceMap[d] != w :: s.main.deviceMap[d];
    var s1 := s.(main := s.main.(deviceMap := left));
    SameSafe(s, s1);
    InvalidateWorkerSafe(s1, w);
  }

  lemma DenialsDeny(awaiting: map<nat, Await>, n: nat, callee: Worker, caller: Worker, code: string)
    ensures forall m :: m in Denials(awaiting, n, callee, caller, code) ==> m.ChannelDeny?
  {
  }

  lemma WorkerEndsQuiet(s: Sys, w: Worker, code: string)
    requires w !in s.main.ended
    ensures Quiet(s, WorkerEnds(s, w, code), [])
  {
    var inbox' := WorkerEnds(s, w, code).inbox;
    forall o, i | |Queue(s.inbox, o)| <= i < |Queue(inbox', o)|
      ensures Addable(s.main.registry, s.log, o, Queue(inbox', o)[i])
    {
      var more := Denials(s.main.awaiting, s.main.nextAllow, w, o, code);
      DenialsDeny(s.main.awaiting, s.main.nextAllow, w, o, code);
      assert Queue(inbox', o)[i] == more[i - |Queue(s.inbox, o)|];
      assert Queue(inbox', o)[i] in more;
    }
    assert s.log + [] == s.log;
  }

  lemma WorkerEndsSafe(s: Sys, w: Worker, code: string)
    requires Safe(s)
    ensures Safe(WorkerEnds(s, w, code))
  {
    if w !in s.main.ended {
      WorkerEndsQuiet(s, w, code);
      QuietStep(s, WorkerEnds(s, w, code), []);
    }
  }

  lemma MainSafe(s: Sys, w: Worker, limited: bool, missing: string)
    requires Safe(s)
    ensures Safe(MainReceives(s, w, limited, missing))
  {
    if Queue(s.outbox, w) != [] {
      var s1 := s.(outbox := s.outbox[w := s.outbox[w][1..]]);
      SameSafe(s, s1);
      match s.outbox[w][0]
      case ChannelRequest(d, k) => DenySafe(s1, w, d, "RATE_LIMITED"); RequestSafe(s1, w, d, k, missing);
      case AllowReply(id) => AllowedSafe(s1, id);
      case SelfInvalidate => InvalidateWorkerSafe(s1, w);
    }
  }

  // ----- a worker handles a message -----

  /** The newest channels once `m` is handled at `w`. */
  ghost predicate Advances(e: Ends, e': Ends, w: Worker, m: ToWorker) {
    forall v, a :: OpenedPort(e', v, a) ==
      if v == w then NewestOpen([m], a, OpenedPort(e, v, a)) else OpenedPort(e, v, a)
  }

  function Pop(inbox: Inbox, w: Worker): Inbox
    requires Queue(inbox, w) != []
  {
    inbox[w := inbox[w][1..]]
  }

  lemma PopOrdered(registry: map<Pair, Entry>, e: Ends, e': Ends, inbox: Inbox, w: Worker)
    requires Ordered(registry, e, inbox) && Queue(inbox, w) != []
    requires Advances(e, e', w, Queue(inbox, w)[0])
    ensures Ordered(registry, e', Pop(inbox, w))
  {
    var q, inbox' := Queue(inbox, w), Pop(inbox, w);
    forall v, i | 0 <= i < |Queue(inbox', v)|
      ensures InTurn(Queue(inbox', v), i, OpenedPort(e', v, Caller(Queue(inbox', v)[i])))
    {
      if v == w {
        assert InTurn(q, i + 1, OpenedPort(e, w, Caller(q[i + 1])));
        assert q[..i + 1] == [q[0]] + q[1..][..i];
        NewestAppend([q[0]], q[1..][..i], Caller(q[i + 1]), OpenedPort(e, w, Caller(q[i + 1])));
      } else {
        assert InTurn(Queue(inbox, v), i, OpenedPort(e, v, Caller(Queue(inbox, v)[i])));
      }
    }
    forall p | p in registry
      ensures NewestOpen(Queue(inbox', p.other), p.one, OpenedPort(e', p.other, p.one)) == Some(registry[p].port)
    {
      if p.other == w {
        assert q == [q[0]] + q[1..];
        NewestAppend([q[0]], q[1..], p.one, OpenedPort(e, w, p.one));
      }
    }
  }

  /** No channel got a port or a role, and none was reopened. */
  ghost predicate SameEnds(e: Ends, e': Ends) {
    && |e.chans| <= |e'.chans|
    && (forall c :: 0 <= c < |e.chans| ==>
        e'.chans[c].port == e.chans[c].port && e'.chans[c].allowed.Some? == e.chans[c].allowed.Some?
        && (e.chans[c].closed ==> e'.chans[c].closed))
    && (forall c :: |e.chans| <= c < |e'.chans| ==> e'.chans[c].allowed.None?)
  }

  lemma PopPorts(log: seq<Event>, nextPort: nat, e: Ends, e': Ends, inbox: Inbox, w: Worker)
    requires OnePort(nextPort, e, inbox) && DownPorts(log, nextPort, e, inbox) && Queue(inbox, w) != []
    requires SameEnds(e, e')
    ensures OnePort(nextPort, e', Pop(inbox, w)) && DownPorts(log, nextPort, e', Pop(inbox, w))
  {
    var inbox' := Pop(inbox, w);
    forall v, i | 0 <= i < |Queue(inbox', v)|
      ensures var j := if v == w then i + 1 else i; j < |Queue(inbox, v)| && Queue(inbox', v)[i] == Queue(inbox, v)[j]
    {
    }
    forall v, i | 0 <= i < |Queue(inbox', v)| && Queue(inbox', v)[i].ChannelOpen?
      ensures Pending(nextPort, e', Queue(inbox', v)[i].port)
    {
      var j := if v == w then i + 1 else i;
      assert Pending(nextPort, e, Queue(inbox, v)[j].port);
    }
    forall p: nat | Invalidated(p) in log ensures Down(e', inbox', p) {
      assert Down(e, inbox, p);
    }
  }

  lemma PopBacked(log: seq<Event>, e: Ends, e': Ends, inbox: Inbox, w: Worker)
    requires Backed(log, e, inbox) && Queue(inbox, w) != []
    requires forall c :: 0 <= c < |e'.chans| ==> ChanPassed(log, e'.chans[c])
    ensures Backed(log, e', Pop(inbox, w))
  {
    var inbox' := Pop(inbox, w);
    forall v, i | 0 <= i < |Queue(inbox', v)| ensures MessagePassed(log, v, Queue(inbox', v)[i]) {
      assert MessagePassed(log, v, Queue(inbox, v)[if v == w then i + 1 else i]);
    }
  }

  // the handlers, on the channel state alone

  ghost predicate AllPassed(log: seq<Event>, e: Ends) {
    forall c :: 0 <= c < |e.chans| ==> ChanPassed(log, e.chans[c])
  }

  ghost predicate SameOpened(e: Ends, e': Ends) {
    SameEnds(e, e') && forall v, a :: OpenedPort(e', v, a) == OpenedPort(e, v, a)
  }

  lemma AttachEnds(e: Ends, w: Worker, device: Device, target: Worker, port: Option<nat>)
    requires Shape(e)
    ensures Shape(Attach(e, w, device, target, port))
  {
  }

  lemma AttachOpened(e: Ends, w: Worker, device: Device, target: Worker, port: Option<nat>)
    requires Shape(e)
    ensures SameOpened(e, Attach(e, w, device, target, port))
  {
  }

  lemma AttachPassed(e: Ends, w: Worker, device: Device, target: Worker, port: Option<nat>, log: seq<Event>)
    requires Sound(e) && AllPassed(log, e)
    ensures AllPassed(log, Attach(e, w, device, target, port))
  {
  }

  lemma CloseEnds(e: Ends, c: nat)
    requires Shape(e) && c < |e.chans|
    ensures Shape(Close(e, c)) && Close(e, c).chans[c].closed
  {
  }

  lemma CloseOpened(e: Ends, c: nat)
    requires c < |e.chans|
    ensures SameOpened(e, Close(e, c))
  {
  }

  lemma ClosePassed(e: Ends, c: nat, log: seq<Event>)
    requires c < |e.chans| && AllPassed(log, e)
    ensures AllPassed(log, Close(e, c))
  {
    forall i | 0 <= i < |e.chans| ensures ChanPassed(log, Close(e, c).chans[i]) { assert ChanPassed(log, e.chans[i]); }
  }

  lemma AllowEnds(e: Ends, w: Worker, caller: Worker, device: Device)
    requires Shape(e)
    ensures Shape(Allow(e, w, caller, device)) && SameOpened(e, Allow(e, w, caller, device))
  {
  }

  lemma AllowPassed(e: Ends, w: Worker, caller: Worker, device: Device, log: seq<Event>, port: nat)
    requires Shape(e) && AllPassed(log, e)
    requires OpenedPort(e, w, caller) == Some(port) && Passed(log, port, caller, w, device)
    ensures AllPassed(log, Allow(e, w, caller, device))
  {
    var e' := Allow(e, w, caller, device);
    forall c | 0 <= c < |e'.chans| ensures ChanPassed(log, e'.chans[c]) { assert ChanPassed(log, e.chans[c]); }
  }

  lemma OpenEnds(e: Ends, w: Worker, caller: Worker, device: Device, port: nat, key: Key)
    requires Shape(e)
    ensures Shape(Open(e, w, caller, device, port))
    ensures Advances(e, Open(e, w, caller, device, port), w, ChannelOpen(caller, key, device, port))
  {
    var e', m := Open(e, w, caller, device, port), ChannelOpen(caller, key, device, port);
    forall v, a ensures OpenedPort(e', v, a) ==
      if v == w then NewestOpen([m], a, OpenedPort(e, v, a)) else OpenedPort(e, v, a)
    {
      assert [m][..0] == [];
    }
  }

  lemma OpenPassed(e: Ends, w: Worker, caller: Worker, device: Device, port: nat, log: seq<Event>)
    requires AllPassed(log, e) && Passed(log, port, caller, w, device)
    ensures AllPassed(log, Open(e, w, caller, device, port))
  {
    var e' := Open(e, w, caller, device, port);
    forall c | 0 <= c < |e'.chans| ensures ChanPassed(log, e'.chans[c]) {
      if c < |e.chans| { assert ChanPassed(log, e.chans[c]); }
    }
  }

  lemma OpenPorts(log: seq<Event>, nextPort: nat, e: Ends, inbox: Inbox, w: Worker)
    requires OnePort(nextPort, e, inbox) && DownPorts(log, nextPort, e, inbox) && Queue(inbox, w) != []
    requires Queue(inbox, w)[0].ChannelOpen?
    ensures var m := Queue(inbox, w)[0];
      var e' := Open(e, w, m.caller, m.device, m.port);
      OnePort(nextPort, e', Pop(inbox, w)) && DownPorts(log, nextPort, e', Pop(inbox, w))
  {
    var m, inbox' := Queue(inbox, w)[0], Pop(inbox, w);
    var e' := Open(e, w, m.caller, m.device, m.port);
    assert Pending(nextPort, e, m.port);
    forall v, i | 0 <= i < |Queue(inbox', v)|
      ensures var j := if v == w then i + 1 else i; j < |Queue(inbox, v)| && Queue(inbox', v)[i] == Queue(inbox, v)[j]
    {
    }
    forall v, i | 0 <= i < |Queue(inbox', v)| && Queue(inbox', v)[i].ChannelOpen?
      ensures Pending(nextPort, e', Queue(inbox', v)[i].port)
    {
      var j := if v == w then i + 1 else i;
      assert Pending(nextPort, e, Queue(inbox, v)[j].port);
      assert Queue(inbox, v)[j].port != m.port;
    }
    forall p: nat | Invalidated(p) in log ensures Down(e', inbox', p) {
      assert Down(e, inbox, p);
    }
  }

  /** The invariant but for its last two parts, which are about the log alone. */
  ghost predicate SafeState(s: Sys) {
    && Shape(s.ends) && Ordered(s.main.registry, s.ends, s.inbox) && Backed(s.log, s.ends, s.inbox)
    && OnePort(s.main.nextPort, s.ends, s.inbox) && DownPorts(s.log, s.main.nextPort, s.ends, s.inbox)
  }

  lemma QuietMessage(s: Sys, e': Ends, w: Worker)
    requires SafeState(s) && Queue(s.inbox, w) != [] && !Queue(s.inbox, w)[0].ChannelOpen?
    requires Shape(e') && SameOpened(s.ends, e') && AllPassed(s.log, e')
    ensures SafeState(s.(ends := e', inbox := Pop(s.inbox, w)))
  {
    assert Advances(s.ends, e', w, Queue(s.inbox, w)[0]) by {
      forall a ensures NewestOpen([Queue(s.inbox, w)[0]], a, OpenedPort(s.ends, w, a)) == OpenedPort(s.ends, w, a) {
        NewestQuiet([Queue(s.inbox, w)[0]], a, OpenedPort(s.ends, w, a));
      }
    }
    PopOrdered(s.main.registry, s.ends, e', s.inbox, w);
    PopPorts(s.log, s.main.nextPort, s.ends, e', s.inbox, w);
    PopBacked(s.log, s.ends, e', s.inbox, w);
  }

  /** Only `waiting`, `deviceWorker` and the number of calls may differ. */
  ghost predicate SameChans(e: Ends, e': Ends) {
    e'.slots == e.slots && e'.lastOpen == e.lastOpen && e'.chans == e.chans
  }

  lemma Relabel(s: Sys, s': Sys, es: seq<Event>)
    requires SafeState(s) && SameChans(s.ends, s'.ends) && s'.inbox == s.inbox && s'.log == s.log + es
    requires s'.main.registry == s.main.registry && s'.main.nextPort == s.main.nextPort
    requires forall p: nat :: Invalidated(p) in s'.log <==> Invalidated(p) in s.log
    ensures SafeState(s')
  {
    LogGrows(s.log, s'.log, s.ends, s.inbox);
    assert Ordered(s'.main.registry, s'.ends, s'.inbox) by {
      assert forall v, a :: OpenedPort(s'.ends, v, a) == OpenedPort(s.ends, v, a);
    }
    forall c | 0 <= c < |s'.ends.chans| ensures ChanPassed(s'.log, s'.ends.chans[c]) {
      assert ChanPassed(s'.log, s.ends.chans[c]);
    }
  }

  lemma SentPlain(c: Chan, device: Device, ids: seq<nat>)
    ensures forall ev :: ev in Sent(c, device, ids).1 ==> Plain(ev)
  {
  }

  lemma FlushEvents(s: Sys, w: Worker, device: Device, target: Option<Worker>, code: string) returns (es: seq<Event>)
    requires Sound(s.ends)
    ensures var s' := Flush(s, w, device, target, code);
      && SameChans(s.ends, s'.ends) && s'.inbox == s.inbox && s'.main == s.main && s'.log == s.log + es
      && forall ev :: ev in es ==> Plain(ev)
  {
    var here := At(w, device);
    if here !in s.ends.waiting {
      es := [];
      assert s.log + [] == s.log;
    } else if target.None? {
      es := seq(|s.ends.waiting[here]|, i requires 0 <= i < |s.ends.waiting[here]| => Failed(s.ends.waiting[here][i], code));
    } else if Pair(w, target.value) !in s.ends.slots {
      es := seq(|s.ends.waiting[here]|, i requires 0 <= i < |s.ends.waiting[here]| => Gone(s.ends.waiting[here][i]));
    } else {
      var c := s.ends.chans[s.ends.slots[Pair(w, target.value)]];
      SentPlain(c, device, s.ends.waiting[here]);
      es := Sent(c, device, s.ends.waiting[here]).1;
    }
  }

  lemma PlainStep(s: Sys, s': Sys, es: seq<Event>)
    requires SafeState(s) && ServedAfterPassed(s.log) && NothingAfterDown(s.log)
    requires SameChans(s.ends, s'.ends) && s'.inbox == s.inbox && s'.log == s.log + es
    requires s'.main.registry == s.main.registry && s'.main.nextPort == s.main.nextPort
    requires forall ev :: ev in es ==> Plain(ev)
    ensures Safe(s')
  {
    LogPlain(s.log, es);
    Relabel(s, s', es);
  }

  lemma FlushSafe(s: Sys, w: Worker, device: Device, target: Option<Worker>, code: string)
    requires Safe(s)
    ensures Safe(Flush(s, w, device, target, code))
  {
    var es := FlushEvents(s, w, device, target, code);
    PlainStep(s, Flush(s, w, device, target, code), es);
  }

  lemma PopSafe(s: Sys, e': Ends, w: Worker)
    requires Safe(s) && Queue(s.inbox, w) != [] && !Queue(s.inbox, w)[0].ChannelOpen?
    requires Shape(e') && SameOpened(s.ends, e') && AllPassed(s.log, e')
    ensures Safe(s.(ends := e', inbox := Pop(s.inbox, w)))
  {
    QuietMessage(s, e', w);
  }

  lemma GrantReceived(s: Sys, w: Worker)
    requires Safe(s) && Queue(s.inbox, w) != [] && Queue(s.inbox, w)[0].ChannelGrant?
    ensures Safe(WorkerReceives(s, w))
  {
    var m := Queue(s.inbox, w)[0];
    var e' := Attach(s.ends, w, m.device, m.target, m.newPort);
    AttachEnds(s.ends, w, m.device, m.target, m.newPort);
    AttachOpened(s.ends, w, m.device, m.target, m.newPort);
    AttachPassed(s.ends, w, m.device, m.target, m.newPort, s.log);
    PopSafe(s, e', w);
    FlushSafe(s.(ends := e', inbox := Pop(s.inbox, w)), w, m.device, Some(m.target), "");
  }

  lemma SameOpenedRefl(e: Ends)
    ensures SameOpened(e, e)
  {
  }

  lemma DenyReceived(s: Sys, w: Worker)
    requires Safe(s) && Queue(s.inbox, w) != [] && Queue(s.inbox, w)[0].ChannelDeny?
    ensures Safe(WorkerReceives(s, w))
  {
    var m := Queue(s.inbox, w)[0];
    SameOpenedRefl(s.ends);
    PopSafe(s, s.ends, w);
    FlushSafe(s.(inbox := Pop(s.inbox, w)), w, m.device, None, m.code);
  }

  lemma OpenReceived(s: Sys, w: Worker)
    requires Safe(s) && Queue(s.inbox, w) != [] && Queue(s.inbox, w)[0].ChannelOpen?
    ensures Safe(WorkerReceives(s, w))
  {
    var m := Queue(s.inbox, w)[0];
    var e' := Open(s.ends, w, m.caller, m.device, m.port);
    assert MessagePassed(s.log, w, Queue(s.inbox, w)[0]);
    OpenEnds(s.ends, w, m.caller, m.device, m.port, m.key);
    OpenPassed(s.ends, w, m.caller, m.device, m.port, s.log);
    PopOrdered(s.main.registry, s.ends, e', s.inbox, w);
    PopBacked(s.log, s.ends, e', s.inbox, w);
    OpenPorts(s.log, s.main.nextPort, s.ends, s.inbox, w);
  }

  lemma AllowReceived(s: Sys, w: Worker)
    requires Safe(s) && Queue(s.inbox, w) != [] && Queue(s.inbox, w)[0].ChannelAllow?
    ensures Safe(WorkerReceives(s, w))
  {
    var m := Queue(s.inbox, w)[0];
    var e' := Allow(s.ends, w, m.caller, m.device);
    assert MessagePassed(s.log, w, Queue(s.inbox, w)[0]);
    assert InTurn(Queue(s.inbox, w), 0, OpenedPort(s.ends, w, Caller(Queue(s.inbox, w)[0])));
    AllowEnds(s.ends, w, m.caller, m.device);
    AllowPassed(s.ends, w, m.caller, m.device, s.log, m.port);
    PopSafe(s, e', w);
    SameSafe(s.(ends := e', inbox := Pop(s.inbox, w)), WorkerReceives(s, w));
  }

  /** After an Invalidate sent to the callee of a port, every callee end of that port is closed. */
  lemma PortGoesDown(s: Sys, w: Worker)
    requires SafeState(s) && Queue(s.inbox, w) != []
    requires Queue(s.inbox, w)[0].Invalidate? && Queue(s.inbox, w)[0].closes.Some?
    ensures var m := Queue(s.inbox, w)[0];
      m.closes.value < s.main.nextPort && Down(CloseSlot(s.ends, w, m.peer), Pop(s.inbox, w), m.closes.value)
  {
    var m := Queue(s.inbox, w)[0];
    var p, slot := m.closes.value, Pair(w, m.peer);
    assert InTurn(Queue(s.inbox, w), 0, OpenedPort(s.ends, w, Caller(Queue(s.inbox, w)[0])));
    assert OpenedPort(s.ends, w, m.peer) == Some(p);
    var c := s.ends.lastOpen[slot];
    assert s.ends.chans[c].port == p && s.ends.chans[c].allowed.Some?;
    var e' := CloseSlot(s.ends, w, m.peer);
    assert e'.chans[c].closed;
    forall v, i | 0 <= i < |Queue(Pop(s.inbox, w), v)| && Queue(Pop(s.inbox, w), v)[i].ChannelOpen?
      ensures Queue(Pop(s.inbox, w), v)[i].port != p
    {
      assert Pending(s.main.nextPort, s.ends, Queue(s.inbox, v)[if v == w then i + 1 else i].port);
    }
  }

  lemma CloseSlotEnds(e: Ends, w: Worker, peer: Worker, log: seq<Event>)
    requires Shape(e) && AllPassed(log, e)
    ensures Shape(CloseSlot(e, w, peer)) && SameOpened(e, CloseSlot(e, w, peer)) && AllPassed(log, CloseSlot(e, w, peer))
  {
    if Pair(w, peer) in e.slots {
      CloseEnds(e, e.slots[Pair(w, peer)]);
      CloseOpened(e, e.slots[Pair(w, peer)]);
      ClosePassed(e, e.slots[Pair(w, peer)], log);
    } else {
      SameOpenedRefl(e);
    }
  }

  lemma LogDown(log: seq<Event>, port: nat)
    requires ServedAfterPassed(log) && NothingAfterDown(log)
    ensures ServedAfterPassed(log + [Invalidated(port)]) && NothingAfterDown(log + [Invalidated(port)])
  {
    var log' := log + [Invalidated(port)];
    forall j | 0 <= j < |log'| && log'[j].Served?
      ensures exists i, a, k :: 0 <= i < j && log'[i] == Authorized(log'[j].port, a, log'[j].callee, Grant(k, log'[j].device))
    {
      var i, a, k :| 0 <= i < j && log[i] == Authorized(log[j].port, a, log[j].callee, Grant(k, log[j].device));
      assert log'[i] == log[i];
    }
  }

  lemma InvalidateReceived(s: Sys, w: Worker)
    requires Safe(s) && Queue(s.inbox, w) != [] && Queue(s.inbox, w)[0].Invalidate?
    ensures Safe(WorkerReceives(s, w))
  {
    var m := Queue(s.inbox, w)[0];
    var e' := CloseSlot(s.ends, w, m.peer);
    CloseSlotEnds(s.ends, w, m.peer, s.log);
    PopSafe(s, e', w);
    var s1 := s.(ends := e', inbox := Pop(s.inbox, w));
    var s' := WorkerReceives(s, w);
    if m.closes.Some? {
      PortGoesDown(s, w);
      LogDown(s.log, m.closes.value);
      LogGrows(s1.log, s'.log, e', s1.inbox);
      assert s' == s1.(log := s.log + [Invalidated(m.closes.value)]);
      forall p: nat | Invalidated(p) in s'.log ensures p < s.main.nextPort && Down(e', s1.inbox, p) {
        assert p == m.closes.value || Invalidated(p) in s1.log;
      }
    } else {
      assert s.log + [] == s.log;
      SameSafe(s1, s');
    }
  }

  lemma WorkerSafe(s: Sys, w: Worker)
    requires Safe(s)
    ensures Safe(WorkerReceives(s, w))
  {
    if Queue(s.inbox, w) != [] {
      match Queue(s.inbox, w)[0]
      case ChannelGrant(_, _, _) => GrantReceived(s, w);
      case ChannelDeny(_, _) => DenyReceived(s, w);
      case ChannelOpen(_, _, _, _) => OpenReceived(s, w);
      case ChannelAllow(_, _, _, _) => AllowReceived(s, w);
      case Invalidate(_, _) => InvalidateReceived(s, w);
    }
  }

  // ----- the other steps -----

  lemma CallEvents(s: Sys, w: Worker, device: Device, key: Key) returns (es: seq<Event>)
    requires Sound(s.ends)
    ensures var s' := CallDevice(s, w, device, key);
      && SameChans(s.ends, s'.ends) && s'.inbox == s.inbox && s'.main == s.main && s'.log == s.log + es
      && forall ev :: ev in es ==> Plain(ev)
  {
    var fast := FastPath(s.ends, w, device);
    if fast.Some? {
      SentPlain(fast.value, device, [s.ends.calls]);
      es := Sent(fast.value, device, [s.ends.calls]).1;
    } else {
      es := [];
      assert s.log + [] == s.log;
    }
  }

  lemma CallSafe(s: Sys, w: Worker, device: Device, key: Key)
    requires Safe(s)
    ensures Safe(CallDevice(s, w, device, key))
  {
    var es := CallEvents(s, w, device, key);
    PlainStep(s, CallDevice(s, w, device, key), es);
  }

  lemma CloseSafe(s: Sys, c: nat)
    requires Safe(s) && c < |s.ends.chans|
    ensures Safe(s.(ends := Close(s.ends, c)))
  {
    var e' := Close(s.ends, c);
    CloseEnds(s.ends, c);
    CloseOpened(s.ends, c);
    ClosePassed(s.ends, c, s.log);
    forall w, i | 0 <= i < |Queue(s.inbox, w)| && Queue(s.inbox, w)[i].ChannelOpen?
      ensures Pending(s.main.nextPort, e', Queue(s.inbox, w)[i].port)
    {
      assert Pending(s.main.nextPort, s.ends, Queue(s.inbox, w)[i].port);
    }
    forall p: nat | Invalidated(p) in s.log ensures Down(e', s.inbox, p) { assert Down(s.ends, s.inbox, p); }
    assert Ordered(s.main.registry, e', s.inbox);
  }

  lemma ServeLogged(s: Sys, c: nat, device: Device)
    requires Safe(s) && c < |s.ends.chans|
    requires var ch := s.ends.chans[c]; !ch.closed && ch.allowed.Some? && device in ch.allowed.value
    ensures var log' := s.log + [Served(s.ends.chans[c].port, s.ends.chans[c].owner, device)];
      ServedAfterPassed(log') && NothingAfterDown(log')
  {
    var ch := s.ends.chans[c];
    var n, log' := |s.log|, s.log + [Served(ch.port, ch.owner, device)];
    assert ChanPassed(s.log, ch);
    var k :| Authorized(ch.port, ch.peer, ch.owner, Grant(k, device)) in s.log;
    var m :| 0 <= m < n && s.log[m] == Authorized(ch.port, ch.peer, ch.owner, Grant(k, device));
    forall j | 0 <= j < |log'| && log'[j].Served?
      ensures exists i, a, k :: 0 <= i < j && log'[i] == Authorized(log'[j].port, a, log'[j].callee, Grant(k, log'[j].device))
    {
      if j < n {
        var i, a, k :| 0 <= i < j && s.log[i] == Authorized(s.log[j].port, a, s.log[j].callee, Grant(k, s.log[j].device));
        assert log'[i] == s.log[i];
      } else {
        assert log'[m] == s.log[m];
      }
    }
    forall i | 0 <= i < n && s.log[i].Invalidated? ensures s.log[i].port != ch.port {
      assert Invalidated(s.log[i].port) in s.log;
      assert Down(s.ends, s.inbox, s.log[i].port);
    }
  }

  lemma DispatchSafe(s: Sys, c: nat)
    requires Safe(s) && c < |s.ends.chans|
    ensures Safe(Dispatch(s, s.ends.chans[c]))
  {
    var ch := s.ends.chans[c];
    if !ch.closed && ch.allowed.Some? && Queue(s.wire, ch.port) != [] {
      var d := s.wire[ch.port][0];
      var s' := Dispatch(s, ch);
      if d in ch.allowed.value {
        ServeLogged(s, c, d);
        Relabel(s, s', [Served(ch.port, ch.owner, d)]);
      } else {
        PlainStep(s, s', [Refused(ch.port, ch.owner, d)]);
      }
    }
  }

  lemma RecheckedSafe(s: Sys, r: Recheck, ok: bool)
    requires Safe(s)
    ensures Safe(Rechecked(s, r, ok))
  {
    if r in s.main.rechecks {
      var s1 := s.(main := s.main.(rechecks := s.main.rechecks - {r}));
      SameSafe(s, s1);
      CloseRevokedSafe(s1, r.pair, r.port);
    }
  }

  predicate Small(step: Step) {
    step.RecheckStep? || step.SelfInvalidateStep? || step.ForgeStep? || step.DropStep? || step.OnlineStep?
  }

  lemma SmallChanges(s: Sys, step: Step)
    requires Sound(s.ends) && Small(step)
    ensures var s' := Next(s, step);
      && s'.ends == s.ends && s'.inbox == s.inbox && s'.log == s.log
      && s'.main.registry == s.main.registry && s'.main.nextPort == s.main.nextPort
  {
  }

  lemma SmallSafe(s: Sys, step: Step)
    requires Safe(s) && Small(step)
    ensures Safe(Next(s, step))
  {
    SmallChanges(s, step);
    SameSafe(s, Next(s, step));
  }

  lemma NextSafe(s: Sys, step: Step)
    requires Safe(s)
    ensures Safe(Next(s, step))
  {
    if Small(step) {
      SmallSafe(s, step);
      return;
    }
    match step
    case CallStep(w, d, k) => CallSafe(s, w, d, k);
    case MainStep(w, limited, missing) => MainSafe(s, w, limited, missing);
    case AuthStep(i, ok, code) => if i < |s.main.checks| { AuthSafe(s, i, ok, code); }
    case WorkerStep(w) => WorkerSafe(s, w);
    case RecheckedStep(r, ok) => RecheckedSafe(s, r, ok);
    case PurgeStep(w) => PurgeSafe(s, w);
    case EndStep(w, code) => WorkerEndsSafe(s, w, code);
    case PortCloseStep(c) => if c < |s.ends.chans| { CloseSafe(s, c); }
    case DispatchStep(c) => if c < |s.ends.chans| { DispatchSafe(s, c); }
  }

  lemma {:induction false} EveryRunSafe(steps: seq<Step>)
    ensures Safe(Exec(steps))
    decreases |steps|
  {
    if steps != [] {
      EveryRunSafe(steps[..|steps| - 1]);
      NextSafe(Exec(steps[..|steps| - 1]), steps[|steps| - 1]);
    }
  }
}
