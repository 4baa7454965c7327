/**
 Brokering completeness: in a run without invalidation in which no two workers call each
 other, every call released onto a channel is for a device the callee end allows, or will
 allow when it attaches the port, so it is never refused, misdirected or lost.

 Calls in both directions between one pair of workers share one slot on each side
 (lib/device-manager.js:280, 406), and a closed channel leaves its devices mapped
 (lib/device-manager.js:287-293); both are excluded here, by `OneWay` and `Calm`.
 */
module PeerCompleteness {
  import opened Wrappers
  import opened PeerBrokering
  import opened PeerSafety

  // ----- the runs considered -----

  /** No two workers have been granted channels in both directions. */
  ghost predicate OneWay(registry: map<Pair, Entry>) {
    forall p :: p in registry ==> Pair(p.other, p.one) !in registry
  }

  /** No revocation, reload, crash or closed port, and no invokes of module code's own. */
  predicate Calm(step: Step) {
    match step
    case RecheckedStep(_, ok) => ok
    case SelfInvalidateStep(_) => false
    case PurgeStep(_) => false
    case EndStep(_, _) => false
    case PortCloseStep(_) => false
    case ForgeStep(_, _) => false
    case _ => true
  }

  // ----- the invariant, item by item -----

  ghost predicate Joined(s: Sys, a: Worker, b: Worker, port: nat) {
    Pair(a, b) in s.main.registry && s.main.registry[Pair(a, b)].port == port
  }

  ghost predicate OpenFor(m: ToWorker, a: Worker, d: Device) { m.ChannelOpen? && m.caller == a && m.device == d }

  /** `b`'s end of the channel from `a` allows `d`, or will when `b` attaches the port. */
  ghost predicate Admitted(s: Sys, a: Worker, b: Worker, d: Device) {
    (Pair(b, a) in s.ends.lastOpen && s.ends.lastOpen[Pair(b, a)] < |s.ends.chans|
      && s.ends.chans[s.ends.lastOpen[Pair(b, a)]].allowed.Some?
      && d in s.ends.chans[s.ends.lastOpen[Pair(b, a)]].allowed.value)
    || exists m :: m in Queue(s.inbox, b) && OpenFor(m, a, d)
  }

  ghost predicate PortFor(m: ToWorker, b: Worker) { m.ChannelGrant? && m.target == b && m.newPort.Some? }

  /** `a` has its end of the channel to `b`, or the port is on its way, ahead of position `n` of its queue. */
  ghost predicate Attached(s: Sys, a: Worker, b: Worker, n: nat) {
    Pair(a, b) in s.ends.slots || exists j :: 0 <= j < n && j < |Queue(s.inbox, a)| && PortFor(Queue(s.inbox, a)[j], b)
  }

  ghost predicate ChanOk(s: Sys, c: nat)
    requires c < |s.ends.chans|
  {
    var ch := s.ends.chans[c];
    && !ch.closed
    && if ch.allowed.Some?
       then Joined(s, ch.peer, ch.owner, ch.port) && Pair(ch.owner, ch.peer) in s.ends.lastOpen
            && s.ends.lastOpen[Pair(ch.owner, ch.peer)] == c
       else Joined(s, ch.owner, ch.peer, ch.port)
  }

  ghost predicate MessageOk(s: Sys, w: Worker, i: nat)
    requires i < |Queue(s.inbox, w)|
  {
    match Queue(s.inbox, w)[i]
    case ChannelGrant(d, b, p) =>
      && Pair(w, b) in s.main.registry && Admitted(s, w, b, d)
      && (if p.Some? then Joined(s, w, b, p.value) else Attached(s, w, b, i))
    case ChannelDeny(_, _) => true
    case ChannelOpen(a, _, _, p) => Joined(s, a, w, p)
    case ChannelAllow(a, d, id, _) =>
      id < s.main.nextAllow && (id in s.main.awaiting ==> s.main.awaiting[id] == Await(w, a, d))
    case Invalidate(_, _) => false
  }

  ghost predicate ReplyOk(s: Sys, m: ToMain) {
    match m
    case ChannelRequest(_, _) => true
    case AllowReply(id) =>
      id < s.main.nextAllow &&
      (id in s.main.awaiting ==>
        var x := s.main.awaiting[id]; Pair(x.caller, x.callee) in s.main.registry && Admitted(s, x.caller, x.callee, x.device))
    case SelfInvalidate => false
  }

  ghost predicate MapOk(s: Sys, h: At) {
    h in s.ends.deviceWorker ==>
      var b := s.ends.deviceWorker[h];
      Pair(h.worker, b) in s.main.registry && Pair(h.worker, b) in s.ends.slots && Admitted(s, h.worker, b, h.device)
  }

  ghost predicate WireOk(s: Sys, p: Pair) {
    p in s.main.registry ==>
      forall d :: d in Queue(s.wire, s.main.registry[p].port) ==> Admitted(s, p.one, p.other, d)
  }

  ghost predicate Distinct(registry: map<Pair, Entry>) {
    forall p, q | p in registry && q in registry && registry[p].port == registry[q].port :: p == q
  }

  ghost predicate Unused(s: Sys, n: nat) { n >= s.main.nextPort ==> Queue(s.wire, n) == [] }

  ghost predicate Ports(s: Sys) {
    && Distinct(s.main.registry)
    && (forall p :: p in s.main.registry ==> s.main.registry[p].port < s.main.nextPort)
    && (forall n: nat :: Unused(s, n))
  }

  ghost predicate Good(ev: Event) { !ev.Refused? && !ev.Misdirected? && !ev.Gone? }

  ghost predicate Complete(s: Sys) {
    && (forall c :: 0 <= c < |s.ends.chans| ==> ChanOk(s, c))
    && (forall w, i :: 0 <= i < |Queue(s.inbox, w)| ==> MessageOk(s, w, i))
    && (forall w, m :: m in Queue(s.outbox, w) ==> ReplyOk(s, m))
    && (forall p :: p in s.main.registry ==> Attached(s, p.one, p.other, |Queue(s.inbox, p.one)|))
    && (forall id :: id in s.main.awaiting ==> id < s.main.nextAllow)
    && (forall h :: MapOk(s, h))
    && (forall p :: WireOk(s, p))
    && Ports(s)
    && (forall ev :: ev in s.log ==> Good(ev))
    && s.main.ended == map[]
  }

  // ----- what is there stays there -----

  ghost predicate MoreRegistry(s: Sys, s': Sys) {
    forall p :: p in s.main.registry ==> p in s'.main.registry && s'.main.registry[p].port == s.main.registry[p].port
  }

  ghost predicate MoreAdmitted(s: Sys, s': Sys) {
    forall a, b, d :: Admitted(s, a, b, d) ==> Admitted(s', a, b, d)
  }

  /** `s'` extends `s` on the main thread: messages are added to the queues, nothing is taken away. */
  ghost predicate Extends(s: Sys, s': Sys) {
    && s'.ends == s.ends && s'.wire == s.wire
    && MoreRegistry(s, s')
    && (forall w :: Queue(s.inbox, w) <= Queue(s'.inbox, w))
    && (forall w, m :: m in Queue(s'.outbox, w) ==> m in Queue(s.outbox, w))
    && s.main.nextAllow <= s'.main.nextAllow && s.main.nextPort <= s'.main.nextPort
    && (forall id :: id in s'.main.awaiting && id < s.main.nextAllow ==>
        id in s.main.awaiting && s'.main.awaiting[id] == s.main.awaiting[id])
  }

  lemma ExtendsAdmitted(s: Sys, s': Sys)
    requires Extends(s, s')
    ensures MoreAdmitted(s, s')
  {
  }

  lemma ExtendsAttached(s: Sys, s': Sys, a: Worker, b: Worker, n: nat)
    requires Extends(s, s') && Attached(s, a, b, n)
    ensures Attached(s', a, b, n)
  {
  }

  lemma ExtendsMessage(s: Sys, s': Sys, w: Worker, i: nat)
    requires Extends(s, s') && MoreAdmitted(s, s') && i < |Queue(s.inbox, w)| && MessageOk(s, w, i)
    ensures i < |Queue(s'.inbox, w)| && Queue(s'.inbox, w)[i] == Queue(s.inbox, w)[i] && MessageOk(s', w, i)
  {
  }

  /** The new parts of `s'` are in order: its added messages, and any entry it adds. */
  ghost predicate NewOk(s: Sys, s': Sys) {
    && (forall w, i :: |Queue(s.inbox, w)| <= i < |Queue(s'.inbox, w)| ==> MessageOk(s', w, i))
    && (forall p :: p in s'.main.registry && p !in s.main.registry ==>
        && Attached(s', p.one, p.other, |Queue(s'.inbox, p.one)|)
        && s'.main.registry[p].port == s.main.nextPort < s'.main.nextPort)
    && Distinct(s'.main.registry)
    && (forall id :: id in s'.main.awaiting ==> id < s'.main.nextAllow)
    && (forall ev :: ev in s'.log ==> Good(ev))
    && s'.main.ended == map[]
  }

  lemma ExtendsComplete(s: Sys, s': Sys)
    requires Complete(s) && Extends(s, s') && NewOk(s, s')
    ensures Complete(s')
  {
    ExtendsAdmitted(s, s');
    forall c | 0 <= c < |s'.ends.chans| ensures ChanOk(s', c) { assert ChanOk(s, c); }
    forall w, i | 0 <= i < |Queue(s'.inbox, w)| ensures MessageOk(s', w, i) {
      if i < |Queue(s.inbox, w)| { ExtendsMessage(s, s', w, i); }
    }
    forall w, m | m in Queue(s'.outbox, w) ensures ReplyOk(s', m) { assert ReplyOk(s, m); }
    forall p | p in s'.main.registry ensures Attached(s', p.one, p.other, |Queue(s'.inbox, p.one)|) {
      if p in s.main.registry {
        ExtendsAttached(s, s', p.one, p.other, |Queue(s.inbox, p.one)|);
        assert Queue(s.inbox, p.one) <= Queue(s'.inbox, p.one);
      }
    }
    forall h ensures MapOk(s', h) { assert MapOk(s, h); }
    ExtendsWire(s, s');
  }

  lemma ExtendsWire(s: Sys, s': Sys)
    requires Ports(s) && (forall p :: WireOk(s, p)) && Extends(s, s') && MoreAdmitted(s, s') && NewOk(s, s')
    ensures Ports(s') && forall p :: WireOk(s', p)
  {
    forall p ensures WireOk(s', p) {
      if p in s'.main.registry && p !in s.main.registry {
        assert Unused(s, s.main.nextPort);
      } else {
        assert WireOk(s, p);
      }
    }
    forall n: nat ensures Unused(s', n) { assert Unused(s, n); }
  }

  // ----- the main thread -----

  lemma PushPrefix(inbox: Inbox, w: Worker, m: ToWorker)
    ensures forall v :: Queue(inbox, v) <= Queue(Push(inbox, w, m), v)
    ensures forall v, i :: |Queue(inbox, v)| <= i < |Queue(Push(inbox, w, m), v)| ==>
      v == w && i == |Queue(inbox, w)| && Queue(Push(inbox, w, m), v)[i] == m
  {
  }

  /** Only the bookkeeping of checks, rechecks and hosted devices changes. */
  lemma SameComplete(s: Sys, s': Sys)
    requires Complete(s) && s' == s.(main := s'.main)
    requires s'.main == s.main.(deviceMap := s'.main.deviceMap, checks := s'.main.checks, rechecks := s'.main.rechecks)
    ensures Complete(s')
  {
    ExtendsComplete(s, s');
  }

  lemma DenyComplete(s: Sys, s': Sys, w: Worker, device: Device, code: string)
    requires Complete(s) && s' == Deny(s, w, device, code)
    ensures Complete(s')
  {
    PushPrefix(s.inbox, w, ChannelDeny(device, code));
    assert Ports(s);
    ExtendsComplete(s, s');
  }

  lemma RequestComplete(s: Sys, s': Sys, w: Worker, device: Device, key: Key, missing: string)
    requires Complete(s) && s' == HandleRequest(s, w, device, key, missing)
    ensures Complete(s')
  {
    RequestIs(s, s', w, device, key, missing);
    if s'.main != s.main {
      SameComplete(s, s');
    } else {
      DenyComplete(s, s', w, device, if device in s.main.deviceMap then "PEER_SELF_TARGET" else missing);
    }
  }

  /** A request is denied or begins an authorization. */
  lemma RequestIs(s: Sys, s': Sys, w: Worker, device: Device, key: Key, missing: string)
    requires s' == HandleRequest(s, w, device, key, missing)
    ensures s'.main == s.main ==>
      s' == Deny(s, w, device, if device in s.main.deviceMap then "PEER_SELF_TARGET" else missing)
    ensures s'.main != s.main ==> s' == s.(main := s.main.(checks := s'.main.checks))
  {
    assert forall c: Check :: |s.main.checks + [c]| != |s.main.checks|;
  }

  lemma GrantOnOpenChanges(s: Sys, s': Sys, device: Device, key: Key, caller: Worker, callee: Worker) returns (m: ToWorker)
    requires Pair(caller, callee) in s.main.registry && s.main.ended == map[] && Distinct(s.main.registry)
    requires forall id :: id in s.main.awaiting ==> id < s.main.nextAllow
    requires s' == GrantOnOpen(s, device, key, caller, callee)
    ensures Extends(s, s') && Distinct(s'.main.registry) && s'.main.ended == map[]
    ensures s'.main.registry.Keys == s.main.registry.Keys
    ensures m == ChannelAllow(caller, device, s.main.nextAllow, s.main.registry[Pair(caller, callee)].port)
    ensures s'.inbox == Push(s.inbox, callee, m)
    ensures s'.main.awaiting == s.main.awaiting[s.main.nextAllow := Await(callee, caller, device)]
    ensures s'.main.nextAllow == s.main.nextAllow + 1
    ensures forall ev :: ev in s'.log ==> ev in s.log || Good(ev)
  {
    m := ChannelAllow(caller, device, s.main.nextAllow, s.main.registry[Pair(caller, callee)].port);
    PushPrefix(s.inbox, callee, m);
  }

  lemma GrantOnOpenComplete(s: Sys, s': Sys, device: Device, key: Key, caller: Worker, callee: Worker)
    requires Complete(s) && Pair(caller, callee) in s.main.registry && s' == GrantOnOpen(s, device, key, caller, callee)
    ensures Complete(s')
  {
    assert Ports(s);
    var m := GrantOnOpenChanges(s, s', device, key, caller, callee);
    PushPrefix(s.inbox, callee, m);
    forall w, i | |Queue(s.inbox, w)| <= i < |Queue(s'.inbox, w)| ensures MessageOk(s', w, i) {
      assert w == callee && Queue(s'.inbox, w)[i] == m;
    }
    assert forall p :: p in s'.main.registry ==> p in s'.main.registry.Keys;
    ExtendsComplete(s, s');
  }

  lemma GrantNewComplete(s: Sys, s': Sys, device: Device, key: Key, caller: Worker, callee: Worker)
    requires Complete(s) && Pair(caller, callee) !in s.main.registry && caller != callee
    requires s' == GrantNew(s, device, key, caller, callee)
    ensures Complete(s')
  {
    var p := s.main.nextPort;
    var open, grant := ChannelOpen(caller, key, device, p), ChannelGrant(device, callee, Some(p));
    GrantNewSends(s, s', open, grant, caller, callee);
    assert Ports(s);
    GrantNewMessages(s, s', open, grant, caller, callee);
    ExtendsComplete(s, s');
  }

  lemma GrantNewMessages(s: Sys, s': Sys, open: ToWorker, grant: ToWorker, a: Worker, b: Worker)
    requires Complete(s) && Pair(a, b) !in s.main.registry && a != b
    requires open.ChannelOpen? && open.caller == a && open.port == s.main.nextPort
    requires grant == ChannelGrant(open.device, b, Some(open.port)) && s' == GrantNew(s, open.device, open.key, a, b)
    ensures forall v, i :: |Queue(s.inbox, v)| <= i < |Queue(s'.inbox, v)| ==> MessageOk(s', v, i)
  {
    GrantNewSends(s, s', open, grant, a, b);
    assert Ports(s);
    forall v, i | |Queue(s.inbox, v)| <= i < |Queue(s'.inbox, v)| ensures MessageOk(s', v, i) {
      assert Queue(s'.inbox, v)[i] == if v == b then open else grant;
    }
  }

  lemma GrantNewSends(s: Sys, s': Sys, open: ToWorker, grant: ToWorker, a: Worker, b: Worker)
    requires open.ChannelOpen? && open.caller == a && PortFor(grant, b) && a != b
    requires s'.inbox == Push(Push(s.inbox, b, open), a, grant)
    ensures Admitted(s', a, b, open.device) && Attached(s', a, b, |Queue(s'.inbox, a)|)
    ensures forall v :: Queue(s.inbox, v) <= Queue(s'.inbox, v)
    ensures forall v, i :: |Queue(s.inbox, v)| <= i < |Queue(s'.inbox, v)| ==>
      (v == a || v == b) && Queue(s'.inbox, v)[i] == if v == b then open else grant
  {
    assert Queue(s'.inbox, b) == Queue(s.inbox, b) + [open];
    assert Queue(s'.inbox, a) == Queue(s.inbox, a) + [grant];
    assert open in Queue(s'.inbox, b) && OpenFor(open, a, open.device);
    assert PortFor(Queue(s'.inbox, a)[|Queue(s.inbox, a)|], b);
  }

  lemma AuthComplete(s: Sys, s': Sys, i: nat, ok: bool, code: string)
    requires Complete(s) && i < |s.main.checks| && s' == Authenticated(s, i, ok, code) && OneWay(s'.main.registry)
    ensures Complete(s')
  {
    var c := s.main.checks[i];
    var s1 := s.(main := s.main.(checks := s.main.checks[..i] + s.main.checks[i + 1..]));
    SameComplete(s, s1);
    if !ok {
      DenyComplete(s1, s', c.caller, c.device, code);
    } else if c.callee.None? {
      DenyComplete(s1, s', c.caller, c.device, c.code);
    } else if Pair(c.caller, c.callee.value) in s1.main.registry {
      GrantOnOpenComplete(s1, s', c.device, c.key, c.caller, c.callee.value);
    } else {
      assert Pair(c.caller, c.callee.value) in s'.main.registry;
      GrantNewComplete(s1, s', c.device, c.key, c.caller, c.callee.value);
    }
  }

  lemma PopOutbox(s: Sys, s': Sys, w: Worker)
    requires Complete(s) && Queue(s.outbox, w) != [] && s' == s.(outbox := s.outbox[w := s.outbox[w][1..]])
    ensures Complete(s')
  {
    ExtendsComplete(s, s');
  }

  lemma AllowedComplete(s: Sys, s': Sys, id: nat)
    requires Complete(s) && s' == Allowed(s, id)
    requires id in s.main.awaiting ==>
      var x := s.main.awaiting[id]; Pair(x.caller, x.callee) in s.main.registry && Admitted(s, x.caller, x.callee, x.device)
    ensures Complete(s')
  {
    if id in s.main.awaiting {
      var x := s.main.awaiting[id];
      var m := ChannelGrant(x.device, x.callee, None);
      PushPrefix(s.inbox, x.caller, m);
      assert Ports(s);
      assert Extends(s, s');
      ExtendsAdmitted(s, s');
      ExtendsAttached(s, s', x.caller, x.callee, |Queue(s.inbox, x.caller)|);
      forall w, i | |Queue(s.inbox, w)| <= i < |Queue(s'.inbox, w)| ensures MessageOk(s', w, i) {
        assert w == x.caller && Queue(s'.inbox, w)[i] == m;
      }
      ExtendsComplete(s, s');
    }
  }

  lemma MainComplete(s: Sys, s': Sys, w: Worker, limited: bool, missing: string)
    requires Complete(s) && s' == MainReceives(s, w, limited, missing)
    ensures Complete(s')
  {
    if Queue(s.outbox, w) != [] {
      var m := s.outbox[w][0];
      var s1 := s.(outbox := s.outbox[w := s.outbox[w][1..]]);
      assert m in Queue(s.outbox, w);
      assert ReplyOk(s, m);
      PopOutbox(s, s1, w);
      match m
      case ChannelRequest(d, k) =>
        if limited { DenyComplete(s1, s', w, d, "RATE_LIMITED"); } else { RequestComplete(s1, s', w, d, k, missing); }
      case AllowReply(id) =>
        if id in s.main.awaiting {
          var x := s.main.awaiting[id];
          assert Admitted(s1, x.caller, x.callee, x.device);
        }
        AllowedComplete(s1, s', id);
      case SelfInvalidate => assert false;
    }
  }

  // ----- a worker handles a message -----

  /** `s'` has handled the head of `w`'s queue: everything else is still there. */
  ghost predicate Handled(s: Sys, s': Sys, w: Worker) {
    && Queue(s.inbox, w) != [] && s'.inbox == Pop(s.inbox, w) && s'.main == s.main
    && MoreAdmitted(s, s')
    && (forall p :: p in s.ends.slots ==> p in s'.ends.slots)
    && (forall b :: PortFor(s.inbox[w][0], b) ==> Pair(w, b) in s'.ends.slots)
    && (forall v, m :: m in Queue(s'.outbox, v) ==> m in Queue(s.outbox, v) || ReplyOk(s', m))
  }

  lemma HandledAttached(s: Sys, s': Sys, w: Worker, a: Worker, b: Worker, n: nat)
    requires Handled(s, s', w) && Attached(s, a, b, if a == w then n + 1 else n)
    ensures Attached(s', a, b, n)
  {
    if Pair(a, b) !in s'.ends.slots {
      var k := if a == w then n + 1 else n;
      var j :| 0 <= j < k && j < |Queue(s.inbox, a)| && PortFor(Queue(s.inbox, a)[j], b);
      if a == w {
        assert j > 0;
        assert Queue(s'.inbox, a)[j - 1] == Queue(s.inbox, a)[j];
      } else {
        assert Queue(s'.inbox, a)[j] == Queue(s.inbox, a)[j];
      }
    }
  }

  lemma HandledMessage(s: Sys, s': Sys, w: Worker, v: Worker, i: nat)
    requires Handled(s, s', w) && i < |Queue(s'.inbox, v)|
    requires var k := if v == w then i + 1 else i; k < |Queue(s.inbox, v)| && MessageOk(s, v, k)
    ensures MessageOk(s', v, i)
  {
    var m := Queue(s'.inbox, v)[i];
    assert m == Queue(s.inbox, v)[if v == w then i + 1 else i];
    if m.ChannelGrant? && m.newPort.None? { HandledAttached(s, s', w, v, m.target, i); }
  }

  lemma HandledComplete(s: Sys, s': Sys, w: Worker)
    requires Complete(s) && Handled(s, s', w)
    requires forall c :: 0 <= c < |s'.ends.chans| ==> ChanOk(s', c)
    requires forall h :: MapOk(s', h)
    requires forall p :: WireOk(s', p)
    requires forall n: nat :: Unused(s', n)
    requires forall ev :: ev in s'.log ==> Good(ev)
    ensures Complete(s')
  {
    forall v, i | 0 <= i < |Queue(s'.inbox, v)| ensures MessageOk(s', v, i) { HandledMessage(s, s', w, v, i); }
    forall v, m | m in Queue(s'.outbox, v) ensures ReplyOk(s', m) {
      if m in Queue(s.outbox, v) { assert ReplyOk(s, m); }
    }
    forall p | p in s'.main.registry ensures Attached(s', p.one, p.other, |Queue(s'.inbox, p.one)|) {
      HandledAttached(s, s', w, p.one, p.other, |Queue(s'.inbox, p.one)|);
    }
    assert Ports(s);
  }

  // what stays when only some of the state changes

  lemma SameMap(s: Sys, s': Sys)
    requires forall h :: MapOk(s, h)
    requires s'.main == s.main && s'.ends.deviceWorker == s.ends.deviceWorker && MoreAdmitted(s, s')
    requires forall p :: p in s.ends.slots ==> p in s'.ends.slots
    ensures forall h :: MapOk(s', h)
  {
    forall h ensures MapOk(s', h) { assert MapOk(s, h); }
  }

  lemma SameWire(s: Sys, s': Sys)
    requires forall p :: WireOk(s, p)
    requires forall n: nat :: Unused(s, n)
    requires s'.main == s.main && s'.wire == s.wire && MoreAdmitted(s, s')
    ensures forall p :: WireOk(s', p)
    ensures forall n: nat :: Unused(s', n)
  {
    forall p ensures WireOk(s', p) { assert WireOk(s, p); }
    forall n: nat ensures Unused(s', n) { assert Unused(s, n); }
  }

  // ChannelOpen

  /** No channel from `a` exists at `w` while the Open of their one channel is still queued. */
  lemma FirstOpen(s: Sys, w: Worker, i: nat)
    requires Shape(s.ends) && OnePort(s.main.nextPort, s.ends, s.inbox)
    requires forall c :: 0 <= c < |s.ends.chans| ==> ChanOk(s, c)
    requires i < |Queue(s.inbox, w)| && Queue(s.inbox, w)[i].ChannelOpen? && MessageOk(s, w, i)
    ensures Pair(w, Queue(s.inbox, w)[i].caller) !in s.ends.lastOpen
    ensures forall c :: 0 <= c < |s.ends.chans| && s.ends.chans[c].allowed.Some? ==>
      s.ends.chans[c].port != Queue(s.inbox, w)[i].port
  {
    var m := Queue(s.inbox, w)[i];
    assert Pending(s.main.nextPort, s.ends, m.port);
    forall c | 0 <= c < |s.ends.chans| && s.ends.chans[c].allowed.Some?
      ensures Pair(s.ends.chans[c].owner, s.ends.chans[c].peer) != Pair(w, m.caller)
    {
      assert ChanOk(s, c);
    }
    if Pair(w, m.caller) in s.ends.lastOpen { assert false; }
  }

  lemma OpenedAdmits(s: Sys, s': Sys, w: Worker)
    requires Queue(s.inbox, w) != [] && s.inbox[w][0].ChannelOpen? && s'.inbox == Pop(s.inbox, w)
    requires var m := s.inbox[w][0];
      Pair(w, m.caller) !in s.ends.lastOpen && s'.ends == Open(s.ends, w, m.caller, m.device, m.port)
    ensures MoreAdmitted(s, s')
  {
    var m := s.inbox[w][0];
    forall a, b, d | Admitted(s, a, b, d) ensures Admitted(s', a, b, d) {
      if x :| x in Queue(s.inbox, b) && OpenFor(x, a, d) {
        if b != w || x != m { PopKeeps(s.inbox, w, b, x); }
      }
    }
  }

  lemma OpenedChans(s: Sys, s': Sys, w: Worker, a: Worker, d: Device, port: nat)
    requires s'.main == s.main && s'.ends == Open(s.ends, w, a, d, port)
    requires forall c :: 0 <= c < |s.ends.chans| ==> ChanOk(s, c)
    requires Pair(w, a) !in s.ends.lastOpen && Joined(s, a, w, port)
    ensures forall c :: 0 <= c < |s'.ends.chans| ==> ChanOk(s', c)
  {
    forall c | 0 <= c < |s'.ends.chans| ensures ChanOk(s', c) {
      if c < |s.ends.chans| { assert ChanOk(s, c); }
    }
  }

  lemma OpenReady(s: Sys, w: Worker)
    requires Safe(s) && Complete(s) && Queue(s.inbox, w) != [] && Queue(s.inbox, w)[0].ChannelOpen?
    ensures var m := Queue(s.inbox, w)[0]; Pair(w, m.caller) !in s.ends.lastOpen && Joined(s, m.caller, w, m.port)
  {
    assert MessageOk(s, w, 0);
    FirstOpen(s, w, 0);
  }

  lemma OpenEffect(s: Sys, s': Sys, w: Worker)
    requires Queue(s.inbox, w) != [] && Queue(s.inbox, w)[0].ChannelOpen? && Sound(s.ends)
    requires s' == WorkerReceives(s, w)
    ensures var m := Queue(s.inbox, w)[0];
      s' == s.(inbox := Pop(s.inbox, w), ends := Open(s.ends, w, m.caller, m.device, m.port))
  {
  }

  lemma OpenComplete(s: Sys, s': Sys, w: Worker)
    requires Safe(s) && Complete(s) && Queue(s.inbox, w) != [] && Queue(s.inbox, w)[0].ChannelOpen?
    requires s' == WorkerReceives(s, w)
    ensures Complete(s')
  {
    OpenReady(s, w);
    OpenEffect(s, s', w);
    OpenFinish(s, s', w);
  }

  lemma OpenFinish(s: Sys, s': Sys, w: Worker)
    requires Complete(s) && Queue(s.inbox, w) != [] && s.inbox[w][0].ChannelOpen?
    requires var m := s.inbox[w][0];
      && Pair(w, m.caller) !in s.ends.lastOpen && Joined(s, m.caller, w, m.port)
      && s' == s.(inbox := Pop(s.inbox, w), ends := Open(s.ends, w, m.caller, m.device, m.port))
    ensures Complete(s')
  {
    var m := s.inbox[w][0];
    OpenedAdmits(s, s', w);
    OpenedChans(s, s', w, m.caller, m.device, m.port);
    SameMap(s, s');
    assert Ports(s);
    SameWire(s, s');
    HandledComplete(s, s', w);
  }

  // ChannelAllow

  lemma AllowAdmits(s: Sys, s': Sys, w: Worker)
    requires Safe(s) && Complete(s) && Queue(s.inbox, w) != [] && Queue(s.inbox, w)[0].ChannelAllow?
    requires s' == WorkerReceives(s, w)
    ensures MoreAdmitted(s, s')
    ensures var m := Queue(s.inbox, w)[0]; Admitted(s', m.caller, w, m.device)
    ensures forall c :: 0 <= c < |s'.ends.chans| ==> ChanOk(s', c)
  {
    var k := AllowedChan(s, w);
    AllowDone(s, s', w, k);
  }

  lemma AllowDone(s: Sys, s': Sys, w: Worker, k: nat)
    requires Shape(s.ends) && Queue(s.inbox, w) != [] && s.inbox[w][0].ChannelAllow? && s' == WorkerReceives(s, w)
    requires var p := Pair(w, s.inbox[w][0].caller); p in s.ends.lastOpen && s.ends.lastOpen[p] == k && k < |s.ends.chans|
    requires forall c :: 0 <= c < |s.ends.chans| ==> ChanOk(s, c)
    ensures MoreAdmitted(s, s') && Admitted(s', s.inbox[w][0].caller, w, s.inbox[w][0].device)
    ensures forall c :: 0 <= c < |s'.ends.chans| ==> ChanOk(s', c)
  {
    assert ChanOk(s, k);
    AllowedChans(s, s', w, k, s.inbox[w][0].device);
    AllowKeepsAdmitted(s, s', w, k);
  }

  /** The channel the Allow at the head of `w`'s queue is about. */
  lemma AllowedChan(s: Sys, w: Worker) returns (k: nat)
    requires Safe(s) && Queue(s.inbox, w) != [] && Queue(s.inbox, w)[0].ChannelAllow?
    ensures var p := Pair(w, Queue(s.inbox, w)[0].caller);
      p in s.ends.lastOpen && s.ends.lastOpen[p] == k && k < |s.ends.chans|
  {
    var m := s.inbox[w][0];
    assert InTurn(Queue(s.inbox, w), 0, OpenedPort(s.ends, w, Caller(Queue(s.inbox, w)[0])));
    assert OpenedPort(s.ends, w, m.caller) == Some(m.port);
    k := s.ends.lastOpen[Pair(w, m.caller)];
  }

  lemma AllowedChans(s: Sys, s': Sys, w: Worker, k: nat, device: Device)
    requires Shape(s.ends) && k < |s.ends.chans| && !s.ends.chans[k].closed
    requires Queue(s.inbox, w) != [] && s.inbox[w][0].ChannelAllow? && s.inbox[w][0].device == device
    requires var p := Pair(w, s.inbox[w][0].caller); p in s.ends.lastOpen && s.ends.lastOpen[p] == k
    requires s' == WorkerReceives(s, w)
    requires forall c :: 0 <= c < |s.ends.chans| ==> ChanOk(s, c)
    ensures s'.ends.lastOpen == s.ends.lastOpen && s.ends.chans[k].allowed.Some?
    ensures s'.ends.chans == s.ends.chans[k := s.ends.chans[k].(allowed := Some(s.ends.chans[k].allowed.value + {device}))]
    ensures forall c :: 0 <= c < |s'.ends.chans| ==> ChanOk(s', c)
  {
    forall c | 0 <= c < |s'.ends.chans| ensures ChanOk(s', c) { assert ChanOk(s, c); }
  }

  lemma AllowKeepsAdmitted(s: Sys, s': Sys, w: Worker, k: nat)
    requires Queue(s.inbox, w) != [] && !s.inbox[w][0].ChannelOpen? && s'.inbox == Pop(s.inbox, w)
    requires s'.ends.lastOpen == s.ends.lastOpen && k < |s.ends.chans| == |s'.ends.chans|
    requires forall c :: 0 <= c < |s.ends.chans| && c != k ==> s'.ends.chans[c] == s.ends.chans[c]
    requires s.ends.chans[k].allowed.Some? ==>
      s'.ends.chans[k].allowed.Some? && s.ends.chans[k].allowed.value <= s'.ends.chans[k].allowed.value
    ensures MoreAdmitted(s, s')
  {
    forall a, b, d | Admitted(s, a, b, d) ensures Admitted(s', a, b, d) {
      if x :| x in Queue(s.inbox, b) && OpenFor(x, a, d) {
        PopKeeps(s.inbox, w, b, x);
      }
    }
  }

  lemma PopKeeps(inbox: Inbox, w: Worker, b: Worker, x: ToWorker)
    requires Queue(inbox, w) != [] && x in Queue(inbox, b) && (b == w ==> x != inbox[w][0])
    ensures x in Queue(Pop(inbox, w), b)
  {
    if b == w { assert inbox[w] == [inbox[w][0]] + inbox[w][1..]; }
  }

  lemma AllowComplete(s: Sys, s': Sys, w: Worker)
    requires Safe(s) && Complete(s) && Queue(s.inbox, w) != [] && Queue(s.inbox, w)[0].ChannelAllow?
    requires s' == WorkerReceives(s, w)
    ensures Complete(s')
  {
    var m := s.inbox[w][0];
    AllowAdmits(s, s', w);
    assert MessageOk(s, w, 0);
    assert ReplyOk(s', AllowReply(m.id)) by {
      if m.id in s.main.awaiting { AwaitJoined(s, w); }
    }
    assert forall v, x :: x in Queue(s'.outbox, v) ==> x in Queue(s.outbox, v) || x == AllowReply(m.id);
    SameMap(s, s');
    assert Ports(s);
    SameWire(s, s');
    HandledComplete(s, s', w);
  }

  /** The channel an Allow is about is still in the registry. */
  lemma AwaitJoined(s: Sys, w: Worker)
    requires Safe(s) && Complete(s) && Queue(s.inbox, w) != [] && Queue(s.inbox, w)[0].ChannelAllow?
    ensures Pair(Queue(s.inbox, w)[0].caller, w) in s.main.registry
  {
    var m := Queue(s.inbox, w)[0];
    assert InTurn(Queue(s.inbox, w), 0, OpenedPort(s.ends, w, Caller(Queue(s.inbox, w)[0])));
    assert ChanOk(s, s.ends.lastOpen[Pair(w, m.caller)]);
  }

  // ChannelDeny

  lemma DenyReceivedComplete(s: Sys, s': Sys, w: Worker)
    requires Complete(s) && Queue(s.inbox, w) != [] && Queue(s.inbox, w)[0].ChannelDeny? && Sound(s.ends)
    requires s' == WorkerReceives(s, w)
    ensures Complete(s')
  {
    DenyChanges(s, s', w);
    DenyAdmits(s, s', w);
    forall c | 0 <= c < |s'.ends.chans| ensures ChanOk(s', c) { assert ChanOk(s, c); }
    SameMap(s, s');
    assert Ports(s);
    SameWire(s, s');
    HandledComplete(s, s', w);
  }

  lemma DenyChanges(s: Sys, s': Sys, w: Worker)
    requires Queue(s.inbox, w) != [] && Queue(s.inbox, w)[0].ChannelDeny? && Sound(s.ends)
    requires s' == WorkerReceives(s, w)
    ensures s' == s.(inbox := Pop(s.inbox, w), ends := s.ends.(waiting := s'.ends.waiting), log := s'.log)
    ensures forall ev :: ev in s'.log ==> ev in s.log || Good(ev)
  {
  }

  lemma DenyAdmits(s: Sys, s': Sys, w: Worker)
    requires Queue(s.inbox, w) != [] && !s.inbox[w][0].ChannelOpen? && s'.inbox == Pop(s.inbox, w)
    requires s'.ends.lastOpen == s.ends.lastOpen && s'.ends.chans == s.ends.chans
    ensures MoreAdmitted(s, s')
  {
    forall a, b, d | Admitted(s, a, b, d) ensures Admitted(s', a, b, d) {
      if x :| x in Queue(s.inbox, b) && OpenFor(x, a, d) {
        PopKeeps(s.inbox, w, b, x);
      }
    }
  }

  // ChannelGrant

  /** The slot of a caller: one live channel of the pair, without a handler. */
  ghost predicate CallerSlot(s: Sys, w: Worker, b: Worker) {
    && Pair(w, b) in s.ends.slots && Pair(w, b) in s.main.registry
    && s.ends.slots[Pair(w, b)] < |s.ends.chans|
    && var c := s.ends.chans[s.ends.slots[Pair(w, b)]];
       !c.closed && c.allowed.None? && c.port == s.main.registry[Pair(w, b)].port
  }

  lemma SlotOfCaller(s: Sys, w: Worker, b: Worker)
    requires Shape(s.ends) && OneWay(s.main.registry)
    requires Pair(w, b) in s.ends.slots && Pair(w, b) in s.main.registry
    requires forall c :: 0 <= c < |s.ends.chans| ==> ChanOk(s, c)
    ensures CallerSlot(s, w, b)
  {
    assert ChanOk(s, s.ends.slots[Pair(w, b)]);
  }

  lemma AttachedSlot(s: Sys, s': Sys, w: Worker, d: Device, b: Worker, p: Option<nat>)
    requires Shape(s.ends) && OneWay(s.main.registry) && Pair(w, b) in s.main.registry
    requires forall c :: 0 <= c < |s.ends.chans| ==> ChanOk(s, c)
    requires if p.Some? then Joined(s, w, b, p.value) else Pair(w, b) in s.ends.slots
    requires s'.main == s.main && Sound(s.ends) && s'.ends == Attach(s.ends, w, d, b, p)
    ensures CallerSlot(s', w, b)
    ensures forall c :: 0 <= c < |s'.ends.chans| ==> ChanOk(s', c)
  {
    if Pair(w, b) in s.ends.slots { SlotOfCaller(s, w, b); }
    forall c | 0 <= c < |s'.ends.chans| ensures ChanOk(s', c) {
      if c < |s.ends.chans| { assert ChanOk(s, c); }
    }
  }

  lemma {:induction false} SentGood(c: Chan, device: Device, ids: seq<nat>)
    requires !c.closed && c.allowed.None?
    ensures forall d :: d in Sent(c, device, ids).0 ==> d == device
    ensures forall ev :: ev in Sent(c, device, ids).1 ==> ev.Released? && ev.port == c.port
  {
    if ids != [] { SentGood(c, device, ids[..|ids| - 1]); }
  }

  /** Only `d` is added to the wires, and only to the one of `port`. */
  ghost predicate WireAdds(s: Sys, s': Sys, port: nat, d: Device) {
    forall n, x :: x in Queue(s'.wire, n) ==> x in Queue(s.wire, n) || (n == port && x == d)
  }

  ghost predicate LogAdds(s: Sys, s': Sys) { forall ev :: ev in s'.log ==> ev in s.log || Good(ev) }

  lemma SendGood(s: Sys, s': Sys, c: Chan, d: Device, ids: seq<nat>)
    requires !c.closed && c.allowed.None? && s' == SendCalls(s, c, d, ids)
    ensures WireAdds(s, s', c.port, d) && LogAdds(s, s')
  {
    SentGood(c, d, ids);
  }

  lemma FlushGood(s: Sys, s': Sys, w: Worker, d: Device, b: Worker)
    requires Sound(s.ends) && CallerSlot(s, w, b) && s' == Flush(s, w, d, Some(b), "")
    ensures s' == s.(ends := s.ends.(waiting := s'.ends.waiting), wire := s'.wire, log := s'.log)
    ensures WireAdds(s, s', s.main.registry[Pair(w, b)].port, d) && LogAdds(s, s')
  {
    var here := At(w, d);
    if here in s.ends.waiting {
      var s1 := s.(ends := s.ends.(waiting := s.ends.waiting - {here}));
      SendGood(s1, s', s.ends.chans[s.ends.slots[Pair(w, b)]], d, s.ends.waiting[here]);
    }
  }

  lemma AddedWire(s: Sys, s': Sys, p: Pair, d: Device)
    requires forall q :: WireOk(s, q)
    requires Ports(s) && s'.main == s.main && MoreAdmitted(s, s')
    requires p in s.main.registry && WireAdds(s, s', s.main.registry[p].port, d) && Admitted(s', p.one, p.other, d)
    ensures forall q :: WireOk(s', q)
    ensures forall n: nat :: Unused(s', n)
  {
    forall q ensures WireOk(s', q) { assert WireOk(s, q); }
    forall n: nat ensures Unused(s', n) {
      assert Unused(s, n);
      if Queue(s'.wire, n) != [] { assert Queue(s'.wire, n)[0] in Queue(s'.wire, n); }
    }
  }

  lemma MappedOk(s: Sys, s': Sys, w: Worker, d: Device, b: Worker)
    requires forall h :: MapOk(s, h)
    requires s'.main == s.main && s'.ends.deviceWorker == s.ends.deviceWorker[At(w, d) := b] && MoreAdmitted(s, s')
    requires forall p :: p in s.ends.slots ==> p in s'.ends.slots
    requires Pair(w, b) in s.main.registry && Pair(w, b) in s'.ends.slots && Admitted(s', w, b, d)
    ensures forall h :: MapOk(s', h)
  {
    forall h ensures MapOk(s', h) { assert MapOk(s, h); }
  }

  lemma GrantAdmits(s: Sys, s': Sys, w: Worker)
    requires Queue(s.inbox, w) != [] && !s.inbox[w][0].ChannelOpen? && s'.inbox == Pop(s.inbox, w)
    requires s'.ends.lastOpen == s.ends.lastOpen && s.ends.chans <= s'.ends.chans
    ensures MoreAdmitted(s, s')
  {
    forall a, b, d | Admitted(s, a, b, d) ensures Admitted(s', a, b, d) {
      if x :| x in Queue(s.inbox, b) && OpenFor(x, a, d) {
        PopKeeps(s.inbox, w, b, x);
      }
    }
  }

  lemma GrantEffect(s: Sys, s1: Sys, s': Sys, w: Worker, d: Device, b: Worker, p: Option<nat>)
    requires Queue(s.inbox, w) != [] && s.inbox[w][0] == ChannelGrant(d, b, p) && Sound(s.ends)
    requires s' == WorkerReceives(s, w)
    requires s1 == s.(inbox := Pop(s.inbox, w), ends := Attach(s.ends, w, d, b, p))
    ensures Sound(s1.ends) && s' == Flush(s1, w, d, Some(b), "")
    ensures s.ends.chans <= s1.ends.chans && s1.ends.lastOpen == s.ends.lastOpen
    ensures s1.ends.deviceWorker == s.ends.deviceWorker[At(w, d) := b]
    ensures forall p :: p in s.ends.slots ==> p in s1.ends.slots
  {
  }

  lemma GrantReady(s: Sys, w: Worker, d: Device, b: Worker, p: Option<nat>)
    requires Complete(s) && Queue(s.inbox, w) != [] && s.inbox[w][0] == ChannelGrant(d, b, p)
    ensures Pair(w, b) in s.main.registry && Admitted(s, w, b, d)
    ensures if p.Some? then Joined(s, w, b, p.value) else Pair(w, b) in s.ends.slots
  {
    assert MessageOk(s, w, 0);
  }

  lemma GrantReceivedComplete(s: Sys, s': Sys, w: Worker)
    requires Safe(s) && Complete(s) && OneWay(s.main.registry)
    requires Queue(s.inbox, w) != [] && Queue(s.inbox, w)[0].ChannelGrant?
    requires s' == WorkerReceives(s, w)
    ensures Complete(s')
  {
    var ChannelGrant(d, b, p) := s.inbox[w][0];
    var s1 := s.(inbox := Pop(s.inbox, w), ends := Attach(s.ends, w, d, b, p));
    GrantReady(s, w, d, b, p);
    GrantEffect(s, s1, s', w, d, b, p);
    AttachedSlot(s, s1, w, d, b, p);
    FlushGood(s1, s', w, d, b);
    GrantAdmits(s, s', w);
    GrantFinish(s, s1, s', w, d, b, p);
  }

  lemma GrantFinish(s: Sys, s1: Sys, s': Sys, w: Worker, d: Device, b: Worker, p: Option<nat>)
    requires Complete(s) && Queue(s.inbox, w) != [] && s.inbox[w][0] == ChannelGrant(d, b, p)
    requires s1.inbox == Pop(s.inbox, w) && s1 == s.(inbox := s1.inbox, ends := s1.ends)
    requires s' == s1.(ends := s1.ends.(waiting := s'.ends.waiting), wire := s'.wire, log := s'.log)
    requires s1.ends.deviceWorker == s.ends.deviceWorker[At(w, d) := b]
    requires forall p :: p in s.ends.slots ==> p in s1.ends.slots
    requires Admitted(s, w, b, d) && CallerSlot(s1, w, b) && MoreAdmitted(s, s')
    requires forall c :: 0 <= c < |s1.ends.chans| ==> ChanOk(s1, c)
    requires WireAdds(s1, s', s.main.registry[Pair(w, b)].port, d) && LogAdds(s1, s')
    ensures Complete(s')
  {
    forall c | 0 <= c < |s'.ends.chans| ensures ChanOk(s', c) { assert ChanOk(s1, c); }
    assert Ports(s);
    MappedOk(s, s', w, d, b);
    AddedWire(s, s', Pair(w, b), d);
    HandledComplete(s, s', w);
  }

  lemma WorkerComplete(s: Sys, s': Sys, w: Worker)
    requires Safe(s) && Complete(s) && OneWay(s.main.registry) && s' == WorkerReceives(s, w)
    ensures Complete(s')
  {
    if Queue(s.inbox, w) != [] {
      var m := Queue(s.inbox, w)[0];
      assert MessageOk(s, w, 0);
      match m
      case ChannelGrant(_, _, _) => GrantReceivedComplete(s, s', w);
      case ChannelDeny(_, _) => DenyReceivedComplete(s, s', w);
      case ChannelOpen(_, _, _, _) => OpenComplete(s, s', w);
      case ChannelAllow(_, _, _, _) => AllowComplete(s, s', w);
      case Invalidate(_, _) => assert false;
    }
  }

  // ----- steps that handle no message -----

  /** Neither the main thread, nor the queues to the workers, nor any channel changes. */
  ghost predicate Kept(s: Sys, s': Sys) {
    && s'.main == s.main && s'.inbox == s.inbox
    && s'.ends == s.ends.(waiting := s'.ends.waiting, calls := s'.ends.calls)
    && (forall v, m :: m in Queue(s'.outbox, v) ==> m in Queue(s.outbox, v) || m.ChannelRequest?)
    && LogAdds(s, s')
  }

  lemma KeptAdmitted(s: Sys, s': Sys)
    requires Kept(s, s')
    ensures MoreAdmitted(s, s')
  {
  }

  lemma KeptAttached(s: Sys, s': Sys, a: Worker, b: Worker, n: nat)
    requires Kept(s, s') && Attached(s, a, b, n)
    ensures Attached(s', a, b, n)
  {
  }

  lemma KeptMessage(s: Sys, s': Sys, w: Worker, i: nat)
    requires Kept(s, s') && MoreAdmitted(s, s') && i < |Queue(s.inbox, w)| && MessageOk(s, w, i)
    ensures MessageOk(s', w, i)
  {
    var m := Queue(s.inbox, w)[i];
    if m.ChannelGrant? && m.newPort.None? { KeptAttached(s, s', w, m.target, i); }
  }

  lemma KeptComplete(s: Sys, s': Sys)
    requires Complete(s) && Kept(s, s')
    requires forall p :: WireOk(s', p)
    requires forall n: nat :: Unused(s', n)
    ensures Complete(s')
  {
    KeptAdmitted(s, s');
    forall c | 0 <= c < |s'.ends.chans| ensures ChanOk(s', c) { assert ChanOk(s, c); }
    forall w, i | 0 <= i < |Queue(s'.inbox, w)| ensures MessageOk(s', w, i) { KeptMessage(s, s', w, i); }
    forall v, m | m in Queue(s'.outbox, v) ensures ReplyOk(s', m) {
      if m in Queue(s.outbox, v) { assert ReplyOk(s, m); }
    }
    forall p | p in s'.main.registry ensures Attached(s', p.one, p.other, |Queue(s'.inbox, p.one)|) {
      KeptAttached(s, s', p.one, p.other, |Queue(s.inbox, p.one)|);
    }
    SameMap(s, s');
    assert Ports(s);
  }

  ghost predicate WireShrinks(s: Sys, s': Sys) { forall n, x :: x in Queue(s'.wire, n) ==> x in Queue(s.wire, n) }

  lemma ShrunkComplete(s: Sys, s': Sys)
    requires Complete(s) && Kept(s, s') && WireShrinks(s, s')
    ensures Complete(s')
  {
    KeptAdmitted(s, s');
    assert Ports(s);
    forall p ensures WireOk(s', p) { assert WireOk(s, p); }
    forall n: nat ensures Unused(s', n) {
      assert Unused(s, n);
      if Queue(s'.wire, n) != [] { assert Queue(s'.wire, n)[0] in Queue(s'.wire, n); }
    }
    KeptComplete(s, s');
  }

  /** A call that needs no request goes to a callee that admits it. */
  lemma FastComplete(s: Sys, s': Sys, w: Worker, d: Device)
    requires Safe(s) && Complete(s) && OneWay(s.main.registry) && FastPath(s.ends, w, d).Some?
    requires s' == SendCalls(s.(ends := s.ends.(calls := s.ends.calls + 1)), FastPath(s.ends, w, d).value, d, [s.ends.calls])
    ensures Complete(s')
  {
    assert MapOk(s, At(w, d));
    var b := s.ends.deviceWorker[At(w, d)];
    SlotOfCaller(s, w, b);
    SendGood(s.(ends := s.ends.(calls := s.ends.calls + 1)), s', FastPath(s.ends, w, d).value, d, [s.ends.calls]);
    FastFinish(s, s', w, d, b);
  }

  lemma FastFinish(s: Sys, s': Sys, w: Worker, d: Device, b: Worker)
    requires Complete(s) && Kept(s, s') && Pair(w, b) in s.main.registry && Admitted(s, w, b, d)
    requires WireAdds(s, s', s.main.registry[Pair(w, b)].port, d)
    ensures Complete(s')
  {
    KeptAdmitted(s, s');
    assert Ports(s);
    AddedWire(s, s', Pair(w, b), d);
    KeptComplete(s, s');
  }

  lemma CallComplete(s: Sys, s': Sys, w: Worker, d: Device, key: Key)
    requires Safe(s) && Complete(s) && OneWay(s.main.registry) && s' == CallDevice(s, w, d, key)
    ensures Complete(s')
  {
    if FastPath(s.ends, w, d).Some? {
      FastComplete(s, s', w, d);
    } else {
      SlowKept(s, s', w, d, key);
      ShrunkComplete(s, s');
    }
  }

  lemma SlowKept(s: Sys, s': Sys, w: Worker, d: Device, key: Key)
    requires Sound(s.ends) && FastPath(s.ends, w, d).None? && s' == CallDevice(s, w, d, key)
    ensures Kept(s, s') && WireShrinks(s, s')
  {
  }

  /** Whatever reaches a callee end that has its port, it allows. */
  lemma NothingRefused(s: Sys, c: nat, d: Device)
    requires Safe(s) && Complete(s) && c < |s.ends.chans| && s.ends.chans[c].allowed.Some?
    requires d in Queue(s.wire, s.ends.chans[c].port)
    ensures d in s.ends.chans[c].allowed.value
  {
    var ch := s.ends.chans[c];
    assert ChanOk(s, c);
    assert WireOk(s, Pair(ch.peer, ch.owner));
    assert Admitted(s, ch.peer, ch.owner, d);
    NoOpenQueued(s, ch.owner, ch.peer);
  }

  lemma NoOpenQueued(s: Sys, w: Worker, a: Worker)
    requires Safe(s) && Complete(s) && Pair(w, a) in s.ends.lastOpen
    ensures forall m, d :: m in Queue(s.inbox, w) ==> !OpenFor(m, a, d)
  {
    forall i | 0 <= i < |Queue(s.inbox, w)| && Queue(s.inbox, w)[i].ChannelOpen?
      ensures Queue(s.inbox, w)[i].caller != a
    {
      assert MessageOk(s, w, i);
      FirstOpen(s, w, i);
    }
  }

  lemma DispatchComplete(s: Sys, s': Sys, c: nat)
    requires Safe(s) && Complete(s) && c < |s.ends.chans| && s' == Dispatch(s, s.ends.chans[c])
    ensures Complete(s')
  {
    var ch := s.ends.chans[c];
    if !ch.closed && ch.allowed.Some? && Queue(s.wire, ch.port) != [] {
      var d := s.wire[ch.port][0];
      assert d in Queue(s.wire, ch.port);
      NothingRefused(s, c, d);
    }
    ShrunkComplete(s, s');
  }

  lemma DropComplete(s: Sys, s': Sys, p: nat, i: nat)
    requires Complete(s) && i < |Queue(s.wire, p)| && s' == s.(wire := s.wire[p := s.wire[p][..i] + s.wire[p][i + 1..]])
    ensures Complete(s')
  {
    ShrunkComplete(s, s');
  }

  // ----- runs -----

  lemma NextComplete(s: Sys, s': Sys, step: Step)
    requires Safe(s) && Complete(s) && Calm(step) && s' == Next(s, step)
    requires OneWay(s.main.registry) && OneWay(s'.main.registry)
    ensures Complete(s')
  {
    match step
    case CallStep(w, d, k) => CallComplete(s, s', w, d, k);
    case MainStep(w, limited, missing) => MainComplete(s, s', w, limited, missing);
    case AuthStep(i, ok, code) => if i < |s.main.checks| { AuthComplete(s, s', i, ok, code); }
    case WorkerStep(w) => WorkerComplete(s, s', w);
    case DispatchStep(c) => if c < |s.ends.chans| { DispatchComplete(s, s', c); }
    case DropStep(p, i) => if i < |Queue(s.wire, p)| { DropComplete(s, s', p, i); }
    case _ => BookkeepingComplete(s, s', step);
  }

  lemma BookkeepingComplete(s: Sys, s': Sys, step: Step)
    requires Complete(s) && Sound(s.ends) && Calm(step) && s' == Next(s, step)
    requires step.RecheckStep? || step.RecheckedStep? || step.OnlineStep?
    ensures Complete(s')
  {
    SameComplete(s, s');
  }

  ghost predicate NoSelfInvalidate(s: Sys) { forall w, m :: m in Queue(s.outbox, w) ==> !m.SelfInvalidate? }

  ghost predicate Grows(s: Sys, s': Sys) {
    NoSelfInvalidate(s') && forall p :: p in s.main.registry ==> p in s'.main.registry
  }

  lemma MainGrows(s: Sys, s': Sys, w: Worker, limited: bool, missing: string)
    requires NoSelfInvalidate(s) && s' == MainReceives(s, w, limited, missing)
    ensures Grows(s, s')
  {
    if Queue(s.outbox, w) != [] {
      assert s.outbox[w][0] in Queue(s.outbox, w);
      assert forall v, m :: m in Queue(s'.outbox, v) ==> m in Queue(s.outbox, v);
    }
  }

  lemma AuthGrows(s: Sys, s': Sys, i: nat, ok: bool, code: string)
    requires NoSelfInvalidate(s) && i < |s.main.checks| && s' == Authenticated(s, i, ok, code)
    ensures Grows(s, s')
  {
    assert s'.outbox == s.outbox;
  }

  lemma WorkerGrows(s: Sys, s': Sys, w: Worker)
    requires Sound(s.ends) && NoSelfInvalidate(s) && s' == WorkerReceives(s, w)
    ensures Grows(s, s')
  {
    assert s'.main == s.main;
    forall v: Worker, m | m in Queue(s'.outbox, v) ensures !m.SelfInvalidate? {
      assert m in Queue(s.outbox, v) || m.AllowReply?;
    }
  }

  lemma CallGrows(s: Sys, s': Sys, w: Worker, d: Device, key: Key)
    requires Sound(s.ends) && NoSelfInvalidate(s) && s' == CallDevice(s, w, d, key)
    ensures Grows(s, s')
  {
    forall v: Worker, m | m in Queue(s'.outbox, v) ensures !m.SelfInvalidate? {
      assert m in Queue(s.outbox, v) || m.ChannelRequest?;
    }
  }

  lemma CalmGrows(s: Sys, s': Sys, step: Step)
    requires Sound(s.ends) && NoSelfInvalidate(s) && Calm(step) && s' == Next(s, step)
    ensures Grows(s, s')
  {
    match step
    case CallStep(w, d, k) => CallGrows(s, s', w, d, k);
    case MainStep(w, limited, missing) => MainGrows(s, s', w, limited, missing);
    case AuthStep(i, ok, code) => if i < |s.main.checks| { AuthGrows(s, s', i, ok, code); }
    case WorkerStep(w) => WorkerGrows(s, s', w);
    case RecheckedStep(r, ok) => assert s'.outbox == s.outbox && s'.main.registry == s.main.registry;
    case DispatchStep(c) => assert s'.outbox == s.outbox && s'.main.registry == s.main.registry;
    case _ =>
  }

  lemma {:induction false} CalmRun(steps: seq<Step>)
    requires forall i :: 0 <= i < |steps| ==> Calm(steps[i])
    ensures NoSelfInvalidate(Exec(steps))
    ensures steps != [] ==>
      forall p :: p in Exec(steps[..|steps| - 1]).main.registry ==> p in Exec(steps).main.registry
    decreases |steps|
  {
    if steps != [] {
      var before := steps[..|steps| - 1];
      CalmRun(before);
      CalmGrows(Exec(before), Exec(steps), steps[|steps| - 1]);
    }
  }

  lemma {:induction false} EveryCalmRunComplete(steps: seq<Step>)
    requires forall i :: 0 <= i < |steps| ==> Calm(steps[i])
    requires OneWay(Exec(steps).main.registry)
    ensures Complete(Exec(steps))
    decreases |steps|
  {
    if steps != [] {
      var before := steps[..|steps| - 1];
      CalmRun(steps);
      EveryCalmRunComplete(before);
      EveryRunSafe(before);
      NextComplete(Exec(before), Exec(steps), steps[|steps| - 1]);
    }
  }

  // ----- a grant releases what waits for it -----

  function Releases(ids: seq<nat>, port: nat): seq<Event> { seq(|ids|, i requires 0 <= i < |ids| => Released(ids[i], port)) }

  lemma {:induction false} SentReleases(c: Chan, device: Device, ids: seq<nat>)
    requires !c.closed && c.allowed.None?
    ensures Sent(c, device, ids).1 == Releases(ids, c.port)
    decreases |ids|
  {
    if ids != [] { SentReleases(c, device, ids[..|ids| - 1]); }
  }

  /** Handling a grant releases every call that waits for the device, in order, on the channel of the pair. */
  lemma {:induction false} GrantReleases(s: Sys, s': Sys, w: Worker, d: Device, b: Worker, p: Option<nat>)
    requires Safe(s) && Complete(s) && OneWay(s.main.registry) && s' == WorkerReceives(s, w)
    requires Queue(s.inbox, w) != [] && s.inbox[w][0] == ChannelGrant(d, b, p) && At(w, d) in s.ends.waiting
    ensures Pair(w, b) in s.main.registry && At(w, d) !in s'.ends.waiting
    ensures s'.log == s.log + Releases(s.ends.waiting[At(w, d)], s.main.registry[Pair(w, b)].port)
  {
    var s1 := s.(inbox := Pop(s.inbox, w), ends := Attach(s.ends, w, d, b, p));
    GrantReady(s, w, d, b, p);
    GrantEffect(s, s1, s', w, d, b, p);
    AttachedSlot(s, s1, w, d, b, p);
    FlushReleases(s1, s', w, d, b);
  }

  lemma {:induction false} FlushReleases(s: Sys, s': Sys, w: Worker, d: Device, b: Worker)
    requires Sound(s.ends) && CallerSlot(s, w, b) && s' == Flush(s, w, d, Some(b), "") && At(w, d) in s.ends.waiting
    ensures At(w, d) !in s'.ends.waiting
    ensures s'.log == s.log + Releases(s.ends.waiting[At(w, d)], s.main.registry[Pair(w, b)].port)
  {
    SentReleases(s.ends.chans[s.ends.slots[Pair(w, b)]], d, s.ends.waiting[At(w, d)]);
  }
}
